/** Commands over any history of appends, polls, failed acknowledgements and restarts. */
module CommandRestarts {
  import opened Sequences
  import opened Wrappers
  import opened Commands

  /** The IDs one poll met for the first time in its process, and whether acknowledging them worked. */
  datatype PollLog = PollLog(met: set<Id>, ok: bool)

  /** `clock` is the wall clock; `appended` every command ever queued; `polls` every poll of any process. */
  datatype System = System(
    file: Option<seq<Line>>, clock: int, process: Process,
    appended: seq<Command>, polls: seq<PollLog>, reloadRestarts: nat)

  datatype Event =
    | Append(id: Id, action: Action, payload: string)
    | Scribble(line: Line)           // a line that is not a command
    | Tick(now: int)
    | Poll(ack: bool)
    | Restart(now: int)

  function Init(now: int): System { System(None, now, Process(0, now, {}, false, 0, []), [], [], 0) }

  /** IDs are fresh; a stopped process polls no more; a new process starts strictly later than anything before it. */
  ghost predicate Enabled(s: System, e: Event) {
    match e
    case Append(id, _, _) => id != "" && forall c :: c in s.appended ==> c.id != id
    case Scribble(line) => !line.Full?
    case Tick(now) => now >= s.clock
    case Poll(_) => !s.process.stop
    case Restart(now) => now > s.clock
  }

  function WithLine(file: Option<seq<Line>>, line: Line): Option<seq<Line>> {
    Some((if file.Some? then file.value else []) + [line])
  }

  function Next(s: System, e: Event): System {
    match e
    case Append(id, action, payload) =>
      var c := Command(id, action, s.clock, payload);
      s.(file := WithLine(s.file, Full(c)), appended := s.appended + [c])
    case Scribble(line) => s.(file := WithLine(s.file, line))
    case Tick(now) => s.(clock := now)
    case Poll(ack) =>
      var p := VisitAll(s.process, Queued(s.file));
      var met := p.processed - s.process.processed;
      s.(process := p, file := Acknowledged(s.file, met, ack),
         polls := s.polls + [PollLog(met, ack)])
    case Restart(now) =>
      s.(clock := now, process := Process(s.process.generation + 1, now, {}, false, 0, s.process.history),
         reloadRestarts := s.reloadRestarts + if s.process.exitCode == 75 then 1 else 0)
  }

  ghost predicate Run(s: System, es: seq<Event>, t: System)
    decreases |es|
  {
    if es == [] then s == t else Enabled(s, es[0]) && Run(Next(s, es[0]), es[1..], t)
  }

  // ----- the invariant -----------------------------------------------------------------------

  /** No command is carried out twice by one process, and no reload twice at all. */
  ghost predicate Once(history: seq<Handling>) {
    forall i, j :: 0 <= i < j < |history| && history[i].command.id == history[j].command.id ==>
      history[i].generation != history[j].generation && !history[j].command.action.Reload?
  }

  ghost predicate Known(cs: seq<Command>, appended: seq<Command>) { forall c :: c in cs ==> c in appended }

  ghost predicate DistinctIds(appended: seq<Command>) {
    forall c, d :: c in appended && d in appended && c.id == d.id ==> c == d
  }

  /** This process remembers all it has met; what earlier ones carried out was queued before this one started. */
  ghost predicate HistoryOk(p: Process, appended: seq<Command>) {
    && Once(p.history)
    && (forall h :: h in p.history ==> h.command in appended && h.generation <= p.generation)
    && (forall h :: h in p.history && h.generation == p.generation ==> h.command.id in p.processed)
    && (forall h :: h in p.history && h.generation < p.generation ==> h.command.createdAt < p.startedAt)
  }

  function Reloads(history: seq<Handling>): nat {
    if history == [] then 0
    else Reloads(history[..|history| - 1]) + if history[|history| - 1].command.action.Reload? then 1 else 0
  }

  ghost predicate CountOk(s: System) {
    s.reloadRestarts + (if s.process.exitCode == 75 then 1 else 0) <= Reloads(s.process.history)
  }

  ghost predicate Inv(s: System) {
    && Known(Queued(s.file), s.appended) && DistinctIds(s.appended)
    && (forall c :: c in s.appended ==> c.createdAt <= s.clock) && s.process.startedAt <= s.clock
    && HistoryOk(s.process, s.appended) && CountOk(s)
  }

  lemma VisitKeeps(p: Process, c: Command, appended: seq<Command>)
    requires HistoryOk(p, appended) && c in appended && DistinctIds(appended)
    ensures HistoryOk(Visit(p, c), appended)
    ensures Reloads(Visit(p, c).history) >= Reloads(p.history)
    ensures Visit(p, c).exitCode == 75 && p.exitCode != 75 ==> Reloads(Visit(p, c).history) > Reloads(p.history)
  {
    var q := Visit(p, c);
    if q.history != p.history {
      assert q.history[..|p.history|] == p.history;
      forall i | 0 <= i < |p.history| && p.history[i].command.id == c.id
        ensures p.history[i].generation != p.generation && !c.action.Reload?
      {
        assert p.history[i] in p.history && p.history[i].command == c;
      }
    }
  }

  lemma {:induction false} VisitAllKeeps(p: Process, cs: seq<Command>, appended: seq<Command>)
    requires HistoryOk(p, appended) && Known(cs, appended) && DistinctIds(appended)
    ensures var q := VisitAll(p, cs);
            && HistoryOk(q, appended)
            && Reloads(q.history) >= Reloads(p.history)
            && (q.exitCode == 75 && p.exitCode != 75 ==> Reloads(q.history) > Reloads(p.history))
            && (p.exitCode == 75 ==> q.exitCode == 75)
            && q.startedAt == p.startedAt
  {
    if cs != [] {
      var n := |cs| - 1;
      assert cs == cs[..n] + [cs[n]];
      VisitAllKeeps(p, cs[..n], appended);
      hide HistoryOk, Reloads, DistinctIds;
      VisitKeeps(VisitAll(p, cs[..n]), cs[n], appended);
    }
  }

  lemma {:induction false} LineAdded(file: Option<seq<Line>>, line: Line)
    ensures Queued(WithLine(file, line)) == if line.Full? then Queued(file) + [line.command] else Queued(file)
  {
    var lines := if file.Some? then file.value else [];
    assert (lines + [line])[..|lines|] == lines && CommandsIn([]) == [];
  }

  lemma AcknowledgedKnown(file: Option<seq<Line>>, ids: set<Id>, ack: bool)
    ensures forall c :: c in Queued(Acknowledged(file, ids, ack)) ==> c in Queued(file)
  {
    if file.Some? {
      KeptLines(file.value, ids);
      UnprocessedAre(CommandsIn(file.value), ids);
    }
  }

  lemma {:induction false} UnprocessedAre(cs: seq<Command>, ids: set<Id>)
    ensures forall c :: c in Unprocessed(cs, ids) <==> c in cs && c.id !in ids
  {
    if cs != [] {
      UnprocessedAre(cs[..|cs| - 1], ids);
      assert cs == cs[..|cs| - 1] + [cs[|cs| - 1]];
    }
  }

  lemma StepKeeps(s: System, e: Event)
    requires Inv(s) && Enabled(s, e)
    ensures Inv(Next(s, e))
  {
    hide Reloads, Once, VisitAll, Queued, WithLine, Acknowledged;
    match e
    case Append(id, action, payload) => LineAdded(s.file, Full(Command(id, action, s.clock, payload)));
    case Scribble(line) => LineAdded(s.file, line);
    case Tick(now) =>
    case Poll(ack) => PollKeeps(s, ack);
    case Restart(now) =>
  }

  lemma PollKeeps(s: System, ack: bool)
    requires Inv(s) && Enabled(s, Poll(ack))
    ensures Inv(Next(s, Poll(ack)))
  {
    VisitAllKeeps(s.process, Queued(s.file), s.appended);
    var met := VisitAll(s.process, Queued(s.file)).processed - s.process.processed;
    AcknowledgedKnown(s.file, met, ack);
    hide HistoryOk, DistinctIds, VisitAll, Queued, Acknowledged, Reloads;
  }

  lemma {:induction false} RunKeeps(s: System, es: seq<Event>, t: System)
    requires Inv(s) && Run(s, es, t)
    ensures Inv(t)
    decreases |es|
  {
    hide Inv, Next, Enabled;
    if es != [] {
      StepKeeps(s, es[0]);
      RunKeeps(Next(s, es[0]), es[1..], t);
    }
  }

  // ----- the results -----------------------------------------------------------------------------

  /** Reload is one-shot: carried out at most once in total, so restarts for it never outnumber the reloads queued. */
  lemma ReloadIsOneShot(now: int, es: seq<Event>, s: System)
    requires Run(Init(now), es, s)
    ensures Once(s.process.history)
    ensures s.reloadRestarts <= |ReloadsQueued(s.appended)|
  {
    RunKeeps(Init(now), es, s);
    assert Once(s.process.history);
    ReloadsAreDistinct(s.process.history);
    hide Reloads, ReloadsHandled;
    NoMore(ReloadsHandled(s.process.history), ReloadsQueued(s.appended));
  }

  function ReloadsQueued(appended: seq<Command>): set<Command> { set c | c in appended && c.action.Reload? }

  function ReloadsHandled(history: seq<Handling>): (r: set<Command>)
    ensures forall c :: c in r ==> c.action.Reload? && exists h :: h in history && h.command == c
    ensures forall h :: h in history && h.command.action.Reload? ==> h.command in r
  {
    if history == [] then {}
    else
      var before, last := ReloadsHandled(history[..|history| - 1]), history[|history| - 1];
      SplitLast(history);
      if last.command.action.Reload? then before + {last.command} else before
  }

  lemma {:induction false} ReloadsAreDistinct(history: seq<Handling>)
    requires Once(history)
    ensures Reloads(history) == |ReloadsHandled(history)|
  {
    if history != [] {
      var n, last := |history| - 1, history[|history| - 1];
      OncePrefix(history);
      ReloadsAreDistinct(history[..n]);
      if last.command.action.Reload? {
        LastIsNew(history);
      }
    }
  }

  lemma {:induction false} OncePrefix(history: seq<Handling>)
    requires Once(history) && history != []
    ensures Once(history[..|history| - 1])
  {
  }

  lemma {:induction false} LastIsNew(history: seq<Handling>)
    requires Once(history) && history != [] && history[|history| - 1].command.action.Reload?
    ensures history[|history| - 1].command !in ReloadsHandled(history[..|history| - 1])
  {
    var n := |history| - 1;
    hide ReloadsHandled;
    assert forall i :: 0 <= i < n ==> history[i].command != history[n].command;
    assert forall h :: h in history[..n] ==> h.command != history[n].command;
  }

  // ----- when a command is carried out again --------------------------------------------------------

  ghost predicate NoRepeats(history: seq<Handling>) {
    forall i, j :: 0 <= i < j < |history| ==> history[i].command.id != history[j].command.id
  }

  datatype Ack = Never | Failed | Succeeded

  /** How the last acknowledgement of a command went, if there has been one. */
  function LastAck(polls: seq<PollLog>, id: Id): Ack {
    if polls == [] then Never
    else if id in polls[|polls| - 1].met then if polls[|polls| - 1].ok then Succeeded else Failed
    else LastAck(polls[..|polls| - 1], id)
  }

  ghost predicate HasId(cs: seq<Command>, id: Id) { exists c :: c in cs && c.id == id }

  /** A command is in the file until an acknowledgement of it succeeds. */
  ghost predicate FileOk(s: System) {
    && (forall c :: c in s.appended ==> c.id != "" && (c in Queued(s.file) <==> LastAck(s.polls, c.id) != Succeeded))
    && (forall id :: LastAck(s.polls, id) != Never ==> HasId(s.appended, id))
    && (forall h :: h in s.process.history ==> LastAck(s.polls, h.command.id) != Never)
  }

  lemma {:induction false} OneMorePoll(polls: seq<PollLog>, poll: PollLog, id: Id)
    ensures LastAck(polls + [poll], id)
            == if id in poll.met then (if poll.ok then Succeeded else Failed) else LastAck(polls, id)
  {
    assert (polls + [poll])[..|polls|] == polls;
  }

  /** What a poll leaves in the file. */
  lemma LeftInFile(file: Option<seq<Line>>, ids: set<Id>, ack: bool)
    ensures forall c :: c in Queued(Acknowledged(file, ids, ack)) <==> c in Queued(file) && !(ack && c.id in ids)
  {
    if file.Some? {
      KeptLines(file.value, ids);
      UnprocessedAre(CommandsIn(file.value), ids);
    }
  }

  /**
   What a poll adds to the history: exactly the queued commands its process has not met, but no reload from before it
   started.
   */
  lemma {:induction false} PollHandles(p: Process, cs: seq<Command>, appended: seq<Command>)
    requires Known(cs, appended) && DistinctIds(appended) && forall c :: c in cs ==> c.id != ""
    ensures var q := VisitAll(p, cs);
            && p.history <= q.history
            && (forall k :: |p.history| <= k < |q.history| ==>
                  var c := q.history[k].command;
                  c in cs && c.id !in p.processed && !Stale(p, c) && q.history[k].generation == p.generation)
            && (forall c :: c in cs && c.id !in p.processed && !Stale(p, c) ==>
                  exists k :: |p.history| <= k < |q.history| && q.history[k].command == c)
  {
    if cs != [] {
      var n := |cs| - 1;
      assert cs == cs[..n] + [cs[n]];
      PollHandles(p, cs[..n], appended);
      VisitedIds(p, cs[..n]);
      var q, c := VisitAll(p, cs[..n]), cs[n];
      var r := Visit(q, c);
      assert forall k :: 0 <= k < |q.history| ==> r.history[k] == q.history[k];
      if c.id !in p.processed && !Stale(p, c) {
        if c.id in q.processed {
          var d :| d in cs[..n] && d.id == c.id;
          assert d == c;
        } else {
          assert r.history[|q.history|].command == c;
        }
      }
    }
  }

  /**
   A command carried out by an earlier process, not a reload, not yet met by this one, and never acknowledged
   successfully.
   */
  ghost predicate Owes(s: System, h: Handling) {
    && h in s.process.history && !h.command.action.Reload? && h.command.id !in s.process.processed
    && LastAck(s.polls, h.command.id) == Failed
  }

  /** A command that a poll carries out again was owed. */
  lemma {:induction false} RepeatIsOwed(s: System, ack: bool, h: Handling, k: nat)
    requires Inv(s) && FileOk(s) && h in s.process.history
    requires var history := Next(s, Poll(ack)).process.history;
             |s.process.history| <= k < |history| && history[k].command == h.command
    ensures Owes(s, h)
  {
    var p, cs, c := s.process, Queued(s.file), h.command;
    PollHandles(p, cs, s.appended);
    VisitAllKeeps(p, cs, s.appended);
    var q := VisitAll(p, cs);
    assert c in cs && c.id !in p.processed && c in s.appended && LastAck(s.polls, c.id) != Never;
    assert Once(q.history);
    hide VisitAll, Queued, LastAck, CountOk, FileOk, Known, DistinctIds, HistoryOk, Once;
    RepeatIsNoReload(p.history, q.history, h, k);
  }

  lemma {:induction false} RepeatIsNoReload(before: seq<Handling>, history: seq<Handling>, h: Handling, k: nat)
    requires before <= history && Once(history) && h in before
    requires |before| <= k < |history| && history[k].command == h.command
    ensures !h.command.action.Reload?
  {
    var i :| 0 <= i < |before| && before[i] == h;
    assert history[i] == h;
  }

  lemma {:induction false} OwedRepeats(s: System, ack: bool, h: Handling) returns (k: nat)
    requires Inv(s) && FileOk(s) && Owes(s, h)
    ensures var history := Next(s, Poll(ack)).process.history;
            && s.process.history <= history
            && |s.process.history| <= k < |history| && history[k].command == h.command
  {
    var p, cs, c := s.process, Queued(s.file), h.command;
    PollHandles(p, cs, s.appended);
    var q := VisitAll(p, cs);
    assert c in s.appended && c in cs;
    hide VisitAll, Queued, LastAck, CountOk, Once, Known, DistinctIds, FileOk;
    assert !Stale(p, c);
    k :| |p.history| <= k < |q.history| && q.history[k].command == c;
  }

  /** Of all commands carried out so far, a poll carries out again exactly those. */
  lemma {:induction false} PollRepeats(s: System, ack: bool, h: Handling)
    requires Inv(s) && FileOk(s) && h in s.process.history
    ensures var history, n := Next(s, Poll(ack)).process.history, |s.process.history|;
            Owes(s, h) <==> exists k :: n <= k < |history| && history[k].command == h.command
  {
    hide Inv, FileOk, Next;
    var history, n := Next(s, Poll(ack)).process.history, |s.process.history|;
    if k :| n <= k < |history| && history[k].command == h.command { RepeatIsOwed(s, ack, h, k); }
    if Owes(s, h) { var _ := OwedRepeats(s, ack, h); }
  }

  lemma FilePollKeeps(s: System, ack: bool)
    requires Inv(s) && FileOk(s)
    ensures FileOk(Next(s, Poll(ack)))
  {
    var p, cs := s.process, Queued(s.file);
    var q := VisitAll(p, cs);
    var met := q.processed - p.processed;
    MetAre(s);
    LeftInFile(s.file, met, ack);
    hide VisitAll, Queued, LastAck, Acknowledged, HistoryOk, CountOk, DistinctIds, HasId;
    forall id
      ensures LastAck(s.polls + [PollLog(met, ack)], id)
              == if id in met then (if ack then Succeeded else Failed) else LastAck(s.polls, id)
    {
      OneMorePoll(s.polls, PollLog(met, ack), id);
    }
  }

  /** The IDs a poll meets are those of queued commands, and it meets all that it carries out. */
  lemma MetAre(s: System)
    requires Inv(s) && FileOk(s)
    ensures var q, cs := VisitAll(s.process, Queued(s.file)), Queued(s.file);
            var met := q.processed - s.process.processed;
            && (forall id :: id in met ==> HasId(s.appended, id))
            && (forall c :: c in s.appended && c.id in met ==> c in cs)
            && (forall h :: h in q.history ==> h in s.process.history || h.command.id in met)
  {
    var p, cs := s.process, Queued(s.file);
    var q := VisitAll(p, cs);
    VisitedIds(p, cs);
    PollHandles(p, cs, s.appended);
    hide VisitAll, Queued, LastAck, HistoryOk, CountOk;
    var met := q.processed - p.processed;
    forall c | c in s.appended && c.id in met ensures c in cs {
      var d :| d in cs && d.id == c.id;
    }
    forall h | h in q.history ensures h in p.history || h.command.id in met {
      var k :| 0 <= k < |q.history| && q.history[k] == h;
      if k < |p.history| { assert p.history[k] == h; }
    }
  }

  lemma FileStepKeeps(s: System, e: Event)
    requires Inv(s) && FileOk(s) && Enabled(s, e)
    ensures FileOk(Next(s, e))
  {
    hide VisitAll, Queued, WithLine, Acknowledged, LastAck, HistoryOk, CountOk;
    match e
    case Append(id, action, payload) => LineAdded(s.file, Full(Command(id, action, s.clock, payload)));
    case Scribble(line) => LineAdded(s.file, line);
    case Tick(now) =>
    case Poll(ack) => FilePollKeeps(s, ack);
    case Restart(now) =>
  }

  lemma {:induction false} FileRunKeeps(s: System, es: seq<Event>, t: System)
    requires Inv(s) && FileOk(s) && Run(s, es, t)
    ensures Inv(t) && FileOk(t)
    decreases |es|
  {
    if es != [] {
      hide Inv, FileOk, Next, Enabled;
      StepKeeps(s, es[0]);
      FileStepKeeps(s, es[0]);
      FileRunKeeps(Next(s, es[0]), es[1..], t);
    }
  }

  /** In every run, a command once carried out is still queued exactly if its last acknowledgement failed. */
  lemma StillQueuedIff(now: int, es: seq<Event>, s: System)
    requires Run(Init(now), es, s)
    ensures forall h :: h in s.process.history ==>
              (h.command in Queued(s.file) <==> LastAck(s.polls, h.command.id) == Failed)
  {
    FileRunKeeps(Init(now), es, s);
    hide Run, LastAck, Queued, Once, CountOk, Known, DistinctIds;
    forall h | h in s.process.history
      ensures h.command in Queued(s.file) <==> LastAck(s.polls, h.command.id) == Failed
    {
      assert h.command in s.appended && LastAck(s.polls, h.command.id) != Never;
    }
  }

  /**
   In every run, the first poll of a process carries out again exactly the commands, other than reloads, that are
   still queued.
   */
  lemma RestartRepeats(now: int, es: seq<Event>, s: System, ack: bool, h: Handling)
    requires Run(Init(now), es, s) && s.process.processed == {} && h in s.process.history
    ensures var history, n := Next(s, Poll(ack)).process.history, |s.process.history|;
            (exists k :: n <= k < |history| && history[k].command == h.command)
            <==> h.command in Queued(s.file) && !h.command.action.Reload?
  {
    FileRunKeeps(Init(now), es, s);
    StillQueuedIff(now, es, s);
    hide Run, LastAck, Queued, Next;
    PollRepeats(s, ack, h);
  }

  /** From position `n` on, a reload has been carried out. */
  ghost predicate Reloaded(history: seq<Handling>, n: nat) {
    exists k :: n <= k < |history| && history[k].command.action.Reload?
  }

  lemma ReloadedOneMore(history: seq<Handling>, n: nat, h: Handling)
    requires n <= |history|
    ensures Reloaded(history + [h], n) <==> Reloaded(history, n) || h.command.action.Reload?
  {
    if k :| n <= k < |history| && history[k].command.action.Reload? { assert (history + [h])[k] == history[k]; }
    if h.command.action.Reload? { assert (history + [h])[|history|] == h; }
  }

  /** A process is stopped, with the exit code for a restart, by carrying out a reload and by nothing else. */
  lemma {:induction false} StoppedByReload(p: Process, cs: seq<Command>)
    ensures var q := VisitAll(p, cs);
            && p.history <= q.history
            && q.stop == (p.stop || Reloaded(q.history, |p.history|))
            && q.exitCode == if Reloaded(q.history, |p.history|) then 75 else p.exitCode
  {
    if cs != [] {
      var n := |cs| - 1;
      StoppedByReload(p, cs[..n]);
      var q := VisitAll(p, cs[..n]);
      ReloadedOneMore(q.history, |p.history|, Handling(cs[n], q.generation));
      hide Reloaded;
    }
  }

  /**
   In every run a poll carries out exactly the queued commands its process has not met, except reloads queued before the
   process started; the process stops, to be restarted, exactly if it had stopped or a reload is among them.
   */
  lemma PollCarriesOut(now: int, es: seq<Event>, s: System, ack: bool)
    requires Run(Init(now), es, s)
    ensures var t, n := Next(s, Poll(ack)).process, |s.process.history|;
            && s.process.history <= t.history
            && (forall c :: c in Queued(s.file) && c.id !in s.process.processed ==>
                  ((exists k :: n <= k < |t.history| && t.history[k].command == c)
                   <==> c.action.Reload? ==> c.createdAt >= s.process.startedAt))
            && (forall k :: n <= k < |t.history| ==>
                  t.history[k].command in Queued(s.file) && t.history[k].command.id !in s.process.processed)
            && var reloads := exists c :: c in Queued(s.file) && c.id !in s.process.processed
                                          && c.action.Reload? && c.createdAt >= s.process.startedAt;
               t.stop == (s.process.stop || reloads) && t.exitCode == if reloads then 75 else s.process.exitCode
  {
    FileRunKeeps(Init(now), es, s);
    var p, cs := s.process, Queued(s.file);
    PollHandles(p, cs, s.appended);
    StoppedByReload(p, cs);
    hide Run, VisitAll, Queued, LastAck, HistoryOk, CountOk, DistinctIds;
    var q := VisitAll(p, cs);
    if k :| |p.history| <= k < |q.history| && q.history[k].command.action.Reload? {
      assert q.history[k].command in cs;
    }
  }

  // ----- in what order -----------------------------------------------------------------------------

  /** Of the commands queued, those new to a process, without reloads from before it started. */
  function Due(p: Process, cs: seq<Command>): seq<Command> {
    if cs == [] then []
    else
      var last := cs[|cs| - 1];
      Due(p, cs[..|cs| - 1])
      + if last.id !in p.processed && (last.action.Reload? ==> last.createdAt >= p.startedAt) then [last] else []
  }

  function HandledBy(generation: nat, cs: seq<Command>): (r: seq<Handling>)
    ensures |r| == |cs|
  {
    seq(|cs|, i requires 0 <= i < |cs| => Handling(cs[i], generation))
  }

  ghost predicate Unrepeated(cs: seq<Command>) {
    forall i, j :: 0 <= i < j < |cs| ==> cs[i].id != cs[j].id
  }

  lemma {:induction false} UnprocessedUnrepeated(cs: seq<Command>, ids: set<Id>)
    requires Unrepeated(cs)
    ensures Unrepeated(Unprocessed(cs, ids))
  {
    if cs != [] {
      var n := |cs| - 1;
      UnprocessedUnrepeated(cs[..n], ids);
      UnprocessedAre(cs[..n], ids);
      forall c | c in Unprocessed(cs[..n], ids) ensures c.id != cs[n].id {
        var i :| 0 <= i < n && cs[i] == c;
      }
    }
  }

  lemma {:induction false} QueueStaysUnrepeated(s: System, es: seq<Event>, t: System)
    requires Inv(s) && Unrepeated(Queued(s.file)) && Run(s, es, t)
    ensures Unrepeated(Queued(t.file))
    decreases |es|
  {
    if es != [] {
      var e, u := es[0], Next(s, es[0]);
      StepKeeps(s, e);
      match e {
        case Append(id, action, payload) => LineAdded(s.file, Full(Command(id, action, s.clock, payload)));
        case Scribble(line) => LineAdded(s.file, line);
        case Poll(ack) =>
          if s.file.Some? {
            var met := VisitAll(s.process, Queued(s.file)).processed - s.process.processed;
            KeptLines(s.file.value, met);
            UnprocessedUnrepeated(Queued(s.file), met);
          }
        case _ =>
      }
      hide VisitAll, HistoryOk, CountOk, DistinctIds, Queued;
      assert Unrepeated(Queued(u.file));
      QueueStaysUnrepeated(u, es[1..], t);
    }
  }

  lemma {:induction false} VisitsInOrder(p: Process, cs: seq<Command>)
    requires Unrepeated(cs) && forall c :: c in cs ==> c.id != ""
    ensures VisitAll(p, cs).history == p.history + HandledBy(p.generation, Due(p, cs))
    ensures VisitAll(p, cs).generation == p.generation && VisitAll(p, cs).startedAt == p.startedAt
  {
    if cs != [] {
      var n := |cs| - 1;
      SplitLast(cs);
      VisitsInOrder(p, cs[..n]);
      VisitedIds(p, cs[..n]);
      var q := VisitAll(p, cs[..n]);
      assert cs[n].id in q.processed <==> cs[n].id in p.processed;
      OneMoreHandled(p.generation, Due(p, cs[..n]), cs[n]);
      hide HandledBy, Unrepeated;
    } else {
      assert HandledBy(p.generation, []) == [];
    }
  }

  lemma {:induction false} OneMoreHandled(generation: nat, cs: seq<Command>, c: Command)
    ensures HandledBy(generation, cs + [c]) == HandledBy(generation, cs) + [Handling(c, generation)]
    ensures HandledBy(generation, cs + []) == HandledBy(generation, cs)
  {
    assert cs + [] == cs;
  }

  /** In every run a poll carries commands out in the order in which they are queued. */
  lemma PollsInOrder(now: int, es: seq<Event>, s: System, ack: bool)
    requires Run(Init(now), es, s)
    ensures Next(s, Poll(ack)).process.history
            == s.process.history + HandledBy(s.process.generation, Due(s.process, Queued(s.file)))
  {
    FileRunKeeps(Init(now), es, s);
    QueueStaysUnrepeated(Init(now), es, s);
    hide Run, VisitAll, LastAck, HistoryOk, CountOk, DistinctIds;
    assert forall c :: c in Queued(s.file) ==> c in s.appended && c.id != "";
    VisitsInOrder(s.process, Queued(s.file));
  }

  // ----- what else stays -----------------------------------------------------------------------------

  function LinesOf(file: Option<seq<Line>>): seq<Line> { if file.Some? then file.value else [] }

  /** The unreadable lines that a run writes. */
  function Scribbled(es: seq<Event>): seq<Line> {
    if es == [] then []
    else (if es[0].Scribble? && es[0].line.Garbage? then [es[0].line] else []) + Scribbled(es[1..])
  }

  /** The wall clock after a run. */
  function ClockAfter(es: seq<Event>, now: int): int {
    if es == [] then now
    else ClockAfter(es[1..], if es[0].Tick? || es[0].Restart? then es[0].now else now)
  }

  lemma {:induction false} GarbageAdded(file: Option<seq<Line>>, line: Line)
    ensures GarbageIn(LinesOf(WithLine(file, line)))
            == GarbageIn(LinesOf(file)) + if line.Garbage? then [line] else []
  {
    TakeAppended(LinesOf(file), [line]);
  }

  lemma GarbageKept(file: Option<seq<Line>>, ids: set<Id>, ack: bool)
    ensures GarbageIn(LinesOf(Acknowledged(file, ids, ack))) == GarbageIn(LinesOf(file))
  {
    if file.Some? { KeptLines(file.value, ids); }
  }

  /** Lines that nobody can read stay in the file for good, in order; commands are stamped with the clock's time. */
  lemma {:induction false} GarbageStays(s: System, es: seq<Event>, t: System)
    requires Run(s, es, t)
    ensures GarbageIn(LinesOf(t.file)) == GarbageIn(LinesOf(s.file)) + Scribbled(es)
    ensures t.clock == ClockAfter(es, s.clock)
    decreases |es|
  {
    if es != [] {
      var e := es[0];
      match e {
        case Append(id, action, payload) => GarbageAdded(s.file, Full(Command(id, action, s.clock, payload)));
        case Scribble(line) => GarbageAdded(s.file, line);
        case Poll(ack) =>
          GarbageKept(s.file, VisitAll(s.process, Queued(s.file)).processed - s.process.processed, ack);
        case _ =>
      }
      hide VisitAll, Queued, GarbageIn, Acknowledged, WithLine;
      GarbageStays(Next(s, e), es[1..], t);
    }
  }

  /** Some poll in the run finds a command that it owes an acknowledgement to. */
  ghost predicate PollsOwing(s: System, es: seq<Event>)
    decreases |es|
  {
    && es != []
    && Enabled(s, es[0])
    && ((es[0].Poll? && exists h :: Owes(s, h)) || PollsOwing(Next(s, es[0]), es[1..]))
  }

  lemma {:induction false} PollAndRepeats(s: System, ack: bool)
    requires Inv(s) && FileOk(s)
    ensures NoRepeats(Next(s, Poll(ack)).process.history) <==> NoRepeats(s.process.history) && !exists h :: Owes(s, h)
  {
    var p, history := s.process, Next(s, Poll(ack)).process.history;
    var n := |p.history|;
    PollOnce(s, ack);
    hide Next, FileOk, Owes, Inv;
    if h :| Owes(s, h) {
      OwedIsHandled(s, h);
      var k := OwedRepeats(s, ack, h);
      var i :| 0 <= i < n && p.history[i] == h;
      assert history[i] == h;
    } else if NoRepeats(p.history) {
      forall i, j | 0 <= i < j < |history| ensures history[i].command.id != history[j].command.id {
        if i < n <= j && history[i].command == history[j].command {
          assert history[i] == p.history[i] && history[i] in p.history;
          RepeatIsOwed(s, ack, history[i], j);
        } else if j < n {
          assert history[i] == p.history[i] && history[j] == p.history[j];
        }
      }
    } else {
      assert forall i :: 0 <= i < n ==> history[i] == p.history[i];
    }
  }

  /** One poll carries out no two commands of the same ID, and IDs tell commands apart. */
  lemma {:induction false} PollOnce(s: System, ack: bool)
    requires Inv(s) && FileOk(s)
    ensures var history, n := Next(s, Poll(ack)).process.history, |s.process.history|;
            && s.process.history <= history
            && (forall i, j :: n <= i < j < |history| ==> history[i].command.id != history[j].command.id)
            && (forall i, j :: 0 <= i < j < |history| && history[i].command.id == history[j].command.id ==>
                  history[i].command == history[j].command)
  {
    var p, cs := s.process, Queued(s.file);
    VisitAllKeeps(p, cs, s.appended);
    PollHandles(p, cs, s.appended);
    var q := VisitAll(p, cs);
    hide VisitAll, Queued, LastAck, CountOk, FileOk;
    assert forall i :: 0 <= i < |q.history| ==> q.history[i] in q.history && q.history[i].command in s.appended;
  }

  lemma OwedIsHandled(s: System, h: Handling)
    requires Owes(s, h)
    ensures h in s.process.history
  {
  }

  lemma {:induction false} RepeatsAlong(s: System, es: seq<Event>, t: System)
    requires Inv(s) && FileOk(s) && Run(s, es, t)
    ensures NoRepeats(t.process.history) <==> NoRepeats(s.process.history) && !PollsOwing(s, es)
    decreases |es|
  {
    if es != [] {
      var u := Next(s, es[0]);
      if es[0].Poll? { PollAndRepeats(s, es[0].ack); } else { assert u.process.history == s.process.history; }
      hide Inv, FileOk, Next, Enabled, NoRepeats, Owes;
      StepKeeps(s, es[0]);
      FileStepKeeps(s, es[0]);
      RepeatsAlong(u, es[1..], t);
    }
  }

  /**
   A run carries nothing out twice exactly if no poll in it finds a command, other than a reload, that an earlier
   process carried out and whose last acknowledgement failed.
   */
  lemma NoRepeatsIff(now: int, es: seq<Event>, s: System)
    requires Run(Init(now), es, s)
    ensures NoRepeats(s.process.history) <==> !PollsOwing(Init(now), es)
  {
    RepeatsAlong(Init(now), es, s);
  }

  ghost predicate Acknowledges(polls: seq<PollLog>) {
    forall i :: 0 <= i < |polls| && polls[i].met != {} ==> polls[i].ok
  }

  lemma {:induction false} NothingFailed(polls: seq<PollLog>, id: Id)
    requires Acknowledges(polls)
    ensures LastAck(polls, id) != Failed
  {
    if polls != [] { NothingFailed(polls[..|polls| - 1], id); }
  }

  lemma {:induction false} NeverOwing(s: System, es: seq<Event>, t: System)
    requires Run(s, es, t) && Acknowledges(t.polls)
    ensures Acknowledges(s.polls) && !PollsOwing(s, es)
    decreases |es|
  {
    if es != [] {
      var u := Next(s, es[0]);
      assert s.polls <= u.polls by { hide VisitAll; }
      hide Next, Enabled, LastAck;
      NeverOwing(u, es[1..], t);
      assert forall i :: 0 <= i < |s.polls| ==> s.polls[i] == u.polls[i];
      forall h ensures !Owes(s, h) { NothingFailed(s.polls, h.command.id); }
    }
  }

  /** If no acknowledgement failed, no command of any kind was carried out twice, whatever the restarts. */
  lemma AcknowledgedOnce(now: int, es: seq<Event>, s: System)
    requires Run(Init(now), es, s) && Acknowledges(s.polls)
    ensures NoRepeats(s.process.history)
  {
    hide Run, PollsOwing, NoRepeats;
    NoRepeatsIff(now, es, s);
    NeverOwing(Init(now), es, s);
  }

  // ----- what each assumption is for ------------------------------------------------------------------

  /** A failed acknowledgement and a restart: a command that is not a reload is carried out again. */
  function Forgotten(): seq<Event> { [Append("a", Other("disconnect"), ""), Poll(false), Restart(1), Poll(true)] }

  lemma ForgottenRunsTwice() returns (s: System)
    ensures Run(Init(0), Forgotten(), s) && |s.process.history| == 2
    ensures s.process.history[0].command == s.process.history[1].command
  {
    var c := Command("a", Other("disconnect"), 0, "");
    var s1 := Next(Init(0), Append("a", Other("disconnect"), ""));
    assert [] + [Full(c)] == [Full(c)] && [] + [c] == [c];
    OnlyOne(s1, c, false);
    var s2 := Next(s1, Poll(false));
    var s3 := Next(s2, Restart(1));
    OnlyOne(s3, c, true);
    s := Next(s3, Poll(true));
    var es := Forgotten();
    assert es[1..] == [Poll(false), Restart(1), Poll(true)] && es[1..][1..] == [Restart(1), Poll(true)];
    assert es[1..][1..][1..] == [Poll(true)] && [Poll(true)][1..] == [];
    hide VisitAll, Acknowledged;
  }

  /** Polling a queue of one command, not a reload, that is new to the process. */
  lemma OnlyOne(s: System, c: Command, ack: bool)
    requires s.file == Some([Full(c)]) && c.id != "" && !c.action.Reload? && s.process.processed == {}
    ensures var t := Next(s, Poll(ack));
            && t.process == s.process.(processed := {c.id},
                                       history := s.process.history + [Handling(c, s.process.generation)])
            && (!ack ==> t.file == s.file)
  {
    assert [Full(c)][..0] == [] && CommandsIn([Full(c)]) == [c];
    assert [c][..0] == [] && VisitAll(s.process, [c]) == Visit(s.process, c);
  }
}
