/**
 The dashboard's command file: a queue of lines between the web page and the runtime, which may be restarted at any
 time.
 */
module Commands {
  import opened Wrappers

  type Id = string

  datatype Action = Reload | Other(name: string)

  /** `payload` stands for the rest of the line. */
  datatype Command = Command(id: Id, action: Action, createdAt: int, payload: string)

  /**
   What the two parsers make of a line: no JSON object at all, an object whose ID can be read but no command, or a
   command.
   */
  datatype Line = Blank | Garbage(text: string) | Partial(id: Id, text: string) | Full(command: Command)

  predicate Identified(line: Line, ids: set<Id>) {
    match line
    case Partial(id, _) => id in ids
    case Full(c) => c.id in ids
    case _ => false
  }

  function CommandsIn(lines: seq<Line>): seq<Command> {
    if lines == [] then []
    else
      var before, last := CommandsIn(lines[..|lines| - 1]), lines[|lines| - 1];
      if last.Full? then before + [last.command] else before
  }

  /** The non-blank lines that are not identified as one of `ids`, in order. */
  function Kept(lines: seq<Line>, ids: set<Id>): seq<Line> {
    if lines == [] then []
    else
      var before, last := Kept(lines[..|lines| - 1], ids), lines[|lines| - 1];
      if last.Blank? || Identified(last, ids) then before else before + [last]
  }

  function Matches(lines: seq<Line>, ids: set<Id>): nat {
    if lines == [] then 0
    else Matches(lines[..|lines| - 1], ids) + if Identified(lines[|lines| - 1], ids) then 1 else 0
  }

  function Blanks(lines: seq<Line>): nat {
    if lines == [] then 0 else Blanks(lines[..|lines| - 1]) + if lines[|lines| - 1].Blank? then 1 else 0
  }

  /** The lines no parser reads. */
  function GarbageIn(lines: seq<Line>): seq<Line> {
    if lines == [] then []
    else
      var before, last := GarbageIn(lines[..|lines| - 1]), lines[|lines| - 1];
      if last.Garbage? then before + [last] else before
  }

  function Unprocessed(cs: seq<Command>, ids: set<Id>): seq<Command> {
    if cs == [] then []
    else
      var before, last := Unprocessed(cs[..|cs| - 1], ids), cs[|cs| - 1];
      if last.id in ids then before else before + [last]
  }

  /**
   Removing loses nothing but what was processed, and counts it: other commands and unreadable lines stay, in order.
   */
  lemma {:induction false} KeptLines(lines: seq<Line>, ids: set<Id>)
    ensures CommandsIn(Kept(lines, ids)) == Unprocessed(CommandsIn(lines), ids)
    ensures GarbageIn(Kept(lines, ids)) == GarbageIn(lines)
    ensures forall line :: line in Kept(lines, ids) <==>
              && line in lines && !line.Blank?
              && !(line.Partial? && line.id in ids) && !(line.Full? && line.command.id in ids)
    ensures |Kept(lines, ids)| + Matches(lines, ids) + Blanks(lines) == |lines|
  {
    if lines != [] {
      var n, last := |lines| - 1, lines[|lines| - 1];
      KeptLines(lines[..n], ids);
      assert lines == lines[..n] + [last];
      var kept, cs := Kept(lines[..n], ids), CommandsIn(lines[..n]);
      assert (kept + [last])[..|kept|] == kept;
      if last.Full? { assert (cs + [last.command])[..|cs|] == cs; }
    }
  }

  class ControlFile {
    var lines: Option<seq<Line>>   // None: no such file

    constructor ()
      ensures lines == None
    {
      lines := None;
    }

    method Append(line: Line)
      modifies this
      ensures lines == Some((if old(lines).Some? then old(lines).value else []) + [line])
    {
      lines := Some((if lines.Some? then lines.value else []) + [line]);
    }

    method ReadCommands() returns (commands: seq<Command>)
      ensures commands == if lines.None? then [] else CommandsIn(lines.value)
    {
      if lines.None? {
        return [];
      }
      commands := [];
      for i := 0 to |lines.value|
        invariant commands == CommandsIn(lines.value[..i])
      {
        assert lines.value[..i + 1][..i] == lines.value[..i];
        if lines.value[i].Full? {
          commands := commands + [lines.value[i].command];
        }
      }
      assert lines.value[..|lines.value|] == lines.value;
    }

    /** Rewrites the file by way of a temporary one: `ok` is whether that worked; if not, nothing has changed. */
    method RemoveCommands(commandIds: set<Id>, ok: bool) returns (removed: nat)
      modifies this
      ensures var ids := commandIds - {""};
              && lines == (if ids == {} || old(lines).None? || !ok then old(lines)
                           else Some(Kept(old(lines).value, ids)))
              && removed == if ids == {} || old(lines).None? then 0 else Matches(old(lines).value, ids)
    {
      var ids := commandIds - {""};
      if ids == {} || lines.None? {
        return 0;
      }
      var kept: seq<Line> := [];
      removed := 0;
      for i := 0 to |lines.value|
        invariant kept == Kept(lines.value[..i], ids) && removed == Matches(lines.value[..i], ids)
      {
        assert lines.value[..i + 1][..i] == lines.value[..i];
        var line := lines.value[i];
        if !line.Blank? {
          if Identified(line, ids) {
            removed := removed + 1;
          } else {
            kept := kept + [line];
          }
        }
      }
      assert lines.value[..|lines.value|] == lines.value;
      if ok {
        lines := Some(kept);
      }
    }
  }

  // ----- one process ---------------------------------------------------------------------------

  /** A command carried out, and by which process. */
  datatype Handling = Handling(command: Command, generation: nat)

  datatype Process = Process(
    generation: nat, startedAt: int, processed: set<Id>, stop: bool, exitCode: int,
    history: seq<Handling>)   // of this process and those before it

  predicate Skipped(p: Process, c: Command) { c.id == "" || c.id in p.processed }

  predicate Stale(p: Process, c: Command) { c.action.Reload? && c.createdAt < p.startedAt }

  /** One command met while polling. */
  function Visit(p: Process, c: Command): Process {
    if Skipped(p, c) then p
    else if Stale(p, c) then p.(processed := p.processed + {c.id})
    else
      p.(processed := p.processed + {c.id}, history := p.history + [Handling(c, p.generation)],
         stop := p.stop || c.action.Reload?, exitCode := if c.action.Reload? then 75 else p.exitCode)
  }

  function VisitAll(p: Process, cs: seq<Command>): Process {
    if cs == [] then p else Visit(VisitAll(p, cs[..|cs| - 1]), cs[|cs| - 1])
  }

  /** A poll acknowledges exactly the commands it had not met before. */
  lemma {:induction false} VisitedIds(p: Process, cs: seq<Command>)
    ensures VisitAll(p, cs).processed == p.processed + set c | c in cs && c.id != "" :: c.id
    ensures VisitAll(p, cs).generation == p.generation && VisitAll(p, cs).startedAt == p.startedAt
    ensures p.history <= VisitAll(p, cs).history
  {
    if cs != [] {
      var n := |cs| - 1;
      VisitedIds(p, cs[..n]);
      assert cs == cs[..n] + [cs[n]];
    }
  }

  class FullRuntime {
    const file: ControlFile
    const startedAtWall: int
    var processedCommands: set<Id>
    var stopEvent: bool
    var exitCode: int
    ghost const generation: nat
    ghost var history: seq<Handling>

    ghost function Abs(): Process
      reads this
    {
      Process(generation, startedAtWall, processedCommands, stopEvent, exitCode, history)
    }

    constructor (file: ControlFile, now: int, ghost generation: nat, ghost history: seq<Handling>)
      ensures this.file == file && Abs() == Process(generation, now, {}, false, 0, history)
    {
      this.file, startedAtWall, this.generation := file, now, generation;
      processedCommands, stopEvent, exitCode, this.history := {}, false, 0, history;
    }

    method HandleCommand(c: Command)
      modifies this`stopEvent, this`exitCode, this`history
      ensures history == old(history) + [Handling(c, generation)]
      ensures stopEvent == (old(stopEvent) || c.action.Reload?)
                && exitCode == if c.action.Reload? then 75 else old(exitCode)
    {
      history := history + [Handling(c, generation)];
      if c.action.Reload? {
        exitCode := 75;
        stopEvent := true;
      }
    }

    method PollDashboardCommands(ack: bool)
      modifies this, file
      ensures Abs() == VisitAll(old(Abs()), Queued(old(file.lines)))
      ensures file.lines == Acknowledged(old(file.lines), Abs().processed - old(processedCommands), ack)
    {
      ghost var p := Abs();
      var processedNow: set<Id> := {};
      var commands := file.ReadCommands();
      for i := 0 to |commands|
        invariant Abs() == VisitAll(p, commands[..i]) && file.lines == old(file.lines)
        invariant processedNow == processedCommands - p.processed && p.processed <= processedCommands
                  && "" !in processedNow
      {
        assert commands[..i + 1][..i] == commands[..i];
        var c := commands[i];
        if c.id != "" && c.id !in processedCommands {
          processedCommands, processedNow := processedCommands + {c.id}, processedNow + {c.id};
          if !(c.action.Reload? && c.createdAt < startedAtWall) {
            HandleCommand(c);
          }
        }
      }
      assert commands[..|commands|] == commands;
      if processedNow != {} {
        assert processedNow - {""} == processedNow;
        var _ := file.RemoveCommands(processedNow, ack);
      }
    }
  }

  function Queued(file: Option<seq<Line>>): seq<Command> { if file.None? then [] else CommandsIn(file.value) }

  /** The file after acknowledging `ids`, if the rewrite succeeds. */
  function Acknowledged(file: Option<seq<Line>>, ids: set<Id>, ack: bool): Option<seq<Line>> {
    if ids == {} || file.None? || !ack then file else Some(Kept(file.value, ids))
  }
}
