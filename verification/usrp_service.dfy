/**
 The push-to-talk methods of the conference service, in place.  Between any two
 accesses to the shared queue and flags the other thread may run: `PacerRuns` and
 `ProducerRuns` stand for that, promising their caller only that the other thread
 took steps of the machine.
 */
module UsrpService {
  import opened Bytes
  import opened UsrpMachine
  import opened UsrpVoice
  import opened UsrpGrammar
  import opened UsrpCadence
  import opened UsrpSafety

  ghost predicate Reaches(s: State, t: State) { exists es: seq<Event> :: Run(s, es, t) }

  ghost predicate PacerReaches(s: State, t: State) {
    exists es: seq<Event> :: Run(s, es, t) && forall e :: e in es ==> e.Consume?
  }

  ghost predicate ProducerReaches(s: State, t: State) {
    exists es: seq<Event> :: Run(s, es, t) && forall e :: e in es ==> !e.Consume?
  }

  function Consumes(es: seq<Event>): nat {
    if es == [] then 0 else Consumes(es[..|es| - 1]) + if es[|es| - 1].Consume? then 1 else 0
  }

  /** A run in which the pacer takes at least `n` steps. */
  ghost predicate Paces(s: State, t: State, n: nat) { exists es: seq<Event> :: Run(s, es, t) && Consumes(es) >= n }

  lemma {:induction false} ConsumesConcat(es: seq<Event>, fs: seq<Event>)
    ensures Consumes(es + fs) == Consumes(es) + Consumes(fs)
  {
    if fs == [] {
      assert es + fs == es;
    } else {
      ConsumesConcat(es, fs[..|fs| - 1]);
      assert (es + fs)[..|es + fs| - 1] == es + fs[..|fs| - 1];
    }
  }

  lemma PacesOn(s: State, t: State, n: nat, u: State, m: nat)
    requires Paces(s, t, n) && Paces(t, u, m)
    ensures Paces(s, u, n + m)
  {
    hide Run, Consumes;
    var es: seq<Event> :| Run(s, es, t) && Consumes(es) >= n;
    var fs: seq<Event> :| Run(t, fs, u) && Consumes(fs) >= m;
    RunConcat(s, es, t, fs, u);
    ConsumesConcat(es, fs);
  }

  lemma ReachesOn(s: State, t: State, u: State)
    requires Reaches(s, t) && Reaches(t, u)
    ensures Reaches(s, u)
  {
    hide Run;
    var es: seq<Event> :| Run(s, es, t);
    var fs: seq<Event> :| Run(t, fs, u);
    RunConcat(s, es, t, fs, u);
  }

  lemma PacesLess(s: State, t: State, n: nat, m: nat)
    requires Paces(s, t, n) && m <= n
    ensures Paces(s, t, m)
  {
    hide Run, Consumes;
  }

  lemma ReachesPaces(s: State, t: State)
    requires Reaches(s, t)
    ensures Paces(s, t, 0)
  {
    hide Run;
  }

  lemma ProducerReaches0(s: State, t: State)
    requires ProducerReaches(s, t)
    ensures Reaches(s, t)
  {
    hide Run;
  }

  lemma StepPaces(s: State, e: Event)
    requires Enabled(s, e) && e.Consume?
    ensures Paces(s, Next(s, e), 1)
  {
    RunOne(s, e);
    hide Run, Enabled, Next;
    assert [e][..0] == [] && Consumes([e]) == 1;
  }

  lemma ReachesSilent(s: State, t: State)
    requires Reaches(s, t) && !s.socketOpen
    ensures !t.socketOpen && t.pacer.keyed == s.pacer.keyed && t.pacer.sent == s.pacer.sent
  {
    hide Run;
    var es: seq<Event> :| Run(s, es, t);
    ClosedIsSilent(s, es, t);
  }

  lemma ReachesSelf(s: State)
    ensures Reaches(s, s) && PacerReaches(s, s) && ProducerReaches(s, s)
  {
    assert Run(s, [], s);
  }

  lemma ReachesStep(s: State, t: State, e: Event, u: State)
    requires Reaches(s, t) && Inv(t) && Enabled(t, e) && Next(t, e) == u
    ensures Reaches(s, u) && Inv(u)
  {
    hide Inv, Enabled, Next;
    var es: seq<Event> :| Run(s, es, t);
    assert Run(t, [e], u) by { RunOne(t, e); }
    RunConcat(s, es, t, [e], u);
    StepInv(t, e);
  }

  lemma ReachesPacer(s: State, t: State, u: State)
    requires Reaches(s, t) && Inv(t) && PacerReaches(t, u)
    ensures Reaches(s, u) && Inv(u)
    ensures u.requested == t.requested && u.stop == t.stop && u.socketOpen == t.socketOpen
    ensures u.producer == t.producer && u.intake == t.intake
    ensures Rest(u.queue, t.queue)
  {
    hide Inv, Enabled, Next, Run;
    var es: seq<Event> :| Run(s, es, t);
    var fs: seq<Event> :| Run(t, fs, u) && forall e :: e in fs ==> e.Consume?;
    RunConcat(s, es, t, fs, u);
    RunInv(t, fs, u);
    PacerRunKeeps(t, fs, u);
  }

  /** What is left of a queue after entries have been taken from its front. */
  predicate Rest(left: seq<Item>, queue: seq<Item>) {
    |left| <= |queue| && left == queue[|queue| - |left|..]
  }

  /** Nothing is pending, or nothing but an unkey. */
  predicate Quiet(queue: seq<Item>) { queue == [] || queue == [Unkey] }

  lemma {:induction false} RestOfRest(a: seq<Item>, b: seq<Item>, c: seq<Item>)
    requires Rest(a, b) && (b == c || (c != [] && b == c[1..]))
    ensures Rest(a, c)
  {
  }

  lemma {:induction false} PacerRunKeeps(s: State, es: seq<Event>, t: State)
    requires Run(s, es, t) && forall e :: e in es ==> e.Consume?
    ensures t.requested == s.requested && t.stop == s.stop && t.socketOpen == s.socketOpen
    ensures t.producer == s.producer && t.intake == s.intake
    ensures Rest(t.queue, s.queue)
    decreases |es|
  {
    if es != [] {
      hide Enabled, Next;
      assert es[0].Consume?;
      ConsumerKeeps(s, es[0]);
      PacerRunKeeps(Next(s, es[0]), es[1..], t);
      RestOfRest(t.queue, Next(s, es[0]).queue, s.queue);
    }
  }

  /** After close() the pacer sends nothing and stays where it has exited. */
  lemma SilentPacer(s: State, t: State)
    requires PacerReaches(s, t) && !s.socketOpen
    ensures t.pacer.keyed == s.pacer.keyed && t.pacer.sent == s.pacer.sent
    ensures s.pacer.stage.Exited? ==> t == s
  {
    var es: seq<Event> :| Run(s, es, t) && forall e :: e in es ==> e.Consume?;
    assert es != [] ==> es[0].Consume?;
    hide Next;
    ClosedIsSilent(s, es, t);
  }

  lemma ReachesProducer(s: State, t: State, u: State)
    requires Reaches(s, t) && Inv(t) && ProducerReaches(t, u)
    ensures Reaches(s, u) && Inv(u) && u.pacer == t.pacer && (u.socketOpen ==> t.socketOpen)
  {
    hide Inv, Enabled, Next, Run;
    var es: seq<Event> :| Run(s, es, t);
    var fs: seq<Event> :| Run(t, fs, u) && forall e :: e in fs ==> !e.Consume?;
    RunConcat(s, es, t, fs, u);
    RunInv(t, fs, u);
    ProducerRunKeeps(t, fs, u);
  }

  lemma {:induction false} ProducerRunKeeps(s: State, es: seq<Event>, t: State)
    requires Run(s, es, t) && forall e :: e in es ==> !e.Consume?
    ensures t.pacer == s.pacer && (t.socketOpen ==> s.socketOpen)
    decreases |es|
  {
    if es != [] {
      hide Enabled, Next;
      assert !es[0].Consume?;
      ProducerKeeps(s, es[0]);
      if Next(s, es[0]).socketOpen { OpenFalls(s, es[0]); }
      ProducerRunKeeps(Next(s, es[0]), es[1..], t);
    }
  }

  class UsrpTransmitter {
    var queue: seq<Item>
    var keyRequested: bool
    var keyed: bool
    var stopping: bool
    var socketOpen: bool     // whether _usrp_tx_sock is still there
    var nextSequence: nat
    var clock: int           // the latest reading any step has made
    var nextVoiceAt: int
    var framesQueued: nat
    const interval: nat

    ghost var producer: Producer
    ghost var stage: Stage
    ghost var intake: Intake
    ghost var sent: seq<Packet>
    ghost var sentIds: seq<nat>
    ghost var unsentIds: seq<nat>
    ghost var resetAt: int
    ghost var voiceTimes: seq<int>

    ghost function Abs(): State
      reads this
    {
      State(queue, keyRequested, stopping, socketOpen, producer, intake,
            Pacer(stage, keyed, nextSequence, clock, nextVoiceAt, interval, sent, sentIds, unsentIds, resetAt,
                  voiceTimes))
    }

    ghost predicate Valid()
      reads this
    {
      Inv(Abs()) && framesQueued == |intake.submitted|
    }

    constructor (now: int, frameMillis: nat)
      ensures Valid() && Abs() == Init(now, frameMillis)
    {
      queue, keyRequested, keyed, stopping, socketOpen := [], false, false, false, true;
      nextSequence, clock, nextVoiceAt, framesQueued := 1, now, now, 0;
      interval := if 1000 * frameMillis < 5000 then 5000 else 1000 * frameMillis;
      producer, stage, intake := Idle, CheckStop, Intake([], [], []);
      sent, sentIds, unsentIds, resetAt, voiceTimes := [], [], [], now, [];
      new;
      hide Inv;
      assert Abs() == Init(now, frameMillis);
      hide Init;
      InitInv(now, frameMillis);
    }

    /** The pacer thread takes any number of steps. */
    method PacerRuns()
      requires Valid()
      modifies this
      ensures PacerReaches(old(Abs()), Abs()) && framesQueued == old(framesQueued)
    {
      ReachesSelf(Abs());
    }

    /** The service loop takes any number of steps. */
    method ProducerRuns()
      requires Valid()
      modifies this
      ensures ProducerReaches(old(Abs()), Abs()) && framesQueued == |intake.submitted|
    {
      ReachesSelf(Abs());
    }

    /** The service loop has just taken the step `e`; now the pacer may run. */
    method AfterStep(ghost start: State, ghost before: State, ghost e: Event)
      requires Inv(before) && Reaches(start, before)
      requires Enabled(before, e) && Next(before, e) == Abs() && framesQueued == |intake.submitted|
      modifies this
      ensures Valid() && Reaches(start, Abs())
      ensures keyRequested == old(keyRequested) && stopping == old(stopping) && socketOpen == old(socketOpen)
      ensures producer == old(producer) && intake == old(intake) && Rest(queue, old(queue))
    {
      hide Inv, Enabled, Next, Reaches, PacerReaches;
      ghost var s := Abs();
      ReachesStep(start, before, e, s);
      PacerRuns();
      ReachesPacer(start, s, Abs());
    }

    // ----- the accesses the service loop makes ---------------------------------------

    method RequestKey(ghost start: State, ghost frame: seq<Byte>) returns (already: bool)
      requires Valid() && Reaches(start, Abs())
      requires producer.Idle? && !stopping && |frame| == VOICE_FRAME_BYTES
      modifies this
      ensures Valid() && Reaches(start, Abs()) && keyRequested
      ensures producer == if already then VoicePut(frame) else KeyupPut(frame)
      ensures intake.submitted == old(intake.submitted) && socketOpen == old(socketOpen) && stopping == old(stopping)
    {
      hide Inv, NextConsumer, NextProducer, Reaches;
      ghost var s := Abs();
      already := keyRequested;
      keyRequested, producer := true, if already then VoicePut(frame) else KeyupPut(frame);
      AfterStep(start, s, Submit(frame));
    }

    /** put_nowait of a keyup; `ok` is false on queue.Full. */
    method PutKeyup(ghost start: State) returns (ok: bool)
      requires Valid() && Reaches(start, Abs()) && (producer.KeyupPut? || producer.KeyupRetry?)
      modifies this
      ensures Valid() && Reaches(start, Abs()) && keyRequested
      ensures producer == if ok then VoicePut(old(producer.frame)) else KeyupEvict(old(producer.frame))
      ensures ok == (|old(queue)| < QUEUE_SIZE) && (old(producer).KeyupRetry? ==> ok)
      ensures intake.submitted == old(intake.submitted) && socketOpen == old(socketOpen) && stopping == old(stopping)
    {
      hide SettleOk, VoiceOk, GrammarOk, CadenceOk, NextConsumer, Reaches;
      ghost var s := Abs();
      ok := |queue| < QUEUE_SIZE;
      if ok {
        queue, producer := queue + [Keyup], VoicePut(producer.frame);
      } else {
        producer := KeyupEvict(producer.frame);
      }
      AfterStep(start, s, Produce);
    }

    /** put_nowait of a voice frame; `ok` is false on queue.Full. */
    method PutVoice(ghost start: State, frame: seq<Byte>) returns (ok: bool)
      requires Valid() && Reaches(start, Abs())
      requires (producer.VoicePut? || producer.VoiceRetry?) && producer.frame == frame
      modifies this
      ensures Valid() && Reaches(start, Abs()) && keyRequested
      ensures producer == if ok then Idle else VoiceEvict(frame)
      ensures ok == (|old(queue)| < QUEUE_SIZE) && (old(producer).VoiceRetry? ==> ok)
      ensures intake.submitted == if ok then old(intake.submitted) + [frame] else old(intake.submitted)
      ensures socketOpen == old(socketOpen) && stopping == old(stopping)
    {
      hide SettleOk, VoiceOk, GrammarOk, CadenceOk, NextConsumer, Reaches;
      ghost var s := Abs();
      ok := |queue| < QUEUE_SIZE;
      if ok {
        queue, producer := queue + [Voice(framesQueued, frame)], Idle;
        framesQueued, intake := framesQueued + 1, intake.(submitted := intake.submitted + [frame]);
      } else {
        producer := VoiceEvict(frame);
      }
      AfterStep(start, s, Produce);
    }

    /** get_nowait to make room; an empty queue is not an error. */
    method EvictOldest(ghost start: State)
      requires Valid() && Reaches(start, Abs()) && (producer.KeyupEvict? || producer.VoiceEvict?)
      modifies this
      ensures Valid() && Reaches(start, Abs()) && keyRequested
      ensures producer == (if old(producer).KeyupEvict? then KeyupRetry(old(producer.frame))
                           else VoiceRetry(old(producer.frame)))
      ensures intake.evicted == old(intake.evicted) + if old(queue) == [] then [] else IdOf(old(queue)[0])
      ensures intake.submitted == old(intake.submitted) && socketOpen == old(socketOpen) && stopping == old(stopping)
    {
      hide SettleOk, VoiceOk, GrammarOk, CadenceOk, NextConsumer, Reaches;
      ghost var s := Abs();
      if queue != [] {
        intake := intake.(evicted := intake.evicted + IdOf(queue[0]));
        queue := queue[1..];
      }
      producer := if producer.KeyupEvict? then KeyupRetry(producer.frame) else VoiceRetry(producer.frame);
      AfterStep(start, s, Produce);
    }

    // ----- the calls the service loop makes -------------------------------------------

    method QueueKeyup(ghost start: State, ghost frame: seq<Byte>)
      requires Valid() && Reaches(start, Abs())
      requires producer.Idle? && !stopping && |frame| == VOICE_FRAME_BYTES
      modifies this
      ensures Valid() && Reaches(start, Abs())
      ensures producer == VoicePut(frame) && keyRequested
      ensures intake.submitted == old(intake.submitted) && socketOpen == old(socketOpen) && stopping == old(stopping)
    {
      hide Inv, Reaches;
      var already := RequestKey(start, frame);
      if already {
        return;
      }
      var ok := PutKeyup(start);
      if !ok {
        EvictOldest(start);
        ok := PutKeyup(start);
        assert ok;  // the last-resort branch is never taken
      }
    }

    /** Whatever the pacer does meanwhile, a full-size frame always ends up on the queue, behind a request to key. */
    method SendPcm(frame: seq<Byte>)
      requires Valid() && producer.Idle? && !stopping
      modifies this
      ensures Valid() && Reaches(old(Abs()), Abs()) && producer.Idle?
      ensures |frame| == VOICE_FRAME_BYTES ==>
                keyRequested && intake.submitted == old(intake.submitted) + [frame]
                && socketOpen == old(socketOpen) && stopping == old(stopping)
      ensures |frame| != VOICE_FRAME_BYTES ==> Abs() == old(Abs()) && framesQueued == old(framesQueued)
    {
      hide Inv, Reaches;
      ghost var start := Abs();
      ReachesSelf(start);
      if |frame| != VOICE_FRAME_BYTES {
        return;
      }
      QueueKeyup(start, frame);
      var ok := PutVoice(start, frame);
      if !ok {
        EvictOldest(start);
        ok := PutVoice(start, frame);
        assert ok;  // the last-resort branch is never taken
      }
    }

    method ClearKeyRequest(ghost start: State, clearPending: bool, ghost closing: bool)
      requires Valid() && Reaches(start, Abs()) && producer.Idle? && (closing ==> clearPending)
      modifies this
      ensures Valid() && Reaches(start, Abs()) && !keyRequested
      ensures producer == if clearPending then UnkeyDrain(closing) else UnkeyPut(false, false)
      ensures intake.submitted == old(intake.submitted) && socketOpen == old(socketOpen) && stopping == old(stopping)
    {
      hide Inv, NextConsumer, NextProducer, Reaches;
      ghost var s := Abs();
      keyRequested := false;
      producer := if clearPending then UnkeyDrain(closing) else UnkeyPut(false, false);
      AfterStep(start, s, if closing then Close else RequestUnkey(clearPending));
    }

    /** get_nowait while draining; `empty` is queue.Empty. */
    method DrainNext(ghost start: State, ghost done: Producer) returns (empty: bool)
      requires Valid() && Reaches(start, Abs())
      requires producer.UnkeyDrain? || producer.UnkeyRedrain?
      requires done == if producer.UnkeyDrain? then UnkeyPut(producer.closing, true) else UnkeyRetry(producer.closing)
      modifies this
      ensures Valid() && Reaches(start, Abs()) && !keyRequested
      ensures producer == if empty then done else old(producer)
      ensures empty == (old(queue) == []) && (!empty ==> |queue| < |old(queue)|)
      ensures intake.drained == old(intake.drained) + if empty then [] else IdOf(old(queue)[0])
      ensures intake.submitted == old(intake.submitted) && socketOpen == old(socketOpen) && stopping == old(stopping)
    {
      hide SettleOk, VoiceOk, GrammarOk, CadenceOk, NextConsumer, Reaches;
      ghost var s := Abs();
      empty := queue == [];
      if empty {
        producer := done;
      } else {
        intake := intake.(drained := intake.drained + IdOf(queue[0]));
        queue := queue[1..];
      }
      AfterStep(start, s, Produce);
    }

    method DrainQueue(ghost start: State, ghost done: Producer)
      requires Valid() && Reaches(start, Abs())
      requires producer.UnkeyDrain? || producer.UnkeyRedrain?
      requires done == if producer.UnkeyDrain? then UnkeyPut(producer.closing, true) else UnkeyRetry(producer.closing)
      modifies this
      ensures Valid() && Reaches(start, Abs()) && !keyRequested && producer == done
      ensures intake.submitted == old(intake.submitted) && socketOpen == old(socketOpen) && stopping == old(stopping)
    {
      hide Inv, Reaches;
      var empty := DrainNext(start, done);
      while !empty
        invariant Valid() && Reaches(start, Abs()) && !keyRequested
        invariant producer == if empty then done else old(producer)
        invariant intake.submitted == old(intake.submitted) && socketOpen == old(socketOpen)
                  && stopping == old(stopping)
        decreases !empty, |queue|
      {
        empty := DrainNext(start, done);
      }
    }

    /** put_nowait of an unkey; after a drain it cannot find the queue full. */
    method PutUnkey(ghost start: State) returns (ok: bool)
      requires Valid() && Reaches(start, Abs()) && (producer.UnkeyPut? || producer.UnkeyRetry?)
      modifies this
      ensures Valid() && Reaches(start, Abs()) && !keyRequested
      ensures producer == if ok then AfterUnkey(old(producer.closing)) else UnkeyRedrain(old(producer.closing))
      ensures old(producer).UnkeyRetry? || old(producer.drained) ==> ok && Quiet(queue)
      ensures intake.submitted == old(intake.submitted) && socketOpen == old(socketOpen) && stopping == old(stopping)
    {
      hide SettleOk, VoiceOk, GrammarOk, CadenceOk, NextConsumer, Reaches;
      ghost var s := Abs();
      ok := |queue| < QUEUE_SIZE;
      if ok {
        queue, producer := queue + [Unkey], AfterUnkey(producer.closing);
      } else {
        producer := UnkeyRedrain(producer.closing);
      }
      AfterStep(start, s, Produce);
    }

    method QueueUnkey(ghost start: State, clearPending: bool, ghost closing: bool)
      requires Valid() && Reaches(start, Abs()) && producer.Idle? && (closing ==> clearPending)
      modifies this
      ensures Valid() && Reaches(start, Abs()) && !keyRequested && producer == AfterUnkey(closing)
      ensures clearPending ==> Quiet(queue)
      ensures intake.submitted == old(intake.submitted) && socketOpen == old(socketOpen) && stopping == old(stopping)
    {
      hide Inv, Reaches;
      ClearKeyRequest(start, clearPending, closing);
      if clearPending {
        DrainQueue(start, UnkeyPut(closing, true));
      }
      var ok := PutUnkey(start);
      if !ok {
        DrainQueue(start, UnkeyRetry(closing));
        ok := PutUnkey(start);
        assert ok;  // the last-resort branch is never taken
      }
    }

    /**
     Whatever the pacer does meanwhile, the call ends with the radio unkeyed or an unkey last in line, and if asked to
     clear what is pending, with nothing else in line.
     After close() it is in vain: nothing is sent any more.
     */
    method Release(clearPending: bool)
      requires Valid() && producer.Idle?
      modifies this
      ensures Valid() && Reaches(old(Abs()), Abs()) && producer.Idle? && !keyRequested
      ensures socketOpen ==> Settles(Abs().queue, Abs().pacer)
      ensures clearPending ==> Quiet(queue)
      ensures !old(socketOpen) ==> keyed == old(keyed) && sent == old(sent)
      ensures intake.submitted == old(intake.submitted) && socketOpen == old(socketOpen) && stopping == old(stopping)
    {
      hide FlagsOk, VoiceOk, GrammarOk, CadenceOk, Reaches;
      ghost var start := Abs();
      ReachesSelf(start);
      QueueUnkey(start, clearPending, false);
      if !start.socketOpen { ReachesSilent(start, Abs()); }
    }

    method SetStopping(ghost start: State)
      requires Valid() && Reaches(start, Abs()) && producer.SetStop? && !keyRequested
      modifies this
      ensures Valid() && Reaches(start, Abs()) && producer.Joining? && stopping && !keyRequested
      ensures socketOpen == old(socketOpen)
    {
      hide Inv, Reaches, NextConsumer;
      ghost var s := Abs();
      stopping, producer := true, Joining;
      AfterStep(start, s, Produce);
    }

    /** join(timeout=1.0): in time exactly if the pacer exits while it waits, and then the radio is unkeyed. */
    method Join(ghost start: State) returns (ghost inTime: bool)
      requires Valid() && Reaches(start, Abs()) && producer.Joining? && stopping && !keyRequested
      modifies this
      ensures Valid() && Reaches(start, Abs()) && producer.Joining? && stopping && !keyRequested
      ensures inTime == stage.Exited? && socketOpen == old(socketOpen) && (inTime && socketOpen ==> !keyed)
    {
      hide FlagsOk, VoiceOk, GrammarOk, CadenceOk, Reaches, PacerReaches;
      ghost var s := Abs();
      PacerRuns();
      ReachesPacer(start, s, Abs());
      inTime := stage.Exited?;
    }

    /** The socket goes, whether or not the pacer has exited; from here on the radio stays as it is. */
    method CloseSocket(ghost start: State)
      requires Valid() && Reaches(start, Abs()) && producer.Joining? && stopping && !keyRequested
      modifies this
      ensures Valid() && Reaches(start, Abs()) && producer.Idle? && stopping && !keyRequested
      ensures !socketOpen && keyed == old(keyed) && sent == old(sent) && (old(stage).Exited? ==> stage.Exited?)
    {
      hide Inv, Reaches, NextConsumer, PacerReaches;
      ghost var s := Abs();
      ghost var outcome := if stage.Exited? then Produce else JoinTimeout;
      socketOpen, producer := false, Idle;
      ghost var t := Abs();
      assert Enabled(s, outcome) && Next(s, outcome) == t;
      hide Enabled, Next;
      ReachesStep(start, s, outcome, t);
      PacerRuns();
      ReachesPacer(start, t, Abs());
      SilentPacer(t, Abs());
    }

    /**
     Queue the unkey, set stop, wait for the pacer, close the socket.  If the pacer exits in time the radio is unkeyed;
     if not, whatever the radio is when the socket goes it stays, for the pacer can send nothing any more.
     */
    method Shutdown() returns (ghost inTime: bool)
      requires Valid() && producer.Idle?
      modifies this
      ensures Valid() && Reaches(old(Abs()), Abs()) && producer.Idle? && stopping && !keyRequested && !socketOpen
      ensures inTime ==> stage.Exited?
      ensures if old(socketOpen) then inTime ==> !keyed else keyed == old(keyed) && sent == old(sent)
    {
      hide Inv, Reaches;
      ghost var start := Abs();
      ReachesSelf(start);
      QueueUnkey(start, true, true);
      SetStopping(start);
      inTime := Join(start);
      CloseSocket(start);
      if !start.socketOpen { ReachesSilent(start, Abs()); }
    }

    // ----- the pacer thread ----------------------------------------------------------

    /** The pacer has just taken a step; now the service loop may run. */
    method AfterPacerStep(ghost start: State, ghost before: State, ghost now: int)
      requires Inv(before) && Reaches(start, before)
      requires Enabled(before, Consume(now, clock)) && Next(before, Consume(now, clock)) == Abs()
      requires framesQueued == |intake.submitted|
      modifies this
      ensures Valid() && Reaches(start, Abs()) && Abs().pacer == old(Abs().pacer)
      ensures Paces(before, Abs(), 1) && (socketOpen ==> old(socketOpen))
    {
      hide Inv, Enabled, Next, Reaches, ProducerReaches, Paces;
      ghost var s := Abs();
      ReachesStep(start, before, Consume(now, clock), s);
      StepPaces(before, Consume(now, clock));
      ProducerRuns();
      ReachesProducer(start, s, Abs());
      ProducerReaches0(s, Abs());
      ReachesPaces(s, Abs());
      PacesOn(before, s, 1, Abs(), 0);
    }

    /** A monotonic clock reading. */
    method Monotonic() returns (now: int)
      ensures now >= clock
    {
      now := clock;
    }

    /** Sleeping until `due` never ends early. */
    method SleepUntil(due: int) returns (woke: int)
      ensures woke >= due && woke >= clock
    {
      woke := if due > clock then due else clock;
    }

    /** On a closed socket neither a packet, nor a sequence number, nor a change of the keyed flag. */
    method SendPacket(keyup: bool, payload: seq<Byte>)
      modifies this`keyed, this`nextSequence, this`sent
      ensures socketOpen ==>
                && keyed == keyup && nextSequence == (old(nextSequence) + 1) % SEQUENCE_MODULUS
                && sent == old(sent) + [Packet(old(nextSequence), keyup, payload)]
      ensures !socketOpen ==> keyed == old(keyed) && nextSequence == old(nextSequence) && sent == old(sent)
    {
      if !socketOpen {
        return;
      }
      sent := sent + [Packet(nextSequence, keyup, payload)];
      nextSequence := (nextSequence + 1) % SEQUENCE_MODULUS;
      keyed := keyup;
    }

    /** The loop condition: stop is read first, and the queue only if stop is set. */
    method KeepRunning(ghost start: State) returns (more: bool)
      requires Valid() && Reaches(start, Abs()) && stage.CheckStop?
      modifies this
      ensures Valid() && Reaches(start, Abs()) && stage == if more then Getting else Exited
      ensures Abs().pacer == old(Abs().pacer).(stage := stage)
      ensures Paces(old(Abs()), Abs(), 1)
    {
      hide Inv, NextProducer, Reaches, Paces;
      ghost var s := Abs();
      var stop := stopping;
      stage := if stop then CheckEmpty else Getting;
      AfterPacerStep(start, s, clock);
      more := true;
      if stop {
        s := Abs();
        more := queue != [];
        stage := if more then Getting else Exited;
        AfterPacerStep(start, s, clock);
        PacesOn(old(Abs()), s, 1, Abs(), 1);
        PacesLess(old(Abs()), Abs(), 2, 1);
      }
    }

    method GetItem(ghost start: State) returns (got: bool, item: Item)
      requires Valid() && Reaches(start, Abs()) && stage.Getting?
      modifies this
      ensures Valid() && Reaches(start, Abs()) && stage == if got then Handling(item) else CheckStop
      ensures got == (old(queue) != []) && (got ==> item == old(queue)[0])
      ensures Abs().pacer == old(Abs().pacer).(stage := stage)
    {
      hide Inv, NextProducer, Reaches;
      ghost var s := Abs();
      got, item := queue != [], Unkey;
      if got {
        item, queue := queue[0], queue[1..];
        stage := Handling(item);
      } else {
        stage := CheckStop;
      }
      AfterPacerStep(start, s, clock);
    }

    /** The next frame is due at once, and spacing is counted from here. */
    method RestartCadence()
      modifies this`clock, this`nextVoiceAt, this`resetAt, this`voiceTimes
      ensures nextVoiceAt == resetAt == clock >= old(clock) && voiceTimes == []
    {
      var now := Monotonic();
      clock, nextVoiceAt, resetAt, voiceTimes := now, now, now, [];
    }

    /** Key or unkey, unless that is how the radio already is; either way the voice cadence starts afresh. */
    method SetRadio(keyup: bool)
      modifies this`clock, this`keyed, this`nextSequence, this`sent, this`nextVoiceAt, this`resetAt, this`voiceTimes
      ensures nextVoiceAt == resetAt == clock >= old(clock) && voiceTimes == []
      ensures socketOpen ==> keyed == keyup
      ensures if keyup == old(keyed) || !socketOpen
              then keyed == old(keyed) && sent == old(sent) && nextSequence == old(nextSequence)
              else sent == old(sent) + [Packet(old(nextSequence), keyup, [])]
                   && nextSequence == (old(nextSequence) + 1) % SEQUENCE_MODULUS
    {
      if keyup != keyed {
        SendPacket(keyup, []);
      }
      RestartCadence();
    }

    method HandleMarker(ghost start: State, keyup: bool)
      requires Valid() && Reaches(start, Abs()) && stage == Handling(if keyup then Keyup else Unkey)
      modifies this
      ensures Valid() && Reaches(start, Abs()) && stage.CheckStop?
      ensures keyed == (if old(socketOpen) then keyup else old(keyed)) && clock >= old(clock)
      ensures Abs().pacer ==
                Handle(old(Abs().pacer).(clock := clock), old(socketOpen), if keyup then Keyup else Unkey, clock)
    {
      hide Inv, NextProducer, Reaches, Handle;
      ghost var s := Abs();
      ApplyMarker(keyup);
      HandleEffect(s.pacer.(clock := clock), s.socketOpen, s.pacer.stage.item, clock);
      AfterPacerStep(start, s, clock);
    }

    method ApplyMarker(keyup: bool)
      requires stage == Handling(if keyup then Keyup else Unkey)
      modifies this`clock, this`keyed, this`nextSequence, this`sent, this`nextVoiceAt, this`resetAt, this`voiceTimes
      modifies this`stage
      ensures clock >= old(clock)
      ensures Abs().pacer ==
                Handle(old(Abs().pacer).(clock := clock), socketOpen, if keyup then Keyup else Unkey, clock)
    {
      SetRadio(keyup);
      stage := CheckStop;
    }

    /** A voice frame never goes out on an unkeyed radio; between the keyup and the frame the socket may be closed. */
    method HandleVoice(ghost start: State, id: nat, frame: seq<Byte>)
      returns (ghost keyedAt: int, ghost sentAt: int, ghost open: bool)
      requires Valid() && Reaches(start, Abs()) && stage == Handling(Voice(id, frame))
      modifies this
      ensures Valid() && Reaches(start, Abs()) && stage.CheckStop? && (open ==> keyed)
      ensures (socketOpen ==> open) && (open ==> old(socketOpen))
      ensures old(clock) <= keyedAt <= sentAt <= clock
      ensures var p := Handle(old(Abs().pacer).(clock := keyedAt), old(socketOpen), Voice(id, frame), keyedAt);
              Abs().pacer == SendVoice(p.(clock := clock), open, id, frame, sentAt, clock) && p.nextVoiceAt <= sentAt
    {
      hide Inv, NextProducer, Reaches;
      ghost var s := Abs();
      if !keyed {
        SendPacket(true, []);
        RestartCadence();
      }
      stage := VoiceReady(id, frame);
      keyedAt := clock;
      assert Abs().pacer == Handle(s.pacer.(clock := clock), s.socketOpen, Voice(id, frame), clock);
      hide Handle, SendVoice;
      AfterPacerStep(start, s, clock);
      open := socketOpen;
      sentAt := SendFrame(start, id, frame);
    }

    method SendFrame(ghost start: State, id: nat, frame: seq<Byte>) returns (ghost sentAt: int)
      requires Valid() && Reaches(start, Abs()) && stage == VoiceReady(id, frame)
      modifies this
      ensures Valid() && Reaches(start, Abs()) && stage.CheckStop? && (old(socketOpen) ==> keyed)
      ensures socketOpen ==> old(socketOpen)
      ensures old(clock) <= sentAt <= clock && old(nextVoiceAt) <= sentAt
      ensures Abs().pacer == SendVoice(old(Abs().pacer).(clock := clock), old(socketOpen), id, frame, sentAt, clock)
    {
      hide Inv, NextProducer, Reaches;
      ghost var s := Abs();
      sentAt := WaitAndSend(id, frame);
      stage := CheckStop;
      assert Abs().pacer == SendVoice(s.pacer.(clock := clock), s.socketOpen, id, frame, sentAt, clock);
      hide SendVoice, Handle;
      AfterPacerStep(start, s, sentAt);
    }

    method WaitAndSend(ghost id: nat, frame: seq<Byte>) returns (now: int)
      modifies this`clock, this`keyed, this`nextSequence, this`sent, this`nextVoiceAt
      modifies this`sentIds, this`unsentIds, this`voiceTimes
      ensures old(clock) <= now <= clock && old(nextVoiceAt) <= now
      ensures socketOpen ==>
                && keyed && nextSequence == (old(nextSequence) + 1) % SEQUENCE_MODULUS
                && sent == old(sent) + [Packet(old(nextSequence), true, frame)]
                && sentIds == old(sentIds) + [id] && unsentIds == old(unsentIds)
                  && voiceTimes == old(voiceTimes) + [now]
      ensures !socketOpen ==>
                && keyed == old(keyed) && nextSequence == old(nextSequence) && sent == old(sent)
                && sentIds == old(sentIds) && unsentIds == old(unsentIds) + [id] && voiceTimes == old(voiceTimes)
      ensures nextVoiceAt == if old(nextVoiceAt) + interval < clock then clock else old(nextVoiceAt) + interval
    {
      now := Monotonic();
      if now < nextVoiceAt {
        now := SleepUntil(nextVoiceAt);
      }
      clock := now;
      SendPacket(true, frame);
      if socketOpen {
        sentIds, voiceTimes := sentIds + [id], voiceTimes + [now];
      } else {
        unsentIds := unsentIds + [id];
      }
      var after := Monotonic();
      clock := after;
      nextVoiceAt := if nextVoiceAt + interval < after then after else nextVoiceAt + interval;
    }

    /**
     The pacer's loop, cut off after any number of iterations so that it can be called; each takes at least one step.
     */
    method TxLoop(iterations: nat) returns (exited: bool)
      requires Valid() && stage.CheckStop?
      modifies this
      ensures Valid() && Reaches(old(Abs()), Abs())
      ensures exited <==> stage.Exited?
      ensures exited ==> stopping && (socketOpen ==> !keyed)
      ensures !exited ==> Paces(old(Abs()), Abs(), iterations)
    {
      hide VoiceOk, GrammarOk, CadenceOk, Reaches, Paces, Run;
      ghost var start := Abs();
      ReachesSelf(start);
      ReachesPaces(start, start);
      for i := 0 to iterations
        invariant Valid() && Reaches(start, Abs()) && stage.CheckStop?
        invariant Paces(start, Abs(), i)
      {
        ghost var s := Abs();
        var more := KeepRunning(start);
        if !more {
          return true;
        }
        PacesOn(start, s, i, Abs(), 1);
        s := Abs();
        Serve(s);
        ReachesOn(start, s, Abs());
        ReachesPaces(s, Abs());
        PacesOn(start, s, i + 1, Abs(), 0);
      }
      exited := false;
    }

    /** Act on the oldest entry, if there is one. */
    method Serve(ghost start: State)
      requires Valid() && stage.Getting? && start == Abs()
      modifies this
      ensures Valid() && Reaches(start, Abs()) && stage.CheckStop?
    {
      hide Inv, Reaches;
      ReachesSelf(start);
      var got, item := GetItem(start);
      if got {
        match item
        case Keyup => HandleMarker(start, true);
        case Voice(id, frame) => var _, _, _ := HandleVoice(start, id, frame);
        case Unkey => HandleMarker(start, false);
      }
    }
  }
}
