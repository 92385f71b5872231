/** What holds of every run of the push-to-talk machine, whatever the interleaving. */
module UsrpSafety {
  import opened Bytes
  import opened UsrpMachine
  import opened UsrpVoice
  import opened UsrpGrammar
  import opened UsrpCadence

  ghost predicate Inv(s: State) {
    FlagsOk(s) && SettleOk(s) && VoiceOk(s) && GrammarOk(s) && CadenceOk(s.pacer)
  }

  ghost predicate Reachable(s: State) {
    exists now: int, frameMillis: nat, es: seq<Event> :: Run(Init(now, frameMillis), es, s)
  }

  lemma InitInv(now: int, frameMillis: nat)
    ensures Inv(Init(now, frameMillis))
  {
    InitFlags(now, frameMillis);
    InitVoice(now, frameMillis);
    InitGrammar(now, frameMillis);
    hide FlagsOk, SettleOk, VoiceOk, GrammarOk, CadenceOk;
  }

  lemma InitFlags(now: int, frameMillis: nat)
    ensures var s := Init(now, frameMillis); FlagsOk(s) && SettleOk(s) && CadenceOk(s.pacer)
  {
  }

  lemma InitVoice(now: int, frameMillis: nat)
    ensures VoiceOk(Init(now, frameMillis))
  {
    assert Upto(0) == [];
    assert Init(now, frameMillis).pacer.sentIds + [] == [];
  }

  lemma InitGrammar(now: int, frameMillis: nat)
    ensures GrammarOk(Init(now, frameMillis))
  {
    assert Kinds([]) == [];
  }

  lemma StepInv(s: State, e: Event)
    requires Inv(s) && Enabled(s, e)
    ensures Inv(Next(s, e))
  {
    hide Next, Enabled, FlagsOk, SettleOk, VoiceOk, GrammarOk, CadenceOk;
    FlagsStep(s, e);
    SettleStep(s, e);
    VoiceStep(s, e);
    GrammarStep(s, e);
    CadenceStep(s, e);
  }

  lemma {:induction false} RunInv(s: State, es: seq<Event>, t: State)
    requires Inv(s) && Run(s, es, t)
    ensures Inv(t)
    decreases |es|
  {
    hide Inv, Next, Enabled;
    if es != [] {
      StepInv(s, es[0]);
      RunInv(Next(s, es[0]), es[1..], t);
    }
  }

  lemma ReachableInv(s: State)
    requires Reachable(s)
    ensures Inv(s)
  {
    hide Inv, Run;
    var now: int, frameMillis: nat, es: seq<Event> :| Run(Init(now, frameMillis), es, s);
    InitInv(now, frameMillis);
    RunInv(Init(now, frameMillis), es, s);
  }

  // ----- the unkey is always reached ----------------------------------------------

  /**
   Whenever no keyup is wanted and no producer call is in progress, the radio is unkeyed or an unkey is the last
   thing pending.
   */
  lemma UnkeyIsPending(s: State)
    requires Reachable(s) && s.socketOpen && !s.requested && s.producer.Idle?
    ensures Settles(s.queue, s.pacer)
  {
    ReachableInv(s);
  }

  /** Somewhere in the run close() gives up waiting, and closes the socket on a keyed radio. */
  ghost predicate GivesUpKeyed(s: State, es: seq<Event>)
    decreases |es|
  {
    && es != []
    && Enabled(s, es[0])
    && ((es[0].JoinTimeout? && s.socketOpen && s.pacer.keyed) || GivesUpKeyed(Next(s, es[0]), es[1..]))
  }

  /** With the socket closed nothing more is sent, and the keyed flag stays as it was. */
  lemma {:induction false} ClosedIsSilent(s: State, es: seq<Event>, t: State)
    requires Run(s, es, t) && !s.socketOpen
    ensures !t.socketOpen && t.pacer.keyed == s.pacer.keyed && t.pacer.sent == s.pacer.sent
    ensures !GivesUpKeyed(s, es)
    decreases |es|
  {
    if es != [] {
      SilentStep(s, es[0]);
      hide Next, Enabled;
      ClosedIsSilent(Next(s, es[0]), es[1..], t);
    }
  }

  lemma SilentStep(s: State, e: Event)
    requires Enabled(s, e) && !s.socketOpen
    ensures var t := Next(s, e); !t.socketOpen && t.pacer.keyed == s.pacer.keyed && t.pacer.sent == s.pacer.sent
  {
    hide NextProducer;
    if Next(s, e).socketOpen { OpenFalls(s, e); }
    if !e.Consume? { ProducerKeeps(s, e); }
  }

  /** The socket is closed with the radio keyed only by giving up. */
  lemma ClosingStep(s: State, e: Event)
    requires Inv(s) && Enabled(s, e) && s.socketOpen && !Next(s, e).socketOpen
    ensures Next(s, e).pacer == s.pacer && (s.pacer.keyed ==> e.JoinTimeout?)
  {
    hide VoiceOk, GrammarOk, CadenceOk, NextPacer;
  }

  lemma {:induction false} KeyedAtTheEnd(s: State, es: seq<Event>, t: State)
    requires Inv(s) && s.socketOpen && Run(s, es, t)
    ensures !t.socketOpen && t.pacer.keyed <==> GivesUpKeyed(s, es)
    decreases |es|
  {
    if es != [] {
      var u := Next(s, es[0]);
      StepInv(s, es[0]);
      if u.socketOpen { StillOpen(s, es[0]); } else { ClosingStep(s, es[0]); }
      hide Inv, Next, Enabled;
      if u.socketOpen { KeyedAtTheEnd(u, es[1..], t); } else { ClosedIsSilent(u, es[1..], t); }
    }
  }

  lemma StillOpen(s: State, e: Event)
    requires Enabled(s, e) && Next(s, e).socketOpen
    ensures !e.JoinTimeout?
  {
  }

  /** In any run the pacer exits keyed exactly if close() gave up on it while the radio was keyed. */
  lemma ExitsKeyedIff(now: int, frameMillis: nat, es: seq<Event>, s: State)
    requires Run(Init(now, frameMillis), es, s) && s.pacer.stage.Exited?
    ensures s.pacer.keyed <==> GivesUpKeyed(Init(now, frameMillis), es)
  {
    var s0 := Init(now, frameMillis);
    InitInv(now, frameMillis);
    hide Run, GivesUpKeyed;
    RunInv(s0, es, s);
    KeyedAtTheEnd(s0, es, s);
  }

  predicate NoJoinTimeout(es: seq<Event>) { forall e :: e in es ==> !e.JoinTimeout? }

  lemma {:induction false} NeverGivesUp(s: State, es: seq<Event>)
    requires NoJoinTimeout(es)
    ensures !GivesUpKeyed(s, es)
    decreases |es|
  {
    if es != [] && Enabled(s, es[0]) {
      hide Next, Enabled;
      NeverGivesUp(Next(s, es[0]), es[1..]);
    }
  }

  /** As long as close() waits for the pacer, the pacer exits only with the radio unkeyed, and it stays so. */
  lemma ExitsUnkeyed(now: int, frameMillis: nat, es: seq<Event>, s: State)
    requires Run(Init(now, frameMillis), es, s) && NoJoinTimeout(es)
    requires s.pacer.stage.Exited?
    ensures !s.pacer.keyed
  {
    hide Run, NoJoinTimeout, GivesUpKeyed;
    NeverGivesUp(Init(now, frameMillis), es);
    ExitsKeyedIff(now, frameMillis, es, s);
  }

  /** The pacer exits without touching the radio, on an empty queue. */
  lemma ExitKeepsRadio(s: State, e: Event)
    requires e.Consume? && Enabled(s, e) && Next(s, e).pacer.stage.Exited?
    ensures s.pacer.stage.CheckEmpty? && s.queue == [] && Next(s, e).pacer.keyed == s.pacer.keyed
  {
    hide Handle;
    if s.pacer.stage.Handling? { HandleEffect(s.pacer.(clock := e.after), s.socketOpen, s.pacer.stage.item, e.after); }
  }

  /** Steps the pacer can still take once stop is set and nothing more is queued. */
  function StepsLeft(queue: seq<Item>, stage: Stage): nat {
    6 * |queue| +
    match stage
    case Handling(_) => 5
    case VoiceReady(_, _) => 4
    case CheckStop => 3
    case CheckEmpty => 2
    case Getting => if queue == [] then 4 else 1
    case Exited => 0
  }

  lemma LeftStep(s: State, now: int, after: int)
    requires s.stop && Enabled(s, Consume(now, after))
    ensures var t := Next(s, Consume(now, after));
            StepsLeft(t.queue, t.pacer.stage) < StepsLeft(s.queue, s.pacer.stage)
  {
    hide Handle;
    if s.pacer.stage.Handling? { HandleEffect(s.pacer.(clock := after), s.socketOpen, s.pacer.stage.item, after); }
  }

  /** Once stop is set the pacer, left alone, exits within so many steps, and until then it can always take another. */
  lemma {:induction false} StopsSoon(s: State, es: seq<Event>, t: State)
    requires s.stop && Run(s, es, t) && (forall e :: e in es ==> e.Consume?)
    ensures |es| + StepsLeft(t.queue, t.pacer.stage) <= StepsLeft(s.queue, s.pacer.stage)
    ensures t.pacer.stage.Exited? || exists now, after :: Enabled(t, Consume(now, after))
    decreases |es|
  {
    if es == [] {
      var now := if s.pacer.clock < s.pacer.nextVoiceAt then s.pacer.nextVoiceAt else s.pacer.clock;
      assert s.pacer.stage.Exited? || Enabled(s, Consume(now, now));
    } else {
      assert es[0].Consume?;
      LeftStep(s, es[0].now, es[0].after);
      ConsumerKeeps(s, es[0]);
      hide Next, Enabled, StepsLeft;
      StopsSoon(Next(s, es[0]), es[1..], t);
    }
  }

  // ----- producer calls return -----------------------------------------------------

  /** Steps that the producer call in progress may still take. */
  function CallSteps(p: Producer, queued: nat): nat {
    match p
    case Idle => 0
    case KeyupPut(_) => 6
    case KeyupEvict(_) => 5
    case KeyupRetry(_) => 4
    case VoicePut(_) => 3
    case VoiceEvict(_) => 2
    case VoiceRetry(_) => 1
    case UnkeyDrain(_) => 6 + queued
    case UnkeyPut(_, _) => 5 + queued
    case UnkeyRedrain(_) => 4 + queued
    case UnkeyRetry(_) => 3
    case SetStop => 2
    case Joining => 1
  }

  function Produces(es: seq<Event>): nat {
    if es == [] then 0 else Produces(es[1..]) + if es[0].Produce? then 1 else 0
  }

  predicate WithinCall(es: seq<Event>) {
    forall i :: 0 <= i < |es| ==> es[i].Produce? || es[i].Consume? || es[i].JoinTimeout?
  }

  lemma AccessesAre(s: State, item: Item, frame: seq<Byte>, after: Producer)
    ensures PutMarker(s, item, after).producer == Evict(s, after).producer == after && PutVoice(s, frame).producer.Idle?
    ensures |PutMarker(s, item, after).queue| == |s.queue| + 1 && |Evict(s, after).queue| <= |s.queue|
    ensures var t := DrainOne(s, after);
            if s.queue == [] then t.producer == after && t.queue == []
            else t.producer == s.producer && |t.queue| == |s.queue| - 1
  {
  }

  lemma ProduceAdvances(s: State)
    requires !s.producer.Idle?
    ensures var t := NextProducer(s);
            CallSteps(t.producer, |t.queue|) < CallSteps(s.producer, |s.queue|)
  {
    var p := s.producer;
    match p {
      case KeyupPut(frame) => AccessesAre(s, Keyup, frame, VoicePut(frame));
      case KeyupEvict(frame) => AccessesAre(s, Keyup, frame, KeyupRetry(frame));
      case KeyupRetry(frame) => AccessesAre(s, Keyup, frame, VoicePut(frame));
      case VoicePut(frame) => AccessesAre(s, Keyup, frame, Idle);
      case VoiceEvict(frame) => AccessesAre(s, Keyup, frame, VoiceRetry(frame));
      case VoiceRetry(frame) => AccessesAre(s, Keyup, frame, Idle);
      case UnkeyDrain(closing) => AccessesAre(s, Unkey, [], UnkeyPut(closing, true));
      case UnkeyPut(closing, _) => AccessesAre(s, Unkey, [], AfterUnkey(closing));
      case UnkeyRedrain(closing) => AccessesAre(s, Unkey, [], UnkeyRetry(closing));
      case UnkeyRetry(closing) => AccessesAre(s, Unkey, [], AfterUnkey(closing));
      case _ =>
    }
    hide Evict, DrainOne, PutVoice, PutMarker;
  }

  lemma CallStep(s: State, e: Event)
    requires Enabled(s, e) && (e.Produce? || e.Consume? || e.JoinTimeout?)
    ensures var t := Next(s, e);
            CallSteps(t.producer, |t.queue|) + (if e.Produce? then 1 else 0) <= CallSteps(s.producer, |s.queue|)
  {
    if e.Produce? {
      ProduceAdvances(s);
      hide NextProducer, CallSteps;
    } else if e.Consume? {
      ConsumerKeeps(s, e);
      hide Next, Enabled;
    }
  }

  /**
   Whatever the pacer does meanwhile, a producer call takes at most so many steps of its own, draining included, and can
   always take the next one, but for waiting for the pacer to exit, which it may give up.
   */
  lemma {:induction false} CallsReturn(s: State, es: seq<Event>, t: State)
    requires Run(s, es, t) && WithinCall(es)
    ensures Produces(es) + CallSteps(t.producer, |t.queue|) <= CallSteps(s.producer, |s.queue|)
    ensures t.producer.Idle? || Enabled(t, Produce) || Enabled(t, JoinTimeout)
    decreases |es|
  {
    if es != [] {
      CallStep(s, es[0]);
      hide Next, Enabled, CallSteps;
      CallsReturn(Next(s, es[0]), es[1..], t);
    }
  }

  /** A call on a queue within its bound is over after 256 steps at most. */
  lemma CallsAreShort(s: State, es: seq<Event>, t: State)
    requires Inv(s) && Run(s, es, t) && WithinCall(es)
    ensures Produces(es) <= 256
  {
    hide Run, VoiceOk, GrammarOk, CadenceOk, SettleOk, Produces;
    CallsReturn(s, es, t);
  }

  lemma OpenUntilStop(s: State)
    requires Inv(s) && !s.stop
    ensures s.socketOpen
  {
    hide VoiceOk, GrammarOk, CadenceOk, SettleOk;
  }

  // ----- one close() that gives up --------------------------------------------------

  function StartTalking(frame: seq<Byte>): seq<Event> {
    [Submit(frame), Produce] + [Produce, Consume(0, 0)] + [Consume(0, 0), Consume(0, 0)]
  }

  function GiveUp(): seq<Event> { [Close, Produce] + [Produce, Produce] + [Produce, JoinTimeout] }

  function WindUp(): seq<Event> {
    [Consume(0, 0), Consume(0, 0)] + [Consume(0, 0), Consume(0, 0)] + [Consume(0, 0), Consume(0, 0)]
  }

  /** Keyed, with one voice frame waiting. */
  function Talking(frame: seq<Byte>): State {
    var p := Init(0, 20).pacer;
    State([Voice(0, frame)], true, false, true, Idle, Intake([frame], [], []),
          p.(keyed := true, nextSequence := 2, sent := [Packet(1, true, [])]))
  }

  lemma StartTalkingRun(frame: seq<Byte>)
    requires |frame| == VOICE_FRAME_BYTES
    ensures Run(Init(0, 20), StartTalking(frame), Talking(frame))
  {
    var s0 := Init(0, 20);
    var s2 := s0.(requested := true, queue := [Keyup], producer := VoicePut(frame));
    var s4 := Talking(frame).(queue := [Keyup, Voice(0, frame)], pacer := s0.pacer.(stage := Getting));
    assert [] + [Keyup] == [Keyup];
    RunTwo(s0, Submit(frame), Produce);
    VoiceQueued(frame, s2, s4);
    KeyupHandled(frame, s4);
    hide Run, Next, Enabled;
    RunConcat(s0, [Submit(frame), Produce], s2, [Produce, Consume(0, 0)], s4);
    var four := [Submit(frame), Produce] + [Produce, Consume(0, 0)];
    RunConcat(s0, four, s4, [Consume(0, 0), Consume(0, 0)], Talking(frame));
  }

  lemma KeyupHandled(frame: seq<Byte>, s: State)
    requires s == Talking(frame).(queue := [Keyup, Voice(0, frame)], pacer := Init(0, 20).pacer.(stage := Getting))
    ensures Run(s, [Consume(0, 0), Consume(0, 0)], Talking(frame))
  {
    RunTwo(s, Consume(0, 0), Consume(0, 0));
  }

  lemma VoiceQueued(frame: seq<Byte>, s: State, t: State)
    requires s == Init(0, 20).(requested := true, queue := [Keyup], producer := VoicePut(frame))
    requires t == Talking(frame).(queue := [Keyup, Voice(0, frame)], pacer := Init(0, 20).pacer.(stage := Getting))
    ensures Run(s, [Produce, Consume(0, 0)], t)
  {
    assert [Keyup] + [Voice(0, frame)] == [Keyup, Voice(0, frame)];
    RunTwo(s, Produce, Consume(0, 0));
    assert Next(Next(s, Produce), Consume(0, 0)) == t;
  }

  /** close() has queued its unkey, set stop, and given up waiting. */
  function GivenUp(frame: seq<Byte>): State {
    State([Unkey], false, true, false, Idle, Intake([frame], [], [0]), Talking(frame).pacer)
  }

  lemma FirstClose(frame: seq<Byte>)
    ensures Run(Talking(frame), GiveUp(), GivenUp(frame))
  {
    var s := Talking(frame);
    var s2 := s.(requested := false, queue := [], producer := UnkeyDrain(true), intake := Intake([frame], [], [0]));
    var s4 := s2.(queue := [Unkey], producer := SetStop);
    RunTwo(s, Close, Produce);
    RunTwo(s2, Produce, Produce);
    RunTwo(s4, Produce, JoinTimeout);
    hide Run, Next, Enabled;
    RunConcat(s, [Close, Produce], s2, [Produce, Produce], s4);
    RunConcat(s, [Close, Produce] + [Produce, Produce], s4, [Produce, JoinTimeout], GivenUp(frame));
  }

  /** The pacer takes the unkey, finds the socket closed, and exits as it was. */
  lemma UnkeyIsLost(frame: seq<Byte>) returns (t: State)
    ensures Run(GivenUp(frame), WindUp(), t)
    ensures t.pacer.stage.Exited? && t.pacer.keyed
  {
    var s := GivenUp(frame);
    var s2 := s.(pacer := s.pacer.(stage := Getting));
    var s4 := s2.(queue := [], pacer := s.pacer.(stage := CheckStop));
    t := s4.(pacer := s4.pacer.(stage := Exited));
    RunTwo(s, Consume(0, 0), Consume(0, 0));
    RunTwo(s2, Consume(0, 0), Consume(0, 0));
    RunTwo(s4, Consume(0, 0), Consume(0, 0));
    hide Run, Next, Enabled;
    RunConcat(s, [Consume(0, 0), Consume(0, 0)], s2, [Consume(0, 0), Consume(0, 0)], s4);
    var four := [Consume(0, 0), Consume(0, 0)] + [Consume(0, 0), Consume(0, 0)];
    RunConcat(s, four, s4, [Consume(0, 0), Consume(0, 0)], t);
  }

  lemma JoinTimeoutCanLoseUnkey(frame: seq<Byte>) returns (s: State)
    requires |frame| == VOICE_FRAME_BYTES
    ensures Run(Init(0, 20), StartTalking(frame) + (GiveUp() + WindUp()), s)
    ensures s.pacer.stage.Exited? && s.pacer.keyed
  {
    hide Run;
    StartTalkingRun(frame);
    FirstClose(frame);
    s := UnkeyIsLost(frame);
    RunConcat(Talking(frame), GiveUp(), GivenUp(frame), WindUp(), s);
    RunConcat(Init(0, 20), StartTalking(frame), Talking(frame), GiveUp() + WindUp(), s);
  }

  lemma RunOne(s: State, e: Event)
    requires Enabled(s, e)
    ensures Run(s, [e], Next(s, e))
  {
    assert Run(Next(s, e), [e][1..], Next(s, e));
  }

  lemma RunTwo(s: State, e: Event, f: Event)
    requires Enabled(s, e) && Enabled(Next(s, e), f)
    ensures Run(s, [e, f], Next(Next(s, e), f))
  {
    RunOne(s, e);
    RunOne(Next(s, e), f);
    RunConcat(s, [e], Next(s, e), [f], Next(Next(s, e), f));
    assert [e] + [f] == [e, f];
  }

  // ----- what reaches the wire ----------------------------------------------------

  /** No voice while unkeyed, no double key, no double unkey, and consecutive sequence numbers modulo 2^32. */
  lemma WireFollowsGrammar(s: State)
    requires Reachable(s)
    ensures InGrammar(Kinds(s.pacer.sent))
    ensures forall i :: 0 <= i < |s.pacer.sent| ==> s.pacer.sent[i].sequence == (1 + i) % SEQUENCE_MODULUS
  {
    hide InGrammar, FlagsOk, SettleOk, VoiceOk, CadenceOk;
    ReachableInv(s);
    RecognisesGrammar(Kinds(s.pacer.sent));
  }

  /**
   Voice leaves in submission order, at most once each, unaltered.  Every frame queued is accounted for exactly once;
   the ones that found the socket closed come after all that were sent, and there are none while it is open.
   */
  lemma VoiceIsConserved(s: State)
    requires Reachable(s)
    ensures var p := s.pacer;
            && (forall i :: 0 <= i < |p.sentIds| ==> p.sentIds[i] < |s.intake.submitted|)
            && Increasing(p.sentIds + p.unsentIds)
            && VoicePayloads(p.sent) == Frames(s.intake.submitted, p.sentIds)
            && multiset(p.sentIds) + multiset(p.unsentIds)
               + multiset(VoiceIds(InFlight(p.stage))) + multiset(VoiceIds(s.queue))
               + multiset(s.intake.evicted) + multiset(s.intake.drained)
               == multiset(Upto(|s.intake.submitted|))
    ensures s.socketOpen ==> s.pacer.unsentIds == []
  {
    hide FlagsOk, SettleOk, GrammarOk, CadenceOk;
    ReachableInv(s);
    var done := s.pacer.sentIds + s.pacer.unsentIds;
    var trail := Trail(InFlight(s.pacer.stage), s.queue, done);
    assert forall i :: 0 <= i < |done| ==> done[i] == trail[i];
  }

  ghost predicate Increasing(ids: seq<nat>) { forall i, j :: 0 <= i < j < |ids| ==> ids[i] < ids[j] }

  /** The queue never outgrows its bound, and none of the last-resort "queue still full" branches is ever taken. */
  lemma QueueStaysBounded(s: State)
    requires Reachable(s)
    ensures |s.queue| <= QUEUE_SIZE
    ensures s.producer.KeyupRetry? || s.producer.VoiceRetry? || s.producer.UnkeyRetry? ==> !Full(s.queue)
    ensures s.producer.UnkeyPut? && s.producer.drained ==> !Full(s.queue)
  {
    hide SettleOk, VoiceOk, GrammarOk, CadenceOk;
    ReachableInv(s);
  }

  lemma {:induction false} IntervalStays(s: State, es: seq<Event>, t: State)
    requires Run(s, es, t) && PromptOk(s.pacer)
    ensures PromptOk(t.pacer) && t.pacer.interval == s.pacer.interval
    decreases |es|
  {
    if es != [] {
      PromptStep(s, es[0]);
      hide Next, Enabled, PromptOk;
      IntervalStays(Next(s, es[0]), es[1..], t);
    }
  }

  lemma {:induction false} SpacedAtLeast(times: seq<int>, resetAt: int, interval: nat, less: nat)
    requires Spaced(times, resetAt, interval) && less <= interval
    ensures Spaced(times, resetAt, less)
  {
    forall i | 0 <= i < |times| ensures times[i] >= resetAt + i * less { LessTimes(i, less, interval); }
    forall i, j | 0 <= i < j < |times| ensures times[j] - times[i] >= (j - i - 1) * less {
      LessTimes(j - i - 1, less, interval);
    }
  }

  lemma LessTimes(k: nat, less: nat, more: nat)
    requires less <= more
    ensures k * less <= k * more
  {
  }

  /**
   Voice is never early and never bunched by more than one frame length: since the cadence was last reset, frame i
   leaves no sooner than i frame lengths after it, and k + 1 consecutive frames span at least k - 1 frame lengths.
   */
  lemma VoiceIsPaced(now: int, frameMillis: nat, es: seq<Event>, s: State)
    requires Run(Init(now, frameMillis), es, s)
    ensures s.pacer.interval == if frameMillis < 5 then 5000 else 1000 * frameMillis
    ensures var times := s.pacer.voiceTimes;
            && (forall i :: 0 <= i < |times| ==> times[i] >= s.pacer.resetAt + i * (1000 * frameMillis))
            && (forall i, j :: 0 <= i < j < |times| ==> times[j] - times[i] >= (j - i - 1) * (1000 * frameMillis))
    ensures Spaced(s.pacer.voiceTimes, s.pacer.resetAt, s.pacer.interval)
  {
    IntervalStays(Init(now, frameMillis), es, s);
    hide FlagsOk, SettleOk, VoiceOk, GrammarOk, Run;
    assert Reachable(s);
    ReachableInv(s);
    SpacedAtLeast(s.pacer.voiceTimes, s.pacer.resetAt, s.pacer.interval, 1000 * frameMillis);
  }

  /** Voice is never late either: the next frame is due no later than one frame length from now. */
  lemma VoiceIsPrompt(now: int, frameMillis: nat, es: seq<Event>, s: State)
    requires Run(Init(now, frameMillis), es, s)
    ensures s.pacer.nextVoiceAt <= s.pacer.clock + if frameMillis < 5 then 5000 else 1000 * frameMillis
  {
    IntervalStays(Init(now, frameMillis), es, s);
  }

  /** A marker, or voice that finds the radio unkeyed, starts the cadence afresh: the next frame is due at once. */
  lemma MarkerRestartsCadence(s: State, now: int, after: int)
    requires Enabled(s, Consume(now, after)) && s.pacer.stage.Handling?
    requires s.pacer.stage.item.Voice? ==> !s.pacer.keyed
    ensures var p := Next(s, Consume(now, after)).pacer;
            p.nextVoiceAt == p.resetAt == p.clock == after && p.voiceTimes == []
  {
  }

  // ----- draining ------------------------------------------------------------------

  /** Pacer steps that may still be needed before it has nothing left to act on. */
  function Work(queue: seq<Item>, stage: Stage): nat {
    5 * |queue| +
    match stage
    case VoiceReady(_, _) => 3
    case Handling(_) => 4
    case CheckStop => if queue == [] then 0 else 2
    case CheckEmpty => if queue == [] then 0 else 1
    case _ => 0
  }

  lemma WorkStep(s: State, now: int, after: int)
    requires Enabled(s, Consume(now, after))
    ensures var t := Next(s, Consume(now, after));
            var before := Work(s.queue, s.pacer.stage);
            Work(t.queue, t.pacer.stage) <= if before == 0 then 0 else before - 1
  {
    hide Handle;
    if s.pacer.stage.Handling? { HandleEffect(s.pacer.(clock := after), s.socketOpen, s.pacer.stage.item, after); }
  }

  /**
   Left alone after an unkey, the pacer has the radio unkeyed and nothing pending within five steps per queued item,
   plus four.
   */
  lemma {:induction false} DrainsToUnkeyed(s: State, es: seq<Event>, t: State)
    requires Inv(s) && s.socketOpen && !s.requested && s.producer.Idle?
    requires Run(s, es, t) && (forall e :: e in es ==> e.Consume?)
    requires |es| >= Work(s.queue, s.pacer.stage)
    ensures t.queue == [] && InFlight(t.pacer.stage) == [] && !t.pacer.keyed
    decreases |es|
  {
    if es == [] {
      hide FlagsOk, VoiceOk, GrammarOk, CadenceOk;
    } else {
      hide Inv, Next, Enabled, Work;
      assert es[0].Consume?;
      WorkStep(s, es[0].now, es[0].after);
      ConsumerKeeps(s, es[0]);
      StepInv(s, es[0]);
      DrainsToUnkeyed(Next(s, es[0]), es[1..], t);
    }
  }
}
