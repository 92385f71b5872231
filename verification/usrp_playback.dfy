/** What a queue amounts to when one of the threads has it to itself: the order of play, and the order of loss. */
module UsrpPlayback {
  import opened Bytes
  import opened UsrpMachine
  import opened UsrpGrammar
  import opened UsrpSafety

  // ----- the pacer alone: what is queued is what is played ----------------------------------

  /** The packets that entries call for: a keyup or an unkey only if the radio is not that way already. */
  function Play(keyed: bool, items: seq<Item>): seq<Kind>
    decreases |items|
  {
    if items == [] then []
    else
      match items[0]
      case Keyup => (if keyed then [] else [K]) + Play(true, items[1..])
      case Voice(_, _) => (if keyed then [V] else [K, V]) + Play(true, items[1..])
      case Unkey => (if keyed then [U] else []) + Play(false, items[1..])
  }

  /** What has been sent, and what is still to come if nothing else happens. */
  function Whole(p: Pacer, queue: seq<Item>): seq<Kind> {
    Kinds(p.sent) + Play(p.keyed, InFlight(p.stage) + queue)
  }

  lemma {:induction false} KindsAppend(ps: seq<Packet>, p: Packet)
    ensures Kinds(ps + [p]) == Kinds(ps) + [KindOf(p)]
  {
  }

  lemma {:induction false} PlayFirst(keyed: bool, item: Item, rest: seq<Item>)
    ensures Play(keyed, [item] + rest)
            == (match item
                case Keyup => (if keyed then [] else [K]) + Play(true, rest)
                case Voice(_, _) => (if keyed then [V] else [K, V]) + Play(true, rest)
                case Unkey => (if keyed then [U] else []) + Play(false, rest))
  {
    assert ([item] + rest)[1..] == rest;
  }

  lemma {:induction false} HandlePlays(p: Pacer, item: Item, after: int, queue: seq<Item>)
    requires p.stage == Handling(item)
    ensures Whole(Handle(p, true, item, after), queue) == Whole(p, queue)
  {
    PlayFirst(p.keyed, item, queue);
    PlayFirst(true, item, queue);
    hide Play;
    KindsAppend(p.sent, Packet(p.nextSequence, !item.Unkey?, []));
    assert [] + queue == queue;
    hide Kinds;
  }

  lemma {:induction false} SendPlays(p: Pacer, now: int, after: int, queue: seq<Item>)
    requires p.stage.VoiceReady? && p.keyed && p.stage.frame != []
    ensures Whole(SendVoice(p, true, p.stage.id, p.stage.frame, now, after), queue) == Whole(p, queue)
  {
    PlayFirst(true, Voice(p.stage.id, p.stage.frame), queue);
    hide Play;
    KindsAppend(p.sent, Packet(p.nextSequence, true, p.stage.frame));
    assert [] + queue == queue;
    hide Kinds;
  }

  lemma {:induction false} StepPlays(s: State, now: int, after: int)
    requires Inv(s) && s.socketOpen && Enabled(s, Consume(now, after))
    ensures var t := Next(s, Consume(now, after)); Whole(t.pacer, t.queue) == Whole(s.pacer, s.queue)
  {
    hide Inv, Handle, SendVoice, Play, Kinds;
    var p := s.pacer.(clock := after);
    assert Whole(p, s.queue) == Whole(s.pacer, s.queue);
    if p.stage.Getting? && s.queue != [] {
      assert [s.queue[0]] + s.queue[1..] == [] + s.queue;
    } else if p.stage.VoiceReady? {
      ReadyIsKeyed(s);
      hide Whole;
      SendPlays(p, now, after, s.queue);
    } else if p.stage.Handling? {
      hide Whole;
      HandlePlays(p, p.stage.item, after, s.queue);
    }
  }

  lemma ReadyIsKeyed(s: State)
    requires Inv(s) && s.socketOpen && s.pacer.stage.VoiceReady?
    ensures s.pacer.keyed && s.pacer.stage.frame != []
  {
    assert InFlight(s.pacer.stage)[0].frame == s.pacer.stage.frame;
  }

  /** Left alone with an open socket for long enough, the pacer plays exactly what was pending, in order. */
  lemma {:induction false} PlaysWhatIsQueued(s: State, es: seq<Event>, t: State)
    requires Inv(s) && s.socketOpen && Run(s, es, t) && (forall e :: e in es ==> e.Consume?)
    requires |es| >= Work(s.queue, s.pacer.stage)
    ensures t.queue == [] && InFlight(t.pacer.stage) == []
    ensures Kinds(t.pacer.sent) == Kinds(s.pacer.sent) + Play(s.pacer.keyed, InFlight(s.pacer.stage) + s.queue)
    decreases |es|
  {
    if es == [] {
      hide Inv, Kinds;
      assert Play(s.pacer.keyed, []) == [];
    } else {
      assert es[0].Consume?;
      StepPlays(s, es[0].now, es[0].after);
      WorkStep(s, es[0].now, es[0].after);
      ConsumerKeeps(s, es[0]);
      StepInv(s, es[0]);
      hide Inv, Next, Enabled, Work, Play, Kinds;
      PlaysWhatIsQueued(Next(s, es[0]), es[1..], t);
    }
  }

  // ----- the producer alone: the oldest entries make room ------------------------------------

  /** The newest entries, as many as the queue holds. */
  function Newest(items: seq<Item>): seq<Item> {
    if |items| <= QUEUE_SIZE then items else items[|items| - QUEUE_SIZE..]
  }

  predicate AllProduce(es: seq<Event>) { forall i :: 0 <= i < |es| ==> es[i].Produce? }

  /** The call's next access, and the rest of it. */
  lemma {:induction false} OneAccess(s: State, es: seq<Event>, t: State)
    requires Run(s, es, t) && AllProduce(es) && t.producer.Idle? && !s.producer.Idle? && !s.producer.Joining?
    ensures es != [] && Run(NextProducer(s), es[1..], t) && AllProduce(es[1..])
  {
  }

  lemma {:induction false} CallIsOver(s: State, es: seq<Event>, t: State)
    requires Run(s, es, t) && AllProduce(es) && s.producer.Idle?
    ensures t == s
  {
  }

  lemma {:induction false} VoiceRetryEnds(s: State, es: seq<Event>, t: State)
    requires Run(s, es, t) && AllProduce(es) && t.producer.Idle? && s.producer.VoiceRetry? && |s.queue| < QUEUE_SIZE
    ensures t.queue == s.queue + [Voice(|s.intake.submitted|, s.producer.frame)]
    ensures t.intake.submitted == s.intake.submitted + [s.producer.frame]
  {
    hide Run;
    OneAccess(s, es, t);
    CallIsOver(NextProducer(s), es[1..], t);
  }

  lemma {:induction false} VoicePutEnds(s: State, es: seq<Event>, t: State)
    requires Run(s, es, t) && AllProduce(es) && t.producer.Idle? && s.producer.VoicePut? && |s.queue| <= QUEUE_SIZE
    ensures t.queue == Newest(s.queue + [Voice(|s.intake.submitted|, s.producer.frame)])
    ensures t.intake.submitted == s.intake.submitted + [s.producer.frame]
  {
    hide Run;
    OneAccess(s, es, t);
    var u := NextProducer(s);
    if u.producer.Idle? {
      CallIsOver(u, es[1..], t);
    } else {
      OneAccess(u, es[1..], t);
      VoiceRetryEnds(NextProducer(u), es[1..][1..], t);
    }
  }

  lemma {:induction false} KeyupRetryEnds(s: State, es: seq<Event>, t: State)
    requires Run(s, es, t) && AllProduce(es) && t.producer.Idle? && s.producer.KeyupRetry? && |s.queue| < QUEUE_SIZE
    ensures t.queue == Newest(s.queue + [Keyup] + [Voice(|s.intake.submitted|, s.producer.frame)])
    ensures t.intake.submitted == s.intake.submitted + [s.producer.frame]
  {
    hide Run, Newest;
    OneAccess(s, es, t);
    VoicePutEnds(NextProducer(s), es[1..], t);
  }

  lemma {:induction false} KeyupPutEnds(s: State, es: seq<Event>, t: State)
    requires Run(s, es, t) && AllProduce(es) && t.producer.Idle? && s.producer.KeyupPut? && |s.queue| <= QUEUE_SIZE
    ensures t.queue == Newest(s.queue + [Keyup] + [Voice(|s.intake.submitted|, s.producer.frame)])
    ensures t.intake.submitted == s.intake.submitted + [s.producer.frame]
  {
    hide Run, Newest;
    OneAccess(s, es, t);
    var u := NextProducer(s);
    if u.producer.VoicePut? {
      VoicePutEnds(u, es[1..], t);
    } else {
      OneAccess(u, es[1..], t);
      KeyupRetryEnds(NextProducer(u), es[1..][1..], t);
      NewestOfRest(s.queue, [Keyup] + [Voice(|s.intake.submitted|, s.producer.frame)]);
      assert s.queue + ([Keyup] + [Voice(|s.intake.submitted|, s.producer.frame)])
          == s.queue + [Keyup] + [Voice(|s.intake.submitted|, s.producer.frame)];
      assert s.queue[1..] + ([Keyup] + [Voice(|s.intake.submitted|, s.producer.frame)])
          == s.queue[1..] + [Keyup] + [Voice(|s.intake.submitted|, s.producer.frame)];
    }
  }

  lemma {:induction false} NewestOfRest(queue: seq<Item>, more: seq<Item>)
    requires |queue| == QUEUE_SIZE && more != []
    ensures Newest(queue[1..] + more) == Newest(queue + more)
  {
    assert queue[1..] + more == (queue + more)[1..];
  }

  /** A frame goes in behind a keyup, if none was wanted yet; what no longer fits is lost from the front. */
  lemma {:induction false} UndisturbedSubmit(s: State, frame: seq<Byte>, es: seq<Event>, t: State)
    requires FlagsOk(s) && Enabled(s, Submit(frame)) && |frame| == VOICE_FRAME_BYTES
    requires Run(Next(s, Submit(frame)), es, t) && AllProduce(es) && t.producer.Idle?
    ensures t.queue == Newest(s.queue + (if s.requested then [] else [Keyup]) + [Voice(|s.intake.submitted|, frame)])
    ensures t.intake.submitted == s.intake.submitted + [frame]
  {
    hide Run;
    var u := Next(s, Submit(frame));
    if s.requested {
      assert s.queue + [] == s.queue;
      VoicePutEnds(u, es, t);
    } else {
      KeyupPutEnds(u, es, t);
    }
  }

  lemma {:induction false} DrainEnds(s: State, es: seq<Event>, t: State)
    requires Run(s, es, t) && AllProduce(es) && t.producer.Idle?
    requires s.producer == UnkeyDrain(false) || s.producer == UnkeyRedrain(false)
    ensures t.queue == [Unkey] && t.intake.submitted == s.intake.submitted
    decreases |s.queue|
  {
    hide Run;
    OneAccess(s, es, t);
    var u := NextProducer(s);
    if s.queue != [] {
      DrainEnds(u, es[1..], t);
    } else {
      OneAccess(u, es[1..], t);
      CallIsOver(NextProducer(u), es[1..][1..], t);
    }
  }

  /** An unkey goes in last; everything before it is given up if that is asked for, or if there is no room. */
  lemma {:induction false} UndisturbedUnkey(s: State, clear: bool, es: seq<Event>, t: State)
    requires FlagsOk(s) && Enabled(s, RequestUnkey(clear))
    requires Run(Next(s, RequestUnkey(clear)), es, t) && AllProduce(es) && t.producer.Idle?
    ensures t.queue == if clear || |s.queue| == QUEUE_SIZE then [Unkey] else s.queue + [Unkey]
    ensures t.intake.submitted == s.intake.submitted
  {
    hide Run;
    var u := Next(s, RequestUnkey(clear));
    if clear {
      DrainEnds(u, es, t);
    } else {
      OneAccess(u, es, t);
      var v := NextProducer(u);
      if v.producer.Idle? { CallIsOver(v, es[1..], t); } else { DrainEnds(v, es[1..], t); }
    }
  }
}
