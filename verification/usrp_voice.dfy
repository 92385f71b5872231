/** No voice frame is lost track of, sent twice, or sent out of order. */
module UsrpVoice {
  import opened Bytes
  import opened UsrpMachine

  function Upto(n: nat): (s: seq<nat>)
    ensures |s| == n && forall i :: 0 <= i < n ==> s[i] == i
  {
    seq(n, i requires 0 <= i < n => i)
  }

  /** Every submitted frame dealt with so far or still to be dealt with, in the order the pacer takes them. */
  function Trail(hand: seq<Item>, queue: seq<Item>, done: seq<nat>): seq<nat> {
    done + VoiceIds(hand) + VoiceIds(queue)
  }

  function VoiceIds(items: seq<Item>): seq<nat> {
    if items == [] then [] else IdOf(items[0]) + VoiceIds(items[1..])
  }

  /** What the packets already sent carried. */
  function VoicePayloads(ps: seq<Packet>): seq<seq<Byte>> {
    if ps == [] then []
    else VoicePayloads(ps[..|ps| - 1]) + (if ps[|ps| - 1].payload != [] then [ps[|ps| - 1].payload] else [])
  }

  function Frames(submitted: seq<seq<Byte>>, ids: seq<nat>): seq<seq<Byte>>
    requires forall i :: 0 <= i < |ids| ==> ids[i] < |submitted|
  {
    seq(|ids|, i requires 0 <= i < |ids| => submitted[ids[i]])
  }

  /** Strictly increasing positions below `n`: an order-preserving, duplicate-free selection. */
  ghost predicate Ordered(ids: seq<nat>, n: nat) {
    && (forall i, j :: 0 <= i < j < |ids| ==> ids[i] < ids[j])
    && (forall i :: 0 <= i < |ids| ==> ids[i] < n)
  }

  /** Each of the `n` submitted frames is exactly one of: on the trail, evicted, drained. */
  ghost predicate Accounted(trail: seq<nat>, evicted: seq<nat>, drained: seq<nat>, n: nat) {
    multiset(trail) + multiset(evicted) + multiset(drained) == multiset(Upto(n))
  }

  ghost predicate ItemsOk(items: seq<Item>, submitted: seq<seq<Byte>>) {
    forall i :: 0 <= i < |items| && items[i].Voice? ==>
      && items[i].id < |submitted|
      && items[i].frame == submitted[items[i].id]
      && |items[i].frame| == VOICE_FRAME_BYTES
  }

  ghost predicate SentOk(submitted: seq<seq<Byte>>, sent: seq<Packet>, sentIds: seq<nat>) {
    && (forall i :: 0 <= i < |sentIds| ==> sentIds[i] < |submitted|)
    && VoicePayloads(sent) == Frames(submitted, sentIds)
  }

  /** `done` are the frames the pacer is through with: those sent, then those that found the socket closed. */
  ghost predicate FramesOk(hand: seq<Item>, queue: seq<Item>, k: Intake, sent: seq<Packet>, sentIds: seq<nat>,
                           done: seq<nat>) {
    && Ordered(Trail(hand, queue, done), |k.submitted|)
    && Accounted(Trail(hand, queue, done), k.evicted, k.drained, |k.submitted|)
    && ItemsOk(hand, k.submitted)
    && ItemsOk(queue, k.submitted)
    && SentOk(k.submitted, sent, sentIds)
  }

  ghost predicate VoiceOk(s: State) {
    var p := s.pacer;
    && FramesOk(InFlight(p.stage), s.queue, s.intake, p.sent, p.sentIds, p.sentIds + p.unsentIds)
    && (s.socketOpen ==> p.unsentIds == [])
  }

  // ----- moving one entry -------------------------------------------------------

  lemma {:induction false} VoiceIdsAppend(items: seq<Item>, item: Item)
    ensures VoiceIds(items + [item]) == VoiceIds(items) + IdOf(item)
  {
    if items == [] {
      assert items + [item] == [item];
    } else {
      assert (items + [item])[1..] == items[1..] + [item];
      VoiceIdsAppend(items[1..], item);
    }
  }

  lemma {:induction false} OrderedCut(a: seq<nat>, b: seq<nat>, c: seq<nat>, n: nat)
    requires Ordered(a + b + c, n)
    ensures Ordered(a + c, n)
  {
    var whole := a + b + c;
    forall i | 0 <= i < |a + c|
      ensures (a + c)[i] == whole[if i < |a| then i else i + |b|]
    {
    }
  }

  lemma {:induction false} AccountedCut(a: seq<nat>, b: seq<nat>, c: seq<nat>, evicted: seq<nat>, drained: seq<nat>,
                                        n: nat)
    requires Accounted(a + b + c, evicted, drained, n)
    ensures Accounted(a + c, evicted + b, drained, n) && Accounted(a + c, evicted, drained + b, n)
  {
    assert multiset(a + b + c) == multiset(a + c) + multiset(b);
  }

  lemma {:induction false} TrailHead(hand: seq<Item>, queue: seq<Item>, done: seq<nat>)
    requires queue != []
    ensures Trail(hand, queue, done) == done + VoiceIds(hand) + IdOf(queue[0]) + VoiceIds(queue[1..])
    ensures VoiceIds([queue[0]]) == IdOf(queue[0])
  {
  }

  /** Taking from the front of the queue cuts that entry out of the middle of the trail. */
  lemma {:induction false} CutKeeps(hand: seq<Item>, queue: seq<Item>, k: Intake, sent: seq<Packet>, sentIds: seq<nat>,
                                    done: seq<nat>)
    requires FramesOk(hand, queue, k, sent, sentIds, done) && queue != []
    ensures FramesOk(hand, queue[1..], k.(evicted := k.evicted + IdOf(queue[0])), sent, sentIds, done)
    ensures FramesOk(hand, queue[1..], k.(drained := k.drained + IdOf(queue[0])), sent, sentIds, done)
  {
    hide SentOk;
    var a, b, c := done + VoiceIds(hand), IdOf(queue[0]), VoiceIds(queue[1..]);
    TrailHead(hand, queue, done);
    OrderedCut(a, b, c, |k.submitted|);
    AccountedCut(a, b, c, k.evicted, k.drained, |k.submitted|);
    ItemsTail(queue, k.submitted);
  }

  lemma {:induction false} ItemsTail(items: seq<Item>, submitted: seq<seq<Byte>>)
    requires items != []
    ensures ItemsOk(items, submitted) <==> ItemsOk([items[0]], submitted) && ItemsOk(items[1..], submitted)
  {
    assert items == [items[0]] + items[1..];
  }

  lemma {:induction false} PutMarkerKeeps(hand: seq<Item>, queue: seq<Item>, k: Intake, sent: seq<Packet>,
                                          sentIds: seq<nat>, done: seq<nat>, item: Item)
    requires FramesOk(hand, queue, k, sent, sentIds, done) && !item.Voice?
    ensures FramesOk(hand, queue + [item], k, sent, sentIds, done)
  {
    hide SentOk, Ordered, Accounted;
    VoiceIdsAppend(queue, item);
    assert Trail(hand, queue + [item], done) == Trail(hand, queue, done);
  }

  lemma {:induction false} OrderedPut(trail: seq<nat>, evicted: seq<nat>, drained: seq<nat>, n: nat)
    requires Ordered(trail, n) && Accounted(trail, evicted, drained, n)
    ensures Ordered(trail + [n], n + 1) && Accounted(trail + [n], evicted, drained, n + 1)
  {
    assert Upto(n + 1) == Upto(n) + [n];
  }

  lemma {:induction false} SubmittedGrows(submitted: seq<seq<Byte>>, sent: seq<Packet>, sentIds: seq<nat>,
                                          frame: seq<Byte>)
    requires SentOk(submitted, sent, sentIds)
    ensures SentOk(submitted + [frame], sent, sentIds)
  {
    assert Frames(submitted + [frame], sentIds) == Frames(submitted, sentIds);
  }

  lemma {:induction false} ItemsGrow(items: seq<Item>, submitted: seq<seq<Byte>>, frame: seq<Byte>)
    requires ItemsOk(items, submitted)
    ensures ItemsOk(items, submitted + [frame])
    ensures |frame| == VOICE_FRAME_BYTES ==> ItemsOk(items + [Voice(|submitted|, frame)], submitted + [frame])
  {
  }

  lemma {:induction false} PutVoiceKeeps(hand: seq<Item>, queue: seq<Item>, k: Intake, sent: seq<Packet>,
                                         sentIds: seq<nat>, done: seq<nat>, frame: seq<Byte>)
    requires FramesOk(hand, queue, k, sent, sentIds, done) && |frame| == VOICE_FRAME_BYTES
    ensures FramesOk(hand, queue + [Voice(|k.submitted|, frame)], k.(submitted := k.submitted + [frame]), sent, sentIds,
                     done)
  {
    hide SentOk, Ordered, Accounted, ItemsOk;
    var n := |k.submitted|;
    VoiceIdsAppend(queue, Voice(n, frame));
    OrderedPut(Trail(hand, queue, done), k.evicted, k.drained, n);
    SubmittedGrows(k.submitted, sent, sentIds, frame);
    ItemsGrow(hand, k.submitted, frame);
    ItemsGrow(queue, k.submitted, frame);
    assert Trail(hand, queue + [Voice(n, frame)], done) == Trail(hand, queue, done) + [n];
  }

  /** Dequeuing moves an entry into the pacer's hand: the trail is unchanged. */
  lemma {:induction false} TakeKeeps(queue: seq<Item>, k: Intake, sent: seq<Packet>, sentIds: seq<nat>, done: seq<nat>)
    requires FramesOk([], queue, k, sent, sentIds, done) && queue != []
    ensures FramesOk([queue[0]], queue[1..], k, sent, sentIds, done)
  {
    hide SentOk, Ordered, Accounted, ItemsOk;
    TrailHead([], queue, done);
    ItemsTail(queue, k.submitted);
    assert done + VoiceIds([]) == done;
  }

  lemma {:induction false} DropMarkerKeeps(item: Item, queue: seq<Item>, k: Intake, sent: seq<Packet>,
                                           sentIds: seq<nat>, done: seq<nat>)
    requires FramesOk([item], queue, k, sent, sentIds, done) && !item.Voice?
    ensures FramesOk([], queue, k, sent, sentIds, done)
  {
    hide SentOk, Ordered, Accounted;
    assert VoiceIds([item]) == [];
  }

  /** A header-only packet carries no frame. */
  lemma {:induction false} HeaderKeeps(submitted: seq<seq<Byte>>, sent: seq<Packet>, sentIds: seq<nat>, p: Packet)
    requires SentOk(submitted, sent, sentIds) && p.payload == []
    ensures SentOk(submitted, sent + [p], sentIds)
  {
    assert (sent + [p])[..|sent|] == sent;
  }

  lemma {:induction false} SentGrows(submitted: seq<seq<Byte>>, sent: seq<Packet>, sentIds: seq<nat>, id: nat,
                                     p: Packet)
    requires SentOk(submitted, sent, sentIds) && ItemsOk([Voice(id, p.payload)], submitted)
    ensures SentOk(submitted, sent + [p], sentIds + [id])
  {
    assert (sent + [p])[..|sent|] == sent;
    assert [Voice(id, p.payload)][0] == Voice(id, p.payload);
    assert Frames(submitted, sentIds + [id]) == Frames(submitted, sentIds) + [p.payload];
  }

  /** A frame in hand goes out behind all sent before it. */
  lemma {:induction false} SendKeeps(queue: seq<Item>, k: Intake, sent: seq<Packet>, sentIds: seq<nat>, id: nat,
                                     p: Packet)
    requires FramesOk([Voice(id, p.payload)], queue, k, sent, sentIds, sentIds)
    ensures FramesOk([], queue, k, sent + [p], sentIds + [id], sentIds + [id])
  {
    hide Ordered, Accounted, SentOk;
    SentGrows(k.submitted, sent, sentIds, id, p);
    HandTrail(queue, sentIds, Voice(id, p.payload));
  }

  /** A frame in hand finds the socket closed. */
  lemma {:induction false} UnsentKeeps(
      queue: seq<Item>, k: Intake, sent: seq<Packet>, sentIds: seq<nat>, done: seq<nat>, id: nat, frame: seq<Byte>)
    requires FramesOk([Voice(id, frame)], queue, k, sent, sentIds, done)
    ensures FramesOk([], queue, k, sent, sentIds, done + [id])
  {
    hide Ordered, Accounted, SentOk;
    HandTrail(queue, done, Voice(id, frame));
  }

  lemma {:induction false} HandTrail(queue: seq<Item>, done: seq<nat>, item: Item)
    requires item.Voice?
    ensures Trail([], queue, done + [item.id]) == Trail([item], queue, done)
  {
    assert VoiceIds([item]) == [item.id];
    assert done + [item.id] + VoiceIds([]) == done + [item.id];
  }

  // ----- every step keeps the invariant -----------------------------------------

  lemma VoiceProducer(s: State)
    requires FlagsOk(s) && VoiceOk(s) && !s.producer.Idle?
    ensures VoiceOk(NextProducer(s))
  {
    hide FramesOk;
    var hand, queue, k, sent, sentIds := InFlight(s.pacer.stage), s.queue, s.intake, s.pacer.sent, s.pacer.sentIds;
    var done := sentIds + s.pacer.unsentIds;
    if s.producer.VoicePut? || s.producer.VoiceRetry? {
      PutVoiceKeeps(hand, queue, k, sent, sentIds, done, s.producer.frame);
    } else {
      if queue != [] { CutKeeps(hand, queue, k, sent, sentIds, done); }
      PutMarkerKeeps(hand, queue, k, sent, sentIds, done, Keyup);
      PutMarkerKeeps(hand, queue, k, sent, sentIds, done, Unkey);
    }
  }

  lemma HandleKeepsVoice(s: State, p: Pacer, item: Item, after: int)
    requires VoiceOk(s.(pacer := p)) && p.stage == Handling(item)
    ensures VoiceOk(s.(pacer := Handle(p, s.socketOpen, item, after)))
  {
    hide Ordered, Accounted, ItemsOk, SentOk;
    HeaderKeeps(s.intake.submitted, p.sent, p.sentIds, Packet(p.nextSequence, !item.Unkey?, []));
    if !item.Voice? {
      DropMarkerKeeps(item, s.queue, s.intake, p.sent, p.sentIds, p.sentIds + p.unsentIds);
    }
  }

  lemma SendKeepsVoice(s: State, p: Pacer, now: int, after: int)
    requires VoiceOk(s.(pacer := p)) && p.stage.VoiceReady?
    ensures VoiceOk(s.(pacer := SendVoice(p, s.socketOpen, p.stage.id, p.stage.frame, now, after)))
  {
    hide FramesOk;
    var id, frame := p.stage.id, p.stage.frame;
    if s.socketOpen {
      assert p.sentIds + [] == p.sentIds && p.sentIds + [id] + [] == p.sentIds + [id];
      SendKeeps(s.queue, s.intake, p.sent, p.sentIds, id, Packet(p.nextSequence, true, frame));
    } else {
      UnsentKeeps(s.queue, s.intake, p.sent, p.sentIds, p.sentIds + p.unsentIds, id, frame);
      assert p.sentIds + (p.unsentIds + [id]) == p.sentIds + p.unsentIds + [id];
    }
  }

  lemma VoiceConsumer(s: State, now: int, after: int)
    requires VoiceOk(s) && !s.pacer.stage.Exited?
    ensures VoiceOk(NextConsumer(s, now, after))
  {
    hide FramesOk, Handle, SendVoice;
    var p := s.pacer.(clock := after);
    match p.stage
    case CheckStop =>
    case CheckEmpty =>
    case Getting =>
      if s.queue != [] { TakeKeeps(s.queue, s.intake, p.sent, p.sentIds, p.sentIds + p.unsentIds); }
    case Handling(item) => HandleKeepsVoice(s, p, item, after);
    case VoiceReady(_, _) => SendKeepsVoice(s, p, now, after);
  }

  lemma VoiceStep(s: State, e: Event)
    requires FlagsOk(s) && VoiceOk(s) && Enabled(s, e)
    ensures VoiceOk(Next(s, e))
  {
    hide FramesOk, NextConsumer, NextProducer;
    match e
    case Consume(now, after) => VoiceConsumer(s, now, after);
    case Produce => VoiceProducer(s);
    case _ =>
  }
}
