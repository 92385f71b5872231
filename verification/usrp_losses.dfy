/** Under pressure the transmitter stays in real time: whatever is given up is older than everything still queued. */
module UsrpLosses {
  import opened Bytes
  import opened UsrpMachine
  import opened UsrpVoice
  import opened UsrpSafety

  ghost predicate Below(lost: seq<nat>, pending: seq<nat>) {
    forall i, j :: 0 <= i < |lost| && 0 <= j < |pending| ==> lost[i] < pending[j]
  }

  ghost predicate LossesOk(queue: seq<Item>, evicted: seq<nat>, drained: seq<nat>) {
    Below(evicted, VoiceIds(queue)) && Below(drained, VoiceIds(queue))
  }

  lemma {:induction false} HeadIsOldest(hand: seq<Item>, queue: seq<Item>, done: seq<nat>, n: nat)
    requires Ordered(Trail(hand, queue, done), n) && queue != []
    ensures VoiceIds(queue) == IdOf(queue[0]) + VoiceIds(queue[1..])
    ensures Below(IdOf(queue[0]), VoiceIds(queue[1..]))
  {
    var before := done + VoiceIds(hand);
    forall i, j | 0 <= i < |IdOf(queue[0])| && 0 <= j < |VoiceIds(queue[1..])|
      ensures IdOf(queue[0])[i] < VoiceIds(queue[1..])[j]
    {
      var trail := Trail(hand, queue, done);
      assert trail[|before|] == IdOf(queue[0])[i] && trail[|before| + 1 + j] == VoiceIds(queue[1..])[j];
    }
  }

  /** One entry is taken from the front, whatever becomes of it. */
  lemma {:induction false} CutLosses(queue: seq<Item>, hand: seq<Item>, k: Intake, done: seq<nat>)
    requires Ordered(Trail(hand, queue, done), |k.submitted|) && LossesOk(queue, k.evicted, k.drained) && queue != []
    ensures LossesOk(queue[1..], k.evicted, k.drained)
    ensures LossesOk(queue[1..], k.evicted + IdOf(queue[0]), k.drained)
    ensures LossesOk(queue[1..], k.evicted, k.drained + IdOf(queue[0]))
  {
    HeadIsOldest(hand, queue, done, |k.submitted|);
    var ids, rest := VoiceIds(queue), VoiceIds(queue[1..]);
    assert forall j :: 0 <= j < |rest| ==> rest[j] == ids[|IdOf(queue[0])| + j];
  }

  lemma {:induction false} LostIsOld(k: Intake, trail: seq<nat>)
    requires Accounted(trail, k.evicted, k.drained, |k.submitted|)
    ensures forall i :: 0 <= i < |k.evicted| ==> k.evicted[i] < |k.submitted|
    ensures forall i :: 0 <= i < |k.drained| ==> k.drained[i] < |k.submitted|
  {
    var n := |k.submitted|;
    forall x | x in k.evicted || x in k.drained ensures x < n {
      assert x in multiset(trail) + multiset(k.evicted) + multiset(k.drained);
      assert x in multiset(Upto(n));
    }
    assert forall i :: 0 <= i < |k.evicted| ==> k.evicted[i] in k.evicted;
    assert forall i :: 0 <= i < |k.drained| ==> k.drained[i] in k.drained;
  }

  lemma {:induction false} PutLosses(queue: seq<Item>, k: Intake, trail: seq<nat>, item: Item)
    requires Accounted(trail, k.evicted, k.drained, |k.submitted|) && LossesOk(queue, k.evicted, k.drained)
    requires item.Voice? ==> item.id == |k.submitted|
    ensures LossesOk(queue + [item], k.evicted, k.drained)
  {
    LostIsOld(k, trail);
    VoiceIdsAppend(queue, item);
    hide VoiceIds;
  }

  /** A producer step leaves the queue alone, takes its first entry, or appends one. */
  lemma ProducerEffect(s: State) returns (item: Item)
    requires !s.producer.Idle?
    ensures var t, k := NextProducer(s), s.intake;
            var evicted, drained := t.intake.evicted, t.intake.drained;
            || (t.queue == s.queue && evicted == k.evicted && drained == k.drained)
            || (s.queue != [] && t.queue == s.queue[1..]
                && ((evicted == k.evicted + IdOf(s.queue[0]) && drained == k.drained)
                    || (evicted == k.evicted && drained == k.drained + IdOf(s.queue[0]))))
            || (t.queue == s.queue + [item] && evicted == k.evicted && drained == k.drained
                && (item.Voice? ==> item.id == |k.submitted|))
  {
    item := if s.producer.VoicePut? || s.producer.VoiceRetry? then Voice(|s.intake.submitted|, s.producer.frame)
            else if s.producer.UnkeyPut? || s.producer.UnkeyRetry? then Unkey else Keyup;
  }

  lemma ProducerLosses(s: State)
    requires VoiceOk(s) && LossesOk(s.queue, s.intake.evicted, s.intake.drained) && !s.producer.Idle?
    ensures var t := NextProducer(s); LossesOk(t.queue, t.intake.evicted, t.intake.drained)
  {
    hide VoiceOk, Trail, Ordered, Accounted, LossesOk, NextProducer;
    var hand, k, done := InFlight(s.pacer.stage), s.intake, s.pacer.sentIds + s.pacer.unsentIds;
    TrailOk(s);
    var item := ProducerEffect(s);
    if s.queue != [] { CutLosses(s.queue, hand, k, done); }
    if item.Voice? ==> item.id == |k.submitted| { PutLosses(s.queue, k, Trail(hand, s.queue, done), item); }
  }

  lemma TrailOk(s: State)
    requires VoiceOk(s)
    ensures var trail := Trail(InFlight(s.pacer.stage), s.queue, s.pacer.sentIds + s.pacer.unsentIds);
            Ordered(trail, |s.intake.submitted|)
              && Accounted(trail, s.intake.evicted, s.intake.drained, |s.intake.submitted|)
  {
  }

  lemma LossStep(s: State, e: Event)
    requires VoiceOk(s) && LossesOk(s.queue, s.intake.evicted, s.intake.drained) && Enabled(s, e)
    ensures var t := Next(s, e); LossesOk(t.queue, t.intake.evicted, t.intake.drained)
  {
    if e.Produce? {
      ProducerLosses(s);
    } else if e.Consume? {
      ConsumerKeeps(s, e);
      var hand, done := InFlight(s.pacer.stage), s.pacer.sentIds + s.pacer.unsentIds;
      assert Ordered(Trail(hand, s.queue, done), |s.intake.submitted|);
      hide LossesOk, VoiceOk, Next, Ordered, Trail;
      if s.queue != [] { CutLosses(s.queue, hand, s.intake, done); }
    }
  }

  lemma InvHasVoice(s: State)
    requires Inv(s)
    ensures VoiceOk(s)
  {
    hide VoiceOk;
  }

  lemma {:induction false} RunLosses(s: State, es: seq<Event>, t: State)
    requires Inv(s) && LossesOk(s.queue, s.intake.evicted, s.intake.drained) && Run(s, es, t)
    ensures LossesOk(t.queue, t.intake.evicted, t.intake.drained)
    decreases |es|
  {
    if es != [] {
      InvHasVoice(s);
      hide Inv, Next, Enabled, VoiceOk, LossesOk;
      StepInv(s, es[0]);
      LossStep(s, es[0]);
      RunLosses(Next(s, es[0]), es[1..], t);
    }
  }

  lemma ReachableLosses(s: State)
    requires Reachable(s)
    ensures LossesOk(s.queue, s.intake.evicted, s.intake.drained)
  {
    var now: int, frameMillis: nat, es: seq<Event> :| Run(Init(now, frameMillis), es, s);
    InitInv(now, frameMillis);
    assert LossesOk(Init(now, frameMillis).queue, [], []);
    hide Inv, Run, LossesOk;
    RunLosses(Init(now, frameMillis), es, s);
  }

  /** In any run, every frame evicted or drained was submitted before every frame still waiting. */
  lemma OldestAreLost(s: State)
    requires Reachable(s)
    ensures forall i, j :: 0 <= i < |s.intake.evicted| && 0 <= j < |VoiceIds(s.queue)|
              ==> s.intake.evicted[i] < VoiceIds(s.queue)[j]
    ensures forall i, j :: 0 <= i < |s.intake.drained| && 0 <= j < |VoiceIds(s.queue)|
              ==> s.intake.drained[i] < VoiceIds(s.queue)[j]
  {
    hide Reachable, VoiceIds;
    ReachableLosses(s);
  }
}
