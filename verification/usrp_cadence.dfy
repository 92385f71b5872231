/** Timing of the voice packets, for a clock that never runs backwards and sleeps that never end early. */
module UsrpCadence {
  import opened Bytes
  import opened UsrpMachine

  /** Since the last reset: packet i leaves no sooner than i intervals after it, and
      k + 1 consecutive packets span at least k - 1 intervals. */
  ghost predicate Spaced(times: seq<int>, resetAt: int, interval: nat) {
    && (forall i :: 0 <= i < |times| ==> times[i] >= resetAt + i * interval)
    && (forall i, j :: 0 <= i < j < |times| ==> times[j] - times[i] >= (j - i - 1) * interval)
  }

  /** The next deadline keeps both bounds open for one more packet. */
  ghost predicate DeadlineOk(times: seq<int>, resetAt: int, interval: nat, nextVoiceAt: int) {
    && nextVoiceAt >= resetAt + |times| * interval
    && (forall i :: 0 <= i < |times| ==> nextVoiceAt - times[i] >= (|times| - i - 1) * interval)
  }

  ghost predicate CadenceOk(p: Pacer) {
    && Spaced(p.voiceTimes, p.resetAt, p.interval)
    && DeadlineOk(p.voiceTimes, p.resetAt, p.interval, p.nextVoiceAt)
  }

  lemma OneMore(k: int, interval: nat)
    ensures k * interval + interval == (k + 1) * interval
  {
  }

  lemma {:induction false} SendKeepsCadence(times: seq<int>, resetAt: int, interval: nat, due: int, now: int,
                                            after: int)
    requires Spaced(times, resetAt, interval) && DeadlineOk(times, resetAt, interval, due)
    requires due <= now <= after
    ensures Spaced(times + [now], resetAt, interval)
    ensures DeadlineOk(times + [now], resetAt, interval, if due + interval < after then after else due + interval)
  {
    var n, times' := |times|, times + [now];
    var due' := if due + interval < after then after else due + interval;
    forall i, j | 0 <= i < j < |times'| ensures times'[j] - times'[i] >= (j - i - 1) * interval {
      if j == n { assert due - times[i] >= (n - i - 1) * interval; }
    }
    OneMore(n, interval);
    forall i | 0 <= i < |times'| ensures due' - times'[i] >= (|times'| - i - 1) * interval {
      if i < n { OneMore(n - i - 1, interval); }
    }
  }

  /** Voice that finds the socket closed still moves the deadline on. */
  lemma LaterDeadline(times: seq<int>, resetAt: int, interval: nat, due: int, later: int)
    requires DeadlineOk(times, resetAt, interval, due) && due <= later
    ensures DeadlineOk(times, resetAt, interval, later)
  {
  }

  lemma CadenceStep(s: State, e: Event)
    requires CadenceOk(s.pacer) && Enabled(s, e)
    ensures CadenceOk(Next(s, e).pacer)
  {
    hide Spaced, DeadlineOk, NextProducer;
    var p := s.pacer;
    match e
    case Consume(now, after) =>
      if !p.stage.VoiceReady? {
        ResetKeepsCadence(after, p.interval);
      } else if s.socketOpen {
        SendKeepsCadence(p.voiceTimes, p.resetAt, p.interval, p.nextVoiceAt, now, after);
      } else {
        LaterDeadline(p.voiceTimes, p.resetAt, p.interval, p.nextVoiceAt, Next(s, e).pacer.nextVoiceAt);
      }
    case _ => ProducerKeeps(s, e);
  }

  lemma ResetKeepsCadence(now: int, interval: nat)
    ensures Spaced([], now, interval) && DeadlineOk([], now, interval, now)
  {
  }

  /** The next frame is due no later than one interval from now. */
  predicate PromptOk(p: Pacer) { p.nextVoiceAt <= p.clock + p.interval }

  lemma PromptStep(s: State, e: Event)
    requires PromptOk(s.pacer) && Enabled(s, e)
    ensures PromptOk(Next(s, e).pacer) && Next(s, e).pacer.interval == s.pacer.interval
  {
    hide NextProducer;
    if !e.Consume? { ProducerKeeps(s, e); }
  }
}
