/** How the listening loop cuts what it hears into streams: by silence, as told by the clock readings it makes. */
module BridgeSegments {
  import opened Bytes
  import opened Sequences
  import opened Wrappers
  import opened Ambe
  import opened Tlv

  /** What the socket delivered (None is a timeout), when that was checked, and when its audio was noted. */
  datatype Clocked = Clocked(data: Option<seq<Byte>>, checkedAt: int, heardAt: int)

  datatype Timing = Timing(startedAt: int, mute: int, hang: int)

  /** Streams finished, the one still open, and when it last had audio. */
  datatype Segments = Segments(done: seq<seq<Block>>, current: seq<Block>, lastAudio: int)

  predicate Muted(c: Clocked, t: Timing) { t.mute > 0 && c.checkedAt - t.startedAt < t.mute }

  /** A timeout ends the open stream after enough silence; audio past the startup mute joins it, or opens one. */
  function Segment(s: Segments, c: Clocked, t: Timing): Segments {
    if c.data.None? then
      if s.current != [] && c.checkedAt - s.lastAudio >= t.hang then s.(done := s.done + [s.current], current := [])
        else s
    else if Muted(c, t) || AudioOf(c.data.value) == [] then s
    else s.(current := s.current + AudioOf(c.data.value), lastAudio := c.heardAt)
  }

  function SegmentAll(cs: seq<Clocked>, t: Timing): Segments {
    if cs == [] then Segments([], [], 0) else Segment(SegmentAll(cs[..|cs| - 1], t), cs[|cs| - 1], t)
  }

  /** All streams, finished or not. */
  function Streams(s: Segments): seq<seq<Block>> { if s.current == [] then s.done else s.done + [s.current] }

  /** Clock readings follow one another. */
  ghost predicate InOrder(cs: seq<Clocked>, t: Timing) {
    && (forall i :: 0 <= i < |cs| ==> t.startedAt <= cs[i].checkedAt <= cs[i].heardAt)
    && (forall i, j :: 0 <= i < j < |cs| ==> cs[i].heardAt <= cs[j].checkedAt)
  }

  /** The datagrams that got past the mute. */
  function Unmuted(cs: seq<Clocked>, t: Timing): seq<seq<Byte>> {
    if cs == [] then []
    else
      var before, c := Unmuted(cs[..|cs| - 1], t), cs[|cs| - 1];
      if c.data.Some? && !Muted(c, t) then before + [c.data.value] else before
  }

  lemma {:induction false} DatagramAudio(datagrams: seq<seq<Byte>>, data: seq<Byte>)
    ensures AudioBlocks(datagrams + [data]) == AudioBlocks(datagrams) + AudioOf(data)
  {
    hide AudioOf;
    TakeAppended(datagrams, [data]);
  }

  /** However the clock cuts them up, the streams together are exactly the audio heard, in order, and none is empty. */
  lemma {:induction false} StreamsAreWhatWasHeard(cs: seq<Clocked>, t: Timing)
    ensures Flat(Streams(SegmentAll(cs, t))) == AudioBlocks(Unmuted(cs, t))
    ensures forall part :: part in Streams(SegmentAll(cs, t)) ==> part != []
  {
    if cs != [] {
      StreamsAreWhatWasHeard(cs[..|cs| - 1], t);
      SegmentAdds(SegmentAll(cs[..|cs| - 1], t), cs[|cs| - 1], t, Unmuted(cs[..|cs| - 1], t));
    }
  }

  lemma {:induction false} SegmentAdds(s: Segments, c: Clocked, t: Timing, heard: seq<seq<Byte>>)
    requires Flat(Streams(s)) == AudioBlocks(heard) && forall part :: part in Streams(s) ==> part != []
    ensures Flat(Streams(Segment(s, c, t)))
            == if c.data.Some? && !Muted(c, t) then AudioBlocks(heard + [c.data.value]) else AudioBlocks(heard)
    ensures forall part :: part in Streams(Segment(s, c, t)) ==> part != []
  {
    hide AudioBlocks, Muted, Flat;
    assert forall part :: part in s.done ==> part in Streams(s);
    if c.data.Some? && !Muted(c, t) {
      var audio := AudioOf(c.data.value);
      DatagramAudio(heard, c.data.value);
      hide AudioOf;
      if s.current != [] { FlatAppend(s.done, s.current); }
      FlatAppend(s.done, s.current + audio);
      Assoc(Flat(s.done), s.current, audio);
      assert AudioBlocks(heard) + [] == AudioBlocks(heard);
      assert s.current == [] ==> s.current + audio == audio;
    }
  }

  /** Whatever falls into the mute comes before anything that is heard. */
  lemma {:induction false} MuteIsAtTheStart(cs: seq<Clocked>, t: Timing, i: nat, j: nat)
    requires InOrder(cs, t) && i < j < |cs| && !Muted(cs[i], t)
    ensures !Muted(cs[j], t)
  {
    assert cs[i].checkedAt <= cs[i].heardAt <= cs[j].checkedAt;
  }

  // ----- where the cuts are --------------------------------------------------------------------------

  /** A datagram long enough to hold a block, past the startup mute. */
  predicate Hears(c: Clocked, t: Timing) {
    c.data.Some? && |c.data.value| > 27 && !(t.mute > 0 && c.checkedAt - t.startedAt < t.mute)
  }

  /** The block such a datagram brings. */
  function BlockOf(c: Clocked, t: Timing): Block
    requires Hears(c, t)
  {
    c.data.value[|c.data.value| - 27..]
  }

  /** The latest reception that brought audio. */
  function LatestAudio(cs: seq<Clocked>, t: Timing): (r: Option<nat>)
    ensures r.Some? ==> r.value < |cs| && Hears(cs[r.value], t) && forall k :: r.value < k < |cs| ==> !Hears(cs[k], t)
    ensures r.None? ==> forall k :: 0 <= k < |cs| ==> !Hears(cs[k], t)
  {
    if cs == [] then None
    else if Hears(cs[|cs| - 1], t) then Some(|cs| - 1) else LatestAudio(cs[..|cs| - 1], t)
  }

  /** Some timeout since reception `i` found that its audio was the hang time ago. */
  ghost predicate Silence(cs: seq<Clocked>, t: Timing, i: nat)
    requires i < |cs|
  {
    exists k :: i < k < |cs| && cs[k].data.None? && cs[k].checkedAt - cs[i].heardAt >= t.hang
  }

  /** Each reception's audio joins the stream of the audio before it, unless a silence lies between them. */
  ghost function Groups(cs: seq<Clocked>, t: Timing): (r: seq<seq<Block>>)
    ensures r == [] <==> LatestAudio(cs, t).None?
  {
    if cs == [] then []
    else
      var n := |cs| - 1;
      var before, latest := Groups(cs[..n], t), LatestAudio(cs[..n], t);
      if !Hears(cs[n], t) then before
      else if latest.None? || Silence(cs[..n], t, latest.value) then before + [[BlockOf(cs[n], t)]]
      else before[..|before| - 1] + [before[|before| - 1] + [BlockOf(cs[n], t)]]
  }

  lemma {:induction false} SilenceGrows(cs: seq<Clocked>, t: Timing, i: nat)
    requires i < |cs| - 1
    ensures Silence(cs, t, i) <==>
            Silence(cs[..|cs| - 1], t, i)
            || (cs[|cs| - 1].data.None? && cs[|cs| - 1].checkedAt - cs[i].heardAt >= t.hang)
  {
    var n := |cs| - 1;
    if Silence(cs, t, i) {
      var k :| i < k < |cs| && cs[k].data.None? && cs[k].checkedAt - cs[i].heardAt >= t.hang;
      if k < n { assert cs[..n][k] == cs[k]; }
    }
    if Silence(cs[..n], t, i) {
      var k :| i < k < n && cs[..n][k].data.None? && cs[..n][k].checkedAt - cs[..n][i].heardAt >= t.hang;
      assert cs[k].data.None?;
    }
  }

  /** Whether the stream of the latest audio has been finished. */
  ghost predicate Finished(cs: seq<Clocked>, t: Timing) {
    var latest := LatestAudio(cs, t);
    latest.None? || Silence(cs, t, latest.value)
  }

  lemma {:induction false} FinishedGrows(cs: seq<Clocked>, t: Timing)
    requires cs != []
    ensures var n, c, latest := |cs| - 1, cs[|cs| - 1], LatestAudio(cs[..|cs| - 1], t);
            Finished(cs, t) <==>
            (!Hears(c, t) && (Finished(cs[..n], t)
                              || (c.data.None? && latest.Some? && c.checkedAt - cs[latest.value].heardAt >= t.hang)))
  {
    var n := |cs| - 1;
    var latest := LatestAudio(cs[..n], t);
    if latest.Some? { SilenceGrows(cs, t, latest.value); }
    assert LatestAudio(cs, t) == if Hears(cs[n], t) then Some(n) else latest;
    hide LatestAudio, Hears;
  }

  lemma HeardIs(c: Clocked, t: Timing)
    ensures Hears(c, t) <==> c.data.Some? && !Muted(c, t) && AudioOf(c.data.value) != []
    ensures Hears(c, t) ==> AudioOf(c.data.value) == [BlockOf(c, t)]
  {
  }

  /** The state of the loop says when the latest audio was, and whether its stream is finished. */
  lemma {:induction false} StreamsAreGroups(cs: seq<Clocked>, t: Timing)
    ensures Streams(SegmentAll(cs, t)) == Groups(cs, t)
    ensures SegmentAll(cs, t).current == [] <==> Finished(cs, t)
    ensures LatestAudio(cs, t).Some? ==> SegmentAll(cs, t).lastAudio == cs[LatestAudio(cs, t).value].heardAt
    ensures SegmentAll(cs, t).done == if Finished(cs, t) then Groups(cs, t) else Groups(cs, t)[..|Groups(cs, t)| - 1]
  {
    if cs != [] {
      var n := |cs| - 1;
      StreamsAreGroups(cs[..n], t);
      FinishedGrows(cs, t);
      HeardIs(cs[n], t);
      GroupsGrow(cs, t);
      hide Groups, Finished, Hears, Muted, AudioOf, LatestAudio;
      var s := SegmentAll(cs[..n], t);
      SegmentGroups(s, cs[n], t, Groups(cs[..n], t));
    }
  }

  lemma {:induction false} GroupsGrow(cs: seq<Clocked>, t: Timing)
    requires cs != []
    ensures var n, c := |cs| - 1, cs[|cs| - 1];
            var before := Groups(cs[..n], t);
            && LatestAudio(cs, t) == (if Hears(c, t) then Some(n) else LatestAudio(cs[..n], t))
            && (!Finished(cs[..n], t) ==> before != [])
            && Groups(cs, t)
               == if !Hears(c, t) then before
                  else if Finished(cs[..n], t) then before + [[BlockOf(c, t)]]
                  else before[..|before| - 1] + [before[|before| - 1] + [BlockOf(c, t)]]
  {
    hide Hears, Silence;
  }

  lemma {:induction false} SegmentGroups(s: Segments, c: Clocked, t: Timing, before: seq<seq<Block>>)
    requires Streams(s) == before && (Hears(c, t) ==> c.data.Some? && AudioOf(c.data.value) == [BlockOf(c, t)])
    requires Hears(c, t) <==> c.data.Some? && !Muted(c, t) && AudioOf(c.data.value) != []
    ensures var u := Segment(s, c, t);
            Streams(u)
            == if !Hears(c, t) then before
               else if s.current == [] then before + [[BlockOf(c, t)]]
               else before[..|before| - 1] + [before[|before| - 1] + [BlockOf(c, t)]]
  {
    hide Hears, Muted, AudioOf;
    if Hears(c, t) {
      var audio := AudioOf(c.data.value);
      if s.current == [] { assert [] + audio == audio; }
    }
  }

  /**
   Two receptions of audio with none in between: the later one opens a stream exactly if a timeout between them finds
   the earlier one's audio at least the hang time old; otherwise it goes on with the same stream.
   */
  lemma {:induction false} CutIff(cs: seq<Clocked>, t: Timing, i: nat, j: nat)
    requires i < j < |cs| && Hears(cs[i], t) && Hears(cs[j], t) && forall k :: i < k < j ==> !Hears(cs[k], t)
    ensures var first, both := Streams(SegmentAll(cs[..i + 1], t)), Streams(SegmentAll(cs[..j + 1], t));
            && first != []
            && both == if exists k :: i < k < j && cs[k].data.None? && cs[k].checkedAt - cs[i].heardAt >= t.hang
                       then first + [[BlockOf(cs[j], t)]]
                       else first[..|first| - 1] + [first[|first| - 1] + [BlockOf(cs[j], t)]]
  {
    hide Hears, SegmentAll, Streams, Silence, LatestAudio, Groups, Finished;
    StreamsAreGroups(cs[..i + 1], t);
    StreamsAreGroups(cs[..j + 1], t);
    TakeMore(cs, j);
    LastTaken(cs, j);
    QuietBetween(cs, t, i, j);
    LatestIs(cs, t, i, j);
    GroupsGrow(cs[..j + 1], t);
    FinishedIs(cs[..j], t);
    SilenceBetween(cs, t, i, j);
  }

  lemma LastTaken<T>(s: seq<T>, j: nat)
    requires j < |s|
    ensures |s[..j + 1]| == j + 1 && s[..j + 1][j] == s[j]
  {
  }

  lemma FinishedIs(cs: seq<Clocked>, t: Timing)
    ensures Finished(cs, t) <==> LatestAudio(cs, t).None? || Silence(cs, t, LatestAudio(cs, t).value)
  {
    hide Silence, LatestAudio;
  }

  lemma LatestIs(cs: seq<Clocked>, t: Timing, i: nat, j: nat)
    requires i < j <= |cs| && Hears(cs[i], t) && forall k :: i < k < j ==> !Hears(cs[k], t)
    ensures LatestAudio(cs[..j], t) == Some(i)
  {
    hide Hears;
    assert cs[..j][i] == cs[i] && forall k :: i < k < j ==> cs[..j][k] == cs[k];
  }

  lemma SilenceBetween(cs: seq<Clocked>, t: Timing, i: nat, j: nat)
    requires i < j <= |cs|
    ensures Silence(cs[..j], t, i)
            <==> exists k :: i < k < j && cs[k].data.None? && cs[k].checkedAt - cs[i].heardAt >= t.hang
  {
    if k :| i < k < j && cs[k].data.None? && cs[k].checkedAt - cs[i].heardAt >= t.hang {
      assert cs[..j][k] == cs[k];
    }
  }

  lemma {:induction false} QuietBetween(cs: seq<Clocked>, t: Timing, i: nat, j: nat)
    requires i < j <= |cs| && forall k :: i < k < j ==> !Hears(cs[k], t)
    ensures Groups(cs[..j], t) == Groups(cs[..i + 1], t)
    decreases j - i
  {
    if i + 1 < j {
      assert cs[..j][..j - 1] == cs[..j - 1] && cs[..j][j - 1] == cs[j - 1];
      hide Hears;
      QuietBetween(cs, t, i, j - 1);
    }
  }
}
