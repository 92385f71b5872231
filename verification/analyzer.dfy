/** Reading capture files, classifying packets, and looking for gaps in the numbering. */
module Analyzer {
  import opened Bytes
  import opened Wrappers
  import opened Dmrd

  predicate IsVoice(p: Packet) { p.frameType == 0 || p.frameType == 1 }

  predicate IsPossibleStreamEnd(p: Packet) { p.frameType == 2 && p.dtypeVseq == 2 }

  // ----- capture files -----------------------------------------------------------------

  function Record(data: seq<Byte>, i: nat): seq<Byte>
    requires BODY_BYTES * (i + 1) <= |data|
  {
    data[BODY_BYTES * i..BODY_BYTES * (i + 1)]
  }

  /** A capture that read_dmrd_file accepts: whole records, each with the magic. */
  ghost predicate CaptureOk(data: seq<Byte>) {
    && |data| % BODY_BYTES == 0
    && forall i :: 0 <= i < |data| / BODY_BYTES ==> RawOk(Record(data, i))
  }

  function Contents(data: seq<Byte>): (ps: seq<ValidPacket>)
    requires CaptureOk(data)
    ensures |ps| == |data| / BODY_BYTES
  {
    seq(|data| / BODY_BYTES,
        i requires 0 <= i < |data| / BODY_BYTES && RawOk(Record(data, i)) => FromRaw53(Record(data, i)))
  }

  method ReadDmrdFile(data: seq<Byte>) returns (r: Result<seq<Packet>>)
    ensures r.Ok? <==> CaptureOk(data)
    ensures r.Ok? ==> r.value == Contents(data)
  {
    hide RawOk, FromRaw53;
    if |data| % BODY_BYTES != 0 {
      return Raise(ValueError);
    }
    var packets: seq<Packet> := [];
    for i := 0 to |data| / BODY_BYTES
      invariant |packets| == i
      invariant forall j :: 0 <= j < i ==> RawOk(Record(data, j)) && packets[j] == FromRaw53(Record(data, j))
    {
      var p := ParseRaw53(Record(data, i));
      if p.Raise? {
        return Raise(ValueError);
      }
      packets := packets + [p.value];
    }
    assert packets == Contents(data);
    r := Ok(packets);
  }

  /** A capture file written from packets. */
  function Written(ps: seq<ValidPacket>): (data: seq<Byte>)
    ensures |data| == BODY_BYTES * |ps|
  {
    if ps == [] then [] else Written(ps[..|ps| - 1]) + ToRaw53(ps[|ps| - 1])
  }

  lemma {:induction false} WrittenRecord(ps: seq<ValidPacket>, i: nat)
    requires i < |ps|
    ensures Record(Written(ps), i) == ToRaw53(ps[i])
  {
    hide ToRaw53;
    var n := |ps| - 1;
    if i < n {
      WrittenRecord(ps[..n], i);
      assert Record(Written(ps), i) == Record(Written(ps[..n]), i);
    }
  }

  /** A capture of any number of packets reads back as those packets, each exactly when it survives on its own. */
  lemma CaptureRoundTrip(ps: seq<ValidPacket>)
    ensures CaptureOk(Written(ps)) && |Contents(Written(ps))| == |ps|
    ensures forall i :: 0 <= i < |ps| ==>
              (Contents(Written(ps))[i] == ps[i] <==> FlagsSurvive(ps[i].callType, ps[i].frameType, ps[i].dtypeVseq))
  {
    hide ToRaw53, FromRaw53, RawOk, FlagsSurvive, Written;
    forall i | 0 <= i < |ps|
      ensures RawOk(Record(Written(ps), i))
      ensures FromRaw53(Record(Written(ps), i)) == ps[i] <==>
              FlagsSurvive(ps[i].callType, ps[i].frameType, ps[i].dtypeVseq)
    {
      WrittenRecord(ps, i);
      RoundTripIff(ps[i]);
    }
  }

  lemma ReadRecord(data: seq<Byte>, i: nat)
    requires CaptureOk(data) && i < |data| / BODY_BYTES
    ensures var written := Written(Contents(data));
            && |written| == |data| && RawOk(Record(data, i))
            && Record(written, i) == Record(data, i)[15 := Settled(Record(data, i)[15])]
  {
    WrittenRecord(Contents(data), i);
    RawRoundTrip(Record(data, i));
  }

  /** Reading a capture and writing it out again changes nothing but low nibbles of VCSBK flag bytes. */
  lemma RewrittenCapture(data: seq<Byte>)
    requires CaptureOk(data)
    ensures var written := Written(Contents(data));
            && |written| == |data|
            && forall k :: 0 <= k < |data| ==>
                 written[k] == if k % BODY_BYTES == 15 then Settled(data[k]) else data[k]
  {
    var written := Written(Contents(data));
    hide Contents, Written, CaptureOk, Settled;
    forall k | 0 <= k < |data|
      ensures |written| == |data| && written[k] == if k % BODY_BYTES == 15 then Settled(data[k]) else data[k]
    {
      var i := k / BODY_BYTES;
      ReadRecord(data, i);
      assert written[k] == Record(written, i)[k % BODY_BYTES] && data[k] == Record(data, i)[k % BODY_BYTES];
    }
    if data == [] { assert Contents(data) == []; }
  }

  // ----- gaps ------------------------------------------------------------------------------

  datatype Gap = Gap(afterSequence: int, nextSequence: int, expectedSequence: int)

  ghost predicate Consecutive(ps: seq<Packet>) {
    forall i :: 0 <= i < |ps| - 1 ==> ps[i + 1].sequence == (ps[i].sequence + 1) % 256
  }

  /** The gaps, in order. */
  function Gaps(ps: seq<Packet>): seq<Gap> {
    if |ps| < 2 then []
    else
      var n := |ps| - 1;
      var expected := (ps[n - 1].sequence + 1) % 256;
      Gaps(ps[..n]) + if ps[n].sequence != expected then [Gap(ps[n - 1].sequence, ps[n].sequence, expected)] else []
  }

  method SequenceGaps(ps: seq<Packet>) returns (gaps: seq<Gap>)
    ensures gaps == Gaps(ps)
    ensures gaps == [] <==> Consecutive(ps)
  {
    gaps := [];
    if |ps| < 2 {
      return;
    }
    for i := 1 to |ps|
      invariant gaps == Gaps(ps[..i])
    {
      assert ps[..i + 1][..i] == ps[..i];
      var expected := (ps[i - 1].sequence + 1) % 256;
      if ps[i].sequence != expected {
        gaps := gaps + [Gap(ps[i - 1].sequence, ps[i].sequence, expected)];
      }
    }
    assert ps[..|ps|] == ps;
    NoGaps(ps);
  }

  /** Packet `i` does not follow on from the one before. */
  ghost predicate Breaks(ps: seq<Packet>, i: nat)
    requires 0 < i < |ps|
  {
    ps[i].sequence != (ps[i - 1].sequence + 1) % 256
  }

  ghost predicate Reports(g: Gap, ps: seq<Packet>, i: nat)
    requires 0 < i < |ps|
  {
    && g.afterSequence == ps[i - 1].sequence && g.nextSequence == ps[i].sequence
    && g.expectedSequence == (ps[i - 1].sequence + 1) % 256
  }

  lemma {:induction false} SameReport(g: Gap, ps: seq<Packet>, n: nat, i: nat)
    requires 0 < i < n <= |ps|
    ensures Reports(g, ps[..n], i) <==> Reports(g, ps, i)
    ensures Breaks(ps[..n], i) <==> Breaks(ps, i)
  {
  }

  lemma {:induction false} OneMoreGap(ps: seq<Packet>)
    requires |ps| >= 2
    ensures var n, before := |ps| - 1, Gaps(ps[..|ps| - 1]);
            if Breaks(ps, n) then
              |Gaps(ps)| == |before| + 1 && Gaps(ps)[..|before|] == before && Reports(Gaps(ps)[|before|], ps, n)
            else Gaps(ps) == before
  {
  }

  /** Every break in the numbering is reported, in order, with the two numbers and the one that was due. */
  lemma {:induction false} GapsAre(ps: seq<Packet>) returns (breaks: seq<nat>)
    ensures |breaks| == |Gaps(ps)|
    ensures forall j, k :: 0 <= j < k < |breaks| ==> breaks[j] < breaks[k]
    ensures forall k :: 0 <= k < |breaks| ==> 0 < breaks[k] < |ps| && Reports(Gaps(ps)[k], ps, breaks[k])
    ensures forall i :: 0 < i < |ps| ==> (Breaks(ps, i) <==> i in breaks)
  {
    breaks := [];
    if |ps| >= 2 {
      hide Breaks, Reports, Gaps;
      var n := |ps| - 1;
      var gaps := Gaps(ps[..n]);
      var before := GapsAre(ps[..n]);
      forall k | 0 <= k < |before| ensures Reports(gaps[k], ps, before[k]) {
        SameReport(gaps[k], ps, n, before[k]);
      }
      forall i | 0 < i < n ensures Breaks(ps, i) <==> i in before { SameReport(Gap(0, 0, 0), ps, n, i); }
      OneMoreGap(ps);
      if Breaks(ps, n) {
        breaks := before + [n];
        assert forall k :: 0 <= k < |before| ==> Gaps(ps)[k] == Gaps(ps)[..|before|][k];
      } else {
        breaks := before;
      }
    }
  }

  /** What a packet is by its flag byte: voice has bit 5 clear, and a stream end has its low six bits 0x22. */
  lemma KindsByFlags(data: seq<Byte>)
    requires RawOk(data)
    ensures IsVoice(FromRaw53(data)) <==> data[15] / 0x20 % 2 == 0
    ensures IsPossibleStreamEnd(FromRaw53(data)) <==> data[15] % 0x40 == 0x22
  {
    hide FromBig;
  }

  /** There are no gaps exactly when every packet follows on from the one before, modulo 256. */
  lemma {:induction false} NoGaps(ps: seq<Packet>)
    ensures Gaps(ps) == [] <==> Consecutive(ps)
  {
    if |ps| >= 2 {
      var n := |ps| - 1;
      NoGaps(ps[..n]);
      assert Consecutive(ps) <==> Consecutive(ps[..n]) && ps[n].sequence == (ps[n - 1].sequence + 1) % 256 by {
        assert forall i :: 0 <= i < n ==> ps[..n][i] == ps[i];
      }
    }
  }
}
