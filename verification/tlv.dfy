/** Analog_Bridge's tag/length/value datagrams, and learning how the local Analog_Bridge frames them. */
module Tlv {
  import opened Bytes
  import opened Sequences
  import opened Wrappers
  import opened Ambe

  const AUDIO_DATAGRAM_BYTES: nat := 30
  const BLOCK_BYTES: nat := 27
  const HEADER_BYTES: nat := 3
  const DEFAULT_AUDIO_HEADER: seq<Byte> := [2, 0, 27]
  const DEFAULT_END: seq<Byte> := [2, 0, 0]

  // ----- parsing ---------------------------------------------------------------------------

  datatype Endian = Big | Little | Fallback

  datatype ParsedFrame = ParsedFrame(tag: Byte, length: nat, value: seq<Byte>, raw: seq<Byte>, endian: Endian,
                                     validLength: bool)

  /** A 16-bit length, given its high and its low byte. */
  function Word(high: int, low: int): int { 256 * high + low }

  function Parse(data: seq<Byte>): (r: Result<ParsedFrame>)
    ensures r.Raise? <==> |data| < HEADER_BYTES
    ensures r.Ok? ==>
              var f := r.value;
              && data == [f.tag] + data[1..3] + f.value && f.raw == data && f.length == |f.value|
              && var first: int, second: int := data[1], data[2];
                 var big, little := 256 * first + second, 256 * second + first;
                 && (f.validLength <==> big == |f.value| || little == |f.value|)
                 && f.endian == if big == |f.value| then Big else if little == |f.value| then Little else Fallback
  {
    if |data| < HEADER_BYTES then Raise(ValueError)
    else
      var payload := |data| - HEADER_BYTES;
      if Word(data[1], data[2]) == payload then Ok(ParsedFrame(data[0], payload, data[3..], data, Big, true))
      else if Word(data[2], data[1]) == payload then Ok(ParsedFrame(data[0], payload, data[3..], data, Little, true))
      else Ok(ParsedFrame(data[0], payload, data[3..], data, Fallback, false))
  }

  /** The audio a datagram is taken to carry: its last 27 bytes, if anything precedes them. */
  function AudioOf(data: seq<Byte>): seq<Block> {
    if |data| > BLOCK_BYTES then [data[|data| - BLOCK_BYTES..]] else []
  }

  function AudioBlocks(datagrams: seq<seq<Byte>>): seq<Block> {
    if datagrams == [] then []
    else AudioBlocks(datagrams[..|datagrams| - 1]) + AudioOf(datagrams[|datagrams| - 1])
  }

  /** Whatever its tag and length say, a datagram is audio exactly when it is longer than a block. */
  method ExtractDmrAmbeBlocks(datagrams: seq<seq<Byte>>) returns (blocks: seq<Block>)
    ensures blocks == AudioBlocks(datagrams)
  {
    blocks := [];
    for i := 0 to |datagrams|
      invariant blocks == AudioBlocks(datagrams[..i])
    {
      assert datagrams[..i + 1][..i] == datagrams[..i];
      var data := datagrams[i];
      if |data| == AUDIO_DATAGRAM_BYTES {
        blocks := blocks + [data[3..]];
      } else {
        var parsed := Parse(data);
        if parsed.Ok? {
          if |parsed.value.value| == BLOCK_BYTES {
            assert false;  // only a 30-byte datagram has a 27-byte value
          } else if |data| > BLOCK_BYTES {
            blocks := blocks + [data[|data| - BLOCK_BYTES..]];
          }
        }
      }
    }
    assert datagrams[..|datagrams|] == datagrams;
  }

  // ----- framing ----------------------------------------------------------------------------

  datatype Source = Default | Learned | PassiveLearned

  datatype FormatFields = FormatFields(audioHeader: seq<Byte>, endDatagram: seq<Byte>, startDatagram: Option<seq<Byte>>,
                                       source: Source)

  /** What the constructor accepts. */
  predicate FormatOk(f: FormatFields) {
    |f.audioHeader| == 3 && |f.endDatagram| >= 3 && (f.startDatagram.Some? ==> |f.startDatagram.value| >= 3)
  }

  type Format = f: FormatFields | FormatOk(f) witness FormatFields([2, 0, 27], [2, 0, 0], None, Default)

  function DefaultFormat(): Format { FormatFields(DEFAULT_AUDIO_HEADER, DEFAULT_END, None, Default) }

  function BuildAudio(f: Format, block: seq<Byte>): Result<seq<Byte>> {
    if |block| != BLOCK_BYTES then Raise(ValueError) else Ok(f.audioHeader + block)
  }

  function Framed(f: Format, block: Block): seq<Byte> { f.audioHeader + block }

  /** Any valid framing of a block is read back as that block. */
  lemma FramedIsRead(f: Format, block: Block)
    ensures BuildAudio(f, block) == Ok(Framed(f, block))
    ensures |Framed(f, block)| == AUDIO_DATAGRAM_BYTES && AudioOf(Framed(f, block)) == [block]
  {
  }

  /** Any other block is refused. */
  lemma OddBlockRefused(f: Format, block: seq<Byte>)
    requires |block| != 27
    ensures BuildAudio(f, block) == Raise(ValueError)
  {
  }

  // ----- learning from a calibration run --------------------------------------------------------

  predicate IsAudio(data: seq<Byte>) { |data| == AUDIO_DATAGRAM_BYTES }
  predicate IsEnd(data: seq<Byte>) { |data| == 3 }
  predicate IsControl(data: seq<Byte>) { |data| > 3 && |data| != AUDIO_DATAGRAM_BYTES }

  function LastSuch(datagrams: seq<seq<Byte>>, f: seq<Byte> -> bool): (r: Option<seq<Byte>>)
    ensures r.Some? <==> exists d :: d in datagrams && f(d)
    ensures r.Some? ==> r.value in datagrams && f(r.value)
  {
    if datagrams == [] then None
    else
      var n := |datagrams| - 1;
      assert datagrams == datagrams[..n] + [datagrams[n]];
      if f(datagrams[n]) then Some(datagrams[n]) else LastSuch(datagrams[..n], f)
  }

  function FirstSuch(datagrams: seq<seq<Byte>>, f: seq<Byte> -> bool): (r: Option<seq<Byte>>)
    ensures r.Some? <==> exists d :: d in datagrams && f(d)
    ensures r.Some? ==> r.value in datagrams && f(r.value)
  {
    if datagrams == [] then None
    else
      var n := |datagrams| - 1;
      assert datagrams == datagrams[..n] + [datagrams[n]];
      var before := FirstSuch(datagrams[..n], f);
      if before.Some? then before else if f(datagrams[n]) then Some(datagrams[n]) else None
  }

  function InferredEnd(header: seq<Byte>): seq<Byte>
    requires |header| == 3
  {
    if Word(header[1], header[2]) == 27 || Word(header[2], header[1]) == 27 then [header[0], 0, 0] else DEFAULT_END
  }

  /** An end datagram keeps the tag of audio whose length bytes count 27 in either order. */
  lemma InferredEndIs(header: seq<Byte>)
    requires |header| == 3
    ensures InferredEnd(header)
            == if header[1..] == [0, 27] || header[1..] == [27, 0] then [header[0], 0, 0] else [2, 0, 0]
  {
    assert header[1..] == [header[1], header[2]];
  }

  lemma {:induction false} LastSuchIs(datagrams: seq<seq<Byte>>, f: seq<Byte> -> bool) returns (i: nat)
    requires LastSuch(datagrams, f).Some?
    ensures i < |datagrams| && f(datagrams[i]) && LastSuch(datagrams, f).value == datagrams[i]
    ensures forall j :: i < j < |datagrams| ==> !f(datagrams[j])
  {
    i := |datagrams| - 1;
    if !f(datagrams[i]) { i := LastSuchIs(datagrams[..i], f); }
  }

  lemma {:induction false} FirstSuchIs(datagrams: seq<seq<Byte>>, f: seq<Byte> -> bool) returns (i: nat)
    requires FirstSuch(datagrams, f).Some?
    ensures i < |datagrams| && f(datagrams[i]) && FirstSuch(datagrams, f).value == datagrams[i]
    ensures forall j :: 0 <= j < i ==> !f(datagrams[j])
  {
    i := |datagrams| - 1;
    if FirstSuch(datagrams[..i], f).Some? {
      i := FirstSuchIs(datagrams[..i], f);
    } else {
      assert forall j :: 0 <= j < i ==> datagrams[j] in datagrams[..i];
    }
  }

  /** The last audio header and end datagram seen, and the first control datagram; nothing without audio. */
  method LearnTlvCodecFormat(datagrams: seq<seq<Byte>>) returns (learned: Option<Format>)
    ensures var audio, end := LastSuch(datagrams, IsAudio), LastSuch(datagrams, IsEnd);
            && (learned.Some? <==> audio.Some?)
            && (learned.Some? ==>
                  && learned.value.audioHeader == audio.value[..3]
                  && learned.value.endDatagram == (if end.Some? then end.value else InferredEnd(audio.value[..3]))
                  && learned.value.startDatagram == FirstSuch(datagrams, IsControl)
                  && learned.value.source == Learned)
  {
    var header: Option<seq<Byte>>, end: Option<seq<Byte>>, start: Option<seq<Byte>> := None, None, None;
    for i := 0 to |datagrams|
      invariant var audio := LastSuch(datagrams[..i], IsAudio);
                header == if audio.Some? then Some(audio.value[..3]) else None
      invariant end == LastSuch(datagrams[..i], IsEnd)
      invariant start == FirstSuch(datagrams[..i], IsControl)
    {
      assert datagrams[..i + 1][..i] == datagrams[..i];
      var data := datagrams[i];
      if |data| == AUDIO_DATAGRAM_BYTES {
        var parsed := Parse(data);
        if parsed.Raise? || |parsed.value.value| == BLOCK_BYTES {
          header := Some(data[..3]);
        }
      } else if |data| == 3 {
        end := Some(data);
      } else if |data| > 3 && start.None? {
        start := Some(data);
      }
    }
    assert datagrams[..|datagrams|] == datagrams;
    if header.None? {
      return None;
    }
    var found := if end.Some? then end.value else InferredEnd(header.value);
    learned := Some(FormatFields(header.value, found, start, Learned));
  }

  // ----- learning from live traffic -----------------------------------------------------------------

  /** What is known of the framing, and the latest control datagram. */
  datatype Knowledge = Knowledge(format: Format, candidate: Option<seq<Byte>>)

  function Learn(k: Knowledge, data: seq<Byte>): Knowledge
    requires k.candidate.Some? ==> IsControl(k.candidate.value)
  {
    var f := k.format;
    if IsAudio(data) then
      if f.source.Default? || f.audioHeader != data[..3] then
        var start := if k.candidate.Some? then k.candidate else f.startDatagram;
        k.(format := FormatFields(data[..3], f.endDatagram, start, PassiveLearned))
      else k
    else if IsEnd(data) && !f.source.Default? && f.endDatagram != data then
      k.(format := f.(endDatagram := data))
    else if IsControl(data) then
      Knowledge(if !f.source.Default? && f.startDatagram.None? then f.(startDatagram := Some(data)) else f, Some(data))
    else k
  }

  /** What has been learned from a whole run of datagrams. */
  function LearnAll(datagrams: seq<seq<Byte>>, initial: Format): (k: Knowledge)
    ensures k.candidate == LastSuch(datagrams, IsControl)
  {
    if datagrams == [] then Knowledge(initial, None)
    else
      var n := |datagrams| - 1;
      assert datagrams == datagrams[..n] + [datagrams[n]];
      Learn(LearnAll(datagrams[..n], initial), datagrams[n])
  }

  lemma {:induction false} LearnStep(k: Knowledge, data: seq<Byte>)
    requires k.candidate.Some? ==> IsControl(k.candidate.value)
    ensures var f, g := k.format, Learn(k, data).format;
            && g.audioHeader == (if IsAudio(data) then data[..3] else f.audioHeader)
            && (g.source.Default? <==> f.source.Default? && !IsAudio(data))
            && (g.endDatagram == f.endDatagram || (g.endDatagram == data && IsEnd(data)))
            && (g.startDatagram == f.startDatagram || g.startDatagram == k.candidate
                || (g.startDatagram == Some(data) && IsControl(data)))
  {
  }

  /** The header in force is always that of the latest audio; start and end datagrams are ones really received. */
  lemma {:induction false} LearnedFormat(datagrams: seq<seq<Byte>>, initial: Format)
    ensures var f, audio := LearnAll(datagrams, initial).format, LastSuch(datagrams, IsAudio);
            && f.audioHeader == (if audio.Some? then audio.value[..3] else initial.audioHeader)
            && (f.source.Default? <==> audio.None? && initial.source.Default?)
            && (f.endDatagram == initial.endDatagram || (f.endDatagram in datagrams && IsEnd(f.endDatagram)))
            && (f.startDatagram == initial.startDatagram
                || (f.startDatagram.Some? && f.startDatagram.value in datagrams && IsControl(f.startDatagram.value)))
  {
    if datagrams != [] {
      var n := |datagrams| - 1;
      LearnedFormat(datagrams[..n], initial);
      LearnStep(LearnAll(datagrams[..n], initial), datagrams[n]);
      hide Learn;
      assert datagrams == datagrams[..n] + [datagrams[n]];
    }
  }

  /** Starting from the default framing, a control datagram and then audio make the former the start datagram. */
  lemma {:induction false} StartIsLearned(control: seq<Byte>, audio: seq<Byte>)
    requires IsControl(control) && IsAudio(audio)
    ensures LearnAll([control, audio], DefaultFormat()).format
            == FormatFields(audio[..3], DEFAULT_END, Some(control), PassiveLearned)
  {
    assert [control, audio][..1] == [control] && [control][..0] == [];
    assert LearnAll([control], DefaultFormat()) == Learn(LearnAll([], DefaultFormat()), control);
  }

  // ----- what exactly is learned --------------------------------------------------------------------

  /** The framing is known: given to begin with, or learned from an audio datagram. */
  ghost predicate KnownAfter(datagrams: seq<seq<Byte>>, initial: Format) {
    !initial.source.Default? || exists j :: 0 <= j < |datagrams| && |datagrams[j]| == 30
  }

  lemma {:induction false} Prefixes<T>(s: seq<T>, n: nat)
    requires n <= |s|
    ensures forall k :: 0 <= k <= n ==> s[..n][..k] == s[..k]
  {
  }

  /** The latest three-byte datagram received with the framing known. */
  ghost function EndLearned(datagrams: seq<seq<Byte>>, initial: Format): (r: Option<nat>)
    ensures r.Some? ==>
              && r.value < |datagrams| && |datagrams[r.value]| == 3 && KnownAfter(datagrams[..r.value], initial)
              && forall k :: r.value < k < |datagrams| && |datagrams[k]| == 3 ==> !KnownAfter(datagrams[..k], initial)
    ensures r.None? ==>
              forall k :: 0 <= k < |datagrams| && |datagrams[k]| == 3 ==> !KnownAfter(datagrams[..k], initial)
  {
    if datagrams == [] then None
    else
      var n := |datagrams| - 1;
      hide KnownAfter;
      Prefixes(datagrams, n);
      if |datagrams[n]| == 3 && KnownAfter(datagrams[..n], initial) then Some(n)
      else EndLearned(datagrams[..n], initial)
  }

  /** The latest control datagram: longer than an end datagram, and no audio. */
  ghost function LatestControl(datagrams: seq<seq<Byte>>): (r: Option<nat>)
    ensures r.Some? ==>
              && r.value < |datagrams| && |datagrams[r.value]| > 3 && |datagrams[r.value]| != 30
              && forall k :: r.value < k < |datagrams| ==> |datagrams[k]| <= 3 || |datagrams[k]| == 30
    ensures r.None? ==> forall k :: 0 <= k < |datagrams| ==> |datagrams[k]| <= 3 || |datagrams[k]| == 30
  {
    if datagrams == [] then None
    else
      var n := |datagrams| - 1;
      if |datagrams[n]| > 3 && |datagrams[n]| != 30 then Some(n) else LatestControl(datagrams[..n])
  }

  /** The latest audio datagram. */
  ghost function LatestAudio(datagrams: seq<seq<Byte>>): (r: Option<nat>)
    ensures r.Some? ==>
              && r.value < |datagrams| && |datagrams[r.value]| == 30
              && forall k :: r.value < k < |datagrams| ==> |datagrams[k]| != 30
    ensures r.None? ==> forall k :: 0 <= k < |datagrams| ==> |datagrams[k]| != 30
  {
    if datagrams == [] then None
    else
      var n := |datagrams| - 1;
      if |datagrams[n]| == 30 then Some(n) else LatestAudio(datagrams[..n])
  }

  /** The header of the latest audio, or the one given to begin with. */
  ghost function HeaderAfter(datagrams: seq<seq<Byte>>, initial: Format): seq<Byte> {
    var latest := LatestAudio(datagrams);
    if latest.Some? then datagrams[latest.value][..3] else initial.audioHeader
  }

  /** Audio after `before` brings a framing not known yet, behind a control datagram that may have announced it. */
  ghost predicate Announced(before: seq<seq<Byte>>, data: seq<Byte>, initial: Format) {
    && |data| == 30 && (!KnownAfter(before, initial) || HeaderAfter(before, initial) != data[..3])
    && LatestControl(before).Some?
  }

  /** The start datagram: announced most recently or, failing that, given, or the first control of a known framing. */
  ghost function StartLearned(datagrams: seq<seq<Byte>>, initial: Format): Option<seq<Byte>> {
    if datagrams == [] then initial.startDatagram
    else
      var n := |datagrams| - 1;
      var before, data := datagrams[..n], datagrams[n];
      var known := StartLearned(before, initial);
      if Announced(before, data, initial) then Some(before[LatestControl(before).value])
      else if known.None? && |data| > 3 && |data| != 30 && KnownAfter(before, initial) then Some(data)
      else known
  }

  lemma {:induction false} KnownGrows(datagrams: seq<seq<Byte>>, initial: Format)
    requires datagrams != []
    ensures var n := |datagrams| - 1;
            KnownAfter(datagrams, initial) <==> KnownAfter(datagrams[..n], initial) || |datagrams[n]| == 30
  {
    var n := |datagrams| - 1;
    if j :| 0 <= j < n && |datagrams[..n][j]| == 30 { assert |datagrams[j]| == 30; }
    if j :| 0 <= j < |datagrams| && |datagrams[j]| == 30 { assert j < n ==> |datagrams[..n][j]| == 30; }
  }

  /** Over any traffic: the framing learned, field by field. */
  lemma {:induction false} LearnsExactly(datagrams: seq<seq<Byte>>, initial: Format)
    ensures var f, end := LearnAll(datagrams, initial).format, EndLearned(datagrams, initial);
            && (f.source.Default? <==> !KnownAfter(datagrams, initial))
            && f.audioHeader == HeaderAfter(datagrams, initial)
            && f.endDatagram == (if end.Some? then datagrams[end.value] else initial.endDatagram)
            && f.startDatagram == StartLearned(datagrams, initial)
    ensures var candidate := LatestControl(datagrams);
            LearnAll(datagrams, initial).candidate == if candidate.Some? then Some(datagrams[candidate.value]) else None
  {
    if datagrams != [] {
      var n := |datagrams| - 1;
      LearnsExactly(datagrams[..n], initial);
      KnownGrows(datagrams, initial);
      var k, data := LearnAll(datagrams[..n], initial), datagrams[n];
      assert LearnAll(datagrams, initial) == Learn(k, data);
      hide KnownAfter, LearnAll;
    }
  }
}
