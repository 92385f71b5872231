/**
 Three AMBE frames and a 48-bit centre in a 264-bit DMR burst: the vocoder socket of
 section 6.1 of ETSI TS 102 361-1, split 108 + 48 + 108, so mid-way through a byte.
 */
module Ambe {
  import opened Bytes
  import opened Sequences
  import opened Wrappers

  const BURST_BYTES: nat := 33
  const BITS_PER_SIDE_VOICE: nat := 108
  const BITS_PER_CENTER: nat := 48
  const BITS_PER_FRAME: nat := 72
  const BYTES_PER_FRAME: nat := 9
  const VOICE_BITS: nat := 216

  type Bit = b: int | 0 <= b < 2

  // ----- bits of a byte ---------------------------------------------------------------

  /** A right shift by n bits. */
  function Shift(v: nat, n: nat): nat { if n == 0 then v else Shift(v / 2, n - 1) }

  /** The low `width` bits, most significant first. */
  function Bits(v: nat, width: nat): (s: seq<Bit>)
    ensures |s| == width
  {
    if width == 0 then [] else Bits(v / 2, width - 1) + [v % 2]
  }

  function FromBits(s: seq<Bit>): nat {
    if s == [] then 0 else 2 * FromBits(s[..|s| - 1]) + s[|s| - 1]
  }

  function Pow2(n: nat): nat { if n == 0 then 1 else 2 * Pow2(n - 1) }

  lemma {:induction false} BitsShift(v: nat, width: nat, k: nat)
    requires k < width
    ensures Bits(v, width)[k] == Shift(v, width - 1 - k) % 2
  {
    if k < width - 1 { BitsShift(v / 2, width - 1, k); }
  }

  lemma {:induction false} FromBitsOfBits(v: nat, width: nat)
    requires v < Pow2(width)
    ensures FromBits(Bits(v, width)) == v
  {
    if width > 0 {
      FromBitsOfBits(v / 2, width - 1);
      assert Bits(v, width)[..width - 1] == Bits(v / 2, width - 1);
    }
  }

  lemma {:induction false} BitsOfFromBits(s: seq<Bit>)
    ensures FromBits(s) < Pow2(|s|) && Bits(FromBits(s), |s|) == s
  {
    if s != [] {
      BitsOfFromBits(s[..|s| - 1]);
      assert s == s[..|s| - 1] + [s[|s| - 1]];
    }
  }

  lemma Pow2Of8()
    ensures Pow2(8) == 256
  {
    assert Pow2(4) == 16;
  }

  // ----- bytes and bits -----------------------------------------------------------------

  function BytesToBits(data: seq<Byte>): (bits: seq<Bit>)
    ensures |bits| == 8 * |data|
  {
    if data == [] then [] else BytesToBits(data[..|data| - 1]) + Bits(data[|data| - 1], 8)
  }

  function BitsToBytes(bits: seq<Bit>): (data: seq<Byte>)
    requires |bits| % 8 == 0
    ensures 8 * |data| == |bits|
  {
    if bits == [] then [] else BitsToBytes(bits[..|bits| - 8]) + [ByteOf(bits[|bits| - 8..])]
  }

  function ByteOf(bits: seq<Bit>): Byte
    requires |bits| == 8
  {
    BitsOfFromBits(bits);
    Pow2Of8();
    FromBits(bits)
  }

  lemma {:induction false} BytesSurvive(data: seq<Byte>)
    ensures BitsToBytes(BytesToBits(data)) == data
  {
    if data != [] {
      var n, bits := |data| - 1, BytesToBits(data);
      BytesSurvive(data[..n]);
      Pow2Of8();
      FromBitsOfBits(data[n], 8);
      assert bits[..|bits| - 8] == BytesToBits(data[..n]) && bits[|bits| - 8..] == Bits(data[n], 8);
      assert data == data[..n] + [data[n]];
    }
  }

  lemma {:induction false} BitsSurvive(bits: seq<Bit>)
    requires |bits| % 8 == 0
    ensures BytesToBits(BitsToBytes(bits)) == bits
  {
    if bits != [] {
      var m, data := |bits| - 8, BitsToBytes(bits);
      BitsSurvive(bits[..m]);
      BitsOfFromBits(bits[m..]);
      assert data[..|data| - 1] == BitsToBytes(bits[..m]);
      assert bits == bits[..m] + bits[m..];
    }
  }

  lemma {:induction false} BytesToBitsConcat(a: seq<Byte>, b: seq<Byte>)
    ensures BytesToBits(a + b) == BytesToBits(a) + BytesToBits(b)
  {
    if b == [] {
      assert a + b == a;
    } else {
      BytesToBitsConcat(a, b[..|b| - 1]);
      assert (a + b)[..|a + b| - 1] == a + b[..|b| - 1];
    }
  }

  /** bytes_to_bits, by shifting. */
  method BytesToBitsLoop(data: seq<Byte>) returns (bits: seq<Bit>)
    ensures bits == BytesToBits(data)
  {
    bits := [];
    for i := 0 to |data|
      invariant bits == BytesToBits(data[..i])
    {
      ghost var before := bits;
      var shift := 8;
      while shift > 0
        invariant 0 <= shift <= 8
        invariant bits == before + Bits(data[i], 8)[..8 - shift]
      {
        shift := shift - 1;
        BitsShift(data[i], 8, 7 - shift);
        bits := bits + [Shift(data[i], shift) % 2];
      }
      assert Bits(data[i], 8)[..8] == Bits(data[i], 8);
      assert data[..i + 1][..i] == data[..i];
    }
    assert data[..|data|] == data;
  }

  /** bits_to_bytes, eight bits at a time; it refuses anything but whole bytes. */
  method BitsToBytesLoop(bits: seq<Bit>) returns (r: Result<seq<Byte>>)
    ensures r == if |bits| % 8 == 0 then Ok(BitsToBytes(bits)) else Raise(ValueError)
  {
    if |bits| % 8 != 0 {
      return Raise(ValueError);
    }
    var out: seq<Byte> := [];
    hide BitsToBytes;
    assert BitsToBytes(bits[..0]) == [] by { NoBits(); }
    for i := 0 to |bits| / 8
      invariant out == BitsToBytes(bits[..8 * i])
    {
      var value := ByteFrom(bits[8 * i..8 * i + 8]);
      OneMoreByte(bits, i);
      out := out + [value];
    }
    TakeAll(bits);
    r := Ok(out);
  }

  lemma NoBits()
    ensures BitsToBytes([]) == []
  {
  }

  lemma {:induction false} OneMoreByte(bits: seq<Bit>, i: nat)
    requires 8 * i + 8 <= |bits|
    ensures BitsToBytes(bits[..8 * i + 8]) == BitsToBytes(bits[..8 * i]) + [ByteOf(bits[8 * i..8 * i + 8])]
  {
    var longer := bits[..8 * i + 8];
    hide ByteOf;
    assert longer[..8 * i] == bits[..8 * i] && longer[8 * i..] == bits[8 * i..8 * i + 8];
  }

  method ByteFrom(bits: seq<Bit>) returns (value: Byte)
    requires |bits| == 8
    ensures value == ByteOf(bits)
  {
    var v: nat := 0;
    for j := 0 to 8
      invariant v == FromBits(bits[..j])
    {
      assert bits[..j + 1][..j] == bits[..j];
      v := 2 * v + bits[j];
    }
    assert bits[..8] == bits;
    BitsOfFromBits(bits);
    Pow2Of8();
    value := v;
  }

  // ----- bursts ----------------------------------------------------------------------------

  type Burst = p: seq<Byte> | |p| == 33 witness Zeros(33)
  type Center = c: seq<Byte> | |c| == 6 witness Zeros(6)
  type Frame = f: seq<Byte> | |f| == 9 witness Zeros(9)
  type Block = b: seq<Byte> | |b| == 27 witness Zeros(27)

  function VoiceBits(payload: Burst): (v: seq<Bit>)
    ensures |v| == VOICE_BITS
  {
    var bits := BytesToBits(payload);
    bits[..BITS_PER_SIDE_VOICE] + bits[BITS_PER_SIDE_VOICE + BITS_PER_CENTER..]
  }

  /** The three frames of a burst, end to end. */
  function ExtractBlock(payload: Burst): (b: Block) {
    BitsToBytes(VoiceBits(payload))
  }

  function ExtractCenter(payload: Burst): (c: Center) {
    BitsToBytes(BytesToBits(payload)[BITS_PER_SIDE_VOICE..BITS_PER_SIDE_VOICE + BITS_PER_CENTER])
  }

  function BuildBurst(block: Block, center: Center): (p: Burst) {
    var voice := BytesToBits(block);
    BitsToBytes(voice[..BITS_PER_SIDE_VOICE] + BytesToBits(center) + voice[BITS_PER_SIDE_VOICE..])
  }

  /** Building loses nothing: the frames and the centre come back out. */
  lemma BuiltBurstYieldsInputs(block: Block, center: Center)
    ensures ExtractBlock(BuildBurst(block, center)) == block
    ensures ExtractCenter(BuildBurst(block, center)) == center
  {
    hide BytesToBits, BitsToBytes;
    var voice, mid := BytesToBits(block), BytesToBits(center);
    var bits := voice[..BITS_PER_SIDE_VOICE] + mid + voice[BITS_PER_SIDE_VOICE..];
    BitsSurvive(bits);
    assert bits[..BITS_PER_SIDE_VOICE] + bits[BITS_PER_SIDE_VOICE + BITS_PER_CENTER..] == voice;
    assert bits[BITS_PER_SIDE_VOICE..BITS_PER_SIDE_VOICE + BITS_PER_CENTER] == mid;
    BytesSurvive(block);
    BytesSurvive(center);
  }

  /** Extracting loses nothing either: every burst is the one built from its own frames and centre. */
  lemma RebuiltBurstIsSame(payload: Burst)
    ensures BuildBurst(ExtractBlock(payload), ExtractCenter(payload)) == payload
  {
    hide BytesToBits, BitsToBytes;
    var bits, voice := BytesToBits(payload), VoiceBits(payload);
    var mid := bits[BITS_PER_SIDE_VOICE..BITS_PER_SIDE_VOICE + BITS_PER_CENTER];
    BitsSurvive(voice);
    BitsSurvive(mid);
    assert voice[..BITS_PER_SIDE_VOICE] + mid + voice[BITS_PER_SIDE_VOICE..] == bits;
    BytesSurvive(payload);
  }

  /** Bit `i` of some bytes, most significant first, is a digit of byte `i / 8`. */
  lemma {:induction false} BitIs(data: seq<Byte>, i: nat)
    requires i < 8 * |data|
    ensures BytesToBits(data)[i] == Shift(data[i / 8], 7 - i % 8) % 2
  {
    var n := |data| - 1;
    if i < 8 * n {
      BitIs(data[..n], i);
    } else {
      BitsShift(data[n], 8, i - 8 * n);
    }
  }

  /** Shifting right by one is halving, eight times at most. */
  lemma ShiftIs(v: nat)
    ensures Shift(v, 0) == v && Shift(v, 1) == v / 2 && Shift(v, 2) == v / 4 && Shift(v, 3) == v / 8
    ensures Shift(v, 4) == v / 16 && Shift(v, 5) == v / 32 && Shift(v, 6) == v / 64 && Shift(v, 7) == v / 128
  {
    assert Shift(v, 4) == Shift(v / 16, 0);
    assert Shift(v, 7) == Shift(v / 16, 3);
  }

  /** Where every bit of a burst comes from: 108 of the block, the 48 of the centre, and the other 108 of the block. */
  lemma {:induction false} BurstLayout(block: Block, center: Center, i: nat)
    requires i < 264
    ensures BytesToBits(BuildBurst(block, center))[i]
            == if i < 108 then BytesToBits(block)[i]
               else if i < 156 then BytesToBits(center)[i - 108]
               else BytesToBits(block)[i - 48]
  {
    hide BytesToBits, BitsToBytes;
    var voice := BytesToBits(block);
    BitsSurvive(voice[..BITS_PER_SIDE_VOICE] + BytesToBits(center) + voice[BITS_PER_SIDE_VOICE..]);
  }

  /** And where they go when a burst is taken apart. */
  lemma {:induction false} ExtractLayout(payload: Burst)
    ensures forall i :: 0 <= i < 216 ==>
              BytesToBits(ExtractBlock(payload))[i] == BytesToBits(payload)[if i < 108 then i else i + 48]
    ensures forall i :: 0 <= i < 48 ==> BytesToBits(ExtractCenter(payload))[i] == BytesToBits(payload)[108 + i]
  {
    hide BytesToBits, BitsToBytes;
    BitsSurvive(VoiceBits(payload));
    BitsSurvive(BytesToBits(payload)[BITS_PER_SIDE_VOICE..BITS_PER_SIDE_VOICE + BITS_PER_CENTER]);
  }

  // ----- as written: three frames in a list ---------------------------------------------------

  lemma JoinNone()
    ensures BytesToBits(Flat([])) == []
  {
  }

  lemma JoinOneMore(frames: seq<seq<Byte>>, frame: seq<Byte>)
    ensures Flat(frames + [frame]) == Flat(frames) + frame
    ensures BytesToBits(Flat(frames + [frame])) == BytesToBits(Flat(frames)) + BytesToBits(frame)
  {
    assert (frames + [frame])[..|frames|] == frames;
    BytesToBitsConcat(Flat(frames), frame);
  }

  lemma JoinThree(frames: seq<seq<Byte>>)
    requires |frames| == 3
    ensures Flat(frames) == frames[0] + frames[1] + frames[2]
  {
    assert frames[..2][..1] == frames[..1] && frames[..2][1] == frames[1];
    assert Flat(frames[..1]) == Flat([]) + frames[0] == frames[0];
  }

  /** extract_ambe72_from_payload33: the three frames around the centre, each cut into bytes. */
  method ExtractFrames(payload: seq<Byte>) returns (r: Result<seq<seq<Byte>>>)
    ensures r.Raise? <==> |payload| != BURST_BYTES
    ensures r.Ok? ==> |r.value| == 3 && (forall f :: f in r.value ==> |f| == BYTES_PER_FRAME)
                      && Flat(r.value) == ExtractBlock(payload)
  {
    if |payload| != BURST_BYTES {
      return Raise(ValueError);
    }
    var bits := BytesToBitsLoop(payload);
    var voice := bits[..BITS_PER_SIDE_VOICE] + bits[BITS_PER_SIDE_VOICE + BITS_PER_CENTER..];
    var frames := SplitFrames(voice);
    BytesSurvive(Flat(frames));
    r := Ok(frames);
  }

  method SplitFrames(voice: seq<Bit>) returns (frames: seq<seq<Byte>>)
    requires |voice| == VOICE_BITS
    ensures |frames| == 3 && (forall f :: f in frames ==> |f| == BYTES_PER_FRAME)
    ensures BytesToBits(Flat(frames)) == voice
  {
    hide BytesToBits, BitsToBytes, Flat;
    frames := [];
    assert BytesToBits(Flat([])) == [] by { JoinNone(); }
    for i := 0 to 3
      invariant |frames| == i && forall f :: f in frames ==> |f| == BYTES_PER_FRAME
      invariant BytesToBits(Flat(frames)) == voice[..BITS_PER_FRAME * i]
    {
      var part := voice[BITS_PER_FRAME * i..BITS_PER_FRAME * (i + 1)];
      var frame := BitsToBytesLoop(part);
      BitsSurvive(part);
      JoinOneMore(frames, frame.value);
      frames := frames + [frame.value];
    }
    assert voice[..VOICE_BITS] == voice;
  }

  /** build_payload33_from_ambe72_triplet: three frames around a centre. */
  method BuildPayload(frames: seq<seq<Byte>>, center: seq<Byte>) returns (r: Result<seq<Byte>>)
    ensures r.Ok? <==> |frames| == 3 && (forall f :: f in frames ==> |f| == BYTES_PER_FRAME) && |center| == 6
    ensures r.Ok? ==> |r.value| == BURST_BYTES && |Flat(frames)| == 27 && r.value == BuildBurst(Flat(frames), center)
  {
    if |frames| != 3 {
      return Raise(ValueError);
    }
    if |frames[0]| != BYTES_PER_FRAME || |frames[1]| != BYTES_PER_FRAME || |frames[2]| != BYTES_PER_FRAME {
      return Raise(ValueError);
    }
    if |center| != 6 {
      return Raise(ValueError);
    }
    JoinThree(frames);
    hide Flat, BytesToBits, BitsToBytes;
    var voice := BytesToBitsLoop(frames[0] + frames[1] + frames[2]);
    var mid := BytesToBitsLoop(center);
    r := BitsToBytesLoop(voice[..BITS_PER_SIDE_VOICE] + mid + voice[BITS_PER_SIDE_VOICE..]);
  }
}
