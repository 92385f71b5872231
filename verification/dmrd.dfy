/** OpenBridge DMRD packets, their 53-byte form, signed packets, and capture files. */
module Dmrd {
  import opened Bytes
  import opened Wrappers
  import opened Ambe

  const BODY_BYTES: nat := 53
  const HMAC_BYTES: nat := 20
  const MAGIC: seq<Byte> := [68, 77, 82, 68]
  const MAX_3BYTE_ID: nat := 0xFFFFFF

  datatype CallType = Group | UnitCall | Vcsbk | Unrecognised(name: string)

  datatype Packet = Packet(
    sequence: int, rfSourceId: int, destinationId: int, networkId: int,
    slot: int, callType: CallType, frameType: int, dtypeVseq: int, streamId: int, payload: seq<Byte>)

  predicate Fits(v: int, width: nat) { 0 <= v < Pow256(width) }

  /** What pack_bits accepts. */
  predicate BitsOk(slot: int, callType: CallType, frameType: int, dtypeVseq: int) {
    slot in {1, 2} && 0 <= frameType <= 3 && 0 <= dtypeVseq <= 15 && !callType.Unrecognised?
  }

  /** What the constructor accepts. */
  predicate PacketOk(p: Packet) {
    && 0 <= p.sequence <= 255 && |p.payload| == BURST_BYTES
    && Fits(p.rfSourceId, 3) && Fits(p.destinationId, 3) && Fits(p.networkId, 4) && Fits(p.streamId, 4)
    && BitsOk(p.slot, p.callType, p.frameType, p.dtypeVseq)
  }

  type ValidPacket = p: Packet | PacketOk(p)
    witness Packet(0, 0, 0, 0, 1, Group, 0, 0, 0, Zeros(33))

  // ----- the flag byte ---------------------------------------------------------------------

  /** The masks 0x80, 0x40, 0x20 and 0x23 of the flag byte, as divisions. */
  predicate SlotBit(bits: Byte) { bits >= 128 }
  predicate UnitBit(bits: Byte) { bits / 64 % 2 == 1 }
  predicate VcsbkBits(bits: Byte) { bits / 32 % 2 == 1 && bits % 4 == 3 }

  function PackBits(slot: int, callType: CallType, frameType: int, dtypeVseq: int): (bits: Byte)
    requires BitsOk(slot, callType, frameType, dtypeVseq)
  {
    var base := frameType * 16 + dtypeVseq + if slot == 2 then 128 else 0;
    match callType
    case UnitCall => base + 64
    case Vcsbk =>
      var low := base - dtypeVseq + 3;
      if frameType >= 2 then low else low + 32
    case _ => base
  }

  function UnpackSlot(bits: Byte): int { if SlotBit(bits) then 2 else 1 }

  function UnpackCallType(bits: Byte): CallType {
    if UnitBit(bits) then UnitCall else if VcsbkBits(bits) then Vcsbk else Group
  }

  function UnpackFrameType(bits: Byte): int { bits / 16 % 4 }

  function UnpackDtype(bits: Byte): int { bits % 16 }

  lemma UnpackIsOk(bits: Byte)
    ensures BitsOk(UnpackSlot(bits), UnpackCallType(bits), UnpackFrameType(bits), UnpackDtype(bits))
  {
  }

  /** When a packet's flags survive being packed. */
  predicate FlagsSurvive(callType: CallType, frameType: int, dtypeVseq: int) {
    match callType
    case UnitCall => true
    case Group => !(frameType >= 2 && dtypeVseq % 4 == 3)
    case Vcsbk => frameType >= 2 && dtypeVseq == 3
    case Unrecognised(_) => false
  }

  lemma PackedFields(slot: int, callType: CallType, frameType: int, dtypeVseq: int)
    requires BitsOk(slot, callType, frameType, dtypeVseq)
    ensures var bits := PackBits(slot, callType, frameType, dtypeVseq);
            && UnpackSlot(bits) == slot
            && UnpackFrameType(bits) == (if callType.Vcsbk? && frameType < 2 then frameType + 2 else frameType)
            && UnpackDtype(bits) == (if callType.Vcsbk? then 3 else dtypeVseq)
            && UnpackCallType(bits)
               == (if callType.Group? && frameType >= 2 && dtypeVseq % 4 == 3 then Vcsbk else callType)
  {
    var bits := PackBits(slot, callType, frameType, dtypeVseq);
    var f := if callType.Vcsbk? && frameType < 2 then frameType + 2 else frameType;
    var d := if callType.Vcsbk? then 3 else dtypeVseq;
    assert bits == (if slot == 2 then 128 else 0) + (if callType.UnitCall? then 64 else 0) + 16 * f + d;
  }

  /** The flag byte, bit by bit: slot, unit call, frame type, dtype; VCSBK is a frame type of 2 or 3 with dtype 3. */
  lemma PackedByte(slot: int, callType: CallType, frameType: int, dtypeVseq: int)
    requires BitsOk(slot, callType, frameType, dtypeVseq)
    ensures PackBits(slot, callType, frameType, dtypeVseq)
            == (if slot == 2 then 0x80 else 0) + (if callType.UnitCall? then 0x40 else 0)
               + 0x10 * (if callType.Vcsbk? && frameType < 2 then frameType + 2 else frameType)
               + (if callType.Vcsbk? then 3 else dtypeVseq)
    ensures forall bits: Byte ::
              && UnpackSlot(bits) == (if bits / 0x80 == 1 then 2 else 1)
              && UnpackFrameType(bits) == bits / 0x10 % 4 && UnpackDtype(bits) == bits % 0x10
              && UnpackCallType(bits)
                 == if bits / 0x40 % 2 == 1 then UnitCall
                    else if bits / 0x20 % 2 == 1 && bits % 4 == 3 then Vcsbk
                    else Group
  {
  }

  /** What packing an unpacked byte does to it: nothing, except that the low nibble of a VCSBK byte becomes 3. */
  function Settled(bits: Byte): Byte {
    if !UnitBit(bits) && VcsbkBits(bits) then bits - bits % 16 + 3 else bits
  }

  lemma SettledTwice(bits: Byte)
    ensures Settled(Settled(bits)) == Settled(bits)
  {
    var high := bits / 16;
    assert !UnitBit(bits) && VcsbkBits(bits) ==> Settled(bits) == 16 * high + 3 && high % 4 / 2 == 1;
  }

  lemma RepackedByte(bits: Byte)
    ensures BitsOk(UnpackSlot(bits), UnpackCallType(bits), UnpackFrameType(bits), UnpackDtype(bits))
    ensures PackBits(UnpackSlot(bits), UnpackCallType(bits), UnpackFrameType(bits), UnpackDtype(bits)) == Settled(bits)
  {
    assert bits == 128 * (bits / 128) + 64 * (bits / 64 % 2) + 16 * (bits / 16 % 4) + bits % 16;
    assert bits / 32 % 2 == bits / 16 % 4 / 2;
  }

  // ----- the 53-byte form --------------------------------------------------------------------

  function ToRaw53(p: ValidPacket): (data: seq<Byte>)
    ensures |data| == BODY_BYTES
  {
    MAGIC + [p.sequence] + ToBig(p.rfSourceId, 3) + ToBig(p.destinationId, 3) + ToBig(p.networkId, 4)
    + [PackBits(p.slot, p.callType, p.frameType, p.dtypeVseq)] + ToBig(p.streamId, 4) + p.payload
  }

  predicate RawOk(data: seq<Byte>) { |data| == BODY_BYTES && data[..4] == MAGIC }

  function FromRaw53(data: seq<Byte>): (p: ValidPacket)
    requires RawOk(data)
  {
    UnpackIsOk(data[15]);
    ToFromBig(data[5..8]);
    ToFromBig(data[8..11]);
    ToFromBig(data[11..15]);
    ToFromBig(data[16..20]);
    Packet(data[4], FromBig(data[5..8]), FromBig(data[8..11]), FromBig(data[11..15]),
           UnpackSlot(data[15]), UnpackCallType(data[15]), UnpackFrameType(data[15]), UnpackDtype(data[15]),
           FromBig(data[16..20]), data[20..])
  }

  /** from_raw53, with its two ways to fail. */
  method ParseRaw53(data: seq<Byte>) returns (r: Result<Packet>)
    ensures r == if RawOk(data) then Ok(FromRaw53(data)) else Raise(ValueError)
  {
    if |data| != BODY_BYTES {
      return Raise(ValueError);
    }
    if data[..4] != MAGIC {
      return Raise(ValueError);
    }
    r := Ok(FromRaw53(data));
  }

  lemma RawParts(p: ValidPacket)
    ensures var d := ToRaw53(p);
            && RawOk(d) && d[4] == p.sequence
            && d[5..8] == ToBig(p.rfSourceId, 3) && d[8..11] == ToBig(p.destinationId, 3)
            && d[11..15] == ToBig(p.networkId, 4)
            && d[15] == PackBits(p.slot, p.callType, p.frameType, p.dtypeVseq)
            && d[16..20] == ToBig(p.streamId, 4) && d[20..] == p.payload
  {
    hide ToBig, PackBits, Pow256;
  }

  /** The 53 bytes of a packet: magic, number, source, destination, network, flags, stream, payload; big-endian. */
  lemma RawLayout(p: ValidPacket)
    ensures var d := ToRaw53(p);
            && d[0..4] == [68, 77, 82, 68] && d[4] == p.sequence && FromBig(d[5..8]) == p.rfSourceId
            && FromBig(d[8..11]) == p.destinationId && FromBig(d[11..15]) == p.networkId
            && FromBig(d[16..20]) == p.streamId && d[20..53] == p.payload
  {
    RawParts(p);
    FromToBig(p.rfSourceId, 3);
    FromToBig(p.destinationId, 3);
    FromToBig(p.networkId, 4);
    FromToBig(p.streamId, 4);
    var d := ToRaw53(p);
    hide ToRaw53, ToBig, FromBig, Pow256, PackBits;
    assert d[..4] == d[0..4] && d[20..] == d[20..53];
  }

  /** What a packet looks like once written and read back. */
  function Reread(p: ValidPacket): (q: ValidPacket) {
    p.(frameType := if p.callType.Vcsbk? && p.frameType < 2 then p.frameType + 2 else p.frameType,
       dtypeVseq := if p.callType.Vcsbk? then 3 else p.dtypeVseq,
       callType := if p.callType.Group? && p.frameType >= 2 && p.dtypeVseq % 4 == 3 then Vcsbk else p.callType)
  }

  lemma RoundTrip(p: ValidPacket)
    ensures RawOk(ToRaw53(p)) && FromRaw53(ToRaw53(p)) == Reread(p)
  {
    RawParts(p);
    PackedFields(p.slot, p.callType, p.frameType, p.dtypeVseq);
    FromToBig(p.rfSourceId, 3);
    FromToBig(p.destinationId, 3);
    FromToBig(p.networkId, 4);
    FromToBig(p.streamId, 4);
    hide ToRaw53, ToBig, FromBig, Pow256, PackBits, UnpackSlot, UnpackCallType, UnpackFrameType, UnpackDtype;
  }

  /** Exactly which packets survive being written and read back. */
  lemma RoundTripIff(p: ValidPacket)
    ensures RawOk(ToRaw53(p))
    ensures FromRaw53(ToRaw53(p)) == p <==> FlagsSurvive(p.callType, p.frameType, p.dtypeVseq)
  {
    RoundTrip(p);
    hide ToRaw53, FromRaw53;
  }

  /** A group packet of frame type 2 and dtype 3 comes back as a VCSBK one. */
  lemma GroupBecomesVcsbk()
    ensures var p := Packet(0, 1, 2, 3, 1, Group, 2, 3, 4, Zeros(33));
            RawOk(ToRaw53(p)) && FromRaw53(ToRaw53(p)) == p.(callType := Vcsbk)
  {
    assert Pow256(1) == 256;
    RoundTrip(Packet(0, 1, 2, 3, 1, Group, 2, 3, 4, Zeros(33)));
    hide ToRaw53, FromRaw53;
  }

  /**
   Reading and writing back changes at most the low nibble of a VCSBK flag byte, and doing so again changes nothing.
   */
  lemma RawRoundTrip(data: seq<Byte>)
    requires RawOk(data)
    ensures ToRaw53(FromRaw53(data)) == data[15 := Settled(data[15])]
    ensures var again := data[15 := Settled(data[15])]; RawOk(again) && ToRaw53(FromRaw53(again)) == again
  {
    RawSettles(data);
    var again := data[15 := Settled(data[15])];
    assert again[..4] == data[..4];
    RawSettles(again);
    SettledTwice(data[15]);
    assert again[15 := Settled(again[15])] == again;
  }

  lemma RawSettles(data: seq<Byte>)
    requires RawOk(data)
    ensures ToRaw53(FromRaw53(data)) == data[15 := Settled(data[15])]
  {
    RepackedByte(data[15]);
    ToFromBig(data[5..8]);
    ToFromBig(data[8..11]);
    ToFromBig(data[11..15]);
    ToFromBig(data[16..20]);
    hide ToBig, FromBig, Pow256, PackBits, UnpackSlot, UnpackCallType, UnpackFrameType, UnpackDtype, Settled;
    assert data == data[..4] + [data[4]] + data[5..8] + data[8..11] + data[11..15] + [data[15]] + data[16..20]
              + data[20..];
  }

  // ----- signed packets ------------------------------------------------------------------------

  /** HMAC-SHA1 as any function from key and message to 20 bytes. */
  type Digest = d: seq<Byte> | |d| == 20 witness Zeros(20)

  type Hmac = (seq<Byte>, seq<Byte>) -> Digest

  function ToSigned(p: ValidPacket, mac: Hmac, key: seq<Byte>): seq<Byte> {
    ToRaw53(p) + mac(key, ToRaw53(p))
  }

  predicate Verified(data: seq<Byte>, mac: Hmac, key: seq<Byte>) {
    |data| == BODY_BYTES + HMAC_BYTES && data[..4] == MAGIC && data[BODY_BYTES..] == mac(key, data[..BODY_BYTES])
  }

  /** from_signed: accepted exactly with the magic, the right length and a matching digest. */
  method ParseSigned(data: seq<Byte>, mac: Hmac, key: seq<Byte>) returns (r: Result<Packet>)
    ensures r.Ok? <==> |data| == 73 && data[..4] == [68, 77, 82, 68] && data[53..] == mac(key, data[..53])
    ensures r.Ok? ==> r.value == FromRaw53(data[..BODY_BYTES])
  {
    if !Verified(data, mac, key) {
      return Raise(ValueError);
    }
    assert data[..BODY_BYTES][..4] == data[..4];
    r := ParseRaw53(data[..BODY_BYTES]);
  }

  /** A signed packet verifies under its own key, and reads back exactly when the unsigned one does. */
  lemma SignedRoundTrip(p: ValidPacket, mac: Hmac, key: seq<Byte>)
    ensures Verified(ToSigned(p, mac, key), mac, key)
    ensures ToSigned(p, mac, key)[..BODY_BYTES] == ToRaw53(p)
    ensures FromRaw53(ToSigned(p, mac, key)[..BODY_BYTES]) == p <==> FlagsSurvive(p.callType, p.frameType, p.dtypeVseq)
  {
    RoundTripIff(p);
    RawParts(p);
    hide ToRaw53, FromRaw53;
    var data := ToSigned(p, mac, key);
    assert data[..BODY_BYTES] == ToRaw53(p) && data[BODY_BYTES..] == mac(key, ToRaw53(p));
    assert data[..4] == ToRaw53(p)[..4];
  }
}
