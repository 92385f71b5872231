/** The two loops between Analog_Bridge and OpenBridge: prebuffering, pacing, and stream boundaries. */
module BridgeRuntime {
  import opened Bytes
  import opened Sequences
  import opened Wrappers
  import opened Ambe
  import opened Dmrd
  import opened Analyzer
  import opened Tlv
  import opened StreamBuilder
  import opened BridgePacing
  import opened BridgeSegments

  // ----- what one stream from Analog_Bridge puts on the wire ---------------------------------

  /**
   One stream: the blocks received for it, whether its end was sent, and when each of its voice packets was released.
   */
  datatype StreamLog = StreamLog(identity: Identity, received: seq<Block>, ended: bool, released: seq<int>)

  /** Nothing until the prebuffer is full; then the header and every block so far. */
  function LivePieces(parts: Parts, prebuffer: nat, received: seq<Block>): seq<Piece>
    requires PartsOk(parts)
  {
    if |received| < prebuffer then [] else AsIs(parts.prefix) + VoicePieces(parts, received)
  }

  function LogPackets(parts: Parts, prebuffer: nat, log: StreamLog): seq<ValidPacket>
    requires PartsOk(parts) && IdentityOk(log.identity)
  {
    RewriteAll(LivePieces(parts, prebuffer, log.received) + EndPieces(parts, log.ended), log.identity, 0)
  }

  function EndPieces(parts: Parts, ended: bool): seq<Piece> {
    if ended then AsIs(StreamBuilder.FirstOf(parts.suffix)) else []
  }

  ghost predicate IdentitiesOk(logs: seq<StreamLog>) { forall log :: log in logs ==> IdentityOk(log.identity) }

  function Wire(parts: Parts, prebuffer: nat, logs: seq<StreamLog>): seq<ValidPacket>
    requires PartsOk(parts) && IdentitiesOk(logs)
  {
    if logs == [] then []
    else Wire(parts, prebuffer, logs[..|logs| - 1]) + LogPackets(parts, prebuffer, logs[|logs| - 1])
  }

  function ReceivedBy(logs: seq<StreamLog>): (r: seq<seq<Block>>)
    ensures |r| == |logs|
  {
    seq(|logs|, i requires 0 <= i < |logs| => logs[i].received)
  }

  /** Blocks of a stream that reach the wire. */
  function Forwarded(prebuffer: nat, blocks: nat): nat { if blocks < prebuffer then 0 else blocks }

  function ForwardedIn(prebuffer: nat, logs: seq<StreamLog>): nat {
    if logs == [] then 0
    else ForwardedIn(prebuffer, logs[..|logs| - 1]) + Forwarded(prebuffer, |logs[|logs| - 1].received|)
  }

  /** Every block sent had its own release, and k + 1 consecutive releases of a stream span at least k intervals. */
  ghost predicate Paced(log: StreamLog, prebuffer: nat, interval: nat) {
    |log.released| == Forwarded(prebuffer, |log.received|) && Spaced(log.released, interval)
  }

  function VoiceIn(ps: seq<ValidPacket>): nat {
    if ps == [] then 0 else VoiceIn(ps[..|ps| - 1]) + if IsVoice(ps[|ps| - 1]) then 1 else 0
  }

  function Datagrams(receptions: seq<Option<seq<Byte>>>): seq<seq<Byte>> {
    if receptions == [] then []
    else
      var last := receptions[|receptions| - 1];
      Datagrams(receptions[..|receptions| - 1]) + if last.Some? then [last.value] else []
  }

  lemma {:induction false} NoVoice(ps: seq<ValidPacket>)
    requires forall p :: p in ps ==> !IsVoice(p)
    ensures VoiceIn(ps) == 0
  {
    if ps != [] { NoVoice(ps[..|ps| - 1]); }
  }

  lemma {:induction false} TemplatesNoVoice(ps: seq<ValidPacket>, h: Identity, start: int)
    requires IdentityOk(h) && forall p :: p in ps ==> !IsVoice(p)
    ensures VoiceIn(RewriteAll(AsIs(ps), h, start)) == 0
  {
    forall p | p in RewriteAll(AsIs(ps), h, start) ensures !IsVoice(p) {
      var i :| 0 <= i < |ps| && p == RewriteAll(AsIs(ps), h, start)[i];
      assert ps[i] in ps;
    }
    NoVoice(RewriteAll(AsIs(ps), h, start));
  }

  /** The whole number of units nearest to so many milliseconds, and the even one of two that are as near. */
  predicate Nearest(n: int, millis: int, unit: nat) {
    && -(unit as int) <= 2 * (n * unit - millis) <= unit
    && (2 * (n * unit - millis) == unit || 2 * (millis - n * unit) == unit ==> n % 2 == 0)
  }

  lemma NearestIs(q: int, r: nat, millis: int, unit: nat)
    requires r < unit && millis == q * unit + r
    ensures Nearest(q, millis, unit) <==> 2 * r < unit || (2 * r == unit && q % 2 == 0)
    ensures Nearest(q + 1, millis, unit) <==> 2 * r > unit || (2 * r == unit && q % 2 == 1)
  {
    assert (q + 1) * unit == q * unit + unit;
    var product := q * unit;
    assert 2 * (product - millis) == -2 * r && 2 * (product + unit - millis) == 2 * unit - 2 * r;
  }

  /** round(millis / unit), which takes a tie to the even side. */
  function Rounded(millis: int, unit: nat): (n: int)
    requires unit > 0
    ensures Nearest(n, millis, unit)
  {
    var q, r := millis / unit, millis % unit;
    NearestIs(q, r, millis, unit);
    if 2 * r < unit || (2 * r == unit && q % 2 == 0) then q else q + 1
  }

  /** An ID beyond three bytes would make the packet constructor raise. */
  ghost predicate SourcesOk(sourceFor: nat -> int) { forall n :: 0 <= sourceFor(n) <= MAX_3BYTE_ID }

  /** Where the listening loop has got to, and what there was before it began. */
  datatype Progress = Progress(
    segments: Segments, logs: seq<StreamLog>, base: seq<ValidPacket>,
    wireBefore: seq<ValidPacket>, forwardedBefore: nat, streamsBefore: nat)

  predicate SameBefore(p: Progress, q: Progress) {
    p.wireBefore == q.wireBefore && p.forwardedBefore == q.forwardedBefore && p.streamsBefore == q.streamsBefore
  }

  lemma {:induction false} OneMoreLog(parts: Parts, prebuffer: nat, logs: seq<StreamLog>, log: StreamLog)
    requires PartsOk(parts) && IdentitiesOk(logs) && IdentityOk(log.identity)
    ensures IdentitiesOk(logs + [log])
    ensures Wire(parts, prebuffer, logs + [log]) == Wire(parts, prebuffer, logs) + LogPackets(parts, prebuffer, log)
    ensures ReceivedBy(logs + [log]) == ReceivedBy(logs) + [log.received]
    ensures ForwardedIn(prebuffer, logs + [log]) == ForwardedIn(prebuffer, logs) + Forwarded(prebuffer, |log.received|)
  {
    hide LogPackets;
    assert (logs + [log])[..|logs|] == logs;
  }

  // ----- in place ---------------------------------------------------------------------------------

  class AnalogOpenBridgeRuntime {
    const parts: Parts
    const link: Link
    const sourceFor: nat -> int   // what the source provider answers for the n-th stream
    const packetMillis: nat
    const prebuffer: nat
    const hang: int
    const startupMute: int
    const voicePacer: Pacer
    var tlvFormat: Format
    var framesReceived: nat
    var blocksForwarded: nat
    var packetsSent: nat
    var streamsFromTlv: nat
    ghost var wire: seq<ValidPacket>

    ghost predicate Valid()
      reads voicePacer`releases, voicePacer`nextAt
    {
      && PartsOk(parts) && SourcesOk(sourceFor) && prebuffer >= 1
      && voicePacer.Valid() && voicePacer.interval == IntervalOf(packetMillis)
    }

    /** Milliseconds from the configuration: at least one block is held back, and the mute is never negative. */
    constructor (parts: Parts, link: Link, sourceFor: nat -> int, prebufferMillis: int, hangMillis: int,
                 muteMillis: int, packetMillis: nat, format: Format, pacer: Pacer)
      requires PartsOk(parts) && SourcesOk(sourceFor) && packetMillis > 0
      requires pacer.Valid() && pacer.interval == IntervalOf(packetMillis)
      ensures Valid() && this.packetMillis == packetMillis && wire == [] && blocksForwarded == 0 && streamsFromTlv == 0
      ensures voicePacer == pacer
      ensures this.parts == parts && this.link == link && this.sourceFor == sourceFor && tlvFormat == format
      ensures prebuffer == 1 || Nearest(prebuffer, prebufferMillis, packetMillis)
      ensures 2 * prebufferMillis <= packetMillis ==> prebuffer == 1
      ensures hang == 1000 * hangMillis && startupMute == if muteMillis > 0 then 1000 * muteMillis else 0
    {
      this.parts, this.link, this.sourceFor, tlvFormat, voicePacer := parts, link, sourceFor, format, pacer;
      this.packetMillis := packetMillis;
      var blocks := Rounded(prebufferMillis, packetMillis);
      prebuffer := if blocks < 1 then 1 else blocks;
      hang, startupMute := 1000 * hangMillis, if muteMillis > 0 then 1000 * muteMillis else 0;
      framesReceived, blocksForwarded, packetsSent, streamsFromTlv, wire := 0, 0, 0, 0, [];
    }

    /** Whether this is the identity the n-th stream goes out under. */
    ghost predicate Ours(h: Identity, n: nat) {
      h.link == link && h.source == sourceFor(n) && 1 <= h.stream <= 0xFFFF_FFFF
    }

    /** Every packet goes out in order; voice is released one at a time by the pacer. */
    method SendOb(packets: seq<ValidPacket>)
      requires voicePacer.Valid()
      modifies this`packetsSent, this`wire, voicePacer
      ensures voicePacer.Valid() && voicePacer.clock >= old(voicePacer.clock)
      ensures wire == old(wire) + packets && packetsSent == old(packetsSent) + |packets|
      ensures |voicePacer.releases| == |old(voicePacer.releases)| + VoiceIn(packets)
    {
      for i := 0 to |packets|
        invariant voicePacer.Valid() && voicePacer.clock >= old(voicePacer.clock)
        invariant wire == old(wire) + packets[..i] && packetsSent == old(packetsSent) + i
        invariant |voicePacer.releases| == |old(voicePacer.releases)| + VoiceIn(packets[..i])
      {
        assert packets[..i + 1][..i] == packets[..i];
        if IsVoice(packets[i]) {
          voicePacer.PaceInterval();
        }
        wire, packetsSent := wire + [packets[i]], packetsSent + 1;
      }
      assert packets[..|packets|] == packets;
    }

    // ----- Analog_Bridge to OpenBridge -------------------------------------------------------------

    /**
     The builder has sent exactly what the blocks received so far call for, and only an unfilled prebuffer is held
     back.
     */
    ghost predicate Live(builder: OpenBridgeStreamBuilder, buffered: seq<Block>, received: seq<Block>)
      reads builder, voicePacer`releases, voicePacer`nextAt
    {
      && Valid() && builder.Valid() && builder.parts == parts && !builder.ended && builder.start == 0
      && (builder.started <==> |received| >= prebuffer)
      && builder.voiceIndex == Forwarded(prebuffer, |received|)
      && buffered == (if builder.started then [] else received)
      && builder.pieces == LivePieces(parts, prebuffer, received)
      && |voicePacer.releases| == builder.voiceIndex
    }

    ghost predicate OnWire(builder: OpenBridgeStreamBuilder, base: seq<ValidPacket>)
      requires IdentityOk(builder.identity)
      reads builder, this`wire
    {
      wire == base + RewriteAll(builder.pieces, builder.identity, 0)
    }

    method SendStart(builder: OpenBridgeStreamBuilder, ghost base: seq<ValidPacket>)
      requires Valid() && builder.Valid() && builder.parts == parts && builder.start == 0
      requires builder.pieces == [] && !builder.started && OnWire(builder, base)
      modifies this`packetsSent, this`wire, voicePacer, builder`nextSequence, builder`pieces, builder`started
      ensures Valid() && builder.Valid() && builder.started && builder.pieces == AsIs(parts.prefix)
                && OnWire(builder, base)
      ensures |voicePacer.releases| == |old(voicePacer.releases)| && voicePacer.clock >= old(voicePacer.clock)
    {
      hide RewriteAll, AsIs, Spaced;
      TemplatesNoVoice(parts.prefix, builder.identity, 0);
      var packets := builder.StartPackets();
      assert [] + AsIs(parts.prefix) == AsIs(parts.prefix);
      assert RewriteAll([], builder.identity, 0) == [];
      SendOb(packets);
    }

    method SendVoice(builder: OpenBridgeStreamBuilder, block: Block, ghost base: seq<ValidPacket>)
      requires Valid() && builder.Valid() && builder.parts == parts && builder.start == 0 && !builder.ended
      requires OnWire(builder, base)
      modifies this`packetsSent, this`wire, this`blocksForwarded, voicePacer
      modifies builder`nextSequence, builder`pieces, builder`voiceIndex
      ensures Valid() && builder.Valid() && OnWire(builder, base)
      ensures builder.pieces == old(builder.pieces) + [VoicePiece(parts, old(builder.voiceIndex), block)]
      ensures builder.voiceIndex == old(builder.voiceIndex) + 1 && blocksForwarded == old(blocksForwarded) + 1
      ensures |voicePacer.releases| == |old(voicePacer.releases)| + 1 && voicePacer.clock >= old(voicePacer.clock)
    {
      hide PaceOk, BuildBurst, ExtractCenter;
      ghost var piece := VoicePiece(parts, builder.voiceIndex, block);
      RewriteConcat(builder.pieces, [piece], builder.identity, 0);
      assert piece.template in parts.voice;
      hide RewriteAll, VoicePiece;
      var r := builder.VoicePacket(block);
      SendOb([r.value]);
      blocksForwarded := blocksForwarded + 1;
    }

    /** The prebuffer is full: the header, then every block held back. */
    method Flush(builder: OpenBridgeStreamBuilder, held: seq<Block>, ghost base: seq<ValidPacket>)
      requires Valid() && builder.Valid() && builder.parts == parts && builder.start == 0
      requires !builder.started && !builder.ended && builder.voiceIndex == 0 && builder.pieces == []
                && |voicePacer.releases| == 0
      requires |held| == prebuffer && OnWire(builder, base)
      modifies this`packetsSent, this`wire, this`blocksForwarded, voicePacer, builder
      ensures Live(builder, [], held) && OnWire(builder, base) && voicePacer.clock >= old(voicePacer.clock)
      ensures blocksForwarded == old(blocksForwarded) + |held|
    {
      hide RewriteAll, AsIs, PaceOk, PartsOk, VoicePiece;
      ghost var voice := VoicePieces(parts, held);
      SendStart(builder, base);
      assert AsIs(parts.prefix) + voice[..0] == AsIs(parts.prefix);
      for i := 0 to |held|
        invariant Valid() && builder.Valid() && builder.started && !builder.ended
                  && voicePacer.clock >= old(voicePacer.clock)
        invariant builder.voiceIndex == i == |voicePacer.releases| && blocksForwarded == old(blocksForwarded) + i
        invariant builder.pieces == AsIs(parts.prefix) + voice[..i] && OnWire(builder, base)
      {
        SendVoice(builder, held[i], base);
      }
      TakeAll(voice);
    }

    /** One more block for the current stream. */
    method TakeBlock(builder: OpenBridgeStreamBuilder, buffered: seq<Block>, block: Block, ghost received: seq<Block>,
                     ghost base: seq<ValidPacket>)
      returns (after: seq<Block>)
      requires Live(builder, buffered, received) && OnWire(builder, base)
      modifies this`packetsSent, this`wire, this`blocksForwarded, voicePacer, builder
      ensures Live(builder, after, received + [block]) && OnWire(builder, base)
                && voicePacer.clock >= old(voicePacer.clock)
      ensures blocksForwarded + Forwarded(prebuffer, |received|)
              == old(blocksForwarded) + Forwarded(prebuffer, |received| + 1)
    {
      hide RewriteAll, AsIs, PaceOk, PartsOk, VoicePiece;
      after := buffered;
      if !builder.started && |buffered| < prebuffer {
        after := buffered + [block];
        if |after| < prebuffer {
          return;
        }
        Flush(builder, after, base);
        after := [];
      } else {
        assert builder.started;  // so the header never goes out here
        VoiceGrows(parts, received, block);
        SendVoice(builder, block, base);
      }
    }

    method TakeBlocks(builder: OpenBridgeStreamBuilder, buffered: seq<Block>, blocks: seq<Block>,
                      ghost received: seq<Block>,
                      ghost base: seq<ValidPacket>)
      returns (after: seq<Block>)
      requires Live(builder, buffered, received) && OnWire(builder, base)
      modifies this`packetsSent, this`wire, this`blocksForwarded, voicePacer, builder
      ensures Live(builder, after, received + blocks) && OnWire(builder, base)
                && voicePacer.clock >= old(voicePacer.clock)
      ensures blocksForwarded + Forwarded(prebuffer, |received|)
              == old(blocksForwarded) + Forwarded(prebuffer, |received + blocks|)
    {
      after := buffered;
      assert received + blocks[..0] == received;
      hide Live, OnWire, Forwarded;
      LiveMeansOk(builder, buffered, received);
      for i := 0 to |blocks|
        invariant IdentityOk(builder.identity)
        invariant Live(builder, after, received + blocks[..i]) && OnWire(builder, base)
                  && voicePacer.clock >= old(voicePacer.clock)
        invariant blocksForwarded + Forwarded(prebuffer, |received|)
                  == old(blocksForwarded) + Forwarded(prebuffer, |received + blocks[..i]|)
      {
        TakeMore(blocks, i);
        Assoc(received, blocks[..i], [blocks[i]]);
        after := TakeBlock(builder, after, blocks[i], received + blocks[..i], base);
      }
      TakeAll(blocks);
    }

    lemma LiveMeansOk(builder: OpenBridgeStreamBuilder, buffered: seq<Block>, received: seq<Block>)
      requires Live(builder, buffered, received)
      ensures Valid() && IdentityOk(builder.identity)
    {
    }

    /** Any stream ID the random generator may give. */
    method RandomStreamId() returns (id: int)
      ensures 1 <= id <= 0xFFFFFFFF
    {
      id := 1;
    }

    method OpenStream() returns (builder: OpenBridgeStreamBuilder)
      requires Valid()
      modifies this`streamsFromTlv, voicePacer
      ensures fresh(builder) && Live(builder, [], []) && builder.pieces == [] && IdentityOk(builder.identity)
      ensures Ours(builder.identity, old(streamsFromTlv))
      ensures streamsFromTlv == old(streamsFromTlv) + 1 && voicePacer.clock >= old(voicePacer.clock)
    {
      var id := RandomStreamId();
      assert Pow256(2) == 0x1_0000;
      builder := new OpenBridgeStreamBuilder(parts, Identity(link, sourceFor(streamsFromTlv), id), 0);
      streamsFromTlv := streamsFromTlv + 1;
      voicePacer.Reset();
    }

    method CloseStream(builder: OpenBridgeStreamBuilder, buffered: seq<Block>, ghost received: seq<Block>,
                       ghost base: seq<ValidPacket>)
      requires Live(builder, buffered, received) && OnWire(builder, base)
      modifies this`packetsSent, this`wire, voicePacer, builder
      ensures Valid() && IdentityOk(builder.identity) && voicePacer.clock >= old(voicePacer.clock)
      ensures wire == base + LogPackets(parts, prebuffer,
                                        StreamLog(builder.identity, received, true, old(voicePacer.releases)))
      ensures Paced(StreamLog(builder.identity, received, true, old(voicePacer.releases)), prebuffer,
                    voicePacer.interval)
    {
      assert Spaced(voicePacer.releases, voicePacer.interval);
      hide AsIs, PaceOk, Spaced;
      var packets := builder.EndPackets();
      RewriteConcat(LivePieces(parts, prebuffer, received), AsIs(StreamBuilder.FirstOf(parts.suffix)), builder.identity,
                    0);
      hide RewriteAll, LivePieces;
      SendOb(packets);
    }

    method LearnFromDatagram(data: seq<Byte>, candidate: Option<seq<Byte>>) returns (after: Option<seq<Byte>>)
      requires candidate.Some? ==> IsControl(candidate.value)
      modifies this`tlvFormat
      ensures Knowledge(tlvFormat, after) == Learn(Knowledge(old(tlvFormat), candidate), data)
    {
      after := candidate;
      if |data| == AUDIO_DATAGRAM_BYTES {
        if tlvFormat.source.Default? || tlvFormat.audioHeader != data[..3] {
          var start := if candidate.Some? then candidate else tlvFormat.startDatagram;
          tlvFormat := FormatFields(data[..3], tlvFormat.endDatagram, start, PassiveLearned);
        }
      } else if |data| == 3 && !tlvFormat.source.Default? && tlvFormat.endDatagram != data {
        tlvFormat := tlvFormat.(endDatagram := data);
      } else if |data| > 3 && |data| != AUDIO_DATAGRAM_BYTES {
        after := Some(data);
        if !tlvFormat.source.Default? && tlvFormat.startDatagram.None? {
          tlvFormat := tlvFormat.(startDatagram := Some(data));
        }
      }
    }

    /** The current stream, if any, has received `received`, and `base` was on the wire before it. */
    ghost predicate Between(builder: OpenBridgeStreamBuilder?, buffered: seq<Block>, received: seq<Block>,
                            base: seq<ValidPacket>)
      reads this`wire, voicePacer`releases, voicePacer`nextAt, builder
    {
      && Valid()
      && (builder == null ==> wire == base && received == [])
      && (builder != null ==> Live(builder, buffered, received) && OnWire(builder, base) && received != [])
    }

    /** `base` is exactly what the finished streams put on the wire, and the counters say how much. */
    ghost predicate Tally(p: Progress, open: bool)
      requires PartsOk(parts)
      reads this`blocksForwarded, this`streamsFromTlv
    {
      && IdentitiesOk(p.logs)
      && (forall log :: log in p.logs ==> log.ended && Paced(log, prebuffer, voicePacer.interval))
      && (forall k :: 0 <= k < |p.logs| ==> Ours(p.logs[k].identity, p.streamsBefore + k))
      && ReceivedBy(p.logs) == p.segments.done
      && p.base == p.wireBefore + Wire(parts, prebuffer, p.logs)
      && blocksForwarded
         == p.forwardedBefore + ForwardedIn(prebuffer, p.logs) + Forwarded(prebuffer, |p.segments.current|)
      && streamsFromTlv == p.streamsBefore + |p.logs| + (if open then 1 else 0)
    }

    /** The local variables between two receptions: the open stream, if any, and when it last had audio. */
    ghost predicate Steady(builder: OpenBridgeStreamBuilder?, buffered: seq<Block>, lastAudio: Option<int>, p: Progress)
      reads this`wire, this`blocksForwarded, this`streamsFromTlv, voicePacer`releases, voicePacer`nextAt, builder
    {
      && PartsOk(parts) && Between(builder, buffered, p.segments.current, p.base) && Tally(p, builder != null)
      && (builder != null ==>
            lastAudio == Some(p.segments.lastAudio) && Ours(builder.identity, p.streamsBefore + |p.logs|))
    }

    /** A datagram that got past the startup mute: its audio joins the current stream, or opens one. */
    method HearDatagram(builder: OpenBridgeStreamBuilder?, buffered: seq<Block>, data: seq<Byte>,
                        ghost received: seq<Block>, ghost base: seq<ValidPacket>)
      returns (current: OpenBridgeStreamBuilder?, after: seq<Block>, heardAt: Option<int>)
      requires Between(builder, buffered, received, base)
      modifies this`framesReceived, this`packetsSent, this`wire, this`blocksForwarded, this`streamsFromTlv, voicePacer,
                builder
      ensures Between(current, after, received + AudioOf(data), base) && voicePacer.clock >= old(voicePacer.clock)
      ensures builder != null ==> current == builder
      ensures current == null <==> builder == null && AudioOf(data) == []
      ensures builder == null && current != null ==> fresh(current) && Ours(current.identity, old(streamsFromTlv))
      ensures blocksForwarded + Forwarded(prebuffer, |received|)
              == old(blocksForwarded) + Forwarded(prebuffer, |received + AudioOf(data)|)
      ensures streamsFromTlv == old(streamsFromTlv) + (if builder == null && current != null then 1 else 0)
      ensures heardAt.Some? <==> AudioOf(data) != []
      ensures heardAt.Some? ==> old(voicePacer.clock) <= heardAt.value <= voicePacer.clock
    {
      hide Forwarded, AsIs, RewriteAll, PaceOk;
      framesReceived := framesReceived + 1;
      var blocks := ExtractDmrAmbeBlocks([data]);
      OneDatagram(data);
      hide AudioBlocks, AudioOf;
      current, after, heardAt := builder, buffered, None;
      if blocks == [] {
        assert received + [] == received;
        return;
      }
      var now := voicePacer.Monotonic();
      heardAt := Some(now);
      if current == null {
        current := OpenStream();
        after := [];
        assert wire == base + RewriteAll([], current.identity, 0) by { NothingYet(current.identity); }
      }
      hide Live, OnWire;
      after := TakeBlocks(current, after, blocks, received, base);
    }

    /** A receive timeout: the stream ends once there has been no audio for the hang time. */
    method OnTimeout(builder: OpenBridgeStreamBuilder?, buffered: seq<Block>, lastAudio: Option<int>, ghost p: Progress,
                     ghost t: Timing)
      returns (current: OpenBridgeStreamBuilder?, after: seq<Block>, last: Option<int>, ghost q: Progress,
               ghost c: Clocked)
      requires Steady(builder, buffered, lastAudio, p) && t.hang == hang
      modifies this`packetsSent, this`wire, voicePacer, builder
      ensures Steady(current, after, last, q) && SameBefore(p, q)
      ensures current == builder || current == null
      ensures c.data == None && old(voicePacer.clock) <= c.checkedAt <= c.heardAt <= voicePacer.clock
      ensures q.segments == Segment(p.segments, c, t)
    {
      hide Wire, ReceivedBy, ForwardedIn, LogPackets, PaceOk;
      current, after, last, q := builder, buffered, lastAudio, p;
      c := Clocked(None, voicePacer.clock, voicePacer.clock);
      if builder != null && lastAudio.Some? {
        var now := voicePacer.Monotonic();
        c := Clocked(None, now, now);
        if now - lastAudio.value >= hang {
          ghost var log := StreamLog(builder.identity, p.segments.current, true, voicePacer.releases);
          CloseStream(builder, buffered, p.segments.current, p.base);
          OneMoreLog(parts, prebuffer, p.logs, log);
          q := p.(logs := p.logs + [log], segments := Segment(p.segments, c, t), base := wire);
          current, after, last := null, [], None;
        }
      }
    }

    /** A datagram: its audio is not heard until the startup mute is over. */
    method OnDatagram(builder: OpenBridgeStreamBuilder?, buffered: seq<Block>, lastAudio: Option<int>, data: seq<Byte>,
                      startedAt: int, ghost p: Progress, ghost t: Timing)
      returns (current: OpenBridgeStreamBuilder?, after: seq<Block>, last: Option<int>, ghost q: Progress,
               ghost c: Clocked)
      requires Steady(builder, buffered, lastAudio, p) && t == Timing(startedAt, startupMute, hang)
      modifies this`framesReceived, this`packetsSent, this`wire, this`blocksForwarded, this`streamsFromTlv, voicePacer,
                builder
      ensures Steady(current, after, last, q) && SameBefore(p, q)
      ensures current == builder || fresh(current)
      ensures c.data == Some(data) && old(voicePacer.clock) <= c.checkedAt <= c.heardAt <= voicePacer.clock
      ensures q.segments == Segment(p.segments, c, t)
    {
      hide Wire, ReceivedBy, ForwardedIn, Forwarded, LogPackets, PaceOk, AudioOf, Live, OnWire;
      current, after, last, q := builder, buffered, lastAudio, p;
      var now := voicePacer.Monotonic();
      c := Clocked(Some(data), now, now);
      if startupMute > 0 && now - startedAt < startupMute {
        return;
      }
      var heardAt;
      current, after, heardAt := HearDatagram(builder, buffered, data, p.segments.current, p.base);
      if heardAt.Some? {
        last := heardAt;
        c := Clocked(Some(data), now, heardAt.value);
      } else {
        assert p.segments.current + [] == p.segments.current;
      }
      q := p.(segments := Segment(p.segments, c, t));
    }

    /** Framing is learned from every datagram, muted or not. */
    method OnReception(builder: OpenBridgeStreamBuilder?, buffered: seq<Block>, lastAudio: Option<int>,
                       candidate: Option<seq<Byte>>,
                       data: Option<seq<Byte>>, startedAt: int, ghost p: Progress, ghost t: Timing)
      returns (current: OpenBridgeStreamBuilder?, after: seq<Block>, last: Option<int>, learned: Option<seq<Byte>>,
               ghost q: Progress, ghost c: Clocked)
      requires Steady(builder, buffered, lastAudio, p) && t == Timing(startedAt, startupMute, hang)
      requires candidate.Some? ==> IsControl(candidate.value)
      modifies this`tlvFormat, this`framesReceived, this`packetsSent, this`wire, this`blocksForwarded,
                this`streamsFromTlv
      modifies voicePacer, builder
      ensures Steady(current, after, last, q) && SameBefore(p, q)
      ensures current == builder || current == null || fresh(current)
      ensures c.data == data && old(voicePacer.clock) <= c.checkedAt <= c.heardAt <= voicePacer.clock
      ensures q.segments == Segment(p.segments, c, t)
      ensures Knowledge(tlvFormat, learned)
              == if data.None? then Knowledge(old(tlvFormat), candidate)
                else Learn(Knowledge(old(tlvFormat), candidate), data.value)
    {
      hide Steady, Learn, Segment;
      learned := candidate;
      if data.None? {
        current, after, last, q, c := OnTimeout(builder, buffered, lastAudio, p, t);
      } else {
        learned := LearnFromDatagram(data.value, candidate);
        current, after, last, q, c := OnDatagram(builder, buffered, lastAudio, data.value, startedAt, p, t);
      }
    }

    lemma NothingSent(p: Progress)
      requires Valid() && p == Progress(Segments([], [], 0), [], wire, wire, blocksForwarded, streamsFromTlv)
      ensures Steady(null, [], None, p)
    {
      assert wire == wire + [];
    }

    /** Stop: a stream that had started is ended; blocks still held back are never sent. */
    method Finish(builder: OpenBridgeStreamBuilder?, buffered: seq<Block>, ghost lastAudio: Option<int>,
                  ghost p: Progress)
      returns (ghost logs: seq<StreamLog>)
      requires Steady(builder, buffered, lastAudio, p)
      modifies this`packetsSent, this`wire, voicePacer, builder
      ensures Valid() && IdentitiesOk(logs) && wire == p.wireBefore + Wire(parts, prebuffer, logs)
      ensures ReceivedBy(logs) == Streams(p.segments)
      ensures forall k :: 0 <= k < |logs| ==>
                (logs[k].ended <==> k < |p.segments.done| || |logs[k].received| >= prebuffer)
      ensures forall log :: log in logs ==> Paced(log, prebuffer, voicePacer.interval)
      ensures forall k :: 0 <= k < |logs| ==> Ours(logs[k].identity, p.streamsBefore + k)
      ensures blocksForwarded == p.forwardedBefore + ForwardedIn(prebuffer, logs)
      ensures streamsFromTlv == p.streamsBefore + |logs|
    {
      hide Wire, ReceivedBy, ForwardedIn, LogPackets, PaceOk;
      logs := p.logs;
      if builder != null {
        ghost var log := StreamLog(builder.identity, p.segments.current, builder.started, voicePacer.releases);
        OneMoreLog(parts, prebuffer, p.logs, log);
        logs := logs + [log];
        if builder.started && !builder.ended {
          CloseStream(builder, buffered, p.segments.current, p.base);
        } else {
          UnstartedSendsNothing(parts, prebuffer, log);
        }
      }
    }

    /** The loop over what the socket delivers until stop: datagrams, or None for a timeout. */
    method Listen(receptions: seq<Option<seq<Byte>>>)
      returns (builder: OpenBridgeStreamBuilder?, buffered: seq<Block>, ghost lastHeard: Option<int>, ghost p: Progress,
               ghost cs: seq<Clocked>, ghost t: Timing)
      requires Valid()
      modifies this`tlvFormat, this`framesReceived, this`packetsSent, this`wire, this`blocksForwarded,
                this`streamsFromTlv
      modifies voicePacer
      ensures Steady(builder, buffered, lastHeard, p) && (builder != null ==> fresh(builder))
      ensures SameBefore(Progress(Segments([], [], 0), [], old(wire), old(wire), old(blocksForwarded),
                                  old(streamsFromTlv)), p)
      ensures t == Timing(t.startedAt, startupMute, hang)
      ensures DataOf(cs) == receptions && InOrder(cs, t) && p.segments == SegmentAll(cs, t)
      ensures tlvFormat == LearnAll(Datagrams(receptions), old(tlvFormat)).format
    {
      hide Steady, Sync, SameBefore, LearnAll, Learn, Datagrams, SegmentAll, Segment, DataOf, InOrder;
      var lastAudio: Option<int>, candidate: Option<seq<Byte>> := None, None;
      builder, buffered, cs := null, [], [];
      var startedAt := voicePacer.Monotonic();
      t := Timing(startedAt, startupMute, hang);
      ghost var p0 := Progress(Segments([], [], 0), [], wire, wire, blocksForwarded, streamsFromTlv);
      p := p0;
      SyncBegins(p0, receptions, tlvFormat, t);
      NothingSent(p);
      for i := 0 to |receptions|
        invariant Steady(builder, buffered, lastAudio, p) && (builder != null ==> fresh(builder))
        invariant Sync(p0, p, receptions, i, cs, t, Knowledge(tlvFormat, candidate), old(tlvFormat), voicePacer.clock)
      {
        ghost var before, k, now := p, Knowledge(tlvFormat, candidate), voicePacer.clock;
        SyncCandidate(p0, p, receptions, i, cs, t, k, old(tlvFormat), now);
        ghost var c;
        builder, buffered, lastAudio, candidate, p, c :=
          OnReception(builder, buffered, lastAudio, candidate, receptions[i], startedAt, p, t);
        SyncStep(p0, before, p, receptions, i, cs, t, k, old(tlvFormat), now, c, voicePacer.clock);
        cs := cs + [c];
      }
      SyncEnds(p0, p, receptions, cs, t, Knowledge(tlvFormat, candidate), old(tlvFormat), voicePacer.clock);
      lastHeard := lastAudio;
    }

    /**
     Listen, then finish.  `cs` are the receptions with the clock readings made for them: given those, the streams, and
     so everything on the wire, are determined.
     */
    method TlvToOpenBridge(receptions: seq<Option<seq<Byte>>>)
      returns (ghost logs: seq<StreamLog>, ghost cs: seq<Clocked>, ghost t: Timing)
      requires Valid()
      modifies this`tlvFormat, this`framesReceived, this`packetsSent, this`wire, this`blocksForwarded,
                this`streamsFromTlv
      modifies voicePacer
      ensures t == Timing(t.startedAt, startupMute, hang) && DataOf(cs) == receptions && InOrder(cs, t)
      ensures ReceivedBy(logs) == Streams(SegmentAll(cs, t)) == Groups(cs, t)
      ensures forall k :: 0 <= k < |logs| ==>
                (logs[k].ended <==> k < |logs| - 1 || Finished(cs, t) || |logs[k].received| >= prebuffer)
      ensures Valid() && IdentitiesOk(logs) && wire == old(wire) + Wire(parts, prebuffer, logs)
      ensures forall k :: 0 <= k < |logs| ==>
                (logs[k].ended <==> k < |SegmentAll(cs, t).done| || |logs[k].received| >= prebuffer)
      ensures HeadlessExactly(parts, prebuffer, logs, SegmentAll(cs, t).done)
      ensures forall k :: 0 <= k < |logs| ==>
                && logs[k].identity.link == link && logs[k].identity.source == sourceFor(old(streamsFromTlv) + k)
                && 1 <= logs[k].identity.stream <= 0xFFFF_FFFF
      ensures forall log :: log in logs ==>
                && |log.released| == (if |log.received| < prebuffer then 0 else |log.received|)
                && forall i, j :: 0 <= i < j < |log.released| ==>
                     log.released[j] - log.released[i] >= (j - i) * (1000 * packetMillis)
      ensures blocksForwarded == old(blocksForwarded) + ForwardedIn(prebuffer, logs)
      ensures streamsFromTlv == old(streamsFromTlv) + |logs|
      ensures tlvFormat == LearnAll(Datagrams(receptions), old(tlvFormat)).format
    {
      hide Steady, Wire, ForwardedIn, LearnAll, Datagrams, PaceOk, PartsOk, SegmentAll, DataOf, InOrder,
        HeadlessExactly, Groups, Finished;
      var builder, buffered;
      ghost var lastHeard, p;
      builder, buffered, lastHeard, p, cs, t := Listen(receptions);
      logs := Finish(builder, buffered, lastHeard, p);
      HeadlessStreams(parts, prebuffer, logs, p.segments);
      StreamsAreGroups(cs, t);
      forall log | log in logs
        ensures forall i, j :: 0 <= i < j < |log.released| ==>
                  log.released[j] - log.released[i] >= (j - i) * (1000 * packetMillis)
      {
        SpacedByPackets(log.released, packetMillis);
      }
    }
  }

  function DataOf(cs: seq<Clocked>): seq<Option<seq<Byte>>> { seq(|cs|, i requires 0 <= i < |cs| => cs[i].data) }

  lemma {:induction false} DatagramsGrow(receptions: seq<Option<seq<Byte>>>, i: nat)
    requires i < |receptions|
    ensures Datagrams(receptions[..i + 1])
            == if receptions[i].None? then Datagrams(receptions[..i])
              else Datagrams(receptions[..i]) + [receptions[i].value]
  {
    TakeMore(receptions, i);
  }

  lemma {:induction false} DatagramAdded(datagrams: seq<seq<Byte>>, data: seq<Byte>, initial: Format)
    ensures LearnAll(datagrams + [data], initial) == Learn(LearnAll(datagrams, initial), data)
  {
    hide Learn;
    TakeAppended(datagrams, [data]);
  }

  ghost predicate LearnedUpTo(k: Knowledge, receptions: seq<Option<seq<Byte>>>, i: nat, initial: Format) {
    i <= |receptions| && k == LearnAll(Datagrams(receptions[..i]), initial)
  }

  lemma {:induction false} OneMoreReception(k: Knowledge, receptions: seq<Option<seq<Byte>>>, i: nat, initial: Format)
    requires LearnedUpTo(k, receptions, i, initial) && i < |receptions|
    ensures k.candidate.Some? ==> IsControl(k.candidate.value)
    ensures LearnedUpTo(if receptions[i].None? then k else Learn(k, receptions[i].value), receptions, i + 1, initial)
  {
    DatagramsGrow(receptions, i);
    hide Learn, Datagrams, LearnAll;
    if receptions[i].Some? { DatagramAdded(Datagrams(receptions[..i]), receptions[i].value, initial); }
  }

  /** The first `i` receptions, clocked: what they amounted to, and what was learned from them. */
  ghost predicate Sync(p0: Progress, p: Progress, receptions: seq<Option<seq<Byte>>>, i: nat, cs: seq<Clocked>,
                       t: Timing,
                       k: Knowledge, initial: Format, clock: int)
  {
    && SameBefore(p0, p) && LearnedUpTo(k, receptions, i, initial)
    && i <= |receptions| && DataOf(cs) == receptions[..i]
    && InOrder(cs, t) && t.startedAt <= clock && (cs != [] ==> cs[|cs| - 1].heardAt <= clock)
    && p.segments == SegmentAll(cs, t)
  }

  lemma SyncBegins(p0: Progress, receptions: seq<Option<seq<Byte>>>, initial: Format, t: Timing)
    requires p0.segments == Segments([], [], 0)
    ensures Sync(p0, p0, receptions, 0, [], t, Knowledge(initial, None), initial, t.startedAt)
  {
    assert receptions[..0] == [] && Datagrams([]) == [] && DataOf([]) == [];
  }

  lemma SyncCandidate(p0: Progress, p: Progress, receptions: seq<Option<seq<Byte>>>, i: nat, cs: seq<Clocked>,
                      t: Timing,
                      k: Knowledge, initial: Format, clock: int)
    requires Sync(p0, p, receptions, i, cs, t, k, initial, clock)
    ensures k.candidate.Some? ==> IsControl(k.candidate.value)
  {
    hide LearnAll, Learn, InOrder, SegmentAll, DataOf;
  }

  lemma {:induction false} SyncStep(p0: Progress, p: Progress, q: Progress, receptions: seq<Option<seq<Byte>>>, i: nat,
                                    cs: seq<Clocked>, t: Timing, k: Knowledge, initial: Format,
                                    before: int, c: Clocked, clock: int)
    requires Sync(p0, p, receptions, i, cs, t, k, initial, before) && SameBefore(p, q)
    requires i < |receptions| && c.data == receptions[i] && before <= c.checkedAt <= c.heardAt <= clock
    requires q.segments == Segment(p.segments, c, t)
    requires k.candidate.Some? ==> IsControl(k.candidate.value)
    ensures Sync(p0, q, receptions, i + 1, cs + [c], t,
                 if receptions[i].None? then k else Learn(k, receptions[i].value), initial, clock)
  {
    hide Learn, LearnedUpTo, Segment;
    OneMoreReception(k, receptions, i, initial);
    TakeAppended(cs, [c]);
    TakeMore(receptions, i);
    ReadingAdded(cs, c, t);
    hide InOrder;
    assert DataOf(cs + [c]) == DataOf(cs) + [c.data];
  }

  lemma {:induction false} ReadingAdded(cs: seq<Clocked>, c: Clocked, t: Timing)
    requires InOrder(cs, t) && t.startedAt <= c.checkedAt <= c.heardAt
              && (cs != [] ==> cs[|cs| - 1].heardAt <= c.checkedAt)
    ensures InOrder(cs + [c], t)
  {
    forall i | 0 <= i < |cs| ensures cs[i].heardAt <= c.checkedAt {
      if i < |cs| - 1 { assert cs[i].heardAt <= cs[|cs| - 1].checkedAt <= cs[|cs| - 1].heardAt; }
    }
  }

  lemma SyncEnds(p0: Progress, p: Progress, receptions: seq<Option<seq<Byte>>>, cs: seq<Clocked>, t: Timing,
                 k: Knowledge, initial: Format, clock: int)
    requires Sync(p0, p, receptions, |receptions|, cs, t, k, initial, clock)
    ensures SameBefore(p0, p) && k == LearnAll(Datagrams(receptions), initial)
    ensures DataOf(cs) == receptions && InOrder(cs, t) && p.segments == SegmentAll(cs, t)
  {
    hide LearnAll, Datagrams, InOrder, SegmentAll, DataOf;
    TakeAll(receptions);
  }

  lemma UnstartedSendsNothing(parts: Parts, prebuffer: nat, log: StreamLog)
    requires PartsOk(parts) && IdentityOk(log.identity) && !log.ended && |log.received| < prebuffer
    ensures LogPackets(parts, prebuffer, log) == []
  {
  }

  lemma OneDatagram(data: seq<Byte>)
    ensures AudioBlocks([data]) == AudioOf(data)
  {
    assert [data][..0] == [];
    assert AudioBlocks([]) + AudioOf(data) == AudioOf(data);
  }

  lemma NothingYet(h: Identity)
    requires IdentityOk(h)
    ensures RewriteAll([], h, 0) == []
  {
  }

  lemma {:induction false} VoiceGrows(parts: Parts, received: seq<Block>, block: Block)
    requires PartsOk(parts)
    ensures VoicePieces(parts, received + [block])
              == VoicePieces(parts, received) + [VoicePiece(parts, |received|, block)]
    ensures AsIs(parts.prefix) + VoicePieces(parts, received + [block])
            == AsIs(parts.prefix) + VoicePieces(parts, received) + [VoicePiece(parts, |received|, block)]
  {
    hide VoicePiece, AsIs;
  }

  // ----- what the wire carries -------------------------------------------------------------------

  /** The audio of the voice packets, in order. */
  function VoiceBlocks(ps: seq<ValidPacket>): (r: seq<Block>)
    ensures |r| == VoiceIn(ps)
  {
    if ps == [] then []
    else
      var before, last := VoiceBlocks(ps[..|ps| - 1]), ps[|ps| - 1];
      if IsVoice(last) then before + [ExtractBlock(last.payload)] else before
  }

  /** Of everything received, what belongs to streams that filled their prebuffer. */
  function SentIn(prebuffer: nat, logs: seq<StreamLog>): (r: seq<Block>)
    ensures |r| == ForwardedIn(prebuffer, logs)
  {
    if logs == [] then []
    else
      var before, last := SentIn(prebuffer, logs[..|logs| - 1]), logs[|logs| - 1];
      if |last.received| < prebuffer then before else before + last.received
  }

  lemma {:induction false} VoiceBlocksConcat(a: seq<ValidPacket>, b: seq<ValidPacket>)
    ensures VoiceBlocks(a + b) == VoiceBlocks(a) + VoiceBlocks(b)
  {
    hide ExtractBlock;
    if b == [] {
      assert a + b == a;
    } else {
      VoiceBlocksConcat(a, b[..|b| - 1]);
      assert (a + b)[..|a + b| - 1] == a + b[..|b| - 1];
    }
  }

  lemma {:induction false} VoiceCarriesBlocks(parts: Parts, blocks: seq<Block>, h: Identity, start: int)
    requires PartsOk(parts) && IdentityOk(h)
    ensures VoiceBlocks(RewriteAll(VoicePieces(parts, blocks), h, start)) == blocks
  {
    hide ExtractBlock, BuildBurst, ExtractCenter;
    if blocks != [] {
      var n := |blocks| - 1;
      var piece := VoicePiece(parts, n, blocks[n]);
      assert piece.payload == BuildBurst(blocks[n], ExtractCenter(piece.template.payload));
      assert piece.template in parts.voice;
      VoiceCarriesBlocks(parts, blocks[..n], h, start);
      assert blocks == blocks[..n] + [blocks[n]];
      VoiceGrows(parts, blocks[..n], blocks[n]);
      hide VoicePieces, VoicePiece, VoiceBlocks;
      RewriteConcat(VoicePieces(parts, blocks[..n]), [piece], h, start);
      BuiltBurstYieldsInputs(blocks[n], ExtractCenter(piece.template.payload));
      OneVoice(RewriteAll(VoicePieces(parts, blocks[..n]), h, start), Rewritten(piece, h, (start + n) % 256));
    }
  }

  lemma OneVoice(ps: seq<ValidPacket>, p: ValidPacket)
    requires IsVoice(p)
    ensures VoiceBlocks(ps + [p]) == VoiceBlocks(ps) + [ExtractBlock(p.payload)]
  {
    hide ExtractBlock;
    assert (ps + [p])[..|ps|] == ps;
  }

  /** A stream sends each of its blocks once, in order, if it fills the prebuffer, and no voice at all otherwise. */
  lemma {:induction false} LogCarries(parts: Parts, prebuffer: nat, log: StreamLog)
    requires PartsOk(parts) && IdentityOk(log.identity)
    ensures VoiceBlocks(LogPackets(parts, prebuffer, log)) == if |log.received| < prebuffer then [] else log.received
    ensures log.ended ==>
              LogPackets(parts, prebuffer, log)
              == if |log.received| >= prebuffer then Stream(parts, log.identity, 0, log.received)
                 else RewriteAll(AsIs(StreamBuilder.FirstOf(parts.suffix)), log.identity, 0)
  {
    hide RewriteAll, VoicePieces, AsIs, VoiceBlocks, VoiceIn;
    var h, start, voice, end := log.identity, AsIs(parts.prefix), VoicePieces(parts, log.received),
      EndPieces(parts, log.ended);
    TemplatesCarryNothing(parts.prefix, h, 0);
    EndCarriesNothing(parts, log.ended, h, |start + voice|);
    EndCarriesNothing(parts, log.ended, h, 0);
    VoiceCarriesBlocks(parts, log.received, h, |start|);
    RewriteConcat(start, voice, h, 0);
    RewriteConcat(start + voice, end, h, 0);
    assert [] + end == end;
    VoiceBlocksConcat(RewriteAll(start, h, 0), RewriteAll(voice, h, |start|));
    VoiceBlocksConcat(RewriteAll(start + voice, h, 0), RewriteAll(end, h, |start + voice|));
  }

  // ----- terminators without a header --------------------------------------------------------------

  /** Nothing at all; or the header, then voice, and only then, if at all, a terminator. */
  ghost predicate Proper(parts: Parts, h: Identity, ps: seq<ValidPacket>)
    requires PartsOk(parts) && IdentityOk(h)
  {
    ps == [] || exists blocks: seq<Block>, ended: bool ::
      blocks != [] && ps == RewriteAll(AsIs(parts.prefix) + VoicePieces(parts, blocks) + EndPieces(parts, ended), h, 0)
  }

  /** Ended by silence before its prebuffer was full. */
  predicate CutShort(parts: Parts, prebuffer: nat, log: StreamLog) {
    log.ended && |log.received| < prebuffer && parts.suffix != []
  }

  /** What a stream puts on the wire is proper exactly unless it was cut short: then it is a lone terminator. */
  lemma {:induction false} HeadlessIff(parts: Parts, prebuffer: nat, log: StreamLog)
    requires PartsOk(parts) && IdentityOk(log.identity) && prebuffer >= 1
    ensures Proper(parts, log.identity, LogPackets(parts, prebuffer, log)) <==> !CutShort(parts, prebuffer, log)
    ensures CutShort(parts, prebuffer, log) ==>
              LogPackets(parts, prebuffer, log)
                == RewriteAll([Piece(parts.suffix[0], parts.suffix[0].payload)], log.identity, 0)
  {
    var h, ps, end := log.identity, LogPackets(parts, prebuffer, log), EndPieces(parts, log.ended);
    if |log.received| >= prebuffer {
      assert ps == RewriteAll(AsIs(parts.prefix) + VoicePieces(parts, log.received) + end, h, 0);
    } else {
      assert [] + end == end;
      if CutShort(parts, prebuffer, log) {
        assert end == [Piece(parts.suffix[0], parts.suffix[0].payload)];
        hide RewriteAll, AsIs, VoicePieces, EndPieces;
        EndCarriesNothing(parts, true, h, 0);
        if blocks: seq<Block>, ended: bool :|
          && blocks != []
          && ps == RewriteAll(AsIs(parts.prefix) + VoicePieces(parts, blocks) + EndPieces(parts, ended), h, 0)
        {
          ProperCarries(parts, h, blocks, ended);
        }
      } else {
        assert end == [];
      }
    }
  }

  lemma {:induction false} ProperCarries(parts: Parts, h: Identity, blocks: seq<Block>, ended: bool)
    requires PartsOk(parts) && IdentityOk(h)
    ensures VoiceBlocks(RewriteAll(AsIs(parts.prefix) + VoicePieces(parts, blocks) + EndPieces(parts, ended), h, 0))
              == blocks
  {
    LogCarries(parts, |blocks|, StreamLog(h, blocks, ended, []));
    hide RewriteAll, AsIs, VoicePieces, EndPieces, VoiceBlocks;
  }

  /** Of all streams, those that a silence finished before they filled their prebuffer are the ones without a header. */
  ghost predicate HeadlessExactly(parts: Parts, prebuffer: nat, logs: seq<StreamLog>, done: seq<seq<Block>>)
    requires PartsOk(parts) && IdentitiesOk(logs)
  {
    forall k :: 0 <= k < |logs| ==>
      (Proper(parts, logs[k].identity, LogPackets(parts, prebuffer, logs[k]))
       <==> !(k < |done| && |done[k]| < prebuffer && parts.suffix != []))
  }

  lemma {:induction false} HeadlessStreams(parts: Parts, prebuffer: nat, logs: seq<StreamLog>, s: Segments)
    requires PartsOk(parts) && IdentitiesOk(logs) && prebuffer >= 1 && ReceivedBy(logs) == Streams(s)
    requires forall k :: 0 <= k < |logs| ==> (logs[k].ended <==> k < |s.done| || |logs[k].received| >= prebuffer)
    ensures HeadlessExactly(parts, prebuffer, logs, s.done)
  {
    hide Proper, LogPackets;
    forall k | 0 <= k < |logs|
      ensures Proper(parts, logs[k].identity, LogPackets(parts, prebuffer, logs[k]))
              <==> !(k < |s.done| && |s.done[k]| < prebuffer && parts.suffix != [])
    {
      assert logs[k] in logs && ReceivedBy(logs)[k] == logs[k].received;
      HeadlessIff(parts, prebuffer, logs[k]);
    }
  }

  /** One audio datagram and one silence, with three blocks to prebuffer: a terminator is all that is sent. */
  lemma {:induction false} HeadlessExample(parts: Parts, data: seq<Byte>, h: Identity, hang: nat)
    requires PartsOk(parts) && parts.suffix != [] && IdentityOk(h) && |data| == AUDIO_DATAGRAM_BYTES
    ensures var cs := [Clocked(Some(data), 0, 0), Clocked(None, hang, hang)];
            SegmentAll(cs, Timing(0, 0, hang)) == Segments([[data[3..]]], [], 0)
    ensures var log := StreamLog(h, [data[3..]], true, []);
            && LogPackets(parts, 3, log) == [Rewritten(Piece(parts.suffix[0], parts.suffix[0].payload), h, 0)]
            && !Proper(parts, h, LogPackets(parts, 3, log))
  {
    var first, second, t := Clocked(Some(data), 0, 0), Clocked(None, hang, hang), Timing(0, 0, hang);
    assert [first, second][..1] == [first] && [first][..0] == [];
    assert SegmentAll([first], t) == Segment(SegmentAll([], t), first, t);
    assert [] + AudioOf(data) == [data[3..]];
    assert [] + [[data[3..]]] == [[data[3..]]];
    hide Proper, LogPackets;
    HeadlessIff(parts, 3, StreamLog(h, [data[3..]], true, []));
  }

  lemma {:induction false} TemplatesCarryNothing(ps: seq<ValidPacket>, h: Identity, start: int)
    requires IdentityOk(h) && forall p :: p in ps ==> !IsVoice(p)
    ensures VoiceBlocks(RewriteAll(AsIs(ps), h, start)) == []
  {
    TemplatesNoVoice(ps, h, start);
    assert |VoiceBlocks(RewriteAll(AsIs(ps), h, start))| == 0;
  }

  lemma {:induction false} EndCarriesNothing(parts: Parts, ended: bool, h: Identity, start: int)
    requires PartsOk(parts) && IdentityOk(h)
    ensures VoiceBlocks(RewriteAll(EndPieces(parts, ended), h, start)) == []
  {
    TemplatesCarryNothing(StreamBuilder.FirstOf(parts.suffix), h, start);
    TemplatesCarryNothing([], h, start);
    assert AsIs([]) == [];
  }

  /** What a stream puts on the wire is addressed as its own, and numbered from 0. */
  lemma {:induction false} LogIsAddressed(parts: Parts, prebuffer: nat, log: StreamLog)
    requires PartsOk(parts) && IdentityOk(log.identity)
    ensures var ps := LogPackets(parts, prebuffer, log);
            && (forall i :: 0 <= i < |ps| ==> Addressed(ps[i], log.identity) && ps[i].sequence == i % 256)
            && (forall p :: p in ps ==> Addressed(p, log.identity))
  {
    AllAddressed(LivePieces(parts, prebuffer, log.received) + EndPieces(parts, log.ended), log.identity, 0);
    hide RewriteAll, LivePieces, EndPieces, Addressed;
  }

  /** Every packet on the wire belongs to one of the streams, and is addressed as that stream's. */
  lemma {:induction false} WireIsAddressed(parts: Parts, prebuffer: nat, logs: seq<StreamLog>)
    requires PartsOk(parts) && IdentitiesOk(logs)
    ensures forall p :: p in Wire(parts, prebuffer, logs) ==> exists log :: log in logs && Addressed(p, log.identity)
  {
    if logs != [] {
      var n := |logs| - 1;
      WireIsAddressed(parts, prebuffer, logs[..n]);
      LogIsAddressed(parts, prebuffer, logs[n]);
      hide LogPackets, Addressed;
      assert forall log :: log in logs[..n] ==> log in logs;
    }
  }

  /** The wire carries, over all streams, exactly the blocks of those that filled their prebuffer. */
  lemma {:induction false} WireCarries(parts: Parts, prebuffer: nat, logs: seq<StreamLog>)
    requires PartsOk(parts) && IdentitiesOk(logs)
    ensures VoiceBlocks(Wire(parts, prebuffer, logs)) == SentIn(prebuffer, logs)
    ensures VoiceIn(Wire(parts, prebuffer, logs)) == ForwardedIn(prebuffer, logs)
  {
    if logs != [] {
      var n := |logs| - 1;
      WireCarries(parts, prebuffer, logs[..n]);
      LogCarries(parts, prebuffer, logs[n]);
      hide LogPackets, VoiceBlocks, VoiceIn, ForwardedIn;
      VoiceBlocksConcat(Wire(parts, prebuffer, logs[..n]), LogPackets(parts, prebuffer, logs[n]));
    }
  }
}
