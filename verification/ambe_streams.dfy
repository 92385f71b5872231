/** AMBE frames out of a capture in which several streams may be interleaved. */
module AmbeStreams {
  import opened Bytes
  import opened Sequences
  import opened Wrappers
  import opened Ambe
  import opened Dmrd
  import opened Analyzer

  datatype Ambe72Frame = Ambe72Frame(
    streamId: int, packetSequence: int, packetFrameType: int, packetDtype: int,
    packetIndex: nat, indexInPacket: nat, indexInStream: nat, data: seq<Byte>)

  /** Voice packets of one stream. */
  function VoiceCount(ps: seq<Packet>, stream: int): nat {
    if ps == [] then 0
    else
      var last := ps[|ps| - 1];
      VoiceCount(ps[..|ps| - 1], stream) + if IsVoice(last) && last.streamId == stream then 1 else 0
  }

  function FrameOf(p: ValidPacket, packetIndex: nat, j: nat, indexInStream: nat): Ambe72Frame
    requires j < 3
  {
    Ambe72Frame(p.streamId, p.sequence, p.frameType, p.dtypeVseq, packetIndex, j, indexInStream,
                ExtractBlock(p.payload)[9 * j..9 * j + 9])
  }

  function PacketFrames(p: ValidPacket, n: nat, first: nat): seq<Ambe72Frame> {
    [FrameOf(p, n, 0, first), FrameOf(p, n, 1, first + 1), FrameOf(p, n, 2, first + 2)]
  }

  /** Three frames for every voice packet, in packet order. */
  function AllFrames(ps: seq<ValidPacket>): seq<Ambe72Frame> {
    if ps == [] then []
    else
      var n, last := |ps| - 1, ps[|ps| - 1];
      var first := 3 * VoiceCount(ps[..n], last.streamId);
      if IsVoice(last) then AllFrames(ps[..n]) + PacketFrames(last, n, first) else AllFrames(ps[..n])
  }

  function Count(counters: map<int, nat>, stream: int): nat { if stream in counters then counters[stream] else 0 }

  lemma {:induction false} JoinedParts(frames: seq<seq<Byte>>, block: seq<Byte>, j: nat)
    requires |frames| == 3 && (forall f :: f in frames ==> |f| == BYTES_PER_FRAME) && Flat(frames) == block && j < 3
    ensures |block| == 27 && block[9 * j..9 * j + 9] == frames[j]
  {
    JoinThree(frames);
    hide Flat;
    assert |frames[0]| == 9 && |frames[1]| == 9 && |frames[2]| == 9;
  }

  method ExtractFromPackets(packets: seq<ValidPacket>) returns (frames: seq<Ambe72Frame>)
    ensures frames == AllFrames(packets)
  {
    hide ExtractBlock, Flat;
    frames := [];
    var counters: map<int, nat> := map[];
    for i := 0 to |packets|
      invariant frames == AllFrames(packets[..i])
      invariant forall stream :: Count(counters, stream) == 3 * VoiceCount(packets[..i], stream)
    {
      var pkt := packets[i];
      assert packets[..i + 1][..i] == packets[..i];
      if IsVoice(pkt) {
        var next := Count(counters, pkt.streamId);
        frames, next := AppendFrames(frames, pkt, i, next);
        counters := counters[pkt.streamId := next];
      }
    }
    assert packets[..|packets|] == packets;
  }

  method AppendFrames(frames: seq<Ambe72Frame>, pkt: ValidPacket, packetIndex: nat, first: nat)
    returns (r: seq<Ambe72Frame>, next: nat)
    ensures r == frames + PacketFrames(pkt, packetIndex, first)
    ensures next == first + 3
  {
    var parts := ExtractFrames(pkt.payload);
    ghost var three := PacketFrames(pkt, packetIndex, first);
    hide ExtractBlock, Flat;
    r, next := frames, first;
    for j := 0 to 3
      invariant next == first + j && r == frames + three[..j]
    {
      assert three[j] == FrameOf(pkt, packetIndex, j, first + j) && three[..j + 1] == three[..j] + [three[j]];
      JoinedParts(parts.value, ExtractBlock(pkt.payload), j);
      r := r + [Ambe72Frame(pkt.streamId, pkt.sequence, pkt.frameType, pkt.dtypeVseq, packetIndex, j, next,
                            parts.value[j])];
      next := next + 1;
    }
    assert three[..3] == three;
  }

  // ----- per-stream numbering -------------------------------------------------------------

  function OfStream(frames: seq<Ambe72Frame>, stream: int): seq<Ambe72Frame> {
    if frames == [] then []
    else
      var n := |frames| - 1;
      OfStream(frames[..n], stream) + if frames[n].streamId == stream then [frames[n]] else []
  }

  /** The voice blocks of one stream, end to end. */
  function StreamAudio(ps: seq<ValidPacket>, stream: int): seq<Byte> {
    if ps == [] then []
    else
      var last := ps[|ps| - 1];
      var before := StreamAudio(ps[..|ps| - 1], stream);
      if IsVoice(last) && last.streamId == stream then before + ExtractBlock(last.payload) else before
  }

  function Audio(frames: seq<Ambe72Frame>): seq<Byte> {
    if frames == [] then [] else Audio(frames[..|frames| - 1]) + frames[|frames| - 1].data
  }

  lemma OneMore(frames: seq<Ambe72Frame>, f: Ambe72Frame, stream: int)
    ensures OfStream(frames + [f], stream) == OfStream(frames, stream) + (if f.streamId == stream then [f] else [])
    ensures Audio(frames + [f]) == Audio(frames) + f.data
  {
    assert (frames + [f])[..|frames|] == frames;
  }

  lemma ThreeMore(frames: seq<Ambe72Frame>, a: Ambe72Frame, b: Ambe72Frame, c: Ambe72Frame, stream: int)
    requires a.streamId == b.streamId == c.streamId
    ensures OfStream(frames + [a, b, c], stream)
            == if a.streamId == stream then OfStream(frames, stream) + [a, b, c] else OfStream(frames, stream)
    ensures Audio(frames + [a, b, c]) == Audio(frames) + a.data + b.data + c.data
  {
    OneMore(frames, a, stream);
    OneMore(frames + [a], b, stream);
    OneMore(frames + [a] + [b], c, stream);
    hide OfStream, Audio;
    assert frames + [a, b, c] == frames + [a] + [b] + [c];
  }

  ghost predicate Numbered(frames: seq<Ambe72Frame>) {
    forall k :: 0 <= k < |frames| ==> frames[k].indexInStream == k
  }

  lemma PacketFramesAre(p: ValidPacket, n: nat, first: nat)
    ensures var fs := PacketFrames(p, n, first);
            && |fs| == 3
            && (forall j :: 0 <= j < 3 ==> fs[j].streamId == p.streamId && fs[j].indexInStream == first + j)
            && fs[0].data + fs[1].data + fs[2].data == ExtractBlock(p.payload)
  {
    hide ExtractBlock;
  }

  /** One more voice packet, seen by any stream. */
  lemma {:induction false} PacketNumbered(frames: seq<Ambe72Frame>, p: ValidPacket, n: nat, first: nat, stream: int)
    requires Numbered(OfStream(frames, stream))
    requires p.streamId == stream ==> first == |OfStream(frames, stream)|
    ensures var before, after := OfStream(frames, stream), OfStream(frames + PacketFrames(p, n, first), stream);
            && Numbered(after)
            && |after| == |before| + (if p.streamId == stream then 3 else 0)
            && Audio(after) == if p.streamId == stream then Audio(before) + ExtractBlock(p.payload) else Audio(before)
  {
    var fs := PacketFrames(p, n, first);
    PacketFramesAre(p, n, first);
    hide ExtractBlock, FrameOf, PacketFrames, OfStream, Audio;
    assert fs == [fs[0], fs[1], fs[2]];
    ThreeMore(frames, fs[0], fs[1], fs[2], stream);
    ThreeMore(OfStream(frames, stream), fs[0], fs[1], fs[2], stream);
    assert Audio(OfStream(frames, stream)) + (fs[0].data + fs[1].data + fs[2].data)
        == Audio(OfStream(frames, stream)) + fs[0].data + fs[1].data + fs[2].data;
  }

  /** Frame `f` is one of the three that a voice packet holds, and says which packet and what its signalling was. */
  ghost predicate ComesFrom(f: Ambe72Frame, ps: seq<ValidPacket>) {
    && f.packetIndex < |ps| && f.indexInPacket < 3
    && var p := ps[f.packetIndex];
       && IsVoice(p) && f.streamId == p.streamId && f.packetSequence == p.sequence
       && f.packetFrameType == p.frameType && f.packetDtype == p.dtypeVseq
       && f.data == ExtractBlock(p.payload)[9 * f.indexInPacket..9 * f.indexInPacket + 9]
  }

  ghost predicate Before(f: Ambe72Frame, g: Ambe72Frame) {
    f.packetIndex < g.packetIndex || (f.packetIndex == g.packetIndex && f.indexInPacket < g.indexInPacket)
  }

  lemma {:induction false} StillComesFrom(f: Ambe72Frame, ps: seq<ValidPacket>, n: nat)
    requires n <= |ps| && ComesFrom(f, ps[..n])
    ensures ComesFrom(f, ps) && f.packetIndex < n
  {
    hide ExtractBlock, IsVoice;
  }

  /** Every frame of a capture comes from the packet it names, in the order of packets and of frames in them. */
  lemma {:induction false} FramesComeFrom(ps: seq<ValidPacket>)
    ensures forall k :: 0 <= k < |AllFrames(ps)| ==> ComesFrom(AllFrames(ps)[k], ps)
    ensures forall j, k :: 0 <= j < k < |AllFrames(ps)| ==> Before(AllFrames(ps)[j], AllFrames(ps)[k])
  {
    if ps != [] {
      var n := |ps| - 1;
      var before := AllFrames(ps[..n]);
      FramesComeFrom(ps[..n]);
      forall k | 0 <= k < |before| ensures ComesFrom(before[k], ps) && before[k].packetIndex < n {
        StillComesFrom(before[k], ps, n);
      }
      hide ExtractBlock;
      if IsVoice(ps[n]) {
        var fs := PacketFrames(ps[n], n, 3 * VoiceCount(ps[..n], ps[n].streamId));
        assert forall j :: 0 <= j < 3 ==> ComesFrom(fs[j], ps) && fs[j].packetIndex == n && fs[j].indexInPacket == j;
        hide ComesFrom, PacketFrames, FrameOf, VoiceCount;
        assert AllFrames(ps) == before + fs;
      } else {
        assert AllFrames(ps) == before;
      }
    }
  }

  /** However streams interleave, each one's frames are numbered 0, 1, 2, ... and carry exactly its audio, in order. */
  lemma {:induction false} StreamsNumbered(ps: seq<ValidPacket>, stream: int)
    ensures var mine := OfStream(AllFrames(ps), stream);
            && |mine| == 3 * VoiceCount(ps, stream)
            && Numbered(mine)
            && Audio(mine) == StreamAudio(ps, stream)
  {
    if ps != [] {
      hide ExtractBlock, OfStream, Audio, FrameOf, PacketFrames, Numbered;
      var n, last := |ps| - 1, ps[|ps| - 1];
      StreamsNumbered(ps[..n], stream);
      if IsVoice(last) {
        PacketNumbered(AllFrames(ps[..n]), last, n, 3 * VoiceCount(ps[..n], last.streamId), stream);
      }
    }
  }
}
