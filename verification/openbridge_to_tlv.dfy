/** The loop from OpenBridge to Analog_Bridge, and audio carried all the way round. */
module OpenBridgeToTlv {
  import opened Bytes
  import opened Sequences
  import opened Wrappers
  import opened Ambe
  import opened Dmrd
  import opened Analyzer
  import opened Tlv
  import opened BridgePacing
  import Builder = StreamBuilder
  import opened BridgeRuntime
  import opened BridgeSegments

  /**
   What recv_packet returned, and the framing in force when a start datagram and when anything else is built for it.
   */
  datatype Arrival = Arrival(packet: Option<ValidPacket>, startFormat: Format, format: Format)

  datatype Sent = StartSent(data: seq<Byte>) | AudioSent(data: seq<Byte>) | EndSent(data: seq<Byte>)

  datatype Relay = Relay(active: Option<int>, sent: seq<Sent>)

  function StartOf(format: Format): seq<Sent> {
    if format.startDatagram.Some? then [StartSent(format.startDatagram.value)] else []
  }

  /** Voice is framed and passed on, behind a start datagram if its stream is new; a stream end is passed on as such. */
  function RelayOne(r: Relay, a: Arrival): Relay {
    if a.packet.None? then r
    else
      var p := a.packet.value;
      if IsVoice(p) then
        Relay(Some(p.streamId),
              r.sent + (if r.active == Some(p.streamId) then [] else StartOf(a.startFormat))
              + [AudioSent(Framed(a.format, ExtractBlock(p.payload)))])
      else if IsPossibleStreamEnd(p) then
        Relay(if r.active == Some(p.streamId) then None else r.active, r.sent + [EndSent(a.format.endDatagram)])
      else r
  }

  function RelayAll(r: Relay, arrivals: seq<Arrival>): Relay {
    if arrivals == [] then r else RelayOne(RelayAll(r, arrivals[..|arrivals| - 1]), arrivals[|arrivals| - 1])
  }

  class OpenBridgeRelay {
    const pacer: Pacer
    const packetMillis: nat
    var activeStream: Option<int>
    var packetsReceived: nat
    var streamsFromOpenbridge: nat
    var voiceToAnalog: nat
    var datagramsSent: nat
    ghost var sent: seq<Sent>

    ghost function Abs(): Relay
      reads this
    {
      Relay(activeStream, sent)
    }

    ghost predicate Valid()
      reads this, pacer
    {
      pacer.Valid() && pacer.interval == IntervalOf(packetMillis) && datagramsSent == |sent|
    }

    constructor (pacer: Pacer, packetMillis: nat)
      requires pacer.Valid() && pacer.interval == IntervalOf(packetMillis)
      ensures Valid() && Abs() == Relay(None, []) && this.pacer == pacer && this.packetMillis == packetMillis
      ensures packetsReceived == streamsFromOpenbridge == voiceToAnalog == 0
    {
      this.pacer, this.packetMillis, activeStream, sent := pacer, packetMillis, None, [];
      packetsReceived, streamsFromOpenbridge, voiceToAnalog, datagramsSent := 0, 0, 0, 0;
    }

    method OpenStream(stream: int, format: Format)
      requires Valid() && activeStream != Some(stream)
      modifies this, pacer
      ensures Valid() && activeStream == Some(stream) && sent == old(sent) + StartOf(format) && pacer.releases == []
      ensures voiceToAnalog == old(voiceToAnalog) && packetsReceived == old(packetsReceived)
      ensures streamsFromOpenbridge == old(streamsFromOpenbridge) + 1
    {
      activeStream := Some(stream);
      streamsFromOpenbridge := streamsFromOpenbridge + 1;
      pacer.Reset();
      if format.startDatagram.Some? {
        sent, datagramsSent := sent + [StartSent(format.startDatagram.value)], datagramsSent + 1;
      }
    }

    method HandleVoice(p: ValidPacket, startFormat: Format, format: Format)
      requires Valid() && IsVoice(p)
      modifies this, pacer
      ensures Valid() && Abs() == RelayOne(old(Abs()), Arrival(Some(p), startFormat, format))
      ensures voiceToAnalog == old(voiceToAnalog) + 1 && packetsReceived == old(packetsReceived)
      ensures streamsFromOpenbridge
              == old(streamsFromOpenbridge) + if old(activeStream) == Some(p.streamId) then 0 else 1
      ensures old(activeStream) == Some(p.streamId) ==> |pacer.releases| == |old(pacer.releases)| + 1
      ensures old(activeStream) != Some(p.streamId) ==> |pacer.releases| == 1
      ensures forall i, j :: 0 <= i < j < |pacer.releases| ==>
                pacer.releases[j] - pacer.releases[i] >= (j - i) * (1000 * packetMillis)
    {
      hide PaceOk, ExtractBlock, Framed, IntervalOf;
      if activeStream != Some(p.streamId) {
        OpenStream(p.streamId, startFormat);
      }
      var frames := ExtractFrames(p.payload);
      var block := Flat(frames.value);
      pacer.PaceInterval();
      sent, datagramsSent := sent + [AudioSent(Framed(format, block))], datagramsSent + 1;
      voiceToAnalog := voiceToAnalog + 1;
      PacedByPackets(pacer.releases, pacer.nextAt, packetMillis);
    }

    /** The loop, over what recv_packet returns until stop. */
    method Loop(arrivals: seq<Arrival>)
      requires Valid()
      modifies this, pacer
      ensures Valid() && Abs() == RelayAll(old(Abs()), arrivals)
      ensures voiceToAnalog == old(voiceToAnalog) + VoiceIn(Packets(arrivals))
      ensures packetsReceived == old(packetsReceived) + |Packets(arrivals)|
    {
      hide PaceOk, ExtractBlock, Framed, VoiceIn, Packets, RelayAll, IntervalOf;
      ghost var start := Abs();
      NoArrivals(start);
      for i := 0 to |arrivals|
        invariant Valid() && Abs() == RelayAll(start, arrivals[..i])
        invariant voiceToAnalog == old(voiceToAnalog) + VoiceIn(Packets(arrivals[..i]))
        invariant packetsReceived == old(packetsReceived) + |Packets(arrivals[..i])|
      {
        OneMoreArrival(start, arrivals, i);
        var a := arrivals[i];
        if a.packet.Some? {
          packetsReceived := packetsReceived + 1;
          if IsVoice(a.packet.value) {
            HandleVoice(a.packet.value, a.startFormat, a.format);
          } else if IsPossibleStreamEnd(a.packet.value) {
            sent, datagramsSent := sent + [EndSent(a.format.endDatagram)], datagramsSent + 1;
            if activeStream == Some(a.packet.value.streamId) {
              activeStream := None;
            }
          }
        }
      }
      assert arrivals[..|arrivals|] == arrivals;
    }
  }

  // ----- nothing lost -------------------------------------------------------------------------

  function Packets(arrivals: seq<Arrival>): seq<ValidPacket> {
    if arrivals == [] then []
    else
      var before, last := Packets(arrivals[..|arrivals| - 1]), arrivals[|arrivals| - 1];
      if last.packet.Some? then before + [last.packet.value] else before
  }

  lemma NoArrivals(r: Relay)
    ensures RelayAll(r, []) == r && VoiceIn(Packets([])) == 0
    ensures Packets([]) == []
  {
  }

  lemma {:induction false} OneMoreArrival(r: Relay, arrivals: seq<Arrival>, i: nat)
    requires i < |arrivals|
    ensures RelayAll(r, arrivals[..i + 1]) == RelayOne(RelayAll(r, arrivals[..i]), arrivals[i])
    ensures VoiceIn(Packets(arrivals[..i + 1]))
            == VoiceIn(Packets(arrivals[..i]))
               + if arrivals[i].packet.Some? && IsVoice(arrivals[i].packet.value) then 1 else 0
    ensures |Packets(arrivals[..i + 1])| == |Packets(arrivals[..i])| + if arrivals[i].packet.Some? then 1 else 0
  {
    assert arrivals[..i + 1][..i] == arrivals[..i];
    hide RelayOne;
    var before := Packets(arrivals[..i]);
    if arrivals[i].packet.Some? {
      assert (before + [arrivals[i].packet.value])[..|before|] == before;
    }
  }

  /** The datagrams sent as audio. */
  function AudioSentIn(sent: seq<Sent>): seq<seq<Byte>> {
    if sent == [] then []
    else
      var before, last := AudioSentIn(sent[..|sent| - 1]), sent[|sent| - 1];
      if last.AudioSent? then before + [last.data] else before
  }

  function Datas(sent: seq<Sent>): seq<seq<Byte>> {
    if sent == [] then [] else Datas(sent[..|sent| - 1]) + [sent[|sent| - 1].data]
  }

  lemma {:induction false} OneMoreSent(sent: seq<Sent>, s: Sent)
    ensures AudioSentIn(sent + [s]) == if s.AudioSent? then AudioSentIn(sent) + [s.data] else AudioSentIn(sent)
    ensures Datas(sent + [s]) == Datas(sent) + [s.data]
    ensures AudioBlocks(Datas(sent + [s])) == AudioBlocks(Datas(sent)) + AudioOf(s.data)
  {
    hide AudioOf;
    assert (sent + [s])[..|sent|] == sent;
    DatagramAudio(Datas(sent), s.data);
  }

  /** No start or end datagram sent is so long that it would be taken for audio. */
  ghost predicate ControlIsShort(sent: seq<Sent>) {
    forall s :: s in sent ==> s.AudioSent? || |s.data| <= BLOCK_BYTES
  }

  /** Read back blindly, the datagrams yield the audio sent and one bogus block for every overlong control datagram. */
  lemma {:induction false} BogusBlocks(sent: seq<Sent>)
    ensures |AudioBlocks(Datas(sent))| >= |AudioBlocks(AudioSentIn(sent))|
    ensures |AudioBlocks(Datas(sent))| == |AudioBlocks(AudioSentIn(sent))| <==> ControlIsShort(sent)
    ensures ControlIsShort(sent) ==> AudioBlocks(Datas(sent)) == AudioBlocks(AudioSentIn(sent))
  {
    if sent != [] {
      var n, last := |sent| - 1, sent[|sent| - 1];
      hide ControlIsShort, AudioBlocks, AudioSentIn, Datas;
      BogusBlocks(sent[..n]);
      SplitLast(sent);
      ShortGrows(sent[..n], last);
      OneMoreSent(sent[..n], last);
      DatagramAudio(AudioSentIn(sent[..n]), last.data);
    }
  }

  lemma {:induction false} ShortGrows(sent: seq<Sent>, last: Sent)
    ensures ControlIsShort(sent + [last]) <==> ControlIsShort(sent) && (last.AudioSent? || |last.data| <= BLOCK_BYTES)
  {
    assert forall s :: s in sent + [last] <==> s in sent || s == last;
  }

  /** One arrival adds its voice block, if it has one, to the audio sent. */
  lemma {:induction false} RelayStep(r: Relay, a: Arrival)
    ensures AudioBlocks(AudioSentIn(RelayOne(r, a).sent))
            == if a.packet.Some? && IsVoice(a.packet.value)
              then AudioBlocks(AudioSentIn(r.sent)) + [ExtractBlock(a.packet.value.payload)]
               else AudioBlocks(AudioSentIn(r.sent))
  {
    hide ExtractBlock, AudioSentIn, Datas, AudioBlocks, Framed;
    if a.packet.Some? {
      var p, f := a.packet.value, a.format;
      if IsVoice(p) {
        var started := r.sent + (if r.active == Some(p.streamId) then [] else StartOf(a.startFormat));
        StartAddsNothing(r.sent, a.startFormat, started);
        var block := ExtractBlock(p.payload);
        FramedIsRead(f, block);
        hide AudioOf;
        OneMoreSent(started, AudioSent(Framed(f, block)));
        DatagramAudio(AudioSentIn(started), Framed(f, block));
      } else if IsPossibleStreamEnd(p) {
        OneMoreSent(r.sent, EndSent(f.endDatagram));
      }
    }
  }

  lemma StartAddsNothing(sent: seq<Sent>, format: Format, started: seq<Sent>)
    requires started == sent || started == sent + StartOf(format)
    ensures AudioSentIn(started) == AudioSentIn(sent)
  {
    hide AudioSentIn, Datas, AudioBlocks;
    if format.startDatagram.Some? {
      OneMoreSent(sent, StartSent(format.startDatagram.value));
    } else {
      assert sent + [] == sent;
    }
  }

  /** Whatever framing is in force from moment to moment, the audio sent reads back as the voice received, in order. */
  lemma {:induction false} RelayCarries(arrivals: seq<Arrival>)
    ensures AudioBlocks(AudioSentIn(RelayAll(Relay(None, []), arrivals).sent)) == VoiceBlocks(Packets(arrivals))
  {
    if arrivals != [] {
      var n := |arrivals| - 1;
      RelayCarries(arrivals[..n]);
      RelayStep(RelayAll(Relay(None, []), arrivals[..n]), arrivals[n]);
      hide RelayOne, ExtractBlock, AudioBlocks;
      if arrivals[n].packet.Some? {
        var ps, p := Packets(arrivals[..n]), arrivals[n].packet.value;
        assert (ps + [p])[..|ps|] == ps;
      }
    }
  }

  /**
   Round the loop: OpenBridge voice relayed as TLV, with nothing known of which datagrams are control, and put back
   into an OpenBridge stream is the same voice, block for block, exactly when no control datagram was overlong.
   */
  lemma {:induction false} AudioSurvives(arrivals: seq<Arrival>, parts: Builder.Parts, h: Builder.Identity, start: int)
    requires Builder.PartsOk(parts) && Builder.IdentityOk(h)
    ensures var sent := RelayAll(Relay(None, []), arrivals).sent;
            var blocks := AudioBlocks(Datas(sent));
            var rebuilt := Builder.Stream(parts, h, start, blocks);
            && (VoiceBlocks(rebuilt) == VoiceBlocks(Packets(arrivals)) <==> ControlIsShort(sent))
            && Gaps(rebuilt) == []
            && forall k :: 0 <= k < |blocks| ==>
                 && |parts.prefix| + k < |rebuilt|
                 && ExtractCenter(rebuilt[|parts.prefix| + k].payload)
                   == ExtractCenter(parts.voice[k % |parts.voice|].payload)
  {
    RelayCarries(arrivals);
    var sent := RelayAll(Relay(None, []), arrivals).sent;
    BogusBlocks(sent);
    hide Packets, RelayAll, Datas, AudioBlocks, ControlIsShort, VoiceBlocks, Gaps, ExtractCenter, Builder.Stream;
    Builder.StreamIsFaithful(parts, h, start, AudioBlocks(Datas(sent)));
    StreamCarries(parts, h, start, AudioBlocks(Datas(sent)));
  }

  /** The first packet of a stream: its start datagram, if one is known, and its audio. */
  lemma {:induction false} FirstVoice(p: ValidPacket, f: Format)
    requires IsVoice(p)
    ensures RelayAll(Relay(None, []), [Arrival(Some(p), f, f)]).sent
              == StartOf(f) + [AudioSent(Framed(f, ExtractBlock(p.payload)))]
  {
    hide ExtractBlock, Framed, StartOf;
    var a := Arrival(Some(p), f, f);
    assert [a][..0] == [];
    assert [] + StartOf(f) == StartOf(f);
    assert RelayAll(Relay(None, []), [a]) == RelayOne(Relay(None, []), a);
  }

  lemma {:induction false} ReadBack(control: seq<Byte>, f: Format, block: Block)
    requires |control| == 28
    ensures AudioBlocks(Datas([StartSent(control), AudioSent(Framed(f, block))])) == [control[1..], block]
  {
    var start, voice := StartSent(control), AudioSent(Framed(f, block));
    FramedIsRead(f, block);
    hide Framed, Datas, AudioBlocks;
    NothingRead();
    OneMoreSent([], start);
    OneMoreSent([start], voice);
    assert [] + [start] == [start] && [start] + [voice] == [start, voice];
    assert [] + [control[1..]] == [control[1..]];
  }

  /**
   A control datagram of 28 bytes, learned as the start datagram from two datagrams of live traffic: sent ahead of one
   voice packet, it comes back as a second block.
   */
  lemma {:induction false} OverlongStartExample(control: seq<Byte>, audio: seq<Byte>, p: ValidPacket)
    requires |control| == 28 && |audio| == AUDIO_DATAGRAM_BYTES && IsVoice(p)
    ensures var f := LearnAll([control, audio], DefaultFormat()).format;
            && f.startDatagram == Some(control)
            && var sent := RelayAll(Relay(None, []), [Arrival(Some(p), f, f)]).sent;
               !ControlIsShort(sent) && AudioBlocks(Datas(sent)) == [control[1..], ExtractBlock(p.payload)]
  {
    StartIsLearned(control, audio);
    var f := LearnAll([control, audio], DefaultFormat()).format;
    var block := ExtractBlock(p.payload);
    hide ExtractBlock, RelayAll, LearnAll, Framed, Datas, AudioBlocks;
    FirstVoice(p, f);
    ReadBack(control, f, block);
    var start, voice := StartSent(control), AudioSent(Framed(f, block));
    assert [start] + [voice] == [start, voice] && start in [start, voice];
  }

  lemma NothingRead()
    ensures AudioBlocks(Datas([])) == []
  {
  }

  lemma StreamCarries(parts: Builder.Parts, h: Builder.Identity, start: int, blocks: seq<Block>)
    requires Builder.PartsOk(parts) && Builder.IdentityOk(h)
    ensures VoiceBlocks(Builder.Stream(parts, h, start, blocks)) == blocks
  {
    hide Builder.RewriteAll, Builder.VoicePieces, Builder.AsIs, VoiceBlocks;
    var pre, voice, end := Builder.AsIs(parts.prefix), Builder.VoicePieces(parts, blocks), EndPieces(parts, true);
    TemplatesCarryNothing(parts.prefix, h, start);
    EndCarriesNothing(parts, true, h, start + |pre + voice|);
    VoiceCarriesBlocks(parts, blocks, h, start + |pre|);
    Builder.RewriteConcat(pre, voice, h, start);
    Builder.RewriteConcat(pre + voice, end, h, start);
    VoiceBlocksConcat(Builder.RewriteAll(pre, h, start), Builder.RewriteAll(voice, h, start + |pre|));
    VoiceBlocksConcat(Builder.RewriteAll(pre + voice, h, start), Builder.RewriteAll(end, h, start + |pre + voice|));
  }

  // ----- what exactly is relayed --------------------------------------------------------------------

  predicate VoiceAt(a: Arrival) { a.packet.Some? && IsVoice(a.packet.value) }

  predicate EndAt(a: Arrival) { a.packet.Some? && !IsVoice(a.packet.value) && IsPossibleStreamEnd(a.packet.value) }

  /** Arrival `j` is voice of a stream that nothing after it has ended or replaced. */
  ghost predicate GoesOn(arrivals: seq<Arrival>, j: nat, stream: int)
    requires j < |arrivals|
  {
    && VoiceAt(arrivals[j]) && arrivals[j].packet.value.streamId == stream
    && forall k :: j < k < |arrivals| ==>
         && (VoiceAt(arrivals[k]) ==> arrivals[k].packet.value.streamId == stream)
         && (EndAt(arrivals[k]) ==> arrivals[k].packet.value.streamId != stream)
  }

  /** Voice of a stream is new unless earlier voice of it still goes on. */
  ghost predicate IsNew(before: seq<Arrival>, stream: int) {
    forall j :: 0 <= j < |before| ==> !GoesOn(before, j, stream)
  }

  /** New voice is announced if a start datagram is known; all voice is framed; a stream end is passed on. */
  ghost function Emits(before: seq<Arrival>, a: Arrival): seq<Sent> {
    if VoiceAt(a) then
      (if IsNew(before, a.packet.value.streamId) && a.startFormat.startDatagram.Some?
       then [StartSent(a.startFormat.startDatagram.value)] else [])
      + [AudioSent(a.format.audioHeader + ExtractBlock(a.packet.value.payload))]
    else if EndAt(a) then [EndSent(a.format.endDatagram)]
    else []
  }

  ghost function Emitted(arrivals: seq<Arrival>): seq<Sent> {
    if arrivals == [] then []
    else
      var n := |arrivals| - 1;
      Emitted(arrivals[..n]) + Emits(arrivals[..n], arrivals[n])
  }

  lemma {:induction false} GoesOnGrows(arrivals: seq<Arrival>, j: nat, stream: int)
    requires j < |arrivals| - 1
    ensures var n, a := |arrivals| - 1, arrivals[|arrivals| - 1];
            GoesOn(arrivals, j, stream) <==>
            && GoesOn(arrivals[..n], j, stream)
            && (VoiceAt(a) ==> a.packet.value.streamId == stream) && (EndAt(a) ==> a.packet.value.streamId != stream)
  {
    var n := |arrivals| - 1;
    hide VoiceAt, EndAt;
    assert forall k :: 0 <= k < n ==> arrivals[..n][k] == arrivals[k];
  }

  /** The stream the relay takes for active is the one whose voice goes on. */
  lemma {:induction false} ActiveGoesOn(arrivals: seq<Arrival>, stream: int)
    ensures RelayAll(Relay(None, []), arrivals).active == Some(stream) <==> !IsNew(arrivals, stream)
  {
    if arrivals != [] {
      var n, a := |arrivals| - 1, arrivals[|arrivals| - 1];
      ActiveGoesOn(arrivals[..n], stream);
      ActiveStep(RelayAll(Relay(None, []), arrivals[..n]), a);
      hide RelayAll, RelayOne;
      NewStep(arrivals, stream);
    }
  }

  lemma ActiveStep(r: Relay, a: Arrival)
    ensures RelayOne(r, a).active
            == if VoiceAt(a) then Some(a.packet.value.streamId)
               else if EndAt(a) && r.active == Some(a.packet.value.streamId) then None
               else r.active
  {
    hide ExtractBlock, Framed;
  }

  lemma {:induction false} NewStep(arrivals: seq<Arrival>, stream: int)
    requires arrivals != []
    ensures var n, a := |arrivals| - 1, arrivals[|arrivals| - 1];
            IsNew(arrivals, stream) <==>
            if VoiceAt(a) then a.packet.value.streamId != stream
            else IsNew(arrivals[..n], stream) || (EndAt(a) && a.packet.value.streamId == stream)
  {
    var n, a := |arrivals| - 1, arrivals[|arrivals| - 1];
    forall j | 0 <= j < n
      ensures GoesOn(arrivals, j, stream) <==>
              && GoesOn(arrivals[..n], j, stream)
              && (VoiceAt(a) ==> a.packet.value.streamId == stream) && (EndAt(a) ==> a.packet.value.streamId != stream)
    {
      GoesOnGrows(arrivals, j, stream);
    }
    if VoiceAt(a) && a.packet.value.streamId == stream { assert GoesOn(arrivals, n, stream); }
    if j :| 0 <= j < n && GoesOn(arrivals[..n], j, stream) {
      assert GoesOn(arrivals, j, stream) <==>
             (VoiceAt(a) ==> a.packet.value.streamId == stream) && (EndAt(a) ==> a.packet.value.streamId != stream);
    }
    assert !VoiceAt(a) ==> !GoesOn(arrivals, n, stream);
  }

  /** Over any arrivals: which datagrams go to Analog_Bridge, and in which order. */
  lemma {:induction false} RelaysExactly(arrivals: seq<Arrival>)
    ensures RelayAll(Relay(None, []), arrivals).sent == Emitted(arrivals)
  {
    if arrivals != [] {
      var n, a := |arrivals| - 1, arrivals[|arrivals| - 1];
      RelaysExactly(arrivals[..n]);
      var r := RelayAll(Relay(None, []), arrivals[..n]);
      if VoiceAt(a) { ActiveGoesOn(arrivals[..n], a.packet.value.streamId); }
      hide RelayAll, IsNew, ExtractBlock;
      assert RelayAll(Relay(None, []), arrivals) == RelayOne(r, a) by { Unrolled(arrivals); }
      assert RelayOne(r, a).sent == r.sent + Emits(arrivals[..n], a);
    }
  }

  lemma Unrolled(arrivals: seq<Arrival>)
    requires arrivals != []
    ensures RelayAll(Relay(None, []), arrivals)
            == RelayOne(RelayAll(Relay(None, []), arrivals[..|arrivals| - 1]), arrivals[|arrivals| - 1])
  {
    hide RelayOne;
  }
}
