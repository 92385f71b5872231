/** The conference service in place: peers are shared mutable objects, filed in two dictionaries. */
module ConferenceService {
  import opened Bytes
  import opened Sequences
  import opened Wrappers
  import opened ConferenceRoom
  import opened Session
  import Usrp = UsrpService
  import UM = UsrpMachine
  import US = UsrpSafety

  const PACKET_PCM_BYTES: nat := 1280
  const RTP_MODULUS: nat := 0x1_0000

  /** An outgoing RTP packet, by the PCM it encodes: four 20 ms frames. */
  datatype RtpAudio = RtpAudio(sequence: nat, pcm: seq<Byte>)

  /** Whose audio the gateway carries, as far as the router knows. */
  datatype GatewaySource = GatewaySource(id: Option<int>, callsign: Option<string>)

  /** What `_connect_or_update_peer` returns or raises. */
  datatype ConnectResult = Connected(peer: EchoLinkPeer) | PermissionError | RosterError

  function PcmOf(packets: seq<RtpAudio>): seq<Byte> {
    if packets == [] then [] else PcmOf(packets[..|packets| - 1]) + packets[|packets| - 1].pcm
  }

  class EchoLinkPeer {
    var pendingPcm: seq<Byte>
    var rtpSequence: nat
    ghost var heard: seq<Frame>
    ghost var rtpSent: seq<RtpAudio>

    constructor ()
      ensures AudioOk() && heard == []
    {
      pendingPcm, rtpSequence := [], 0;
      heard, rtpSent := [], [];
    }

    /**
     What was packetised, then what is pending, is exactly what was heard; packets are whole and consecutively
     numbered.
     */
    ghost predicate StreamOk()
      reads this
    {
      PcmOf(rtpSent) + pendingPcm == Flat(heard) && PacketsOk(rtpSent, rtpSequence)
    }

    ghost predicate AudioOk()
      reads this
    {
      StreamOk() && |pendingPcm| < PACKET_PCM_BYTES
    }

    method SendPcm(frame: Frame)
      requires AudioOk()
      modifies this
      ensures AudioOk() && heard == old(heard) + [frame]
    {
      FlatAppend(heard, frame);
      heard, pendingPcm := heard + [frame], pendingPcm + frame;
      assert PcmOf(rtpSent) + pendingPcm == PcmOf(rtpSent) + old(pendingPcm) + frame;
      hide Flat, PcmOf;
      while |pendingPcm| >= PACKET_PCM_BYTES
        invariant StreamOk() && heard == old(heard) + [frame]
        decreases |pendingPcm|
      {
        SendBlock();
      }
    }

    method SendBlock()
      requires StreamOk() && |pendingPcm| >= PACKET_PCM_BYTES
      modifies this`pendingPcm, this`rtpSequence, this`rtpSent
      ensures StreamOk() && |pendingPcm| < |old(pendingPcm)|
    {
      var block := pendingPcm[..PACKET_PCM_BYTES];
      PacketsAppend(rtpSent, rtpSequence, block, pendingPcm);
      hide Flat, PcmOf, PacketsOk;
      rtpSent := rtpSent + [RtpAudio(rtpSequence, block)];
      pendingPcm, rtpSequence := pendingPcm[PACKET_PCM_BYTES..], (rtpSequence + 1) % RTP_MODULUS;
    }
  }

  ghost predicate PacketsOk(packets: seq<RtpAudio>, next: nat) {
    && next == |packets| % RTP_MODULUS
    && (forall i :: 0 <= i < |packets| ==>
          packets[i].sequence == i % RTP_MODULUS && |packets[i].pcm| == PACKET_PCM_BYTES)
  }

  lemma {:induction false} PacketsAppend(packets: seq<RtpAudio>, next: nat, block: seq<Byte>, pending: seq<Byte>)
    requires PacketsOk(packets, next) && |pending| >= PACKET_PCM_BYTES && block == pending[..PACKET_PCM_BYTES]
    ensures PacketsOk(packets + [RtpAudio(next, block)], (next + 1) % RTP_MODULUS)
    ensures PcmOf(packets + [RtpAudio(next, block)]) + pending[PACKET_PCM_BYTES..] == PcmOf(packets) + pending
  {
    assert (packets + [RtpAudio(next, block)])[..|packets|] == packets;
    assert pending == block + pending[PACKET_PCM_BYTES..];
    assert PcmOf(packets) + (block + pending[PACKET_PCM_BYTES..])
              == PcmOf(packets) + block + pending[PACKET_PCM_BYTES..];
  }

  class EchoLinkUdpConferenceService {
    const conference: EchoLinkConferenceManager
    const tx: Usrp.UsrpTransmitter
    var callOrder: seq<Callsign>
    var peersByCall: map<Callsign, EchoLinkPeer>
    var peersByIp: map<Ip, EchoLinkPeer>
    var peerInfo: map<EchoLinkPeer, PeerInfo>   // each live peer's addresses and time of last packet
    var stationsConnected: nat
    var stationsDisconnected: nat
    var peerTimeouts: nat
    var lastExpireCheck: int
    var framesIn: nat
    var framesToGateway: nat
    var framesBlocked: nat
    var framesRepeated: nat
    var dmrFramesIn: nat
    var dmrFramesToStations: nat
    var source: GatewaySource
    ghost var gateway: seq<Frame>

    ghost function Abs(): State<EchoLinkPeer?>
      reads this, conference, tx`keyRequested
    {
      State(callOrder, peersByCall, peersByIp, peerInfo,
            conference.Abs(), tx.keyRequested, gateway,
            stationsConnected, stationsDisconnected, peerTimeouts, lastExpireCheck)
    }

    /**
     The session is consistent, every frame for the gateway is on its way to the radio, and no producer call is in
     progress.
     */
    ghost predicate Valid()
      reads this, conference, tx, peerInfo.Keys
    {
      && SessionOk(Abs())
      && TransmitterOk()
      && AudioOk()
      && CountersOk()
    }

    ghost predicate AudioOk()
      reads this`peerInfo, peerInfo.Keys
    {
      forall p :: p in peerInfo ==> p.AudioOk()
    }

    ghost predicate TransmitterOk()
      reads this`gateway, tx
    {
      && tx.Valid() && tx.producer.Idle? && !tx.stopping
      && gateway == tx.intake.submitted
      && (!tx.keyRequested ==> Usrp.Quiet(tx.queue))
    }

    constructor (conference: EchoLinkConferenceManager, tx: Usrp.UsrpTransmitter)
      requires RoomOk(conference.Abs()) && conference.order == [] && conference.activeSpeaker == None
      requires tx.Valid() && tx.producer.Idle? && !tx.stopping && !tx.keyRequested && tx.intake.submitted == []
      requires tx.queue == []
      ensures Valid() && this.conference == conference && this.tx == tx
    {
      this.conference, this.tx := conference, tx;
      callOrder, peersByCall, peersByIp, peerInfo := [], map[], map[], map[];
      stationsConnected, stationsDisconnected, peerTimeouts, lastExpireCheck := 0, 0, 0, 0;
      framesIn, framesToGateway, framesBlocked, gateway := 0, 0, 0, [];
      framesRepeated, dmrFramesIn, dmrFramesToStations, source := 0, 0, 0, GatewaySource(None, None);
      new;
      hide US.Inv, RoomOk;
    }

    // ----- peers ---------------------------------------------------------------------------

    method FindPeer(addr: Addr) returns (found: Option<EchoLinkPeer>)
      requires IndexesOk(Abs())
      ensures found == Session.FindPeer(Abs(), addr)
    {
      for i := 0 to |callOrder|
        invariant ByAddr(Abs(), callOrder, addr) == ByAddr(Abs(), callOrder[i..], addr)
      {
        var p := peersByCall[callOrder[i]];
        if Matches(peerInfo[p], addr) {
          return Some(p);
        }
        assert callOrder[i..][1..] == callOrder[i + 1..];
      }
      if addr.ip in peersByIp {
        return Some(peersByIp[addr.ip]);
      }
      if |callOrder| == 1 {
        return Some(peersByCall[callOrder[0]]);
      }
      return None;
    }

    method TouchPeer(addr: Addr, now: int)
      requires IndexesOk(Abs())
      modifies this`peerInfo
      ensures Abs() == Touch(old(Abs()), addr, now)
    {
      var p := FindPeer(addr);
      hide IndexesOk, Session.FindPeer;
      if p.Some? {
        peerInfo := peerInfo[p.value := peerInfo[p.value].(lastRx := now)];
      }
    }

    /** Ask for the unkey; nothing already queued for the radio outlives it. */
    method ReleaseIf(due: bool)
      requires TransmitterOk()
      modifies tx
      ensures TransmitterOk() && tx.keyRequested == (!due && old(tx.keyRequested))
      ensures due ==> UM.Settles(tx.Abs().queue, tx.Abs().pacer)
    {
      hide US.Inv;
      if due {
        SocketIsOpen();
        tx.Release(true);
      }
    }

    method DisconnectPeer(p: EchoLinkPeer)
      requires SessionOk(Abs()) && TransmitterOk() && p in peerInfo
      modifies this`callOrder, this`peersByCall, this`peersByIp, this`peerInfo, this`stationsDisconnected, conference,
                tx
      ensures TransmitterOk() && Abs() == Disconnect(old(Abs()), p)
    {
      hide TransmitterOk, DropIp, Without, Remove;
      ghost var s := Abs();
      var key := peerInfo[p].callsign;
      assert key in peersByCall;  // so the early return is never taken
      assert key in conference.stations && key in conference.order;
      ghost var t := Disconnect(s, p);
      hide SessionOk, IndexesOk, RoomOk;
      var wasActive := conference.activeSpeaker == Some(key);
      conference.RemoveStation(key);
      Unfile(p, key);
      ReleaseIf(wasActive);
      assert Abs() == t;
    }

    method Unfile(p: EchoLinkPeer, key: Callsign)
      modifies this`callOrder, this`peersByCall, this`peersByIp, this`peerInfo, this`stationsDisconnected
      ensures callOrder == Without(old(callOrder), key) && peersByCall == old(peersByCall) - {key}
      ensures peersByIp == DropIp<EchoLinkPeer?>(old(peersByIp), p) && peerInfo == old(peerInfo) - {p}
      ensures stationsDisconnected == old(stationsDisconnected) + 1
    {
      callOrder, peersByCall := Without(callOrder, key), peersByCall - {key};
      peersByIp := map ip | ip in peersByIp && peersByIp[ip] != p :: peersByIp[ip];
      peerInfo := peerInfo - {p};
      stationsDisconnected := stationsDisconnected + 1;
    }

    method ConnectOrUpdatePeer(callsign: Callsign, control: Option<Addr>, audio: Option<Addr>, access: Access, now: int)
      returns (result: ConnectResult, ghost made: EchoLinkPeer?)
      requires SessionOk(Abs()) && AudioOk()
      modifies this`callOrder, this`peersByCall, this`peersByIp, this`peerInfo, this`stationsConnected, conference
      ensures made !in old(peerInfo) && (made != null ==> fresh(made))
      ensures peerInfo.Keys <= old(peerInfo.Keys) + {made}
      ensures match Connect<EchoLinkPeer?>(old(Abs()), callsign, control, audio, access, made, now)
              case Peer(t, p) => result.Connected? && result.peer == p && Abs() == t && AudioOk()
              case Rejected => result.PermissionError? && Abs() == old(Abs()) && AudioOk()
              case RosterFull => result.RosterError?
    {
      hide SessionOk, IndexesOk, RoomOk, Session.Admit, EchoLinkPeer.AudioOk;
      result, made := Admit(callsign, access, now);
      if result.Connected? {
        RecordAddresses(result.peer, control, audio, now);
      }
    }

    /** On RuntimeError the new peer has already been filed without a station: the session is no longer consistent. */
    method Admit(callsign: Callsign, access: Access, now: int)
      returns (result: ConnectResult, ghost made: EchoLinkPeer?)
      requires SessionOk(Abs()) && AudioOk()
      modifies this`callOrder, this`peersByCall, this`peerInfo, this`stationsConnected, conference
      ensures made !in old(peerInfo) && (made != null ==> fresh(made))
      ensures peerInfo.Keys <= old(peerInfo.Keys) + {made}
      ensures match Session.Admit<EchoLinkPeer?>(old(Abs()), callsign, access, made, now)
              case Peer(t, p) => result.Connected? && result.peer == p && Abs() == t && AudioOk()
              case Rejected => result.PermissionError? && Abs() == old(Abs()) && AudioOk()
              case RosterFull => result.RosterError? && callsign in peersByCall && callsign !in conference.stations
    {
      hide SessionOk, IndexesOk, RoomOk, Add, Filed, EchoLinkPeer.AudioOk;
      SessionParts<EchoLinkPeer?>(Abs());
      made := null;
      if callsign in peersByCall {
        return Connected(peersByCall[callsign]), null;
      }
      if !access.allowed {
        return PermissionError, null;
      }
      result := AddPeer(callsign, access, now);
      if result.Connected? {
        made := result.peer;
      }
    }

    method AddPeer(callsign: Callsign, access: Access, now: int) returns (result: ConnectResult)
      requires AudioOk() && callsign !in conference.stations
      modifies this`callOrder, this`peersByCall, this`peerInfo, this`stationsConnected, conference
      ensures match Add(old(conference.Abs()), callsign, NewStation(access.dmrId))
              case Refused(_) =>
                && result.RosterError? && peerInfo == old(peerInfo)
                && callsign in peersByCall && callsign !in conference.stations
              case Accepted(room) =>
                && result.Connected? && fresh(result.peer) && AudioOk() && conference.Abs() == room
                && callOrder == old(callOrder) + [callsign]
                && peersByCall == old(peersByCall)[callsign := result.peer]
                && peerInfo == old(peerInfo)[result.peer := PeerInfo(callsign, None, None, now)]
                && stationsConnected == old(stationsConnected) + 1
    {
      var peer := new EchoLinkPeer();
      callOrder, peersByCall := callOrder + [callsign], peersByCall[callsign := peer];
      var error := conference.AddStation(callsign, NewStation(access.dmrId));
      if error.Some? {
        return RosterError;
      }
      peerInfo := peerInfo[peer := PeerInfo(callsign, None, None, now)];
      stationsConnected := stationsConnected + 1;
      result := Connected(peer);
    }

    method RecordAddresses(peer: EchoLinkPeer, control: Option<Addr>, audio: Option<Addr>, now: int)
      requires peer in peerInfo
      modifies this`peersByIp, this`peerInfo
      ensures Abs() == Known<EchoLinkPeer?>(old(Abs()), peer, control, audio, now)
      ensures peerInfo.Keys == old(peerInfo.Keys)
    {
      var info := peerInfo[peer].(lastRx := now);
      if control.Some? {
        info := info.(controlAddr := control);
        peersByIp := peersByIp[control.value.ip := peer];
      }
      if audio.Some? {
        info := info.(audioAddr := audio);
        peersByIp := peersByIp[audio.value.ip := peer];
      }
      peerInfo := peerInfo[peer := info];
    }

    // ----- audio ---------------------------------------------------------------------------

    /** Whether `k` has somewhere to send audio to. */
    predicate HasAudio(k: Callsign)
      reads this`peersByCall, this`peerInfo
    {
      k in peersByCall && peersByCall[k] in peerInfo && peerInfo[peersByCall[k]].audioAddr.Some?
    }

    /** Each recipient that has an audio address hears the frame; nobody else does. */
    method Repeat(recipients: seq<Callsign>, frame: Frame) returns (repeated: nat)
      requires Filed<EchoLinkPeer?>(peersByCall, peerInfo) && AudioOk()
      requires NoDuplicates(recipients) && forall k :: k in recipients ==> k in peersByCall
      modifies peerInfo.Keys
      ensures AudioOk() && repeated == |recipients|
      ensures forall k :: k in peersByCall ==>
                peersByCall[k].heard == old(peersByCall[k].heard)
                  + (if k in recipients && HasAudio(k) then [frame] else [])
    {
      hide EchoLinkPeer.AudioOk, NoDuplicates;
      repeated := 0;
      for i := 0 to |recipients|
        invariant AudioOk() && repeated == i
        invariant forall k :: k in peersByCall ==>
            peersByCall[k].heard == old(peersByCall[k].heard)
              + (if k in recipients[..i] && HasAudio(k) then [frame] else [])
      {
        var peer := peersByCall[recipients[i]];
        PrefixGrows(recipients, i);
        if peerInfo[peer].audioAddr.Some? {
          peer.SendPcm(frame);
        }
        repeated := repeated + 1;
      }
      assert recipients[..|recipients|] == recipients;
    }

    /** Every frame from a station is either handed to the transmitter or blocked. */
    ghost predicate CountersOk()
      reads this`gateway, this`framesIn, this`framesToGateway, this`framesBlocked
    {
      framesToGateway == |gateway| && framesIn == framesToGateway + framesBlocked
    }

    /** A frame its speaker had the floor for goes to the transmitter; any other is counted as blocked. */
    method Deliver(granted: bool, key: Callsign, frame: Frame, repeated: nat)
      requires TransmitterOk() && CountersOk() && key in conference.stations
      modifies this`framesIn, this`framesToGateway, this`framesBlocked, this`gateway, this`framesRepeated, this`source,
                tx
      ensures TransmitterOk() && CountersOk() && tx.keyRequested == (granted || old(tx.keyRequested))
      ensures gateway == old(gateway) + (if granted then [frame] else []) && framesIn == old(framesIn) + 1
      ensures framesRepeated == old(framesRepeated) + repeated
      ensures source == if granted then GatewaySource(conference.stations[key].dmrId, Some(key)) else old(source)
    {
      hide US.Inv;
      framesIn, framesRepeated := framesIn + 1, framesRepeated + repeated;
      if granted {
        tx.SendPcm(frame);
        source := GatewaySource(conference.stations[key].dmrId, Some(key));
        gateway, framesToGateway := gateway + [frame], framesToGateway + 1;
      } else {
        framesBlocked := framesBlocked + 1;
      }
    }

    /** Every listener hears the frame if its speaker has, or gets, the floor; otherwise nobody does. */
    method Route(key: Callsign, frame: Frame, now: int) returns (granted: bool, repeated: nat)
      requires RoomOk(conference.Abs()) && Filed<EchoLinkPeer?>(peersByCall, peerInfo) && AudioOk()
      requires key in conference.stations && forall k :: k in conference.stations ==> k in peersByCall
      modifies conference, peerInfo.Keys
      ensures AudioOk() && granted == Begin(old(conference.Abs()), key, now).1
      ensures conference.Abs() == AfterFrame(old(conference.Abs()), key, now) && key in conference.stations
      ensures repeated == if granted then |Recipients(conference.stations, conference.order, Some(key))| else 0
      ensures forall k :: k in peersByCall ==>
                peersByCall[k].heard == old(peersByCall[k].heard)
                  + (if granted && Listens(old(conference.Abs()), k, key) && HasAudio(k) then [frame] else [])
    {
      hide RoomOk, AudioOk, Begin, AfterFrame, EchoLinkPeer.AudioOk, Listens, NoDuplicates, HasAudio, Filed, Recipients;
      ghost var room := conference.Abs();
      var recipients;
      AfterFrameKeeps(room, key, now);
      recipients, granted := conference.RouteSpeakerAudio(key, now);
      repeated := 0;
      if granted {
        ListenersAre(room, conference.Abs(), key, now);
        repeated := Repeat(recipients, frame);
      }
    }

    /**
     A frame from the station with the floor goes to every other listener and to the radio; any other frame goes
     nowhere.
     */
    method SpeakerPcm(key: Callsign, frame: Frame, now: int) returns (granted: bool)
      requires RoomOk(conference.Abs()) && Filed<EchoLinkPeer?>(peersByCall, peerInfo) && TransmitterOk() && AudioOk()
                && CountersOk()
      requires key in conference.stations && forall k :: k in conference.stations ==> k in peersByCall
      modifies this`framesIn, this`framesToGateway, this`framesBlocked, this`gateway, this`framesRepeated, this`source
      modifies conference, tx, peerInfo.Keys
      ensures TransmitterOk() && AudioOk() && CountersOk()
      ensures Abs() == SpeakerFrame<EchoLinkPeer?>(old(Abs()), key, frame, now)
      ensures granted == Begin(old(conference.Abs()), key, now).1 && key in conference.stations
      ensures source == if granted then GatewaySource(conference.stations[key].dmrId, Some(key)) else old(source)
      ensures framesRepeated == old(framesRepeated)
                + if granted then |Recipients(conference.stations, conference.order, Some(key))| else 0
      ensures forall k :: k in peersByCall ==>
                peersByCall[k].heard == old(peersByCall[k].heard)
                  + (if granted && Listens(old(conference.Abs()), k, key) && HasAudio(k) then [frame] else [])
    {
      hide RoomOk, TransmitterOk, AudioOk, CountersOk, Begin, AfterFrame, EchoLinkPeer.AudioOk, Listens, HasAudio,
        Filed, Recipients;
      var repeated;
      granted, repeated := Route(key, frame, now);
      Deliver(granted, key, frame, repeated);
    }

    /** A decoded DMR frame goes to every station that is not muted, whoever has the floor. */
    method DmrPcm(frame: Frame, sourceId: Option<int>, sourceAlias: Option<string>)
      requires RoomOk(conference.Abs()) && Filed<EchoLinkPeer?>(peersByCall, peerInfo) && AudioOk()
      requires forall k :: k in conference.stations ==> k in peersByCall
      modifies this`dmrFramesIn, this`dmrFramesToStations, this`source, peerInfo.Keys
      ensures AudioOk() && dmrFramesIn == old(dmrFramesIn) + 1 && source == GatewaySource(sourceId, sourceAlias)
      ensures dmrFramesToStations == old(dmrFramesToStations)
                + |Recipients(conference.stations, conference.order, None)|
      ensures forall k :: k in peersByCall ==>
                peersByCall[k].heard == old(peersByCall[k].heard)
                  + (if k in conference.stations && !conference.stations[k].muted && HasAudio(k) then [frame] else [])
    {
      hide AudioOk, EchoLinkPeer.AudioOk, NoDuplicates, HasAudio, Filed, Recipients;
      assert forall k :: k in conference.order <==> k in conference.stations;
      RecipientsAre(conference.stations, conference.order, None);
      var recipients := conference.CollectRecipients(None);
      var repeated := Repeat(recipients, frame);
      dmrFramesIn, dmrFramesToStations := dmrFramesIn + 1, dmrFramesToStations + repeated;
      source := GatewaySource(sourceId, sourceAlias);
    }

    method SpeakerFramesPcm(key: Callsign, frames: seq<Frame>, now: int)
      requires Valid() && key in conference.stations
      modifies this`framesIn, this`framesToGateway, this`framesBlocked, this`gateway, this`framesRepeated, this`source
      modifies conference, tx, peerInfo.Keys
      ensures Valid() && Abs() == SpeakerFrames<EchoLinkPeer?>(old(Abs()), key, frames, now)
    {
      hide SessionOk, RoomOk, TransmitterOk, AudioOk, CountersOk, EchoLinkPeer.AudioOk, Filed, SpeakerFrame;
      ghost var goal := SpeakerFrames<EchoLinkPeer?>(Abs(), key, frames, now);
      for i := 0 to |frames|
        invariant Valid() && key in conference.stations
        invariant SpeakerFrames<EchoLinkPeer?>(Abs(), key, frames[i..], now) == goal
      {
        ghost var s := Abs();
        assert frames[i..][0] == frames[i] && frames[i..][1..] == frames[i + 1..];
        SessionParts(s);
        SpeakerFrameKeeps(s, key, frames[i], now);
        var _ := SpeakerPcm(key, frames[i], now);
      }
    }

    method PeerAudio(p: EchoLinkPeer, frames: Option<seq<Frame>>, now: int)
      requires Valid() && p in peerInfo
      modifies this`framesIn, this`framesToGateway, this`framesBlocked, this`gateway, this`framesRepeated, this`source
      modifies conference, tx, peerInfo.Keys
      ensures Valid() && Abs() == Session.PeerAudio<EchoLinkPeer?>(old(Abs()), p, frames, now)
    {
      hide SessionOk, IndexesOk, RoomOk, TransmitterOk, AudioOk, CountersOk, EchoLinkPeer.AudioOk, SpeakerFrames, Heard;
      if frames.Some? {
        var key := peerInfo[p].callsign;
        PeerOnRoster<EchoLinkPeer?>(Abs(), p);
        MarkHeardKeeps<EchoLinkPeer?>(Abs(), key, now);
        conference.MarkHeard(key, now);
        SpeakerFramesPcm(key, frames.value, now);
      }
    }

    /** Make the sender of an audio datagram known, then hear what it says. */
    method AudioFrom(addr: Addr, frames: Option<seq<Frame>>, access: Access, now: int)
      returns (crashed: bool, ghost made: EchoLinkPeer?)
      requires Valid()
      modifies this, conference, tx, peerInfo.Keys
      ensures made !in old(peerInfo)
      ensures match Session.AudioFrom<EchoLinkPeer?>(old(Abs()), addr, frames, access, made, now)
              case Running(t) => !crashed && Valid() && Abs() == t
              case Crashed => crashed
    {
      hide SessionOk, RoomOk, TransmitterOk, CountersOk, EchoLinkPeer.AudioOk, Session.PeerAudio, Connect;
      made := null;
      if addr.ip in peersByIp {
        var p := peersByIp[addr.ip];
        KnownIpIsLive<EchoLinkPeer?>(Abs(), addr.ip);
        SetInfoKeeps<EchoLinkPeer?>(Abs(), p, peerInfo[p].(audioAddr := Some(addr)));
        peerInfo := peerInfo[p := peerInfo[p].(audioAddr := Some(addr))];
        PeerAudio(p, frames, now);
        return false, made;
      }
      ghost var s := Abs();
      var result;
      result, made := ConnectOrUpdatePeer(Unknown(addr.ip), None, Some(addr), access, now);
      ConnectKeeps<EchoLinkPeer?>(s, Unknown(addr.ip), None, Some(addr), access, made, now);
      match result
      case PermissionError => crashed := false;
      case RosterError => crashed := true;
      case Connected(p) => 
        PeerAudio(p, frames, now);
        crashed := false;
    }

    // ----- handlers --------------------------------------------------------------------------

    method DisconnectPeerByAddr(addr: Addr)
      requires Valid()
      modifies this`callOrder, this`peersByCall, this`peersByIp, this`peerInfo, this`stationsDisconnected, conference,
                tx
      ensures Valid() && Abs() == DisconnectByAddr(old(Abs()), addr)
    {
      hide RoomOk, TransmitterOk, CountersOk, Disconnect, Session.FindPeer, EchoLinkPeer.AudioOk, IndexesOk;
      var found := FindPeer(addr);
      if found.Some? {
        DisconnectLive(found.value);
      }
    }

    method DisconnectLive(p: EchoLinkPeer)
      requires Valid() && p in peerInfo
      modifies this`callOrder, this`peersByCall, this`peersByIp, this`peerInfo, this`stationsDisconnected, conference,
                tx
      ensures Valid() && Abs() == Disconnect(old(Abs()), p)
    {
      hide SessionOk, RoomOk, IndexesOk, TransmitterOk, CountersOk, Disconnect, EchoLinkPeer.AudioOk;
      DisconnectKeeps<EchoLinkPeer?>(Abs(), p);
      DisconnectPeer(p);
    }

    method HandleIdentity(callsign: Option<Callsign>, control: Option<Addr>, audio: Option<Addr>, access: Access,
                          now: int)
      returns (crashed: bool, ghost made: EchoLinkPeer?)
      requires Valid()
      modifies this`callOrder, this`peersByCall, this`peersByIp, this`peerInfo, this`stationsConnected, conference
      ensures made !in old(peerInfo)
      ensures match Identify<EchoLinkPeer?>(old(Abs()), callsign, control, audio, access, made, now)
              case Running(t) => !crashed && Valid() && Abs() == t
              case Crashed => crashed
    {
      hide SessionOk, IndexesOk, RoomOk, AudioOk, TransmitterOk, CountersOk, Connect, EchoLinkPeer.AudioOk;
      made := null;
      if callsign.None? {
        return false, null;
      }
      ghost var s := Abs();
      var result;
      result, made := ConnectOrUpdatePeer(callsign.value, control, audio, access, now);
      ConnectKeeps<EchoLinkPeer?>(s, callsign.value, control, audio, access, made, now);
      crashed := result.RosterError?;
    }

    method HandleControl(d: Datagram, addr: Addr, access: Access, now: int)
      returns (crashed: bool, ghost made: EchoLinkPeer?)
      requires Valid()
      modifies this, conference, tx
      ensures made !in old(peerInfo)
      ensures match Session.HandleControl<EchoLinkPeer?>(old(Abs()), d, addr, access, made, now)
              case Running(t) => !crashed && Valid() && Abs() == t
              case Crashed => crashed
    {
      hide SessionOk, IndexesOk, RoomOk, TransmitterOk, CountersOk, Identify, DisconnectByAddr, Touch,
        EchoLinkPeer.AudioOk;
      crashed, made := false, null;
      TouchKeeps<EchoLinkPeer?>(Abs(), addr, now);
      TouchLive(addr, now);
      match d
      case Goodbye => DisconnectPeerByAddr(addr);
      case Identity(callsign) => crashed, made := HandleIdentity(callsign, Some(addr), None, access, now);
      case Sdes(callsign) =>
        var key := if callsign.Some? then callsign.value else Unknown(addr.ip);
        crashed, made := HandleIdentity(Some(key), Some(addr), None, access, now);
      case _ =>
    }

    method HandleAudio(d: Datagram, addr: Addr, access: Access, now: int)
      returns (crashed: bool, ghost made: EchoLinkPeer?)
      requires Valid()
      modifies this, conference, tx, peerInfo.Keys
      ensures made !in old(peerInfo)
      ensures match Session.HandleAudio<EchoLinkPeer?>(old(Abs()), d, addr, access, made, now)
              case Running(t) => !crashed && Valid() && Abs() == t
              case Crashed => crashed
    {
      hide SessionOk, IndexesOk, RoomOk, TransmitterOk, CountersOk, Identify, DisconnectByAddr, Touch,
        EchoLinkPeer.AudioOk;
      hide Session.AudioFrom;
      crashed, made := false, null;
      TouchKeeps<EchoLinkPeer?>(Abs(), addr, now);
      TouchLive(addr, now);
      match d
      case Goodbye => DisconnectPeerByAddr(addr);
      case Identity(callsign) => crashed, made := HandleIdentity(callsign, None, Some(addr), access, now);
      case _ => crashed, made := AudioFrom(addr, FramesOf(d), access, now);
    }

    method TouchLive(addr: Addr, now: int)
      requires Valid()
      modifies this`peerInfo
      ensures Valid() && Abs() == Touch(old(Abs()), addr, now) && peerInfo.Keys == old(peerInfo.Keys)
    {
      hide IndexesOk, RoomOk, TransmitterOk, CountersOk, Touch, EchoLinkPeer.AudioOk;
      TouchKeeps<EchoLinkPeer?>(Abs(), addr, now);
      TouchPeer(addr, now);
    }

    method DisconnectStation(key: Callsign) returns (found: bool)
      requires Valid()
      modifies this`callOrder, this`peersByCall, this`peersByIp, this`peerInfo, this`stationsDisconnected, conference,
                tx
      ensures Valid() && Abs() == Session.DisconnectStation(old(Abs()), key)
      ensures found == (key in old(peersByCall))
    {
      hide RoomOk, TransmitterOk, CountersOk, Disconnect, EchoLinkPeer.AudioOk, AudioOk;
      found := key in peersByCall;
      if found {
        DisconnectLive(peersByCall[key]);
      }
    }

    // ----- the end of a service loop iteration -------------------------------------------------

    method ReleaseSpeaker(timeout: int, now: int)
      requires Valid()
      modifies conference, tx
      ensures Valid() && Abs() == Session.ReleaseSpeaker(old(Abs()), timeout, now)
    {
      hide SessionOk, RoomOk, TransmitterOk, CountersOk, ReleaseIdle, AudioOk, EchoLinkPeer.AudioOk;
      ReleaseSpeakerKeeps<EchoLinkPeer?>(Abs(), timeout, now);
      var released := conference.ReleaseInactiveSpeaker(timeout, now);
      ReleaseIf(released);
    }

    method ExpireStale(timeout: int, now: int)
      requires Valid()
      modifies this`callOrder, this`peersByCall, this`peersByIp, this`peerInfo, this`stationsDisconnected
      modifies this`lastExpireCheck, this`peerTimeouts, conference, tx
      ensures Valid() && Abs() == Session.ExpireStale(old(Abs()), timeout, now)
    {
      hide SessionOk, TransmitterOk, CountersOk, AudioOk, Expire;
      if timeout <= 0 || now - lastExpireCheck < 1_000_000 {
        return;
      }
      CheckKeeps<EchoLinkPeer?>(Abs(), now);
      lastExpireCheck := now;
      ExpireListed(callOrder, timeout, now);
    }

    method ExpireListed(keys: seq<Callsign>, timeout: int, now: int)
      requires Valid() && NoDuplicates(keys) && forall k :: k in keys ==> k in peersByCall
      modifies this`callOrder, this`peersByCall, this`peersByIp, this`peerInfo, this`stationsDisconnected
      modifies this`peerTimeouts, conference, tx
      ensures Valid() && Abs() == Expire<EchoLinkPeer?>(old(Abs()), keys, timeout, now)
    {
      hide SessionOk, TransmitterOk, CountersOk, AudioOk, ExpireOne, Expire, NoDuplicates;
      ghost var goal := Expire<EchoLinkPeer?>(Abs(), keys, timeout, now);
      assert keys[0..] == keys;
      for i := 0 to |keys|
        invariant Valid() && NoDuplicates(keys[i..]) && forall k :: k in keys[i..] ==> k in peersByCall
        invariant Expire<EchoLinkPeer?>(Abs(), keys[i..], timeout, now) == goal
      {
        ExpireUnfolds<EchoLinkPeer?>(Abs(), keys[i..], timeout, now);
        assert keys[i..][0] == keys[i] && keys[i..][1..] == keys[i + 1..];
        ExpirePeer(keys[i], timeout, now);
      }
      ExpireNone<EchoLinkPeer?>(Abs(), timeout, now);
    }

    method ExpirePeer(key: Callsign, timeout: int, now: int)
      requires Valid() && key in peersByCall
      modifies this`callOrder, this`peersByCall, this`peersByIp, this`peerInfo, this`stationsDisconnected
      modifies this`peerTimeouts, conference, tx
      ensures Valid() && Abs() == ExpireOne(old(Abs()), key, timeout, now)
    {
      hide RoomOk, TransmitterOk, CountersOk, AudioOk, EchoLinkPeer.AudioOk, Disconnect;
      var peer := peersByCall[key];
      if now - peerInfo[peer].lastRx >= timeout {
        peerTimeouts := peerTimeouts + 1;
        DisconnectLive(peer);
      }
    }

    /** Between handlers the pacer takes any number of steps; the session stays as it is, and consistent. */
    method PacerActs()
      requires Valid()
      modifies tx
      ensures Valid() && Abs() == old(Abs()) && Usrp.PacerReaches(old(tx.Abs()), tx.Abs())
    {
      hide SessionOk, AudioOk, CountersOk, US.Inv, Usrp.Reaches, Usrp.PacerReaches;
      ghost var s := tx.Abs();
      Usrp.ReachesSelf(s);
      tx.PacerRuns();
      Usrp.ReachesPacer(s, s, tx.Abs());
    }

    /** Until close() the socket is open. */
    lemma SocketIsOpen()
      requires TransmitterOk()
      ensures tx.socketOpen
    {
      hide US.Inv;
      US.OpenUntilStop(tx.Abs());
    }

    /**
     While nobody is speaking, the radio is unkeyed or an unkey is the last thing it will be told, and no voice is
     waiting to be sent.
     */
    lemma IdleMeansUnkeyed()
      requires Valid() && conference.activeSpeaker.None?
      ensures UM.Settles(tx.Abs().queue, tx.Abs().pacer)
      ensures tx.queue == [] || tx.queue == [UM.Unkey]
    {
      hide AudioOk, CountersOk, RoomOk, IndexesOk;
      SocketIsOpen();
    }

    /** Left alone then, the pacer has the radio unkeyed within a bounded number of steps. */
    lemma IdleDrains(es: seq<UM.Event>, t: UM.State)
      requires Valid() && conference.activeSpeaker.None?
      requires UM.Run(tx.Abs(), es, t) && (forall e :: e in es ==> e.Consume?)
      requires |es| >= US.Work(tx.queue, tx.stage)
      ensures t.queue == [] && UM.InFlight(t.pacer.stage) == [] && !t.pacer.keyed
    {
      hide AudioOk, CountersOk, RoomOk, IndexesOk, US.Inv, UM.Run, US.Work;
      SocketIsOpen();
      US.DrainsToUnkeyed(tx.Abs(), es, t);
    }
  }

  /** Whether `k` is to hear a frame from `speaker`, should the speaker have the floor. */
  predicate Listens(r: Room, k: Callsign, speaker: Callsign) {
    k != speaker && k in r.stations && !r.stations[k].muted
  }

  lemma ListenersAre(r: Room, t: Room, key: Callsign, now: int)
    requires RoomOk(r) && key in r.stations && Begin(r, key, now).1 && t == AfterFrame(r, key, now)
    ensures NoDuplicates(t.order) && (forall k :: k in t.order ==> k in t.stations)
    ensures var recipients := Recipients(t.stations, t.order, Some(key));
            && NoDuplicates(recipients)
            && (forall k :: k in recipients <==> Listens(r, k, key))
            && (forall k :: k in recipients ==> k in r.stations)
  {
    AfterFrameKeeps(r, key, now);
    assert NoDuplicates(t.order) && forall k :: k in t.order <==> k in t.stations;
    hide RoomOk, AfterFrame, Begin, NoDuplicates;
    RecipientsAre(t.stations, t.order, Some(key));
  }

  lemma {:induction false} PrefixGrows<T>(s: seq<T>, i: nat)
    requires NoDuplicates(s) && i < |s|
    ensures s[i] !in s[..i] && forall x :: x in s[..i + 1] <==> x in s[..i] || x == s[i]
  {
    assert s[..i + 1] == s[..i] + [s[i]];
  }
}
