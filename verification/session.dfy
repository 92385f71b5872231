/**
 The conference service's session state as one value, and what each datagram,
 dashboard request or timer does to it.  `P` stands for the identity of a peer object:
 the two peer dictionaries refer to the same objects.
 */
module Session {
  import opened Bytes
  import opened Wrappers
  import opened ConferenceRoom

  type Ip = string
  datatype Addr = Addr(ip: Ip, port: int)

  type Frame = f: seq<Byte> | |f| == 320 witness Zeros(320)

  datatype PeerInfo = PeerInfo(callsign: Callsign, controlAddr: Option<Addr>, audioAddr: Option<Addr>, lastRx: int)

  /** The access decision and DMR ID lookup for a callsign not yet connected. */
  datatype Access = Access(allowed: bool, dmrId: Option<int>)

  datatype State<P(==)> = State(
    order: seq<Callsign>,         // insertion order of the callsign dictionary
    byCall: map<Callsign, P>,
    byIp: map<Ip, P>,
    info: map<P, PeerInfo>,       // the live peer objects
    room: Room,
    requested: bool,              // push-to-talk wanted
    gateway: seq<Frame>,          // frames handed to the transmitter
    connected: nat, disconnected: nat, timeouts: nat,
    lastExpireCheck: int)         // microseconds

  /** A handler returns normally, or the RuntimeError of a full roster ends the service. */
  datatype Outcome<P(==)> = Running(state: State<P>) | Crashed

  function Init<P(==)>(maxStations: int, allowDuplicates: bool): State<P> {
    State([], map[], map[], map[], Room(maxStations, allowDuplicates, map[], [], None), false, [], 0, 0, 0, 0)
  }

  // ----- finding peers -----------------------------------------------------------------

  predicate Matches(i: PeerInfo, addr: Addr) { i.controlAddr == Some(addr) || i.audioAddr == Some(addr) }

  /** The first peer in dictionary order known by exactly this address. */
  function ByAddr<P(==)>(s: State<P>, order: seq<Callsign>, addr: Addr): (r: Option<P>)
    requires forall k :: k in order ==> k in s.byCall && s.byCall[k] in s.info
    ensures r.Some? ==> r.value in s.info && Matches(s.info[r.value], addr)
    ensures r.None? ==> forall k :: k in order ==> !Matches(s.info[s.byCall[k]], addr)
  {
    if order == [] then None
    else if Matches(s.info[s.byCall[order[0]]], addr) then Some(s.byCall[order[0]])
    else ByAddr(s, order[1..], addr)
  }

  function FindPeer<P(==)>(s: State<P>, addr: Addr): (r: Option<P>)
    requires IndexesOk(s)
    ensures r.Some? ==> r.value in s.info
  {
    var exact := ByAddr(s, s.order, addr);
    if exact.Some? then exact
    else if addr.ip in s.byIp then Some(s.byIp[addr.ip])
    else if |s.order| == 1 then Some(s.byCall[s.order[0]])
    else None
  }

  function Touch<P(==)>(s: State<P>, addr: Addr, now: int): State<P>
    requires IndexesOk(s)
  {
    match FindPeer(s, addr)
    case None => s
    case Some(p) => SetInfo(s, p, s.info[p].(lastRx := now))
  }

  function SetInfo<P(==)>(s: State<P>, p: P, i: PeerInfo): State<P> { s.(info := s.info[p := i]) }

  // ----- disconnecting -------------------------------------------------------------------

  function DropIp<P(==)>(byIp: map<Ip, P>, p: P): map<Ip, P> { map ip | ip in byIp && byIp[ip] != p :: byIp[ip] }

  function Disconnect<P(==)>(s: State<P>, p: P): State<P>
    requires IndexesOk(s) && p in s.info && RoomOk(s.room)
  {
    var key := s.info[p].callsign;
    if key !in s.byCall then s
    else
      s.(room := Remove(s.room, key),
         order := Without(s.order, key), byCall := s.byCall - {key},
         byIp := DropIp(s.byIp, p), info := s.info - {p},
         requested := if s.room.active == Some(key) then false else s.requested,
         disconnected := s.disconnected + 1)
  }

  function DisconnectByAddr<P(==)>(s: State<P>, addr: Addr): State<P>
    requires SessionOk(s)
  {
    match FindPeer(s, addr)
    case None => s
    case Some(p) => Disconnect(s, p)
  }

  // ----- connecting ------------------------------------------------------------------------

  /** `made` is the identity the new peer object would have. */
  datatype Connection<P(==)> = Peer(state: State<P>, peer: P) | Rejected | RosterFull

  /** The connected peer of that callsign, or a new one if it is allowed in and there is room. */
  function Admit<P(==)>(s: State<P>, callsign: Callsign, access: Access, made: P, now: int): (c: Connection<P>)
    requires SessionOk(s) && made !in s.info
    ensures c.Peer? ==> c.peer in c.state.info
  {
    if callsign in s.byCall then Peer(s, s.byCall[callsign])
    else if !access.allowed then Rejected
    else
      match Add(s.room, callsign, NewStation(access.dmrId))
      case Refused(_) => RosterFull
      case Accepted(room) =>
        Peer(s.(order := s.order + [callsign], byCall := s.byCall[callsign := made],
                info := s.info[made := PeerInfo(callsign, None, None, now)],
                room := room, connected := s.connected + 1), made)
  }

  function Connect<P(==)>(s: State<P>, callsign: Callsign, control: Option<Addr>, audio: Option<Addr>,
                          access: Access, made: P, now: int): Connection<P>
    requires SessionOk(s) && made !in s.info
  {
    var c := Admit(s, callsign, access, made, now);
    if c.Peer? then Peer(Known(c.state, c.peer, control, audio, now), c.peer) else c
  }

  /** Record where a connected peer can be reached. */
  function Known<P(==)>(s: State<P>, p: P, control: Option<Addr>, audio: Option<Addr>, now: int): State<P>
    requires p in s.info
  {
    var byIp := if control.Some? then s.byIp[control.value.ip := p] else s.byIp;
    var byIp' := if audio.Some? then byIp[audio.value.ip := p] else byIp;
    var i := s.info[p];
    SetInfo(s, p, PeerInfo(i.callsign,
                           if control.Some? then control else i.controlAddr,
                           if audio.Some? then audio else i.audioAddr, now)).(byIp := byIp')
  }

  // ----- audio ------------------------------------------------------------------------------

  /** One frame from a station: repeated and sent to the gateway only if it has, or gets, the floor. */
  function SpeakerFrame<P(==)>(s: State<P>, key: Callsign, frame: Frame, now: int): State<P>
    requires key in s.room.stations
  {
    var granted := Begin(s.room, key, now).1;
    s.(room := AfterFrame(s.room, key, now), requested := granted || s.requested,
       gateway := s.gateway + if granted then [frame] else [])
  }

  function SpeakerFrames<P(==)>(s: State<P>, key: Callsign, frames: seq<Frame>, now: int): State<P>
    requires key in s.room.stations
    decreases |frames|
  {
    if frames == [] then s
    else SpeakerFrames(SpeakerFrame(s, key, frames[0], now), key, frames[1..], now)
  }

  // ----- handlers -----------------------------------------------------------------------------

  /** What the text and RTCP parsers made of a datagram. */
  datatype Datagram =
    | Goodbye
    | Identity(callsign: Option<Callsign>)
    | Sdes(sdesCallsign: Option<Callsign>)        // control port only
    | Rtp(frames: Option<seq<Frame>>)             // audio port only; None is undecodable
    | Bad

  function FramesOf(d: Datagram): Option<seq<Frame>> {
    match d
    case Rtp(frames) => frames
    case _ => None
  }

  function Unknown(ip: Ip): Callsign { "UNKNOWN-" + ip }

  function AfterConnect<P(==)>(s: State<P>, c: Connection<P>): Outcome<P> {
    match c
    case Peer(t, _) => Running(t)
    case Rejected => Running(s)
    case RosterFull => Crashed
  }

  /** A text or SDES identity from an address; a text without a callsign is ignored. */
  function Identify<P(==)>(s: State<P>, callsign: Option<Callsign>, control: Option<Addr>, audio: Option<Addr>,
                           access: Access, made: P, now: int): Outcome<P>
    requires SessionOk(s) && made !in s.info
  {
    if callsign.None? then Running(s)
    else AfterConnect(s, Connect(s, callsign.value, control, audio, access, made, now))
  }

  function HandleControl<P(==)>(s: State<P>, d: Datagram, addr: Addr, access: Access, made: P, now: int): Outcome<P>
    requires SessionOk(s) && made !in s.info
  {
    var t := Touch(s, addr, now);
    TouchKeeps(s, addr, now);
    match d
    case Goodbye => Running(DisconnectByAddr(t, addr))
    case Identity(callsign) => Identify(t, callsign, Some(addr), None, access, made, now)
    case Sdes(callsign) =>
      var key := if callsign.Some? then callsign.value else Unknown(addr.ip);
      Identify(t, Some(key), Some(addr), None, access, made, now)
    case _ => Running(t)
  }

  function HandleAudio<P(==)>(s: State<P>, d: Datagram, addr: Addr, access: Access, made: P, now: int): Outcome<P>
    requires SessionOk(s) && made !in s.info
  {
    var t := Touch(s, addr, now);
    TouchKeeps(s, addr, now);
    match d
    case Goodbye => Running(DisconnectByAddr(t, addr))
    case Identity(callsign) => Identify(t, callsign, None, Some(addr), access, made, now)
    case _ => AudioFrom(t, addr, FramesOf(d), access, made, now)
  }

  /** A datagram that is neither text nor a goodbye makes its sender known, decodable or not. */
  function AudioFrom<P(==)>(t: State<P>, addr: Addr, frames: Option<seq<Frame>>, access: Access, made: P,
                            now: int): Outcome<P>
    requires SessionOk(t) && made !in t.info
  {
    if addr.ip in t.byIp then
      var p := t.byIp[addr.ip];
      SetInfoKeeps(t, p, t.info[p].(audioAddr := Some(addr)));
      Running(PeerAudio(SetInfo(t, p, t.info[p].(audioAddr := Some(addr))), p, frames, now))
    else
      ConnectKeeps(t, Unknown(addr.ip), None, Some(addr), access, made, now);
      match Connect(t, Unknown(addr.ip), None, Some(addr), access, made, now)
      case Rejected => Running(t)
      case RosterFull => Crashed
      case Peer(u, p) => Running(PeerAudio(u, p, frames, now))
  }

  function PeerAudio<P(==)>(s: State<P>, p: P, frames: Option<seq<Frame>>, now: int): State<P>
    requires SessionOk(s) && p in s.info
  {
    if frames.None? then s
    else
      var key := s.info[p].callsign;
      var t := s.(room := Heard(s.room, key, now));
      HeardKeeps(s.room, key, now);
      SpeakerFrames(t, key, frames.value, now)
  }

  function DisconnectStation<P(==)>(s: State<P>, key: Callsign): State<P>
    requires SessionOk(s)
  {
    if key in s.byCall then Disconnect(s, s.byCall[key]) else s
  }

  /** The end of every service loop iteration. */
  function ReleaseSpeaker<P(==)>(s: State<P>, timeout: int, now: int): State<P> {
    var (room, released) := ReleaseIdle(s.room, timeout, now);
    s.(room := room, requested := if released then false else s.requested)
  }

  /** Stale peers are looked for at most once a second, and not at all without a timeout. */
  function ExpireStale<P(==)>(s: State<P>, timeout: int, now: int): State<P>
    requires SessionOk(s)
  {
    if timeout <= 0 || now - s.lastExpireCheck < 1_000_000 then s
    else Expire(s.(lastExpireCheck := now), s.order, timeout, now)
  }

  /** Disconnect, of the peers listed, those silent for the timeout. */
  function Expire<P(==)>(s: State<P>, keys: seq<Callsign>, timeout: int, now: int): State<P>
    requires SessionOk(s) && NoDuplicates(keys) && (forall k :: k in keys ==> k in s.byCall)
    decreases |keys|
  {
    if keys == [] then s
    else
      hide SessionOk, ExpireOne;
      ExpireOneKeeps(s, keys[0], timeout, now);
      assert forall k :: k in keys[1..] ==> k in keys && k != keys[0];
      Expire(ExpireOne(s, keys[0], timeout, now), keys[1..], timeout, now)
  }

  function ExpireOne<P(==)>(s: State<P>, key: Callsign, timeout: int, now: int): State<P>
    requires SessionOk(s) && key in s.byCall
  {
    var p := s.byCall[key];
    if now - s.info[p].lastRx >= timeout then
      var t := s.(timeouts := s.timeouts + 1);
      Disconnect(t, p)
    else s
  }

  // ----- the invariant ---------------------------------------------------------------------------

  /** Both peer dictionaries refer only to live peer objects, each filed under its own callsign. */
  ghost predicate IndexesOk<P>(s: State<P>) {
    && NoDuplicates(s.order)
    && (forall k :: k in s.order <==> k in s.byCall)
    && (forall k :: k in s.byCall ==> s.byCall[k] in s.info && s.info[s.byCall[k]].callsign == k)
    && (forall p :: p in s.info ==> s.info[p].callsign in s.byCall && s.byCall[s.info[p].callsign] == p)
    && (forall ip :: ip in s.byIp ==> s.byIp[ip] in s.info)
  }

  ghost predicate SessionOk<P>(s: State<P>) {
    && IndexesOk(s)
    && RoomOk(s.room)
    && s.room.order == s.order
    && (s.requested <==> s.room.active.Some?)
    && s.connected == s.disconnected + |s.order|
  }

  /** Distinct callsigns are filed under distinct live peers. */
  ghost predicate Filed<P>(byCall: map<Callsign, P>, info: map<P, PeerInfo>) {
    && (forall k :: k in byCall ==> byCall[k] in info)
    && (forall k, l :: k in byCall && l in byCall && k != l ==> byCall[k] != byCall[l])
  }

  lemma SessionParts<P>(s: State<P>)
    requires SessionOk(s)
    ensures RoomOk(s.room) && Filed(s.byCall, s.info)
    ensures forall k :: k in s.room.stations <==> k in s.byCall
  {
  }

  lemma PeerOnRoster<P>(s: State<P>, p: P)
    requires SessionOk(s) && p in s.info
    ensures s.info[p].callsign in s.room.stations
  {
  }

  lemma KnownIpIsLive<P>(s: State<P>, ip: Ip)
    requires SessionOk(s) && ip in s.byIp
    ensures s.byIp[ip] in s.info
  {
  }

  /** A session starts with nobody, and with nothing counted. */
  lemma StartsEmpty<P>(maxStations: int, allowDuplicates: bool)
    ensures var s := Init<P>(maxStations, allowDuplicates);
            && s.order == s.room.order == [] && s.byCall == map[] && s.byIp == map[] && s.info == map[]
            && s.room.stations == map[] && s.room.active == None && !s.requested && s.gateway == []
            && s.room.maxStations == maxStations && s.room.allowDuplicates == allowDuplicates
            && s.connected == s.disconnected == s.timeouts == s.lastExpireCheck == 0
  {
  }

  lemma InitKeeps<P>(maxStations: int, allowDuplicates: bool)
    ensures SessionOk(Init<P>(maxStations, allowDuplicates))
  {
  }

  lemma SetInfoKeeps<P>(s: State<P>, p: P, i: PeerInfo)
    requires SessionOk(s) && p in s.info && i.callsign == s.info[p].callsign
    ensures SessionOk(SetInfo(s, p, i)) && SetInfo(s, p, i).info.Keys == s.info.Keys
  {
    hide RoomOk;
  }

  lemma TouchKeeps<P>(s: State<P>, addr: Addr, now: int)
    requires SessionOk(s)
    ensures var t := Touch(s, addr, now);
            && SessionOk(t) && t.info.Keys == s.info.Keys
            && t.byCall == s.byCall && t.byIp == s.byIp && t.order == s.order && t.room == s.room
            && (forall p :: p in s.info ==>
                  t.info[p] == if FindPeer(s, addr) == Some(p) then s.info[p].(lastRx := now) else s.info[p])
  {
    hide IndexesOk, RoomOk;
    match FindPeer(s, addr)
    case None =>
    case Some(p) => SetInfoKeeps(s, p, s.info[p].(lastRx := now));
  }

  /**
   A datagram's peer: the first one known by exactly its address; failing that, the one known by its IP; failing that,
   the only one there is.
   */
  lemma FindPeerIs<P>(s: State<P>, addr: Addr)
    requires IndexesOk(s)
    ensures var r := FindPeer(s, addr);
            if exists p :: p in s.info && (s.info[p].controlAddr == Some(addr) || s.info[p].audioAddr == Some(addr))
            then
              && r.Some? && r.value in s.info
              && (s.info[r.value].controlAddr == Some(addr) || s.info[r.value].audioAddr == Some(addr))
              && exists i :: 0 <= i < |s.order| && s.byCall[s.order[i]] == r.value
                             && forall j :: 0 <= j < i ==> !Matches(s.info[s.byCall[s.order[j]]], addr)
            else if addr.ip in s.byIp then r == Some(s.byIp[addr.ip])
            else if |s.order| == 1 then r == Some(s.byCall[s.order[0]])
            else r == None
  {
    var exact := ByAddr(s, s.order, addr);
    if exact.Some? { var i := FirstMatch(s, s.order, addr); }
    if p :| p in s.info && Matches(s.info[p], addr) {
      assert s.info[p].callsign in s.order;
    }
  }

  lemma {:induction false} FirstMatch<P>(s: State<P>, order: seq<Callsign>, addr: Addr) returns (i: nat)
    requires forall k :: k in order ==> k in s.byCall && s.byCall[k] in s.info
    requires ByAddr(s, order, addr).Some?
    ensures i < |order| && s.byCall[order[i]] == ByAddr(s, order, addr).value
    ensures forall j :: 0 <= j < i ==> !Matches(s.info[s.byCall[order[j]]], addr)
  {
    if Matches(s.info[s.byCall[order[0]]], addr) {
      i := 0;
    } else {
      i := FirstMatch(s, order[1..], addr);
      i := i + 1;
    }
  }

  lemma IndexesDrop<P>(s: State<P>, p: P, t: State<P>)
    requires IndexesOk(s) && p in s.info
    requires var key := s.info[p].callsign;
             && t.order == Without(s.order, key) && t.byCall == s.byCall - {key}
             && t.byIp == DropIp(s.byIp, p) && t.info == s.info - {p}
    ensures IndexesOk(t) && |t.order| == |s.order| - 1
  {
    hide Without;
    WithoutRemoves(s.order, s.info[p].callsign);
  }

  lemma DisconnectKeeps<P>(s: State<P>, p: P)
    requires SessionOk(s) && p in s.info
    ensures var t := Disconnect(s, p);
            && SessionOk(t) && t.info == s.info - {p}
            && t.byCall == s.byCall - {s.info[p].callsign} && t.disconnected == s.disconnected + 1
            && t.connected == s.connected && t.gateway == s.gateway
  {
    var key := s.info[p].callsign;
    IndexesDrop(s, p, Disconnect(s, p));
    hide IndexesOk, RoomOk;
    RemoveKeeps(s.room, key);
  }

  lemma KnownKeeps<P>(s: State<P>, p: P, control: Option<Addr>, audio: Option<Addr>, now: int)
    requires SessionOk(s) && p in s.info
    ensures SessionOk(Known(s, p, control, audio, now))
    ensures Known(s, p, control, audio, now).info.Keys == s.info.Keys
    ensures Known(s, p, control, audio, now).info[p].callsign == s.info[p].callsign
    ensures var t := Known(s, p, control, audio, now);
            && t.info[p].lastRx == now
            && (control.Some? ==> t.info[p].controlAddr == control && t.byIp[control.value.ip] == p)
            && (audio.Some? ==> t.info[p].audioAddr == audio && t.byIp[audio.value.ip] == p)
  {
    hide RoomOk;
  }

  /** Connecting ends the service exactly when an allowed new callsign meets a full roster. */
  lemma ConnectKeeps<P>(s: State<P>, callsign: Callsign, control: Option<Addr>, audio: Option<Addr>,
                            access: Access, made: P, now: int)
    requires SessionOk(s) && made !in s.info
    ensures var c := Connect(s, callsign, control, audio, access, made, now);
            && (c.RosterFull? <==> callsign !in s.byCall && access.allowed && |s.order| >= s.room.maxStations)
            && (c.Peer? ==> SessionOk(c.state) && c.peer in c.state.info && c.state.info[c.peer].callsign == callsign)
  {
    hide RoomOk, IndexesOk;
    AdmitKeeps(s, callsign, access, made, now);
    var c := Admit(s, callsign, access, made, now);
    hide SessionOk, Admit;
    if c.Peer? { KnownKeeps(c.state, c.peer, control, audio, now); }
  }

  lemma AdmitKeeps<P>(s: State<P>, callsign: Callsign, access: Access, made: P, now: int)
    requires SessionOk(s) && made !in s.info
    ensures var c := Admit(s, callsign, access, made, now);
            && (c.RosterFull? <==> callsign !in s.byCall && access.allowed && |s.order| >= s.room.maxStations)
            && (c.Peer? ==> SessionOk(c.state) && c.peer in c.state.info && c.state.info[c.peer].callsign == callsign)
  {
    hide IndexesOk, RoomOk, Add, Filed;
    SessionParts(s);
    if callsign in s.byCall {
      KnownCallIsLive(s, callsign);
    } else if access.allowed {
      AddKeeps(s.room, callsign, access.dmrId);
      var c := Admit(s, callsign, access, made, now);
      if c.Peer? { NewPeerKeeps(s, c.state, callsign, made, now); }
    }
  }

  lemma KnownCallIsLive<P>(s: State<P>, callsign: Callsign)
    requires SessionOk(s) && callsign in s.byCall
    ensures s.byCall[callsign] in s.info && s.info[s.byCall[callsign]].callsign == callsign
  {
  }

  lemma NewPeerKeeps<P>(s: State<P>, t: State<P>, callsign: Callsign, made: P, now: int)
    requires SessionOk(s) && made !in s.info && callsign !in s.byCall
    requires RoomOk(t.room) && t.room.order == s.room.order + [callsign] && t.room.active == s.room.active
    requires t == s.(order := s.order + [callsign], byCall := s.byCall[callsign := made],
                     info := s.info[made := PeerInfo(callsign, None, None, now)],
                     room := t.room, connected := s.connected + 1)
    ensures SessionOk(t)
  {
    hide RoomOk;
  }

  lemma SameIndexes<P>(s: State<P>, t: State<P>)
    requires t.order == s.order && t.byCall == s.byCall && t.byIp == s.byIp && t.info == s.info
    ensures IndexesOk(t) <==> IndexesOk(s)
  {
  }

  lemma SpeakerFrameKeeps<P>(s: State<P>, key: Callsign, frame: Frame, now: int)
    requires SessionOk(s) && key in s.room.stations
    ensures var t := SpeakerFrame(s, key, frame, now);
            && SessionOk(t) && t.info == s.info && t.order == s.order && key in t.room.stations
            && t.room.active.Some?
            && t.gateway == if t.room.active == Some(key) then s.gateway + [frame] else s.gateway
  {
    hide RoomOk, IndexesOk;
    AfterFrameKeeps(s.room, key, now);
    SameIndexes(s, SpeakerFrame(s, key, frame, now));
  }

  lemma {:induction false} SpeakerFramesKeep<P>(s: State<P>, key: Callsign, frames: seq<Frame>, now: int)
    requires SessionOk(s) && key in s.room.stations
    ensures SessionOk(SpeakerFrames(s, key, frames, now))
    decreases |frames|
  {
    if frames != [] {
      hide SessionOk;
      SpeakerFrameKeeps(s, key, frames[0], now);
      SpeakerFramesKeep(SpeakerFrame(s, key, frames[0], now), key, frames[1..], now);
    }
  }

  lemma MarkHeardKeeps<P>(s: State<P>, key: Callsign, now: int)
    requires SessionOk(s)
    ensures var t := s.(room := Heard(s.room, key, now)); SessionOk(t) && t.room.stations.Keys == s.room.stations.Keys
  {
    hide RoomOk, Heard;
    HeardKeeps(s.room, key, now);
  }

  lemma PeerAudioKeeps<P>(s: State<P>, p: P, frames: Option<seq<Frame>>, now: int)
    requires SessionOk(s) && p in s.info
    ensures SessionOk(PeerAudio(s, p, frames, now))
  {
    hide SessionOk, IndexesOk, RoomOk;
    PeerOnRoster(s, p);
    if frames.Some? {
      var key := s.info[p].callsign;
      MarkHeardKeeps(s, key, now);
      SpeakerFramesKeep(s.(room := Heard(s.room, key, now)), key, frames.value, now);
    }
  }

  lemma DisconnectByAddrKeeps<P>(s: State<P>, addr: Addr)
    requires SessionOk(s)
    ensures SessionOk(DisconnectByAddr(s, addr))
  {
    hide RoomOk;
    match FindPeer(s, addr)
    case None =>
    case Some(p) => DisconnectKeeps(s, p);
  }

  lemma ReleaseSpeakerKeeps<P>(s: State<P>, timeout: int, now: int)
    requires SessionOk(s)
    ensures SessionOk(ReleaseSpeaker(s, timeout, now))
  {
    hide RoomOk;
    ReleaseKeeps(s.room, timeout, now);
  }

  lemma ExpireOneKeeps<P>(s: State<P>, key: Callsign, timeout: int, now: int)
    requires SessionOk(s) && key in s.byCall
    ensures var t := ExpireOne(s, key, timeout, now);
            && SessionOk(t) && (forall k :: k in s.byCall && k != key ==> k in t.byCall)
  {
    hide RoomOk, Disconnect;
    DisconnectKeeps(s.(timeouts := s.timeouts + 1), s.byCall[key]);
  }

  lemma {:induction false} ExpireKeeps<P>(s: State<P>, keys: seq<Callsign>, timeout: int, now: int)
    requires SessionOk(s) && NoDuplicates(keys) && (forall k :: k in keys ==> k in s.byCall)
    ensures SessionOk(Expire(s, keys, timeout, now))
    decreases |keys|
  {
    if keys != [] {
      hide SessionOk, ExpireOne;
      ExpireOneKeeps(s, keys[0], timeout, now);
      assert forall k :: k in keys[1..] ==> k in keys && k != keys[0];
      ExpireKeeps(ExpireOne(s, keys[0], timeout, now), keys[1..], timeout, now);
    }
  }

  /** Whether a connected peer has been silent for the timeout. */
  predicate Silent<P(==)>(s: State<P>, key: Callsign, timeout: int, now: int)
    requires key in s.byCall && s.byCall[key] in s.info
  {
    now - s.info[s.byCall[key]].lastRx >= timeout
  }

  /** Every other peer stays connected, and as it was. */
  ghost predicate OthersStay<P>(s: State<P>, t: State<P>, gone: set<Callsign>) {
    forall k :: k in s.byCall ==>
      && (k in t.byCall <==> k !in gone)
      && (k in t.byCall && s.byCall[k] in s.info ==>
            t.byCall[k] == s.byCall[k] && t.byCall[k] in t.info
              && t.info[t.byCall[k]].lastRx == s.info[s.byCall[k]].lastRx)
  }

  lemma DroppedAlone<P>(byCall: map<Callsign, P>, info: map<P, PeerInfo>, key: Callsign)
    requires Filed(byCall, info) && key in byCall
    ensures forall k :: k in byCall && k != key ==> byCall[k] in info - {byCall[key]}
  {
  }

  lemma ExpireOneExactly<P>(s: State<P>, key: Callsign, timeout: int, now: int)
    requires SessionOk(s) && key in s.byCall
    ensures s.byCall[key] in s.info
    ensures OthersStay(s, ExpireOne(s, key, timeout, now), if Silent(s, key, timeout, now) then {key} else {})
    ensures ExpireOne(s, key, timeout, now).byCall.Keys <= s.byCall.Keys
  {
    hide IndexesOk, RoomOk, Filed, Disconnect;
    SessionParts(s);
    KnownCallIsLive(s, key);
    if Silent(s, key, timeout, now) {
      var u := s.(timeouts := s.timeouts + 1);
      SameIndexes(s, u);
      DisconnectKeeps(u, s.byCall[key]);
      hide SessionOk;
      DroppedAlone(s.byCall, s.info, key);
    }
  }

  /** Of the peers looked at, exactly the silent ones are disconnected. */
  lemma {:induction false} ExpiresExactly<P>(s: State<P>, keys: seq<Callsign>, timeout: int, now: int)
    requires SessionOk(s) && NoDuplicates(keys) && (forall k :: k in keys ==> k in s.byCall)
    ensures forall k :: k in s.byCall ==> s.byCall[k] in s.info
    ensures var t := Expire(s, keys, timeout, now);
            && (forall k :: k in s.byCall ==> (k in t.byCall <==> k !in keys || !Silent(s, k, timeout, now)))
            && t.byCall.Keys <= s.byCall.Keys
    decreases |keys|
  {
    hide SessionOk, ExpireOne, Expire, NoDuplicates;
    SessionParts(s);
    if keys == [] {
      ExpireNone(s, timeout, now);
    } else {
      var u := ExpireOne(s, keys[0], timeout, now);
      ExpireUnfolds(s, keys, timeout, now);
      ExpireOneExactly(s, keys[0], timeout, now);
      ExpiresExactly(u, keys[1..], timeout, now);
      RestIsOthers(keys);
    }
  }

  lemma {:induction false} RestIsOthers(keys: seq<Callsign>)
    requires NoDuplicates(keys) && keys != []
    ensures forall k :: k in keys <==> k == keys[0] || k in keys[1..]
    ensures keys[0] !in keys[1..]
  {
  }

  lemma CheckKeeps<P>(s: State<P>, now: int)
    requires SessionOk(s)
    ensures SessionOk(s.(lastExpireCheck := now)) && NoDuplicates(s.order) && forall k :: k in s.order ==> k in s.byCall
  {
    hide RoomOk;
  }

  lemma ExpireUnfolds<P>(s: State<P>, keys: seq<Callsign>, timeout: int, now: int)
    requires SessionOk(s) && NoDuplicates(keys) && (forall k :: k in keys ==> k in s.byCall) && keys != []
    ensures var t := ExpireOne(s, keys[0], timeout, now);
            && SessionOk(t) && NoDuplicates(keys[1..]) && (forall k :: k in keys[1..] ==> k in t.byCall)
            && Expire(s, keys, timeout, now) == Expire(t, keys[1..], timeout, now)
  {
    hide SessionOk, ExpireOne;
    ExpireOneKeeps(s, keys[0], timeout, now);
    assert forall k :: k in keys[1..] ==> k in keys && k != keys[0];
  }

  lemma ExpireNone<P>(s: State<P>, timeout: int, now: int)
    requires SessionOk(s)
    ensures Expire(s, [], timeout, now) == s
  {
  }

  lemma LoopEndKeeps<P>(s: State<P>, speaker: int, client: int, now: int)
    requires SessionOk(s)
    ensures SessionOk(ReleaseSpeaker(s, speaker, now))
    ensures SessionOk(ExpireStale(ReleaseSpeaker(s, speaker, now), client, now))
  {
    hide RoomOk, ReleaseIdle, Expire;
    ReleaseSpeakerKeeps(s, speaker, now);
    var t := ReleaseSpeaker(s, speaker, now);
    ExpireKeeps(t.(lastExpireCheck := now), t.order, client, now);
  }

  // ----- runs ----------------------------------------------------------------------------------------

  datatype Event<P> =
    | Control(datagram: Datagram, addr: Addr, access: Access, made: P, now: int)
    | Audio(datagram: Datagram, addr: Addr, access: Access, made: P, now: int)
    | Admin(callsign: Callsign)
    | LoopEnd(speakerTimeout: int, clientTimeout: int, now: int)

  /** A new peer object is not one of those already live. */
  predicate Possible<P(==)>(s: State<P>, e: Event<P>) { e.Control? || e.Audio? ==> e.made !in s.info }

  function Step<P(==)>(s: State<P>, e: Event<P>): Outcome<P>
    requires SessionOk(s) && Possible(s, e)
  {
    match e
    case Control(d, addr, access, made, now) => HandleControl(s, d, addr, access, made, now)
    case Audio(d, addr, access, made, now) => HandleAudio(s, d, addr, access, made, now)
    case Admin(key) => Running(DisconnectStation(s, key))
    case LoopEnd(speaker, client, now) =>
      ReleaseSpeakerKeeps(s, speaker, now);
      Running(ExpireStale(ReleaseSpeaker(s, speaker, now), client, now))
  }

  /** The callsign an event would connect if it is not connected yet. */
  function Wanted<P(==)>(s: State<P>, e: Event<P>): Option<Callsign> {
    match e
    case Control(Identity(callsign), _, _, _, _) => callsign
    case Control(Sdes(callsign), addr, _, _, _) => Some(if callsign.Some? then callsign.value else Unknown(addr.ip))
    case Audio(Identity(callsign), _, _, _, _) => callsign
    case Audio(Rtp(_), addr, _, _, _) => if addr.ip in s.byIp then None else Some(Unknown(addr.ip))
    case Audio(Sdes(_), addr, _, _, _) => if addr.ip in s.byIp then None else Some(Unknown(addr.ip))
    case Audio(Bad, addr, _, _, _) => if addr.ip in s.byIp then None else Some(Unknown(addr.ip))
    case _ => None
  }

  /** The one way a handler fails to return: an allowed newcomer meets a full roster. */
  predicate Overflows<P(==)>(s: State<P>, e: Event<P>) {
    && (e.Control? || e.Audio?) && Wanted(s, e).Some? && Wanted(s, e).value !in s.byCall
    && e.access.allowed && |s.order| >= s.room.maxStations
  }

  /**
   Every handler that returns leaves the session consistent; it fails to return exactly on a newcomer to a full
   roster.
   */
  lemma StepKeeps<P>(s: State<P>, e: Event<P>)
    requires SessionOk(s) && Possible(s, e)
    ensures Step(s, e).Running? ==> SessionOk(Step(s, e).state)
    ensures Step(s, e).Crashed? <==> Overflows(s, e)
  {
    hide RoomOk, HandleAudio, HandleControl, Disconnect, ExpireStale, ReleaseSpeaker;
    match e
    case Control(d, addr, access, made, now) => ControlKeeps(s, d, addr, access, made, now);
    case Audio(d, addr, access, made, now) => AudioKeeps(s, d, addr, access, made, now);
    case Admin(key) => if key in s.byCall { DisconnectKeeps(s, s.byCall[key]); }
    case LoopEnd(speaker, client, now) => LoopEndKeeps(s, speaker, client, now);
  }

  lemma ControlKeeps<P>(s: State<P>, d: Datagram, addr: Addr, access: Access, made: P, now: int)
    requires SessionOk(s) && made !in s.info
    ensures var o := HandleControl(s, d, addr, access, made, now);
            && (o.Running? ==> SessionOk(o.state))
            && (o.Crashed? <==> Overflows(s, Control(d, addr, access, made, now)))
  {
    hide RoomOk, IndexesOk;
    var t := Touch(s, addr, now);
    TouchKeeps(s, addr, now);
    match d
    case Goodbye => DisconnectByAddrKeeps(t, addr);
    case Identity(callsign) =>
      if callsign.Some? { ConnectKeeps(t, callsign.value, Some(addr), None, access, made, now); }
    case Sdes(callsign) =>
      ConnectKeeps(t, if callsign.Some? then callsign.value else Unknown(addr.ip), Some(addr), None, access, made, now);
    case _ =>
  }

  lemma AudioKeeps<P>(s: State<P>, d: Datagram, addr: Addr, access: Access, made: P, now: int)
    requires SessionOk(s) && made !in s.info
    ensures var o := HandleAudio(s, d, addr, access, made, now);
            && (o.Running? ==> SessionOk(o.state))
            && (o.Crashed? <==> Overflows(s, Audio(d, addr, access, made, now)))
  {
    hide RoomOk, IndexesOk, AudioFrom, Connect;
    var t := Touch(s, addr, now);
    TouchKeeps(s, addr, now);
    match d
    case Goodbye => DisconnectByAddrKeeps(t, addr);
    case Identity(callsign) =>
      if callsign.Some? { ConnectKeeps(t, callsign.value, None, Some(addr), access, made, now); }
    case _ => AudioFromKeeps(t, addr, FramesOf(d), access, made, now);
  }

  lemma AudioFromKeeps<P>(t: State<P>, addr: Addr, frames: Option<seq<Frame>>, access: Access, made: P, now: int)
    requires SessionOk(t) && made !in t.info
    ensures var o := AudioFrom(t, addr, frames, access, made, now);
            && (o.Running? ==> SessionOk(o.state))
            && (o.Crashed? <==> addr.ip !in t.byIp && Unknown(addr.ip) !in t.byCall
                                && access.allowed && |t.order| >= t.room.maxStations)
  {
    hide RoomOk, PeerAudio, Connect;
    if addr.ip in t.byIp {
      var p := t.byIp[addr.ip];
      var u := SetInfo(t, p, t.info[p].(audioAddr := Some(addr)));
      SetInfoKeeps(t, p, t.info[p].(audioAddr := Some(addr)));
      PeerAudioKeeps(u, p, frames, now);
    } else {
      ConnectKeeps(t, Unknown(addr.ip), None, Some(addr), access, made, now);
      var c := Connect(t, Unknown(addr.ip), None, Some(addr), access, made, now);
      if c.Peer? { PeerAudioKeeps(c.state, c.peer, frames, now); }
    }
  }

  ghost predicate Reaches<P>(s: State<P>, es: seq<Event<P>>, t: State<P>)
    decreases |es|
  {
    if es == [] then s == t
    else
      && SessionOk(s) && Possible(s, es[0])
      && Step(s, es[0]).Running? && Reaches(Step(s, es[0]).state, es[1..], t)
  }

  lemma {:induction false} RunKeeps<P>(s: State<P>, es: seq<Event<P>>, t: State<P>)
    requires SessionOk(s) && Reaches(s, es, t)
    ensures SessionOk(t)
    decreases |es|
  {
    if es != [] {
      hide SessionOk, Step;
      StepKeeps(s, es[0]);
      RunKeeps(Step(s, es[0]).state, es[1..], t);
    }
  }

  /** After any run of connects, audio, control traffic, disconnects and expiries in which no handler crashed. */
  lemma SessionAgrees<P>(maxStations: int, allowDuplicates: bool, es: seq<Event<P>>, s: State<P>)
    requires Reaches(Init(maxStations, allowDuplicates), es, s)
    ensures s.byCall.Keys == s.room.stations.Keys && s.order == s.room.order
    ensures forall ip :: ip in s.byIp ==> s.byIp[ip] in s.byCall.Values
    ensures s.room.active.Some? ==> s.room.active.value in s.byCall
    ensures forall k :: k in s.room.stations ==> (s.room.stations[k].isSpeaking <==> s.room.active == Some(k))
    ensures s.connected - s.disconnected == |s.order| == |s.byCall|
    ensures |s.order| <= if s.room.maxStations < 0 then 0 else s.room.maxStations
    ensures s.requested <==> s.room.active.Some?
  {
    hide Reaches, Step;
    InitKeeps<P>(maxStations, allowDuplicates);
    RunKeeps(Init(maxStations, allowDuplicates), es, s);
    assert s.byCall.Keys == SetOf(s.order) == s.room.stations.Keys;
    assert forall ip :: ip in s.byIp ==> s.info[s.byIp[ip]].callsign in s.byCall;
    SetOfSize(s.order);
  }
}
