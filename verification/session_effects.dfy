/** What each handler does to a session, spelled out field by field, and what that amounts to over whole runs. */
module SessionEffects {
  import opened Bytes
  import opened Sequences
  import opened Wrappers
  import opened ConferenceRoom
  import opened Session

  // ----- leaving ------------------------------------------------------------------------------

  /** The callsigns that are still filed, in the order they were. */
  function Still(order: seq<Callsign>, left: set<Callsign>): seq<Callsign> {
    if order == [] then []
    else
      var last := order[|order| - 1];
      Still(order[..|order| - 1], left) + if last in left then [last] else []
  }

  /** The peers in `gone`, and no others, have left everything they were in; nothing else is touched. */
  ghost predicate Leave<P>(s: State<P>, t: State<P>, gone: set<P>) {
    && (forall k :: k in t.byCall <==> k in s.byCall && s.byCall[k] !in gone)
    && (forall k :: k in t.byCall ==> t.byCall[k] == s.byCall[k])
    && (forall ip :: ip in t.byIp <==> ip in s.byIp && s.byIp[ip] !in gone)
    && (forall ip :: ip in t.byIp ==> t.byIp[ip] == s.byIp[ip])
    && t.info.Keys == s.info.Keys - gone
    && (forall p :: p in t.info ==> t.info[p] == s.info[p])
    && RosterLeft(s, t)
    && t.disconnected == s.disconnected + |gone| && t.connected == s.connected && t.gateway == s.gateway
  }

  /** The roster has lost those no longer filed; if the speaker is one, there is no speaker and no key request. */
  ghost predicate RosterLeft<P>(s: State<P>, t: State<P>) {
    && (forall k :: k in t.room.stations <==> k in s.room.stations && k in t.byCall)
    && (forall k :: k in t.room.stations ==> t.room.stations[k] == s.room.stations[k])
    && t.order == Still(s.order, t.byCall.Keys)
    && t.room.active == (if s.room.active.Some? && s.room.active.value in t.byCall then s.room.active else None)
    && t.requested == (s.requested && t.room.active == s.room.active)
    && t.room.maxStations == s.room.maxStations && t.room.allowDuplicates == s.room.allowDuplicates
  }

  lemma {:induction false} StillAll(order: seq<Callsign>, left: set<Callsign>)
    requires forall k :: k in order ==> k in left
    ensures Still(order, left) == order
  {
    if order != [] {
      StillAll(order[..|order| - 1], left);
      SplitLast(order);
    }
  }

  lemma {:induction false} StillConcat(a: seq<Callsign>, b: seq<Callsign>, left: set<Callsign>)
    ensures Still(a + b, left) == Still(a, left) + Still(b, left)
  {
    if b == [] {
      assert a + b == a;
    } else {
      StillConcat(a, b[..|b| - 1], left);
      assert (a + b)[..|a + b| - 1] == a + b[..|b| - 1];
    }
  }

  lemma {:induction false} WithoutIsStill(order: seq<Callsign>, key: Callsign, left: set<Callsign>)
    requires NoDuplicates(order) && key in order && forall k :: k in order ==> (k in left <==> k != key)
    ensures Without(order, key) == Still(order, left)
  {
    var i := Index(order, key);
    var a, b := order[..i], order[i + 1..];
    assert order == a + [key] + b;
    StillConcat(a + [key], b, left);
    StillConcat(a, [key], left);
    assert [key][..0] == [] && Still([], left) == [];
    StillAll(a, left);
    StillAll(b, left);
    assert a + [] == a;
  }

  lemma {:induction false} StillTwice(order: seq<Callsign>, first: set<Callsign>, second: set<Callsign>)
    requires second <= first
    ensures Still(Still(order, first), second) == Still(order, second)
  {
    if order != [] {
      var n, last := |order| - 1, order[|order| - 1];
      StillTwice(order[..n], first, second);
      var before := Still(order[..n], first);
      if last in first { TakeAppended(before, [last]); } else { assert before + [] == before; }
    }
  }

  /** Disconnecting a peer is its leaving. */
  lemma {:induction false} DisconnectLeaves<P>(s: State<P>, p: P)
    requires SessionOk(s) && p in s.info
    ensures var t := Disconnect(s, p);
            Leave(s, t, {p}) && t.timeouts == s.timeouts && t.lastExpireCheck == s.lastExpireCheck
  {
    var key := s.info[p].callsign;
    var t := Disconnect(s, p);
    DisconnectKeeps(s, p);
    assert forall k :: k in s.byCall ==> (s.byCall[k] == p <==> k == key);
    RosterLeaves(s, p);
  }

  lemma DisconnectFacts<P>(s: State<P>, p: P)
    requires SessionOk(s) && p in s.info
    ensures var key, t := s.info[p].callsign, Disconnect(s, p);
            && RoomOk(s.room) && key in s.room.stations
            && t.room == Remove(s.room, key) && t.byCall.Keys == s.byCall.Keys - {key}
            && s.room.stations.Keys == s.byCall.Keys
            && (s.room.active.Some? ==> s.room.active.value in s.byCall)
  {
    hide Remove, Without, DropIp;
    SessionParts(s);
    assert s.room.active.Some? ==> s.room.active.value in s.room.stations;
  }

  lemma {:induction false} RosterLeaves<P>(s: State<P>, p: P)
    requires SessionOk(s) && p in s.info
    ensures RosterLeft(s, Disconnect(s, p))
  {
    hide Still, Remove, RoomOk, IndexesOk, SessionOk, Disconnect;
    DisconnectFacts(s, p);
    OrderLeaves(s, p);
    RemoveKeeps(s.room, s.info[p].callsign);
  }

  lemma {:induction false} OrderLeaves<P>(s: State<P>, p: P)
    requires SessionOk(s) && p in s.info
    ensures var t := Disconnect(s, p);
            t.order == Still(s.order, t.byCall.Keys)
            && t.requested == (s.requested && s.room.active != Some(s.info[p].callsign))
  {
    var key, t := s.info[p].callsign, Disconnect(s, p);
    assert key in s.order && t.byCall.Keys == s.byCall.Keys - {key};
    WithoutIsStill(s.order, key, t.byCall.Keys);
  }

  /** Leaving is leaving, one after another or at once. */
  lemma {:induction false} LeaveTwice<P>(s: State<P>, t: State<P>, u: State<P>, first: set<P>, second: set<P>)
    requires Leave(s, t, first) && Leave(t, u, second) && first !! second
    ensures Leave(s, u, first + second)
  {
    StillTwice(s.order, t.byCall.Keys, u.byCall.Keys);
    assert |first + second| == |first| + |second|;
  }

  lemma LeaveNobody<P>(s: State<P>)
    requires SessionOk(s)
    ensures Leave(s, s, {})
  {
    StillAll(s.order, s.byCall.Keys);
  }

  // ----- being heard of ---------------------------------------------------------------------------

  /** The peer a datagram belongs to, if any, has a new time of last packet; nothing else is touched. */
  ghost predicate Touched<P>(s: State<P>, t: State<P>, from: Option<P>, now: int) {
    && t == s.(info := t.info) && t.info.Keys == s.info.Keys
    && (forall p :: p in s.info ==> t.info[p] == if from == Some(p) then s.info[p].(lastRx := now) else s.info[p])
  }

  lemma TouchTouches<P>(s: State<P>, addr: Addr, now: int)
    requires SessionOk(s)
    ensures Touched(s, Touch(s, addr, now), FindPeer(s, addr), now)
    ensures SessionOk(Touch(s, addr, now)) && Touch(s, addr, now).info.Keys == s.info.Keys
  {
    TouchKeeps(s, addr, now);
    hide SessionOk, FindPeer;
  }

  lemma {:induction false} ByAddrUntouched<P>(s: State<P>, t: State<P>, order: seq<Callsign>, addr: Addr)
    requires forall k :: k in order ==> k in s.byCall && s.byCall[k] in s.info
    requires t.byCall == s.byCall && t.info.Keys == s.info.Keys
    requires forall p :: p in s.info ==>
               t.info[p].controlAddr == s.info[p].controlAddr && t.info[p].audioAddr == s.info[p].audioAddr
    ensures ByAddr(t, order, addr) == ByAddr(s, order, addr)
  {
    if order != [] { ByAddrUntouched(s, t, order[1..], addr); }
  }

  /** Touching does not change whose datagram it is. */
  lemma FindUntouched<P>(s: State<P>, t: State<P>, addr: Addr, from: Option<P>, now: int)
    requires SessionOk(s) && SessionOk(t) && Touched(s, t, from, now)
    ensures FindPeer(t, addr) == FindPeer(s, addr)
  {
    OrderIsFiled(s);
    OrderIsFiled(t);
    TouchedAddresses(s, t, from, now);
    hide SessionOk, IndexesOk, ByAddr, Matches, Touched;
    ByAddrUntouched(s, t, s.order, addr);
  }

  lemma TouchedAddresses<P>(s: State<P>, t: State<P>, from: Option<P>, now: int)
    requires Touched(s, t, from, now)
    ensures t.byCall == s.byCall && t.byIp == s.byIp && t.order == s.order && t.info.Keys == s.info.Keys
    ensures forall p :: p in s.info ==>
              t.info[p].controlAddr == s.info[p].controlAddr && t.info[p].audioAddr == s.info[p].audioAddr
  {
  }

  lemma OrderIsFiled<P>(s: State<P>)
    requires SessionOk(s)
    ensures IndexesOk(s) && forall k :: k in s.order ==> k in s.byCall && s.byCall[k] in s.info
  {
    hide RoomOk;
  }

  /** A goodbye from an address: the peer it belongs to leaves, or, if it belongs to nobody, nothing happens. */
  ghost predicate SaysGoodbye<P>(s: State<P>, o: Outcome<P>, from: Option<P>) {
    && o.Running?
    && (if from.Some? then Leave(s, o.state, {from.value}) && o.state.timeouts == s.timeouts else o.state == s)
  }

  lemma LeaveTouched<P>(s: State<P>, t: State<P>, u: State<P>, p: P, now: int)
    requires Touched(s, t, Some(p), now) && Leave(t, u, {p})
    ensures Leave(s, u, {p})
  {
    hide Still;
  }

  lemma {:induction false} GoodbyeLeaves<P>(s: State<P>, addr: Addr, access: Access, made: P, now: int)
    requires SessionOk(s) && made !in s.info
    ensures SaysGoodbye(s, HandleControl(s, Goodbye, addr, access, made, now), FindPeer(s, addr))
    ensures SaysGoodbye(s, HandleAudio(s, Goodbye, addr, access, made, now), FindPeer(s, addr))
  {
    var t, from := Touch(s, addr, now), FindPeer(s, addr);
    TouchTouches(s, addr, now);
    FindUntouched(s, t, addr, from, now);
    hide SessionOk, FindPeer, Touch, Leave, Disconnect;
    if from.Some? {
      TouchedAlone(s, t, from.value, now);
      DisconnectLeaves(t, from.value);
      LeaveTouched(s, t, Disconnect(t, from.value), from.value, now);
    } else {
      assert t.info == s.info;
    }
  }

  lemma TouchedAlone<P>(s: State<P>, t: State<P>, p: P, now: int)
    requires Touched(s, t, Some(p), now)
    ensures t.info.Keys == s.info.Keys && t.timeouts == s.timeouts
  {
  }

  // ----- being introduced -------------------------------------------------------------------------

  /** The IP index after a peer has been heard from an address: it has that address, and the others are as they were. */
  ghost predicate Reachable<P>(s: State<P>, t: State<P>, p: P, ip: Ip) {
    && t.byIp.Keys == s.byIp.Keys + {ip}
    && (forall i :: i in t.byIp ==> t.byIp[i] == if i == ip then p else s.byIp[i])
  }

  /** What is known of a peer heard on one of the two ports, from now on. */
  function HeardAt(callsign: Callsign, control: bool, addr: Addr, other: Option<Addr>, now: int): PeerInfo {
    if control then PeerInfo(callsign, Some(addr), other, now) else PeerInfo(callsign, other, Some(addr), now)
  }

  /** A peer already connected has one more address, and only that one changes. */
  ghost predicate Readdressed<P>(s: State<P>, t: State<P>, p: P, addr: Addr, control: bool, from: Option<P>, now: int) {
    && p in s.info && t == s.(info := t.info, byIp := t.byIp) && t.info.Keys == s.info.Keys
    && Reachable(s, t, p, addr.ip)
    && (forall q :: q in s.info ==>
          t.info[q]
          == if q == p then
               HeardAt(s.info[p].callsign, control, addr,
                       if control then s.info[p].audioAddr else s.info[p].controlAddr, now)
             else if from == Some(q) then s.info[q].(lastRx := now) else s.info[q])
  }

  /** A newcomer is filed under its callsign and its address, joins the roster as nobody's speaker, and is counted. */
  ghost predicate Joined<P>(s: State<P>, t: State<P>, key: Callsign, dmrId: Option<int>, made: P, addr: Addr,
                            control: bool, from: Option<P>, now: int) {
    && t == s.(order := s.order + [key], byCall := s.byCall[key := made], byIp := t.byIp, info := t.info,
               room := t.room, connected := s.connected + 1)
    && t.info.Keys == s.info.Keys + {made} && Reachable(s, t, made, addr.ip)
    && t.info[made] == HeardAt(key, control, addr, None, now)
    && (forall q :: q in s.info && q != made ==>
          t.info[q] == if from == Some(q) then s.info[q].(lastRx := now) else s.info[q])
    && t.room == s.room.(stations := s.room.stations[key := Station(dmrId, false, None, false)],
                         order := s.room.order + [key])
  }

  /** What an identity from an address leads to; `key` is the callsign it gives, if any. */
  ghost predicate Introduced<P>(s: State<P>, o: Outcome<P>, key: Option<Callsign>, addr: Addr, control: bool,
                                access: Access, made: P, from: Option<P>, now: int) {
    if key.Some? && key.value in s.byCall then
      o.Running? && Readdressed(s, o.state, s.byCall[key.value], addr, control, from, now)
    else if key.None? || !access.allowed then o.Running? && Touched(s, o.state, from, now)
    else if |s.order| >= s.room.maxStations then o.Crashed?
    else o.Running? && Joined(s, o.state, key.value, access.dmrId, made, addr, control, from, now)
  }

  function ControlOf(control: bool, addr: Addr): Option<Addr> { if control then Some(addr) else None }

  lemma {:induction false} KnownReaddresses<P>(s: State<P>, t: State<P>, p: P, addr: Addr, control: bool,
                                               from: Option<P>, now: int)
    requires Touched(s, t, from, now) && p in s.info
    ensures Readdressed(s, Known(t, p, ControlOf(control, addr), ControlOf(!control, addr), now),
                        p, addr, control, from, now)
  {
  }

  lemma {:induction false} NewcomerJoins<P>(s: State<P>, t: State<P>, u: State<P>, key: Callsign, access: Access,
                                            made: P, addr: Addr, control: bool, from: Option<P>, now: int)
    requires Touched(s, t, from, now) && made !in s.info
    requires u == t.(order := t.order + [key], byCall := t.byCall[key := made],
                     info := t.info[made := PeerInfo(key, None, None, now)], room := u.room,
                     connected := t.connected + 1)
    requires u.room == t.room.(stations := t.room.stations[key := Station(access.dmrId, false, None, false)],
                               order := t.room.order + [key])
    ensures made in u.info
    ensures Joined(s, Known(u, made, ControlOf(control, addr), ControlOf(!control, addr), now), key, access.dmrId,
                   made, addr, control, from, now)
  {
  }

  lemma {:induction false} AdmitIs<P>(s: State<P>, key: Callsign, access: Access, made: P, now: int)
    requires SessionOk(s) && made !in s.info
    ensures var c := Admit(s, key, access, made, now);
            if key in s.byCall then c == Peer(s, s.byCall[key]) && s.byCall[key] in s.info
            else if !access.allowed then c == Rejected
            else if |s.order| >= s.room.maxStations then c == RosterFull
            else
              && c.Peer? && c.peer == made
              && c.state == s.(order := s.order + [key], byCall := s.byCall[key := made],
                               info := s.info[made := PeerInfo(key, None, None, now)],
                               room := c.state.room, connected := s.connected + 1)
              && c.state.room == s.room.(stations := s.room.stations[key := Station(access.dmrId, false, None, false)],
                                         order := s.room.order + [key])
  {
    hide IndexesOk, RoomOk, Add, Filed, NewStation;
    SessionParts(s);
    assert s.room.order == s.order;
    hide SessionOk;
    if key in s.byCall {
      KnownCallIsLive(s, key);
    } else {
      AddedRoom(s.room, key, access.dmrId);
    }
  }

  lemma AddedRoom(r: Room, key: Callsign, dmrId: Option<int>)
    requires RoomOk(r) && key !in r.stations
    ensures var a := Add(r, key, NewStation(dmrId));
            if |r.order| >= r.maxStations then a.Refused?
            else
              && a.Accepted?
              && a.room == r.(stations := r.stations[key := Station(dmrId, false, None, false)],
                              order := r.order + [key])
  {
    AddKeeps(r, key, dmrId);
    hide RoomOk;
  }

  lemma {:induction false} ConnectIntroduces<P>(s: State<P>, t: State<P>, key: Callsign, addr: Addr, control: bool,
                                                access: Access, made: P, from: Option<P>, now: int)
    requires SessionOk(t) && Touched(s, t, from, now) && made !in s.info
    requires forall k :: k in s.byCall ==> s.byCall[k] in s.info
    ensures made !in t.info
    ensures var c := Connect(t, key, ControlOf(control, addr), ControlOf(!control, addr), access, made, now);
            Introduced(s, AfterConnect(t, c), Some(key), addr, control, access, made, from, now)
  {
    AdmitIs(t, key, access, made, now);
    var c := Admit(t, key, access, made, now);
    hide SessionOk, Admit, Known, Joined, Readdressed;
    if c.Peer? {
      if key in s.byCall {
        KnownReaddresses(s, t, c.peer, addr, control, from, now);
        assert c.state == t;
      } else {
        NewcomerJoins(s, t, c.state, key, access, made, addr, control, from, now);
      }
    }
  }

  /** Every datagram on the control port. */
  lemma {:induction false} ControlEffects<P>(s: State<P>, d: Datagram, addr: Addr, access: Access, made: P, now: int)
    requires SessionOk(s) && made !in s.info
    ensures var o, from := HandleControl(s, d, addr, access, made, now), FindPeer(s, addr);
            match d
            case Goodbye => SaysGoodbye(s, o, from)
            case Identity(callsign) => Introduced(s, o, callsign, addr, true, access, made, from, now)
            case Sdes(callsign) =>
              Introduced(s, o, Some(if callsign.Some? then callsign.value else "UNKNOWN-" + addr.ip), addr, true,
                         access, made, from, now)
            case _ => o.Running? && Touched(s, o.state, from, now)
  {
    var t, from := Touch(s, addr, now), FindPeer(s, addr);
    TouchTouches(s, addr, now);
    PeersAreLive(s);
    hide SessionOk, Touch, FindPeer, Touched, SaysGoodbye, Introduced, Connect;
    match d
    case Goodbye => GoodbyeLeaves(s, addr, access, made, now);
    case Identity(callsign) =>
      if callsign.Some? {
        ConnectIntroduces(s, t, callsign.value, addr, true, access, made, from, now);
      } else {
        NotIntroduced(s, t, addr, true, access, made, from, now);
      }
    case Sdes(callsign) =>
      ConnectIntroduces(s, t, if callsign.Some? then callsign.value else Unknown(addr.ip), addr, true, access, made,
                        from, now);
    case _ =>
  }

  lemma NotIntroduced<P>(s: State<P>, t: State<P>, addr: Addr, control: bool, access: Access, made: P,
                         from: Option<P>, now: int)
    requires Touched(s, t, from, now)
    ensures Introduced(s, Running(t), None, addr, control, access, made, from, now)
  {
  }

  lemma PeersAreLive<P>(s: State<P>)
    requires SessionOk(s)
    ensures forall k :: k in s.byCall ==> s.byCall[k] in s.info && s.info[s.byCall[k]].callsign == k
    ensures forall ip :: ip in s.byIp ==> s.byIp[ip] in s.info
  {
  }

  // ----- speaking ---------------------------------------------------------------------------------

  /** Frames from a station that has the floor, or takes it because it is free, all go to the gateway; others do not. */
  ghost predicate Speaks<P>(s: State<P>, t: State<P>, key: Callsign, frames: seq<Frame>, now: int)
    requires key in s.room.stations
  {
    var granted := frames != [] && (s.room.active.None? || s.room.active == Some(key));
    && t == s.(room := t.room, requested := granted || s.requested,
               gateway := s.gateway + if granted then frames else [])
    && t.room == s.room.(stations := t.room.stations, active := if granted then Some(key) else s.room.active)
    && t.room.stations.Keys == s.room.stations.Keys
    && (forall k :: k in s.room.stations ==>
          t.room.stations[k]
          == if granted && k == key then s.room.stations[k].(isSpeaking := true, lastHeardAt := Some(now))
             else s.room.stations[k])
  }

  lemma {:induction false} FrameSpeaks<P>(s: State<P>, key: Callsign, frame: Frame, now: int)
    requires SessionOk(s) && key in s.room.stations
    ensures Speaks(s, SpeakerFrame(s, key, frame, now), key, [frame], now)
  {
    AfterFrameKeeps(s.room, key, now);
    BeginKeeps(s.room, key, now);
    FrameGrants(s.room, key, now);
    hide SessionOk, RoomOk, AfterFrame, Begin;
    assert s.gateway + [] == s.gateway;
  }

  lemma FrameGrants(r: Room, key: Callsign, now: int)
    requires RoomOk(r) && key in r.stations
    ensures var t := AfterFrame(r, key, now);
            && t == r.(stations := t.stations, active := t.active)
            && t.active == if r.active.None? then Some(key) else r.active
  {
  }

  lemma {:induction false} SpeaksOn<P>(s: State<P>, t: State<P>, u: State<P>, key: Callsign, frame: Frame,
                                       rest: seq<Frame>, now: int)
    requires key in s.room.stations && Speaks(s, t, key, [frame], now)
    requires key in t.room.stations && Speaks(t, u, key, rest, now)
    ensures Speaks(s, u, key, [frame] + rest, now)
  {
    Assoc(s.gateway, [frame], rest);
    assert s.gateway + [] == s.gateway && t.gateway + [] == t.gateway;
    assert [frame] + rest != [];
    assert rest == [] ==> [frame] + rest == [frame];
  }

  lemma NoFramesSpeak<P>(s: State<P>, key: Callsign, now: int)
    requires key in s.room.stations
    ensures Speaks(s, s, key, [], now)
  {
    assert s.gateway + [] == s.gateway;
  }

  lemma {:induction false} FramesSpeak<P>(s: State<P>, key: Callsign, frames: seq<Frame>, now: int)
    requires SessionOk(s) && key in s.room.stations
    ensures Speaks(s, SpeakerFrames(s, key, frames, now), key, frames, now)
    decreases |frames|
  {
    hide SpeakerFrame;
    if frames == [] {
      NoFramesSpeak(s, key, now);
    } else {
      var t := SpeakerFrame(s, key, frames[0], now);
      SpeakerFrameKeeps(s, key, frames[0], now);
      FrameSpeaks(s, key, frames[0], now);
      assert key in t.room.stations;
      hide Speaks, SessionOk;
      FramesSpeak(t, key, frames[1..], now);
      SpeaksOn(s, t, SpeakerFrames(t, key, frames[1..], now), key, frames[0], frames[1..], now);
      assert [frames[0]] + frames[1..] == frames;
    }
  }

  /** Decoded audio from a peer: its station has just been heard, whoever has the floor, and then speaks. */
  ghost predicate HeardFrom<P>(s: State<P>, t: State<P>, p: P, frames: Option<seq<Frame>>, now: int) {
    if frames.None? then t == s
    else
      && p in s.info && s.info[p].callsign in s.room.stations
      && var key := s.info[p].callsign;
         var heard := s.room.stations[key].(lastHeardAt := Some(now));
         Speaks(s.(room := s.room.(stations := s.room.stations[key := heard])), t, key, frames.value, now)
  }

  lemma {:induction false} PeerIsHeard<P>(s: State<P>, p: P, frames: Option<seq<Frame>>, now: int)
    requires SessionOk(s) && p in s.info
    ensures HeardFrom(s, PeerAudio(s, p, frames, now), p, frames, now)
  {
    if frames.Some? {
      var key := s.info[p].callsign;
      PeerOnRoster(s, p);
      MarkHeardKeeps(s, key, now);
      HeardIs(s.room, key, now);
      hide SessionOk, Speaks, SpeakerFrames, Heard;
      FramesSpeak(s.(room := Heard(s.room, key, now)), key, frames.value, now);
    }
  }

  lemma HeardIs(r: Room, key: Callsign, now: int)
    requires key in r.stations
    ensures Heard(r, key, now) == r.(stations := r.stations[key := r.stations[key].(lastHeardAt := Some(now))])
  {
  }

  /**
   A datagram on the audio port that is neither a goodbye nor an identity: its sender is known by its IP and has this
   audio address from now on, or is introduced as unknown; then what it says is heard.
   */
  ghost predicate AudioArrives<P>(s: State<P>, o: Outcome<P>, u: State<P>, p: P, addr: Addr, frames: Option<seq<Frame>>,
                                  access: Access, made: P, from: Option<P>, now: int) {
    if addr.ip in s.byIp then
      && o.Running? && p == s.byIp[addr.ip] && p in s.info
      && u == s.(info := u.info) && u.info.Keys == s.info.Keys
      && (forall q :: q in s.info ==>
            var i := if from == Some(q) then s.info[q].(lastRx := now) else s.info[q];
            u.info[q] == if q == p then i.(audioAddr := Some(addr)) else i)
      && HeardFrom(u, o.state, p, frames, now)
    else
      var key := "UNKNOWN-" + addr.ip;
      && Introduced(s, if o.Running? then Running(u) else Crashed, Some(key), addr, false, access, made, from, now)
      && (o.Running? ==>
            if key in u.byCall then p == u.byCall[key] && HeardFrom(u, o.state, p, frames, now) else o.state == u)
  }

  lemma {:induction false} KnownSenderArrives<P>(s: State<P>, t: State<P>, addr: Addr, frames: Option<seq<Frame>>,
                                                 access: Access, made: P, from: Option<P>, now: int)
    returns (u: State<P>, p: P)
    requires SessionOk(t) && Touched(s, t, from, now) && made !in t.info && addr.ip in t.byIp
    ensures AudioArrives(s, AudioFrom(t, addr, frames, access, made, now), u, p, addr, frames, access, made, from, now)
  {
    PeersAreLive(t);
    p := t.byIp[addr.ip];
    var i := t.info[p].(audioAddr := Some(addr));
    u := SetInfo(t, p, i);
    SetInfoKeeps(t, p, i);
    hide SessionOk, PeerAudio, HeardFrom;
    PeerIsHeard(u, p, frames, now);
  }

  lemma {:induction false} UnknownSenderArrives<P>(s: State<P>, t: State<P>, addr: Addr, frames: Option<seq<Frame>>,
                                                   access: Access, made: P, from: Option<P>, now: int)
    returns (u: State<P>, p: P)
    requires SessionOk(s) && SessionOk(t) && Touched(s, t, from, now) && made !in s.info && made !in t.info
    requires addr.ip !in t.byIp
    ensures AudioArrives(s, AudioFrom(t, addr, frames, access, made, now), u, p, addr, frames, access, made, from, now)
  {
    PeersAreLive(s);
    var key := Unknown(addr.ip);
    ConnectIntroduces(s, t, key, addr, false, access, made, from, now);
    ConnectKeeps(t, key, None, Some(addr), access, made, now);
    var c := Connect(t, key, None, Some(addr), access, made, now);
    u, p := t, made;
    if c.Peer? {
      u, p := c.state, c.peer;
      FiledUnder(u, p, key);
      hide SessionOk, PeerAudio, HeardFrom, Connect, Introduced;
      PeerIsHeard(u, p, frames, now);
    } else if c.Rejected? {
      RejectedIsNew(t, key, None, Some(addr), access, made, now);
    }
    hide SessionOk, PeerAudio, HeardFrom, Connect, Introduced;
  }

  lemma {:induction false} AudioFromArrives<P>(s: State<P>, t: State<P>, addr: Addr, frames: Option<seq<Frame>>,
                                               access: Access, made: P, from: Option<P>, now: int)
    returns (u: State<P>, p: P)
    requires SessionOk(s) && SessionOk(t) && Touched(s, t, from, now) && made !in s.info && made !in t.info
    ensures AudioArrives(s, AudioFrom(t, addr, frames, access, made, now), u, p, addr, frames, access, made, from, now)
  {
    hide SessionOk, Touched, AudioFrom, AudioArrives;
    if addr.ip in t.byIp {
      u, p := KnownSenderArrives(s, t, addr, frames, access, made, from, now);
    } else {
      u, p := UnknownSenderArrives(s, t, addr, frames, access, made, from, now);
    }
  }

  lemma FiledUnder<P>(s: State<P>, p: P, key: Callsign)
    requires SessionOk(s) && p in s.info && s.info[p].callsign == key
    ensures key in s.byCall && s.byCall[key] == p
  {
  }

  lemma RejectedIsNew<P>(s: State<P>, key: Callsign, control: Option<Addr>, audio: Option<Addr>, access: Access,
                         made: P, now: int)
    requires SessionOk(s) && made !in s.info && Connect(s, key, control, audio, access, made, now).Rejected?
    ensures key !in s.byCall
  {
  }

  /** Every datagram on the audio port. */
  lemma {:induction false} AudioEffects<P>(s: State<P>, d: Datagram, addr: Addr, access: Access, made: P, now: int)
    returns (u: State<P>, p: P)
    requires SessionOk(s) && made !in s.info
    ensures var o, from := HandleAudio(s, d, addr, access, made, now), FindPeer(s, addr);
            match d
            case Goodbye => SaysGoodbye(s, o, from)
            case Identity(callsign) => Introduced(s, o, callsign, addr, false, access, made, from, now)
            case Rtp(frames) => AudioArrives(s, o, u, p, addr, frames, access, made, from, now)
            case _ => AudioArrives(s, o, u, p, addr, None, access, made, from, now)
  {
    var t, from := Touch(s, addr, now), FindPeer(s, addr);
    u, p := s, made;
    TouchTouches(s, addr, now);
    PeersAreLive(s);
    hide SessionOk, Touch, FindPeer, Touched, SaysGoodbye, Introduced, Connect, AudioFrom, AudioArrives;
    match d
    case Goodbye => GoodbyeLeaves(s, addr, access, made, now);
    case Identity(callsign) =>
      if callsign.Some? {
        ConnectIntroduces(s, t, callsign.value, addr, false, access, made, from, now);
      } else {
        NotIntroduced(s, t, addr, false, access, made, from, now);
      }
    case _ => u, p := AudioFromArrives(s, t, addr, FramesOf(d), access, made, from, now);
  }

  // ----- timers and requests ------------------------------------------------------------------------

  /** The peers not heard of for the timeout. */
  ghost function SilentPeers<P>(s: State<P>, keys: seq<Callsign>, timeout: int, now: int): set<P>
    requires forall k :: k in s.byCall ==> s.byCall[k] in s.info
  {
    set k | k in keys && k in s.byCall && now - s.info[s.byCall[k]].lastRx >= timeout :: s.byCall[k]
  }

  /** Neither counting timeouts nor noting the time of the check makes a difference to who leaves. */
  lemma LeaveUncounted<P>(s: State<P>, u: State<P>, t: State<P>, gone: set<P>)
    requires u == s.(timeouts := u.timeouts, lastExpireCheck := u.lastExpireCheck) && Leave(u, t, gone)
    ensures Leave(s, t, gone)
  {
    hide Still;
  }

  lemma Uncounted<P>(s: State<P>, timeouts: nat, check: int)
    requires SessionOk(s)
    ensures SessionOk(s.(timeouts := timeouts, lastExpireCheck := check))
  {
    hide RoomOk;
  }

  lemma {:induction false} OneExpires<P>(s: State<P>, key: Callsign, timeout: int, now: int)
    requires SessionOk(s) && key in s.byCall
    ensures s.byCall[key] in s.info
    ensures var p, t := s.byCall[key], ExpireOne(s, key, timeout, now);
            var gone := if now - s.info[p].lastRx >= timeout then {p} else {};
            Leave(s, t, gone) && t.timeouts == s.timeouts + |gone| && t.lastExpireCheck == s.lastExpireCheck
  {
    hide IndexesOk, RoomOk, Disconnect, Leave;
    KnownCallIsLive(s, key);
    LeaveNobody(s);
    var p, u := s.byCall[key], s.(timeouts := s.timeouts + 1);
    Uncounted(s, s.timeouts + 1, s.lastExpireCheck);
    if now - s.info[p].lastRx >= timeout {
      DisconnectLeaves(u, p);
      LeaveUncounted(s, u, Disconnect(u, p), {p});
    }
  }

  lemma LeaveParts<P>(s: State<P>, u: State<P>, gone: set<P>)
    requires Leave(s, u, gone)
    ensures forall k :: k in u.byCall <==> k in s.byCall && s.byCall[k] !in gone
    ensures forall k :: k in u.byCall ==> u.byCall[k] == s.byCall[k]
    ensures forall p :: p in u.info ==> p in s.info && u.info[p] == s.info[p]
  {
    hide RosterLeft;
    assert forall p :: p in u.info ==> p in s.info.Keys - gone;
  }

  /** Those of `keys` silent for the timeout are the first, if it is, and those of the rest. */
  lemma {:induction false} SilentSplit<P>(s: State<P>, u: State<P>, keys: seq<Callsign>, first: set<P>, timeout: int,
                                          now: int)
    requires Filed(s.byCall, s.info) && NoDuplicates(keys) && keys != [] && (forall k :: k in keys ==> k in s.byCall)
    requires forall k :: k in u.byCall ==> u.byCall[k] in u.info
    requires first == SilentPeers(s, [keys[0]], timeout, now)
    requires forall k :: k in u.byCall <==> k in s.byCall && s.byCall[k] !in first
    requires forall k :: k in u.byCall ==> u.byCall[k] == s.byCall[k]
    requires forall p :: p in u.info ==> p in s.info && u.info[p] == s.info[p]
    ensures first !! SilentPeers(u, keys[1..], timeout, now)
    ensures SilentPeers(s, keys, timeout, now) == first + SilentPeers(u, keys[1..], timeout, now)
  {
    RestIsOthers(keys);
    hide NoDuplicates;
    var all, rest := SilentPeers(s, keys, timeout, now), SilentPeers(u, keys[1..], timeout, now);
    assert forall k :: k in [keys[0]] <==> k == keys[0];
    forall p | p in all ensures p in first + rest {
      var k :| k in keys && k in s.byCall && now - s.info[s.byCall[k]].lastRx >= timeout && s.byCall[k] == p;
      if k != keys[0] && p !in first {
        assert k in u.byCall && k in keys[1..];
      }
    }
  }

  lemma {:induction false} ListedExpire<P>(s: State<P>, keys: seq<Callsign>, timeout: int, now: int)
    requires SessionOk(s) && NoDuplicates(keys) && (forall k :: k in keys ==> k in s.byCall)
    ensures forall k :: k in s.byCall ==> s.byCall[k] in s.info
    ensures var t, gone := Expire(s, keys, timeout, now), SilentPeers(s, keys, timeout, now);
            Leave(s, t, gone) && t.timeouts == s.timeouts + |gone| && t.lastExpireCheck == s.lastExpireCheck
    decreases |keys|
  {
    PeersAreLive(s);
    if keys == [] {
      LeaveNobody(s);
      ExpireNone(s, timeout, now);
      assert SilentPeers(s, [], timeout, now) == {};
    } else {
      hide SessionOk, IndexesOk, RoomOk, ExpireOne, Expire, SilentPeers, NoDuplicates, Leave;
      var u := ExpireOne(s, keys[0], timeout, now);
      ExpireUnfolds(s, keys, timeout, now);
      FirstExpires(s, keys, timeout, now);
      ListedExpire(u, keys[1..], timeout, now);
      var first, rest := SilentPeers(s, [keys[0]], timeout, now), SilentPeers(u, keys[1..], timeout, now);
      LeaveTwice(s, u, Expire(u, keys[1..], timeout, now), first, rest);
      assert |first + rest| == |first| + |rest|;
    }
  }

  lemma {:induction false} FirstExpires<P>(s: State<P>, keys: seq<Callsign>, timeout: int, now: int)
    requires SessionOk(s) && NoDuplicates(keys) && keys != [] && (forall k :: k in keys ==> k in s.byCall)
    requires forall k :: k in s.byCall ==> s.byCall[k] in s.info
    requires var u := ExpireOne(s, keys[0], timeout, now); SessionOk(u)
    ensures var u := ExpireOne(s, keys[0], timeout, now);
            && (forall k :: k in u.byCall ==> u.byCall[k] in u.info)
            && var first, rest := SilentPeers(s, [keys[0]], timeout, now), SilentPeers(u, keys[1..], timeout, now);
               && Leave(s, u, first) && u.timeouts == s.timeouts + |first| && u.lastExpireCheck == s.lastExpireCheck
               && first !! rest && SilentPeers(s, keys, timeout, now) == first + rest
  {
    hide SessionOk, IndexesOk, RoomOk, ExpireOne, NoDuplicates, Leave, Filed;
    var u := ExpireOne(s, keys[0], timeout, now);
    OneExpires(s, keys[0], timeout, now);
    OnlyFirst(s, keys[0], timeout, now);
    PeersAreLive(u);
    SessionParts(s);
    hide SilentPeers;
    var first := SilentPeers(s, [keys[0]], timeout, now);
    LeaveParts(s, u, first);
    SilentSplit(s, u, keys, first, timeout, now);
  }

  lemma OnlyFirst<P>(s: State<P>, key: Callsign, timeout: int, now: int)
    requires key in s.byCall && forall k :: k in s.byCall ==> s.byCall[k] in s.info
    ensures SilentPeers(s, [key], timeout, now)
            == if now - s.info[s.byCall[key]].lastRx >= timeout then {s.byCall[key]} else {}
  {
    assert key in [key];
  }

  /** At most once a second, and if there is a timeout at all, every peer silent for it leaves, and only those. */
  lemma {:induction false} ExpireEffects<P>(s: State<P>, timeout: int, now: int)
    requires SessionOk(s)
    ensures forall k :: k in s.byCall ==> s.byCall[k] in s.info
    ensures var t := ExpireStale(s, timeout, now);
            if timeout > 0 && now - s.lastExpireCheck >= 1_000_000
            then
              && Leave(s, t, set p | p in s.info && now - s.info[p].lastRx >= timeout)
              && t.timeouts - s.timeouts == t.disconnected - s.disconnected && t.lastExpireCheck == now
            else t == s
  {
    PeersAreLive(s);
    if timeout > 0 && now - s.lastExpireCheck >= 1_000_000 {
      var u := s.(lastExpireCheck := now);
      CheckKeeps(s, now);
      EveryoneListed(u, timeout, now);
      hide SessionOk, IndexesOk, RoomOk, Expire, Leave, SilentPeers, NoDuplicates;
      ListedExpire(u, u.order, timeout, now);
      var gone := SilentPeers(u, u.order, timeout, now);
      LeaveUncounted(s, u, Expire(u, u.order, timeout, now), gone);
      LeaveCounts(u, Expire(u, u.order, timeout, now), gone);
    }
  }

  lemma LeaveCounts<P>(s: State<P>, t: State<P>, gone: set<P>)
    requires Leave(s, t, gone)
    ensures t.disconnected == s.disconnected + |gone|
  {
  }

  lemma EveryoneListed<P>(s: State<P>, timeout: int, now: int)
    requires SessionOk(s) && forall k :: k in s.byCall ==> s.byCall[k] in s.info
    ensures SilentPeers(s, s.order, timeout, now) == set p | p in s.info && now - s.info[p].lastRx >= timeout
  {
    hide RoomOk;
    forall p | p in s.info && now - s.info[p].lastRx >= timeout ensures p in SilentPeers(s, s.order, timeout, now) {
      var k := s.info[p].callsign;
      assert k in s.order && k in s.byCall && s.byCall[k] == p;
    }
  }

  /** A dashboard request: the station named leaves, if it is connected. */
  lemma StationLeaves<P>(s: State<P>, key: Callsign)
    requires SessionOk(s)
    ensures var t := DisconnectStation(s, key);
            if key in s.byCall then Leave(s, t, {s.byCall[key]}) && t.timeouts == s.timeouts else t == s
  {
    PeersAreLive(s);
    if key in s.byCall {
      DisconnectLeaves(s, s.byCall[key]);
      hide SessionOk, Disconnect, Leave;
    }
  }

  /** The speaker loses the floor, and the key request with it, exactly if it has not been heard for the timeout. */
  lemma ReleaseEffects<P>(s: State<P>, timeout: int, now: int)
    requires SessionOk(s)
    ensures s.room.active.Some? ==>
              s.room.active.value in s.room.stations && s.room.stations[s.room.active.value].lastHeardAt.Some?
    ensures var t, key, stations := ReleaseSpeaker(s, timeout, now), s.room.active, s.room.stations;
            if key.Some? && now - stations[key.value].lastHeardAt.value >= timeout
            then t == s.(room := s.room.(active := None,
                                         stations := stations[key.value := stations[key.value].(isSpeaking := false)]),
                         requested := false)
            else t == s
  {
    hide IndexesOk;
    assert RoomOk(s.room);
  }

  // ----- when a station was last heard --------------------------------------------------------------

  /** Whose decoded audio an event brings, if any. */
  ghost function HeardIn<P>(s: State<P>, e: Event<P>): Option<Callsign>
    requires SessionOk(s)
  {
    match e
    case Audio(Rtp(Some(_)), addr, access, _, _) =>
      PeersAreLive(s);
      if addr.ip in s.byIp then Some(s.info[s.byIp[addr.ip]].callsign)
      else if "UNKNOWN-" + addr.ip in s.byCall || access.allowed then Some("UNKNOWN-" + addr.ip)
      else None
    case _ => None
  }

  /** When the station was last heard, if it has been since it connected. */
  function HeardTime(r: Room, k: Callsign): Option<int> { if k in r.stations then r.stations[k].lastHeardAt else None }

  /** Every event: a station's time of last audio is that of the event if it brings its audio, and else what it was. */
  lemma {:induction false} StepHears<P>(s: State<P>, e: Event<P>, k: Callsign)
    requires SessionOk(s) && Possible(s, e) && Step(s, e).Running? && k in Step(s, e).state.room.stations
    ensures HeardTime(Step(s, e).state.room, k)
            == if HeardIn(s, e) == Some(k) then Some(e.now) else HeardTime(s.room, k)
  {
    hide SessionOk, HandleControl, HandleAudio, ExpireStale, ReleaseSpeaker, DisconnectStation, HeardIn;
    match e
    case Control(d, addr, access, made, now) => ControlHears(s, d, addr, access, made, now, k);
    case Audio(d, addr, access, made, now) => AudioHears(s, d, addr, access, made, now, k);
    case Admin(key) =>
      StationLeaves(s, key);
      NobodyHeard(s, e);
      if key in s.byCall { LeaveHears(s, DisconnectStation(s, key), {s.byCall[key]}, k); }
    case LoopEnd(speaker, client, now) =>
      NobodyHeard(s, e);
      ReleaseSpeakerKeeps(s, speaker, now);
      LoopEndHears(s, speaker, client, now, k);
  }

  lemma NobodyHeard<P>(s: State<P>, e: Event<P>)
    requires SessionOk(s) && (e.Audio? ==> !e.datagram.Rtp? || e.datagram.frames.None?)
    ensures HeardIn(s, e) == None
  {
  }

  lemma LeaveHears<P>(s: State<P>, t: State<P>, gone: set<P>, k: Callsign)
    requires Leave(s, t, gone) && k in t.room.stations
    ensures HeardTime(t.room, k) == HeardTime(s.room, k)
  {
    hide Still;
  }

  lemma {:induction false} LoopEndHears<P>(s: State<P>, speaker: int, client: int, now: int, k: Callsign)
    requires SessionOk(s) && SessionOk(ReleaseSpeaker(s, speaker, now))
    requires k in ExpireStale(ReleaseSpeaker(s, speaker, now), client, now).room.stations
    ensures HeardTime(ExpireStale(ReleaseSpeaker(s, speaker, now), client, now).room, k) == HeardTime(s.room, k)
  {
    hide SessionOk, ExpireStale, Leave;
    ReleaseEffects(s, speaker, now);
    hide ReleaseSpeaker;
    var u := ReleaseSpeaker(s, speaker, now);
    ExpireEffects(u, client, now);
    var t := ExpireStale(u, client, now);
    if t != u {
      var gone := set p | p in u.info && now - u.info[p].lastRx >= client;
      LeaveHears(u, t, gone, k);
    }
  }

  lemma IntroducedHears<P>(s: State<P>, o: Outcome<P>, key: Option<Callsign>, addr: Addr, control: bool,
                           access: Access, made: P, from: Option<P>, now: int, k: Callsign)
    requires Introduced(s, o, key, addr, control, access, made, from, now) && o.Running?
    requires key.Some? && key.value !in s.byCall ==> key.value !in s.room.stations
    ensures HeardTime(o.state.room, k) == HeardTime(s.room, k)
  {
  }

  lemma {:induction false} ControlHears<P>(s: State<P>, d: Datagram, addr: Addr, access: Access, made: P, now: int,
                                           k: Callsign)
    requires SessionOk(s) && made !in s.info
    requires var o := HandleControl(s, d, addr, access, made, now); o.Running? && k in o.state.room.stations
    ensures HeardTime(HandleControl(s, d, addr, access, made, now).state.room, k) == HeardTime(s.room, k)
    ensures HeardIn(s, Control(d, addr, access, made, now)) == None
  {
    ControlEffects(s, d, addr, access, made, now);
    SessionParts(s);
    hide SessionOk, HandleControl, Introduced, FindPeer, Leave;
    var o, from := HandleControl(s, d, addr, access, made, now), FindPeer(s, addr);
    match d
    case Goodbye => if from.Some? { LeaveHears(s, o.state, {from.value}, k); }
    case Identity(callsign) => IntroducedHears(s, o, callsign, addr, true, access, made, from, now, k);
    case Sdes(callsign) =>
      var key := if callsign.Some? then callsign.value else "UNKNOWN-" + addr.ip;
      IntroducedHears(s, o, Some(key), addr, true, access, made, from, now, k);
    case _ =>
  }

  lemma HeardFromHears<P>(s: State<P>, t: State<P>, p: P, frames: Option<seq<Frame>>, now: int, k: Callsign)
    requires HeardFrom(s, t, p, frames, now) && p in s.info
    ensures HeardTime(t.room, k)
            == if frames.Some? && k == s.info[p].callsign then Some(now) else HeardTime(s.room, k)
  {
  }

  lemma {:induction false} AudioHears<P>(s: State<P>, d: Datagram, addr: Addr, access: Access, made: P, now: int,
                                         k: Callsign)
    requires SessionOk(s) && made !in s.info
    requires var o := HandleAudio(s, d, addr, access, made, now); o.Running? && k in o.state.room.stations
    ensures HeardTime(HandleAudio(s, d, addr, access, made, now).state.room, k)
            == if HeardIn(s, Audio(d, addr, access, made, now)) == Some(k) then Some(now) else HeardTime(s.room, k)
  {
    var u, p := AudioEffects(s, d, addr, access, made, now);
    SessionParts(s);
    hide SessionOk, HandleAudio, Introduced, FindPeer, Leave, AudioArrives;
    var o, from := HandleAudio(s, d, addr, access, made, now), FindPeer(s, addr);
    match d
    case Goodbye =>
      NobodyHeard(s, Audio(d, addr, access, made, now));
      if from.Some? { LeaveHears(s, o.state, {from.value}, k); }
    case Identity(callsign) =>
      NobodyHeard(s, Audio(d, addr, access, made, now));
      IntroducedHears(s, o, callsign, addr, false, access, made, from, now, k);
    case _ => ArrivalHears(s, o, u, p, d, addr, access, made, from, now, k);
  }

  lemma {:induction false} ArrivalHears<P>(s: State<P>, o: Outcome<P>, u: State<P>, p: P, d: Datagram, addr: Addr,
                                           access: Access, made: P, from: Option<P>, now: int, k: Callsign)
    requires SessionOk(s) && o.Running? && !d.Goodbye? && !d.Identity?
    requires AudioArrives(s, o, u, p, addr, FramesOf(d), access, made, from, now)
    requires forall key :: key in s.room.stations <==> key in s.byCall
    ensures HeardTime(o.state.room, k)
            == if HeardIn(s, Audio(d, addr, access, made, now)) == Some(k) then Some(now) else HeardTime(s.room, k)
  {
    WhoIsHeard(s, d, addr, access, made, now);
    if addr.ip in s.byIp {
      KnownArrivalHears(s, o, u, p, d, addr, access, made, from, now, k);
    } else {
      hide HeardFrom, Introduced, HeardIn;
      var key := "UNKNOWN-" + addr.ip;
      IntroducedHears(s, Running(u), Some(key), addr, false, access, made, from, now, k);
      IntroducedCall(s, u, key, addr, access, made, from, now);
      hide SessionOk;
      if key in u.byCall { HeardFromHears(u, o.state, p, FramesOf(d), now, k); }
    }
  }

  lemma {:induction false} KnownArrivalHears<P>(s: State<P>, o: Outcome<P>, u: State<P>, p: P, d: Datagram, addr: Addr,
                                                access: Access, made: P, from: Option<P>, now: int, k: Callsign)
    requires SessionOk(s) && o.Running? && addr.ip in s.byIp && s.byIp[addr.ip] in s.info
    requires AudioArrives(s, o, u, p, addr, FramesOf(d), access, made, from, now)
    ensures HeardTime(o.state.room, k)
            == if FramesOf(d).Some? && s.info[s.byIp[addr.ip]].callsign == k then Some(now) else HeardTime(s.room, k)
  {
    hide SessionOk, HeardFrom, Introduced;
    HeardFromHears(u, o.state, p, FramesOf(d), now, k);
  }

  lemma WhoIsHeard<P>(s: State<P>, d: Datagram, addr: Addr, access: Access, made: P, now: int)
    requires SessionOk(s)
    ensures addr.ip in s.byIp ==> s.byIp[addr.ip] in s.info
    ensures HeardIn(s, Audio(d, addr, access, made, now))
            == if FramesOf(d).None? then None
               else if addr.ip in s.byIp then Some(s.info[s.byIp[addr.ip]].callsign)
               else if "UNKNOWN-" + addr.ip in s.byCall || access.allowed then Some("UNKNOWN-" + addr.ip)
               else None
  {
    PeersAreLive(s);
  }

  lemma IntroducedCall<P>(s: State<P>, u: State<P>, key: Callsign, addr: Addr, access: Access, made: P, from: Option<P>,
                          now: int)
    requires SessionOk(s) && Introduced(s, Running(u), Some(key), addr, false, access, made, from, now)
    ensures key in u.byCall <==> key in s.byCall || access.allowed
    ensures key in u.byCall ==> u.byCall[key] in u.info && u.info[u.byCall[key]].callsign == key
  {
    PeersAreLive(s);
  }

  /** The time of the latest event of a run that brought a station's audio, counting from when it last connected. */
  ghost function LastAudio<P>(s: State<P>, es: seq<Event<P>>, k: Callsign, before: Option<int>): Option<int>
    decreases |es|
  {
    if es == [] || !SessionOk(s) || !Possible(s, es[0]) || Step(s, es[0]).Crashed? then before
    else
      var t := Step(s, es[0]).state;
      LastAudio(t, es[1..], k,
                if k !in t.room.stations then None
                else if HeardIn(s, es[0]) == Some(k) then Some(es[0].now)
                else before)
  }

  lemma {:induction false} RunHears<P>(s: State<P>, es: seq<Event<P>>, t: State<P>, k: Callsign)
    requires SessionOk(s) && Reaches(s, es, t)
    ensures HeardTime(t.room, k) == LastAudio(s, es, k, HeardTime(s.room, k))
    decreases |es|
  {
    if es != [] {
      var u := Step(s, es[0]).state;
      if k in u.room.stations { StepHears(s, es[0], k); }
      StepKeeps(s, es[0]);
      hide SessionOk, Step, HeardIn, Possible;
      RunHears(u, es[1..], t, k);
    }
  }

  /**
   Over any run: at the end of a loop iteration the speaker loses the floor exactly if the latest event that brought its
   audio is at least the timeout ago, and then the key request goes with it.
   */
  lemma ReleasedIff<P>(maxStations: int, allowDuplicates: bool, es: seq<Event<P>>, s: State<P>, k: Callsign,
                       timeout: int, now: int)
    requires Reaches(Init(maxStations, allowDuplicates), es, s) && s.room.active == Some(k)
    ensures var t, heard := ReleaseSpeaker(s, timeout, now), LastAudio(Init(maxStations, allowDuplicates), es, k, None);
            && heard.Some?
            && (t.room.active == if now - heard.value >= timeout then None else Some(k))
            && (t.requested <==> now - heard.value < timeout)
  {
    var s0 := Init<P>(maxStations, allowDuplicates);
    InitKeeps<P>(maxStations, allowDuplicates);
    RunKeeps(s0, es, s);
    RunHears(s0, es, s, k);
    ReleaseEffects(s, timeout, now);
    ReleaseSpeakerKeeps(s, timeout, now);
    RequestedIff(s);
    hide SessionOk, Reaches, LastAudio, ReleaseSpeaker;
  }

  lemma RequestedIff<P>(s: State<P>)
    requires SessionOk(s)
    ensures s.requested <==> s.room.active.Some?
  {
  }
}
