/** The roster and the one-speaker-at-a-time rule. */
module ConferenceRoom {
  import opened Wrappers

  /** Callsigns are keys already upper-cased and stripped. */
  type Callsign = string

  datatype Station = Station(dmrId: Option<int>, isSpeaking: bool, lastHeardAt: Option<int>, muted: bool)

  datatype RosterError = ConferenceFull | DuplicateCallsign

  datatype Added = Accepted(room: Room) | Refused(error: RosterError)

  /** `order` is the insertion order of the station dictionary. */
  datatype Room = Room(
    maxStations: int, allowDuplicates: bool,
    stations: map<Callsign, Station>, order: seq<Callsign>, active: Option<Callsign>)

  ghost predicate NoDuplicates<T>(s: seq<T>) { forall i, j :: 0 <= i < j < |s| ==> s[i] != s[j] }

  /** The speaker is connected, is the only station marked as speaking, and has a time of last audio. */
  ghost predicate RoomOk(r: Room) {
    && NoDuplicates(r.order)
    && (forall k :: k in r.order <==> k in r.stations)
    && (r.order != [] ==> |r.order| <= r.maxStations)
    && (r.active.Some? ==> r.active.value in r.stations)
    && (forall k :: k in r.stations ==> (r.stations[k].isSpeaking <==> r.active == Some(k)))
    && (forall k :: k in r.stations && r.stations[k].isSpeaking ==> r.stations[k].lastHeardAt.Some?)
  }

  function Index<T(==)>(s: seq<T>, x: T): (i: nat)
    requires x in s
    ensures i < |s| && s[i] == x
  {
    if s[0] == x then 0 else 1 + Index(s[1..], x)
  }

  function Without<T(==)>(s: seq<T>, x: T): seq<T> {
    if x in s then s[..Index(s, x)] + s[Index(s, x) + 1..] else s
  }

  lemma {:induction false} WithoutRemoves<T>(s: seq<T>, x: T)
    requires NoDuplicates(s) && x in s
    ensures NoDuplicates(Without(s, x)) && |Without(s, x)| == |s| - 1
    ensures forall y :: y in Without(s, x) <==> y in s && y != x
  {
    var i, w := Index(s, x), Without(s, x);
    forall y | y in s && y != x ensures y in w {
      var j := Index(s, y);
      assert w[if j < i then j else j - 1] == y;
    }
  }

  // ----- operations ------------------------------------------------------------------

  function NewStation(dmrId: Option<int>): Station { Station(dmrId, false, None, false) }

  function Add(r: Room, key: Callsign, st: Station): Added {
    if |r.stations| >= r.maxStations then Refused(ConferenceFull)
    else if !r.allowDuplicates && key in r.stations then Refused(DuplicateCallsign)
    else Accepted(r.(stations := r.stations[key := st],
                     order := if key in r.stations then r.order else r.order + [key]))
  }

  function EndSpeaker(r: Room, key: Callsign): Room
    requires r.active == Some(key) ==> key in r.stations
  {
    if r.active == Some(key) then
      r.(stations := r.stations[key := r.stations[key].(isSpeaking := false)], active := None)
    else r
  }

  function Remove(r: Room, key: Callsign): Room
    requires r.active == Some(key) ==> key in r.stations
  {
    var t := EndSpeaker(r, key);
    t.(stations := t.stations - {key}, order := Without(t.order, key))
  }

  /** A station asks for the floor. */
  function Begin(r: Room, key: Callsign, now: int): (Room, bool)
    requires key in r.stations
  {
    if r.active.None? then
      (r.(active := Some(key),
          stations := r.stations[key := r.stations[key].(isSpeaking := true, lastHeardAt := Some(now))]), true)
    else (r, r.active == Some(key))
  }

  function Heard(r: Room, key: Callsign, now: int): Room {
    if key in r.stations then r.(stations := r.stations[key := r.stations[key].(lastHeardAt := Some(now))]) else r
  }

  /** A frame of audio from a station: it keeps the floor, or takes it if free. */
  function AfterFrame(r: Room, key: Callsign, now: int): Room
    requires key in r.stations
  {
    var (t, granted) := Begin(r, key, now);
    if granted then Heard(t, key, now) else t
  }

  /** Everyone who is to hear the speaker, in roster order; audio from DMR has no speaker among them. */
  function Recipients(stations: map<Callsign, Station>, order: seq<Callsign>, speaker: Option<Callsign>): seq<Callsign>
    requires forall k :: k in order ==> k in stations
  {
    if order == [] then []
    else
      var last := order[|order| - 1];
      Recipients(stations, order[..|order| - 1], speaker)
      + (if Some(last) != speaker && !stations[last].muted then [last] else [])
  }

  /** Release the speaker if idle for the timeout; the result says whether an unkey is due. */
  function ReleaseIdle(r: Room, timeout: int, now: int): (Room, bool) {
    if r.active.None? then (r, false)
    else if r.active.value !in r.stations then (r.(active := None), true)
    else
      var st := r.stations[r.active.value];
      if st.lastHeardAt.None? then (r, false)
      else if now - st.lastHeardAt.value >= timeout then (EndSpeaker(r, r.active.value), true)
      else (r, false)
  }

  // ----- what they keep ----------------------------------------------------------------

  lemma {:induction false} SizeIsLength(r: Room)
    requires NoDuplicates(r.order) && forall k :: k in r.order <==> k in r.stations
    ensures |r.stations| == |r.order|
  {
    assert r.stations.Keys == SetOf(r.order);
    SetOfSize(r.order);
  }

  ghost function SetOf<T>(s: seq<T>): set<T> { set x | x in s }

  lemma {:induction false} SetOfSize<T>(s: seq<T>)
    requires NoDuplicates(s)
    ensures |SetOf(s)| == |s|
  {
    if s != [] {
      SetOfSize(s[1..]);
      assert SetOf(s) == {s[0]} + SetOf(s[1..]);
    }
  }

  /** A new callsign is refused exactly when the roster is full. */
  lemma AddKeeps(r: Room, key: Callsign, dmrId: Option<int>)
    requires RoomOk(r) && key !in r.stations
    ensures var a := Add(r, key, NewStation(dmrId));
            && (a.Refused? <==> |r.order| >= r.maxStations)
            && (a.Accepted? ==>
                  && RoomOk(a.room) && a.room.order == r.order + [key] && a.room.active == r.active
                  && a.room.stations == r.stations[key := Station(dmrId, false, None, false)]
                  && a.room.maxStations == r.maxStations && a.room.allowDuplicates == r.allowDuplicates)
  {
    SizeIsLength(r);
  }

  /** Adding a callsign, new or not: a full roster is the first reason to refuse, a forbidden duplicate the second. */
  lemma AddAnswers(r: Room, key: Callsign, st: Station)
    requires RoomOk(r)
    ensures var a := Add(r, key, st);
            && (a.Refused? <==> |r.order| >= r.maxStations || (key in r.order && !r.allowDuplicates))
            && (a.Refused? ==> a.error == if |r.order| >= r.maxStations then ConferenceFull else DuplicateCallsign)
            && (a.Accepted? && key in r.order ==> a.room == r.(stations := r.stations[key := st]))
  {
    SizeIsLength(r);
  }

  lemma RemoveKeeps(r: Room, key: Callsign)
    requires RoomOk(r) && key in r.stations
    ensures RoomOk(Remove(r, key))
    ensures Remove(r, key).active == if r.active == Some(key) then None else r.active
    ensures forall k :: k in Remove(r, key).stations <==> k in r.stations && k != key
    ensures forall k :: k in Remove(r, key).stations ==> Remove(r, key).stations[k] == r.stations[k]
    ensures Remove(r, key).maxStations == r.maxStations && Remove(r, key).allowDuplicates == r.allowDuplicates
    ensures |Remove(r, key).order| == |r.order| - 1
  {
    WithoutRemoves(r.order, key);
  }

  lemma BeginKeeps(r: Room, key: Callsign, now: int)
    requires RoomOk(r) && key in r.stations
    ensures var (t, granted) := Begin(r, key, now);
            && RoomOk(t) && t.order == r.order && t.stations.Keys == r.stations.Keys && t.active.Some?
            && (granted <==> t.active == Some(key)) && (granted <==> r.active.None? || r.active == Some(key))
            && (r.active.Some? ==> t == r)
            && (r.active.None? ==>
                  t == r.(active := Some(key),
                          stations := r.stations[key := t.stations[key]])
                  && t.stations[key] == r.stations[key].(isSpeaking := true, lastHeardAt := Some(now)))
  {
  }

  /** Everyone on the roster hears the speaker, except the speaker and the muted. */
  lemma {:induction false} RecipientsAre(stations: map<Callsign, Station>, order: seq<Callsign>,
                                         speaker: Option<Callsign>)
    requires NoDuplicates(order) && forall k :: k in order ==> k in stations
    ensures NoDuplicates(Recipients(stations, order, speaker))
    ensures forall k :: k in Recipients(stations, order, speaker)
              <==> k in order && Some(k) != speaker && !stations[k].muted
  {
    if order != [] {
      var n := |order| - 1;
      RecipientsAre(stations, order[..n], speaker);
      assert order == order[..n] + [order[n]];
    }
  }

  lemma HeardKeeps(r: Room, key: Callsign, now: int)
    requires RoomOk(r)
    ensures RoomOk(Heard(r, key, now)) && Heard(r, key, now).order == r.order
    ensures Heard(r, key, now).active == r.active && Heard(r, key, now).stations.Keys == r.stations.Keys
    ensures forall k :: k in r.stations ==>
              Heard(r, key, now).stations[k]
              == if k == key then r.stations[k].(lastHeardAt := Some(now)) else r.stations[k]
  {
  }

  lemma AfterFrameKeeps(r: Room, key: Callsign, now: int)
    requires RoomOk(r) && key in r.stations
    ensures var t := AfterFrame(r, key, now);
            && RoomOk(t) && t.order == r.order && t.stations.Keys == r.stations.Keys && t.active.Some?
            && (Begin(r, key, now).1 <==> t.active == Some(key))
            && t.maxStations == r.maxStations && t.allowDuplicates == r.allowDuplicates
            && (forall k :: k in r.stations ==>
                  t.stations[k]
                  == if k == key && t.active == Some(key)
                     then r.stations[k].(isSpeaking := true, lastHeardAt := Some(now))
                     else r.stations[k])
  {
    BeginKeeps(r, key, now);
    HeardKeeps(Begin(r, key, now).0, key, now);
  }

  /**
   The speaker is released exactly when nothing has been heard from it for the timeout, and a release is always
   reported.
   */
  lemma ReleaseKeeps(r: Room, timeout: int, now: int)
    requires RoomOk(r)
    ensures var (t, released) := ReleaseIdle(r, timeout, now);
            && RoomOk(t) && t.order == r.order && t.stations.Keys == r.stations.Keys
            && t.active == (if released then None else r.active)
            && (released <==> r.active.Some? && now - r.stations[r.active.value].lastHeardAt.value >= timeout)
            && t.maxStations == r.maxStations && t.allowDuplicates == r.allowDuplicates
            && (forall k :: k in r.stations ==>
                  t.stations[k] == if released then r.stations[k].(isSpeaking := false) else r.stations[k])
  {
  }

  /** A floor held by nobody on the roster, which does not happen, would be given up at once. */
  lemma OrphanIsReleased(r: Room, timeout: int, now: int)
    requires r.active.Some? && r.active.value !in r.stations
    ensures var (t, released) := ReleaseIdle(r, timeout, now);
            released && t.active == None && t.stations == r.stations && t.order == r.order
  {
  }

  // ----- in place -----------------------------------------------------------------------

  class EchoLinkConferenceManager {
    const maxStations: int
    const allowDuplicates: bool
    var stations: map<Callsign, Station>
    var order: seq<Callsign>
    var activeSpeaker: Option<Callsign>

    function Abs(): Room
      reads this
    {
      Room(maxStations, allowDuplicates, stations, order, activeSpeaker)
    }

    constructor (maxStations: int, allowDuplicates: bool)
      ensures Abs() == Room(maxStations, allowDuplicates, map[], [], None)
    {
      this.maxStations, this.allowDuplicates := maxStations, allowDuplicates;
      stations, order, activeSpeaker := map[], [], None;
    }

    method AddStation(key: Callsign, st: Station) returns (error: Option<RosterError>)
      modifies this
      ensures match Add(old(Abs()), key, st)
              case Accepted(room) => error == None && Abs() == room
              case Refused(e) => error == Some(e) && Abs() == old(Abs())
    {
      if |stations| >= maxStations {
        return Some(ConferenceFull);
      }
      if !allowDuplicates && key in stations {
        return Some(DuplicateCallsign);
      }
      if key !in stations {
        order := order + [key];
      }
      stations := stations[key := st];
      error := None;
    }

    method RemoveStation(key: Callsign)
      requires activeSpeaker == Some(key) ==> key in stations
      requires key in order <==> key in stations
      modifies this
      ensures Abs() == Remove(old(Abs()), key)
    {
      if activeSpeaker == Some(key) {
        EndSpeakerNow(key);
      }
      if key in stations {
        stations, order := stations - {key}, Without(order, key);
      }
      assert key !in old(stations) ==> stations == old(stations) - {key};
    }

    method BeginSpeaker(key: Callsign, now: int) returns (granted: bool)
      requires key in stations
      modifies this
      ensures (Abs(), granted) == Begin(old(Abs()), key, now)
    {
      if activeSpeaker.None? {
        activeSpeaker := Some(key);
        stations := stations[key := stations[key].(isSpeaking := true, lastHeardAt := Some(now))];
        return true;
      }
      return activeSpeaker == Some(key);
    }

    method EndSpeakerNow(key: Callsign)
      requires activeSpeaker == Some(key) ==> key in stations
      modifies this
      ensures Abs() == EndSpeaker(old(Abs()), key)
    {
      if activeSpeaker == Some(key) {
        stations := stations[key := stations[key].(isSpeaking := false)];
        activeSpeaker := None;
      }
    }

    method MarkHeard(key: Callsign, now: int)
      modifies this`stations
      ensures Abs() == Heard(old(Abs()), key, now)
    {
      if key in stations {
        stations := stations[key := stations[key].(lastHeardAt := Some(now))];
      }
    }

    /** Who is to hear a frame from `key`, and whether the gateway may have it too. */
    method RouteSpeakerAudio(key: Callsign, now: int) returns (recipients: seq<Callsign>, granted: bool)
      requires RoomOk(Abs()) && key in stations
      modifies this
      ensures granted == Begin(old(Abs()), key, now).1 && Abs() == AfterFrame(old(Abs()), key, now)
      ensures forall k :: k in order ==> k in stations
      ensures recipients == if granted then Recipients(stations, order, Some(key)) else []
    {
      BeginKeeps(Abs(), key, now);
      granted := BeginSpeaker(key, now);
      if !granted {
        return [], false;
      }
      stations := stations[key := stations[key].(lastHeardAt := Some(now))];
      HeardKeeps(Begin(old(Abs()), key, now).0, key, now);
      recipients := CollectRecipients(Some(key));
    }

    /** The stations that are to hear audio from `speaker`, or from DMR if there is none. */
    method CollectRecipients(speaker: Option<Callsign>) returns (recipients: seq<Callsign>)
      requires forall k :: k in order ==> k in stations
      ensures recipients == Recipients(stations, order, speaker)
    {
      recipients := [];
      for i := 0 to |order|
        invariant recipients == Recipients(stations, order[..i], speaker)
      {
        assert order[..i + 1][..i] == order[..i];
        if Some(order[i]) != speaker && !stations[order[i]].muted {
          recipients := recipients + [order[i]];
        }
      }
      assert order[..|order|] == order;
    }

    method ReleaseInactiveSpeaker(timeout: int, now: int) returns (released: bool)
      modifies this
      ensures (Abs(), released) == ReleaseIdle(old(Abs()), timeout, now)
    {
      if activeSpeaker.None? {
        return false;
      }
      var key := activeSpeaker.value;
      if key !in stations {
        activeSpeaker := None;
        return true;
      }
      var last := stations[key].lastHeardAt;
      if last.None? {
        return false;
      }
      if now - last.value >= timeout {
        EndSpeakerNow(key);
        return true;
      }
      return false;
    }
  }
}
