/**
 RTCP compound packets, and the SDES packets EchoLink identifies itself with (sections 6.1, 6.5 and 6.6 of RFC 3550).
 */
module Rtcp {
  import opened Bytes
  import opened Sequences
  import opened Wrappers

  const RTCP_SDES: Byte := 202
  const RTCP_BYE: Byte := 203
  const SDES_CNAME: Byte := 1
  const SDES_NAME: Byte := 2
  const SDES_PRIV: Byte := 8

  // ----- packets ---------------------------------------------------------------------------

  /** The fewest zeros that take `n` bytes to a multiple of four. */
  function Padding(n: nat): (z: seq<Byte>)
    ensures |z| < 4 && (n + |z|) % 4 == 0
  {
    Zeros((4 - n % 4) % 4)
  }

  /** A packet whose version bits are 2 or 3 and whose length word counts it exactly. */
  predicate WellFormed(p: seq<Byte>) {
    |p| >= 4 && |p| % 4 == 0 && p[0] / 64 >= 2 && FromBig(p[2..4]) == |p| / 4 - 1
  }

  type Packet = p: seq<Byte> | WellFormed(p) witness [128, 0, 0, 0]

  /** _rtcp_header: the length word must fit 16 bits. */
  function RtcpPacket(packetType: Byte, count: nat, body: seq<Byte>): (r: Result<seq<Byte>>)
    ensures r.Ok? <==> |body + Padding(|body|)| / 4 < 0x1_0000
    ensures r.Ok? ==>
              && WellFormed(r.value) && r.value[0] == 0x80 + count % 32 && r.value[1] == packetType
              && r.value[4..] == body + Padding(|body|)
  {
    var padded := body + Padding(|body|);
    var words := |padded| / 4;
    if words >= 0x1_0000 then Raise(StructError)
    else
      assert Pow256(2) == 0x1_0000;
      FromToBig(words, 2);
      var p := [0x80 + count % 32, packetType] + ToBig(words, 2) + padded;
      assert p[2..4] == ToBig(words, 2);
      Ok(p)
  }

  function Ssrc(ssrc: int): (s: seq<Byte>)
    ensures |s| == 4
  {
    ToBig(ssrc % 0x1_0000_0000, 4)
  }

  lemma {:induction false} SsrcIs(ssrc: int)
    ensures FromBig(Ssrc(ssrc)) == ssrc % 0x1_0000_0000
  {
    assert Pow256(4) == 0x1_0000_0000;
    FromToBig(ssrc % 0x1_0000_0000, 4);
  }

  function BuildRtcpBye(ssrc: int): (p: seq<Byte>)
    ensures WellFormed(p) && p[0] == 0x81 && p[1] == 203 && |p| == 8 && p[4..] == Ssrc(ssrc)
  {
    RtcpPacket(RTCP_BYE, 1, Ssrc(ssrc)).value
  }

  // ----- walking a compound packet ------------------------------------------------------------

  function Concat(ps: seq<Packet>): seq<Byte> { if ps == [] then [] else ps[0] + Concat(ps[1..]) }

  function TypesOf(ps: seq<Packet>): seq<Byte> { seq(|ps|, i requires 0 <= i < |ps| => ps[i][1]) }

  predicate AllZero(data: seq<Byte>) { forall i :: 0 <= i < |data| ==> data[i] == 0 }

  /** What the length word at the front claims. */
  function ClaimedLength(data: seq<Byte>): nat
    requires |data| >= 4
  {
    4 * (FromBig(data[2..4]) + 1)
  }

  /** The walk from the front of what is left. */
  function Walk(data: seq<Byte>): seq<Byte>
    decreases |data|
  {
    if |data| < 4 || data[0] / 64 < 2 then []
    else if ClaimedLength(data) > |data| then [data[1]]
    else
      var rest := data[ClaimedLength(data)..];
      [data[1]] + if rest != [] && AllZero(rest) then [] else Walk(rest)
  }

  lemma LengthAt(data: seq<Byte>, pos: nat)
    requires pos + 4 <= |data|
    ensures 4 * (FromBig(data[pos + 2..pos + 4]) + 1) == ClaimedLength(data[pos..])
  {
    hide FromBig;
    assert data[pos..][2..4] == data[pos + 2..pos + 4];
  }

  lemma RestAt(data: seq<Byte>, pos: nat, n: nat)
    requires pos + n <= |data|
    ensures data[pos..][n..] == data[pos + n..]
  {
  }

  lemma WalkFrom(data: seq<Byte>, pos: nat)
    requires pos + 4 <= |data|
    ensures var end := pos + ClaimedLength(data[pos..]);
            Walk(data[pos..])
            == if data[pos] / 64 < 2 then []
               else if end > |data| || (end < |data| && AllZero(data[end..])) then [data[pos + 1]]
               else [data[pos + 1]] + Walk(data[end..])
  {
    var n := ClaimedLength(data[pos..]);
    hide ClaimedLength, AllZero;
    if pos + n <= |data| { RestAt(data, pos, n); }
  }

  /** `types` is what the walk finds before `pos`. */
  ghost predicate Walked(data: seq<Byte>, types: seq<Byte>, pos: nat) {
    pos <= |data| && types + Walk(data[pos..]) == Walk(data)
  }

  lemma WalkEnds(data: seq<Byte>, types: seq<Byte>, pos: nat)
    requires Walked(data, types, pos)
    ensures pos + 4 > |data| || data[pos] / 64 < 2 ==> types == Walk(data)
  {
    assert types + [] == types;
  }

  lemma WalkStep(data: seq<Byte>, types: seq<Byte>, pos: nat)
    requires Walked(data, types, pos) && pos + 4 <= |data| && data[pos] / 64 >= 2
    ensures var end, more := pos + ClaimedLength(data[pos..]), types + [data[pos + 1]];
            if end > |data| || (end < |data| && AllZero(data[end..])) then more == Walk(data)
              else Walked(data, more, end)
  {
    WalkFrom(data, pos);
    var end := pos + ClaimedLength(data[pos..]);
    hide Walk, AllZero, ClaimedLength;
    if end <= |data| { Assoc(types, [data[pos + 1]], Walk(data[end..])); }
  }

  /** One packet of the walk; `more` is whether there may be another. */
  method WalkPacket(data: seq<Byte>, types: seq<Byte>, pos: nat) returns (found: seq<Byte>, next: nat, more: bool)
    requires Walked(data, types, pos) && pos + 4 <= |data|
    ensures if more then Walked(data, found, next) && next > pos else found == Walk(data)
  {
    WalkEnds(data, types, pos);
    found, next, more := types, pos, false;
    var version := data[pos] / 64;
    if version < 2 {
      return;
    }
    WalkStep(data, types, pos);
    LengthAt(data, pos);
    hide Walk, Walked, AllZero, ClaimedLength, FromBig;
    var packetType := data[pos + 1];
    var length := 4 * (FromBig(data[pos + 2..pos + 4]) + 1);
    found, next := types + [packetType], pos + length;
    more := next <= |data| && !(next < |data| && AllZero(data[next..]));
  }

  method IterRtcpPacketTypes(data: seq<Byte>) returns (types: seq<Byte>)
    ensures types == Walk(data)
  {
    types := [];
    var pos, more := 0, true;
    assert Walked(data, types, pos) by { assert data[0..] == data; }
    hide Walk, Walked;
    while more && pos + 4 <= |data|
      invariant if more then Walked(data, types, pos) else types == Walk(data)
      decreases more, |data| - pos
    {
      types, pos, more := WalkPacket(data, types, pos);
    }
    if more {
      WalkEnds(data, types, pos);
    }
  }

  method IsRtcpBye(data: seq<Byte>) returns (bye: bool)
    ensures bye <==> |data| >= 4 && RTCP_BYE in Walk(data)
  {
    if |data| < 4 {
      return false;
    }
    var types := IterRtcpPacketTypes(data);
    bye := RTCP_BYE in types;
  }

  lemma WalkOne(p: seq<Byte>, rest: seq<Byte>)
    requires WellFormed(p)
    ensures Walk(p + rest) == [p[1]] + if rest != [] && AllZero(rest) then [] else Walk(rest)
  {
    assert (p + rest)[2..4] == p[2..4];
    assert (p + rest)[|p|..] == rest;
  }

  lemma WalkZeros(n: nat)
    ensures Walk(Zeros(n)) == [] && AllZero(Zeros(n))
  {
  }

  /**
   A compound of well-formed packets, with any amount of trailing zeros, is walked to exactly their types, in order.
   */
  lemma {:induction false} CompoundWalk(ps: seq<Packet>, zeros: nat)
    ensures Walk(Concat(ps) + Zeros(zeros)) == TypesOf(ps)
  {
    if ps == [] {
      WalkZeros(zeros);
      assert Concat(ps) + Zeros(zeros) == Zeros(zeros);
    } else {
      var p, rest := ps[0], Concat(ps[1..]) + Zeros(zeros);
      Assoc(p, Concat(ps[1..]), Zeros(zeros));
      CompoundWalk(ps[1..], zeros);
      WalkOne(p, rest);
      RestIsZeros(ps[1..], zeros);
      hide Walk, WellFormed, AllZero, Concat;
      assert TypesOf(ps) == [p[1]] + TypesOf(ps[1..]);
    }
  }

  /** Only when no packet is left is the rest all zeros. */
  lemma RestIsZeros(ps: seq<Packet>, zeros: nat)
    ensures AllZero(Concat(ps) + Zeros(zeros)) ==> TypesOf(ps) == []
  {
    if ps != [] { assert (Concat(ps) + Zeros(zeros))[0] == ps[0][0] > 0; }
  }

  /** So a BYE is found wherever it is in the compound, and only if it is there. */
  lemma ByeInCompound(ps: seq<Packet>, zeros: nat)
    ensures var data := Concat(ps) + Zeros(zeros);
            |data| >= 4 && RTCP_BYE in Walk(data) <==> exists i :: 0 <= i < |ps| && ps[i][1] == RTCP_BYE
  {
    CompoundWalk(ps, zeros);
    var types := TypesOf(ps);
    assert forall i :: 0 <= i < |ps| ==> types[i] == ps[i][1];
    if ps != [] { assert |Concat(ps)| >= 4; }
  }

  /** Why a walk stops: too little left, not RTCP, only zeros, or a length word that claims too much. */
  predicate Stops(rest: seq<Byte>) {
    |rest| < 4 || AllZero(rest) || rest[0] / 64 < 2 || ClaimedLength(rest) > |rest|
  }

  /**
   On arbitrary bytes: the walk takes as many well-formed packets as there are and, at an overlong one, its type as
   well.
   */
  lemma {:induction false} WalkOfAnything(data: seq<Byte>) returns (ps: seq<Packet>, rest: seq<Byte>)
    ensures data == Concat(ps) + rest && Stops(rest)
    ensures Walk(data) == TypesOf(ps) + if |rest| >= 4 && rest[0] / 64 >= 2 then [rest[1]] else []
    decreases |data|
  {
    hide Walk, ClaimedLength;
    if Stops(data) {
      ps, rest := [], data;
      WalkStopped(data);
      assert Concat(ps) + rest == data && TypesOf(ps) + Walk(data) == Walk(data);
    } else {
      var p: Packet := FirstPacket(data);
      assert data == p + data[|p|..];
      WalkOne(p, data[|p|..]);
      if AllZero(data[|p|..]) { WalkStopped(data[|p|..]); }
      assert Walk(data) == [p[1]] + Walk(data[|p|..]);
      ps, rest := WalkOfAnything(data[|p|..]);
      OneMorePacket(p, ps, rest, if |rest| >= 4 && rest[0] / 64 >= 2 then [rest[1]] else []);
      ps := [p] + ps;
    }
  }

  lemma OneMorePacket(p: Packet, ps: seq<Packet>, rest: seq<Byte>, last: seq<Byte>)
    ensures Concat([p] + ps) + rest == p + (Concat(ps) + rest)
    ensures TypesOf([p] + ps) + last == [p[1]] + (TypesOf(ps) + last)
  {
    assert ([p] + ps)[1..] == ps;
  }

  lemma WalkStopped(rest: seq<Byte>)
    requires Stops(rest)
    ensures Walk(rest) == if |rest| >= 4 && rest[0] / 64 >= 2 then [rest[1]] else []
  {
  }

  lemma FirstPacket(data: seq<Byte>) returns (p: Packet)
    requires !Stops(data)
    ensures p <= data
  {
    var n := ClaimedLength(data);
    assert data[..n][2..4] == data[2..4];
    p := data[..n];
  }
}
