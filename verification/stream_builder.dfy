/** One OpenBridge stream from AMBE blocks and a template capture: all at once, or live. */
module StreamBuilder {
  import opened Bytes
  import opened Sequences
  import opened Wrappers
  import opened Ambe
  import opened Dmrd
  import opened Analyzer

  // ----- the template --------------------------------------------------------------------

  datatype Parts = Parts(prefix: seq<ValidPacket>, voice: seq<ValidPacket>, suffix: seq<ValidPacket>)

  predicate NotVoice(p: Packet) { !IsVoice(p) }

  /** The packets that pass a test, in order. */
  function Select(ps: seq<ValidPacket>, keep: Packet -> bool): (r: seq<ValidPacket>)
    ensures forall p :: p in r <==> p in ps && keep(p)
  {
    if ps == [] then []
    else if keep(ps[0]) then [ps[0]] + Select(ps[1..], keep) else Select(ps[1..], keep)
  }

  /** list.index: the first position holding an equal packet. */
  function IndexOf(ps: seq<ValidPacket>, p: ValidPacket): (i: nat)
    requires p in ps
    ensures i < |ps| && ps[i] == p && p !in ps[..i]
  {
    if ps[0] == p then 0
    else
      var j := IndexOf(ps[1..], p);
      assert ps[..j + 1] == [ps[0]] + ps[1..][..j];
      j + 1
  }

  function LastVoice(ps: seq<ValidPacket>): (i: nat)
    requires exists p :: p in ps && IsVoice(p)
    ensures i < |ps| && IsVoice(ps[i]) && forall j :: i < j < |ps| ==> !IsVoice(ps[j])
  {
    if IsVoice(ps[|ps| - 1]) then |ps| - 1
    else
      assert ps == ps[..|ps| - 1] + [ps[|ps| - 1]];
      LastVoice(ps[..|ps| - 1])
  }

  function FirstOf(ps: seq<ValidPacket>): seq<ValidPacket> { if ps == [] then [] else ps[..1] }

  function Split(ps: seq<ValidPacket>): Result<Parts> {
    var voice := Select(ps, IsVoice);
    if voice == [] then Raise(ValueError)
    else
      assert voice[0] in voice;
      var first, last := IndexOf(ps, voice[0]), LastVoice(ps);
      Ok(Parts(Select(ps[..first], NotVoice), voice, SuffixOf(ps[last + 1..])))
  }

  /** The possible stream ends among what follows the voice or, failing those, the first packet there. */
  function SuffixOf(after: seq<ValidPacket>): seq<ValidPacket> {
    var ends := Select(after, IsPossibleStreamEnd);
    if ends != [] then ends else FirstOf(Select(after, NotVoice))
  }

  /** What the builder relies on: voice to cycle through, and none before or after it. */
  ghost predicate PartsOk(parts: Parts) {
    && parts.voice != [] && (forall p :: p in parts.voice ==> IsVoice(p))
    && (forall p :: p in parts.prefix ==> !IsVoice(p)) && (forall p :: p in parts.suffix ==> !IsVoice(p))
  }

  lemma {:induction false} SelectAll(ps: seq<ValidPacket>, keep: Packet -> bool)
    requires forall p :: p in ps ==> keep(p)
    ensures Select(ps, keep) == ps
  {
    if ps != [] { SelectAll(ps[1..], keep); }
  }

  /** The first voice packet is found where it is, although it is looked up by equality. */
  lemma {:induction false} FirstSelected(ps: seq<ValidPacket>)
    requires Select(ps, IsVoice) != []
    ensures var voice := Select(ps, IsVoice);
            voice[0] in ps && forall p :: p in ps[..IndexOf(ps, voice[0])] ==> !IsVoice(p)
  {
    var voice := Select(ps, IsVoice);
    assert voice[0] in voice;
    if !IsVoice(ps[0]) {
      FirstSelected(ps[1..]);
      assert voice == Select(ps[1..], IsVoice);
      var i := IndexOf(ps[1..], voice[0]);
      assert IndexOf(ps, voice[0]) == i + 1;
      assert ps[..i + 1] == [ps[0]] + ps[1..][..i];
    }
  }

  /** The first stream end after the voice or, if there is none, the packet right after it. */
  ghost predicate Ends(suffix: seq<ValidPacket>, after: seq<ValidPacket>) {
    if exists p :: p in after && IsPossibleStreamEnd(p)
    then
      exists i :: 0 <= i < |after| && IsPossibleStreamEnd(after[i]) && suffix == [after[i]]
                  && forall j :: 0 <= j < i ==> !IsPossibleStreamEnd(after[j])
    else suffix == FirstOf(after)
  }

  lemma {:induction false} FirstEnd(after: seq<ValidPacket>) returns (i: nat)
    requires Select(after, IsPossibleStreamEnd) != []
    ensures i < |after| && IsPossibleStreamEnd(after[i]) && FirstOf(Select(after, IsPossibleStreamEnd)) == [after[i]]
    ensures forall j :: 0 <= j < i ==> !IsPossibleStreamEnd(after[j])
  {
    if IsPossibleStreamEnd(after[0]) {
      i := 0;
    } else {
      i := FirstEnd(after[1..]);
      i := i + 1;
    }
  }

  lemma {:induction false} SuffixIs(after: seq<ValidPacket>)
    requires forall p :: p in after ==> !IsVoice(p)
    ensures Ends(FirstOf(SuffixOf(after)), after) && forall p :: p in SuffixOf(after) ==> !IsVoice(p)
  {
    var ends := Select(after, IsPossibleStreamEnd);
    if ends != [] {
      assert ends[0] in ends;
      var i := FirstEnd(after);
    } else {
      SelectAll(after, NotVoice);
      assert forall p :: p in after && IsPossibleStreamEnd(p) ==> p in ends;
    }
  }

  /** A template splits exactly when it has voice: all that comes before, the voice, and what ends it. */
  lemma {:induction false} SplitIs(ps: seq<ValidPacket>) returns (first: nat, last: nat)
    ensures Split(ps).Ok? <==> exists p :: p in ps && IsVoice(p)
    ensures Split(ps).Ok? ==>
              var parts := Split(ps).value;
              && PartsOk(parts)
              && first <= last < |ps| && IsVoice(ps[first]) && IsVoice(ps[last])
              && (forall i :: 0 <= i < |ps| && IsVoice(ps[i]) ==> first <= i <= last)
              && parts.prefix == ps[..first]
              && parts.voice == Select(ps, IsVoice)
              && Ends(FirstOf(parts.suffix), ps[last + 1..])
  {
    hide Ends, SuffixOf, Select, FirstOf;
    var voice := Select(ps, IsVoice);
    first, last := 0, 0;
    if voice != [] {
      assert voice[0] in voice;
      first, last := IndexOf(ps, voice[0]), LastVoice(ps);
      FirstIsFirst(ps, first);
      SuffixIs(ps[last + 1..]);
    }
  }

  lemma {:induction false} FirstIsFirst(ps: seq<ValidPacket>, first: nat)
    requires var voice := Select(ps, IsVoice); voice != [] && voice[0] in ps && first == IndexOf(ps, voice[0])
    ensures Select(ps[..first], NotVoice) == ps[..first] && forall i :: 0 <= i < first ==> !IsVoice(ps[i])
  {
    FirstSelected(ps);
    hide Select, IndexOf;
    assert forall i :: 0 <= i < first ==> ps[i] in ps[..first];
    SelectAll(ps[..first], NotVoice);
  }

  // ----- the stream, packet by packet ------------------------------------------------------

  /** Where the gateway sends: any other configuration makes the packet constructor raise. */
  datatype LinkConfig = LinkConfig(fixedTgid: int, networkId: int, slot: int)

  predicate LinkOk(c: LinkConfig) { Fits(c.fixedTgid, 3) && Fits(c.networkId, 4) && c.slot in {1, 2} }

  type Link = c: LinkConfig | LinkOk(c) witness LinkConfig(0, 0, 1)

  datatype Identity = Identity(link: Link, source: int, stream: int)

  predicate IdentityOk(h: Identity) { 0 <= h.source <= MAX_3BYTE_ID && Fits(h.stream, 4) }

  /** A packet to be sent: its signalling comes from a template. */
  datatype Piece = Piece(template: ValidPacket, payload: Burst)

  function Rewritten(p: Piece, h: Identity, sequence: int): (r: ValidPacket)
    requires IdentityOk(h) && 0 <= sequence < 256
  {
    Packet(sequence, h.source, h.link.fixedTgid, h.link.networkId, h.link.slot, Group,
           p.template.frameType, p.template.dtypeVseq, h.stream, p.payload)
  }

  /** Packets numbered from `start`, modulo 256. */
  function RewriteAll(pieces: seq<Piece>, h: Identity, start: int): (r: seq<ValidPacket>)
    requires IdentityOk(h)
    ensures |r| == |pieces|
  {
    seq(|pieces|, i requires 0 <= i < |pieces| => Rewritten(pieces[i], h, (start + i) % 256))
  }

  function AsIs(ps: seq<ValidPacket>): (r: seq<Piece>)
    ensures |r| == |ps|
  {
    seq(|ps|, i requires 0 <= i < |ps| => Piece(ps[i], ps[i].payload))
  }

  /** Voice block `i` goes out in a burst with the centre of the template it is cycled onto. */
  function VoicePiece(parts: Parts, i: nat, block: Block): Piece
    requires PartsOk(parts)
  {
    var template := parts.voice[i % |parts.voice|];
    Piece(template, BuildBurst(block, ExtractCenter(template.payload)))
  }

  function VoicePieces(parts: Parts, blocks: seq<Block>): (r: seq<Piece>)
    requires PartsOk(parts)
    ensures |r| == |blocks|
  {
    seq(|blocks|, i requires 0 <= i < |blocks| => VoicePiece(parts, i, blocks[i]))
  }

  /** Header, one packet per block, terminator if the template has one. */
  function Pieces(parts: Parts, blocks: seq<Block>): seq<Piece>
    requires PartsOk(parts)
  {
    AsIs(parts.prefix) + VoicePieces(parts, blocks) + AsIs(FirstOf(parts.suffix))
  }

  function Stream(parts: Parts, h: Identity, start: int, blocks: seq<Block>): seq<ValidPacket>
    requires PartsOk(parts) && IdentityOk(h)
  {
    RewriteAll(Pieces(parts, blocks), h, start)
  }

  lemma {:induction false} StreamIsNumbered(pieces: seq<Piece>, h: Identity, start: int)
    requires IdentityOk(h)
    ensures Gaps(RewriteAll(pieces, h, start)) == []
  {
    hide Gaps;
    var ps := RewriteAll(pieces, h, start);
    forall i | 0 <= i < |ps| - 1 ensures ps[i + 1].sequence == (ps[i].sequence + 1) % 256 {
      assert ps[i + 1].sequence == (start + (i + 1)) % 256 && ps[i].sequence == (start + i) % 256;
    }
    NoGaps(ps);
  }

  /** A group packet of this stream, from its source to its talkgroup. */
  predicate Addressed(p: Packet, h: Identity) {
    && p.rfSourceId == h.source && p.destinationId == h.link.fixedTgid
    && p.networkId == h.link.networkId && p.slot == h.link.slot
    && p.streamId == h.stream && p.callType.Group?
  }

  predicate Signals(p: Packet, template: Packet) {
    p.frameType == template.frameType && p.dtypeVseq == template.dtypeVseq
  }

  /** Whatever is sent for a stream is addressed as such and numbered, whatever its templates were. */
  lemma {:induction false} AllAddressed(pieces: seq<Piece>, h: Identity, start: int)
    requires IdentityOk(h)
    ensures var ps := RewriteAll(pieces, h, start);
            && (forall i :: 0 <= i < |ps| ==>
                  Addressed(ps[i], h) && ps[i].sequence == (start + i) % 256
                  && Signals(ps[i], pieces[i].template) && ps[i].payload == pieces[i].payload)
            && (forall p :: p in ps ==> Addressed(p, h))
  {
  }

  /**
   However long the stream: no gaps in its numbering; every packet from the source to the talkgroup; the header and the
   terminator of the template as they are; and between them exactly the given blocks as voice, each with the signalling
   and the centre of the template it is cycled onto.
   */
  lemma {:induction false} StreamIsFaithful(parts: Parts, h: Identity, start: int, blocks: seq<Block>)
    requires PartsOk(parts) && IdentityOk(h)
    ensures var ps, n, m := Stream(parts, h, start, blocks), |parts.prefix|, |parts.voice|;
            && Gaps(ps) == []
            && |ps| == n + |blocks| + (if parts.suffix == [] then 0 else 1)
            && (forall i :: 0 <= i < |ps| ==> Addressed(ps[i], h) && ps[i].sequence == (start + i) % 256)
            && (forall i :: 0 <= i < |ps| ==> (IsVoice(ps[i]) <==> n <= i < n + |blocks|))
            && (forall i :: 0 <= i < n ==> Signals(ps[i], parts.prefix[i]) && ps[i].payload == parts.prefix[i].payload)
            && (parts.suffix != [] ==>
                  Signals(ps[n + |blocks|], parts.suffix[0]) && ps[n + |blocks|].payload == parts.suffix[0].payload)
            && (forall k :: 0 <= k < |blocks| ==>
                  && Signals(ps[n + k], parts.voice[k % m])
                  && ExtractBlock(ps[n + k].payload) == blocks[k]
                  && ExtractCenter(ps[n + k].payload) == ExtractCenter(parts.voice[k % m].payload))
  {
    hide Gaps, BuildBurst, ExtractBlock, ExtractCenter;
    var ps, n := Stream(parts, h, start, blocks), |parts.prefix|;
    var pieces := Pieces(parts, blocks);
    StreamIsNumbered(pieces, h, start);
    AllAddressed(pieces, h, start);
    hide Rewritten, Stream, RewriteAll, Addressed, Signals, IsVoice;
    forall k | 0 <= k < |blocks|
      ensures Signals(ps[n + k], parts.voice[k % |parts.voice|])
      ensures ExtractBlock(ps[n + k].payload) == blocks[k]
      ensures ExtractCenter(ps[n + k].payload) == ExtractCenter(parts.voice[k % |parts.voice|].payload)
    {
      assert pieces[n + k] == VoicePiece(parts, k, blocks[k]);
      BuiltBurstYieldsInputs(blocks[k], ExtractCenter(parts.voice[k % |parts.voice|].payload));
    }
    forall i | 0 <= i < |ps| ensures IsVoice(ps[i]) <==> n <= i < n + |blocks| {
      PieceKind(parts, blocks, i);
      SignalsKind(ps[i], pieces[i].template);
    }
  }

  lemma SignalsKind(p: Packet, template: Packet)
    requires Signals(p, template)
    ensures IsVoice(p) <==> IsVoice(template)
  {
  }

  lemma {:induction false} PieceKind(parts: Parts, blocks: seq<Block>, i: nat)
    requires PartsOk(parts) && i < |Pieces(parts, blocks)|
    ensures IsVoice(Pieces(parts, blocks)[i].template) <==> |parts.prefix| <= i < |parts.prefix| + |blocks|
  {
    hide BuildBurst, ExtractCenter;
    var n, m := |parts.prefix|, |parts.prefix| + |blocks|;
    if i < n {
      assert parts.prefix[i] in parts.prefix;
    } else if i < m {
      assert parts.voice[(i - n) % |parts.voice|] in parts.voice;
    } else {
      assert FirstOf(parts.suffix)[i - m] in parts.suffix;
    }
  }

  lemma {:induction false} RewriteConcat(a: seq<Piece>, b: seq<Piece>, h: Identity, start: int)
    requires IdentityOk(h)
    ensures RewriteAll(a + b, h, start) == RewriteAll(a, h, start) + RewriteAll(b, h, start + |a|)
  {
    hide Rewritten;
  }

  /** One piece more of a list that is being appended. */
  lemma {:induction false} RewriteExtends(done: seq<Piece>, all: seq<Piece>, i: nat, h: Identity, start: int)
    requires IdentityOk(h) && i < |all|
    ensures RewriteAll(done + all[..i + 1], h, start)
            == RewriteAll(done + all[..i], h, start) + [Rewritten(all[i], h, (start + |done| + i) % 256)]
  {
    hide Rewritten;
    assert done + all[..i + 1] == (done + all[..i]) + [all[i]];
    RewriteConcat(done + all[..i], [all[i]], h, start);
  }

  // ----- live ----------------------------------------------------------------------------------

  class OpenBridgeStreamBuilder {
    const parts: Parts
    const identity: Identity
    var nextSequence: int
    var voiceIndex: nat
    var started: bool
    var ended: bool
    ghost const start: int
    ghost var pieces: seq<Piece>   // everything rewritten so far

    ghost predicate Valid()
      reads this
    {
      && PartsOk(parts) && IdentityOk(identity)
      && nextSequence == (start + |pieces|) % 256
    }

    constructor (parts: Parts, identity: Identity, start: int)
      requires PartsOk(parts) && IdentityOk(identity)
      ensures Valid() && this.parts == parts && this.identity == identity && this.start == start
      ensures !started && !ended && voiceIndex == 0 && pieces == []
    {
      this.parts, this.identity, this.start := parts, identity, start;
      nextSequence, voiceIndex, started, ended, pieces := start % 256, 0, false, false, [];
    }

    method Rewrite(p: Piece) returns (out: ValidPacket)
      requires Valid()
      modifies this`nextSequence, this`pieces
      ensures Valid() && pieces == old(pieces) + [p]
      ensures out == Rewritten(p, identity, (start + |old(pieces)|) % 256)
    {
      out := Rewritten(p, identity, nextSequence);
      pieces, nextSequence := pieces + [p], (nextSequence + 1) % 256;
    }

    method RewriteTemplates(ps: seq<ValidPacket>) returns (out: seq<ValidPacket>)
      requires Valid()
      modifies this`nextSequence, this`pieces
      ensures Valid() && pieces == old(pieces) + AsIs(ps)
      ensures out == RewriteAll(AsIs(ps), identity, start + |old(pieces)|)
    {
      hide Rewritten;
      out := [];
      for i := 0 to |ps|
        invariant Valid() && pieces == old(pieces) + AsIs(ps)[..i]
        invariant out == RewriteAll(AsIs(ps), identity, start + |old(pieces)|)[..i]
      {
        var p := Rewrite(Piece(ps[i], ps[i].payload));
        out := out + [p];
      }
      assert AsIs(ps)[..|ps|] == AsIs(ps);
    }

    method StartPackets() returns (out: seq<ValidPacket>)
      requires Valid()
      modifies this`nextSequence, this`pieces, this`started
      ensures Valid() && started
      ensures pieces == old(pieces) + if old(started) then [] else AsIs(parts.prefix)
      ensures out == if old(started) then [] else RewriteAll(AsIs(parts.prefix), identity, start + |old(pieces)|)
    {
      if started {
        return [];
      }
      started := true;
      out := RewriteTemplates(parts.prefix);
    }

    method VoicePacket(block: seq<Byte>) returns (r: Result<ValidPacket>)
      requires Valid()
      modifies this`nextSequence, this`pieces, this`voiceIndex
      ensures Valid()
      ensures r == if |block| != 27 then Raise(ValueError) else if ended then Raise(RuntimeError)
                   else Ok(Rewritten(VoicePiece(parts, old(voiceIndex), block), identity,
                                     (start + |old(pieces)|) % 256))
      ensures voiceIndex == old(voiceIndex) + if r.Ok? then 1 else 0
      ensures pieces == old(pieces) + if r.Ok? then [VoicePiece(parts, old(voiceIndex), block)] else []
    {
      hide BuildBurst, ExtractCenter, Rewritten;
      if |block| != 27 {
        return Raise(ValueError);
      }
      if ended {
        return Raise(RuntimeError);
      }
      var template := parts.voice[voiceIndex % |parts.voice|];
      var center := ExtractCenter(template.payload);
      var payload := BurstFrom(block, center);
      voiceIndex := voiceIndex + 1;
      var p := Rewrite(Piece(template, payload));
      r := Ok(p);
    }

    method EndPackets() returns (out: seq<ValidPacket>)
      requires Valid()
      modifies this`nextSequence, this`pieces, this`ended
      ensures Valid() && ended
      ensures pieces == old(pieces) + if old(ended) then [] else AsIs(FirstOf(parts.suffix))
      ensures out == if old(ended) then [] else RewriteAll(AsIs(FirstOf(parts.suffix)), identity, start + |old(pieces)|)
    {
      if ended {
        return [];
      }
      ended := true;
      out := RewriteTemplates(FirstOf(parts.suffix));
    }
  }

  /** A block cut into three frames and put into a burst. */
  method BurstFrom(block: Block, center: Center) returns (payload: Burst)
    ensures payload == BuildBurst(block, center)
  {
    var frames := [block[0..9], block[9..18], block[18..27]];
    JoinThree(frames);
    hide Flat, BuildBurst;
    var whole: seq<Byte> := block;
    assert frames[0] + frames[1] + frames[2] == whole;
    var r := BuildPayload(frames, center);
    payload := r.value;
  }

  // ----- all at once -----------------------------------------------------------------------------

  /** The last two conditions are the packet constructor's. */
  predicate BatchOk(config: LinkConfig, source: int, stream: int, blocks: seq<seq<Byte>>, template: seq<ValidPacket>) {
    && 0 <= source <= MAX_3BYTE_ID && blocks != [] && (forall b :: b in blocks ==> |b| == 27)
    && Split(template).Ok?
    && LinkOk(config) && Fits(stream, 4)
  }

  /** The same, in numbers. */
  lemma BatchIs(config: LinkConfig, source: int, stream: int, blocks: seq<seq<Byte>>, template: seq<ValidPacket>)
    ensures BatchOk(config, source, stream, blocks, template) <==>
            && 0 <= source <= 0xFF_FFFF && 0 <= stream < 0x1_0000_0000
            && 0 <= config.fixedTgid < 0x100_0000 && 0 <= config.networkId < 0x1_0000_0000
            && (config.slot == 1 || config.slot == 2)
            && |blocks| > 0 && (forall i :: 0 <= i < |blocks| ==> |blocks[i]| == 27)
            && exists p :: p in template && p.frameType < 2
  {
    WidthsAre();
    var _, _ := SplitIs(template);
    hide Split, Pow256, PartsOk, Select, FirstOf, Ends;
    assert forall b :: b in blocks <==> exists i :: 0 <= i < |blocks| && blocks[i] == b;
  }

  lemma IdentityIs(h: Identity)
    ensures IdentityOk(h) <==> 0 <= h.source <= 0xFF_FFFF && 0 <= h.stream < 0x1_0000_0000
  {
    WidthsAre();
  }

  lemma WidthsAre()
    ensures Pow256(3) == 0x100_0000 && Pow256(4) == 0x1_0000_0000
  {
  }

  /** build_openbridge_packets_from_ambe_blocks: the whole stream at once. */
  method BuildFromBlocks(blocks: seq<seq<Byte>>, template: seq<ValidPacket>, config: LinkConfig,
                         source: int, stream: int, start: int)
    returns (r: Result<seq<ValidPacket>>)
    ensures if BatchOk(config, source, stream, blocks, template) then r.Ok? else r == Raise(ValueError)
    ensures r.Ok? ==> PartsOk(Split(template).value)
                      && r.value == Stream(Split(template).value, Identity(config, source, stream), start, blocks)
  {
    hide Split, RewriteAll, AsIs, VoicePieces, PartsOk, FirstOf, Ends, Select;
    if !(0 <= source <= MAX_3BYTE_ID) || blocks == [] || (exists b :: b in blocks && |b| != 27)
      || Split(template).Raise? {
      return Raise(ValueError);
    }
    if !LinkOk(config) || !Fits(stream, 4) {
      return Raise(ValueError);
    }
    var _, _ := SplitIs(template);
    var parts, h := Split(template).value, Identity(config, source, stream);
    assert [] + AsIs(parts.prefix) == AsIs(parts.prefix);
    assert RewriteAll([], h, start) == [];
    var output, next := AppendTemplates([], [], h, start, start % 256, parts.prefix);
    output, next := AppendVoice(output, h, start, next, parts, blocks);
    output, next := AppendTemplates(output, AsIs(parts.prefix) + VoicePieces(parts, blocks), h, start, next,
                                    FirstOf(parts.suffix));
    r := Ok(output);
  }

  lemma NextSequence(n: int)
    ensures (n % 256 + 1) % 256 == (n + 1) % 256
  {
  }

  method AppendTemplates(output: seq<ValidPacket>, ghost done: seq<Piece>, h: Identity, start: int, next: int,
                         ps: seq<ValidPacket>)
    returns (r: seq<ValidPacket>, after: int)
    requires IdentityOk(h) && output == RewriteAll(done, h, start) && next == (start + |done|) % 256
    ensures r == RewriteAll(done + AsIs(ps), h, start) && after == (start + |done| + |ps|) % 256
  {
    ghost var all := AsIs(ps);
    hide Rewritten, RewriteAll;
    r, after := output, next;
    assert done + all[..0] == done;
    for i := 0 to |ps|
      invariant r == RewriteAll(done + all[..i], h, start) && after == (start + |done| + i) % 256
    {
      RewriteExtends(done, all, i, h, start);
      NextSequence(start + |done| + i);
      r := r + [Rewritten(Piece(ps[i], ps[i].payload), h, after)];
      after := (after + 1) % 256;
    }
    TakeAll(all);
  }

  method AppendVoice(output: seq<ValidPacket>, h: Identity, start: int, next: int, parts: Parts, blocks: seq<Block>)
    returns (r: seq<ValidPacket>, after: int)
    requires PartsOk(parts) && IdentityOk(h)
    requires output == RewriteAll(AsIs(parts.prefix), h, start) && next == (start + |parts.prefix|) % 256
    ensures r == RewriteAll(AsIs(parts.prefix) + VoicePieces(parts, blocks), h, start)
    ensures after == (start + |parts.prefix| + |blocks|) % 256
  {
    hide Rewritten, RewriteAll, BuildBurst, ExtractCenter, AsIs;
    ghost var done, all := AsIs(parts.prefix), VoicePieces(parts, blocks);
    r, after := output, next;
    assert done + all[..0] == done;
    for i := 0 to |blocks|
      invariant r == RewriteAll(done + all[..i], h, start) && after == (start + |done| + i) % 256
    {
      RewriteExtends(done, all, i, h, start);
      NextSequence(start + |done| + i);
      var template := parts.voice[i % |parts.voice|];
      var payload := BurstFrom(blocks[i], ExtractCenter(template.payload));
      r := r + [Rewritten(Piece(template, payload), h, after)];
      after := (after + 1) % 256;
    }
    TakeAll(all);
  }

  // ----- one is the other ----------------------------------------------------------------------------

  method BuildLive(builder: OpenBridgeStreamBuilder, blocks: seq<Block>) returns (live: seq<ValidPacket>)
    requires builder.Valid() && !builder.started && !builder.ended && builder.voiceIndex == 0 && builder.pieces == []
    modifies builder
    ensures builder.Valid()
    ensures live == Stream(builder.parts, builder.identity, builder.start, blocks)
  {
    hide Rewritten, RewriteAll, BuildBurst, ExtractCenter, PartsOk, AsIs, VoicePiece;
    var parts, h, start := builder.parts, builder.identity, builder.start;
    ghost var voice := VoicePieces(parts, blocks);
    live := builder.StartPackets();
    assert builder.pieces == AsIs(parts.prefix) + voice[..0] == AsIs(parts.prefix);
    for i := 0 to |blocks|
      invariant builder.Valid() && builder.voiceIndex == i && !builder.ended
      invariant builder.pieces == AsIs(parts.prefix) + voice[..i]
      invariant live == RewriteAll(builder.pieces, h, start)
    {
      RewriteExtends(AsIs(parts.prefix), voice, i, h, start);
      var p := builder.VoicePacket(blocks[i]);
      live := live + [p.value];
    }
    TakeAll(voice);
    RewriteConcat(builder.pieces, AsIs(FirstOf(parts.suffix)), h, start);
    var end := builder.EndPackets();
    live := live + end;
  }

  /** Feeding a builder block by block gives the very packets the batch function gives. */
  method LiveEqualsBatch(blocks: seq<Block>, template: seq<ValidPacket>, link: Link, source: int, stream: int,
                         start: int)
    returns (live: seq<ValidPacket>, batch: seq<ValidPacket>)
    requires BatchOk(link, source, stream, blocks, template)
    ensures live == batch
  {
    var r := BuildFromBlocks(blocks, template, link, source, stream, start);
    batch := r.value;
    hide Split, RewriteAll, PartsOk, Pieces, Stream;
    var builder := new OpenBridgeStreamBuilder(Split(template).value, Identity(link, source, stream), start);
    live := BuildLive(builder, blocks);
  }
}
