/**
 SDES packets (section 6.5 of RFC 3550): building them, and reading back the last value of each item.  Text is ASCII.
 */
module Sdes {
  import opened Bytes
  import opened Sequences
  import opened Wrappers
  import opened Rtcp

  // ----- what a parse yields ------------------------------------------------------------------

  datatype Texts = Texts(cname: Option<seq<Byte>>, name: Option<seq<Byte>>, priv: Option<seq<Byte>>)

  datatype Description = Description(texts: Texts, callsign: Option<seq<Byte>>)

  function Store(t: Texts, kind: Byte, value: seq<Byte>): Texts {
    if kind == SDES_CNAME then t.(cname := Some(value))
    else if kind == SDES_NAME then t.(name := Some(value))
    else if kind == SDES_PRIV then t.(priv := Some(value))
    else t
  }

  // ----- building -----------------------------------------------------------------------------

  datatype ItemFields = ItemFields(kind: Byte, value: seq<Byte>)

  type Item = i: ItemFields | i.kind != 0 && |i.value| <= 255 witness ItemFields(1, [])

  datatype ChunkFields = ChunkFields(ssrc: seq<Byte>, items: seq<Item>)

  type Chunk = c: ChunkFields | |c.ssrc| == 4 witness ChunkFields([0, 0, 0, 0], [])

  function ItemBytes(i: Item): seq<Byte> { [i.kind, |i.value|] + i.value }

  function ItemsBytes(items: seq<Item>): seq<Byte> {
    if items == [] then [] else ItemBytes(items[0]) + ItemsBytes(items[1..])
  }

  /** SSRC, items, a NUL, and padding to four bytes. */
  function ChunkBytes(c: Chunk): (b: seq<Byte>)
    ensures |b| % 4 == 0
  {
    var body := c.ssrc + ItemsBytes(c.items) + [0];
    body + Padding(|body|)
  }

  function ChunksBytes(cs: seq<Chunk>): seq<Byte> {
    if cs == [] then [] else ChunkBytes(cs[0]) + ChunksBytes(cs[1..])
  }

  /** The last value of each kind wins. */
  function StoreItems(t: Texts, items: seq<Item>): Texts
    decreases |items|
  {
    if items == [] then t else StoreItems(Store(t, items[0].kind, items[0].value), items[1..])
  }

  function StoreChunks(t: Texts, cs: seq<Chunk>): Texts
    decreases |cs|
  {
    if cs == [] then t else StoreChunks(StoreItems(t, cs[0].items), cs[1..])
  }

  // ----- parsing --------------------------------------------------------------------------------

  /** Skip to a multiple of four, or the end. */
  function PadEnd(pos: nat, end: nat): (r: nat)
    requires pos <= end
    ensures pos <= r <= end
    decreases end - pos
  {
    if pos % 4 != 0 && pos < end then PadEnd(pos + 1, end) else pos
  }

  function Clipped(data: seq<Byte>, pos: nat, length: nat): seq<Byte>
    requires pos <= |data|
  {
    if pos + length <= |data| then data[pos..pos + length] else data[pos..]
  }

  /** Items from `pos`, up to and including a NUL and its padding, or to the end of the data. */
  function ParseItems(data: seq<Byte>, pos: nat, t: Texts): (Texts, nat)
    decreases |data| - pos
  {
    if pos >= |data| then (t, pos)
    else if data[pos] == 0 then (t, PadEnd(pos + 1, |data|))
    else if pos + 1 >= |data| then (t, pos + 1)
    else
      var length := data[pos + 1];
      ParseItems(data, pos + 2 + length, Store(t, data[pos], Clipped(data, pos + 2, length)))
  }

  function ParseChunks(data: seq<Byte>, pos: nat, count: nat, t: Texts): Texts
    decreases count
  {
    if count == 0 || pos + 4 > |data| then t
    else
      var (u, next) := ParseItems(data, pos + 4, t);
      ParseChunks(data, next, count - 1, u)
  }

  method ParseItemsLoop(data: seq<Byte>, start: nat, texts: Texts) returns (t: Texts, pos: nat)
    ensures (t, pos) == ParseItems(data, start, texts)
  {
    t, pos := texts, start;
    while pos < |data|
      invariant ParseItems(data, pos, t) == ParseItems(data, start, texts)
      decreases |data| - pos
    {
      var kind := data[pos];
      pos := pos + 1;
      if kind == 0 {
        ghost var end := PadEnd(pos, |data|);
        while pos % 4 != 0 && pos < |data|
          invariant pos <= |data| && PadEnd(pos, |data|) == end
          decreases |data| - pos
        {
          pos := pos + 1;
        }
        return;
      }
      if pos >= |data| {
        return;
      }
      var length := data[pos];
      pos := pos + 1;
      t := Store(t, kind, Clipped(data, pos, length));
      pos := pos + length;
    }
  }

  /** The text that is to name the station: NAME or, if that is missing or empty, CNAME. */
  function Chosen(t: Texts): seq<Byte> {
    if t.name.Some? && t.name.value != [] then t.name.value else if t.cname.Some? then t.cname.value else []
  }

  /** A blank-only text makes split()[0] raise. */
  function Describe(t: Texts): (r: Result<Description>) {
    if Chosen(t) == [] then Ok(Description(t, None))
    else if FirstWord(Chosen(t)) == [] then Raise(IndexError)
    else Ok(Description(t, Some(Upper(FirstWord(Chosen(t))))))
  }

  predicate IsSdes(data: seq<Byte>) { |data| >= 8 && data[0] / 64 == 2 && data[1] == RTCP_SDES }

  function Parse(data: seq<Byte>): Result<Description> {
    if !IsSdes(data) then Raise(ValueError) else Describe(ParseChunks(data, 4, data[0] % 32, Texts(None, None, None)))
  }

  method ParseRtcpSdes(data: seq<Byte>) returns (r: Result<Description>)
    ensures r == Parse(data)
  {
    if |data| < 8 || data[0] / 64 != 2 || data[1] != RTCP_SDES {
      return Raise(ValueError);
    }
    var count := data[0] % 32;
    var pos: nat, t := 4, Texts(None, None, None);
    ghost var all := ParseChunks(data, pos, count, t);
    hide ParseItems, ParseChunks, Describe;
    var i := 0;
    while i < count
      invariant 0 <= i <= count && ParseChunks(data, pos, count - i, t) == all
    {
      if pos + 4 > |data| {
        break;
      }
      NextChunk(data, pos, count - i, t);
      t, pos := ParseItemsLoop(data, pos + 4, t);
      i := i + 1;
    }
    NoChunk(data, pos, count - i, t);
    r := Describe(t);
  }

  lemma NextChunk(data: seq<Byte>, pos: nat, count: nat, t: Texts)
    requires count > 0 && pos + 4 <= |data|
    ensures var (u, next) := ParseItems(data, pos + 4, t);
            ParseChunks(data, pos, count, t) == ParseChunks(data, next, count - 1, u)
  {
    hide ParseItems;
  }

  lemma NoChunk(data: seq<Byte>, pos: nat, count: nat, t: Texts)
    requires count == 0 || pos + 4 > |data|
    ensures ParseChunks(data, pos, count, t) == t
  {
    hide ParseItems;
  }

  /** What is refused as no SDES packet at all. */
  lemma ParseRefuses(data: seq<Byte>)
    ensures Parse(data) == Raise(ValueError) <==> |data| < 8 || data[0] < 0x80 || data[0] >= 0xC0 || data[1] != 202
  {
    hide ParseChunks, Chosen, FirstWord;
  }

  // ----- parsing undoes building -------------------------------------------------------------------

  lemma {:induction false} After(data: seq<Byte>, pos: nat, a: seq<Byte>, b: seq<Byte>)
    requires pos <= |data| && data[pos..] == a + b
    ensures pos + |a| <= |data| && data[pos..pos + |a|] == a && data[pos + |a|..] == b
  {
    assert data[pos..pos + |a|] == data[pos..][..|a|];
    assert data[pos + |a|..] == data[pos..][|a|..];
  }

  lemma {:induction false} ItemAt(data: seq<Byte>, pos: nat, i: Item, tail: seq<Byte>)
    requires pos <= |data| && data[pos..] == ItemBytes(i) + tail
    ensures pos + 2 + |i.value| <= |data| && data[pos] == i.kind && data[pos + 1] == |i.value|
    ensures data[pos + 2..pos + 2 + |i.value|] == i.value && data[pos + 2 + |i.value|..] == tail
  {
    assert data[pos..] == [i.kind, |i.value|] + (i.value + tail);
    After(data, pos, [i.kind, |i.value|], i.value + tail);
    After(data, pos + 2, i.value, tail);
    assert data[pos] == data[pos..pos + 2][0] && data[pos + 1] == data[pos..pos + 2][1];
  }

  lemma {:induction false} ItemParsed(data: seq<Byte>, pos: nat, i: Item, tail: seq<Byte>, t: Texts)
    requires pos <= |data| && data[pos..] == ItemBytes(i) + tail
    ensures pos + |ItemBytes(i)| <= |data| && data[pos + |ItemBytes(i)|..] == tail
    ensures ParseItems(data, pos, t) == ParseItems(data, pos + |ItemBytes(i)|, Store(t, i.kind, i.value))
  {
    ItemAt(data, pos, i, tail);
    hide Store;
  }

  lemma {:induction false} ItemsParsed(data: seq<Byte>, pos: nat, items: seq<Item>, tail: seq<Byte>, t: Texts)
    requires pos <= |data| && data[pos..] == ItemsBytes(items) + tail
    ensures pos + |ItemsBytes(items)| <= |data|
    ensures ParseItems(data, pos, t) == ParseItems(data, pos + |ItemsBytes(items)|, StoreItems(t, items))
    decreases |items|
  {
    hide ParseItems, ItemBytes, Store;
    if items != [] {
      var i, rest := items[0], ItemsBytes(items[1..]);
      assert data[pos..] == ItemBytes(i) + (rest + tail);
      ItemParsed(data, pos, i, rest + tail, t);
      ItemsParsed(data, pos + |ItemBytes(i)|, items[1..], tail, Store(t, i.kind, i.value));
    }
  }

  lemma {:induction false} PadEndIs(pos: nat, end: nat)
    requires pos + |Padding(pos)| <= end
    ensures PadEnd(pos, end) == pos + |Padding(pos)|
    decreases end - pos
  {
    if pos % 4 != 0 { PadEndIs(pos + 1, end); }
  }

  lemma {:induction false} NulParsed(data: seq<Byte>, q: nat, n: nat, rest: seq<Byte>, t: Texts)
    requires q <= |data| && (q + 1) % 4 == n % 4 && data[q..] == [0] + Padding(n) + rest
    ensures ParseItems(data, q, t) == (t, q + 1 + |Padding(n)|)
  {
    assert data[q] == data[q..][0];
    assert |data[q..]| == 1 + |Padding(n)| + |rest|;
    PadEndIs(q + 1, |data|);
  }

  lemma {:induction false} ChunkParsed(data: seq<Byte>, pos: nat, c: Chunk, rest: seq<Byte>, t: Texts)
    requires pos <= |data| && pos % 4 == 0 && data[pos..] == ChunkBytes(c) + rest
    ensures pos + |ChunkBytes(c)| <= |data|
    ensures ParseItems(data, pos + 4, t) == (StoreItems(t, c.items), pos + |ChunkBytes(c)|)
  {
    hide ParseItems, ItemsBytes, StoreItems, Padding;
    var items := ItemsBytes(c.items);
    var n := |c.ssrc + items + [0]|;
    var tail := [0] + Padding(n) + rest;
    assert data[pos..] == c.ssrc + (items + tail);
    After(data, pos, c.ssrc, items + tail);
    After(data, pos + 4, items, tail);
    ItemsParsed(data, pos + 4, c.items, tail, t);
    NulParsed(data, pos + 4 + |items|, n, rest, StoreItems(t, c.items));
  }

  /** However many chunks and items: the parser finds the last value of each kind, whatever follows the chunks. */
  lemma {:induction false} ChunksParsed(data: seq<Byte>, pos: nat, cs: seq<Chunk>, rest: seq<Byte>, t: Texts)
    requires pos <= |data| && pos % 4 == 0 && data[pos..] == ChunksBytes(cs) + rest
    ensures ParseChunks(data, pos, |cs|, t) == StoreChunks(t, cs)
    decreases |cs|
  {
    hide ParseItems, ChunkBytes, StoreItems;
    if cs != [] {
      var later := ChunksBytes(cs[1..]) + rest;
      assert data[pos..] == ChunkBytes(cs[0]) + later;
      After(data, pos, ChunkBytes(cs[0]), later);
      ChunkParsed(data, pos, cs[0], later, t);
      ChunkLength(cs[0]);
      ChunksParsed(data, pos + |ChunkBytes(cs[0])|, cs[1..], rest, StoreItems(t, cs[0].items));
    }
  }

  lemma ChunkLength(c: Chunk)
    ensures |ChunkBytes(c)| >= 5
  {
  }

  function AllItems(cs: seq<Chunk>): seq<Item> { if cs == [] then [] else cs[0].items + AllItems(cs[1..]) }

  /** The value of the last item of a kind. */
  function LastValue(items: seq<Item>, kind: Byte): Option<seq<Byte>> {
    if items == [] then None
    else
      var last := items[|items| - 1];
      if last.kind == kind then Some(last.value) else LastValue(items[..|items| - 1], kind)
  }

  function Lasts(items: seq<Item>): Texts {
    Texts(LastValue(items, SDES_CNAME), LastValue(items, SDES_NAME), LastValue(items, SDES_PRIV))
  }

  lemma {:induction false} StoredIsLast(before: seq<Item>, items: seq<Item>)
    ensures StoreItems(Lasts(before), items) == Lasts(before + items)
    decreases |items|
  {
    if items == [] {
      assert before + items == before;
    } else {
      var i := items[0];
      assert before + items == before + [i] + items[1..];
      assert (before + [i])[..|before|] == before;
      assert Store(Lasts(before), i.kind, i.value) == Lasts(before + [i]);
      hide Lasts, Store;
      StoredIsLast(before + [i], items[1..]);
    }
  }

  lemma {:induction false} StoredChunksAreLast(before: seq<Item>, cs: seq<Chunk>)
    ensures StoreChunks(Lasts(before), cs) == Lasts(before + AllItems(cs))
    decreases |cs|
  {
    hide StoreItems, Lasts;
    if cs == [] {
      assert before + [] == before;
    } else {
      StoredIsLast(before, cs[0].items);
      StoredChunksAreLast(before + cs[0].items, cs[1..]);
      assert before + (cs[0].items + AllItems(cs[1..])) == before + cs[0].items + AllItems(cs[1..]);
    }
  }

  lemma ChunksAreLast(data: seq<Byte>, cs: seq<Chunk>, rest: seq<Byte>)
    requires |data| >= 4 && data[4..] == ChunksBytes(cs) + rest
    requires |cs| <= 31 && data[0] % 32 == |cs|
    ensures ParseChunks(data, 4, data[0] % 32, Texts(None, None, None)) == Lasts(AllItems(cs))
  {
    assert Lasts([]) == Texts(None, None, None);
    hide ChunksBytes, AllItems, ParseChunks, StoreChunks, Lasts;
    ChunksParsed(data, 4, cs, rest, Texts(None, None, None));
    StoredChunksAreLast([], cs);
    assert [] + AllItems(cs) == AllItems(cs);
  }

  /**
   Parsing undoes building: any number of chunks a header can count, of any items, with anything after them.  The
   packet must be eight bytes long, which only one without chunks can fail to be.  The parser then finds the last value
   of each kind, and takes for the callsign the first word of NAME or, if that is missing or empty, of CNAME; it fails
   to return exactly if that text is blank.
   */
  lemma SdesParsed(data: seq<Byte>, cs: seq<Chunk>, rest: seq<Byte>)
    requires |data| >= 4 && data[4..] == ChunksBytes(cs) + rest
    requires |cs| <= 31 && data[0] % 32 == |cs| && data[0] / 64 == 2 && data[1] == RTCP_SDES
    ensures |data| < 8 <==> cs == [] && |rest| < 4
    ensures |data| < 8 ==> Parse(data) == Raise(ValueError)
    ensures |data| >= 8 ==>
              var texts := Lasts(AllItems(cs));
              var named := texts.name.Some? && texts.name.value != [];
              var text := if named then texts.name.value else if texts.cname.Some? then texts.cname.value else [];
              && (Parse(data).Ok? <==> text == [] || HasWord(text))
              && (Parse(data).Ok? ==>
                    && Parse(data).value.texts == texts
                    && (text == [] ==> Parse(data).value.callsign == None)
                    && (text != [] ==>
                          Parse(data).value.callsign.Some? && IsFirstWord(text, Parse(data).value.callsign.value)))
              && (Parse(data).Raise? ==> Parse(data) == Raise(IndexError))
  {
    ChunksAreLast(data, cs, rest);
    var texts := Lasts(AllItems(cs));
    var text := if texts.name.Some? && texts.name.value != [] then texts.name.value
                else if texts.cname.Some? then texts.cname.value else [];
    FirstWordIs(text);
    if HasWord(text) { FirstWordParts(text); }
    assert Chosen(texts) == text;
    if cs != [] { ChunkLength(cs[0]); }
    hide ParseChunks, Lasts, AllItems, ChunkBytes, FirstWord, HasWord, Chosen, IsFirstWord;
  }

  /** Between blanks, or an end of the text, and in upper case. */
  ghost predicate IsFirstWord(s: seq<Byte>, word: seq<Byte>) {
    exists i, j :: 0 <= i < j <= |s| && Upper(s[i..j]) == word
                   && (forall k :: 0 <= k < i ==> IsSpace(s[k])) && (forall k :: i <= k < j ==> !IsSpace(s[k]))
                   && (j < |s| ==> IsSpace(s[j]))
  }

  lemma {:induction false} WordEnds(s: seq<Byte>) returns (j: nat)
    ensures j <= |s| && Word(s) == s[..j] && (forall k :: 0 <= k < j ==> !IsSpace(s[k])) && (j < |s| ==> IsSpace(s[j]))
  {
    j := 0;
    if s != [] && !IsSpace(s[0]) {
      j := WordEnds(s[1..]);
      assert forall k :: 0 < k <= j ==> s[k] == s[1..][k - 1];
      j := j + 1;
      assert s[..j] == [s[0]] + s[1..][..j - 1];
    }
  }

  lemma {:induction false} BlanksEnd(s: seq<Byte>) returns (i: nat)
    ensures i <= |s| && TrimLeft(s) == s[i..]
    ensures (forall k :: 0 <= k < i ==> IsSpace(s[k])) && (i < |s| ==> !IsSpace(s[i]))
  {
    i := 0;
    if s != [] && IsSpace(s[0]) {
      i := BlanksEnd(s[1..]);
      assert forall k :: 0 < k <= i ==> s[k] == s[1..][k - 1];
      assert s[1..][i..] == s[i + 1..];
      i := i + 1;
    }
  }

  lemma {:induction false} FirstWordParts(s: seq<Byte>)
    requires HasWord(s)
    ensures IsFirstWord(s, Upper(FirstWord(s)))
  {
    FirstWordIs(s);
    var i := BlanksEnd(s);
    var n := WordEnds(s[i..]);
    assert s[i..][..n] == s[i..i + n];
    assert forall k :: i <= k < i + n ==> s[k] == s[i..][k - i];
    assert i + n < |s| ==> s[i + n] == s[i..][n];
  }

  predicate HasWord(s: seq<Byte>) { exists i :: 0 <= i < |s| && !IsSpace(s[i]) }

  lemma {:induction false} FirstWordIs(s: seq<Byte>)
    ensures FirstWord(s) != [] <==> HasWord(s)
  {
    if s != [] && IsSpace(s[0]) {
      FirstWordIs(s[1..]);
      if HasWord(s) {
        var i :| 0 <= i < |s| && !IsSpace(s[i]);
        assert !IsSpace(s[1..][i - 1]);
      }
      if HasWord(s[1..]) {
        var i :| 0 <= i < |s[1..]| && !IsSpace(s[1..][i]);
        assert !IsSpace(s[i + 1]);
      }
    }
  }

  lemma BlankChunk() returns (c: Chunk)
    ensures ChunksBytes([c]) == [0, 0, 0, 1, SDES_NAME, 1, 32, 0] && AllItems([c]) == [ItemFields(SDES_NAME, [32])]
  {
    var item := ItemFields(SDES_NAME, [32]);
    c := ChunkFields([0, 0, 0, 1], [item]);
    assert [item][1..] == [] && ItemsBytes([]) == [] && ItemsBytes([item]) == [SDES_NAME, 1, 32];
    assert ChunkBytes(c) == [0, 0, 0, 1, SDES_NAME, 1, 32, 0];
    assert [c][1..] == [] && ChunksBytes([]) == [];
  }

  /** A well-formed packet whose NAME is a single blank makes the parser raise. */
  lemma BlankNameRaises()
    ensures var packet := [0x81, 202, 0, 2, 0, 0, 0, 1, 2, 1, 32, 0];
            WellFormed(packet) && Parse(packet) == Raise(IndexError)
  {
    var packet := [0x81, 202, 0, 2, 0, 0, 0, 1, 2, 1, 32, 0];
    var c := BlankChunk();
    var items := [ItemFields(SDES_NAME, [32])];
    assert items[..0] == [] && Chosen(Lasts(items)) == [32] && !HasWord([32]);
    assert packet[2..4] == [0, 2] && [0, 2][..1] == [0] && [0][..0] == [];
    assert packet[4..] == ChunksBytes([c]) + [];
    hide Parse, AllItems, ChunksBytes, Lasts, HasWord;
    SdesParsed(packet, [c], []);
  }

  // ----- callsigns ------------------------------------------------------------------------------------

  /** What str.split and str.strip treat as white space, in ASCII. */
  predicate IsSpace(b: Byte) { 9 <= b <= 13 || 28 <= b <= 32 }

  predicate NoSpace(s: seq<Byte>) { forall i :: 0 <= i < |s| ==> !IsSpace(s[i]) }

  function UpperByte(b: Byte): Byte { if 97 <= b <= 122 then b - 32 else b }

  /** Tab, line feed, vertical tab, form feed, carriage return, the four separators, and space. */
  lemma SpaceIs(b: Byte)
    ensures IsSpace(b) <==> b in [9, 10, 11, 12, 13, 28, 29, 30, 31, 32]
  {
  }

  function Upper(s: seq<Byte>): (r: seq<Byte>)
    ensures |r| == |s|
    ensures forall i :: 0 <= i < |s| ==>
              r[i] == if 'a' as int <= s[i] <= 'z' as int then s[i] - ('a' as int - 'A' as int) else s[i]
  {
    seq(|s|, i requires 0 <= i < |s| => UpperByte(s[i]))
  }

  function TrimLeft(s: seq<Byte>): seq<Byte> {
    if s != [] && IsSpace(s[0]) then TrimLeft(s[1..]) else s
  }

  function TrimRight(s: seq<Byte>): seq<Byte> {
    if s != [] && IsSpace(s[|s| - 1]) then TrimRight(s[..|s| - 1]) else s
  }

  function Word(s: seq<Byte>): seq<Byte> {
    if s == [] || IsSpace(s[0]) then [] else [s[0]] + Word(s[1..])
  }

  /** s.split()[0], or nothing where that raises. */
  function FirstWord(s: seq<Byte>): seq<Byte> { Word(TrimLeft(s)) }

  function Take255(s: seq<Byte>): (r: seq<Byte>)
    ensures |r| == (if |s| < 255 then |s| else 255) && r <= s
  {
    if |s| <= 255 then s else s[..255]
  }

  function SdesItems(callsign: seq<Byte>, name: seq<Byte>, priv: seq<Byte>): seq<Item> {
    var call := Upper(callsign);
    [ItemFields(SDES_CNAME, Take255(call)), ItemFields(SDES_NAME, Take255(TrimRight(TrimLeft(call + [32] + name))))]
    + if priv == [] then [] else [ItemFields(SDES_PRIV, Take255(priv))]
  }

  function SdesChunk(callsign: seq<Byte>, name: seq<Byte>, ssrc: int, priv: seq<Byte>): Chunk {
    ChunkFields(Ssrc(ssrc), SdesItems(callsign, name, priv))
  }

  lemma SdesIsSmall(callsign: seq<Byte>, name: seq<Byte>, ssrc: int, priv: seq<Byte>)
    ensures |ItemsBytes(SdesItems(callsign, name, priv))| <= 3 * 257
  {
    var items := SdesItems(callsign, name, priv);
    hide Take255, Upper, TrimLeft, TrimRight;
    assert |items| <= 3;
    ItemsBounded(items);
  }

  lemma {:induction false} ItemsBounded(items: seq<Item>)
    ensures |ItemsBytes(items)| <= 257 * |items|
  {
    if items != [] { ItemsBounded(items[1..]); }
  }

  /** build_rtcp_sdes: the items go into a bytearray one after another; the length word always fits. */
  method BuildRtcpSdes(callsign: seq<Byte>, name: seq<Byte>, ssrc: int, priv: seq<Byte>) returns (p: seq<Byte>)
    ensures WellFormed(p) && p[0] == 0x81 && p[1] == 202
    ensures p[4..] == ChunkBytes(SdesChunk(callsign, name, ssrc, priv))
    ensures FromBig(p[4..8]) == ssrc % 0x1_0000_0000
  {
    var call := Upper(callsign);
    var display := TrimRight(TrimLeft(call + [32] + name));
    ghost var all := SdesItems(callsign, name, priv);
    hide Upper, TrimRight, TrimLeft, Take255, ItemsBytes, ItemBytes;
    var two := [ItemFields(SDES_CNAME, Take255(call)), ItemFields(SDES_NAME, Take255(display))];
    var items := AppendItems(two);
    if priv != [] {
      ItemsAppend(two, ItemFields(SDES_PRIV, Take255(priv)));
      items := items + ItemBytes(ItemFields(SDES_PRIV, Take255(priv)));
    } else {
      assert two + [] == two;
    }
    SdesIsSmall(callsign, name, ssrc, priv);
    var r := RtcpPacket(RTCP_SDES, 1, Ssrc(ssrc) + items + [0]);
    p := r.value;
    SsrcIs(ssrc);
    assert p[4..8] == Ssrc(ssrc) by {
      assert p[4..8] == p[4..][..4];
      assert p[4..] == Ssrc(ssrc) + (items + [0] + Padding(|Ssrc(ssrc) + items + [0]|));
    }
  }

  method AppendItems(items: seq<Item>) returns (out: seq<Byte>)
    ensures out == ItemsBytes(items)
  {
    hide ItemBytes;
    out := [];
    for i := 0 to |items|
      invariant out == ItemsBytes(items[..i])
    {
      assert items[..i + 1] == items[..i] + [items[i]];
      ItemsAppend(items[..i], items[i]);
      out := out + ItemBytes(items[i]);
    }
    assert items[..|items|] == items;
  }

  lemma {:induction false} ItemsAppend(items: seq<Item>, i: Item)
    ensures ItemsBytes(items + [i]) == ItemsBytes(items) + ItemBytes(i)
  {
    hide ItemBytes;
    if items == [] {
      assert [] + [i] == [i];
    } else {
      assert (items + [i])[1..] == items[1..] + [i];
      ItemsAppend(items[1..], i);
    }
  }

  // ----- the callsign comes back --------------------------------------------------------------------------

  lemma {:induction false} WordIsPrefix(a: seq<Byte>, x: seq<Byte>)
    requires NoSpace(a) && (x == [] || IsSpace(x[0]))
    ensures Word(a + x) == a
  {
    if a == [] {
      assert a + x == x;
    } else {
      assert (a + x)[1..] == a[1..] + x;
      WordIsPrefix(a[1..], x);
    }
  }

  lemma {:induction false} TrimKeepsWord(a: seq<Byte>, y: seq<Byte>)
    requires a != [] && NoSpace(a)
    ensures TrimRight(y) <= y && TrimRight(a + y) == a + TrimRight(y)
  {
    if y == [] {
      assert a + y == a;
    } else if IsSpace(y[|y| - 1]) {
      assert (a + y)[..|a + y| - 1] == a + y[..|y| - 1];
      TrimKeepsWord(a, y[..|y| - 1]);
    }
  }

  /** The display name starts with the callsign, and what follows it is cut off by white space. */
  lemma {:induction false} DisplayStartsWith(call: seq<Byte>, name: seq<Byte>)
    requires call != [] && NoSpace(call)
    ensures FirstWord(Take255(TrimRight(TrimLeft(call + [32] + name)))) == Take255(call)
  {
    var y := [32] + name;
    assert call + [32] + name == call + y;
    TrimKeepsWord(call, y);
    var x := TrimRight(y);
    var display := Take255(call + x);
    var rest := if |call| >= 255 then [] else display[|call|..];
    assert display == Take255(call) + rest;
    WordIsPrefix(Take255(call), rest);
    assert !IsSpace(display[0]);
  }

  lemma {:induction false} UpperNoSpace(s: seq<Byte>)
    requires NoSpace(s)
    ensures NoSpace(Upper(s)) && Upper(Take255(Upper(s))) == Take255(Upper(s))
  {
  }

  lemma {:induction false} BlanksStart(s: seq<Byte>) returns (j: nat)
    ensures j <= |s| && TrimRight(s) == s[..j]
    ensures (forall k :: j <= k < |s| ==> IsSpace(s[k])) && (j > 0 ==> !IsSpace(s[j - 1]))
  {
    j := |s|;
    if s != [] && IsSpace(s[|s| - 1]) {
      j := BlanksStart(s[..|s| - 1]);
      assert s[..|s| - 1][..j] == s[..j];
    }
  }

  /** `t` is `s` without the white space around it. */
  ghost predicate IsStripped(s: seq<Byte>, t: seq<Byte>) {
    exists i, j :: 0 <= i <= j <= |s| && t == s[i..j]
                   && (forall k :: 0 <= k < i || j <= k < |s| ==> IsSpace(s[k]))
                   && (t != [] ==> !IsSpace(t[0]) && !IsSpace(t[|t| - 1]))
  }

  lemma {:induction false} TrimmedIsStripped(s: seq<Byte>)
    ensures IsStripped(s, TrimRight(TrimLeft(s)))
  {
    var i := BlanksEnd(s);
    var j := BlanksStart(s[i..]);
    hide TrimLeft, TrimRight, IsSpace;
    assert s[i..][..j] == s[i..i + j];
    assert forall k :: i <= k < |s| ==> s[k] == s[i..][k - i];
  }

  /** The stored items of a built packet. */
  lemma SdesStored(callsign: seq<Byte>, name: seq<Byte>, priv: seq<Byte>)
    ensures var t := StoreItems(Texts(None, None, None), SdesItems(callsign, name, priv));
            && t.cname == Some(Take255(Upper(callsign)))
            && t.name == Some(Take255(TrimRight(TrimLeft(Upper(callsign) + [32] + name))))
            && t.priv == if priv == [] then None else Some(Take255(priv))
  {
    hide Take255, Upper, TrimRight, TrimLeft;
    var items := SdesItems(callsign, name, priv);
    var call, display := items[0].value, items[1].value;
    assert items[1..][0] == items[1] && items[1..][1..] == items[2..];
    assert StoreItems(Texts(None, None, None), items) == StoreItems(Texts(Some(call), None, None), items[1..]);
    assert StoreItems(Texts(Some(call), None, None), items[1..])
        == StoreItems(Texts(Some(call), Some(display), None), items[2..]);
    OneOrNone(Texts(Some(call), Some(display), None), items[2..]);
  }

  lemma OneOrNone(t: Texts, items: seq<Item>)
    requires |items| <= 1
    ensures StoreItems(t, items) == if items == [] then t else Store(t, items[0].kind, items[0].value)
  {
    if items != [] { assert items[1..] == []; }
  }

  /**
   Reading back what was built gives the upper-case callsign, cut to 255 bytes: so all of it exactly when it is no
   longer.
   */
  method SdesRoundTrip(callsign: seq<Byte>, name: seq<Byte>, ssrc: int, priv: seq<Byte>)
    returns (p: seq<Byte>, r: Result<Description>)
    requires callsign != [] && NoSpace(callsign)
    ensures WellFormed(p) && Walk(p) == [RTCP_SDES]
    ensures r.Ok? && r.value.callsign == Some(Take255(Upper(callsign)))
    ensures var call := Upper(callsign);
            && r.value.texts.cname == Some(Take255(call))
            && (exists text :: IsStripped(call + [32] + name, text) && r.value.texts.name == Some(Take255(text)))
            && r.value.texts.priv == if priv == [] then None else Some(Take255(priv))
    ensures r.value.callsign == Some(Upper(callsign)) <==> |callsign| <= 255
  {
    p := BuildRtcpSdes(callsign, name, ssrc, priv);
    var c := SdesChunk(callsign, name, ssrc, priv);
    assert ChunksBytes([c]) + [] == ChunkBytes(c) by { assert [c][1..] == []; }
    ChunksParsed(p, 4, [c], [], Texts(None, None, None));
    assert StoreChunks(Texts(None, None, None), [c])
              == StoreItems(Texts(None, None, None), c.items) by { assert [c][1..] == []; }
    WalkSingle(p);
    SdesStored(callsign, name, priv);
    UpperNoSpace(callsign);
    DisplayStartsWith(Upper(callsign), name);
    TrimmedIsStripped(Upper(callsign) + [32] + name);
    hide IsStripped, Walk, ParseChunks, ChunkBytes, ChunksBytes, StoreItems, StoreChunks, WellFormed, FirstWord,
      TrimLeft, TrimRight, Upper;
    r := ParseRtcpSdes(p);
  }

  /** Of a callsign of 256 bytes the last is lost. */
  method LongCallsignIsCut() returns (p: seq<Byte>, r: Result<Description>)
    ensures r.Ok? && r.value.callsign.Some? && |r.value.callsign.value| == 255
  {
    var callsign: seq<Byte> := seq(256, _ => 65);
    assert NoSpace(callsign);
    p, r := SdesRoundTrip(callsign, [], 1, []);
  }

  lemma WalkSingle(p: seq<Byte>)
    requires WellFormed(p)
    ensures Walk(p) == [p[1]]
  {
    WalkOne(p, []);
    assert p + [] == p;
  }
}
