/** The last-heard file: one row per callsign, rewritten on every event, and the event history it stands for. */
module LastHeard {
  import opened Sequences
  import opened Wrappers

  type Callsign = string

  datatype Kind = Connected | Disconnected | Heard | Tx | Transmit | OtherEvent(name: string)

  predicate IsConnected(k: Kind) { k.Connected? }
  predicate IsDisconnected(k: Kind) { k.Disconnected? }
  predicate IsTransmit(k: Kind) { k.Heard? || k.Tx? || k.Transmit? }
  predicate IsAny(k: Kind) { true }

  /** Times are UTC seconds; None is the empty string. */
  datatype Row = Row(
    callsign: Callsign, dmrId: Option<int>, name: string, source: string,
    firstSeen: Option<int>, lastConnect: Option<int>, lastTx: Option<int>,
    lastDisconnect: Option<int>, lastSeen: Option<int>,
    lastEvent: Kind, connectCount: int, txCount: int)

  function Newest(a: Option<int>, b: Option<int>): Option<int> {
    if a.None? then b else if b.None? then a else Some(if a.value >= b.value then a.value else b.value)
  }

  function Oldest(a: Option<int>, b: Option<int>): Option<int> {
    if a.None? then b else if b.None? then a else Some(if a.value <= b.value then a.value else b.value)
  }

  predicate AtLeast(a: Option<int>, b: Option<int>) { b.None? || (a.Some? && a.value >= b.value) }

  function Merge(a: Row, b: Row): Row {
    Row(a.callsign,
           if b.dmrId.Some? then b.dmrId else a.dmrId,
           if b.name != "" then b.name else a.name,
           if b.source != "" then b.source else a.source,
           Oldest(a.firstSeen, b.firstSeen), Newest(a.lastConnect, b.lastConnect), Newest(a.lastTx, b.lastTx),
           Newest(a.lastDisconnect, b.lastDisconnect), Newest(a.lastSeen, b.lastSeen),
           if AtLeast(b.lastSeen, a.lastSeen) then b.lastEvent else a.lastEvent,
           a.connectCount + b.connectCount, a.txCount + b.txCount)
  }

  /** However duplicate rows of a callsign are grouped, they merge to the same row. */
  lemma MergeIsAssociative(a: Row, b: Row, c: Row)
    ensures Merge(Merge(a, b), c) == Merge(a, Merge(b, c))
  {
  }

  // ----- rows keyed by callsign, as an insertion-ordered dictionary -------------------------

  function Find(rows: seq<Row>, c: Callsign): (r: Option<Row>)
    ensures r.Some? ==> r.value.callsign == c
  {
    if rows == [] then None
    else if rows[|rows| - 1].callsign == c then Some(rows[|rows| - 1])
    else Find(rows[..|rows| - 1], c)
  }

  ghost predicate Distinct(rows: seq<Row>) {
    rows == [] || (Distinct(rows[..|rows| - 1]) && Find(rows[..|rows| - 1], rows[|rows| - 1].callsign).None?)
  }

  /** The callsign's row is replaced where it stands, or added at the end. */
  function Put(rows: seq<Row>, r: Row): seq<Row> {
    if rows == [] then [r]
    else
      var n, last := |rows| - 1, rows[|rows| - 1];
      if last.callsign == r.callsign then rows[..n] + [r]
      else if Find(rows[..n], r.callsign).Some? then Put(rows[..n], r) + [last]
      else rows + [r]
  }

  function Dedup(rows: seq<Row>): seq<Row> {
    if rows == [] then []
    else
      var before, last := Dedup(rows[..|rows| - 1]), rows[|rows| - 1];
      var existing := Find(before, last.callsign);
      Put(before, if existing.Some? then Merge(existing.value, last) else last)
  }

  /** What rows are ordered by: the last connection or, failing that, the last or the first event. */
  function Key(r: Row): Option<int> {
    if r.lastConnect.Some? then r.lastConnect else if r.lastSeen.Some? then r.lastSeen else r.firstSeen
  }

  /** Into rows in descending order of key, behind those with an equal key. */
  function Insert(rows: seq<Row>, r: Row): seq<Row> {
    if rows == [] || AtLeast(Key(rows[|rows| - 1]), Key(r)) then rows + [r]
    else Insert(rows[..|rows| - 1], r) + [rows[|rows| - 1]]
  }

  /** In descending order of key, those with equal keys in the order given. */
  function Sort(rows: seq<Row>): seq<Row> {
    if rows == [] then [] else Insert(Sort(rows[..|rows| - 1]), rows[|rows| - 1])
  }

  function NonBlank(rows: seq<Row>): seq<Row> {
    if rows == [] then []
    else
      var before, last := NonBlank(rows[..|rows| - 1]), rows[|rows| - 1];
      if last.callsign == "" then before else before + [last]
  }

  function Take(rows: seq<Row>, max: nat): seq<Row> { if |rows| <= max then rows else rows[..max] }

  // ----- events ---------------------------------------------------------------------------------

  datatype Entry = Entry(callsign: Callsign, dmrId: Option<int>, name: string, source: string, kind: Kind, at: int)

  function Updated(prev: Option<Row>, e: Entry): Row {
    var p := if prev.Some? then prev.value
             else Row(e.callsign, e.dmrId, e.name, e.source, Some(e.at), None, None, None, None, Heard, 0, 0);
    Row(e.callsign,
           if e.dmrId.Some? then e.dmrId else p.dmrId,
           if e.name != "" then e.name else p.name,
           if e.source != "" then e.source else p.source,
           if p.firstSeen.Some? then p.firstSeen else Some(e.at),
           if e.kind.Connected? then Some(e.at) else p.lastConnect,
           if IsTransmit(e.kind) then Some(e.at) else p.lastTx,
           if e.kind.Disconnected? then Some(e.at) else p.lastDisconnect,
           Some(e.at), e.kind,
           p.connectCount + (if e.kind.Connected? then 1 else 0), p.txCount + (if IsTransmit(e.kind) then 1 else 0))
  }

  function ReadRows(file: seq<Row>): seq<Row> { Sort(Dedup(NonBlank(file))) }

  function WrittenRows(rows: seq<Row>, max: nat): seq<Row> { Take(Sort(Dedup(rows)), max) }

  function Recorded(file: seq<Row>, max: nat, e: Entry): seq<Row> {
    var rows := ReadRows(file);
    WrittenRows(Put(rows, Updated(Find(rows, e.callsign), e)), max)
  }

  class LastHeardStore {
    const maxRecords: nat
    var file: seq<Row>   // empty also when there is no file

    constructor (maxRecords: nat)
      ensures this.maxRecords == maxRecords && file == []
    {
      this.maxRecords, file := maxRecords, [];
    }

    method Read() returns (rows: seq<Row>)
      ensures rows == ReadRows(file)
    {
      var byCall: seq<Row> := [];
      hide Put, Find, Merge, Sort;
      for i := 0 to |file|
        invariant byCall == Dedup(NonBlank(file[..i]))
      {
        TakeMore(file, i);
        var rec := file[i];
        if rec.callsign != "" {
          TakeAppended(NonBlank(file[..i]), [rec]);
          var existing := Find(byCall, rec.callsign);
          byCall := Put(byCall, if existing.None? then rec else Merge(existing.value, rec));
        }
      }
      TakeAll(file);
      rows := Sort(byCall);
    }

    method Write(records: seq<Row>)
      modifies this
      ensures file == WrittenRows(records, maxRecords) && |file| <= maxRecords
    {
      var dedup: seq<Row> := [];
      for i := 0 to |records|
        invariant dedup == Dedup(records[..i])
      {
        assert records[..i + 1][..i] == records[..i];
        var existing := Find(dedup, records[i].callsign);
        if existing.Some? {
          dedup := Put(dedup, Merge(existing.value, records[i]));
        } else {
          dedup := Put(dedup, records[i]);
        }
      }
      assert records[..|records|] == records;
      file := Take(Sort(dedup), maxRecords);
    }

    method Record(e: Entry) returns (rec: Row)
      modifies this
      ensures file == Recorded(old(file), maxRecords, e) && |file| <= maxRecords
      ensures rec == Updated(Find(ReadRows(old(file)), e.callsign), e)
    {
      var rows := Read();
      rec := Updated(Find(rows, e.callsign), e);
      Write(Put(rows, rec));
    }
  }

  // ----- rearranging loses nothing -------------------------------------------------------------------

  lemma {:induction false} PutFinds(rows: seq<Row>, r: Row)
    requires Distinct(rows)
    ensures Distinct(Put(rows, r))
    ensures forall c :: Find(Put(rows, r), c) == if c == r.callsign then Some(r) else Find(rows, c)
  {
    if rows != [] {
      var n, last := |rows| - 1, rows[|rows| - 1];
      PutFinds(rows[..n], r);
      var put := Put(rows, r);
      assert put[..|put| - 1] == if last.callsign == r.callsign then rows[..n]
                                 else if Find(rows[..n], r.callsign).Some? then Put(rows[..n], r) else rows;
    }
  }

  lemma {:induction false} DedupOfDistinct(rows: seq<Row>)
    requires Distinct(rows)
    ensures Dedup(rows) == rows
  {
    if rows != [] {
      var n, last := |rows| - 1, rows[|rows| - 1];
      DedupOfDistinct(rows[..n]);
      PutAbsent(rows[..n], last);
      assert rows == rows[..n] + [last];
    }
  }

  lemma {:induction false} PutAbsent(rows: seq<Row>, r: Row)
    requires Find(rows, r.callsign).None?
    ensures Put(rows, r) == rows + [r]
  {
  }

  lemma {:induction false} InsertFinds(rows: seq<Row>, r: Row)
    requires Distinct(rows) && Find(rows, r.callsign).None?
    ensures Distinct(Insert(rows, r)) && |Insert(rows, r)| == |rows| + 1
    ensures forall c :: Find(Insert(rows, r), c) == if c == r.callsign then Some(r) else Find(rows, c)
  {
    var out := Insert(rows, r);
    if rows == [] || AtLeast(Key(rows[|rows| - 1]), Key(r)) {
      assert out[..|out| - 1] == rows;
    } else {
      InsertFinds(rows[..|rows| - 1], r);
      assert out[..|out| - 1] == Insert(rows[..|rows| - 1], r);
    }
  }

  lemma {:induction false} SortFinds(rows: seq<Row>)
    requires Distinct(rows)
    ensures Distinct(Sort(rows)) && |Sort(rows)| == |rows|
    ensures forall c :: Find(Sort(rows), c) == Find(rows, c)
  {
    if rows != [] {
      SortFinds(rows[..|rows| - 1]);
      InsertFinds(Sort(rows[..|rows| - 1]), rows[|rows| - 1]);
    }
  }

  ghost predicate Descending(rows: seq<Row>) {
    forall i, j :: 0 <= i < j < |rows| ==> AtLeast(Key(rows[i]), Key(rows[j]))
  }

  lemma {:induction false} InsertDescends(rows: seq<Row>, r: Row)
    requires Descending(rows)
    ensures Descending(Insert(rows, r)) && |Insert(rows, r)| == |rows| + 1
    ensures forall x :: x in Insert(rows, r) <==> x in rows || x == r
  {
    hide Key;
    if rows == [] {
    } else if AtLeast(Key(rows[|rows| - 1]), Key(r)) {
      DescendsOn(rows, r);
    } else {
      var n, last := |rows| - 1, rows[|rows| - 1];
      InsertDescends(rows[..n], r);
      assert rows == rows[..n] + [last];
      hide AtLeast;
      forall x | x in Insert(rows[..n], r) ensures AtLeast(Key(x), Key(last)) {
        if x == r {
          assert AtLeast(Key(r), Key(last)) by { NotAtLeast(Key(last), Key(r)); }
        } else {
          var i :| 0 <= i < n && rows[i] == x;
        }
      }
    }
  }

  lemma NotAtLeast(a: Option<int>, b: Option<int>)
    requires !AtLeast(a, b)
    ensures AtLeast(b, a)
  {
  }

  lemma {:induction false} DescendsOn(rows: seq<Row>, r: Row)
    requires Descending(rows) && rows != [] && AtLeast(Key(rows[|rows| - 1]), Key(r))
    ensures Descending(rows + [r])
  {
    hide Key;
    var n := |rows| - 1;
    assert forall i :: 0 <= i < n ==> AtLeast(Key(rows[i]), Key(rows[n]));
  }

  lemma {:induction false} InsertAdds(rows: seq<Row>, r: Row)
    ensures multiset(Insert(rows, r)) == multiset(rows) + multiset{r}
  {
    if rows != [] && !AtLeast(Key(rows[|rows| - 1]), Key(r)) {
      InsertAdds(rows[..|rows| - 1], r);
      SplitLast(rows);
    }
  }

  lemma NothingDescends()
    ensures Descending([])
  {
  }

  /** The rows on the page are those of the file, latest connection first. */
  lemma {:induction false} SortDescends(rows: seq<Row>)
    ensures Descending(Sort(rows)) && multiset(Sort(rows)) == multiset(rows) && |Sort(rows)| == |rows|
    ensures forall x :: x in Sort(rows) <==> x in rows
  {
    hide Descending, Insert, Key;
    if rows == [] {
      NothingDescends();
    } else {
      SortDescends(rows[..|rows| - 1]);
      InsertDescends(Sort(rows[..|rows| - 1]), rows[|rows| - 1]);
      InsertAdds(Sort(rows[..|rows| - 1]), rows[|rows| - 1]);
      assert rows == rows[..|rows| - 1] + [rows[|rows| - 1]];
    }
  }

  /** Rows with a certain key, in order. */
  function WithKey(rows: seq<Row>, k: Option<int>): seq<Row> {
    if rows == [] then []
    else
      var last := rows[|rows| - 1];
      WithKey(rows[..|rows| - 1], k) + if Key(last) == k then [last] else []
  }

  lemma {:induction false} InsertWithKey(rows: seq<Row>, r: Row, k: Option<int>)
    requires Descending(rows)
    ensures WithKey(Insert(rows, r), k) == WithKey(rows + [r], k)
  {
    hide Key;
    if rows != [] && !AtLeast(Key(rows[|rows| - 1]), Key(r)) {
      var n, last := |rows| - 1, rows[|rows| - 1];
      InsertWithKey(rows[..n], r, k);
      TakeAppended(Insert(rows[..n], r), [last]);
      TakeAppended(rows[..n], [r]);
      TakeAppended(rows, [r]);
      assert Key(last) != Key(r);
    }
  }

  /** Rows with equal keys stay in the order they were. */
  lemma {:induction false} SortIsStable(rows: seq<Row>, k: Option<int>)
    ensures WithKey(Sort(rows), k) == WithKey(rows, k)
  {
    if rows != [] {
      var n := |rows| - 1;
      SortIsStable(rows[..n], k);
      SortDescends(rows[..n]);
      InsertWithKey(Sort(rows[..n]), rows[n], k);
      TakeAppended(Sort(rows[..n]), [rows[n]]);
      hide Descending, Insert, Key;
    }
  }

  lemma {:induction false} CutDescends(rows: seq<Row>, n: nat)
    requires Descending(rows) && n <= |rows|
    ensures forall x, y :: x in rows[..n] && y in rows[n..] ==> AtLeast(Key(x), Key(y))
  {
    hide Key, AtLeast;
    forall x, y | x in rows[..n] && y in rows[n..] ensures AtLeast(Key(x), Key(y)) {
      var i :| 0 <= i < n && rows[i] == x;
      var j :| n <= j < |rows| && rows[j] == y;
    }
  }

  /**
   What survives a write: as many rows as there is room for, and none left out is later than one kept, by its last
   connection or, failing that, by its last event.
   */
  lemma {:induction false} WriteKeepsLatest(rows: seq<Row>, max: nat)
    requires Distinct(rows)
    ensures var kept := WrittenRows(rows, max);
            && |kept| == (if |rows| <= max then |rows| else max) && kept <= Sort(rows)
            && (forall x :: x in kept ==> x in rows)
            && (forall x, y :: x in kept && y in Sort(rows)[|kept|..] ==>
                  Key(y).None? || (Key(x).Some? && Key(x).value >= Key(y).value))
            && multiset(kept) + multiset(Sort(rows)[|kept|..]) == multiset(rows)
  {
    DedupOfDistinct(rows);
    SortDescends(rows);
    hide Sort, Dedup, Distinct, Key, Descending;
    var all, kept := Sort(rows), WrittenRows(rows, max);
    assert all == kept + all[|kept|..];
    CutDescends(all, |kept|);
  }

  lemma KeyIs(r: Row)
    ensures Key(r) == if r.lastConnect != None then r.lastConnect
                      else if r.lastSeen != None then r.lastSeen
                      else r.firstSeen
  {
  }

  lemma {:induction false} NonBlankSame(rows: seq<Row>)
    requires Find(rows, "").None?
    ensures NonBlank(rows) == rows
  {
    if rows != [] {
      NonBlankSame(rows[..|rows| - 1]);
      assert rows == rows[..|rows| - 1] + [rows[|rows| - 1]];
    }
  }

  /** As long as there is room, an event changes its own callsign's row and no other. */
  lemma {:induction false} RecordedFinds(file: seq<Row>, max: nat, e: Entry)
    requires Distinct(file) && Find(file, "").None? && e.callsign != ""
    requires |file| + (if Find(file, e.callsign).None? then 1 else 0) <= max
    ensures var after := Recorded(file, max, e);
            && Distinct(after) && Find(after, "").None? && |after| <= max
            && |after| == |file| + (if Find(file, e.callsign).None? then 1 else 0)
            && forall c :: Find(after, c) == if c == e.callsign then Some(Updated(Find(file, c), e)) else Find(file, c)
  {
    hide Updated, Sort, Find, Distinct, Put;
    NonBlankSame(file);
    DedupOfDistinct(file);
    SortFinds(file);
    var rows := Sort(file);
    var rec := Updated(Find(rows, e.callsign), e);
    UpdatedCallsign(Find(rows, e.callsign), e);
    PutFinds(rows, rec);
    PutSize(rows, rec);
    DedupOfDistinct(Put(rows, rec));
    SortFinds(Put(rows, rec));
  }

  /** A row keeps its callsign and, once it has one, the time it was first seen. */
  lemma UpdatedCallsign(prev: Option<Row>, e: Entry)
    ensures Updated(prev, e).callsign == e.callsign
    ensures Updated(prev, e).firstSeen
            == if prev.Some? && prev.value.firstSeen.Some? then prev.value.firstSeen else Some(e.at)
  {
  }

  lemma {:induction false} PutSize(rows: seq<Row>, r: Row)
    ensures |Put(rows, r)| == |rows| + if Find(rows, r.callsign).None? then 1 else 0
  {
    if rows != [] { PutSize(rows[..|rows| - 1], r); }
  }

  // ----- the store agrees with its history -----------------------------------------------------------

  function Calls(log: seq<Entry>): set<Callsign> { set e | e in log :: e.callsign }

  /** The file after a whole history of events, starting from nothing. */
  function After(max: nat, log: seq<Entry>): seq<Row> {
    if log == [] then [] else Recorded(After(max, log[..|log| - 1]), max, log[|log| - 1])
  }

  /** Events of one callsign that satisfy a test. */
  function Count(log: seq<Entry>, c: Callsign, f: Kind -> bool): nat {
    if log == [] then 0
    else
      var last := log[|log| - 1];
      Count(log[..|log| - 1], c, f) + if last.callsign == c && f(last.kind) then 1 else 0
  }

  function LastTime(log: seq<Entry>, c: Callsign, f: Kind -> bool): Option<int> {
    if log == [] then None
    else
      var last := log[|log| - 1];
      if last.callsign == c && f(last.kind) then Some(last.at) else LastTime(log[..|log| - 1], c, f)
  }

  function FirstTime(log: seq<Entry>, c: Callsign): Option<int> {
    if log == [] then None
    else
      var before := FirstTime(log[..|log| - 1], c);
      if before.Some? then before else if log[|log| - 1].callsign == c then Some(log[|log| - 1].at) else None
  }

  /** The latest DMR ID, name and source that an event of a callsign gave. */
  function LastId(log: seq<Entry>, c: Callsign): Option<int> {
    if log == [] then None
    else
      var last := log[|log| - 1];
      if last.callsign == c && last.dmrId.Some? then last.dmrId else LastId(log[..|log| - 1], c)
  }

  function LastText(log: seq<Entry>, c: Callsign, text: Entry -> string): string {
    if log == [] then ""
    else
      var last := log[|log| - 1];
      if last.callsign == c && text(last) != "" then text(last) else LastText(log[..|log| - 1], c, text)
  }

  function NameOf(e: Entry): string { e.name }
  function SourceOf(e: Entry): string { e.source }

  function LastKind(log: seq<Entry>, c: Callsign): Option<Kind> {
    if log == [] then None
    else if log[|log| - 1].callsign == c then Some(log[|log| - 1].kind) else LastKind(log[..|log| - 1], c)
  }

  /** A row tells the same story as the callsign's events. */
  ghost predicate Agrees(row: Option<Row>, log: seq<Entry>, c: Callsign) {
    && (row.Some? <==> c in Calls(log))
    && (row.Some? ==>
          var r := row.value;
          && r.callsign == c
          && r.connectCount == Count(log, c, IsConnected) && r.txCount == Count(log, c, IsTransmit)
          && r.firstSeen == FirstTime(log, c) && r.firstSeen.Some?
          && r.lastConnect == LastTime(log, c, IsConnected) && r.lastTx == LastTime(log, c, IsTransmit)
          && r.lastDisconnect == LastTime(log, c, IsDisconnected) && r.lastSeen == LastTime(log, c, IsAny)
          && LastKind(log, c) == Some(r.lastEvent) && Names(r, log, c))
    && (row.None? ==> Silent(log, c))
  }

  ghost predicate Silent(log: seq<Entry>, c: Callsign) {
    && Count(log, c, IsConnected) == 0 && Count(log, c, IsTransmit) == 0 && FirstTime(log, c) == None
    && LastTime(log, c, IsConnected) == None && LastTime(log, c, IsTransmit) == None
    && LastTime(log, c, IsDisconnected) == None && LastTime(log, c, IsAny) == None
    && LastKind(log, c) == None
    && LastId(log, c) == None && LastText(log, c, NameOf) == "" && LastText(log, c, SourceOf) == ""
  }

  /** What was given once stays until something else is given. */
  ghost predicate Names(r: Row, log: seq<Entry>, c: Callsign) {
    r.dmrId == LastId(log, c) && r.name == LastText(log, c, NameOf) && r.source == LastText(log, c, SourceOf)
  }

  lemma {:induction false} NamesJoined(a: seq<Entry>, b: seq<Entry>, c: Callsign, text: Entry -> string)
    ensures LastId(a + b, c) == if LastId(b, c).Some? then LastId(b, c) else LastId(a, c)
    ensures LastText(a + b, c, text)
            == if LastText(b, c, text) != "" then LastText(b, c, text) else LastText(a, c, text)
  {
    if b == [] {
      assert a + b == a;
    } else {
      NamesJoined(a, b[..|b| - 1], c, text);
      assert (a + b)[..|a + b| - 1] == a + b[..|b| - 1];
    }
  }

  lemma {:induction false} UpdateAgrees(row: Option<Row>, log: seq<Entry>, e: Entry, c: Callsign)
    requires Agrees(row, log, c)
    ensures Agrees(if c == e.callsign then Some(Updated(row, e)) else row, log + [e], c)
  {
    assert (log + [e])[..|log|] == log;
    assert Calls(log + [e]) == Calls(log) + {e.callsign};
  }

  lemma {:induction false} RowCount(rows: seq<Row>, calls: set<Callsign>)
    requires Distinct(rows) && forall c :: Find(rows, c).Some? <==> c in calls
    ensures |rows| == |calls|
  {
    if rows == [] {
      assert calls == {} by { assert forall c :: c in calls ==> Find(rows, c).Some?; }
    } else {
      var n, last := |rows| - 1, rows[|rows| - 1];
      RowCount(rows[..n], calls - {last.callsign});
    }
  }

  /**
   Whatever the history: one row per callsign ever recorded, agreeing with all of its events, while there is room for
   them all.
   */
  lemma {:induction false} StoreAgrees(max: nat, log: seq<Entry>)
    requires "" !in Calls(log) && |Calls(log)| <= max
    ensures Distinct(After(max, log)) && |After(max, log)| == |Calls(log)|
    ensures forall c :: Agrees(Find(After(max, log), c), log, c)
  {
    if log == [] {
      assert Calls(log) == {};
    } else {
      var n, e := |log| - 1, log[|log| - 1];
      assert log == log[..n] + [e];
      assert Calls(log) == Calls(log[..n]) + {e.callsign};
      NoMore(Calls(log[..n]), Calls(log));
      StoreAgrees(max, log[..n]);
      var file := After(max, log[..n]);
      hide Distinct, Find, Recorded, Updated, Calls, Count, LastTime, LastKind, FirstTime, Silent, Names;
      assert Agrees(Find(file, ""), log[..n], "") && Agrees(Find(file, e.callsign), log[..n], e.callsign);
      RecordedFinds(file, max, e);
      forall c ensures Agrees(Find(After(max, log), c), log, c) {
        UpdateAgrees(Find(file, c), log[..n], e, c);
      }
      RowCount(After(max, log), Calls(log));
    }
  }

  // ----- merging is joining histories ------------------------------------------------------------------

  ghost predicate NotAfter(a: seq<Entry>, b: seq<Entry>) {
    forall i, j :: 0 <= i < |a| && 0 <= j < |b| ==> a[i].at <= b[j].at
  }

  lemma {:induction false} CountJoined(a: seq<Entry>, b: seq<Entry>, c: Callsign, f: Kind -> bool)
    ensures Count(a + b, c, f) == Count(a, c, f) + Count(b, c, f)
  {
    if b == [] {
      assert a + b == a;
    } else {
      CountJoined(a, b[..|b| - 1], c, f);
      assert (a + b)[..|a + b| - 1] == a + b[..|b| - 1];
    }
  }

  lemma {:induction false} LastJoined(a: seq<Entry>, b: seq<Entry>, c: Callsign, f: Kind -> bool)
    ensures LastTime(a + b, c, f) == if LastTime(b, c, f).Some? then LastTime(b, c, f) else LastTime(a, c, f)
  {
    if b == [] {
      assert a + b == a;
    } else {
      LastJoined(a, b[..|b| - 1], c, f);
      assert (a + b)[..|a + b| - 1] == a + b[..|b| - 1];
    }
  }

  lemma {:induction false} FirstAndKindJoined(a: seq<Entry>, b: seq<Entry>, c: Callsign)
    ensures FirstTime(a + b, c) == if FirstTime(a, c).Some? then FirstTime(a, c) else FirstTime(b, c)
    ensures LastKind(a + b, c) == if LastKind(b, c).Some? then LastKind(b, c) else LastKind(a, c)
  {
    if b == [] {
      assert a + b == a;
    } else {
      FirstAndKindJoined(a, b[..|b| - 1], c);
      assert (a + b)[..|a + b| - 1] == a + b[..|b| - 1];
    }
  }

  lemma {:induction false} LastIsAnEntry(log: seq<Entry>, c: Callsign, f: Kind -> bool) returns (i: nat)
    requires LastTime(log, c, f).Some?
    ensures i < |log| && log[i].at == LastTime(log, c, f).value
  {
    var n := |log| - 1;
    if log[n].callsign == c && f(log[n].kind) { i := n; } else { i := LastIsAnEntry(log[..n], c, f); }
  }

  lemma {:induction false} FirstIsAnEntry(log: seq<Entry>, c: Callsign) returns (i: nat)
    requires FirstTime(log, c).Some?
    ensures i < |log| && log[i].at == FirstTime(log, c).value
  {
    var n := |log| - 1;
    if FirstTime(log[..n], c).Some? { i := FirstIsAnEntry(log[..n], c); } else { i := n; }
  }

  /** What counts as transmitting. */
  lemma {:induction false} TransmissionsAre(log: seq<Entry>, c: Callsign)
    ensures Count(log, c, IsTransmit)
            == Count(log, c, (k: Kind) => k.Heard?) + Count(log, c, (k: Kind) => k.Tx?)
               + Count(log, c, (k: Kind) => k.Transmit?)
  {
    if log != [] { TransmissionsAre(log[..|log| - 1], c); }
  }

  /** The later of two last times is the second history's, if it has one. */
  lemma {:induction false} NewestJoined(a: seq<Entry>, b: seq<Entry>, c: Callsign, f: Kind -> bool)
    requires NotAfter(a, b)
    ensures Newest(LastTime(a, c, f), LastTime(b, c, f)) == LastTime(a + b, c, f)
    ensures LastTime(b, c, f).Some? ==> AtLeast(LastTime(b, c, f), LastTime(a, c, f))
  {
    LastJoined(a, b, c, f);
    if LastTime(a, c, f).Some? && LastTime(b, c, f).Some? {
      var i := LastIsAnEntry(a, c, f);
      var j := LastIsAnEntry(b, c, f);
      assert a[i].at <= b[j].at;
    }
  }

  /** Rows that agree with an earlier and a later history merge to the row of both together. */
  lemma {:induction false} MergeJoinsHistories(a: Row, b: Row, before: seq<Entry>, later: seq<Entry>, c: Callsign)
    requires Agrees(Some(a), before, c) && Agrees(Some(b), later, c) && NotAfter(before, later)
    ensures Agrees(Some(Merge(a, b)), before + later, c)
  {
    CountJoined(before, later, c, IsConnected);
    CountJoined(before, later, c, IsTransmit);
    NewestJoined(before, later, c, IsConnected);
    NewestJoined(before, later, c, IsTransmit);
    NewestJoined(before, later, c, IsDisconnected);
    NewestJoined(before, later, c, IsAny);
    FirstAndKindJoined(before, later, c);
    NamesJoined(before, later, c, NameOf);
    NamesJoined(before, later, c, SourceOf);
    var i := FirstIsAnEntry(before, c);
    var j := FirstIsAnEntry(later, c);
    assert before[i].at <= later[j].at;
    assert Calls(before + later) == Calls(before) + Calls(later);
    SeenIsNoted(later, c);
    hide Count, LastTime, FirstTime, LastKind, Calls, LastId, LastText;
  }

  /** It does not matter which row comes first, except for the names, and for the event of rows last seen together. */
  lemma MergeCommutes(a: Row, b: Row)
    requires a.callsign == b.callsign && a.lastSeen != b.lastSeen
    ensures var m, n := Merge(a, b), Merge(b, a);
            && m == n.(dmrId := m.dmrId, name := m.name, source := m.source)
            && m.lastSeen in {a.lastSeen, b.lastSeen}
            && m.lastEvent == if m.lastSeen == a.lastSeen then a.lastEvent else b.lastEvent
  {
  }

  // ----- files with several rows of one callsign ---------------------------------------------------------

  /** Each row of a file tells the story of a history of its own, one history after the other. */
  ghost predicate Chronicles(rows: seq<Row>, logs: seq<seq<Entry>>) {
    && |rows| == |logs|
    && (forall i :: 0 <= i < |rows| ==> Agrees(Some(rows[i]), logs[i], rows[i].callsign))
    && (forall i :: 0 <= i < |rows| ==> OnlyOf(logs[i], rows[i].callsign))
    && (forall i, j :: 0 <= i < j < |rows| ==> NotAfter(logs[i], logs[j]))
  }

  ghost predicate OnlyOf(log: seq<Entry>, c: Callsign) { forall e :: e in log ==> e.callsign == c }

  lemma {:induction false} OthersSaySame(row: Option<Row>, log: seq<Entry>, others: seq<Entry>, c: Callsign)
    requires Agrees(row, log, c) && c !in Calls(others)
    ensures Agrees(row, log + others, c)
    decreases |others|
  {
    if others == [] {
      assert log + others == log;
    } else {
      var n, last := |others| - 1, others[|others| - 1];
      assert last.callsign in Calls(others) && Calls(others[..n]) <= Calls(others);
      OthersSaySame(row, log, others[..n], c);
      SplitLast(others);
      Assoc(log, others[..n], [last]);
      UpdateAgrees(row, log + others[..n], last, c);
    }
  }

  lemma {:induction false} FlatIsBefore(logs: seq<seq<Entry>>, later: seq<Entry>)
    requires forall i :: 0 <= i < |logs| ==> NotAfter(logs[i], later)
    ensures NotAfter(Flat(logs), later)
  {
    if logs != [] { FlatIsBefore(logs[..|logs| - 1], later); }
  }

  /** One more row of a file, put with those of its callsign. */
  lemma {:induction false} PutJoins(rows: seq<Row>, last: Row, before: seq<Entry>, log: seq<Entry>, c: Callsign)
    requires Agrees(Find(rows, c), before, c) && Agrees(Some(last), log, last.callsign) && OnlyOf(log, last.callsign)
    requires NotAfter(before, log) && Distinct(rows)
    ensures var row := Find(rows, last.callsign);
            Agrees(Find(Put(rows, if row.Some? then Merge(row.value, last) else last), c), before + log, c)
  {
    var row := Find(rows, last.callsign);
    PutFinds(rows, if row.Some? then Merge(row.value, last) else last);
    if c != last.callsign {
      assert c !in Calls(log);
      OthersSaySame(Find(rows, c), before, log, c);
    } else if row.Some? {
      MergeJoinsHistories(row.value, last, before, log, c);
    } else {
      JoinsNothing(last, before, log, c);
    }
  }

  lemma {:induction false} JoinsNothing(last: Row, before: seq<Entry>, log: seq<Entry>, c: Callsign)
    requires Agrees(None, before, c) && Agrees(Some(last), log, c)
    ensures Agrees(Some(last), before + log, c)
  {
    CountJoined(before, log, c, IsConnected);
    CountJoined(before, log, c, IsTransmit);
    LastJoined(before, log, c, IsConnected);
    LastJoined(before, log, c, IsTransmit);
    LastJoined(before, log, c, IsDisconnected);
    LastJoined(before, log, c, IsAny);
    FirstAndKindJoined(before, log, c);
    NamesJoined(before, log, c, NameOf);
    NamesJoined(before, log, c, SourceOf);
    assert Calls(before + log) == Calls(before) + Calls(log);
    hide Count, LastTime, FirstTime, LastKind, Calls, LastId, LastText;
  }

  lemma {:induction false} LastChronicle(rows: seq<Row>, logs: seq<seq<Entry>>, c: Callsign)
    requires Chronicles(rows, logs) && rows != []
    ensures var n, last, log := |rows| - 1, rows[|rows| - 1], logs[|rows| - 1];
            && Chronicles(rows[..n], logs[..n]) && NotAfter(Flat(logs[..n]), log)
            && Agrees(Some(last), log, last.callsign) && OnlyOf(log, last.callsign)
            && (c != last.callsign ==> c !in Calls(log))
  {
    hide Agrees;
    FlatIsBefore(logs[..|rows| - 1], logs[|rows| - 1]);
  }

  lemma {:induction false} DedupJoins(rows: seq<Row>, logs: seq<seq<Entry>>, c: Callsign)
    requires Chronicles(rows, logs) && c != ""
    ensures Agrees(Find(Dedup(NonBlank(rows)), c), Flat(logs), c)
  {
    if rows != [] {
      var n, last, log := |rows| - 1, rows[|rows| - 1], logs[|rows| - 1];
      LastChronicle(rows, logs, c);
      hide Chronicles, Agrees, Find, Put, NotAfter, Merge, Calls;
      DedupJoins(rows[..n], logs[..n], c);
      var before := Flat(logs[..n]);
      if last.callsign == "" {
        OthersSaySame(Find(Dedup(NonBlank(rows[..n])), c), before, log, c);
      } else {
        TakeAppended(NonBlank(rows[..n]), [last]);
        DedupIsDistinct(NonBlank(rows[..n]));
        PutJoins(Dedup(NonBlank(rows[..n])), last, before, log, c);
      }
    }
  }

  /**
   Reading a file in which a callsign has several rows, each the outcome of a history of its own, yields one row per
   callsign, the outcome of those histories one after the other; rows without a callsign are dropped.
   */
  lemma {:induction false} ReadJoinsHistories(file: seq<Row>, logs: seq<seq<Entry>>)
    requires Chronicles(file, logs)
    ensures Distinct(ReadRows(file)) && Find(ReadRows(file), "").None?
    ensures forall c :: c != "" ==> Agrees(Find(ReadRows(file), c), Flat(logs), c)
  {
    DedupIsDistinct(NonBlank(file));
    NoBlankLeft(file);
    SortFinds(Dedup(NonBlank(file)));
    hide Agrees, Find, Dedup, NonBlank, Sort, Distinct, Chronicles;
    forall c | c != "" ensures Agrees(Find(ReadRows(file), c), Flat(logs), c) { DedupJoins(file, logs, c); }
  }

  lemma {:induction false} DedupIsDistinct(rows: seq<Row>)
    ensures Distinct(Dedup(rows))
  {
    if rows != [] {
      DedupIsDistinct(rows[..|rows| - 1]);
      var before, last := Dedup(rows[..|rows| - 1]), rows[|rows| - 1];
      var existing := Find(before, last.callsign);
      PutFinds(before, if existing.Some? then Merge(existing.value, last) else last);
    }
  }

  lemma {:induction false} NoBlankLeft(rows: seq<Row>)
    ensures Find(Dedup(NonBlank(rows)), "").None?
  {
    if rows != [] {
      NoBlankLeft(rows[..|rows| - 1]);
      var before, last := Dedup(NonBlank(rows[..|rows| - 1])), rows[|rows| - 1];
      TakeAppended(NonBlank(rows[..|rows| - 1]), [last]);
      var existing := Find(before, last.callsign);
      DedupIsDistinct(NonBlank(rows[..|rows| - 1]));
      PutFinds(before, if existing.Some? then Merge(existing.value, last) else last);
    }
  }

  lemma {:induction false} SeenIsNoted(log: seq<Entry>, c: Callsign)
    ensures FirstTime(log, c).Some? <==> LastTime(log, c, IsAny).Some?
    ensures FirstTime(log, c).Some? <==> LastKind(log, c).Some?
  {
    if log != [] { SeenIsNoted(log[..|log| - 1], c); }
  }
}
