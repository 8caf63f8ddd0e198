/**
 * The transcription history: an SQLite table `history(id, text, timestamp,
 * duration, confidence, language, model)` whose ids come from AUTOINCREMENT, and
 * the queries and deletions the manager runs on it.
 *
 * The table is modelled as the sequence of its rows in insertion order. Timestamps
 * are integer seconds on the local naive clock; the database stores their ISO-8601
 * text, whose comparison agrees with this order. `ORDER BY timestamp` breaks ties
 * by id, the order in which SQLite walks the timestamp index.
 */
module History {
  import opened Wrappers
  import opened Text
  import opened Configuration

  type Timestamp = int

  const SecondsPerDay := 86400

  /** One row of the table, in column order. */
  datatype Row = Row(id: int, text: string, timestamp: Timestamp, duration: real,
                     confidence: real, language: string, model: string)

  /** A history entry; `id` is None for an entry that was not stored. */
  datatype HistoryEntry = HistoryEntry(id: Option<int>, text: string, timestamp: Timestamp,
                                       duration: real, confidence: real, language: string,
                                       model: string)

  /** `HistoryEntry.from_row`: the columns by position. */
  function FromRow(row: Row): (e: HistoryEntry)
    ensures e.id == Some(row.id)
  {
    HistoryEntry(Some(row.id), row.text, row.timestamp, row.duration, row.confidence,
                 row.language, row.model)
  }

  /** The row an entry with an id is stored as. */
  function RowOf(e: HistoryEntry): (row: Row)
    requires e.id.Some?
    ensures row.id == e.id.value
  {
    Row(e.id.value, e.text, e.timestamp, e.duration, e.confidence, e.language, e.model)
  }

  /** Reading a row back gives the stored entry, and storing a read entry gives the row. */
  lemma RowRoundTrip(row: Row, e: HistoryEntry)
    ensures RowOf(FromRow(row)) == row
    ensures e.id.Some? ==> FromRow(RowOf(e)) == e
  {
  }

  /** The values of a `to_dict` result; `TimeField` stands for the ISO-8601 text of a timestamp. */
  datatype Field = NullField | IntField(i: int) | RealField(x: real) | TextField(s: string)
                 | TimeField(t: Timestamp)

  const DictKeys: set<string> := {"id", "text", "timestamp", "duration", "confidence", "language", "model"}

  /** `HistoryEntry.to_dict`. */
  function ToDict(e: HistoryEntry): (d: map<string, Field>)
    ensures d.Keys == DictKeys
    ensures d["id"] == (if e.id.Some? then IntField(e.id.value) else NullField)
    ensures d["text"] == TextField(e.text) && d["timestamp"] == TimeField(e.timestamp)
  {
    map["id" := (if e.id.Some? then IntField(e.id.value) else NullField),
        "text" := TextField(e.text),
        "timestamp" := TimeField(e.timestamp),
        "duration" := RealField(e.duration),
        "confidence" := RealField(e.confidence),
        "language" := TextField(e.language),
        "model" := TextField(e.model)]
  }

  /** Decoding the dictionary of an entry gives the entry back. */
  function FromDict(d: map<string, Field>): (e: Option<HistoryEntry>)
  {
    if DictKeys <= d.Keys && (d["id"].IntField? || d["id"].NullField?) && d["text"].TextField?
       && d["timestamp"].TimeField? && d["duration"].RealField? && d["confidence"].RealField?
       && d["language"].TextField? && d["model"].TextField?
    then Some(HistoryEntry(if d["id"].IntField? then Some(d["id"].i) else None, d["text"].s,
                           d["timestamp"].t, d["duration"].x, d["confidence"].x,
                           d["language"].s, d["model"].s))
    else None
  }

  lemma DictRoundTrip(e: HistoryEntry)
    ensures FromDict(ToDict(e)) == Some(e)
  {
  }

  // ---------------------------------------------------------------- row sets

  /** Ids strictly increase along the table: AUTOINCREMENT order, so ids are unique. */
  predicate IdsIncreasing(rs: seq<Row>) {
    forall i, j :: 0 <= i < j < |rs| ==> rs[i].id < rs[j].id
  }

  predicate NoDup(rs: seq<Row>) {
    forall i, j :: 0 <= i < j < |rs| ==> rs[i] != rs[j]
  }

  /** The rows a predicate keeps, in table order (a `WHERE` clause). */
  function Filter(rs: seq<Row>, keep: Row -> bool): (r: seq<Row>)
    ensures |r| <= |rs|
    ensures forall x :: x in r <==> x in rs && keep(x)
    ensures IdsIncreasing(rs) ==> IdsIncreasing(r)
    ensures Descending(rs) ==> Descending(r)
  {
    if rs == [] then []
    else
      var rest := Filter(rs[1..], keep);
      KeepFirst(rs, rest);
      if keep(rs[0]) then [rs[0]] + rest else rest
  }

  /**
   * Putting the first row back in front of rows drawn, in order, from the others keeps
   * both the id order and the newest-first order of the table.
   */
  lemma KeepFirst(rs: seq<Row>, rest: seq<Row>)
    requires rs != [] && forall x :: x in rest ==> x in rs[1..]
    requires IdsIncreasing(rs[1..]) ==> IdsIncreasing(rest)
    requires Descending(rs[1..]) ==> Descending(rest)
    ensures forall x :: x in rest ==> x in rs
    ensures IdsIncreasing(rs) ==> IdsIncreasing(rest) && IdsIncreasing([rs[0]] + rest)
    ensures Descending(rs) ==> Descending(rest) && Descending([rs[0]] + rest)
  {
    forall x | x in rest ensures x in rs {
      var k :| 0 <= k < |rs[1..]| && rs[1..][k] == x;
      assert rs[k + 1] == x;
    }
    if IdsIncreasing(rs) {
      KeepFirstIncreasing(rs, rest);
    }
    if Descending(rs) {
      KeepFirstDescending(rs, rest);
    }
  }

  lemma KeepFirstIncreasing(rs: seq<Row>, rest: seq<Row>)
    requires rs != [] && forall x :: x in rest ==> x in rs[1..]
    requires IdsIncreasing(rs) && (IdsIncreasing(rs[1..]) ==> IdsIncreasing(rest))
    ensures IdsIncreasing(rest) && IdsIncreasing([rs[0]] + rest)
  {
    var t := rs[1..];
    var r := [rs[0]] + rest;
    assert IdsIncreasing(t) by {
      forall i, j | 0 <= i < j < |t| ensures t[i].id < t[j].id {
        assert t[i] == rs[i + 1] && t[j] == rs[j + 1];
      }
    }
    forall i, j | 0 <= i < j < |r| ensures r[i].id < r[j].id {
      assert r[j] == rest[j - 1];
      if i == 0 {
        assert rest[j - 1] in t;
        var k :| 0 <= k < |t| && t[k] == rest[j - 1];
        assert rs[k + 1] == r[j];
      } else {
        assert r[i] == rest[i - 1];
      }
    }
  }

  lemma KeepFirstDescending(rs: seq<Row>, rest: seq<Row>)
    requires rs != [] && forall x :: x in rest ==> x in rs[1..]
    requires Descending(rs) && (Descending(rs[1..]) ==> Descending(rest))
    ensures Descending(rest) && Descending([rs[0]] + rest)
  {
    var t := rs[1..];
    var r := [rs[0]] + rest;
    assert Descending(t) by {
      forall i, j | 0 <= i < j < |t| ensures !Before(t[i], t[j]) {
        assert t[i] == rs[i + 1] && t[j] == rs[j + 1];
      }
    }
    forall i, j | 0 <= i < j < |r| ensures !Before(r[i], r[j]) {
      assert r[j] == rest[j - 1];
      if i == 0 {
        assert rest[j - 1] in t;
        var k :| 0 <= k < |t| && t[k] == rest[j - 1];
        assert rs[k + 1] == r[j];
      } else {
        assert r[i] == rest[i - 1];
      }
    }
  }

  /** The set of rows a predicate drops. */
  function Dropped(rs: seq<Row>, keep: Row -> bool): set<Row> {
    set x | x in rs && !keep(x)
  }

  /** Without duplicates, the rows removed are as many as the distinct rows dropped. */
  lemma {:induction false} FilterCount(rs: seq<Row>, keep: Row -> bool)
    requires NoDup(rs)
    ensures |rs| - |Filter(rs, keep)| == |Dropped(rs, keep)|
  {
    if rs != [] {
      var t := rs[1..];
      assert NoDup(t);
      FilterCount(t, keep);
      assert rs[0] !in t;
      if keep(rs[0]) {
        assert Dropped(rs, keep) == Dropped(t, keep);
      } else {
        assert Dropped(rs, keep) == Dropped(t, keep) + {rs[0]};
      }
    } else {
      assert Dropped(rs, keep) == {};
    }
  }

  lemma IncreasingNoDup(rs: seq<Row>)
    requires IdsIncreasing(rs)
    ensures NoDup(rs)
  {
  }

  /** `id = k` identifies at most one row of the table. */
  lemma UniqueIds(rs: seq<Row>, x: Row, y: Row)
    requires IdsIncreasing(rs) && x in rs && y in rs && x.id == y.id
    ensures x == y
  {
    var i :| 0 <= i < |rs| && rs[i] == x;
    var j :| 0 <= j < |rs| && rs[j] == y;
    assert i == j;
  }

  /** `SELECT * FROM history WHERE id = ?`. */
  function FindRow(rs: seq<Row>, id: int): (r: Option<Row>)
    ensures r.Some? ==> r.value in rs && r.value.id == id
    ensures r.None? ==> forall x :: x in rs ==> x.id != id
  {
    if rs == [] then None
    else if rs[0].id == id then Some(rs[0])
    else FindRow(rs[1..], id)
  }

  // ---------------------------------------------------------------- ordering

  /** Row `a` sorts strictly before row `b` in `ORDER BY timestamp ASC`. */
  predicate Before(a: Row, b: Row) {
    a.timestamp < b.timestamp || (a.timestamp == b.timestamp && a.id < b.id)
  }

  predicate Ascending(rs: seq<Row>) {
    forall i, j :: 0 <= i < j < |rs| ==> !Before(rs[j], rs[i])
  }

  predicate Descending(rs: seq<Row>) {
    forall i, j :: 0 <= i < j < |rs| ==> !Before(rs[i], rs[j])
  }

  /** Places `x` after every row that sorts strictly before it. */
  function Insert(x: Row, s: seq<Row>): (r: seq<Row>)
    ensures multiset(r) == multiset(s) + multiset{x}
  {
    if s == [] then [x]
    else if Before(s[0], x) then
      assert s == [s[0]] + s[1..];
      [s[0]] + Insert(x, s[1..])
    else
      [x] + s
  }

  /** `h` followed by an ascending sequence of rows none of which sorts before `h`. */
  lemma AscendingCons(h: Row, t: seq<Row>)
    requires Ascending(t) && forall y :: y in t ==> !Before(y, h)
    ensures Ascending([h] + t)
  {
    var r := [h] + t;
    forall i, j | 0 <= i < j < |r| ensures !Before(r[j], r[i]) {
      if i > 0 {
        assert r[i] == t[i - 1] && r[j] == t[j - 1];
      } else {
        assert r[j] == t[j - 1];
      }
    }
  }

  /** In an ascending sequence no row sorts before the first. */
  lemma AscendingFirst(s: seq<Row>, y: Row)
    requires Ascending(s) && s != [] && y in s
    ensures !Before(y, s[0])
  {
  }

  lemma {:induction false} InsertAscending(x: Row, s: seq<Row>)
    requires Ascending(s)
    ensures Ascending(Insert(x, s))
  {
    if s == [] {
    } else if Before(s[0], x) {
      var t := s[1..];
      assert Ascending(t);
      var rest := Insert(x, t);
      InsertAscending(x, t);
      forall y | y in rest ensures !Before(y, s[0]) {
        assert y in multiset(rest);
        if y != x {
          assert y in t;
          AscendingFirst(s, y);
        }
      }
      AscendingCons(s[0], rest);
    } else {
      forall y | y in s ensures !Before(y, x) {
        AscendingFirst(s, y);
      }
      AscendingCons(x, s);
    }
  }

  /** A row not in a duplicate-free sequence can be put in front of it. */
  lemma NoDupCons(h: Row, t: seq<Row>)
    requires NoDup(t) && h !in t
    ensures NoDup([h] + t)
  {
    var r := [h] + t;
    forall i, j | 0 <= i < j < |r| ensures r[i] != r[j] {
      assert r[j] == t[j - 1];
      if i > 0 {
        assert r[i] == t[i - 1];
      }
    }
  }

  lemma {:induction false} NoDupInsert(x: Row, s: seq<Row>)
    requires NoDup(s) && x !in s
    ensures NoDup(Insert(x, s))
  {
    if s == [] {
    } else if Before(s[0], x) {
      var t := s[1..];
      assert s == [s[0]] + t;
      assert NoDup(t) by {
        forall i, j | 0 <= i < j < |t| ensures t[i] != t[j] {
          assert t[i] == s[i + 1] && t[j] == s[j + 1];
        }
      }
      assert s[0] !in t by {
        forall k | 0 <= k < |t| ensures t[k] != s[0] {
          assert t[k] == s[k + 1];
        }
      }
      NoDupInsert(x, t);
      var rest := Insert(x, t);
      assert s[0] !in rest by {
        assert s[0] != x;
        assert s[0] !in multiset(rest);
      }
      NoDupCons(s[0], rest);
    } else {
      NoDupCons(x, s);
    }
  }

  /** The table in `ORDER BY timestamp ASC` order (insertion sort). */
  function SortAsc(rs: seq<Row>): (r: seq<Row>)
    ensures Ascending(r)
    ensures multiset(r) == multiset(rs) && |r| == |rs|
    ensures NoDup(rs) ==> NoDup(r)
  {
    if rs == [] then []
    else
      var rest := SortAsc(rs[1..]);
      InsertFirst(rs, rest);
      Insert(rs[0], rest)
  }

  /** Inserting the first row into the sorted others sorts the whole table. */
  lemma InsertFirst(rs: seq<Row>, rest: seq<Row>)
    requires rs != [] && Ascending(rest) && multiset(rest) == multiset(rs[1..])
    requires NoDup(rs[1..]) ==> NoDup(rest)
    ensures Ascending(Insert(rs[0], rest))
    ensures multiset(Insert(rs[0], rest)) == multiset(rs) && |Insert(rs[0], rest)| == |rs|
    ensures NoDup(rs) ==> NoDup(Insert(rs[0], rest))
  {
    assert rs == [rs[0]] + rs[1..];
    assert |multiset(Insert(rs[0], rest))| == |multiset(rs)|;
    InsertAscending(rs[0], rest);
    if NoDup(rs) {
      var t := rs[1..];
      assert NoDup(t) by {
        forall i, j | 0 <= i < j < |t| ensures t[i] != t[j] {
          assert t[i] == rs[i + 1] && t[j] == rs[j + 1];
        }
      }
      assert rs[0] !in t by {
        forall k | 0 <= k < |t| ensures t[k] != rs[0] {
          assert t[k] == rs[k + 1];
        }
      }
      assert rs[0] !in rest by {
        assert rs[0] !in multiset(rest);
      }
      NoDupInsert(rs[0], rest);
    }
  }

  function Reverse(s: seq<Row>): (r: seq<Row>)
    ensures |r| == |s| && forall i :: 0 <= i < |s| ==> r[i] == s[|s| - 1 - i]
  {
    seq(|s|, i requires 0 <= i < |s| => s[|s| - 1 - i])
  }

  /** The table in `ORDER BY timestamp DESC` order. */
  function Newest(rs: seq<Row>): (r: seq<Row>)
    ensures Descending(r)
    ensures multiset(r) == multiset(rs)
  {
    var a := SortAsc(rs);
    var r := Reverse(a);
    assert multiset(r) == multiset(a) by {
      ReverseMultiset(a);
    }
    r
  }

  lemma {:induction false} ReverseMultiset(s: seq<Row>)
    ensures multiset(Reverse(s)) == multiset(s)
  {
    if s != [] {
      var t := s[..|s| - 1];
      ReverseMultiset(t);
      assert Reverse(s) == [s[|s| - 1]] + Reverse(t);
      assert s == t + [s[|s| - 1]];
    }
  }

  /**
   * `LIMIT limit OFFSET offset` as SQLite reads them: a negative offset skips
   * nothing and a negative limit returns everything after the offset.
   */
  function Window(s: seq<Row>, limit: int, offset: int): (r: seq<Row>)
    ensures var k := if offset <= 0 then 0 else if offset < |s| then offset else |s|;
            && |r| <= |s| - k && r == s[k..k + |r|]
            && (limit < 0 ==> |r| == |s| - k)
            && (limit >= 0 ==> |r| == if limit < |s| - k then limit else |s| - k)
  {
    var k := if offset <= 0 then 0 else if offset < |s| then offset else |s|;
    var rest := s[k..];
    if limit < 0 || limit >= |rest| then
      assert rest == s[k..k + |rest|];
      rest
    else
      assert rest[..limit] == s[k..k + limit];
      rest[..limit]
  }

  /** `[HistoryEntry.from_row(row) for row in rows]`. */
  function Entries(rs: seq<Row>): (r: seq<HistoryEntry>)
    ensures |r| == |rs| && forall i :: 0 <= i < |rs| ==> r[i] == FromRow(rs[i])
  {
    seq(|rs|, i requires 0 <= i < |rs| => FromRow(rs[i]))
  }

  /** The rows `get_recent` returns. */
  function Recent(rs: seq<Row>, limit: int, offset: int): (r: seq<Row>)
    ensures Descending(r)
    ensures forall x :: x in r ==> x in rs
    ensures limit >= 0 ==> |r| <= limit
  {
    var n := Newest(rs);
    var r := Window(n, limit, offset);
    assert forall x :: x in n ==> x in rs by {
      forall x | x in n ensures x in rs {
        assert x in multiset(n);
      }
    }
    r
  }

  /** Without an offset, no row left out is newer than a row returned. */
  lemma RecentAreNewest(rs: seq<Row>, limit: int, x: Row, y: Row)
    requires x in Recent(rs, limit, 0) && y in rs && y !in Recent(rs, limit, 0)
    ensures !Before(x, y)
  {
    var n := Newest(rs);
    var r := Window(n, limit, 0);
    assert r == n[..|r|];
    assert y in multiset(n);
    var i :| 0 <= i < |r| && r[i] == x;
    var j :| 0 <= j < |n| && n[j] == y;
    assert j >= |r|;
  }

  function InRange(start: Timestamp, end: Timestamp): Row -> bool {
    (x: Row) => start <= x.timestamp <= end
  }

  /** A `WHERE` clause keeps every copy of a row it accepts and none of one it rejects. */
  lemma {:induction false} FilterMultiset(rs: seq<Row>, keep: Row -> bool, x: Row)
    ensures multiset(Filter(rs, keep))[x] == if keep(x) then multiset(rs)[x] else 0
  {
    if rs != [] {
      FilterMultiset(rs[1..], keep, x);
      assert rs == [rs[0]] + rs[1..];
    }
  }

  /** Filtering two orderings of the same rows keeps as many rows. */
  lemma FilterPermuted(a: seq<Row>, b: seq<Row>, keep: Row -> bool)
    requires multiset(a) == multiset(b)
    ensures |Filter(a, keep)| == |Filter(b, keep)|
  {
    forall x ensures multiset(Filter(a, keep))[x] == multiset(Filter(b, keep))[x] {
      FilterMultiset(a, keep, x);
      FilterMultiset(b, keep, x);
    }
    assert multiset(Filter(a, keep)) == multiset(Filter(b, keep));
    assert |multiset(Filter(a, keep))| == |multiset(Filter(b, keep))|;
  }

  /**
   * The rows `get_by_date_range` returns: rows in the range, newest first, as many as
   * the limit allows of all the rows in the range.
   */
  function DateRange(rs: seq<Row>, start: Timestamp, end: Timestamp, limit: int): (r: seq<Row>)
    ensures Descending(r)
    ensures forall x :: x in r ==> x in rs && start <= x.timestamp <= end
    ensures var total := |Filter(rs, InRange(start, end))|;
            |r| == if 0 <= limit < total then limit else total
    ensures limit < 0 ==> forall x :: x in rs && start <= x.timestamp <= end ==> x in r
  {
    var f := Filter(Newest(rs), InRange(start, end));
    NewestInRange(rs, start, end);
    var r := Window(f, limit, 0);
    assert forall x :: x in r ==> x in f by {
      assert r == f[..|r|];
    }
    r
  }

  /** The newest-first rows in a range are the table's rows in it, as many as there are. */
  lemma NewestInRange(rs: seq<Row>, start: Timestamp, end: Timestamp)
    ensures var f := Filter(Newest(rs), InRange(start, end));
            && (forall x :: x in f <==> x in rs && start <= x.timestamp <= end)
            && |f| == |Filter(rs, InRange(start, end))|
  {
    var n := Newest(rs);
    forall x ensures x in n <==> x in rs {
      assert x in n <==> x in multiset(n);
    }
    FilterPermuted(n, rs, InRange(start, end));
  }

  /** No row in the range that is left out is newer than a row returned. */
  lemma DateRangeAreNewest(rs: seq<Row>, start: Timestamp, end: Timestamp, limit: int, x: Row, y: Row)
    requires x in DateRange(rs, start, end, limit)
    requires y in rs && start <= y.timestamp <= end && y !in DateRange(rs, start, end, limit)
    ensures !Before(x, y)
  {
    var n := Newest(rs);
    assert y in multiset(n);
    var f := Filter(n, InRange(start, end));
    assert InRange(start, end)(y);
    assert y in f;
    var r := Window(f, limit, 0);
    assert r == f[..|r|];
    PrefixKeepsNewest(f, |r|, x, y);
  }

  /** In a newest-first sequence, no row past a prefix is newer than one in it. */
  lemma PrefixKeepsNewest(f: seq<Row>, k: nat, x: Row, y: Row)
    requires Descending(f) && k <= |f| && x in f[..k] && y in f && y !in f[..k]
    ensures !Before(x, y)
  {
    var i :| 0 <= i < k && f[..k][i] == x;
    var j :| 0 <= j < |f| && f[j] == y;
    assert forall m :: 0 <= m < k ==> f[..k][m] == f[m];
    assert j >= k;
    assert f[i] == x;
  }

  function NotOlderThan(cutoff: Timestamp): Row -> bool {
    (x: Row) => x.timestamp >= cutoff
  }

  function IdNot(id: int): Row -> bool {
    (x: Row) => x.id != id
  }

  function IdNotIn(ids: set<int>): Row -> bool {
    (x: Row) => x.id !in ids
  }

  function IdSet(rs: seq<Row>): (ids: set<int>)
  {
    set x | x in rs :: x.id
  }

  /** Deleting the ids of rows drawn from the table drops exactly those rows. */
  lemma DroppedByIds(rs: seq<Row>, doomed: seq<Row>)
    requires IdsIncreasing(rs) && forall x :: x in doomed ==> x in rs
    ensures Dropped(rs, IdNotIn(IdSet(doomed))) == set x | x in doomed
  {
    forall x | x in Dropped(rs, IdNotIn(IdSet(doomed))) ensures x in doomed {
      var y :| y in doomed && y.id == x.id;
      UniqueIds(rs, x, y);
    }
  }

  lemma {:induction false} DistinctCount(s: seq<Row>)
    requires NoDup(s)
    ensures |set x | x in s| == |s|
  {
    if s != [] {
      var t := s[1..];
      assert NoDup(t);
      DistinctCount(t);
      assert s[0] !in t;
      assert (set x | x in s) == (set x | x in t) + {s[0]};
    } else {
      assert (set x | x in s) == {};
    }
  }

  /** The `k` oldest rows (k at most the table size). */
  function Oldest(rs: seq<Row>, k: nat): (r: seq<Row>)
    requires k <= |rs|
    ensures |r| == k && forall x :: x in r ==> x in rs
  {
    var a := SortAsc(rs);
    assert forall x :: x in a ==> x in rs by {
      forall x | x in a ensures x in rs { assert x in multiset(a); }
    }
    a[..k]
  }

  /** `DELETE ... WHERE id IN (SELECT id ... ORDER BY timestamp ASC LIMIT k)`. */
  function DropOldest(rs: seq<Row>, k: nat): (r: seq<Row>)
    requires k <= |rs|
    ensures IdsIncreasing(rs) ==> IdsIncreasing(r)
    ensures forall x :: x in r <==> x in rs && x.id !in IdSet(Oldest(rs, k))
  {
    Filter(rs, IdNotIn(IdSet(Oldest(rs, k))))
  }

  /** Deleting the ids of the `k` oldest rows removes exactly `k` rows. */
  lemma RemoveOldestCount(rs: seq<Row>, k: nat)
    requires IdsIncreasing(rs) && k <= |rs|
    ensures |DropOldest(rs, k)| == |rs| - k
  {
    var doomed := Oldest(rs, k);
    IncreasingNoDup(rs);
    FilterCount(rs, IdNotIn(IdSet(doomed)));
    DroppedByIds(rs, doomed);
    assert NoDup(SortAsc(rs));
    assert NoDup(doomed);
    DistinctCount(doomed);
  }

  /** Every row that survives the oldest-first deletion is no older than every row deleted. */
  lemma RemoveOldestKeepsNewer(rs: seq<Row>, k: nat, kept: Row, gone: Row)
    requires IdsIncreasing(rs) && k <= |rs|
    requires kept in DropOldest(rs, k) && gone in Oldest(rs, k)
    ensures !Before(kept, gone)
  {
    var a := SortAsc(rs);
    assert kept in multiset(a);
    var i :| 0 <= i < |a| && a[i] == kept;
    var j :| 0 <= j < k && a[..k][j] == gone;
    assert a[j] == gone;
  }

  /** The table after `enforce_max_entries` with cap `max`. */
  function Capped(rs: seq<Row>, max: int): (r: seq<Row>)
    ensures IdsIncreasing(rs) ==> IdsIncreasing(r)
    ensures forall x :: x in r ==> x in rs
  {
    if max <= 0 || |rs| <= max then rs
    else DropOldest(rs, |rs| - max)
  }

  /** Over the cap, enforcement deletes the surplus of oldest rows. */
  lemma CappedDropsOldest(rs: seq<Row>, max: int)
    requires 0 < max < |rs|
    ensures Capped(rs, max) == DropOldest(rs, |rs| - max)
  {
  }

  /** A positive cap leaves exactly min(count, cap) rows. */
  lemma {:induction false} CappedSize(rs: seq<Row>, max: int)
    requires IdsIncreasing(rs) && max > 0
    ensures |Capped(rs, max)| == if |rs| <= max then |rs| else max
  {
    if |rs| > max {
      CappedDropsOldest(rs, max);
      RemoveOldestCount(rs, |rs| - max);
      assert |DropOldest(rs, |rs| - max)| == max;
    } else {
      assert Capped(rs, max) == rs;
    }
  }

  /** No row deleted by the cap is newer than a row kept. */
  lemma CappedKeepsNewest(rs: seq<Row>, max: int, kept: Row, gone: Row)
    requires IdsIncreasing(rs)
    requires kept in Capped(rs, max) && gone in rs && gone !in Capped(rs, max)
    ensures !Before(kept, gone)
  {
    var k := |rs| - max;
    assert max > 0 && |rs| > max;
    var doomed := Oldest(rs, k);
    assert gone.id in IdSet(doomed);
    var g :| g in doomed && g.id == gone.id;
    UniqueIds(rs, g, gone);
    RemoveOldestKeepsNewer(rs, k, kept, gone);
  }

  // ---------------------------------------------------------------- the manager

  /** Rows may be older than the retention period allows once they are before this instant. */
  function Cutoff(now: Timestamp, retentionDays: int): Timestamp {
    now - retentionDays * SecondsPerDay
  }

  /**
   * The history manager over one database file. The connection is opened lazily by
   * the first operation, and opening it runs the retention cleanup when history is enabled.
   */
  class HistoryManager {
    const settings: HistorySettings
    var rows: seq<Row>
    var nextId: int
    var initialized: bool

    /** Ids are increasing and below the next AUTOINCREMENT value. */
    ghost predicate Valid()
      reads this
    {
      && IdsIncreasing(rows) && nextId >= 1
      && forall x :: x in rows ==> 1 <= x.id < nextId
    }

    /** The rows once the connection is open at time `now`. */
    function Opened(now: Timestamp): (r: seq<Row>)
      reads this
      ensures initialized ==> r == rows
      ensures !initialized && settings.enabled && settings.retentionDays > 0 ==>
                r == Filter(rows, NotOlderThan(Cutoff(now, settings.retentionDays)))
      ensures !initialized && !(settings.enabled && settings.retentionDays > 0) ==> r == rows
    {
      if !initialized && settings.enabled && settings.retentionDays > 0 then
        Filter(rows, NotOlderThan(Cutoff(now, settings.retentionDays)))
      else rows
    }

    /**
     * A manager over a database file holding `stored`, whose AUTOINCREMENT
     * sequence stands at `sequence`.
     */
    constructor(s: Option<HistorySettings>, stored: seq<Row>, sequence: nat)
      requires IdsIncreasing(stored)
      requires forall x :: x in stored ==> 1 <= x.id <= sequence
      ensures settings == (if s.Some? then s.value else DefaultHistory)
      ensures rows == stored && nextId == sequence + 1 && !initialized
      ensures Valid()
    {
      settings := if s.Some? then s.value else DefaultHistory;
      rows := stored;
      nextId := sequence + 1;
      initialized := false;
    }

    /** `DELETE FROM history WHERE timestamp < cutoff`; returns the row count deleted. */
    method DeleteOlderThan(cutoff: Timestamp) returns (deleted: nat)
      requires Valid()
      modifies this
      ensures Valid()
      ensures rows == Filter(old(rows), NotOlderThan(cutoff))
      ensures deleted == |old(rows)| - |rows|
      ensures nextId == old(nextId) && initialized == old(initialized)
    {
      var before := |rows|;
      rows := Filter(rows, NotOlderThan(cutoff));
      deleted := before - |rows|;
    }

    /** Opens the connection, once; the first opening runs the retention cleanup. */
    method Initialize(now: Timestamp)
      requires Valid()
      modifies this
      ensures Valid() && initialized
      ensures rows == old(Opened(now)) && nextId == old(nextId)
    {
      if initialized {
        return;
      }
      initialized := true;
      if settings.enabled && settings.retentionDays > 0 {
        var _ := DeleteOlderThan(Cutoff(now, settings.retentionDays));
      }
    }

    /** Closes the connection; the table stays in the file. */
    method Shutdown()
      modifies this
      ensures !initialized && rows == old(rows) && nextId == old(nextId)
    {
      initialized := false;
    }

    /**
     * Records a transcription. With history disabled nothing is stored and the
     * entry has no id; otherwise the row gets the next AUTOINCREMENT id.
     */
    method AddEntry(text: string, duration: real, confidence: real, language: string, model: string,
                    timestamp: Option<Timestamp>, now: Timestamp)
      returns (e: HistoryEntry)
      requires Valid()
      modifies this
      ensures Valid()
      ensures var ts := if timestamp.Some? then timestamp.value else now;
              if settings.enabled then
                && e == FromRow(Row(old(nextId), text, ts, duration, confidence, language, model))
                && rows == old(Opened(now)) + [Row(old(nextId), text, ts, duration, confidence, language, model)]
                && nextId == old(nextId) + 1 && initialized
              else
                && e == HistoryEntry(None, text, ts, duration, confidence, language, model)
                && rows == old(rows) && nextId == old(nextId) && initialized == old(initialized)
    {
      var ts := if timestamp.Some? then timestamp.value else now;
      if !settings.enabled {
        return HistoryEntry(None, text, ts, duration, confidence, language, model);
      }
      Initialize(now);
      var row := Row(nextId, text, ts, duration, confidence, language, model);
      rows := rows + [row];
      nextId := nextId + 1;
      e := FromRow(row);
    }

    method GetEntry(id: int, now: Timestamp) returns (e: Option<HistoryEntry>)
      requires Valid()
      modifies this
      ensures Valid() && initialized && rows == old(Opened(now)) && nextId == old(nextId)
      ensures e.Some? <==> exists x :: x in rows && x.id == id
      ensures e.Some? ==> e == Some(FromRow(FindRow(rows, id).value))
    {
      Initialize(now);
      var found := FindRow(rows, id);
      e := if found.Some? then Some(FromRow(found.value)) else None;
    }

    method GetRecent(limit: int, offset: int, now: Timestamp) returns (es: seq<HistoryEntry>)
      requires Valid()
      modifies this
      ensures Valid() && initialized && rows == old(Opened(now)) && nextId == old(nextId)
      ensures es == Entries(Recent(rows, limit, offset))
    {
      Initialize(now);
      es := Entries(Recent(rows, limit, offset));
    }

    method GetByDateRange(start: Timestamp, end: Timestamp, limit: int, now: Timestamp)
      returns (es: seq<HistoryEntry>)
      requires Valid()
      modifies this
      ensures Valid() && initialized && rows == old(Opened(now)) && nextId == old(nextId)
      ensures es == Entries(DateRange(rows, start, end, limit))
    {
      Initialize(now);
      es := Entries(DateRange(rows, start, end, limit));
    }

    /** Deletes the row with this id; true exactly when there was one. */
    method DeleteEntry(id: int, now: Timestamp) returns (deleted: bool)
      requires Valid()
      modifies this
      ensures Valid() && initialized && nextId == old(nextId)
      ensures rows == Filter(old(Opened(now)), IdNot(id))
      ensures deleted <==> exists x :: x in old(Opened(now)) && x.id == id
    {
      Initialize(now);
      deleted := FindRow(rows, id).Some?;
      rows := Filter(rows, IdNot(id));
    }

    /** Deletes the rows older than the retention period; nothing when retention is not positive. */
    method CleanupOldEntries(now: Timestamp) returns (deleted: nat)
      requires Valid()
      modifies this
      ensures Valid() && nextId == old(nextId)
      ensures settings.retentionDays <= 0 ==>
                deleted == 0 && rows == old(rows) && initialized == old(initialized)
      ensures settings.retentionDays > 0 ==>
                && initialized
                && rows == Filter(old(Opened(now)), NotOlderThan(Cutoff(now, settings.retentionDays)))
                && deleted == |old(Opened(now))| - |rows|
    {
      if settings.retentionDays <= 0 {
        return 0;
      }
      Initialize(now);
      deleted := DeleteOlderThan(Cutoff(now, settings.retentionDays));
    }

    /** Deletes the oldest rows until at most `max_entries` remain; nothing when the cap is not positive. */
    method EnforceMaxEntries(now: Timestamp) returns (deleted: nat)
      requires Valid()
      modifies this
      ensures Valid() && nextId == old(nextId)
      ensures settings.maxEntries <= 0 ==>
                deleted == 0 && rows == old(rows) && initialized == old(initialized)
      ensures settings.maxEntries > 0 ==>
                && initialized
                && rows == Capped(old(Opened(now)), settings.maxEntries)
                && deleted == |old(Opened(now))| - |rows|
    {
      if settings.maxEntries <= 0 {
        return 0;
      }
      Initialize(now);
      var count := |rows|;
      if count <= settings.maxEntries {
        return 0;
      }
      // Over the cap, `Capped` is the deletion of the `count - max_entries` oldest rows.
      CappedDropsOldest(rows, settings.maxEntries);
      rows := Capped(rows, settings.maxEntries);
      deleted := count - |rows|;
    }

    /** Deletes every row and returns how many there were. */
    method ClearAll(now: Timestamp) returns (deleted: nat)
      requires Valid()
      modifies this
      ensures Valid() && initialized && nextId == old(nextId)
      ensures rows == [] && deleted == |old(Opened(now))|
    {
      Initialize(now);
      deleted := |rows|;
      rows := [];
    }
  }

  /** An entry just added is what `get_entry` returns for its id. */
  lemma AddedIsFound(rs: seq<Row>, row: Row)
    requires forall x :: x in rs ==> x.id < row.id
    ensures FindRow(rs + [row], row.id) == Some(row)
  {
    if rs != [] {
      assert (rs + [row])[1..] == rs[1..] + [row];
      AddedIsFound(rs[1..], row);
    }
  }

  /** After deleting an id it is absent, and every other row is still there. */
  lemma DeleteRemovesOnlyThatId(rs: seq<Row>, id: int)
    ensures FindRow(Filter(rs, IdNot(id)), id) == None
    ensures forall x :: x in rs && x.id != id ==> x in Filter(rs, IdNot(id))
  {
  }

  /**
   * Adding three entries, reading one back, deleting it and clearing the rest,
   * with history enabled and nothing stored beforehand.
   */
  method HistoryScenario() {
    var h := new HistoryManager(None, [], 0);
    var a := h.AddEntry("hello", 1.0, 0.9, "en", "turbo", Some(100), 200);
    var b := h.AddEntry("world", 2.0, 0.8, "en", "turbo", Some(150), 200);
    assert a.id == Some(1) && b.id == Some(2);
    assert h.rows == [RowOf(a), RowOf(b)];
    AddedIsFound([RowOf(a)], RowOf(b));
    var got := h.GetEntry(2, 200);
    assert got == Some(b);
    var gone := h.DeleteEntry(1, 200);
    assert gone;
    var again := h.DeleteEntry(1, 200);
    assert !again by {
      DeleteRemovesOnlyThatId([RowOf(a), RowOf(b)], 1);
    }
    var n := h.ClearAll(200);
    assert n == 1 by {
      assert h.rows == [];
    }
  }

  // ---------------------------------------------------------------- durations

  /** Hours, minutes and seconds of a duration, as `//` and `%` on the float compute them. */
  datatype Clock = Clock(hours: int, minutes: int, seconds: int)

  function ClockOf(duration: real): (c: Clock)
    ensures 0 <= c.minutes < 60 && 0 <= c.seconds < 60
    ensures c.hours * 3600 + c.minutes * 60 + c.seconds == duration.Floor
    ensures c.hours > 0 <==> duration >= 3600.0
    ensures duration >= 0.0 ==> c.hours >= 0 && (c.hours > 0 || c.minutes > 0 <==> duration >= 60.0)
  {
    var t := duration.Floor;
    assert t >= 3600 <==> duration >= 3600.0;
    assert t >= 60 <==> duration >= 60.0;
    Clock(t / 3600, (t % 3600) / 60, t % 60)
  }

  function DigitChar(d: int): (c: char)
    requires 0 <= d < 10
    ensures '0' <= c <= '9' && c as int - '0' as int == d
  {
    ('0' as int + d) as char
  }

  /** `str(n)` for a natural number. */
  function NatToString(n: nat): (s: string)
    ensures |s| >= 1
    ensures forall i :: 0 <= i < |s| ==> '0' <= s[i] <= '9'
  {
    if n < 10 then [DigitChar(n)] else NatToString(n / 10) + [DigitChar(n % 10)]
  }

  /** The value of a string of decimal digits. */
  function DigitsValue(s: string): int
    requires forall i :: 0 <= i < |s| ==> '0' <= s[i] <= '9'
  {
    if s == [] then 0 else DigitsValue(s[..|s| - 1]) * 10 + (s[|s| - 1] as int - '0' as int)
  }

  lemma {:induction false} NatToStringValue(n: nat)
    ensures DigitsValue(NatToString(n)) == n
  {
    if n >= 10 {
      NatToStringValue(n / 10);
      var s := NatToString(n);
      assert s[..|s| - 1] == NatToString(n / 10);
    }
  }

  /** `part` is decimal digits spelling `n`, followed by the unit letter `unit`. */
  predicate ReadsAs(part: string, unit: char, n: int) {
    && |part| >= 2 && part[|part| - 1] == unit
    && (forall i :: 0 <= i < |part| - 1 ==> '0' <= part[i] <= '9')
    && DigitsValue(part[..|part| - 1]) == n
  }

  /** `f"{n}{unit}"` reads back as `n` with that unit, and holds no space or other letter. */
  lemma NumberPart(n: nat, unit: char)
    requires unit in "hms"
    ensures var p := NatToString(n) + [unit];
            && ReadsAs(p, unit, n) && ' ' !in p
            && forall l :: l in "hms" && l != unit ==> l !in p
  {
    var p := NatToString(n) + [unit];
    assert p[..|p| - 1] == NatToString(n);
    NatToStringValue(n);
  }

  /** Splitting two or three space-free parts joined by single spaces gives them back. */
  lemma SpacedParts(x: string, y: string, z: string)
    requires ' ' !in x && ' ' !in y && ' ' !in z
    ensures Split(y + " " + z, ' ') == [y, z]
    ensures Split(x + " " + y + " " + z, ' ') == [x, y, z]
  {
    SplitNoSep(z, ' ');
    SplitCons(y, z, ' ');
    assert y + " " + z == y + [' '] + z;
    SplitCons(x, y + " " + z, ' ');
    assert x + " " + y + " " + z == x + [' '] + (y + " " + z);
  }

  /** The text `f"{h}h {m}m {s}s"` has three parts reading back as `h`, `m` and `s`. */
  lemma HoursText(h: nat, m: nat, sec: nat)
    ensures var hp, mp, sp := NatToString(h) + "h", NatToString(m) + "m", NatToString(sec) + "s";
            var s := hp + " " + mp + " " + sp;
            var p := Split(s, ' ');
            && |p| == 3 && ReadsAs(p[0], 'h', h) && ReadsAs(p[1], 'm', m) && ReadsAs(p[2], 's', sec)
            && 'h' in s && 'm' in s
  {
    var hp, mp, sp := NatToString(h) + "h", NatToString(m) + "m", NatToString(sec) + "s";
    NumberPart(h, 'h');
    NumberPart(m, 'm');
    NumberPart(sec, 's');
    SpacedParts(hp, mp, sp);
    Letters(hp, mp, sp);
  }

  /** In `x + " " + y + " " + z` the last letters of `x` and of `y` occur. */
  lemma Letters(x: string, y: string, z: string)
    requires x != [] && y != []
    ensures var s := x + " " + y + " " + z;
            x[|x| - 1] in s && y[|y| - 1] in s
  {
    var s := x + " " + y + " " + z;
    assert s[|x| - 1] == x[|x| - 1];
    assert s[|x| + |y|] == y[|y| - 1];
  }

  /** The text `f"{m}m {s}s"` has two parts reading back as `m` and `s`, and no 'h'. */
  lemma MinutesText(m: nat, sec: nat)
    ensures var mp, sp := NatToString(m) + "m", NatToString(sec) + "s";
            var s := mp + " " + sp;
            var p := Split(s, ' ');
            && |p| == 2 && ReadsAs(p[0], 'm', m) && ReadsAs(p[1], 's', sec)
            && 'h' !in s && 'm' in s
  {
    var mp, sp := NatToString(m) + "m", NatToString(sec) + "s";
    NumberPart(m, 'm');
    NumberPart(sec, 's');
    SpacedParts("", mp, sp);
    PairLetters(mp, sp, 'h');
  }

  /** In `y + " " + z` the last letter of `y` occurs, and a letter in neither part does not. */
  lemma PairLetters(y: string, z: string, c: char)
    requires y != [] && c != ' ' && c !in y && c !in z
    ensures var s := y + " " + z;
            y[|y| - 1] in s && c !in s
  {
    var s := y + " " + z;
    assert s[|y| - 1] == y[|y| - 1];
    assert forall i :: 0 <= i < |s| ==> s[i] == if i < |y| then y[i] else if i == |y| then ' ' else z[i - |y| - 1];
  }

  /** The text `f"{s}s"` is one part reading back as `s`, with neither 'h' nor 'm'. */
  lemma SecondsText(sec: nat)
    ensures var s := NatToString(sec) + "s";
            var p := Split(s, ' ');
            && |p| == 1 && ReadsAs(p[0], 's', sec) && 'h' !in s && 'm' !in s
  {
    NumberPart(sec, 's');
    SplitNoSep(NatToString(sec) + "s", ' ');
  }

  /**
   * `_format_duration`: "Hh Mm Ss" with hours, "Mm Ss" with minutes, else "Ss", where
   * the numbers are the hours, minutes and seconds of `ClockOf`.
   */
  function FormatDuration(duration: real): (s: string)
    ensures |s| >= 2 && s[|s| - 1] == 's'
    ensures 'h' in s <==> duration >= 3600.0
    ensures duration >= 0.0 ==> ('m' in s <==> duration >= 60.0)
    ensures var c := ClockOf(duration);
            var p := Split(s, ' ');
            && (c.hours > 0 ==>
                  |p| == 3 && ReadsAs(p[0], 'h', c.hours) && ReadsAs(p[1], 'm', c.minutes)
                  && ReadsAs(p[2], 's', c.seconds))
            && (c.hours <= 0 && c.minutes > 0 ==>
                  |p| == 2 && ReadsAs(p[0], 'm', c.minutes) && ReadsAs(p[1], 's', c.seconds))
            && (c.hours <= 0 && c.minutes == 0 ==> |p| == 1 && ReadsAs(p[0], 's', c.seconds))
  {
    var c := ClockOf(duration);
    var sp := NatToString(c.seconds) + "s";
    if c.hours > 0 then
      HoursText(c.hours, c.minutes, c.seconds);
      var hp, mp := NatToString(c.hours) + "h", NatToString(c.minutes) + "m";
      hp + " " + mp + " " + sp
    else if c.minutes > 0 then
      MinutesText(c.minutes, c.seconds);
      var mp := NatToString(c.minutes) + "m";
      mp + " " + sp
    else
      SecondsText(c.seconds);
      sp
  }

  /** Under a minute only the seconds are printed. */
  lemma FormatSecondsOnly()
    ensures FormatDuration(45.0) == "45s"
  {
    assert ClockOf(45.0) == Clock(0, 0, 45);
    assert NatToString(45) == NatToString(4) + [DigitChar(5)];
  }

  /** Fractions are dropped, and minutes come before the seconds. */
  lemma FormatMinutes()
    ensures FormatDuration(125.5) == "2m 5s"
  {
    assert (125.5).Floor == 125;
    assert ClockOf(125.5) == Clock(0, 2, 5);
  }

  /** With hours all three parts are printed. */
  lemma FormatHours()
    ensures FormatDuration(3725.0) == "1h 2m 5s"
  {
    assert ClockOf(3725.0) == Clock(1, 2, 5);
    var hp, mp, sp := NatToString(1) + "h", NatToString(2) + "m", NatToString(5) + "s";
    assert hp == "1h" && mp == "2m" && sp == "5s";
    assert hp + " " == "1h ";
    assert hp + " " + mp == "1h 2m";
    assert hp + " " + mp + " " == "1h 2m ";
  }
}
