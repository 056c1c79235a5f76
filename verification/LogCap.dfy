/**
 Capping the raw table by row count (wiwi/logging_core/db_sink.py): the boundary row a query
 selects and the predicate the delete uses describe complementary sets.
 */
module LogCap {
  import opened BinTable
  import opened Rollup

  /** Newest first: (ts, id) descending. */
  predicate Newer(a: Row, b: Row) {
    a.ts > b.ts || (a.ts == b.ts && a.id > b.id)
  }

  function InsertNewest(s: seq<Row>, r: Row): (out: seq<Row>)
    ensures |out| == |s| + 1
  {
    if s == [] then [r] else if Newer(r, s[0]) then [r] + s else [s[0]] + InsertNewest(s[1..], r)
  }

  /** `ORDER BY ts DESC, id DESC`. */
  function NewestFirst(rows: seq<Row>): (out: seq<Row>)
    ensures |out| == |rows|
  {
    if rows == [] then [] else InsertNewest(NewestFirst(rows[1..]), rows[0])
  }

  function CountNewer(rows: seq<Row>, b: Row): (n: nat)
    ensures n <= |rows|
  {
    if rows == [] then 0 else (if Newer(rows[0], b) then 1 else 0) + CountNewer(rows[1..], b)
  }

  /** The rows of `rows` that fewer than `n` rows of `all` are newer than. */
  function Newest(rows: seq<Row>, all: seq<Row>, n: int): seq<Row> {
    if rows == [] then []
    else if CountNewer(all, rows[0]) < n then [rows[0]] + Newest(rows[1..], all, n)
    else Newest(rows[1..], all, n)
  }

  /** ... and the others. */
  function Oldest(rows: seq<Row>, all: seq<Row>, n: int): seq<Row> {
    if rows == [] then []
    else if CountNewer(all, rows[0]) < n then Oldest(rows[1..], all, n)
    else [rows[0]] + Oldest(rows[1..], all, n)
  }

  // ---- the boundary row -----------------------------------------------------------------

  ghost predicate Descending(s: seq<Row>) {
    forall i, j :: 0 <= i < j < |s| ==> Newer(s[i], s[j])
  }

  lemma {:induction false} InsertKeepsOrder(s: seq<Row>, r: Row)
    requires Descending(s) && (forall i :: 0 <= i < |s| ==> s[i].id != r.id)
    ensures Descending(InsertNewest(s, r))
    ensures forall x :: x in InsertNewest(s, r) <==> x == r || x in s
  {
    if s != [] && !Newer(r, s[0]) {
      InsertKeepsOrder(s[1..], r);
      var out := InsertNewest(s[1..], r);
      forall j | 0 <= j < |out| ensures Newer(s[0], out[j]) {
        assert out[j] in out;
      }
    }
  }

  lemma {:induction false} InsertKeepsCount(s: seq<Row>, r: Row, b: Row)
    ensures CountNewer(InsertNewest(s, r), b) == CountNewer(s, b) + (if Newer(r, b) then 1 else 0)
  {
    if s != [] && !Newer(r, s[0]) {
      InsertKeepsCount(s[1..], r, b);
      var out := InsertNewest(s, r);
      assert out[0] == s[0] && out[1..] == InsertNewest(s[1..], r);
    } else {
      assert ([r] + s)[1..] == s;
    }
  }

  lemma {:induction false} SortsNewestFirst(rows: seq<Row>)
    requires ById(rows)
    ensures Descending(NewestFirst(rows))
    ensures forall x :: x in NewestFirst(rows) <==> x in rows
  {
    if rows != [] {
      SortsNewestFirst(rows[1..]);
      var s := NewestFirst(rows[1..]);
      forall i | 0 <= i < |s| ensures s[i].id != rows[0].id {
        assert s[i] in s;
      }
      InsertKeepsOrder(s, rows[0]);
      assert rows == [rows[0]] + rows[1..];
    }
  }

  lemma {:induction false} SortKeepsCount(rows: seq<Row>, b: Row)
    ensures CountNewer(NewestFirst(rows), b) == CountNewer(rows, b)
  {
    if rows != [] {
      SortKeepsCount(rows[1..], b);
      InsertKeepsCount(NewestFirst(rows[1..]), rows[0], b);
    }
  }

  lemma {:induction false} NoneNewer(s: seq<Row>, b: Row)
    requires forall i :: 0 <= i < |s| ==> !Newer(s[i], b)
    ensures CountNewer(s, b) == 0
  {
    if s != [] {
      NoneNewer(s[1..], b);
    }
  }

  lemma {:induction false} OffsetCounts(s: seq<Row>, i: nat)
    requires Descending(s) && i < |s|
    ensures CountNewer(s, s[i]) == i
  {
    if i == 0 {
      NoneNewer(s, s[0]);
    } else {
      assert Newer(s[0], s[i]);
      OffsetCounts(s[1..], i - 1);
    }
  }

  /** The row at offset n - 1, newest first, is the one with exactly n - 1 newer rows. */
  lemma BoundaryRow(rows: seq<Row>, n: nat)
    requires ById(rows) && 1 <= n <= |rows|
    ensures NewestFirst(rows)[n - 1] in rows && CountNewer(rows, NewestFirst(rows)[n - 1]) == n - 1
  {
    var s := NewestFirst(rows);
    SortsNewestFirst(rows);
    assert s[n - 1] in s;
    OffsetCounts(s, n - 1);
    SortKeepsCount(rows, s[n - 1]);
  }

  // ---- the two sets ---------------------------------------------------------------------

  lemma {:induction false} NewerCountsLess(rows: seq<Row>, a: Row, b: Row)
    requires Newer(a, b)
    ensures CountNewer(rows, a) <= CountNewer(rows, b)
    ensures a in rows ==> CountNewer(rows, a) < CountNewer(rows, b)
  {
    if rows != [] {
      NewerCountsLess(rows[1..], a, b);
      assert rows == [rows[0]] + rows[1..];
    }
  }

  lemma SameSide(all: seq<Row>, r: Row, b: Row, n: nat)
    requires r in all && b in all && CountNewer(all, b) == n - 1
    requires r.id == b.id ==> r == b
    ensures Doomed(r, Before(b.ts, b.id)) <==> CountNewer(all, r) >= n
  {
    if Newer(r, b) {
      NewerCountsLess(all, r, b);
    } else if Newer(b, r) {
      NewerCountsLess(all, b, r);
    }
  }

  lemma {:induction false} DeleteMatchesSelection(rows: seq<Row>, all: seq<Row>, b: Row, n: nat)
    requires b in all && CountNewer(all, b) == n - 1
    requires forall i :: 0 <= i < |rows| ==> rows[i] in all && (rows[i].id == b.id ==> rows[i] == b)
    ensures KeptRows(rows, Before(b.ts, b.id)) == Newest(rows, all, n)
    ensures DoomedRows(rows, Before(b.ts, b.id)) == Oldest(rows, all, n)
  {
    if rows != [] {
      SameSide(all, rows[0], b, n);
      DeleteMatchesSelection(rows[1..], all, b, n);
    }
  }

  function CountSame(rows: seq<Row>, b: Row): nat {
    if rows == [] then 0 else (if rows[0].ts == b.ts && rows[0].id == b.id then 1 else 0) + CountSame(rows[1..], b)
  }

  lemma {:induction false} KeptCount(rows: seq<Row>, b: Row)
    ensures |KeptRows(rows, Before(b.ts, b.id))| == CountNewer(rows, b) + CountSame(rows, b)
  {
    if rows != [] {
      KeptCount(rows[1..], b);
    }
  }

  lemma {:induction false} OneOfEach(rows: seq<Row>, b: Row)
    requires ById(rows)
    ensures b in rows ==> CountSame(rows, b) == 1
    ensures (forall i :: 0 <= i < |rows| ==> rows[i].id != b.id) ==> CountSame(rows, b) == 0
  {
    if rows != [] {
      OneOfEach(rows[1..], b);
      assert rows == [rows[0]] + rows[1..];
    }
  }

  /** Exactly the `n` newest rows survive, and they are newer than everything deleted. */
  lemma CapIsExact(rows: seq<Row>, n: nat)
    requires ById(rows) && 1 <= n <= |rows|
    ensures |Newest(rows, rows, n)| == n && |Oldest(rows, rows, n)| == |rows| - n
    ensures forall r, d :: r in Newest(rows, rows, n) && d in Oldest(rows, rows, n) ==> Newer(r, d)
  {
    var b := NewestFirst(rows)[n - 1];
    var cut := Before(b.ts, b.id);
    BoundaryRow(rows, n);
    DeleteMatchesSelection(rows, rows, b, n);
    KeptCount(rows, b);
    OneOfEach(rows, b);
    PartitionSizes(rows, cut);
    DoomedAreIn(rows, cut);
  }

  // ---- the operation --------------------------------------------------------------------

  method EnforceLogCap(log: RequestLog, maxRows: int) returns (deleted: nat)
    requires ValidTable(log.table) && ById(log.logs)
    modifies log
    ensures ById(log.logs)
    ensures maxRows <= 0 || |old(log.logs)| <= maxRows ==>
              deleted == 0 && log.logs == old(log.logs) && log.rollups == old(log.rollups)
    ensures 0 < maxRows < |old(log.logs)| ==>
              && |log.logs| == maxRows && deleted == |old(log.logs)| - maxRows
              && log.logs == Newest(old(log.logs), old(log.logs), maxRows)
              && RolledInto(log.table, old(log.rollups), Oldest(old(log.logs), old(log.logs), maxRows), log.rollups)
  {
    if maxRows <= 0 {
      return 0;
    }
    var total := |log.logs|;
    if total <= maxRows {
      return 0;
    }
    ghost var rows := log.logs;
    BoundaryRow(rows, maxRows);
    var row := NewestFirst(log.logs)[maxRows - 1];
    DeleteMatchesSelection(rows, rows, row, maxRows);
    CapIsExact(rows, maxRows);
    deleted := log.RollupAndPrune(Before(row.ts, row.id));
  }
}
