/**
 Retroactive repricing (wiwi/logging_core/db_sink.py): rows logged at cost 0, raw and rolled
 up, take the cost of a price registered later, and each key's spend rises by as much.
 */
module Reprice {
  import opened Prelude
  import opened ModelTails

  const BATCH: nat := 500

  /** A recorded attempt; `ok` is a 2xx status, `excludesCached` the Messages usage shape. */
  datatype Attempt = Attempt(ok: bool, provider: int, modelId: Option<Path>, deployment: Path, excludesCached: bool)

  /** Key 0 stands for a row without a key. */
  datatype LogRow = LogRow(id: int, keyId: int, tokens: Tokens, cost: real, attempts: seq<Attempt>)

  datatype RollupRow = RollupRow(
    id: int, keyId: int, provider: int, servingModel: Path, cost: real, unpricedRequests: int, unpriced: Tokens)

  /** The price being applied: the key it was registered under and the rates by provider. */
  datatype Price = Price(tail: Path, rateFor: map<int, Rates>)

  const NO_TOKENS := Tokens(0, 0, 0, 0)

  // ---- the serving attempt --------------------------------------------------------------

  /** The last successful attempt, or the last one if none succeeded. */
  function Serving(attempts: seq<Attempt>): Option<Attempt> {
    if attempts == [] then None
    else if LastOk(attempts).Some? then LastOk(attempts)
    else Some(attempts[|attempts| - 1])
  }

  function LastOk(attempts: seq<Attempt>): Option<Attempt> {
    if attempts == [] then None
    else if attempts[|attempts| - 1].ok then Some(attempts[|attempts| - 1])
    else LastOk(attempts[..|attempts| - 1])
  }

  predicate IsLastOk(attempts: seq<Attempt>, i: nat) {
    i < |attempts| && attempts[i].ok && (forall j :: i < j < |attempts| ==> !attempts[j].ok)
  }

  lemma {:induction false} LastOkIsLast(attempts: seq<Attempt>)
    ensures LastOk(attempts).None? <==> forall i :: 0 <= i < |attempts| ==> !attempts[i].ok
    ensures LastOk(attempts).Some? ==> exists i: nat :: IsLastOk(attempts, i) && LastOk(attempts) == Some(attempts[i])
  {
    if attempts != [] && !attempts[|attempts| - 1].ok {
      var init := attempts[..|attempts| - 1];
      LastOkIsLast(init);
      if LastOk(init).Some? {
        var i: nat :| IsLastOk(init, i) && LastOk(init) == Some(init[i]);
        assert IsLastOk(attempts, i);
      }
    } else if attempts != [] {
      assert IsLastOk(attempts, |attempts| - 1);
    }
  }

  /** Whether the price covers the model an attempt was sent to. */
  predicate Covers(tail: Path, a: Attempt) {
    if a.modelId.Some? && a.modelId.value != [] then SharesModelTail(tail, a.modelId.value)
    else |a.deployment| > |tail| && IsTail(tail, a.deployment)
  }

  // ---- one row --------------------------------------------------------------------------

  function RatesFor(p: Price, provider: int): Option<Rates> {
    if provider in p.rateFor && Usable(p.rateFor[provider]) then Some(p.rateFor[provider]) else None
  }

  /** The cost an unpriced row takes; 0 leaves it unpriced. */
  function NewCost(p: Price, r: LogRow): (c: real)
    ensures c >= 0.0
  {
    var served := Serving(r.attempts);
    if served.None? || !Covers(p.tail, served.value) then 0.0
    else
      var rates := RatesFor(p, served.value.provider);
      if rates.None? then 0.0
      else MaxReal(0.0, CostOf(rates.value, r.tokens, !served.value.excludesCached))
  }

  function Repriced(p: Price, r: LogRow): LogRow {
    if r.cost == 0.0 then r.(cost := NewCost(p, r)) else r
  }

  function NewRollupCost(p: Price, r: RollupRow): (c: real)
    ensures c >= 0.0
  {
    if r.unpricedRequests <= 0 || !SharesModelTail(p.tail, r.servingModel) then 0.0
    else
      var rates := RatesFor(p, r.provider);
      if rates.None? then 0.0 else MaxReal(0.0, CostOf(rates.value, r.unpriced, true))
  }

  function RepricedRollup(p: Price, r: RollupRow): RollupRow {
    var c := NewRollupCost(p, r);
    if c > 0.0 then r.(cost := r.cost + c, unpricedRequests := 0, unpriced := NO_TOKENS) else r
  }

  /** The serving attempt is the last successful one, or the last if none succeeded. */
  lemma ServingExactly(attempts: seq<Attempt>)
    ensures Serving(attempts).None? <==> attempts == []
    ensures attempts != [] && (forall i :: 0 <= i < |attempts| ==> !attempts[i].ok) ==>
              Serving(attempts) == Some(attempts[|attempts| - 1])
    ensures (exists i :: 0 <= i < |attempts| && attempts[i].ok) ==>
              exists i: nat :: IsLastOk(attempts, i) && Serving(attempts) == Some(attempts[i])
  {
    LastOkIsLast(attempts);
  }

  /** Whether a price reaches an attempt: through its model, else through the end of its deployment. */
  lemma CoversExactly(tail: Path, a: Attempt)
    ensures a.modelId.Some? && a.modelId.value != [] ==>
              (Covers(tail, a) <==> IsTail(tail, a.modelId.value) || IsTail(a.modelId.value, tail))
    ensures a.modelId.None? || a.modelId.value == [] ==>
              (Covers(tail, a) <==> 0 < |tail| < |a.deployment| && a.deployment[|a.deployment| - |tail|..] == tail)
  {
    if a.modelId.Some? {
      SharedTailExactly(tail, a.modelId.value);
    }
  }

  /** The rates of a provider that price a row: registered, with an input and an output rate. */
  predicate HasRates(p: Price, provider: int) {
    provider in p.rateFor && p.rateFor[provider].input.Some? && p.rateFor[provider].output.Some?
  }

  /**
   One logged row: a cost of 0 becomes what the serving attempt's tokens cost, where the price
   covers that attempt and has rates for its provider, and never less than 0; any other cost
   stays, and so does a row's everything else.
   */
  lemma RowTakesCostExactly(p: Price, r: LogRow)
    ensures var now, served := Repriced(p, r), Serving(r.attempts);
            && now == r.(cost := now.cost)
            && (r.cost != 0.0 ==> now.cost == r.cost)
            && (r.cost == 0.0 && served.Some? && Covers(p.tail, served.value) && HasRates(p, served.value.provider) ==>
                  var c := CostOf(p.rateFor[served.value.provider], r.tokens, !served.value.excludesCached);
                  now.cost == if c > 0.0 then c else 0.0)
            && (r.cost == 0.0 && now.cost != 0.0 ==>
                  served.Some? && Covers(p.tail, served.value) && HasRates(p, served.value.provider))
  {
  }

  /** One rollup row: the same for its unpriced requests, which are then priced; else no change. */
  lemma RollupTakesCostExactly(p: Price, r: RollupRow)
    ensures var now := RepricedRollup(p, r);
            if && r.unpricedRequests > 0 && (IsTail(p.tail, r.servingModel) || IsTail(r.servingModel, p.tail))
               && HasRates(p, r.provider) && CostOf(p.rateFor[r.provider], r.unpriced, true) > 0.0
            then now == r.(cost := r.cost + CostOf(p.rateFor[r.provider], r.unpriced, true),
                           unpricedRequests := 0, unpriced := Tokens(0, 0, 0, 0))
            else now == r
  {
    SharedTailExactly(p.tail, r.servingModel);
  }

  // ---- tables ---------------------------------------------------------------------------

  function All(p: Price, rows: seq<LogRow>): (out: seq<LogRow>)
    ensures |out| == |rows| && (forall i :: 0 <= i < |rows| ==> out[i] == Repriced(p, rows[i]))
  {
    if rows == [] then [] else All(p, rows[..|rows| - 1]) + [Repriced(p, rows[|rows| - 1])]
  }

  function AllRollups(p: Price, rows: seq<RollupRow>): (out: seq<RollupRow>)
    ensures |out| == |rows| && (forall i :: 0 <= i < |rows| ==> out[i] == RepricedRollup(p, rows[i]))
  {
    if rows == [] then [] else AllRollups(p, rows[..|rows| - 1]) + [RepricedRollup(p, rows[|rows| - 1])]
  }

  /** What a key has been billed according to the raw rows. */
  function KeyCost(rows: seq<LogRow>, key: int): real {
    if rows == [] then 0.0
    else
      var last := rows[|rows| - 1];
      KeyCost(rows[..|rows| - 1], key) + (if last.keyId == key then last.cost else 0.0)
  }

  function KeyRollupCost(rows: seq<RollupRow>, key: int): real {
    if rows == [] then 0.0
    else
      var last := rows[|rows| - 1];
      KeyRollupCost(rows[..|rows| - 1], key) + (if last.keyId == key then last.cost else 0.0)
  }

  /** A key's cost is the sum over its own rows. */
  lemma {:induction false} KeyCostAdds(a: seq<LogRow>, b: seq<LogRow>, r: LogRow, key: int)
    ensures KeyCost(a + b, key) == KeyCost(a, key) + KeyCost(b, key)
    ensures KeyCost([r], key) == if r.keyId == key then r.cost else 0.0
  {
    assert [r][..0] == [];
    if b == [] {
      assert a + b == a;
    } else {
      var n := |b| - 1;
      assert (a + b)[..|a + b| - 1] == a + b[..n];
      KeyCostAdds(a, b[..n], r, key);
    }
  }

  lemma {:induction false} KeyRollupCostAdds(a: seq<RollupRow>, b: seq<RollupRow>, r: RollupRow, key: int)
    ensures KeyRollupCost(a + b, key) == KeyRollupCost(a, key) + KeyRollupCost(b, key)
    ensures KeyRollupCost([r], key) == if r.keyId == key then r.cost else 0.0
  {
    assert [r][..0] == [];
    if b == [] {
      assert a + b == a;
    } else {
      var n := |b| - 1;
      assert (a + b)[..|a + b| - 1] == a + b[..n];
      KeyRollupCostAdds(a, b[..n], r, key);
    }
  }

  /** By how much repricing raises the cost of a key's rows. */
  function Rise(p: Price, rows: seq<LogRow>, key: int): real {
    if rows == [] then 0.0
    else
      var last := rows[|rows| - 1];
      Rise(p, rows[..|rows| - 1], key)
      + (if last.keyId == key && last.cost == 0.0 then NewCost(p, last) else 0.0)
  }

  function RollupRise(p: Price, rows: seq<RollupRow>, key: int): real {
    if rows == [] then 0.0
    else
      var last := rows[|rows| - 1];
      RollupRise(p, rows[..|rows| - 1], key) + (if last.keyId == key then NewRollupCost(p, last) else 0.0)
  }

  lemma {:induction false} RiseIsExact(p: Price, rows: seq<LogRow>, key: int)
    ensures Rise(p, rows, key) == KeyCost(All(p, rows), key) - KeyCost(rows, key)
  {
    if rows != [] {
      var init := rows[..|rows| - 1];
      RiseIsExact(p, init, key);
      assert All(p, rows)[..|rows| - 1] == All(p, init);
    }
  }

  lemma {:induction false} RollupRiseIsExact(p: Price, rows: seq<RollupRow>, key: int)
    ensures RollupRise(p, rows, key) == KeyRollupCost(AllRollups(p, rows), key) - KeyRollupCost(rows, key)
  {
    if rows != [] {
      var init := rows[..|rows| - 1];
      RollupRiseIsExact(p, init, key);
      assert AllRollups(p, rows)[..|rows| - 1] == AllRollups(p, init);
    }
  }

  /** A second pass with the same price changes no raw row and raises nothing. */
  lemma {:induction false} Idempotent(p: Price, rows: seq<LogRow>, key: int)
    ensures All(p, All(p, rows)) == All(p, rows) && Rise(p, All(p, rows), key) == 0.0
  {
    if rows != [] {
      var init, last := rows[..|rows| - 1], rows[|rows| - 1];
      Idempotent(p, init, key);
      var once := All(p, rows);
      assert once[..|once| - 1] == All(p, init) && once[|once| - 1] == Repriced(p, last);
      SameCost(p, last);
    }
  }

  lemma SameCost(p: Price, r: LogRow)
    ensures NewCost(p, Repriced(p, r)) == NewCost(p, r)
    ensures Repriced(p, Repriced(p, r)) == Repriced(p, r)
    ensures Repriced(p, r).cost == 0.0 ==> NewCost(p, Repriced(p, r)) == 0.0
  {
  }

  lemma {:induction false} RollupsIdempotent(p: Price, rows: seq<RollupRow>, key: int)
    ensures AllRollups(p, AllRollups(p, rows)) == AllRollups(p, rows)
    ensures RollupRise(p, AllRollups(p, rows), key) == 0.0
  {
    if rows != [] {
      var init, last := rows[..|rows| - 1], rows[|rows| - 1];
      RollupsIdempotent(p, init, key);
      var once := AllRollups(p, rows);
      assert once[..|once| - 1] == AllRollups(p, init) && once[|once| - 1] == RepricedRollup(p, last);
      RollupUnpricedOnce(p, last);
    }
  }

  lemma RollupUnpricedOnce(p: Price, r: RollupRow)
    ensures NewRollupCost(p, RepricedRollup(p, r)) == 0.0
  {
  }

  // ---- the two passes -------------------------------------------------------------------

  ghost predicate ById(rows: seq<LogRow>) {
    && (forall i :: 0 <= i < |rows| ==> rows[i].id >= 0)
    && (forall i, j :: 0 <= i < j < |rows| ==> rows[i].id < rows[j].id)
  }

  /** `WHERE cost = 0 AND id > :last`. */
  function Candidates(rows: seq<LogRow>, last: int): seq<LogRow> {
    if rows == [] then []
    else if rows[0].cost == 0.0 && rows[0].id > last then [rows[0]] + Candidates(rows[1..], last)
    else Candidates(rows[1..], last)
  }

  /** `... ORDER BY id LIMIT :limit`. */
  function Page(rows: seq<LogRow>, last: int, limit: nat): seq<LogRow> {
    var found := Candidates(rows, last);
    if |found| <= limit then found else found[..limit]
  }

  lemma {:induction false} CandidatesAre(rows: seq<LogRow>, last: int)
    requires ById(rows)
    ensures ById(Candidates(rows, last))
    ensures forall r :: r in Candidates(rows, last) <==> r in rows && r.cost == 0.0 && r.id > last
  {
    if rows != [] {
      CandidatesAre(rows[1..], last);
      assert rows == [rows[0]] + rows[1..];
      var rest := Candidates(rows[1..], last);
      forall i | 0 <= i < |rest| ensures rows[0].id < rest[i].id {
        assert rest[i] in rows[1..];
      }
    }
  }

  lemma {:induction false} CandidatesSplit(rows: seq<LogRow>, before: int, last: int)
    requires before <= last
    ensures Candidates(rows, last) == Candidates(Candidates(rows, before), last)
  {
    if rows != [] {
      CandidatesSplit(rows[1..], before, last);
    }
  }

  lemma {:induction false} AllCandidates(rows: seq<LogRow>, last: int)
    requires forall i :: 0 <= i < |rows| ==> rows[i].cost == 0.0 && rows[i].id > last
    ensures Candidates(rows, last) == rows
  {
    if rows != [] {
      AllCandidates(rows[1..], last);
    }
  }

  lemma {:induction false} CandidatesDrop(rows: seq<LogRow>, n: nat, last: int)
    requires n <= |rows| && (forall i :: 0 <= i < |rows| ==> rows[i].cost == 0.0)
    requires forall i :: 0 <= i < |rows| ==> (rows[i].id > last <==> i >= n)
    ensures Candidates(rows, last) == rows[n..]
  {
    if n == 0 {
      AllCandidates(rows, last);
    } else {
      forall i | 0 <= i < |rows[1..]| ensures rows[1..][i].cost == 0.0 && (rows[1..][i].id > last <==> i >= n - 1) {
        assert rows[1..][i] == rows[i + 1];
      }
      CandidatesDrop(rows[1..], n - 1, last);
      assert rows[1..][n - 1..] == rows[n..];
    }
  }

  /** Keyset pagination over the unpriced rows resumes after the last row of the previous page. */
  lemma CandidatesResume(rows: seq<LogRow>, n: nat, last: int)
    requires ById(rows) && n <= |Candidates(rows, -1)|
    requires last == if n == 0 then -1 else Candidates(rows, -1)[n - 1].id
    ensures Candidates(rows, last) == Candidates(rows, -1)[n..]
  {
    var c := Candidates(rows, -1);
    CandidatesAre(rows, -1);
    forall i | 0 <= i < |c| ensures c[i].cost == 0.0 && c[i].id >= 0 {
      assert c[i] in c;
    }
    CandidatesSplit(rows, -1, last);
    CandidatesDrop(c, n, last);
  }

  /** Rows past `last` alone decide the candidates past `last`. */
  lemma {:induction false} SameCandidates(a: seq<LogRow>, b: seq<LogRow>, last: int)
    requires |a| == |b| && (forall i :: 0 <= i < |a| ==> a[i].id == b[i].id && (a[i].id > last ==> a[i] == b[i]))
    ensures Candidates(a, last) == Candidates(b, last)
  {
    if a != [] {
      forall i | 0 <= i < |a[1..]|
        ensures a[1..][i].id == b[1..][i].id && (a[1..][i].id > last ==> a[1..][i] == b[1..][i])
      {
        assert a[1..][i] == a[i + 1] && b[1..][i] == b[i + 1];
      }
      SameCandidates(a[1..], b[1..], last);
    }
  }

  lemma {:induction false} RiseCons(p: Price, r: LogRow, rows: seq<LogRow>, key: int)
    ensures Rise(p, [r] + rows, key)
         == (if r.keyId == key && r.cost == 0.0 then NewCost(p, r) else 0.0) + Rise(p, rows, key)
  {
    var all := [r] + rows;
    if rows == [] {
      assert all[..0] == [];
    } else {
      RiseCons(p, r, rows[..|rows| - 1], key);
      assert all[..|all| - 1] == [r] + rows[..|rows| - 1];
    }
  }

  /** Priced rows contribute nothing: the candidates carry the whole rise. */
  lemma {:induction false} CandidatesCarryRise(p: Price, rows: seq<LogRow>, key: int)
    requires ById(rows)
    ensures Rise(p, Candidates(rows, -1), key) == Rise(p, rows, key)
  {
    if rows != [] {
      CandidatesCarryRise(p, rows[1..], key);
      RiseCons(p, rows[0], rows[1..], key);
      assert rows == [rows[0]] + rows[1..];
      if rows[0].cost == 0.0 {
        RiseCons(p, rows[0], Candidates(rows[1..], -1), key);
      }
    }
  }

  type Deltas = map<int, real>

  function DeltaOf(d: Deltas, key: int): real {
    if key in d then d[key] else 0.0
  }

  /** `UPDATE ... SET cost = :c WHERE id = :id AND cost = 0`, for every id of `updates`. */
  function Updated(rows: seq<LogRow>, updates: map<int, real>): (out: seq<LogRow>)
    ensures |out| == |rows|
    ensures forall i :: 0 <= i < |rows| ==> out[i] == UpdatedRow(rows[i], updates)
  {
    if rows == [] then [] else Updated(rows[..|rows| - 1], updates) + [UpdatedRow(rows[|rows| - 1], updates)]
  }

  function UpdatedRow(r: LogRow, updates: map<int, real>): LogRow {
    if r.id in updates && r.cost == 0.0 then r.(cost := updates[r.id]) else r
  }

  /** The updates the first `n` rows of a page ask for; every id lies in `lo`..`hi`. */
  ghost predicate UpdatesOf(p: Price, page: seq<LogRow>, n: nat, updates: map<int, real>, lo: int, hi: int)
    requires n <= |page|
  {
    && (forall i :: 0 <= i < n ==> AsksFor(p, page[i], updates))
    && (forall id :: id in updates ==> lo < id <= hi)
  }

  predicate AsksFor(p: Price, r: LogRow, updates: map<int, real>) {
    if NewCost(p, r) > 0.0 then r.id in updates && updates[r.id] == NewCost(p, r) else r.id !in updates
  }

  lemma RiseSnoc(p: Price, rows: seq<LogRow>, r: LogRow, key: int)
    ensures Rise(p, rows + [r], key)
         == Rise(p, rows, key) + (if r.keyId == key && r.cost == 0.0 then NewCost(p, r) else 0.0)
  {
    assert (rows + [r])[..|rows|] == rows;
  }

  class RequestTables {
    var logs: seq<LogRow>
    var rollups: seq<RollupRow>

    /** One page: which rows change, and what each key owes more. */
    method PricePage(p: Price, page: seq<LogRow>, before: Deltas, ghost lo: int, ghost hi: int)
      returns (updates: map<int, real>, deltas: Deltas)
      requires ById(page) && (forall i :: 0 <= i < |page| ==> page[i].cost == 0.0 && lo < page[i].id <= hi)
      ensures UpdatesOf(p, page, |page|, updates, lo, hi)
      ensures forall key :: key != 0 ==> DeltaOf(deltas, key) == DeltaOf(before, key) + Rise(p, page, key)
    {
      updates, deltas := map[], before;
      for i := 0 to |page|
        invariant UpdatesOf(p, page, i, updates, lo, hi)
        invariant forall j :: i <= j < |page| ==> page[j].id !in updates
        invariant forall key :: key != 0 ==> DeltaOf(deltas, key) == DeltaOf(before, key) + Rise(p, page[..i], key)
      {
        ghost var was := deltas;
        updates, deltas := PriceRow(p, page[i], updates, deltas);
        forall key | key != 0 ensures DeltaOf(deltas, key) == DeltaOf(before, key) + Rise(p, page[..i + 1], key) {
          assert page[..i + 1] == page[..i] + [page[i]];
          RiseSnoc(p, page[..i], page[i], key);
          assert DeltaOf(was, key) == DeltaOf(before, key) + Rise(p, page[..i], key);
        }
      }
      assert page[..|page|] == page;
    }

    /** Selects, prices and updates one page. */
    method RepricePage(p: Price, ghost rows: seq<LogRow>, ghost n: nat, last: int, before: Deltas)
      returns (size: nat, hi: int, deltas: Deltas)
      requires ById(rows) && PassAt(p, rows, n, last, logs, before)
      modifies this`logs
      ensures PassAt(p, rows, n + size, hi, logs, deltas)
      ensures size == 0 ==> n == |Candidates(rows, -1)|
    {
      ghost var todo := Candidates(rows, -1);
      NextPage(p, rows, n, last, logs, BATCH);
      var page := Page(logs, last, BATCH);
      size, hi, deltas := |page|, last, before;
      if page == [] {
        return;
      }
      hi := page[|page| - 1].id;
      CandidatesUnpriced(rows);
      PageFacts(todo, n, size, last);
      var updates;
      updates, deltas := PricePage(p, page, before, last, hi);
      RisesAdd(p, todo, n, size, before, deltas);
      PageApplied(p, rows, n, size, last, hi, logs, updates);
      logs := Updated(logs, updates);
    }

    /** The raw pass: page by page over the rows logged at cost 0. */
    method RepriceLogs(p: Price) returns (deltas: Deltas)
      requires ById(logs)
      modifies this`logs
      ensures logs == All(p, old(logs))
      ensures forall key :: key != 0 ==> DeltaOf(deltas, key) == Rise(p, old(logs), key)
    {
      ghost var rows := logs;
      deltas := map[];
      var last := -1;
      ghost var n := 0;
      PassStarts(p, rows);
      while true
        invariant PassAt(p, rows, n, last, logs, deltas)
        decreases |Candidates(rows, -1)| - n
      {
        var size;
        size, last, deltas := RepricePage(p, rows, n, last, deltas);
        n := n + size;
        if size == 0 {
          break;
        }
      }
      PassEnds(p, rows, n, last, logs, deltas);
    }

    /** The rollup pass: a row's counters are cleared as its cost is added. */
    method RepriceRolledUp(p: Price) returns (deltas: Deltas)
      modifies this`rollups
      ensures rollups == AllRollups(p, old(rollups))
      ensures forall key :: key != 0 ==> DeltaOf(deltas, key) == RollupRise(p, old(rollups), key)
    {
      ghost var rows := rollups;
      deltas := map[];
      assert rows[..0] == [];
      for i := 0 to |rollups|
        invariant |rollups| == |rows|
        invariant forall j :: 0 <= j < |rows| ==> rollups[j] == if j < i then RepricedRollup(p, rows[j]) else rows[j]
        invariant forall key :: key != 0 ==> DeltaOf(deltas, key) == RollupRise(p, rows[..i], key)
      {
        ghost var before := deltas;
        var r := rollups[i];
        PrefilterKeepsAll(p.tail, r.servingModel);
        if r.unpricedRequests > 0 && Prefiltered(p.tail, r.servingModel) && SharesModelTail(p.tail, r.servingModel) {
          var newCost := NewRollupCost(p, r);
          if newCost > 0.0 {
            rollups := rollups[i := r.(cost := r.cost + newCost, unpricedRequests := 0, unpriced := NO_TOKENS)];
            if r.keyId != 0 {
              deltas := deltas[r.keyId := DeltaOf(deltas, r.keyId) + newCost];
            }
          }
        }
        RollupRiseGrows(p, rows, i, before, deltas);
      }
      assert rows[..|rows|] == rows;
      assert rollups == AllRollups(p, rows);
    }

    /** Both passes; what is returned is exactly what the keys' logged spend rose by. */
    method RepriceUnpricedHistory(p: Price) returns (deltas: Deltas)
      requires ById(logs)
      modifies this
      ensures logs == All(p, old(logs)) && rollups == AllRollups(p, old(rollups))
      ensures forall key :: key != 0 ==>
        DeltaOf(deltas, key) == Spend(logs, rollups, key) - Spend(old(logs), old(rollups), key)
    {
      ghost var rows, rolled := logs, rollups;
      var first := RepriceLogs(p);
      var more := RepriceRolledUp(p);
      deltas := AddDeltas(first, more);
      forall key | key != 0 ensures DeltaOf(deltas, key) == Spend(logs, rollups, key) - Spend(rows, rolled, key) {
        RiseIsExact(p, rows, key);
        RollupRiseIsExact(p, rolled, key);
      }
    }
  }

  method AddDeltas(first: Deltas, more: Deltas) returns (deltas: Deltas)
    ensures forall key :: DeltaOf(deltas, key) == DeltaOf(first, key) + DeltaOf(more, key)
  {
    deltas := first;
    var todo := more.Keys;
    while todo != {}
      invariant todo <= more.Keys
      invariant forall key ::
        DeltaOf(deltas, key) == DeltaOf(first, key) + (if key in todo then 0.0 else DeltaOf(more, key))
      decreases |todo|
    {
      HasInt(todo);
      var key :| key in todo;
      deltas := deltas[key := DeltaOf(deltas, key) + more[key]];
      todo := todo - {key};
    }
  }

  /** The raw pass after the first `n` candidates: table and deltas agree. */
  ghost predicate PassAt(p: Price, rows: seq<LogRow>, n: nat, last: int, now: seq<LogRow>, deltas: Deltas) {
    var todo := Candidates(rows, -1);
    && n <= |todo| && last == (if n == 0 then -1 else todo[n - 1].id)
    && RepricedUpTo(p, rows, last, now)
    && (forall key :: key != 0 ==> DeltaOf(deltas, key) == Rise(p, todo[..n], key))
  }

  lemma PassStarts(p: Price, rows: seq<LogRow>)
    requires ById(rows)
    ensures PassAt(p, rows, 0, -1, rows, map[])
  {
    assert Candidates(rows, -1)[..0] == [];
  }

  lemma PassEnds(p: Price, rows: seq<LogRow>, n: nat, last: int, now: seq<LogRow>, deltas: Deltas)
    requires ById(rows) && PassAt(p, rows, n, last, now, deltas) && n == |Candidates(rows, -1)|
    ensures now == All(p, rows)
    ensures forall key :: key != 0 ==> DeltaOf(deltas, key) == Rise(p, rows, key)
  {
    var todo := Candidates(rows, -1);
    assert todo[..n] == todo;
    forall key | key != 0 ensures DeltaOf(deltas, key) == Rise(p, rows, key) {
      CandidatesCarryRise(p, rows, key);
      assert DeltaOf(deltas, key) == Rise(p, todo[..n], key);
    }
    AllRepriced(p, rows, last, now);
  }

  lemma CandidatesUnpriced(rows: seq<LogRow>)
    requires ById(rows)
    ensures var todo := Candidates(rows, -1);
            ById(todo) && (forall i :: 0 <= i < |todo| ==> todo[i].cost == 0.0)
  {
    var todo := Candidates(rows, -1);
    CandidatesAre(rows, -1);
    forall i | 0 <= i < |todo| ensures todo[i].cost == 0.0 {
      assert todo[i] in todo;
    }
  }

  /** The table once the rows up to id `last` have been repriced. */
  ghost predicate RepricedUpTo(p: Price, rows: seq<LogRow>, last: int, now: seq<LogRow>) {
    && |now| == |rows|
    && (forall i :: 0 <= i < |rows| ==> now[i] == if rows[i].id <= last then Repriced(p, rows[i]) else rows[i])
  }

  lemma NextPage(p: Price, rows: seq<LogRow>, n: nat, last: int, now: seq<LogRow>, limit: nat)
    requires ById(rows) && n <= |Candidates(rows, -1)| && limit > 0
    requires last == if n == 0 then -1 else Candidates(rows, -1)[n - 1].id
    requires RepricedUpTo(p, rows, last, now)
    ensures var todo, page := Candidates(rows, -1), Page(now, last, limit);
            n + |page| <= |todo| && page == todo[n..n + |page|] && (page == [] ==> n == |todo|)
  {
    CandidatesResume(rows, n, last);
    SameCandidates(now, rows, last);
    var todo := Candidates(rows, -1);
    var found := todo[n..];
    assert |found| > limit ==> found[..limit] == todo[n..n + limit];
    assert |found| <= limit ==> found == todo[n..n + |found|];
  }

  lemma PageFacts(todo: seq<LogRow>, n: nat, k: nat, last: int)
    requires ById(todo) && n + k <= |todo| && k > 0 && (forall i :: 0 <= i < |todo| ==> todo[i].cost == 0.0)
    requires last == if n == 0 then -1 else todo[n - 1].id
    ensures var page := todo[n..n + k];
            ById(page) && (forall i :: 0 <= i < k ==> page[i].cost == 0.0 && last < page[i].id <= page[k - 1].id)
  {
  }

  lemma RisesAdd(p: Price, todo: seq<LogRow>, n: nat, k: nat, before: Deltas, after: Deltas)
    requires n + k <= |todo|
    requires forall key :: key != 0 ==> DeltaOf(before, key) == Rise(p, todo[..n], key)
    requires forall key :: key != 0 ==> DeltaOf(after, key) == DeltaOf(before, key) + Rise(p, todo[n..n + k], key)
    ensures forall key :: key != 0 ==> DeltaOf(after, key) == Rise(p, todo[..n + k], key)
  {
    forall key | key != 0 ensures DeltaOf(after, key) == Rise(p, todo[..n + k], key) {
      RiseAppend(p, todo[..n], todo[n..n + k], key);
      assert todo[..n] + todo[n..n + k] == todo[..n + k];
      assert DeltaOf(before, key) == Rise(p, todo[..n], key);
    }
  }

  lemma {:induction false} RiseAppend(p: Price, a: seq<LogRow>, b: seq<LogRow>, key: int)
    ensures Rise(p, a + b, key) == Rise(p, a, key) + Rise(p, b, key)
  {
    if b == [] {
      assert a + b == a;
    } else {
      RiseAppend(p, a, b[..|b| - 1], key);
      assert (a + b)[..|a + b| - 1] == a + b[..|b| - 1];
    }
  }

  /** Applying a page's updates reprices exactly the rows up to its last one. */
  lemma PageApplied(p: Price, rows: seq<LogRow>, n: nat, k: nat, last: int, hi: int, now: seq<LogRow>,
                    updates: map<int, real>)
    requires ById(rows) && n + k <= |Candidates(rows, -1)| && k > 0
    requires last == if n == 0 then -1 else Candidates(rows, -1)[n - 1].id
    requires hi == Candidates(rows, -1)[n + k - 1].id
    requires RepricedUpTo(p, rows, last, now)
    requires UpdatesOf(p, Candidates(rows, -1)[n..n + k], k, updates, last, hi)
    ensures RepricedUpTo(p, rows, hi, Updated(now, updates))
  {
    var todo := Candidates(rows, -1);
    var page, next := todo[n..n + k], Updated(now, updates);
    CandidatesAre(rows, -1);
    forall i | 0 <= i < |rows| ensures next[i] == if rows[i].id <= hi then Repriced(p, rows[i]) else rows[i] {
      assert next[i] == UpdatedRow(now[i], updates);
      if last < rows[i].id <= hi && rows[i].cost == 0.0 {
        assert rows[i] in todo;
        var q :| 0 <= q < |todo| && todo[q] == rows[i];
        assert n <= q < n + k;
        assert page[q - n] == rows[i] && AsksFor(p, page[q - n], updates);
      }
    }
  }

  lemma UnpricedUpTo(rows: seq<LogRow>, last: int, i: nat)
    requires ById(rows) && i < |rows| && rows[i].cost == 0.0
    requires var todo := Candidates(rows, -1); last == if todo == [] then -1 else todo[|todo| - 1].id
    ensures rows[i].id <= last
  {
    var todo := Candidates(rows, -1);
    CandidatesAre(rows, -1);
    assert rows[i] in todo;
    var q :| 0 <= q < |todo| && todo[q] == rows[i];
  }

  lemma AllRepriced(p: Price, rows: seq<LogRow>, last: int, now: seq<LogRow>)
    requires ById(rows) && RepricedUpTo(p, rows, last, now)
    requires var todo := Candidates(rows, -1); last == if todo == [] then -1 else todo[|todo| - 1].id
    ensures now == All(p, rows)
  {
    forall i | 0 <= i < |rows| ensures now[i] == All(p, rows)[i] {
      if rows[i].cost == 0.0 {
        UnpricedUpTo(rows, last, i);
      }
    }
  }

  method PriceRow(p: Price, r: LogRow, before: map<int, real>, owed: Deltas)
    returns (updates: map<int, real>, deltas: Deltas)
    requires r.cost == 0.0 && r.id !in before
    ensures AsksFor(p, r, updates) && updates == if NewCost(p, r) > 0.0 then before[r.id := NewCost(p, r)] else before
    ensures forall key :: key != 0 ==>
      DeltaOf(deltas, key) == DeltaOf(owed, key) + (if r.keyId == key then NewCost(p, r) else 0.0)
  {
    updates, deltas := before, owed;
    var newCost := NewCost(p, r);
    if newCost <= 0.0 {
      return;
    }
    updates := updates[r.id := newCost];
    if r.keyId != 0 {
      deltas := deltas[r.keyId := DeltaOf(deltas, r.keyId) + newCost - r.cost];
    }
  }

  /** A key's spend as both tables have it. */
  function Spend(logs: seq<LogRow>, rollups: seq<RollupRow>, key: int): real {
    KeyCost(logs, key) + KeyRollupCost(rollups, key)
  }

  /** The SQL narrowing: a served id that ends with, or is, one of the key's tails. */
  predicate Prefiltered(tail: Path, served: Path) {
    exists t :: t in SlashTails(tail) && (served == t || (|served| > |t| && IsTail(t, served)))
  }

  /** The narrowing never drops a row the tail rule would take. */
  lemma PrefilterKeepsAll(tail: Path, served: Path)
    ensures SharesModelTail(tail, served) ==> Prefiltered(tail, served)
  {
    if tail in SlashTails(served) {
      TailIsSuffix(tail, served);
      TailIsSuffix(tail, tail);
      assert tail[0..] == tail;
    }
  }

  lemma RollupRiseGrows(p: Price, rows: seq<RollupRow>, i: nat, before: Deltas, after: Deltas)
    requires i < |rows|
    requires forall key :: key != 0 ==> DeltaOf(before, key) == RollupRise(p, rows[..i], key)
    requires forall key :: key != 0 ==>
      DeltaOf(after, key) == DeltaOf(before, key) + (if rows[i].keyId == key then NewRollupCost(p, rows[i]) else 0.0)
    ensures forall key :: key != 0 ==> DeltaOf(after, key) == RollupRise(p, rows[..i + 1], key)
  {
    assert rows[..i + 1][..i] == rows[..i];
    forall key | key != 0 ensures DeltaOf(after, key) == RollupRise(p, rows[..i + 1], key) {
      assert DeltaOf(before, key) == RollupRise(p, rows[..i], key);
    }
  }

  /** Repricing twice with one price: the second call changes no row and returns nothing. */
  lemma SecondCallDoesNothing(p: Price, logs: seq<LogRow>, rollups: seq<RollupRow>, key: int)
    ensures var l, r := All(p, logs), AllRollups(p, rollups);
            && All(p, l) == l && AllRollups(p, r) == r
            && Rise(p, l, key) == 0.0 && RollupRise(p, r, key) == 0.0
  {
    Idempotent(p, logs, key);
    RollupsIdempotent(p, rollups, key);
  }

  // ---- rolling up first -----------------------------------------------------------------

  function Sum(ts: seq<Tokens>): Tokens {
    if ts == [] then NO_TOKENS
    else
      var s, t := Sum(ts[..|ts| - 1]), ts[|ts| - 1];
      Tokens(s.prompt + t.prompt, s.cached + t.cached, s.creation + t.creation, s.output + t.output)
  }

  function Uncached(t: Tokens, includesCached: bool): int {
    if includesCached then Clamp(t.prompt - t.cached) else t.prompt
  }

  /** Uncached prompt tokens, request by request. */
  function UncachedSum(ts: seq<Tokens>, includesCached: bool): int {
    if ts == [] then 0
    else UncachedSum(ts[..|ts| - 1], includesCached) + Uncached(ts[|ts| - 1], includesCached)
  }

  function CostSum(r: Rates, ts: seq<Tokens>, includesCached: bool): real
    requires Usable(r)
  {
    if ts == [] then 0.0
    else CostSum(r, ts[..|ts| - 1], includesCached) + CostOf(r, ts[|ts| - 1], includesCached)
  }

  /** The four products a cost adds up. */
  function Weighed(r: Rates, uncached: int, cached: int, creation: int, output: int): real
    requires Usable(r)
  {
    (uncached as real) * r.input.value + (cached as real) * r.cached.GetOr(r.input.value)
    + (creation as real) * r.creation.GetOr(r.input.value) + (output as real) * r.output.value
  }

  lemma Distribute(a: int, b: int, x: real)
    ensures ((a + b) as real) * x == (a as real) * x + (b as real) * x
  {
  }

  lemma WeighedAdds(r: Rates, a: int, b: int, c: int, d: int, a': int, b': int, c': int, d': int)
    requires Usable(r)
    ensures Weighed(r, a + a', b + b', c + c', d + d') == Weighed(r, a, b, c, d) + Weighed(r, a', b', c', d')
  {
    Distribute(a, a', r.input.value);
    Distribute(b, b', r.cached.GetOr(r.input.value));
    Distribute(c, c', r.creation.GetOr(r.input.value));
    Distribute(d, d', r.output.value);
  }

  /** Costs are linear in the tokens, except for the clamp on uncached prompt tokens. */
  lemma {:induction false} CostSumIs(r: Rates, ts: seq<Tokens>, includesCached: bool)
    requires Usable(r)
    ensures var s := Sum(ts);
            CostSum(r, ts, includesCached)
            == Weighed(r, UncachedSum(ts, includesCached), s.cached, s.creation, s.output)
  {
    if ts != [] {
      var init, t := ts[..|ts| - 1], ts[|ts| - 1];
      CostSumIs(r, init, includesCached);
      var s := Sum(init);
      CostIsWeighed(r, t, includesCached);
      WeighedAdds(r, UncachedSum(init, includesCached), s.cached, s.creation, s.output,
        Uncached(t, includesCached), t.cached, t.creation, t.output);
    }
  }

  lemma ZeroProduct(a: real, x: real)
    requires a * x == 0.0 && x != 0.0
    ensures a == 0.0
  {
  }

  lemma ProductsAgree(a: int, b: int, x: real)
    ensures (a as real) * x == (b as real) * x <==> a == b || x == 0.0
  {
    Distribute(a - b, b, x);
    if (a as real) * x == (b as real) * x && x != 0.0 {
      ZeroProduct((a - b) as real, x);
    }
  }

  /**
   Pricing unpriced requests one by one and pricing their rolled-up sum give the same cost
   exactly when input is free or the sum's uncached prompt is the sum of theirs.
   */
  lemma RollupThenRepriceExactly(r: Rates, ts: seq<Tokens>, includesCached: bool)
    requires Usable(r)
    ensures CostSum(r, ts, includesCached) == CostOf(r, Sum(ts), true) <==>
            r.input.value == 0.0 || UncachedSum(ts, includesCached) == Uncached(Sum(ts), true)
  {
    var s := Sum(ts);
    CostSumIs(r, ts, includesCached);
    CostIsWeighed(r, s, true);
    WeighedAgree(r, UncachedSum(ts, includesCached), Uncached(s, true), s);
  }

  lemma CostIsWeighed(r: Rates, t: Tokens, includesCached: bool)
    requires Usable(r)
    ensures CostOf(r, t, includesCached) == Weighed(r, Uncached(t, includesCached), t.cached, t.creation, t.output)
  {
  }

  lemma WeighedAgree(r: Rates, a: int, b: int, t: Tokens)
    requires Usable(r)
    ensures Weighed(r, a, t.cached, t.creation, t.output) == Weighed(r, b, t.cached, t.creation, t.output)
       <==> r.input.value == 0.0 || a == b
  {
    ProductsAgree(a, b, r.input.value);
  }

  /** It does whenever prompts include their cached tokens and never report fewer. */
  lemma {:induction false} HonestPromptsAgree(ts: seq<Tokens>)
    requires forall i :: 0 <= i < |ts| ==> ts[i].cached <= ts[i].prompt
    ensures Sum(ts).cached <= Sum(ts).prompt && UncachedSum(ts, true) == Uncached(Sum(ts), true)
  {
    if ts != [] {
      HonestPromptsAgree(ts[..|ts| - 1]);
    }
  }

  /** It does not for a provider whose prompt count leaves cached tokens out. */
  lemma ExcludedCachedDisagree()
    ensures var r := Rates(Some(1.0), Some(1.0), None, None);
            CostSum(r, [Tokens(10, 4, 0, 0)], false) != CostOf(r, Sum([Tokens(10, 4, 0, 0)]), true)
  {
    var r, t := Rates(Some(1.0), Some(1.0), None, None), Tokens(10, 4, 0, 0);
    assert [t][..0] == [];
    assert Sum([t]) == t && UncachedSum([t], false) == 10;
    RollupThenRepriceExactly(r, [t], false);
  }
}
