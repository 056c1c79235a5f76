/**
 The lock-free authentication cache and its race with revocation (wiwi/auth/service.py).

 A credential row's history is the sequence of values it has had, `None` while the key does
 not exist; spend columns are not part of a row here. A lookup in flight is a task that has
 or has not executed its query yet. A writer commits first and evicts in a later segment.
 */
module AuthCache {
  import opened Prelude

  type Hash = int

  const TTL := 60.0
  const MAX_CACHE_ENTRIES := 10000

  /** The non-spend fields of a key that the lookup returns. */
  datatype Info = Info(keyId: int, capped: bool, expires: Option<real>, disabled: bool, rest: int)

  /**
   A cached lookup; `ver` and `readAt` record which row version was read, and when, and
   `judged` the wall clock against which its expiry was held.
   */
  datatype Entry = Entry(info: Option<Info>, ts: real, ver: nat, readAt: real, judged: real)

  datatype Query = Issued | Done(row: Option<Info>, ver: nat, readAt: real)

  /** An `authenticate` call suspended in its database lookup. */
  datatype Task = Task(h: Hash, gen: nat, ts: real, query: Query)

  /** An answer given to a caller, with its entry, the key's eviction floor and both clocks. */
  datatype Served = Served(h: Hash, e: Entry, floor: nat, at: real, wall: real, cached: bool)

  type Past = p: seq<Option<Info>> | |p| > 0 witness [None]

  datatype State = State(
    rows: map<Hash, Past>, floors: map<Hash, nat>,
    cache: map<Hash, Entry>, order: seq<Hash>, evictGen: nat,
    tasks: map<nat, Task>, writers: map<nat, set<Hash>>, unevicted: set<Hash>,
    served: seq<Served>, clock: real)

  function History(s: State, h: Hash): Past {
    if h in s.rows then s.rows[h] else [None]
  }

  function Version(s: State, h: Hash): nat {
    |History(s, h)| - 1
  }

  function Row(s: State, h: Hash): Option<Info> {
    History(s, h)[Version(s, h)]
  }

  /** The oldest version that may still be served: the one current at the last eviction of `h`. */
  function Floor(s: State, h: Hash): nat {
    if h in s.floors then s.floors[h] else 0
  }

  predicate Expired(info: Info, wall: real) {
    info.expires.Some? && wall > info.expires.value
  }

  function Unexpired(row: Option<Info>, wall: real): Option<Info> {
    if row.Some? && Expired(row.value, wall) then None else row
  }

  /** What a lookup of `row` publishes at `wall`: nothing exactly if there is none or it expired. */
  predicate Publishes(info: Option<Info>, row: Option<Info>, wall: real) {
    && (info.None? <==> row.None? || (row.value.expires.Some? && row.value.expires.value < wall))
    && (info.Some? ==> info == row)
  }

  // ---- sweeping -------------------------------------------------------------------------

  function FreshKeys(cache: map<Hash, Entry>, order: seq<Hash>, now: real): (r: seq<Hash>)
    ensures forall h :: h in r ==> h in order
    ensures |r| <= |order|
  {
    if order == [] then []
    else if order[0] !in cache || now - cache[order[0]].ts >= TTL then FreshKeys(cache, order[1..], now)
    else [order[0]] + FreshKeys(cache, order[1..], now)
  }

  /** The keys left by a sweep: all while below the ceiling, else the fresh, else their newer half. */
  function Survivors(cache: map<Hash, Entry>, order: seq<Hash>, now: real): (r: seq<Hash>)
    ensures forall h :: h in r ==> h in order
    ensures |order| <= MAX_CACHE_ENTRIES ==> |r| < MAX_CACHE_ENTRIES
  {
    if |order| < MAX_CACHE_ENTRIES then order
    else
      var live := FreshKeys(cache, order, now);
      if |live| < MAX_CACHE_ENTRIES then live else live[|live| / 2..]
  }

  function Kept(cache: map<Hash, Entry>, keys: seq<Hash>): map<Hash, Entry> {
    map h | h in cache && h in keys :: cache[h]
  }

  function Without(order: seq<Hash>, gone: set<Hash>): (r: seq<Hash>)
    ensures forall h :: h in r <==> h in order && h !in gone
    ensures |r| <= |order|
  {
    if order == [] then []
    else if order[0] in gone then Without(order[1..], gone)
    else [order[0]] + Without(order[1..], gone)
  }

  predicate Distinct(order: seq<Hash>) {
    forall i, j :: 0 <= i < j < |order| ==> order[i] != order[j]
  }

  /** Dictionary and insertion order describe the same keys, within the ceiling. */
  ghost predicate Ordered(cache: map<Hash, Entry>, order: seq<Hash>) {
    && Distinct(order) && |order| <= MAX_CACHE_ENTRIES
    && (forall h :: h in order <==> h in cache)
  }

  lemma {:induction false} FreshKeysDistinct(cache: map<Hash, Entry>, order: seq<Hash>, now: real)
    requires Distinct(order)
    ensures Distinct(FreshKeys(cache, order, now))
  {
    if order != [] {
      FreshKeysDistinct(cache, order[1..], now);
      assert order[0] !in order[1..];
    }
  }

  lemma {:induction false} WithoutDistinct(order: seq<Hash>, gone: set<Hash>)
    requires Distinct(order)
    ensures Distinct(Without(order, gone))
  {
    if order != [] {
      WithoutDistinct(order[1..], gone);
      assert order[0] !in order[1..];
    }
  }

  function Inserted(order: seq<Hash>, h: Hash): seq<Hash> {
    if h in order then order else order + [h]
  }

  lemma SweepThenInsert(cache: map<Hash, Entry>, order: seq<Hash>, now: real, h: Hash, e: Entry)
    requires Ordered(cache, order)
    ensures var keys := Survivors(cache, order, now);
            Ordered(Kept(cache, keys)[h := e], Inserted(keys, h))
  {
    FreshKeysDistinct(cache, order, now);
  }

  predicate IsYoung(cache: map<Hash, Entry>, h: Hash, now: real) {
    h in cache && now - cache[h].ts < 60.0
  }

  function Young(cache: map<Hash, Entry>, order: seq<Hash>, now: real): set<Hash> {
    set h | h in order && IsYoung(cache, h, now)
  }

  lemma {:induction false} FreshKeysAreYoung(cache: map<Hash, Entry>, order: seq<Hash>, now: real)
    requires Distinct(order)
    ensures forall h :: h in FreshKeys(cache, order, now) <==> h in Young(cache, order, now)
    ensures |FreshKeys(cache, order, now)| == |Young(cache, order, now)|
  {
    if order != [] {
      FreshKeysAreYoung(cache, order[1..], now);
      YoungOfMore(cache, order, now);
    }
  }

  lemma YoungOfMore(cache: map<Hash, Entry>, order: seq<Hash>, now: real)
    requires Distinct(order) && order != []
    ensures order[0] !in Young(cache, order[1..], now)
    ensures Young(cache, order, now)
         == Young(cache, order[1..], now) + (if IsYoung(cache, order[0], now) then {order[0]} else {})
  {
    assert order == [order[0]] + order[1..] && order[0] !in order[1..];
  }

  lemma {:induction false} FreshKeysKeepOrder(cache: map<Hash, Entry>, order: seq<Hash>, now: real, i: nat, j: nat)
      returns (p: nat, q: nat)
    requires i < j < |order| && IsYoung(cache, order[i], now) && IsYoung(cache, order[j], now)
    ensures var keys := FreshKeys(cache, order, now); p < q < |keys| && keys[p] == order[i] && keys[q] == order[j]
  {
    var first := if IsYoung(cache, order[0], now) then 1 else 0;
    if i > 0 {
      p, q := FreshKeysKeepOrder(cache, order[1..], now, i - 1, j - 1);
      p, q := p + first, q + first;
    } else {
      var k := FreshKeyAt(cache, order[1..], now, j - 1);
      p, q := 0, k + 1;
    }
  }

  lemma {:induction false} FreshKeyAt(cache: map<Hash, Entry>, order: seq<Hash>, now: real, j: nat) returns (q: nat)
    requires j < |order| && IsYoung(cache, order[j], now)
    ensures q < |FreshKeys(cache, order, now)| && FreshKeys(cache, order, now)[q] == order[j]
  {
    if j == 0 {
      q := 0;
    } else {
      q := FreshKeyAt(cache, order[1..], now, j - 1);
      q := if IsYoung(cache, order[0], now) then q + 1 else q;
    }
  }

  lemma LaterHalf(cache: map<Hash, Entry>, order: seq<Hash>, now: real, half: nat, i: nat, j: nat)
    requires Distinct(order) && i < j < |order| && half <= |FreshKeys(cache, order, now)|
    requires order[i] in FreshKeys(cache, order, now)[half..] && IsYoung(cache, order[j], now)
    ensures order[j] in FreshKeys(cache, order, now)[half..]
  {
    var live := FreshKeys(cache, order, now);
    var a :| half <= a < |live| && live[a] == order[i];
    FreshKeysAreYoung(cache, order, now);
    FreshKeysDistinct(cache, order, now);
    assert live[a] in live;
    var p, q := FreshKeysKeepOrder(cache, order, now, i, j);
    assert p == a && live[half..][q - half] == order[j];
  }

  /** `b` holds every young entry inserted after one that it holds. */
  predicate LaterOnes(cache: map<Hash, Entry>, order: seq<Hash>, now: real, b: seq<Hash>) {
    forall i, j :: 0 <= i < j < |order| && order[i] in b && IsYoung(cache, order[j], now) ==> order[j] in b
  }

  /**
   What a sweep leaves: everything below the ceiling; else nothing older than 60 s, and of the
   young entries all if they are below the ceiling, the later-inserted half if they are not.
   */
  lemma SweepExactly(cache: map<Hash, Entry>, order: seq<Hash>, now: real)
    requires Distinct(order)
    ensures var keys, young := Survivors(cache, order, now), Young(cache, order, now);
            if |order| < 10000 then keys == order
            else
              && (forall h :: h in keys ==> h in young)
              && (|young| < 10000 ==> forall h :: h in young ==> h in keys)
              && (|young| >= 10000 ==> |keys| == |young| - |young| / 2 && LaterOnes(cache, order, now, keys))
  {
    if |order| >= 10000 {
      var live := FreshKeys(cache, order, now);
      FreshKeysAreYoung(cache, order, now);
      if |live| >= 10000 {
        var keys := live[|live| / 2..];
        forall i, j | 0 <= i < j < |order| && order[i] in keys && IsYoung(cache, order[j], now)
          ensures order[j] in keys
        {
          LaterHalf(cache, order, now, |live| / 2, i, j);
        }
      }
    }
  }

  // ---- the segments ---------------------------------------------------------------------

  datatype Event =
    | Start(id: nat, h: Hash, mono: real, wall: real)
    | QueryRuns(id: nat, mono: real)
    | Resume(id: nat, mono: real, wall: real)
    | TaskDies(id: nat)
    | Commit(w: nat, changes: map<Hash, Option<Info>>)
    | Evict(w: nat, h: Hash)
    | InvalidateAll(w: nat)
    | WriterDies(w: nat)
    | ForgetKey(keyId: int)

  predicate Enabled(s: State, e: Event) {
    match e
    case Start(id, h, mono, _) => id !in s.tasks && mono >= s.clock
    case QueryRuns(id, mono) => id in s.tasks && s.tasks[id].query.Issued? && mono >= s.clock
    case Resume(id, mono, _) => id in s.tasks && s.tasks[id].query.Done? && mono >= s.clock
    case TaskDies(id) => id in s.tasks
    case Commit(w, _) => w !in s.writers
    case Evict(w, h) => w in s.writers && h in s.writers[w]
    case InvalidateAll(w) => w in s.writers
    case WriterDies(w) => w in s.writers
    case ForgetKey(_) => true
  }

  predicate Hit(s: State, h: Hash, mono: real, wall: real) {
    && h in s.cache && mono - s.cache[h].ts < TTL
    && (s.cache[h].info.Some? ==> !s.cache[h].info.value.capped && !Expired(s.cache[h].info.value, wall))
  }

  function Serve(s: State, h: Hash, e: Entry, mono: real, wall: real, cached: bool): State {
    s.(served := s.served + [Served(h, e, Floor(s, h), mono, wall, cached)], clock := mono)
  }

  function Started(s: State, id: nat, h: Hash, mono: real, wall: real): State {
    if Hit(s, h, mono, wall) then Serve(s, h, s.cache[h], mono, wall, true)
    else s.(tasks := s.tasks[id := Task(h, s.evictGen, mono, Issued)], clock := mono)
  }

  /** After the query: read again if anything was evicted meanwhile, else publish and return. */
  function Resumed(s: State, id: nat, mono: real, wall: real): State
    requires id in s.tasks && s.tasks[id].query.Done?
  {
    var t := s.tasks[id];
    if s.evictGen != t.gen then s.(tasks := s.tasks[id := t.(gen := s.evictGen, query := Issued)], clock := mono)
    else
      var e := Entry(Unexpired(t.query.row, wall), t.ts, t.query.ver, t.query.readAt, wall);
      var keys := Survivors(s.cache, s.order, t.ts);
      Serve(s.(cache := Kept(s.cache, keys)[t.h := e], order := Inserted(keys, t.h), tasks := s.tasks - {id}),
            t.h, e, mono, wall, false)
  }

  function Committed(s: State, w: nat, changes: map<Hash, Option<Info>>): State {
    s.(rows := s.rows + (map h | h in changes :: History(s, h) + [changes[h]]),
       writers := s.writers[w := changes.Keys])
  }

  /** `h` dropped, and the generation bumped whether or not it was cached. */
  function Dropped(s: State, h: Hash): State {
    s.(cache := s.cache - {h}, order := Without(s.order, {h}), evictGen := s.evictGen + 1,
       floors := s.floors[h := Version(s, h)])
  }

  function Forgotten(s: State, keyId: int): State {
    var gone := set h | h in s.cache && s.cache[h].info.Some? && s.cache[h].info.value.keyId == keyId;
    s.(cache := s.cache - gone, order := Without(s.order, gone))
  }

  function Next(s: State, e: Event): State
    requires Enabled(s, e)
  {
    match e
    case Start(id, h, mono, wall) => Started(s, id, h, mono, wall)
    case QueryRuns(id, mono) =>
      var t := s.tasks[id];
      s.(tasks := s.tasks[id := t.(query := Done(Row(s, t.h), Version(s, t.h), mono))], clock := mono)
    case Resume(id, mono, wall) => Resumed(s, id, mono, wall)
    case TaskDies(id) => s.(tasks := s.tasks - {id})
    case Commit(w, changes) => Committed(s, w, changes)
    case Evict(w, h) => Dropped(s, h).(writers := s.writers[w := s.writers[w] - {h}])
    case InvalidateAll(w) =>
      s.(cache := map[], order := [], evictGen := s.evictGen + 1,
         floors := (map h | h in s.rows.Keys + s.floors.Keys :: Version(s, h)), writers := s.writers - {w})
    case WriterDies(w) => s.(writers := s.writers - {w}, unevicted := s.unevicted + s.writers[w])
    case ForgetKey(keyId) => Forgotten(s, keyId)
  }

  predicate EnabledRun(s: State, es: seq<Event>)
    decreases |es|
  {
    es == [] || (Enabled(s, es[0]) && EnabledRun(Next(s, es[0]), es[1..]))
  }

  function Run(s: State, es: seq<Event>): State
    requires EnabledRun(s, es)
    decreases |es|
  {
    if es == [] then s else Run(Next(s, es[0]), es[1..])
  }

  // ---- the invariant --------------------------------------------------------------------

  ghost predicate EntryOk(s: State, h: Hash, e: Entry) {
    && Floor(s, h) <= e.ver <= Version(s, h)
    && Publishes(e.info, History(s, h)[e.ver], e.judged)
    && e.ts <= e.readAt <= s.clock
  }

  ghost predicate TaskOk(s: State, t: Task) {
    && t.gen <= s.evictGen && t.ts <= s.clock
    && (t.query.Done? ==>
          && t.query.ver <= Version(s, t.h) && t.query.row == History(s, t.h)[t.query.ver]
          && t.ts <= t.query.readAt <= s.clock
          && (t.gen == s.evictGen ==> Floor(s, t.h) <= t.query.ver))
  }

  /**
   An answer no older than its key's last eviction; from the cache, read less than 60 s ago
   and of no capped key; and a credential that has not expired at the moment it is given out.
   */
  ghost predicate ServedOk(s: State, sv: Served) {
    && sv.floor <= sv.e.ver <= Version(s, sv.h)
    && Publishes(sv.e.info, History(s, sv.h)[sv.e.ver], sv.e.judged)
    && sv.e.readAt <= sv.at
    && (if sv.cached then sv.at - sv.e.readAt < 60.0 && (sv.e.info.Some? ==> !sv.e.info.value.capped)
        else sv.e.judged == sv.wall)
    && (sv.e.info.Some? && sv.e.info.value.expires.Some? ==> sv.wall <= sv.e.info.value.expires.value)
  }

  /** Some committed change to `h` has not been followed by its eviction. */
  ghost predicate Outstanding(s: State, h: Hash) {
    h in s.unevicted || exists w :: w in s.writers && h in s.writers[w]
  }

  ghost predicate Inv(s: State) {
    && Ordered(s.cache, s.order)
    && (forall h :: h in s.cache ==> EntryOk(s, h, s.cache[h]))
    && (forall id :: id in s.tasks ==> TaskOk(s, s.tasks[id]))
    && (forall h :: h in s.floors ==> s.floors[h] <= Version(s, h))
    && (forall h :: h in s.rows && Floor(s, h) < Version(s, h) ==> Outstanding(s, h))
    && (forall sv :: sv in s.served ==> ServedOk(s, sv))
  }

  ghost predicate Init(s: State) {
    && s.cache == map[] && s.order == [] && s.tasks == map[] && s.writers == map[]
    && s.unevicted == {} && s.served == [] && s.evictGen == 0
    && (forall h :: h in s.rows || h in s.floors ==> Floor(s, h) == Version(s, h))
  }

  /** A step that changes no row, floor or generation only has to answer for what it added. */
  lemma Quiet(s: State, n: State)
    requires Inv(s) && Ordered(n.cache, n.order)
    requires n.rows == s.rows && n.floors == s.floors && n.evictGen == s.evictGen && n.clock >= s.clock
    requires forall h :: h in n.cache ==> (h in s.cache && n.cache[h] == s.cache[h]) || EntryOk(n, h, n.cache[h])
    requires forall id :: id in n.tasks ==> (id in s.tasks && n.tasks[id] == s.tasks[id]) || TaskOk(n, n.tasks[id])
    requires forall sv :: sv in n.served ==> sv in s.served || ServedOk(n, sv)
    requires forall h :: Outstanding(s, h) ==> Outstanding(n, h)
    ensures Inv(n)
  {
    forall h | h in n.cache ensures EntryOk(n, h, n.cache[h]) {
      assert h in s.cache && n.cache[h] == s.cache[h] ==> EntryOk(s, h, s.cache[h]);
    }
    forall id | id in n.tasks ensures TaskOk(n, n.tasks[id]) {
      assert id in s.tasks && n.tasks[id] == s.tasks[id] ==> TaskOk(s, s.tasks[id]);
    }
    forall sv | sv in n.served ensures ServedOk(n, sv) {
      assert sv in s.served ==> ServedOk(s, sv);
    }
  }

  lemma StartKeepsInv(s: State, id: nat, h: Hash, mono: real, wall: real)
    requires Inv(s) && Enabled(s, Start(id, h, mono, wall))
    ensures Inv(Next(s, Start(id, h, mono, wall)))
  {
    var n := Started(s, id, h, mono, wall);
    if Hit(s, h, mono, wall) {
      assert EntryOk(s, h, s.cache[h]);
    }
    assert forall g :: Outstanding(s, g) ==> Outstanding(n, g);
    Quiet(s, n);
  }

  lemma FloorBelow(s: State, h: Hash)
    requires Inv(s)
    ensures Floor(s, h) <= Version(s, h)
  {
  }

  lemma QueryKeepsInv(s: State, id: nat, mono: real)
    requires Inv(s) && Enabled(s, QueryRuns(id, mono))
    ensures Inv(Next(s, QueryRuns(id, mono)))
  {
    var n := Next(s, QueryRuns(id, mono));
    FloorBelow(s, s.tasks[id].h);
    assert TaskOk(s, s.tasks[id]);
    assert forall g :: Outstanding(s, g) ==> Outstanding(n, g);
    Quiet(s, n);
  }

  lemma ResumeKeepsInv(s: State, id: nat, mono: real, wall: real)
    requires Inv(s) && Enabled(s, Resume(id, mono, wall))
    ensures Inv(Next(s, Resume(id, mono, wall)))
  {
    var t, n := s.tasks[id], Resumed(s, id, mono, wall);
    assert TaskOk(s, t);
    if s.evictGen == t.gen {
      PublishKeepsInv(s, id, mono, wall);
    } else {
      Quiet(s, n);
    }
  }

  lemma PublishKeepsInv(s: State, id: nat, mono: real, wall: real)
    requires Inv(s) && Enabled(s, Resume(id, mono, wall)) && s.evictGen == s.tasks[id].gen
    ensures Inv(Resumed(s, id, mono, wall))
  {
    var t, n := s.tasks[id], Resumed(s, id, mono, wall);
    assert TaskOk(s, t);
    var e := Entry(Unexpired(t.query.row, wall), t.ts, t.query.ver, t.query.readAt, wall);
    SweepThenInsert(s.cache, s.order, t.ts, t.h, e);
    assert EntryOk(n, t.h, e);
    forall h | h in n.cache ensures (h in s.cache && n.cache[h] == s.cache[h]) || EntryOk(n, h, n.cache[h]) {
    }
    forall sv | sv in n.served ensures sv in s.served || ServedOk(n, sv) {
    }
    assert n.unevicted == s.unevicted && n.writers == s.writers;
    Quiet(s, n);
  }

  /** Appending to histories changes nothing about what was read before. */
  lemma LongerHistories(s: State, n: State)
    requires forall g :: Floor(n, g) == Floor(s, g) && History(s, g) <= History(n, g)
    requires n.clock == s.clock && n.evictGen == s.evictGen
    ensures forall h, e :: EntryOk(s, h, e) ==> EntryOk(n, h, e)
    ensures forall t :: TaskOk(s, t) ==> TaskOk(n, t)
    ensures forall sv :: ServedOk(s, sv) ==> ServedOk(n, sv)
  {
  }

  lemma CommitKeepsInv(s: State, w: nat, changes: map<Hash, Option<Info>>)
    requires Inv(s) && Enabled(s, Commit(w, changes))
    ensures Inv(Next(s, Commit(w, changes)))
  {
    var n := Committed(s, w, changes);
    forall g ensures Floor(n, g) == Floor(s, g) && History(s, g) <= History(n, g) {
    }
    LongerHistories(s, n);
    forall g | g in n.rows && Floor(n, g) < Version(n, g) ensures Outstanding(n, g) {
      CommittedIsOutstanding(s, w, changes, g);
    }
  }

  lemma CommittedIsOutstanding(s: State, w: nat, changes: map<Hash, Option<Info>>, g: Hash)
    requires Enabled(s, Commit(w, changes))
    requires g in changes || Outstanding(s, g)
    ensures Outstanding(Committed(s, w, changes), g)
  {
    var n := Committed(s, w, changes);
    if g in changes {
      assert n.writers[w] == changes.Keys;
    } else if g !in s.unevicted {
      var w' :| w' in s.writers && g in s.writers[w'];
      assert n.writers[w'] == s.writers[w'];
    }
  }

  /** An eviction raises floors and the generation; what stays cached was not evicted. */
  lemma Evicted(s: State, n: State, gone: set<Hash>)
    requires Inv(s) && Ordered(n.cache, n.order)
    requires n.rows == s.rows && n.tasks == s.tasks && n.served == s.served && n.clock == s.clock
    requires forall h :: h in n.cache ==> h !in gone && h in s.cache && n.cache[h] == s.cache[h]
    requires forall h :: Floor(n, h) == if h in gone then Version(s, h) else Floor(s, h)
    requires n.evictGen > s.evictGen || (n.evictGen == s.evictGen && gone == {})
    requires forall h :: h in s.rows && h !in gone && Outstanding(s, h) ==> Outstanding(n, h)
    ensures Inv(n)
  {
    forall h | h in n.cache ensures EntryOk(n, h, n.cache[h]) {
      assert EntryOk(s, h, s.cache[h]);
    }
    forall id | id in n.tasks ensures TaskOk(n, n.tasks[id]) {
      assert TaskOk(s, s.tasks[id]);
    }
    forall sv | sv in n.served ensures ServedOk(n, sv) {
      assert ServedOk(s, sv);
    }
    forall h | h in n.floors ensures n.floors[h] <= Version(n, h) {
      FloorBelow(s, h);
      assert Floor(n, h) == n.floors[h];
    }
  }

  lemma EvictKeepsInv(s: State, w: nat, h: Hash)
    requires Inv(s) && Enabled(s, Evict(w, h))
    ensures Inv(Next(s, Evict(w, h)))
  {
    var n := Next(s, Evict(w, h));
    WithoutDistinct(s.order, {h});
    OthersStillOutstanding(s, n, w, {h});
    Evicted(s, n, {h});
  }

  lemma OthersStillOutstanding(s: State, n: State, w: nat, gone: set<Hash>)
    requires w in s.writers && n.unevicted == s.unevicted
    requires forall w' :: w' in s.writers && w' != w ==> w' in n.writers && n.writers[w'] == s.writers[w']
    requires s.writers[w] <= gone || (w in n.writers && s.writers[w] - gone <= n.writers[w])
    ensures forall h :: h !in gone && Outstanding(s, h) ==> Outstanding(n, h)
  {
    forall h | h !in gone && Outstanding(s, h) ensures Outstanding(n, h) {
      if h !in s.unevicted {
        var w' :| w' in s.writers && h in s.writers[w'];
        assert w' in n.writers && h in n.writers[w'];
      }
    }
  }

  lemma InvalidateKeepsInv(s: State, w: nat)
    requires Inv(s) && Enabled(s, InvalidateAll(w))
    ensures Inv(Next(s, InvalidateAll(w)))
  {
    var n := Next(s, InvalidateAll(w));
    Evicted(s, n, s.rows.Keys + s.floors.Keys);
  }

  lemma OthersKeepInv(s: State, e: Event)
    requires Inv(s) && Enabled(s, e) && (e.TaskDies? || e.WriterDies? || e.ForgetKey?)
    ensures Inv(Next(s, e))
  {
    var n := Next(s, e);
    match e {
      case TaskDies(_) =>
      case ForgetKey(keyId) =>
        WithoutDistinct(s.order, set h | h in s.cache && s.cache[h].info.Some? && s.cache[h].info.value.keyId == keyId);
      case WriterDies(w) =>
        OthersStillOutstanding(s, n.(unevicted := s.unevicted), w, s.writers[w]);
        forall h | Outstanding(s, h) ensures Outstanding(n, h) {
          assert h !in s.writers[w] ==> Outstanding(n.(unevicted := s.unevicted), h);
        }
    }
    Quiet(s, n);
  }

  lemma StepKeepsInv(s: State, e: Event)
    requires Inv(s) && Enabled(s, e)
    ensures Inv(Next(s, e))
  {
    match e
    case Start(id, h, mono, wall) => StartKeepsInv(s, id, h, mono, wall);
    case QueryRuns(id, mono) => QueryKeepsInv(s, id, mono);
    case Resume(id, mono, wall) => ResumeKeepsInv(s, id, mono, wall);
    case Commit(w, changes) => CommitKeepsInv(s, w, changes);
    case Evict(w, h) => EvictKeepsInv(s, w, h);
    case InvalidateAll(w) => InvalidateKeepsInv(s, w);
    case _ => OthersKeepInv(s, e);
  }

  /**
   Over every run: no call is ever answered from a row version older than the one current at
   its key's last eviction, whatever lookups were in flight; an answer out of the cache was
   read less than 60 s before; and a cached key without an outstanding change publishes its
   current row, as it stood against the clock then.
   */
  lemma {:induction false} RevocationIsFinal(s: State, es: seq<Event>)
    requires Inv(s) && EnabledRun(s, es)
    ensures var n := Run(s, es);
            && Inv(n)
            && (forall sv :: sv in n.served ==> sv.e.ver >= sv.floor && (sv.cached ==> sv.at - sv.e.readAt < 60.0))
            && (forall h :: h in n.cache && !Outstanding(n, h) ==>
                  Publishes(n.cache[h].info, Row(n, h), n.cache[h].judged))
            && |n.order| <= MAX_CACHE_ENTRIES
    decreases |es|
  {
    if es == [] {
      forall h | h in s.cache && !Outstanding(s, h) ensures Publishes(s.cache[h].info, Row(s, h), s.cache[h].judged) {
        assert EntryOk(s, h, s.cache[h]);
        assert h in s.rows || Version(s, h) == 0;
      }
    } else {
      StepKeepsInv(s, es[0]);
      RevocationIsFinal(Next(s, es[0]), es[1..]);
    }
  }

  /**
   Who is refused, over every run. A credential that is given out is the row that was read, is
   not past its expiry at that moment and, out of the cache, has no cap; nothing is given out
   for a row that was read only if its expiry lay behind the clock when it was read.
   */
  lemma ExpiryIsFinal(s: State, es: seq<Event>, sv: Served)
    requires Inv(s) && EnabledRun(s, es) && sv in Run(s, es).served
    ensures sv.e.ver < |History(Run(s, es), sv.h)|
    ensures var row := History(Run(s, es), sv.h)[sv.e.ver];
            match sv.e.info
            case Some(i) =>
              && row == Some(i) && (i.expires.None? || sv.wall <= i.expires.value) && (sv.cached ==> !i.capped)
            case None =>
              && (row.Some? ==> row.value.expires.Some? && row.value.expires.value < sv.e.judged)
              && (!sv.cached ==> sv.e.judged == sv.wall)
  {
    RevocationIsFinal(s, es);
    assert ServedOk(Run(s, es), sv);
  }

  /**
   A call is answered out of the cache exactly if an entry younger than 60 s holds no
   credential, or an uncapped one that has not expired; otherwise it looks the key up.
   */
  lemma CacheAnswersExactly(s: State, id: nat, h: Hash, mono: real, wall: real)
    requires Enabled(s, Start(id, h, mono, wall))
    ensures var n := Next(s, Start(id, h, mono, wall));
            if && h in s.cache && mono < s.cache[h].ts + 60.0
               && (s.cache[h].info.Some? ==>
                     var i := s.cache[h].info.value; !i.capped && (i.expires.None? || wall <= i.expires.value))
            then n.served == s.served + [Served(h, s.cache[h], Floor(s, h), mono, wall, true)] && n.tasks == s.tasks
            else n.served == s.served && n.tasks == s.tasks[id := Task(h, s.evictGen, mono, Issued)]
  {
  }

  /** An eviction drops the one entry, forgetting a key all of its entries, and neither any other. */
  lemma EvictionsAreExact(s: State, w: nat, h: Hash, keyId: int, g: Hash)
    requires Enabled(s, Evict(w, h))
    ensures var n := Next(s, Evict(w, h)).cache;
            (g in n <==> g in s.cache && g != h) && (g in n ==> n[g] == s.cache[g])
    ensures var n := Next(s, ForgetKey(keyId)).cache;
            && (g in n <==> g in s.cache && (s.cache[g].info.Some? ==> s.cache[g].info.value.keyId != keyId))
            && (g in n ==> n[g] == s.cache[g])
    ensures Next(s, ForgetKey(keyId)).evictGen == s.evictGen && Next(s, Evict(w, h)).evictGen == s.evictGen + 1
  {
  }

  lemma InitEstablishesInv(s: State)
    requires Init(s)
    ensures Inv(s)
  {
  }

  // ---- the service ------------------------------------------------------------------------

  class AuthService {
    var cache: map<Hash, Entry>
    var order: seq<Hash>
    var evictGen: nat
    var tasks: map<nat, Task>
    var writers: map<nat, set<Hash>>
    // The table and the history of the run; only lookups and writers touch the rows.
    ghost var rows: map<Hash, Past>
    ghost var floors: map<Hash, nat>
    ghost var unevicted: set<Hash>
    ghost var served: seq<Served>
    ghost var clock: real

    ghost function Abs(): State
      reads this
    {
      State(rows, floors, cache, order, evictGen, tasks, writers, unevicted, served, clock)
    }

    constructor (ghost rows: map<Hash, Past>)
      ensures Init(Abs()) && this.rows == rows
    {
      cache, order, evictGen, tasks, writers := map[], [], 0, map[], map[];
      this.rows, unevicted, served, clock := rows, {}, [], 0.0;
      floors := map h | h in rows :: |rows[h]| - 1;
    }

    /** Up to the lookup: answer from the cache, or remember the generation and query. */
    method Authenticate(id: nat, h: Hash, mono: real, wall: real) returns (answer: Option<Option<Info>>)
      requires Enabled(Abs(), Start(id, h, mono, wall))
      modifies this
      ensures Abs() == Next(old(Abs()), Start(id, h, mono, wall))
      ensures answer.Some? <==> old(Hit(Abs(), h, mono, wall))
      ensures answer.Some? ==> answer.value == served[|served| - 1].e.info
    {
      var gen := evictGen;
      if h in cache && mono - cache[h].ts < TTL {
        var hit := cache[h];
        if hit.info.None? || (!hit.info.value.capped && !Expired(hit.info.value, wall)) {
          served := served + [Served(h, hit, Floor(Abs(), h), mono, wall, true)];
          clock := mono;
          return Some(hit.info);
        }
      }
      tasks := tasks[id := Task(h, gen, mono, Issued)];
      clock := mono;
      return None;
    }

    /** After the lookup: re-read while evictions keep landing, else publish and answer. */
    method LookupReturned(id: nat, mono: real, wall: real) returns (answer: Option<Option<Info>>)
      requires Enabled(Abs(), Resume(id, mono, wall)) && Ordered(cache, order)
      modifies this
      ensures Abs() == Next(old(Abs()), Resume(id, mono, wall))
      ensures answer.Some? <==> old(evictGen == tasks[id].gen)
      ensures answer.Some? ==> answer.value == served[|served| - 1].e.info
    {
      var t := tasks[id];
      if evictGen != t.gen {
        tasks := tasks[id := t.(gen := evictGen, query := Issued)];
        clock := mono;
        return None;
      }
      var info := t.query.row;
      if info.Some? && Expired(info.value, wall) {
        info := None;
      }
      SweepCache(t.ts);
      var e := Entry(info, t.ts, t.query.ver, t.query.readAt, wall);
      cache := cache[t.h := e];
      order := if t.h in order then order else order + [t.h];
      tasks := tasks - {id};
      served := served + [Served(t.h, e, Floor(Abs(), t.h), mono, wall, false)];
      clock := mono;
      return Some(info);
    }

    method SweepCache(now: real)
      requires Ordered(cache, order)
      modifies `cache, `order
      ensures order == Survivors(old(cache), old(order), now)
      ensures cache == Kept(old(cache), order)
    {
      if |order| >= MAX_CACHE_ENTRIES {
        order := FreshKeys(cache, order, now);
        if |order| >= MAX_CACHE_ENTRIES {
          order := order[|order| / 2..];
        }
        cache := Kept(cache, order);
      } else {
        assert forall h :: h in cache ==> h in order;
      }
    }

    /** One eviction of the several a writer may owe once its rows are committed. */
    method DropCached(w: nat, h: Hash)
      requires Enabled(Abs(), Evict(w, h))
      modifies this
      ensures Abs() == Next(old(Abs()), Evict(w, h))
    {
      floors := floors[h := Version(Abs(), h)];
      cache := cache - {h};
      order := Without(order, {h});
      evictGen := evictGen + 1;
      writers := writers[w := writers[w] - {h}];
    }

    method InvalidateCache(w: nat)
      requires Enabled(Abs(), InvalidateAll(w))
      modifies this
      ensures Abs() == Next(old(Abs()), InvalidateAll(w))
    {
      floors := map h | h in rows.Keys + floors.Keys :: Version(Abs(), h);
      cache, order := map[], [];
      evictGen := evictGen + 1;
      writers := writers - {w};
    }

    method EvictCachedKey(keyId: int)
      modifies `cache, `order
      ensures Abs() == Next(old(Abs()), ForgetKey(keyId))
    {
      var gone := set h | h in cache && cache[h].info.Some? && cache[h].info.value.keyId == keyId;
      cache := cache - gone;
      order := Without(order, gone);
    }
  }
}
