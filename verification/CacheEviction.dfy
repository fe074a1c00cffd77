// What a cleanup of the response cache removes: invalid entries, and the least used ready ones until the
// rest fits the desired size.

module CacheEviction {
  import opened Wrappers
  import opened ResponseCache

  datatype Usage = Usage(density: real, negativeSize: int, id: CacheId)

  // Tuples compare component by component.
  predicate Before(a: Usage, b: Usage) {
    || a.density < b.density
    || (a.density == b.density && a.negativeSize < b.negativeSize)
    || (a.density == b.density && a.negativeSize == b.negativeSize && a.id.rank < b.id.rank)
  }

  // Ready entries have been filled from a response.
  predicate Filled(heap: seq<Entry>) {
    forall k | 0 <= k < |heap| && heap[k].state.Ready? :: heap[k].size.Some? && heap[k].cachedAt.Some?
  }

  // The time in the cache, counted as one second at least.
  function Age(e: Entry, ctime: int): (age: int)
    requires e.cachedAt.Some?
    ensures age >= 1 && age >= ctime - e.cachedAt.value && (age == 1 || age == ctime - e.cachedAt.value)
  {
    if ctime - e.cachedAt.value > 1 then ctime - e.cachedAt.value else 1
  }

  // Uses by time in the cache; then the bigger entry; then the identifier.
  function UsageOf(e: Entry, ident: CacheId, ctime: int): Usage
    requires e.size.Some? && e.cachedAt.Some?
  {
    Usage(e.numAccessed as real / Age(e, ctime) as real, -(e.size.value as int), ident)
  }

  predicate Holding(heap: seq<Entry>, dict: map<CacheId, nat>, id: CacheId, state: EntryState) {
    id in dict && dict[id] < |heap| && heap[dict[id]].state == state
  }

  predicate Ranked(us: seq<Usage>) {
    forall i, j | 0 <= i < j < |us| :: Before(us[i], us[j])
  }

  ghost predicate IsUsage(u: Usage, heap: seq<Entry>, dict: map<CacheId, nat>, ctime: int)
    requires Filled(heap)
  {
    Holding(heap, dict, u.id, Ready) && u == UsageOf(heap[dict[u.id]], u.id, ctime)
  }

  // The ready entries in the order in which they would be given up.
  ghost predicate IsRanking(us: seq<Usage>, heap: seq<Entry>, dict: map<CacheId, nat>, ctime: int)
    requires Filled(heap)
  {
    Ranked(us) && forall u :: u in us <==> IsUsage(u, heap, dict, ctime)
  }

  function Total(us: seq<Usage>): int {
    if us == [] then 0 else -us[0].negativeSize + Total(us[1..])
  }

  // How many of the ranked entries have to go.
  function EvictCount(us: seq<Usage>, desired: int): (k: nat)
    ensures k <= |us|
  {
    if |us| > 1 && Total(us) > desired then 1 + EvictCount(us[1..], desired) else 0
  }

  function IdsOf(us: seq<Usage>): set<CacheId> {
    set u | u in us :: u.id
  }

  // The invalid identifiers, and the front of the ranking.
  function Gone(us: seq<Usage>, heap: seq<Entry>, dict: map<CacheId, nat>, desired: int): set<CacheId> {
    (set id | id in dict && Holding(heap, dict, id, Invalid)) + IdsOf(us[..EvictCount(us, desired)])
  }

  // The identifiers a cleanup at `ctime` removes.
  ghost predicate IsCleanup(heap: seq<Entry>, dict: map<CacheId, nat>, desired: int, ctime: int, gone: set<CacheId>)
    requires Filled(heap)
  {
    exists us :: IsRanking(us, heap, dict, ctime) && gone == Gone(us, heap, dict, desired)
  }

  // ---------------------------------------------------------------- results

  lemma {:induction false} EvictionFits(us: seq<Usage>, desired: int)
    ensures var k := EvictCount(us, desired);
      && (Total(us[k..]) <= desired || |us| - k <= 1)
      && (k > 0 ==> Total(us[k - 1..]) > desired && |us| - k >= 1)
  {
    var k := EvictCount(us, desired);
    if k > 0 {
      EvictionFits(us[1..], desired);
      assert us[1..][k - 1..] == us[k..];
      assert k > 1 ==> us[1..][k - 2..] == us[k - 1..];
    }
  }

  // A usage is among the first k exactly when its identifier is.
  lemma SplitRanking(us: seq<Usage>, heap: seq<Entry>, dict: map<CacheId, nat>, ctime: int, k: nat)
    requires Filled(heap) && IsRanking(us, heap, dict, ctime) && k <= |us|
    ensures forall u | IsUsage(u, heap, dict, ctime) :: u.id in IdsOf(us[..k]) <==> u in us[..k]
    ensures forall u | u in us :: u in us[..k] <==> u !in us[k..]
    ensures forall u, v | u in us[..k] && v in us[k..] :: Before(u, v)
    ensures forall id | id in IdsOf(us[..k]) :: Holding(heap, dict, id, Ready)
  {
    forall u | u in us[..k] ensures IsUsage(u, heap, dict, ctime) { assert u in us; }
    forall u | u in us ensures u in us[..k] <==> u !in us[k..] {
      var i :| 0 <= i < |us| && us[i] == u;
      if i < k { assert us[..k][i] == u; } else { assert us[k..][i - k] == u; }
    }
  }

  /** After a cleanup no invalid entry remains and no waiting one was removed, and every ready entry removed
      ranks before every one left. */
  lemma CleanupRemoves(heap: seq<Entry>, dict: map<CacheId, nat>, desired: int, ctime: int, gone: set<CacheId>)
    requires Filled(heap) && IsCleanup(heap, dict, desired, ctime, gone)
    ensures forall id | Holding(heap, dict, id, Invalid) :: id in gone
    ensures forall id | id in gone :: Holding(heap, dict, id, Invalid) || Holding(heap, dict, id, Ready)
    ensures forall u, v | IsUsage(u, heap, dict, ctime) && IsUsage(v, heap, dict, ctime)
                          && u.id in gone && v.id !in gone :: Before(u, v)
  {
    var us :| IsRanking(us, heap, dict, ctime) && gone == Gone(us, heap, dict, desired);
    var k := EvictCount(us, desired);
    SplitRanking(us, heap, dict, ctime, k);
    forall u, v | IsUsage(u, heap, dict, ctime) && IsUsage(v, heap, dict, ctime) && u.id in gone && v.id !in gone
      ensures Before(u, v)
    {
      assert u in us && v in us;
      assert u in us[..k] && v in us[k..];
    }
  }

  // Entry `a`, known as `x`, is to go before entry `b`, known as `y`: it was used less in its time, or as much
  // and is bigger, or is as big and comes first.
  ghost predicate GoesFirst(a: Entry, x: CacheId, b: Entry, y: CacheId, ctime: int)
    requires a.cachedAt.Some? && a.size.Some? && b.cachedAt.Some? && b.size.Some?
  {
    var p, q := a.numAccessed * Age(b, ctime), b.numAccessed * Age(a, ctime);
    p < q || (p == q && (a.size.value > b.size.value || (a.size.value == b.size.value && x.rank < y.rank)))
  }

  /** Which entries are given up: compared across, a removed one was used less often for its time in the cache than
      every one left; used as often, it is at least as big; as big, it comes first. */
  lemma LeastUsedGo(heap: seq<Entry>, dict: map<CacheId, nat>, desired: int, ctime: int, gone: set<CacheId>,
                    x: CacheId, y: CacheId)
    requires Filled(heap) && IsCleanup(heap, dict, desired, ctime, gone)
    requires Holding(heap, dict, x, Ready) && Holding(heap, dict, y, Ready) && x in gone && y !in gone
    ensures GoesFirst(heap[dict[x]], x, heap[dict[y]], y, ctime)
  {
    CleanupRemoves(heap, dict, desired, ctime, gone);
    var a, b := heap[dict[x]], heap[dict[y]];
    var u, v := UsageOf(a, x, ctime), UsageOf(b, y, ctime);
    assert IsUsage(u, heap, dict, ctime) && IsUsage(v, heap, dict, ctime);
    CompareAcross(a.numAccessed, Age(a, ctime), b.numAccessed, Age(b, ctime));
  }

  lemma CompareAcross(m: int, s: int, n: int, t: int)
    requires s >= 1 && t >= 1
    ensures m as real / s as real < n as real / t as real <==> m * t < n * s
    ensures m as real / s as real == n as real / t as real <==> m * t == n * s
  {
    var x, y := m as real / s as real, n as real / t as real;
    var st := s as real * t as real;
    assert st > 0.0;
    assert x * st == m as real * t as real && y * st == n as real * s as real;
    assert (m * t) as real == m as real * t as real && (n * s) as real == n as real * s as real;
    if x < y {
      assert x * st < y * st;
    } else if x > y {
      assert x * st > y * st;
    }
  }

  // A listing of the ready entries left after `gone`.
  ghost predicate Survivors(rest: seq<Usage>, heap: seq<Entry>, dict: map<CacheId, nat>, ctime: int, gone: set<CacheId>)
    requires Filled(heap)
  {
    Ranked(rest) && forall u :: u in rest <==> IsUsage(u, heap, dict, ctime) && u.id !in gone
  }

  // The last entry given up, which would not have fitted with those left.
  ghost predicate Excess(u: Usage, rest: seq<Usage>, heap: seq<Entry>, dict: map<CacheId, nat>, desired: int,
                         ctime: int, gone: set<CacheId>)
    requires Filled(heap)
  {
    && IsUsage(u, heap, dict, ctime) && u.id in gone && Total([u] + rest) > desired
    && forall v | IsUsage(v, heap, dict, ctime) && v.id in gone :: v == u || Before(v, u)
  }

  /** The ready entries left fit the desired size or are a single one; and if any ready entry was removed,
      they would not have fitted together with the last one that was. */
  lemma CleanupFits(heap: seq<Entry>, dict: map<CacheId, nat>, desired: int, ctime: int, gone: set<CacheId>)
    returns (rest: seq<Usage>)
    requires Filled(heap) && IsCleanup(heap, dict, desired, ctime, gone)
    ensures Survivors(rest, heap, dict, ctime, gone)
    ensures Total(rest) <= desired || |rest| <= 1
    ensures (exists id :: id in gone && Holding(heap, dict, id, Ready))
      ==> |rest| >= 1 && exists u :: Excess(u, rest, heap, dict, desired, ctime, gone)
  {
    var us :| IsRanking(us, heap, dict, ctime) && gone == Gone(us, heap, dict, desired);
    var k := EvictCount(us, desired);
    EvictionFits(us, desired);
    RestSurvives(us, heap, dict, desired, ctime);
    rest := us[k..];
    if k > 0 {
      LastGivenUp(us, heap, dict, desired, ctime, k);
    } else {
      assert us[..k] == [];
    }
  }

  // The sizes of the listed entries together.
  function Sizes(heap: seq<Entry>, dict: map<CacheId, nat>, ids: seq<CacheId>): int
    requires Filled(heap) && forall i | 0 <= i < |ids| :: Holding(heap, dict, ids[i], Ready)
  {
    if ids == [] then 0
    else
      assert Holding(heap, dict, ids[0], Ready);
      heap[dict[ids[0]]].size.value + Sizes(heap, dict, ids[1..])
  }

  // The ready entries that are left, each listed once.
  ghost predicate LeftOver(left: seq<CacheId>, heap: seq<Entry>, dict: map<CacheId, nat>, gone: set<CacheId>) {
    && (forall i, j | 0 <= i < j < |left| :: left[i] != left[j])
    && (forall i | 0 <= i < |left| :: Holding(heap, dict, left[i], Ready))
    && forall id :: id in left <==> Holding(heap, dict, id, Ready) && id !in gone
  }

  // Some removed entry would have been too much beside those left.
  ghost predicate OneTooMany(left: seq<CacheId>, heap: seq<Entry>, dict: map<CacheId, nat>, desired: int,
                             gone: set<CacheId>)
    requires Filled(heap) && LeftOver(left, heap, dict, gone)
  {
    exists x | x in gone && Holding(heap, dict, x, Ready) ::
      Sizes(heap, dict, left) + heap[dict[x]].size.value > desired
  }

  /** How much is given up: what is left fits the desired size or is a single entry, and no more was given up than
      that takes. */
  lemma CleanupLeaves(heap: seq<Entry>, dict: map<CacheId, nat>, desired: int, ctime: int, gone: set<CacheId>)
    requires Filled(heap) && IsCleanup(heap, dict, desired, ctime, gone)
    ensures exists left ::
      && LeftOver(left, heap, dict, gone) && (Sizes(heap, dict, left) <= desired || |left| <= 1)
      && ((exists id :: id in gone && Holding(heap, dict, id, Ready)) ==>
            |left| >= 1 && OneTooMany(left, heap, dict, desired, gone))
  {
    var rest := CleanupFits(heap, dict, desired, ctime, gone);
    var left := seq(|rest|, i requires 0 <= i < |rest| => rest[i].id);
    forall i | 0 <= i < |rest| ensures IsUsage(rest[i], heap, dict, ctime) {
      assert rest[i] in rest;
    }
    ListedLeft(rest, left, heap, dict, ctime, gone);
    TotalIsSizes(rest, left, heap, dict, ctime);
    if exists id :: id in gone && Holding(heap, dict, id, Ready) {
      var u :| Excess(u, rest, heap, dict, desired, ctime, gone);
      assert ([u] + rest)[1..] == rest;
      assert OneTooMany(left, heap, dict, desired, gone);
    }
    assert LeftOver(left, heap, dict, gone) && (Sizes(heap, dict, left) <= desired || |left| <= 1);
  }

  lemma ListedLeft(rest: seq<Usage>, left: seq<CacheId>, heap: seq<Entry>, dict: map<CacheId, nat>, ctime: int,
                   gone: set<CacheId>)
    requires Filled(heap) && Survivors(rest, heap, dict, ctime, gone)
    requires |left| == |rest| && forall i | 0 <= i < |rest| :: left[i] == rest[i].id
    ensures LeftOver(left, heap, dict, gone)
  {
    forall i | 0 <= i < |rest| ensures IsUsage(rest[i], heap, dict, ctime) && rest[i].id !in gone {
      assert rest[i] in rest;
    }
    forall i, j | 0 <= i < j < |left| ensures left[i] != left[j] {
      assert Before(rest[i], rest[j]);
    }
    forall id | Holding(heap, dict, id, Ready) && id !in gone ensures id in left {
      var u := UsageOf(heap[dict[id]], id, ctime);
      assert IsUsage(u, heap, dict, ctime);
      var i :| 0 <= i < |rest| && rest[i] == u;
      assert left[i] == id;
    }
  }

  lemma {:induction false} TotalIsSizes(rest: seq<Usage>, left: seq<CacheId>, heap: seq<Entry>,
                                        dict: map<CacheId, nat>, ctime: int)
    requires Filled(heap) && |left| == |rest|
    requires forall i | 0 <= i < |rest| :: left[i] == rest[i].id && IsUsage(rest[i], heap, dict, ctime)
    requires forall i | 0 <= i < |left| :: Holding(heap, dict, left[i], Ready)
    ensures Sizes(heap, dict, left) == Total(rest)
    decreases |rest|
  {
    if rest != [] {
      TotalIsSizes(rest[1..], left[1..], heap, dict, ctime);
    }
  }

  lemma RestSurvives(us: seq<Usage>, heap: seq<Entry>, dict: map<CacheId, nat>, desired: int, ctime: int)
    requires Filled(heap) && IsRanking(us, heap, dict, ctime)
    ensures Survivors(us[EvictCount(us, desired)..], heap, dict, ctime, Gone(us, heap, dict, desired))
  {
    var k := EvictCount(us, desired);
    SplitRanking(us, heap, dict, ctime, k);
    forall u ensures u in us[k..] <==> IsUsage(u, heap, dict, ctime) && u.id !in Gone(us, heap, dict, desired) {
      assert u in us[k..] ==> u in us;
    }
  }

  lemma LastGivenUp(us: seq<Usage>, heap: seq<Entry>, dict: map<CacheId, nat>, desired: int, ctime: int, k: nat)
    requires Filled(heap) && IsRanking(us, heap, dict, ctime) && 0 < k == EvictCount(us, desired)
    ensures Excess(us[k - 1], us[k..], heap, dict, desired, ctime, Gone(us, heap, dict, desired))
  {
    EvictionFits(us, desired);
    var u := us[k - 1];
    assert us[k - 1..] == [u] + us[k..];
    assert u in us && u in us[..k];
    SplitRanking(us, heap, dict, ctime, k);
    forall v | IsUsage(v, heap, dict, ctime) && v.id in Gone(us, heap, dict, desired) ensures v == u || Before(v, u) {
      assert v in us[..k];
      var i :| 0 <= i < k && us[..k][i] == v;
      assert us[i] == v;
    }
  }

  /** What a cleanup removes does not depend on the order in which the dictionary is read. */
  lemma CleanupIsUnique(heap: seq<Entry>, dict: map<CacheId, nat>, desired: int, ctime: int, a: set<CacheId>,
                        b: set<CacheId>)
    requires Filled(heap) && IsCleanup(heap, dict, desired, ctime, a) && IsCleanup(heap, dict, desired, ctime, b)
    ensures a == b
  {
    var us :| IsRanking(us, heap, dict, ctime) && a == Gone(us, heap, dict, desired);
    var vs :| IsRanking(vs, heap, dict, ctime) && b == Gone(vs, heap, dict, desired);
    RankingIsUnique(us, vs);
  }

  lemma {:induction false} RankingIsUnique(us: seq<Usage>, vs: seq<Usage>)
    requires Ranked(us) && Ranked(vs) && forall u :: u in us <==> u in vs
    ensures us == vs
    decreases |us|
  {
    if us == [] {
      assert forall i | 0 <= i < |vs| :: vs[i] in vs;
    } else {
      assert us[0] in us && us[0] in vs;
      assert vs[0] in vs && vs[0] in us;
      assert us[0] == vs[0];
      forall u ensures u in us[1..] <==> u in vs[1..] {
        assert u in us <==> u == us[0] || u in us[1..];
        assert u in vs <==> u == vs[0] || u in vs[1..];
      }
      RankingIsUnique(us[1..], vs[1..]);
    }
  }

  // ---------------------------------------------------------------- ranking by insertion

  function Inserted(us: seq<Usage>, u: Usage): seq<Usage> {
    if us == [] then [u] else if Before(u, us[0]) then [u] + us else [us[0]] + Inserted(us[1..], u)
  }

  lemma {:induction false} InsertedFacts(us: seq<Usage>, u: Usage)
    requires Ranked(us) && u !in us
    ensures Ranked(Inserted(us, u)) && Total(Inserted(us, u)) == Total(us) - u.negativeSize
    ensures forall x :: x in Inserted(us, u) <==> x in us || x == u
  {
    if us != [] && !Before(u, us[0]) {
      assert us[0] in us && Before(us[0], u);
      InsertedFacts(us[1..], u);
      var rest := Inserted(us[1..], u);
      forall i | 0 <= i < |rest| ensures Before(us[0], rest[i]) {
        assert rest[i] in rest;
      }
      assert ([us[0]] + rest)[1..] == rest;
    } else {
      assert ([u] + us)[1..] == us;
    }
  }

  function Sorted(us: seq<Usage>): seq<Usage>
    decreases |us|
  {
    if us == [] then [] else Inserted(Sorted(us[..|us| - 1]), us[|us| - 1])
  }

  predicate NoRepeats(us: seq<Usage>) {
    forall i, j | 0 <= i < j < |us| :: us[i] != us[j]
  }

  lemma {:induction false} TotalOfLonger(us: seq<Usage>, u: Usage)
    ensures Total(us + [u]) == Total(us) - u.negativeSize
  {
    if us == [] {
      assert us + [u] == [u];
    } else {
      TotalOfLonger(us[1..], u);
      assert (us + [u])[1..] == us[1..] + [u];
    }
  }

  lemma {:induction false} SortedFacts(us: seq<Usage>)
    requires NoRepeats(us)
    ensures Ranked(Sorted(us)) && Total(Sorted(us)) == Total(us)
    ensures forall u :: u in Sorted(us) <==> u in us
    decreases |us|
  {
    if us != [] {
      var init, last := us[..|us| - 1], us[|us| - 1];
      SortedFacts(init);
      InsertedFacts(Sorted(init), last);
      assert us == init + [last];
      TotalOfLonger(init, last);
    }
  }

  /** usage.sort(). */
  method SortUsage(us: seq<Usage>) returns (ranked: seq<Usage>)
    requires NoRepeats(us)
    ensures ranked == Sorted(us)
  {
    ranked := [];
    for i := 0 to |us|
      invariant ranked == Sorted(us[..i])
    {
      assert us[..i + 1][..i] == us[..i];
      ranked := Inserted(ranked, us[i]);
    }
    assert us[..|us|] == us;
  }

  /** The removal loop of cleanup(): from the front, while more than one is left and they do not fit. */
  method GiveUp(ranked: seq<Usage>, actualSize: int, desired: int) returns (expire: set<CacheId>)
    requires actualSize == Total(ranked)
    ensures expire == IdsOf(ranked[..EvictCount(ranked, desired)])
  {
    var usage := ranked;
    var sizeToDelete := 0;
    ghost var n := 0;
    expire := {};
    while |usage| > 1 && actualSize - sizeToDelete > desired
      invariant n <= |ranked| && usage == ranked[n..]
      invariant actualSize - sizeToDelete == Total(usage)
      invariant n + EvictCount(usage, desired) == EvictCount(ranked, desired)
      invariant expire == IdsOf(ranked[..n])
      decreases |usage|
    {
      expire := expire + {usage[0].id};
      assert ranked[..n + 1] == ranked[..n] + [usage[0]];
      sizeToDelete := sizeToDelete - usage[0].negativeSize;
      usage := usage[1..];
      n := n + 1;
    }
  }
}
