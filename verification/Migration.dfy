// Planning and running document migrations: the shortest chain of registered steps between two versions.

module Migration {
  import opened Wrappers

  // The steps registered for one document type, by the versions they lead from and to.
  type Registry<M> = map<(int, int), M>

  // ---------------------------------------------------------------- itertools.combinations

  function Prefixed(x: int, cs: seq<seq<int>>): (r: seq<seq<int>>)
    ensures |r| == |cs| && forall i | 0 <= i < |cs| :: r[i] == [x] + cs[i]
  {
    seq(|cs|, i requires 0 <= i < |cs| => [x] + cs[i])
  }

  // The combinations of n of the versions lo, lo + 1, .., hi - 1, in the order they are generated.
  function Combinations(lo: int, hi: int, n: nat): seq<seq<int>>
    decreases hi - lo
  {
    if n == 0 then [[]]
    else if lo >= hi then []
    else Prefixed(lo, Combinations(lo + 1, hi, n - 1)) + Combinations(lo + 1, hi, n)
  }

  predicate Increasing(s: seq<int>) {
    forall i, j | 0 <= i < j < |s| :: s[i] < s[j]
  }

  predicate Between(s: seq<int>, lo: int, hi: int) {
    forall i | 0 <= i < |s| :: lo <= s[i] < hi
  }

  predicate LexLess(a: seq<int>, b: seq<int>) {
    if a == [] || b == [] then a == [] && b != []
    else a[0] < b[0] || (a[0] == b[0] && LexLess(a[1..], b[1..]))
  }

  lemma LexPrefixed(x: int, a: seq<int>, b: seq<int>)
    ensures LexLess([x] + a, [x] + b) <==> LexLess(a, b)
  {
    assert ([x] + a)[1..] == a && ([x] + b)[1..] == b;
  }

  predicate IsChoice(s: seq<int>, lo: int, hi: int, n: nat) {
    |s| == n && Increasing(s) && Between(s, lo, hi)
  }

  ghost predicate AllChoices(cs: seq<seq<int>>, lo: int, hi: int, n: nat) {
    forall k | 0 <= k < |cs| :: IsChoice(cs[k], lo, hi, n)
  }

  lemma {:induction false} CombinationsSound(lo: int, hi: int, n: nat)
    ensures AllChoices(Combinations(lo, hi, n), lo, hi, n)
    decreases hi - lo
  {
    if n > 0 && lo < hi {
      CombinationsSound(lo + 1, hi, n - 1);
      CombinationsSound(lo + 1, hi, n);
    }
  }

  lemma {:induction false} CombinationsComplete(lo: int, hi: int, s: seq<int>)
    requires Increasing(s) && Between(s, lo, hi)
    ensures s in Combinations(lo, hi, |s|)
    decreases hi - lo
  {
    if s != [] {
      if s[0] == lo {
        var tail := s[1..];
        CombinationsComplete(lo + 1, hi, tail);
        WithHead(lo, hi, s, tail);
      } else {
        CombinationsComplete(lo + 1, hi, s);
      }
    }
  }

  lemma WithHead(lo: int, hi: int, s: seq<int>, tail: seq<int>)
    requires s == [lo] + tail && lo < hi && tail in Combinations(lo + 1, hi, |tail|)
    ensures s in Combinations(lo, hi, |s|)
  {
  }

  ghost predicate Ordered(cs: seq<seq<int>>) {
    forall i, j | 0 <= i < j < |cs| :: LexLess(cs[i], cs[j])
  }

  lemma {:induction false} CombinationsInOrder(lo: int, hi: int, n: nat)
    ensures Ordered(Combinations(lo, hi, n))
    decreases hi - lo
  {
    if n > 0 && lo < hi {
      CombinationsInOrder(lo + 1, hi, n - 1);
      CombinationsInOrder(lo + 1, hi, n);
      var rest := Combinations(lo + 1, hi, n);
      CombinationsSound(lo + 1, hi, n);
      forall j | 0 <= j < |rest| ensures rest[j] != [] && lo < rest[j][0] {
        assert IsChoice(rest[j], lo + 1, hi, n);
      }
    }
  }

  // ---------------------------------------------------------------- chains

  // Each step between neighbours is registered.
  predicate Registered<M>(registry: Registry<M>, path: seq<int>) {
    forall i | 0 <= i < |path| - 1 :: (path[i], path[i + 1]) in registry
  }

  // Versions from source to target, each step of which is registered and leads upwards.
  predicate IsChain<M>(registry: Registry<M>, path: seq<int>, source: int, target: int) {
    && |path| >= 2 && path[0] == source && path[|path| - 1] == target
    && Increasing(path) && Registered(registry, path)
  }

  function Path(source: int, division: seq<int>, target: int): seq<int> {
    [source] + division + [target]
  }

  function StepsOf<M>(registry: Registry<M>, path: seq<int>): (ms: seq<M>)
    requires |path| > 0 && Registered(registry, path)
    ensures |ms| == |path| - 1
    ensures forall i | 0 <= i < |ms| :: ms[i] == registry[(path[i], path[i + 1])]
  {
    seq(|path| - 1, i requires 0 <= i < |path| - 1 => registry[(path[i], path[i + 1])])
  }

  // Every chain has a division between its ends, found among the combinations of its length.
  lemma ChainIsEnumerated<M>(registry: Registry<M>, path: seq<int>, source: int, target: int) returns (k: nat)
    requires IsChain(registry, path, source, target)
    ensures source < target && |path| - 2 < target - source
    ensures k < |Combinations(source + 1, target, |path| - 2)|
    ensures path == Path(source, Combinations(source + 1, target, |path| - 2)[k], target)
  {
    var division := Interior(path, source, target);
    CombinationsComplete(source + 1, target, division);
    RoomFor(division, source + 1, target);
    var divisions := Combinations(source + 1, target, |division|);
    k :| 0 <= k < |divisions| && divisions[k] == division;
  }

  // The versions between the ends of a rising path.
  lemma Interior(path: seq<int>, source: int, target: int) returns (division: seq<int>)
    requires |path| >= 2 && path[0] == source && path[|path| - 1] == target && Increasing(path)
    ensures path == Path(source, division, target) && |division| == |path| - 2 && source < target
    ensures Increasing(division) && Between(division, source + 1, target)
  {
    division := path[1..|path| - 1];
    forall i | 0 <= i < |division| ensures division[i] == path[i + 1] {}
  }

  lemma {:induction false} RoomFor(s: seq<int>, lo: int, hi: int)
    requires Increasing(s) && Between(s, lo, hi) && lo <= hi
    ensures |s| <= hi - lo
    decreases |s|
  {
    if s != [] {
      RoomFor(s[1..], s[0] + 1, hi);
    }
  }

  lemma PathIncreases(source: int, division: seq<int>, target: int)
    requires source < target && Increasing(division) && Between(division, source + 1, target)
    ensures Increasing(Path(source, division, target))
  {
  }

  // The inner loop: the steps along one division, or none if one of them is not registered.
  method TryDivision<M>(registry: Registry<M>, source: int, division: seq<int>, target: int)
    returns (plan: Option<seq<M>>)
    ensures plan.Some? <==> Registered(registry, Path(source, division, target))
    ensures plan.Some? ==> plan.value == StepsOf(registry, Path(source, division, target))
  {
    ghost var path := Path(source, division, target);
    var s := source;
    var migrations: seq<M> := [];
    for i := 0 to |division|
      invariant s == path[i]
      invariant |migrations| == i
      invariant forall j | 0 <= j < i ::
                  (path[j], path[j + 1]) in registry && migrations[j] == registry[(path[j], path[j + 1])]
    {
      assert path[i + 1] == division[i];
      if (s, division[i]) !in registry {
        assert (path[i], path[i + 1]) !in registry;
        return None;
      }
      migrations := migrations + [registry[(s, division[i])]];
      s := division[i];
    }
    assert path[|division| + 1] == target;
    if (s, target) !in registry {
      assert (path[|division|], path[|division| + 1]) !in registry;
      return None;
    }
    return Some(migrations + [registry[(s, target)]]);
  }

  // The plan of the best chain: the fewest steps, and among those the lowest versions first.
  ghost predicate IsBest<M>(registry: Registry<M>, path: seq<int>, source: int, target: int) {
    && IsChain(registry, path, source, target)
    && forall q | IsChain(registry, q, source, target) ::
         |path| <= |q| && (|q| == |path| ==> q == path || LexLess(path[1..|path| - 1], q[1..|q| - 1]))
  }

  ghost predicate Among(q: seq<int>, divisions: seq<seq<int>>, k: nat, source: int, target: int) {
    exists j :: k <= j < |divisions| && q == Path(source, divisions[j], target)
  }

  // No chain is among the divisions tried so far: all shorter ones, and the first k with n versions between.
  ghost predicate NoneBefore<M>(registry: Registry<M>, source: int, target: int, n: nat, k: nat) {
    forall q | IsChain(registry, q, source, target) ::
      |q| - 2 >= n && (|q| - 2 == n ==> Among(q, Combinations(source + 1, target, n), k, source, target))
  }

  ghost predicate NoneShorter<M>(registry: Registry<M>, source: int, target: int, n: nat) {
    forall q | IsChain(registry, q, source, target) :: |q| - 2 >= n
  }

  lemma NoneYet<M>(registry: Registry<M>, source: int, target: int, n: nat)
    requires NoneShorter(registry, source, target, n)
    ensures NoneBefore(registry, source, target, n, 0)
  {
    forall q | IsChain(registry, q, source, target) && |q| - 2 == n
      ensures Among(q, Combinations(source + 1, target, n), 0, source, target)
    {
      ChainIsAmong(registry, q, source, target);
    }
  }

  lemma ChainIsAmong<M>(registry: Registry<M>, q: seq<int>, source: int, target: int)
    requires IsChain(registry, q, source, target)
    ensures Among(q, Combinations(source + 1, target, |q| - 2), 0, source, target)
  {
    var j := ChainIsEnumerated(registry, q, source, target);
  }

  lemma AmongLater(q: seq<int>, divisions: seq<seq<int>>, k: nat, source: int, target: int)
    requires Among(q, divisions, k, source, target) && k < |divisions| && q != Path(source, divisions[k], target)
    ensures Among(q, divisions, k + 1, source, target)
  {
  }

  lemma NotThisOne<M>(registry: Registry<M>, source: int, target: int, n: nat, k: nat)
    requires NoneBefore(registry, source, target, n, k) && k < |Combinations(source + 1, target, n)|
    requires !Registered(registry, Path(source, Combinations(source + 1, target, n)[k], target))
    ensures NoneBefore(registry, source, target, n, k + 1)
  {
    var divisions := Combinations(source + 1, target, n);
    forall q | IsChain(registry, q, source, target) && |q| - 2 == n
      ensures Among(q, divisions, k + 1, source, target)
    {
      AmongLater(q, divisions, k, source, target);
    }
  }

  lemma NoneOfLength<M>(registry: Registry<M>, source: int, target: int, n: nat)
    requires NoneBefore(registry, source, target, n, |Combinations(source + 1, target, n)|)
    ensures NoneShorter(registry, source, target, n + 1)
  {
  }

  // A division before another yields the lower of two paths of the same length.
  lemma EarlierIsLower(source: int, target: int, n: nat, k: nat, j: nat)
    requires k < j < |Combinations(source + 1, target, n)|
    ensures var path, q := Path(source, Combinations(source + 1, target, n)[k], target),
                           Path(source, Combinations(source + 1, target, n)[j], target);
            LexLess(path[1..|path| - 1], q[1..|q| - 1])
  {
    var cs := Combinations(source + 1, target, n);
    CombinationsInOrder(source + 1, target, n);
    assert Path(source, cs[k], target)[1..|cs[k]| + 1] == cs[k];
    assert Path(source, cs[j], target)[1..|cs[j]| + 1] == cs[j];
  }

  lemma DivisionIsChain<M>(registry: Registry<M>, source: int, target: int, n: nat, k: nat)
    requires source < target && k < |Combinations(source + 1, target, n)|
    requires Registered(registry, Path(source, Combinations(source + 1, target, n)[k], target))
    ensures IsChain(registry, Path(source, Combinations(source + 1, target, n)[k], target), source, target)
    ensures |Combinations(source + 1, target, n)[k]| == n
  {
    CombinationsSound(source + 1, target, n);
    assert IsChoice(Combinations(source + 1, target, n)[k], source + 1, target, n);
    PathIncreases(source, Combinations(source + 1, target, n)[k], target);
  }

  lemma {:induction false} FirstIsBest<M>(registry: Registry<M>, source: int, target: int, n: nat, k: nat)
    requires source < target && NoneBefore(registry, source, target, n, k) && k < |Combinations(source + 1, target, n)|
    requires Registered(registry, Path(source, Combinations(source + 1, target, n)[k], target))
    ensures IsBest(registry, Path(source, Combinations(source + 1, target, n)[k], target), source, target)
  {
    var divisions := Combinations(source + 1, target, n);
    var path := Path(source, divisions[k], target);
    DivisionIsChain(registry, source, target, n, k);
    forall q | IsChain(registry, q, source, target) && |q| == |path| && q != path
      ensures LexLess(path[1..|path| - 1], q[1..|q| - 1])
    {
      assert Among(q, divisions, k, source, target);
      var j :| k <= j < |divisions| && q == Path(source, divisions[j], target);
      EarlierIsLower(source, target, n, k, j);
    }
  }

  ghost predicate NoChain<M>(registry: Registry<M>, source: int, target: int) {
    forall q :: !IsChain(registry, q, source, target)
  }

  ghost predicate IsPlan<M>(registry: Registry<M>, source: int, target: int, plan: seq<M>) {
    exists path :: IsBest(registry, path, source, target) && plan == StepsOf(registry, path)
  }

  lemma PlanMeansChain<M>(registry: Registry<M>, source: int, target: int, plan: seq<M>)
    requires IsPlan(registry, source, target, plan)
    ensures !NoChain(registry, source, target)
  {
    var path :| IsBest(registry, path, source, target) && plan == StepsOf(registry, path);
    assert IsChain(registry, path, source, target);
  }

  /** plan_migration: all divisions by their number of versions, the first one with all steps registered.
      None stands for NotMigratable. */
  method PlanMigration<M>(registry: Registry<M>, source: int, target: int) returns (plan: Option<seq<M>>)
    ensures plan.None? <==> NoChain(registry, source, target)
    ensures plan.Some? ==> IsPlan(registry, source, target, plan.value)
  {
    NothingShorter(registry, source, target);
    for n := 0 to if source < target then target - source else 0
      invariant NoneShorter(registry, source, target, n)
    {
      plan := TryDivisions(registry, source, target, n);
      if plan.Some? {
        PlanMeansChain(registry, source, target, plan.value);
        return;
      }
    }
    NoneLonger(registry, source, target);
    return None;
  }

  // All divisions with n versions between.
  method TryDivisions<M>(registry: Registry<M>, source: int, target: int, n: nat) returns (plan: Option<seq<M>>)
    requires source < target && NoneShorter(registry, source, target, n)
    ensures plan.None? ==> NoneShorter(registry, source, target, n + 1)
    ensures plan.Some? ==> IsPlan(registry, source, target, plan.value)
  {
    var divisions := Combinations(source + 1, target, n);
    NoneYet(registry, source, target, n);
    for k := 0 to |divisions|
      invariant NoneBefore(registry, source, target, n, k)
    {
      plan := TryDivision(registry, source, divisions[k], target);
      if plan.Some? {
        FirstIsBest(registry, source, target, n, k);
        return;
      }
      NotThisOne(registry, source, target, n, k);
    }
    NoneOfLength(registry, source, target, n);
    return None;
  }

  lemma NothingShorter<M>(registry: Registry<M>, source: int, target: int)
    ensures NoneShorter(registry, source, target, 0)
  {
  }

  lemma NoneLonger<M>(registry: Registry<M>, source: int, target: int)
    requires source < target ==> NoneShorter(registry, source, target, target - source)
    ensures NoChain(registry, source, target)
  {
    forall q | IsChain(registry, q, source, target) ensures source < target && |q| - 2 < target - source {
      var k := ChainIsEnumerated(registry, q, source, target);
    }
  }

  /** At most one chain is best, so the plan is determined by the registry. */
  lemma BestIsUnique<M>(registry: Registry<M>, a: seq<int>, b: seq<int>, source: int, target: int)
    requires IsBest(registry, a, source, target) && IsBest(registry, b, source, target)
    ensures a == b
  {
    if a != b {
      LexAsymmetric(a[1..|a| - 1], b[1..|b| - 1]);
    }
  }

  lemma {:induction false} LexAsymmetric(a: seq<int>, b: seq<int>)
    ensures !(LexLess(a, b) && LexLess(b, a))
    decreases |a|
  {
    if a != [] && b != [] && a[0] == b[0] {
      LexAsymmetric(a[1..], b[1..]);
    }
  }

  // ---------------------------------------------------------------- running a plan

  // A document on its way: its body, the contexts left for the asynchronous hooks, and the mark set in the end.
  datatype Snapshot<M, S, C> = Snapshot(body: S, actions: seq<(M, C)>, hasMigrated: bool)

  // What a step's hook makes of a snapshot: nothing usable, or a snapshot and maybe a context for later.
  type Hook<!M, !S, !C> = (M, Snapshot<M, S, C>) -> Option<(Snapshot<M, S, C>, Option<C>)>

  // A context joins those in the snapshot that the hook returned.
  function WithContext<M, S, C>(m: M, res: (Snapshot<M, S, C>, Option<C>)): Snapshot<M, S, C> {
    if res.1.Some? then res.0.(actions := res.0.actions + [(m, res.1.value)]) else res.0
  }

  function Run<M, S, C>(hook: Hook<M, S, C>, plan: seq<M>, start: Snapshot<M, S, C>): Option<Snapshot<M, S, C>>
    decreases |plan|
  {
    if plan == [] then Some(start)
    else
      var last := plan[|plan| - 1];
      var before := Run(hook, plan[..|plan| - 1], start);
      if before.None? then None
      else
        var res := hook(last, before.value);
        if res.None? then None else Some(WithContext(last, res.value))
  }

  /** adapt_version: the snapshot goes through the planned steps and is marked as migrated. */
  method AdaptVersion<M, S, C>(registry: Registry<M>, hook: Hook<M, S, C>, start: Snapshot<M, S, C>,
                               source: int, target: int)
    returns (result: Option<Snapshot<M, S, C>>)
    ensures NoChain(registry, source, target) ==> result == None
    ensures forall path | IsBest(registry, path, source, target) ::
              var r := Run(hook, StepsOf(registry, path), start);
              && (result.Some? <==> r.Some?)
              && (r.Some? ==> result == Some(Snapshot(r.value.body, r.value.actions, true)))
  {
    var plan := PlanMigration(registry, source, target);
    if plan.None? {
      return None;
    }
    PlanMeansChain(registry, source, target, plan.value);
    ghost var path :| IsBest(registry, path, source, target) && plan.value == StepsOf(registry, path);
    result := RunPlan(hook, plan.value, start);
    if result.Some? {
      result := Some(result.value.(hasMigrated := true));
    }
    forall q | IsBest(registry, q, source, target) ensures q == path {
      BestIsUnique(registry, q, path, source, target);
    }
  }

  method RunPlan<M, S, C>(hook: Hook<M, S, C>, plan: seq<M>, start: Snapshot<M, S, C>)
    returns (result: Option<Snapshot<M, S, C>>)
    ensures result == Run(hook, plan, start)
  {
    var snapshot := start;
    for i := 0 to |plan|
      invariant Run(hook, plan[..i], start) == Some(snapshot)
    {
      assert plan[..i + 1][..i] == plan[..i];
      var res := hook(plan[i], snapshot);
      if res.None? {
        FailsOn(hook, plan, start, i + 1);
        return None;
      }
      snapshot := res.value.0;
      if res.value.1.Some? {
        snapshot := snapshot.(actions := snapshot.actions + [(plan[i], res.value.1.value)]);
      }
    }
    assert plan[..|plan|] == plan;
    result := Some(snapshot);
  }

  lemma {:induction false} FailsOn<M, S, C>(hook: Hook<M, S, C>, plan: seq<M>, start: Snapshot<M, S, C>, i: nat)
    requires i <= |plan| && Run(hook, plan[..i], start) == None
    ensures Run(hook, plan, start) == None
    decreases |plan| - i
  {
    if i < |plan| {
      assert plan[..i + 1][..i] == plan[..i];
      FailsOn(hook, plan, start, i + 1);
    } else {
      assert plan[..i] == plan;
    }
  }

  // Each registered step turns a snapshot of the version it leads from into one of the version it leads to.
  ghost predicate HooksFit<M(!new), S(!new), C(!new)>(registry: Registry<M>, hook: Hook<M, S, C>, versionOf: S -> int) {
    forall p, s: Snapshot<M, S, C> | p in registry && versionOf(s.body) == p.0 ::
      Delivers(hook, registry[p], s, versionOf, p.1)
  }

  ghost predicate Delivers<M, S, C>(hook: Hook<M, S, C>, m: M, s: Snapshot<M, S, C>, versionOf: S -> int,
                                    version: int) {
    var res := hook(m, s);
    res.Some? && versionOf(res.value.0.body) == version
  }

  /** Running the steps of any chain takes a snapshot of the source version to one of the target version:
      each hook is only ever given a snapshot of the version it was written for. */
  lemma {:induction false} MigrationReachesTarget<M(!new), S(!new), C(!new)>(
      registry: Registry<M>, hook: Hook<M, S, C>, versionOf: S -> int, path: seq<int>, start: Snapshot<M, S, C>)
    requires HooksFit(registry, hook, versionOf)
    requires |path| > 0 && Registered(registry, path) && versionOf(start.body) == path[0]
    ensures var r := Run(hook, StepsOf(registry, path), start);
            r.Some? && versionOf(r.value.body) == path[|path| - 1]
    decreases |path|
  {
    if |path| > 1 {
      var n := |path| - 1;
      MigrationReachesTarget(registry, hook, versionOf, path[..n], start);
      assert StepsOf(registry, path)[..n - 1] == StepsOf(registry, path[..n]);
      var p := (path[n - 1], path[n]);
      var before := Run(hook, StepsOf(registry, path[..n]), start).value;
      assert p in registry && versionOf(before.body) == p.0;
      assert Delivers(hook, registry[p], before, versionOf, p.1);
    }
  }

  // ---------------------------------------------------------------- contexts left on the way

  // The contexts the steps of a plan return, in order.
  function Contexts<M, S, C>(hook: Hook<M, S, C>, plan: seq<M>, start: Snapshot<M, S, C>): seq<(M, C)>
    decreases |plan|
  {
    if plan == [] then []
    else
      var n := |plan| - 1;
      var before := Run(hook, plan[..n], start);
      var res := if before.None? then None else hook(plan[n], before.value);
      Contexts(hook, plan[..n], start)
      + if res.Some? && res.value.1.Some? then [(plan[n], res.value.1.value)] else []
  }

  // A run along the plan ends with the contexts of all its steps.
  predicate KeepsContexts<M(==), S, C(==)>(hook: Hook<M, S, C>, plan: seq<M>, start: Snapshot<M, S, C>) {
    var r := Run(hook, plan, start);
    r.Some? ==> r.value.actions == start.actions + Contexts(hook, plan, start)
  }

  // The snapshot a hook returns has the contexts of the one it was given.
  predicate PassesOn<M(==), S, C(==)>(hook: Hook<M, S, C>, m: M, s: Snapshot<M, S, C>) {
    hook(m, s).Some? ==> hook(m, s).value.0.actions == s.actions
  }

  /** The contexts wait in the snapshot itself, which is the hooks' to replace: all of them are kept, along every
      plan, if and only if every hook passes on those it is given. */
  lemma ContextsAreKept<M(!new), S(!new), C(!new)>(hook: Hook<M, S, C>)
    ensures (forall plan, start: Snapshot<M, S, C> :: KeepsContexts(hook, plan, start))
            <==> forall m, s: Snapshot<M, S, C> :: PassesOn(hook, m, s)
  {
    if forall m, s: Snapshot<M, S, C> :: PassesOn(hook, m, s) {
      forall plan, start: Snapshot<M, S, C> ensures KeepsContexts(hook, plan, start) {
        KeptAlong(hook, plan, start);
      }
    } else {
      var m, s :| !PassesOn(hook, m, s);
      LostAtOnce(hook, m, s);
    }
  }

  lemma {:induction false} KeptAlong<M(!new), S(!new), C(!new)>(
      hook: Hook<M, S, C>, plan: seq<M>, start: Snapshot<M, S, C>)
    requires forall m, s: Snapshot<M, S, C> :: PassesOn(hook, m, s)
    ensures KeepsContexts(hook, plan, start)
    decreases |plan|
  {
    if plan != [] {
      var n := |plan| - 1;
      KeptAlong(hook, plan[..n], start);
      var before := Run(hook, plan[..n], start);
      if before.Some? {
        assert PassesOn(hook, plan[n], before.value);
      }
    }
  }

  lemma LostAtOnce<M, S, C>(hook: Hook<M, S, C>, m: M, s: Snapshot<M, S, C>)
    requires !PassesOn(hook, m, s)
    ensures !KeepsContexts(hook, [m], s)
  {
    assert [m][..0] == [];
    assert Run(hook, [], s) == Some(s);
    assert Contexts(hook, [], s) == [];
    var res := hook(m, s).value;
    if res.1.Some? {
      var last := (m, res.1.value);
      assert res.0.actions + [last] != s.actions + [last] by {
        assert (res.0.actions + [last])[..|res.0.actions|] == res.0.actions;
        assert (s.actions + [last])[..|s.actions|] == s.actions;
      }
    }
  }

  // A second step that builds a new snapshot: the context of the first one is gone.
  function Rebuilding(m: nat, s: Snapshot<nat, int, nat>): Option<(Snapshot<nat, int, nat>, Option<nat>)> {
    if m == 0 then Some((s.(body := s.body + 1), Some(7))) else Some((Snapshot(s.body + 1, [], false), None))
  }

  /** The failing input: the first of two steps leaves a context, and no asynchronous hook is run for it. */
  lemma ContextIsLost()
    ensures var start: Snapshot<nat, int, nat> := Snapshot(1, [], false);
      && Run(Rebuilding, [0], start) == Some(Snapshot(2, [(0, 7)], false))
      && Run(Rebuilding, [0, 1], start) == Some(Snapshot(3, [], false))
      && Contexts(Rebuilding, [0, 1], start) == [(0, 7)]
  {
    var start: Snapshot<nat, int, nat> := Snapshot(1, [], false);
    assert [0][..0] == [] && [0, 1][..1] == [0];
    assert Run(Rebuilding, [], start) == Some(start);
    var one: seq<nat> := [0];
    assert one[..0] == [] && one[0] == 0;
    assert Rebuilding(0, start) == Some((Snapshot(2, [], false), Some(7)));
    assert WithContext(0, (start.(body := 2), Some(7))) == Snapshot(2, [(0, 7)], false);
    assert Run(Rebuilding, one, start) == Some(Snapshot(2, [(0, 7)], false));
    assert Contexts(Rebuilding, [0], start) == [(0, 7)];
  }
}
