// Solving a conflict between revisions of one document: the common ancestor of the conflicting
// revisions in the forest of update logs, and the replay of the logged updates on top of it.

module Conflicts {
  import opened Wrappers
  import opened EmuDatabase
  import Update

  // An update log: the revision an update started from (None for a creation), the one it made, when, and
  // what it did. A merge keeps the logs it replayed.
  datatype Log = Log(revFrom: Option<Rev>, revTo: Rev, timestamp: int, handler: Handler)
  datatype Handler = Change(op: nat) | Merge(logs: seq<Log>)

  type Lookup = map<Rev, Log>

  ghost predicate WellFormed(lookup: Lookup) {
    forall r | r in lookup :: lookup[r].revTo == r
  }

  // The logs link no revision to itself, however long the way; `rank` orders them from old to new.
  ghost predicate Acyclic(lookup: Lookup, rank: Rev -> nat) {
    forall r | r in lookup && lookup[r].revFrom.Some? :: rank(lookup[r].revFrom.value) < rank(r)
  }

  function Parent(lookup: Lookup, r: Rev): Option<Rev> {
    if r in lookup then lookup[r].revFrom else None
  }

  // A revision and all those it came from, the oldest first.
  ghost function History(lookup: Lookup, rank: Rev -> nat, r: Rev): (h: seq<Rev>)
    requires Acyclic(lookup, rank)
    ensures |h| > 0 && h[|h| - 1] == r
    decreases rank(r)
  {
    match Parent(lookup, r)
    case None => [r]
    case Some(p) => History(lookup, rank, p) + [r]
  }

  // ---------------------------------------------------------------- common ancestors

  ghost predicate IsCommon(lookup: Lookup, rank: Rev -> nat, revs: seq<Rev>, a: Rev)
    requires Acyclic(lookup, rank)
  {
    forall r | r in revs :: a in History(lookup, rank, r)
  }

  // Every other common ancestor is an ancestor of `a`.
  ghost predicate IsDeepestCommon(lookup: Lookup, rank: Rev -> nat, revs: seq<Rev>, a: Rev)
    requires Acyclic(lookup, rank)
  {
    && IsCommon(lookup, rank, revs, a)
    && forall b | IsCommon(lookup, rank, revs, b) :: b in History(lookup, rank, a)
  }

  lemma {:induction false} HistoryRanks(lookup: Lookup, rank: Rev -> nat, r: Rev, a: Rev)
    requires Acyclic(lookup, rank) && a in History(lookup, rank, r)
    ensures rank(a) <= rank(r)
    ensures rank(a) == rank(r) ==> a == r
    decreases rank(r)
  {
    var p := Parent(lookup, r);
    if p.Some? && a != r {
      HistoryRanks(lookup, rank, p.value, a);
    }
  }

  // The history of an ancestor is the first part of the history of its descendant.
  lemma {:induction false} HistoryIsPrefix(lookup: Lookup, rank: Rev -> nat, r: Rev, k: nat)
    requires Acyclic(lookup, rank) && k < |History(lookup, rank, r)|
    ensures History(lookup, rank, History(lookup, rank, r)[k]) == History(lookup, rank, r)[..k + 1]
    decreases rank(r)
  {
    var h := History(lookup, rank, r);
    var p := Parent(lookup, r);
    if p.Some? && k < |h| - 1 {
      HistoryIsPrefix(lookup, rank, p.value, k);
      assert h[..k + 1] == History(lookup, rank, p.value)[..k + 1];
    } else {
      assert h[..k + 1] == h;
    }
  }

  /** The deepest common ancestor is unique, and so does not depend on the branch that is tried first. */
  lemma DeepestIsUnique(lookup: Lookup, rank: Rev -> nat, revs: seq<Rev>, revs': seq<Rev>, a: Rev, b: Rev)
    requires Acyclic(lookup, rank)
    requires forall r :: r in revs <==> r in revs'
    requires IsDeepestCommon(lookup, rank, revs, a) && IsDeepestCommon(lookup, rank, revs', b)
    ensures a == b
  {
    assert IsCommon(lookup, rank, revs, b);
    assert IsCommon(lookup, rank, revs', a);
    HistoryRanks(lookup, rank, a, b);
    HistoryRanks(lookup, rank, b, a);
  }

  // The inner loop of the search: the history of one revision, extended at its front.
  method BuildHistory(lookup: Lookup, ghost rank: Rev -> nat, rev: Rev) returns (h: seq<Rev>)
    requires Acyclic(lookup, rank)
    ensures h == History(lookup, rank, rev)
  {
    h := [];
    var revFrom := rev;
    while true
      invariant History(lookup, rank, revFrom) + h == History(lookup, rank, rev)
      decreases rank(revFrom)
    {
      h := [revFrom] + h;
      if revFrom !in lookup { return; }
      var log := lookup[revFrom];
      if log.revFrom.None? { return; }
      revFrom := log.revFrom.value;
    }
  }

  /** `first` is the branch whose candidates are tried, whichever the dictionary lists first. */
  method FindCommonAncestor(lookup: Lookup, ghost rank: Rev -> nat, revs: seq<Rev>, first: nat)
    returns (found: Option<Rev>)
    requires Acyclic(lookup, rank) && first < |revs|
    ensures found.Some? ==> IsDeepestCommon(lookup, rank, revs, found.value)
    ensures found.None? ==> forall a :: !IsCommon(lookup, rank, revs, a)
  {
    var history: seq<seq<Rev>> := [];
    for i := 0 to |revs|
      invariant |history| == i
      invariant forall j | 0 <= j < i :: history[j] == History(lookup, rank, revs[j])
    {
      var h := BuildHistory(lookup, rank, revs[i]);
      history := history + [h];
    }
    var branch := history[first];
    var k := |branch|;
    while k > 0
      invariant 0 <= k <= |branch|
      invariant forall j | k <= j < |branch| :: !IsCommon(lookup, rank, revs, branch[j])
    {
      k := k - 1;
      if forall i | 0 <= i < |history| :: branch[k] in history[i] {
        assert IsCommon(lookup, rank, revs, branch[k]);
        forall b | IsCommon(lookup, rank, revs, b) ensures b in History(lookup, rank, branch[k]) {
          assert b in branch;
          HistoryIsPrefix(lookup, rank, revs[first], k);
        }
        return Some(branch[k]);
      }
    }
    return None;
  }

  // ---------------------------------------------------------------- the logs between two revisions

  // Logs of the lookup, each starting where the one before it ended.
  predicate IsPath(lookup: Lookup, fromRev: Rev, toRev: Rev, path: seq<Log>) {
    && |path| > 0
    && path[0].revFrom == Some(fromRev) && path[|path| - 1].revTo == toRev
    && (forall i | 0 <= i < |path| :: path[i].revTo in lookup && lookup[path[i].revTo] == path[i])
    && (forall i | 0 <= i < |path| - 1 :: path[i + 1].revFrom == Some(path[i].revTo))
  }

  lemma {:induction false} PathIsUnique(lookup: Lookup, rank: Rev -> nat, fromRev: Rev, toRev: Rev, path: seq<Log>,
                                        path': seq<Log>)
    requires Acyclic(lookup, rank)
    requires IsPath(lookup, fromRev, toRev, path) && IsPath(lookup, fromRev, toRev, path')
    ensures path == path'
    decreases |path|
  {
    var n, n' := |path| - 1, |path'| - 1;
    assert path[n] == lookup[toRev] == path'[n'];
    if n == 0 && n' > 0 {
      PathRanks(lookup, rank, path', n' - 1);
    } else if n' == 0 && n > 0 {
      PathRanks(lookup, rank, path, n - 1);
    } else if n > 0 {
      assert path[n - 1 + 1].revFrom == Some(path[n - 1].revTo)
             && path'[n' - 1 + 1].revFrom == Some(path'[n' - 1].revTo);
      PathIsUnique(lookup, rank, fromRev, path[n - 1].revTo, path[..n], path'[..n']);
      assert path == path[..n] + [path[n]] && path' == path'[..n'] + [path'[n']];
    }
  }

  lemma {:induction false} PathRanks(lookup: Lookup, rank: Rev -> nat, path: seq<Log>, k: nat)
    requires Acyclic(lookup, rank) && k < |path|
    requires path[0].revFrom.Some?
    requires forall i | 0 <= i < |path| :: path[i].revTo in lookup && lookup[path[i].revTo] == path[i]
    requires forall i | 0 <= i < |path| - 1 :: path[i + 1].revFrom == Some(path[i].revTo)
    ensures rank(path[0].revFrom.value) < rank(path[k].revTo)
  {
    if k > 0 {
      PathRanks(lookup, rank, path, k - 1);
    }
  }

  /** Succeeds exactly when `fromRev` is a proper ancestor of `toRev`, and then returns the path between
      them; None stands for the exceptions. */
  method GetLogsBetween(fromRev: Rev, toRev: Rev, lookup: Lookup, ghost rank: Rev -> nat)
    returns (resp: Option<seq<Log>>)
    requires Acyclic(lookup, rank) && WellFormed(lookup)
    ensures resp.Some? <==> fromRev in History(lookup, rank, toRev) && fromRev != toRev
    ensures resp.Some? ==> IsPath(lookup, fromRev, toRev, resp.value)
  {
    var path: seq<Log> := [];
    var rev := toRev;
    while true
      invariant path == [] ==> rev == toRev
      invariant path != [] ==> rev != fromRev && rank(rev) < rank(toRev) && IsPath(lookup, rev, toRev, path)
      invariant fromRev in History(lookup, rank, toRev) && fromRev != toRev
                <==> fromRev in History(lookup, rank, rev) && fromRev != rev
      decreases rank(rev)
    {
      if rev !in lookup { return None; }
      var log := lookup[rev];
      path := [log] + path;
      if log.revFrom.None? { return None; }
      if fromRev in History(lookup, rank, log.revFrom.value) {
        HistoryRanks(lookup, rank, log.revFrom.value, fromRev);
      }
      rev := log.revFrom.value;
      if rev == fromRev { break; }
    }
    resp := Some(path);
  }

  /** The logs leading from a common ancestor to each of the conflicting revisions. The search fails only for
      that ancestor itself. */
  method LogsFromRoot(root: Rev, revs: seq<Rev>, lookup: Lookup, ghost rank: Rev -> nat)
    returns (paths: Option<seq<seq<Log>>>)
    requires Acyclic(lookup, rank) && WellFormed(lookup) && IsCommon(lookup, rank, revs, root)
    ensures paths.Some? <==> root !in revs
    ensures paths.Some? ==>
              |paths.value| == |revs| && forall i | 0 <= i < |revs| :: IsPath(lookup, root, revs[i], paths.value[i])
  {
    var found: seq<seq<Log>> := [];
    for i := 0 to |revs|
      invariant root !in revs[..i] && |found| == i
      invariant forall j | 0 <= j < i :: IsPath(lookup, root, revs[j], found[j])
    {
      assert revs[i] in revs;
      var path := GetLogsBetween(root, revs[i], lookup, rank);
      if path.None? { return None; }
      found := found + [path.value];
    }
    return Some(found);
  }

  // ---------------------------------------------------------------- collecting the logs to replay

  // The logs of the document together with those kept inside merges.
  predicate InExpansion(logs: seq<Log>, l: Log) {
    l in logs || exists m | m in logs && m.handler.Merge? :: l in m.handler.logs
  }

  method ExpandMerges(logs: seq<Log>) returns (all: seq<Log>)
    ensures forall l :: l in all <==> InExpansion(logs, l)
  {
    all := logs;
    for i := 0 to |logs|
      invariant forall l :: l in all <==>
                  l in logs || exists j :: 0 <= j < i && logs[j].handler.Merge? && l in logs[j].handler.logs
    {
      if logs[i].handler.Merge? {
        all := all + logs[i].handler.logs;
      }
    }
    forall l ensures l in all <==> InExpansion(logs, l) {
      if l in all && l !in logs {
        var j :| 0 <= j < |logs| && logs[j].handler.Merge? && l in logs[j].handler.logs;
        assert logs[j] in logs;
      }
    }
  }

  // No revision was made by two different logs.
  ghost predicate UniqueRevTo(logs: seq<Log>) {
    forall l, l' | InExpansion(logs, l) && InExpansion(logs, l') && l.revTo == l'.revTo :: l == l'
  }

  ghost predicate IsLookup(logs: seq<Log>, lookup: Lookup) {
    forall l :: InExpansion(logs, l) <==> l.revTo in lookup && lookup[l.revTo] == l
  }

  method BuildLookup(ghost logs: seq<Log>, all: seq<Log>) returns (lookup: Lookup)
    requires UniqueRevTo(logs) && forall l :: l in all <==> InExpansion(logs, l)
    ensures IsLookup(logs, lookup) && WellFormed(lookup)
  {
    lookup := map[];
    for i := 0 to |all|
      invariant WellFormed(lookup)
      invariant forall r | r in lookup :: lookup[r] in all
      invariant forall j | 0 <= j < i :: all[j].revTo in lookup && lookup[all[j].revTo] == all[j]
    {
      lookup := lookup[all[i].revTo := all[i]];
    }
  }

  // The list of exactly these logs in the order of their timestamps.
  ghost predicate IsTimeline(list: seq<Log>, p: Log -> bool) {
    && (forall i, j | 0 <= i < j < |list| :: list[i].timestamp < list[j].timestamp)
    && (forall l :: l in list <==> p(l))
  }

  lemma {:induction false} TimelineIsUnique(list: seq<Log>, list': seq<Log>)
    requires forall i, j | 0 <= i < j < |list| :: list[i].timestamp < list[j].timestamp
    requires forall i, j | 0 <= i < j < |list'| :: list'[i].timestamp < list'[j].timestamp
    requires forall l :: l in list <==> l in list'
    ensures list == list'
    decreases |list|
  {
    if list == [] {
      assert forall i | 0 <= i < |list'| :: list'[i] in list;
    } else {
      FirstIsFirst(list, list');
      forall l ensures l in list[1..] <==> l in list'[1..] {
        InTail(list, l);
        InTail(list', l);
      }
      TimelineIsUnique(list[1..], list'[1..]);
      assert list == [list[0]] + list[1..];
      assert list' == [list'[0]] + list'[1..];
    }
  }

  lemma FirstIsFirst(list: seq<Log>, list': seq<Log>)
    requires forall i, j | 0 <= i < j < |list| :: list[i].timestamp < list[j].timestamp
    requires forall i, j | 0 <= i < j < |list'| :: list'[i].timestamp < list'[j].timestamp
    requires list != [] && forall l :: l in list <==> l in list'
    ensures list' != [] && list[0] == list'[0]
  {
    assert list[0] in list';
    assert list'[0] in list;
    var i :| 0 <= i < |list| && list[i] == list'[0];
    var j :| 0 <= j < |list'| && list'[j] == list[0];
  }

  lemma InTail(list: seq<Log>, l: Log)
    requires list != [] && forall i, j | 0 <= i < j < |list| :: list[i].timestamp < list[j].timestamp
    ensures l in list[1..] <==> l in list && l != list[0]
  {
    if l in list && l != list[0] {
      var i :| 0 <= i < |list| && list[i] == l;
      assert list[1..][i - 1] == l;
    }
  }

  predicate IsPlain(lookup: Lookup, l: Log) {
    l.revTo in lookup && lookup[l.revTo] == l && !l.handler.Merge?
  }

  ghost predicate DistinctTimes(lookup: Lookup) {
    forall l, l' | IsPlain(lookup, l) && IsPlain(lookup, l') && l.timestamp == l'.timestamp :: l == l'
  }

  // The plain logs of the lookup, in whatever order it lists them, sorted as they come.
  method SortPlainLogs(lookup: Lookup) returns (list: seq<Log>)
    requires WellFormed(lookup) && DistinctTimes(lookup)
    ensures IsTimeline(list, (l: Log) => IsPlain(lookup, l))
  {
    list := [];
    var todo := lookup.Keys;
    while todo != {}
      invariant todo <= lookup.Keys
      invariant forall i, j | 0 <= i < j < |list| :: list[i].timestamp < list[j].timestamp
      invariant forall l :: l in list <==> IsPlain(lookup, l) && l.revTo !in todo
      decreases todo
    {
      var r :| r in todo;
      todo := todo - {r};
      if !lookup[r].handler.Merge? {
        list := InsertByTime(list, lookup[r]);
      }
    }
  }

  method InsertByTime(list: seq<Log>, l: Log) returns (longer: seq<Log>)
    requires forall i, j | 0 <= i < j < |list| :: list[i].timestamp < list[j].timestamp
    requires forall k | k in list :: k.timestamp != l.timestamp
    ensures forall i, j | 0 <= i < j < |longer| :: longer[i].timestamp < longer[j].timestamp
    ensures forall k :: k in longer <==> k in list || k == l
  {
    var i := 0;
    while i < |list| && list[i].timestamp < l.timestamp
      invariant 0 <= i <= |list|
      invariant forall j | 0 <= j < i :: list[j].timestamp < l.timestamp
    {
      i := i + 1;
    }
    longer := list[..i] + [l] + list[i..];
  }

  // ---------------------------------------------------------------- leaving out the root's own history

  // The revisions reached from `r` over plain logs: the chain stops at a merge.
  ghost function PlainHistory(lookup: Lookup, rank: Rev -> nat, r: Rev): set<Rev>
    requires Acyclic(lookup, rank)
    decreases rank(r)
  {
    if r !in lookup || lookup[r].handler.Merge? then {}
    else if lookup[r].revFrom.None? then {r}
    else {r} + PlainHistory(lookup, rank, lookup[r].revFrom.value)
  }

  lemma {:induction false} PlainHistoryIsHistory(lookup: Lookup, rank: Rev -> nat, r: Rev)
    requires Acyclic(lookup, rank)
    ensures forall a | a in PlainHistory(lookup, rank, r) :: a in History(lookup, rank, r) && rank(a) <= rank(r)
    decreases rank(r)
  {
    if r in lookup && !lookup[r].handler.Merge? && lookup[r].revFrom.Some? {
      PlainHistoryIsHistory(lookup, rank, lookup[r].revFrom.value);
    }
  }

  /** remove_target_rev: the log that made `rev` is removed, then the one that made what it started from,
      and so on until there is none. */
  method RemoveTargetRev(lookup: Lookup, ghost rank: Rev -> nat, logs: seq<Log>, rev: Option<Rev>)
    returns (rest: seq<Log>)
    requires Acyclic(lookup, rank) && WellFormed(lookup)
    requires forall i, j | 0 <= i < j < |logs| :: logs[i].timestamp < logs[j].timestamp
    requires forall l | l in logs :: IsPlain(lookup, l)
    requires rev.Some? ==> forall a | a in PlainHistory(lookup, rank, rev.value) :: a in lookup && lookup[a] in logs
    ensures forall i, j | 0 <= i < j < |rest| :: rest[i].timestamp < rest[j].timestamp
    ensures forall l :: l in rest <==> l in logs && (rev.Some? ==> l.revTo !in PlainHistory(lookup, rank, rev.value))
    decreases |logs|
  {
    rest := logs;
    if rev.None? { return; }
    assert rev.value in PlainHistory(lookup, rank, rev.value) ==> rev.value in lookup && lookup[rev.value] in logs;
    var i := 0;
    while i < |logs| && logs[i].revTo != rev.value
      invariant 0 <= i <= |logs|
      invariant forall j | 0 <= j < i :: logs[j].revTo != rev.value
    {
      i := i + 1;
    }
    if i < |logs| {
      var found := logs[i];
      rest := logs[..i] + logs[i + 1..];
      RemovedOne(lookup, logs, i);
      assert found in logs && IsPlain(lookup, found);
      if found.revFrom.Some? {
        PlainHistoryIsHistory(lookup, rank, found.revFrom.value);
        assert PlainHistory(lookup, rank, rev.value) == {rev.value} + PlainHistory(lookup, rank, found.revFrom.value);
      }
      rest := RemoveTargetRev(lookup, rank, rest, found.revFrom);
    }
  }

  lemma RemovedOne(lookup: Lookup, logs: seq<Log>, i: nat)
    requires i < |logs|
    requires forall i, j | 0 <= i < j < |logs| :: logs[i].timestamp < logs[j].timestamp
    requires forall l | l in logs :: IsPlain(lookup, l)
    ensures forall l :: l in logs[..i] + logs[i + 1..] <==> l in logs && l.revTo != logs[i].revTo
  {
    var rest, gone := logs[..i] + logs[i + 1..], logs[i];
    assert gone in logs && IsPlain(lookup, gone);
    forall l ensures l in rest <==> l in logs && l.revTo != gone.revTo {
      if l in logs && l != gone {
        StaysIn(logs, i, l);
      }
      if l in rest {
        WasIn(logs, i, l);
      }
      if l in logs {
        assert IsPlain(lookup, l);
      }
    }
  }

  lemma StaysIn(logs: seq<Log>, i: nat, l: Log)
    requires i < |logs| && l in logs && l != logs[i]
    ensures l in logs[..i] + logs[i + 1..]
  {
    var j :| 0 <= j < |logs| && logs[j] == l;
    assert l == (logs[..i] + logs[i + 1..])[if j < i then j else j - 1];
  }

  lemma WasIn(logs: seq<Log>, i: nat, l: Log)
    requires i < |logs| && forall a, b | 0 <= a < b < |logs| :: logs[a].timestamp < logs[b].timestamp
    requires l in logs[..i] + logs[i + 1..]
    ensures l in logs && l != logs[i]
  {
    var rest := logs[..i] + logs[i + 1..];
    var j :| 0 <= j < |rest| && rest[j] == l;
    assert l == logs[if j < i then j else j + 1];
  }

  // ---------------------------------------------------------------- the merge

  datatype Solution<+C> = SameContent | Unsolvable | Modified | Merged(ops: seq<nat>, result: Update.Result<C>)

  function Ops(logs: seq<Log>): (ops: seq<nat>)
    requires forall l | l in logs :: l.handler.Change?
    ensures |ops| == |logs| && forall i | 0 <= i < |logs| :: ops[i] == logs[i].handler.op
  {
    seq(|logs|, i requires 0 <= i < |logs| => logs[i].handler.op)
  }

  // No update lies behind a merge in the history of `r`.
  ghost predicate NoUpdateBehindMerge(lookup: Lookup, rank: Rev -> nat, r: Rev)
    requires Acyclic(lookup, rank)
  {
    var h := History(lookup, rank, r);
    forall i, j | 0 <= i < j < |h| && h[j] in lookup && lookup[h[j]].handler.Merge? ::
      h[i] in lookup ==> lookup[h[i]].handler.Merge?
  }

  // The updates to be replayed on `root`: those which its body does not contain yet.
  ghost predicate ToReplay(lookup: Lookup, rank: Rev -> nat, root: Rev, l: Log)
    requires Acyclic(lookup, rank)
  {
    IsPlain(lookup, l) && l.revTo !in PlainHistory(lookup, rank, root)
  }

  /** What is replayed is exactly the updates outside the root's own history if and only if no update
      lies behind a merge in that history: past a merge the removal does not look. */
  lemma {:induction false} ReplaysOnlyNews(lookup: Lookup, rank: Rev -> nat, root: Rev)
    requires Acyclic(lookup, rank) && WellFormed(lookup)
    ensures (forall l ::
               ToReplay(lookup, rank, root, l) <==> IsPlain(lookup, l) && l.revTo !in History(lookup, rank, root))
            <==> NoUpdateBehindMerge(lookup, rank, root)
    decreases rank(root)
  {
    var h := History(lookup, rank, root);
    PlainHistoryIsHistory(lookup, rank, root);
    PlainPart(lookup, rank, root);
    if !NoUpdateBehindMerge(lookup, rank, root) {
      var i, j :| && 0 <= i < j < |h| && h[j] in lookup && lookup[h[j]].handler.Merge?
                  && h[i] in lookup && !lookup[h[i]].handler.Merge?;
      BehindMerge(lookup, rank, root, i, j);
      assert ToReplay(lookup, rank, root, lookup[h[i]]);
    } else {
      forall l | ToReplay(lookup, rank, root, l) ensures l.revTo !in h {
        if l.revTo in h {
          var i :| 0 <= i < |h| && h[i] == l.revTo;
          InPlainPart(lookup, rank, root, i);
        }
      }
    }
  }

  /** The failing family is real: the root was made by a merge of an update that is in its history, and that
      update is replayed on it again. */
  lemma ReplaysWhatTheRootHas()
    ensures var update, merge := Log(None, Rev(1, 0), 0, Change(0)), Log(Some(Rev(1, 0)), Rev(2, 0), 1, Merge([]));
      var lookup := map[Rev(1, 0) := update, Rev(2, 0) := merge];
      var rank := (r: Rev) => r.index;
      && WellFormed(lookup) && Acyclic(lookup, rank) && !NoUpdateBehindMerge(lookup, rank, Rev(2, 0))
      && update.revTo in History(lookup, rank, Rev(2, 0)) && ToReplay(lookup, rank, Rev(2, 0), update)
  {
    var update, merge := Log(None, Rev(1, 0), 0, Change(0)), Log(Some(Rev(1, 0)), Rev(2, 0), 1, Merge([]));
    var lookup := map[Rev(1, 0) := update, Rev(2, 0) := merge];
    var rank := (r: Rev) => r.index;
    assert Acyclic(lookup, rank);
    var h := History(lookup, rank, Rev(2, 0));
    assert History(lookup, rank, Rev(1, 0)) == [Rev(1, 0)];
    assert h == [Rev(1, 0), Rev(2, 0)];
    assert h[0] in lookup && h[1] in lookup && lookup[h[1]].handler.Merge?;
  }

  // A plain history is the part of the history after its last merge.
  lemma {:induction false} PlainPart(lookup: Lookup, rank: Rev -> nat, r: Rev)
    requires Acyclic(lookup, rank)
    ensures forall a | a in PlainHistory(lookup, rank, r) :: a in lookup && !lookup[a].handler.Merge?
    decreases rank(r)
  {
    if r in lookup && !lookup[r].handler.Merge? && lookup[r].revFrom.Some? {
      PlainPart(lookup, rank, lookup[r].revFrom.value);
    }
  }

  lemma {:induction false} BehindMerge(lookup: Lookup, rank: Rev -> nat, r: Rev, i: nat, j: nat)
    requires Acyclic(lookup, rank) && i < j < |History(lookup, rank, r)|
    requires History(lookup, rank, r)[j] in lookup && lookup[History(lookup, rank, r)[j]].handler.Merge?
    ensures History(lookup, rank, r)[i] !in PlainHistory(lookup, rank, r)
    decreases rank(r)
  {
    var h := History(lookup, rank, r);
    var p := Parent(lookup, r);
    if p.Some? && j < |h| - 1 {
      BehindMerge(lookup, rank, p.value, i, j);
      assert h[i] in History(lookup, rank, p.value);
      HistoryRanks(lookup, rank, p.value, h[i]);
    }
  }

  lemma {:induction false} InPlainPart(lookup: Lookup, rank: Rev -> nat, r: Rev, i: nat)
    requires Acyclic(lookup, rank) && NoUpdateBehindMerge(lookup, rank, r) && i < |History(lookup, rank, r)|
    requires var a := History(lookup, rank, r)[i]; a in lookup && !lookup[a].handler.Merge?
    ensures History(lookup, rank, r)[i] in PlainHistory(lookup, rank, r)
    decreases rank(r)
  {
    var h := History(lookup, rank, r);
    var p := Parent(lookup, r);
    if i < |h| - 1 {
      assert p.Some? && h[i] == History(lookup, rank, p.value)[i];
      var before := History(lookup, rank, p.value);
      assert forall k | 0 <= k < |before| :: h[k] == before[k];
      assert !lookup[h[|h| - 1]].handler.Merge?;
      InPlainPart(lookup, rank, p.value, i);
    }
  }

  ghost predicate AcyclicLogs(logs: seq<Log>, rank: Rev -> nat) {
    forall l | InExpansion(logs, l) && l.revFrom.Some? :: rank(l.revFrom.value) < rank(l.revTo)
  }

  ghost predicate DistinctLogTimes(logs: seq<Log>) {
    forall l, l' | InExpansion(logs, l) && InExpansion(logs, l') && l.handler.Change? && l'.handler.Change?
      && l.timestamp == l'.timestamp :: l == l'
  }

  predicate AllSame<C(==)>(revs: seq<Rev>, contents: Rev -> C) {
    forall r, r' | r in revs && r' in revs :: contents(r) == contents(r')
  }

  // The root of a conflict and the updates to replay on it, in time order.
  ghost predicate IsReplay(lookup: Lookup, rank: Rev -> nat, revs: seq<Rev>, root: Rev, list: seq<Log>)
    requires Acyclic(lookup, rank)
  {
    && IsDeepestCommon(lookup, rank, revs, root)
    && IsTimeline(list, (l: Log) => ToReplay(lookup, rank, root, l))
    && forall l | l in list :: l.handler.Change?
  }

  // What the replayed updates make of the root, or of `base` when the root cannot be fetched.
  ghost predicate Replayed<C>(h: Update.Handlers<C>, lookup: Lookup, rank: Rev -> nat, revs: seq<Rev>,
                              contents: Rev -> C,
                              base: Option<Rev>, root: Rev, list: seq<Log>, result: Update.Result<C>)
    requires Acyclic(lookup, rank)
  {
    && IsReplay(lookup, rank, revs, root, list)
    && result == Update.Steps(h, contents(if base.Some? then base.value else root), Ops(list))
  }

  // What a merge computes, said without any order of lists or dictionaries.
  ghost predicate IsSolution<C>(h: Update.Handlers<C>, lookup: Lookup, rank: Rev -> nat, revs: seq<Rev>,
                                contents: Rev -> C, base: Option<Rev>, s: Solution<C>, list: seq<Log>)
    requires Acyclic(lookup, rank)
  {
    && (s.SameContent? <==> AllSame(revs, contents))
    && match s
    case SameContent => true
    case Unsolvable => base.Some? || forall a :: !IsCommon(lookup, rank, revs, a)
    case Modified =>
      exists root :: IsReplay(lookup, rank, revs, root, list)
                  && !Update.Steps(h, contents(if base.Some? then base.value else root), Ops(list)).Resigned?
    case Merged(ops, result) =>
      exists root :: Replayed(h, lookup, rank, revs, contents, base, root, list, result) && ops == Ops(list)
  }

  // There is no common ancestor, or it cannot be fetched and is one of the conflicting revisions itself.
  ghost predicate NoWay(lookup: Lookup, rank: Rev -> nat, docRev: Rev, conflicts: seq<Rev>, fetchable: bool)
    requires Acyclic(lookup, rank)
  {
    || (forall a :: !IsCommon(lookup, rank, [docRev] + conflicts, a))
    || (!fetchable && exists root :: IsDeepestCommon(lookup, rank, [docRev] + conflicts, root) && root in conflicts)
  }

  // What takes the place of the root.
  function Instead(docRev: Rev, fetchable: bool): Option<Rev> {
    if fetchable then None else Some(docRev)
  }

  /** _solve_merge, given the update logs of the document, the winning revision, the conflicting ones, and the
      body of each revision. `current` is the revision the document has when the result is to be saved, and
      `fetchable` tells whether the root can be fetched: if not, the winner takes its place. When all updates
      resign nothing is saved, and so nobody notices that the document was modified. */
  method SolveMerge<C(==)>(h: Update.Handlers<C>, logs: seq<Log>, docRev: Rev, conflicts: seq<Rev>, contents: Rev -> C,
                           current: Rev, fetchable: bool, first: nat, ghost rank: Rev -> nat)
    returns (s: Solution<C>, ghost lookup: Lookup, ghost list: seq<Log>)
    requires UniqueRevTo(logs) && AcyclicLogs(logs, rank) && DistinctLogTimes(logs)
    requires first <= |conflicts|
    ensures IsLookup(logs, lookup) && Acyclic(lookup, rank)
    ensures IsSolution(h, lookup, rank, [docRev] + conflicts, contents, Instead(docRev, fetchable), s, list)
    ensures s.Unsolvable? <==>
              !AllSame([docRev] + conflicts, contents) && NoWay(lookup, rank, docRev, conflicts, fetchable)
    ensures s.Modified? ==> current != docRev
    ensures s.Merged? ==> current == docRev || s.result.Resigned?
  {
    var table := LookupOf(logs, rank);
    lookup, list := table, [];
    var same := AllTheSame(docRev, conflicts, contents);
    if same { return SameContent, lookup, []; }
    var root := FindRoot(table, rank, docRev, conflicts, fetchable, first);
    if root.None? { return Unsolvable, lookup, []; }
    var rest := LogsToReplay(table, rank, root.value);
    var result := Update.RunSteps(h, contents(if fetchable then root.value else docRev), Ops(rest));
    assert Replayed(h, lookup, rank, [docRev] + conflicts, contents, Instead(docRev, fetchable), root.value, rest,
                    result);
    if !result.Resigned? && current != docRev { return Modified, lookup, rest; }
    return Merged(Ops(rest), result), lookup, rest;
  }

  // The root, unless there is none; or there are no paths from it and it cannot be fetched.
  method FindRoot(lookup: Lookup, ghost rank: Rev -> nat, docRev: Rev, conflicts: seq<Rev>, fetchable: bool, first: nat)
    returns (root: Option<Rev>)
    requires Acyclic(lookup, rank) && WellFormed(lookup) && first <= |conflicts|
    ensures root.None? <==> NoWay(lookup, rank, docRev, conflicts, fetchable)
    ensures root.Some? ==> IsDeepestCommon(lookup, rank, [docRev] + conflicts, root.value)
  {
    ghost var revs := [docRev] + conflicts;
    root := FindCommonAncestor(lookup, rank, [docRev] + conflicts, first);
    if root.None? { return; }
    forall other | IsDeepestCommon(lookup, rank, revs, other) ensures other == root.value {
      DeepestIsUnique(lookup, rank, revs, revs, root.value, other);
    }
    assert IsCommon(lookup, rank, revs, root.value);
    if !fetchable {
      assert IsCommon(lookup, rank, conflicts, root.value);
      var paths := LogsFromRoot(root.value, conflicts, lookup, rank);
      if paths.None? { root := None; }
    }
  }

  method LookupOf(logs: seq<Log>, ghost rank: Rev -> nat) returns (lookup: Lookup)
    requires UniqueRevTo(logs) && AcyclicLogs(logs, rank) && DistinctLogTimes(logs)
    ensures IsLookup(logs, lookup) && WellFormed(lookup) && Acyclic(lookup, rank) && DistinctTimes(lookup)
  {
    var all := ExpandMerges(logs);
    lookup := BuildLookup(logs, all);
    forall r | r in lookup ensures InExpansion(logs, lookup[r]) {
      assert lookup[r].revTo == r;
    }
  }

  method AllTheSame<C(==)>(docRev: Rev, conflicts: seq<Rev>, contents: Rev -> C) returns (same: bool)
    ensures same <==> AllSame([docRev] + conflicts, contents)
  {
    same := true;
    for i := 0 to |conflicts|
      invariant same <==> forall j | 0 <= j < i :: contents(conflicts[j]) == contents(docRev)
    {
      if contents(conflicts[i]) != contents(docRev) {
        same := false;
      }
    }
  }

  // The plain logs in time order, without those of the root's own history.
  method LogsToReplay(lookup: Lookup, ghost rank: Rev -> nat, root: Rev) returns (rest: seq<Log>)
    requires Acyclic(lookup, rank) && WellFormed(lookup) && DistinctTimes(lookup)
    ensures IsTimeline(rest, (l: Log) => ToReplay(lookup, rank, root, l))
    ensures forall l | l in rest :: l.handler.Change?
  {
    var plain := SortPlainLogs(lookup);
    PlainHistoryIsHistory(lookup, rank, root);
    PlainPart(lookup, rank, root);
    rest := RemoveTargetRev(lookup, rank, plain, Some(root));
  }

  lemma LookupIsUnique(logs: seq<Log>, logs': seq<Log>, lookup: Lookup, lookup': Lookup)
    requires forall l :: l in logs <==> l in logs'
    requires IsLookup(logs, lookup) && IsLookup(logs', lookup') && WellFormed(lookup) && WellFormed(lookup')
    ensures lookup == lookup'
  {
    forall l ensures InExpansion(logs, l) <==> InExpansion(logs', l) {
    }
    forall r ensures r in lookup <==> r in lookup' {
      if r in lookup { assert InExpansion(logs, lookup[r]); }
      if r in lookup' { assert InExpansion(logs', lookup'[r]); }
    }
    forall r | r in lookup ensures lookup[r] == lookup'[r] {
      assert InExpansion(logs, lookup[r]);
    }
  }

  // The body the document is left with when `current` is the revision that stays: what was merged, none after
  // a deletion, and that of the revision itself when nothing was saved.
  function Final<C>(contents: Rev -> C, current: Rev, result: Update.Result<C>): Option<C> {
    match result
    case Changed(d) => Some(d)
    case Deleted => None
    case Resigned => Some(contents(current))
  }

  /** Confluence: two merges of the same conflict, with the logs listed in any order, the conflicting revisions
      in any order, and `w` and `w'` the revisions the database made the winners, replay the same updates in
      the same order on the same root. They leave the same document if and only if some update does not resign
      on the root, or the winners were the same to begin with. */
  lemma {:induction false} MergesAgree<C>(h: Update.Handlers<C>, rank: Rev -> nat, contents: Rev -> C, w: Rev, w': Rev,
                       logs: seq<Log>, revs: seq<Rev>, s: Solution<C>, lookup: Lookup, list: seq<Log>,
                       logs': seq<Log>, revs': seq<Rev>, s': Solution<C>, lookup': Lookup, list': seq<Log>)
    requires forall l :: l in logs <==> l in logs'
    requires forall r :: r in revs <==> r in revs'
    requires IsLookup(logs, lookup) && Acyclic(lookup, rank) && WellFormed(lookup)
    requires IsLookup(logs', lookup') && Acyclic(lookup', rank) && WellFormed(lookup')
    requires IsSolution(h, lookup, rank, revs, contents, None, s, list)
    requires IsSolution(h, lookup', rank, revs', contents, None, s', list')
    requires s.Merged?
    ensures s'.Merged? || (s'.Modified? && !s.result.Resigned?)
    ensures s'.Merged? ==> s' == s
    ensures exists root :: IsDeepestCommon(lookup, rank, revs, root) && LeavesTheSame(h, contents, w, w', root, s)
  {
    LookupIsUnique(logs, logs', lookup, lookup');
    SolutionIsUnique(h, lookup, rank, contents, revs, s, list, revs', s', list');
    WhatIsLeft(h, lookup, rank, contents, w, w', revs, s, list);
  }

  // The winners `w` and `w'` end with the same document exactly when one update does not resign on the root, or
  // their own bodies are the same.
  ghost predicate LeavesTheSame<C>(h: Update.Handlers<C>, contents: Rev -> C, w: Rev, w': Rev, root: Rev,
                                   s: Solution<C>)
    requires s.Merged?
  {
    Final(contents, w, s.result) == Final(contents, w', s.result)
    <==> contents(w) == contents(w') || exists i :: 0 <= i < |s.ops| && !h(s.ops[i], contents(root)).Resigned?
  }

  lemma WhatIsLeft<C>(h: Update.Handlers<C>, lookup: Lookup, rank: Rev -> nat, contents: Rev -> C, w: Rev, w': Rev,
                      revs: seq<Rev>, s: Solution<C>, list: seq<Log>)
    requires Acyclic(lookup, rank)
    requires IsSolution(h, lookup, rank, revs, contents, None, s, list) && s.Merged?
    ensures exists root :: IsDeepestCommon(lookup, rank, revs, root) && LeavesTheSame(h, contents, w, w', root, s)
  {
    var root :| Replayed(h, lookup, rank, revs, contents, None, root, list, s.result) && s.ops == Ops(list);
    ResignsWhenNoneChanges(h, contents(root), s.ops);
    assert LeavesTheSame(h, contents, w, w', root, s);
  }

  lemma SolutionIsUnique<C>(h: Update.Handlers<C>, lookup: Lookup, rank: Rev -> nat, contents: Rev -> C,
                            revs: seq<Rev>, s: Solution<C>, list: seq<Log>,
                            revs': seq<Rev>, s': Solution<C>, list': seq<Log>)
    requires Acyclic(lookup, rank)
    requires forall r :: r in revs <==> r in revs'
    requires IsSolution(h, lookup, rank, revs, contents, None, s, list) && s.Merged?
    requires IsSolution(h, lookup, rank, revs', contents, None, s', list')
    ensures s'.Merged? || (s'.Modified? && !s.result.Resigned?)
    ensures s'.Merged? ==> s' == s
  {
    var root :| Replayed(h, lookup, rank, revs, contents, None, root, list, s.result) && s.ops == Ops(list);
    assert IsCommon(lookup, rank, revs', root);
    if s'.Merged? {
      var root' :| Replayed(h, lookup, rank, revs', contents, None, root', list', s'.result) && s'.ops == Ops(list');
      ReplayIsUnique(lookup, rank, revs, revs', root, root', list, list');
    } else if s'.Modified? {
      var root' :| IsReplay(lookup, rank, revs', root', list')
                && !Update.Steps(h, contents(root'), Ops(list')).Resigned?;
      ReplayIsUnique(lookup, rank, revs, revs', root, root', list, list');
    }
  }

  lemma ReplayIsUnique(lookup: Lookup, rank: Rev -> nat, revs: seq<Rev>, revs': seq<Rev>, root: Rev, root': Rev,
                       list: seq<Log>, list': seq<Log>)
    requires Acyclic(lookup, rank)
    requires forall r :: r in revs <==> r in revs'
    requires IsReplay(lookup, rank, revs, root, list) && IsReplay(lookup, rank, revs', root', list')
    ensures root == root' && list == list'
  {
    DeepestIsUnique(lookup, rank, revs, revs', root, root');
    TimelineIsUnique(list, list');
  }

  lemma ResignsWhenNoneChanges<C>(h: Update.Handlers<C>, document: C, ops: seq<nat>)
    ensures Update.Steps(h, document, ops).Resigned? <==> !exists i :: 0 <= i < |ops| && !h(ops[i], document).Resigned?
  {
    Update.ResignsWhenAllResign(h, document, false, ops);
  }

  /** Whichever of the conflicting revisions wins, a merge leaves the same document if and only if some replayed
      update does not resign on the root. */
  lemma WinnerDoesNotMatter<C>(h: Update.Handlers<C>, logs: seq<Log>, rank: Rev -> nat, revs: seq<Rev>,
                               contents: Rev -> C,
                               root: Rev, lookup: Lookup, list: seq<Log>, result: Update.Result<C>)
    requires Acyclic(lookup, rank) && !AllSame(revs, contents)
    requires Replayed(h, lookup, rank, revs, contents, None, root, list, result)
    ensures (forall w, w' | w in revs && w' in revs :: Final(contents, w, result) == Final(contents, w', result))
            <==> exists i :: 0 <= i < |Ops(list)| && !h(Ops(list)[i], contents(root)).Resigned?
  {
    ResignsWhenNoneChanges(h, contents(root), Ops(list));
    var w, w' :| w in revs && w' in revs && contents(w) != contents(w');
  }

  /** What a merge leaves: no document if and only if some replayed update deletes what the updates before it made
      of the root; otherwise what the last of them left, if any changes it, and the winner's own body if none does. */
  lemma MergeLeaves<C>(h: Update.Handlers<C>, lookup: Lookup, rank: Rev -> nat, revs: seq<Rev>, contents: Rev -> C,
                       root: Rev, list: seq<Log>, result: Update.Result<C>, w: Rev, ds: seq<C>)
    requires Acyclic(lookup, rank) && Replayed(h, lookup, rank, revs, contents, None, root, list, result)
    requires Update.Documents(h, contents(root), Ops(list), ds)
    ensures Final(contents, w, result) == if Update.Deletes(h, Ops(list), ds) then None
                                          else if Update.Changes(h, Ops(list), ds) then Some(ds[|list|])
                                          else Some(contents(w))
  {
    Update.StepsMean(h, contents(root), Ops(list), ds);
  }

  // ---------------------------------------------------------------- merges that depend on more

  // Three updates of one revision, and two merges of two of them each, which are in conflict.
  function RivalLogs(): (logs: (Log, Log, Log, Log, Log)) {
    var a := Log(Some(Rev(1, 0)), Rev(2, 0), 2, Change(0));
    var b := Log(Some(Rev(1, 0)), Rev(2, 1), 1, Change(1));
    var c := Log(Some(Rev(1, 0)), Rev(2, 2), 3, Change(2));
    (a, b, c, Log(Some(Rev(2, 0)), Rev(3, 1), 4, Merge([b, a])), Log(Some(Rev(2, 0)), Rev(3, 2), 5, Merge([a, c])))
  }

  function RivalLookup(): Lookup {
    var (a, b, c, m, m') := RivalLogs();
    map[a.revTo := a, b.revTo := b, c.revTo := c, m.revTo := m, m'.revTo := m']
  }

  function ByIndex(r: Rev): nat {
    r.index
  }

  // The first update makes 1 of 0 and 5 of anything else; the others change 0 only, to 2 and to 3.
  function RivalHandler(op: nat, body: int): Update.Result<int> {
    if op == 0 then Update.Changed(if body == 0 then 1 else 5)
    else if body == 0 then Update.Changed(op + 1)
    else Update.Resigned
  }

  // The bodies these updates and merges have produced.
  function RivalBody(r: Rev): int {
    if r == Rev(1, 0) then 0
    else if r == Rev(2, 0) then 1
    else if r == Rev(2, 1) then 2
    else if r == Rev(2, 2) then 3
    else if r == Rev(3, 1) then 5
    else 1
  }

  lemma RivalHistories()
    ensures Acyclic(RivalLookup(), ByIndex) && WellFormed(RivalLookup())
    ensures History(RivalLookup(), ByIndex, Rev(2, 0)) == [Rev(1, 0), Rev(2, 0)]
    ensures History(RivalLookup(), ByIndex, Rev(3, 1)) == [Rev(1, 0), Rev(2, 0), Rev(3, 1)]
    ensures History(RivalLookup(), ByIndex, Rev(3, 2)) == [Rev(1, 0), Rev(2, 0), Rev(3, 2)]
    ensures PlainHistory(RivalLookup(), ByIndex, Rev(2, 0)) == {Rev(2, 0)}
  {
    var lookup := RivalLookup();
    assert Acyclic(lookup, ByIndex);
    assert History(lookup, ByIndex, Rev(1, 0)) == [Rev(1, 0)];
    assert PlainHistory(lookup, ByIndex, Rev(1, 0)) == {};
  }

  /** The winner can matter: both merges replay two updates which resign on the root, nothing is saved, and the
      document left is the winner's own. */
  lemma WinnerDecides()
    ensures var (a, b, c, m, m') := RivalLogs();
      var logs, lookup, revs := [a, b, c, m, m'], RivalLookup(), [Rev(3, 1), Rev(3, 2)];
      && IsLookup(logs, lookup) && Acyclic(lookup, ByIndex)
      && IsSolution(RivalHandler, lookup, ByIndex, revs, RivalBody, None, Merged([1, 2], Update.Resigned), [b, c])
      && Final(RivalBody, Rev(3, 1), Update.Resigned) == Some(5)
      && Final(RivalBody, Rev(3, 2), Update.Resigned) == Some(1)
  {
    var (a, b, c, m, m') := RivalLogs();
    var logs, lookup, revs, root := [a, b, c, m, m'], RivalLookup(), [Rev(3, 1), Rev(3, 2)], Rev(2, 0);
    RivalHistories();
    RivalRoot();
    RivalTimeline();
    assert Ops([b, c]) == [1, 2];
    assert Update.StepsFrom(RivalHandler, 1, false, [2]) == Update.Resigned by { assert [2][1..] == []; }
    assert [1, 2][1..] == [2];
    assert Replayed(RivalHandler, lookup, ByIndex, revs, RivalBody, None, root, [b, c], Update.Resigned);
    assert revs[0] in revs && revs[1] in revs && RivalBody(revs[0]) != RivalBody(revs[1]);
  }

  lemma RivalRoot()
    ensures Acyclic(RivalLookup(), ByIndex)
    ensures IsDeepestCommon(RivalLookup(), ByIndex, [Rev(3, 1), Rev(3, 2)], Rev(2, 0))
  {
    RivalHistories();
    var revs := [Rev(3, 1), Rev(3, 2)];
    assert revs[0] in revs && revs[1] in revs;
  }

  lemma RivalTimeline()
    ensures Acyclic(RivalLookup(), ByIndex)
    ensures var (a, b, c, m, m') := RivalLogs();
            IsTimeline([b, c], (l: Log) => ToReplay(RivalLookup(), ByIndex, Rev(2, 0), l))
  {
    RivalHistories();
    var (a, b, c, m, m') := RivalLogs();
    var list := [b, c];
    assert list[0] == b && list[1] == c;
    forall l ensures l in list <==> ToReplay(RivalLookup(), ByIndex, Rev(2, 0), l) {
    }
  }

  // ---------------------------------------------------------------- a root that cannot be fetched

  lemma {:induction false} HistoryRises(lookup: Lookup, rank: Rev -> nat, r: Rev, i: nat, j: nat)
    requires Acyclic(lookup, rank) && i < j < |History(lookup, rank, r)|
    ensures rank(History(lookup, rank, r)[i]) < rank(History(lookup, rank, r)[j])
    decreases rank(r)
  {
    var p := Parent(lookup, r).value;
    var before := History(lookup, rank, p);
    if j < |before| {
      HistoryRises(lookup, rank, p, i, j);
    } else {
      assert before[i] in before;
      HistoryRanks(lookup, rank, p, before[i]);
    }
  }

  /** With the winner in the place of its root, nothing of the winner's own history is replayed on it again if
      and only if no update lies behind a merge in the history of the root, and only merges lie between the
      root and the winner. */
  lemma NothingReplayedTwice(lookup: Lookup, rank: Rev -> nat, winner: Rev, n: nat)
    requires Acyclic(lookup, rank) && WellFormed(lookup) && n < |History(lookup, rank, winner)|
    ensures var h := History(lookup, rank, winner); var root := h[n];
      (forall l | ToReplay(lookup, rank, root, l) :: l.revTo !in h)
      <==> && NoUpdateBehindMerge(lookup, rank, root)
           && forall k | n < k < |h| && h[k] in lookup :: lookup[h[k]].handler.Merge?
  {
    var h := History(lookup, rank, winner);
    var root := h[n];
    HistoryIsPrefix(lookup, rank, winner, n);
    ReplaysOnlyNews(lookup, rank, root);
    PlainHistoryIsHistory(lookup, rank, root);
    var older := h[..n + 1];
    forall k | n < k < |h| ensures h[k] !in older {
      forall i | 0 <= i <= n ensures older[i] != h[k] {
        HistoryRises(lookup, rank, winner, i, k);
      }
    }
    if forall l | ToReplay(lookup, rank, root, l) :: l.revTo !in h {
      forall k | n < k < |h| && h[k] in lookup ensures lookup[h[k]].handler.Merge? {
        assert lookup[h[k]].revTo == h[k];
      }
      forall l ensures ToReplay(lookup, rank, root, l) <==> IsPlain(lookup, l) && l.revTo !in older {
        assert forall x | x in older :: x in h;
      }
    } else {
      var l :| ToReplay(lookup, rank, root, l) && l.revTo in h;
      var k :| 0 <= k < |h| && h[k] == l.revTo;
      if k <= n {
        assert older[k] == l.revTo;
      }
    }
  }

  /** The failing family is real: the root 1-0 cannot be fetched, and the update that made the winner 2-1 of it is
      applied to the winner a second time. */
  lemma WinnerReplaysItself()
    ensures var make, ours, theirs := Log(None, Rev(1, 0), 0, Change(0)), Log(Some(Rev(1, 0)), Rev(2, 1), 1, Change(1)),
                                      Log(Some(Rev(1, 0)), Rev(2, 2), 2, Change(2));
      var lookup := map[Rev(1, 0) := make, Rev(2, 1) := ours, Rev(2, 2) := theirs];
      var add := (op: nat, body: int) => Update.Changed(body + op);
      var contents := (r: Rev) => r.hash as int;
      && Acyclic(lookup, ByIndex)
      && Replayed(add, lookup, ByIndex, [Rev(2, 1), Rev(2, 2)], contents, None, Rev(1, 0), [ours, theirs],
                  Update.Changed(3))
      && Replayed(add, lookup, ByIndex, [Rev(2, 1), Rev(2, 2)], contents, Some(Rev(2, 1)), Rev(1, 0), [ours, theirs],
                  Update.Changed(4))
  {
    var make, ours, theirs := Log(None, Rev(1, 0), 0, Change(0)), Log(Some(Rev(1, 0)), Rev(2, 1), 1, Change(1)),
                              Log(Some(Rev(1, 0)), Rev(2, 2), 2, Change(2));
    var lookup := map[Rev(1, 0) := make, Rev(2, 1) := ours, Rev(2, 2) := theirs];
    var revs, list := [Rev(2, 1), Rev(2, 2)], [ours, theirs];
    var add := (op: nat, body: int) => Update.Changed(body + op);
    assert Acyclic(lookup, ByIndex);
    assert History(lookup, ByIndex, Rev(1, 0)) == [Rev(1, 0)];
    assert revs[0] in revs && revs[1] in revs && list[0] == ours && list[1] == theirs;
    assert IsDeepestCommon(lookup, ByIndex, revs, Rev(1, 0));
    assert PlainHistory(lookup, ByIndex, Rev(1, 0)) == {Rev(1, 0)};
    assert Ops(list) == [1, 2] && [1, 2][1..] == [2] && [2][1..] == [];
    assert Update.StepsFrom(add, 1, true, [2]) == Update.Changed(3);
    assert Update.StepsFrom(add, 2, true, [2]) == Update.Changed(4);
  }
}
