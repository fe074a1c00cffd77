// Sorting and paging the result of a query along one of the fetched indexes.

module QueryPages {
  import opened Wrappers
  import opened EmuDatabase
  import opened Query
  import opened QueryAnswers

  // ---------------------------------------------------------------- the slice

  function Min(a: int, b: int): int {
    if a <= b then a else b
  }

  // The index restricted to the rows, each row where it occurs first.
  function Hits(index: seq<Id>, rows: set<Id>): seq<Id>
    decreases |index|
  {
    if index == [] then []
    else if index[0] in rows then [index[0]] + Hits(index[1..], rows - {index[0]})
    else Hits(index[1..], rows)
  }

  // Positions skip..stop of a sequence, as far as they exist.
  function Page(s: seq<Id>, skip: nat, stop: nat): seq<Id> {
    if skip < stop && skip < |s| then s[skip..Min(stop, |s|)] else []
  }

  predicate Distinct(s: seq<Id>) {
    forall i, j | 0 <= i < j < |s| :: s[i] != s[j]
  }

  // How many rows are appended when the index ends before `stop` was reached.
  function TailLength(hits: nat, rows: nat, stop: nat): int {
    if hits > stop then 0 else Min(stop - hits, rows - hits)
  }

  // What a slice consists of: its page of the hits, then rows the index lacks until `stop` are counted.
  predicate IsSlice(out: seq<Id>, index: seq<Id>, rows: set<Id>, skip: nat, stop: nat) {
    var hits := Hits(index, rows);
    var page := Page(hits, skip, stop);
    && page <= out
    && Distinct(out[|page|..])
    && (forall x | x in out[|page|..] :: x in rows && x !in hits)
    && |out| - |page| == TailLength(|hits|, |rows|, stop)
  }

  /** _get_sorted_slice: the rows are consumed while the index is read; `stopAt` None reads up to the last. */
  method GetSortedSlice(index: seq<Id>, matched: set<Id>, skip: nat, stopAt: Option<nat>) returns (out: seq<Id>)
    ensures IsSlice(out, index, matched, skip, if stopAt.Some? then stopAt.value else |matched|)
  {
    var rows := matched;
    var stop := if stopAt.Some? then stopAt.value else |matched|;
    var seen := 0;
    out := [];
    ghost var done: seq<Id> := [];
    for i := 0 to |index|
      invariant seen == |done| <= stop
      invariant Progress(index, matched, i, rows, done)
      invariant out == Page(done, skip, stop)
    {
      ReadOne(index, matched, i, rows, done);
      if rows == {} {
        AllFound(index, matched, i, rows, done, skip, stop);
        return;
      }
      if index[i] in rows {
        PageGrows(done, index[i], skip, stop);
        rows := rows - {index[i]};
        seen := seen + 1;
        done := done + [index[i]];
        if skip < seen <= stop {
          out := out + [index[i]];
        }
        if seen > stop {
          EnoughFound(index, matched, done, skip, stop);
          return;
        }
      }
    }
    ReadAll(index, matched, |index|, rows, done);
    out := PopRemaining(out, rows, stop - seen);
  }

  /** A slice repeats nothing and holds nothing but rows that match. */
  lemma SliceIsSound(out: seq<Id>, index: seq<Id>, rows: set<Id>, skip: nat, stop: nat)
    requires IsSlice(out, index, rows, skip, stop)
    ensures Distinct(out) && forall i | 0 <= i < |out| :: out[i] in rows
  {
    HitsFacts(index, rows);
    var hits := Hits(index, rows);
    var page := Page(hits, skip, stop);
    var tail := out[|page|..];
    assert out == page + tail;
    forall i | 0 <= i < |out| ensures out[i] in rows && (i < |page| <==> out[i] in hits) {
      if i < |page| {
        assert out[i] == hits[skip + i];
      } else {
        assert out[i] == tail[i - |page|];
      }
    }
    forall i, j | 0 <= i < j < |out| ensures out[i] != out[j] {
      if j < |page| {
        assert out[i] == hits[skip + i] && out[j] == hits[skip + j];
      } else if i >= |page| {
        assert out[i] == tail[i - |page|] && out[j] == tail[j - |page|];
      }
    }
  }

  lemma AllFound(index: seq<Id>, matched: set<Id>, i: nat, rows: set<Id>, done: seq<Id>, skip: nat, stop: nat)
    requires Progress(index, matched, i, rows, done) && rows == {} && |done| <= stop
    ensures IsSlice(Page(done, skip, stop), index, matched, skip, stop)
  {
    ReadAll(index, matched, i, rows, done);
  }

  lemma EnoughFound(index: seq<Id>, matched: set<Id>, done: seq<Id>, skip: nat, stop: nat)
    requires |done| <= |Hits(index, matched)| && done == Hits(index, matched)[..|done|] && |done| > stop
    ensures IsSlice(Page(done, skip, stop), index, matched, skip, stop)
  {
    PageOfPrefix(Hits(index, matched), |done|, skip, stop);
  }

  // After reading i positions: the hits found so far, and the rows still to be found.
  ghost predicate Progress(index: seq<Id>, matched: set<Id>, i: nat, rows: set<Id>, done: seq<Id>) {
    && i <= |index|
    && done + Hits(index[i..], rows) == Hits(index, matched)
    && rows <= matched
    && |rows| + |done| == |matched|
    && forall x | x in matched :: x in rows <==> x !in done
  }

  lemma {:induction false} ReadOne(index: seq<Id>, matched: set<Id>, i: nat, rows: set<Id>, done: seq<Id>)
    requires i < |index| && Progress(index, matched, i, rows, done)
    ensures if index[i] in rows then Progress(index, matched, i + 1, rows - {index[i]}, done + [index[i]])
            else Progress(index, matched, i + 1, rows, done)
    ensures index[i] in rows ==> done + [index[i]] == Hits(index, matched)[..|done| + 1]
  {
    var rest := index[i..];
    assert rest[1..] == index[i + 1..] && rest[0] == index[i];
    if index[i] in rows {
      var more := Hits(index[i + 1..], rows - {index[i]});
      assert done + ([index[i]] + more) == (done + [index[i]]) + more;
    }
  }

  // Once the index ends, or no row is left, all hits were found.
  lemma ReadAll(index: seq<Id>, matched: set<Id>, i: nat, rows: set<Id>, done: seq<Id>)
    requires Progress(index, matched, i, rows, done) && (i == |index| || rows == {})
    ensures done == Hits(index, matched)
    ensures forall x | x in rows :: x in matched && x !in done
  {
    if rows == {} {
      NoRows(index[i..]);
    }
  }

  // Rows are popped, in no particular order, until enough are there or none is left.
  method PopRemaining(page: seq<Id>, remaining: set<Id>, missing: nat) returns (out: seq<Id>)
    ensures page <= out && Distinct(out[|page|..])
    ensures forall x | x in out[|page|..] :: x in remaining
    ensures |out| - |page| == Min(missing, |remaining|)
  {
    var rows := remaining;
    ghost var tail: seq<Id> := [];
    out := page;
    for n := 0 to missing
      invariant out == page + tail && |tail| == n
      invariant n + |rows| == |remaining| && rows <= remaining
      invariant Distinct(tail) && forall x | x in tail :: x in remaining && x !in rows
    {
      if rows == {} {
        assert out[|page|..] == tail;
        return;
      }
      var x :| x in rows;
      rows := rows - {x};
      out := out + [x];
      tail := tail + [x];
    }
    assert out[|page|..] == tail;
  }

  lemma {:induction false} HitsFacts(index: seq<Id>, rows: set<Id>)
    ensures forall x :: x in Hits(index, rows) <==> x in rows && x in index
    ensures Distinct(Hits(index, rows))
    ensures |Hits(index, rows)| <= |rows|
    decreases |index|
  {
    if index != [] {
      HitsFacts(index[1..], if index[0] in rows then rows - {index[0]} else rows);
      assert index == [index[0]] + index[1..];
    }
  }

  lemma NoRows(index: seq<Id>)
    ensures Hits(index, {}) == []
  {
    HitsFacts(index, {});
    var hits := Hits(index, {});
    assert |hits| <= 0;
  }

  lemma PageGrows(s: seq<Id>, x: Id, skip: nat, stop: nat)
    requires |s| <= stop
    ensures Page(s + [x], skip, stop) == Page(s, skip, stop) + if skip < |s| + 1 <= stop then [x] else []
  {
  }

  lemma PageOfPrefix(s: seq<Id>, n: nat, skip: nat, stop: nat)
    requires stop < n <= |s|
    ensures Page(s[..n], skip, stop) == Page(s, skip, stop)
  {
  }

  // ---------------------------------------------------------------- what pages promise

  predicate Covers(index: seq<Id>, rows: set<Id>) {
    forall x | x in rows :: x in index
  }

  /** An index covering the rows lists all of them, each once. */
  lemma CoveringListsAll(index: seq<Id>, rows: set<Id>)
    requires Covers(index, rows)
    ensures (set x | x in Hits(index, rows)) == rows
    ensures Distinct(Hits(index, rows)) && |Hits(index, rows)| == |rows|
  {
    HitsFacts(index, rows);
    assert (set x | x in Hits(index, rows)) == rows;
    CountDistinct(Hits(index, rows));
  }

  lemma {:induction false} CountDistinct(s: seq<Id>)
    requires Distinct(s)
    ensures |set x | x in s| == |s|
    decreases |s|
  {
    if s != [] {
      var init, last := s[..|s| - 1], s[|s| - 1];
      CountDistinct(init);
      assert (set x | x in s) == (set x | x in init) + {last};
    }
  }

  // With a covering index a slice is just its page.
  lemma CoveredSlice(out: seq<Id>, index: seq<Id>, rows: set<Id>, skip: nat, stop: nat)
    requires Covers(index, rows) && IsSlice(out, index, rows, skip, stop)
    ensures out == Page(Hits(index, rows), skip, stop)
  {
    CoveringListsAll(index, rows);
  }

  function Concat(pages: seq<seq<Id>>): seq<Id>
    decreases |pages|
  {
    if pages == [] then [] else Concat(pages[..|pages| - 1]) + pages[|pages| - 1]
  }

  // Where page k begins: after k times `limit` rows.
  function Offset(k: nat, limit: nat): nat {
    if k == 0 then 0 else Offset(k - 1, limit) + limit
  }

  // Consecutive slices of `limit` rows each.
  ghost predicate PagesOf(pages: seq<seq<Id>>, index: seq<Id>, rows: set<Id>, limit: nat) {
    forall k | 0 <= k < |pages| :: IsSlice(pages[k], index, rows, Offset(k, limit), Offset(k + 1, limit))
  }

  /** Consecutive pages concatenate to the beginning of the whole sorted result; once they are enough, to
      all matched rows with nothing missing and nothing repeated. */
  lemma {:induction false} PagesConcatenate(pages: seq<seq<Id>>, index: seq<Id>, rows: set<Id>, limit: nat)
    requires Covers(index, rows) && PagesOf(pages, index, rows, limit)
    ensures Concat(pages) == Page(Hits(index, rows), 0, Offset(|pages|, limit))
    ensures Offset(|pages|, limit) >= |rows| ==> Concat(pages) == Hits(index, rows)
  {
    forall k | 0 <= k < |pages| ensures pages[k] == Page(Hits(index, rows), Offset(k, limit), Offset(k + 1, limit)) {
      CoveredSlice(pages[k], index, rows, Offset(k, limit), Offset(k + 1, limit));
    }
    JoinPages(pages, Hits(index, rows), limit);
    CoveringListsAll(index, rows);
  }

  lemma {:induction false} JoinPages(pages: seq<seq<Id>>, s: seq<Id>, limit: nat)
    requires forall k | 0 <= k < |pages| :: pages[k] == Page(s, Offset(k, limit), Offset(k + 1, limit))
    ensures Concat(pages) == Page(s, 0, Offset(|pages|, limit))
    decreases |pages|
  {
    if pages != [] {
      JoinPages(pages[..|pages| - 1], s, limit);
      NextPage(s, Offset(|pages| - 1, limit), Offset(|pages|, limit));
    }
  }

  lemma NextPage(s: seq<Id>, a: nat, b: nat)
    requires a <= b
    ensures Page(s, 0, a) + Page(s, a, b) == Page(s, 0, b)
  {
  }

  /** Without covering, a page has the length its position asks for exactly when it starts within the part
      the index knows, or the index covers the rows after all: the appended rows ignore `skip`. */
  lemma PageLengthRight(out: seq<Id>, index: seq<Id>, rows: set<Id>, skip: nat, stop: nat)
    requires skip < stop && IsSlice(out, index, rows, skip, stop)
    ensures |out| == Min(stop, |rows|) - Min(skip, |rows|) <==> skip <= |Hits(index, rows)| || Covers(index, rows)
  {
    HitsFacts(index, rows);
    if Covers(index, rows) {
      CoveringListsAll(index, rows);
    } else {
      var x :| x in rows && x !in index;
      var hits := Hits(index, rows);
      assert (set y | y in hits) <= rows - {x};
      CountDistinct(hits);
      FewerThan((set y | y in hits), rows - {x});
    }
  }

  lemma {:induction false} FewerThan(a: set<Id>, b: set<Id>)
    requires a <= b
    ensures |a| <= |b|
    decreases b
  {
    if b != {} {
      var x :| x in b;
      assert |a - {x}| >= |a| - 1;
      FewerThan(a - {x}, b - {x});
    }
  }

  /** Two consecutive pages over an index covering nothing: the second repeats the first. */
  lemma UncoveredPagesRepeat()
    ensures IsSlice(["a"], [], {"a", "b"}, 0, 1)
    ensures IsSlice(["a", "b"], [], {"a", "b"}, 1, 2)
  {
  }

  // ---------------------------------------------------------------- order

  function FirstIndex(index: seq<Id>, x: Id): (k: nat)
    requires x in index
    ensures k < |index| && index[k] == x && x !in index[..k]
    decreases |index|
  {
    if index[0] == x then 0
    else
      assert index == [index[0]] + index[1..];
      var k := FirstIndex(index[1..], x) + 1;
      assert index[..k] == [index[0]] + index[1..][..k - 1];
      k
  }

  lemma {:induction false} HitsInOrder(index: seq<Id>, rows: set<Id>, i: nat, j: nat, a: Id, b: Id)
    requires i < j < |Hits(index, rows)| && a == Hits(index, rows)[i] && b == Hits(index, rows)[j]
    requires a in index && b in index
    ensures FirstIndex(index, a) < FirstIndex(index, b)
    decreases |index|
  {
    var rows' := if index[0] in rows then rows - {index[0]} else rows;
    var rest := Hits(index[1..], rows');
    HitsFacts(index[1..], rows');
    if index[0] in rows {
      assert b == rest[j - 1] && b in rest;
      FirstIndexOfLater(index, b);
      if i > 0 {
        assert a == rest[i - 1] && a in rest;
        FirstIndexOfLater(index, a);
        HitsInOrder(index[1..], rows', i - 1, j - 1, a, b);
      }
    } else {
      assert a in rest && b in rest;
      FirstIndexOfLater(index, a);
      FirstIndexOfLater(index, b);
      HitsInOrder(index[1..], rows', i, j, a, b);
    }
  }

  lemma FirstIndexOfLater(index: seq<Id>, x: Id)
    requires index != [] && x in index[1..] && x != index[0]
    ensures x in index && FirstIndex(index, x) == FirstIndex(index[1..], x) + 1
  {
    assert index == [index[0]] + index[1..];
  }

  function Reversed(es: seq<Entry>): (r: seq<Entry>)
    ensures |r| == |es| && forall i | 0 <= i < |es| :: r[i] == es[|es| - 1 - i]
  {
    seq(|es|, i requires 0 <= i < |es| => es[|es| - 1 - i])
  }

  predicate Precedes(d: Direction, v: Value, w: Value) {
    if d.Asc? then v <= w else v >= w
  }

  // Sorted as the direction asks.
  predicate Directed(es: seq<Entry>, d: Direction) {
    forall i, j | 0 <= i < j < |es| :: Precedes(d, es[i].value, es[j].value)
  }

  // The value a document is sorted by: its lowest in ascending order, its highest in descending order.
  ghost predicate SortsBy(es: seq<Entry>, d: Direction, x: Id, v: Value) {
    && Entry(v, x) in es
    && forall w | Entry(w, x) in es :: if d.Asc? then v <= w else w <= v
  }

  /** The result follows the sorting: a document stands by its lowest (descending: highest) value, and those
      values never step back. */
  lemma SortedResult(es: seq<Entry>, d: Direction, rows: set<Id>, i: nat, j: nat, v: Value, w: Value)
    requires Directed(es, d) && i < j < |Hits(Ids(es), rows)|
    requires SortsBy(es, d, Hits(Ids(es), rows)[i], v) && SortsBy(es, d, Hits(Ids(es), rows)[j], w)
    ensures if d.Asc? then v <= w else v >= w
  {
    var hits := Hits(Ids(es), rows);
    HitsFacts(Ids(es), rows);
    assert hits[i] in hits && hits[j] in hits;
    HitsInOrder(Ids(es), rows, i, j, hits[i], hits[j]);
    SortsByFirst(es, d, hits[i], v);
    SortsByFirst(es, d, hits[j], w);
  }

  lemma SortsByFirst(es: seq<Entry>, d: Direction, x: Id, v: Value)
    requires Directed(es, d) && SortsBy(es, d, x, v) && x in Ids(es)
    ensures es[FirstIndex(Ids(es), x)] == Entry(v, x)
  {
    var k := FirstIndex(Ids(es), x);
    assert es[k] == Entry(es[k].value, x) && es[k] in es;
    var m :| 0 <= m < |es| && es[m] == Entry(v, x);
    assert m >= k by {
      assert Ids(es)[m] == x;
      assert forall n | 0 <= n < k :: Ids(es)[..k][n] != x;
      assert forall n | 0 <= n < k :: Ids(es)[n] == Ids(es)[..k][n];
    }
  }

  // ---------------------------------------------------------------- select_ids

  // The value kept for a document: the last one read from its index.
  function LastValue(es: seq<Entry>, x: Id): Option<Value>
    decreases |es|
  {
    if es == [] then None
    else if es[|es| - 1].id == x then Some(es[|es| - 1].value)
    else LastValue(es[..|es| - 1], x)
  }

  // The values handed to an aggregation, by the document they belong to.
  function Collected(es: seq<Entry>, ids: set<Id>): map<Id, Value> {
    map x | x in ids && LastValue(es, x).Some? :: LastValue(es, x).value
  }

  type Handler = map<Id, Value> -> int

  function Targets(rows: Rows): set<Id> {
    set d, i | d in rows && 0 <= i < |rows[d]| :: Target(d, rows[d][i])
  }

  // The live documents the tree selects, by brute force.
  ghost function Selected(t: Transform, rows: Rows, q: Query): set<Id> {
    set id | id in Targets(rows) && Matches(t, rows, q, id)
  }

  lemma MatchingPart(t: Transform, rows: Rows, q: Query, id: Id)
    requires WellFormed(q) && Matches(t, rows, q, id)
    ensures exists i :: 0 <= i < |q.parts| && PartMatches(t, rows, q.parts[i], id)
    ensures q.op.And? ==> forall j | 0 <= j < |q.parts| :: PartMatches(t, rows, q.parts[j], id)
  {
    if q.op.And? {
      assert PartMatches(t, rows, q.parts[0], id);
    }
  }

  lemma {:induction false} MatchesIsTarget(t: Transform, rows: Rows, q: Query, id: Id)
    requires WellFormed(q) && Matches(t, rows, q, id)
    ensures id in Targets(rows)
    decreases q
  {
    MatchingPart(t, rows, q, id);
    var i :| 0 <= i < |q.parts| && PartMatches(t, rows, q.parts[i], id);
    match q.parts[i]
    case Leaf(c) => assert Holds(t, rows, c, id);
    case Nested(inner) => MatchesIsTarget(t, rows, inner, id);
  }

  // The entries of a fetched condition, in either direction.
  ghost predicate IndexOf(t: Transform, rows: Rows, c: Condition, es: seq<Entry>) {
    forall e :: e in es <==> InIndex(t, rows, c, e)
  }

  ghost predicate Fetched(t: Transform, rows: Rows, indexes: map<Condition, seq<Entry>>) {
    forall c | c in indexes :: SortedEntries(indexes[c]) && IndexOf(t, rows, c, indexes[c])
  }

  method FetchAll(t: Transform, rows: Rows, plan: seq<Condition>) returns (indexes: map<Condition, seq<Entry>>)
    ensures forall c :: c in indexes <==> c in plan
    ensures Fetched(t, rows, indexes)
  {
    indexes := map[];
    for k := 0 to |plan|
      invariant forall c :: c in indexes <==> c in plan[..k]
      invariant Fetched(t, rows, indexes)
    {
      var es := FetchIndex(t, rows, plan[k]);
      indexes := indexes[plan[k] := es];
      assert plan[..k + 1] == plan[..k] + [plan[k]];
    }
    assert plan[..|plan|] == plan;
  }

  // The fetched responses select what brute force selects.
  lemma ResponseIsSelected(t: Transform, rows: Rows, indexes: map<Condition, seq<Entry>>, responses: Responses,
                           q: Query)
    requires WellFormed(q) && Fetched(t, rows, indexes)
    requires forall c | HasLeaf(q, c) :: c in indexes
    requires responses.Keys == indexes.Keys && forall c | c in indexes :: responses[c] == Ids(indexes[c])
    ensures Answered(responses, q) && QueryResponse(responses, q) == Selected(t, rows, q)
  {
    PlanAnswers(responses, q);
    forall c, id | c in responses ensures id in responses[c] <==> Holds(t, rows, c, id) {
      IndexMeansHolds(t, rows, c, indexes[c], id);
    }
    forall id ensures id in QueryResponse(responses, q) <==> id in Selected(t, rows, q) {
      QueryEqualsBruteForce(t, rows, responses, q, id);
      if Matches(t, rows, q, id) {
        MatchesIsTarget(t, rows, q, id);
      }
    }
  }

  lemma ReversedIndex(t: Transform, rows: Rows, c: Condition, es: seq<Entry>)
    requires SortedEntries(es) && IndexOf(t, rows, c, es)
    ensures Directed(Reversed(es), Desc) && IndexOf(t, rows, c, Reversed(es))
  {
    var r := Reversed(es);
    forall e ensures e in r <==> e in es {
      if e in es {
        var k :| 0 <= k < |es| && es[k] == e;
        assert r[|es| - 1 - k] == e;
      }
    }
  }

  // ---------------------------------------------------------------- fields kept by their highest value

  predicate OnceEach(es: seq<Entry>) {
    forall i, j | 0 <= i < j < |es| :: es[i].id != es[j].id
  }

  // One entry for each document the condition asks for, with the first of its values in the given order.
  ghost predicate FirstValues(t: Transform, rows: Rows, c: Condition, d: Direction, es: seq<Entry>) {
    && Directed(es, d) && OnceEach(es)
    && (forall e | e in es :: InIndex(t, rows, c, e))
    && (forall e | InIndex(t, rows, c, e) :: StandsFor(es, d, e))
  }

  // The entry of the same document comes no later.
  ghost predicate StandsFor(es: seq<Entry>, d: Direction, e: Entry) {
    exists k :: 0 <= k < |es| && es[k].id == e.id && Precedes(d, es[k].value, e.value)
  }

  function FetchOrder(t: Transform, c: Condition): Direction {
    if GenerateHighestKeys(t, c).descending then Desc else Asc
  }

  /** fetch() of a highest-value field: ranges are read from their upper end, and of the rows of a document
      only the first one is kept. Single keys are read upwards. */
  method FetchHighest(t: Transform, rows: Rows, c: Condition) returns (index: seq<Entry>)
    ensures FirstValues(t, rows, c, FetchOrder(t, c), index)
  {
    var es := FetchIndex(t, rows, c);
    if FetchOrder(t, c).Desc? {
      ReversedIndex(t, rows, c, es);
      es := Reversed(es);
    }
    index := KeepFirst(es);
    FirstsAreEntries(es);
    FirstsAreDirected(es, FetchOrder(t, c));
    forall e | InIndex(t, rows, c, e) ensures StandsFor(index, FetchOrder(t, c), e) {
      assert e in es;
      var j :| 0 <= j < |es| && es[j] == e;
      FirstsStand(es, FetchOrder(t, c), j);
    }
  }

  predicate HasId(es: seq<Entry>, x: Id) {
    exists k :: 0 <= k < |es| && es[k].id == x
  }

  // Of the entries of a document only the first one is kept.
  function Firsts(es: seq<Entry>): seq<Entry>
    decreases |es|
  {
    if es == [] then []
    else
      var before := Firsts(es[..|es| - 1]);
      if HasId(before, es[|es| - 1].id) then before else before + [es[|es| - 1]]
  }

  lemma {:induction false} FirstsAreEntries(es: seq<Entry>)
    ensures forall e | e in Firsts(es) :: e in es
    ensures OnceEach(Firsts(es))
    decreases |es|
  {
    if es != [] {
      FirstsAreEntries(es[..|es| - 1]);
    }
  }

  lemma {:induction false} FirstsAreDirected(es: seq<Entry>, d: Direction)
    requires Directed(es, d)
    ensures Directed(Firsts(es), d)
    decreases |es|
  {
    if es != [] {
      var n := |es| - 1;
      FirstsAreDirected(es[..n], d);
      FirstsAreEntries(es[..n]);
      forall e | e in Firsts(es[..n]) ensures Precedes(d, e.value, es[n].value) {
        assert e in es[..n];
      }
    }
  }

  lemma {:induction false} FirstsStand(es: seq<Entry>, d: Direction, j: nat)
    requires Directed(es, d) && j < |es|
    ensures StandsFor(Firsts(es), d, es[j])
    decreases |es|
  {
    var n := |es| - 1;
    var before := Firsts(es[..n]);
    if j < n {
      FirstsStand(es[..n], d, j);
      var k :| 0 <= k < |before| && before[k].id == es[j].id && Precedes(d, before[k].value, es[j].value);
      assert Firsts(es)[k] == before[k];
    } else if HasId(before, es[n].id) {
      var k :| 0 <= k < |before| && before[k].id == es[n].id;
      FirstsAreEntries(es[..n]);
      assert before[k] in es[..n];
    } else {
      assert Firsts(es)[|before|] == es[n];
    }
  }

  // parse_view_result() of such a field.
  method KeepFirst(es: seq<Entry>) returns (result: seq<Entry>)
    ensures result == Firsts(es)
  {
    result := [];
    var seen: set<Id> := {};
    for i := 0 to |es|
      invariant result == Firsts(es[..i])
      invariant forall x :: x in seen <==> HasId(result, x)
    {
      assert es[..i + 1][..i] == es[..i];
      if es[i].id !in seen {
        SeenMore(result, es[i]);
        seen := seen + {es[i].id};
        result := result + [es[i]];
      }
    }
    assert es[..|es|] == es;
  }

  lemma SeenMore(es: seq<Entry>, e: Entry)
    ensures forall x :: HasId(es + [e], x) <==> HasId(es, x) || x == e.id
  {
    var more := es + [e];
    assert more[|es|] == e && forall k | 0 <= k < |es| :: more[k] == es[k];
  }

  // The index as the slice reads it: turned around for descending order.
  function Used(es: seq<Entry>, d: Direction): seq<Entry> {
    if d.Desc? then Reversed(es) else es
  }

  function Opposite(d: Direction): Direction {
    if d.Asc? then Desc else Asc
  }

  /** Sorting by such a field turns around when its index is read from the upper end: asked for ascending order
      the values of the result never rise, and asked for descending order they never fall. */
  lemma HighestTurnsAround(es: seq<Entry>, o: Direction, d: Direction, matched: set<Id>, i: nat, j: nat, v: Value,
                           w: Value)
    requires Directed(es, o) && OnceEach(es) && i < j < |Hits(Ids(Used(es, d)), matched)|
    requires Entry(v, Hits(Ids(Used(es, d)), matched)[i]) in es && Entry(w, Hits(Ids(Used(es, d)), matched)[j]) in es
    ensures Precedes(if o.Desc? then Opposite(d) else d, v, w)
  {
    var used, hits := Used(es, d), Hits(Ids(Used(es, d)), matched);
    SameEntries(es, d);
    OnlyValue(used, if o.Desc? then Opposite(d) else d, hits[i], v);
    OnlyValue(used, if o.Desc? then Opposite(d) else d, hits[j], w);
    SortedResult(used, if o.Desc? then Opposite(d) else d, matched, i, j, v, w);
  }

  // The values of the hits go as asked.
  ghost predicate InOrder(es: seq<Entry>, d: Direction, hits: seq<Id>) {
    forall i, j, v, w | 0 <= i < j < |hits| && Entry(v, hits[i]) in es && Entry(w, hits[j]) in es :: Precedes(d, v, w)
  }

  ghost predicate AllEqual(es: seq<Entry>, matched: set<Id>) {
    forall e, e' | e in es && e' in es && e.id in matched && e'.id in matched :: e.value == e'.value
  }

  /** The result is in the order asked for if and only if the index was not read from its upper end, or the
      values of the matched documents are all the same. */
  lemma HighestInOrder(t: Transform, rows: Rows, c: Condition, es: seq<Entry>, d: Direction, matched: set<Id>)
    requires FirstValues(t, rows, c, FetchOrder(t, c), es)
    ensures InOrder(es, d, Hits(Ids(Used(es, d)), matched)) <==> FetchOrder(t, c).Asc? || AllEqual(es, matched)
  {
    var o, hits := FetchOrder(t, c), Hits(Ids(Used(es, d)), matched);
    forall i, j, v, w | 0 <= i < j < |hits| && Entry(v, hits[i]) in es && Entry(w, hits[j]) in es
      ensures Precedes(if o.Desc? then Opposite(d) else d, v, w)
    {
      HighestTurnsAround(es, o, d, matched, i, j, v, w);
    }
    HitsFacts(Ids(Used(es, d)), matched);
    if o.Desc? && InOrder(es, d, hits) {
      forall e, e' | e in es && e' in es && e.id in matched && e'.id in matched ensures e.value == e'.value {
        BothWays(es, d, matched, e, e');
      }
    }
    if AllEqual(es, matched) {
      forall i | 0 <= i < |hits| ensures hits[i] in matched {
        assert hits[i] in hits;
      }
    }
  }

  lemma BothWays(es: seq<Entry>, d: Direction, matched: set<Id>, e: Entry, e': Entry)
    requires Directed(es, Desc) && OnceEach(es) && InOrder(es, d, Hits(Ids(Used(es, d)), matched))
    requires e in es && e' in es && e.id in matched && e'.id in matched
    ensures e.value == e'.value
  {
    var hits := Hits(Ids(Used(es, d)), matched);
    var i := HitOf(es, d, matched, e);
    var j := HitOf(es, d, matched, e');
    assert Entry(e.value, hits[i]) in es && Entry(e'.value, hits[j]) in es;
    if i == j {
      OnlyValue(es, Asc, e.id, e.value);
    } else if i < j {
      HighestTurnsAround(es, Desc, d, matched, i, j, e.value, e'.value);
      assert Precedes(d, e.value, e'.value);
    } else {
      HighestTurnsAround(es, Desc, d, matched, j, i, e'.value, e.value);
      assert Precedes(d, e'.value, e.value);
    }
  }

  lemma HitOf(es: seq<Entry>, d: Direction, matched: set<Id>, e: Entry) returns (i: nat)
    requires e in es && e.id in matched
    ensures i < |Hits(Ids(Used(es, d)), matched)| && Hits(Ids(Used(es, d)), matched)[i] == e.id
  {
    SameEntries(es, d);
    var used, hits := Used(es, d), Hits(Ids(Used(es, d)), matched);
    var k :| 0 <= k < |used| && used[k] == e;
    assert Ids(used)[k] == e.id;
    HitsFacts(Ids(used), matched);
    i :| 0 <= i < |hits| && hits[i] == e.id;
  }

  lemma SameEntries(es: seq<Entry>, d: Direction)
    ensures forall e :: e in Used(es, d) <==> e in es
    ensures forall o | Directed(es, o) :: Directed(Used(es, d), if d.Desc? then Opposite(o) else o)
    ensures OnceEach(es) ==> OnceEach(Used(es, d))
  {
    var used := Used(es, d);
    forall e ensures e in used <==> e in es {
      if e in es && d.Desc? {
        var k :| 0 <= k < |es| && es[k] == e;
        assert used[|es| - 1 - k] == e;
      }
    }
  }

  function Untransformed(f: Field, v: Value): Value {
    v
  }

  /** The failing input: two documents sorted by their highest value, in both orders the wrong way. */
  lemma HighestWrongWay()
    ensures var t, c := Untransformed, Condition(0, Unlimited);
      var rows: Rows := map["a" := [Row(0, 1, None)], "b" := [Row(0, 2, None)]];
      var es := [Entry(2, "b"), Entry(1, "a")];
      && FirstValues(t, rows, c, FetchOrder(t, c), es)
      && IsSlice(["b", "a"], Ids(Used(es, Asc)), {"a", "b"}, 0, 2)
      && IsSlice(["a", "b"], Ids(Used(es, Desc)), {"a", "b"}, 0, 2)
  {
    var t, c := Untransformed, Condition(0, Unlimited);
    var rows: Rows := map["a" := [Row(0, 1, None)], "b" := [Row(0, 2, None)]];
    var es := [Entry(2, "b"), Entry(1, "a")];
    assert rows["a"][0] == Row(0, 1, None) && rows["b"][0] == Row(0, 2, None);
    assert Satisfies(t, c, 1) && Satisfies(t, c, 2);
    forall e | e in es ensures InIndex(t, rows, c, e) {
      assert e == es[0] || e == es[1];
    }
    forall e | InIndex(t, rows, c, e) ensures StandsFor(es, Desc, e) {
      assert e == es[0] || e == es[1];
    }
    WrongWayPages(es);
  }

  lemma WrongWayPages(es: seq<Entry>)
    requires es == [Entry(2, "b"), Entry(1, "a")]
    ensures IsSlice(["b", "a"], Ids(Used(es, Asc)), {"a", "b"}, 0, 2)
    ensures IsSlice(["a", "b"], Ids(Used(es, Desc)), {"a", "b"}, 0, 2)
  {
    TwoHits("b", "a");
    TwoHits("a", "b");
    assert Ids(Used(es, Asc)) == ["b", "a"] && Ids(Used(es, Desc)) == ["a", "b"];
  }

  lemma TwoHits(x: Id, y: Id)
    requires x != y
    ensures IsSlice([x, y], [x, y], {x, y}, 0, 2)
  {
    assert [x, y][1..] == [y] && [y][1..] == [] && {x, y} - {x} == {y};
    assert Hits([y], {y}) == [y];
    assert Hits([x, y], {x, y}) == [x, y];
  }

  lemma OnlyValue(es: seq<Entry>, d: Direction, x: Id, v: Value)
    requires OnceEach(es) && Entry(v, x) in es
    ensures SortsBy(es, d, x, v)
    ensures forall w | Entry(w, x) in es :: w == v
  {
    forall w | Entry(w, x) in es ensures w == v {
      var i :| 0 <= i < |es| && es[i] == Entry(v, x);
      var j :| 0 <= j < |es| && es[j] == Entry(w, x);
      assert es[i].id == es[j].id;
    }
  }

  // ---------------------------------------------------------------- the whole selection

  datatype Result = Result(ids: seq<Id>, totalCount: nat, aggregations: seq<int>)

  // The ids are a slice, along an index fetched for the sorting field, of all that is selected.
  ghost predicate SortedSlice(t: Transform, rows: Rows, q: Query, skip: nat, limit: Option<nat>, ids: seq<Id>) {
    exists c, es :: c in BasicQueries(q) && c.field == q.sortBy && SliceOf(t, rows, q, c, es, skip, limit, ids)
  }

  // They are the slice along that index.
  ghost predicate SliceOf(t: Transform, rows: Rows, q: Query, c: Condition, es: seq<Entry>, skip: nat,
                          limit: Option<nat>, ids: seq<Id>) {
    && Directed(es, q.direction) && IndexOf(t, rows, c, es)
    && IsSlice(ids, Ids(es), Selected(t, rows, q), skip, Stop(limit, skip, |Selected(t, rows, q)|))
  }

  function Stop(limit: Option<nat>, skip: nat, total: nat): nat {
    if limit.Some? then skip + limit.value else total
  }

  // The handler saw the values, in an index of its field, of what is selected and listed there.
  ghost predicate Aggregated(t: Transform, rows: Rows, q: Query, handler: Handler, f: Field, result: int) {
    exists c, es :: && c in BasicQueries(q) && c.field == f && SortedEntries(es) && IndexOf(t, rows, c, es)
                    && result == handler(Collected(es, Selected(t, rows, q)))
  }

  /** select_ids: plan, fetch, combine, slice and aggregate. The count speaks of everything selected, whatever
      `skip` and `limit` are; an aggregation speaks of what is selected and listed by the index fetched for
      its field. */
  method SelectIds(t: Transform, rows: Rows, q: Query, aggregate: seq<(Handler, Field)>, skip: nat, limit: Option<nat>)
    returns (r: Result)
    requires WellFormed(q) && forall a | a in aggregate :: a.1 in q.values
    ensures r.totalCount == |Selected(t, rows, q)|
    ensures SortedSlice(t, rows, q, skip, limit, r.ids)
    ensures |r.aggregations| == |aggregate|
    ensures forall k | 0 <= k < |aggregate| :: Aggregated(t, rows, q, aggregate[k].0, aggregate[k].1, r.aggregations[k])
  {
    var plan := GetBasicQueries(q);
    PlanIsComplete(q);
    var indexes := FetchAll(t, rows, plan);
    var responses := map c | c in indexes :: Ids(indexes[c]);
    ResponseIsSelected(t, rows, indexes, responses, q);
    var temp := QueryResponse(responses, q);
    assert HasField(plan, q.sortBy);
    var ids := SliceAlong(t, rows, q, indexes, temp, skip, limit);
    var aggregations := Aggregate(t, rows, q, aggregate, indexes, temp);
    r := Result(ids, |temp|, aggregations);
  }

  // Any index fetched for the sorting field will do.
  method SliceAlong(ghost t: Transform, ghost rows: Rows, q: Query, indexes: map<Condition, seq<Entry>>,
                    selected: set<Id>, skip: nat, limit: Option<nat>) returns (ids: seq<Id>)
    requires Fetched(t, rows, indexes) && selected == Selected(t, rows, q)
    requires forall c :: c in indexes <==> c in BasicQueries(q)
    requires HasField(BasicQueries(q), q.sortBy)
    ensures SortedSlice(t, rows, q, skip, limit, ids)
  {
    var c :| c in indexes && c.field == q.sortBy;
    var index := indexes[c];
    if q.direction.Desc? {
      ReversedIndex(t, rows, c, index);
      index := Reversed(index);
    }
    assert Directed(index, q.direction) && IndexOf(t, rows, c, index);
    ids := GetSortedSlice(Ids(index), selected, skip, if limit.Some? then Some(skip + limit.value) else None);
    assert SliceOf(t, rows, q, c, index, skip, limit, ids);
  }

  // Whichever index is fetched for the sorting field lists all that is selected.
  ghost predicate SortingCovers(t: Transform, rows: Rows, q: Query) {
    forall c, x | c in BasicQueries(q) && c.field == q.sortBy && x in Selected(t, rows, q) :: Holds(t, rows, c, x)
  }

  function Most(n: nat, limit: Option<nat>): nat {
    if limit.Some? && limit.value < n then limit.value else n
  }

  /** Paging: with a covering index the page after `skip` rows has as many ids as are left there, at most
      `limit`, and they stand in the sorted result from position `skip` on. */
  lemma PageHolds(t: Transform, rows: Rows, q: Query, c: Condition, es: seq<Entry>, skip: nat, limit: Option<nat>,
                  ids: seq<Id>)
    requires SliceOf(t, rows, q, c, es, skip, limit, ids)
    requires forall x | x in Selected(t, rows, q) :: Holds(t, rows, c, x)
    ensures var all, hits := |Selected(t, rows, q)|, Hits(Ids(es), Selected(t, rows, q));
      && |hits| == all && |ids| == (if skip < all then Most(all - skip, limit) else 0)
      && forall i | 0 <= i < |ids| :: ids[i] == hits[skip + i]
  {
    var selected := Selected(t, rows, q);
    forall x | x in selected ensures x in Ids(es) {
      IndexMeansHolds(t, rows, c, es, x);
    }
    CoveredSlice(ids, Ids(es), selected, skip, Stop(limit, skip, |selected|));
    CoveringListsAll(Ids(es), selected);
  }

  /** So it is with whatever select_ids answers. */
  lemma PageLength(t: Transform, rows: Rows, q: Query, skip: nat, limit: Option<nat>, ids: seq<Id>)
    requires SortedSlice(t, rows, q, skip, limit, ids) && SortingCovers(t, rows, q)
    ensures var all := |Selected(t, rows, q)|; |ids| == if skip < all then Most(all - skip, limit) else 0
  {
    var c, es :| c in BasicQueries(q) && c.field == q.sortBy && SliceOf(t, rows, q, c, es, skip, limit, ids);
    PageHolds(t, rows, q, c, es, skip, limit, ids);
  }

  /** Its pages of `limit` rows each, along one covering index, join to the sorted result: to the whole of it as
      soon as they are enough. */
  lemma PagesJoin(t: Transform, rows: Rows, q: Query, c: Condition, es: seq<Entry>, limit: nat, pages: seq<seq<Id>>)
    requires forall k | 0 <= k < |pages| :: SliceOf(t, rows, q, c, es, k * limit, Some(limit), pages[k])
    requires IndexOf(t, rows, c, es) && forall x | x in Selected(t, rows, q) :: Holds(t, rows, c, x)
    ensures Concat(pages) <= Hits(Ids(es), Selected(t, rows, q))
    ensures |Concat(pages)| == Most(|Selected(t, rows, q)|, Some(|pages| * limit))
  {
    var hits := Hits(Ids(es), Selected(t, rows, q));
    CoversSelected(t, rows, q, c, es);
    forall k | 0 <= k < |pages| ensures pages[k] == Page(hits, Offset(k, limit), Offset(k + 1, limit)) {
      OffsetIs(k, limit);
      PageHolds(t, rows, q, c, es, k * limit, Some(limit), pages[k]);
    }
    JoinPages(pages, hits, limit);
    OffsetIs(|pages|, limit);
  }

  lemma CoversSelected(t: Transform, rows: Rows, q: Query, c: Condition, es: seq<Entry>)
    requires IndexOf(t, rows, c, es)
    requires forall x | x in Selected(t, rows, q) :: Holds(t, rows, c, x)
    ensures |Hits(Ids(es), Selected(t, rows, q))| == |Selected(t, rows, q)|
  {
    forall x | x in Selected(t, rows, q) ensures x in Ids(es) {
      IndexMeansHolds(t, rows, c, es, x);
    }
    CoveringListsAll(Ids(es), Selected(t, rows, q));
  }

  lemma {:induction false} OffsetIs(k: nat, limit: nat)
    ensures Offset(k, limit) == k * limit
  {
    if k > 0 {
      OffsetIs(k - 1, limit);
    }
  }

  method Aggregate(ghost t: Transform, ghost rows: Rows, q: Query, aggregate: seq<(Handler, Field)>,
                   indexes: map<Condition, seq<Entry>>, selected: set<Id>) returns (aggregations: seq<int>)
    requires (forall a | a in aggregate :: a.1 in q.values) && Fetched(t, rows, indexes)
               && selected == Selected(t, rows, q)
    requires forall c :: c in indexes <==> c in BasicQueries(q)
    requires forall f | f in q.values :: HasField(BasicQueries(q), f)
    ensures |aggregations| == |aggregate|
    ensures forall k | 0 <= k < |aggregate| :: Aggregated(t, rows, q, aggregate[k].0, aggregate[k].1, aggregations[k])
  {
    aggregations := [];
    for k := 0 to |aggregate|
      invariant |aggregations| == k
      invariant forall j | 0 <= j < k :: Aggregated(t, rows, q, aggregate[j].0, aggregate[j].1, aggregations[j])
    {
      assert aggregate[k] in aggregate && HasField(BasicQueries(q), aggregate[k].1);
      var c :| c in indexes && c.field == aggregate[k].1;
      aggregations := aggregations + [aggregate[k].0(Collected(indexes[c], selected))];
    }
  }

  /** An aggregation sees every selected document having a value of its field if and only if the condition
      fetched for the field holds of each of them. What it sees of a document is one of its values. */
  lemma AggregatesAll(t: Transform, rows: Rows, c: Condition, es: seq<Entry>, selected: set<Id>)
    requires IndexOf(t, rows, c, es)
    ensures var any := Condition(c.field, Unlimited);
      (forall x | x in selected && Holds(t, rows, any, x) :: x in Collected(es, selected))
      <==> forall x | x in selected && Holds(t, rows, any, x) :: Holds(t, rows, c, x)
    ensures forall x | x in Collected(es, selected) :: InIndex(t, rows, c, Entry(Collected(es, selected)[x], x))
  {
    forall x | x in selected ensures x in Collected(es, selected) <==> Holds(t, rows, c, x) {
      LastValueIsListed(es, x);
      IndexMeansHolds(t, rows, c, es, x);
    }
    forall x | x in Collected(es, selected) ensures InIndex(t, rows, c, Entry(Collected(es, selected)[x], x)) {
      LastValueIsListed(es, x);
    }
  }

  /** It is the highest of its values that the condition asks for. */
  lemma AggregatesHighest(t: Transform, rows: Rows, c: Condition, es: seq<Entry>, selected: set<Id>, x: Id, v: Value)
    requires IndexOf(t, rows, c, es) && SortedEntries(es) && x in Collected(es, selected)
    ensures Collected(es, selected)[x] == v <==>
      InIndex(t, rows, c, Entry(v, x)) && forall w | InIndex(t, rows, c, Entry(w, x)) :: w <= v
  {
    LastValueIsListed(es, x);
    var last := LastValue(es, x).value;
    forall w | Entry(w, x) in es ensures w <= last {
      LastIsHighest(es, x, w);
    }
    assert Entry(last, x) in es;
  }

  lemma {:induction false} LastIsHighest(es: seq<Entry>, x: Id, w: Value)
    requires SortedEntries(es) && Entry(w, x) in es
    ensures LastValue(es, x).Some? && w <= LastValue(es, x).value
    decreases |es|
  {
    var n := |es| - 1;
    var i :| 0 <= i < |es| && es[i] == Entry(w, x);
    if es[n].id != x {
      assert es[..n][i] == es[i];
      LastIsHighest(es[..n], x, w);
    }
  }

  lemma {:induction false} LastValueIsListed(es: seq<Entry>, x: Id)
    ensures LastValue(es, x).Some? <==> x in Ids(es)
    ensures LastValue(es, x).Some? ==> Entry(LastValue(es, x).value, x) in es
    decreases |es|
  {
    if es != [] {
      var n := |es| - 1;
      LastValueIsListed(es[..n], x);
      assert Ids(es) == Ids(es[..n]) + [es[n].id];
      assert es[n] in es;
    }
  }

  /** The failing input: "a" is selected by its name and has an age, but the plan fetches the ages from 10 on
      only, and the aggregation of the ages sees nothing. */
  lemma AggregationMisses(handler: Handler, result: int)
    ensures var t, aged, named := Untransformed, Condition(0, Ge(10)), Condition(1, Equals(7));
      var rows: Rows := map["a" := [Row(0, 5, None), Row(1, 7, None)]];
      var q := Query([Leaf(aged), Leaf(named)], Or, 1, Asc, [0]);
      && WellFormed(q) && Selected(t, rows, q) == {"a"} && Holds(t, rows, Condition(0, Unlimited), "a")
      && (Aggregated(t, rows, q, handler, 0, result) ==> result == handler(map[]))
  {
    var t, aged, named := Untransformed, Condition(0, Ge(10)), Condition(1, Equals(7));
    var rows: Rows := map["a" := [Row(0, 5, None), Row(1, 7, None)]];
    var q := Query([Leaf(aged), Leaf(named)], Or, 1, Asc, [0]);
    MissedPlan(q);
    MissedSelection(t, rows, q);
    if Aggregated(t, rows, q, handler, 0, result) {
      var c, es :| && c in BasicQueries(q) && c.field == 0 && SortedEntries(es) && IndexOf(t, rows, c, es)
                   && result == handler(Collected(es, Selected(t, rows, q)));
      assert c == aged;
      IndexMeansHolds(t, rows, c, es, "a");
      LastValueIsListed(es, "a");
      assert Collected(es, {"a"}) == map[];
    }
  }

  lemma MissedPlan(q: Query)
    requires q == Query([Leaf(Condition(0, Ge(10))), Leaf(Condition(1, Equals(7)))], Or, 1, Asc, [0])
    ensures forall c :: c in BasicQueries(q) <==> c == Condition(0, Ge(10)) || c == Condition(1, Equals(7))
  {
    var cs := [Condition(0, Ge(10)), Condition(1, Equals(7))];
    assert PlanParts(q, 2) == cs by {
      assert PlanParts(q, 0) == [] && PlanPart(q.parts[0]) == [cs[0]] && PlanPart(q.parts[1]) == [cs[1]];
      assert PlanParts(q, 1) == [cs[0]];
    }
    NothingAdded(cs);
    assert [q.sortBy] + q.values == [1, 0];
    DedupKeepsEach(cs);
  }

  lemma NothingAdded(cs: seq<Condition>)
    requires |cs| == 2 && cs[0].field == 0 && cs[1].field == 1
    ensures AddFields(cs, [1, 0]) == cs
  {
    assert [1, 0][1..] == [0] && [0][1..] == [];
    assert AddFields(cs, [0]) == cs;
  }

  lemma MissedSelection(t: Transform, rows: Rows, q: Query)
    requires t == Untransformed && rows == map["a" := [Row(0, 5, None), Row(1, 7, None)]]
    requires q == Query([Leaf(Condition(0, Ge(10))), Leaf(Condition(1, Equals(7)))], Or, 1, Asc, [0])
    ensures Selected(t, rows, q) == {"a"}
    ensures Holds(t, rows, Condition(0, Unlimited), "a") && !Holds(t, rows, Condition(0, Ge(10)), "a")
  {
    MissedRows(t, rows);
    assert PartMatches(t, rows, q.parts[1], "a");
  }

  lemma MissedRows(t: Transform, rows: Rows)
    requires t == Untransformed && rows == map["a" := [Row(0, 5, None), Row(1, 7, None)]]
    ensures Targets(rows) == {"a"} && Holds(t, rows, Condition(1, Equals(7)), "a")
    ensures Holds(t, rows, Condition(0, Unlimited), "a") && !Holds(t, rows, Condition(0, Ge(10)), "a")
  {
    assert rows["a"][0] == Row(0, 5, None) && rows["a"][1] == Row(1, 7, None);
    assert Target("a", rows["a"][0]) == "a" && Target("a", rows["a"][1]) == "a";
    assert Satisfies(t, Condition(0, Unlimited), 5) && Satisfies(t, Condition(1, Equals(7)), 7);
  }

  /** When all parts must hold and the sorting index was fetched for one of them, it covers the result; so
      do the pages then. */
  lemma AndCovers(t: Transform, rows: Rows, q: Query, i: nat, es: seq<Entry>)
    requires WellFormed(q) && (q.op.And? || |q.parts| == 1) && i < |q.parts| && q.parts[i].Leaf?
    requires IndexOf(t, rows, q.parts[i].condition, es)
    ensures Covers(Ids(es), Selected(t, rows, q))
  {
    forall x | x in Selected(t, rows, q) ensures x in Ids(es) {
      MatchingPart(t, rows, q, x);
      IndexMeansHolds(t, rows, q.parts[i].condition, es, x);
    }
  }
}
