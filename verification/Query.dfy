// The query engine: boolean query trees over view indexes. A tree is planned into one index fetch for
// each condition, the fetched sets are combined, and the result is sorted and paged along an index.

module Query {
  import opened Wrappers
  import opened EmuDatabase

  // Field names and values enter only through their order and stand as integers.
  type Field = int
  type Value = int

  // How the values of each field are transformed for its index.
  type Transform = (Field, Value) -> Value

  datatype Test =
    | Equals(v: Value) | Le(v: Value) | Ge(v: Value) | Between(lo: Value, hi: Value) | Inside(vs: seq<Value>)
    | Unlimited

  datatype Condition = Condition(field: Field, test: Test)

  datatype Operator = And | Or
  datatype Direction = Asc | Desc

  // A query holds at least one part; all its operators are the same.
  datatype Part = Leaf(condition: Condition) | Nested(query: Query)
  datatype Query = Query(parts: seq<Part>, op: Operator, sortBy: Field, direction: Direction, values: seq<Field>)

  // ---------------------------------------------------------------- keys

  // The components of a key; BIGGEST compares greater than anything.
  datatype Atom = Num(n: int) | Biggest

  type Key = seq<Atom>

  function AtomLess(a: Atom, b: Atom): bool {
    a.Num? && (b.Biggest? || a.n < b.n)
  }

  // Tuples compare by their first different component; a proper prefix is smaller.
  function KeyLess(a: Key, b: Key): bool
    decreases |a|
  {
    if a == [] then b != []
    else if b == [] then false
    else if a[0] == b[0] then KeyLess(a[1..], b[1..])
    else AtomLess(a[0], b[0])
  }

  datatype KeyOptions = KeyOptions(key: Option<Key>, keys: Option<seq<Key>>, startkey: Option<Key>,
                                   endkey: Option<Key>, descending: bool)

  function GenerateKeys(t: Transform, c: Condition): KeyOptions {
    var f := Num(c.field);
    match c.test
    case Equals(v) => KeyOptions(Some([f, Num(t(c.field, v))]), None, None, None, false)
    case Le(v) => KeyOptions(None, None, Some([f]), Some([f, Num(t(c.field, v))]), false)
    case Ge(v) => KeyOptions(None, None, Some([f, Num(t(c.field, v))]), Some([f, Biggest]), false)
    case Between(lo, hi) =>
      KeyOptions(None, None, Some([f, Num(t(c.field, lo))]), Some([f, Num(t(c.field, hi))]), false)
    case Inside(vs) =>
      KeyOptions(None, Some(seq(|vs|, i requires 0 <= i < |vs| => [f, Num(t(c.field, vs[i]))])), None, None, false)
    case Unlimited => KeyOptions(None, None, Some([f]), Some([f, Biggest]), false)
  }

  // The keys a highest-value field asks with: the same range, read from its upper end.
  function GenerateHighestKeys(t: Transform, c: Condition): KeyOptions {
    var r := GenerateKeys(t, c);
    if r.startkey.Some? && r.endkey.Some? then r.(startkey := r.endkey, endkey := r.startkey, descending := true) else r
  }

  function MatchesFilter(key: Key, o: KeyOptions): bool {
    if o.key.Some? && o.key.value != key then false
    else if o.keys.Some? && key !in o.keys.value then false
    else if o.startkey.Some? && ((!o.descending && KeyLess(key, o.startkey.value))
                                 || (o.descending && KeyLess(o.startkey.value, key))) then false
    else if o.endkey.Some? && ((!o.descending && KeyLess(o.endkey.value, key))
                               || (o.descending && KeyLess(key, o.endkey.value))) then false
    else true
  }

  // What a condition asks of a value of its field.
  predicate Satisfies(t: Transform, c: Condition, value: Value) {
    match c.test
    case Equals(v) => value == t(c.field, v)
    case Le(v) => value <= t(c.field, v)
    case Ge(v) => value >= t(c.field, v)
    case Between(lo, hi) => t(c.field, lo) <= value <= t(c.field, hi)
    case Inside(vs) => exists i :: 0 <= i < |vs| && value == t(c.field, vs[i])
    case Unlimited => true
  }

  function RowKey(r: Row): Key {
    [Num(r.field), Num(r.value)]
  }

  // Comparing a row with the bounds that occur comes down to comparing fields and values.
  lemma CompareRow(r: Row, f: Field, v: Value)
    ensures KeyLess(RowKey(r), [Num(f), Num(v)]) <==> r.field < f || (r.field == f && r.value < v)
    ensures KeyLess([Num(f), Num(v)], RowKey(r)) <==> f < r.field || (r.field == f && v < r.value)
    ensures KeyLess(RowKey(r), [Num(f)]) <==> r.field < f
    ensures KeyLess([Num(f)], RowKey(r)) <==> f <= r.field
    ensures KeyLess(RowKey(r), [Num(f), Biggest]) <==> r.field <= f
    ensures KeyLess([Num(f), Biggest], RowKey(r)) <==> f < r.field
  {
    CompareTwo(Num(r.field), Num(r.value), Num(f), Num(v));
    CompareTwo(Num(f), Num(v), Num(r.field), Num(r.value));
    CompareTwo(Num(r.field), Num(r.value), Num(f), Biggest);
    CompareTwo(Num(f), Biggest, Num(r.field), Num(r.value));
    assert RowKey(r)[1..] == [Num(r.value)];
    assert [Num(f)][1..] == [];
  }

  lemma CompareTwo(a: Atom, b: Atom, c: Atom, d: Atom)
    ensures KeyLess([a, b], [c, d]) <==> if a == c then AtomLess(b, d) else AtomLess(a, c)
  {
    assert [a, b][1..] == [b] && [c, d][1..] == [d];
    assert [b][1..] == [] && [d][1..] == [];
    assert KeyLess([b], [d]) <==> if b == d then false else AtomLess(b, d);
  }

  /** The key range of a condition filters out exactly the rows of other fields and those whose value does
      not satisfy the condition; the reversed range of a highest-value field filters the same rows. */
  lemma KeysMeanCondition(t: Transform, c: Condition, r: Row)
    ensures MatchesFilter(RowKey(r), GenerateKeys(t, c)) <==> r.field == c.field && Satisfies(t, c, r.value)
    ensures MatchesFilter(RowKey(r), GenerateHighestKeys(t, c)) <==> r.field == c.field && Satisfies(t, c, r.value)
  {
    match c.test
    case Equals(v) =>
    case Le(v) => CompareRow(r, c.field, t(c.field, v));
    case Ge(v) => CompareRow(r, c.field, t(c.field, v));
    case Between(lo, hi) =>
      CompareRow(r, c.field, t(c.field, lo));
      CompareRow(r, c.field, t(c.field, hi));
    case Inside(vs) => InsideKeys(t, c, r);
    case Unlimited => CompareRow(r, c.field, 0);
  }

  lemma InsideKeys(t: Transform, c: Condition, r: Row)
    requires c.test.Inside?
    ensures RowKey(r) in GenerateKeys(t, c).keys.value <==> r.field == c.field && Satisfies(t, c, r.value)
  {
    var vs, keys := c.test.vs, GenerateKeys(t, c).keys.value;
    if r.field == c.field && Satisfies(t, c, r.value) {
      var i :| 0 <= i < |vs| && r.value == t(c.field, vs[i]);
      assert keys[i] == RowKey(r);
    }
    if RowKey(r) in keys {
      var i :| 0 <= i < |keys| && keys[i] == RowKey(r);
      assert keys[i] == [Num(c.field), Num(t(c.field, vs[i]))];
      assert RowKey(r)[0] == keys[i][0] && RowKey(r)[1] == keys[i][1];
    }
  }

  /** A range is read from its upper end for a highest-value field, and everything else upwards. */
  lemma ReadFromTheEnd(t: Transform, c: Condition)
    ensures !GenerateKeys(t, c).descending
    ensures GenerateHighestKeys(t, c).descending <==> !c.test.Equals? && !c.test.Inside?
  {
  }

  // ---------------------------------------------------------------- fetching an index

  // The rows of the view of each field, by emitting document.
  type Rows = map<Id, seq<Row>>

  function Target(id: Id, r: Row): Id {
    if r.link.Some? then r.link.value else id
  }

  // The brute-force reading of a condition: some live document emits, for `id`, a value satisfying it.
  predicate Holds(t: Transform, rows: Rows, c: Condition, id: Id) {
    exists d, i | d in rows && 0 <= i < |rows[d]| ::
      Target(d, rows[d][i]) == id && rows[d][i].field == c.field && Satisfies(t, c, rows[d][i].value)
  }

  // A row of the index: the value it is sorted by and the document it stands for.
  datatype Entry = Entry(value: Value, id: Id)

  predicate SortedEntries(es: seq<Entry>) {
    forall i, j | 0 <= i < j < |es| :: es[i].value <= es[j].value
  }

  ghost predicate InIndex(t: Transform, rows: Rows, c: Condition, e: Entry) {
    exists d, i | d in rows && 0 <= i < |rows[d]| ::
      && e == Entry(rows[d][i].value, Target(d, rows[d][i]))
      && rows[d][i].field == c.field && Satisfies(t, c, rows[d][i].value)
  }

  method InsertSorted(es: seq<Entry>, e: Entry) returns (r: seq<Entry>)
    requires SortedEntries(es)
    ensures SortedEntries(r) && multiset(r) == multiset(es) + multiset{e}
  {
    var i := |es|;
    while i > 0 && es[i - 1].value > e.value
      invariant 0 <= i <= |es|
      invariant forall j | i <= j < |es| :: es[j].value > e.value
    {
      i := i - 1;
    }
    r := es[..i] + [e] + es[i..];
    InsertedAt(es, i, e);
  }

  lemma InsertedAt(es: seq<Entry>, i: nat, e: Entry)
    requires i <= |es|
    ensures multiset(es[..i] + [e] + es[i..]) == multiset(es) + multiset{e}
  {
    assert es == es[..i] + es[i..];
  }

  /** The rows of the view matching the keys of the condition, sorted by key: what query_view, _flatten,
      _sort_by_key and parse_view_result make of it. */
  method FetchIndex(t: Transform, rows: Rows, c: Condition) returns (index: seq<Entry>)
    ensures SortedEntries(index)
    ensures forall e :: e in index <==> InIndex(t, rows, c, e)
  {
    index := [];
    var options := GenerateKeys(t, c);
    var todo := rows.Keys;
    while todo != {}
      invariant todo <= rows.Keys && SortedEntries(index)
      invariant forall e | e in index :: InIndex(t, rows, c, e)
      invariant forall d, i | d in rows && d !in todo && 0 <= i < |rows[d]| && rows[d][i].field == c.field
                  && Satisfies(t, c, rows[d][i].value) :: Entry(rows[d][i].value, Target(d, rows[d][i])) in index
      decreases todo
    {
      var d :| d in todo;
      for i := 0 to |rows[d]|
        invariant SortedEntries(index)
        invariant forall e | e in index :: InIndex(t, rows, c, e)
        invariant forall d', j | d' in rows && d' !in todo && 0 <= j < |rows[d']| && rows[d'][j].field == c.field
                    && Satisfies(t, c, rows[d'][j].value) :: Entry(rows[d'][j].value, Target(d', rows[d'][j])) in index
        invariant forall j | 0 <= j < i && rows[d][j].field == c.field && Satisfies(t, c, rows[d][j].value) ::
                    Entry(rows[d][j].value, Target(d, rows[d][j])) in index
      {
        KeysMeanCondition(t, c, rows[d][i]);
        if MatchesFilter(RowKey(rows[d][i]), options) {
          var longer := InsertSorted(index, Entry(rows[d][i].value, Target(d, rows[d][i])));
          MoreEntries(index, Entry(rows[d][i].value, Target(d, rows[d][i])), longer);
          index := longer;
        }
      }
      todo := todo - {d};
    }
  }

  lemma MoreEntries(es: seq<Entry>, e: Entry, longer: seq<Entry>)
    requires multiset(longer) == multiset(es) + multiset{e}
    ensures forall x :: x in longer <==> x in es || x == e
  {
    forall x ensures x in longer <==> x in es || x == e {
      assert x in longer <==> x in multiset(longer);
      assert x in es <==> x in multiset(es);
    }
  }

  function Ids(index: seq<Entry>): (ids: seq<Id>)
    ensures |ids| == |index| && forall i | 0 <= i < |index| :: ids[i] == index[i].id
  {
    seq(|index|, i requires 0 <= i < |index| => index[i].id)
  }

  // The fetched ids are those the condition holds of.
  lemma IndexMeansHolds(t: Transform, rows: Rows, c: Condition, index: seq<Entry>, id: Id)
    requires forall e :: e in index <==> InIndex(t, rows, c, e)
    ensures id in Ids(index) <==> Holds(t, rows, c, id)
  {
    if id in Ids(index) {
      var k :| 0 <= k < |index| && Ids(index)[k] == id;
      assert index[k] in index;
    }
    if Holds(t, rows, c, id) {
      var d, i :| && d in rows && 0 <= i < |rows[d]| && Target(d, rows[d][i]) == id
                  && rows[d][i].field == c.field && Satisfies(t, c, rows[d][i].value);
      var e := Entry(rows[d][i].value, id);
      assert InIndex(t, rows, c, e);
      var k :| 0 <= k < |index| && index[k] == e;
      assert Ids(index)[k] == id;
    }
  }

  // ---------------------------------------------------------------- the plan

  predicate WellFormed(q: Query)
    decreases q
  {
    |q.parts| > 0 && forall i | 0 <= i < |q.parts| :: q.parts[i].Nested? ==> WellFormed(q.parts[i].query)
  }

  predicate HasField(cs: seq<Condition>, f: Field) {
    exists i :: 0 <= i < |cs| && cs[i].field == f
  }

  // A full range is fetched for each field that is needed and not asked for anyway.
  function AddFields(cs: seq<Condition>, fields: seq<Field>): seq<Condition>
    decreases |fields|
  {
    if fields == [] then cs
    else AddFields(if HasField(cs, fields[0]) then cs else cs + [Condition(fields[0], Unlimited)], fields[1..])
  }

  lemma {:induction false} FieldsAreAdded(cs: seq<Condition>, fields: seq<Field>)
    ensures cs <= AddFields(cs, fields)
    ensures forall f | f in fields :: HasField(AddFields(cs, fields), f)
    decreases |fields|
  {
    if fields != [] {
      var next := if HasField(cs, fields[0]) then cs else cs + [Condition(fields[0], Unlimited)];
      FieldsAreAdded(next, fields[1..]);
      assert HasField(next, fields[0]) by {
        if !HasField(cs, fields[0]) { assert next[|cs|].field == fields[0]; }
      }
      var i :| 0 <= i < |next| && next[i].field == fields[0];
      assert AddFields(cs, fields)[i] == next[i];
    }
  }

  // The list without the repetitions of earlier elements.
  function Dedup(cs: seq<Condition>): seq<Condition>
    decreases |cs|
  {
    if cs == [] then []
    else
      var before := Dedup(cs[..|cs| - 1]);
      if cs[|cs| - 1] in before then before else before + [cs[|cs| - 1]]
  }

  lemma {:induction false} DedupKeepsEach(cs: seq<Condition>)
    ensures forall c :: c in Dedup(cs) <==> c in cs
    ensures forall i, j | 0 <= i < j < |Dedup(cs)| :: Dedup(cs)[i] != Dedup(cs)[j]
    decreases |cs|
  {
    if cs != [] {
      DedupKeepsEach(cs[..|cs| - 1]);
      assert cs == cs[..|cs| - 1] + [cs[|cs| - 1]];
    }
  }

  function BasicQueries(q: Query): seq<Condition>
    decreases q, |q.parts| + 1
  {
    Dedup(AddFields(PlanParts(q, |q.parts|), [q.sortBy] + q.values))
  }

  function PlanParts(q: Query, n: nat): seq<Condition>
    requires n <= |q.parts|
    decreases q, n
  {
    if n == 0 then [] else PlanParts(q, n - 1) + PlanPart(q.parts[n - 1])
  }

  function PlanPart(p: Part): seq<Condition>
    decreases p, 0
  {
    match p
    case Leaf(c) => [c]
    case Nested(inner) => BasicQueries(inner)
  }

  // get_basic_queries: the parts are collected, missing fields are added, and repetitions dropped.
  method GetBasicQueries(q: Query) returns (resp: seq<Condition>)
    ensures resp == BasicQueries(q)
    decreases q
  {
    var temp: seq<Condition> := [];
    for i := 0 to |q.parts|
      invariant temp == PlanParts(q, i)
    {
      match q.parts[i]
      case Leaf(c) => temp := temp + [c];
      case Nested(inner) =>
        var more := GetBasicQueries(inner);
        temp := temp + more;
    }
    temp := AddMissingFields(temp, [q.sortBy] + q.values);
    resp := DropRepetitions(temp);
  }

  method AddMissingFields(cs: seq<Condition>, fields: seq<Field>) returns (temp: seq<Condition>)
    ensures temp == AddFields(cs, fields)
  {
    temp := cs;
    for i := 0 to |fields|
      invariant AddFields(temp, fields[i..]) == AddFields(cs, fields)
    {
      assert fields[i..][1..] == fields[i + 1..];
      if !HasField(temp, fields[i]) {
        temp := temp + [Condition(fields[i], Unlimited)];
      }
    }
  }

  // The list is emptied from its front into one without repetitions.
  method DropRepetitions(cs: seq<Condition>) returns (resp: seq<Condition>)
    ensures resp == Dedup(cs)
  {
    var temp := cs;
    ghost var n := 0;
    resp := [];
    while temp != []
      invariant n <= |cs| && temp == cs[n..] && resp == Dedup(cs[..n])
      decreases |temp|
    {
      var x := temp[0];
      temp := temp[1..];
      assert cs[..n + 1][..n] == cs[..n];
      n := n + 1;
      if x !in resp {
        resp := resp + [x];
      }
    }
    assert cs[..n] == cs;
  }

  // A condition at any depth of the tree.
  predicate HasLeaf(q: Query, c: Condition)
    decreases q
  {
    exists i :: 0 <= i < |q.parts| &&
      match q.parts[i]
      case Leaf(d) => c == d
      case Nested(inner) => HasLeaf(inner, c)
  }

  /** The plan lists every condition of every nesting level, once, and covers the sorting field and every
      field whose values are asked for; so no response is missing later. */
  lemma {:induction false} PlanIsComplete(q: Query)
    ensures forall c | HasLeaf(q, c) :: c in BasicQueries(q)
    ensures forall i, j | 0 <= i < j < |BasicQueries(q)| :: BasicQueries(q)[i] != BasicQueries(q)[j]
    ensures forall f | f == q.sortBy || f in q.values :: HasField(BasicQueries(q), f)
    decreases q
  {
    forall c | HasLeaf(q, c) ensures c in PlanParts(q, |q.parts|) {
      var i :| 0 <= i < |q.parts| && match q.parts[i] case Leaf(d) => c == d case Nested(inner) => HasLeaf(inner, c);
      if q.parts[i].Nested? {
        PlanIsComplete(q.parts[i].query);
      }
      PartIsPlanned(q, i, |q.parts|, c);
    }
    var all := AddFields(PlanParts(q, |q.parts|), [q.sortBy] + q.values);
    FieldsAreAdded(PlanParts(q, |q.parts|), [q.sortBy] + q.values);
    DedupKeepsEach(all);
    forall f | f == q.sortBy || f in q.values ensures HasField(BasicQueries(q), f) {
      assert f in [q.sortBy] + q.values;
      var i :| 0 <= i < |all| && all[i].field == f;
      assert all[i] in Dedup(all);
      var j :| 0 <= j < |BasicQueries(q)| && BasicQueries(q)[j] == all[i];
    }
  }

  lemma {:induction false} PartIsPlanned(q: Query, i: nat, n: nat, c: Condition)
    requires i < n <= |q.parts|
    requires c in PlanPart(q.parts[i])
    ensures c in PlanParts(q, n)
  {
    if i < n - 1 {
      PartIsPlanned(q, i, n - 1, c);
    }
  }

  // A part asks for the condition, itself or in its own plan.
  predicate AskedFor(q: Query, c: Condition) {
    exists i :: 0 <= i < |q.parts| &&
      match q.parts[i]
      case Leaf(d) => c == d
      case Nested(inner) => c in BasicQueries(inner)
  }

  /** Nothing is fetched in vain: the plan is what the parts ask for, and the full range of exactly those fields to
      sort by or to return that no part asks anything of. */
  lemma PlanIsExact(q: Query, c: Condition)
    ensures c in BasicQueries(q)
            <==> || AskedFor(q, c)
                 || (c.test.Unlimited? && (c.field == q.sortBy || c.field in q.values)
                     && !exists d :: AskedFor(q, d) && d.field == c.field)
  {
    var parts, fields := PlanParts(q, |q.parts|), [q.sortBy] + q.values;
    DedupKeepsEach(AddFields(parts, fields));
    AddedExactly(parts, fields, c);
    PartsAskFor(q, c);
    if HasField(parts, c.field) {
      var i :| 0 <= i < |parts| && parts[i].field == c.field;
      PartsAskFor(q, parts[i]);
    }
    if d :| AskedFor(q, d) && d.field == c.field {
      PartsAskFor(q, d);
      var i :| 0 <= i < |parts| && parts[i] == d;
    }
  }

  lemma PartsAskFor(q: Query, c: Condition)
    ensures c in PlanParts(q, |q.parts|) <==> AskedFor(q, c)
  {
    FirstPartsAskFor(q, |q.parts|, c);
    if AskedFor(q, c) {
      var i :| 0 <= i < |q.parts| &&
               match q.parts[i] case Leaf(d) => c == d case Nested(inner) => c in BasicQueries(inner);
      assert c in PlanPart(q.parts[i]);
    }
    if i :| 0 <= i < |q.parts| && c in PlanPart(q.parts[i]) {
      assert match q.parts[i] case Leaf(d) => c == d case Nested(inner) => c in BasicQueries(inner);
    }
  }

  lemma {:induction false} FirstPartsAskFor(q: Query, n: nat, c: Condition)
    requires n <= |q.parts|
    ensures c in PlanParts(q, n) <==> exists i :: 0 <= i < n && c in PlanPart(q.parts[i])
  {
    if n > 0 {
      FirstPartsAskFor(q, n - 1, c);
      if c in PlanPart(q.parts[n - 1]) {
        assert 0 <= n - 1 < n;
      }
    }
  }

  lemma {:induction false} AddedExactly(cs: seq<Condition>, fields: seq<Field>, c: Condition)
    ensures c in AddFields(cs, fields)
            <==> c in cs || (c.test.Unlimited? && c.field in fields && !HasField(cs, c.field))
    decreases |fields|
  {
    if fields != [] {
      var full := Condition(fields[0], Unlimited);
      var next := if HasField(cs, fields[0]) then cs else cs + [full];
      AddedExactly(next, fields[1..], c);
      FieldsOfLonger(cs, full, c.field);
      assert c.field in fields <==> c.field == fields[0] || c.field in fields[1..];
    }
  }

  lemma FieldsOfLonger(cs: seq<Condition>, d: Condition, f: Field)
    ensures HasField(cs + [d], f) <==> HasField(cs, f) || d.field == f
  {
    var more := cs + [d];
    if HasField(cs, f) {
      var i :| 0 <= i < |cs| && cs[i].field == f;
      assert more[i].field == f;
    }
    assert more[|cs|] == d;
  }
}
