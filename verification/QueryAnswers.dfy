// How the answers for single conditions are combined, and that the outcome is what checking every document would give.

module QueryAnswers {
  import opened EmuDatabase
  import opened Query

  // ---------------------------------------------------------------- combining the responses

  type Responses = map<Condition, seq<Id>>

  predicate Answered(responses: Responses, q: Query)
    decreases q
  {
    forall i | 0 <= i < |q.parts| ::
      match q.parts[i]
      case Leaf(c) => c in responses
      case Nested(inner) => Answered(responses, inner)
  }

  function Intersection(sets: seq<set<Id>>): set<Id>
    requires |sets| > 0
    decreases |sets|
  {
    if |sets| == 1 then sets[0] else Intersection(sets[..|sets| - 1]) * sets[|sets| - 1]
  }

  function Union(sets: seq<set<Id>>): set<Id>
    decreases |sets|
  {
    if sets == [] then {} else Union(sets[..|sets| - 1]) + sets[|sets| - 1]
  }

  // What the parts are combined to; a single part stands for itself.
  function Combined(sets: seq<set<Id>>, op: Operator): set<Id>
    requires |sets| > 0
  {
    if |sets| == 1 then sets[0] else if op.And? then Intersection(sets) else Union(sets)
  }

  function QueryResponse(responses: Responses, q: Query): set<Id>
    requires WellFormed(q) && Answered(responses, q)
    decreases q, |q.parts| + 1
  {
    Combined(PartResponses(responses, q, |q.parts|), q.op)
  }

  function PartResponses(responses: Responses, q: Query, n: nat): (r: seq<set<Id>>)
    requires WellFormed(q) && Answered(responses, q) && n <= |q.parts|
    ensures |r| == n
    decreases q, n
  {
    if n == 0 then []
    else
      PartResponses(responses, q, n - 1) +
      [match q.parts[n - 1]
       case Leaf(c) => (set id | id in responses[c])
       case Nested(inner) => QueryResponse(responses, inner)]
  }

  // The brute-force reading of a query tree.
  predicate Matches(t: Transform, rows: Rows, q: Query, id: Id)
    decreases q
  {
    match q.op
    case And => forall i | 0 <= i < |q.parts| ::
      (match q.parts[i] case Leaf(c) => Holds(t, rows, c, id) case Nested(inner) => Matches(t, rows, inner, id))
    case Or => exists i ::
      && 0 <= i < |q.parts|
      && (match q.parts[i] case Leaf(c) => Holds(t, rows, c, id) case Nested(inner) => Matches(t, rows, inner, id))
  }

  lemma {:induction false} InIntersection(sets: seq<set<Id>>, id: Id)
    requires |sets| > 0
    ensures id in Intersection(sets) <==> forall i | 0 <= i < |sets| :: id in sets[i]
    decreases |sets|
  {
    if |sets| > 1 {
      InIntersection(sets[..|sets| - 1], id);
    }
  }

  lemma {:induction false} InUnion(sets: seq<set<Id>>, id: Id)
    ensures id in Union(sets) <==> exists i :: 0 <= i < |sets| && id in sets[i]
    decreases |sets|
  {
    if sets != [] {
      var last := |sets| - 1;
      InUnion(sets[..last], id);
      if id in sets[last] {
        assert 0 <= last < |sets| && id in sets[last];
      }
      if i :| 0 <= i < last && id in sets[..last][i] {
        assert id in sets[i];
      }
    }
  }

  // Each fetched index holds the ids its condition holds of.
  ghost predicate Faithful(t: Transform, rows: Rows, responses: Responses) {
    forall c, id | c in responses :: id in responses[c] <==> Holds(t, rows, c, id)
  }

  predicate PartMatches(t: Transform, rows: Rows, p: Part, id: Id) {
    match p
    case Leaf(c) => Holds(t, rows, c, id)
    case Nested(inner) => Matches(t, rows, inner, id)
  }

  /** The planned, fetched and combined query selects exactly what reading the boolean tree over all rows
      selects. */
  lemma {:induction false} QueryEqualsBruteForce(t: Transform, rows: Rows, responses: Responses, q: Query, id: Id)
    requires WellFormed(q) && Answered(responses, q) && Faithful(t, rows, responses)
    ensures id in QueryResponse(responses, q) <==> Matches(t, rows, q, id)
    decreases q, |q.parts| + 1
  {
    var parts := PartResponses(responses, q, |q.parts|);
    forall i | 0 <= i < |q.parts| ensures id in parts[i] <==> PartMatches(t, rows, q.parts[i], id) {
      PartEqualsBruteForce(t, rows, responses, q, |q.parts|, i, id);
    }
    InCombined(parts, q.op, id);
  }

  lemma InCombined(sets: seq<set<Id>>, op: Operator, id: Id)
    requires |sets| > 0
    ensures id in Combined(sets, op) <==>
      match op
      case And => forall i | 0 <= i < |sets| :: id in sets[i]
      case Or => exists i :: 0 <= i < |sets| && id in sets[i]
  {
    InIntersection(sets, id);
    InUnion(sets, id);
  }

  lemma {:induction false} PartEqualsBruteForce(t: Transform, rows: Rows, responses: Responses, q: Query, n: nat,
                                                i: nat, id: Id)
    requires WellFormed(q) && Answered(responses, q) && Faithful(t, rows, responses) && i < n <= |q.parts|
    ensures id in PartResponses(responses, q, n)[i] <==> PartMatches(t, rows, q.parts[i], id)
    decreases q, n
  {
    if i < n - 1 {
      PartEqualsBruteForce(t, rows, responses, q, n - 1, i, id);
    } else if q.parts[i].Nested? {
      QueryEqualsBruteForce(t, rows, responses, q.parts[i].query, id);
    }
  }

  lemma {:induction false} PlanAnswers(responses: Responses, q: Query)
    requires forall c | HasLeaf(q, c) :: c in responses
    ensures Answered(responses, q)
    decreases q
  {
    forall i | 0 <= i < |q.parts|
      ensures match q.parts[i] case Leaf(c) => c in responses case Nested(inner) => Answered(responses, inner)
    {
      match q.parts[i]
      case Leaf(c) => assert HasLeaf(q, c);
      case Nested(inner) =>
        forall c | HasLeaf(inner, c) ensures c in responses {
          assert HasLeaf(q, c);
        }
        PlanAnswers(responses, inner);
    }
  }
}
