// Composed updaters: a list of update handlers applied to one document, where a handler may also
// delete the document or resign from changing it.

module Update {
  datatype Result<+C> = Changed(document: C) | Deleted | Resigned

  // What the handler of each number does to a document.
  type Handlers<!C> = (nat, C) -> Result<C>

  // update.steps: resigning handlers are skipped, a deletion ends the list, and if every handler
  // resigned the whole update resigns.
  function StepsFrom<C>(h: Handlers<C>, document: C, changed: bool, ops: seq<nat>): Result<C>
    decreases |ops|
  {
    if ops == [] then (if changed then Changed(document) else Resigned)
    else
      match h(ops[0], document)
      case Changed(d) => StepsFrom(h, d, true, ops[1..])
      case Deleted => Result.Deleted
      case Resigned => StepsFrom(h, document, changed, ops[1..])
  }

  function Steps<C>(h: Handlers<C>, document: C, ops: seq<nat>): Result<C> {
    StepsFrom(h, document, false, ops)
  }

  method RunSteps<C>(h: Handlers<C>, doc: C, ops: seq<nat>) returns (r: Result<C>)
    ensures r == Steps(h, doc, ops)
  {
    var document, changed := doc, false;
    for i := 0 to |ops|
      invariant StepsFrom(h, document, changed, ops[i..]) == Steps(h, doc, ops)
    {
      assert ops[i..][1..] == ops[i + 1..];
      match h(ops[i], document)
      case Changed(d) =>
        document, changed := d, true;
      case Deleted =>
        return Deleted;
      case Resigned =>
    }
    if changed { return Changed(document); }
    return Resigned;
  }

  // ---------------------------------------------------------------- what a composition means

  // Nothing is changed exactly if every handler resigns on the document as it is.
  lemma {:induction false} ResignsWhenAllResign<C>(h: Handlers<C>, document: C, changed: bool, ops: seq<nat>)
    ensures StepsFrom(h, document, changed, ops).Resigned?
            <==> !changed && forall i | 0 <= i < |ops| :: h(ops[i], document).Resigned?
    decreases |ops|
  {
    if ops != [] {
      match h(ops[0], document)
      case Changed(d) => ResignsWhenAllResign(h, d, true, ops[1..]);
      case Deleted =>
      case Resigned =>
        ResignsWhenAllResign(h, document, changed, ops[1..]);
        assert forall i | 0 < i < |ops| :: ops[i] == ops[1..][i - 1];
    }
  }

  // A composition can be cut anywhere: the second part continues from what the first part left.
  lemma {:induction false} StepsSplit<C>(h: Handlers<C>, document: C, changed: bool, a: seq<nat>, b: seq<nat>)
    ensures StepsFrom(h, document, changed, a + b) ==
            match StepsFrom(h, document, changed, a)
            case Changed(d) => StepsFrom(h, d, true, b)
            case Deleted => Result.Deleted
            case Resigned => StepsFrom(h, document, false, b)
    decreases |a|
  {
    if a == [] {
      assert a + b == b;
    } else {
      assert (a + b)[1..] == a[1..] + b;
      match h(a[0], document)
      case Changed(d) =>
        StepsSplit(h, d, true, a[1..], b);
        ResignsWhenAllResign(h, d, true, a[1..]);
      case Deleted =>
      case Resigned => StepsSplit(h, document, changed, a[1..], b);
    }
  }

  // The documents along a composition: each handler is given what the one before it made, or left.
  ghost predicate Documents<C>(h: Handlers<C>, document: C, ops: seq<nat>, ds: seq<C>) {
    && |ds| == |ops| + 1 && ds[0] == document
    && forall i | 0 <= i < |ops| ::
         ds[i + 1] == if h(ops[i], ds[i]).Changed? then h(ops[i], ds[i]).document else ds[i]
  }

  ghost predicate Deletes<C>(h: Handlers<C>, ops: seq<nat>, ds: seq<C>)
    requires |ds| == |ops| + 1
  {
    exists i :: 0 <= i < |ops| && h(ops[i], ds[i]).Deleted?
  }

  ghost predicate Changes<C>(h: Handlers<C>, ops: seq<nat>, ds: seq<C>)
    requires |ds| == |ops| + 1
  {
    exists i :: 0 <= i < |ops| && h(ops[i], ds[i]).Changed?
  }

  /** A composition deletes the document if and only if some handler deletes what the handlers before it made;
      otherwise it changes the document to what the last one left, if any of them changes it, and resigns if
      none does. */
  lemma StepsMean<C>(h: Handlers<C>, document: C, ops: seq<nat>, ds: seq<C>)
    requires Documents(h, document, ops, ds)
    ensures Steps(h, document, ops) == if Deletes(h, ops, ds) then Result.Deleted
                                       else if Changes(h, ops, ds) then Result.Changed(ds[|ops|])
                                       else Result.Resigned
  {
    StepsFromMean(h, document, false, ops, ds);
  }

  lemma {:induction false} StepsFromMean<C>(h: Handlers<C>, document: C, changed: bool, ops: seq<nat>, ds: seq<C>)
    requires Documents(h, document, ops, ds)
    ensures StepsFrom(h, document, changed, ops) == if Deletes(h, ops, ds) then Result.Deleted
                                                    else if changed || Changes(h, ops, ds)
                                                    then Result.Changed(ds[|ops|])
                                                    else Result.Resigned
    decreases |ops|
  {
    if ops != [] {
      var r := h(ops[0], document);
      assert forall i | 0 < i < |ops| :: ops[1..][i - 1] == ops[i] && ds[1..][i - 1] == ds[i];
      if !r.Deleted? {
        StepsFromMean(h, ds[1], changed || r.Changed?, ops[1..], ds[1..]);
      }
    }
  }

  // There is such a list of documents, and only one.
  lemma {:induction false} DocumentsExist<C(!new)>(h: Handlers<C>, document: C, ops: seq<nat>)
    ensures exists ds :: Documents(h, document, ops, ds)
    decreases |ops|
  {
    if ops == [] {
      assert Documents(h, document, ops, [document]);
    } else {
      var n := |ops| - 1;
      DocumentsExist(h, document, ops[..n]);
      var before :| Documents(h, document, ops[..n], before);
      var ds := before + [if h(ops[n], before[n]).Changed? then h(ops[n], before[n]).document else before[n]];
      assert forall i | 0 <= i < n :: ops[..n][i] == ops[i] && ds[i] == before[i];
      assert Documents(h, document, ops, ds);
    }
  }
}
