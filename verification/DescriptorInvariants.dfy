// What every step of the descriptor lock keeps, for every instance that takes part.

module DescriptorInvariants {
  import opened Wrappers
  import opened EmuDatabase
  import opened Connection
  import opened DescriptorLock

  // ---------------------------------------------------------------- the invariant

  predicate InHistory(versions: seq<(Rev, Option<nat>)>, rev: Rev)
    requires |versions| > 0
  {
    var v := rev.index - versions[0].0.index;
    0 <= v < |versions| && versions[v].0 == rev
  }

  function Writer(versions: seq<(Rev, Option<nat>)>, rev: Rev): Option<nat>
    requires |versions| > 0 && InHistory(versions, rev)
  {
    versions[rev.index - versions[0].0.index].1
  }

  function Latest(versions: seq<(Rev, Option<nat>)>): Rev
    requires |versions| > 0
  {
    versions[|versions| - 1].0
  }

  ghost predicate DocInv(s: System) {
    && |s.versions| > 0
    && (forall v | 0 <= v < |s.versions| :: s.versions[v].0.index == s.versions[0].0.index + v)
    && DESCRIPTOR in s.db.documents && !s.db.documents[DESCRIPTOR].deleted
    && (s.db.documents[DESCRIPTOR].rev, s.db.documents[DESCRIPTOR].body) == s.versions[|s.versions| - 1]
  }

  predicate Knows(c: Conn, rev: Rev) {
    DESCRIPTOR in c.known && c.known[DESCRIPTOR] == rev
  }

  // Nothing an instance knows of, or will be told of, is outside the history of the descriptor.
  ghost predicate KnownInv(vs: seq<(Rev, Option<nat>)>, x: Instance)
    requires |vs| > 0
  {
    && (forall rev | rev in x.inbox :: InHistory(vs, rev))
    && (forall n | n in x.conn.buffer :: n.id == DESCRIPTOR && InHistory(vs, n.rev))
    && (!x.stage.Starting? ==> InHistory(vs, x.copy) && Knows(x.conn, x.copy))
    && (x.stage.Answered? && x.stage.outcome.Some? ==> InHistory(vs, x.stage.outcome.value))
    && x.conn.locks >= Holding(x)
    && (x.conn.locks == 0 ==> x.conn.buffer == [])
    && (!Listening(x) ==> x.inbox == multiset{} && x.conn.buffer == [] && !x.killed)
    && (x.stage.Answered? && x.stage.outcome.None? ==> x.copy.index < Latest(vs).index)
    && (x.killed ==> |vs| > 1 && x.copy.index < Latest(vs).index && (x.stage.Answered? ==> x.stage.outcome.None?))
    && (x.attempted ==> Listening(x))
    && (x.attempted || x.stage.Answered? ==> |vs| > 1)
  }

  // The revision an instance wrote last, once the answers under way have arrived.
  function Own(x: Instance): Rev {
    if x.stage.Answered? && x.stage.outcome.Some? then x.stage.outcome.value else x.copy
  }

  predicate Pending(x: Instance, index: nat) {
    || (exists rev | rev in x.inbox :: rev.index > index)
    || (exists n | n in x.conn.buffer :: n.rev.index > index)
  }

  predicate HoldsOwn(x: Instance) {
    (x.stage.Answered? && x.stage.outcome.Some?) || (x.attempted && !x.killed && !x.stage.Answered?)
  }

  // An instance that stored and lives wrote its own copy, and will be told when it is overwritten.
  ghost predicate LockInv(vs: seq<(Rev, Option<nat>)>, x: Instance, i: nat)
    requires |vs| > 0 && KnownInv(vs, x)
  {
    && (HoldsOwn(x) ==> Writer(vs, Own(x)) == Some(i))
    && (HoldsOwn(x) && Own(x).index < Latest(vs).index ==> Pending(x, Own(x).index))
    && (vs[|vs| - 1].1 == Some(i) ==> HoldsOwn(x) && Own(x) == Latest(vs))
  }

  ghost predicate Inv(s: System) {
    && DocInv(s)
    && forall i | 0 <= i < |s.instances| ::
         KnownInv(s.versions, s.instances[i]) && LockInv(s.versions, s.instances[i], i)
  }

  // An instance whose own step leaves the history alone.
  lemma QuietStep(s: System, i: nat, x': Instance)
    requires Inv(s) && i < |s.instances|
    requires KnownInv(s.versions, x') && LockInv(s.versions, x', i)
    ensures Inv(s.(instances := s.instances[i := x']))
  {
    var s' := s.(instances := s.instances[i := x']);
    forall j | 0 <= j < |s'.instances|
      ensures KnownInv(s'.versions, s'.instances[j]) && LockInv(s'.versions, s'.instances[j], j)
    {
      assert KnownInv(s.versions, s.instances[j]) && LockInv(s.versions, s.instances[j], j);
    }
  }

  // Revisions of the history that are not newer than what is known are taken for the instance's own.
  lemma OlderIsOwn(vs: seq<(Rev, Option<nat>)>, c: Conn, known: Rev, rev: Rev)
    requires |vs| > 0 && InHistory(vs, known) && InHistory(vs, rev) && Knows(c, known)
    ensures OwnChange(c.known, Note(rev)) <==> rev.index <= known.index
  {
  }

  lemma OtherNotices(inbox: multiset<Rev>, rev: Rev)
    ensures forall r | r in inbox - multiset{rev} :: r in inbox
    ensures forall r | r in inbox && r != rev :: r in inbox - multiset{rev}
  {
  }

  lemma BufferedKeeps(vs: seq<(Rev, Option<nat>)>, x: Instance, i: nat, rev: Rev)
    requires |vs| > 0 && KnownInv(vs, x) && LockInv(vs, x, i) && rev in x.inbox && x.conn.locks > 0
    ensures KnownInv(vs, Heard(x, rev)) && LockInv(vs, Heard(x, rev), i)
  {
    var x' := Heard(x, rev);
    OtherNotices(x.inbox, rev);
    assert x'.conn.buffer == x.conn.buffer + [Note(rev)];
    assert x'.conn.buffer[|x.conn.buffer|] == Note(rev);
    assert forall n | n in x.conn.buffer :: n in x'.conn.buffer;
    if HoldsOwn(x) && Pending(x, Own(x).index) {
      assert Pending(x', Own(x).index);
    }
  }

  lemma ProcessedKeeps(vs: seq<(Rev, Option<nat>)>, x: Instance, i: nat, rev: Rev)
    requires |vs| > 0 && KnownInv(vs, x) && LockInv(vs, x, i) && rev in x.inbox && x.conn.locks == 0
    requires forall r | InHistory(vs, r) :: r.index <= Latest(vs).index
    ensures KnownInv(vs, Heard(x, rev)) && LockInv(vs, Heard(x, rev), i)
  {
    var x' := Heard(x, rev);
    OtherNotices(x.inbox, rev);
    assert x'.conn.delivered[|x.conn.delivered|] == Delivery(Note(rev), OwnChange(x.conn.known, Note(rev)));
    assert x'.killed <==> x.killed || !OwnChange(x.conn.known, Note(rev));
    if !x.stage.Starting? {
      OlderIsOwn(vs, x.conn, x.copy, rev);
    }
  }

  lemma {:induction false} DeliverKeeps(s: System, i: nat, rev: Rev)
    requires Inv(s) && Enabled(s, Deliver(i, rev))
    ensures Inv(Step(s, Deliver(i, rev)))
  {
    var x := s.instances[i];
    assert KnownInv(s.versions, x) && LockInv(s.versions, x, i);
    if x.conn.locks > 0 {
      BufferedKeeps(s.versions, x, i, rev);
    } else {
      ProcessedKeeps(s.versions, x, i, rev);
    }
    QuietStep(s, i, Heard(x, rev));
  }

  lemma {:induction false} AnswerKeeps(s: System, i: nat)
    requires Inv(s) && Enabled(s, Answer(i))
    ensures Inv(Step(s, Answer(i)))
  {
    var x := s.instances[i];
    assert KnownInv(s.versions, x) && LockInv(s.versions, x, i);
    if x.stage.outcome.Some? {
      SuccessKeeps(s.versions, x, i);
    } else {
      ConflictKeeps(s.versions, x, i);
    }
    QuietStep(s, i, AfterAnswer(x));
  }

  lemma SuccessKeeps(vs: seq<(Rev, Option<nat>)>, x: Instance, i: nat)
    requires |vs| > 0 && KnownInv(vs, x) && LockInv(vs, x, i) && x.stage.Answered? && x.stage.outcome.Some?
    requires forall v | 0 <= v < |vs| :: vs[v].0.index == vs[0].0.index + v
    ensures KnownInv(vs, AfterAnswer(x)) && LockInv(vs, AfterAnswer(x), i)
  {
    var rev, x' := x.stage.outcome.value, AfterAnswer(x);
    assert !x.killed;
    FlushKills(vs, x, rev);
    assert x' == x.(stage := Subscribed, copy := rev, attempted := true, conn := x'.conn, killed := x'.killed);
    if exists n | n in x.conn.buffer :: n.rev.index > rev.index {
      BufferedIsOld(vs, x, rev.index);
    }
  }

  lemma ConflictKeeps(vs: seq<(Rev, Option<nat>)>, x: Instance, i: nat)
    requires |vs| > 0 && KnownInv(vs, x) && LockInv(vs, x, i) && x.stage.Answered? && x.stage.outcome.None?
    ensures KnownInv(vs, AfterAnswer(x)) && LockInv(vs, AfterAnswer(x), i)
  {
    var x' := AfterAnswer(x);
    assert x' == x.(stage := Subscribed, attempted := true, conn := x'.conn, killed := true);
    assert x'.conn.known == x.conn.known;
  }

  // Releasing the lock kills an instance exactly if this was the last holder and something newer than what it
  // knows was buffered.
  lemma ReleaseKills(vs: seq<(Rev, Option<nat>)>, x: Instance, c: Conn, rev: Rev)
    requires |vs| > 0 && InHistory(vs, rev) && Knows(c, rev) && c.locks > 0
    requires c.delivered == x.conn.delivered && forall n | n in c.buffer :: n.id == DESCRIPTOR && InHistory(vs, n.rev)
    ensures Judge(x, Unlock(c)).killed
            <==> x.killed || (c.locks == 1 && exists n | n in c.buffer :: n.rev.index > rev.index)
  {
    if c.locks == 1 {
      FlushedAll(vs, c, rev);
      ForeignTail(c.delivered, Classify(c.known, c.buffer));
    }
  }

  lemma FlushedAll(vs: seq<(Rev, Option<nat>)>, c: Conn, rev: Rev)
    requires |vs| > 0 && InHistory(vs, rev) && Knows(c, rev)
    requires forall n | n in c.buffer :: n.id == DESCRIPTOR && InHistory(vs, n.rev)
    ensures SomeForeign(Classify(c.known, c.buffer), 0) <==> exists n | n in c.buffer :: n.rev.index > rev.index
  {
    var flushed := Classify(c.known, c.buffer);
    forall p | 0 <= p < |flushed| ensures flushed[p].own <==> c.buffer[p].rev.index <= rev.index {
      assert c.buffer[p] in c.buffer;
      OlderIsOwn(vs, c, rev, c.buffer[p].rev);
      assert OwnChange(c.known, c.buffer[p]) == OwnChange(c.known, Note(c.buffer[p].rev));
    }
    if n :| n in c.buffer && n.rev.index > rev.index {
      var p :| 0 <= p < |c.buffer| && c.buffer[p] == n;
      assert !flushed[p].own;
    }
    if p :| 0 <= p < |flushed| && !flushed[p].own {
      assert c.buffer[p] in c.buffer;
    }
  }

  lemma FlushKills(vs: seq<(Rev, Option<nat>)>, x: Instance, rev: Rev)
    requires |vs| > 0 && KnownInv(vs, x) && x.stage == Answered(Some(rev))
    ensures Knows(AfterAnswer(x).conn, rev)
    ensures AfterAnswer(x).killed
            <==> x.conn.locks == 1 && exists n | n in x.conn.buffer :: n.rev.index > rev.index
  {
    ReleaseKills(vs, x.(stage := Subscribed, copy := rev, attempted := true), NoteRevision(x.conn, DESCRIPTOR, rev),
                 rev);
  }

  // What is buffered is not newer than the latest revision.
  lemma BufferedIsOld(vs: seq<(Rev, Option<nat>)>, x: Instance, index: nat)
    requires |vs| > 0 && KnownInv(vs, x) && exists n | n in x.conn.buffer :: n.rev.index > index
    requires forall v | 0 <= v < |vs| :: vs[v].0.index == vs[0].0.index + v
    ensures index < Latest(vs).index
  {
    var n :| n in x.conn.buffer && n.rev.index > index;
    assert InHistory(vs, n.rev);
  }

  lemma FailKeeps(s: System, i: nat)
    requires Inv(s) && Enabled(s, Fail(i))
    ensures Inv(Step(s, Fail(i)))
  {
    var x := s.instances[i];
    assert KnownInv(s.versions, x) && LockInv(s.versions, x, i);
    FailureKeeps(s.versions, x, i);
    QuietStep(s, i, AfterFailure(x));
  }

  lemma FailureKeeps(vs: seq<(Rev, Option<nat>)>, x: Instance, i: nat)
    requires |vs| > 0 && KnownInv(vs, x) && LockInv(vs, x, i) && x.stage.Requested?
    requires forall v | 0 <= v < |vs| :: vs[v].0.index == vs[0].0.index + v
    ensures KnownInv(vs, AfterFailure(x)) && LockInv(vs, AfterFailure(x), i)
  {
    var x' := AfterFailure(x);
    ReleaseKills(vs, x.(stage := Subscribed), x.conn, x.copy);
    assert x' == x.(stage := Subscribed, conn := x'.conn, killed := x'.killed);
    if exists n | n in x.conn.buffer :: n.rev.index > x.copy.index {
      BufferedIsOld(vs, x, x.copy.index);
    }
  }

  lemma OtherKeeps(s: System, i: nat, noted: Option<(Id, Rev)>)
    requires Inv(s) && Enabled(s, OtherSaveEnds(i, noted))
    ensures Inv(Step(s, OtherSaveEnds(i, noted)))
  {
    var x := s.instances[i];
    assert KnownInv(s.versions, x) && LockInv(s.versions, x, i);
    if x.conn.locks > 1 {
      HeldOn(s.versions, x, i, noted);
    } else if Listening(x) {
      LetGo(s.versions, x, i, noted);
    } else {
      assert KnownInv(s.versions, AfterOther(x, noted));
    }
    QuietStep(s, i, AfterOther(x, noted));
  }

  predicate OtherDone(x: Instance, noted: Option<(Id, Rev)>) {
    x.conn.locks > Holding(x) && (noted.Some? ==> noted.value.0 != DESCRIPTOR)
  }

  // Somebody else still holds the lock.
  lemma HeldOn(vs: seq<(Rev, Option<nat>)>, x: Instance, i: nat, noted: Option<(Id, Rev)>)
    requires |vs| > 0 && KnownInv(vs, x) && LockInv(vs, x, i) && OtherDone(x, noted) && x.conn.locks > 1
    ensures KnownInv(vs, AfterOther(x, noted)) && LockInv(vs, AfterOther(x, noted), i)
  {
    var x' := AfterOther(x, noted);
    assert x' == x.(conn := x'.conn) && x'.conn.buffer == x.conn.buffer;
  }

  // The last holder lets go: what was buffered is delivered.
  lemma LetGo(vs: seq<(Rev, Option<nat>)>, x: Instance, i: nat, noted: Option<(Id, Rev)>)
    requires |vs| > 0 && KnownInv(vs, x) && LockInv(vs, x, i) && OtherDone(x, noted) && x.conn.locks == 1
               && Listening(x)
    requires forall v | 0 <= v < |vs| :: vs[v].0.index == vs[0].0.index + v
    ensures KnownInv(vs, AfterOther(x, noted)) && LockInv(vs, AfterOther(x, noted), i)
  {
    var x' := AfterOther(x, noted);
    var c := if noted.Some? then NoteRevision(x.conn, noted.value.0, noted.value.1) else x.conn;
    ReleaseKills(vs, x, c, x.copy);
    assert x'.conn.buffer == [] && x' == x.(conn := x'.conn, killed := x'.killed);
    if exists n | n in x.conn.buffer :: n.rev.index > x.copy.index {
      BufferedIsOld(vs, x, x.copy.index);
    }
  }

  lemma ForeignTail(before: seq<Delivery>, more: seq<Delivery>)
    ensures SomeForeign(before + more, |before|) <==> SomeForeign(more, 0)
  {
    if p :| 0 <= p < |more| && !more[p].own {
      assert !(before + more)[|before| + p].own;
    }
  }

  // The instance whose store was accepted owns the newest revision.
  lemma AcceptedOwns(vs: seq<(Rev, Option<nat>)>, x: Instance, i: nat, rev: Rev)
    requires |vs| > 0 && KnownInv(vs, x) && LockInv(vs, x, i) && x.stage.Requested? && x.copy == Latest(vs)
    requires rev.index == vs[0].0.index + |vs| && forall v | 0 <= v < |vs| :: vs[v].0.index == vs[0].0.index + v
    ensures var x' := x.(inbox := x.inbox + multiset{rev}, stage := Answered(Some(rev)));
            KnownInv(vs + [(rev, Some(i))], x') && LockInv(vs + [(rev, Some(i))], x', i)
  {
    HistoryGrows(vs, vs + [(rev, Some(i))], rev, i);
    assert InHistory(vs + [(rev, Some(i))], rev);
  }

  lemma {:induction false} AcceptKeeps(s: System, i: nat, hash: nat)
    requires Inv(s) && Enabled(s, Decide(i, hash)) && s.instances[i].copy == Latest(s.versions)
    ensures Inv(Step(s, Decide(i, hash)))
  {
    var x, s' := s.instances[i], Step(s, Decide(i, hash));
    var rev := Rev(x.copy.index + 1, hash);
    assert KnownInv(s.versions, x) && LockInv(s.versions, x, i);
    assert s'.versions == s.versions + [(rev, Some(i))];
    forall j | 0 <= j < |s'.instances|
      ensures KnownInv(s'.versions, s'.instances[j]) && LockInv(s'.versions, s'.instances[j], j)
    {
      assert KnownInv(s.versions, s.instances[j]) && LockInv(s.versions, s.instances[j], j);
      if j == i {
        AcceptedOwns(s.versions, x, i, rev);
      } else {
        OverwrittenKeeps(s.versions, s.instances[j], j, rev, i);
      }
    }
  }

  lemma HistoryGrows(vs: seq<(Rev, Option<nat>)>, vs': seq<(Rev, Option<nat>)>, rev: Rev, i: nat)
    requires |vs| > 0 && vs' == vs + [(rev, Some(i))]
    ensures forall r | InHistory(vs, r) :: InHistory(vs', r) && Writer(vs', r) == Writer(vs, r)
  {
  }

  // Every listening instance is told of the overwriting revision.
  lemma OverwrittenKeeps(vs: seq<(Rev, Option<nat>)>, x: Instance, j: nat, rev: Rev, i: nat)
    requires |vs| > 0 && KnownInv(vs, x) && LockInv(vs, x, j) && i != j
    requires rev.index == vs[0].0.index + |vs| && forall v | 0 <= v < |vs| :: vs[v].0.index == vs[0].0.index + v
    ensures var vs' := vs + [(rev, Some(i))];
            var x' := if Listening(x) then x.(inbox := x.inbox + multiset{rev}) else x;
            KnownInv(vs', x') && LockInv(vs', x', j)
  {
    var vs' := vs + [(rev, Some(i))];
    var x' := if Listening(x) then x.(inbox := x.inbox + multiset{rev}) else x;
    HistoryGrows(vs, vs', rev, i);
    assert InHistory(vs', rev);
    assert KnownInv(vs', x');
    if HoldsOwn(x') {
      assert rev in x'.inbox;
    }
  }

  lemma ReloadKeeps(s: System, i: nat)
    requires Inv(s) && Enabled(s, Reload(i))
    ensures Inv(Step(s, Reload(i)))
  {
    var x, x' := s.instances[i], Step(s, Reload(i)).instances[i];
    assert KnownInv(s.versions, x) && LockInv(s.versions, x, i);
    QuietStep(s, i, x');
  }

  // A save based on an old copy is refused.
  lemma RefusalKeeps(s: System, i: nat, hash: nat)
    requires Inv(s) && Enabled(s, Decide(i, hash)) && s.instances[i].copy != Latest(s.versions)
    ensures Inv(Step(s, Decide(i, hash)))
  {
    var x := s.instances[i];
    assert KnownInv(s.versions, x) && LockInv(s.versions, x, i);
    assert x.copy.index < Latest(s.versions).index;
    QuietStep(s, i, x.(stage := Answered(None)));
  }

  // Subscribing and sending leave what an instance owns and is to be told of.
  lemma StageKeeps(s: System, a: Action)
    requires Inv(s) && Enabled(s, a) && (a.Subscribe? || a.SendStore? || a.OtherSaveBegins?)
    ensures Inv(Step(s, a))
  {
    var x, x' := s.instances[a.i], Step(s, a).instances[a.i];
    assert KnownInv(s.versions, x) && LockInv(s.versions, x, a.i);
    NothingTold(s.versions, x, x', a.i);
    QuietStep(s, a.i, x');
  }

  lemma NothingTold(vs: seq<(Rev, Option<nat>)>, x: Instance, x': Instance, i: nat)
    requires |vs| > 0 && KnownInv(vs, x) && LockInv(vs, x, i)
    requires x' == x.(stage := x'.stage, conn := x.conn.(locks := x'.conn.locks))
    requires x'.stage == x.stage || (x.stage.Loaded? && x'.stage.Subscribed?)
               || (x.stage.Subscribed? && x'.stage.Requested?)
    requires x'.conn.locks >= x.conn.locks && x'.conn.locks - Holding(x') >= x.conn.locks - Holding(x)
    ensures KnownInv(vs, x') && LockInv(vs, x', i)
  {
    assert x'.inbox == x.inbox && x'.conn.buffer == x.conn.buffer;
  }

  lemma {:induction false} StepKeeps(s: System, a: Action)
    requires Inv(s) && Enabled(s, a)
    ensures Inv(Step(s, a))
  {
    match a
    case Deliver(i, rev) => DeliverKeeps(s, i, rev);
    case Answer(i) => AnswerKeeps(s, i);
    case Fail(i) => FailKeeps(s, i);
    case Decide(i, hash) =>
      if s.instances[i].copy == Latest(s.versions) { AcceptKeeps(s, i, hash); } else { RefusalKeeps(s, i, hash); }
    case Reload(i) => ReloadKeeps(s, i);
    case OtherSaveEnds(i, noted) => OtherKeeps(s, i, noted);
    case _ => StageKeeps(s, a);
  }
}
