// Concurrent calls are serial: the document is what the committed methods make of it one after another.

module Serializability {
  import opened Wrappers
  import opened EmuDatabase
  import opened UpdateDocument
  import Update

  // ---------------------------------------------------------------- serializability

  // What does not change during a run: the document, its first revision and content, and the methods.
  datatype Setup<!C> = Setup(id: Id, base: Rev, init: C, n: nat, update: Methods<C>)

  predicate InRange(log: seq<nat>, n: nat) {
    forall p | 0 <= p < |log| :: log[p] < n
  }

  // The methods of the first `v` clients of the log, applied one after the other; None once the document is
  // deleted.
  function ContentAfter<C>(u: Setup<C>, log: seq<nat>, v: nat): Option<C>
    requires InRange(log, u.n) && v <= |log|
  {
    if v == 0 then Some(u.init)
    else
      var before := ContentAfter(u, log, v - 1);
      if before.None? then None
      else
        match u.update(log[v - 1], before.value)
        case Changed(d) => Some(d)
        case Deleted => None
        case Resigned => before
  }

  lemma {:induction false} LaterCommitsDoNotMatter<C>(u: Setup<C>, log: seq<nat>, i: nat, v: nat)
    requires InRange(log, u.n) && i < u.n && v <= |log|
    ensures ContentAfter(u, log + [i], v) == ContentAfter(u, log, v)
  {
    if v > 0 {
      LaterCommitsDoNotMatter(u, log, i, v - 1);
    }
  }

  // The stored document is the given content, or a tombstone.
  ghost predicate Shows<C>(doc: Stored<C>, content: Option<C>) {
    if content.Some? then !doc.deleted && doc.body == content else doc.deleted
  }

  ghost predicate DocInv<C>(s: System<C>, u: Setup<C>) {
    && u.n == |s.clients|
    && InRange(s.log, |s.clients|)
    && u.id in s.db.documents
    && Shows(s.db.documents[u.id], ContentAfter(u, s.log, |s.log|))
    && s.db.documents[u.id].rev.index == u.base.index + |s.log|
  }

  // How many commits a revision of this document comes after.
  function Version<C>(u: Setup<C>, rev: Rev): int {
    rev.index - u.base.index
  }

  ghost predicate ClientInv<C>(s: System<C>, u: Setup<C>, i: nat)
    requires DocInv(s, u) && i < |s.clients|
  {
    var c := s.clients[i];
    match c.phase
    case Fetching => i !in s.log
    case Holding(rev, content) =>
      var v := Version(u, rev);
      && i !in s.log && 0 <= v <= |s.log|
      && ContentAfter(u, s.log, v) == Some(content)
      && (v == |s.log| ==> rev == s.db.documents[u.id].rev)
    case Committed => i in s.log
    case Resigned(rev) =>
      var v := Version(u, rev);
      && i !in s.log && 0 <= v <= |s.log| && ResignsAt(u, s.log, i, v)
    case Missing => i !in s.log && ContentAfter(u, s.log, |s.log|).None?
  }

  // The method of client `i` resigns on what the first `v` commits leave.
  predicate ResignsAt<C>(u: Setup<C>, log: seq<nat>, i: nat, v: nat)
    requires InRange(log, u.n) && v <= |log|
  {
    var content := ContentAfter(u, log, v);
    content.Some? && u.update(i, content.value).Resigned?
  }

  // Commit `p` changed or deleted what the commits before it had left.
  predicate Applies<C>(u: Setup<C>, log: seq<nat>, p: nat)
    requires InRange(log, u.n) && p < |log|
  {
    var content := ContentAfter(u, log, p);
    content.Some? && !u.update(log[p], content.value).Resigned?
  }

  function Position(log: seq<nat>, i: nat): (p: nat)
    requires i in log
    ensures p < |log| && log[p] == i && i !in log[..p]
  {
    if log[0] == i then 0
    else
      var p := 1 + Position(log[1..], i);
      assert log[..p] == [log[0]] + log[1..][..p - 1];
      p
  }

  // Nobody commits twice, and nobody commits where its method would resign or there is nothing to change.
  ghost predicate LogInv<C>(u: Setup<C>, log: seq<nat>)
    requires InRange(log, u.n)
  {
    && (forall p, q | 0 <= p < q < |log| :: log[p] != log[q])
    && (forall p | 0 <= p < |log| :: Applies(u, log, p))
  }

  ghost predicate Inv<C>(s: System<C>, u: Setup<C>) {
    && DocInv(s, u)
    && LogInv(u, s.log)
    && forall i | 0 <= i < |s.clients| :: ClientInv(s, u, i)
  }

  ghost predicate Init<C>(s: System<C>, u: Setup<C>) {
    && u.n == |s.clients| && s.log == []
    && u.id in s.db.documents
    && s.db.documents[u.id] == Stored(u.base, false, Some(u.init))
    && forall i | 0 <= i < |s.clients| ::
         s.clients[i].conflicts == 0
         && (s.clients[i].phase.Fetching? || s.clients[i].phase == Holding(u.base, u.init))
  }

  ghost predicate IsRun<C>(ss: seq<System<C>>, acts: seq<Action>, u: Setup<C>) {
    && |ss| == |acts| + 1
    && Init(ss[0], u)
    && forall k | 0 <= k < |acts| ::
         |ss[k].clients| == u.n && Enabled(ss[k], acts[k])
         && ss[k + 1] == Step(ss[k], u.id, u.update, acts[k])
  }

  // A client saves on a tombstone: the server does not compare revisions then.
  predicate Revives<C>(s: System<C>, u: Setup<C>, a: Action) {
    && a.Iterate? && a.i < |s.clients| && s.clients[a.i].phase.Holding?
    && u.id in s.db.documents && s.db.documents[u.id].deleted
    && !u.update(a.i, s.clients[a.i].phase.content).Resigned?
  }

  lemma FetchPreserves<C>(s: System<C>, u: Setup<C>, i: nat)
    requires Inv(s, u) && i < |s.clients|
    ensures Inv(Step(s, u.id, u.update, Fetch(i)), u)
  {
    var s' := Step(s, u.id, u.update, Fetch(i));
    forall j | 0 <= j < |s'.clients| ensures ClientInv(s', u, j) {
      assert ClientInv(s, u, j);
    }
  }

  // What a commit by client `i` leaves.
  ghost predicate CommitsTo<C>(s: System<C>, u: Setup<C>, i: nat, s': System<C>) {
    && DocInv(s, u) && i < |s.clients| && s.clients[i].phase.Holding?
    && s'.log == s.log + [i]
    && s'.clients == s.clients[i := s.clients[i].(phase := Committed)]
    && u.id in s'.db.documents
    && s'.db.documents[u.id].rev.index == u.base.index + |s.log| + 1
    && Shows(s.db.documents[u.id], Some(s.clients[i].phase.content))
    && ContentAfter(u, s.log, |s.log|) == Some(s.clients[i].phase.content)
    && match u.update(i, s.clients[i].phase.content)
       case Changed(d) => Shows(s'.db.documents[u.id], Some(d))
       case Deleted => Shows(s'.db.documents[u.id], None)
       case Resigned => false
  }

  lemma LogGrows<C>(u: Setup<C>, log: seq<nat>, i: nat)
    requires InRange(log, u.n) && i < u.n
    ensures InRange(log + [i], u.n)
    ensures forall v: nat | v <= |log| :: ContentAfter(u, log + [i], v) == ContentAfter(u, log, v)
  {
    forall v: nat | v <= |log| ensures ContentAfter(u, log + [i], v) == ContentAfter(u, log, v) {
      LaterCommitsDoNotMatter(u, log, i, v);
    }
  }

  lemma CommitKeepsDoc<C>(s: System<C>, u: Setup<C>, i: nat, s': System<C>)
    requires CommitsTo(s, u, i, s')
    ensures DocInv(s', u)
  {
    LogGrows(u, s.log, i);
    assert s'.log[|s.log|] == i;
  }

  // The log stays one of applied methods exactly if the new one applies.
  lemma {:induction false} CommitKeepsLog<C>(u: Setup<C>, log: seq<nat>, i: nat)
    requires InRange(log, u.n) && i < u.n && LogInv(u, log) && i !in log
    ensures InRange(log + [i], u.n)
    ensures LogInv(u, log + [i])
            <==> ContentAfter(u, log, |log|).Some? && !u.update(i, ContentAfter(u, log, |log|).value).Resigned?
  {
    LogGrows(u, log, i);
    var more := log + [i];
    forall p | 0 <= p < |log| ensures Applies(u, more, p) {
      assert Applies(u, log, p) && ContentAfter(u, more, p) == ContentAfter(u, log, p);
    }
    assert more[|log|] == i && ContentAfter(u, more, |log|) == ContentAfter(u, log, |log|);
    if LogInv(u, more) {
      assert Applies(u, more, |log|);
    }
  }

  lemma CommitKeepsClients<C>(s: System<C>, u: Setup<C>, i: nat, s': System<C>)
    requires CommitsTo(s, u, i, s') && DocInv(s', u) && forall j | 0 <= j < |s.clients| :: ClientInv(s, u, j)
    ensures forall j | 0 <= j < |s'.clients| :: ClientInv(s', u, j)
  {
    forall j | 0 <= j < |s'.clients| ensures ClientInv(s', u, j) {
      assert ClientInv(s, u, j);
      var v := match s.clients[j].phase
        case Holding(rev, _) => Version(u, rev)
        case Resigned(rev) => Version(u, rev)
        case _ => 0;
      LaterCommitsDoNotMatter(u, s.log, i, v);
    }
  }

  // A save on a live document succeeds only on the copy of the latest version.
  lemma {:induction false} CommitPreserves<C>(s: System<C>, u: Setup<C>, i: nat, hash: nat)
    requires Inv(s, u) && i < |s.clients| && s.clients[i].phase.Holding?
    requires s.clients[i].phase.rev == s.db.documents[u.id].rev && !s.db.documents[u.id].deleted
    requires !u.update(i, s.clients[i].phase.content).Resigned?
    ensures Inv(Step(s, u.id, u.update, Iterate(i, hash)), u)
  {
    var s' := Step(s, u.id, u.update, Iterate(i, hash));
    assert ClientInv(s, u, i);
    assert CommitsTo(s, u, i, s');
    CommitKeepsDoc(s, u, i, s');
    CommitKeepsLog(u, s.log, i);
    CommitKeepsClients(s, u, i, s');
  }

  lemma {:induction false} PositionGrows(log: seq<nat>, i: nat, j: nat)
    requires j in log + [i]
    ensures Position(log + [i], j) == if j in log then Position(log, j) else |log|
  {
    if log == [] {
      assert log + [i] == [i];
    } else if log[0] != j {
      assert (log + [i])[1..] == log[1..] + [i];
      PositionGrows(log[1..], i, j);
    }
  }

  lemma {:induction false} OtherwiseUnchanged<C>(s: System<C>, u: Setup<C>, i: nat, hash: nat)
    requires Inv(s, u) && i < |s.clients| && s.clients[i].phase.Holding?
    requires (s.clients[i].phase.rev != s.db.documents[u.id].rev && !s.db.documents[u.id].deleted)
             || u.update(i, s.clients[i].phase.content).Resigned?
    ensures Inv(Step(s, u.id, u.update, Iterate(i, hash)), u)
  {
    var s' := Step(s, u.id, u.update, Iterate(i, hash));
    assert ClientInv(s, u, i);
    forall j | 0 <= j < |s'.clients| ensures ClientInv(s', u, j) {
      assert ClientInv(s, u, j);
    }
  }

  // A save on a tombstone is logged although there was nothing its method could be applied to.
  lemma RevivingBreaks<C>(s: System<C>, u: Setup<C>, a: Action)
    requires Inv(s, u) && Revives(s, u, a)
    ensures var s' := Step(s, u.id, u.update, a); InRange(s'.log, u.n) && !LogInv(u, s'.log)
  {
    assert ClientInv(s, u, a.i);
    CommitKeepsLog(u, s.log, a.i);
  }

  lemma {:induction false} InvOverRun<C>(ss: seq<System<C>>, acts: seq<Action>, u: Setup<C>, k: nat)
    requires IsRun(ss, acts, u) && k < |ss| && forall j | 0 <= j < k :: !Revives(ss[j], u, acts[j])
    ensures forall j | 0 <= j <= k :: Inv(ss[j], u)
  {
    if k == 0 {
      forall i | 0 <= i < |ss[0].clients| ensures ClientInv(ss[0], u, i) {
      }
    } else {
      InvOverRun(ss, acts, u, k - 1);
      var s := ss[k - 1];
      match acts[k - 1]
      case Fetch(i) => FetchPreserves(s, u, i);
      case Iterate(i, hash) =>
        if u.update(i, s.clients[i].phase.content).Resigned? || s.clients[i].phase.rev != s.db.documents[u.id].rev {
          OtherwiseUnchanged(s, u, i, hash);
        } else {
          CommitPreserves(s, u, i, hash);
        }
    }
  }

  // The content is that of the committed methods applied in commit order, each to the content its predecessors
  // left, none resigning there and none finding the document deleted; a client has committed exactly if it is
  // in that order, and then once; one that resigned did so on a content the document really had, and one that
  // found no document is right.
  ghost predicate IsSerial<C>(s: System<C>, u: Setup<C>) {
    && |s.clients| == u.n && InRange(s.log, u.n)
    && u.id in s.db.documents && Shows(s.db.documents[u.id], ContentAfter(u, s.log, |s.log|))
    && (forall p | 0 <= p < |s.log| :: Applies(u, s.log, p))
    && (forall p, q | 0 <= p < q < |s.log| :: s.log[p] != s.log[q])
    && (forall i | 0 <= i < |s.clients| :: s.clients[i].phase.Committed? <==> i in s.log)
    && (forall i | 0 <= i < |s.clients| && s.clients[i].phase.Resigned? :: ResignsOnSome(u, s.log, i))
    && forall i | 0 <= i < |s.clients| && s.clients[i].phase.Missing? :: s.db.documents[u.id].deleted
  }

  /** Serializability: every point of an interleaving up to `k` is that of a serial execution if and only if no
      client saves on a tombstone before. */
  lemma Serializable<C>(ss: seq<System<C>>, acts: seq<Action>, u: Setup<C>, k: nat)
    requires IsRun(ss, acts, u) && k < |ss|
    ensures (forall j | 0 <= j <= k :: IsSerial(ss[j], u)) <==> forall j | 0 <= j < k :: !Revives(ss[j], u, acts[j])
  {
    if forall j | 0 <= j < k :: !Revives(ss[j], u, acts[j]) {
      forall j | 0 <= j <= k ensures IsSerial(ss[j], u) {
        InvOverRun(ss, acts, u, j);
        CommittedAreLogged(ss[j], u);
        ResignedOnRealContent(ss[j], u);
        forall i | 0 <= i < |ss[j].clients| && ss[j].clients[i].phase.Missing?
          ensures ss[j].db.documents[u.id].deleted
        {
          assert ClientInv(ss[j], u, i);
        }
      }
    } else {
      SomewhereNotSerial(ss, acts, u, k);
    }
  }

  lemma {:induction false} SomewhereNotSerial<C>(ss: seq<System<C>>, acts: seq<Action>, u: Setup<C>, k: nat)
    requires IsRun(ss, acts, u) && k < |ss| && exists j :: 0 <= j < k && Revives(ss[j], u, acts[j])
    ensures exists j :: 0 <= j <= k && !IsSerial(ss[j], u)
  {
    if j :| 0 <= j < k - 1 && Revives(ss[j], u, acts[j]) {
      SomewhereNotSerial(ss, acts, u, k - 1);
    } else {
      NotSerialThen(ss, acts, u, k - 1);
    }
  }

  lemma NotSerialThen<C>(ss: seq<System<C>>, acts: seq<Action>, u: Setup<C>, j: nat)
    requires IsRun(ss, acts, u) && j < |acts| && Revives(ss[j], u, acts[j])
    requires forall i | 0 <= i < j :: !Revives(ss[i], u, acts[i])
    ensures !IsSerial(ss[j + 1], u)
  {
    InvOverRun(ss, acts, u, j);
    RevivingBreaks(ss[j], u, acts[j]);
  }

  /** When no method deletes the document every interleaving is serial. */
  lemma {:induction false} SerializableWithoutDeletion<C>(ss: seq<System<C>>, acts: seq<Action>, u: Setup<C>, k: nat)
    requires IsRun(ss, acts, u) && k < |ss|
    requires forall i: nat, content :: !u.update(i, content).Deleted?
    ensures forall j | 0 <= j <= k :: IsSerial(ss[j], u)
  {
    NeverDeleted(ss, acts, u, k);
    Serializable(ss, acts, u, k);
  }

  lemma {:induction false} NeverDeleted<C>(ss: seq<System<C>>, acts: seq<Action>, u: Setup<C>, k: nat)
    requires IsRun(ss, acts, u) && k < |ss|
    requires forall i: nat, content :: !u.update(i, content).Deleted?
    ensures u.id in ss[k].db.documents && !ss[k].db.documents[u.id].deleted
    ensures forall j | 0 <= j < k :: !Revives(ss[j], u, acts[j])
  {
    if k > 0 {
      NeverDeleted(ss, acts, u, k - 1);
      assert ss[k] == Step(ss[k - 1], u.id, u.update, acts[k - 1]);
    }
  }

  lemma CommittedAreLogged<C>(s: System<C>, u: Setup<C>)
    requires Inv(s, u)
    ensures forall i | 0 <= i < |s.clients| :: s.clients[i].phase.Committed? <==> i in s.log
  {
    forall i | 0 <= i < |s.clients| ensures s.clients[i].phase.Committed? <==> i in s.log {
      assert ClientInv(s, u, i);
    }
  }

  // The method resigns on some content the document has had.
  ghost predicate ResignsOnSome<C>(u: Setup<C>, log: seq<nat>, i: nat)
    requires InRange(log, u.n)
  {
    exists v: nat :: v <= |log| && ResignsAt(u, log, i, v)
  }

  lemma ResignedOnRealContent<C>(s: System<C>, u: Setup<C>)
    requires Inv(s, u)
    ensures forall i | 0 <= i < |s.clients| && s.clients[i].phase.Resigned? :: ResignsOnSome(u, s.log, i)
  {
    forall i | 0 <= i < |s.clients| && s.clients[i].phase.Resigned? ensures ResignsOnSome(u, s.log, i) {
      assert ClientInv(s, u, i);
      assert ResignsAt(u, s.log, i, Version(u, s.clients[i].phase.seen));
    }
  }

  // The failing input: the method of client 0 deletes the document, that of client 1 adds one.
  function RevivingUpdate(i: nat, content: int): Update.Result<int> {
    if i == 0 then Update.Deleted else Update.Changed(content + 1)
  }

  /** Both clients hold the first revision. Client 0 deletes the document; then client 1 saves its copy without
      a conflict, and the document lives on as if it had never been deleted. */
  lemma DeletedDocumentRevives() returns (ss: seq<System<int>>)
    ensures var u := Setup("a", Rev(1, 0), 7, 2, RevivingUpdate);
      && IsRun(ss, [Iterate(0, 1), Iterate(1, 2)], u)
      && "a" in ss[1].db.documents && ss[1].db.documents["a"].deleted
      && "a" in ss[2].db.documents && ss[2].db.documents["a"] == Stored(Rev(2, 2), false, Some(8))
      && ss[2].log == [0, 1] && !IsSerial(ss[2], u)
  {
    var u := Setup("a", Rev(1, 0), 7, 2, RevivingUpdate);
    var held := Client(Holding(Rev(1, 0), 7), 0);
    var s0 := System(Db(map["a" := Stored(Rev(1, 0), false, Some(7))], map[]), [held, held], []);
    var s1 := Step(s0, "a", RevivingUpdate, Iterate(0, 1));
    ss := [s0, s1, Step(s1, "a", RevivingUpdate, Iterate(1, 2))];
    assert IsRun(ss, [Iterate(0, 1), Iterate(1, 2)], u);
    assert ContentAfter(u, [0, 1], 1) == None by {
      assert ContentAfter(u, [0, 1], 0) == Some(7);
    }
    assert !Applies(u, [0, 1], 1);
  }

  // ---------------------------------------------------------------- conflicts

  // While nobody commits the document stays the same.
  lemma {:induction false} LogTellsDocument<C>(ss: seq<System<C>>, acts: seq<Action>, u: Setup<C>, j: nat, k: nat)
    requires IsRun(ss, acts, u) && j <= k < |ss|
    ensures |ss[j].log| <= |ss[k].log|
    ensures |ss[j].log| == |ss[k].log| ==> ss[j].db.documents == ss[k].db.documents
  {
    if j < k {
      LogTellsDocument(ss, acts, u, j, k - 1);
      assert ss[k] == Step(ss[k - 1], u.id, u.update, acts[k - 1]);
    }
  }

  /** A save conflicts only if someone has committed since the copy it is based on was the stored document. */
  lemma ConflictNeedsCommit<C>(ss: seq<System<C>>, acts: seq<Action>, u: Setup<C>, j: nat, k: nat)
    requires IsRun(ss, acts, u) && j <= k < |acts| && acts[k].Iterate?
    requires ss[k + 1].clients[acts[k].i].phase.Fetching?
    requires ss[k].clients[acts[k].i].phase.Holding? ==>
               IsLive(ss[j].db, u.id) && ss[k].clients[acts[k].i].phase.rev == ss[j].db.documents[u.id].rev
    ensures |ss[j].log| < |ss[k].log|
  {
    LogTellsDocument(ss, acts, u, j, k);
    assert ss[k + 1] == Step(ss[k], u.id, u.update, acts[k]);
  }
}
