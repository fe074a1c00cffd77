// What the descriptor lock achieves over every run of its instances, and what each step tells them.

module DescriptorRuns {
  import opened Wrappers
  import opened EmuDatabase
  import opened Connection
  import opened DescriptorLock
  import opened DescriptorInvariants

  lemma {:induction false} InvOverRun(ss: seq<System>, acts: seq<Action>, k: nat)
    requires IsRun(ss, acts) && k < |ss|
    ensures forall j | 0 <= j <= k :: Inv(ss[j])
  {
    if k > 0 {
      InvOverRun(ss, acts, k - 1);
      StepKeeps(ss[k - 1], acts[k - 1]);
    }
  }

  /** The instance that stored last is alive, whatever has been delivered or answered to it so far. */
  lemma LastWriterLives(ss: seq<System>, acts: seq<Action>, k: nat, i: nat)
    requires IsRun(ss, acts) && k < |ss| && i < |ss[k].instances|
    requires DESCRIPTOR in ss[k].db.documents && ss[k].db.documents[DESCRIPTOR].body == Some(i)
    ensures !ss[k].instances[i].killed
  {
    InvOverRun(ss, acts, k);
    assert LockInv(ss[k].versions, ss[k].instances[i], i);
  }

  // Every instance has terminated itself or has had its store answered, with nothing under way to it and
  // nothing kept back.
  predicate Quiet(s: System) {
    forall i | 0 <= i < |s.instances| ::
      var x := s.instances[i];
      x.killed || (x.attempted && x.stage.Subscribed? && x.inbox == multiset{} && x.conn.buffer == [])
  }

  /** When all is quiet exactly one instance is alive: the one whose id the descriptor holds. */
  lemma ExactlyOneLives(ss: seq<System>, acts: seq<Action>, k: nat)
    requires IsRun(ss, acts) && k < |ss| && Quiet(ss[k]) && |ss[k].instances| > 0
    ensures DESCRIPTOR in ss[k].db.documents
    ensures exists i | 0 <= i < |ss[k].instances| ::
              && ss[k].db.documents[DESCRIPTOR].body == Some(i)
              && forall j | 0 <= j < |ss[k].instances| :: !ss[k].instances[j].killed <==> j == i
  {
    InvOverRun(ss, acts, k);
    WritersExist(ss, acts, k);
    var s := ss[k];
    assert KnownInv(s.versions, s.instances[0]);
    var w := s.versions[|s.versions| - 1].1;
    assert w.Some?;
    var i := w.value;
    forall j | 0 <= j < |s.instances| ensures !s.instances[j].killed <==> j == i {
      LivesIfOwner(s.versions, s.instances[j], j);
    }
  }

  // With nothing under way to it an instance is alive exactly if the newest revision is its own.
  lemma LivesIfOwner(vs: seq<(Rev, Option<nat>)>, x: Instance, j: nat)
    requires |vs| > 0 && KnownInv(vs, x) && LockInv(vs, x, j)
    requires forall v | 0 <= v < |vs| :: vs[v].0.index == vs[0].0.index + v
    requires x.killed || (x.attempted && x.stage.Subscribed? && x.inbox == multiset{} && x.conn.buffer == [])
    ensures !x.killed <==> vs[|vs| - 1].1 == Some(j)
  {
    if !x.killed {
      assert !Pending(x, x.copy.index);
    }
  }

  lemma {:induction false} WritersExist(ss: seq<System>, acts: seq<Action>, k: nat)
    requires IsRun(ss, acts) && k < |ss|
    ensures forall v | 0 < v < |ss[k].versions| ::
              ss[k].versions[v].1.Some? && ss[k].versions[v].1.value < |ss[k].instances|
  {
    if k > 0 {
      WritersExist(ss, acts, k - 1);
      assert ss[k] == Step(ss[k - 1], acts[k - 1]);
    }
  }

  // ---------------------------------------------------------------- progress

  // The stage of the instance that acts, once it has; `stored` is the revision made, if a store was decided upon.
  function StageAfter(stage: Stage, a: Action, stored: Option<Rev>): Stage {
    match a
    case Reload(_) => Loaded
    case Subscribe(_) => Subscribed
    case SendStore(_) => Requested
    case Decide(_, _) => Answered(stored)
    case Answer(_) => Subscribed
    case Fail(_) => Subscribed
    case _ => stage
  }

  // The revision that a step adds to the history of the descriptor.
  function NewRevision(s: System, n: System): Option<Rev> {
    if |n.versions| > |s.versions| then Some(n.versions[|n.versions| - 1].0) else None
  }

  /** Each step takes the instance that acts to its next stage, and none but that. */
  lemma StagesFollow(s: System, a: Action)
    requires Enabled(s, a)
    ensures var n := Step(s, a);
      && |n.instances| == |s.instances|
      && n.instances[a.i].stage == StageAfter(s.instances[a.i].stage, a, NewRevision(s, n))
      && forall j | 0 <= j < |s.instances| && j != a.i :: n.instances[j].stage == s.instances[j].stage
  {
    if !a.Decide? {
      assert Step(s, a).instances == s.instances[a.i := Step(s, a).instances[a.i]];
    }
  }

  function LocksAfter(locks: nat, a: Action): int {
    match a
    case SendStore(_) | OtherSaveBegins(_) => locks + 1
    case Answer(_) | Fail(_) | OtherSaveEnds(_, _) => locks - 1
    case _ => locks
  }

  // The copy of the descriptor that the instance holds once it has acted.
  function CopyAfter(s: System, a: Action): Rev
    requires Enabled(s, a)
  {
    var x := s.instances[a.i];
    if a.Reload? then s.db.documents[DESCRIPTOR].rev
    else if a.Answer? && x.stage.outcome.Some? then x.stage.outcome.value
    else x.copy
  }

  /** What else it does: it holds the lock once more for each save begun and once less for each one ended, takes over
      the revision that was loaded or stored, counts as having attempted when it is answered, gives up for good on
      a conflict, and a notification it hears is under way no more. */
  lemma InstanceFollows(s: System, a: Action)
    requires Enabled(s, a)
    ensures var x, y := s.instances[a.i], Step(s, a).instances[a.i];
      && y.conn.locks == LocksAfter(x.conn.locks, a) && y.copy == CopyAfter(s, a)
      && (y.attempted <==> x.attempted || a.Answer?)
      && (x.killed || (a.Answer? && x.stage.outcome.None?) ==> y.killed)
      && (!a.Decide? ==> y.inbox == if a.Deliver? then x.inbox - multiset{a.rev} else x.inbox)
  {
    if !a.Decide? {
      assert Step(s, a).instances == s.instances[a.i := Step(s, a).instances[a.i]];
    }
  }

  /** A store adds a revision to the history, with its writer, exactly if it is based on the latest one; nothing else
      adds any. */
  lemma HistoryFollows(s: System, a: Action)
    requires Inv(s) && Enabled(s, a)
    ensures Step(s, a).versions
            == if a.Decide? && s.instances[a.i].copy == Latest(s.versions)
               then s.versions + [(Rev(Latest(s.versions).index + 1, a.hash), Some(a.i))]
               else s.versions
  {
  }

  function RevsOf(ns: seq<Notice>): multiset<Rev>
    decreases |ns|
  {
    if ns == [] then multiset{} else RevsOf(ns[..|ns| - 1]) + multiset{ns[|ns| - 1].rev}
  }

  lemma {:induction false} RevsOfMore(a: seq<Notice>, b: seq<Notice>)
    ensures RevsOf(a + b) == RevsOf(a) + RevsOf(b)
    decreases |b|
  {
    if b == [] {
      assert a + b == a;
    } else {
      var n := |b| - 1;
      assert (a + b)[..|a| + n] == a + b[..n];
      RevsOfMore(a, b[..n]);
    }
  }

  // All the notifications an instance was ever sent: those under way, and those delivered or kept back.
  function Told(x: Instance): multiset<Rev> {
    x.inbox + RevsOf(Notices(x.conn.delivered) + x.conn.buffer)
  }

  /** Notifications are neither lost nor repeated: in each step an instance is told of the revision that the step adds,
      if it listens, and what it was told of otherwise stays under way, kept back or delivered, once each. */
  lemma NoticesConserved(s: System, a: Action, j: nat)
    requires Enabled(s, a) && j < |s.instances|
    ensures j < |Step(s, a).instances|
    ensures Told(Step(s, a).instances[j]) == Told(s.instances[j]) + News(NewRevision(s, Step(s, a)), s.instances[j])
  {
    if a.Decide? {
      DecisionTells(s, a.i, a.hash, j);
    } else if j == a.i {
      OwnStepTells(s, a);
    }
  }

  // What a listening instance is sent of it.
  function News(rev: Option<Rev>, x: Instance): multiset<Rev> {
    if rev.Some? && Listening(x) then multiset{rev.value} else multiset{}
  }

  lemma DecisionTells(s: System, i: nat, hash: nat, j: nat)
    requires Enabled(s, Decide(i, hash)) && j < |s.instances|
    ensures j < |Step(s, Decide(i, hash)).instances|
    ensures Told(Step(s, Decide(i, hash)).instances[j])
            == Told(s.instances[j]) + News(NewRevision(s, Step(s, Decide(i, hash))), s.instances[j])
  {
    var x, n := s.instances[j], Step(s, Decide(i, hash));
    var rev := NewRevision(s, n);
    if rev.Some? {
      assert n.instances[j].conn == x.conn;
      assert n.instances[j].inbox == x.inbox + News(rev, x);
    } else {
      assert n.instances[j].conn == x.conn && n.instances[j].inbox == x.inbox;
    }
  }

  lemma OwnStepTells(s: System, a: Action)
    requires Enabled(s, a) && !a.Decide?
    ensures var n := Step(s, a);
      a.i < |n.instances| && n.versions == s.versions && Told(n.instances[a.i]) == Told(s.instances[a.i])
  {
    var x := s.instances[a.i];
    match a
    case Answer(_) => AnswerTells(x);
    case Fail(_) => UnlockDelivers(x.conn);
    case OtherSaveEnds(_, noted) =>
      UnlockDelivers(if noted.Some? then NoteRevision(x.conn, noted.value.0, noted.value.1) else x.conn);
    case Deliver(_, rev) => ChangeTells(x, rev);
    case _ =>
  }

  lemma AnswerTells(x: Instance)
    requires x.stage.Answered? && x.conn.locks > 0
    ensures Told(AfterAnswer(x)) == Told(x)
  {
    if x.stage.outcome.Some? {
      UnlockDelivers(NoteRevision(x.conn, DESCRIPTOR, x.stage.outcome.value));
    } else {
      UnlockDelivers(x.conn);
    }
  }

  lemma ChangeTells(x: Instance, rev: Rev)
    requires rev in x.inbox
    ensures Told(Heard(x, rev)) == Told(x)
  {
    var c, before := x.conn, Notices(x.conn.delivered) + x.conn.buffer;
    var after := Notices(OnChange(c, Note(rev)).delivered) + OnChange(c, Note(rev)).buffer;
    if c.locks == 0 {
      OutOfTurn(c, rev);
    } else {
      assert after == before + [Note(rev)];
      RevsOfMore(before, [Note(rev)]);
    }
    assert RevsOf([Note(rev)]) == multiset{rev} by {
      assert [Note(rev)][..0] == [];
    }
  }

  // It would not matter if one were delivered ahead of those kept back.
  lemma OutOfTurn(c: Conn, rev: Rev)
    requires c.locks == 0
    ensures RevsOf(Notices(OnChange(c, Note(rev)).delivered) + OnChange(c, Note(rev)).buffer)
            == RevsOf(Notices(c.delivered) + c.buffer) + RevsOf([Note(rev)])
  {
    assert Notices(OnChange(c, Note(rev)).delivered) == Notices(c.delivered) + [Note(rev)];
    RevsOfMore(Notices(c.delivered) + [Note(rev)], c.buffer);
    RevsOfMore(Notices(c.delivered), [Note(rev)]);
    RevsOfMore(Notices(c.delivered), c.buffer);
  }
}
