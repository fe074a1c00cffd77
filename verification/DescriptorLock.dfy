// The lock an agent instance takes on its descriptor: it reloads the descriptor, subscribes to its
// changes and stores its instance id in it. An instance whose store conflicts, or which is notified of
// a change that is not its own, terminates itself. Any number of instances do this at any time, each may go
// on updating its descriptor afterwards, and each may be saving other documents all the while.

module DescriptorLock {
  import opened Wrappers
  import opened EmuDatabase
  import opened Connection

  const DESCRIPTOR: Id := "descriptor"

  // Requested: a save has been sent; Answered: the server has decided about it, the answer is on its way.
  datatype Stage = Starting | Loaded | Subscribed | Requested | Answered(outcome: Option<Rev>)

  /** An instance: its connection, the revision of its copy of the descriptor, the notifications under
      way to it, whether a store of it was ever answered, and whether it has terminated itself. */
  datatype Instance = Instance(stage: Stage, conn: Conn, copy: Rev, inbox: multiset<Rev>, attempted: bool, killed: bool)

  // The content of the descriptor that matters here is the number of the instance that stored it.
  // `versions` lists all its revisions with their writers, the first one written by nobody below.
  datatype System = System(db: Db<nat>, versions: seq<(Rev, Option<nat>)>, instances: seq<Instance>)

  datatype Action =
    | Reload(i: nat) | Subscribe(i: nat) | SendStore(i: nat) | Decide(i: nat, hash: nat)
    | Answer(i: nat) | Fail(i: nat) | Deliver(i: nat, rev: Rev)
    | OtherSaveBegins(i: nat) | OtherSaveEnds(i: nat, noted: Option<(Id, Rev)>)

  function Note(rev: Rev): Notice {
    Notice(DESCRIPTOR, rev, false)
  }

  predicate SomeForeign(ds: seq<Delivery>, first: nat) {
    exists p :: first <= p < |ds| && !ds[p].own
  }

  // _descriptor_changed is called for the new deliveries; a foreign one kills.
  function Judge(x: Instance, conn: Conn): Instance {
    x.(conn := conn,
       killed := x.killed || SomeForeign(conn.delivered, |x.conn.delivered|))
  }

  function Heard(x: Instance, rev: Rev): Instance {
    Judge(x.(inbox := x.inbox - multiset{rev}), OnChange(x.conn, Note(rev)))
  }

  // The answer to a store: a success is noted, the lock is released, a conflict kills.
  function AfterAnswer(x: Instance): Instance
    requires x.stage.Answered? && x.conn.locks > 0
  {
    match x.stage.outcome
    case Some(rev) =>
      Judge(x.(stage := Subscribed, copy := rev, attempted := true), Unlock(NoteRevision(x.conn, DESCRIPTOR, rev)))
    case None =>
      Judge(x.(stage := Subscribed, attempted := true), Unlock(x.conn)).(killed := true)
  }

  // A save that failed for another reason than a conflict, and was not stored: the lock is released.
  function AfterFailure(x: Instance): Instance
    requires x.conn.locks > 0
  {
    Judge(x.(stage := Subscribed), Unlock(x.conn))
  }

  // How often the instance's own store holds the notification lock; saves of other documents hold it, too.
  function Holding(x: Instance): nat {
    if x.stage.Requested? || x.stage.Answered? then 1 else 0
  }

  // Another save of the connection has ended, with what was noted of its document if it succeeded.
  function AfterOther(x: Instance, noted: Option<(Id, Rev)>): Instance
    requires x.conn.locks > 0
  {
    Judge(x, Unlock(if noted.Some? then NoteRevision(x.conn, noted.value.0, noted.value.1) else x.conn))
  }

  predicate Listening(x: Instance) {
    x.stage.Subscribed? || x.stage.Requested? || x.stage.Answered?
  }

  function NotifyAll(instances: seq<Instance>, rev: Rev): (r: seq<Instance>)
    ensures |r| == |instances|
    ensures forall j | 0 <= j < |r| ::
              r[j] == if Listening(instances[j]) then instances[j].(inbox := instances[j].inbox + multiset{rev})
                      else instances[j]
  {
    seq(|instances|, j requires 0 <= j < |instances| =>
      if Listening(instances[j]) then instances[j].(inbox := instances[j].inbox + multiset{rev}) else instances[j])
  }

  predicate Enabled(s: System, a: Action) {
    a.i < |s.instances| &&
    var x := s.instances[a.i];
    match a
    case Reload(_) => x.stage.Starting? && DESCRIPTOR in s.db.documents
    case Subscribe(_) => x.stage.Loaded?
    case SendStore(_) => x.stage.Subscribed?
    case Decide(_, _) => x.stage.Requested?
    case Answer(_) => x.stage.Answered? && x.conn.locks > 0
    case Fail(_) => x.stage.Requested? && x.conn.locks > 0
    case Deliver(_, rev) => rev in x.inbox
    case OtherSaveBegins(_) => true
    case OtherSaveEnds(_, noted) => x.conn.locks > Holding(x) && (noted.Some? ==> noted.value.0 != DESCRIPTOR)
  }

  function Step(s: System, a: Action): System
    requires Enabled(s, a)
  {
    var x := s.instances[a.i];
    match a
    case Reload(i) =>
      var rev := s.db.documents[DESCRIPTOR].rev;
      s.(instances := s.instances[i := x.(stage := Loaded, copy := rev, conn := NoteRevision(x.conn, DESCRIPTOR, rev))])
    case Subscribe(i) => s.(instances := s.instances[i := x.(stage := Subscribed)])
    case SendStore(i) => s.(instances := s.instances[i := x.(stage := Requested, conn := Lock(x.conn))])
    case Decide(i, hash) =>
      var (db, r) := Save(s.db, Draft(Some(DESCRIPTOR), Some(x.copy), false, i), DESCRIPTOR, hash, true);
      if r.Saved?
      then System(db, s.versions + [(r.rev, Some(i))],
                  NotifyAll(s.instances, r.rev)[i := NotifyAll(s.instances, r.rev)[i].(stage := Answered(Some(r.rev)))])
      else s.(instances := s.instances[i := x.(stage := Answered(None))])
    case Answer(i) => s.(instances := s.instances[i := AfterAnswer(x)])
    case Fail(i) => s.(instances := s.instances[i := AfterFailure(x)])
    case Deliver(i, rev) => s.(instances := s.instances[i := Heard(x, rev)])
    case OtherSaveBegins(i) => s.(instances := s.instances[i := x.(conn := Lock(x.conn))])
    case OtherSaveEnds(i, noted) => s.(instances := s.instances[i := AfterOther(x, noted)])
  }

  ghost predicate Init(s: System) {
    && DESCRIPTOR in s.db.documents
    && !s.db.documents[DESCRIPTOR].deleted && s.db.documents[DESCRIPTOR].body == None
    && s.versions == [(s.db.documents[DESCRIPTOR].rev, None)]
    && forall i | 0 <= i < |s.instances| ::
         var x := s.instances[i];
         x.stage.Starting? && x.conn == NewConn() && x.inbox == multiset{} && !x.attempted && !x.killed
  }

  ghost predicate IsRun(ss: seq<System>, acts: seq<Action>) {
    && |ss| == |acts| + 1 && Init(ss[0])
    && forall k | 0 <= k < |acts| :: Enabled(ss[k], acts[k]) && ss[k + 1] == Step(ss[k], acts[k])
  }
}
