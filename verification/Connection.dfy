// A database connection as its change listener sees it: which revisions the connection knows of, the
// lock held while it is writing, and the notifications kept back until the lock is released.

module Connection {
  import opened Wrappers
  import opened EmuDatabase

  datatype Notice = Notice(id: Id, rev: Rev, deleted: bool)
  datatype Delivery = Delivery(notice: Notice, own: bool)

  datatype Conn = Conn(known: map<Id, Rev>, locks: nat, buffer: seq<Notice>, delivered: seq<Delivery>)

  function NewConn(): Conn {
    Conn(map[], 0, [], [])
  }

  // process_change: is the notified revision one this connection knew of already?
  predicate OwnChange(known: map<Id, Rev>, n: Notice) {
    n.id in known && (known[n.id].index > n.rev.index || known[n.id] == n.rev)
  }

  function Classify(known: map<Id, Rev>, ns: seq<Notice>): (ds: seq<Delivery>)
    ensures |ds| == |ns|
    ensures forall i | 0 <= i < |ns| :: ds[i] == Delivery(ns[i], OwnChange(known, ns[i]))
  {
    if ns == [] then [] else [Delivery(ns[0], OwnChange(known, ns[0]))] + Classify(known, ns[1..])
  }

  function Lock(c: Conn): Conn {
    c.(locks := c.locks + 1)
  }

  function Unlock(c: Conn): Conn
    requires c.locks > 0
  {
    if c.locks > 1 then c.(locks := c.locks - 1)
    else Conn(c.known, 0, [], c.delivered + Classify(c.known, c.buffer))
  }

  function NoteRevision(c: Conn, id: Id, rev: Rev): Conn {
    c.(known := c.known[id := rev])
  }

  function OnChange(c: Conn, n: Notice): Conn {
    if c.locks > 0 then c.(buffer := c.buffer + [n])
    else c.(delivered := c.delivered + [Delivery(n, OwnChange(c.known, n))])
  }

  // ---------------------------------------------------------------- the objects

  /** The connection object together with its one RevisionAnalytic; `delivered` is the sequence of the
      callback's invocations. */
  class DbConnection {
    var known: map<Id, Rev>
    var updateLockCounter: nat
    var waitingForUnlock: bool
    var buffer: seq<Notice>
    var delivered: seq<Delivery>

    ghost predicate Valid()
      reads this
    {
      waitingForUnlock <==> buffer != []
    }

    function View(): Conn
      reads this
    {
      Conn(known, updateLockCounter, buffer, delivered)
    }

    constructor ()
      ensures Valid() && View() == NewConn()
    {
      known, updateLockCounter, waitingForUnlock, buffer, delivered := map[], 0, false, [], [];
    }

    method LockNotifications()
      requires Valid()
      modifies this`updateLockCounter
      ensures Valid() && View() == Lock(old(View()))
    {
      updateLockCounter := updateLockCounter + 1;
    }

    method UnlockNotifications()
      requires Valid() && updateLockCounter > 0
      modifies this
      ensures Valid() && View() == Unlock(old(View()))
    {
      updateLockCounter := updateLockCounter - 1;
      if updateLockCounter == 0 {
        var callbacks := waitingForUnlock;
        waitingForUnlock := false;
        if callbacks {
          Unlocked();
        }
      }
    }

    // RevisionAnalytic.unlocked: the buffer is emptied from the front.
    method Unlocked()
      modifies this`buffer, this`delivered
      ensures buffer == []
      ensures delivered == old(delivered) + Classify(known, old(buffer))
    {
      while |buffer| > 0
        invariant delivered + Classify(known, buffer) == old(delivered) + Classify(known, old(buffer))
        decreases |buffer|
      {
        var n := buffer[0];
        assert Classify(known, buffer) == [Delivery(n, OwnChange(known, n))] + Classify(known, buffer[1..]);
        buffer := buffer[1..];
        ProcessChange(n);
      }
    }

    method ProcessChange(n: Notice)
      modifies this`delivered
      ensures delivered == old(delivered) + [Delivery(n, OwnChange(known, n))]
    {
      var own := false;
      if n.id in known {
        var last := known[n.id];
        if last.index > n.rev.index {
          own := true;
        }
        if last.index == n.rev.index && last.hash == n.rev.hash {
          own := true;
        }
      }
      delivered := delivered + [Delivery(n, own)];
    }

    method OnChangeReceived(n: Notice)
      requires Valid()
      modifies this
      ensures Valid() && View() == OnChange(old(View()), n)
    {
      if updateLockCounter > 0 {
        waitingForUnlock := true;
        buffer := buffer + [n];
      } else {
        ProcessChange(n);
      }
    }

    method NoticeDocRevision(id: Id, rev: Rev)
      requires Valid()
      modifies this`known
      ensures Valid() && View() == NoteRevision(old(View()), id, rev)
    {
      known := known[id := rev];
    }

    /** save_document against the emulated server: the lock is held from before the request until its answer has
        been noted and the linked documents have been saved. */
    method SaveDocument<B(==)>(db: Database<B>, t: Saving<B>) returns (ok: bool)
      requires Valid()
      modifies this, db
      ensures Valid()
      ensures (db.View(), known, ok) == SaveTree(old(db.View()), old(known), t)
      ensures View() == Unlock(Lock(old(View())).(known := known))
      decreases t
    {
      ghost var d, k := db.View(), known;
      LockNotifications();
      var r := db.SaveDoc(Draft(Some(t.id), Some(t.rev), false, t.body), t.id, t.hash, true);
      ok := r.Saved?;
      if r.Saved? && t.isDocument {
        NoticeDocRevision(r.id, r.rev);
        ghost var locked := View();
        var i := 0;
        while ok && i < |t.links|
          invariant 0 <= i <= |t.links|
          invariant Valid() && View() == locked.(known := known)
          invariant if ok then SaveLinks(db.View(), known, t, i) == SaveTree(d, k, t)
                    else (db.View(), known, false) == SaveTree(d, k, t)
        {
          ok := SaveDocument(db, t.links[i]);
          i := i + 1;
        }
      }
      UnlockNotifications();
    }
  }

  // ---------------------------------------------------------------- saving linked documents

  // A document to be saved, with the random part of its new revision and the documents registered to be saved
  // together with it. A plain dictionary has none, and its revision is not noted.
  datatype Saving<B> = Saving(id: Id, rev: Rev, body: B, hash: nat, isDocument: bool, links: seq<Saving<B>>)

  // The database and the known revisions afterwards, and whether all could be saved: a conflict ends it all.
  function SaveTree<B>(db: Db<B>, known: map<Id, Rev>, t: Saving<B>): (r: (Db<B>, map<Id, Rev>, bool))
    decreases t, |t.links| + 1
  {
    var (after, r) := Save(db, Draft(Some(t.id), Some(t.rev), false, t.body), t.id, t.hash, true);
    if !r.Saved? then (after, known, false)
    else if !t.isDocument then (after, known, true)
    else SaveLinks(after, known[t.id := r.rev], t, 0)
  }

  // The linked documents from number i on.
  function SaveLinks<B>(db: Db<B>, known: map<Id, Rev>, t: Saving<B>, i: nat): (r: (Db<B>, map<Id, Rev>, bool))
    requires i <= |t.links|
    decreases t, |t.links| - i
  {
    if i == |t.links| then (db, known, true)
    else
      var (after, k, ok) := SaveTree(db, known, t.links[i]);
      if ok then SaveLinks(after, k, t, i + 1) else (after, k, false)
  }

  // All that is to be saved, in order: the document, then what is linked to it, each with what is linked to that.
  function Order<B>(t: Saving<B>): (all: seq<Saving<B>>)
    ensures |all| > 0 && all[0] == t
    decreases t, |t.links| + 1
  {
    if t.isDocument then [t] + LinkOrder(t, 0) else [t]
  }

  function LinkOrder<B>(t: Saving<B>, i: nat): seq<Saving<B>>
    requires i <= |t.links|
    decreases t, |t.links| - i
  {
    if i == |t.links| then [] else Order(t.links[i]) + LinkOrder(t, i + 1)
  }

  predicate AllDocuments<B>(t: Saving<B>) {
    t.isDocument && forall i | 0 <= i < |t.links| :: AllDocuments(t.links[i])
  }

  // Whatever revision was stored on the way from one database to the other is the known one.
  ghost predicate NewAreKnown<B>(before: Db<B>, after: Db<B>, known: map<Id, Rev>) {
    forall id | id in after.documents && (id !in before.documents || after.documents[id] != before.documents[id]) ::
      id in known && known[id] == after.documents[id].rev
  }

  /** Saving a document with all those linked to it: even when it stops half way, every revision it has stored
      is known, so that its notification, which was kept back, will be taken for the connection's own. */
  lemma SavedAreKnown<B>(db: Db<B>, known: map<Id, Rev>, t: Saving<B>)
    requires AllDocuments(t)
    ensures var (after, k, _) := SaveTree(db, known, t); NewAreKnown(db, after, k)
  {
    KnownStays(db, db, known, t);
  }

  lemma {:induction false} LinksAreKnown<B>(before: Db<B>, db: Db<B>, known: map<Id, Rev>, t: Saving<B>, i: nat)
    requires AllDocuments(t) && i <= |t.links| && NewAreKnown(before, db, known)
    requires before.documents.Keys <= db.documents.Keys
    ensures var (after, k, _) := SaveLinks(db, known, t, i);
            NewAreKnown(before, after, k) && before.documents.Keys <= after.documents.Keys
    decreases t, |t.links| - i
  {
    if i < |t.links| {
      var (after, k, ok) := SaveTree(db, known, t.links[i]);
      KnownStays(before, db, known, t.links[i]);
      if ok {
        LinksAreKnown(before, after, k, t, i + 1);
      }
    }
  }

  lemma {:induction false} KnownStays<B>(before: Db<B>, db: Db<B>, known: map<Id, Rev>, t: Saving<B>)
    requires AllDocuments(t) && NewAreKnown(before, db, known) && before.documents.Keys <= db.documents.Keys
    ensures var (after, k, _) := SaveTree(db, known, t);
            NewAreKnown(before, after, k) && before.documents.Keys <= after.documents.Keys
    decreases t, |t.links| + 1
  {
    var (after, r) := Save(db, Draft(Some(t.id), Some(t.rev), false, t.body), t.id, t.hash, true);
    if r.Saved? {
      LinksAreKnown(before, after, known[t.id := r.rev], t, 0);
    }
  }

  function DraftOf<B>(t: Saving<B>): Draft<B> {
    Draft(Some(t.id), Some(t.rev), false, t.body)
  }

  ghost predicate SavesTo<B>(db: Db<B>, t: Saving<B>, after: Db<B>) {
    var (d, r) := Save(db, DraftOf(t), t.id, t.hash, true);
    r.Saved? && d == after
  }

  // The stores on the way, when the first of the list are saved one after the other.
  ghost predicate OneByOne<B>(dbs: seq<Db<B>>, all: seq<Saving<B>>) {
    0 < |dbs| <= |all| + 1 && forall i | 0 <= i < |dbs| - 1 :: SavesTo(dbs[i], all[i], dbs[i + 1])
  }

  // They lead from one store to the other; what comes next in the list, if anything does, conflicts there.
  ghost predicate LeadsTo<B>(dbs: seq<Db<B>>, db: Db<B>, all: seq<Saving<B>>, after: Db<B>, ok: bool) {
    && OneByOne(dbs, all) && dbs[0] == db && dbs[|dbs| - 1] == after
    && (ok <==> |dbs| == |all| + 1)
    && (!ok ==> RevisionConflict(after, DraftOf(all[|dbs| - 1])))
  }

  // All of the list is saved, or all up to the first conflict.
  ghost predicate AllSaved<B(!new)>(db: Db<B>, all: seq<Saving<B>>, after: Db<B>, ok: bool) {
    exists dbs :: LeadsTo(dbs, db, all, after, ok)
  }

  /** Saving a document saves it and all that is linked to it, directly or not, one after the other; it fails if and
      only if one of these saves conflicts, and then the ones before it are saved and none after it. */
  lemma {:induction false} TreeIsSaved<B(!new)>(db: Db<B>, known: map<Id, Rev>, t: Saving<B>)
    ensures var (after, _, ok) := SaveTree(db, known, t); AllSaved(db, Order(t), after, ok)
    decreases t, |t.links| + 1
  {
    var (after, r) := Save(db, DraftOf(t), t.id, t.hash, true);
    if !r.Saved? {
      assert LeadsTo([db], db, Order(t), db, false);
    } else if t.isDocument {
      LinksAreSaved(after, known[t.id := r.rev], t, 0);
      var (d, _, ok) := SaveLinks(after, known[t.id := r.rev], t, 0);
      OneFirst(db, t, after, LinkOrder(t, 0), d, ok);
    } else {
      assert LeadsTo([db, after], db, [t], after, true);
    }
  }

  lemma {:induction false} LinksAreSaved<B(!new)>(db: Db<B>, known: map<Id, Rev>, t: Saving<B>, i: nat)
    requires i <= |t.links|
    ensures var (after, _, ok) := SaveLinks(db, known, t, i); AllSaved(db, LinkOrder(t, i), after, ok)
    decreases t, |t.links| - i
  {
    if i == |t.links| {
      assert LeadsTo([db], db, [], db, true);
    } else {
      var (after, k, ok) := SaveTree(db, known, t.links[i]);
      TreeIsSaved(db, known, t.links[i]);
      if ok {
        LinksAreSaved(after, k, t, i + 1);
        var (d, _, all) := SaveLinks(after, k, t, i + 1);
        ThenTheRest(db, Order(t.links[i]), after, LinkOrder(t, i + 1), d, all);
      } else {
        StopsThere(db, Order(t.links[i]), after, LinkOrder(t, i + 1));
      }
    }
  }

  lemma OneFirst<B(!new)>(db: Db<B>, t: Saving<B>, after: Db<B>, rest: seq<Saving<B>>, d: Db<B>, ok: bool)
    requires SavesTo(db, t, after) && AllSaved(after, rest, d, ok)
    ensures AllSaved(db, [t] + rest, d, ok)
  {
    assert LeadsTo([db, after], db, [t], after, true);
    ThenTheRest(db, [t], after, rest, d, ok);
  }

  lemma ThenTheRest<B(!new)>(db: Db<B>, first: seq<Saving<B>>, after: Db<B>, rest: seq<Saving<B>>, d: Db<B>, ok: bool)
    requires AllSaved(db, first, after, true) && AllSaved(after, rest, d, ok)
    ensures AllSaved(db, first + rest, d, ok)
  {
    var dbs :| LeadsTo(dbs, db, first, after, true);
    var more :| LeadsTo(more, after, rest, d, ok);
    assert LeadsTo(dbs + more[1..], db, first + rest, d, ok);
  }

  lemma StopsThere<B(!new)>(db: Db<B>, first: seq<Saving<B>>, after: Db<B>, rest: seq<Saving<B>>)
    requires AllSaved(db, first, after, false)
    ensures AllSaved(db, first + rest, after, false)
  {
    var dbs :| LeadsTo(dbs, db, first, after, false);
    assert LeadsTo(dbs, db, first + rest, after, false);
  }

  // ---------------------------------------------------------------- runs of one connection

  // A write goes through three points: the request is about to be sent, the server has accepted it under
  // a new revision, its answer is noted and the lock released. A refused write has no second point.
  datatype Event =
    | WriteBegins
    | ServerAccepts(id: Id, rev: Rev)
    | WriteEnds(id: Id, rev: Rev)
    | WriteRefused
    | Fetched(id: Id, rev: Rev)
    | Notified(n: Notice)

  // The connection, the writes accepted but not noted yet, those noted, and all notifications so far.
  datatype Trace = Trace(conn: Conn, accepted: set<(Id, Rev)>, wrote: set<(Id, Rev)>, arrived: seq<Notice>)

  function NewTrace(): Trace {
    Trace(NewConn(), {}, {}, [])
  }

  // What the server does, whatever the client: it accepts only pending writes, and notifies only of
  // revisions that exist; a revision of this connection exists once it has been accepted.
  predicate Possible(t: Trace, e: Event) {
    match e
    case ServerAccepts(id, rev) => |t.accepted| < t.conn.locks && (id, rev) !in t.accepted + t.wrote
    case WriteEnds(id, rev) => t.conn.locks > 0 && (id, rev) in t.accepted
    case WriteRefused => |t.accepted| < t.conn.locks
    case _ => true
  }

  function Advance(t: Trace, e: Event): Trace
    requires Possible(t, e)
  {
    match e
    case WriteBegins => t.(conn := Lock(t.conn))
    case ServerAccepts(id, rev) => t.(accepted := t.accepted + {(id, rev)})
    case WriteEnds(id, rev) =>
      t.(conn := Unlock(NoteRevision(t.conn, id, rev)), accepted := t.accepted - {(id, rev)},
         wrote := t.wrote + {(id, rev)})
    case WriteRefused => t.(conn := Unlock(t.conn))
    case Fetched(id, rev) => t.(conn := NoteRevision(t.conn, id, rev))
    case Notified(n) => t.(conn := OnChange(t.conn, n), arrived := t.arrived + [n])
  }

  function Notices(ds: seq<Delivery>): (ns: seq<Notice>)
    ensures |ns| == |ds| && forall i | 0 <= i < |ds| :: ns[i] == ds[i].notice
  {
    seq(|ds|, i requires 0 <= i < |ds| => ds[i].notice)
  }

  ghost predicate IsTrace(ts: seq<Trace>, es: seq<Event>) {
    && |ts| == |es| + 1 && ts[0] == NewTrace()
    && forall i | 0 <= i < |es| :: Possible(ts[i], es[i]) && ts[i + 1] == Advance(ts[i], es[i])
  }

  ghost predicate OrderInv(t: Trace) {
    && (t.conn.locks == 0 ==> t.conn.buffer == [])
    && t.arrived == Notices(t.conn.delivered) + t.conn.buffer
  }

  // Releasing the lock hands over the buffer, if at all.
  lemma UnlockDelivers(c: Conn)
    requires c.locks > 0
    ensures Notices(Unlock(c).delivered) + Unlock(c).buffer == Notices(c.delivered) + c.buffer
  {
    if c.locks == 1 {
      assert Notices(c.delivered + Classify(c.known, c.buffer)) == Notices(c.delivered) + c.buffer;
    }
  }

  lemma ChangeDelivers(c: Conn, n: Notice)
    requires c.locks == 0 ==> c.buffer == []
    ensures Notices(OnChange(c, n).delivered) + OnChange(c, n).buffer == Notices(c.delivered) + c.buffer + [n]
  {
    if c.locks == 0 {
      assert Notices(c.delivered + [Delivery(n, OwnChange(c.known, n))]) == Notices(c.delivered) + [n];
    }
  }

  /** Each notification is delivered exactly once and in the order of arrival; what is not delivered yet is
      waiting in the buffer, and nothing waits while no write is under way. */
  lemma {:induction false} DeliveredOnceInOrder(ts: seq<Trace>, es: seq<Event>, k: nat)
    requires IsTrace(ts, es) && k < |ts|
    ensures ts[k].arrived == Notices(ts[k].conn.delivered) + ts[k].conn.buffer
    ensures ts[k].conn.locks == 0 ==> ts[k].conn.buffer == []
  {
    if k > 0 {
      DeliveredOnceInOrder(ts, es, k - 1);
    }
  }

  // The writes begun in the first k events and not ended by then.
  function UnderWay(es: seq<Event>, k: nat): int
    requires k <= |es|
  {
    if k == 0 then 0
    else
      UnderWay(es, k - 1) + match es[k - 1]
                            case WriteBegins => 1
                            case WriteEnds(_, _) | WriteRefused => -1
                            case _ => 0
  }

  /** The lock is held once for each write under way, however they overlap; so notifications are kept back exactly
      while there is one. */
  lemma {:induction false} HeldWhileWriting(ts: seq<Trace>, es: seq<Event>, k: nat)
    requires IsTrace(ts, es) && k < |ts|
    ensures ts[k].conn.locks == UnderWay(es, k)
    ensures UnderWay(es, k) == 0 ==> ts[k].arrived == Notices(ts[k].conn.delivered)
  {
    if k > 0 {
      HeldWhileWriting(ts, es, k - 1);
      assert ts[k] == Advance(ts[k - 1], es[k - 1]);
    }
    DeliveredOnceInOrder(ts, es, k);
  }

  /** No event after which a write is still under way delivers anything. */
  lemma KeptBack(ts: seq<Trace>, es: seq<Event>, k: nat)
    requires IsTrace(ts, es) && k < |es| && UnderWay(es, k + 1) > 0
    ensures ts[k + 1].conn.delivered == ts[k].conn.delivered
  {
    HeldWhileWriting(ts, es, k);
    HeldWhileWriting(ts, es, k + 1);
    assert ts[k + 1] == Advance(ts[k], es[k]);
  }

  // The notification of each write of this connection, were it delivered now, would be flagged own.
  ghost predicate AllOwn(t: Trace) {
    forall w | w in t.wrote :: OwnChange(t.conn.known, Notice(w.0, w.1, false))
  }

  // A noted revision is not behind what this connection has written of the document.
  predicate NotBehindWrites(t: Trace, e: Event) {
    match e
    case WriteEnds(id, rev) => forall w | w in t.wrote && w.0 == id :: w.1.index < rev.index || w.1 == rev
    case Fetched(id, rev) => forall w | w in t.wrote && w.0 == id :: w.1.index < rev.index || w.1 == rev
    case _ => true
  }

  /** One event keeps all own writes recognisable exactly if what it notes is not behind any of them. */
  lemma StepKeepsOwn(t: Trace, e: Event)
    requires Possible(t, e) && AllOwn(t)
    ensures AllOwn(Advance(t, e)) <==> NotBehindWrites(t, e)
  {
    var t' := Advance(t, e);
    match e
    case WriteEnds(id, rev) => NotingKeepsOwn(t, t', id, rev);
    case Fetched(id, rev) => NotingKeepsOwn(t, t', id, rev);
    case _ => assert t'.conn.known == t.conn.known;
  }

  lemma NotingKeepsOwn(t: Trace, t': Trace, id: Id, rev: Rev)
    requires AllOwn(t) && t'.conn.known == t.conn.known[id := rev]
    requires t'.wrote == t.wrote || t'.wrote == t.wrote + {(id, rev)}
    ensures AllOwn(t') <==> forall w | w in t.wrote && w.0 == id :: w.1.index < rev.index || w.1 == rev
  {
    if AllOwn(t') {
      forall w | w in t.wrote && w.0 == id ensures w.1.index < rev.index || w.1 == rev {
        assert w in t'.wrote;
      }
    }
  }

  /** Over a whole trace: every write of the connection stays recognisable as its own, at every point, if and
      only if no event notes a revision that is behind a write. */
  lemma {:induction false} OwnOverTrace(ts: seq<Trace>, es: seq<Event>, n: nat)
    requires IsTrace(ts, es) && n < |ts|
    ensures (forall k | 0 <= k <= n :: AllOwn(ts[k])) <==> forall k | 0 <= k < n :: NotBehindWrites(ts[k], es[k])
  {
    if n > 0 {
      OwnOverTrace(ts, es, n - 1);
      assert ts[n] == Advance(ts[n - 1], es[n - 1]);
      if AllOwn(ts[n - 1]) {
        StepKeepsOwn(ts[n - 1], es[n - 1]);
      }
    }
  }

  // No more writes are accepted than the lock has holders.
  lemma {:induction false} AcceptedOverTrace(ts: seq<Trace>, es: seq<Event>, k: nat)
    requires IsTrace(ts, es) && k < |ts|
    ensures |ts[k].accepted| <= ts[k].conn.locks
  {
    if k > 0 {
      AcceptedOverTrace(ts, es, k - 1);
    }
  }

  /** Classification: a delivery that happens in step `k` is flagged by what is known at that point: foreign if
      its revision is newer than that, and own for each write of the connection while nothing has been noted
      behind the writes. */
  lemma OwnAndForeign(ts: seq<Trace>, es: seq<Event>, k: nat, p: nat)
    requires IsTrace(ts, es) && k < |es|
    requires |ts[k].conn.delivered| <= p < |ts[k + 1].conn.delivered|
    ensures var d, after := ts[k + 1].conn.delivered[p], ts[k + 1];
            && (d.own <==> OwnChange(after.conn.known, d.notice))
            && ((forall i | 0 <= i <= k :: NotBehindWrites(ts[i], es[i])) ==>
                  (d.notice.id, d.notice.rev) in after.wrote + after.accepted ==> d.own)
            && (d.notice.id !in after.conn.known || after.conn.known[d.notice.id].index < d.notice.rev.index ==> !d.own)
  {
    AcceptedOverTrace(ts, es, k + 1);
    OwnOverTrace(ts, es, k + 1);
    var t' := ts[k + 1];
    assert t'.conn.locks == 0;
    assert t'.accepted == {};
    assert t'.conn.delivered[p].own == OwnChange(t'.conn.known, t'.conn.delivered[p].notice);
  }

  // The failing family is real: a fetch answered after the save lowers what is known, and the notification
  // of the connection's own write is taken for somebody else's.
  lemma LateFetchForgetsOwnWrite()
    ensures var t0 := NewTrace();
            var t1 := Advance(t0, WriteBegins);
            var t2 := Advance(t1, ServerAccepts("a", Rev(4, 1)));
            var t3 := Advance(t2, WriteEnds("a", Rev(4, 1)));
            var t4 := Advance(t3, Fetched("a", Rev(3, 0)));
            var t5 := Advance(t4, Notified(Notice("a", Rev(4, 1), false)));
            && !NotBehindWrites(t3, Fetched("a", Rev(3, 0)))
            && ("a", Rev(4, 1)) in t5.wrote
            && t5.conn.delivered == [Delivery(Notice("a", Rev(4, 1), false), false)]
  {
    var t := Advance(NewTrace(), WriteBegins);
    assert |t.accepted| == 0;
    assert ("a", Rev(4, 1)) in t.wrote + {("a", Rev(4, 1))};
  }
}
