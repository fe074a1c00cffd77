// Concurrent update_document calls on one document: each client fetches the document, applies its method,
// saves the result based on the revision it fetched, and on a conflict starts again. A method may also
// delete the document, or resign.

module UpdateDocument {
  import opened Wrappers
  import opened EmuDatabase
  import Update

  // The update methods: what client `i` makes of a content.
  type Methods<!C> = (nat, C) -> Update.Result<C>

  // Where the callback chain of a client stands. The revisions are those of the copy it worked on. Missing:
  // there was no document to fetch, and the chain has failed.
  datatype Phase<C> = Fetching | Holding(rev: Rev, content: C) | Committed | Resigned(seen: Rev) | Missing

  datatype Client<C> = Client(phase: Phase<C>, conflicts: nat)

  /** All the clients around one database; `log` lists the clients in the order of their commits. */
  datatype System<C> = System(db: Db<C>, clients: seq<Client<C>>, log: seq<nat>)

  // A callback of one client runs. A save gets `hash` as the random part of its revision.
  datatype Action = Fetch(i: nat) | Iterate(i: nat, hash: nat)

  // ---------------------------------------------------------------- one client's callbacks

  predicate IsLive<C>(db: Db<C>, id: Id) {
    id in db.documents && !db.documents[id].deleted && db.documents[id].body.Some?
  }

  // get_document as seen by the client: a missing or deleted document ends the chain.
  function AfterFetch<C>(c: Client<C>, db: Db<C>, id: Id): Client<C> {
    if !c.phase.Fetching? then c
    else if IsLive(db, id) then c.(phase := Holding(db.documents[id].rev, db.documents[id].body.value))
    else c.(phase := Missing)
  }

  // What is sent to the server: the new content, or a tombstone.
  function DraftOf<C>(id: Id, rev: Rev, content: C, result: Update.Result<C>): Draft<C>
    requires !result.Resigned?
  {
    match result
    case Changed(d) => Draft(Some(id), Some(rev), false, d)
    case Deleted => Draft(Some(id), Some(rev), true, content)
  }

  // _iterate_on_update followed, on a conflict, by _errback_on_update.
  function AfterIterate<C>(c: Client<C>, db: Db<C>, id: Id, update: Methods<C>, i: nat, hash: nat): (Client<C>, Db<C>) {
    if !c.phase.Holding? then (c, db)
    else
      var result := update(i, c.phase.content);
      if result.Resigned? then (c.(phase := Resigned(c.phase.rev)), db)
      else
        var (after, r) := Save(db, DraftOf(id, c.phase.rev, c.phase.content, result), id, hash, true);
        if r.Saved? then (c.(phase := Committed), after)
        else (Client(Fetching, c.conflicts + 1), after)
  }

  function Step<C>(s: System<C>, id: Id, update: Methods<C>, a: Action): System<C>
    requires a.i < |s.clients|
  {
    match a
    case Fetch(i) => s.(clients := s.clients[i := AfterFetch(s.clients[i], s.db, id)])
    case Iterate(i, hash) =>
      var (c, db) := AfterIterate(s.clients[i], s.db, id, update, i, hash);
      System(db, s.clients[i := c],
             if c.phase.Committed? && !s.clients[i].phase.Committed? then s.log + [i] else s.log)
  }

  // The steps that change anything.
  predicate Enabled<C>(s: System<C>, a: Action) {
    a.i < |s.clients| && if a.Fetch? then s.clients[a.i].phase.Fetching? else s.clients[a.i].phase.Holding?
  }

  /** The callback chain as an object, driven against the server object. */
  class UpdateCall<C(==)> {
    const id: Id
    const update: Methods<C>
    const i: nat
    var phase: Phase<C>
    var conflicts: nat

    function View(): Client<C>
      reads this
    {
      Client(phase, conflicts)
    }

    constructor (id: Id, update: Methods<C>, i: nat)
      ensures this.id == id && this.update == update && this.i == i && View() == Client(Fetching, 0)
    {
      this.id, this.update, this.i := id, update, i;
      phase, conflicts := Fetching, 0;
    }

    method GetDocument(db: Database<C>)
      modifies this
      ensures View() == AfterFetch(old(View()), db.View(), id)
    {
      if phase.Fetching? {
        if id in db.documents && !db.documents[id].deleted && db.documents[id].body.Some? {
          phase := Holding(db.documents[id].rev, db.documents[id].body.value);
        } else {
          phase := Missing;
        }
      }
    }

    method IterateOnUpdate(db: Database<C>, hash: nat)
      modifies this, db
      ensures (View(), db.View()) == AfterIterate(old(View()), old(db.View()), id, update, i, hash)
    {
      if !phase.Holding? { return; }
      var result := update(i, phase.content);
      if result.Resigned? {
        phase := Phase.Resigned(phase.rev);
        return;
      }
      var draft;
      if result.Deleted? {
        draft := Draft(Some(id), Some(phase.rev), true, phase.content);
      } else {
        draft := Draft(Some(id), Some(phase.rev), false, result.document);
      }
      var r := db.SaveDoc(draft, id, hash, true);
      if r.Saved? {
        phase := Committed;
      } else {
        ErrbackOnUpdate();
      }
    }

    method ErrbackOnUpdate()
      modifies this
      ensures View() == Client(Fetching, old(conflicts) + 1)
    {
      conflicts := conflicts + 1;
      phase := Fetching;
    }
  }
}
