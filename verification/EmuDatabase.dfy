// The emulated database server: documents with revisions, compare-and-swap saves, and map views
// whose rows are cached per document.

module EmuDatabase {
  import opened Wrappers

  type Id = string
  type ViewName = string

  // A revision "<index>-<hash>".
  datatype Rev = Rev(index: nat, hash: nat)

  // A stored document; a tombstone left by delete_doc has no body.
  datatype Stored<B> = Stored(rev: Rev, deleted: bool, body: Option<B>)

  // A row emitted by a view: its key (field, value) and, when the row carries one, the document it links to.
  datatype Row = Row(field: int, value: int, link: Option<Id>)

  // What the map function of each view emits for a document.
  type Maps<!B> = (ViewName, Id, Stored<B>) -> seq<Row>

  type RowCache = map<Id, map<ViewName, seq<Row>>>

  datatype Db<B> = Db(documents: map<Id, Stored<B>>, cache: RowCache)

  // A document handed to save_doc: `rev` is the revision it is based on.
  datatype Draft<B> = Draft(id: Option<Id>, rev: Option<Rev>, deleted: bool, body: B)

  datatype SaveResult = Saved(id: Id, rev: Rev) | Conflict | BadAttachments
  datatype DeleteResult = Deleted(rev: Rev) | DeleteConflict | DeleteNotFound

  // ---------------------------------------------------------------- specification

  function NextRev(rev: Option<Rev>, hash: nat): Rev {
    if rev.None? then Rev(1, hash) else Rev(rev.value.index + 1, hash)
  }

  // A live document can only be replaced by one that is based on its current revision.
  predicate RevisionConflict<B>(db: Db<B>, draft: Draft<B>) {
    && draft.id.Some? && draft.id.value in db.documents
    && !db.documents[draft.id.value].deleted
    && draft.rev != Some(db.documents[draft.id.value].rev)
  }

  /** save_doc. `generated` is the identifier used for a draft without one, `hash` the random part of
      the new revision, and `attached` tells whether every attachment named by the draft is at hand.
      The attachments are looked at only after the document has been stored. */
  function Save<B>(db: Db<B>, draft: Draft<B>, generated: Id, hash: nat, attached: bool): (Db<B>, SaveResult) {
    if RevisionConflict(db, draft) then (db, Conflict)
    else
      var id := if draft.id.Some? then draft.id.value else generated;
      var rev := NextRev(draft.rev, hash);
      var documents := db.documents[id := Stored(rev, draft.deleted, Some(draft.body))];
      if attached then (Db(documents, db.cache - {id}), Saved(id, rev))
      else (Db(documents, db.cache), BadAttachments)
  }

  function Delete<B>(db: Db<B>, id: Id, rev: Rev, hash: nat): (Db<B>, DeleteResult) {
    if id !in db.documents then (db, DeleteNotFound)
    else if db.documents[id].rev != rev then (db, DeleteConflict)
    else if db.documents[id].deleted then (db, DeleteNotFound)
    else
      var next := NextRev(Some(rev), hash);
      (Db(db.documents[id := Stored(next, true, None)], db.cache - {id}), Deleted(next))
  }

  function Live<B>(db: Db<B>): set<Id> {
    set id | id in db.documents && !db.documents[id].deleted
  }

  // The rows of a view, each document mapped afresh.
  function FreshRows<B>(db: Db<B>, maps: Maps<B>, view: ViewName): map<Id, seq<Row>> {
    map id | id in Live(db) :: maps(view, id, db.documents[id])
  }

  // What the database believes the rows of a document to be: an empty list counts as no entry.
  function CachedOrFresh<B>(db: Db<B>, maps: Maps<B>, view: ViewName, id: Id): seq<Row>
    requires id in db.documents
  {
    if id in db.cache && view in db.cache[id] && db.cache[id][view] != [] then db.cache[id][view]
    else maps(view, id, db.documents[id])
  }

  function QueryRows<B>(db: Db<B>, maps: Maps<B>, view: ViewName): map<Id, seq<Row>> {
    map id | id in Live(db) :: CachedOrFresh(db, maps, view, id)
  }

  function AfterQuery<B>(db: Db<B>, maps: Maps<B>, view: ViewName): Db<B> {
    db.(cache := map id | id in db.cache.Keys + Live(db) ::
                   if id in Live(db)
                   then (if id in db.cache then db.cache[id] else map[])[view := CachedOrFresh(db, maps, view, id)]
                   else db.cache[id])
  }

  // ---------------------------------------------------------------- the cache never shows

  // Every cached row list is what mapping the stored document would give.
  ghost predicate CacheAgrees<B>(db: Db<B>, maps: Maps<B>) {
    forall id, view | id in db.cache && view in db.cache[id] ::
      id in db.documents && db.cache[id][view] == maps(view, id, db.documents[id])
  }

  datatype Operation<B> =
    | SaveOp(draft: Draft<B>, generated: Id, hash: nat, attached: bool)
    | DeleteOp(id: Id, rev: Rev, newHash: nat)
    | QueryOp(view: ViewName)

  function Perform<B>(db: Db<B>, maps: Maps<B>, op: Operation<B>): Db<B> {
    match op
    case SaveOp(draft, generated, hash, attached) => Save(db, draft, generated, hash, attached).0
    case DeleteOp(id, rev, hash) => Delete(db, id, rev, hash).0
    case QueryOp(view) => AfterQuery(db, maps, view)
  }

  function PerformAll<B>(db: Db<B>, maps: Maps<B>, ops: seq<Operation<B>>): Db<B>
    decreases |ops|
  {
    if ops == [] then db else PerformAll(Perform(db, maps, ops[0]), maps, ops[1..])
  }

  lemma AgreementPreserved<B>(db: Db<B>, maps: Maps<B>, op: Operation<B>)
    requires CacheAgrees(db, maps)
    requires op.SaveOp? ==> op.attached
    ensures CacheAgrees(Perform(db, maps, op), maps)
  {
    if op.QueryOp? {
      var after := AfterQuery(db, maps, op.view);
      forall id, view | id in after.cache && view in after.cache[id]
        ensures id in after.documents && after.cache[id][view] == maps(view, id, after.documents[id])
      {
      }
    }
  }

  /** Over every run of successful saves, of deletions and of queries, a query returns for each live
      document exactly what mapping that document afresh would return. */
  lemma {:induction false} CacheNeverShows<B>(db: Db<B>, maps: Maps<B>, ops: seq<Operation<B>>, view: ViewName)
    requires CacheAgrees(db, maps)
    requires forall op | op in ops && op.SaveOp? :: op.attached
    ensures CacheAgrees(PerformAll(db, maps, ops), maps)
    ensures var after := PerformAll(db, maps, ops); QueryRows(after, maps, view) == FreshRows(after, maps, view)
    decreases |ops|
  {
    if ops != [] {
      assert ops[0] in ops;
      AgreementPreserved(db, maps, ops[0]);
      CacheNeverShows(Perform(db, maps, ops[0]), maps, ops[1..], view);
    }
  }

  /** A save that fails on its attachments has stored the document but not expired its rows. The cache
      then still agrees exactly if each cached view maps the new body to the rows it had before. */
  lemma FailedSaveLeavesRows<B>(db: Db<B>, maps: Maps<B>, draft: Draft<B>, generated: Id, hash: nat)
    requires CacheAgrees(db, maps) && !RevisionConflict(db, draft)
    ensures var id := if draft.id.Some? then draft.id.value else generated;
            var stored := Stored(NextRev(draft.rev, hash), draft.deleted, Some(draft.body));
            CacheAgrees(Save(db, draft, generated, hash, false).0, maps)
            <==> (id in db.cache ==> forall view | view in db.cache[id] ::
                    maps(view, id, db.documents[id]) == maps(view, id, stored))
  {
    var id := if draft.id.Some? then draft.id.value else generated;
    var after := Save(db, draft, generated, hash, false).0;
    if CacheAgrees(after, maps) {
      forall view | id in db.cache && view in db.cache[id]
        ensures maps(view, id, db.documents[id]) == maps(view, id, after.documents[id])
      {
        assert view in after.cache[id];
      }
    }
  }

  /** What a query of one view shows after such a save is right exactly if the document is deleted by it, has no
      row list cached for the view or an empty one, or is mapped to the rows it had before. */
  lemma FailedSaveShowsFresh<B>(db: Db<B>, maps: Maps<B>, draft: Draft<B>, generated: Id, hash: nat, view: ViewName)
    requires CacheAgrees(db, maps) && !RevisionConflict(db, draft)
    ensures var id := if draft.id.Some? then draft.id.value else generated;
            var stored := Stored(NextRev(draft.rev, hash), draft.deleted, Some(draft.body));
            var after := Save(db, draft, generated, hash, false).0;
            QueryRows(after, maps, view) == FreshRows(after, maps, view)
            <==> draft.deleted || id !in db.cache || view !in db.cache[id] || db.cache[id][view] == []
                 || maps(view, id, db.documents[id]) == maps(view, id, stored)
  {
    var id := if draft.id.Some? then draft.id.value else generated;
    var after := Save(db, draft, generated, hash, false).0;
    if !draft.deleted {
      assert id in Live(after);
      assert QueryRows(after, maps, view)[id] == CachedOrFresh(after, maps, view, id);
      assert FreshRows(after, maps, view)[id] == maps(view, id, after.documents[id]);
    }
    forall x | x in Live(after) && x != id
      ensures CachedOrFresh(after, maps, view, x) == maps(view, x, after.documents[x])
    {
    }
  }

  // The failing family is real: a query after such a save returns the rows of the old body.
  lemma FailedSaveShowsOldRows()
    ensures var maps: Maps<int> := (view: ViewName, id: Id, d: Stored<int>) =>
                if d.body.Some? then [Row(0, d.body.value, None)] else [];
            var before := Db(map["a" := Stored(Rev(1, 0), false, Some(7))], map["a" := map["v" := [Row(0, 7, None)]]]);
            var after := Save(before, Draft(Some("a"), Some(Rev(1, 0)), false, 8), "b", 1, false).0;
            && CacheAgrees(before, maps)
            && QueryRows(after, maps, "v")["a"] == [Row(0, 7, None)]
            && FreshRows(after, maps, "v")["a"] == [Row(0, 8, None)]
  {
  }

  // ---------------------------------------------------------------- what writes mean

  // Nothing but the document `id` is different.
  ghost predicate OthersStay<B>(before: Db<B>, after: Db<B>, id: Id) {
    forall x | x != id ::
      && (x in after.documents <==> x in before.documents)
      && (x in before.documents ==> after.documents[x] == before.documents[x])
  }

  /** A deletion succeeds if and only if it names the current revision of a live document. Then the document is not
      live any more and has no body, its revision is one higher, queries have no rows for it, and deleting it again
      finds nothing; all others are as before. Where it fails the store is as before. */
  lemma DeleteMeans<B>(db: Db<B>, maps: Maps<B>, id: Id, rev: Rev, hash: nat)
    ensures var (after, r) := Delete(db, id, rev, hash);
      && (r.Deleted? <==> id in Live(db) && db.documents[id].rev == rev)
      && (r.DeleteConflict? <==> id in db.documents && db.documents[id].rev != rev)
      && (!r.Deleted? ==> after == db)
      && (r.Deleted? ==>
            && id !in Live(after) && id in after.documents && after.documents[id].body == None
            && after.documents[id].rev == r.rev == Rev(rev.index + 1, hash)
            && OthersStay(db, after, id) && id !in after.cache
            && (forall view :: id !in QueryRows(after, maps, view))
            && forall again :: Delete(after, id, r.rev, again) == (after, DeleteNotFound))
  {
  }

  /** A query does not touch the documents, and leaves the rows of every live one cached. */
  lemma QueryCaches<B>(db: Db<B>, maps: Maps<B>, view: ViewName)
    ensures var after := AfterQuery(db, maps, view);
      && after.documents == db.documents
      && (forall id | id in Live(db) ::
            id in after.cache && view in after.cache[id] && after.cache[id][view] == QueryRows(db, maps, view)[id])
      && forall id, v | v != view || id !in Live(db) ::
           (id in after.cache && v in after.cache[id]) <==> (id in db.cache && v in db.cache[id])
  {
  }

  /** A save succeeds if and only if it is based on the current revision of the document, or no such document is
      live. What it was given is stored then under the next revision; all others are as before. Where it fails with
      a conflict the store is as before. */
  lemma SaveMeans<B>(db: Db<B>, draft: Draft<B>, generated: Id, hash: nat, attached: bool)
    ensures var id := if draft.id.Some? then draft.id.value else generated;
      var (after, r) := Save(db, draft, generated, hash, attached);
      && (r.Conflict? <==> draft.id.Some? && id in Live(db) && draft.rev != Some(db.documents[id].rev))
      && (r.Conflict? ==> after == db)
      && (r.Saved? <==> !r.Conflict? && attached)
      && (!r.Conflict? ==>
            && id in after.documents && after.documents[id].body == Some(draft.body)
            && (id in Live(after) <==> !draft.deleted)
            && after.documents[id].rev == Rev(if draft.rev.Some? then draft.rev.value.index + 1 else 1, hash)
            && OthersStay(db, after, id))
      && (r.Saved? ==> r.id == id && r.rev == after.documents[id].rev && id !in after.cache)
  {
  }

  // ---------------------------------------------------------------- the server object

  class Database<B(==)> {
    var documents: map<Id, Stored<B>>
    var viewCache: RowCache

    function View(): Db<B>
      reads this
    {
      Db(documents, viewCache)
    }

    constructor ()
      ensures View() == Db(map[], map[])
    {
      documents, viewCache := map[], map[];
    }

    // _set_id_and_revision without the assignment: the checks before a save.
    method CheckRevision(draft: Draft<B>) returns (conflict: bool)
      ensures conflict == RevisionConflict(View(), draft)
    {
      conflict := false;
      if draft.id.Some? && draft.id.value in documents {
        var old_ := documents[draft.id.value];
        if !old_.deleted {
          if draft.rev.None? || old_.rev != draft.rev.value {
            conflict := true;
          }
        }
      }
    }

    method SaveDoc(draft: Draft<B>, generated: Id, hash: nat, attached: bool) returns (r: SaveResult)
      modifies this
      ensures (View(), r) == Save(old(View()), draft, generated, hash, attached)
    {
      var conflict := CheckRevision(draft);
      if conflict { return Conflict; }
      var id := if draft.id.Some? then draft.id.value else generated;
      var rev := NextRev(draft.rev, hash);
      documents := documents[id := Stored(rev, draft.deleted, Some(draft.body))];
      if !attached { return BadAttachments; }
      viewCache := viewCache - {id};
      return Saved(id, rev);
    }

    method DeleteDoc(id: Id, revision: Rev, hash: nat) returns (r: DeleteResult)
      modifies this
      ensures (View(), r) == Delete(old(View()), id, revision, hash)
    {
      if id !in documents { return DeleteNotFound; }
      var doc := documents[id];
      if doc.rev != revision { return DeleteConflict; }
      if doc.deleted { return DeleteNotFound; }
      viewCache := viewCache - {id};
      var next := NextRev(Some(doc.rev), hash);
      documents := documents[id := Stored(next, true, None)];
      return Deleted(next);
    }

    // _perform_map: the cached rows, or the mapped ones, which are cached on the way.
    method PerformMap(maps: Maps<B>, view: ViewName, id: Id) returns (rows: seq<Row>)
      requires id in documents
      modifies this`viewCache
      ensures rows == CachedOrFresh(old(View()), maps, view, id)
      ensures viewCache
              == old(viewCache)[id := (if id in old(viewCache) then old(viewCache)[id] else map[])[view := rows]]
    {
      if id in viewCache && view in viewCache[id] && viewCache[id][view] != [] {
        rows := viewCache[id][view];
        assert viewCache[id] == viewCache[id][view := rows];
        return;
      }
      rows := maps(view, id, documents[id]);
      viewCache := viewCache[id := (if id in viewCache then viewCache[id] else map[])[view := rows]];
    }

    // query_view up to the flattening: the rows of every live document, in some order of the documents.
    method QueryView(maps: Maps<B>, view: ViewName) returns (rows: map<Id, seq<Row>>)
      modifies this`viewCache
      ensures rows == QueryRows(old(View()), maps, view)
      ensures View() == AfterQuery(old(View()), maps, view)
    {
      rows := map[];
      var todo := set id | id in documents && !documents[id].deleted;
      ghost var before := View();
      assert CachedExcept(before, maps, view, todo) == viewCache;
      while todo != {}
        invariant todo <= Live(before) && documents == before.documents
        invariant rows == RowsExcept(before, maps, view, todo)
        invariant viewCache == CachedExcept(before, maps, view, todo)
        decreases todo
      {
        var id :| id in todo;
        OneMoreMapped(before, maps, view, todo, id);
        var r := PerformMap(maps, view, id);
        rows := rows[id := r];
        todo := todo - {id};
      }
      assert rows == QueryRows(before, maps, view);
      assert viewCache == AfterQuery(before, maps, view).cache;
    }
  }

  // The rows collected in the middle of a query: the documents of `todo` have not been mapped yet.
  function RowsExcept<B>(db: Db<B>, maps: Maps<B>, view: ViewName, todo: set<Id>): map<Id, seq<Row>> {
    map id | id in Live(db) && id !in todo :: CachedOrFresh(db, maps, view, id)
  }

  lemma OneMoreMapped<B>(db: Db<B>, maps: Maps<B>, view: ViewName, todo: set<Id>, id: Id)
    requires id in todo && todo <= Live(db)
    ensures var now := Db(db.documents, CachedExcept(db, maps, view, todo));
            var r := CachedOrFresh(now, maps, view, id);
            && r == CachedOrFresh(db, maps, view, id)
            && RowsExcept(db, maps, view, todo - {id}) == RowsExcept(db, maps, view, todo)[id := r]
            && CachedExcept(db, maps, view, todo - {id}) ==
                 now.cache[id := (if id in now.cache then now.cache[id] else map[])[view := r]]
  {
    var now := Db(db.documents, CachedExcept(db, maps, view, todo));
    assert id in now.cache <==> id in db.cache;
    var r := CachedOrFresh(now, maps, view, id);
    var next := now.cache[id := (if id in now.cache then now.cache[id] else map[])[view := r]];
    assert CachedExcept(db, maps, view, todo - {id}).Keys == next.Keys;
    assert CachedExcept(db, maps, view, todo - {id}) == next;
  }

  // The cache in the middle of a query: the documents of `todo` have not been mapped yet.
  function CachedExcept<B>(db: Db<B>, maps: Maps<B>, view: ViewName, todo: set<Id>): RowCache {
    map id | id in db.cache.Keys + (Live(db) - todo) ::
      if id in Live(db) - todo
      then (if id in db.cache then db.cache[id] else map[])[view := CachedOrFresh(db, maps, view, id)]
      else db.cache[id]
  }
}
