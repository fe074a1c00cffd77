// The objects of the response cache: entries, the cache itself, and the connection calling it.

module CacheObjects {
  import opened Wrappers
  import opened ResponseCache
  import opened CacheEviction

  /** One cached request; the ghost `serial` tells the objects apart. */
  class CacheEntry {
    const id: CacheId
    ghost const serial: nat
    var state: EntryState
    var etag: Option<Tag>
    var parsed: Outcome
    var waiting: seq<nat>
    var cachedAt: Option<int>
    var freshAt: Option<int>
    var lastAccessedAt: Option<int>
    var numAccessed: nat
    var size: Option<nat>

    function View(): Entry
      reads this
    {
      Entry(id, state, etag, parsed, waiting, cachedAt, freshAt, lastAccessedAt, numAccessed, size)
    }

    constructor (id: CacheId, ghost serial: nat)
      ensures View() == NewEntry(id) && this.serial == serial
    {
      this.id, this.serial, state, etag, parsed, waiting := id, serial, EntryState.Waiting, None, Nothing, [];
      cachedAt, freshAt, lastAccessedAt, numAccessed, size := None, None, None, 0, None;
    }

    method Wait(waiter: nat, ctime: int) returns (result: Option<Outcome>)
      modifies this
      ensures View() == ResponseCache.Wait(old(View()), waiter, ctime)
      ensures result == if old(state).Ready? then Some(old(parsed)) else None
    {
      lastAccessedAt := Some(ctime);
      numAccessed := numAccessed + 1;
      if state.Ready? {
        result := Some(parsed);
      } else {
        waiting := waiting + [waiter];
        result := None;
      }
    }

    method GotResponse(site: Site, r: Response, ctime: int) returns (called: seq<Firing>)
      modifies this
      ensures View() == ResponseCache.GotResponse(site, old(View()), r, ctime)
      ensures called == Fire(old(waiting), parsed, ctime, if r.Broken? then Lost else Answered)
    {
      match r {
        case Broken =>
          size := None;
          parsed := Failed;
          state := Invalid;
        case NotModified(_) =>
          state := Ready;
          freshAt := Some(ctime);
        case Full(body, header) =>
          parsed := site.parse(id, body);
          if parsed.Failed? {
            state := Invalid;
          } else {
            state := Ready;
            size := Some(|body|);
            if cachedAt.None? {
              cachedAt := Some(ctime);
              freshAt := Some(ctime);
            }
            if header.Some? {
              etag := header;
            } else {
              state := Invalid;
            }
          }
      }
      var callers := waiting;
      waiting := [];
      called := CallBack(callers, parsed, ctime, if r.Broken? then Lost else Answered);
    }
  }

  method CallBack(callers: seq<nat>, outcome: Outcome, ctime: int, reason: Reason) returns (called: seq<Firing>)
    ensures called == Fire(callers, outcome, ctime, reason)
  {
    called := [];
    for i := 0 to |callers|
      invariant called == Fire(callers, outcome, ctime, reason)[..i]
    {
      called := called + [Firing(callers[i], outcome, ctime, reason)];
    }
  }

  const OPERATIONS_PER_CLEANUP := 500

  ghost predicate Mirrored(objects: seq<CacheEntry>, heap: seq<Entry>)
    reads set o | o in objects
  {
    |objects| == |heap| && forall i | 0 <= i < |objects| :: objects[i].serial == i && objects[i].View() == heap[i]
  }

  ghost predicate Names(entries: map<CacheId, CacheEntry>, objects: seq<CacheEntry>, dict: map<CacheId, nat>) {
    entries.Keys == dict.Keys && forall id | id in dict :: dict[id] < |objects| && entries[id] == objects[dict[id]]
  }

  /** The dictionary of entries. Ghost state names all entries ever made, with their present values. */
  class Cache {
    const desiredSize: nat
    var entries: map<CacheId, CacheEntry>
    var operation: nat
    ghost var objects: seq<CacheEntry>
    ghost var repr: set<CacheEntry>
    ghost var heap: seq<Entry>
    ghost var dict: map<CacheId, nat>

    ghost predicate Valid()
      reads this, repr
    {
      repr == (set o | o in objects) && Mirrored(objects, heap) && Names(entries, objects, dict)
    }

    constructor (desiredSize: nat)
      ensures Valid() && heap == [] && dict == map[] && repr == {}
    {
      this.desiredSize := desiredSize;
      entries, operation, objects, repr, heap, dict := map[], 0, [], {}, [], map[];
    }

    method GetUrl(identifier: CacheId, ctime: int) returns (found: Option<CacheEntry>, ghost gone: set<CacheId>)
      requires Valid() && Filled(heap)
      modifies this`entries, this`operation, this`dict
      ensures Valid() && dict == old(dict) - gone && Removable(heap, old(dict), gone)
      ensures found == if identifier in dict && !heap[dict[identifier]].state.Invalid?
                       then Some(objects[dict[identifier]]) else None
      ensures found.Some? ==> found.value in repr && found.value.serial == dict[identifier]
    {
      gone := BumpCounter(ctime);
      if identifier in entries && !entries[identifier].state.Invalid? {
        found := Some(entries[identifier]);
      } else {
        found := None;
      }
    }

    // __setitem__ with a new object.
    method Put(key: CacheId, value: CacheEntry, ctime: int) returns (ghost gone: set<CacheId>)
      requires Valid() && Filled(heap) && value !in objects && value.serial == |objects| && value.state.Waiting?
      modifies this`entries, this`operation, this`dict, this`objects, this`repr, this`heap
      ensures Valid() && objects == old(objects) + [value] && repr == old(repr) + {value}
                && heap == old(heap) + [value.View()]
      ensures dict == old(dict)[key := |old(objects)|] - gone && Removable(heap, old(dict)[key := |old(objects)|], gone)
    {
      entries := entries[key := value];
      dict := dict[key := |objects|];
      objects, repr, heap := objects + [value], repr + {value}, heap + [value.View()];
      gone := BumpCounter(ctime);
    }

    method BumpCounter(ctime: int) returns (ghost gone: set<CacheId>)
      requires Valid() && Filled(heap)
      modifies this`entries, this`operation, this`dict
      ensures Valid() && dict == old(dict) - gone && Removable(heap, old(dict), gone)
      ensures operation == old(operation) + 1
      ensures if operation % OPERATIONS_PER_CLEANUP == 0
              then IsCleanup(heap, old(dict), desiredSize, ctime, gone) else gone == {}
    {
      operation := operation + 1;
      if operation % OPERATIONS_PER_CLEANUP == 0 {
        gone := Cleanup(ctime);
        CleanupRemoves(heap, old(dict), desiredSize, ctime, gone);
      } else {
        gone := {};
      }
    }

    /** cleanup(): one pass over the dictionary, then the least used entries are given up. */
    method Cleanup(ctime: int) returns (ghost gone: set<CacheId>)
      requires Valid() && Filled(heap)
      modifies this`entries, this`dict
      ensures Valid() && dict == old(dict) - gone && IsCleanup(heap, old(dict), desiredSize, ctime, gone)
    {
      var expire, usage, actualSize := Tally(ctime);
      SortedFacts(usage);
      ghost var ranked := Sorted(usage);
      assert IsRanking(ranked, heap, dict, ctime);
      gone := Gone(ranked, heap, dict, desiredSize);
      if actualSize > desiredSize {
        usage := SortUsage(usage);
        var more := GiveUp(usage, actualSize, desiredSize);
        expire := expire + more;
      } else {
        assert ranked[..0] == [];
      }
      assert expire == gone;
      entries := entries - expire;
      dict := dict - gone;
    }

    // The pass over the dictionary, in any order.
    method Tally(ctime: int) returns (expire: set<CacheId>, usage: seq<Usage>, actualSize: int)
      requires Valid() && Filled(heap)
      ensures expire == set id | id in dict && Holding(heap, dict, id, Invalid)
      ensures NoRepeats(usage) && forall u :: u in usage <==> IsUsage(u, heap, dict, ctime)
      ensures actualSize == Total(usage)
    {
      expire, usage, actualSize := {}, [], 0;
      var todo := entries.Keys;
      while todo != {}
        invariant todo <= entries.Keys
        invariant expire == set id | id in dict && id !in todo && Holding(heap, dict, id, Invalid)
        invariant NoRepeats(usage) && forall u :: u in usage <==> IsUsage(u, heap, dict, ctime) && u.id !in todo
        invariant actualSize == Total(usage)
        decreases todo
      {
        var ident :| ident in todo;
        var entry := entries[ident];
        assert entry.View() == heap[dict[ident]];
        match entry.state {
          case Invalid => expire := expire + {ident};
          case Waiting =>
          case Ready =>
            var u := UsageOf(entry.View(), ident, ctime);
            TotalOfLonger(usage, u);
            usage := usage + [u];
            actualSize := actualSize + entry.size.value;
        }
        todo := todo - {ident};
      }
    }

    method FreshenEntries(r: Response, ctime: int)
      requires Valid()
      modifies this`heap, repr
      ensures Valid() && heap == Freshen(old(heap), dict.Values, r, ctime)
    {
      if r.NotModified? && r.header.Some? {
        FreshenTagged(r, r.header.value, ctime);
      } else {
        FreshenNothing(heap, dict.Values, r, ctime);
      }
    }

    method FreshenTagged(ghost r: Response, tag: Tag, ctime: int)
      requires Valid() && r == NotModified(Some(tag))
      modifies this`heap, repr
      ensures Valid() && heap == Freshen(old(heap), dict.Values, r, ctime)
    {
      ghost var before, marked := heap, {};
      MarkNone(dict);
      FreshenNothing(before, marked, r, ctime);
      var todo := entries.Keys;
      while todo != {}
        invariant Valid() && todo <= dict.Keys && |before| == |heap|
        invariant heap == Freshen(before, marked, r, ctime)
        invariant Marked(dict, todo, marked)
        decreases todo
      {
        var ident :| ident in todo;
        FreshenNext(before, marked, dict[ident], r, ctime);
        Touch(ident, tag, ctime);
        MarkOne(dict, todo, marked, ident);
        marked := marked + {dict[ident]};
        todo := todo - {ident};
      }
      AllValues(dict, marked);
    }

    // One entry is marked fresh if it carries the tag.
    method Touch(ident: CacheId, tag: Tag, ctime: int)
      requires Valid() && ident in dict
      modifies this`heap, repr
      ensures Valid()
      ensures var k, before := dict[ident], old(heap);
        heap == if before[k].etag == Some(tag) then before[k := before[k].(freshAt := Some(ctime))] else before
    {
      var entry := entries[ident];
      assert entry.View() == heap[dict[ident]];
      if entry.etag == Some(tag) {
        entry.freshAt := Some(ctime);
        heap := heap[dict[ident] := entry.View()];
      }
    }
  }

  lemma FreshenNothing(heap: seq<Entry>, cached: set<nat>, r: Response, ctime: int)
    requires cached == {} || !(r.NotModified? && r.header.Some?)
    ensures Freshen(heap, cached, r, ctime) == heap
  {
  }

  lemma FreshenNext(heap: seq<Entry>, marked: set<nat>, k: nat, r: Response, ctime: int)
    requires k < |heap| && r.NotModified? && r.header.Some?
    ensures var before := Freshen(heap, marked, r, ctime);
      Freshen(heap, marked + {k}, r, ctime) ==
        if before[k].etag == r.header then before[k := before[k].(freshAt := Some(ctime))] else before
  {
  }

  // The entries no longer to do.
  ghost predicate Marked(dict: map<CacheId, nat>, todo: set<CacheId>, marked: set<nat>) {
    (forall id | id in dict && id !in todo :: dict[id] in marked) && marked <= dict.Values
  }

  lemma MarkNone(dict: map<CacheId, nat>)
    ensures Marked(dict, dict.Keys, {})
  {
  }

  lemma MarkOne(dict: map<CacheId, nat>, todo: set<CacheId>, marked: set<nat>, id: CacheId)
    requires Marked(dict, todo, marked) && id in todo && id in dict
    ensures Marked(dict, todo - {id}, marked + {dict[id]})
  {
  }

  lemma AllValues(dict: map<CacheId, nat>, marked: set<nat>)
    requires Marked(dict, {}, marked)
    ensures marked == dict.Values
  {
    forall v | v in dict.Values ensures v in marked {
      var id := KeyOf(dict, v);
    }
  }

  // No waiting entry is among them.
  predicate Removable(heap: seq<Entry>, dict: map<CacheId, nat>, gone: set<CacheId>) {
    forall id | id in gone :: id in dict && dict[id] < |heap| && !heap[dict[id]].state.Waiting?
  }

  lemma KeyOf(dict: map<CacheId, nat>, v: nat) returns (id: CacheId)
    requires v in dict.Values
    ensures id in dict && dict[id] == v
  {
    id :| id in dict && dict[id] == v;
  }

  // ---------------------------------------------------------------- the connection

  datatype Pending = Pending(entry: CacheEntry, ifNoneMatch: Option<Tag>)

  // What is under way, as the requests of the world.
  ghost predicate UnderWay(pending: seq<Pending>, requests: seq<Request>) {
    && |requests| == |pending|
    && forall i | 0 <= i < |pending| ::
         && requests[i].entry == pending[i].entry.serial && requests[i].id == pending[i].entry.id
         && requests[i].ifNoneMatch == pending[i].ifNoneMatch
  }

  lemma UnderWayWithout(pending: seq<Pending>, requests: seq<Request>, k: nat)
    requires UnderWay(pending, requests) && k < |pending|
    ensures UnderWay(pending[..k] + pending[k + 1..], requests[..k] + requests[k + 1..])
    ensures forall p | p in pending[..k] + pending[k + 1..] :: p in pending
  {
    var fewer, left := pending[..k] + pending[k + 1..], requests[..k] + requests[k + 1..];
    forall i | 0 <= i < |fewer|
      ensures left[i].entry == fewer[i].entry.serial && left[i].id == fewer[i].entry.id
      ensures left[i].ifNoneMatch == fewer[i].ifNoneMatch
    {
      var m := if i < k then i else i + 1;
      assert fewer[i] == pending[m] && left[i] == requests[m];
    }
  }

  // The entry of request k has taken its response; `time` is now.
  function TakenIn(site: Site, w: World, k: nat, time: int): World
    requires k < |w.requests| && w.requests[k].entry < |w.heap| && w.requests[k].answer.Some?
  {
    var q := w.requests[k];
    var r := q.answer.value.response;
    var e := GotResponse(site, w.heap[q.entry], r, time);
    w.(heap := w.heap[q.entry := e], requests := w.requests[..k] + w.requests[k + 1..],
       fired := w.fired + Fire(w.heap[q.entry].waiting, e.parsed, time, if r.Broken? then Lost else Answered),
       origins := w.origins + Same(|w.heap[q.entry].waiting|, Origin(q.sent, q.answer.value.at)))
  }

  // A response freshens the entries and is then taken by its own.
  lemma FreshenThenSettle(site: Site, w: World, k: nat)
    requires k < |w.requests| && w.requests[k].entry < |w.heap| && w.requests[k].answer.Some?
    ensures var n, d := w.requests[k].entry, w.requests[k].answer.value;
      Arrive(site, w, k)
      == TakenIn(site, w.(heap := Freshen(w.heap, w.dict.Values, d.response, Now(w)),
                          vouched := Vouch(w.heap, w.dict.Values, w.vouched, n, d)), k, Now(w))
  {
  }

  function Forget(w: World, gone: set<CacheId>): World {
    w.(dict := w.dict - gone)
  }

  lemma ForgetCommutes(w: World, k: nat, gone: set<CacheId>)
    requires k < |w.heap| && |w.calls| > 0
    ensures WaitOn(Send(Forget(w, gone), k), k) == Forget(WaitOn(Send(w, k), k), gone)
    ensures Removable(w.heap, w.dict, gone) && w.heap[k].state.Waiting? ==>
              Removable(WaitOn(Send(w, k), k).heap, w.dict, gone)
  {
  }

  lemma ForgetNothing(w: World)
    ensures Forget(w, {}) == w
  {
    assert w.dict - {} == w.dict;
  }

  lemma InvFilled(site: Site, w: World)
    requires EntriesOk(site, w)
    ensures Filled(w.heap)
  {
    forall k | 0 <= k < |w.heap| && w.heap[k].state.Ready? ensures w.heap[k].size.Some? && w.heap[k].cachedAt.Some? {
      assert EntryOk(site, w.history, w.heap[k], LastVouched(w.vouched, k));
    }
  }

  /** The connection: the requests it has under way, the calls made of it and the answers given. Which
      moment it is comes with each call; what the database was at each moment, what it answered and when, is
      ghost. */
  class CachingConnection {
    const site: Site
    const cache: Cache
    var pending: seq<Pending>
    var calls: seq<Call>
    var fired: seq<Firing>
    ghost var history: seq<Server>
    ghost var requests: seq<Request>
    ghost var vouched: seq<int>
    ghost var origins: seq<Origin>

    ghost predicate Linked()
      reads this, cache, cache.repr
    {
      cache.Valid() && UnderWay(pending, requests) && forall i | 0 <= i < |pending| :: pending[i].entry in cache.repr
    }

    ghost predicate Valid()
      reads this, cache, cache.repr
    {
      Linked() && Inv(site, View())
    }

    ghost function View(): World
      reads this, cache
    {
      World(cache.heap, cache.dict, requests, calls, fired, history, vouched, origins)
    }

    constructor (site: Site, desiredSize: nat, ghost server: Server)
      ensures Valid() && View() == Start(server)
      ensures fresh(cache)
    {
      this.site := site;
      cache := new Cache(desiredSize);
      pending, calls, fired, history := [], [], [], [server];
      requests, vouched, origins := [], [], [];
      new;
      assert View() == Start(server);
    }

    /** couchdb_call with a cache_id. Both accesses to the cache may clean it up first. */
    method CouchdbCall(id: CacheId, since: Option<int>, now: int)
      returns (ghost before: set<CacheId>, ghost after: set<CacheId>)
      requires Valid() && now == |history| - 1
      modifies this`pending, this`requests, this`calls, this`fired, this`origins, cache, cache.repr
      ensures Enabled(site, old(View()), Evict(before))
      ensures Enabled(site, Couchdb(Forget(old(View()), before), id, since), Evict(after))
      ensures View() == Forget(Couchdb(Forget(old(View()), before), id, since), after)
      ensures Valid() && fresh(cache.repr - old(cache.repr))
    {
      ghost var w := View();
      InvFilled(site, w);
      var found;
      found, before := cache.GetUrl(id, now);
      ghost var clean := Forget(w, before);
      EvictKeeps(site, w, before);
      CallKeeps(site, clean, id, since);
      after := Proceed(found, id, since, now);
      EvictKeeps(site, Couchdb(clean, id, since), after);
    }

    // What follows the lookup.
    method Proceed(found: Option<CacheEntry>, id: CacheId, since: Option<int>, now: int)
      returns (ghost after: set<CacheId>)
      requires Linked() && Filled(cache.heap) && now == |history| - 1
      requires found.Some? <==> Found(View(), id)
      requires found.Some? ==> found.value in cache.repr && found.value.serial == cache.dict[id]
      modifies this`pending, this`requests, this`calls, this`fired, this`origins, cache, cache.repr
      ensures Linked() && fresh(cache.repr - old(cache.repr))
      ensures var w := Couchdb(old(View()), id, since); Removable(w.heap, w.dict, after) && View() == Forget(w, after)
    {
      ghost var w := View();
      calls := calls + [Call(id, since, now)];
      assert View() == w.(calls := calls);
      if found.None? {
        after := CallFirst(id, now, |calls| - 1);
      } else {
        CallKnown(found.value, since, now, |calls| - 1);
        after := {};
        ForgetNothing(View());
      }
    }

    method CallKnown(entry: CacheEntry, since: Option<int>, now: int, waiter: nat)
      requires Linked() && entry in cache.repr && now == |history| - 1 && |calls| == waiter + 1
      modifies this`pending, this`requests, this`fired, this`origins, cache`heap, entry
      ensures Linked() && entry.serial < |old(cache.heap)|
                && View() == ResponseCache.CallKnown(old(View()), entry.serial, since)
    {
      if entry.state.Waiting? {
        WaitFor(entry, waiter, now);
      } else if entry.etag.Some? {
        if since.Some? && entry.freshAt.Some? && since.value < entry.freshAt.value {
          WaitFor(entry, waiter, now);
        } else {
          entry.state := EntryState.Waiting;
          cache.heap := cache.heap[entry.serial := entry.View()];
          SendRequest(entry);
          WaitFor(entry, waiter, now);
        }
      } else {
        SendRequest(entry);
        WaitFor(entry, waiter, now);
      }
    }

    // The first request for an id: a new entry is cached and waited for.
    method CallFirst(id: CacheId, now: int, waiter: nat) returns (ghost after: set<CacheId>)
      requires Linked() && Filled(cache.heap) && now == |history| - 1 && |calls| == waiter + 1
      modifies this`pending, this`requests, this`fired, this`origins, cache, cache.repr
      ensures Linked() && fresh(cache.repr - old(cache.repr))
      ensures var w := ResponseCache.CallFirst(old(View()), id);
              Removable(w.heap, w.dict, after) && View() == Forget(w, after)
    {
      ghost var w := View();
      var made;
      made, after := Insert(id, now);
      ForgetCommutes(w.(heap := w.heap + [NewEntry(id)], dict := w.dict[id := |w.heap|]), |w.heap|, after);
      SendRequest(made);
      WaitFor(made, waiter, now);
    }

    method Insert(id: CacheId, now: int) returns (made: CacheEntry, ghost after: set<CacheId>)
      requires Linked() && Filled(cache.heap)
      modifies cache
      ensures Linked() && fresh(made) && cache.repr == old(cache.repr) + {made} && made.serial == |old(cache.heap)|
      ensures var w := old(View());
        var grown := w.(heap := w.heap + [NewEntry(id)], dict := w.dict[id := |w.heap|]);
        Removable(grown.heap, grown.dict, after) && View() == Forget(grown, after)
    {
      made := new CacheEntry(id, |cache.objects|);
      after := cache.Put(id, made, now);
    }

    method SendRequest(entry: CacheEntry)
      requires Linked() && entry in cache.repr
      modifies this`pending, this`requests
      ensures Linked() && entry.serial < |cache.heap| && View() == Send(old(View()), entry.serial)
    {
      pending := pending + [Pending(entry, entry.etag)];
      requests := requests + [Request(entry.serial, entry.id, entry.etag, |history| - 1, None)];
    }

    method WaitFor(entry: CacheEntry, waiter: nat, now: int)
      requires Linked() && entry in cache.repr && now == |history| - 1 && |calls| == waiter + 1
      modifies this`fired, this`origins, cache`heap, entry
      ensures Linked() && entry.serial < |cache.heap| && View() == WaitOn(old(View()), entry.serial)
    {
      var result := entry.Wait(waiter, now);
      cache.heap := cache.heap[entry.serial := entry.View()];
      if result.Some? {
        ghost var v := LastVouched(vouched, entry.serial);
        origins := origins + [Origin(v, v)];
        fired := fired + [Firing(waiter, result.value, now, Reused)];
      }
    }

    /** The database answers request k; the connection does not know of it before the response arrives. */
    ghost method Decided(k: nat, r: Response)
      requires Valid() && Enabled(site, View(), Decide(k, r))
      modifies this`requests
      ensures Valid() && View() == Apply(site, old(View()), Decide(k, r))
    {
      DecideKeeps(site, View(), k, r);
      requests := requests[k := requests[k].(answer := Some(Decision(r, |history| - 1)))];
    }

    /** The callbacks of request k: entries are freshened, the entry takes the response, its callers are called. */
    method OnResponse(k: nat, r: Response, now: int)
      requires Valid() && now == |history| - 1
      requires Enabled(site, View(), Respond(k)) && r == requests[k].answer.value.response
      modifies this`pending, this`requests, this`fired, this`vouched, this`origins, cache`heap, cache.repr
      ensures View() == Arrive(site, old(View()), k)
      ensures Valid()
    {
      RespondKeeps(site, View(), k);
      Deliver(k, r, now);
    }

    method Deliver(k: nat, r: Response, now: int)
      requires Linked() && k < |pending| && now == |history| - 1
      requires requests[k].answer.Some? && r == requests[k].answer.value.response
      modifies this`pending, this`requests, this`fired, this`vouched, this`origins, cache`heap, cache.repr
      ensures Linked() && old(requests[k].entry) < |old(cache.heap)| && View() == Arrive(site, old(View()), k)
    {
      assert pending[k].entry in cache.objects;
      FreshenThenSettle(site, View(), k);
      vouched := Vouch(cache.heap, cache.dict.Values, vouched, requests[k].entry, requests[k].answer.value);
      cache.FreshenEntries(r, now);
      Settle(k, r, now);
    }

    // The entry of request k takes the response, after the entries were freshened.
    method Settle(k: nat, r: Response, now: int)
      requires Linked() && k < |pending| && now == |history| - 1
      requires requests[k].answer.Some? && r == requests[k].answer.value.response
      modifies this`pending, this`requests, this`fired, this`origins, cache`heap, pending[k].entry
      ensures Linked() && old(requests[k].entry) < |old(cache.heap)| && View() == TakenIn(site, old(View()), k, now)
    {
      var entry := pending[k].entry;
      assert entry in cache.objects;
      UnderWayWithout(pending, requests, k);
      origins := origins + Same(|entry.waiting|, Origin(requests[k].sent, requests[k].answer.value.at));
      var called := entry.GotResponse(site, r, now);
      cache.heap := cache.heap[entry.serial := entry.View()];
      pending := pending[..k] + pending[k + 1..];
      requests := requests[..k] + requests[k + 1..];
      fired := fired + called;
    }
  }
}
