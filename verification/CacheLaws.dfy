// What the response cache promises about single calls and responses: when a call sends a request, joins one or
// is answered from the cache, what a response makes of the entries, and how uses are counted.

module CacheLaws {
  import opened Wrappers
  import opened ResponseCache

  // ---------------------------------------------------------------- calls

  // The entry that the cache names for the id, and that is not invalid, is in this state.
  predicate Has(w: World, id: CacheId, state: EntryState) {
    Found(w, id) && w.heap[w.dict[id]].state == state
  }

  // What is cached is more recent than the caller asks for.
  predicate Recent(w: World, id: CacheId, since: Option<int>) {
    && Has(w, id, Ready) && since.Some? && w.heap[w.dict[id]].freshAt.Some?
    && since.value < w.heap[w.dict[id]].freshAt.value
  }

  /** A call joins the request under way for its id, if there is one; it is answered at once, without a request,
      if and only if what is cached is recent enough; and in all other cases it sends one request, naming the
      ETag of what is cached, and waits for it alone. */
  lemma CallDecides(site: Site, w: World, id: CacheId, since: Option<int>)
    requires Inv(site, w)
    ensures var w', n := Couchdb(w, id, since), |w.calls|;
      && w'.calls == w.calls + [Call(id, since, Now(w))]
      && id in w'.dict && w'.dict[id] < |w'.heap|
      && var e := w'.heap[w'.dict[id]];
         if Has(w, id, Waiting) then
           w'.requests == w.requests && w'.fired == w.fired && e.waiting == w.heap[w.dict[id]].waiting + [n]
         else if Recent(w, id, since) then
           w'.requests == w.requests && w'.fired == w.fired + [Firing(n, w.heap[w.dict[id]].parsed, Now(w), Reused)]
         else
           && w'.fired == w.fired && e.waiting == [n]
           && w'.requests == w.requests + [Request(w'.dict[id], id, KnownTag(w, id), Now(w), None)]
  {
    var asked := w.(calls := w.calls + [Call(id, since, Now(w))]);
    if Found(w, id) {
      assert EntryOk(site, w.history, w.heap[w.dict[id]], LastVouched(w.vouched, w.dict[id]));
      KnownDecides(asked, w.dict[id], since);
    } else {
      FirstDecides(asked, id);
    }
  }

  lemma KnownDecides(w: World, k: nat, since: Option<int>)
    requires |w.calls| > 0 && k < |w.heap| && (w.heap[k].state.Waiting? || w.heap[k].state.Ready?)
    requires w.heap[k].state.Ready? ==> w.heap[k].etag.Some? && w.heap[k].waiting == []
    ensures var w', n, e := CallKnown(w, k, since), |w.calls| - 1, w.heap[k];
      && w'.calls == w.calls && w'.dict == w.dict && k < |w'.heap|
      && if e.state.Waiting? then
           w'.requests == w.requests && w'.fired == w.fired && w'.heap[k].waiting == e.waiting + [n]
         else if Fresh(e, since) then
           w'.requests == w.requests && w'.fired == w.fired + [Firing(n, e.parsed, Now(w), Reused)]
         else
           && w'.fired == w.fired && w'.heap[k].waiting == [n]
           && w'.requests == w.requests + [Request(k, e.id, e.etag, Now(w), None)]
  {
  }

  lemma FirstDecides(w: World, id: CacheId)
    requires |w.calls| > 0
    ensures var w', k := CallFirst(w, id), |w.heap|;
      && w'.calls == w.calls && w'.fired == w.fired && w'.requests == w.requests + [Request(k, id, None, Now(w), None)]
      && id in w'.dict && w'.dict[id] == k < |w'.heap| && w'.heap[k].waiting == [|w.calls| - 1]
  {
  }

  function KnownTag(w: World, id: CacheId): Option<Tag> {
    if Has(w, id, Ready) then w.heap[w.dict[id]].etag else None
  }

  // ---------------------------------------------------------------- responses

  // The response to the entry's own request brings a body it can use.
  predicate Brings(site: Site, e: Entry, r: Response) {
    r.Full? && !site.parse(e.id, r.body).Failed?
  }

  /** A response is cached: its entry is ready afterwards if and only if the response is a 304, or a body that can
      be parsed and carries an ETag, which is then kept; otherwise the entry is invalid. */
  lemma ResponseIsKept(site: Site, w: World, j: nat)
    requires Enabled(site, w, Respond(j))
    ensures var k, r := w.requests[j].entry, w.requests[j].answer.value.response;
      var e, e' := w.heap[k], Arrive(site, w, j).heap[k];
      && (e'.state.Ready? <==> r.NotModified? || (Brings(site, e, r) && r.header.Some?))
      && (e'.state.Invalid? <==> !e'.state.Ready?)
      && (r.Full? && e'.state.Ready? ==>
            e'.etag == r.header && e'.parsed == site.parse(e.id, r.body) && e'.size == Some(|r.body|))
      && (r.NotModified? ==> e'.etag == e.etag && e'.parsed == e.parsed && e'.size == e.size)
      && (r.Broken? ==> e'.parsed == Failed && e'.size == None)
  {
  }

  /** When entries count as fresh and cached from: a 304 restarts the freshness of the entry it answers and of all
      cached ones it speaks of; the first usable body starts both times; nothing else changes either. */
  lemma ResponseSetsTimes(site: Site, w: World, j: nat, k: nat)
    requires Enabled(site, w, Respond(j)) && k < |w.heap|
    ensures var own, r := w.requests[j].entry == k, w.requests[j].answer.value.response;
      var e, e' := w.heap[k], Arrive(site, w, j).heap[k];
      var first := own && Brings(site, e, r) && e.cachedAt.None?;
      var confirmed := r.NotModified? && (own || (r.header.Some? && e.etag == r.header && k in w.dict.Values));
      && e'.cachedAt == (if first then Some(Now(w)) else e.cachedAt)
      && e'.freshAt == (if first || confirmed then Some(Now(w)) else e.freshAt)
  {
  }

  /** So over a run an entry is cached from one moment on, for good. */
  lemma {:induction false} CachedFromOnce(site: Site, actions: seq<Action>, ws: seq<World>, i: nat, j: nat, k: nat)
    requires IsRun(site, actions, ws) && i <= j < |ws| && k < |ws[i].heap| && ws[i].heap[k].cachedAt.Some?
    ensures k < |ws[j].heap| && ws[j].heap[k].cachedAt == ws[i].heap[k].cachedAt
  {
    if i < j {
      CachedFromOnce(site, actions, ws, i, j - 1, k);
      CachedAtStays(site, ws[j - 1], actions[j - 1], k);
    }
  }

  lemma CachedAtStays(site: Site, w: World, a: Action, k: nat)
    requires Enabled(site, w, a) && k < |w.heap| && w.heap[k].cachedAt.Some?
    ensures var w' := Apply(site, w, a); k < |w'.heap| && w'.heap[k].cachedAt == w.heap[k].cachedAt
  {
    if a.Respond? {
      ResponseSetsTimes(site, w, a.k, k);
    }
  }

  // ---------------------------------------------------------------- uses

  // How many calls of the first n steps were given entry k.
  function Uses(actions: seq<Action>, ws: seq<World>, n: nat, k: nat): nat
    requires n <= |actions| < |ws|
  {
    if n == 0 then 0
    else
      var a, w := actions[n - 1], ws[n];
      Uses(actions, ws, n - 1, k) + if a.CallIt? && a.id in w.dict && w.dict[a.id] == k then 1 else 0
  }

  // The accesses counted for entry k; none before it is made.
  function Counted(w: World, k: nat): nat {
    if k < |w.heap| then w.heap[k].numAccessed else 0
  }

  /** What cleaning up goes by: the accesses counted for an entry are the calls that were given it, whether they
      waited for it or were answered at once. */
  lemma {:induction false} AccessesAreUses(site: Site, actions: seq<Action>, ws: seq<World>, n: nat, k: nat)
    requires IsRun(site, actions, ws) && n < |ws|
    ensures Counted(ws[n], k) == Uses(actions, ws, n, k)
  {
    if n > 0 {
      AccessesAreUses(site, actions, ws, n - 1, k);
      InvOverRun(site, actions, ws, n);
      StepCounts(site, ws[n - 1], actions[n - 1], k);
    }
  }

  lemma StepCounts(site: Site, w: World, a: Action, k: nat)
    requires DictOk(w.heap, w.dict) && Enabled(site, w, a)
    ensures var w' := Apply(site, w, a);
      Counted(w', k) == Counted(w, k) + if a.CallIt? && a.id in w'.dict && w'.dict[a.id] == k then 1 else 0
  {
    if a.CallIt? {
      CallCounts(w, a.id, a.since, k);
    }
  }

  lemma CallCounts(w: World, id: CacheId, since: Option<int>, k: nat)
    requires DictOk(w.heap, w.dict)
    ensures var w' := Couchdb(w, id, since);
      Counted(w', k) == Counted(w, k) + if id in w'.dict && w'.dict[id] == k then 1 else 0
  {
    var asked := w.(calls := w.calls + [Call(id, since, Now(w))]);
    if Found(w, id) {
      KnownCounts(asked, w.dict[id], since, k);
    } else {
      var made := asked.(heap := w.heap + [NewEntry(id)], dict := w.dict[id := |w.heap|]);
      WaitCounts(Send(made, |w.heap|), |w.heap|, k);
    }
  }

  lemma KnownCounts(w: World, j: nat, since: Option<int>, k: nat)
    requires |w.calls| > 0 && j < |w.heap|
    ensures var w' := CallKnown(w, j, since);
      w'.dict == w.dict && Counted(w', k) == Counted(w, k) + if j == k then 1 else 0
  {
    var again := w.(heap := w.heap[j := w.heap[j].(state := Waiting)]);
    WaitCounts(w, j, k);
    WaitCounts(Send(w, j), j, k);
    WaitCounts(Send(again, j), j, k);
  }

  lemma WaitCounts(w: World, j: nat, k: nat)
    requires |w.calls| > 0 && j < |w.heap|
    ensures var w' := WaitOn(w, j);
      w'.dict == w.dict && Counted(w', k) == Counted(w, k) + if j == k then 1 else 0
  {
  }
}
