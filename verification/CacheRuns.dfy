// What the response cache promises over every run: one request and one answer each, answers that are those of an
// uncached call, and how old they may be.

module CacheRuns {
  import opened Wrappers
  import opened ResponseCache

  // ---------------------------------------------------------------- over every run

  /** In every reachable state a ready entry has a size, a cache time and an ETag, and its value is the parse
      of the body with that ETag. */
  lemma ReadyEntries(site: Site, actions: seq<Action>, ws: seq<World>, i: nat)
    requires IsRun(site, actions, ws) && i < |ws|
    ensures forall k | 0 <= k < |ws[i].heap| && ws[i].heap[k].state.Ready? ::
      var e := ws[i].heap[k];
      && e.size.Some? && e.cachedAt.Some? && e.etag.Some?
      && e.parsed == site.parse(e.id, BodyOf(site, e.id, e.etag.value)) && !e.parsed.Failed?
      && e.size.value == |BodyOf(site, e.id, e.etag.value)|
  {
    InvOverRun(site, actions, ws, i);
    forall k | 0 <= k < |ws[i].heap|
      ensures EntryOk(site, ws[i].history, ws[i].heap[k], LastVouched(ws[i].vouched, k))
    {
    }
  }

  /** At most one request is under way for each entry, and for each cached id. */
  lemma OneRequestEach(site: Site, actions: seq<Action>, ws: seq<World>, i: nat, a: nat, b: nat)
    requires IsRun(site, actions, ws) && i < |ws| && a < b < |ws[i].requests|
    ensures ws[i].requests[a].entry != ws[i].requests[b].entry
    ensures ws[i].requests[a].id != ws[i].requests[b].id
  {
    InvOverRun(site, actions, ws, i);
    var w := ws[i];
    assert w.heap[w.requests[a].entry].state.Waiting? && w.heap[w.requests[b].entry].state.Waiting?;
  }

  /** Every caller is answered exactly once: it is on exactly one list or was fired exactly once, and with no
      request under way nobody is left waiting. */
  lemma FiredExactlyOnce(site: Site, actions: seq<Action>, ws: seq<World>, i: nat, waiter: nat)
    requires IsRun(site, actions, ws) && i < |ws| && waiter < |ws[i].calls|
    ensures OnLists(ws[i].heap, waiter) + Served(ws[i].fired, waiter) == 1
    ensures ws[i].requests == [] ==> Served(ws[i].fired, waiter) == 1
  {
    InvOverRun(site, actions, ws, i);
    var w := ws[i];
    if w.requests == [] {
      forall k | 0 <= k < |w.heap| ensures w.heap[k].waiting == [] {
        assert EntryOk(site, w.history, w.heap[k], LastVouched(w.vouched, k));
      }
      NobodyWaits(w.heap, waiter);
    }
  }

  lemma {:induction false} NobodyWaits(heap: seq<Entry>, x: nat)
    requires forall k | 0 <= k < |heap| :: heap[k].waiting == []
    ensures OnLists(heap, x) == 0
    decreases |heap|
  {
    if heap != [] {
      NobodyWaits(heap[..|heap| - 1], x);
    }
  }

  /** The cache is transparent: each caller has what an uncached request would have produced at the moment its
      answer comes from. For a response this is the moment the database decided it, no earlier than the sending
      of the request that the caller made or joined; for a reused value it is the moment the database last
      vouched for it. */
  lemma Transparent(site: Site, actions: seq<Action>, ws: seq<World>, i: nat)
    requires IsRun(site, actions, ws) && i < |ws|
    ensures FiringsOk(site, ws[i].calls, ws[i].history, ws[i].fired, ws[i].origins)
  {
    InvOverRun(site, actions, ws, i);
  }

  // ---------------------------------------------------------------- how old an answer may be

  // The outcome is that of an uncached request after the moment `since`.
  ghost predicate FetchedAfter(site: Site, history: seq<Server>, id: CacheId, outcome: Outcome, since: int) {
    exists g :: 0 <= g < |history| && since < g && outcome == Uncached(site, history[g], id)
  }

  // It is, whatever became of the database after moment `v`.
  ghost predicate SureAfter(site: Site, history: seq<Server>, v: nat, id: CacheId, outcome: Outcome, since: int)
    requires v < |history|
  {
    forall other: seq<Server> | |other| == |history| && other[..v + 1] == history[..v + 1] ::
      FetchedAfter(site, other, id, outcome, since)
  }

  // Every version of the index parses to the outcome.
  ghost predicate NeverChanges(site: Site, id: CacheId, outcome: Outcome) {
    forall n: nat :: site.parse(id, site.body(id, n)) == outcome
  }

  lemma SureWhen(site: Site, history: seq<Server>, v: nat, id: CacheId, outcome: Outcome, since: int)
    requires v < |history| && since < |history| - 1 && outcome == Uncached(site, history[v], id)
    ensures SureAfter(site, history, v, id, outcome, since) <==> since < v || NeverChanges(site, id, outcome)
  {
    if since < v || NeverChanges(site, id, outcome) {
      forall other: seq<Server> | |other| == |history| && other[..v + 1] == history[..v + 1]
        ensures FetchedAfter(site, other, id, outcome, since)
      {
        var g := if since < v then v else |history| - 1;
        assert since < v ==> other[v] == other[..v + 1][v] == history[..v + 1][v];
        assert outcome == Uncached(site, other[g], id);
      }
    } else {
      var n: nat :| site.parse(id, site.body(id, n)) != outcome;
      var changed: Server := map[site.index(id) := n];
      var other := history[..v + 1] + seq(|history| - v - 1, _ => changed);
      forall g | 0 <= g < |other| && since < g ensures outcome != Uncached(site, other[g], id) {
        assert other[g] == changed;
      }
      assert other[..v + 1] == history[..v + 1];
      assert !FetchedAfter(site, other, id, outcome, since);
    }
  }

  /** When a caller can rely on the age of its answer. A reused value is sure to be one of after the moment the
      caller named if and only if that moment lies before the one at which the database last vouched for the
      value, and an answer is sure to be one of no earlier than the call if and only if the database decided it
      no earlier than the call; or else the resource never changes. */
  lemma WhenRecent(site: Site, actions: seq<Action>, ws: seq<World>, i: nat)
    requires IsRun(site, actions, ws) && i < |ws|
    ensures forall f | 0 <= f < |ws[i].fired| && !ws[i].fired[f].reason.Lost? ::
              f < |ws[i].origins| && AgeIsKnown(site, ws[i], ws[i].fired[f], ws[i].origins[f].moment)
  {
    Transparent(site, actions, ws, i);
    var w := ws[i];
    forall f | 0 <= f < |w.fired| && !w.fired[f].reason.Lost?
      ensures AgeIsKnown(site, w, w.fired[f], w.origins[f].moment)
    {
      assert FiringOk(site, w.calls, w.history, w.fired[f], w.origins[f]);
      var c := w.calls[w.fired[f].waiter];
      SureWhen(site, w.history, w.origins[f].moment, c.id, w.fired[f].outcome, AskedFor(c, w.fired[f].reason));
    }
  }

  // The moment after which the caller would have its answer: the one it named, or just before its call.
  function AskedFor(c: Call, reason: Reason): int {
    if reason.Reused? && c.since.Some? then c.since.value else c.time - 1
  }

  // A value from moment `v` is sure to be recent enough exactly if that lies after the moment asked for, or all
  // versions are the same.
  ghost predicate AgeIsKnown(site: Site, w: World, f: Firing, v: int) {
    && f.waiter < |w.calls| && 0 <= v < |w.history| && (f.reason.Reused? ==> w.calls[f.waiter].since.Some?)
    && var c, asked := w.calls[f.waiter], AskedFor(w.calls[f.waiter], f.reason);
       SureAfter(site, w.history, v, c.id, f.outcome, asked) <==> asked < v || NeverChanges(site, c.id, f.outcome)
  }

  // An index of one resource, which is empty in the beginning and has one character once it changes.
  function LateSite(): Site {
    Site(_ => 0, (_, n: nat) => if n == 0 then "" else "x", (_, b: seq<char>) => Value(|b|))
  }

  // The first request is answered before the index changes, and its response arrives after the change; callers
  // come before the arrival and after it.
  function LateActions(): seq<Action> {
    var id := CacheId(0);
    [CallIt(id, None), Decide(0, Full("", Some(Tag(0, 0)))), Tick(map[0 := 1]), CallIt(id, None), Tick(map[0 := 1]),
     Respond(0), CallIt(id, Some(1))]
  }

  // The only entry of the run with its request, once n callers came by moment `now`.
  function LateEntry(n: nat, now: int): Entry {
    NewEntry(CacheId(0)).(waiting := seq(n, i => i), numAccessed := n, accessedAt := Some(now))
  }

  function LateWorld(n: nat, answer: Option<Decision>, calls: seq<Call>, history: seq<Server>): World {
    World([LateEntry(n, |calls| - 1)], map[CacheId(0) := 0], [Request(0, CacheId(0), None, 0, answer)], calls, [],
          history, [], [])
  }

  /** The failing run: the response says that the resource was empty at moment 0 and arrives at moment 2. A
      caller of moment 1, when the resource had changed, is answered with it, and a caller asking for
      something later than moment 1 is, too. */
  lemma LateResponse() returns (ws: seq<World>)
    ensures IsRun(LateSite(), LateActions(), ws)
    ensures var w, id := ws[7], CacheId(0);
      && w.calls == [Call(id, None, 0), Call(id, None, 1), Call(id, Some(1), 2)]
      && w.fired == [Firing(0, Value(0), 2, Answered), Firing(1, Value(0), 2, Answered), Firing(2, Value(0), 2, Reused)]
      && !FetchedAfter(LateSite(), w.history, id, Value(0), 0) && !FetchedAfter(LateSite(), w.history, id, Value(0), 1)
  {
    var w := LateArrival();
    ws :| IsRun(LateSite(), LateActions()[..7], ws) && ws[7] == w;
    assert LateActions()[..7] == LateActions();
  }

  // The actions lead from some beginning to `w`.
  ghost predicate LeadTo(site: Site, actions: seq<Action>, w: World) {
    exists ws :: IsRun(site, actions, ws) && ws[|actions|] == w
  }

  lemma Further(site: Site, actions: seq<Action>, w: World, a: Action, w': World)
    requires LeadTo(site, actions, w) && Enabled(site, w, a) && w' == Apply(site, w, a)
    ensures LeadTo(site, actions + [a], w')
  {
    var ws :| IsRun(site, actions, ws) && ws[|actions|] == w;
    var ws', more := ws + [w'], actions + [a];
    assert IsRun(site, more, ws') && ws'[|more|] == w';
  }

  // The first k actions lead there.
  ghost predicate LateTo(k: nat, w: World)
    requires k <= 7
  {
    LeadTo(LateSite(), LateActions()[..k], w)
  }

  lemma LateStep(k: nat, w: World, w': World)
    requires k < 7 && LateTo(k, w)
    requires Enabled(LateSite(), w, LateActions()[k]) && w' == Apply(LateSite(), w, LateActions()[k])
    ensures LateTo(k + 1, w')
  {
    Further(LateSite(), LateActions()[..k], w, LateActions()[k], w');
    assert LateActions()[..k] + [LateActions()[k]] == LateActions()[..k + 1];
  }

  lemma LateStart()
    ensures LateTo(1, LateWorld(1, None, [Call(CacheId(0), None, 0)], [map[]]))
  {
    var w := Couchdb(Start(map[]), CacheId(0), None);
    assert LateEntry(1, 0).waiting == [] + [0];
    assert w.heap == [LateEntry(1, 0)];
    assert w.dict == map[CacheId(0) := 0];
    assert w.requests == [Request(0, CacheId(0), None, 0, None)];
    assert IsRun(LateSite(), LateActions()[..0], [Start(map[])]);
    LateStep(0, Start(map[]), w);
  }

  function LateAnswer(): Option<Decision> {
    Some(Decision(Full("", Some(Tag(0, 0))), 0))
  }

  lemma LateAnswered()
    ensures LateTo(2, LateWorld(1, LateAnswer(), [Call(CacheId(0), None, 0)], [map[]]))
  {
    LateStart();
    LateStep(1, LateWorld(1, None, [Call(CacheId(0), None, 0)], [map[]]),
             LateWorld(1, LateAnswer(), [Call(CacheId(0), None, 0)], [map[]]));
  }

  lemma LateDecision()
    ensures LateTo(3, LateWorld(1, LateAnswer(), [Call(CacheId(0), None, 0)], [map[], map[0 := 1]]))
  {
    LateAnswered();
    var decided := LateWorld(1, LateAnswer(), [Call(CacheId(0), None, 0)], [map[]]);
    LateStep(2, decided, decided.(history := [map[], map[0 := 1]]));
  }

  // The world when the response arrives.
  function LateTime(): World {
    LateWorld(2, LateAnswer(), [Call(CacheId(0), None, 0), Call(CacheId(0), None, 1)],
              [map[], map[0 := 1], map[0 := 1]])
  }

  lemma LateJoin()
    ensures LateTo(5, LateTime())
  {
    LateDecision();
    assert LateEntry(2, 1).waiting == LateEntry(1, 0).waiting + [1];
    var joined := LateTime().(history := [map[], map[0 := 1]]);
    LateStep(3, LateWorld(1, LateAnswer(), [Call(CacheId(0), None, 0)], [map[], map[0 := 1]]), joined);
    LateStep(4, joined, LateTime());
  }

  lemma LateArrival() returns (w: World)
    ensures LateTo(7, w) && w.history == LateTime().history
    ensures w.calls == [Call(CacheId(0), None, 0), Call(CacheId(0), None, 1), Call(CacheId(0), Some(1), 2)]
    ensures w.fired == [Firing(0, Value(0), 2, Answered), Firing(1, Value(0), 2, Answered),
                        Firing(2, Value(0), 2, Reused)]
  {
    LateJoin();
    var w6;
    w6, w := AfterArrival(LateTime());
    LateStep(5, LateTime(), w6);
    LateStep(6, w6, w);
  }

  lemma AfterArrival(w5: World) returns (w6: World, w7: World)
    requires w5 == LateTime()
    ensures Enabled(LateSite(), w5, Respond(0)) && w6 == Apply(LateSite(), w5, Respond(0))
    ensures w7 == Apply(LateSite(), w6, CallIt(CacheId(0), Some(1)))
    ensures w7.calls == w5.calls + [Call(CacheId(0), Some(1), 2)] && w7.history == w5.history
    ensures w7.fired == [Firing(0, Value(0), 2, Answered), Firing(1, Value(0), 2, Answered),
                         Firing(2, Value(0), 2, Reused)]
  {
    w6 := Apply(LateSite(), w5, Respond(0));
    assert w6.heap[0].parsed == Value(0) && w6.heap[0].state.Ready? && w6.heap[0].freshAt == Some(2);
    assert w6.fired == [Firing(0, Value(0), 2, Answered), Firing(1, Value(0), 2, Answered)];
    w7 := Apply(LateSite(), w6, CallIt(CacheId(0), Some(1)));
  }
}
