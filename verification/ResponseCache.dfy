// The response cache of the CouchDB driver: concurrent requests for one resource share one request, and
// cached responses are revalidated with their ETag (RFC 7232, sections 3.2 and 4.1) or reused outright.

module ResponseCache {
  import opened Wrappers

  // The cache identifier of a request; its text enters only through its order.
  datatype CacheId = CacheId(rank: int)

  // An ETag names one version of one index; requests reading the same index share their tags.
  datatype Tag = Tag(index: int, version: nat)

  // What a caller gets: nothing yet (None), a parsed value, or a failure.
  datatype Outcome = Nothing | Value(value: int) | Failed

  // The index each request reads, the body it has at a version of it, and what its parser makes of a body.
  datatype Site = Site(index: CacheId -> int, body: (CacheId, nat) -> seq<char>, parse: (CacheId, seq<char>) -> Outcome)

  // The database: the version of each index, 0 unless changed.
  type Server = map<int, nat>

  function CurrentTag(site: Site, s: Server, id: CacheId): Tag {
    var i := site.index(id);
    Tag(i, if i in s then s[i] else 0)
  }

  function BodyOf(site: Site, id: CacheId, t: Tag): seq<char> {
    site.body(id, t.version)
  }

  // What the request answers when no cache is involved.
  function Uncached(site: Site, s: Server, id: CacheId): Outcome {
    site.parse(id, BodyOf(site, id, CurrentTag(site, s, id)))
  }

  // ---------------------------------------------------------------- cache entries

  datatype EntryState = Waiting | Ready | Invalid

  datatype Entry = Entry(id: CacheId, state: EntryState, etag: Option<Tag>, parsed: Outcome, waiting: seq<nat>,
                         cachedAt: Option<int>, freshAt: Option<int>, accessedAt: Option<int>, numAccessed: nat,
                         size: Option<nat>)

  function NewEntry(id: CacheId): Entry {
    Entry(id, Waiting, None, Nothing, [], None, None, None, 0, None)
  }

  // A failed request, a 304, or any other status with its body and ETag header.
  datatype Response = Broken | NotModified(header: Option<Tag>) | Full(body: seq<char>, header: Option<Tag>)

  // wait(): a ready entry answers at once, otherwise the caller is put on the list.
  function Wait(e: Entry, waiter: nat, now: int): Entry {
    var counted := e.(accessedAt := Some(now), numAccessed := e.numAccessed + 1);
    if e.state.Ready? then counted else counted.(waiting := e.waiting + [waiter])
  }

  // got_response(): the new state of the entry; all waiters are then called with its `parsed`.
  function GotResponse(site: Site, e: Entry, r: Response, now: int): Entry {
    match r
    case Broken => e.(size := None, parsed := Failed, state := Invalid, waiting := [])
    case NotModified(_) => e.(state := Ready, freshAt := Some(now), waiting := [])
    case Full(body, header) =>
      var parsed := site.parse(e.id, body);
      if parsed.Failed? then e.(parsed := parsed, state := Invalid, waiting := [])
      else
        e.(parsed := parsed,
           size := Some(|body|),
           cachedAt := if e.cachedAt.Some? then e.cachedAt else Some(now),
           freshAt := if e.cachedAt.Some? then e.freshAt else Some(now),
           etag := if header.Some? then header else e.etag,
           state := if header.Some? then Ready else Invalid,
           waiting := [])
  }

  // A 304 with an ETag speaks of every entry carrying it.
  predicate Speaks(r: Response, e: Entry) {
    r.NotModified? && r.header.Some? && e.etag == r.header
  }

  // freshen_entries(): all cached entries it speaks of.
  function Freshen(heap: seq<Entry>, cached: set<nat>, r: Response, now: int): (h: seq<Entry>)
    ensures |h| == |heap|
  {
    seq(|heap|, i requires 0 <= i < |heap| =>
      if Speaks(r, heap[i]) && i in cached then heap[i].(freshAt := Some(now)) else heap[i])
  }

  // ---------------------------------------------------------------- the whole system

  // What the database answered to a request, and at which moment; it arrives later.
  datatype Decision = Decision(response: Response, at: int)

  datatype Request = Request(entry: nat, id: CacheId, ifNoneMatch: Option<Tag>, sent: int, answer: Option<Decision>)

  // Waiter numbers are positions in the list of all calls made.
  datatype Call = Call(id: CacheId, since: Option<int>, time: int)

  datatype Reason = Answered | Reused | Lost
  datatype Firing = Firing(waiter: nat, outcome: Outcome, time: int, reason: Reason)

  // Where a fired value comes from: when its request was sent, and when the database said what it is.
  datatype Origin = Origin(sent: int, moment: int)

  // All entries ever made, the cache naming some of them, the requests under way, the calls and their
  // answers, and the database at each moment; the last moment is the present. For the proofs alone, `vouched`
  // has the moment the database last vouched for what each entry holds, and `origins` is beside `fired`.
  datatype World = World(heap: seq<Entry>, dict: map<CacheId, nat>, requests: seq<Request>, calls: seq<Call>,
                         fired: seq<Firing>, history: seq<Server>, vouched: seq<int>, origins: seq<Origin>)

  function Now(w: World): int {
    |w.history| - 1
  }

  datatype Action =
    | Tick(server: Server)
    | CallIt(id: CacheId, since: Option<int>)
    | Decide(k: nat, response: Response)
    | Respond(k: nat)
    | Evict(gone: set<CacheId>)

  // What the database may answer: a 304 only to a request naming the current ETag.
  predicate Honest(site: Site, s: Server, id: CacheId, ifNoneMatch: Option<Tag>, r: Response) {
    var tag := CurrentTag(site, s, id);
    match r
    case Broken => true
    case NotModified(header) => ifNoneMatch == Some(tag) && (header == None || header == Some(tag))
    case Full(body, header) => body == BodyOf(site, id, tag) && (header == None || header == Some(tag))
  }

  predicate Enabled(site: Site, w: World, a: Action) {
    match a
    case Tick(_) => true
    case CallIt(_, _) => true
    case Decide(k, r) =>
      && k < |w.requests| && w.requests[k].answer.None? && |w.history| > 0
      && Honest(site, w.history[|w.history| - 1], w.requests[k].id, w.requests[k].ifNoneMatch, r)
    case Respond(k) =>
      k < |w.requests| && w.requests[k].entry < |w.heap| && w.requests[k].answer.Some?
    case Evict(gone) =>
      forall id | id in gone :: id in w.dict && w.dict[id] < |w.heap| && !w.heap[w.dict[id]].state.Waiting?
  }

  // get_url(): invalid entries are not found.
  predicate Found(w: World, id: CacheId) {
    id in w.dict && w.dict[id] < |w.heap| && !w.heap[w.dict[id]].state.Invalid?
  }

  // The entry may be reused without asking the database.
  predicate Fresh(e: Entry, since: Option<int>) {
    since.Some? && e.freshAt.Some? && since.value < e.freshAt.value
  }

  // couchdb_call() with a cache_id.
  function Couchdb(w: World, id: CacheId, since: Option<int>): World {
    var asked := w.(calls := w.calls + [Call(id, since, Now(w))]);
    if Found(w, id) then CallKnown(asked, w.dict[id], since) else CallFirst(asked, id)
  }

  function CallFirst(w: World, id: CacheId): World
    requires |w.calls| > 0
  {
    var made := w.(heap := w.heap + [NewEntry(id)], dict := w.dict[id := |w.heap|]);
    WaitOn(Send(made, |w.heap|), |w.heap|)
  }

  function CallKnown(w: World, k: nat, since: Option<int>): World
    requires |w.calls| > 0 && k < |w.heap|
  {
    var e := w.heap[k];
    if e.state.Waiting? then WaitOn(w, k)
    else if e.etag.Some? then
      if Fresh(e, since) then WaitOn(w, k)
      else WaitOn(Send(w.(heap := w.heap[k := e.(state := Waiting)]), k), k)
    else WaitOn(Send(w, k), k)
  }

  // The request is sent, naming the ETag the entry has.
  function Send(w: World, k: nat): World
    requires k < |w.heap|
  {
    w.(requests := w.requests + [Request(k, w.heap[k].id, w.heap[k].etag, Now(w), None)])
  }

  function LastVouched(vouched: seq<int>, k: nat): int {
    if k < |vouched| then vouched[k] else 0
  }

  function Later(a: int, b: int): int {
    if a < b then b else a
  }

  // The caller of the latest call waits on entry k.
  function WaitOn(w: World, k: nat): World
    requires k < |w.heap| && |w.calls| > 0
  {
    var e, waiter, v := w.heap[k], |w.calls| - 1, LastVouched(w.vouched, k);
    w.(heap := w.heap[k := Wait(e, waiter, Now(w))],
       fired := if e.state.Ready? then w.fired + [Firing(waiter, e.parsed, Now(w), Reused)] else w.fired,
       origins := if e.state.Ready? then w.origins + [Origin(v, v)] else w.origins)
  }

  function Fire(waiting: seq<nat>, outcome: Outcome, time: int, reason: Reason): (fs: seq<Firing>)
    ensures |fs| == |waiting| && forall i | 0 <= i < |fs| :: fs[i] == Firing(waiting[i], outcome, time, reason)
  {
    seq(|waiting|, i requires 0 <= i < |waiting| => Firing(waiting[i], outcome, time, reason))
  }

  function Same(n: nat, origin: Origin): (os: seq<Origin>)
    ensures |os| == n && forall i | 0 <= i < |os| :: os[i] == origin
  {
    seq(n, _ => origin)
  }

  // A 200 replaces what the entry holds, a 304 vouches for it.
  function NextVouched(v: int, d: Decision): int {
    match d.response
    case Broken => v
    case NotModified(_) => Later(v, d.at)
    case Full(_, _) => d.at
  }

  // What an answer to the request of entry n vouches for.
  function Vouch(heap: seq<Entry>, cached: set<nat>, vouched: seq<int>, n: nat, d: Decision): (v: seq<int>)
    ensures |v| == |heap|
  {
    seq(|heap|, i requires 0 <= i < |heap| =>
      if i == n then NextVouched(LastVouched(vouched, i), d)
      else if Speaks(d.response, heap[i]) && i in cached then Later(LastVouched(vouched, i), d.at)
      else LastVouched(vouched, i))
  }

  // The heap after a response to the request of entry n.
  function Answer(site: Site, heap: seq<Entry>, cached: set<nat>, n: nat, r: Response, now: int): seq<Entry>
    requires n < |heap|
  {
    Freshen(heap, cached, r, now)[n := GotResponse(site, Freshen(heap, cached, r, now)[n], r, now)]
  }

  function Arrive(site: Site, w: World, k: nat): World
    requires k < |w.requests| && w.requests[k].entry < |w.heap| && w.requests[k].answer.Some?
  {
    var n, sent, d := w.requests[k].entry, w.requests[k].sent, w.requests[k].answer.value;
    var heap := Answer(site, w.heap, w.dict.Values, n, d.response, Now(w));
    w.(heap := heap,
       requests := w.requests[..k] + w.requests[k + 1..],
       fired := w.fired
                + Fire(w.heap[n].waiting, heap[n].parsed, Now(w), if d.response.Broken? then Lost else Answered),
       vouched := Vouch(w.heap, w.dict.Values, w.vouched, n, d),
       origins := w.origins + Same(|w.heap[n].waiting|, Origin(sent, d.at)))
  }

  function Apply(site: Site, w: World, a: Action): World
    requires Enabled(site, w, a)
  {
    match a
    case Tick(server) => w.(history := w.history + [server])
    case CallIt(id, since) => Couchdb(w, id, since)
    case Decide(k, r) => w.(requests := w.requests[k := w.requests[k].(answer := Some(Decision(r, Now(w))))])
    case Respond(k) => Arrive(site, w, k)
    case Evict(gone) => w.(dict := w.dict - gone)
  }

  function Start(server: Server): World {
    World([], map[], [], [], [], [server], [], [])
  }

  ghost predicate IsRun(site: Site, actions: seq<Action>, ws: seq<World>)
  {
    && |ws| == |actions| + 1
    && (exists server :: ws[0] == Start(server))
    && forall i | 0 <= i < |actions| :: Enabled(site, ws[i], actions[i]) && ws[i + 1] == Apply(site, ws[i], actions[i])
  }

  // ---------------------------------------------------------------- invariants

  // What is kept under an ETag is what the body with that ETag parses to, with its size. The ETag was the
  // current one at moment `v`.
  ghost predicate Kept(site: Site, history: seq<Server>, e: Entry, v: int) {
    && e.etag.Some?
    && e.parsed == site.parse(e.id, BodyOf(site, e.id, e.etag.value)) && !e.parsed.Failed?
    && e.size == Some(|BodyOf(site, e.id, e.etag.value)|)
    && e.cachedAt.Some? && e.freshAt.Some? && e.freshAt.value < |history|
    && 0 <= v < |history| && CurrentTag(site, history[v], e.id) == e.etag.value
  }

  ghost predicate EntryOk(site: Site, history: seq<Server>, e: Entry, v: int) {
    && (e.state.Ready? ==> e.etag.Some?)
    && (!e.state.Invalid? && e.etag.Some? ==> Kept(site, history, e, v))
    && (!e.state.Waiting? ==> e.waiting == [])
    && (e.state.Waiting? && e.etag.None? ==> e.cachedAt.None?)
  }

  ghost predicate EntriesOk(site: Site, w: World) {
    forall k | 0 <= k < |w.heap| :: EntryOk(site, w.history, w.heap[k], LastVouched(w.vouched, k))
  }

  predicate DictOk(heap: seq<Entry>, dict: map<CacheId, nat>) {
    forall id | id in dict :: dict[id] < |heap| && heap[dict[id]].id == id
  }

  // A waiting entry is the one in the cache under its id, and a request is under way for it.
  predicate WaitingOk(heap: seq<Entry>, dict: map<CacheId, nat>, requests: seq<Request>) {
    forall k | 0 <= k < |heap| && heap[k].state.Waiting? ::
      && heap[k].id in dict && dict[heap[k].id] == k
      && exists j :: 0 <= j < |requests| && requests[j].entry == k
  }

  predicate RequestsOk(heap: seq<Entry>, requests: seq<Request>) {
    forall j | 0 <= j < |requests| ::
      && requests[j].entry < |heap|
      && requests[j].id == heap[requests[j].entry].id && requests[j].ifNoneMatch == heap[requests[j].entry].etag
      && heap[requests[j].entry].state.Waiting?
  }

  // An answer was decided between the sending of its request and now, and was right then.
  predicate AnswerOk(site: Site, history: seq<Server>, q: Request) {
    && 0 <= q.sent < |history|
    && (q.answer.Some? ==>
          var d := q.answer.value;
          q.sent <= d.at < |history| && Honest(site, history[d.at], q.id, q.ifNoneMatch, d.response))
  }

  predicate AnswersOk(site: Site, history: seq<Server>, requests: seq<Request>) {
    forall j | 0 <= j < |requests| :: AnswerOk(site, history, requests[j])
  }

  // Nobody waits for a request sent after the call.
  predicate JoinedLater(heap: seq<Entry>, requests: seq<Request>, calls: seq<Call>) {
    forall j, i | 0 <= j < |requests| && requests[j].entry < |heap| && 0 <= i < |heap[requests[j].entry].waiting| ::
      var n := heap[requests[j].entry].waiting[i]; n < |calls| && requests[j].sent <= calls[n].time
  }

  predicate OneEach(requests: seq<Request>) {
    forall i, j | 0 <= i < j < |requests| :: requests[i].entry != requests[j].entry
  }

  predicate WaitersOk(heap: seq<Entry>, calls: seq<Call>, now: int) {
    forall k, i | 0 <= k < |heap| && 0 <= i < |heap[k].waiting| ::
      var n := heap[k].waiting[i]; n < |calls| && calls[n].id == heap[k].id && calls[n].time <= now
  }

  // Each answer is one an uncached request would have got at the moment its origin names. That of a response
  // is when the database decided, between the sending of the request, which the caller made or joined, and
  // the firing; that of a reused value is when the database last vouched for it.
  ghost predicate FiringOk(site: Site, calls: seq<Call>, history: seq<Server>, f: Firing, o: Origin) {
    && f.waiter < |calls|
    && calls[f.waiter].time <= f.time < |history|
    && 0 <= o.sent <= o.moment < |history| && o.moment <= f.time
    && match f.reason
       case Answered =>
         && o.sent <= calls[f.waiter].time
         && f.outcome == Uncached(site, history[o.moment], calls[f.waiter].id)
       case Reused =>
         && calls[f.waiter].since.Some? && calls[f.waiter].since.value < f.time
         && f.outcome == Uncached(site, history[o.moment], calls[f.waiter].id)
       case Lost => o.sent <= calls[f.waiter].time && f.outcome == Failed
  }

  ghost predicate FiringsOk(site: Site, calls: seq<Call>, history: seq<Server>, fired: seq<Firing>,
                            origins: seq<Origin>) {
    |origins| == |fired| && forall i | 0 <= i < |fired| :: FiringOk(site, calls, history, fired[i], origins[i])
  }

  function Count(waiting: seq<nat>, x: nat): nat
    decreases |waiting|
  {
    if waiting == [] then 0 else Count(waiting[..|waiting| - 1], x) + if waiting[|waiting| - 1] == x then 1 else 0
  }

  // How often a caller is on the list of an entry, and how often it was answered.
  function OnLists(heap: seq<Entry>, x: nat): nat
    decreases |heap|
  {
    if heap == [] then 0 else OnLists(heap[..|heap| - 1], x) + Count(heap[|heap| - 1].waiting, x)
  }

  function Served(fired: seq<Firing>, x: nat): nat
    decreases |fired|
  {
    if fired == [] then 0 else Served(fired[..|fired| - 1], x) + if fired[|fired| - 1].waiter == x then 1 else 0
  }

  ghost predicate Balanced(heap: seq<Entry>, fired: seq<Firing>, calls: nat) {
    forall x: nat :: OnLists(heap, x) + Served(fired, x) == if x < calls then 1 else 0
  }

  ghost predicate Shape(w: World) {
    && |w.history| > 0
    && DictOk(w.heap, w.dict)
    && WaitingOk(w.heap, w.dict, w.requests)
    && RequestsOk(w.heap, w.requests)
    && OneEach(w.requests)
  }

  ghost predicate Inv(site: Site, w: World) {
    && Shape(w)
    && EntriesOk(site, w)
    && WaitersOk(w.heap, w.calls, Now(w))
    && AnswersOk(site, w.history, w.requests)
    && JoinedLater(w.heap, w.requests, w.calls)
    && FiringsOk(site, w.calls, w.history, w.fired, w.origins)
    && Balanced(w.heap, w.fired, |w.calls|)
  }

  // ---------------------------------------------------------------- lists of callers

  lemma {:induction false} ListChanged(heap: seq<Entry>, k: nat, e: Entry, x: nat)
    requires k < |heap|
    ensures OnLists(heap[k := e], x) + Count(heap[k].waiting, x) == OnLists(heap, x) + Count(e.waiting, x)
    decreases |heap|
  {
    var last := |heap| - 1;
    var changed := heap[k := e];
    if k < last {
      ListChanged(heap[..last], k, e, x);
      assert changed[..last] == heap[..last][k := e] && changed[last] == heap[last];
    } else {
      assert changed[..last] == heap[..last];
    }
  }

  lemma {:induction false} SameLists(a: seq<Entry>, b: seq<Entry>, x: nat)
    requires |a| == |b| && forall i | 0 <= i < |a| :: a[i].waiting == b[i].waiting
    ensures OnLists(a, x) == OnLists(b, x)
    decreases |a|
  {
    if a != [] {
      SameLists(a[..|a| - 1], b[..|b| - 1], x);
    }
  }

  lemma ServedOne(fired: seq<Firing>, f: Firing, x: nat)
    ensures Served(fired + [f], x) == Served(fired, x) + if f.waiter == x then 1 else 0
  {
    assert (fired + [f])[..|fired|] == fired;
  }

  lemma {:induction false} ServedMore(fired: seq<Firing>, more: seq<Firing>, waiting: seq<nat>, x: nat)
    requires |more| == |waiting| && forall i | 0 <= i < |more| :: more[i].waiter == waiting[i]
    ensures Served(fired + more, x) == Served(fired, x) + Count(waiting, x)
    decreases |waiting|
  {
    if waiting == [] {
      assert fired + more == fired;
    } else {
      var last := |waiting| - 1;
      ServedMore(fired, more[..last], waiting[..last], x);
      assert fired + more == (fired + more[..last]) + [more[last]];
      ServedOne(fired + more[..last], more[last], x);
    }
  }

  // ---------------------------------------------------------------- single operations

  // A tag vouched for at moment `d` is one the entry's own request would be given then.
  lemma FreshenedOk(site: Site, history: seq<Server>, e: Entry, v: int, q: CacheId, d: int, now: int)
    requires 0 <= d <= now < |history| && EntryOk(site, history, e, v)
    requires e.etag == Some(CurrentTag(site, history[d], q))
    ensures EntryOk(site, history, e.(freshAt := Some(now)), Later(v, d))
  {
    if !e.state.Invalid? {
      assert site.index(e.id) == site.index(q);
      assert CurrentTag(site, history[d], e.id) == e.etag.value;
    }
  }

  // A response keeps the entry sound, with the value of an uncached request at the moment it was decided.
  lemma AnsweredOk(site: Site, history: seq<Server>, e: Entry, v: int, d: Decision, now: int)
    requires 0 <= d.at <= now < |history| && EntryOk(site, history, e, v) && e.state.Waiting?
    requires Honest(site, history[d.at], e.id, e.etag, d.response)
    ensures EntryOk(site, history, GotResponse(site, e, d.response, now), NextVouched(v, d))
    ensures !d.response.Broken? ==>
              GotResponse(site, e, d.response, now).parsed == Uncached(site, history[d.at], e.id)
    ensures !GotResponse(site, e, d.response, now).state.Waiting?
  {
  }

  // ---------------------------------------------------------------- each action keeps the invariant

  lemma TickKeeps(site: Site, w: World, server: Server)
    requires Inv(site, w)
    ensures Inv(site, Apply(site, w, Tick(server)))
  {
    var later := w.history + [server];
    forall k | 0 <= k < |w.heap| ensures EntryOk(site, later, w.heap[k], LastVouched(w.vouched, k)) {
      assert EntryOk(site, w.history, w.heap[k], LastVouched(w.vouched, k));
    }
    forall j | 0 <= j < |w.requests| ensures AnswerOk(site, later, w.requests[j]) {
      assert AnswerOk(site, w.history, w.requests[j]);
    }
    forall i | 0 <= i < |w.fired| ensures FiringOk(site, w.calls, later, w.fired[i], w.origins[i]) {
      assert FiringOk(site, w.calls, w.history, w.fired[i], w.origins[i]);
    }
  }

  // The database answers a request; nobody knows of it yet.
  lemma DecideKeeps(site: Site, w: World, k: nat, r: Response)
    requires Inv(site, w) && Enabled(site, w, Decide(k, r))
    ensures Inv(site, Apply(site, w, Decide(k, r)))
  {
    var requests := w.requests[k := w.requests[k].(answer := Some(Decision(r, Now(w))))];
    forall j | 0 <= j < |requests| ensures AnswerOk(site, w.history, requests[j]) {
      assert AnswerOk(site, w.history, w.requests[j]);
    }
    DecidedShape(w, requests);
    assert JoinedLater(w.heap, requests, w.calls);
  }

  lemma DecidedShape(w: World, requests: seq<Request>)
    requires Shape(w) && |requests| == |w.requests|
    requires forall j | 0 <= j < |requests| :: requests[j] == w.requests[j].(answer := requests[j].answer)
    ensures Shape(w.(requests := requests))
  {
    forall n | 0 <= n < |w.heap| && w.heap[n].state.Waiting?
      ensures exists j :: 0 <= j < |requests| && requests[j].entry == n
    {
      var j :| 0 <= j < |w.requests| && w.requests[j].entry == n;
      assert requests[j].entry == n;
    }
  }

  lemma EvictKeeps(site: Site, w: World, gone: set<CacheId>)
    requires Inv(site, w) && Enabled(site, w, Evict(gone))
    ensures Inv(site, Apply(site, w, Evict(gone)))
  {
    var dict := w.dict - gone;
    forall k | 0 <= k < |w.heap| && w.heap[k].state.Waiting?
      ensures w.heap[k].id in dict && dict[w.heap[k].id] == k
    {
      assert w.dict[w.heap[k].id] == k;
    }
  }

  // A further call, before anything is done about it.
  lemma AskedKeeps(site: Site, w: World, c: Call)
    requires WaitersOk(w.heap, w.calls, Now(w)) && FiringsOk(site, w.calls, w.history, w.fired, w.origins)
    requires JoinedLater(w.heap, w.requests, w.calls)
    ensures WaitersOk(w.heap, w.calls + [c], Now(w)) && FiringsOk(site, w.calls + [c], w.history, w.fired, w.origins)
    ensures JoinedLater(w.heap, w.requests, w.calls + [c])
  {
    forall i | 0 <= i < |w.fired| ensures FiringOk(site, w.calls + [c], w.history, w.fired[i], w.origins[i]) {
      assert FiringOk(site, w.calls, w.history, w.fired[i], w.origins[i]);
    }
  }

  lemma WaitKeepsEntry(site: Site, history: seq<Server>, e: Entry, v: int, n: nat, now: int)
    requires EntryOk(site, history, e, v) && !e.state.Invalid?
    ensures EntryOk(site, history, Wait(e, n, now), v)
  {
  }

  // What a call leaves before the caller is put on the entry's list.
  ghost predicate Asked(site: Site, w: World, k: nat) {
    && Shape(w) && EntriesOk(site, w) && |w.calls| > 0 && k < |w.heap|
    && WaitersOk(w.heap, w.calls, Now(w))
    && AnswersOk(site, w.history, w.requests)
    && JoinedLater(w.heap, w.requests, w.calls)
    && FiringsOk(site, w.calls, w.history, w.fired, w.origins)
    && Balanced(w.heap, w.fired, |w.calls| - 1)
    && Joins(w.calls[|w.calls| - 1], w.heap[k], Now(w))
  }

  predicate Joins(c: Call, e: Entry, now: int) {
    c.id == e.id && c.time == now && !e.state.Invalid? && (e.state.Ready? ==> Fresh(e, c.since))
  }

  lemma WaitKeepsShape(w: World, k: nat)
    requires Shape(w) && k < |w.heap| && |w.calls| > 0
    ensures Shape(WaitOn(w, k))
  {
    var heap := WaitOn(w, k).heap;
    forall j | 0 <= j < |heap| && heap[j].state.Waiting?
      ensures heap[j].id in w.dict && w.dict[heap[j].id] == j
      ensures exists i :: 0 <= i < |w.requests| && w.requests[i].entry == j
    {
      assert w.heap[j].state.Waiting?;
    }
  }

  lemma WaitBalances(heap: seq<Entry>, fired: seq<Firing>, k: nat, n: nat, now: int)
    requires k < |heap| && Balanced(heap, fired, n)
    ensures var e := heap[k];
      Balanced(heap[k := Wait(e, n, now)],
               if e.state.Ready? then fired + [Firing(n, e.parsed, now, Reused)] else fired, n + 1)
  {
    var e := heap[k];
    var heap' := heap[k := Wait(e, n, now)];
    var fired' := if e.state.Ready? then fired + [Firing(n, e.parsed, now, Reused)] else fired;
    forall x: nat ensures OnLists(heap', x) + Served(fired', x) == if x < n + 1 then 1 else 0 {
      ListChanged(heap, k, Wait(e, n, now), x);
      assert (e.waiting + [n])[..|e.waiting|] == e.waiting;
      ServedOne(fired, Firing(n, e.parsed, now, Reused), x);
    }
  }

  lemma WaitFires(site: Site, w: World, k: nat)
    requires Asked(site, w, k)
    ensures FiringsOk(site, w.calls, w.history, WaitOn(w, k).fired, WaitOn(w, k).origins)
  {
    var e, n, v := w.heap[k], |w.calls| - 1, LastVouched(w.vouched, k);
    if e.state.Ready? {
      assert EntryOk(site, w.history, e, v);
      assert FiringOk(site, w.calls, w.history, Firing(n, e.parsed, Now(w), Reused), Origin(v, v));
    }
  }

  lemma WaitEntries(site: Site, w: World, k: nat)
    requires Asked(site, w, k)
    ensures EntriesOk(site, WaitOn(w, k))
  {
    WaitKeepsEntry(site, w.history, w.heap[k], LastVouched(w.vouched, k), |w.calls| - 1, Now(w));
  }

  lemma {:induction false} WaitKeeps(site: Site, w: World, k: nat)
    requires Asked(site, w, k)
    ensures Inv(site, WaitOn(w, k))
  {
    var w' := WaitOn(w, k);
    assert w'.calls == w.calls && w'.history == w.history;
    WaitKeepsShape(w, k);
    WaitEntries(site, w, k);
    WaitBalances(w.heap, w.fired, k, |w.calls| - 1, Now(w));
    WaitersStay(w.heap, w.calls, Now(w), k, |w.calls| - 1);
    StillJoined(site, w, k);
    WaitFires(site, w, k);
  }

  lemma WaitersStay(heap: seq<Entry>, calls: seq<Call>, now: int, k: nat, n: nat)
    requires WaitersOk(heap, calls, now) && k < |heap| && n < |calls| && calls[n].id == heap[k].id
               && calls[n].time <= now
    ensures WaitersOk(heap[k := Wait(heap[k], n, now)], calls, now)
  {
  }

  lemma StillJoined(site: Site, w: World, k: nat)
    requires Asked(site, w, k)
    ensures JoinedLater(WaitOn(w, k).heap, w.requests, w.calls)
  {
    forall j | 0 <= j < |w.requests| ensures w.requests[j].sent <= Now(w) {
      assert AnswerOk(site, w.history, w.requests[j]);
    }
  }

  lemma CallKeeps(site: Site, w: World, id: CacheId, since: Option<int>)
    requires Inv(site, w)
    ensures Inv(site, Couchdb(w, id, since))
  {
    AskedKeeps(site, w, Call(id, since, Now(w)));
    var asked := w.(calls := w.calls + [Call(id, since, Now(w))]);
    if !Found(w, id) {
      CallNew(site, w, asked, id);
    } else {
      var k := w.dict[id];
      assert EntryOk(site, w.history, w.heap[k], LastVouched(w.vouched, k));
      if w.heap[k].state.Waiting? || Fresh(w.heap[k], since) {
        WaitKeeps(site, asked, k);
      } else {
        CallAgain(site, w, asked, k);
      }
    }
  }

  // The first request for an id.
  lemma CallNew(site: Site, w: World, asked: World, id: CacheId)
    requires Inv(site, w) && !Found(w, id)
    requires |asked.calls| == |w.calls| + 1 && asked == w.(calls := asked.calls)
    requires asked.calls[|w.calls|].id == id && asked.calls[|w.calls|].time == Now(w)
    requires WaitersOk(w.heap, asked.calls, Now(w)) && FiringsOk(site, asked.calls, w.history, w.fired, w.origins)
    requires JoinedLater(w.heap, w.requests, asked.calls)
    ensures var made := asked.(heap := w.heap + [NewEntry(id)], dict := w.dict[id := |w.heap|]);
            Inv(site, WaitOn(Send(made, |w.heap|), |w.heap|))
  {
    var made := asked.(heap := w.heap + [NewEntry(id)], dict := w.dict[id := |w.heap|]);
    NewEntryShape(w, id, made);
    NewEntryBalances(w.heap, w.fired, |w.calls|, id);
    NewEntryOthers(site, w, made, id);
    SendOthers(site, made, |w.heap|);
    WaitKeeps(site, Send(made, |w.heap|), |w.heap|);
  }

  lemma NewEntryOthers(site: Site, w: World, made: World, id: CacheId)
    requires EntriesOk(site, w) && JoinedLater(w.heap, w.requests, made.calls) && WaitersOk(w.heap, made.calls, Now(w))
    requires RequestsOk(w.heap, w.requests) && made.history == w.history
    requires made.heap == w.heap + [NewEntry(id)] && made.requests == w.requests && made.vouched == w.vouched
    ensures EntriesOk(site, made) && JoinedLater(made.heap, made.requests, made.calls)
    ensures WaitersOk(made.heap, made.calls, Now(w))
  {
    forall k | 0 <= k < |made.heap| ensures EntryOk(site, made.history, made.heap[k], LastVouched(made.vouched, k)) {
      assert k < |w.heap| ==> EntryOk(site, w.history, w.heap[k], LastVouched(w.vouched, k));
    }
  }

  // A request nobody waits for yet has been sent.
  lemma SendOthers(site: Site, w: World, k: nat)
    requires EntriesOk(site, w) && |w.history| > 0 && k < |w.heap| && w.heap[k].waiting == []
    requires AnswersOk(site, w.history, w.requests) && JoinedLater(w.heap, w.requests, w.calls)
    ensures EntriesOk(site, Send(w, k))
    ensures AnswersOk(site, w.history, Send(w, k).requests) && JoinedLater(w.heap, Send(w, k).requests, w.calls)
  {
    var sent := Send(w, k).requests;
    forall j | 0 <= j < |sent| ensures AnswerOk(site, w.history, sent[j]) {
      assert j < |w.requests| ==> AnswerOk(site, w.history, w.requests[j]);
    }
  }

  lemma NewEntryBalances(heap: seq<Entry>, fired: seq<Firing>, n: nat, id: CacheId)
    requires Balanced(heap, fired, n)
    ensures Balanced(heap + [NewEntry(id)], fired, n)
  {
    assert (heap + [NewEntry(id)])[..|heap|] == heap;
  }

  // Revalidation of what is cached.
  lemma CallAgain(site: Site, w: World, asked: World, k: nat)
    requires Inv(site, w) && k < |w.heap| && w.heap[k].state.Ready? && w.heap[k].id in w.dict
               && w.dict[w.heap[k].id] == k
    requires |asked.calls| == |w.calls| + 1 && asked == w.(calls := asked.calls)
    requires asked.calls[|w.calls|].id == w.heap[k].id && asked.calls[|w.calls|].time == Now(w)
    requires WaitersOk(w.heap, asked.calls, Now(w)) && FiringsOk(site, asked.calls, w.history, w.fired, w.origins)
    requires JoinedLater(w.heap, w.requests, asked.calls)
    ensures Inv(site, WaitOn(Send(asked.(heap := w.heap[k := w.heap[k].(state := Waiting)]), k), k))
  {
    var busy := asked.(heap := w.heap[k := w.heap[k].(state := Waiting)]);
    assert EntryOk(site, w.history, w.heap[k], LastVouched(w.vouched, k));
    BusyShape(w, k, busy);
    BusyBalances(w.heap, w.fired, |w.calls|, k);
    BusyOthers(site, w, busy, k);
    SendOthers(site, busy, k);
    WaitKeeps(site, Send(busy, k), k);
  }

  lemma BusyOthers(site: Site, w: World, busy: World, k: nat)
    requires EntriesOk(site, w) && JoinedLater(w.heap, w.requests, busy.calls) && WaitersOk(w.heap, busy.calls, Now(w))
    requires k < |w.heap| && w.heap[k].state.Ready? && busy.heap == w.heap[k := w.heap[k].(state := Waiting)]
    requires busy.history == w.history && busy.requests == w.requests && busy.vouched == w.vouched
    ensures EntriesOk(site, busy) && JoinedLater(busy.heap, busy.requests, busy.calls)
    ensures WaitersOk(busy.heap, busy.calls, Now(w))
  {
    forall i | 0 <= i < |busy.heap| ensures EntryOk(site, busy.history, busy.heap[i], LastVouched(busy.vouched, i)) {
      assert EntryOk(site, w.history, w.heap[i], LastVouched(w.vouched, i));
    }
  }

  lemma BusyBalances(heap: seq<Entry>, fired: seq<Firing>, n: nat, k: nat)
    requires Balanced(heap, fired, n) && k < |heap|
    ensures Balanced(heap[k := heap[k].(state := Waiting)], fired, n)
  {
    forall x: nat ensures OnLists(heap[k := heap[k].(state := Waiting)], x) == OnLists(heap, x) {
      SameLists(heap[k := heap[k].(state := Waiting)], heap, x);
    }
  }

  lemma NewEntryShape(w: World, id: CacheId, made: World)
    requires Shape(w) && !Found(w, id)
    requires made.heap == w.heap + [NewEntry(id)] && made.dict == w.dict[id := |w.heap|]
    requires made.requests == w.requests && made.history == w.history
    ensures Shape(Send(made, |w.heap|))
  {
    var w' := Send(made, |w.heap|);
    forall k | 0 <= k < |w'.heap| && w'.heap[k].state.Waiting?
      ensures w'.heap[k].id in w'.dict && w'.dict[w'.heap[k].id] == k
      ensures exists j :: 0 <= j < |w'.requests| && w'.requests[j].entry == k
    {
      if k < |w.heap| {
        assert w.heap[k].state.Waiting?;
        var j :| 0 <= j < |w.requests| && w.requests[j].entry == k;
        assert w'.requests[j].entry == k;
      } else {
        assert w'.requests[|w.requests|].entry == k;
      }
    }
  }

  lemma BusyShape(w: World, k: nat, busy: World)
    requires Shape(w) && k < |w.heap| && w.heap[k].state.Ready? && w.heap[k].id in w.dict && w.dict[w.heap[k].id] == k
    requires busy.heap == w.heap[k := w.heap[k].(state := Waiting)] && busy.dict == w.dict
    requires busy.requests == w.requests && busy.history == w.history
    ensures Shape(Send(busy, k))
  {
    var w' := Send(busy, k);
    forall i | 0 <= i < |w'.heap| && w'.heap[i].state.Waiting?
      ensures w'.heap[i].id in w'.dict && w'.dict[w'.heap[i].id] == i
      ensures exists j :: 0 <= j < |w'.requests| && w'.requests[j].entry == i
    {
      if i != k {
        assert w.heap[i].state.Waiting?;
        var j :| 0 <= j < |w.requests| && w.requests[j].entry == i;
        assert w'.requests[j].entry == i;
      } else {
        assert w'.requests[|w.requests|].entry == i;
      }
    }
  }

  // The same entries, but the one at n is no longer waiting.
  predicate Settled(heap: seq<Entry>, heap': seq<Entry>, n: nat) {
    && |heap'| == |heap| && n < |heap| && !heap'[n].state.Waiting?
    && (forall i | 0 <= i < |heap| :: heap'[i].id == heap[i].id)
    && (forall i | 0 <= i < |heap| && i != n :: heap'[i].state == heap[i].state && heap'[i].etag == heap[i].etag)
  }

  lemma WaitingStays(heap: seq<Entry>, heap': seq<Entry>, dict: map<CacheId, nat>, requests: seq<Request>, k: nat)
    requires k < |requests| && Settled(heap, heap', requests[k].entry) && WaitingOk(heap, dict, requests)
    ensures WaitingOk(heap', dict, requests[..k] + requests[k + 1..])
  {
    var fewer := requests[..k] + requests[k + 1..];
    forall i | 0 <= i < |heap'| && heap'[i].state.Waiting?
      ensures heap'[i].id in dict && dict[heap'[i].id] == i
      ensures exists j :: 0 <= j < |fewer| && fewer[j].entry == i
    {
      assert heap[i].state.Waiting?;
      var j :| 0 <= j < |requests| && requests[j].entry == i;
      assert fewer[if j < k then j else j - 1] == requests[j];
    }
  }

  lemma RequestsStay(heap: seq<Entry>, heap': seq<Entry>, requests: seq<Request>, k: nat)
    requires k < |requests| && Settled(heap, heap', requests[k].entry) && RequestsOk(heap, requests)
               && OneEach(requests)
    ensures RequestsOk(heap', requests[..k] + requests[k + 1..]) && OneEach(requests[..k] + requests[k + 1..])
  {
    var fewer := requests[..k] + requests[k + 1..];
    forall j | 0 <= j < |fewer|
      ensures fewer[j].entry < |heap'| && heap'[fewer[j].entry].state.Waiting?
      ensures fewer[j].id == heap'[fewer[j].entry].id && fewer[j].ifNoneMatch == heap'[fewer[j].entry].etag
    {
      var m := if j < k then j else j + 1;
      assert fewer[j] == requests[m] && requests[m].entry != requests[k].entry;
    }
  }

  lemma AnswerSettles(site: Site, heap: seq<Entry>, cached: set<nat>, n: nat, r: Response, now: int)
    requires n < |heap|
    ensures Settled(heap, Answer(site, heap, cached, n, r, now), n)
    ensures Answer(site, heap, cached, n, r, now)[n].waiting == []
    ensures forall i | 0 <= i < |heap| && i != n ::
              Answer(site, heap, cached, n, r, now)[i].waiting == heap[i].waiting
  {
  }

  lemma SettledShape(w: World, heap': seq<Entry>, k: nat)
    requires Shape(w) && k < |w.requests| && Settled(w.heap, heap', w.requests[k].entry)
    ensures DictOk(heap', w.dict)
    ensures var fewer := w.requests[..k] + w.requests[k + 1..];
            WaitingOk(heap', w.dict, fewer) && RequestsOk(heap', fewer) && OneEach(fewer)
  {
    WaitingStays(w.heap, heap', w.dict, w.requests, k);
    RequestsStay(w.heap, heap', w.requests, k);
  }

  lemma ArriveShape(site: Site, w: World, k: nat)
    requires Shape(w) && k < |w.requests| && w.requests[k].answer.Some?
    ensures Shape(Arrive(site, w, k))
  {
    var n, r := w.requests[k].entry, w.requests[k].answer.value.response;
    AnswerSettles(site, w.heap, w.dict.Values, n, r, Now(w));
    SettledShape(w, Answer(site, w.heap, w.dict.Values, n, r, Now(w)), k);
  }

  // What is under way for the others was decided and joined as before.
  lemma OthersStay(site: Site, w: World, heap': seq<Entry>, k: nat)
    requires AnswersOk(site, w.history, w.requests) && JoinedLater(w.heap, w.requests, w.calls)
    requires OneEach(w.requests) && k < |w.requests| && |heap'| == |w.heap|
    requires forall i | 0 <= i < |w.heap| && i != w.requests[k].entry :: heap'[i].waiting == w.heap[i].waiting
    ensures var fewer := w.requests[..k] + w.requests[k + 1..];
            AnswersOk(site, w.history, fewer) && JoinedLater(heap', fewer, w.calls)
  {
    var fewer := w.requests[..k] + w.requests[k + 1..];
    forall j | 0 <= j < |fewer|
      ensures AnswerOk(site, w.history, fewer[j])
      ensures exists m :: 0 <= m < |w.requests| && m != k && fewer[j] == w.requests[m]
    {
      var m := if j < k then j else j + 1;
      assert fewer[j] == w.requests[m] && AnswerOk(site, w.history, w.requests[m]);
    }
  }

  lemma ArriveAnswers(site: Site, w: World, k: nat)
    requires Inv(site, w) && Enabled(site, w, Respond(k))
    ensures AnswersOk(site, w.history, Arrive(site, w, k).requests)
    ensures JoinedLater(Arrive(site, w, k).heap, Arrive(site, w, k).requests, w.calls)
  {
    var n, r := w.requests[k].entry, w.requests[k].answer.value.response;
    AnswerSettles(site, w.heap, w.dict.Values, n, r, Now(w));
    OthersStay(site, w, Answer(site, w.heap, w.dict.Values, n, r, Now(w)), k);
  }

  // Entry i once the entries were freshened.
  lemma FreshenKeeps(site: Site, w: World, q: Request, i: nat)
    requires EntriesOk(site, w) && AnswerOk(site, w.history, q) && q.answer.Some? && i < |w.heap|
    ensures var d, v := q.answer.value, LastVouched(w.vouched, i);
      && EntryOk(site, w.history, Freshen(w.heap, w.dict.Values, d.response, Now(w))[i],
                 if Speaks(d.response, w.heap[i]) && i in w.dict.Values then Later(v, d.at) else v)
  {
    var d, e, v := q.answer.value, w.heap[i], LastVouched(w.vouched, i);
    assert EntryOk(site, w.history, e, v);
    if Speaks(d.response, e) && i in w.dict.Values {
      FreshenedOk(site, w.history, e, v, q.id, d.at, Now(w));
    }
  }

  lemma ArriveEntries(site: Site, w: World, k: nat)
    requires Inv(site, w) && Enabled(site, w, Respond(k))
    ensures EntriesOk(site, Arrive(site, w, k))
    ensures var e, d := Arrive(site, w, k).heap[w.requests[k].entry], w.requests[k].answer.value;
            !e.state.Waiting? && (!d.response.Broken? ==> e.parsed == Uncached(site, w.history[d.at], e.id))
  {
    var q := w.requests[k];
    assert AnswerOk(site, w.history, q);
    var w', n, d := Arrive(site, w, k), q.entry, q.answer.value;
    forall i | 0 <= i < |w'.heap| && i != n ensures EntryOk(site, w'.history, w'.heap[i], LastVouched(w'.vouched, i)) {
      FreshenKeeps(site, w, q, i);
    }
    FreshenKeeps(site, w, q, n);
    var e, v := Freshen(w.heap, w.dict.Values, d.response, Now(w))[n], LastVouched(w.vouched, n);
    AnsweredOk(site, w.history, e,
               if Speaks(d.response, w.heap[n]) && n in w.dict.Values then Later(v, d.at) else v, d, Now(w));
  }

  lemma ArriveWaiters(heap: seq<Entry>, heap': seq<Entry>, calls: seq<Call>, now: int, n: nat)
    requires WaitersOk(heap, calls, now) && Settled(heap, heap', n) && heap'[n].waiting == []
    requires forall i | 0 <= i < |heap| && i != n :: heap'[i].waiting == heap[i].waiting
    ensures WaitersOk(heap', calls, now)
  {
  }

  lemma ArriveBalances(site: Site, w: World, k: nat)
    requires Shape(w) && k < |w.requests| && w.requests[k].answer.Some? && Balanced(w.heap, w.fired, |w.calls|)
    ensures Balanced(Arrive(site, w, k).heap, Arrive(site, w, k).fired, |w.calls|)
  {
    var w', n := Arrive(site, w, k), w.requests[k].entry;
    var more := w'.fired[|w.fired|..];
    assert w'.fired == w.fired + more;
    MovedToFired(w.heap, w'.heap, w.fired, more, n, |w.calls|);
  }

  // The callers on the list of one entry are fired, and the list is emptied.
  lemma MovedToFired(heap: seq<Entry>, heap': seq<Entry>, fired: seq<Firing>, more: seq<Firing>, n: nat, calls: nat)
    requires Balanced(heap, fired, calls) && n < |heap| == |heap'| && heap'[n].waiting == []
    requires forall i | 0 <= i < |heap| && i != n :: heap'[i].waiting == heap[i].waiting
    requires |more| == |heap[n].waiting| && forall i | 0 <= i < |more| :: more[i].waiter == heap[n].waiting[i]
    ensures Balanced(heap', fired + more, calls)
  {
    forall x: nat ensures OnLists(heap', x) + Served(fired + more, x) == if x < calls then 1 else 0 {
      ListChanged(heap, n, heap'[n], x);
      SameLists(heap[n := heap'[n]], heap', x);
      ServedMore(fired, more, heap[n].waiting, x);
    }
  }

  lemma ArriveFires(site: Site, w: World, k: nat)
    requires Inv(site, w) && Enabled(site, w, Respond(k))
    ensures FiringsOk(site, w.calls, w.history, Arrive(site, w, k).fired, Arrive(site, w, k).origins)
  {
    var q := w.requests[k];
    var w', n, d := Arrive(site, w, k), q.entry, q.answer.value;
    ArriveEntries(site, w, k);
    assert AnswerOk(site, w.history, q);
    var e, o := w'.heap[n], Origin(q.sent, d.at);
    var more := Fire(w.heap[n].waiting, e.parsed, Now(w), if d.response.Broken? then Lost else Answered);
    forall i | 0 <= i < |more| ensures FiringOk(site, w.calls, w.history, more[i], o) {
      assert w.calls[w.heap[n].waiting[i]].id == e.id;
    }
  }

  lemma {:induction false} RespondKeeps(site: Site, w: World, k: nat)
    requires Inv(site, w) && Enabled(site, w, Respond(k))
    ensures Inv(site, Arrive(site, w, k))
  {
    ArriveEntries(site, w, k);
    ArriveShape(site, w, k);
    ArriveAnswers(site, w, k);
    var n, r := w.requests[k].entry, w.requests[k].answer.value.response;
    AnswerSettles(site, w.heap, w.dict.Values, n, r, Now(w));
    ArriveWaiters(w.heap, Answer(site, w.heap, w.dict.Values, n, r, Now(w)), w.calls, Now(w), n);
    ArriveBalances(site, w, k);
    ArriveFires(site, w, k);
  }

  lemma {:induction false} InvOverRun(site: Site, actions: seq<Action>, ws: seq<World>, i: nat)
    requires IsRun(site, actions, ws) && i < |ws|
    ensures forall j | 0 <= j <= i :: Inv(site, ws[j])
  {
    if i > 0 {
      InvOverRun(site, actions, ws, i - 1);
      match actions[i - 1]
      case Tick(server) => TickKeeps(site, ws[i - 1], server);
      case CallIt(id, since) => CallKeeps(site, ws[i - 1], id, since);
      case Decide(k, r) => DecideKeeps(site, ws[i - 1], k, r);
      case Respond(k) => RespondKeeps(site, ws[i - 1], k);
      case Evict(gone) => EvictKeeps(site, ws[i - 1], gone);
    }
  }
}
