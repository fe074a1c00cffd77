// Runs of the contract protocol: one manager, any number of contractors, and a network that
// may delay, reorder, repeat or lose every message. A message that was handed over stays
// available for delivery for ever; nothing obliges the network to deliver it.

module ContractRuns {
  import opened Wrappers
  import opened Contracts

  // `announced` tells whether the announcement has been published; `peers` holds the
  // contractors that have been created by hearing of it.
  datatype World = World(manager: Manager, announced: bool, peers: map<Key, Contractor>)

  datatype Action =
    | CallAnnounce | CallReject(k: Key) | CallGrant(bids: seq<Key>) | CallElect(k: Key)
    | CallCancel | CallTerminate
    | AnnounceExpired | BidHookReturned | ManagerTimeout | ManagerFinalize | ManagerCrash
    | ManagerHears(k: Key, msg: ToManager)
    | Spawn(k: Key) | PeerHearsAnnouncement(k: Key) | PeerHears(k: Key, heard: ToContractor)
    | CallBid(k: Key) | CallRefuse(k: Key) | CallDefect(k: Key) | CallComplete(k: Key, report: int)
    | PeerTimeout(k: Key) | PeerFinalize(k: Key) | PeerCrash(k: Key)

  function Init(expected: Option<nat>): World {
    World(InitialManager(expected), false, map[])
  }

  // What the rest of the system can do. Duplicate is sent by the agent itself, at any time.
  predicate Enabled(w: World, a: Action) {
    match a
    case ManagerHears(k, msg) => msg.Duplicate? || (k in w.peers && msg in w.peers[k].sent)
    case Spawn(k) => w.announced && k !in w.peers
    case PeerHearsAnnouncement(k) => w.announced && k in w.peers
    case PeerHears(k, msg) => k in w.peers && k in w.manager.outbox && msg in w.manager.outbox[k]
    case CallBid(k) => k in w.peers
    case CallRefuse(k) => k in w.peers
    case CallDefect(k) => k in w.peers
    case CallComplete(k, _) => k in w.peers
    case PeerTimeout(k) => k in w.peers
    case PeerFinalize(k) => k in w.peers
    case PeerCrash(k) => k in w.peers
    case _ => true
  }

  // What the manager's agent-side code respects: a list of grants with an unknown bid names all open bids
  // before it, and a bid is handed over only while nothing has been sent to its contractor.
  predicate Disciplined(w: World, a: Action) {
    match a
    case CallGrant(bids) => CompleteGrant(w.manager, bids)
    case CallElect(k) => k in w.manager.contractors && k in w.manager.outbox ==> w.manager.outbox[k] == []
    case _ => true
  }

  // The list has no unknown bid, or no open bid is left when grant() stops at the first unknown one.
  predicate CompleteGrant(m: Manager, bids: seq<Key>) {
    var n := KnownPrefix(bids, m.contractors.Keys);
    || !(m.state.Closed? || m.state.Announced?)
    || n == |bids|
    || forall k | k in m.contractors && m.contractors[k].state.Bidding? :: k in bids[..n]
  }

  function ApplyManager(m: Manager, a: Action): Manager
    requires m.outbox.Keys == m.contractors.Keys
  {
    match a
    case CallAnnounce => Announce(m)
    case CallReject(k) => Reject(m, k).manager
    case CallGrant(bids) => GrantBids(m, bids).manager
    case CallElect(k) => Elect(m, k)
    case CallCancel => Cancel(m).manager
    case CallTerminate => Terminate(m)
    case AnnounceExpired => OnAnnounceExpire(m)
    case BidHookReturned => CheckIfShouldClose(m)
    case ManagerTimeout => FireTimeout(m)
    case ManagerFinalize => Finalize(m)
    case ManagerCrash => Crash(m)
    case ManagerHears(k, msg) => OnMessage(m, k, msg).manager
    case _ => m
  }

  function ApplyPeer(c: Contractor, a: Action): Contractor {
    match a
    case PeerHearsAnnouncement(_) => HearAnnouncement(c)
    case PeerHears(_, msg) => Hear(c, msg)
    case CallBid(_) => PlaceBid(c)
    case CallRefuse(_) => Refuse(c)
    case CallDefect(_) => Defect(c)
    case CallComplete(_, r) => ReportWork(c, r)
    case PeerTimeout(_) => FirePeerTimeout(c)
    case PeerFinalize(_) => FinalizePeer(c)
    case PeerCrash(_) => CrashPeer(c)
    case _ => c
  }

  predicate ByPeer(a: Action) {
    a.PeerHearsAnnouncement? || a.PeerHears? || a.CallBid? || a.CallRefuse? || a.CallDefect?
    || a.CallComplete? || a.PeerTimeout? || a.PeerFinalize? || a.PeerCrash?
  }

  function Apply(w: World, a: Action): World
    requires w.manager.outbox.Keys == w.manager.contractors.Keys
    requires Enabled(w, a)
  {
    if ByPeer(a) then w.(peers := w.peers[a.k := ApplyPeer(w.peers[a.k], a)])
    else if a.Spawn? then w.(peers := w.peers[a.k := InitialContractor()])
    else World(ApplyManager(w.manager, a),
               w.announced || (a.CallAnnounce? && w.manager.state.Initiated?),
               w.peers)
  }

  ghost predicate Starts(w: World) {
    exists expected :: w == Init(expected)
  }

  predicate IsStep(w: World, a: Action, after: World) {
    w.manager.outbox.Keys == w.manager.contractors.Keys && Enabled(w, a) && after == Apply(w, a)
  }

  ghost predicate IsRun(ws: seq<World>, acts: seq<Action>) {
    && |ws| == |acts| + 1
    && Starts(ws[0])
    && forall i {:trigger acts[i]} | 0 <= i < |acts| ::
         IsStep(ws[i], acts[i], ws[i + 1])
  }

  ghost predicate IsDisciplinedRun(ws: seq<World>, acts: seq<Action>) {
    && IsRun(ws, acts)
    && forall i {:trigger acts[i]} | 0 <= i < |acts| :: Disciplined(ws[i], acts[i])
  }
}
