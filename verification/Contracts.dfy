// The contract protocol: one manager, any number of contractors.
//
// This file gives the two state machines as functions on values. The classes of
// AgencyContracts.dfy change their fields step by step and are proved to do exactly
// what these functions say; ContractRuns.dfy composes the functions into runs.

module Contracts {
  import opened Wrappers

  // A contractor is known to the manager by the key of its reply address.
  type Key = nat

  // States of either protocol medium.
  datatype ContractState =
    | Initiated | Announced | Closed | Bid | Refused | Delegated | Rejected | Granted
    | Expired | Completed | Terminated | Defected | Cancelled | Acknowledged | Aborted | Wtf

  // States of the record a manager keeps for each bidder.
  datatype RecordState =
    | Bidding | Refusing | RejectedBid | Elected | GrantSent | Reported | CancelSent | AckSent

  datatype ToContractor = Rejection | Grant | Cancellation | Acknowledgement

  datatype ToManager = BidMessage | Refusal | Duplicate | FinalReport(report: int) | Defection

  datatype Record = Record(state: RecordState, report: Option<int>)

  // What the delayed call of the manager will do when it fires.
  datatype Timeout = InitiateTimeout | AnnounceTimeout | ClosedTimeout | GrantTimeout

  /** The manager. `outbox[k]` lists, in order, what has been handed over for contractor `k`;
      the announcement goes to all recipients at once and is kept apart. */
  datatype Manager = Manager(
    state: ContractState,
    contractors: map<Key, Record>,
    outbox: map<Key, seq<ToContractor>>,
    timer: Option<Timeout>,
    expected: Option<nat>,
    finalized: bool)

  // The outcome of a call: the new manager, and whether the call ended in an exception.
  datatype Outcome = Outcome(manager: Manager, raised: bool)

  function InitialManager(expected: Option<nat>): Manager {
    Manager(Initiated, map[], map[], Some(InitiateTimeout), expected, false)
  }

  // ---------------------------------------------------------------- events of a record

  // The event table of a record: the state after `msg`, or None when it is refused.
  function Fire(s: RecordState, msg: ToContractor): Option<RecordState> {
    match msg
    case Rejection => if s.Bidding? then Some(RejectedBid) else None
    case Grant => if s.Bidding? then Some(GrantSent) else None
    case Cancellation => if s.GrantSent? || s.Reported? then Some(CancelSent) else None
    case Acknowledgement => if s.Reported? then Some(AckSent) else None
  }

  function RecordEvent(r: Record, msg: ToContractor): Record {
    var next := Fire(r.state, msg);
    if next.Some? then r.(state := next.value) else r
  }

  function RecordReport(r: Record, report: int): Record {
    if r.state.GrantSent? then Record(Reported, Some(report)) else r
  }

  // One event given to each record of `keys`; a record that refuses it sends nothing.
  function SendAll(m: Manager, keys: set<Key>, msg: ToContractor): Manager
    requires m.outbox.Keys == m.contractors.Keys
  {
    m.(contractors := EventAll(m.contractors, keys, msg),
       outbox := HandOverAll(m.contractors, m.outbox, keys, msg))
  }

  function EventAll(records: map<Key, Record>, keys: set<Key>, msg: ToContractor): map<Key, Record> {
    map k | k in records :: if k in keys then RecordEvent(records[k], msg) else records[k]
  }

  function HandOverAll(records: map<Key, Record>, outbox: map<Key, seq<ToContractor>>,
                       keys: set<Key>, msg: ToContractor): map<Key, seq<ToContractor>>
    requires outbox.Keys == records.Keys
  {
    map k | k in records ::
      if k in keys && Fire(records[k].state, msg).Some? then outbox[k] + [msg] else outbox[k]
  }

  function WithState(records: map<Key, Record>, s: RecordState): set<Key> {
    set k | k in records && records[k].state == s
  }

  function AddRecord(m: Manager, k: Key, s: RecordState): Manager {
    m.(contractors := m.contractors[k := Record(s, None)], outbox := m.outbox[k := []])
  }

  // ---------------------------------------------------------------- the manager's own steps

  function Finalize(m: Manager): Manager {
    if m.finalized then m else m.(finalized := true, timer := None)
  }

  function Announce(m: Manager): Manager {
    if m.state.Initiated? then m.(state := Announced, timer := Some(AnnounceTimeout)) else m
  }

  function Reject(m: Manager, k: Key): Outcome
    requires m.outbox.Keys == m.contractors.Keys
  {
    if !(m.state.Announced? || m.state.Granted? || m.state.Closed?) then Outcome(m, false)
    else if k !in m.contractors then Outcome(m, true)
    else Outcome(SendAll(m, {k}, Rejection), false)
  }

  // How many bids of the list precede the first one without a record.
  function KnownPrefix(bids: seq<Key>, known: set<Key>): (n: nat)
    ensures n <= |bids|
    ensures forall i | 0 <= i < n :: bids[i] in known
    ensures n < |bids| ==> bids[n] !in known
  {
    if bids == [] || bids[0] !in known then 0 else 1 + KnownPrefix(bids[1..], known)
  }

  function Elements(bids: seq<Key>): set<Key> {
    set k | k in bids
  }

  function GrantBids(m: Manager, bids: seq<Key>): Outcome
    requires m.outbox.Keys == m.contractors.Keys
  {
    if !(m.state.Closed? || m.state.Announced?) then Outcome(m, false)
    else
      var open := m.(state := Granted, timer := Some(GrantTimeout));
      var n := KnownPrefix(bids, m.contractors.Keys);
      var granted := SendAll(open, Elements(bids[..n]), Grant);
      if n < |bids| then Outcome(granted, true)
      else Outcome(SendAll(granted, m.contractors.Keys, Rejection), false)
  }

  function Elect(m: Manager, k: Key): Manager {
    if k !in m.contractors then m
    else m.(contractors := m.contractors[k := m.contractors[k].(state := Elected)])
  }

  function Cancel(m: Manager): Outcome
    requires m.outbox.Keys == m.contractors.Keys
  {
    if !(m.state.Granted? || m.state.Cancelled?) then Outcome(m, false)
    else
      // With nothing to cancel the reason variable of the loop is unbound after it.
      Outcome(SendAll(m.(state := Cancelled), m.contractors.Keys, Cancellation),
              WithState(m.contractors, GrantSent) + WithState(m.contractors, Reported) == {})
  }

  function Terminate(m: Manager): Manager
    requires m.outbox.Keys == m.contractors.Keys
  {
    CloseDown(SendAll(m, m.contractors.Keys, Rejection))
  }

  // The second half of terminate(): the contract ends unless it is ending already.
  function CloseDown(m: Manager): Manager {
    if m.state.Expired? || m.state.Cancelled? || m.state.Aborted? || m.state.Wtf? then m
    else Finalize(m.(state := Terminated))
  }

  function GotoClosedOrExpired(m: Manager): Manager {
    if WithState(m.contractors, Bidding) != {} then m.(state := Closed, timer := Some(ClosedTimeout))
    else m.(state := Expired)
  }

  function CheckIfShouldClose(m: Manager): Manager {
    if m.state.Terminated? then m
    else if m.expected.Some? && m.expected.value > 0 && |m.contractors| >= m.expected.value
    then GotoClosedOrExpired(m.(timer := None))
    else m
  }

  function OnAnnounceExpire(m: Manager): Manager {
    if m.state.Announced? then GotoClosedOrExpired(m) else m
  }

  // The delayed call fires: the state it carries is entered.
  function FireTimeout(m: Manager): Manager {
    match m.timer
    case None => m
    case Some(InitiateTimeout) => m.(state := Wtf, timer := None)
    case Some(AnnounceTimeout) => m.(timer := None)
    case Some(ClosedTimeout) => m.(state := Expired, timer := None)
    case Some(GrantTimeout) => m.(state := Aborted, timer := None)
  }

  // An agent-side call failed.
  function Crash(m: Manager): Manager {
    Finalize(m.(state := Wtf))
  }

  // ---------------------------------------------------------------- messages to the manager

  function OnBid(m: Manager, k: Key): Outcome {
    if !m.state.Announced? then Outcome(m, false)
    else if k in m.contractors then Outcome(m, true)
    else Outcome(AddRecord(m, k, Bidding), false)
  }

  function OnRefusal(m: Manager, k: Key): Outcome {
    if !m.state.Announced? then Outcome(m, false)
    else if k in m.contractors then Outcome(m, true)
    else Outcome(CheckIfShouldClose(AddRecord(m, k, Refusing)), false)
  }

  function OnDuplicate(m: Manager, k: Key): Outcome {
    if !m.state.Announced? || k in m.contractors then Outcome(m, false) else OnRefusal(m, k)
  }

  function Complete(m: Manager): Manager
    requires m.outbox.Keys == m.contractors.Keys
  {
    SendAll(m.(state := Completed, timer := None), m.contractors.Keys, Acknowledgement)
  }

  function OnReport(m: Manager, k: Key, report: int): Manager
    requires m.outbox.Keys == m.contractors.Keys
  {
    if !m.state.Granted? || k !in m.contractors then m
    else
      var noted := m.(contractors := m.contractors[k := RecordReport(m.contractors[k], report)]);
      if WithState(noted.contractors, GrantSent) == {} then Complete(noted) else noted
  }

  function OnDefection(m: Manager, k: Key): Outcome
    requires m.outbox.Keys == m.contractors.Keys
  {
    if !m.state.Granted? then Outcome(m, false)
    else if k !in m.contractors then Outcome(m.(state := Cancelled), false)
    else Cancel(m.(state := Cancelled))
  }

  function OnMessage(m: Manager, k: Key, msg: ToManager): Outcome
    requires m.outbox.Keys == m.contractors.Keys
  {
    match msg
    case BidMessage => OnBid(m, k)
    case Refusal => OnRefusal(m, k)
    case Duplicate => OnDuplicate(m, k)
    case FinalReport(r) => Outcome(OnReport(m, k, r), false)
    case Defection => OnDefection(m, k)
  }

  // ---------------------------------------------------------------- the contractor

  /** A contractor medium. `sent` is what it has handed over to the manager; `timer` is the state
      its delayed call would enter. */
  datatype Contractor = Contractor(
    state: ContractState,
    timer: Option<ContractState>,
    finalized: bool,
    sent: set<ToManager>)

  function InitialContractor(): Contractor {
    Contractor(Initiated, None, false, {})
  }

  function FinalizePeer(c: Contractor): Contractor {
    if c.finalized then c else c.(finalized := true, timer := None)
  }

  function HearAnnouncement(c: Contractor): Contractor {
    if c.state.Initiated? then c.(state := Announced, timer := Some(Closed)) else c
  }

  function PlaceBid(c: Contractor): Contractor {
    if c.state.Announced? then c.(state := Bid, timer := Some(Expired), sent := c.sent + {BidMessage}) else c
  }

  function Refuse(c: Contractor): Contractor {
    if c.state.Announced? then FinalizePeer(c.(state := Refused, sent := c.sent + {Refusal})) else c
  }

  function Defect(c: Contractor): Contractor {
    if c.state.Granted? then FinalizePeer(c.(state := Defected, sent := c.sent + {Defection})) else c
  }

  function ReportWork(c: Contractor, report: int): Contractor {
    if c.state.Granted?
    then c.(state := Completed, timer := Some(Aborted), sent := c.sent + {FinalReport(report)})
    else c
  }

  function Hear(c: Contractor, msg: ToContractor): Contractor {
    match msg
    case Rejection => if c.state.Bid? then c.(state := Rejected) else c
    case Grant => if c.state.Bid? then c.(state := Granted, timer := Some(Expired)) else c
    case Cancellation =>
      if c.state.Granted? then c.(state := Cancelled)
      else if c.state.Completed? then c.(state := Aborted)
      else c
    case Acknowledgement => if c.state.Completed? then c.(state := Acknowledged) else c
  }

  function FirePeerTimeout(c: Contractor): Contractor {
    if c.timer.Some? then c.(state := c.timer.value, timer := None) else c
  }

  function CrashPeer(c: Contractor): Contractor {
    FinalizePeer(c.(state := Wtf))
  }
}
