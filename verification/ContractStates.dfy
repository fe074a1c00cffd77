// The states of the contract protocol: which step leads a manager or a contractor to which state, what raises, and
// how timeouts end a contract.

module ContractStates {
  import opened Wrappers
  import opened Contracts
  import opened ContractRuns
  import opened ContractLaws

  // ---------------------------------------------------------------- states

  // The step ends the announcement.
  predicate EndsAnnouncement(m: Manager, a: Action) {
    match a
    case AnnounceExpired => m.state.Announced?
    case BidHookReturned => !m.state.Terminated? && Enough(m)
    case ManagerHears(k, msg) =>
      && (msg.Refusal? || msg.Duplicate?) && m.state.Announced? && k !in m.contractors
      && m.expected.Some? && 0 < m.expected.value <= |m.contractors| + 1
    case _ => false
  }

  predicate Ending(s: ContractState) {
    s.Expired? || s.Cancelled? || s.Aborted? || s.Wtf?
  }

  // The state a manager is in once step `a` is done.
  function StateAfter(m: Manager, a: Action): ContractState {
    if a.ManagerCrash? then Wtf
    else if a.ManagerTimeout? then TimedOut(m)
    else if EndsAnnouncement(m, a) then (if SomeOpenBid(m.contractors) then Closed else Expired)
    else if Completes(m, a) then Completed
    else if (a.CallCancel? || (a.ManagerHears? && a.msg.Defection?)) && m.state.Granted? then Cancelled
    else if a.CallTerminate? && !Ending(m.state) then Terminated
    else if a.CallGrant? && (m.state.Announced? || m.state.Closed?) then Granted
    else if a.CallAnnounce? && m.state.Initiated? then Announced
    else m.state
  }

  function TimedOut(m: Manager): ContractState {
    if m.timer == Some(InitiateTimeout) then Wtf
    else if m.timer == Some(ClosedTimeout) then Expired
    else if m.timer == Some(GrantTimeout) then Aborted
    else m.state
  }

  /** The state graph: which step takes a manager to which state, and that no other step does. */
  lemma StatesFollow(m: Manager, a: Action)
    requires m.outbox.Keys == m.contractors.Keys
    ensures ApplyManager(m, a).state == StateAfter(m, a)
  {
    match a
    case BidHookReturned => CheckDecides(m);
    case AnnounceExpired => ExpiryDecides(m);
    case ManagerHears(k, FinalReport(r)) => ReportFollows(m, k, r);
    case ManagerHears(k, msg) => HearingFollows(m, k, msg);
    case _ =>
  }

  lemma ReportFollows(m: Manager, k: Key, r: int)
    requires m.outbox.Keys == m.contractors.Keys
    ensures OnReport(m, k, r).state == StateAfter(m, ManagerHears(k, FinalReport(r)))
  {
    if m.state.Granted? && k in m.contractors {
      NobodyOut(m.contractors, k, r);
    }
  }

  lemma HearingFollows(m: Manager, k: Key, msg: ToManager)
    requires m.outbox.Keys == m.contractors.Keys && !msg.FinalReport?
    ensures OnMessage(m, k, msg).manager.state == StateAfter(m, ManagerHears(k, msg))
  {
    if msg.Refusal? || msg.Duplicate? {
      AnswerDecides(m, k);
    }
  }

  /** A manager is finalized when it is told to be, fails, or is terminated before its end; with that its timeout
      is cancelled. */
  lemma FinalizedWhen(m: Manager, a: Action)
    requires m.outbox.Keys == m.contractors.Keys
    ensures var n := ApplyManager(m, a);
      && (n.finalized <==>
            m.finalized || a.ManagerFinalize? || a.ManagerCrash? || (a.CallTerminate? && !Ending(m.state)))
      && (n.finalized && !m.finalized ==> n.timer == None)
  {
    if a.ManagerHears? {
      HearingKeepsGoing(m, a.k, a.msg);
    }
  }

  lemma HearingKeepsGoing(m: Manager, k: Key, msg: ToManager)
    requires m.outbox.Keys == m.contractors.Keys
    ensures OnMessage(m, k, msg).manager.finalized == m.finalized
  {
  }

  /** The calls and messages that end in an exception: a verdict that names an unknown bid, and a cancellation or
      defection with nobody at work. A report never does. */
  lemma RaisesWhen(m: Manager, k: Key, bids: seq<Key>, report: int)
    requires m.outbox.Keys == m.contractors.Keys
    ensures Reject(m, k).raised <==> (m.state.Announced? || m.state.Granted? || m.state.Closed?) && k !in m.contractors
    ensures GrantBids(m, bids).raised <==>
      (m.state.Announced? || m.state.Closed?) && exists j | j in bids :: j !in m.contractors
    ensures Cancel(m).raised <==> (m.state.Granted? || m.state.Cancelled?) && NobodyWorks(m.contractors)
    ensures OnDefection(m, k).raised <==> m.state.Granted? && k in m.contractors && NobodyWorks(m.contractors)
    ensures !OnMessage(m, k, FinalReport(report)).raised
  {
    WorkersListed(m.contractors);
    if KnownPrefix(bids, m.contractors.Keys) == |bids| {
      assert forall j | j in bids :: j in m.contractors;
    }
  }

  predicate NobodyWorks(records: map<Key, Record>) {
    forall k | k in records :: !Working(records[k].state)
  }

  lemma WorkersListed(records: map<Key, Record>)
    ensures WithState(records, GrantSent) + WithState(records, Reported) == {} <==> NobodyWorks(records)
  {
    if !NobodyWorks(records) {
      var k :| k in records && Working(records[k].state);
      assert k in WithState(records, GrantSent) + WithState(records, Reported);
    }
  }

  // ---------------------------------------------------------------- timeouts

  // The timeout a manager waits for once step `a` is done.
  function TimerAfter(m: Manager, a: Action): Option<Timeout> {
    if a.ManagerTimeout? then None
    else if !m.finalized && (a.ManagerFinalize? || a.ManagerCrash? || (a.CallTerminate? && !Ending(m.state))) then None
    else if a.CallAnnounce? && m.state.Initiated? then Some(AnnounceTimeout)
    else if EndsAnnouncement(m, a) && SomeOpenBid(m.contractors) then Some(ClosedTimeout)
    else if (EndsAnnouncement(m, a) && !a.AnnounceExpired?) || Completes(m, a) then None
    else if a.CallGrant? && (m.state.Announced? || m.state.Closed?) then Some(GrantTimeout)
    else m.timer
  }

  /** The timeouts a manager sets and cancels, step by step. */
  lemma TimersFollow(m: Manager, a: Action)
    requires m.outbox.Keys == m.contractors.Keys
    ensures ApplyManager(m, a).timer == TimerAfter(m, a)
  {
    match a
    case BidHookReturned => CheckDecides(m);
    case AnnounceExpired => ExpiryDecides(m);
    case ManagerHears(k, FinalReport(r)) => ReportTimer(m, k, r);
    case ManagerHears(k, msg) => HearingTimer(m, k, msg);
    case _ => OwnStepTimer(m, a);
  }

  lemma OwnStepTimer(m: Manager, a: Action)
    requires m.outbox.Keys == m.contractors.Keys && !a.BidHookReturned? && !a.AnnounceExpired? && !a.ManagerHears?
    ensures ApplyManager(m, a).timer == TimerAfter(m, a)
  {
    assert !EndsAnnouncement(m, a) && !Completes(m, a);
  }

  lemma ReportTimer(m: Manager, k: Key, r: int)
    requires m.outbox.Keys == m.contractors.Keys
    ensures OnReport(m, k, r).timer == TimerAfter(m, ManagerHears(k, FinalReport(r)))
  {
    if m.state.Granted? && k in m.contractors {
      NobodyOut(m.contractors, k, r);
    }
  }

  lemma HearingTimer(m: Manager, k: Key, msg: ToManager)
    requires m.outbox.Keys == m.contractors.Keys && !msg.FinalReport?
    ensures OnMessage(m, k, msg).manager.timer == TimerAfter(m, ManagerHears(k, msg))
  {
    if msg.Refusal? || msg.Duplicate? {
      AnswerDecides(m, k);
    }
  }

  // Until it is finalized a manager has set the timeout its state calls for.
  predicate TimerFits(m: Manager) {
    !m.finalized ==>
      && (m.state.Initiated? ==> m.timer == Some(InitiateTimeout))
      && (m.state.Announced? ==> m.timer == None || m.timer == Some(AnnounceTimeout))
      && (m.state.Closed? ==> m.timer == Some(ClosedTimeout))
      && (m.state.Granted? ==> m.timer == Some(GrantTimeout))
      && (m.state.Cancelled? ==> m.timer == None || m.timer == Some(GrantTimeout))
      && (m.state.Completed? ==> m.timer == None)
  }

  lemma TimerKeepsFitting(m: Manager, a: Action)
    requires m.outbox.Keys == m.contractors.Keys && TimerFits(m)
    ensures TimerFits(ApplyManager(m, a))
  {
    match a
    case BidHookReturned => CheckDecides(m);
    case AnnounceExpired => ExpiryDecides(m);
    case ManagerHears(k, msg) => TimerFitsHearing(m, k, msg);
    case _ =>
  }

  lemma TimerFitsHearing(m: Manager, k: Key, msg: ToManager)
    requires m.outbox.Keys == m.contractors.Keys && TimerFits(m)
    ensures TimerFits(OnMessage(m, k, msg).manager)
  {
    if msg.Refusal? || msg.Duplicate? {
      AnswerDecides(m, k);
    }
  }

  lemma {:induction false} TimerFitsOverRun(ws: seq<World>, acts: seq<Action>, i: nat)
    requires IsRun(ws, acts) && i < |ws|
    ensures forall j | 0 <= j <= i :: TimerFits(ws[j].manager)
  {
    if i > 0 {
      TimerFitsOverRun(ws, acts, i - 1);
      assert IsStep(ws[i - 1], acts[i - 1], ws[i]);
      TimerKeepsFitting(ws[i - 1].manager, acts[i - 1]);
    }
  }

  /** Over a run: a timeout ends a contract that nobody pursued. One never announced fails, one that was closed and
      never granted expires, and a granted one that is not completed is aborted. */
  lemma TimeoutEnds(ws: seq<World>, acts: seq<Action>)
    requires IsRun(ws, acts)
    ensures forall i | 0 <= i < |acts| && acts[i].ManagerTimeout? && !ws[i].manager.finalized ::
      var m, n := ws[i].manager, ws[i + 1].manager;
      && (m.state.Initiated? ==> n.state.Wtf?) && (m.state.Closed? ==> n.state.Expired?)
      && (m.state.Granted? ==> n.state.Aborted?) && (m.state.Announced? || m.state.Completed? ==> n.state == m.state)
      && n.timer == None
  {
    TimerFitsOverRun(ws, acts, |acts|);
    forall i | 0 <= i < |acts| ensures IsStep(ws[i], acts[i], ws[i + 1]) && TimerFits(ws[i].manager) {
    }
  }

  // ---------------------------------------------------------------- the contractor

  // The state a contractor is in once step `a` of its is done; `timer` is the one that was running.
  function PeerStateAfter(s: ContractState, timer: Option<ContractState>, a: Action): ContractState {
    match a
    case PeerHearsAnnouncement(_) => if s.Initiated? then Announced else s
    case CallBid(_) => if s.Announced? then Bid else s
    case CallRefuse(_) => if s.Announced? then Refused else s
    case CallDefect(_) => if s.Granted? then Defected else s
    case CallComplete(_, _) => if s.Granted? then Completed else s
    case PeerHears(_, Rejection) => if s.Bid? then Rejected else s
    case PeerHears(_, Grant) => if s.Bid? then Granted else s
    case PeerHears(_, Cancellation) => if s.Granted? then Cancelled else if s.Completed? then Aborted else s
    case PeerHears(_, Acknowledgement) => if s.Completed? then Acknowledged else s
    case PeerTimeout(_) => if timer.Some? then timer.value else s
    case PeerCrash(_) => Wtf
    case _ => s
  }

  // The messages a contractor hands over in it: each together with the one state change that it tells of.
  function PeerSends(s: ContractState, a: Action): set<ToManager> {
    match a
    case CallBid(_) => if s.Announced? then {BidMessage} else {}
    case CallRefuse(_) => if s.Announced? then {Refusal} else {}
    case CallDefect(_) => if s.Granted? then {Defection} else {}
    case CallComplete(_, report) => if s.Granted? then {FinalReport(report)} else {}
    case _ => {}
  }

  // The steps after which a contractor has nothing left to do.
  predicate PeerEnds(c: Contractor, a: Action) {
    a.PeerFinalize? || a.PeerCrash? || (a.CallRefuse? && c.state.Announced?) || (a.CallDefect? && c.state.Granted?)
  }

  /** The contractor's side, in every step of every run: its state follows the graph, it hands over what tells of
      that and nothing else, and it is finalized when it refuses, defects or fails, its timeout cancelled. */
  lemma PeersFollow(ws: seq<World>, acts: seq<Action>, i: nat, k: Key)
    requires IsRun(ws, acts) && i < |acts| && ByPeer(acts[i]) && acts[i].k == k
    ensures k in ws[i].peers && k in ws[i + 1].peers
    ensures var c, d := ws[i].peers[k], ws[i + 1].peers[k];
      && d.state == PeerStateAfter(c.state, c.timer, acts[i])
      && d.sent == c.sent + PeerSends(c.state, acts[i])
      && (d.finalized <==> c.finalized || PeerEnds(c, acts[i])) && (d.finalized && !c.finalized ==> d.timer == None)
  {
    assert IsStep(ws[i], acts[i], ws[i + 1]);
  }

  // Until it is finalized a contractor has set the timeout that will end its state.
  predicate PeerTimerFits(c: Contractor) {
    !c.finalized ==>
      && (c.state.Announced? ==> c.timer == Some(ContractState.Closed))
      && (c.state.Bid? || c.state.Granted? ==> c.timer == Some(Expired))
      && (c.state.Completed? ==> c.timer == Some(Aborted))
      && (c.timer.Some? ==> c.timer.value.Closed? || c.timer.value.Expired? || c.timer.value.Aborted?)
  }

  lemma {:induction false} PeerTimersOverRun(ws: seq<World>, acts: seq<Action>, i: nat)
    requires IsRun(ws, acts) && i < |ws|
    ensures forall k | k in ws[i].peers :: PeerTimerFits(ws[i].peers[k])
  {
    if i > 0 {
      PeerTimersOverRun(ws, acts, i - 1);
      assert IsStep(ws[i - 1], acts[i - 1], ws[i]);
      if ByPeer(acts[i - 1]) {
        PeerTimerKeepsFitting(ws[i - 1].peers[acts[i - 1].k], acts[i - 1]);
      }
    }
  }

  lemma PeerTimerKeepsFitting(c: Contractor, a: Action)
    requires PeerTimerFits(c)
    ensures PeerTimerFits(ApplyPeer(c, a))
  {
  }

  /** A timeout ends a contractor that hears nothing further: one that has not answered closes, one waiting for a
      verdict or at work expires, and one waiting for the acknowledgement is aborted. */
  lemma PeerTimeoutEnds(ws: seq<World>, acts: seq<Action>, i: nat, k: Key)
    requires IsRun(ws, acts) && i < |acts| && acts[i] == PeerTimeout(k) && k in ws[i].peers && !ws[i].peers[k].finalized
    ensures k in ws[i + 1].peers && TimedOutPeer(ws[i].peers[k], ws[i + 1].peers[k])
  {
    PeerTimersOverRun(ws, acts, i);
    assert IsStep(ws[i], acts[i], ws[i + 1]);
  }

  predicate TimedOutPeer(c: Contractor, d: Contractor) {
    && (c.state.Announced? ==> d.state.Closed?) && (c.state.Bid? || c.state.Granted? ==> d.state.Expired?)
    && (c.state.Completed? ==> d.state.Aborted?) && d.timer == None
  }
}
