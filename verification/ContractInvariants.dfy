// What every disciplined step of the contract protocol keeps: the manager's records and messages, and what both
// parties believe of each other.

module ContractInvariants {
  import opened Wrappers
  import opened Contracts
  import opened ContractRuns

  // ---------------------------------------------------------------- the manager's invariant

  // Everything ever handed over for a contractor whose record is in state `s`.
  function Script(s: RecordState): seq<ToContractor> {
    match s
    case Bidding | Refusing | Elected => []
    case RejectedBid => [Rejection]
    case GrantSent | Reported => [Grant]
    case CancelSent => [Grant, Cancellation]
    case AckSent => [Grant, Acknowledgement]
  }

  predicate WasGranted(r: Record) {
    r.state.GrantSent? || r.state.Reported? || r.state.CancelSent? || r.state.AckSent?
  }

  ghost predicate RecordInv(r: Record, sent: seq<ToContractor>) {
    && sent == Script(r.state)
    && (r.state.Reported? || r.state.AckSent? ==> r.report.Some?)
    && (r.report.Some? ==> r.state.Reported? || r.state.AckSent? || r.state.CancelSent?)
  }

  // Before the verdict: announcing, or deciding among the bids.
  predicate Open(s: ContractState) {
    s.Initiated? || s.Announced? || s.Closed?
  }

  ghost predicate Undecided(records: map<Key, Record>) {
    exists k | k in records :: records[k].state.Bidding?
  }

  ghost predicate RecordsInv(m: Manager) {
    && m.outbox.Keys == m.contractors.Keys
    && forall k | k in m.contractors :: RecordInv(m.contractors[k], m.outbox[k])
  }

  // How the state of the manager and the states of its records go together.
  ghost predicate PhaseInv(s: ContractState, records: map<Key, Record>) {
    && (s.Granted? ==> !Undecided(records))
    && (forall k | k in records && WasGranted(records[k]) :: !Open(s) && !Undecided(records))
    && (forall k | k in records && records[k].state.CancelSent? :: !s.Granted?)
    && (forall k, k' | k in records && k' in records && records[k].state.AckSent?
         && WasGranted(records[k']) :: records[k'].state.AckSent?)
  }

  ghost predicate ManagerInv(m: Manager) {
    RecordsInv(m) && PhaseInv(m.state, m.contractors)
  }

  lemma RecordInvPreserved(r: Record, sent: seq<ToContractor>, msg: ToContractor)
    requires RecordInv(r, sent)
    ensures RecordInv(RecordEvent(r, msg), if Fire(r.state, msg).Some? then sent + [msg] else sent)
  {
  }

  lemma SendAllKeepsRecords(m: Manager, keys: set<Key>, msg: ToContractor)
    requires RecordsInv(m)
    ensures RecordsInv(SendAll(m, keys, msg))
  {
    var n := SendAll(m, keys, msg);
    forall k | k in n.contractors ensures RecordInv(n.contractors[k], n.outbox[k]) {
      RecordInvPreserved(m.contractors[k], m.outbox[k], msg);
    }
  }

  lemma StateChangeKeepsPhase(s: ContractState, s': ContractState, records: map<Key, Record>)
    requires PhaseInv(s, records)
    requires !s'.Granted? && (Open(s') ==> Open(s))
    ensures PhaseInv(s', records)
  {
  }

  lemma EventKeepsPhase(s: ContractState, records: map<Key, Record>, keys: set<Key>, msg: ToContractor)
    requires PhaseInv(s, records)
    requires msg.Rejection?
    ensures PhaseInv(s, EventAll(records, keys, msg))
  {
    var after := EventAll(records, keys, msg);
    assert forall k | k in after :: after[k].state.Bidding? ==> records[k].state.Bidding?;
    assert forall k | k in after :: WasGranted(after[k]) ==> after[k] == records[k];
  }

  lemma GrantKeepsPhase(s: ContractState, records: map<Key, Record>, keys: set<Key>)
    requires PhaseInv(s, records) && Open(s)
    ensures PhaseInv(Granted, EventAll(EventAll(records, keys, Grant), records.Keys, Rejection))
  {
    var after := EventAll(EventAll(records, keys, Grant), records.Keys, Rejection);
    assert forall k | k in after :: !after[k].state.Bidding? && !after[k].state.CancelSent? && !after[k].state.AckSent?;
  }

  lemma CancelKeepsPhase(s: ContractState, records: map<Key, Record>)
    requires PhaseInv(s, records) && (s.Granted? || s.Cancelled?)
    ensures PhaseInv(Cancelled, EventAll(records, records.Keys, Cancellation))
  {
    var after := EventAll(records, records.Keys, Cancellation);
    assert forall k | k in after :: WasGranted(after[k]) <==> WasGranted(records[k]);
    assert forall k | k in after :: after[k].state.Bidding? <==> records[k].state.Bidding?;
    assert forall k | k in after :: after[k].state.AckSent? <==> records[k].state.AckSent?;
  }

  lemma CompleteKeepsPhase(records: map<Key, Record>)
    requires PhaseInv(Granted, records) && WithState(records, GrantSent) == {}
    ensures PhaseInv(Completed, EventAll(records, records.Keys, Acknowledgement))
  {
    forall k | k in records ensures !records[k].state.GrantSent? {
      assert k !in WithState(records, GrantSent);
    }
    var after := EventAll(records, records.Keys, Acknowledgement);
    assert forall k | k in after :: WasGranted(after[k]) ==> after[k].state.AckSent?;
    assert forall k | k in after :: after[k].state.Bidding? <==> records[k].state.Bidding?;
  }

  lemma NotingKeepsPhase(records: map<Key, Record>, k: Key, report: int)
    requires PhaseInv(Granted, records) && k in records
    ensures PhaseInv(Granted, records[k := RecordReport(records[k], report)])
  {
    var after := records[k := RecordReport(records[k], report)];
    assert forall j | j in after :: WasGranted(after[j]) <==> WasGranted(records[j]);
    assert forall j | j in after :: after[j].state.Bidding? <==> records[j].state.Bidding?;
    assert forall j | j in after :: after[j].state.AckSent? <==> records[j].state.AckSent?;
  }

  lemma AddingKeepsPhase(records: map<Key, Record>, k: Key, s: RecordState)
    requires PhaseInv(Announced, records) && k !in records && !WasGranted(Record(s, None))
    ensures PhaseInv(Announced, records[k := Record(s, None)])
  {
  }

  lemma ClosingPreserves(m: Manager)
    requires ManagerInv(m)
    ensures ManagerInv(GotoClosedOrExpired(m))
  {
    if WithState(m.contractors, Bidding) != {} {
      var k :| k in WithState(m.contractors, Bidding);
      assert m.contractors[k].state.Bidding?;
    }
  }

  lemma CheckPreserves(m: Manager)
    requires ManagerInv(m)
    ensures ManagerInv(CheckIfShouldClose(m))
  {
    ClosingPreserves(m.(timer := None));
  }

  lemma RejectPreserves(m: Manager, k: Key)
    requires ManagerInv(m)
    ensures ManagerInv(Reject(m, k).manager)
  {
    SendAllKeepsRecords(m, {k}, Rejection);
    EventKeepsPhase(m.state, m.contractors, {k}, Rejection);
  }

  // The records after the grants of a list, with the rejections of all that are open then.
  function Granting(m: Manager, bids: seq<Key>): Manager
    requires m.outbox.Keys == m.contractors.Keys
  {
    var open := m.(state := Granted, timer := Some(GrantTimeout));
    var granted := SendAll(open, Elements(bids[..KnownPrefix(bids, m.contractors.Keys)]), Grant);
    SendAll(granted, m.contractors.Keys, Rejection)
  }

  // With nobody left to reject, sending the rejections changes nothing.
  lemma NobodyToReject(m: Manager)
    requires m.outbox.Keys == m.contractors.Keys && !Undecided(m.contractors)
    ensures SendAll(m, m.contractors.Keys, Rejection) == m
  {
    assert EventAll(m.contractors, m.contractors.Keys, Rejection) == m.contractors;
    assert HandOverAll(m.contractors, m.outbox, m.contractors.Keys, Rejection) == m.outbox;
  }

  lemma GrantedAway(records: map<Key, Record>, keys: set<Key>)
    ensures !Undecided(EventAll(records, keys, Grant))
            <==> forall k | k in records && records[k].state.Bidding? :: k in keys
  {
    var after := EventAll(records, keys, Grant);
    forall k | k in records ensures after[k].state.Bidding? <==> records[k].state.Bidding? && k !in keys {
    }
  }

  lemma CompleteGrantIs(m: Manager, bids: seq<Key>)
    requires m.outbox.Keys == m.contractors.Keys && (m.state.Closed? || m.state.Announced?) && CompleteGrant(m, bids)
    ensures GrantBids(m, bids).manager == Granting(m, bids)
  {
    var n := KnownPrefix(bids, m.contractors.Keys);
    if n < |bids| {
      var granted := SendAll(m.(state := Granted, timer := Some(GrantTimeout)), Elements(bids[..n]), Grant);
      NobodyLeft(m, bids, n);
      NobodyToReject(granted);
      assert GrantBids(m, bids) == Outcome(granted, true);
    }
  }

  lemma NobodyLeft(m: Manager, bids: seq<Key>, n: nat)
    requires n <= |bids| && forall k | k in m.contractors && m.contractors[k].state.Bidding? :: k in bids[..n]
    ensures !Undecided(EventAll(m.contractors, Elements(bids[..n]), Grant))
  {
    GrantedAway(m.contractors, Elements(bids[..n]));
  }

  lemma GrantPreserves(m: Manager, bids: seq<Key>)
    requires ManagerInv(m)
    ensures ManagerInv(GrantBids(m, bids).manager) <==> CompleteGrant(m, bids)
  {
    if m.state.Closed? || m.state.Announced? {
      if CompleteGrant(m, bids) {
        CompleteGrantIs(m, bids);
        GrantingPreserves(m, bids);
      } else {
        GrantedAway(m.contractors, Elements(bids[..KnownPrefix(bids, m.contractors.Keys)]));
      }
    }
  }

  lemma GrantingPreserves(m: Manager, bids: seq<Key>)
    requires ManagerInv(m) && (m.state.Closed? || m.state.Announced?)
    ensures ManagerInv(Granting(m, bids))
  {
    var open := m.(state := Granted, timer := Some(GrantTimeout));
    var keys := Elements(bids[..KnownPrefix(bids, m.contractors.Keys)]);
    SendAllKeepsRecords(open, keys, Grant);
    SendAllKeepsRecords(SendAll(open, keys, Grant), m.contractors.Keys, Rejection);
    GrantKeepsPhase(m.state, m.contractors, keys);
  }

  lemma ElectPreserves(m: Manager, k: Key)
    requires ManagerInv(m)
    ensures ManagerInv(Elect(m, k)) <==> (k in m.contractors ==> m.outbox[k] == [])
  {
    if k in m.contractors {
      var n := Elect(m, k);
      if m.outbox[k] == [] {
        ElectKeepsPhase(m.state, m.contractors, k);
      }
      assert RecordInv(n.contractors[k], n.outbox[k]) <==> m.outbox[k] == [];
    }
  }

  lemma ElectKeepsPhase(s: ContractState, records: map<Key, Record>, k: Key)
    requires PhaseInv(s, records) && k in records && !WasGranted(records[k])
    ensures PhaseInv(s, records[k := records[k].(state := Elected)])
  {
    var after := records[k := records[k].(state := Elected)];
    assert forall j | j in after :: after[j].state.Bidding? ==> records[j].state.Bidding?;
    assert forall j | j in after :: WasGranted(after[j]) ==> after[j] == records[j];
  }

  lemma {:induction false} CancelPreserves(m: Manager)
    requires ManagerInv(m)
    ensures ManagerInv(Cancel(m).manager)
  {
    if m.state.Granted? || m.state.Cancelled? {
      SendAllKeepsRecords(m.(state := Cancelled), m.contractors.Keys, Cancellation);
      CancelKeepsPhase(m.state, m.contractors);
    }
  }

  lemma TerminatePreserves(m: Manager)
    requires ManagerInv(m)
    ensures ManagerInv(Terminate(m))
  {
    SendAllKeepsRecords(m, m.contractors.Keys, Rejection);
    EventKeepsPhase(m.state, m.contractors, m.contractors.Keys, Rejection);
    StateChangeKeepsPhase(m.state, Terminated, EventAll(m.contractors, m.contractors.Keys, Rejection));
  }

  lemma {:induction false} TimeoutPreserves(m: Manager)
    requires ManagerInv(m)
    ensures ManagerInv(FireTimeout(m))
  {
    var n := FireTimeout(m);
    assert n.contractors == m.contractors && n.outbox == m.outbox;
    if n.state != m.state {
      StateChangeKeepsPhase(m.state, n.state, m.contractors);
    }
  }

  lemma BidPreserves(m: Manager, k: Key)
    requires ManagerInv(m)
    ensures ManagerInv(OnBid(m, k).manager)
  {
    if m.state.Announced? && k !in m.contractors {
      AddingKeepsPhase(m.contractors, k, Bidding);
    }
  }

  lemma {:induction false} RefusalPreserves(m: Manager, k: Key)
    requires ManagerInv(m)
    ensures ManagerInv(OnRefusal(m, k).manager)
  {
    if m.state.Announced? && k !in m.contractors {
      AddingKeepsPhase(m.contractors, k, Refusing);
      CheckPreserves(AddRecord(m, k, Refusing));
    }
  }

  lemma {:induction false} ReportPreserves(m: Manager, k: Key, report: int)
    requires ManagerInv(m)
    ensures ManagerInv(OnReport(m, k, report))
  {
    if m.state.Granted? && k in m.contractors {
      var noted := m.(contractors := m.contractors[k := RecordReport(m.contractors[k], report)]);
      NotingKeepsPhase(m.contractors, k, report);
      if WithState(noted.contractors, GrantSent) == {} {
        SendAllKeepsRecords(noted.(state := Completed, timer := None), noted.contractors.Keys, Acknowledgement);
        CompleteKeepsPhase(noted.contractors);
      }
    }
  }

  lemma {:induction false} DefectionPreserves(m: Manager, k: Key)
    requires ManagerInv(m)
    ensures ManagerInv(OnDefection(m, k).manager)
  {
    if m.state.Granted? {
      StateChangeKeepsPhase(m.state, Cancelled, m.contractors);
      CancelPreserves(m.(state := Cancelled));
    }
  }

  /** The discipline is exactly what the invariant needs: a step of the manager keeps it if and only if the
      step is disciplined. */
  lemma {:induction false} ManagerInvPreserved(w: World, a: Action)
    requires ManagerInv(w.manager)
    ensures ManagerInv(ApplyManager(w.manager, a)) <==> Disciplined(w, a)
  {
    var m := w.manager;
    match a
    case CallAnnounce =>
      StateChangeKeepsPhase(m.state, if m.state.Initiated? then Announced else Expired, m.contractors);
    case CallReject(k) => RejectPreserves(m, k);
    case CallGrant(bids) => GrantPreserves(m, bids);
    case CallElect(k) => ElectPreserves(m, k);
    case CallCancel => CancelPreserves(m);
    case CallTerminate => TerminatePreserves(m);
    case AnnounceExpired => ClosingPreserves(m);
    case BidHookReturned => CheckPreserves(m);
    case ManagerTimeout => TimeoutPreserves(m);
    case ManagerCrash => StateChangeKeepsPhase(m.state, Wtf, m.contractors);
    case ManagerHears(k, BidMessage) => BidPreserves(m, k);
    case ManagerHears(k, Refusal) => RefusalPreserves(m, k);
    case ManagerHears(k, Duplicate) => RefusalPreserves(m, k);
    case ManagerHears(k, FinalReport(r)) => ReportPreserves(m, k, r);
    case ManagerHears(k, Defection) => DefectionPreserves(m, k);
    case _ =>
  }

  // ---------------------------------------------------------------- both parties

  function Sent(m: Manager, k: Key): seq<ToContractor> {
    if k in m.outbox then m.outbox[k] else []
  }

  // Nothing handed over is ever taken back, and a report is noted only when `heard` brings it.
  ghost predicate Grows(m: Manager, n: Manager, heard: set<(Key, int)>) {
    && n.outbox.Keys == n.contractors.Keys
    && (forall k | k in m.outbox :: k in n.outbox && m.outbox[k] <= n.outbox[k])
    && (forall k | k in n.contractors && n.contractors[k].report.Some? ::
          || (k in m.contractors && m.contractors[k].report == n.contractors[k].report)
          || (k, n.contractors[k].report.value) in heard)
  }

  ghost predicate PeerInv(c: Contractor, sent: seq<ToContractor>) {
    && (c.timer.Some? ==> c.timer.value.Closed? || c.timer.value.Expired? || c.timer.value.Aborted?)
    && (c.state.Rejected? ==> Rejection in sent)
    && (c.state.Granted? || c.state.Completed? || c.state.Acknowledged? || c.state.Cancelled? || c.state.Defected?
        ==> Grant in sent)
    && (c.state.Acknowledged? ==> Acknowledgement in sent)
    && (c.state.Cancelled? ==> Cancellation in sent)
    && (c.state.Initiated? || c.state.Announced? || c.state.Bid? || c.state.Granted? ==>
          forall r :: FinalReport(r) !in c.sent)
    && (forall r | FinalReport(r) in c.sent :: Grant in sent)
    && (forall r, r' | FinalReport(r) in c.sent && FinalReport(r') in c.sent :: r == r')
  }

  ghost predicate WorldInv(w: World) {
    && ManagerInv(w.manager)
    && (forall k | k in w.peers :: PeerInv(w.peers[k], Sent(w.manager, k)))
    && (forall k | k in w.manager.contractors && w.manager.contractors[k].report.Some? ::
          k in w.peers && FinalReport(w.manager.contractors[k].report.value) in w.peers[k].sent)
  }

  lemma SendAllGrows(m: Manager, keys: set<Key>, msg: ToContractor)
    requires m.outbox.Keys == m.contractors.Keys
    ensures Grows(m, SendAll(m, keys, msg), {})
  {
  }

  lemma GrantGrows(m: Manager, bids: seq<Key>)
    requires m.outbox.Keys == m.contractors.Keys
    ensures Grows(m, GrantBids(m, bids).manager, {})
  {
    var open := m.(state := Granted, timer := Some(GrantTimeout));
    var keys := Elements(bids[..KnownPrefix(bids, m.contractors.Keys)]);
    SendAllGrows(open, keys, Grant);
    SendAllGrows(SendAll(open, keys, Grant), m.contractors.Keys, Rejection);
  }

  lemma AddingGrows(m: Manager, k: Key, s: RecordState)
    requires m.outbox.Keys == m.contractors.Keys && k !in m.contractors
    ensures Grows(m, AddRecord(m, k, s), {})
  {
    var n := AddRecord(m, k, s);
    forall j | j in n.contractors && n.contractors[j].report.Some? ensures j in m.contractors {
    }
  }

  lemma {:induction false} RefusalGrows(m: Manager, k: Key)
    requires m.outbox.Keys == m.contractors.Keys
    ensures Grows(m, OnRefusal(m, k).manager, {})
  {
    if m.state.Announced? && k !in m.contractors {
      AddingGrows(m, k, Refusing);
      CheckUntouched(AddRecord(m, k, Refusing));
    }
  }

  lemma CheckUntouched(m: Manager)
    ensures CheckIfShouldClose(m).outbox == m.outbox && CheckIfShouldClose(m).contractors == m.contractors
  {
  }

  lemma ReportGrows(m: Manager, k: Key, report: int)
    requires m.outbox.Keys == m.contractors.Keys
    ensures Grows(m, OnReport(m, k, report), {(k, report)})
  {
    if m.state.Granted? && k in m.contractors {
      var noted := m.(contractors := m.contractors[k := RecordReport(m.contractors[k], report)]);
      assert Grows(m, noted, {(k, report)});
      SendAllGrows(noted.(state := Completed, timer := None), noted.contractors.Keys, Acknowledgement);
    }
  }

  lemma ElectGrows(m: Manager, k: Key)
    requires m.outbox.Keys == m.contractors.Keys
    ensures Grows(m, Elect(m, k), {})
  {
  }

  function Heard(a: Action): set<(Key, int)> {
    if a.ManagerHears? && a.msg.FinalReport? then {(a.k, a.msg.report)} else {}
  }

  lemma {:induction false} HearingGrows(m: Manager, k: Key, msg: ToManager)
    requires m.outbox.Keys == m.contractors.Keys
    ensures Grows(m, OnMessage(m, k, msg).manager, Heard(ManagerHears(k, msg)))
  {
    match msg
    case BidMessage => if k !in m.contractors { AddingGrows(m, k, Bidding); }
    case Refusal => RefusalGrows(m, k);
    case Duplicate => RefusalGrows(m, k);
    case FinalReport(r) => ReportGrows(m, k, r);
    case Defection => SendAllGrows(m.(state := Cancelled), m.contractors.Keys, Cancellation);
  }

  lemma {:induction false} ManagerGrows(w: World, a: Action)
    requires w.manager.outbox.Keys == w.manager.contractors.Keys
    ensures Grows(w.manager, ApplyManager(w.manager, a), Heard(a))
  {
    var m := w.manager;
    match a
    case CallReject(k) => SendAllGrows(m, {k}, Rejection);
    case CallGrant(bids) => GrantGrows(m, bids);
    case CallElect(k) => ElectGrows(m, k);
    case CallCancel => SendAllGrows(m.(state := Cancelled), m.contractors.Keys, Cancellation);
    case CallTerminate => SendAllGrows(m, m.contractors.Keys, Rejection);
    case ManagerHears(k, msg) => HearingGrows(m, k, msg);
    case _ => RecordsUntouched(m, a);
  }

  lemma RecordsUntouched(m: Manager, a: Action)
    requires m.outbox.Keys == m.contractors.Keys
    requires a.CallAnnounce? || a.AnnounceExpired? || a.BidHookReturned? || a.ManagerTimeout? || a.ManagerFinalize?
             || a.ManagerCrash? || a.Spawn? || ByPeer(a)
    ensures ApplyManager(m, a).outbox == m.outbox && ApplyManager(m, a).contractors == m.contractors
  {
  }

  lemma PeerInvPreserved(c: Contractor, sent: seq<ToContractor>, a: Action)
    requires PeerInv(c, sent)
    requires a.PeerHears? ==> a.heard in sent
    ensures PeerInv(ApplyPeer(c, a), sent)
    ensures c.sent <= ApplyPeer(c, a).sent
  {
  }

  lemma PeerInvGrows(c: Contractor, sent: seq<ToContractor>, sent': seq<ToContractor>)
    requires PeerInv(c, sent) && sent <= sent'
    ensures PeerInv(c, sent')
  {
    assert forall msg | msg in sent :: msg in sent';
  }

  lemma {:induction false} WorldInvPreserved(w: World, a: Action)
    requires WorldInv(w) && Enabled(w, a) && Disciplined(w, a)
    ensures WorldInv(Apply(w, a))
  {
    var w' := Apply(w, a);
    if ByPeer(a) {
      PeerInvPreserved(w.peers[a.k], Sent(w.manager, a.k), a);
    } else if !a.Spawn? {
      ManagerStepKeepsWorld(w, a);
    }
  }

  lemma {:induction false} ManagerStepKeepsWorld(w: World, a: Action)
    requires WorldInv(w) && Enabled(w, a) && Disciplined(w, a) && !ByPeer(a) && !a.Spawn?
    ensures WorldInv(w.(manager := ApplyManager(w.manager, a)))
  {
    ManagerInvPreserved(w, a);
    ManagerGrows(w, a);
    var m, n := w.manager, ApplyManager(w.manager, a);
    forall k | k in w.peers ensures PeerInv(w.peers[k], Sent(n, k)) {
      PeerInvGrows(w.peers[k], Sent(m, k), Sent(n, k));
    }
    forall k | k in n.contractors && n.contractors[k].report.Some?
      ensures k in w.peers && FinalReport(n.contractors[k].report.value) in w.peers[k].sent
    {
      if (k, n.contractors[k].report.value) in Heard(a) {
        assert a == ManagerHears(k, FinalReport(n.contractors[k].report.value));
      }
    }
  }
}
