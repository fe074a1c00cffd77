// The media of the contract protocol as the agency runs them: objects whose event methods change
// their fields one step at a time. Every method is proved to do what the corresponding function of
// Contracts does to the value the object stands for, so that the results about runs apply to them.

module AgencyContracts {
  import opened Wrappers
  import opened Contracts

  /** The record of one bidder. `sent` lists what its manager handed over for it. */
  class ManagerContractor {
    const key: Key
    var state: RecordState
    var report: Option<int>
    var sent: seq<ToContractor>

    function View(): Record
      reads this
    {
      Record(state, report)
    }

    constructor (k: Key, s: RecordState)
      ensures key == k && View() == Record(s, None) && sent == []
    {
      key := k;
      state, report, sent := s, None, [];
    }

    // on_event for the messages a manager sends: check the state, enter the next one, send.
    method OnEvent(msg: ToContractor)
      modifies this
      ensures View() == RecordEvent(old(View()), msg)
      ensures sent == if Fire(old(state), msg).Some? then old(sent) + [msg] else old(sent)
    {
      match msg
      case Rejection => if state.Bidding? { state := RejectedBid; sent := sent + [msg]; }
      case Grant => if state.Bidding? { state := GrantSent; sent := sent + [msg]; }
      case Cancellation => if state.GrantSent? || state.Reported? { state := CancelSent; sent := sent + [msg]; }
      case Acknowledgement => if state.Reported? { state := AckSent; sent := sent + [msg]; }
    }

    // on_event for the final report.
    method OnReport(r: int)
      modifies this
      ensures View() == RecordReport(old(View()), r) && sent == old(sent)
    {
      if state.GrantSent? {
        state := Reported;
        report := Some(r);
      }
    }
  }

  // The events of a loop over a list of contractors, one after the other.
  function SendEach(m: Manager, list: seq<Key>, msg: ToContractor): Manager
    requires m.outbox.Keys == m.contractors.Keys
    decreases |list|
  {
    if list == [] then m else SendEach(SendAll(m, {list[0]}, msg), list[1..], msg)
  }

  // A record that took a message refuses it the second time.
  lemma OnceOnly(r: Record, msg: ToContractor)
    ensures Fire(RecordEvent(r, msg).state, msg).None?
  {
  }

  lemma {:induction false} SendTwice(m: Manager, keys: set<Key>, keys': set<Key>, msg: ToContractor)
    requires m.outbox.Keys == m.contractors.Keys
    ensures SendAll(SendAll(m, keys, msg), keys', msg) == SendAll(m, keys + keys', msg)
  {
    EventTwice(m.contractors, keys, keys', msg);
    HandOverTwice(m.contractors, m.outbox, keys, keys', msg);
  }

  lemma EventTwice(records: map<Key, Record>, keys: set<Key>, keys': set<Key>, msg: ToContractor)
    ensures EventAll(EventAll(records, keys, msg), keys', msg) == EventAll(records, keys + keys', msg)
  {
    forall k | k in records && k in keys
      ensures RecordEvent(RecordEvent(records[k], msg), msg) == RecordEvent(records[k], msg)
    {
      OnceOnly(records[k], msg);
    }
  }

  lemma HandOverTwice(records: map<Key, Record>, outbox: map<Key, seq<ToContractor>>, keys: set<Key>, keys': set<Key>,
                      msg: ToContractor)
    requires outbox.Keys == records.Keys
    ensures HandOverAll(EventAll(records, keys, msg), HandOverAll(records, outbox, keys, msg), keys', msg)
            == HandOverAll(records, outbox, keys + keys', msg)
  {
    forall k | k in records && k in keys ensures Fire(RecordEvent(records[k], msg).state, msg).None? {
      OnceOnly(records[k], msg);
    }
  }

  // Whatever the order of the list, the loop leaves what the simultaneous event leaves.
  lemma {:induction false} SendEachIsSendAll(m: Manager, list: seq<Key>, msg: ToContractor)
    requires m.outbox.Keys == m.contractors.Keys
    ensures SendEach(m, list, msg) == SendAll(m, Elements(list), msg)
    decreases |list|
  {
    if list == [] {
      SendNothing(m, msg);
    } else {
      SendEachIsSendAll(SendAll(m, {list[0]}, msg), list[1..], msg);
      SendTwice(m, {list[0]}, Elements(list[1..]), msg);
      ElementsOf(list);
    }
  }

  lemma SendNothing(m: Manager, msg: ToContractor)
    requires m.outbox.Keys == m.contractors.Keys
    ensures SendAll(m, {}, msg) == m
  {
    assert EventAll(m.contractors, {}, msg) == m.contractors;
    assert HandOverAll(m.contractors, m.outbox, {}, msg) == m.outbox;
  }

  lemma ElementsOf(list: seq<Key>)
    requires list != []
    ensures {list[0]} + Elements(list[1..]) == Elements(list)
  {
    assert list == [list[0]] + list[1..];
  }

  // Records that refuse a message may as well be left out of the loop that sends it.
  lemma OnlyListeners(m: Manager, list: seq<Key>, msg: ToContractor)
    requires m.outbox.Keys == m.contractors.Keys
    requires forall k | k in m.contractors && k !in list :: Fire(m.contractors[k].state, msg).None?
    ensures SendEach(m, list, msg) == SendAll(m, m.contractors.Keys, msg)
  {
    SendEachIsSendAll(m, list, msg);
    DeafLeftOut(m.contractors, m.outbox, Elements(list), msg);
  }

  lemma DeafLeftOut(records: map<Key, Record>, outbox: map<Key, seq<ToContractor>>, keys: set<Key>, msg: ToContractor)
    requires outbox.Keys == records.Keys
    requires forall k | k in records && k !in keys :: Fire(records[k].state, msg).None?
    ensures EventAll(records, keys, msg) == EventAll(records, records.Keys, msg)
    ensures HandOverAll(records, outbox, keys, msg) == HandOverAll(records, outbox, records.Keys, msg)
  {
  }

  lemma SendOne(m: Manager, k: Key, msg: ToContractor)
    requires m.outbox.Keys == m.contractors.Keys && k in m.contractors
    ensures var r := m.contractors[k];
            SendAll(m, {k}, msg) ==
            m.(contractors := m.contractors[k := RecordEvent(r, msg)],
               outbox := m.outbox[k := if Fire(r.state, msg).Some? then m.outbox[k] + [msg] else m.outbox[k]])
  {
    var n := SendAll(m, {k}, msg);
    assert n.contractors == m.contractors[k := n.contractors[k]];
    assert n.outbox == m.outbox[k := n.outbox[k]];
  }

  lemma NoneWithState(records: map<Key, Record>, list: seq<Key>, s: RecordState, s': RecordState)
    requires forall k :: k in list <==> k in records && (records[k].state == s || records[k].state == s')
    ensures list == [] <==> WithState(records, s) + WithState(records, s') == {}
    ensures s == s' ==> (list == [] <==> WithState(records, s) == {})
  {
    if list != [] {
      assert list[0] in WithState(records, s) + WithState(records, s');
    }
  }

  class AgencyManager {
    var state: ContractState
    var contractors: map<Key, ManagerContractor>
    var timer: Option<Timeout>
    var expected: Option<nat>
    var finalized: bool

    // The contractor objects, and what they hold as values; Valid ties them together.
    ghost var objects: set<ManagerContractor>
    ghost var records: map<Key, Record>
    ghost var outbox: map<Key, seq<ToContractor>>

    ghost predicate Valid()
      reads this, objects
    {
      && records.Keys == outbox.Keys == contractors.Keys
      && forall k | k in contractors ::
           && contractors[k] in objects && contractors[k].key == k
           && records[k] == contractors[k].View() && outbox[k] == contractors[k].sent
    }

    ghost function View(): Manager
      reads this
    {
      Manager(state, records, outbox, timer, expected, finalized)
    }

    constructor (expectedBids: Option<nat>)
      ensures Valid() && View() == InitialManager(expectedBids)
    {
      state, contractors, timer, expected, finalized :=
        Initiated, map[], Some(InitiateTimeout), expectedBids, false;
      objects, records, outbox := {}, map[], map[];
    }

    // ManagerContractors.with_state: the keys, in some order, of the records in one of two states.
    method WithStates(s: RecordState, s': RecordState) returns (list: seq<Key>)
      requires Valid()
      ensures forall k :: k in list <==> k in records && (records[k].state == s || records[k].state == s')
      ensures forall i, j | 0 <= i < j < |list| :: list[i] != list[j]
    {
      list := [];
      var todo := contractors.Keys;
      while todo != {}
        invariant todo <= contractors.Keys
        invariant forall k | k in list :: k in contractors && k !in todo
        invariant forall k | k in contractors && k !in todo ::
                    k in list <==> contractors[k].state == s || contractors[k].state == s'
        invariant forall i, j | 0 <= i < j < |list| :: list[i] != list[j]
        decreases todo
      {
        var k :| k in todo;
        todo := todo - {k};
        if contractors[k].state == s || contractors[k].state == s' {
          list := list + [k];
        }
      }
    }

    // contractor.on_event(msg) for the contractor known by `k`.
    method EventOne(k: Key, msg: ToContractor)
      requires Valid() && k in contractors
      modifies this`records, this`outbox, contractors[k]
      ensures Valid() && View() == SendAll(old(View()), {k}, msg)
    {
      SendOne(View(), k, msg);
      Dispatch(k, contractors[k], msg);
    }

    method Dispatch(k: Key, contractor: ManagerContractor, msg: ToContractor)
      requires Valid() && k in contractors && contractors[k] == contractor
      modifies this`records, this`outbox, contractor
      ensures Valid()
      ensures records == old(records)[k := RecordEvent(old(records)[k], msg)]
      ensures outbox == old(outbox)[k := if Fire(old(records)[k].state, msg).Some?
                                         then old(outbox)[k] + [msg] else old(outbox)[k]]
    {
      contractor.OnEvent(msg);
      records, outbox := records[k := contractor.View()], outbox[k := contractor.sent];
    }

    // The loops over a list of contractors: each of them is given the event.
    method EventEach(list: seq<Key>, msg: ToContractor)
      requires Valid() && forall k | k in list :: k in contractors
      modifies this`records, this`outbox, objects
      ensures Valid() && View() == SendEach(old(View()), list, msg)
    {
      for i := 0 to |list|
        invariant Valid()
        invariant SendEach(View(), list[i..], msg) == SendEach(old(View()), list, msg)
      {
        assert list[i..][1..] == list[i + 1..];
        EventOne(list[i], msg);
      }
    }

    method Cleanup()
      modifies this`timer
      ensures timer == None
    {
      timer := None;
    }

    method Finalize()
      modifies this`timer, this`finalized
      ensures View() == Contracts.Finalize(old(View()))
    {
      if finalized { return; }
      finalized := true;
      Cleanup();
    }

    method Announce()
      modifies this`state, this`timer
      ensures View() == Contracts.Announce(old(View()))
    {
      if !state.Initiated? { return; }
      state := Announced;
      timer := Some(AnnounceTimeout);
    }

    // `raised` stands for the exception an unknown bid ends in.
    method Reject(k: Key) returns (raised: bool)
      requires Valid()
      modifies this`records, this`outbox, objects
      ensures Valid() && Outcome(View(), raised) == Contracts.Reject(old(View()), k)
    {
      raised := false;
      if !(state.Announced? || state.Granted? || state.Closed?) { return; }
      if k !in contractors { return true; }
      EventOne(k, Rejection);
    }

    method Grant(bids: seq<Key>) returns (raised: bool)
      requires Valid()
      modifies this`state, this`timer, this`records, this`outbox, objects
      ensures Valid() && Outcome(View(), raised) == GrantBids(old(View()), bids)
    {
      raised := false;
      if !(state.Closed? || state.Announced?) { return; }
      state := Granted;
      timer := Some(GrantTimeout);
      SendEachIsSendAll(View(), bids[..KnownPrefix(bids, contractors.Keys)], ToContractor.Grant);
      raised := GrantEach(bids);
      if !raised {
        RejectBids();
      }
    }

    // The first loop of grant(): it ends in an exception at the first bid without a record.
    method GrantEach(bids: seq<Key>) returns (raised: bool)
      requires Valid()
      modifies this`records, this`outbox, objects
      ensures Valid()
      ensures var n := KnownPrefix(bids, contractors.Keys);
              raised == (n < |bids|) && View() == SendEach(old(View()), bids[..n], ToContractor.Grant)
    {
      ghost var n := KnownPrefix(bids, contractors.Keys);
      for i := 0 to |bids|
        invariant Valid() && i <= n
        invariant SendEach(View(), bids[i..n], ToContractor.Grant)
                  == SendEach(old(View()), bids[..n], ToContractor.Grant)
      {
        if bids[i] !in contractors { return true; }
        assert bids[i..n][1..] == bids[i + 1..n];
        EventOne(bids[i], ToContractor.Grant);
      }
      return false;
    }

    // Rejections for all the contractors still in `bid`.
    method RejectBids()
      requires Valid()
      modifies this`records, this`outbox, objects
      ensures Valid() && View() == SendAll(old(View()), contractors.Keys, Rejection)
    {
      var list := WithStates(Bidding, Bidding);
      OnlyListeners(View(), list, Rejection);
      EventEach(list, Rejection);
    }

    method Elect(k: Key)
      requires Valid()
      modifies this`records, this`outbox, objects
      ensures Valid() && View() == Contracts.Elect(old(View()), k)
    {
      if k !in contractors { return; }
      contractors[k].state := Elected;
      records := records[k := records[k].(state := Elected)];
    }

    // Ends in an exception, with the state changed already, when there is nothing to cancel.
    method Cancel() returns (raised: bool)
      requires Valid()
      modifies this`state, this`records, this`outbox, objects
      ensures Valid() && Outcome(View(), raised) == Contracts.Cancel(old(View()))
    {
      raised := false;
      if !(state.Granted? || state.Cancelled?) { return; }
      state := Cancelled;
      var list := WithStates(GrantSent, Reported);
      OnlyListeners(View(), list, Cancellation);
      NoneWithState(records, list, GrantSent, Reported);
      EventEach(list, Cancellation);
      raised := list == [];
    }

    method Terminate()
      requires Valid()
      modifies this`state, this`timer, this`finalized, this`records, this`outbox, objects
      ensures Valid() && View() == Contracts.Terminate(old(View()))
    {
      RejectBids();
      EndContract();
    }

    method EndContract()
      requires Valid()
      modifies this`state, this`timer, this`finalized
      ensures Valid() && View() == CloseDown(old(View()))
    {
      if !(state.Expired? || state.Cancelled? || state.Aborted? || state.Wtf?) {
        state := Terminated;
        Finalize();
      }
    }

    method GotoClosedOrExpired()
      requires Valid()
      modifies this`state, this`timer
      ensures Valid() && View() == Contracts.GotoClosedOrExpired(old(View()))
    {
      var bids := WithStates(Bidding, Bidding);
      NoneWithState(records, bids, Bidding, Bidding);
      if bids != [] {
        timer := Some(ClosedTimeout);
        state := Closed;
      } else {
        state := Expired;
      }
    }

    method CheckIfShouldGotoClose()
      requires Valid()
      modifies this`state, this`timer
      ensures Valid() && View() == CheckIfShouldClose(old(View()))
    {
      if state.Terminated? { return; }
      if expected.Some? && expected.value > 0 && |contractors.Keys| >= expected.value {
        timer := None;
        GotoClosedOrExpired();
      }
    }

    method OnAnnounceExpire()
      requires Valid()
      modifies this`state, this`timer
      ensures Valid() && View() == Contracts.OnAnnounceExpire(old(View()))
    {
      if !state.Announced? { return; }
      GotoClosedOrExpired();
    }

    // The delayed call fires.
    method TimeoutTarget()
      requires Valid()
      modifies this`state, this`timer
      ensures Valid() && View() == FireTimeout(old(View()))
    {
      match timer
      case None =>
      case Some(InitiateTimeout) => state, timer := Wtf, None;
      case Some(AnnounceTimeout) => timer := None;
      case Some(ClosedTimeout) => state, timer := Expired, None;
      case Some(GrantTimeout) => state, timer := Aborted, None;
    }

    method OnAgentSideError()
      requires Valid()
      modifies this`state, this`timer, this`finalized
      ensures Valid() && View() == Crash(old(View()))
    {
      state := Wtf;
      Finalize();
    }

    // A new record; a second one for the same contractor ends in an exception.
    method AddContractor(k: Key, s: RecordState) returns (raised: bool)
      requires Valid()
      modifies this`contractors, this`objects, this`records, this`outbox
      ensures Valid() && raised == (k in old(contractors))
      ensures fresh(objects - old(objects))
      ensures View() == if raised then old(View()) else AddRecord(old(View()), k, s)
    {
      if k in contractors { return true; }
      var c := new ManagerContractor(k, s);
      contractors := contractors[k := c];
      objects, records, outbox := objects + {c}, records[k := Record(s, None)], outbox[k := []];
      raised := false;
    }

    // `returned` tells whether the agent-side bid() hook returned its result at once; if it did not,
    // the check follows later, on its own.
    method OnBid(k: Key, returned: bool) returns (raised: bool)
      requires Valid()
      modifies this`state, this`timer, this`contractors, this`objects, this`records, this`outbox
      ensures Valid() && fresh(objects - old(objects))
      ensures var after := Contracts.OnBid(old(View()), k);
              && raised == after.raised
              && View() == if returned && old(state).Announced? && !raised
                           then CheckIfShouldClose(after.manager) else after.manager
    {
      raised := false;
      if !state.Announced? { return; }
      raised := AddContractor(k, Bidding);
      if !raised && returned {
        CheckIfShouldGotoClose();
      }
    }

    method OnRefusal(k: Key) returns (raised: bool)
      requires Valid()
      modifies this`state, this`timer, this`contractors, this`objects, this`records, this`outbox
      ensures Valid() && fresh(objects - old(objects))
      ensures Valid() && Outcome(View(), raised) == Contracts.OnRefusal(old(View()), k)
    {
      raised := false;
      if !state.Announced? { return; }
      raised := AddContractor(k, Refusing);
      if !raised {
        CheckIfShouldGotoClose();
      }
    }

    method OnDuplicate(k: Key) returns (raised: bool)
      requires Valid()
      modifies this`state, this`timer, this`contractors, this`objects, this`records, this`outbox
      ensures Valid() && fresh(objects - old(objects))
      ensures Valid() && Outcome(View(), raised) == Contracts.OnDuplicate(old(View()), k)
    {
      raised := false;
      if !state.Announced? || k in contractors { return; }
      raised := OnRefusal(k);
    }

    /** Acknowledges every contractor that reported. The reports handed to the agent-side hook are those
        of exactly these contractors, each once: `reports[i]` is that of `order[i]`. */
    method OnComplete() returns (order: seq<Key>, reports: seq<Option<int>>)
      requires Valid()
      modifies this`state, this`timer, this`records, this`outbox, objects
      ensures Valid() && View() == Complete(old(View()))
      ensures forall k :: k in order <==> k in old(records) && old(records)[k].state.Reported?
      ensures forall i, j | 0 <= i < j < |order| :: order[i] != order[j]
      ensures |reports| == |order| && forall i | 0 <= i < |order| :: reports[i] == old(records)[order[i]].report
    {
      order := WithStates(Reported, Reported);
      reports := ReportsOf(order);
      state := Completed;
      Cleanup();
      OnlyListeners(View(), order, Acknowledgement);
      EventEach(order, Acknowledgement);
    }

    method ReportsOf(order: seq<Key>) returns (reports: seq<Option<int>>)
      requires Valid() && forall k | k in order :: k in contractors
      ensures |reports| == |order| && forall i | 0 <= i < |order| :: reports[i] == records[order[i]].report
    {
      reports := [];
      for i := 0 to |order|
        invariant |reports| == i && forall j | 0 <= j < i :: reports[j] == records[order[j]].report
      {
        reports := reports + [contractors[order[i]].report];
      }
    }

    // `done` tells whether this report completed the contract.
    method OnReport(k: Key, r: int) returns (done: bool, order: seq<Key>, reports: seq<Option<int>>)
      requires Valid()
      modifies this`state, this`timer, this`records, this`outbox, objects
      ensures Valid() && View() == Contracts.OnReport(old(View()), k, r)
      ensures done == (old(state).Granted? && state.Completed?)
    {
      done, order, reports := false, [], [];
      if !state.Granted? || k !in contractors { return; }
      contractors[k].OnReport(r);
      records := records[k := RecordReport(records[k], r)];
      var waiting := WithStates(GrantSent, GrantSent);
      NoneWithState(records, waiting, GrantSent, GrantSent);
      if waiting == [] {
        done := true;
        order, reports := OnComplete();
      }
    }

    method OnCancel(k: Key) returns (raised: bool)
      requires Valid()
      modifies this`state, this`records, this`outbox, objects
      ensures Valid() && Outcome(View(), raised) == OnDefection(old(View()), k)
    {
      raised := false;
      if !state.Granted? { return; }
      state := Cancelled;
      if k !in contractors { return; }
      raised := Cancel();
    }
  }

  class AgencyContractor {
    var state: ContractState
    var timer: Option<ContractState>
    var finalized: bool
    var sent: set<ToManager>

    function View(): Contractor
      reads this
    {
      Contractor(state, timer, finalized, sent)
    }

    constructor ()
      ensures View() == InitialContractor()
    {
      state, timer, finalized, sent := Initiated, None, false, {};
    }

    method Finalize()
      modifies this`timer, this`finalized
      ensures View() == FinalizePeer(old(View()))
    {
      if finalized { return; }
      finalized := true;
      timer := None;
    }

    method PlaceBid()
      modifies this
      ensures View() == Contracts.PlaceBid(old(View()))
    {
      if !state.Announced? { return; }
      state := Bid;
      sent := sent + {BidMessage};
      timer := Some(Expired);
    }

    method Refuse()
      modifies this
      ensures View() == Contracts.Refuse(old(View()))
    {
      if !state.Announced? { return; }
      state := Refused;
      sent := sent + {Refusal};
      Finalize();
    }

    method Defect()
      modifies this
      ensures View() == Contracts.Defect(old(View()))
    {
      if !state.Granted? { return; }
      state := Defected;
      sent := sent + {Defection};
      Finalize();
    }

    method Complete(report: int)
      modifies this
      ensures View() == ReportWork(old(View()), report)
    {
      if !state.Granted? { return; }
      state := Completed;
      sent := sent + {FinalReport(report)};
      timer := Some(Aborted);
    }

    method OnAnnounce()
      modifies this
      ensures View() == HearAnnouncement(old(View()))
    {
      if !state.Initiated? { return; }
      state := Announced;
      timer := Some(Closed);
    }

    // on_message with its event table: the state before, the state after, the method.
    method OnMessage(msg: ToContractor)
      modifies this
      ensures View() == Hear(old(View()), msg)
    {
      match msg
      case Rejection => if state.Bid? { state := Rejected; }
      case Grant => if state.Bid? { state := Granted; timer := Some(Expired); }
      case Cancellation =>
        if state.Granted? { state := Cancelled; } else if state.Completed? { state := Aborted; }
      case Acknowledgement => if state.Completed? { state := Acknowledged; }
    }

    method TimeoutTarget()
      modifies this
      ensures View() == FirePeerTimeout(old(View()))
    {
      if timer.Some? {
        state := timer.value;
        timer := None;
      }
    }

    method OnAgentSideError()
      modifies this
      ensures View() == CrashPeer(old(View()))
    {
      state := Wtf;
      Finalize();
    }
  }
}
