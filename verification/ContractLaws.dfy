// What the contract protocol promises step by step, said without its functions: what answers decide, when a
// manager hands over each message, and what becomes of its records.

module ContractLaws {
  import opened Wrappers
  import opened Contracts
  import opened ContractRuns
  import opened ContractInvariants

  // ---------------------------------------------------------------- answers

  predicate SomeOpenBid(records: map<Key, Record>) {
    exists k | k in records :: records[k].state.Bidding?
  }

  // As many answers are recorded as were expected.
  predicate Enough(m: Manager) {
    m.expected.Some? && 0 < m.expected.value <= |m.contractors|
  }

  // The announcement is over: with bids to choose from until a timeout, or without.
  predicate AnnouncementOver(m: Manager, n: Manager) {
    n == if SomeOpenBid(m.contractors) then m.(state := Closed, timer := Some(ClosedTimeout))
         else m.(state := Expired, timer := None)
  }

  /** The check that follows an answer leaves the manager as it is if and only if the contract is terminated or
      fewer answers are recorded than expected; otherwise the contract is closed if some bid is open, and expired
      if none is. */
  lemma CheckDecides(m: Manager)
    ensures var n := CheckIfShouldClose(m);
      if m.state.Terminated? || !Enough(m) then n == m else AnnouncementOver(m, n)
  {
    BidsListed(m.contractors);
  }

  lemma BidsListed(records: map<Key, Record>)
    ensures WithState(records, Bidding) != {} <==> SomeOpenBid(records)
  {
    if SomeOpenBid(records) {
      var k :| k in records && records[k].state.Bidding?;
      assert k in WithState(records, Bidding);
    }
  }

  /** A first answer to an announcement is recorded. Once enough are, a bid closes the announcement and a refusal
      closes it or lets it expire; until then the manager stays announced. A second answer of a contractor
      raises, and a manager that is not announced takes no notice. */
  lemma AnswerDecides(m: Manager, k: Key)
    requires m.outbox.Keys == m.contractors.Keys
    ensures m.state.Announced? && k !in m.contractors ==>
      var bid, refusal := OnBid(m, k).manager, OnRefusal(m, k).manager;
      var refused := m.(contractors := m.contractors[k := Record(Refusing, None)], outbox := m.outbox[k := []]);
      && !OnBid(m, k).raised
      && bid == m.(contractors := m.contractors[k := Record(Bidding, None)], outbox := m.outbox[k := []])
      && (if Enough(bid) then CheckIfShouldClose(bid).state.Closed? else CheckIfShouldClose(bid) == bid)
      && !OnRefusal(m, k).raised && (if Enough(refused) then AnnouncementOver(refused, refusal) else refusal == refused)
      && (SomeOpenBid(refused.contractors) <==> SomeOpenBid(m.contractors))
    ensures m.state.Announced? && k in m.contractors ==> OnBid(m, k) == OnRefusal(m, k) == Outcome(m, true)
    ensures !m.state.Announced? ==> OnBid(m, k) == OnRefusal(m, k) == Outcome(m, false)
    ensures OnDuplicate(m, k) == if k in m.contractors then Outcome(m, false) else OnRefusal(m, k)
  {
    if m.state.Announced? && k !in m.contractors {
      var bid := AddRecord(m, k, Bidding);
      assert bid.contractors[k].state.Bidding?;
      CheckDecides(bid);
      var refused := AddRecord(m, k, Refusing);
      OpenAsBefore(m.contractors, k);
      CheckDecides(refused);
    }
  }

  lemma OpenAsBefore(records: map<Key, Record>, k: Key)
    requires k !in records
    ensures SomeOpenBid(records[k := Record(Refusing, None)]) <==> SomeOpenBid(records)
  {
    var more := records[k := Record(Refusing, None)];
    if SomeOpenBid(records) {
      var j :| j in records && records[j].state.Bidding?;
      assert more[j].state.Bidding?;
    }
    if SomeOpenBid(more) {
      var j :| j in more && more[j].state.Bidding?;
      assert records[j].state.Bidding?;
    }
  }

  /** The announcement timeout ends the announced phase alike, and does nothing in any other state. */
  lemma ExpiryDecides(m: Manager)
    ensures var n := OnAnnounceExpire(m);
      if !m.state.Announced? then n == m
      else if SomeOpenBid(m.contractors) then n == m.(state := Closed, timer := Some(ClosedTimeout))
      else n == m.(state := Expired)
  {
    BidsListed(m.contractors);
  }

  predicate IsAnswer(a: Action) {
    a.BidHookReturned? || (a.ManagerHears? && (a.msg.BidMessage? || a.msg.Refusal? || a.msg.Duplicate?))
  }

  /** Over a run: no answer ends the announced phase before the number expected from the beginning is recorded. */
  lemma AnnouncedUntilEnough(ws: seq<World>, acts: seq<Action>, i: nat, expected: Option<nat>)
    requires IsRun(ws, acts) && ws[0] == Init(expected) && i < |acts| && IsAnswer(acts[i])
    requires ws[i].manager.state.Announced? && !ws[i + 1].manager.state.Announced?
    ensures expected.Some? && 0 < expected.value <= |ws[i + 1].manager.contractors|
  {
    ExpectedStays(ws, acts, i, expected);
    assert IsStep(ws[i], acts[i], ws[i + 1]);
    var m := ws[i].manager;
    match acts[i]
    case BidHookReturned => CheckDecides(m);
    case ManagerHears(k, _) => AnswerDecides(m, k);
    case _ =>
  }

  lemma {:induction false} ExpectedStays(ws: seq<World>, acts: seq<Action>, i: nat, expected: Option<nat>)
    requires IsRun(ws, acts) && ws[0] == Init(expected) && i < |ws|
    ensures ws[i].manager.expected == expected
  {
    if i > 0 {
      ExpectedStays(ws, acts, i - 1, expected);
      assert IsStep(ws[i - 1], acts[i - 1], ws[i]);
      ExpectedIsKept(ws[i - 1].manager, acts[i - 1]);
    }
  }

  lemma ExpectedIsKept(m: Manager, a: Action)
    requires m.outbox.Keys == m.contractors.Keys
    ensures ApplyManager(m, a).expected == m.expected
  {
    if a.ManagerHears? {
      HearingKeepsExpected(m, a.k, a.msg);
    }
  }

  lemma HearingKeepsExpected(m: Manager, k: Key, msg: ToManager)
    requires m.outbox.Keys == m.contractors.Keys
    ensures OnMessage(m, k, msg).manager.expected == m.expected
  {
  }

  // ---------------------------------------------------------------- messages handed over

  predicate Working(s: RecordState) {
    s.GrantSent? || s.Reported?
  }

  // Every contractor with a grant in its hands, k apart, has reported already.
  predicate OnlyOneOut(records: map<Key, Record>, k: Key) {
    forall j | j in records && records[j].state.GrantSent? :: j == k
  }

  // The grant list names k, and no unknown bid before it.
  predicate NamedInTime(records: map<Key, Record>, bids: seq<Key>, k: Key) {
    exists i :: 0 <= i < |bids| && bids[i] == k && forall j | 0 <= j < i :: bids[j] in records
  }

  // All the ways in which a bid is refused.
  predicate Rejects(m: Manager, a: Action, k: Key) {
    || a.CallTerminate?
    || (a == CallReject(k) && (m.state.Announced? || m.state.Granted? || m.state.Closed?))
    || (a.CallGrant? && (m.state.Announced? || m.state.Closed?) && k !in a.bids
        && forall j | j in a.bids :: j in m.contractors)
  }

  predicate Grants(m: Manager, a: Action, k: Key) {
    a.CallGrant? && (m.state.Announced? || m.state.Closed?) && NamedInTime(m.contractors, a.bids, k)
  }

  predicate Cancels(m: Manager, a: Action) {
    || (a.CallCancel? && (m.state.Granted? || m.state.Cancelled?))
    || (a.ManagerHears? && a.msg.Defection? && m.state.Granted? && a.k in m.contractors)
  }

  // The last report comes in.
  predicate Completes(m: Manager, a: Action) {
    a.ManagerHears? && a.msg.FinalReport? && m.state.Granted? && a.k in m.contractors && OnlyOneOut(m.contractors, a.k)
  }

  // What step `a` of the manager owes its contractor k, whose record is in state `s`.
  function Due(m: Manager, a: Action, k: Key, s: RecordState): seq<ToContractor> {
    if s.Bidding? then (if Grants(m, a, k) then [Grant] else if Rejects(m, a, k) then [Rejection] else [])
    else if Working(s) && Completes(m, a) then [Acknowledgement]
    else if Working(s) && Cancels(m, a) then [Cancellation]
    else []
  }

  /** In every step a manager hands over to each of its contractors exactly what is due then, and appends it to
      what it has handed over before. */
  lemma HandsOverExactly(m: Manager, a: Action, k: Key)
    requires m.outbox.Keys == m.contractors.Keys && k in m.contractors
    ensures Sent(ApplyManager(m, a), k) == m.outbox[k] + Due(m, a, k, m.contractors[k].state)
  {
    match a
    case CallReject(j) => SentOnce(m, {j}, Rejection, k);
    case CallGrant(bids) => GrantsExactly(m, bids, k);
    case CallCancel => CancelsExactly(m, a, k);
    case CallTerminate => SentOnce(m, m.contractors.Keys, Rejection, k);
    case ManagerHears(j, FinalReport(r)) => CompletesExactly(m, j, r, k);
    case ManagerHears(j, Defection) => CancelsExactly(m, a, k);
    case _ => SendsNothing(m, a, k);
  }

  lemma CancelsExactly(m: Manager, a: Action, k: Key)
    requires m.outbox.Keys == m.contractors.Keys && k in m.contractors
    requires a.CallCancel? || (a.ManagerHears? && a.msg.Defection?)
    ensures Sent(ApplyManager(m, a), k) == m.outbox[k] + Due(m, a, k, m.contractors[k].state)
  {
    SentOnce(m.(state := Cancelled), m.contractors.Keys, Cancellation, k);
  }

  lemma SendsNothing(m: Manager, a: Action, k: Key)
    requires m.outbox.Keys == m.contractors.Keys && k in m.contractors
    requires !a.CallReject? && !a.CallGrant? && !a.CallCancel? && !a.CallTerminate?
    requires a.ManagerHears? ==> !a.msg.FinalReport? && !a.msg.Defection?
    ensures Sent(ApplyManager(m, a), k) == m.outbox[k]
  {
    if !a.CallElect? && !a.ManagerHears? {
      RecordsUntouched(m, a);
    }
  }

  lemma SentOnce(m: Manager, keys: set<Key>, msg: ToContractor, k: Key)
    requires m.outbox.Keys == m.contractors.Keys && k in m.contractors
    ensures Sent(SendAll(m, keys, msg), k)
            == m.outbox[k] + if k in keys && Fire(m.contractors[k].state, msg).Some? then [msg] else []
  {
  }

  // Grants for some, then rejections for all that are left.
  lemma SentTwice(m: Manager, keys: set<Key>, k: Key)
    requires m.outbox.Keys == m.contractors.Keys && k in m.contractors
    ensures Sent(SendAll(SendAll(m, keys, Grant), m.contractors.Keys, Rejection), k)
            == m.outbox[k]
               + if m.contractors[k].state.Bidding? then [if k in keys then Grant else Rejection] else []
  {
    SentOnce(m, keys, Grant, k);
    SentOnce(SendAll(m, keys, Grant), m.contractors.Keys, Rejection, k);
  }

  lemma GrantsExactly(m: Manager, bids: seq<Key>, k: Key)
    requires m.outbox.Keys == m.contractors.Keys && k in m.contractors
    ensures Sent(GrantBids(m, bids).manager, k) == m.outbox[k] + Due(m, CallGrant(bids), k, m.contractors[k].state)
  {
    if m.state.Announced? || m.state.Closed? {
      var n := KnownPrefix(bids, m.contractors.Keys);
      var open, keys := m.(state := Granted, timer := Some(GrantTimeout)), Elements(bids[..n]);
      PrefixNames(m.contractors, bids, k);
      if n < |bids| {
        SentOnce(open, keys, Grant, k);
        assert bids[n] in bids;
        assert GrantBids(m, bids).manager == SendAll(open, keys, Grant);
      } else {
        SentTwice(open, keys, k);
        assert bids[..n] == bids;
        assert GrantBids(m, bids).manager == SendAll(SendAll(open, keys, Grant), m.contractors.Keys, Rejection);
      }
    }
  }

  lemma PrefixNames(records: map<Key, Record>, bids: seq<Key>, k: Key)
    requires k in records
    ensures k in Elements(bids[..KnownPrefix(bids, records.Keys)]) <==> NamedInTime(records, bids, k)
  {
    var n := KnownPrefix(bids, records.Keys);
    if k in bids[..n] {
      var i :| 0 <= i < n && bids[..n][i] == k;
      assert bids[i] == k;
    }
    if NamedInTime(records, bids, k) {
      var i :| 0 <= i < |bids| && bids[i] == k && forall j | 0 <= j < i :: bids[j] in records;
      assert i < n;
      assert bids[..n][i] == k;
    }
  }

  lemma CompletesExactly(m: Manager, j: Key, report: int, k: Key)
    requires m.outbox.Keys == m.contractors.Keys && k in m.contractors
    ensures Sent(OnReport(m, j, report), k)
            == m.outbox[k] + Due(m, ManagerHears(j, FinalReport(report)), k, m.contractors[k].state)
  {
    if m.state.Granted? && j in m.contractors {
      NobodyOut(m.contractors, j, report);
      var noted := m.(contractors := m.contractors[j := RecordReport(m.contractors[j], report)]);
      if OnlyOneOut(m.contractors, j) {
        SentOnce(noted.(state := Completed, timer := None), noted.contractors.Keys, Acknowledgement, k);
      }
    }
  }

  lemma NobodyOut(records: map<Key, Record>, j: Key, report: int)
    requires j in records
    ensures WithState(records[j := RecordReport(records[j], report)], GrantSent) == {} <==> OnlyOneOut(records, j)
  {
    var noted := records[j := RecordReport(records[j], report)];
    var out := WithState(noted, GrantSent);
    if OnlyOneOut(records, j) {
      assert forall i | i in noted :: !noted[i].state.GrantSent?;
    } else {
      var i :| i in records && records[i].state.GrantSent? && i != j;
      assert i in out;
    }
  }

  // ---------------------------------------------------------------- records

  // The report of k comes in while it is working.
  predicate Delivers(m: Manager, a: Action, k: Key) {
    && a.ManagerHears? && a.msg.FinalReport? && a.k == k && m.state.Granted?
    && k in m.contractors && m.contractors[k].state.GrantSent?
  }

  // The record of k once step `a` is done.
  function RecordAfter(m: Manager, a: Action, k: Key): Record
    requires k in m.contractors
  {
    var r, due := m.contractors[k], Due(m, a, k, m.contractors[k].state);
    var report := if Delivers(m, a, k) then Some(a.msg.report) else r.report;
    if due == [Rejection] then r.(state := RejectedBid)
    else if due == [Grant] then r.(state := GrantSent)
    else if due == [Cancellation] then r.(state := CancelSent)
    else if due == [Acknowledgement] then Record(AckSent, report)
    else if a == CallElect(k) then r.(state := Elected)
    else if Delivers(m, a, k) then Record(Reported, report)
    else r
  }

  /** In every step each record becomes what was handed over for it; it notes a report only when that comes in,
      and an election only when it is elected. Records are never dropped. */
  lemma RecordsFollow(m: Manager, a: Action, k: Key)
    requires m.outbox.Keys == m.contractors.Keys && k in m.contractors
    ensures k in ApplyManager(m, a).contractors && ApplyManager(m, a).contractors[k] == RecordAfter(m, a, k)
  {
    match a
    case CallGrant(bids) => GrantRecords(m, bids, k);
    case ManagerHears(j, FinalReport(r)) => CompleteRecords(m, j, r, k);
    case ManagerHears(j, Defection) => CancelRecords(m, a, k);
    case CallCancel => CancelRecords(m, a, k);
    case CallTerminate => RecordsSent(m, m.contractors.Keys, Rejection, k);
    case CallReject(j) => RecordsSent(m, {j}, Rejection, k);
    case _ => QuietRecords(m, a, k);
  }

  lemma RecordsSent(m: Manager, keys: set<Key>, msg: ToContractor, k: Key)
    requires m.outbox.Keys == m.contractors.Keys && k in m.contractors
    ensures SendAll(m, keys, msg).contractors.Keys == m.contractors.Keys
    ensures SendAll(m, keys, msg).contractors[k]
            == if k in keys then RecordEvent(m.contractors[k], msg) else m.contractors[k]
  {
  }

  lemma CancelRecords(m: Manager, a: Action, k: Key)
    requires m.outbox.Keys == m.contractors.Keys && k in m.contractors
    requires a.CallCancel? || (a.ManagerHears? && a.msg.Defection?)
    ensures k in ApplyManager(m, a).contractors && ApplyManager(m, a).contractors[k] == RecordAfter(m, a, k)
  {
    RecordsSent(m.(state := Cancelled), m.contractors.Keys, Cancellation, k);
  }

  lemma QuietRecords(m: Manager, a: Action, k: Key)
    requires m.outbox.Keys == m.contractors.Keys && k in m.contractors
    requires !a.CallReject? && !a.CallGrant? && !a.CallCancel? && !a.CallTerminate?
    requires a.ManagerHears? ==> !a.msg.FinalReport? && !a.msg.Defection?
    ensures k in ApplyManager(m, a).contractors && ApplyManager(m, a).contractors[k] == RecordAfter(m, a, k)
  {
    if a.ManagerHears? {
      assert Due(m, a, k, m.contractors[k].state) == [];
    } else if !a.CallElect? {
      RecordsUntouched(m, a);
    }
  }

  lemma GrantRecords(m: Manager, bids: seq<Key>, k: Key)
    requires m.outbox.Keys == m.contractors.Keys && k in m.contractors
    ensures k in GrantBids(m, bids).manager.contractors
    ensures GrantBids(m, bids).manager.contractors[k] == RecordAfter(m, CallGrant(bids), k)
  {
    if (m.state.Announced? || m.state.Closed?) && m.contractors[k].state.Bidding? {
      GrantDue(m, bids, k);
      PrefixNames(m.contractors, bids, k);
    }
    GrantedRecord(m, bids, k);
  }

  lemma GrantedRecord(m: Manager, bids: seq<Key>, k: Key)
    requires m.outbox.Keys == m.contractors.Keys && k in m.contractors
    ensures var r, n := m.contractors[k], KnownPrefix(bids, m.contractors.Keys);
      && k in GrantBids(m, bids).manager.contractors
      && GrantBids(m, bids).manager.contractors[k]
         == if !(m.state.Announced? || m.state.Closed?) || !r.state.Bidding? then r
            else if k in Elements(bids[..n]) then r.(state := GrantSent)
            else if n == |bids| then r.(state := RejectedBid)
            else r
  {
    var n := KnownPrefix(bids, m.contractors.Keys);
    GrantContractors(m, bids);
    if n < |bids| {
      EventAt(m.contractors, Elements(bids[..n]), Grant, k);
    } else {
      EventsAt(m.contractors, Elements(bids[..n]), k);
    }
  }

  lemma GrantContractors(m: Manager, bids: seq<Key>)
    requires m.outbox.Keys == m.contractors.Keys
    ensures var n := KnownPrefix(bids, m.contractors.Keys);
      GrantBids(m, bids).manager.contractors
      == if !(m.state.Announced? || m.state.Closed?) then m.contractors
         else if n < |bids| then EventAll(m.contractors, Elements(bids[..n]), Grant)
         else EventAll(EventAll(m.contractors, Elements(bids[..n]), Grant), m.contractors.Keys, Rejection)
  {
  }

  lemma EventAt(records: map<Key, Record>, keys: set<Key>, msg: ToContractor, k: Key)
    requires k in records
    ensures EventAll(records, keys, msg).Keys == records.Keys
    ensures EventAll(records, keys, msg)[k] == if k in keys then RecordEvent(records[k], msg) else records[k]
  {
  }

  lemma EventsAt(records: map<Key, Record>, keys: set<Key>, k: Key)
    requires k in records
    ensures var r, after := records[k], EventAll(EventAll(records, keys, Grant), records.Keys, Rejection);
      && k in after
      && after[k] == if r.state.Bidding? then r.(state := if k in keys then GrantSent else RejectedBid) else r
  {
    EventAt(records, keys, Grant, k);
    EventAt(EventAll(records, keys, Grant), records.Keys, Rejection, k);
  }

  lemma GrantDue(m: Manager, bids: seq<Key>, k: Key)
    requires k in m.contractors && m.contractors[k].state.Bidding? && (m.state.Announced? || m.state.Closed?)
    ensures Due(m, CallGrant(bids), k, Bidding)
            == if NamedInTime(m.contractors, bids, k) then [Grant]
               else if KnownPrefix(bids, m.contractors.Keys) == |bids| then [Rejection]
               else []
  {
    var n := KnownPrefix(bids, m.contractors.Keys);
    PrefixNames(m.contractors, bids, k);
    if n < |bids| {
      assert bids[n] in bids;
    } else {
      assert bids[..n] == bids;
    }
  }

  lemma CompleteRecords(m: Manager, j: Key, report: int, k: Key)
    requires m.outbox.Keys == m.contractors.Keys && k in m.contractors
    ensures OnReport(m, j, report).contractors.Keys == m.contractors.Keys
    ensures OnReport(m, j, report).contractors[k] == RecordAfter(m, ManagerHears(j, FinalReport(report)), k)
  {
    if m.state.Granted? && j in m.contractors {
      NobodyOut(m.contractors, j, report);
    }
  }
}
