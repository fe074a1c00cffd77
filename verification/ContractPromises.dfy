// What the contract protocol promises over every run, however messages are lost, delayed or repeated.

module ContractPromises {
  import opened Wrappers
  import opened Contracts
  import opened ContractRuns
  import opened ContractInvariants

  // ---------------------------------------------------------------- what holds over every run

  lemma {:induction false} InvOverRun(ws: seq<World>, acts: seq<Action>, i: nat)
    requires IsDisciplinedRun(ws, acts) && i < |ws|
    ensures forall j | 0 <= j <= i :: WorldInv(ws[j])
  {
    if i > 0 {
      InvOverRun(ws, acts, i - 1);
      assert ws[i] == Apply(ws[i - 1], acts[i - 1]);
      WorldInvPreserved(ws[i - 1], acts[i - 1]);
    }
  }

  lemma {:induction false} OutboxOverRun(ws: seq<World>, acts: seq<Action>, i: nat, j: nat, k: Key)
    requires IsRun(ws, acts) && i <= j < |ws|
    ensures Sent(ws[i].manager, k) <= Sent(ws[j].manager, k)
  {
    if i < j {
      OutboxOverRun(ws, acts, i, j - 1, k);
      var w, a := ws[j - 1], acts[j - 1];
      assert ws[j] == Apply(w, a);
      ManagerGrows(w, a);
    }
  }

  /** All or nothing: a manager never sends both an acknowledgement and a cancellation, and once it
      has acknowledged one contractor, every contractor it ever granted has been acknowledged too
      and has really sent the report the manager holds. */
  lemma AllOrNothing(ws: seq<World>, acts: seq<Action>, i: nat, k: Key)
    requires IsDisciplinedRun(ws, acts) && i < |ws|
    requires Acknowledgement in Sent(ws[i].manager, k)
    ensures forall k' ::
      && Cancellation !in Sent(ws[i].manager, k')
      && (Grant in Sent(ws[i].manager, k') ==>
            && Acknowledgement in Sent(ws[i].manager, k')
            && k' in ws[i].manager.contractors && ws[i].manager.contractors[k'].report.Some?
            && k' in ws[i].peers
            && FinalReport(ws[i].manager.contractors[k'].report.value) in ws[i].peers[k'].sent)
  {
    InvOverRun(ws, acts, i);
  }

  /** The two parties agree: what a contractor believes was decided for it is what the manager's
      record says, and the report of an acknowledged contractor is the one the manager holds. */
  lemma TwoPartyAgreement(ws: seq<World>, acts: seq<Action>, i: nat)
    requires IsDisciplinedRun(ws, acts) && i < |ws|
    ensures forall k | k in ws[i].peers ::
            var c, records := ws[i].peers[k], ws[i].manager.contractors;
            && (c.state.Rejected? ==> k in records && records[k].state.RejectedBid?)
            && (c.state.Granted? || c.state.Completed? || c.state.Defected? ==>
                  k in records && WasGranted(records[k]))
            && (c.state.Cancelled? ==> k in records && records[k].state.CancelSent?)
            && (c.state.Acknowledged? ==>
                  && k in records && records[k].state.AckSent?
                  && records[k].report.Some?
                  && forall r :: FinalReport(r) in c.sent <==> r == records[k].report.value)
  {
    InvOverRun(ws, acts, i);
    forall k | k in ws[i].peers ensures PeerInv(ws[i].peers[k], Sent(ws[i].manager, k)) {
    }
  }

  // A contractor that once entered `granted` is never sent a rejection, before or after.
  lemma GrantedIsNeverRejected(ws: seq<World>, acts: seq<Action>, i: nat, j: nat, k: Key)
    requires IsDisciplinedRun(ws, acts) && i < |ws| && j < |ws|
    requires k in ws[i].peers && ws[i].peers[k].state.Granted?
    ensures Rejection !in Sent(ws[j].manager, k)
  {
    InvOverRun(ws, acts, i);
    InvOverRun(ws, acts, j);
    assert PeerInv(ws[i].peers[k], Sent(ws[i].manager, k));
    if i <= j {
      OutboxOverRun(ws, acts, i, j, k);
    } else {
      OutboxOverRun(ws, acts, j, i, k);
    }
  }

  // No sequence but these is ever handed over for one contractor, and which one is told by its record.
  lemma OneVerdictEach(ws: seq<World>, acts: seq<Action>, i: nat, k: Key)
    requires IsDisciplinedRun(ws, acts) && i < |ws|
    ensures k in ws[i].manager.contractors ==>
              Sent(ws[i].manager, k) == Script(ws[i].manager.contractors[k].state)
    ensures Sent(ws[i].manager, k) in
              {[], [Rejection], [Grant], [Grant, Cancellation], [Grant, Acknowledgement]}
  {
    InvOverRun(ws, acts, i);
  }

  // ---------------------------------------------------------------- the verdict is final

  ghost predicate Settled(m: Manager) {
    && m.outbox.Keys == m.contractors.Keys
    && !m.state.Initiated? && !m.state.Announced?
    && !Undecided(m.contractors)
  }

  lemma EventSettles(records: map<Key, Record>, keys: set<Key>, msg: ToContractor)
    ensures !Undecided(records) ==> !Undecided(EventAll(records, keys, msg))
    ensures !Undecided(EventAll(records, records.Keys, Rejection))
  {
    var after := EventAll(records, keys, msg);
    assert forall k | k in after :: after[k].state.Bidding? ==> records[k].state.Bidding?;
    var rejected := EventAll(records, records.Keys, Rejection);
    assert forall k | k in rejected :: !rejected[k].state.Bidding?;
  }

  lemma HearingSettles(m: Manager, k: Key, msg: ToManager)
    requires Settled(m)
    ensures Settled(OnMessage(m, k, msg).manager)
  {
    match msg
    case FinalReport(r) =>
      if k in m.contractors {
        EventSettles(m.contractors[k := RecordReport(m.contractors[k], r)], m.contractors.Keys, Acknowledgement);
      }
    case Defection => EventSettles(m.contractors, m.contractors.Keys, Cancellation);
    case _ =>
  }

  lemma {:induction false} SettledForGood(w: World, a: Action)
    requires Settled(w.manager) && Disciplined(w, a)
    ensures Settled(ApplyManager(w.manager, a))
  {
    var m := w.manager;
    match a
    case CallReject(k) => EventSettles(m.contractors, {k}, Rejection);
    case CallGrant(bids) => GrantingSettles(m, bids);
    case CallElect(_) =>
    case CallCancel => EventSettles(m.contractors, m.contractors.Keys, Cancellation);
    case CallTerminate => EventSettles(m.contractors, m.contractors.Keys, Rejection);
    case ManagerHears(k, msg) => HearingSettles(m, k, msg);
    case _ => RecordsUntouched(m, a);
  }

  lemma GrantingSettles(m: Manager, bids: seq<Key>)
    requires m.outbox.Keys == m.contractors.Keys && CompleteGrant(m, bids)
    ensures m.state.Announced? || m.state.Closed? ==> Settled(GrantBids(m, bids).manager)
    ensures Settled(m) ==> Settled(GrantBids(m, bids).manager)
  {
    if m.state.Announced? || m.state.Closed? {
      CompleteGrantIs(m, bids);
      var n := KnownPrefix(bids, m.contractors.Keys);
      EventSettles(EventAll(m.contractors, Elements(bids[..n]), Grant), m.contractors.Keys, Rejection);
    }
  }

  lemma GrantVerdicts(m: Manager, bids: seq<Key>, k: Key)
    requires m.outbox.Keys == m.contractors.Keys && (m.state.Announced? || m.state.Closed?) && CompleteGrant(m, bids)
    requires k in m.contractors && m.contractors[k].state.Bidding? && m.outbox[k] == []
    ensures Sent(GrantBids(m, bids).manager, k) == if k in bids then [Grant] else [Rejection]
  {
    CompleteGrantIs(m, bids);
  }

  lemma {:induction false} SettledOverRun(ws: seq<World>, acts: seq<Action>, i: nat, j: nat)
    requires IsDisciplinedRun(ws, acts) && i <= j < |ws| && Settled(ws[i].manager)
    ensures forall k | i <= k <= j :: Settled(ws[k].manager)
  {
    if i < j {
      SettledOverRun(ws, acts, i, j - 1);
      assert ws[j] == Apply(ws[j - 1], acts[j - 1]);
      SettledForGood(ws[j - 1], acts[j - 1]);
    }
  }

  predicate GivesVerdict(m: Manager, a: Action) {
    a.CallTerminate? || (a.CallGrant? && (m.state.Announced? || m.state.Closed?))
  }

  ghost predicate VerdictsGiven(m: Manager, a: Action, n: Manager)
    requires m.outbox.Keys == m.contractors.Keys
  {
    forall k | k in m.contractors && m.contractors[k].state.Bidding? ::
      Sent(n, k) == if a.CallGrant? && k in a.bids then [Grant] else [Rejection]
  }

  lemma VerdictGiven(w: World, a: Action)
    requires ManagerInv(w.manager) && Disciplined(w, a) && GivesVerdict(w.manager, a)
    ensures Settled(ApplyManager(w.manager, a))
    ensures VerdictsGiven(w.manager, a, ApplyManager(w.manager, a))
  {
    var m := w.manager;
    assert forall k | k in m.contractors :: RecordInv(m.contractors[k], m.outbox[k]);
    if a.CallTerminate? {
      EventSettles(m.contractors, m.contractors.Keys, Rejection);
    } else {
      GrantingSettles(m, a.bids);
      forall k | k in m.contractors && m.contractors[k].state.Bidding?
        ensures Sent(GrantBids(m, a.bids).manager, k) == if k in a.bids then [Grant] else [Rejection]
      {
        GrantVerdicts(m, a.bids, k);
      }
    }
  }

  /** Once the manager has granted, or has been terminated, no recorded bid is undecided at any later
      point, and that step has given every bid that was open exactly one verdict. */
  lemma VerdictIsFinal(ws: seq<World>, acts: seq<Action>, i: nat, j: nat)
    requires IsDisciplinedRun(ws, acts) && i < |acts| && i < j < |ws|
    requires GivesVerdict(ws[i].manager, acts[i])
    ensures !Undecided(ws[j].manager.contractors)
    ensures VerdictsGiven(ws[i].manager, acts[i], ws[i + 1].manager)
  {
    InvOverRun(ws, acts, i);
    assert ws[i + 1] == Apply(ws[i], acts[i]);
    VerdictGiven(ws[i], acts[i]);
    SettledOverRun(ws, acts, i + 1, j);
  }
}
