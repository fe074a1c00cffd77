// Runs of the contract protocol: one that shows contracts can be completed, and two that show what goes
// wrong when the manager's agent side does not respect the discipline.

module ContractExamples {
  import opened Wrappers
  import opened Contracts
  import opened ContractRuns
  import opened ContractInvariants

  // ---------------------------------------------------------------- contracts can be completed

  // Where a contract with a single contractor stands.
  ghost predicate Stands(w: World, k: Key, m: ContractState, r: Option<RecordState>, sent: seq<ToContractor>,
                         p: Option<ContractState>, heard: set<ToManager>) {
    && w.announced && w.manager.state == m
    && w.manager.contractors.Keys == w.manager.outbox.Keys == (if r.Some? then {k} else {})
    && (r.Some? ==> w.manager.contractors[k].state == r.value && w.manager.outbox[k] == sent)
    && w.peers.Keys == (if p.Some? then {k} else {})
    && (p.Some? ==> w.peers[k].state == p.value && w.peers[k].sent == heard)
  }

  // A run going on from `before` takes the actions and ends in `w`; all of them are disciplined if `calm`.
  ghost predicate Reaches(before: seq<World>, acts: seq<Action>, w: World, calm: bool) {
    exists ws :: before <= ws && IsRun(ws, acts) && ws[|acts|] == w && (calm ==> IsDisciplinedRun(ws, acts))
  }

  // It is continued by one step.
  lemma OneMore(before: seq<World>, acts: seq<Action>, w: World, calm: bool, a: Action, v: World)
    returns (acts': seq<Action>)
    requires Reaches(before, acts, w, calm) && w.manager.outbox.Keys == w.manager.contractors.Keys
    requires Enabled(w, a) && v == Apply(w, a) && (calm ==> Disciplined(w, a))
    ensures acts' == acts + [a] && Reaches(before, acts', v, calm)
  {
    acts' := acts + [a];
    var ws :| before <= ws && IsRun(ws, acts) && ws[|acts|] == w && (calm ==> IsDisciplinedRun(ws, acts));
    var ws' := ws + [v];
    if calm {
      StaysDisciplined(ws, acts, ws', acts');
    }
    assert ws'[|acts'|] == v;
  }

  lemma StaysDisciplined(ws: seq<World>, acts: seq<Action>, ws': seq<World>, acts': seq<Action>)
    requires IsDisciplinedRun(ws, acts) && IsRun(ws', acts') && ws <= ws' && acts <= acts' && |acts'| == |acts| + 1
    requires Disciplined(ws[|acts|], acts'[|acts|])
    ensures IsDisciplinedRun(ws', acts')
  {
    forall i {:trigger acts'[i]} | 0 <= i < |acts'| ensures Disciplined(ws'[i], acts'[i]) {
      assert ws'[i] == ws[i];
      assert i < |acts| ==> acts'[i] == acts[i];
    }
  }

  lemma GetsABid(expected: Option<nat>, k: Key) returns (w0: World, w1: World, w2: World, w3: World)
    ensures w0 == Apply(Init(expected), CallAnnounce) && w0.manager.outbox.Keys == w0.manager.contractors.Keys
    ensures Enabled(w0, Spawn(k)) && w1 == Apply(w0, Spawn(k)) && w1.manager == w0.manager
    ensures Enabled(w1, PeerHearsAnnouncement(k)) && w2 == Apply(w1, PeerHearsAnnouncement(k))
              && w2.manager == w0.manager
    ensures Enabled(w2, CallBid(k)) && w3 == Apply(w2, CallBid(k))
    ensures Stands(w3, k, Announced, None, [], Some(Bid), {BidMessage})
  {
    w0 := Apply(Init(expected), CallAnnounce);
    w1 := Apply(w0, Spawn(k));
    w2 := Apply(w1, PeerHearsAnnouncement(k));
    w3 := Apply(w2, CallBid(k));
  }

  lemma HearsABid(w: World, k: Key) returns (v: World)
    requires Stands(w, k, Announced, None, [], Some(Bid), {BidMessage})
    ensures Enabled(w, ManagerHears(k, BidMessage)) && v == Apply(w, ManagerHears(k, BidMessage))
    ensures Stands(v, k, Announced, Some(Bidding), [], Some(Bid), {BidMessage})
  {
    v := Apply(w, ManagerHears(k, BidMessage));
  }

  lemma {:induction false} GrantsTheBid(w: World, k: Key) returns (v: World)
    requires Stands(w, k, Announced, Some(Bidding), [], Some(Bid), {BidMessage})
    ensures Disciplined(w, CallGrant([k])) && v == Apply(w, CallGrant([k]))
    ensures Stands(v, k, Granted, Some(GrantSent), [Grant], Some(Bid), {BidMessage})
  {
    assert [k][1..] == [];
    assert KnownPrefix([k], w.manager.contractors.Keys) == 1;
    assert [k][..1] == [k];
    assert Elements([k]) == {k};
    v := Apply(w, CallGrant([k]));
  }

  lemma DoesTheWork(w: World, k: Key, report: int) returns (v: World, v': World)
    requires Stands(w, k, Granted, Some(GrantSent), [Grant], Some(Bid), {BidMessage})
    ensures Enabled(w, PeerHears(k, Grant)) && v == Apply(w, PeerHears(k, Grant)) && v.manager == w.manager
    ensures Enabled(v, CallComplete(k, report)) && v' == Apply(v, CallComplete(k, report))
    ensures Stands(v', k, Granted, Some(GrantSent), [Grant], Some(Completed), {BidMessage, FinalReport(report)})
  {
    v := Apply(w, PeerHears(k, Grant));
    v' := Apply(v, CallComplete(k, report));
  }

  lemma ReportsTheWork(w: World, k: Key, report: int) returns (v: World)
    requires Stands(w, k, Granted, Some(GrantSent), [Grant], Some(Completed), {BidMessage, FinalReport(report)})
    ensures Enabled(w, ManagerHears(k, FinalReport(report))) && v == Apply(w, ManagerHears(k, FinalReport(report)))
    ensures Stands(v, k, Completed, Some(AckSent), [Grant, Acknowledgement], Some(Completed),
                   {BidMessage, FinalReport(report)})
  {
    LastReportCompletes(w.manager, k, report);
    v := w.(manager := OnReport(w.manager, k, report));
  }

  // The report of the only contractor completes the contract.
  lemma LastReportCompletes(m: Manager, k: Key, report: int)
    requires m.contractors.Keys == m.outbox.Keys == {k} && m.contractors[k].state.GrantSent? && m.state.Granted?
    ensures var n := OnReport(m, k, report);
      && n.state.Completed? && n.contractors.Keys == n.outbox.Keys == {k}
      && n.contractors[k].state.AckSent? && n.outbox[k] == m.outbox[k] + [Acknowledgement]
  {
    var noted := m.(contractors := m.contractors[k := RecordReport(m.contractors[k], report)]);
    assert WithState(noted.contractors, GrantSent) == {};
    assert OnReport(m, k, report) == Complete(noted);
  }

  lemma HearsTheAcknowledgement(w: World, k: Key, report: int) returns (v: World)
    requires Stands(w, k, Completed, Some(AckSent), [Grant, Acknowledgement], Some(Completed),
                    {BidMessage, FinalReport(report)})
    ensures Enabled(w, PeerHears(k, Acknowledgement)) && v == Apply(w, PeerHears(k, Acknowledgement))
    ensures Stands(v, k, Completed, Some(AckSent), [Grant, Acknowledgement], Some(Acknowledged),
                   {BidMessage, FinalReport(report)})
  {
    v := Apply(w, PeerHears(k, Acknowledgement));
  }

  lemma AtTheStart(expected: Option<nat>)
    ensures Reaches([], [], Init(expected), true)
  {
    var ws := [Init(expected)];
    assert ws[0] == Init(expected);
    assert IsDisciplinedRun(ws, []);
  }

  lemma RunToTheBid(expected: Option<nat>, k: Key) returns (acts: seq<Action>, w: World)
    ensures Reaches([], acts, w, true) && Stands(w, k, Announced, None, [], Some(Bid), {BidMessage})
  {
    AtTheStart(expected);
    var w0, w1, w2, w3 := GetsABid(expected, k);
    acts := OneMore([], [], Init(expected), true, CallAnnounce, w0);
    acts := OneMore([], acts, w0, true, Spawn(k), w1);
    acts := OneMore([], acts, w1, true, PeerHearsAnnouncement(k), w2);
    acts := OneMore([], acts, w2, true, CallBid(k), w3);
    w := w3;
  }

  lemma RunToTheGrant(expected: Option<nat>, k: Key) returns (acts: seq<Action>, w: World)
    ensures Reaches([], acts, w, true) && Stands(w, k, Granted, Some(GrantSent), [Grant], Some(Bid), {BidMessage})
  {
    acts, w := RunToTheBid(expected, k);
    var v := HearsABid(w, k);
    acts := OneMore([], acts, w, true, ManagerHears(k, BidMessage), v);
    w := GrantsTheBid(v, k);
    acts := OneMore([], acts, v, true, CallGrant([k]), w);
  }

  /** The results about runs are not empty: for any contractor and report there is a run within the assumptions
      at whose end the manager has acknowledged the contractor and the contractor knows it. */
  lemma ContractCanComplete(expected: Option<nat>, k: Key, report: int) returns (ws: seq<World>, acts: seq<Action>)
    ensures IsDisciplinedRun(ws, acts)
    ensures Stands(ws[|acts|], k, Completed, Some(AckSent), [Grant, Acknowledgement], Some(Acknowledged),
                   {BidMessage, FinalReport(report)})
  {
    var w;
    acts, w := RunToTheGrant(expected, k);
    var v, v' := DoesTheWork(w, k, report);
    acts := OneMore([], acts, w, true, PeerHears(k, Grant), v);
    acts := OneMore([], acts, v, true, CallComplete(k, report), v');
    v := ReportsTheWork(v', k, report);
    acts := OneMore([], acts, v', true, ManagerHears(k, FinalReport(report)), v);
    v' := HearsTheAcknowledgement(v, k, report);
    acts := OneMore([], acts, v, true, PeerHears(k, Acknowledgement), v');
    ws :| [] <= ws && IsRun(ws, acts) && ws[|acts|] == v' && IsDisciplinedRun(ws, acts);
  }

  // ---------------------------------------------------------------- why the discipline is needed

  // A manager with two contractors: their records and what was handed over for them.
  ghost predicate Pair(m: Manager, a: Record, sentA: seq<ToContractor>, b: Record, sentB: seq<ToContractor>) {
    && m.contractors.Keys == {1, 2} && m.outbox.Keys == {1, 2}
    && m.contractors[1] == a && m.contractors[2] == b
    && m.outbox[1] == sentA && m.outbox[2] == sentB
  }

  function Appended(sent: seq<ToContractor>, r: Record, hit: bool, msg: ToContractor): seq<ToContractor> {
    if hit && Fire(r.state, msg).Some? then sent + [msg] else sent
  }

  lemma PairReports(m: Manager, a: Record, sentA: seq<ToContractor>, b: Record, sentB: seq<ToContractor>, k: Key,
                    report: int)
    requires Pair(m, a, sentA, b, sentB) && m.state.Granted? && k in {1, 2}
    ensures var a', b' := if k == 1 then RecordReport(a, report) else a, if k == 2 then RecordReport(b, report) else b;
      !a'.state.GrantSent? && !b'.state.GrantSent? ==>
        && Pair(OnReport(m, k, report), RecordEvent(a', Acknowledgement), Appended(sentA, a', true, Acknowledgement),
                RecordEvent(b', Acknowledgement), Appended(sentB, b', true, Acknowledgement))
        && OnReport(m, k, report).state.Completed? && OnReport(m, k, report).expected == m.expected
  {
    var noted := m.(contractors := m.contractors[k := RecordReport(m.contractors[k], report)]);
    var a', b' := noted.contractors[1], noted.contractors[2];
    if !a'.state.GrantSent? && !b'.state.GrantSent? {
      assert WithState(noted.contractors, GrantSent) == {};
    }
  }

  lemma ElectedOne(m: Manager)
    requires Pair(m, Record(GrantSent, None), [Grant], Record(GrantSent, None), [Grant])
    ensures Pair(Elect(m, 1), Record(Elected, None), [Grant], Record(GrantSent, None), [Grant])
              && Elect(m, 1).state == m.state
  {
  }

  lemma BothGranted(m: Manager)
    requires Pair(m, Record(Bidding, None), [], Record(Bidding, None), []) && m.state.Announced?
    ensures var both := GrantBids(m, [1, 2]).manager;
      both.state.Granted? && Pair(both, Record(GrantSent, None), [Grant], Record(GrantSent, None), [Grant])
  {
    var open := m.(state := Granted, timer := Some(GrantTimeout));
    assert [1, 2][1..] == [2] && [2][1..] == [];
    assert KnownPrefix([1, 2], m.contractors.Keys) == 2;
    assert [1, 2][..2] == [1, 2];
    assert Elements([1, 2]) == {1, 2};
  }

  // A grant whose second bid is unknown stops after the first one.
  lemma HalfGranted(m: Manager)
    requires Pair(m, Record(Bidding, None), [], Record(Bidding, None), []) && m.state.Announced?
    ensures var half := GrantBids(m, [1, 9]);
      half.raised && Pair(half.manager, Record(GrantSent, None), [Grant], Record(Bidding, None), [])
      && half.manager.state.Granted? && half.manager.expected == m.expected
  {
    assert [1, 9][1..] == [9];
    assert KnownPrefix([1, 9], m.contractors.Keys) == 1;
    assert Elements([1, 9][..1]) == {1};
  }

  // The contractors beside that manager: the state of each and what it has sent.
  ghost predicate Peers(w: World, a: ContractState, heardA: set<ToManager>, b: ContractState, heardB: set<ToManager>) {
    && w.announced && w.peers.Keys == {1, 2}
    && w.peers[1].state == a && w.peers[1].sent == heardA
    && w.peers[2].state == b && w.peers[2].sent == heardB
  }

  // A contractor's step changes nothing else.
  lemma PeerStep(w: World, a: Action, k: Key, after: Contractor) returns (v: World)
    requires w.manager.outbox.Keys == w.manager.contractors.Keys && ByPeer(a) && a.k == k
    requires Enabled(w, a) && after == ApplyPeer(w.peers[k], a)
    ensures v == Apply(w, a) && v == w.(peers := w.peers[k := after])
  {
    v := Apply(w, a);
  }

  lemma ManagerStep(w: World, a: Action, after: Manager) returns (v: World)
    requires w.manager.outbox.Keys == w.manager.contractors.Keys && !ByPeer(a) && !a.Spawn? && w.announced
    requires Enabled(w, a) && after == ApplyManager(w.manager, a)
    ensures v == Apply(w, a) && v == w.(manager := after)
  {
    v := Apply(w, a);
  }

  lemma BothHear(expected: Option<nat>) returns (w0: World, w1: World, w2: World, w3: World, w4: World)
    ensures w0 == Apply(Init(expected), CallAnnounce) && w0.manager.outbox.Keys == w0.manager.contractors.Keys == {}
    ensures Enabled(w0, Spawn(1)) && w1 == Apply(w0, Spawn(1)) && w1.manager == w0.manager
    ensures Enabled(w1, Spawn(2)) && w2 == Apply(w1, Spawn(2)) && w2.manager == w0.manager
    ensures Enabled(w2, PeerHearsAnnouncement(1)) && w3 == Apply(w2, PeerHearsAnnouncement(1))
              && w3.manager == w0.manager
    ensures Enabled(w3, PeerHearsAnnouncement(2)) && w4 == Apply(w3, PeerHearsAnnouncement(2))
              && w4.manager == w0.manager
    ensures Peers(w4, Announced, {}, Announced, {}) && w4.manager.state.Announced? && w4.manager.expected == expected
  {
    w0 := Apply(Init(expected), CallAnnounce);
    w1 := Apply(w0, Spawn(1));
    w2 := Apply(w1, Spawn(2));
    w3 := Apply(w2, PeerHearsAnnouncement(1));
    w4 := Apply(w3, PeerHearsAnnouncement(2));
  }

  lemma RunToAnnouncement(expected: Option<nat>) returns (acts: seq<Action>, w: World)
    ensures Reaches([], acts, w, true) && Peers(w, Announced, {}, Announced, {})
    ensures var m := w.manager;
      m.state.Announced? && m.expected == expected && m.contractors.Keys == m.outbox.Keys == {}
  {
    AtTheStart(expected);
    var w0, w1, w2, w3, w4 := BothHear(expected);
    acts := OneMore([], [], Init(expected), true, CallAnnounce, w0);
    acts := OneMore([], acts, w0, true, Spawn(1), w1);
    acts := OneMore([], acts, w1, true, Spawn(2), w2);
    acts := OneMore([], acts, w2, true, PeerHearsAnnouncement(1), w3);
    acts := OneMore([], acts, w3, true, PeerHearsAnnouncement(2), w4);
    w := w4;
  }

  lemma RunToBids(expected: Option<nat>) returns (acts: seq<Action>, w: World)
    ensures Reaches([], acts, w, true) && Peers(w, Bid, {BidMessage}, Bid, {BidMessage})
    ensures var m := w.manager;
      m.state.Announced? && m.expected == expected && m.contractors.Keys == m.outbox.Keys == {}
  {
    acts, w := RunToAnnouncement(expected);
    var v := PeerStep(w, CallBid(1), 1, PlaceBid(w.peers[1]));
    acts := OneMore([], acts, w, true, CallBid(1), v);
    w := PeerStep(v, CallBid(2), 2, PlaceBid(v.peers[2]));
    acts := OneMore([], acts, v, true, CallBid(2), w);
  }

  // Both bids are recorded, and the bid hook has not returned.
  lemma RunToPair(expected: Option<nat>) returns (acts: seq<Action>, w: World)
    ensures Reaches([], acts, w, true) && Peers(w, Bid, {BidMessage}, Bid, {BidMessage})
    ensures var m := w.manager;
      m.state.Announced? && m.expected == expected && Pair(m, Record(Bidding, None), [], Record(Bidding, None), [])
  {
    acts, w := RunToBids(expected);
    var m := w.manager;
    var v := ManagerStep(w, ManagerHears(1, BidMessage), AddRecord(m, 1, Bidding));
    acts := OneMore([], acts, w, true, ManagerHears(1, BidMessage), v);
    w := ManagerStep(v, ManagerHears(2, BidMessage), AddRecord(AddRecord(m, 1, Bidding), 2, Bidding));
    acts := OneMore([], acts, v, true, ManagerHears(2, BidMessage), w);
  }

  lemma ReportArrives(w: World, k: Key, report: int) returns (v: World)
    requires w.manager.outbox.Keys == w.manager.contractors.Keys && Enabled(w, ManagerHears(k, FinalReport(report)))
    ensures v == Apply(w, ManagerHears(k, FinalReport(report)))
    ensures v == w.(manager := OnReport(w.manager, k, report))
  {
    v := Apply(w, ManagerHears(k, FinalReport(report)));
  }

  // Contractor k hears of its grant, does the work and reports it.
  lemma RunsToReport(before: seq<World>, acts: seq<Action>, w: World, k: Key, report: int)
    returns (acts': seq<Action>, w': World)
    requires Reaches(before, acts, w, false)
    requires w.manager.outbox.Keys == w.manager.contractors.Keys
    requires k in w.manager.outbox && Grant in w.manager.outbox[k]
    requires k in w.peers && w.peers[k].state.Bid?
    ensures Reaches(before, acts', w', false)
    ensures acts' == acts + [PeerHears(k, Grant)] + [CallComplete(k, report)] + [ManagerHears(k, FinalReport(report))]
    ensures w'.manager == OnReport(w.manager, k, report) && w'.announced == w.announced
    ensures w'.peers.Keys == w.peers.Keys && forall j | j in w.peers && j != k :: w'.peers[j] == w.peers[j]
  {
    var v := PeerStep(w, PeerHears(k, Grant), k, Hear(w.peers[k], Grant));
    acts' := OneMore(before, acts, w, false, PeerHears(k, Grant), v);
    var v' := PeerStep(v, CallComplete(k, report), k, ReportWork(v.peers[k], report));
    acts' := OneMore(before, acts', v, false, CallComplete(k, report), v');
    w' := ReportArrives(v', k, report);
    acts' := OneMore(before, acts', v', false, ManagerHears(k, FinalReport(report)), w');
  }

  lemma BothKnown(w: World)
    requires w.manager.contractors.Keys == {1, 2}
    ensures Disciplined(w, CallGrant([1, 2]))
  {
    assert [1, 2][1..] == [2] && [2][1..] == [];
    assert KnownPrefix([1, 2], w.manager.contractors.Keys) == 2;
  }

  lemma GrantsBoth(w: World) returns (v: World)
    requires Peers(w, Bid, {BidMessage}, Bid, {BidMessage})
    requires Pair(w.manager, Record(Bidding, None), [], Record(Bidding, None), []) && w.manager.state.Announced?
    ensures Disciplined(w, CallGrant([1, 2])) && v == Apply(w, CallGrant([1, 2]))
    ensures Peers(v, Bid, {BidMessage}, Bid, {BidMessage}) && v.manager.state.Granted?
    ensures Pair(v.manager, Record(GrantSent, None), [Grant], Record(GrantSent, None), [Grant])
  {
    BothKnown(w);
    BothGranted(w.manager);
    v := ManagerStep(w, CallGrant([1, 2]), GrantBids(w.manager, [1, 2]).manager);
  }

  lemma RunToGrants(expected: Option<nat>) returns (acts: seq<Action>, w: World)
    ensures Reaches([], acts, w, true) && Peers(w, Bid, {BidMessage}, Bid, {BidMessage})
    ensures w.manager.state.Granted?
    ensures Pair(w.manager, Record(GrantSent, None), [Grant], Record(GrantSent, None), [Grant])
  {
    var v;
    acts, v := RunToPair(expected);
    w := GrantsBoth(v);
    acts := OneMore([], acts, v, true, CallGrant([1, 2]), w);
  }

  // The other contractor reports after one of two granted ones was elected.
  lemma ElectedThenReported(before: seq<World>, acts: seq<Action>, w: World) returns (acts': seq<Action>, w': World)
    requires Reaches(before, acts, w, false) && Peers(w, Bid, {BidMessage}, Bid, {BidMessage})
    requires w.manager.state.Granted?
    requires Pair(w.manager, Record(Elected, None), [Grant], Record(GrantSent, None), [Grant])
    ensures Reaches(before, acts', w', false)
    ensures acts' == acts + [PeerHears(2, Grant)] + [CallComplete(2, 7)] + [ManagerHears(2, FinalReport(7))]
    ensures Pair(w'.manager, Record(Elected, None), [Grant], Record(AckSent, Some(7)), [Grant, Acknowledgement])
  {
    PairReports(w.manager, Record(Elected, None), [Grant], Record(GrantSent, None), [Grant], 2, 7);
    acts', w' := RunsToReport(before, acts, w, 2, 7);
  }

  /** Electing a bid that was granted already: a run from the beginning, disciplined up to that call, and ending
      with the manager having acknowledged one contractor while another one it granted has neither reported
      nor been acknowledged. */
  lemma ElectingGrantedBreaks(expected: Option<nat>)
    returns (before: seq<World>, calm: seq<Action>, ws: seq<World>, acts: seq<Action>)
    ensures IsDisciplinedRun(before, calm) && !Disciplined(before[|calm|], CallElect(1))
    ensures IsRun(ws, acts) && before <= ws
    ensures acts == calm + [CallElect(1)] + [PeerHears(2, Grant)] + [CallComplete(2, 7)]
              + [ManagerHears(2, FinalReport(7))]
    ensures Pair(ws[|acts|].manager, Record(Elected, None), [Grant], Record(AckSent, Some(7)), [Grant, Acknowledgement])
  {
    var w;
    calm, w := RunToGrants(expected);
    before :| [] <= before && IsRun(before, calm) && before[|calm|] == w && IsDisciplinedRun(before, calm);
    assert Reaches(before, calm, w, false);
    ElectedOne(w.manager);
    var v := ManagerStep(w, CallElect(1), Elect(w.manager, 1));
    acts := OneMore(before, calm, w, false, CallElect(1), v);
    acts, w := ElectedThenReported(before, acts, v);
    ws :| before <= ws && IsRun(ws, acts) && ws[|acts|] == w;
  }

  lemma HalfRun(expected: Option<nat>) returns (before: seq<World>, calm: seq<Action>, acts: seq<Action>, w: World)
    ensures IsDisciplinedRun(before, calm) && !Disciplined(before[|calm|], CallGrant([1, 9]))
    ensures Reaches(before, acts, w, false) && acts == calm + [CallGrant([1, 9])]
    ensures Peers(w, Bid, {BidMessage}, Bid, {BidMessage}) && w.manager.state.Granted? && w.manager.expected == expected
    ensures Pair(w.manager, Record(GrantSent, None), [Grant], Record(Bidding, None), [])
  {
    var v;
    calm, v := RunToPair(expected);
    before :| [] <= before && IsRun(before, calm) && before[|calm|] == v && IsDisciplinedRun(before, calm);
    assert Reaches(before, calm, v, false);
    HalfGranted(v.manager);
    HalfIsUndisciplined(v);
    w := ManagerStep(v, CallGrant([1, 9]), GrantBids(v.manager, [1, 9]).manager);
    acts := OneMore(before, calm, v, false, CallGrant([1, 9]), w);
  }

  lemma HalfIsUndisciplined(w: World)
    requires Pair(w.manager, Record(Bidding, None), [], Record(Bidding, None), []) && w.manager.state.Announced?
    ensures !Disciplined(w, CallGrant([1, 9]))
  {
    assert [1, 9][1..] == [9];
    assert KnownPrefix([1, 9], w.manager.contractors.Keys) == 1;
    assert 2 in w.manager.contractors && 2 !in [1, 9][..1];
  }

  // The one contractor that was granted reports, and the contract completes with a bid still undecided.
  lemma HalfReported(before: seq<World>, acts: seq<Action>, w: World) returns (acts': seq<Action>, w': World)
    requires Reaches(before, acts, w, false) && Peers(w, Bid, {BidMessage}, Bid, {BidMessage})
    requires w.manager.state.Granted? && Pair(w.manager, Record(GrantSent, None), [Grant], Record(Bidding, None), [])
    ensures Reaches(before, acts', w', false)
    ensures acts' == acts + [PeerHears(1, Grant)] + [CallComplete(1, 7)] + [ManagerHears(1, FinalReport(7))]
    ensures SecondRound(w', Completed, Bidding, []) && w'.manager.expected == w.manager.expected
  {
    PairReports(w.manager, Record(GrantSent, None), [Grant], Record(Bidding, None), [], 1, 7);
    acts', w' := RunsToReport(before, acts, w, 1, 7);
  }

  /** Granting a bid the manager was never given: grant() stops half way, and when the one contractor that was
      granted reports, the contract completes with a bid still undecided. A run from the beginning, disciplined
      up to the grant; SecondRoundBreaks goes on from there. */
  lemma GrantingUnknownBreaks(expected: Option<nat>)
    returns (before: seq<World>, calm: seq<Action>, ws: seq<World>, acts: seq<Action>)
    ensures IsDisciplinedRun(before, calm) && !Disciplined(before[|calm|], CallGrant([1, 9]))
    ensures IsRun(ws, acts) && before <= ws
    ensures acts == calm + [CallGrant([1, 9])] + [PeerHears(1, Grant)] + [CallComplete(1, 7)]
              + [ManagerHears(1, FinalReport(7))]
    ensures SecondRound(ws[|acts|], Completed, Bidding, []) && ws[|acts|].manager.expected == expected
  {
    var w;
    before, calm, acts, w := HalfRun(expected);
    acts, w := HalfReported(before, acts, w);
    ws :| before <= ws && IsRun(ws, acts) && ws[|acts|] == w;
  }

  // Where the second round stands: one contractor acknowledged, the other one having bid.
  ghost predicate SecondRound(w: World, m: ContractState, r: RecordState, sent: seq<ToContractor>) {
    && w.manager.state == m && w.announced && 2 in w.peers && w.peers[2].state.Bid?
    && Pair(w.manager, Record(AckSent, Some(7)), [Grant, Acknowledgement], Record(r, None), sent)
  }

  lemma Reopens(w: World) returns (v: World)
    requires SecondRound(w, Completed, Bidding, []) && w.manager.expected == Some(2)
    ensures v == Apply(w, BidHookReturned) && SecondRound(v, Closed, Bidding, [])
  {
    v := ManagerStep(w, BidHookReturned, CheckIfShouldClose(w.manager));
  }

  lemma GrantsAgain(w: World) returns (v: World)
    requires SecondRound(w, Closed, Bidding, [])
    ensures v == Apply(w, CallGrant([2])) && SecondRound(v, Granted, GrantSent, [Grant])
  {
    v := ManagerStep(w, CallGrant([2]), GrantBids(w.manager, [2]).manager);
  }

  lemma SecondGrant(before: seq<World>, acts: seq<Action>, w: World) returns (acts': seq<Action>, w': World)
    requires Reaches(before, acts, w, false) && SecondRound(w, Completed, Bidding, []) && w.manager.expected == Some(2)
    ensures Reaches(before, acts', w', false) && acts' == acts + [BidHookReturned] + [CallGrant([2])]
    ensures SecondRound(w', Granted, GrantSent, [Grant])
  {
    var v := Reopens(w);
    acts' := OneMore(before, acts, w, false, BidHookReturned, v);
    w' := GrantsAgain(v);
    acts' := OneMore(before, acts', v, false, CallGrant([2]), w');
  }

  // The second contractor hears of its grant and defects.
  lemma Defects(w: World) returns (v: World, v': World)
    requires SecondRound(w, Granted, GrantSent, [Grant])
    ensures Enabled(w, PeerHears(2, Grant)) && v == Apply(w, PeerHears(2, Grant)) && v.manager == w.manager
    ensures Enabled(v, CallDefect(2)) && v' == Apply(v, CallDefect(2)) && v'.manager == w.manager
    ensures v'.announced && Enabled(v', ManagerHears(2, Defection))
  {
    v := PeerStep(w, PeerHears(2, Grant), 2, Hear(w.peers[2], Grant));
    v' := PeerStep(v, CallDefect(2), 2, Defect(v.peers[2]));
  }

  lemma DefectionHeard(w: World) returns (v: World)
    requires w.announced && w.manager.state.Granted? && Enabled(w, ManagerHears(2, Defection))
    requires Pair(w.manager, Record(AckSent, Some(7)), [Grant, Acknowledgement], Record(GrantSent, None), [Grant])
    ensures v == Apply(w, ManagerHears(2, Defection))
    ensures Sent(v.manager, 1) == [Grant, Acknowledgement] && Sent(v.manager, 2) == [Grant, Cancellation]
  {
    v := ManagerStep(w, ManagerHears(2, Defection), OnDefection(w.manager, 2).manager);
  }

  lemma SecondDefection(before: seq<World>, acts: seq<Action>, w: World) returns (acts': seq<Action>, w': World)
    requires Reaches(before, acts, w, false) && SecondRound(w, Granted, GrantSent, [Grant])
    ensures Reaches(before, acts', w', false)
    ensures acts' == acts + [PeerHears(2, Grant)] + [CallDefect(2)] + [ManagerHears(2, Defection)]
    ensures Sent(w'.manager, 1) == [Grant, Acknowledgement] && Sent(w'.manager, 2) == [Grant, Cancellation]
  {
    var v, v' := Defects(w);
    acts' := OneMore(before, acts, w, false, PeerHears(2, Grant), v);
    acts' := OneMore(before, acts', v, false, CallDefect(2), v');
    w' := DefectionHeard(v');
    acts' := OneMore(before, acts', v', false, ManagerHears(2, Defection), w');
  }

  /** With two bids expected, the bid hook returning late closes the completed contract again; the second round
      of grants it allows ends, by a defection, with one manager having sent both an acknowledgement and a
      cancellation. The run starts at the beginning, and only its first grant is undisciplined. */
  lemma SecondRoundBreaks() returns (before: seq<World>, calm: seq<Action>, ws: seq<World>, acts: seq<Action>)
    ensures IsDisciplinedRun(before, calm) && !Disciplined(before[|calm|], CallGrant([1, 9]))
    ensures IsRun(ws, acts) && before <= ws
    ensures acts == calm + [CallGrant([1, 9])] + [PeerHears(1, Grant)] + [CallComplete(1, 7)]
              + [ManagerHears(1, FinalReport(7))] + [BidHookReturned] + [CallGrant([2])] + [PeerHears(2, Grant)]
              + [CallDefect(2)] + [ManagerHears(2, Defection)]
    ensures Sent(ws[|acts|].manager, 1) == [Grant, Acknowledgement]
              && Sent(ws[|acts|].manager, 2) == [Grant, Cancellation]
  {
    before, calm, ws, acts := GrantingUnknownBreaks(Some(2));
    var w := ws[|acts|];
    assert Reaches(before, acts, w, false);
    acts, w := SecondGrant(before, acts, w);
    acts, w := SecondDefection(before, acts, w);
    ws :| before <= ws && IsRun(ws, acts) && ws[|acts|] == w;
  }
}
