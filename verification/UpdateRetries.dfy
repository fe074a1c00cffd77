// How often concurrent calls start again: the total of their conflicts is bounded, and every run ends.

module UpdateRetries {
  import opened EmuDatabase
  import opened UpdateDocument
  import opened Serializability

  // ---------------------------------------------------------------- bounded retries

  function Conflicts<C>(clients: seq<Client<C>>): nat
    decreases |clients|
  {
    if clients == [] then 0 else Conflicts(clients[..|clients| - 1]) + clients[|clients| - 1].conflicts
  }

  // The conflicts a client may have had: those caused by the commits before its own, or by all of them.
  function Allowance(log: seq<nat>, i: nat): nat {
    if i in log then Position(log, i) else |log|
  }

  function Allowances(log: seq<nat>, n: nat): nat {
    if n == 0 then 0 else Allowances(log, n - 1) + Allowance(log, n - 1)
  }

  // The clients below `n` that have not committed.
  function Open(log: seq<nat>, n: nat): nat {
    if n == 0 then 0 else Open(log, n - 1) + if n - 1 in log then 0 else 1
  }

  lemma {:induction false} WithinAllowance<C>(clients: seq<Client<C>>, log: seq<nat>)
    requires forall i | 0 <= i < |clients| :: clients[i].conflicts <= Allowance(log, i)
    ensures Conflicts(clients) <= Allowances(log, |clients|)
    decreases |clients|
  {
    if clients != [] {
      WithinAllowance(clients[..|clients| - 1], log);
    }
  }

  // One more commit adds one to the allowance of every client that is still open after it.
  lemma {:induction false} CommitRaises(log: seq<nat>, k: nat, n: nat)
    requires k !in log
    ensures Allowances(log + [k], n) == Allowances(log, n) + Open(log + [k], n)
  {
    if n > 0 {
      CommitRaises(log, k, n - 1);
      if n - 1 in log + [k] {
        PositionGrows(log, k, n - 1);
      }
    }
  }

  lemma {:induction false} CommitCloses(log: seq<nat>, k: nat, n: nat)
    requires k !in log
    ensures Open(log + [k], n) == Open(log, n) - if k < n then 1 else 0
  {
    if n > 0 {
      CommitCloses(log, k, n - 1);
    }
  }

  lemma {:induction false} NoneCommitted(n: nat)
    ensures Allowances([], n) == 0 && Open([], n) == n
  {
    if n > 0 {
      NoneCommitted(n - 1);
    }
  }

  lemma OneMoreTerm(c: nat, n: nat)
    ensures 2 * (c + 1) * (n - 1) - (c + 1) * c == (2 * c * (n - 1) - c * (c - 1)) + 2 * (n - 1 - c)
  {
  }

  lemma {:induction false} AllowancesAre(log: seq<nat>, n: nat)
    requires forall p, q | 0 <= p < q < |log| :: log[p] != log[q]
    requires InRange(log, n)
    ensures Open(log, n) == n - |log|
    ensures 2 * Allowances(log, n) == 2 * |log| * (n - 1) - |log| * (|log| - 1)
    decreases |log|
  {
    if log == [] {
      NoneCommitted(n);
    } else {
      var c := |log| - 1;
      var before, k := log[..c], log[c];
      assert log == before + [k];
      AllowancesAre(before, n);
      CommitRaises(before, k, n);
      CommitCloses(before, k, n);
      OneMoreTerm(c, n);
    }
  }

  lemma SquareBound(c: nat, n: nat)
    requires c <= n
    ensures 2 * c * (n - 1) - c * (c - 1) <= n * (n - 1)
  {
    var d := n - c;
    assert n * (n - 1) - (2 * c * (n - 1) - c * (c - 1)) == d * (d - 1);
  }

  // A client that has had as many conflicts as there were commits holds the stored revision.
  ghost predicate RetryInv<C>(s: System<C>, u: Setup<C>) {
    && |s.clients| == u.n && InRange(s.log, u.n) && u.id in s.db.documents
    && (forall p, q | 0 <= p < q < |s.log| :: s.log[p] != s.log[q])
    && forall i | 0 <= i < |s.clients| :: ClientRetries(s, u, i)
  }

  ghost predicate ClientRetries<C>(s: System<C>, u: Setup<C>, i: nat)
    requires i < |s.clients| && u.id in s.db.documents
  {
    var c := s.clients[i];
    && (c.phase.Committed? <==> i in s.log)
    && c.conflicts <= Allowance(s.log, i)
    && (c.phase.Holding? && c.conflicts == |s.log| ==> c.phase.rev == s.db.documents[u.id].rev)
  }

  lemma {:induction false} RetryOverRun<C>(ss: seq<System<C>>, acts: seq<Action>, u: Setup<C>, k: nat)
    requires IsRun(ss, acts, u) && k < |ss|
    ensures forall j | 0 <= j <= k :: RetryInv(ss[j], u)
  {
    if k == 0 {
      forall i | 0 <= i < |ss[0].clients| ensures ClientRetries(ss[0], u, i) {
      }
    } else {
      RetryOverRun(ss, acts, u, k - 1);
      RetryStep(ss[k - 1], u, acts[k - 1]);
    }
  }

  lemma {:induction false} RetryStep<C>(s: System<C>, u: Setup<C>, a: Action)
    requires RetryInv(s, u) && Enabled(s, a)
    ensures RetryInv(Step(s, u.id, u.update, a), u)
  {
    var s' := Step(s, u.id, u.update, a);
    assert ClientRetries(s, u, a.i);
    forall j | 0 <= j < |s'.clients| ensures ClientRetries(s', u, j) {
      assert ClientRetries(s, u, j);
      if j in s'.log && s'.log != s.log {
        PositionGrows(s.log, a.i, j);
      }
    }
  }

  /** Retries are bounded, also when the document is deleted meanwhile: n clients, each doing one update, have
      at most n(n-1)/2 conflicts together. */
  lemma RetryBound<C>(ss: seq<System<C>>, acts: seq<Action>, u: Setup<C>, k: nat)
    requires IsRun(ss, acts, u) && k < |ss|
    ensures 2 * Conflicts(ss[k].clients) <= u.n * (u.n - 1)
  {
    RetryOverRun(ss, acts, u, k);
    var s := ss[k];
    forall i | 0 <= i < |s.clients| ensures s.clients[i].conflicts <= Allowance(s.log, i) {
      assert ClientRetries(s, u, i);
    }
    WithinAllowance(s.clients, s.log);
    AllowancesAre(s.log, |s.clients|);
    SquareBound(|s.log|, |s.clients|);
  }

  // Steps taken since the last conflict, at most two.
  function Progress<C>(c: Client<C>): nat {
    match c.phase
    case Fetching => 0
    case Holding(_, _) => 1
    case _ => 2
  }

  function Work<C>(clients: seq<Client<C>>): nat
    decreases |clients|
  {
    if clients == [] then 0
    else Work(clients[..|clients| - 1]) + 2 * clients[|clients| - 1].conflicts + Progress(clients[|clients| - 1])
  }

  lemma {:induction false} WorkGrows<C>(clients: seq<Client<C>>, i: nat, c: Client<C>)
    requires i < |clients|
    requires 2 * c.conflicts + Progress(c) > 2 * clients[i].conflicts + Progress(clients[i])
    ensures Work(clients[i := c]) > Work(clients)
    decreases |clients|
  {
    var last := |clients| - 1;
    if i < last {
      WorkGrows(clients[..last], i, c);
      assert clients[i := c][..last] == clients[..last][i := c];
    } else {
      assert clients[i := c][..last] == clients[..last];
    }
  }

  lemma {:induction false} WorkBound<C>(clients: seq<Client<C>>)
    ensures Work(clients) <= 2 * Conflicts(clients) + 2 * |clients|
    decreases |clients|
  {
    if clients != [] {
      WorkBound(clients[..|clients| - 1]);
    }
  }

  lemma {:induction false} EveryStepWorks<C>(ss: seq<System<C>>, acts: seq<Action>, u: Setup<C>, k: nat)
    requires IsRun(ss, acts, u) && k < |ss|
    ensures k <= Work(ss[k].clients)
  {
    if k > 0 {
      EveryStepWorks(ss, acts, u, k - 1);
      RetryOverRun(ss, acts, u, k - 1);
      var s, a := ss[k - 1], acts[k - 1];
      var c := if a.Fetch? then AfterFetch(s.clients[a.i], s.db, u.id)
               else AfterIterate(s.clients[a.i], s.db, u.id, u.update, a.i, a.hash).0;
      WorkGrows(s.clients, a.i, c);
    }
  }

  /** The retry loops terminate: no run of n clients has more than n(n+1) steps, and where no step is
      left every client has committed, resigned or found no document. */
  lemma RetriesTerminate<C>(ss: seq<System<C>>, acts: seq<Action>, u: Setup<C>)
    requires IsRun(ss, acts, u)
    ensures |acts| <= u.n * (u.n + 1)
    ensures var last := ss[|acts|];
            (forall a :: !Enabled(last, a)) ==>
              forall i | 0 <= i < |last.clients| ::
                last.clients[i].phase.Committed? || last.clients[i].phase.Resigned? || last.clients[i].phase.Missing?
  {
    EveryStepWorks(ss, acts, u, |acts|);
    RetryBound(ss, acts, u, |acts|);
    RetryOverRun(ss, acts, u, |acts|);
    var last := ss[|acts|];
    WorkBound(last.clients);
    assert u.n * (u.n + 1) == u.n * (u.n - 1) + 2 * u.n;
    if forall a :: !Enabled(last, a) {
      forall i | 0 <= i < |last.clients|
        ensures last.clients[i].phase.Committed? || last.clients[i].phase.Resigned? || last.clients[i].phase.Missing?
      {
        assert !Enabled(last, Fetch(i)) && !Enabled(last, Iterate(i, 0));
      }
    }
  }
}
