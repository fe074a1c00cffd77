// An agent's interest in a protocol, limited to a number of conversations at a time: messages over the limit
// wait in an expiration queue.

module Interest {
  import opened Wrappers
  import opened ExpQueues

  // When and how a message was started.
  datatype Start = Start(item: Item, at: int, fromQueue: bool)

  // Accepted messages are numbered; `limit` None is an interest without a queue. `refused` were expired when
  // they were to be queued, `expired` later, and `cleared` were queued when the queue was cleared.
  datatype Limiter = Limiter(limit: Option<nat>, now: int, accepted: set<Item>, next: nat, active: nat, processed: nat,
                             queued: set<Item>, starts: seq<Start>, refused: set<Item>, expired: set<Item>,
                             cleared: set<Item>, finished: nat)

  function Idle(limit: Option<nat>, now: int): Limiter {
    Limiter(limit, now, {}, 0, 0, 0, {}, [], {}, {}, {}, 0)
  }

  datatype Action =
    | Tick(to: int)
    | Schedule(exp: Option<int>)
    | Pack
    | Processed(choice: Option<Item>)
    | Clear

  predicate Enabled(s: Limiter, a: Action) {
    match a
    case Tick(to) => to >= s.now
    case Schedule(_) => true
    case Pack => true
    case Processed(choice) => s.active > 0 && if s.limit.None? then choice == None else IsNext(s.queued, s.now, choice)
    case Clear => true
  }

  // The queue drops what has expired.
  function Packed(s: Limiter): Limiter {
    s.(queued := LiveOf(s.queued, s.now), expired := s.expired + (s.queued - LiveOf(s.queued, s.now)))
  }

  // _process_message().
  function Begin(s: Limiter, item: Item, fromQueue: bool): Limiter {
    s.(active := s.active + 1, starts := s.starts + [Start(item, s.now, fromQueue)])
  }

  // schedule_message().
  function Accept(s: Limiter, exp: Option<int>): Limiter {
    var item := Item(exp, s.next);
    var taken := s.(accepted := s.accepted + {item}, next := s.next + 1);
    if s.limit.Some? && s.active >= s.limit.value then
      if Live(item, s.now) then taken.(queued := s.queued + {item}) else taken.(refused := s.refused + {item})
    else Begin(taken, item, false)
  }

  // _message_processed().
  function Finish(s: Limiter, choice: Option<Item>): Limiter
    requires s.active > 0
  {
    var freed := s.(active := s.active - 1, processed := s.processed + 1);
    var left := if s.limit.None? then freed else Packed(freed);
    if choice.Some? then Begin(left.(queued := left.queued - {choice.value}), choice.value, true)
    else if left.active == 0 then left.(finished := s.finished + 1)
    else left
  }

  function Apply(s: Limiter, a: Action): Limiter
    requires Enabled(s, a)
  {
    match a
    case Tick(to) => s.(now := to)
    case Schedule(exp) => Accept(s, exp)
    case Pack => Packed(s)
    case Processed(choice) => Finish(s, choice)
    case Clear => s.(queued := {}, cleared := s.cleared + s.queued)
  }

  predicate IsRun(limit: Option<nat>, actions: seq<Action>, ss: seq<Limiter>) {
    && |ss| == |actions| + 1
    && ss[0] == Idle(limit, ss[0].now)
    && forall i | 0 <= i < |actions| :: Enabled(ss[i], actions[i]) && ss[i + 1] == Apply(ss[i], actions[i])
  }

  // ---------------------------------------------------------------- invariants

  function Started(starts: seq<Start>): set<Item> {
    set i | 0 <= i < |starts| :: starts[i].item
  }

  ghost predicate StartedOnce(starts: seq<Start>) {
    forall i, j | 0 <= i < j < |starts| :: starts[i].item != starts[j].item
  }

  // Every accepted message has exactly one fate.
  ghost predicate Shares(s: Limiter) {
    && s.accepted == Started(s.starts) + s.queued + s.refused + s.expired + s.cleared
    && Started(s.starts) !! s.queued !! s.refused !! s.expired !! s.cleared
  }

  ghost predicate Numbered(s: Limiter) {
    forall i | i in s.accepted :: i.value < s.next
  }

  // Conversations under way are those started and not yet processed; the queue is used only at the limit.
  ghost predicate Bounded(s: Limiter) {
    && s.active + s.processed == |s.starts|
    && (s.limit.Some? ==> s.active <= s.limit.value)
    && (s.queued != {} ==> s.limit.Some? && s.active == s.limit.value)
  }

  // Nothing is started from the queue after its expiration.
  ghost predicate InTime(starts: seq<Start>) {
    forall i | 0 <= i < |starts| && starts[i].fromQueue :: Live(starts[i].item, starts[i].at)
  }

  ghost predicate Inv(s: Limiter) {
    Shares(s) && Numbered(s) && Bounded(s) && StartedOnce(s.starts) && InTime(s.starts)
  }

  lemma BeginStarts(starts: seq<Start>, x: Start)
    requires StartedOnce(starts) && x.item !in Started(starts)
    ensures Started(starts + [x]) == Started(starts) + {x.item} && StartedOnce(starts + [x])
  {
    var more := starts + [x];
    forall i ensures i in Started(more) <==> i in Started(starts) || i == x.item {
      if i in Started(starts) {
        var k :| 0 <= k < |starts| && starts[k].item == i;
        assert more[k].item == i;
      }
      assert more[|starts|] == x;
    }
  }

  lemma AcceptKeeps(s: Limiter, exp: Option<int>)
    requires Inv(s)
    ensures Inv(Accept(s, exp))
  {
    var item := Item(exp, s.next);
    assert item !in s.accepted;
    if !(s.limit.Some? && s.active >= s.limit.value) {
      BeginStarts(s.starts, Start(item, s.now, false));
    }
  }

  lemma PackKeeps(s: Limiter)
    requires Inv(s)
    ensures Inv(Packed(s))
  {
  }

  lemma FinishKeeps(s: Limiter, choice: Option<Item>)
    requires Inv(s) && Enabled(s, Processed(choice))
    ensures Inv(Finish(s, choice))
  {
    if choice.Some? {
      assert choice.value in s.queued;
      BeginStarts(s.starts, Start(choice.value, s.now, true));
    }
  }

  lemma {:induction false} InvOverRun(limit: Option<nat>, actions: seq<Action>, ss: seq<Limiter>, i: nat)
    requires IsRun(limit, actions, ss) && i < |ss|
    ensures forall j | 0 <= j <= i :: Inv(ss[j]) && ss[j].limit == limit
  {
    if i > 0 {
      InvOverRun(limit, actions, ss, i - 1);
      match actions[i - 1]
      case Tick(_) =>
      case Schedule(exp) => AcceptKeeps(ss[i - 1], exp);
      case Pack => PackKeeps(ss[i - 1]);
      case Processed(choice) => FinishKeeps(ss[i - 1], choice);
      case Clear =>
    }
  }

  // ---------------------------------------------------------------- main results

  /** The limit is never exceeded, messages wait only while all of it is in use, and every accepted message
      was started once, is still queued, was refused or dropped as expired, or was cleared: one of these only. */
  lemma LimitHolds(limit: Option<nat>, actions: seq<Action>, ss: seq<Limiter>)
    requires IsRun(limit, actions, ss)
    ensures forall i | 0 <= i < |ss| ::
      && (limit.Some? ==> ss[i].active <= limit.value)
      && (ss[i].queued != {} ==> limit == Some(ss[i].active))
      && Shares(ss[i]) && StartedOnce(ss[i].starts) && InTime(ss[i].starts)
      && ss[i].active == |ss[i].starts| - ss[i].processed
  {
    InvOverRun(limit, actions, ss, |actions|);
  }

  // Only the last start is new.
  ghost predicate StartedNow(s: Limiter, n: Limiter, item: Item, fromQueue: bool) {
    n.starts == s.starts + [Start(item, s.now, fromQueue)] && n.active == s.active + if fromQueue then 0 else 1
  }

  /** What becomes of a message at once: it is started if there is no limit or the limit is not reached, and
      otherwise waits, unless it has expired already. */
  lemma ScheduledMeans(limit: Option<nat>, actions: seq<Action>, ss: seq<Limiter>, i: nat, exp: Option<int>)
    requires IsRun(limit, actions, ss) && i < |actions| && actions[i] == Schedule(exp)
    ensures var s, n, item := ss[i], ss[i + 1], Item(exp, ss[i].next);
      && n.accepted == s.accepted + {item} && item !in s.accepted
      && n.expired == s.expired && n.cleared == s.cleared && n.finished == s.finished
      && if limit.None? || s.active < limit.value then StartedNow(s, n, item, false) && n.queued == s.queued
         else
           && n.starts == s.starts && n.active == s.active
           && n.queued == s.queued + (if Live(item, s.now) then {item} else {})
  {
    InvOverRun(limit, actions, ss, i);
  }

  /** Nothing is lost while it is live: in every run a message that was refused or has expired is past its
      expiration, and only clearing the queue clears messages. Without a limit every message is started. */
  lemma {:induction false} NothingIsLost(limit: Option<nat>, actions: seq<Action>, ss: seq<Limiter>, i: nat)
    requires IsRun(limit, actions, ss) && i < |ss|
    ensures forall item | item in ss[i].refused + ss[i].expired :: !Live(item, ss[i].now)
    ensures (forall j | 0 <= j < i :: actions[j] != Clear) ==> ss[i].cleared == {}
    ensures limit.None? ==> ss[i].accepted == Started(ss[i].starts)
  {
    InvOverRun(limit, actions, ss, i);
    if i > 0 {
      NothingIsLost(limit, actions, ss, i - 1);
      assert ss[i] == Apply(ss[i - 1], actions[i - 1]);
    }
  }

  /** The end of a conversation: exactly when a live message waits is the next one started, in its place; and those
      waiting for the interest to finish are told exactly when none is under way any more. */
  lemma ProcessedMeans(limit: Option<nat>, actions: seq<Action>, ss: seq<Limiter>, i: nat, choice: Option<Item>)
    requires IsRun(limit, actions, ss) && i < |actions| && actions[i] == Processed(choice)
    ensures var s, n := ss[i], ss[i + 1];
      && (choice.Some? <==> exists item :: item in s.queued && Live(item, s.now))
      && (choice.Some? ==> choice.value in s.queued && StartedNow(s, n, choice.value, true))
      && (choice.None? ==> n.starts == s.starts && n.active == s.active - 1)
      && n.finished == s.finished + (if n.active == 0 then 1 else 0)
  {
    InvOverRun(limit, actions, ss, i);
  }

  /** is_idle() is right: with no conversation under way the queue is empty, in every run, exactly when the
      limit is not zero. */
  lemma IdleMeansEmpty(limit: Option<nat>)
    ensures limit != Some(0) <==>
      forall actions: seq<Action>, ss: seq<Limiter>, i: int
        | IsRun(limit, actions, ss) && 0 <= i < |ss| && ss[i].active == 0 :: ss[i].queued == {}
  {
    if limit != Some(0) {
      forall actions: seq<Action>, ss: seq<Limiter>, i: int
        | IsRun(limit, actions, ss) && 0 <= i < |ss| && ss[i].active == 0
        ensures ss[i].queued == {}
      {
        InvOverRun(limit, actions, ss, i);
      }
    } else {
      var start := Idle(limit, 0);
      var ss := [start, Accept(start, None)];
      assert IsRun(limit, [Schedule(None)], ss);
      assert ss[1].active == 0 && Item(None, 0) in ss[1].queued;
    }
  }

  // Without a Schedule the queue only shrinks, and the clock only goes on.
  lemma {:induction false} QueueShrinks(limit: Option<nat>, actions: seq<Action>, ss: seq<Limiter>, i: nat, j: nat)
    requires IsRun(limit, actions, ss) && i <= j < |ss|
    requires forall k | i <= k < j :: !actions[k].Schedule?
    ensures ss[j].queued <= ss[i].queued && ss[j].now >= ss[i].now && ss[j].limit == ss[i].limit
  {
    if i < j {
      QueueShrinks(limit, actions, ss, i, j - 1);
      assert Enabled(ss[j - 1], actions[j - 1]) && ss[j] == Apply(ss[j - 1], actions[j - 1]);
    }
  }

  /** While nothing is scheduled in between, the queue is started in the order of expirations: of two starts
      in a run the earlier one is the message that expires no later. */
  lemma EarliestFirst(limit: nat, actions: seq<Action>, ss: seq<Limiter>, i: nat, j: nat)
    requires IsRun(Some(limit), actions, ss) && i < j < |actions|
    requires actions[i].Processed? && actions[j].Processed? && actions[j].choice.Some?
    requires forall k | i < k < j :: !actions[k].Schedule?
    ensures actions[i].choice.Some? && actions[i].choice != actions[j].choice
    ensures NotAfter(actions[i].choice.value, actions[j].choice.value)
  {
    InvOverRun(Some(limit), actions, ss, i);
    InvOverRun(Some(limit), actions, ss, j);
    assert Enabled(ss[i], actions[i]) && ss[i + 1] == Apply(ss[i], actions[i]);
    assert Enabled(ss[j], actions[j]);
    QueueShrinks(Some(limit), actions, ss, i + 1, j);
    var b := actions[j].choice.value;
    assert b in ss[i + 1].queued;
    assert b in LiveOf(ss[i].queued, ss[i].now);
  }

  // ---------------------------------------------------------------- the object

  /** `starts` lists the calls of _process_message, `finished` counts the notifications; the rest of the
      ghost state names the messages by their fate. */
  class BaseInterest {
    const concurrency: Option<nat>
    const queue: ExpQueue?
    var active: nat
    var starts: seq<Start>
    var finished: nat
    var next: nat
    ghost var past: Limiter

    ghost predicate Valid()
      reads this, queue
    {
      && (concurrency.Some? <==> queue != null)
      && (queue != null ==> queue.Valid())
      && past.limit == concurrency && past.active == active && past.starts == starts
      && past.finished == finished && past.next == next
      && past.queued == (if queue != null then queue.Items() else {})
      && Inv(past)
    }

    constructor (concurrency: Option<nat>, maxSize: real, ghost now: int)
      ensures Valid() && past == Idle(concurrency, now) && (queue != null ==> fresh(queue))
    {
      this.concurrency := concurrency;
      active, starts, finished, next := 0, [], 0, 0;
      past := Idle(concurrency, now);
      if concurrency.Some? {
        queue := new ExpQueue(maxSize);
      } else {
        queue := null;
      }
    }

    // The clock goes on between calls.
    ghost method Wait(now: int)
      requires Valid() && now >= past.now
      modifies this`past
      ensures Valid() && past == Apply(old(past), Tick(now))
    {
      past := past.(now := now);
    }

    /** is_idle(): no conversation is under way; nothing is queued then, unless the limit is zero. */
    function IsIdle(): (idle: bool)
      requires Valid()
      reads this, queue
      ensures idle <==> past.active == 0
      ensures idle && concurrency != Some(0) ==> past.queued == {}
    {
      active == 0
    }

    method ClearQueue()
      requires Valid()
      modifies this`past, queue
      ensures Valid() && past == Apply(old(past), Clear)
    {
      if queue != null {
        queue.Clear();
      }
      past := past.(queued := {}, cleared := past.cleared + past.queued);
    }

    /** schedule_message(); `expected` tells whether the message is of the factory's type. Adding to the
        queue may pack it first. */
    method ScheduleMessage(expected: bool, exp: Option<int>, now: int) returns (accepted: bool, ghost packed: bool)
      requires Valid() && now == past.now
      modifies this, queue
      ensures Valid() && accepted == expected
      ensures past == if !expected then old(past)
                      else Apply(if packed then Apply(old(past), Pack) else old(past), Schedule(exp))
    {
      packed := false;
      if !expected {
        return false, packed;
      }
      ghost var before := past;
      var item := Item(exp, next);
      assert item !in past.accepted;
      next := next + 1;
      if queue != null && active >= concurrency.value {
        packed := queue.Add(item, now);
        if packed { PackKeeps(before); }
      } else {
        ProcessMessage(item, now, false);
      }
      AcceptKeeps(if packed then Packed(before) else before, exp);
      past := Accept(if packed then Packed(before) else before, exp);
      return true, packed;
    }

    method ProcessMessage(item: Item, now: int, fromQueue: bool)
      modifies this`active, this`starts
      ensures active == old(active) + 1 && starts == old(starts) + [Start(item, now, fromQueue)]
    {
      active := active + 1;
      starts := starts + [Start(item, now, fromQueue)];
    }

    /** _message_processed(): the queue chooses what is started next. */
    method MessageProcessed(now: int) returns (ghost choice: Option<Item>)
      requires Valid() && active > 0 && now == past.now
      modifies this, queue
      ensures Enabled(old(past), Processed(choice)) && past == Apply(old(past), Processed(choice))
      ensures Valid()
    {
      ghost var before := past;
      active := active - 1;
      choice := None;
      if queue != null {
        var popped := queue.Pop(now);
        choice := popped;
        if popped.Some? {
          ProcessMessage(popped.value, now, true);
        }
      }
      if active == 0 {
        finished := finished + 1;
      }
      FinishKeeps(before, choice);
      past := Finish(before, choice);
    }
  }
}
