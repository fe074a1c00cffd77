// The expiration queue: values leave it by earliest expiration, expired ones are dropped on the way.
// Times are whole milliseconds.

module ExpQueues {
  import opened Wrappers

  // A value with its expiration; values without one never expire and have the least priority.
  datatype Item = Item(exp: Option<int>, value: nat)

  predicate Live(i: Item, now: int) {
    i.exp.None? || i.exp.value > now
  }

  // ExpItem.__cmp__: a is not greater than b.
  predicate NotAfter(a: Item, b: Item) {
    b.exp.None? || (a.exp.Some? && a.exp.value <= b.exp.value)
  }

  predicate Distinct(s: seq<Item>) {
    forall i, j | 0 <= i < j < |s| :: s[i] != s[j]
  }

  function ItemsOf(s: seq<Item>): set<Item> {
    set i | i in s
  }

  function LiveOf(s: set<Item>, now: int): set<Item> {
    set i | i in s && Live(i, now)
  }

  // What pop() may return: a live item none of the live ones comes before, or nothing if none is live.
  predicate IsNext(s: set<Item>, now: int, next: Option<Item>) {
    match next
    case None => LiveOf(s, now) == {}
    case Some(i) => i in LiveOf(s, now) && forall j | j in LiveOf(s, now) :: NotAfter(i, j)
  }

  datatype Average = Average(preset: real, nominator: real, denominator: nat)

  function ValueOf(a: Average): real {
    if a.denominator == 0 then a.preset else a.nominator / a.denominator as real
  }

  function AddPoint(a: Average, value: real): Average {
    a.(nominator := a.nominator + value, denominator := a.denominator + 1)
  }

  const MILLISECONDS_BETWEEN_PACKS := 1000

  // The heap has outgrown its average, and the last packing is long enough ago.
  predicate PackingDue(size: nat, maxSize: Average, lastPack: int, now: int) {
    size as real > ValueOf(maxSize) * 1.25 && now - lastPack >= MILLISECONDS_BETWEEN_PACKS
  }

  /** Packing is tried when the heap is more than a quarter above its average size, and at most once a second. */
  lemma PackingIsRare(size: nat, maxSize: Average, lastPack: int, now: int)
    ensures PackingDue(size, maxSize, lastPack, now)
            <==> 4.0 * size as real > 5.0 * ValueOf(maxSize) && now >= lastPack + 1000
  {
  }

  function Sum(points: seq<real>): real
    decreases |points|
  {
    if points == [] then 0.0 else Sum(points[..|points| - 1]) + points[|points| - 1]
  }

  // The running average once all the points have been added.
  function Added(preset: real, points: seq<real>): Average
    decreases |points|
  {
    if points == [] then Average(preset, 0.0, 0)
    else AddPoint(Added(preset, points[..|points| - 1]), points[|points| - 1])
  }

  /** A running average is that: its preset until there is a point, then the mean of all points so far. */
  lemma {:induction false} AverageIsMean(preset: real, points: seq<real>)
    ensures Added(preset, points).nominator == Sum(points) && Added(preset, points).denominator == |points|
    ensures ValueOf(Added(preset, points)) == if points == [] then preset else Sum(points) / |points| as real
    decreases |points|
  {
    if points != [] {
      AverageIsMean(preset, points[..|points| - 1]);
    }
  }

  /** `expired` lists the calls of on_expire. */
  class ExpQueue {
    var heap: seq<Item>
    var maxSize: Average
    var lastPack: int
    var expired: seq<Item>

    ghost predicate Valid()
      reads this
    {
      Distinct(heap)
    }

    ghost function Items(): set<Item>
      reads this
    {
      ItemsOf(heap)
    }

    constructor (maxSize: real)
      ensures Valid() && heap == [] && expired == []
    {
      heap, this.maxSize, lastPack, expired := [], Average(maxSize, 0.0, 0), 0, [];
    }

    method Clear()
      modifies this`heap
      ensures Valid() && Items() == {}
    {
      heap := [];
    }

    /** add(): an item already expired is dropped without a call of on_expire. */
    method Add(item: Item, now: int) returns (ghost packed: bool)
      requires Valid() && item !in Items()
      modifies this
      ensures Valid()
      ensures packed == PackingDue(|old(heap)|, old(maxSize), old(lastPack), now)
      ensures Items() == (if packed then LiveOf(old(Items()), now) else old(Items()))
                         + if Live(item, now) then {item} else {}
      ensures item in Items() <==> item.exp.None? || item.exp.value > now
      ensures Dropped(old(expired), expired, if packed then old(Items()) - LiveOf(old(Items()), now) else {})
    {
      packed := LazyPack(now);
      if item.exp.Some? && item.exp.value <= now {
        return;
      }
      heap := heap + [item];
    }

    /** pop(): the live item with the earliest expiration; all expired ones are dropped. */
    method Pop(now: int) returns (result: Option<Item>)
      requires Valid()
      modifies this
      ensures Valid() && IsNext(old(Items()), now, result)
      ensures match result
              case None => forall j | j in old(Items()) :: j.exp.Some? && j.exp.value <= now
              case Some(i) =>
                && (i.exp.None? || i.exp.value > now)
                && forall j | j in old(Items()) && j.exp.Some? && j.exp.value > now ::
                     i.exp.Some? && i.exp.value <= j.exp.value
      ensures Items() == LiveOf(old(Items()), now) - (if result.Some? then {result.value} else {})
      ensures Dropped(old(expired), expired, old(Items()) - LiveOf(old(Items()), now))
    {
      ghost var all, before := Items(), expired;
      var packed := LazyPack(now);
      while heap != []
        invariant Valid() && LiveOf(Items(), now) == LiveOf(all, now) && Items() <= all
        invariant Dropped(before, expired, all - Items())
        decreases |heap|
      {
        ghost var current := Items();
        var item := HeapPop();
        if item.exp.None? || item.exp.value > now {
          forall j | j in all && j.exp.Some? && j.exp.value > now ensures j in current {
            assert j in LiveOf(all, now);
          }
          assert all - LiveOf(all, now) == all - current;
          return Some(item);
        }
        DropOne(before, expired, all - current, item);
        assert all - current + {item} == all - Items();
        expired := expired + [item];
      }
      assert Items() == {};
      assert all - LiveOf(all, now) == all - {};
      forall j | j in all ensures j.exp.Some? && j.exp.value <= now {
        assert j !in LiveOf(all, now);
      }
      return None;
    }

    // heapq.heappop: a smallest item leaves the heap.
    method HeapPop() returns (item: Item)
      requires Valid() && heap != []
      modifies this`heap
      ensures Valid() && item in old(Items()) && Items() == old(Items()) - {item} && |heap| < |old(heap)|
      ensures forall j | j in old(Items()) :: NotAfter(item, j)
    {
      var k := 0;
      for i := 1 to |heap|
        invariant 0 <= k < |heap| && forall j | 0 <= j < i :: NotAfter(heap[k], heap[j])
      {
        if !NotAfter(heap[k], heap[i]) {
          k := i;
        }
      }
      item := heap[k];
      heap := heap[..k] + heap[k + 1..];
    }

    // _lazy_pack(): packing is tried when the heap outgrows its average, and not more than once a second.
    method LazyPack(now: int) returns (packed: bool)
      requires Valid()
      modifies this
      ensures packed == PackingDue(|old(heap)|, old(maxSize), old(lastPack), now)
      ensures lastPack == if packed then now else old(lastPack)
      ensures maxSize == if packed then AddPoint(old(maxSize), |heap| as real) else old(maxSize)
      ensures Valid() && Items() == if packed then LiveOf(old(Items()), now) else old(Items())
      ensures Dropped(old(expired), expired, if packed then old(Items()) - LiveOf(old(Items()), now) else {})
    {
      packed := PackingDue(|heap|, maxSize, lastPack, now);
      if packed {
        Pack(now);
      } else {
        assert expired == expired + [];
      }
    }

    method Pack(now: int)
      requires Valid()
      modifies this
      ensures lastPack == now && maxSize == AddPoint(old(maxSize), |heap| as real)
      ensures Valid() && Items() == LiveOf(old(Items()), now)
      ensures Dropped(old(expired), expired, old(Items()) - LiveOf(old(Items()), now))
    {
      var newHeap: seq<Item> := [];
      ghost var all, before := heap, expired;
      assert expired == expired + [];
      for i := 0 to |heap|
        invariant heap == all && maxSize == old(maxSize) && Distinct(newHeap)
        invariant ItemsOf(newHeap) == LiveOf(ItemsOf(all[..i]), now)
        invariant Dropped(before, expired, ItemsOf(all[..i]) - LiveOf(ItemsOf(all[..i]), now))
      {
        assert all[..i + 1] == all[..i] + [all[i]];
        assert all[i] !in all[..i];
        if heap[i].exp.None? || heap[i].exp.value > now {
          assert all[i] !in ItemsOf(newHeap);
          newHeap := newHeap + [heap[i]];
          assert LiveOf(ItemsOf(all[..i + 1]), now) == LiveOf(ItemsOf(all[..i]), now) + {all[i]};
          assert ItemsOf(all[..i + 1]) - LiveOf(ItemsOf(all[..i + 1]), now)
                 == ItemsOf(all[..i]) - LiveOf(ItemsOf(all[..i]), now);
        } else {
          assert LiveOf(ItemsOf(all[..i + 1]), now) == LiveOf(ItemsOf(all[..i]), now);
          DropOne(before, expired, ItemsOf(all[..i]) - LiveOf(ItemsOf(all[..i]), now), heap[i]);
          expired := expired + [heap[i]];
          assert ItemsOf(all[..i + 1]) - LiveOf(ItemsOf(all[..i + 1]), now)
                 == ItemsOf(all[..i]) - LiveOf(ItemsOf(all[..i]), now) + {all[i]};
        }
      }
      assert all[..|all|] == all;
      heap := newHeap;
      lastPack := now;
      maxSize := AddPoint(maxSize, |newHeap| as real);
    }
  }

  // on_expire was called once for each of these items, after the calls before.
  ghost predicate Dropped(before: seq<Item>, after: seq<Item>, gone: set<Item>) {
    before <= after && Distinct(after[|before|..]) && ItemsOf(after[|before|..]) == gone
  }

  lemma DropOne(before: seq<Item>, after: seq<Item>, gone: set<Item>, i: Item)
    requires Dropped(before, after, gone) && i !in gone
    ensures Dropped(before, after + [i], gone + {i})
  {
    assert (after + [i])[|before|..] == after[|before|..] + [i];
    assert i !in ItemsOf(after[|before|..]);
  }

}
