/** How much weight a clean-up needs. A clean-up that runs short does not stop: it drops items, and it moves its pointer
    past buckets it never opened. This is exactly when that happens. */
module ExpirationWeights {
  import opened Prelude
  import opened ExpirationQueue

  /** Nothing is dropped, and the pointer passes emptied buckets only. */
  ghost predicate LossFree(c: Config, s: Sweep, now: Tick, orphans: set<nat>) {
    var r := IdleFrom(c, s, now, orphans);
    && r.dropped == s.dropped
    && (forall t: Tick :: s.pointer <= t < r.pointer ==> Bucket(r.buckets, t) == [])
  }

  /** How many of the items are paid for; orphans are cleaned without being paid for. */
  function Paid(items: seq<Item>, orphans: set<nat>): nat
    decreases |items|
  {
    if items == [] then 0
    else Paid(items[..|items| - 1], orphans) + (if items[|items| - 1].id in orphans then 0 else 1)
  }

  /** What popping the items takes away, and what has to be there for none of them to be dropped: the weight of one item
      must still be left when the last of them, the front one, is popped, orphan or not. */
  function Spent(c: Config, items: seq<Item>, orphans: set<nat>): nat {
    c.itemWeight * Paid(items, orphans)
  }

  function Needed(c: Config, items: seq<Item>, orphans: set<nat>): nat {
    if items == [] then 0 else c.itemWeight * (1 + Paid(items[1..], orphans))
  }

  /** The weight that opening and clearing the buckets from `a` up to, not including, `b` takes away. */
  function Cost(c: Config, buckets: map<Tick, seq<Item>>, orphans: set<nat>, a: Tick, b: Tick): nat
    decreases b - a
  {
    if a >= b then 0
    else c.bucketWeight + Spent(c, Bucket(buckets, a), orphans) + Cost(c, buckets, orphans, a + 1, b)
  }

  /** Arriving at bucket `t` with what the buckets before it have left, it can be opened and cleared without loss. */
  ghost predicate Affords(c: Config, s: Sweep, orphans: set<nat>, t: Tick) {
    Bucket(s.buckets, t) != [] ==>
      Cost(c, s.buckets, orphans, s.pointer, t) + c.bucketWeight + Needed(c, Bucket(s.buckets, t), orphans) <= s.left.refTime
  }

  /** The budget pays for every bucket up to the last one that holds anything. */
  ghost predicate Enough(c: Config, s: Sweep, now: Tick, orphans: set<nat>) {
    forall t: Tick :: s.pointer <= t <= now ==> Affords(c, s, orphans, t)
  }

  /** The budget has no proof size, pays for every bucket before some `k`, and is used up to nothing exactly there. */
  ghost predicate StopsOnTheDot(c: Config, s: Sweep, now: Tick, orphans: set<nat>) {
    && s.left.proofSize == 0
    && exists k: Tick :: StopsAt(c, s, now, orphans, k)
  }

  ghost predicate StopsAt(c: Config, s: Sweep, now: Tick, orphans: set<nat>, k: Tick) {
    && s.pointer <= k <= now + 1
    && Cost(c, s.buckets, orphans, s.pointer, k) == s.left.refTime
    && (forall t: Tick :: s.pointer <= t < k ==> Affords(c, s, orphans, t))
  }

  lemma {:induction false} CostSame(c: Config, before: map<Tick, seq<Item>>, after: map<Tick, seq<Item>>,
                                    orphans: set<nat>, a: Tick, b: Tick)
    requires forall t: Tick :: a <= t ==> Bucket(after, t) == Bucket(before, t)
    ensures Cost(c, before, orphans, a, b) == Cost(c, after, orphans, a, b)
    decreases b - a
  {
    if a < b {
      CostSame(c, before, after, orphans, a + 1, b);
    }
  }

  lemma CostStep(c: Config, buckets: map<Tick, seq<Item>>, orphans: set<nat>, a: Tick, b: Tick)
    ensures a < b ==> Cost(c, buckets, orphans, a, b) >= c.bucketWeight + Spent(c, Bucket(buckets, a), orphans)
    ensures Cost(c, buckets, orphans, a, a) == 0
  {
  }

  // --- What popping a bucket does ---------------------------------------------------------------------

  lemma {:induction false} PaidFront(items: seq<Item>, orphans: set<nat>)
    requires items != []
    ensures Paid(items, orphans) <= 1 + Paid(items[1..], orphans)
    decreases |items|
  {
    var n := |items| - 1;
    if n > 0 {
      PaidFront(items[..n], orphans);
      assert items[1..][..n - 1] == items[..n][1..];
    }
  }

  /** What is needed covers what is spent. */
  lemma NeededCovers(c: Config, items: seq<Item>, orphans: set<nat>)
    ensures Spent(c, items, orphans) <= Needed(c, items, orphans)
  {
    if items != [] {
      PaidFront(items, orphans);
      MulOrder(c.itemWeight, Paid(items, orphans), 1 + Paid(items[1..], orphans));
    } else {
      assert c.itemWeight * 0 == 0;
    }
  }

  lemma MulOrder(w: nat, a: nat, b: nat)
    requires a <= b
    ensures w * a <= w * b
  {
    assert w * b == w * a + w * (b - a);
  }

  /** One item less: what is needed and what is spent both shrink by the weight of the popped item. */
  lemma PopNeeds(c: Config, items: seq<Item>, orphans: set<nat>)
    requires items != []
    ensures var n := |items| - 1;
            var w := if items[n].id in orphans then 0 else c.itemWeight;
            && Spent(c, items, orphans) == Spent(c, items[..n], orphans) + w
            && (n > 0 ==> Needed(c, items, orphans) == Needed(c, items[..n], orphans) + w)
            && (n == 0 ==> Needed(c, items, orphans) == c.itemWeight && Needed(c, items[..n], orphans) == 0)
            && Needed(c, items, orphans) >= c.itemWeight
  {
    var n := |items| - 1;
    if n > 0 {
      assert items[1..][..n - 1] == items[..n][1..];
      assert items[1..][n - 1] == items[n];
    } else {
      assert items[1..] == [];
    }
    Increment(c.itemWeight, Paid(items[..n], orphans));
    Increment(c.itemWeight, Paid(items[1..], orphans));
    if n > 0 {
      Increment(c.itemWeight, Paid(items[..n][1..], orphans));
      Increment(c.itemWeight, 1 + Paid(items[..n][1..], orphans));
    }
  }

  lemma Increment(w: nat, k: nat)
    ensures w * (k + 1) == w * (1 + k) == w * k + w
    ensures w * k >= 0
  {
  }

  /** A bucket is popped without loss exactly when what its items need is there, and then takes exactly what they spend. */
  lemma {:induction false} PopAllExactly(c: Config, s: Sweep, items: seq<Item>, orphans: set<nat>)
    ensures var r := PopAll(c, s, items, orphans);
            && (r.dropped == s.dropped <==> Needed(c, items, orphans) <= s.left.refTime)
            && (Needed(c, items, orphans) <= s.left.refTime ==>
                  Spent(c, items, orphans) <= s.left.refTime
                  && r.left == s.left.(refTime := s.left.refTime - Spent(c, items, orphans)))
    decreases |items|
  {
    NeededCovers(c, items, orphans);
    if items != [] {
      var n := |items| - 1;
      PopNeeds(c, items, orphans);
      hide Needed, Spent;
      if CanConsume(s.left, c.itemWeight) {
        PopAllExactly(c, s.(cleaned := s.cleaned + [items[n]],
                            left := if items[n].id in orphans then s.left else Consume(s.left, c.itemWeight)),
                      items[..n], orphans);
      } else {
        PopAllKeeps(c, s.(dropped := s.dropped + [items[n]]), items[..n], orphans);
      }
    } else {
      assert c.itemWeight * 0 == 0;
    }
  }

  // --- Following the loop -----------------------------------------------------------------------------

  /** What the loop has dropped stays dropped, and what lies behind its pointer stays as it is. */
  lemma {:induction false} IdleKeeps(c: Config, s: Sweep, now: Tick, orphans: set<nat>)
    ensures var r := IdleFrom(c, s, now, orphans);
            && r.pointer >= s.pointer
            && |r.dropped| >= |s.dropped|
            && (forall t: Tick :: t < s.pointer ==> Bucket(r.buckets, t) == Bucket(s.buckets, t))
    decreases now + 1 - s.pointer
  {
    if !(s.pointer > now || IsZero(s.left)) {
      var s' := ProcessBucket(c, s, orphans);
      ProcessKeepsPointer(c, s, orphans);
      ProcessKeepsDropped(c, s, orphans);
      hide ProcessBucket;
      if !IsZero(s'.left) {
        IdleKeeps(c, s'.(pointer := s'.pointer + 1), now, orphans);
      }
    }
  }

  lemma ProcessKeepsDropped(c: Config, s: Sweep, orphans: set<nat>)
    ensures var r := ProcessBucket(c, s, orphans);
            |r.dropped| >= |s.dropped| && (|r.dropped| == |s.dropped| ==> r.dropped == s.dropped)
  {
    if CanConsume(s.left, c.bucketWeight) {
      PopAllKeeps(c, s.(buckets := s.buckets - {s.pointer}, left := Consume(s.left, c.bucketWeight)),
                  Bucket(s.buckets, s.pointer), orphans);
    }
  }

  /** One turn of the loop loses something, or hands the question on to the rest of the loop. */
  lemma LossFreeTurn(c: Config, s: Sweep, now: Tick, orphans: set<nat>)
    requires s.pointer <= now && !IsZero(s.left)
    ensures var s' := ProcessBucket(c, s, orphans);
            LossFree(c, s, now, orphans) <==>
              && s'.dropped == s.dropped
              && (IsZero(s'.left) ||
                  (Bucket(s'.buckets, s.pointer) == []
                   && LossFree(c, s'.(pointer := s.pointer + 1), now, orphans)))
  {
    var s' := ProcessBucket(c, s, orphans);
    ProcessKeepsPointer(c, s, orphans);
    ProcessKeepsDropped(c, s, orphans);
    hide ProcessBucket;
    if !IsZero(s'.left) {
      var next := s'.(pointer := s.pointer + 1);
      var r := IdleFrom(c, next, now, orphans);
      assert IdleFrom(c, s, now, orphans) == r;
      IdleKeeps(c, next, now, orphans);
      hide IdleFrom;
      LossFreeNext(s, s', r);
    }
  }

  lemma LossFreeNext(s: Sweep, s': Sweep, r: Sweep)
    requires r.pointer >= s.pointer + 1 && |r.dropped| >= |s'.dropped| >= |s.dropped|
    requires |s'.dropped| == |s.dropped| ==> s'.dropped == s.dropped
    requires Bucket(r.buckets, s.pointer) == Bucket(s'.buckets, s.pointer)
    ensures (r.dropped == s.dropped && forall t: Tick :: s.pointer <= t < r.pointer ==> Bucket(r.buckets, t) == [])
            <==> (&& s'.dropped == s.dropped && Bucket(s'.buckets, s.pointer) == []
                  && r.dropped == s'.dropped
                  && forall t: Tick :: s.pointer + 1 <= t < r.pointer ==> Bucket(r.buckets, t) == [])
  {
    if r.dropped == s.dropped {
      assert s'.dropped == s.dropped;
    }
  }

  // --- The exact condition ----------------------------------------------------------------------------

  /** What a turn does to the condition, when the bucket cannot be opened. */
  lemma CannotOpen(c: Config, s: Sweep, now: Tick, orphans: set<nat>)
    requires ValidConfig(c) && s.pointer <= now && !IsZero(s.left) && s.left.refTime < c.bucketWeight
    ensures var next := s.(pointer := s.pointer + 1);
            Enough(c, s, now, orphans) || StopsOnTheDot(c, s, now, orphans) <==>
              Bucket(s.buckets, s.pointer) == [] && (Enough(c, next, now, orphans) || StopsOnTheDot(c, next, now, orphans))
  {
    var next := s.(pointer := s.pointer + 1);
    CannotStop(c, s, now, orphans);
    CannotStop(c, next, now, orphans);
    CannotPay(c, s, now, orphans);
    CannotPay(c, next, now, orphans);
  }

  lemma CannotStop(c: Config, s: Sweep, now: Tick, orphans: set<nat>)
    requires ValidConfig(c) && !IsZero(s.left) && s.left.refTime < c.bucketWeight
    ensures !StopsOnTheDot(c, s, now, orphans)
  {
    forall k: Tick | s.left.proofSize == 0
      ensures !StopsAt(c, s, now, orphans, k)
    {
      CostStep(c, s.buckets, orphans, s.pointer, k);
    }
  }

  lemma CannotPay(c: Config, s: Sweep, now: Tick, orphans: set<nat>)
    requires ValidConfig(c) && s.left.refTime < c.bucketWeight
    ensures Enough(c, s, now, orphans) <==> forall t: Tick :: s.pointer <= t <= now ==> Bucket(s.buckets, t) == []
  {
    forall t: Tick
      ensures Affords(c, s, orphans, t) <==> Bucket(s.buckets, t) == []
    {
    }
    if forall t: Tick :: s.pointer <= t <= now ==> Bucket(s.buckets, t) == [] {
      assert Enough(c, s, now, orphans);
    }
    if Enough(c, s, now, orphans) {
      forall t: Tick | s.pointer <= t <= now
        ensures Bucket(s.buckets, t) == []
      {
        assert Affords(c, s, orphans, t);
      }
    }
  }

  /** When it can be opened but not cleared. */
  lemma CannotClear(c: Config, s: Sweep, now: Tick, orphans: set<nat>)
    requires ValidConfig(c) && s.pointer <= now && s.left.refTime >= c.bucketWeight
    requires c.bucketWeight + Needed(c, Bucket(s.buckets, s.pointer), orphans) > s.left.refTime
    ensures !Enough(c, s, now, orphans) && !StopsOnTheDot(c, s, now, orphans)
  {
    CostStep(c, s.buckets, orphans, s.pointer, s.pointer);
    assert !Affords(c, s, orphans, s.pointer);
    forall k: Tick
      ensures !StopsAt(c, s, now, orphans, k)
    {
    }
  }

  /** When it is cleared: the rest of the budget has to do for the rest of the buckets. */
  lemma Cleared(c: Config, s: Sweep, next: Sweep, now: Tick, orphans: set<nat>)
    requires ValidConfig(c) && s.pointer <= now && next.pointer == s.pointer + 1
    requires c.bucketWeight + Needed(c, Bucket(s.buckets, s.pointer), orphans) <= s.left.refTime
    requires var price := c.bucketWeight + Spent(c, Bucket(s.buckets, s.pointer), orphans);
             price <= s.left.refTime && next.left == s.left.(refTime := s.left.refTime - price)
    requires forall t: Tick :: t != s.pointer ==> Bucket(next.buckets, t) == Bucket(s.buckets, t)
    ensures Enough(c, s, now, orphans) <==> Enough(c, next, now, orphans)
    ensures StopsOnTheDot(c, s, now, orphans) <==> StopsOnTheDot(c, next, now, orphans)
  {
    var price := c.bucketWeight + Spent(c, Bucket(s.buckets, s.pointer), orphans);
    CostStep(c, s.buckets, orphans, s.pointer, s.pointer);
    forall k: Tick | s.pointer + 1 <= k
      ensures Cost(c, s.buckets, orphans, s.pointer, k) == price + Cost(c, next.buckets, orphans, next.pointer, k)
    {
      CostSame(c, s.buckets, next.buckets, orphans, next.pointer, k);
    }
    assert Affords(c, s, orphans, s.pointer);
    forall t: Tick | next.pointer <= t
      ensures Affords(c, s, orphans, t) <==> Affords(c, next, orphans, t)
    {
    }
    hide Affords, Cost, Needed, Spent;
    ClearedEnough(c, s, next, now, orphans);
    ClearedStops(c, s, next, now, orphans, price);
  }

  lemma ClearedEnough(c: Config, s: Sweep, next: Sweep, now: Tick, orphans: set<nat>)
    requires s.pointer <= now && next.pointer == s.pointer + 1
    requires Affords(c, s, orphans, s.pointer)
    requires forall t: Tick :: next.pointer <= t ==> (Affords(c, s, orphans, t) <==> Affords(c, next, orphans, t))
    ensures Enough(c, s, now, orphans) <==> Enough(c, next, now, orphans)
  {
    hide Affords;
    if Enough(c, next, now, orphans) {
      forall t: Tick | s.pointer <= t <= now
        ensures Affords(c, s, orphans, t)
      {
        if t > s.pointer { assert Affords(c, next, orphans, t); }
      }
    }
    if Enough(c, s, now, orphans) {
      forall t: Tick | next.pointer <= t <= now
        ensures Affords(c, next, orphans, t)
      {
        assert Affords(c, s, orphans, t);
      }
    }
  }

  lemma ClearedStops(c: Config, s: Sweep, next: Sweep, now: Tick, orphans: set<nat>, price: nat)
    requires ValidConfig(c) && s.pointer <= now && next.pointer == s.pointer + 1 && c.bucketWeight <= price <= s.left.refTime
    requires next.left == s.left.(refTime := s.left.refTime - price)
    requires forall k: Tick :: s.pointer + 1 <= k ==>
               Cost(c, s.buckets, orphans, s.pointer, k) == price + Cost(c, next.buckets, orphans, next.pointer, k)
    requires Cost(c, s.buckets, orphans, s.pointer, s.pointer) == 0
    requires Affords(c, s, orphans, s.pointer)
    requires forall t: Tick :: next.pointer <= t ==> (Affords(c, s, orphans, t) <==> Affords(c, next, orphans, t))
    ensures StopsOnTheDot(c, s, now, orphans) <==> StopsOnTheDot(c, next, now, orphans)
  {
    hide Affords, Cost;
    forall k: Tick
      ensures StopsAt(c, s, now, orphans, k) <==> StopsAt(c, next, now, orphans, k)
    {
      if StopsAt(c, next, now, orphans, k) {
        forall t: Tick | s.pointer <= t < k
          ensures Affords(c, s, orphans, t)
        {
          if t > s.pointer { assert Affords(c, next, orphans, t); }
        }
      }
      if StopsAt(c, s, now, orphans, k) {
        forall t: Tick | next.pointer <= t < k
          ensures Affords(c, next, orphans, t)
        {
          assert Affords(c, s, orphans, t);
        }
      }
    }
  }

  lemma StopsHere(c: Config, s: Sweep, now: Tick, orphans: set<nat>)
    requires s.pointer <= now + 1 && IsZero(s.left)
    ensures StopsOnTheDot(c, s, now, orphans)
  {
    CostStep(c, s.buckets, orphans, s.pointer, s.pointer);
    assert StopsAt(c, s, now, orphans, s.pointer);
  }

  /** A clean-up loses nothing exactly when its budget pays for every bucket up to the last one that holds anything, or
      runs out, in both dimensions, precisely between two buckets it has paid for. Orphaned items take no weight, but one
      item's weight must be left when they are popped. */
  lemma {:induction false} LossFreeExactly(c: Config, s: Sweep, now: Tick, orphans: set<nat>)
    requires ValidConfig(c)
    ensures LossFree(c, s, now, orphans) <==> Enough(c, s, now, orphans) || StopsOnTheDot(c, s, now, orphans)
    decreases now + 1 - s.pointer
  {
    if s.pointer > now {
    } else if IsZero(s.left) {
      StopsHere(c, s, now, orphans);
    } else {
      LossFreeTurn(c, s, now, orphans);
      ProcessKeepsPointer(c, s, orphans);
      var next := ProcessBucket(c, s, orphans).(pointer := s.pointer + 1);
      LossFreeExactly(c, next, now, orphans);
      if !CanConsume(s.left, c.bucketWeight) {
        hide LossFree, Enough, StopsOnTheDot;
        CannotOpen(c, s, now, orphans);
      } else {
        TurnExactly(c, s, orphans);
        hide LossFree, Enough, StopsOnTheDot, ProcessBucket, Needed, Spent;
        if c.bucketWeight + Needed(c, Bucket(s.buckets, s.pointer), orphans) > s.left.refTime {
          CannotClear(c, s, now, orphans);
        } else {
          Cleared(c, s, next, now, orphans);
          if IsZero(next.left) {
            StopsHere(c, next, now, orphans);
          }
        }
      }
    }
  }

  /** A bucket that can be opened is emptied; nothing is dropped exactly when what its items need is there. */
  lemma TurnExactly(c: Config, s: Sweep, orphans: set<nat>)
    requires CanConsume(s.left, c.bucketWeight)
    ensures var r := ProcessBucket(c, s, orphans);
            var items := Bucket(s.buckets, s.pointer);
            && Bucket(r.buckets, s.pointer) == []
            && (r.dropped == s.dropped <==> c.bucketWeight + Needed(c, items, orphans) <= s.left.refTime)
            && (c.bucketWeight + Needed(c, items, orphans) <= s.left.refTime ==>
                  c.bucketWeight + Spent(c, items, orphans) <= s.left.refTime
                  && r.left == s.left.(refTime := s.left.refTime - (c.bucketWeight + Spent(c, items, orphans))))
  {
    var begun := s.(buckets := s.buckets - {s.pointer}, left := Consume(s.left, c.bucketWeight));
    PopAllExactly(c, begun, Bucket(s.buckets, s.pointer), orphans);
    PopAllKeeps(c, begun, Bucket(s.buckets, s.pointer), orphans);
  }

  /** One unit short: with two items due and weight for the first, the second is gone for good. */
  lemma ShortBudgetDrops()
    ensures var c := Config(1, 2, 1, 1);
            var q := Queue(1, 1, 1, map[1 := [Item(7, 0), Item(8, 0)]]);
            var r := Idle(c, q, Weight(2, 1), {});
            r.dropped == [Item(7, 0)] && r.pointer == 2
  {
    var c := Config(1, 2, 1, 1);
    var items := [Item(7, 0), Item(8, 0)];
    var start := Sweep(map[1 := items], 1, Weight(2, 1), [], []);
    var begun := Sweep(map[], 1, Weight(1, 1), [], []);
    assert map[1 := items] - {1} == map[];
    assert items[..1] == [Item(7, 0)];
    var first := Sweep(map[], 1, Weight(0, 1), [Item(8, 0)], []);
    assert [Item(7, 0)][..0] == [];
    assert PopAll(c, first, [Item(7, 0)], {}) == Sweep(map[], 1, Weight(0, 1), [Item(8, 0)], [Item(7, 0)]);
    assert PopAll(c, begun, items, {}) == Sweep(map[], 1, Weight(0, 1), [Item(8, 0)], [Item(7, 0)]);
    assert ProcessBucket(c, start, {}) == Sweep(map[], 1, Weight(0, 1), [Item(8, 0)], [Item(7, 0)]);
  }

  // --- Enough weight over whole runs ------------------------------------------------------------------

  /** The weight of the buckets from `a` up to, not including, `b` when every item is paid for. */
  function FullCost(c: Config, buckets: map<Tick, seq<Item>>, a: Tick, b: Tick): nat {
    Cost(c, buckets, {}, a, b)
  }

  lemma {:induction false} PaidAtMost(items: seq<Item>, orphans: set<nat>)
    ensures Paid(items, orphans) <= Paid(items, {}) == |items|
    decreases |items|
  {
    if items != [] {
      PaidAtMost(items[..|items| - 1], orphans);
    }
  }

  /** The full weight of a bucket's items is always enough, and orphans leave more of it. */
  lemma FullIsEnough(c: Config, items: seq<Item>, orphans: set<nat>)
    ensures Spent(c, items, orphans) <= Needed(c, items, orphans) <= Spent(c, items, {})
  {
    NeededCovers(c, items, orphans);
    PaidAtMost(items, orphans);
    if items != [] {
      PaidAtMost(items[1..], orphans);
      MulOrder(c.itemWeight, 1 + Paid(items[1..], orphans), Paid(items, {}));
    } else {
      assert c.itemWeight * 0 == 0;
    }
  }

  /** With the full weight nothing is lost, orphans or not, and the pointer ends past the current tick. */
  lemma {:induction false} EnoughIsLossFree(c: Config, s: Sweep, now: Tick, orphans: set<nat>)
    requires ValidConfig(c) && s.pointer <= now + 1
    requires FullCost(c, s.buckets, s.pointer, now + 1) < s.left.refTime
    ensures LossFree(c, s, now, orphans)
    ensures IdleFrom(c, s, now, orphans).pointer == now + 1
    decreases now + 1 - s.pointer
  {
    if s.pointer <= now {
      ProcessKeepsPointer(c, s, orphans);
      EnoughTurn(c, s, now, orphans);
      LossFreeTurn(c, s, now, orphans);
      hide ProcessBucket, LossFree, FullCost;
      EnoughIsLossFree(c, ProcessBucket(c, s, orphans).(pointer := s.pointer + 1), now, orphans);
    }
  }

  lemma EnoughTurn(c: Config, s: Sweep, now: Tick, orphans: set<nat>)
    requires ValidConfig(c) && s.pointer <= now
    requires FullCost(c, s.buckets, s.pointer, now + 1) < s.left.refTime
    ensures var s' := ProcessBucket(c, s, orphans);
            && s'.dropped == s.dropped && !IsZero(s'.left) && Bucket(s'.buckets, s.pointer) == []
            && FullCost(c, s'.buckets, s.pointer + 1, now + 1) < s'.left.refTime
  {
    var s' := ProcessBucket(c, s, orphans);
    CostStep(c, s.buckets, {}, s.pointer, now + 1);
    FullIsEnough(c, Bucket(s.buckets, s.pointer), orphans);
    TurnExactly(c, s, orphans);
    ProcessKeepsPointer(c, s, orphans);
    hide ProcessBucket, Needed, Spent;
    CostSame(c, s.buckets, s'.buckets, {}, s.pointer + 1, now + 1);
  }

  /** Nothing waits behind the pointer, and the pointer is at most one tick ahead. */
  ghost predicate NothingBehind(q: Queue) {
    && q.pointer <= q.now + 1
    && (forall t: Tick :: t < q.pointer ==> Bucket(q.buckets, t) == [])
  }

  /** A new item is placed behind the pointer exactly when the tick it gets already lies there; never with a
      time-to-live of at least one. */
  lemma EnqueueBehindExactly(c: Config, q: Queue, id: nat)
    requires ValidConfig(c) && Inv(c, q) && NothingBehind(q)
    ensures NothingBehind(Enqueue(c, q, id)) <==> PlacedAt(c, q) >= q.pointer
    ensures c.ttl >= 1 ==> NothingBehind(Enqueue(c, q, id))
  {
    PlacedAtIsFirst(c, q);
    var at := PlacedAt(c, q);
    var q' := Enqueue(c, q, id);
    hide PlacedAt, Inv;
    assert Bucket(q'.buckets, at) == Bucket(q.buckets, at) + [Item(id, q.now)];
    assert Bucket(q'.buckets, at) != [];
    forall t: Tick
      ensures t != at ==> Bucket(q'.buckets, t) == Bucket(q.buckets, t)
    {
      BucketPut(q.buckets, at, Bucket(q.buckets, at) + [Item(id, q.now)], t);
    }
  }

  /** Every clean-up of the run has weight to spare for all the buckets that are due. */
  ghost predicate AmpleWeight(c: Config, steps: seq<Step>) {
    forall i :: 0 <= i < |steps| && steps[i].CleanUp? ==> Ample(c, Run(c, steps[..i]).queue, steps[i].budget)
  }

  ghost predicate Ample(c: Config, q: Queue, budget: Weight) {
    FullCost(c, q.buckets, q.pointer, q.now + 1) < budget.refTime
  }

  lemma AmplePrefix(c: Config, steps: seq<Step>, step: Step)
    requires AmpleWeight(c, steps + [step])
    ensures AmpleWeight(c, steps)
    ensures step.CleanUp? ==> Ample(c, Run(c, steps).queue, step.budget)
  {
    hide Run, Ample;
    var all := steps + [step];
    assert all[..|steps|] == steps;
    assert all[|steps|] == step;
    forall i | 0 <= i < |steps| && steps[i].CleanUp?
      ensures Ample(c, Run(c, steps[..i]).queue, steps[i].budget)
    {
      assert all[..i] == steps[..i];
      assert all[i].CleanUp?;
    }
  }

  lemma AmpleCleanUp(c: Config, q: Queue, budget: Weight, orphans: set<nat>)
    requires ValidConfig(c) && NothingBehind(q)
    requires Ample(c, q, budget)
    ensures Idle(c, q, budget, orphans).dropped == []
    ensures NothingBehind(AfterIdle(c, q, budget, orphans)) && AfterIdle(c, q, budget, orphans).pointer == q.now + 1
  {
    var s := StartIdle(q, budget);
    EnoughIsLossFree(c, s, q.now, orphans);
    IdleKeeps(c, s, q.now, orphans);
    hide IdleFrom;
  }

  /** With ample weight and a time-to-live of at least one, over every run: nothing is ever dropped and the pointer never
      passes a bucket that holds anything. */
  lemma {:induction false} AmpleRunsLoseNothing(c: Config, steps: seq<Step>)
    requires ValidConfig(c) && c.ttl >= 1 && AmpleWeight(c, steps)
    ensures Run(c, steps).dropped == [] && NothingBehind(Run(c, steps).queue)
    decreases |steps|
  {
    if steps != [] {
      var n := |steps| - 1;
      var prefix := steps[..n];
      assert steps == prefix + [steps[n]];
      AmplePrefix(c, prefix, steps[n]);
      hide Apply, Inv, NothingBehind, Ample, AmpleWeight;
      AmpleRunsLoseNothing(c, prefix);
      RunInv(c, prefix);
      AmpleStep(c, Run(c, prefix), steps[n]);
    }
  }

  lemma AmpleStep(c: Config, log: Log, step: Step)
    requires ValidConfig(c) && c.ttl >= 1 && Inv(c, log.queue) && NothingBehind(log.queue) && log.dropped == []
    requires step.CleanUp? ==> Ample(c, log.queue, step.budget)
    ensures Apply(c, log, step).dropped == [] && NothingBehind(Apply(c, log, step).queue)
  {
    hide Enqueue, AfterIdle, Idle, Inv, FullCost;
    match step
    case NextTick =>
    case Add(id) => EnqueueBehindExactly(c, log.queue, id);
    case CleanUp(budget, orphans) => AmpleCleanUp(c, log.queue, budget, orphans);
  }

  /** So after a clean-up with ample weight, every bucket up to now is empty, and an item that waits in no later bucket
      has been cleaned exactly as often as it was queued. */
  lemma AmpleRunsCleanEverything(c: Config, steps: seq<Step>, budget: Weight, orphans: set<nat>, x: Item)
    requires ValidConfig(c) && c.ttl >= 1
    requires AmpleWeight(c, steps + [CleanUp(budget, orphans)])
    ensures var log := Run(c, steps + [CleanUp(budget, orphans)]);
            forall t: Tick :: t <= log.queue.now ==> Bucket(log.queue.buckets, t) == []
    ensures var log := Run(c, steps + [CleanUp(budget, orphans)]);
            (forall t: Tick :: t > log.queue.now ==> x !in Bucket(log.queue.buckets, t)) ==>
              Times(Items(log.cleaned), x) == Times(log.queued, x)
  {
    var all := steps + [CleanUp(budget, orphans)];
    var log := Run(c, all);
    AmpleRunsLoseNothing(c, all);
    LastCleanUp(c, steps, budget, orphans);
    hide Run;
    if forall t: Tick :: t > log.queue.now ==> x !in Bucket(log.queue.buckets, t) {
      var t := Max(log.queue.nextAvailable, log.queue.now);
      NothingTwice(c, all, t, x);
      NowhereWaiting(log.queue.buckets, t, x);
    }
  }

  lemma {:induction false} NowhereWaiting(buckets: map<Tick, seq<Item>>, t: int, x: Item)
    requires forall u: Tick :: u <= t ==> x !in Bucket(buckets, u)
    ensures WaitingUpTo(buckets, t, x) == 0
    decreases t + 1
  {
    if t >= 0 {
      NowhereWaiting(buckets, t - 1, x);
    }
  }

  lemma LastCleanUp(c: Config, steps: seq<Step>, budget: Weight, orphans: set<nat>)
    requires ValidConfig(c) && c.ttl >= 1 && AmpleWeight(c, steps + [CleanUp(budget, orphans)])
    ensures var q := Run(c, steps + [CleanUp(budget, orphans)]).queue; q.pointer == q.now + 1
  {
    var step := CleanUp(budget, orphans);
    AmplePrefix(c, steps, step);
    assert (steps + [step])[..|steps|] == steps;
    hide AmpleWeight, NothingBehind, AfterIdle, Idle;
    AmpleRunsLoseNothing(c, steps);
    AmpleCleanUp(c, Run(c, steps).queue, budget, orphans);
    AfterIdleKeepsTime(c, Run(c, steps).queue, budget, orphans);
  }

  lemma AfterIdleKeepsTime(c: Config, q: Queue, budget: Weight, orphans: set<nat>)
    ensures AfterIdle(c, q, budget, orphans).now == q.now
  {
  }
}
