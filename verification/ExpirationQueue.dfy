/** The expiration scheduler: items are put into per-tick buckets of bounded size, at least a time-to-live ahead, and an
    idle hook cleans the buckets that have come due with whatever weight a block has left. */
module ExpirationQueue {
  import opened Prelude

  type Tick = nat

  /** An item and the tick it was queued at. */
  datatype Item = Item(id: nat, since: Tick)

  datatype Weight = Weight(refTime: nat, proofSize: nat)

  /** `bucketWeight` is the database weight of opening a bucket, `itemWeight` that of one item; neither has a proof size. */
  datatype Config = Config(ttl: nat, bound: nat, bucketWeight: nat, itemWeight: nat)

  ghost predicate ValidConfig(c: Config) {
    c.bound > 0 && c.bucketWeight > 0
  }

  datatype Queue = Queue(now: Tick, nextAvailable: Tick, pointer: Tick, buckets: map<Tick, seq<Item>>)

  const EMPTY := Queue(0, 0, 0, map[])

  function Bucket(buckets: map<Tick, seq<Item>>, t: Tick): seq<Item> {
    if t in buckets then buckets[t] else []
  }

  // --- Queueing ---------------------------------------------------------------------------------------

  /** The first tick from which the item may be placed. */
  function EarliestTick(c: Config, q: Queue): Tick {
    Max(q.nextAvailable, q.now + c.ttl)
  }

  predicate HasRoom(c: Config, q: Queue, t: Tick) {
    |Bucket(q.buckets, t)| < c.bound
  }

  /** Nothing is waiting beyond the tick handed out last. */
  ghost predicate EmptyAhead(q: Queue) {
    forall t: Tick :: t > q.nextAvailable ==> Bucket(q.buckets, t) == []
  }

  /** The tick an item gets: as nothing waits further ahead, a full bucket is bumped at most once. */
  function PlacedAt(c: Config, q: Queue): Tick {
    var t := EarliestTick(c, q);
    if HasRoom(c, q, t) then t else t + 1
  }

  function Enqueue(c: Config, q: Queue, id: nat): Queue {
    var t := PlacedAt(c, q);
    q.(buckets := q.buckets[t := Bucket(q.buckets, t) + [Item(id, q.now)]], nextAvailable := t)
  }

  // --- Cleaning up ------------------------------------------------------------------------------------

  predicate IsZero(w: Weight) {
    w.refTime == 0 && w.proofSize == 0
  }

  /** The database weights have no proof size, so only the reference time can be short. */
  predicate CanConsume(w: Weight, refTime: nat) {
    w.refTime >= refTime
  }

  function Consume(w: Weight, refTime: nat): Weight {
    w.(refTime := SatSub(w.refTime, refTime))
  }

  /** A clean-up in progress. */
  datatype Sweep = Sweep(
    buckets: map<Tick, seq<Item>>, pointer: Tick, left: Weight, cleaned: seq<Item>, dropped: seq<Item>)

  /** Pop the items of a bucket from the back. An item that does not fit the remaining weight is popped all the same and
      is gone. An orphaned item (its provider no longer exists) is cleaned without being paid for. */
  function PopAll(c: Config, s: Sweep, items: seq<Item>, orphans: set<nat>): Sweep
    decreases |items|
  {
    if items == [] then s
    else
      var n := |items| - 1;
      var item := items[n];
      var s' := if !CanConsume(s.left, c.itemWeight) then s.(dropped := s.dropped + [item])
                else s.(cleaned := s.cleaned + [item],
                        left := if item.id in orphans then s.left else Consume(s.left, c.itemWeight));
      PopAll(c, s', items[..n], orphans)
  }

  /** `process_block_expired_items`: a bucket there is no weight to open stays where it is. */
  function ProcessBucket(c: Config, s: Sweep, orphans: set<nat>): Sweep {
    if !CanConsume(s.left, c.bucketWeight) then s
    else
      var taken := Bucket(s.buckets, s.pointer);
      PopAll(c, s.(buckets := s.buckets - {s.pointer}, left := Consume(s.left, c.bucketWeight)), taken, orphans)
  }

  /** The loop of `do_on_idle`. */
  function IdleFrom(c: Config, s: Sweep, now: Tick, orphans: set<nat>): Sweep
    decreases now + 1 - s.pointer
  {
    if s.pointer > now || IsZero(s.left) then s
    else
      var s' := ProcessBucket(c, s, orphans);
      ProcessKeepsPointer(c, s, orphans);
      if IsZero(s'.left) then s' else IdleFrom(c, s'.(pointer := s'.pointer + 1), now, orphans)
  }

  lemma {:induction false} PopAllKeeps(c: Config, s: Sweep, items: seq<Item>, orphans: set<nat>)
    ensures var r := PopAll(c, s, items, orphans);
            && r.pointer == s.pointer && r.buckets == s.buckets && r.left.proofSize == s.left.proofSize
            && |r.dropped| >= |s.dropped| && r.dropped[..|s.dropped|] == s.dropped
            && |r.cleaned| >= |s.cleaned| && r.cleaned[..|s.cleaned|] == s.cleaned
    decreases |items|
  {
    if items != [] {
      var n := |items| - 1;
      var item := items[n];
      var s' := if !CanConsume(s.left, c.itemWeight) then s.(dropped := s.dropped + [item])
                else s.(cleaned := s.cleaned + [item],
                        left := if item.id in orphans then s.left else Consume(s.left, c.itemWeight));
      PopAllKeeps(c, s', items[..n], orphans);
      var r := PopAll(c, s', items[..n], orphans);
      assert s'.dropped[..|s.dropped|] == s.dropped && s'.cleaned[..|s.cleaned|] == s.cleaned;
      assert r.dropped[..|s.dropped|] == r.dropped[..|s'.dropped|][..|s.dropped|];
      assert r.cleaned[..|s.cleaned|] == r.cleaned[..|s'.cleaned|][..|s.cleaned|];
    }
  }

  lemma ProcessKeepsPointer(c: Config, s: Sweep, orphans: set<nat>)
    ensures ProcessBucket(c, s, orphans).pointer == s.pointer
    ensures ProcessBucket(c, s, orphans).left.proofSize == s.left.proofSize
    ensures forall t: Tick :: t != s.pointer ==>
              Bucket(ProcessBucket(c, s, orphans).buckets, t) == Bucket(s.buckets, t)
  {
    if CanConsume(s.left, c.bucketWeight) {
      PopAllKeeps(c, s.(buckets := s.buckets - {s.pointer}, left := Consume(s.left, c.bucketWeight)),
                  Bucket(s.buckets, s.pointer), orphans);
    }
  }

  function StartIdle(q: Queue, budget: Weight): Sweep {
    Sweep(q.buckets, q.pointer, budget, [], [])
  }

  /** `on_idle`. */
  function Idle(c: Config, q: Queue, budget: Weight, orphans: set<nat>): Sweep {
    IdleFrom(c, StartIdle(q, budget), q.now, orphans)
  }

  function AfterIdle(c: Config, q: Queue, budget: Weight, orphans: set<nat>): Queue {
    var r := Idle(c, q, budget, orphans);
    q.(buckets := r.buckets, pointer := r.pointer)
  }

  // --- Runs -------------------------------------------------------------------------------------------

  datatype Step =
    | NextTick
    | Add(id: nat)
    | CleanUp(budget: Weight, orphans: set<nat>)

  /** The queue with everything that entered it, was cleaned (and when), or was dropped for want of weight. */
  datatype Log = Log(queue: Queue, queued: seq<Item>, cleaned: seq<(Item, Tick)>, dropped: seq<Item>)

  const NEW_LOG := Log(EMPTY, [], [], [])

  function Stamp(items: seq<Item>, t: Tick): seq<(Item, Tick)> {
    seq(|items|, i requires 0 <= i < |items| => (items[i], t))
  }

  function Apply(c: Config, log: Log, step: Step): Log {
    var q := log.queue;
    match step
    case NextTick => log.(queue := q.(now := q.now + 1))
    case Add(id) => log.(queue := Enqueue(c, q, id), queued := log.queued + [Item(id, q.now)])
    case CleanUp(budget, orphans) =>
      var r := Idle(c, q, budget, orphans);
      log.(queue := AfterIdle(c, q, budget, orphans),
           cleaned := log.cleaned + Stamp(r.cleaned, q.now),
           dropped := log.dropped + r.dropped)
  }

  function Run(c: Config, steps: seq<Step>): Log
    decreases |steps|
  {
    if steps == [] then NEW_LOG else Apply(c, Run(c, steps[..|steps| - 1]), steps[|steps| - 1])
  }

  // --- Buckets, bounds and time-to-live ---------------------------------------------------------------

  /** No bucket exceeds its bound, nothing waits beyond the tick handed out last, and every item waits in a bucket at
      least a time-to-live after it was queued. */
  ghost predicate Inv(c: Config, q: Queue) {
    && EmptyAhead(q)
    && (forall t: Tick :: |Bucket(q.buckets, t)| <= c.bound)
    && (forall t: Tick, i :: 0 <= i < |Bucket(q.buckets, t)| ==> Bucket(q.buckets, t)[i].since + c.ttl <= t)
  }

  /** The loop that looks for room finds it: the placed tick is the first one with room from the earliest on. */
  lemma PlacedAtIsFirst(c: Config, q: Queue)
    requires ValidConfig(c) && EmptyAhead(q)
    ensures HasRoom(c, q, PlacedAt(c, q))
    ensures q.now + c.ttl <= PlacedAt(c, q) && q.nextAvailable <= PlacedAt(c, q)
    ensures forall t: Tick :: EarliestTick(c, q) <= t < PlacedAt(c, q) ==> !HasRoom(c, q, t)
  {
    assert Bucket(q.buckets, EarliestTick(c, q) + 1) == [];
  }

  lemma BucketPut(buckets: map<Tick, seq<Item>>, t: Tick, items: seq<Item>, u: Tick)
    ensures Bucket(buckets[t := items], u) == if u == t then items else Bucket(buckets, u)
  {
  }

  lemma EnqueueInv(c: Config, q: Queue, id: nat)
    requires ValidConfig(c) && Inv(c, q)
    ensures Inv(c, Enqueue(c, q, id))
  {
    PlacedAtIsFirst(c, q);
    var t := PlacedAt(c, q);
    var q' := Enqueue(c, q, id);
    hide PlacedAt, Inv, EmptyAhead;
    forall u: Tick
      ensures u > t ==> Bucket(q'.buckets, u) == []
      ensures |Bucket(q'.buckets, u)| <= c.bound
      ensures forall i :: 0 <= i < |Bucket(q'.buckets, u)| ==> Bucket(q'.buckets, u)[i].since + c.ttl <= u
    {
      BucketPut(q.buckets, t, Bucket(q.buckets, t) + [Item(id, q.now)], u);
      InvAt(c, q, u);
    }
    InvFrom(c, q');
  }

  lemma InvAt(c: Config, q: Queue, t: Tick)
    requires Inv(c, q)
    ensures t > q.nextAvailable ==> Bucket(q.buckets, t) == []
    ensures |Bucket(q.buckets, t)| <= c.bound
    ensures forall i :: 0 <= i < |Bucket(q.buckets, t)| ==> Bucket(q.buckets, t)[i].since + c.ttl <= t
  {
  }

  lemma InvFrom(c: Config, q: Queue)
    requires forall t: Tick :: t > q.nextAvailable ==> Bucket(q.buckets, t) == []
    requires forall t: Tick :: |Bucket(q.buckets, t)| <= c.bound
    requires forall t: Tick, i :: 0 <= i < |Bucket(q.buckets, t)| ==> Bucket(q.buckets, t)[i].since + c.ttl <= t
    ensures Inv(c, q)
  {
  }

  /** Every bucket is left as it was, or emptied. */
  ghost predicate OnlyEmptied(before: map<Tick, seq<Item>>, after: map<Tick, seq<Item>>) {
    forall t: Tick :: Bucket(after, t) == Bucket(before, t) || Bucket(after, t) == []
  }

  lemma ProcessOnlyEmpties(c: Config, s: Sweep, orphans: set<nat>)
    ensures OnlyEmptied(s.buckets, ProcessBucket(c, s, orphans).buckets)
  {
    if CanConsume(s.left, c.bucketWeight) {
      PopAllKeeps(c, s.(buckets := s.buckets - {s.pointer}, left := Consume(s.left, c.bucketWeight)),
                  Bucket(s.buckets, s.pointer), orphans);
    }
  }

  lemma {:induction false} IdleOnlyEmpties(c: Config, s: Sweep, now: Tick, orphans: set<nat>)
    ensures OnlyEmptied(s.buckets, IdleFrom(c, s, now, orphans).buckets)
    decreases now + 1 - s.pointer
  {
    hide ProcessBucket;
    if !(s.pointer > now || IsZero(s.left)) {
      var s' := ProcessBucket(c, s, orphans);
      ProcessOnlyEmpties(c, s, orphans);
      ProcessKeepsPointer(c, s, orphans);
      if !IsZero(s'.left) {
        IdleOnlyEmpties(c, s'.(pointer := s'.pointer + 1), now, orphans);
      }
    }
  }

  lemma IdleInv(c: Config, q: Queue, budget: Weight, orphans: set<nat>)
    requires Inv(c, q)
    ensures Inv(c, AfterIdle(c, q, budget, orphans))
  {
    hide IdleFrom;
    IdleOnlyEmpties(c, StartIdle(q, budget), q.now, orphans);
  }

  lemma {:induction false} RunInv(c: Config, steps: seq<Step>)
    requires ValidConfig(c)
    ensures Inv(c, Run(c, steps).queue)
    decreases |steps|
  {
    if steps != [] {
      hide Enqueue, AfterIdle, Idle;
      var log := Run(c, steps[..|steps| - 1]);
      RunInv(c, steps[..|steps| - 1]);
      match steps[|steps| - 1]
      case NextTick =>
      case Add(id) => EnqueueInv(c, log.queue, id);
      case CleanUp(budget, orphans) => IdleInv(c, log.queue, budget, orphans);
    }
  }

  // --- Never before its time --------------------------------------------------------------------------

  /** Every item of the list has waited its time-to-live at tick `now`. */
  ghost predicate AllRipe(c: Config, items: seq<Item>, now: Tick) {
    forall i :: 0 <= i < |items| ==> items[i].since + c.ttl <= now
  }

  lemma {:induction false} PopAllRipe(c: Config, s: Sweep, items: seq<Item>, orphans: set<nat>, now: Tick)
    requires AllRipe(c, s.cleaned, now) && AllRipe(c, items, now)
    ensures AllRipe(c, PopAll(c, s, items, orphans).cleaned, now)
    decreases |items|
  {
    if items != [] {
      var n := |items| - 1;
      var item := items[n];
      var s' := if !CanConsume(s.left, c.itemWeight) then s.(dropped := s.dropped + [item])
                else s.(cleaned := s.cleaned + [item],
                        left := if item.id in orphans then s.left else Consume(s.left, c.itemWeight));
      PopAllRipe(c, s', items[..n], orphans, now);
    }
  }

  ghost predicate Ripening(c: Config, buckets: map<Tick, seq<Item>>) {
    forall t: Tick :: AllRipe(c, Bucket(buckets, t), t)
  }

  lemma {:induction false} IdleRipe(c: Config, s: Sweep, now: Tick, orphans: set<nat>)
    requires AllRipe(c, s.cleaned, now) && Ripening(c, s.buckets)
    ensures AllRipe(c, IdleFrom(c, s, now, orphans).cleaned, now)
    decreases now + 1 - s.pointer
  {
    if !(s.pointer > now || IsZero(s.left)) {
      var s' := ProcessBucket(c, s, orphans);
      var taken := Bucket(s.buckets, s.pointer);
      assert AllRipe(c, taken, s.pointer);
      PopAllRipe(c, s.(buckets := s.buckets - {s.pointer}, left := Consume(s.left, c.bucketWeight)), taken, orphans, now);
      ProcessOnlyEmpties(c, s, orphans);
      ProcessKeepsPointer(c, s, orphans);
      hide ProcessBucket;
      StillRipening(c, s.buckets, s'.buckets);
      if !IsZero(s'.left) {
        IdleRipe(c, s'.(pointer := s'.pointer + 1), now, orphans);
      }
    }
  }

  lemma StillRipening(c: Config, before: map<Tick, seq<Item>>, after: map<Tick, seq<Item>>)
    requires Ripening(c, before) && OnlyEmptied(before, after)
    ensures Ripening(c, after)
  {
    forall t: Tick
      ensures AllRipe(c, Bucket(after, t), t)
    {
      assert AllRipe(c, Bucket(before, t), t);
    }
  }

  ghost predicate CleanedRipe(c: Config, cleaned: seq<(Item, Tick)>) {
    forall i :: 0 <= i < |cleaned| ==> cleaned[i].0.since + c.ttl <= cleaned[i].1
  }

  /** In every run, with any weights, no item is cleaned before its time-to-live has passed. */
  lemma {:induction false} NeverTooEarly(c: Config, steps: seq<Step>)
    requires ValidConfig(c)
    ensures CleanedRipe(c, Run(c, steps).cleaned)
    decreases |steps|
  {
    if steps != [] {
      var prefix := steps[..|steps| - 1];
      NeverTooEarly(c, prefix);
      RunInv(c, prefix);
      match steps[|steps| - 1]
      case NextTick =>
      case Add(_) =>
      case CleanUp(budget, orphans) =>
        var log := Run(c, prefix);
        InvRipening(c, log.queue);
        IdleRipe(c, StartIdle(log.queue, budget), log.queue.now, orphans);
        hide IdleFrom, Inv;
        StampRipe(c, log.cleaned, Idle(c, log.queue, budget, orphans).cleaned, log.queue.now);
    }
  }

  lemma InvRipening(c: Config, q: Queue)
    requires Inv(c, q)
    ensures Ripening(c, q.buckets)
  {
  }

  lemma StampRipe(c: Config, before: seq<(Item, Tick)>, items: seq<Item>, now: Tick)
    requires CleanedRipe(c, before) && AllRipe(c, items, now)
    ensures CleanedRipe(c, before + Stamp(items, now))
  {
  }

  // --- Conservation -----------------------------------------------------------------------------------

  /** How many times the item is in the list. */
  function Times(items: seq<Item>, x: Item): nat {
    multiset(items)[x]
  }

  /** How many times the item waits in some bucket up to `t`. */
  function WaitingUpTo(buckets: map<Tick, seq<Item>>, t: int, x: Item): nat
    decreases t + 1
  {
    if t < 0 then 0 else WaitingUpTo(buckets, t - 1, x) + Times(Bucket(buckets, t), x)
  }

  lemma {:induction false} WaitingSame(a: map<Tick, seq<Item>>, b: map<Tick, seq<Item>>, t: int, x: Item)
    requires forall u: Tick :: u <= t ==> Bucket(a, u) == Bucket(b, u)
    ensures WaitingUpTo(a, t, x) == WaitingUpTo(b, t, x)
    decreases t + 1
  {
    if t >= 0 {
      WaitingSame(a, b, t - 1, x);
    }
  }

  /** Changing one bucket changes what waits by what changed in it. */
  lemma {:induction false} WaitingPut(a: map<Tick, seq<Item>>, b: map<Tick, seq<Item>>, at: Tick, t: int, x: Item)
    requires at <= t && forall u: Tick :: u != at ==> Bucket(a, u) == Bucket(b, u)
    ensures WaitingUpTo(b, t, x) + Times(Bucket(a, at), x) == WaitingUpTo(a, t, x) + Times(Bucket(b, at), x)
    decreases t + 1
  {
    if t > at {
      WaitingPut(a, b, at, t - 1, x);
    } else {
      WaitingSame(a, b, t - 1, x);
    }
  }

  lemma {:induction false} PopAllConserves(c: Config, s: Sweep, items: seq<Item>, orphans: set<nat>, x: Item)
    ensures var r := PopAll(c, s, items, orphans);
            Times(r.cleaned, x) + Times(r.dropped, x) == Times(s.cleaned, x) + Times(s.dropped, x) + Times(items, x)
    decreases |items|
  {
    if items != [] {
      var n := |items| - 1;
      var item := items[n];
      var s' := if !CanConsume(s.left, c.itemWeight) then s.(dropped := s.dropped + [item])
                else s.(cleaned := s.cleaned + [item],
                        left := if item.id in orphans then s.left else Consume(s.left, c.itemWeight));
      assert items == items[..n] + [item];
      PopAllConserves(c, s', items[..n], orphans, x);
    }
  }

  lemma ProcessConserves(c: Config, s: Sweep, orphans: set<nat>, t: int, x: Item)
    requires s.pointer <= t
    ensures var r := ProcessBucket(c, s, orphans);
            Times(r.cleaned, x) + Times(r.dropped, x) + WaitingUpTo(r.buckets, t, x)
            == Times(s.cleaned, x) + Times(s.dropped, x) + WaitingUpTo(s.buckets, t, x)
  {
    if CanConsume(s.left, c.bucketWeight) {
      var taken := Bucket(s.buckets, s.pointer);
      var begun := s.(buckets := s.buckets - {s.pointer}, left := Consume(s.left, c.bucketWeight));
      PopAllConserves(c, begun, taken, orphans, x);
      PopAllKeeps(c, begun, taken, orphans);
      WaitingPut(s.buckets, begun.buckets, s.pointer, t, x);
    }
  }

  lemma {:induction false} IdleConserves(c: Config, s: Sweep, now: Tick, orphans: set<nat>, t: int, x: Item)
    requires now <= t
    ensures var r := IdleFrom(c, s, now, orphans);
            Times(r.cleaned, x) + Times(r.dropped, x) + WaitingUpTo(r.buckets, t, x)
            == Times(s.cleaned, x) + Times(s.dropped, x) + WaitingUpTo(s.buckets, t, x)
    decreases now + 1 - s.pointer
  {
    hide ProcessBucket, WaitingUpTo;
    if !(s.pointer > now || IsZero(s.left)) {
      var s' := ProcessBucket(c, s, orphans);
      ProcessConserves(c, s, orphans, t, x);
      ProcessKeepsPointer(c, s, orphans);
      if !IsZero(s'.left) {
        IdleConserves(c, s'.(pointer := s'.pointer + 1), now, orphans, t, x);
      }
    }
  }

  function Items(cleaned: seq<(Item, Tick)>): seq<Item> {
    seq(|cleaned|, i requires 0 <= i < |cleaned| => cleaned[i].0)
  }

  /** Everything queued is, exactly once, cleaned, dropped or still waiting. */
  ghost predicate Accounted(log: Log, t: int, x: Item) {
    Times(log.queued, x) == Times(Items(log.cleaned), x) + Times(log.dropped, x) + WaitingUpTo(log.queue.buckets, t, x)
  }

  /** In every run, with any weights: each queued item is accounted for once. */
  lemma {:induction false} NothingTwice(c: Config, steps: seq<Step>, t: int, x: Item)
    requires ValidConfig(c)
    requires t >= Run(c, steps).queue.nextAvailable && t >= Run(c, steps).queue.now
    ensures Accounted(Run(c, steps), t, x)
    decreases |steps|
  {
    if steps == [] {
      NothingWaits(t, x);
    } else {
      var prefix := steps[..|steps| - 1];
      var log := Run(c, prefix);
      RunInv(c, prefix);
      match steps[|steps| - 1]
      case NextTick => NothingTwice(c, prefix, t, x);
      case Add(id) =>
        PlacedAtIsFirst(c, log.queue);
        NothingTwice(c, prefix, t, x);
        AddAccounted(c, log, id, t, x);
      case CleanUp(budget, orphans) =>
        NothingTwice(c, prefix, t, x);
        CleanAccounted(c, log, budget, orphans, t, x);
    }
  }

  lemma {:induction false} NothingWaits(t: int, x: Item)
    ensures WaitingUpTo(map[], t, x) == 0
    decreases t + 1
  {
    if t >= 0 {
      NothingWaits(t - 1, x);
    }
  }

  lemma AddAccounted(c: Config, log: Log, id: nat, t: int, x: Item)
    requires Accounted(log, t, x) && PlacedAt(c, log.queue) <= t
    ensures Accounted(Apply(c, log, Add(id)), t, x)
  {
    var q := log.queue;
    var at := PlacedAt(c, q);
    var item := Item(id, q.now);
    WaitingPut(q.buckets, Enqueue(c, q, id).buckets, at, t, x);
  }

  lemma CleanAccounted(c: Config, log: Log, budget: Weight, orphans: set<nat>, t: int, x: Item)
    requires Accounted(log, t, x) && log.queue.now <= t
    ensures Accounted(Apply(c, log, CleanUp(budget, orphans)), t, x)
  {
    hide IdleFrom, WaitingUpTo;
    IdleConserves(c, StartIdle(log.queue, budget), log.queue.now, orphans, t, x);
    var r := Idle(c, log.queue, budget, orphans);
    assert Items(log.cleaned + Stamp(r.cleaned, log.queue.now)) == Items(log.cleaned) + r.cleaned;
  }
}
