/** The expiration scheduler in the form it runs: the loop that looks for a bucket with room, and the two nested loops of
    the idle hook, over storage updated in place. */
module ExpirationPallet {
  import opened Prelude
  import opened ExpirationQueue

  class Scheduler {
    const config: Config

    var now: Tick
    var nextAvailable: Tick
    var pointer: Tick
    var buckets: map<Tick, seq<Item>>

    function Storage(): Queue
      reads this
    {
      Queue(now, nextAvailable, pointer, buckets)
    }

    constructor (c: Config)
      ensures config == c && Storage() == EMPTY
      ensures Inv(config, Storage())
    {
      config := c;
      now, nextAvailable, pointer, buckets := 0, 0, 0, map[];
    }

    /** `enqueue_expiration_item`: the loop tries ticks until one takes the item. */
    method EnqueueItem(id: nat) returns (at: Tick)
      requires ValidConfig(config) && Inv(config, Storage())
      modifies this`nextAvailable, this`buckets
      ensures Storage() == Enqueue(config, old(Storage()), id)
      ensures at == PlacedAt(config, old(Storage())) && at >= now + config.ttl
      ensures Inv(config, Storage())
    {
      ghost var before := Storage();
      PlacedAtIsFirst(config, before);
      EnqueueInv(config, before, id);
      hide Inv;
      var earliest := Max(nextAvailable, now + config.ttl);
      at := earliest;
      while |Bucket(buckets, at)| >= config.bound
        invariant earliest <= at <= PlacedAt(config, before)
        decreases PlacedAt(config, before) - at
      {
        at := at + 1;
      }
      buckets := buckets[at := Bucket(buckets, at) + [Item(id, now)]];
      nextAvailable := at;
    }

    /** `process_block_expired_items`, with the loop that pops the items of the bucket. */
    method ProcessBucketAt(t: Tick, left: Weight, orphans: set<nat>, ghost s: Sweep)
      returns (rest: Weight, cleaned: seq<Item>, dropped: seq<Item>)
      requires s.buckets == buckets && s.pointer == t && s.left == left
      modifies this`buckets
      ensures ProcessBucket(config, s, orphans)
              == Sweep(buckets, t, rest, s.cleaned + cleaned, s.dropped + dropped)
    {
      cleaned, dropped := [], [];
      rest := left;
      if rest.refTime < config.bucketWeight {
        assert s.cleaned + [] == s.cleaned && s.dropped + [] == s.dropped;
        return;
      }
      var items := Bucket(buckets, t);
      buckets := buckets - {t};
      rest := Consume(rest, config.bucketWeight);
      assert s.cleaned + [] == s.cleaned && s.dropped + [] == s.dropped;
      while items != []
        invariant ProcessBucket(config, s, orphans)
                  == PopAll(config, Sweep(buckets, t, rest, s.cleaned + cleaned, s.dropped + dropped), items, orphans)
        decreases |items|
        modifies {}
      {
        var item := items[|items| - 1];
        items := items[..|items| - 1];
        if !CanConsume(rest, config.itemWeight) {
          assert s.dropped + (dropped + [item]) == s.dropped + dropped + [item];
          dropped := dropped + [item];
        } else {
          assert s.cleaned + (cleaned + [item]) == s.cleaned + cleaned + [item];
          cleaned := cleaned + [item];
          if item.id !in orphans {
            rest := Consume(rest, config.itemWeight);
          }
        }
      }
    }

    /** `do_on_idle`. */
    method OnIdle(budget: Weight, orphans: set<nat>) returns (cleaned: seq<Item>, dropped: seq<Item>)
      requires Inv(config, Storage())
      modifies this`pointer, this`buckets
      ensures Storage() == AfterIdle(config, old(Storage()), budget, orphans)
      ensures var r := Idle(config, old(Storage()), budget, orphans); cleaned == r.cleaned && dropped == r.dropped
      ensures Inv(config, Storage())
    {
      ghost var before := Storage();
      IdleInv(config, before, budget, orphans);
      hide Inv, ProcessBucket;
      cleaned, dropped := [], [];
      var left := budget;
      var t := pointer;
      var stopped := false;
      while t <= now && !IsZero(left) && !stopped
        invariant pointer == before.pointer && now == before.now && nextAvailable == before.nextAvailable
        invariant var s := Sweep(buckets, t, left, cleaned, dropped);
                  Idle(config, before, budget, orphans) == if stopped then s else IdleFrom(config, s, now, orphans)
        decreases now + 1 - t, if stopped then 0 else 1
      {
        ghost var s := Sweep(buckets, t, left, cleaned, dropped);
        ProcessKeepsPointer(config, s, orphans);
        var rest, more, lost := ProcessBucketAt(t, left, orphans, s);
        left, cleaned, dropped := rest, cleaned + more, dropped + lost;
        if IsZero(left) {
          stopped := true;
        } else {
          t := t + 1;
        }
      }
      pointer := t;
    }
  }
}
