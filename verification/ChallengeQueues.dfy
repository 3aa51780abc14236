/** The two bounded queues of manual challenges and the checkpoint round that empties them. */
module ChallengeQueues {
  import opened Prelude

  /** A challenged key: drawn from a tick's seed for one provider, or named by whoever asked for it.
      Hashing is kept symbolic. */
  datatype Key = Drawn(seed: nat, provider: nat, index: nat) | Named(id: nat)

  /** A custom challenge, with the optional request to remove the key from the forest. */
  datatype Challenge = Challenge(key: Key, removes: bool)

  datatype Queues = Queues(priority: seq<Challenge>, regular: seq<Key>)

  datatype QueueError = ChallengesQueueOverflow | PriorityChallengesQueueOverflow

  const NO_CHALLENGES := Queues([], [])

  /** A key that is already waiting is not queued twice; a full queue refuses. */
  function Enqueue(q: Queues, bound: nat, key: Key): Outcome<Queues, QueueError> {
    if key in q.regular then Ok(q)
    else if |q.regular| >= bound then Err(ChallengesQueueOverflow)
    else Ok(q.(regular := q.regular + [key]))
  }

  function EnqueuePriority(q: Queues, bound: nat, ch: Challenge): Outcome<Queues, QueueError> {
    if ch in q.priority then Ok(q)
    else if |q.priority| >= bound then Err(PriorityChallengesQueueOverflow)
    else Ok(q.(priority := q.priority + [ch]))
  }

  /** How many of the waiting priority challenges the next round takes. */
  function PriorityTaken(q: Queues, max: nat): (n: nat)
    ensures n <= |q.priority|
  {
    Min(max, |q.priority|)
  }

  /** How many of the waiting regular challenges fit after them. */
  function RegularTaken(q: Queues, max: nat): (n: nat)
    ensures n <= |q.regular|
  {
    Min(max - PriorityTaken(q, max), |q.regular|)
  }

  function Plain(keys: seq<Key>): (r: seq<Challenge>)
    ensures |r| == |keys|
    ensures forall i :: 0 <= i < |keys| ==> r[i] == Challenge(keys[i], false)
  {
    seq(|keys|, i requires 0 <= i < |keys| => Challenge(keys[i], false))
  }

  /** The challenges of a checkpoint round. */
  function Dispatched(q: Queues, max: nat): seq<Challenge> {
    q.priority[..PriorityTaken(q, max)] + Plain(q.regular[..RegularTaken(q, max)])
  }

  /** What still waits after the round. */
  function Leftover(q: Queues, max: nat): Queues {
    Queues(q.priority[PriorityTaken(q, max)..], q.regular[RegularTaken(q, max)..])
  }

  /** The round in the form the pallet runs it: pop from the priority queue until the round is full or the
      queue is empty, then do the same with the regular queue. */
  method FillCheckpointRound(q: Queues, max: nat) returns (round: seq<Challenge>, left: Queues)
    ensures round == Dispatched(q, max)
    ensures left == Leftover(q, max)
    ensures |round| <= max
  {
    round := [];
    var priority := q.priority;
    while |round| < max && priority != []
      invariant |round| <= PriorityTaken(q, max)
      invariant round == q.priority[..|round|]
      invariant priority == q.priority[|round|..]
    {
      round := round + [priority[0]];
      priority := priority[1..];
    }
    ghost var taken := PriorityTaken(q, max);
    assert |round| == taken;

    var regular := q.regular;
    while |round| < max && regular != []
      invariant taken <= |round| <= taken + RegularTaken(q, max)
      invariant round == q.priority[..taken] + Plain(q.regular[..|round| - taken])
      invariant regular == q.regular[|round| - taken..]
    {
      round := round + [Challenge(regular[0], false)];
      regular := regular[1..];
    }
    left := Queues(priority, regular);
  }

  // --- Runs -------------------------------------------------------------------------------------------

  datatype Op = Ask(key: Key) | AskWithPriority(challenge: Challenge) | Round

  /** The queues together with everything that ever entered and left each of them. */
  datatype Log = Log(
    queues: Queues,
    askedPriority: seq<Challenge>, sentPriority: seq<Challenge>,
    askedRegular: seq<Key>, sentRegular: seq<Key>)

  const EMPTY_LOG := Log(NO_CHALLENGES, [], [], [], [])

  function Perform(log: Log, bound: nat, max: nat, op: Op): Log {
    var q := log.queues;
    match op
    case Ask(key) =>
      (match Enqueue(q, bound, key)
       case Ok(q') => log.(queues := q', askedRegular := log.askedRegular + q'.regular[|q.regular|..])
       case Err(_) => log)
    case AskWithPriority(ch) =>
      (match EnqueuePriority(q, bound, ch)
       case Ok(q') => log.(queues := q', askedPriority := log.askedPriority + q'.priority[|q.priority|..])
       case Err(_) => log)
    case Round =>
      log.(queues := Leftover(q, max),
           sentPriority := log.sentPriority + q.priority[..PriorityTaken(q, max)],
           sentRegular := log.sentRegular + q.regular[..RegularTaken(q, max)])
  }

  function PerformAll(log: Log, bound: nat, max: nat, ops: seq<Op>): Log
    decreases |ops|
  {
    if ops == [] then log else PerformAll(Perform(log, bound, max, ops[0]), bound, max, ops[1..])
  }

  function Rounds(ops: seq<Op>): nat
    decreases |ops|
  {
    if ops == [] then 0 else (if ops[0].Round? then 1 else 0) + Rounds(ops[1..])
  }

  ghost predicate Fifo(log: Log, bound: nat) {
    && log.askedPriority == log.sentPriority + log.queues.priority
    && log.askedRegular == log.sentRegular + log.queues.regular
    && |log.queues.priority| <= bound
    && |log.queues.regular| <= bound
  }

  lemma FifoStep(log: Log, bound: nat, max: nat, op: Op)
    requires Fifo(log, bound)
    ensures Fifo(Perform(log, bound, max, op), bound)
  {
    var q := log.queues;
    match op
    case Ask(key) =>
      match Enqueue(q, bound, key) {
        case Ok(q') =>
          assert q'.regular == q.regular + q'.regular[|q.regular|..];
        case Err(_) =>
      }
    case AskWithPriority(ch) =>
      match EnqueuePriority(q, bound, ch) {
        case Ok(q') =>
          assert q'.priority == q.priority + q'.priority[|q.priority|..];
        case Err(_) =>
      }
    case Round =>
      RoundFifo(log, bound, max);
  }

  lemma RoundFifo(log: Log, bound: nat, max: nat)
    requires Fifo(log, bound)
    ensures Fifo(Perform(log, bound, max, Round), bound)
  {
    var q := log.queues;
    var n, m := PriorityTaken(q, max), RegularTaken(q, max);
    assert q.priority == q.priority[..n] + q.priority[n..];
    assert q.regular == q.regular[..m] + q.regular[m..];
  }

  /** Over any run: what was accepted into each queue is what left it, in order, followed by what still waits. */
  lemma {:induction false} EveryRunIsFifo(log: Log, bound: nat, max: nat, ops: seq<Op>)
    requires Fifo(log, bound)
    ensures Fifo(PerformAll(log, bound, max, ops), bound)
    decreases |ops|
  {
    if ops != [] {
      FifoStep(log, bound, max, ops[0]);
      EveryRunIsFifo(Perform(log, bound, max, ops[0]), bound, max, ops[1..]);
    }
  }

  /** Queues nobody has used yet are in order, so every run from them is. */
  lemma FromNothingIsFifo(bound: nat, max: nat, ops: seq<Op>)
    ensures Fifo(PerformAll(EMPTY_LOG, bound, max, ops), bound)
  {
    EveryRunIsFifo(EMPTY_LOG, bound, max, ops);
  }

  /** A round that takes any regular challenge leaves no priority challenge waiting, and a round is only
      short of its maximum when nothing waits at all. */
  lemma PriorityGoesFirst(q: Queues, max: nat)
    ensures RegularTaken(q, max) > 0 ==> Leftover(q, max).priority == []
    ensures |Dispatched(q, max)| < max ==> Leftover(q, max) == NO_CHALLENGES
    ensures |Dispatched(q, max)| <= max
  {
    if |Dispatched(q, max)| < max {
      assert q.priority[|q.priority|..] == [];
      assert q.regular[|q.regular|..] == [];
    }
  }

  /** How many challenges the rounds of a run can carry. */
  function Capacity(ops: seq<Op>, max: nat): nat
    decreases |ops|
  {
    if ops == [] then 0 else (if ops[0].Round? then max else 0) + Capacity(ops[1..], max)
  }

  lemma {:induction false} CapacityIsProduct(ops: seq<Op>, max: nat)
    ensures Capacity(ops, max) == Rounds(ops) * max
    decreases |ops|
  {
    if ops != [] {
      CapacityIsProduct(ops[1..], max);
      if ops[0].Round? {
        assert (1 + Rounds(ops[1..])) * max == max + Rounds(ops[1..]) * max;
      }
    }
  }

  /** Where the challenge at position `k` of the priority queue is after a run. */
  ghost predicate SentInTurn(log: Log, after: Log, k: nat, due: bool)
    requires k < |log.queues.priority|
  {
    var position := |log.sentPriority| + k;
    && (position < |after.sentPriority| <==> due)
    && (position < |after.sentPriority| ==> after.sentPriority[position] == log.queues.priority[k])
  }

  lemma {:induction false} PriorityProgress(log: Log, bound: nat, max: nat, ops: seq<Op>, k: nat)
    requires k < |log.queues.priority|
    ensures SentInTurn(log, PerformAll(log, bound, max, ops), k, Capacity(ops, max) > k)
    decreases |ops|
  {
    if ops != [] {
      var next := Perform(log, bound, max, ops[0]);
      if ops[0].Round? {
        var n := PriorityTaken(log.queues, max);
        if k < n {
          SentOnlyGrows(next, bound, max, ops[1..]);
          assert next.sentPriority[|log.sentPriority| + k] == log.queues.priority[k];
        } else {
          assert next.queues.priority[k - n] == log.queues.priority[k];
          PriorityProgress(next, bound, max, ops[1..], k - n);
        }
      } else {
        assert next.queues.priority[k] == log.queues.priority[k];
        PriorityProgress(next, bound, max, ops[1..], k);
      }
    }
  }

  lemma {:induction false} SentOnlyGrows(log: Log, bound: nat, max: nat, ops: seq<Op>)
    ensures log.sentPriority <= PerformAll(log, bound, max, ops).sentPriority
    decreases |ops|
  {
    if ops != [] {
      SentOnlyGrows(Perform(log, bound, max, ops[0]), bound, max, ops[1..]);
    }
  }

  /** Bounded waiting: whatever else arrives, the priority challenge at position `k` goes out in round
      `k / max + 1`, neither earlier nor later. */
  lemma PriorityWaitIsBounded(log: Log, bound: nat, max: nat, ops: seq<Op>, k: nat)
    requires k < |log.queues.priority|
    requires max > 0
    ensures SentInTurn(log, PerformAll(log, bound, max, ops), k, Rounds(ops) >= k / max + 1)
  {
    PriorityProgress(log, bound, max, ops, k);
    CapacityIsProduct(ops, max);
    RoundsNeeded(Rounds(ops), max, k);
  }

  lemma RoundsNeeded(r: nat, max: nat, k: nat)
    requires max > 0
    ensures r * max > k <==> r >= k / max + 1
  {
    var d := k / max;
    assert d * max <= k < d * max + max;
    if r >= d + 1 {
      assert r * max >= (d + 1) * max;
    } else {
      assert r * max <= d * max;
    }
  }

  /** A regular challenge has no such bound: one new priority challenge before every round of one keeps it
      waiting through any number of rounds. */
  lemma {:induction false} RegularChallengeCanStarve(log: Log, bound: nat, rounds: nat, first: nat)
    requires bound > 0 && log.queues.priority == []
    ensures var ops := StarvingOps(rounds, first);
            var after := PerformAll(log, bound, 1, ops);
            && Rounds(ops) == rounds
            && after.queues == log.queues
            && after.sentRegular == log.sentRegular
    decreases rounds
  {
    if rounds > 0 {
      var ops := StarvingOps(rounds, first);
      var ch := Challenge(Named(first), false);
      var asked := Perform(log, bound, 1, ops[0]);
      assert asked.queues.priority == [ch];
      var served := Perform(asked, bound, 1, ops[1]);
      assert served.queues == log.queues && served.sentRegular == log.sentRegular;
      assert ops[1..][1..] == StarvingOps(rounds - 1, first + 1);
      RegularChallengeCanStarve(served, bound, rounds - 1, first + 1);
    }
  }

  function StarvingOps(rounds: nat, first: nat): seq<Op> {
    if rounds == 0 then []
    else [AskWithPriority(Challenge(Named(first), false)), Round] + StarvingOps(rounds - 1, first + 1)
  }
}
