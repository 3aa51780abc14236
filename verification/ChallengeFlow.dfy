/** Where challenges go. What is asked of the proofs dealer leaves its queues for the checkpoint rounds it stores, a proof is
    judged on the keys of the round it answers, and a miss is charged for the challenges of the round it left unanswered. */
module ChallengeFlow {
  import opened Prelude
  import opened ChallengeQueues
  import opened ProofsDealer
  import opened SlashSweep
  import opened ProofHistory
  import opened CheckpointCoverage

  // --- What is asked and what is stored ---------------------------------------------------------------

  /** The keys that entered the regular queue over a run, in order: those not waiting already, while there was room. */
  ghost function AskedRegular(c: Config, initial: seq<Challenge>, steps: seq<Step>): seq<Key>
    decreases |steps|
  {
    if steps == [] then []
    else
      var n := |steps| - 1;
      var q := Run(c, initial, steps[..n]).queues.regular;
      AskedRegular(c, initial, steps[..n])
      + if steps[n].ChallengeKey? && steps[n].key !in q && |q| < c.queueLength then [steps[n].key] else []
  }

  ghost function AskedPriority(c: Config, initial: seq<Challenge>, steps: seq<Step>): seq<Challenge>
    decreases |steps|
  {
    if steps == [] then []
    else
      var n := |steps| - 1;
      var q := Run(c, initial, steps[..n]).queues.priority;
      AskedPriority(c, initial, steps[..n])
      + if steps[n].ChallengeWithPriority? && steps[n].challenge !in q && |q| < c.queueLength then [steps[n].challenge] else []
  }

  /** A checkpoint round: its tick, the challenges the storage holds for it afterwards, and how many of them left the priority
      queue. */
  datatype StoredRound = StoredRound(tick: Tick, stored: seq<Challenge>, priority: nat)

  function StoredAt(d: Dealer, t: Tick): seq<Challenge> {
    if t in d.checkpoints then d.checkpoints[t] else []
  }

  /** The round a step opens, seen from the storage before and after it. */
  function Opens(d: Dealer, d': Dealer): seq<StoredRound> {
    if d'.lastCheckpoint == d.lastCheckpoint then []
    else [StoredRound(d'.lastCheckpoint, StoredAt(d', d'.lastCheckpoint), SatSub(|d.queues.priority|, |d'.queues.priority|))]
  }

  ghost function Rounds(c: Config, initial: seq<Challenge>, steps: seq<Step>): seq<StoredRound>
    decreases |steps|
  {
    if steps == [] then []
    else
      var n := |steps| - 1;
      Rounds(c, initial, steps[..n]) + Opens(Run(c, initial, steps[..n]), Run(c, initial, steps))
  }

  /** The priority challenges of the rounds, and the keys of the regular ones. */
  function SentPriority(rounds: seq<StoredRound>): seq<Challenge>
    decreases |rounds|
  {
    if rounds == [] then []
    else
      var r := rounds[|rounds| - 1];
      SentPriority(rounds[..|rounds| - 1]) + r.stored[..Min(r.priority, |r.stored|)]
  }

  function SentRegular(rounds: seq<StoredRound>): seq<Key>
    decreases |rounds|
  {
    if rounds == [] then []
    else
      var r := rounds[|rounds| - 1];
      SentRegular(rounds[..|rounds| - 1]) + KeysOf(r.stored[Min(r.priority, |r.stored|)..])
  }

  /** What was asked is what the rounds store, in order, followed by what still waits. */
  ghost predicate Flows(d: Dealer, askedPriority: seq<Challenge>, askedRegular: seq<Key>, rounds: seq<StoredRound>) {
    && askedPriority == SentPriority(rounds) + d.queues.priority
    && askedRegular == SentRegular(rounds) + d.queues.regular
  }

  lemma PollFrame(c: Config, d: Dealer, seed: Seed, stakes: map<ProviderId, nat>)
    ensures var d', open := NewRound(c, d, seed, stakes), OpenRound(c, d, seed);
            && d'.ticker == open.ticker && d'.seeds == open.seeds && d'.checkpoints == open.checkpoints
            && d'.lastCheckpoint == open.lastCheckpoint && d'.queues == open.queues
  {
    SweepFrame(c, OpenRound(c, d, seed), PolicyOf(d), stakes, c.maxSlashablePerTick);
  }

  /** The part of the storage that only polls and requests touch. */
  ghost predicate SameChallenges(d: Dealer, d': Dealer) {
    && d'.ticker == d.ticker && d'.seeds == d.seeds && d'.checkpoints == d.checkpoints
    && d'.lastCheckpoint == d.lastCheckpoint
  }

  lemma CallFrame(c: Config, d: Dealer, step: Step)
    requires !step.Poll?
    ensures SameChallenges(d, Apply(c, d, step))
    ensures !step.ChallengeKey? && !step.ChallengeWithPriority? ==> Apply(c, d, step).queues == d.queues
  {
    hide ChallengesFor, Period;
    if step.SubmitProof? && Submit(c, d, step.provider, step.view, step.proof).Ok? {
      SubmitFrame(c, d, step.provider, step.view, step.proof);
    }
    hide Submit;
  }

  lemma SubmitFrame(c: Config, d: Dealer, p: ProviderId, view: View, proof: Proof)
    requires Submit(c, d, p, view, proof).Ok?
    ensures var d' := Submit(c, d, p, view, proof).value.dealer;
            SameChallenges(d, d') && d'.queues == d.queues
  {
    hide ChallengesFor, Period;
  }

  lemma RoundsSnoc(rounds: seq<StoredRound>, r: StoredRound)
    ensures SentPriority(rounds + [r]) == SentPriority(rounds) + r.stored[..Min(r.priority, |r.stored|)]
    ensures SentRegular(rounds + [r]) == SentRegular(rounds) + KeysOf(r.stored[Min(r.priority, |r.stored|)..])
  {
    assert (rounds + [r])[..|rounds|] == rounds;
  }

  /** A poll moves challenges from the front of the queues into the round it stores, or leaves the queues alone. */
  lemma PollFlows(c: Config, d: Dealer, seed: Seed, stakes: map<ProviderId, nat>, askedPriority: seq<Challenge>,
                  askedRegular: seq<Key>, rounds: seq<StoredRound>)
    requires Inv(c, d) && Flows(d, askedPriority, askedRegular, rounds)
    ensures var d' := NewRound(c, d, seed, stakes);
            Flows(d', askedPriority, askedRegular, rounds + Opens(d, d'))
  {
    PollFrame(c, d, seed, stakes);
    var d' := NewRound(c, d, seed, stakes);
    hide NewRound, SentPriority, SentRegular;
    if d'.lastCheckpoint == d.lastCheckpoint {
      OpensNothing(c, d, seed);
      assert rounds + [] == rounds;
    } else {
      OpensRound(c, d, seed);
      RoundFlows(d.queues, d'.queues, c.maxCustomChallenges, Opens(d, d')[0], askedPriority, askedRegular, rounds);
      assert rounds + Opens(d, d') == rounds + [Opens(d, d')[0]];
    }
  }

  /** A round that takes from the front of the queues. */
  lemma RoundFlows(q: Queues, q': Queues, max: nat, r: StoredRound, askedPriority: seq<Challenge>,
                   askedRegular: seq<Key>, rounds: seq<StoredRound>)
    requires askedPriority == SentPriority(rounds) + q.priority && askedRegular == SentRegular(rounds) + q.regular
    requires q' == Leftover(q, max) && r.stored == Dispatched(q, max) && r.priority == SatSub(|q.priority|, |q'.priority|)
    ensures askedPriority == SentPriority(rounds + [r]) + q'.priority && askedRegular == SentRegular(rounds + [r]) + q'.regular
  {
    RoundsSnoc(rounds, r);
    TakenFromFront(q, max, r.stored);
    hide *;
    MoveFront(SentPriority(rounds), q.priority, PriorityTaken(q, max));
    MoveFront(SentRegular(rounds), q.regular, RegularTaken(q, max));
  }

  lemma TakenFromFront(q: Queues, max: nat, stored: seq<Challenge>)
    requires stored == Dispatched(q, max)
    ensures var n, m := PriorityTaken(q, max), RegularTaken(q, max);
            && n <= |q.priority| && m <= |q.regular| && n <= |stored|
            && stored[..n] == q.priority[..n] && KeysOf(stored[n..]) == q.regular[..m]
            && Leftover(q, max).priority == q.priority[n..] && Leftover(q, max).regular == q.regular[m..]
  {
    var n, m := PriorityTaken(q, max), RegularTaken(q, max);
    assert stored[..n] == q.priority[..n] && stored[n..] == Plain(q.regular[..m]);
    PlainKeys(q.regular[..m]);
  }

  lemma MoveFront<T>(sent: seq<T>, waiting: seq<T>, n: nat)
    requires n <= |waiting|
    ensures sent + waiting == sent + waiting[..n] + waiting[n..]
  {
  }

  lemma PlainKeys(keys: seq<Key>)
    ensures KeysOf(Plain(keys)) == keys
  {
  }

  lemma OpensNothing(c: Config, d: Dealer, seed: Seed)
    requires Inv(c, d) && OpenRound(c, d, seed).lastCheckpoint == d.lastCheckpoint
    ensures OpenRound(c, d, seed).queues == d.queues && OpenRound(c, d, seed).checkpoints == d.checkpoints
  {
    CheckpointBehind(c, d);
  }

  lemma CheckpointBehind(c: Config, d: Dealer)
    requires Inv(c, d)
    ensures d.lastCheckpoint <= d.ticker
  {
    if c.checkpointPeriod > 0 {
      CheckpointAtNext(c.checkpointPeriod, d.ticker);
    }
  }

  lemma OpensRound(c: Config, d: Dealer, seed: Seed)
    requires Inv(c, d) && OpenRound(c, d, seed).lastCheckpoint != d.lastCheckpoint
    ensures var o := OpenRound(c, d, seed);
            && o.lastCheckpoint == o.ticker == d.ticker + 1
            && o.checkpoints == map[o.ticker := Dispatched(d.queues, c.maxCustomChallenges)]
            && o.queues == Leftover(d.queues, c.maxCustomChallenges)
  {
    CheckpointBehind(c, d);
  }

  lemma AskFlows(c: Config, d: Dealer, key: Key, askedPriority: seq<Challenge>, askedRegular: seq<Key>,
                 rounds: seq<StoredRound>)
    requires Flows(d, askedPriority, askedRegular, rounds)
    ensures var q := d.queues.regular;
            Flows(Apply(c, d, ChallengeKey(key)), askedPriority,
                  askedRegular + (if key !in q && |q| < c.queueLength then [key] else []), rounds)
  {
    hide SentPriority, SentRegular;
    assert askedRegular + [] == askedRegular;
  }

  lemma AskPriorityFlows(c: Config, d: Dealer, ch: Challenge, askedPriority: seq<Challenge>, askedRegular: seq<Key>,
                         rounds: seq<StoredRound>)
    requires Flows(d, askedPriority, askedRegular, rounds)
    ensures var q := d.queues.priority;
            Flows(Apply(c, d, ChallengeWithPriority(ch)),
                  askedPriority + (if ch !in q && |q| < c.queueLength then [ch] else []), askedRegular, rounds)
  {
    hide SentPriority, SentRegular;
    assert askedPriority + [] == askedPriority;
  }

  /** Over every run, the challenges accepted into each queue are those stored at the checkpoint rounds so far, in order,
      followed by those that still wait. */
  lemma {:induction false} StoredIsAsked(c: Config, initial: seq<Challenge>, steps: seq<Step>)
    requires ValidConfig(c)
    ensures Flows(Run(c, initial, steps), AskedPriority(c, initial, steps), AskedRegular(c, initial, steps), Rounds(c, initial, steps))
    decreases |steps|
  {
    if steps == [] {
    } else {
      var n := |steps| - 1;
      var d, step := Run(c, initial, steps[..n]), steps[n];
      StoredIsAsked(c, initial, steps[..n]);
      EveryRunKeepsInv(c, initial, steps[..n]);
      assert Run(c, initial, steps) == Apply(c, d, step);
      StepFlows(c, d, step, AskedPriority(c, initial, steps[..n]), AskedRegular(c, initial, steps[..n]), Rounds(c, initial, steps[..n]));
    }
  }

  lemma StepFlows(c: Config, d: Dealer, step: Step, askedPriority: seq<Challenge>, askedRegular: seq<Key>,
                  rounds: seq<StoredRound>)
    requires Inv(c, d) && Flows(d, askedPriority, askedRegular, rounds)
    ensures var d', q := Apply(c, d, step), d.queues;
            Flows(d',
                  askedPriority + (if step.ChallengeWithPriority? && step.challenge !in q.priority && |q.priority| < c.queueLength
                                   then [step.challenge] else []),
                  askedRegular + (if step.ChallengeKey? && step.key !in q.regular && |q.regular| < c.queueLength
                                  then [step.key] else []),
                  rounds + Opens(d, d'))
  {
    assert askedPriority + [] == askedPriority && askedRegular + [] == askedRegular && rounds + [] == rounds;
    if step.Poll? {
      PollFlows(c, d, step.seed, step.stakes, askedPriority, askedRegular, rounds);
    } else {
      CallFrame(c, d, step);
      hide Inv;
      match step
      case ChallengeKey(key) => AskFlows(c, d, key, askedPriority, askedRegular, rounds);
      case ChallengeWithPriority(ch) => AskPriorityFlows(c, d, ch, askedPriority, askedRegular, rounds);
      case _ => SameFlows(d, Apply(c, d, step), askedPriority, askedRegular, rounds);
    }
  }

  lemma SameFlows(d: Dealer, d': Dealer, askedPriority: seq<Challenge>, askedRegular: seq<Key>, rounds: seq<StoredRound>)
    requires Flows(d, askedPriority, askedRegular, rounds) && d'.queues == d.queues
    ensures Flows(d', askedPriority, askedRegular, rounds)
  {
  }

  // --- Seeds ------------------------------------------------------------------------------------------

  /** The seed the run's `t`-th poll was given. */
  function SeedGiven(steps: seq<Step>, t: Tick): Option<Seed>
    decreases |steps|
  {
    if steps == [] then None
    else
      var n := |steps| - 1;
      if steps[n].Poll? && Polls(steps) == t then Some(steps[n].seed) else SeedGiven(steps[..n], t)
  }

  ghost predicate SeedsGiven(d: Dealer, steps: seq<Step>) {
    d.ticker == Polls(steps) && forall t :: t in d.seeds ==> SeedGiven(steps, t) == Some(d.seeds[t])
  }

  /** Over every run the ticker counts the polls, and the seed kept for a tick is the one its poll was given. */
  lemma {:induction false} SeedsAreThoseGiven(c: Config, initial: seq<Challenge>, steps: seq<Step>)
    requires ValidConfig(c)
    ensures SeedsGiven(Run(c, initial, steps), steps)
    decreases |steps|
  {
    if steps != [] {
      var n := |steps| - 1;
      var d, step := Run(c, initial, steps[..n]), steps[n];
      SeedsAreThoseGiven(c, initial, steps[..n]);
      EveryRunKeepsInv(c, initial, steps[..n]);
      if step.Poll? {
        PollFrame(c, d, step.seed, step.stakes);
        PollSeeds(c, d, step.seed);
      } else {
        CallFrame(c, d, step);
      }
      hide Apply, Inv;
    }
  }

  lemma PollSeeds(c: Config, d: Dealer, seed: Seed)
    requires Inv(c, d)
    ensures var o := OpenRound(c, d, seed);
            && o.ticker == d.ticker + 1
            && (forall t :: t in o.seeds ==> if t == d.ticker + 1 then o.seeds[t] == seed
                                             else t in d.seeds && o.seeds[t] == d.seeds[t] && t <= d.ticker)
  {
  }

  // --- The round in storage ---------------------------------------------------------------------------

  ghost predicate HasRound(rounds: seq<StoredRound>, tick: Tick, stored: seq<Challenge>) {
    exists i :: 0 <= i < |rounds| && rounds[i].tick == tick && rounds[i].stored == stored
  }

  /** Rounds are at checkpoint ticks, in order, none after the last; the stored one is the last. */
  ghost predicate RoundsInOrder(c: Config, d: Dealer, rounds: seq<StoredRound>) {
    && (forall i, j :: 0 <= i < j < |rounds| ==> rounds[i].tick < rounds[j].tick)
    && (forall i :: 0 <= i < |rounds| ==> 0 < rounds[i].tick <= d.lastCheckpoint && |rounds[i].stored| <= c.maxCustomChallenges)
    && (d.lastCheckpoint > 0 ==> HasRound(rounds, d.lastCheckpoint, StoredAt(d, d.lastCheckpoint)))
  }

  lemma {:induction false} RunRoundsInOrder(c: Config, initial: seq<Challenge>, steps: seq<Step>)
    requires ValidConfig(c)
    ensures RoundsInOrder(c, Run(c, initial, steps), Rounds(c, initial, steps))
    decreases |steps|
  {
    if steps != [] {
      var n := |steps| - 1;
      var d, step := Run(c, initial, steps[..n]), steps[n];
      RunRoundsInOrder(c, initial, steps[..n]);
      EveryRunKeepsInv(c, initial, steps[..n]);
      hide Inv, Apply, RoundsInOrder, Opens;
      StepInOrder(c, d, step, Rounds(c, initial, steps[..n]));
    }
  }

  lemma StepInOrder(c: Config, d: Dealer, step: Step, rounds: seq<StoredRound>)
    requires Inv(c, d) && RoundsInOrder(c, d, rounds)
    ensures RoundsInOrder(c, Apply(c, d, step), rounds + Opens(d, Apply(c, d, step)))
  {
    if step.Poll? {
      PollInOrder(c, d, step.seed, step.stakes, rounds);
    } else {
      CallFrame(c, d, step);
      hide Apply, Inv;
      assert rounds + [] == rounds;
    }
  }

  lemma PollInOrder(c: Config, d: Dealer, seed: Seed, stakes: map<ProviderId, nat>, rounds: seq<StoredRound>)
    requires Inv(c, d) && RoundsInOrder(c, d, rounds)
    ensures var d' := NewRound(c, d, seed, stakes);
            RoundsInOrder(c, d', rounds + Opens(d, d'))
  {
    PollFrame(c, d, seed, stakes);
    var d' := NewRound(c, d, seed, stakes);
    CheckpointBehind(c, d);
    hide NewRound;
    if d'.lastCheckpoint == d.lastCheckpoint {
      OpensNothing(c, d, seed);
      assert rounds + [] == rounds;
    } else {
      OpensRound(c, d, seed);
      PriorityGoesFirst(d.queues, c.maxCustomChallenges);
      hide Inv, OpenRound, Dispatched, Leftover, RoundsInOrder;
      OneMoreRound(c, d, d', rounds, Opens(d, d')[0]);
    }
  }

  lemma OneMoreRound(c: Config, d: Dealer, d': Dealer, rounds: seq<StoredRound>, round: StoredRound)
    requires RoundsInOrder(c, d, rounds) && d.lastCheckpoint < round.tick == d'.lastCheckpoint
    requires round.stored == StoredAt(d', round.tick) && |round.stored| <= c.maxCustomChallenges
    ensures RoundsInOrder(c, d', rounds + [round])
  {
    hide StoredAt;
    assert (rounds + [round])[|rounds|] == round;
  }

  // --- What a proof is judged on ----------------------------------------------------------------------

  /** The challenges of an accepted proof: those every provider draws from the seed of the proven tick, then those of the
      round it answers, if it answers one. */
  lemma ChallengesExactly(c: Config, d: Dealer, p: ProviderId, view: View, proof: Proof)
    requires ChallengesFor(c, d, p, view, proof).Ok?
    ensures p in d.records && d.records[p].next in d.seeds
    ensures var keys, r := ChallengesFor(c, d, p, view, proof).value, d.records[p];
            var owes := r.lastProven < d.lastCheckpoint <= r.next;
            && |keys| == c.randomChallenges + (if owes then |StoredAt(d, d.lastCheckpoint)| else 0)
            && (forall i :: 0 <= i < c.randomChallenges ==> keys[i] == Drawn(d.seeds[r.next], p, i))
            && (owes ==> forall i :: 0 <= i < |StoredAt(d, d.lastCheckpoint)| ==>
                  keys[c.randomChallenges + i] == StoredAt(d, d.lastCheckpoint)[i].key)
  {
  }

  /** `keys` is what a proof of `p` for `tick`, answering `checkpoint`, is to be judged on after the run: the drawn keys of the
      seed that tick was given, and the key of every challenge of the round. */
  ghost predicate ToAnswer(c: Config, initial: seq<Challenge>, steps: seq<Step>, p: ProviderId, tick: Tick,
                           checkpoint: Option<Tick>, keys: seq<Key>)
  {
    && SeedGiven(steps, tick).Some?
    && |keys| >= c.randomChallenges
    && (forall i :: 0 <= i < c.randomChallenges ==> keys[i] == Drawn(SeedGiven(steps, tick).value, p, i))
    && (checkpoint.None? ==> |keys| == c.randomChallenges)
    && (checkpoint.Some? ==> AnswersRound(Rounds(c, initial, steps), checkpoint.value, keys[c.randomChallenges..]))
  }

  ghost predicate AnswersRound(rounds: seq<StoredRound>, tick: Tick, keys: seq<Key>) {
    exists i :: 0 <= i < |rounds| && rounds[i].tick == tick && keys == KeysOf(rounds[i].stored)
  }

  /** A proof accepted after any run was judged valid on exactly those keys. */
  lemma AcceptedProofIsJudged(c: Config, initial: seq<Challenge>, steps: seq<Step>, p: ProviderId, view: View,
                              proof: Proof) returns (keys: seq<Key>)
    requires ValidConfig(c) && Submit(c, Run(c, initial, steps), p, view, proof).Ok?
    ensures var a := Submit(c, Run(c, initial, steps), p, view, proof).value;
            ToAnswer(c, initial, steps, p, a.tick, a.checkpoint, keys) && proof.judge(keys).Valid?
  {
    var d := Run(c, initial, steps);
    SeedsAreThoseGiven(c, initial, steps);
    RunRoundsInOrder(c, initial, steps);
    hide Run, Rounds, SeedGiven;
    keys := ChallengesFor(c, d, p, view, proof).value;
    ChallengesExactly(c, d, p, view, proof);
    SubmitLabels(c, d, p, view, proof);
    hide ChallengesFor, Submit;
    var r := d.records[p];
    if r.lastProven < d.lastCheckpoint <= r.next {
      var stored := StoredAt(d, d.lastCheckpoint);
      assert keys[c.randomChallenges..] == KeysOf(stored);
      assert HasRound(Rounds(c, initial, steps), d.lastCheckpoint, stored);
    }
  }

  lemma SubmitLabels(c: Config, d: Dealer, p: ProviderId, view: View, proof: Proof)
    requires Submit(c, d, p, view, proof).Ok?
    ensures p in d.records && ChallengesFor(c, d, p, view, proof).Ok?
    ensures var a, r := Submit(c, d, p, view, proof).value, d.records[p];
            && a.tick == r.next && proof.judge(ChallengesFor(c, d, p, view, proof).value).Valid?
            && a.checkpoint == (if r.lastProven < d.lastCheckpoint <= r.next then Some(d.lastCheckpoint) else None)
  {
    SubmitGuards(c, d, p, view, proof);
    hide ChallengesFor, Accept;
  }

  /** The keys a proof for a record is judged on, told from the run. */
  ghost function ToJudge(c: Config, initial: seq<Challenge>, steps: seq<Step>, p: ProviderId, r: Record): seq<Key> {
    var rounds := Rounds(c, initial, steps);
    var seed := SeedGiven(steps, r.next);
    DrawnAndAsked(c.randomChallenges, if seed.Some? then seed.value else 0, p,
                  if rounds != [] && r.lastProven < rounds[|rounds| - 1].tick <= r.next then rounds[|rounds| - 1].stored else [])
  }

  /** `n` keys drawn from the seed for the provider, then the keys of the challenges of a round. */
  ghost function DrawnAndAsked(n: nat, seed: Seed, p: ProviderId, asked: seq<Challenge>): seq<Key> {
    seq(n, i requires 0 <= i < n => Drawn(seed, p, i)) + seq(|asked|, i requires 0 <= i < |asked| => asked[i].key)
  }

  lemma ChallengesAreToJudge(c: Config, initial: seq<Challenge>, steps: seq<Step>, p: ProviderId, view: View,
                             proof: Proof)
    requires ValidConfig(c) && ChallengesFor(c, Run(c, initial, steps), p, view, proof).Ok?
    ensures p in Run(c, initial, steps).records
    ensures ChallengesFor(c, Run(c, initial, steps), p, view, proof).value
            == ToJudge(c, initial, steps, p, Run(c, initial, steps).records[p])
  {
    var d := Run(c, initial, steps);
    SeedsAreThoseGiven(c, initial, steps);
    RunRoundsInOrder(c, initial, steps);
    hide Run, Rounds, SeedGiven, ChallengesFor, RoundsInOrder, StoredAt, DrawnAndAsked;
    DealerKeys(c, d, p, view, proof);
    LastRound(c, d, Rounds(c, initial, steps));
  }

  /** The keys told from the dealer's storage. */
  lemma DealerKeys(c: Config, d: Dealer, p: ProviderId, view: View, proof: Proof)
    requires ChallengesFor(c, d, p, view, proof).Ok?
    ensures p in d.records && d.records[p].next in d.seeds
    ensures var r := d.records[p];
            ChallengesFor(c, d, p, view, proof).value
            == DrawnAndAsked(c.randomChallenges, d.seeds[r.next], p,
                             if r.lastProven < d.lastCheckpoint <= r.next then StoredAt(d, d.lastCheckpoint) else [])
  {
    ChallengesExactly(c, d, p, view, proof);
    hide ChallengesFor, StoredAt, DrawnAndAsked;
    var r := d.records[p];
    SplitKeys(ChallengesFor(c, d, p, view, proof).value, c.randomChallenges, d.seeds[r.next], p,
              if r.lastProven < d.lastCheckpoint <= r.next then StoredAt(d, d.lastCheckpoint) else []);
  }

  lemma SplitKeys(keys: seq<Key>, n: nat, seed: Seed, p: ProviderId, stored: seq<Challenge>)
    requires |keys| == n + |stored|
    requires forall i :: 0 <= i < n ==> keys[i] == Drawn(seed, p, i)
    requires forall i :: 0 <= i < |stored| ==> keys[n + i] == stored[i].key
    ensures keys == DrawnAndAsked(n, seed, p, stored)
  {
  }

  lemma LastRound(c: Config, d: Dealer, rounds: seq<StoredRound>)
    requires RoundsInOrder(c, d, rounds)
    ensures rounds == [] ==> d.lastCheckpoint == 0
    ensures rounds != [] ==> var last := rounds[|rounds| - 1];
                             last.tick == d.lastCheckpoint && last.stored == StoredAt(d, d.lastCheckpoint)
  {
  }

  /** What the providers pallet has to say of a provider for its proof to be looked at. */
  predicate InGoodStanding(view: View) {
    view.registered && view.root.ForestRoot? && view.stake.Some? && view.stake.value > 0
  }

  /** After any run a proof is accepted exactly when its provider is in good standing and owes a tick, the current tick lies
      strictly between that tick and the end of its tolerance, or of the history if that is shorter, the proof has key
      proofs and is judged valid on the keys of that tick and of the round it has to answer, and this tick has room for one
      more submitter. */
  lemma AcceptsExactly(c: Config, initial: seq<Challenge>, steps: seq<Step>, p: ProviderId, view: View, proof: Proof)
    requires ValidConfig(c)
    ensures var d, owed := Run(c, initial, steps), Replay(c, Free, History(c, initial, steps), p);
            && (owed.Owes? <==> p in d.records)
            && (Submit(c, d, p, view, proof).Ok? <==>
                  && InGoodStanding(view) && owed.Owes? && owed.tick < d.ticker < owed.tick + Min(c.tolerance, c.historyLength)
                  && proof.keyProofs > 0 && proof.judge(ToJudge(c, initial, steps, p, d.records[p])).Valid?
                  && (p in SubmittersAt(d, d.ticker) || |SubmittersAt(d, d.ticker)| < c.maxSubmittersPerTick))
  {
    var d := Run(c, initial, steps);
    SlashingIsExact(c, initial, steps, p);
    EveryRunKeepsInv(c, initial, steps);
    if ChallengesFor(c, d, p, view, proof).Ok? {
      ChallengesAreToJudge(c, initial, steps, p, view, proof);
    }
    GuardsExactly(c, d, p, view, proof);
    hide Run, Rounds, History, Replay, ToJudge, Inv, ChallengesFor, Accept;
  }

  lemma GuardsExactly(c: Config, d: Dealer, p: ProviderId, view: View, proof: Proof)
    requires ValidConfig(c) && Inv(c, d)
    ensures ChallengesFor(c, d, p, view, proof).Ok? <==>
              && InGoodStanding(view) && proof.keyProofs > 0 && p in d.records
              && d.records[p].next < d.ticker < d.records[p].next + Min(c.tolerance, c.historyLength)
  {
    if InGoodStanding(view) && proof.keyProofs > 0 && p in d.records {
      ProofWindow(c, d, p, view, proof);
    }
    hide Inv;
  }

  /** After any run, a refused proof names a reason that holds. */
  lemma ProofRefusedTruly(c: Config, initial: seq<Challenge>, steps: seq<Step>, p: ProviderId, view: View, proof: Proof)
    requires ValidConfig(c) && Submit(c, Run(c, initial, steps), p, view, proof).Err?
    ensures var d := Run(c, initial, steps);
            match Submit(c, d, p, view, proof).error
            case NotProvider => !view.registered
            case EmptyKeyProofs => proof.keyProofs == 0
            case ProviderRootNotFound => view.root.NoRoot?
            case ZeroRoot => view.root.DefaultRoot?
            case NoRecordOfLastSubmittedProof => p !in d.records
            case ProviderStakeNotFound => view.stake.None?
            case ZeroStake => view.stake == Some(0)
            case ChallengesTickNotReached => p in d.records && d.ticker <= d.records[p].next
            case ChallengesTickTooOld => p in d.records && d.records[p].next + c.historyLength <= d.ticker
            case ChallengesTickTooLate => p in d.records && d.records[p].next + c.tolerance <= d.ticker
            case ProofRejected(verdict) =>
              p in d.records && !verdict.Valid? && proof.judge(ToJudge(c, initial, steps, p, d.records[p])) == verdict
            case TooManyValidProofSubmitters => p !in SubmittersAt(d, d.ticker) && |SubmittersAt(d, d.ticker)| >= c.maxSubmittersPerTick
            case _ => false
  {
    var d := Run(c, initial, steps);
    EveryRunKeepsInv(c, initial, steps);
    UnreachableErrors(c, d, p, view, proof);
    if ChallengesFor(c, d, p, view, proof).Ok? {
      ChallengesAreToJudge(c, initial, steps, p, view, proof);
    } else {
      GuardRefused(c, d, p, view, proof);
    }
    hide Run, Rounds, ToJudge, Inv, ChallengesFor, Accept;
  }

  lemma GuardRefused(c: Config, d: Dealer, p: ProviderId, view: View, proof: Proof)
    requires Inv(c, d) && ChallengesFor(c, d, p, view, proof).Err?
    ensures match ChallengesFor(c, d, p, view, proof).error
            case NotProvider => !view.registered
            case EmptyKeyProofs => proof.keyProofs == 0
            case ProviderRootNotFound => view.root.NoRoot?
            case ZeroRoot => view.root.DefaultRoot?
            case NoRecordOfLastSubmittedProof => p !in d.records
            case ProviderStakeNotFound => view.stake.None?
            case ZeroStake => view.stake == Some(0)
            case ChallengesTickNotReached => p in d.records && d.ticker <= d.records[p].next
            case ChallengesTickTooOld => p in d.records && d.records[p].next + c.historyLength <= d.ticker
            case ChallengesTickTooLate => p in d.records && d.records[p].next + c.tolerance <= d.ticker
            case SeedNotFound => true
            case CheckpointChallengesNotFound => true
            case _ => false
  {
  }

  /** A cycle starts exactly for a registered provider with some stake, and it then owes the tick one period ahead; it stops
      exactly for a registered provider, and nothing is owed then. */
  lemma CyclesExactly(c: Config, d: Dealer, p: ProviderId, view: View, registered: bool)
    ensures Initialise(c, d, p, view).Ok? <==> view.registered && view.stake.Some? && view.stake.value > 0
    ensures Initialise(c, d, p, view).Ok? ==>
              StandingIn(Initialise(c, d, p, view).value, p) == Owes(d.ticker + Period(c, view.stake.value))
    ensures Stop(c, d, p, registered).Ok? <==> registered
    ensures Stop(c, d, p, registered).Ok? ==> StandingIn(Stop(c, d, p, registered).value, p) == Free
  {
    hide Period;
  }

  // --- Coverage is about challenges -------------------------------------------------------------------

  /** A provider whose cycle has answered a round proved with the round in its history. */
  lemma {:induction false} AnsweredInHistory(cy: Cycle, h: seq<Event>, p: ProviderId, k: Tick) returns (j: nat)
    requires FollowAll(cy, h, p).Cycle? && FollowAll(cy, h, p).answered[k] > 0
    requires cy.Cycle? ==> cy.answered[k] == 0
    ensures j < |h| && h[j].Proven? && h[j].provider == p && h[j].checkpoint == Some(k)
    decreases |h|
  {
    var next := Follow(cy, h[0], p);
    if next.Cycle? && next.answered[k] > 0 {
      j := 0;
    } else {
      j := AnsweredInHistory(next, h[1..], p, k);
      j := j + 1;
    }
  }

  /** Step `i` of the run is a proof of `p` that was accepted and answers `checkpoint`. */
  ghost predicate ProvedAt(c: Config, initial: seq<Challenge>, steps: seq<Step>, i: nat, p: ProviderId, tick: Tick,
                           checkpoint: Option<Tick>)
  {
    && i < |steps| && steps[i].SubmitProof? && steps[i].provider == p
    && var r := Submit(c, Run(c, initial, steps[..i]), p, steps[i].view, steps[i].proof);
       r.Ok? && r.value.tick == tick && r.value.checkpoint == checkpoint
  }

  lemma {:induction false} ProvedInRun(c: Config, initial: seq<Challenge>, steps: seq<Step>, j: nat) returns (i: nat)
    requires j < |History(c, initial, steps)| && History(c, initial, steps)[j].Proven?
    ensures var ev := History(c, initial, steps)[j];
            ProvedAt(c, initial, steps, i, ev.provider, ev.tick, ev.checkpoint)
    decreases |steps|
  {
    var n := |steps| - 1;
    var prefix := steps[..n];
    if j < |History(c, initial, prefix)| {
      assert History(c, initial, steps)[j] == History(c, initial, prefix)[j];
      hide Submit, Happened, Run, History;
      i := ProvedInRun(c, initial, prefix, j);
      assert prefix[..i] == steps[..i];
    } else {
      i := n;
      hide Submit, Happened;
      ProofHappened(c, Run(c, initial, prefix), steps[n], j - |History(c, initial, prefix)|);
    }
  }

  lemma ProofHappened(c: Config, d: Dealer, step: Step, j: nat)
    requires j < |Happened(c, d, step)| && Happened(c, d, step)[j].Proven?
    ensures step.SubmitProof? && Submit(c, d, step.provider, step.view, step.proof).Ok?
    ensures var ev, a := Happened(c, d, step)[j], Submit(c, d, step.provider, step.view, step.proof).value;
            ev.provider == step.provider && ev.tick == a.tick && ev.checkpoint == a.checkpoint
  {
    if step.Poll? {
      SweepProvesNothing(c, OpenRound(c, d, step.seed), PolicyOf(d), step.stakes, MarkedInRound(c, d, step.seed));
      assert false;
    }
  }

  lemma {:induction false} SweepProvesNothing(c: Config, d: Dealer, pol: Policy, stakes: map<ProviderId, nat>,
      es: seq<Entry>)
    ensures forall j :: 0 <= j < |SweepEvents(c, d, pol, stakes, es)| ==> !SweepEvents(c, d, pol, stakes, es)[j].Proven?
    decreases |es|
  {
    if es != [] {
      SweepProvesNothing(c, Mark(c, d, pol, stakes, es[0]), pol, stakes, es[1..]);
    }
  }

  /** In a run that covers every round, a provider without misses has, for every round between the start of its cycle and its
      last proven tick, given a proof that was judged valid on a list with the key of every challenge of that round. */
  lemma EveryChallengeIsAnswered(c: Config, initial: seq<Challenge>, steps: seq<Step>, p: ProviderId, round: StoredRound)
    returns (i: nat, keys: seq<Key>)
    requires ValidConfig(c) && Covers(c, initial, steps, p) && round in Rounds(c, initial, steps)
    requires CycleOf(c, initial, steps, p).Cycle? && !CycleOf(c, initial, steps, p).missed
    requires p in Run(c, initial, steps).records
    requires CycleOf(c, initial, steps, p).start < round.tick <= Run(c, initial, steps).records[p].lastProven
    ensures i < |steps| && steps[i].SubmitProof? && steps[i].provider == p
    ensures Submit(c, Run(c, initial, steps[..i]), p, steps[i].view, steps[i].proof).Ok? && steps[i].proof.judge(keys).Valid?
    ensures forall ch :: ch in round.stored ==> ch.key in keys
  {
    RoundIsCheckpoint(c, initial, steps, round);
    var h := History(c, initial, steps);
    var j := AnsweredInHistory(NoCycle, h, p, round.tick);
    i := ProvedInRun(c, initial, steps, j);
    keys := AcceptedProofIsJudged(c, initial, steps[..i], p, steps[i].view, steps[i].proof);
    RoundsExtend(c, initial, steps, i);
    RunRoundsInOrder(c, initial, steps);
    hide Run, Rounds, History, Covers, CycleOf, Submit, RoundsInOrder;
    var tail := keys[c.randomChallenges..];
    SameRound(c, Run(c, initial, steps), Rounds(c, initial, steps[..i]), Rounds(c, initial, steps), round, tail);
    KeysAreListed(keys, c.randomChallenges, round.stored);
  }

  lemma KeysAreListed(keys: seq<Key>, from: nat, stored: seq<Challenge>)
    requires from <= |keys| && keys[from..] == KeysOf(stored)
    ensures forall ch :: ch in stored ==> ch.key in keys
  {
    forall ch | ch in stored
      ensures ch.key in keys
    {
      var a :| 0 <= a < |stored| && stored[a] == ch;
      assert keys[from + a] == keys[from..][a];
    }
  }

  lemma SameRound(c: Config, d: Dealer, early: seq<StoredRound>, rounds: seq<StoredRound>, round: StoredRound,
                  keys: seq<Key>)
    requires early <= rounds && RoundsInOrder(c, d, rounds) && round in rounds && AnswersRound(early, round.tick, keys)
    ensures keys == KeysOf(round.stored)
  {
    var a :| 0 <= a < |early| && early[a].tick == round.tick && keys == KeysOf(early[a].stored);
    var b :| 0 <= b < |rounds| && rounds[b] == round;
    assert rounds[a] == early[a];
    assert a == b;
  }

  lemma {:induction false} RoundsExtend(c: Config, initial: seq<Challenge>, steps: seq<Step>, i: nat)
    requires i <= |steps|
    ensures Rounds(c, initial, steps[..i]) <= Rounds(c, initial, steps)
    decreases |steps|
  {
    if i == |steps| {
      assert steps[..i] == steps;
    } else {
      var n := |steps| - 1;
      RoundsExtend(c, initial, steps[..n], i);
      assert steps[..n][..i] == steps[..i];
    }
  }

  /** Rounds are opened at checkpoint ticks only. */
  lemma {:induction false} RoundIsCheckpoint(c: Config, initial: seq<Challenge>, steps: seq<Step>, round: StoredRound)
    requires ValidConfig(c) && round in Rounds(c, initial, steps)
    ensures IsCheckpoint(c.checkpointPeriod, round.tick)
    decreases |steps|
  {
    var n := |steps| - 1;
    if round in Rounds(c, initial, steps[..n]) {
      RoundIsCheckpoint(c, initial, steps[..n], round);
    } else {
      EveryRunKeepsInv(c, initial, steps[..n]);
      EveryRunKeepsInv(c, initial, steps);
      var d, d' := Run(c, initial, steps[..n]), Run(c, initial, steps);
      assert round in Opens(d, d') && d' == Apply(c, d, steps[n]);
      if steps[n].Poll? {
        PollFrame(c, d, steps[n].seed, steps[n].stakes);
        OpensRound(c, d, steps[n].seed);
        LatestIsCheckpoint(c, d');
      } else {
        CallFrame(c, d, steps[n]);
        assert false;
      }
    }
  }

  lemma LatestIsCheckpoint(c: Config, d: Dealer)
    requires Inv(c, d) && d.lastCheckpoint > 0
    ensures IsCheckpoint(c.checkpointPeriod, d.lastCheckpoint)
  {
    if c.checkpointPeriod > 0 {
      AtMultiple(c.checkpointPeriod, d.ticker);
    }
  }

  // --- What a miss is charged for ---------------------------------------------------------------------

  /** The challenges of the latest round, if a provider that last proved `lastProven` should have answered it by now. */
  ghost function LeftUnanswered(c: Config, initial: seq<Challenge>, steps: seq<Step>, lastProven: Tick, now: Tick): nat {
    var rounds := Rounds(c, initial, steps);
    if rounds == [] then 0
    else
      var last := rounds[|rounds| - 1];
      if lastProven < last.tick && last.tick + c.tolerance <= now then |last.stored| else 0
  }

  lemma {:induction false} SweepMisses(c: Config, d: Dealer, pol: Policy, stakes: map<ProviderId, nat>,
                                       es: seq<Entry>, j: nat)
    requires DistinctProviders(es) && j < |SweepEvents(c, d, pol, stakes, es)| && SweepEvents(c, d, pol, stakes, es)[j].Missed?
    ensures var ev := SweepEvents(c, d, pol, stakes, es)[j];
            Listed(es, ev.provider) && ev.extra == Extra(c, d, pol, ev.provider) && ev.at == d.ticker
    decreases |es|
  {
    if es != [] {
      var m := Mark(c, d, pol, stakes, es[0]);
      DistinctTail(es);
      if j >= 2 {
        SweepMisses(c, m, pol, stakes, es[1..], j - 2);
        var p := SweepEvents(c, d, pol, stakes, es)[j].provider;
        ListedTail(es, p);
        MarkOne(c, d, pol, stakes, es[0], p);
      } else {
        assert es[0].1 == SweepEvents(c, d, pol, stakes, es)[0].provider;
      }
    }
  }

  /** Over every run, a miss is charged, on top of its random challenges, exactly for the challenges of the latest round when
      the provider has not proven past that round and the tolerance after it is over. */
  lemma MissChargesRound(c: Config, initial: seq<Challenge>, steps: seq<Step>, seed: Seed,
                         stakes: map<ProviderId, nat>, j: nat)
    requires ValidConfig(c)
    requires var h := Happened(c, Run(c, initial, steps), Poll(seed, stakes)); j < |h| && h[j].Missed?
    ensures var d := Run(c, initial, steps);
            var ev := Happened(c, d, Poll(seed, stakes))[j];
            && ev.provider in d.records && ev.at == d.ticker + 1
            && ev.extra == LeftUnanswered(c, initial, steps, d.records[ev.provider].lastProven, d.ticker + 1)
  {
    hide Happened;
    var d := Run(c, initial, steps);
    EveryRunKeepsInv(c, initial, steps);
    RunRoundsInOrder(c, initial, steps);
    hide Run, Rounds, Inv, RoundsInOrder, Extra;
    PollMisses(c, d, seed, stakes, j);
    ExtraFromRounds(c, d, OpenRound(c, d, seed), Rounds(c, initial, steps), Happened(c, d, Poll(seed, stakes))[j].provider);
  }

  lemma PollMisses(c: Config, d: Dealer, seed: Seed, stakes: map<ProviderId, nat>, j: nat)
    requires ValidConfig(c) && Inv(c, d)
    requires var h := Happened(c, d, Poll(seed, stakes)); j < |h| && h[j].Missed?
    ensures var ev, open := Happened(c, d, Poll(seed, stakes))[j], OpenRound(c, d, seed);
            && open.ticker == d.ticker + 1 && open.records == d.records
            && ev.provider in d.records && ev.at == open.ticker && ev.extra == Extra(c, open, PolicyOf(d), ev.provider)
  {
    OpenRoundInv(c, d, seed);
    var open := OpenRound(c, d, seed);
    var es := MarkedInRound(c, d, seed);
    FirstsDistinct(c, open, c.maxSlashablePerTick);
    hide OpenRound, Extra, SweepEvents;
    SweepMisses(c, open, PolicyOf(d), stakes, es, j);
    var p := Happened(c, d, Poll(seed, stakes))[j].provider;
    var i :| 0 <= i < |es| && es[i].1 == p;
    assert es[i] in es && es[i] in Due(open);
  }

  lemma ExtraFromRounds(c: Config, d: Dealer, open: Dealer, rounds: seq<StoredRound>, p: ProviderId)
    requires Inv(c, d) && RoundsInOrder(c, d, rounds) && p in d.records
    requires open.ticker == d.ticker + 1 && open.records == d.records
    ensures Extra(c, open, PolicyOf(d), p)
            == if rounds == [] then 0
               else
                 var last := rounds[|rounds| - 1];
                 if d.records[p].lastProven < last.tick && last.tick + c.tolerance <= d.ticker + 1 then |last.stored| else 0
  {
    if rounds != [] {
      assert rounds[|rounds| - 1].tick == d.lastCheckpoint && rounds[|rounds| - 1].stored == StoredAt(d, d.lastCheckpoint);
    }
  }
}
