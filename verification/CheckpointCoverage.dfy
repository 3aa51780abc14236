/** When every checkpoint round is answered. A proof is checked against the latest checkpoint round only, so whether a
    provider that is never late answers every round depends on how far apart the rounds are. */
module CheckpointCoverage {
  import opened Prelude
  import opened ChallengeQueues
  import opened ProofsDealer
  import opened SlashSweep
  import opened ProofHistory

  /** A provider's current challenge cycle, read off its history: where it started, whether it has missed a deadline
      since, how many proofs were accepted, and which checkpoint rounds these answered, with multiplicity. */
  datatype Cycle = NoCycle | Cycle(start: Tick, missed: bool, proofs: nat, answered: multiset<Tick>)

  function Follow(cy: Cycle, ev: Event, p: ProviderId): Cycle {
    if ev.provider != p then cy
    else
      match ev
      case Started(_, at) => Cycle(at, false, 0, multiset{})
      case Cancelled(_, _) => NoCycle
      case Missed(_, _, _, _) => if cy.Cycle? then cy.(missed := true) else cy
      case Proven(_, _, _, checkpoint) =>
        if cy.NoCycle? then cy
        else
          var more := if checkpoint.Some? then multiset{checkpoint.value} else multiset{};
          cy.(proofs := cy.proofs + 1, answered := cy.answered + more)
      case Assigned(_, _) => cy
      case Cleared(_) => cy
  }

  function FollowAll(cy: Cycle, h: seq<Event>, p: ProviderId): Cycle
    decreases |h|
  {
    if h == [] then cy else FollowAll(Follow(cy, h[0], p), h[1..], p)
  }

  lemma {:induction false} FollowConcat(cy: Cycle, g: seq<Event>, h: seq<Event>, p: ProviderId)
    ensures FollowAll(cy, g + h, p) == FollowAll(FollowAll(cy, g, p), h, p)
    decreases |g|
  {
    if g == [] {
      assert g + h == h;
    } else {
      assert (g + h)[1..] == g[1..] + h;
      FollowConcat(Follow(cy, g[0], p), g[1..], h, p);
    }
  }

  lemma FollowTwo(cy: Cycle, a: Event, b: Event, p: ProviderId)
    ensures FollowAll(cy, [a, b], p) == Follow(Follow(cy, a, p), b, p)
  {
    assert [a, b][1..] == [b];
    assert FollowAll(Follow(cy, a, p), [b], p) == Follow(Follow(cy, a, p), b, p);
  }

  /** The cycle of `p` after a run. */
  ghost function CycleOf(c: Config, initial: seq<Challenge>, steps: seq<Step>, p: ProviderId): Cycle {
    FollowAll(NoCycle, History(c, initial, steps), p)
  }

  /** Each checkpoint round after the start of the cycle and up to the last proven tick was answered by exactly one
      accepted proof, and no other round was answered. */
  ghost predicate AnsweredOnce(c: Config, cy: Cycle, lastProven: Tick)
    requires cy.Cycle?
  {
    forall k: Tick :: cy.answered[k] == if IsCheckpoint(c.checkpointPeriod, k) && cy.start < k <= lastProven then 1 else 0
  }

  /** The property a run should have: a cycle without misses has answered every round exactly once. */
  ghost predicate Covers(c: Config, initial: seq<Challenge>, steps: seq<Step>, p: ProviderId) {
    var cy := CycleOf(c, initial, steps, p);
    var d := Run(c, initial, steps);
    cy.Cycle? && !cy.missed ==> p in d.records && AnsweredOnce(c, cy, d.records[p].lastProven)
  }

  /** Every stake the provider acts with gives it a challenge period of at most `longest`. */
  ghost predicate PeriodsWithin(c: Config, steps: seq<Step>, p: ProviderId, longest: nat) {
    forall i :: 0 <= i < |steps| ==> StepWithin(c, steps[i], p, longest)
  }

  ghost predicate StepWithin(c: Config, step: Step, p: ProviderId, longest: nat) {
    && (step.StartCycle? && step.provider == p && step.view.stake.Some? ==>
          Period(c, step.view.stake.value) <= longest)
    && (step.SubmitProof? && step.provider == p && step.view.stake.Some? ==>
          Period(c, step.view.stake.value) <= longest)
  }

  // --- Far enough apart: every round is answered ------------------------------------------------------

  /** The invariant behind coverage. */
  ghost predicate Tracked(c: Config, d: Dealer, cy: Cycle, p: ProviderId, longest: nat) {
    && (p in d.records <==> cy.Cycle?)
    && (cy.Cycle? && !cy.missed ==>
          && cy.start <= d.records[p].lastProven
          && d.records[p].next <= d.records[p].lastProven + longest
          && AnsweredOnce(c, cy, d.records[p].lastProven))
  }

  lemma AtMultiple(period: nat, t: Tick)
    requires period > 0 && CheckpointAt(period, t) > 0
    ensures IsCheckpoint(period, CheckpointAt(period, t))
  {
    var q := t / period;
    assert q * period % period == 0 by {
      ModOfMultiple(q, period);
    }
  }

  lemma ModOfMultiple(q: nat, period: nat)
    requires period > 0
    ensures q * period % period == 0
  {
    var x := q * period;
    assert x / period * period + x % period == x;
    QuotientUnique(x, period, x / period, q);
  }

  lemma MultipleIsLatest(period: nat, k: Tick, t: Tick)
    requires IsCheckpoint(period, k) && k <= t < k + period
    ensures CheckpointAt(period, t) == k
  {
    var a := k / period;
    assert a * period == k;
    assert t / period * period <= t < t / period * period + period;
    QuotientUnique(t, period, t / period, a);
  }

  /** A proof answers exactly the checkpoint rounds between its last proven tick and the tick it proves. */
  lemma ProofAnswersItsRounds(c: Config, d: Dealer, r: Record, longest: nat)
    requires CheckpointsInStep(c, d)
    requires c.checkpointPeriod + 1 >= longest + c.tolerance
    requires r.next <= r.lastProven + longest
    requires r.next < d.ticker < r.next + c.tolerance
    ensures forall k: Tick :: IsCheckpoint(c.checkpointPeriod, k) && r.lastProven < k <= r.next <==> CheckpointOwed(d, r) == Some(k)
  {
    var period := c.checkpointPeriod;
    forall k: Tick
      ensures IsCheckpoint(period, k) && r.lastProven < k <= r.next <==> CheckpointOwed(d, r) == Some(k)
    {
      if IsCheckpoint(period, k) && r.lastProven < k <= r.next {
        MultipleIsLatest(period, k, d.ticker);
      }
      if CheckpointOwed(d, r) == Some(k) {
        AtMultiple(period, d.ticker);
      }
    }
  }

  lemma SubmitTracked(c: Config, d: Dealer, cy: Cycle, p: ProviderId, view: View, proof: Proof, longest: nat)
    requires ValidConfig(c) && Inv(c, d) && Tracked(c, d, cy, p, longest)
    requires c.checkpointPeriod + 1 >= longest + c.tolerance
    requires Submit(c, d, p, view, proof).Ok?
    requires Period(c, view.stake.value) <= longest
    ensures var a := Submit(c, d, p, view, proof).value;
            Tracked(c, a.dealer, Follow(cy, Proven(p, a.tick, d.ticker, a.checkpoint), p), p, longest)
  {
    if !cy.missed {
      ProofAnswersItsRounds(c, d, d.records[p], longest);
    }
  }

  lemma SubmitFollowed(c: Config, d: Dealer, cy: Cycle, p: ProviderId, q: ProviderId, view: View, proof: Proof,
                       longest: nat)
    requires ValidConfig(c) && Inv(c, d) && Tracked(c, d, cy, p, longest)
    requires c.checkpointPeriod + 1 >= longest + c.tolerance
    requires Submit(c, d, q, view, proof).Ok?
    requires q == p ==> Period(c, view.stake.value) <= longest
    ensures Tracked(c, Submit(c, d, q, view, proof).value.dealer,
                    FollowAll(cy, Happened(c, d, SubmitProof(q, view, proof)), p), p, longest)
  {
    hide Inv, AnsweredOnce;
    var h := Happened(c, d, SubmitProof(q, view, proof));
    FollowTwo(cy, h[0], h[1], p);
    if q == p { SubmitTracked(c, d, cy, p, view, proof, longest); }
  }

  lemma {:induction false} SweepFollowed(c: Config, d: Dealer, pol: Policy, stakes: map<ProviderId, nat>,
                                         es: seq<Entry>, cy: Cycle, p: ProviderId)
    ensures FollowAll(cy, SweepEvents(c, d, pol, stakes, es), p)
            == if Listed(es, p) && cy.Cycle? then cy.(missed := true) else cy
    decreases |es|
  {
    if es != [] {
      ListedTail(es, p);
      var events := MarkEvents(c, d, pol, stakes, es[0]);
      var m := Mark(c, d, pol, stakes, es[0]);
      FollowTwo(cy, events[0], events[1], p);
      FollowConcat(cy, events, SweepEvents(c, m, pol, stakes, es[1..]), p);
      SweepFollowed(c, m, pol, stakes, es[1..], FollowAll(cy, events, p), p);
    }
  }

  lemma PollTracked(c: Config, d: Dealer, cy: Cycle, p: ProviderId, seed: Seed, stakes: map<ProviderId, nat>,
                    longest: nat)
    requires ValidConfig(c) && Inv(c, d) && Tracked(c, d, cy, p, longest)
    ensures Tracked(c, NewRound(c, d, seed, stakes), FollowAll(cy, Happened(c, d, Poll(seed, stakes)), p), p, longest)
  {
    hide Inv, AnsweredOnce, Sweep, Firsts;
    PollMissesExactly(c, d, seed, stakes, p);
    RoundMarksExactly(c, d, seed, stakes, p);
    SweepFollowed(c, OpenRound(c, d, seed), PolicyOf(d), stakes, MarkedInRound(c, d, seed), cy, p);
  }

  lemma StartTracked(c: Config, d: Dealer, cy: Cycle, p: ProviderId, q: ProviderId, view: View, longest: nat)
    requires Tracked(c, d, cy, p, longest)
    requires Initialise(c, d, q, view).Ok?
    requires q == p ==> Period(c, view.stake.value) <= longest
    ensures Tracked(c, Initialise(c, d, q, view).value, FollowAll(cy, Happened(c, d, StartCycle(q, view)), p), p, longest)
  {
    var tail := [Started(q, d.ticker), Assigned(q, Initialise(c, d, q, view).value.records[q].next)];
    FollowConcat(cy, Settle(d, q), tail, p);
    FollowTwo(FollowAll(cy, Settle(d, q), p), tail[0], tail[1], p);
  }

  lemma StepTracked(c: Config, d: Dealer, cy: Cycle, step: Step, p: ProviderId, longest: nat)
    requires ValidConfig(c) && Inv(c, d) && Tracked(c, d, cy, p, longest)
    requires c.checkpointPeriod + 1 >= longest + c.tolerance
    requires StepWithin(c, step, p, longest)
    ensures Tracked(c, Apply(c, d, step), FollowAll(cy, Happened(c, d, step), p), p, longest)
  {
    hide Inv, AnsweredOnce, Initialise, Submit, Sweep, SweepEvents;
    match step
    case StartCycle(q, view) =>
      SubmitGuards(c, d, q, view, PERFECT_PROOF);
      if Initialise(c, d, q, view).Ok? { StartTracked(c, d, cy, p, q, view, longest); }
    case StopCycle(q, registered) =>
    case SubmitProof(q, view, proof) =>
      SubmitGuards(c, d, q, view, proof);
      if Submit(c, d, q, view, proof).Ok? { SubmitFollowed(c, d, cy, p, q, view, proof, longest); }
    case Poll(seed, stakes) => PollTracked(c, d, cy, p, seed, stakes, longest);
    case ChallengeKey(key) =>
    case ChallengeWithPriority(ch) =>
    case ClearAccrued(q) =>
  }

  /** With rounds at least `longest + tolerance - 1` ticks apart, a cycle without misses answers every round exactly
      once, in every run. */
  lemma {:induction false} DistantRoundsAreAnswered(c: Config, initial: seq<Challenge>, steps: seq<Step>,
      p: ProviderId, longest: nat)
    requires ValidConfig(c)
    requires c.checkpointPeriod + 1 >= longest + c.tolerance
    requires PeriodsWithin(c, steps, p, longest)
    ensures Tracked(c, Run(c, initial, steps), CycleOf(c, initial, steps, p), p, longest)
    ensures Covers(c, initial, steps, p)
    decreases |steps|
  {
    if steps != [] {
      var n := |steps| - 1;
      var prefix := steps[..n];
      DistantRoundsAreAnswered(c, initial, prefix, p, longest);
      EveryRunKeepsInv(c, initial, prefix);
      var d := Run(c, initial, prefix);
      FollowConcat(NoCycle, History(c, initial, prefix), Happened(c, d, steps[n]), p);
      StepTracked(c, d, CycleOf(c, initial, prefix, p), steps[n], p, longest);
    }
  }

  // --- Too close: some round is skipped ---------------------------------------------------------------

  /** `n` polls with nobody's stake known to the sweep. */
  function Ticks(n: nat): seq<Step> {
    if n == 0 then [] else Ticks(n - 1) + [Poll(0, map[])]
  }

  /** A poll at which nothing is overdue only moves the ticker, the pointer and the challenges. */
  lemma QuietPoll(c: Config, d: Dealer, seed: Seed, stakes: map<ProviderId, nat>)
    requires ValidConfig(c) && Inv(c, d)
    requires NothingDueBy(d, d.ticker + 1)
    ensures OnlyTicked(d, NewRound(c, d, seed, stakes), 1)
    ensures Happened(c, d, Poll(seed, stakes)) == []
  {
    OpenRoundInv(c, d, seed);
    var open := OpenRound(c, d, seed);
    SweepMarksFirstDue(c, open, PolicyOf(d), stakes, c.maxSlashablePerTick);
    assert Due(open) == {};
    assert Firsts(Due(open), c.maxSlashablePerTick) == [];
  }

  lemma RunSnoc(c: Config, initial: seq<Challenge>, steps: seq<Step>, step: Step)
    ensures Run(c, initial, steps + [step]) == Apply(c, Run(c, initial, steps), step)
    ensures History(c, initial, steps + [step])
            == History(c, initial, steps) + Happened(c, Run(c, initial, steps), step)
  {
    var all := steps + [step];
    assert all[..|all| - 1] == steps;
  }

  /** The clock has moved on by `n` and nothing has happened to any provider. */
  ghost predicate OnlyTicked(d: Dealer, d': Dealer, n: nat) {
    && d'.ticker == d.ticker + n && d'.records == d.records && d'.deadlines == d.deadlines
    && d'.submitters == d.submitters
  }

  ghost predicate NothingDueBy(d: Dealer, t: Tick) {
    forall e :: e in d.deadlines ==> e.0 > t
  }

  lemma QuietTick(c: Config, initial: seq<Challenge>, steps: seq<Step>)
    requires ValidConfig(c)
    requires NothingDueBy(Run(c, initial, steps), Run(c, initial, steps).ticker + 1)
    ensures OnlyTicked(Run(c, initial, steps), Run(c, initial, steps + [Poll(0, map[])]), 1)
    ensures History(c, initial, steps + [Poll(0, map[])]) == History(c, initial, steps)
  {
    EveryRunKeepsInv(c, initial, steps);
    QuietPoll(c, Run(c, initial, steps), 0, map[]);
    RunSnoc(c, initial, steps, Poll(0, map[]));
  }

  lemma {:induction false} QuietTicks(c: Config, initial: seq<Challenge>, steps: seq<Step>, n: nat)
    requires ValidConfig(c)
    requires NothingDueBy(Run(c, initial, steps), Run(c, initial, steps).ticker + n)
    ensures OnlyTicked(Run(c, initial, steps), Run(c, initial, steps + Ticks(n)), n)
    ensures History(c, initial, steps + Ticks(n)) == History(c, initial, steps)
    decreases n
  {
    hide RunFrom, History;
    if n == 0 {
      assert steps + Ticks(0) == steps;
    } else {
      var before := steps + Ticks(n - 1);
      assert steps + Ticks(n) == before + [Poll(0, map[])];
      QuietTicks(c, initial, steps, n - 1);
      QuietTick(c, initial, before);
    }
  }

  /** The tick at which the cycle of the skipping run starts. */
  function SkipStart(c: Config, longest: nat): nat {
    Max(SatSub(2 * c.checkpointPeriod + 1, longest + c.tolerance), SatSub(c.checkpointPeriod, longest))
  }

  const PERFECT_PROOF := Proof(1, (challenges: seq<Key>) => Valid)

  function GoodView(stake: nat): View {
    View(true, ForestRoot, Some(stake))
  }

  /** A provider that starts just before the first checkpoint round and proves its first tick on the last admissible
      tick, when the second round has already replaced the first. */
  function SkippingRun(c: Config, longest: nat, stake: nat): seq<Step>
    requires c.tolerance > 0
  {
    Ticks(SkipStart(c, longest)) + [StartCycle(0, GoodView(stake))] + Ticks(longest + c.tolerance - 1)
    + [SubmitProof(0, GoodView(stake), PERFECT_PROOF)]
  }

  /** The steps of the skipping run up to the start of the cycle. */
  function Opening(c: Config, longest: nat, stake: nat): seq<Step> {
    Ticks(SkipStart(c, longest)) + [StartCycle(0, GoodView(stake))]
  }

  /** The first provider starts its cycle. */
  lemma FirstStart(c: Config, d: Dealer, stake: nat)
    requires stake > 0 && d.records == map[] && d.deadlines == {}
    ensures var start := StartCycle(0, GoodView(stake));
            var n := d.ticker + Period(c, stake);
            var d' := Apply(c, d, start);
            && d'.ticker == d.ticker && d'.submitters == d.submitters
            && d'.records == map[0 := Record(d.ticker, n)] && d'.deadlines == {(n + c.tolerance, 0)}
            && Happened(c, d, start) == [Started(0, d.ticker), Assigned(0, n)]
  {
  }

  lemma NothingRun(c: Config, initial: seq<Challenge>)
    ensures Run(c, initial, []) == Genesis(initial)
    ensures History(c, initial, []) == []
  {
  }

  /** Without providers the clock just runs. */
  lemma OnlyTicks(c: Config, initial: seq<Challenge>, n: nat)
    requires ValidConfig(c)
    ensures OnlyTicked(Genesis(initial), Run(c, initial, Ticks(n)), n)
    ensures History(c, initial, Ticks(n)) == []
  {
    hide RunFrom, History;
    NothingRun(c, initial);
    assert [] + Ticks(n) == Ticks(n);
    QuietTicks(c, initial, [], n);
  }

  lemma AfterOpening(c: Config, initial: seq<Challenge>, longest: nat, stake: nat)
    requires ValidConfig(c)
    requires stake > 0 && Period(c, stake) == longest
    ensures var d := Run(c, initial, Opening(c, longest, stake));
            var s := SkipStart(c, longest);
            && d.ticker == s
            && d.records == map[0 := Record(s, s + longest)]
            && d.deadlines == {(s + longest + c.tolerance, 0)}
            && d.submitters == map[]
    ensures History(c, initial, Opening(c, longest, stake))
            == [Started(0, SkipStart(c, longest)), Assigned(0, SkipStart(c, longest) + longest)]
  {
    hide RunFrom, History, Apply, Happened, Period, SkipStart;
    var s := SkipStart(c, longest);
    OnlyTicks(c, initial, s);
    FirstStart(c, Run(c, initial, Ticks(s)), stake);
    RunSnoc(c, initial, Ticks(s), StartCycle(0, GoodView(stake)));
  }

  /** The steps up to the late proof. */
  function Waiting(c: Config, longest: nat, stake: nat): seq<Step>
    requires c.tolerance > 0
  {
    Opening(c, longest, stake) + Ticks(longest + c.tolerance - 1)
  }

  /** The state in which the late proof is submitted. */
  lemma BeforeSkip(c: Config, initial: seq<Challenge>, longest: nat, stake: nat)
    requires ValidConfig(c)
    requires stake > 0 && Period(c, stake) == longest && c.tolerance >= 2
    ensures var d := Run(c, initial, Waiting(c, longest, stake));
            var s := SkipStart(c, longest);
            && d.ticker == s + longest + c.tolerance - 1
            && d.records == map[0 := Record(s, s + longest)]
            && d.submitters == map[]
            && CycleOf(c, initial, Waiting(c, longest, stake), 0) == Cycle(s, false, 0, multiset{})
  {
    hide RunFrom, History;
    var s := SkipStart(c, longest);
    AfterOpening(c, initial, longest, stake);
    QuietTicks(c, initial, Opening(c, longest, stake), longest + c.tolerance - 1);
    FollowTwo(NoCycle, Started(0, s), Assigned(0, s + longest), 0);
  }

  /** The late proof is accepted for the first tick of the cycle, and it does not answer the first round. */
  lemma LateProofAccepted(c: Config, d: Dealer, longest: nat, stake: nat)
    requires ValidConfig(c) && Inv(c, d)
    requires c.checkpointPeriod + 1 < longest + c.tolerance && c.checkpointPeriod > 0
    requires c.tolerance >= 2 && c.historyLength >= c.tolerance && c.maxSubmittersPerTick > 0
    requires stake > 0 && Period(c, stake) == longest
    requires var s := SkipStart(c, longest);
             && d.ticker == s + longest + c.tolerance - 1
             && d.records == map[0 := Record(s, s + longest)]
             && d.submitters == map[]
    ensures var submit := SubmitProof(0, GoodView(stake), PERFECT_PROOF);
            var h := Happened(c, d, submit);
            var d' := Apply(c, d, submit);
            && |h| == 2 && h[0].Proven? && h[0].checkpoint != Some(c.checkpointPeriod) && h[1].Assigned?
            && 0 in d'.records && d'.records[0].lastProven == SkipStart(c, longest) + longest
            && SkipStart(c, longest) < c.checkpointPeriod <= SkipStart(c, longest) + longest
  {
    PeriodPositive(c, stake);
    SecondRoundPassed(c.checkpointPeriod, d.ticker);
    ProofWindow(c, d, 0, GoodView(stake), PERFECT_PROOF);
  }

  lemma SkippingRunWithin(c: Config, longest: nat, stake: nat)
    requires c.tolerance > 0 && Period(c, stake) == longest
    ensures PeriodsWithin(c, SkippingRun(c, longest, stake), 0, longest)
  {
    TicksWithin(c, SkipStart(c, longest), longest);
    TicksWithin(c, longest + c.tolerance - 1, longest);
  }

  lemma {:induction false} TicksWithin(c: Config, n: nat, longest: nat)
    ensures PeriodsWithin(c, Ticks(n), 0, longest)
  {
    if n > 0 {
      TicksWithin(c, n - 1, longest);
    }
  }

  /** With rounds closer than that, the skipping run is never late and yet leaves the first round unanswered. */
  lemma CloseRoundsAreSkipped(c: Config, initial: seq<Challenge>, longest: nat, stake: nat)
    requires ValidConfig(c)
    requires c.checkpointPeriod + 1 < longest + c.tolerance && c.checkpointPeriod > 0
    requires c.tolerance >= 2 && c.historyLength >= c.tolerance && c.maxSubmittersPerTick > 0
    requires stake > 0 && Period(c, stake) == longest
    ensures !Covers(c, initial, SkippingRun(c, longest, stake), 0)
    ensures PeriodsWithin(c, SkippingRun(c, longest, stake), 0, longest)
  {
    hide RunFrom, History, Apply, Happened, Period, Inv;
    SkippingRunWithin(c, longest, stake);
    var period := c.checkpointPeriod;
    var before := Waiting(c, longest, stake);
    var submit := SubmitProof(0, GoodView(stake), PERFECT_PROOF);
    assert before + [submit] == SkippingRun(c, longest, stake);
    BeforeSkip(c, initial, longest, stake);
    EveryRunKeepsInv(c, initial, before);
    var d := Run(c, initial, before);
    LateProofAccepted(c, d, longest, stake);
    RunSnoc(c, initial, before, submit);
    var h := Happened(c, d, submit);
    assert h == [h[0], h[1]];
    FollowConcat(NoCycle, History(c, initial, before), h, 0);
    FollowTwo(CycleOf(c, initial, before, 0), h[0], h[1], 0);
    var cy := CycleOf(c, initial, SkippingRun(c, longest, stake), 0);
    assert cy.answered[period] == 0;
    assert IsCheckpoint(period, period) by { ModOfMultiple(1, period); }
  }

  lemma SecondRoundPassed(period: nat, t: Tick)
    requires period > 0 && t >= 2 * period
    ensures CheckpointAt(period, t) >= 2 * period
  {
    var q := t / period;
    assert q * period <= t < q * period + period;
    if q < 2 {
      MulMonotone(period, q, 1);
    } else {
      MulMonotone(period, 2, q);
    }
  }

  /** The exact condition for coverage. With `longest` the longest challenge period, every run of every such provider
      answers each checkpoint round exactly once if and only if the checkpoint period is at least
      `longest + tolerance - 1`. A checkpoint period no shorter than the challenge period is not enough. */
  lemma CoverageExactly(c: Config, longest: nat, stake: nat)
    requires ValidConfig(c)
    requires c.checkpointPeriod > 0 && c.tolerance >= 2 && c.historyLength >= c.tolerance && c.maxSubmittersPerTick > 0
    requires stake > 0 && Period(c, stake) == longest
    ensures (forall initial: seq<Challenge>, steps: seq<Step>, p: ProviderId ::
               PeriodsWithin(c, steps, p, longest) ==> Covers(c, initial, steps, p))
            <==> c.checkpointPeriod + 1 >= longest + c.tolerance
  {
    if c.checkpointPeriod + 1 >= longest + c.tolerance {
      forall initial: seq<Challenge>, steps: seq<Step>, p: ProviderId | PeriodsWithin(c, steps, p, longest)
        ensures Covers(c, initial, steps, p)
      {
        DistantRoundsAreAnswered(c, initial, steps, p, longest);
      }
    } else {
      CloseRoundsAreSkipped(c, [], longest, stake);
    }
  }

  /** The configuration test of the pallet demands more than that: a checkpoint period above the longest period plus the
      tolerance. So a configuration that passes it covers every checkpoint round, in every run. The longest period is that of
      the minimum stake, which has to be positive: the test would otherwise look at the minimum period. */
  lemma IntegrityTestSuffices(c: Config, initial: seq<Challenge>, steps: seq<Step>, p: ProviderId, minStake: nat)
    requires ValidConfig(c) && c.checkpointPeriod > Period(c, minStake) + c.tolerance
    requires StakesAtLeast(steps, p, minStake) && minStake > 0
    ensures Covers(c, initial, steps, p)
  {
    forall i | 0 <= i < |steps|
      ensures StepWithin(c, steps[i], p, Period(c, minStake))
    {
      assert StakeAtLeast(steps[i], p, minStake);
      StakeWithin(c, steps[i], p, minStake);
    }
    DistantRoundsAreAnswered(c, initial, steps, p, Period(c, minStake));
  }

  /** The provider never acts with less than the minimum stake. */
  ghost predicate StakesAtLeast(steps: seq<Step>, p: ProviderId, minStake: nat) {
    forall i :: 0 <= i < |steps| ==> StakeAtLeast(steps[i], p, minStake)
  }

  ghost predicate StakeAtLeast(step: Step, p: ProviderId, minStake: nat) {
    (step.StartCycle? || step.SubmitProof?) && step.provider == p && step.view.stake.Some? ==> step.view.stake.value >= minStake
  }

  lemma StakeWithin(c: Config, step: Step, p: ProviderId, minStake: nat)
    requires StakeAtLeast(step, p, minStake) && minStake > 0
    ensures StepWithin(c, step, p, Period(c, minStake))
  {
    hide Period;
    if (step.StartCycle? || step.SubmitProof?) && step.provider == p && step.view.stake.Some? {
      PeriodShrinksWithStake(c, minStake, step.view.stake.value);
    }
  }
}
