/** The rhythm of proofs: a provider that keeps its stake and misses nothing proves ticks one challenge period apart. */
module ProofCadence {
  import opened ChallengeQueues
  import opened ProofsDealer
  import opened SlashSweep
  import opened ProofHistory
  import opened CheckpointCoverage

  /** Every stake the provider acts with gives it the same challenge period. */
  ghost predicate SteadyStep(c: Config, step: Step, p: ProviderId, period: nat) {
    && (step.StartCycle? && step.provider == p && step.view.stake.Some? ==> Period(c, step.view.stake.value) == period)
    && (step.SubmitProof? && step.provider == p && step.view.stake.Some? ==> Period(c, step.view.stake.value) == period)
  }

  ghost predicate Steady(c: Config, steps: seq<Step>, p: ProviderId, period: nat) {
    forall i :: 0 <= i < |steps| ==> SteadyStep(c, steps[i], p, period)
  }

  /** The tick of the `k`-th proof of a cycle. */
  function ProofTick(start: Tick, period: nat, k: nat): Tick {
    start + k * period
  }

  /** In a cycle without misses the last proven tick is that of the last proof, and the next one is one period on. */
  ghost predicate OnBeat(d: Dealer, cy: Cycle, p: ProviderId, period: nat) {
    && (p in d.records <==> cy.Cycle?)
    && (cy.Cycle? && !cy.missed ==>
          d.records[p] == Record(ProofTick(cy.start, period, cy.proofs), ProofTick(cy.start, period, cy.proofs + 1)))
  }

  lemma NextBeat(start: Tick, period: nat, k: nat)
    ensures ProofTick(start, period, k + 1) == ProofTick(start, period, k) + period
    ensures ProofTick(start, period, 0) == start
  {
    assert (k + 1) * period == k * period + period;
  }

  lemma StartOnBeat(c: Config, d: Dealer, cy: Cycle, p: ProviderId, q: ProviderId, view: View, period: nat)
    requires OnBeat(d, cy, p, period) && Initialise(c, d, q, view).Ok?
    requires q == p ==> Period(c, view.stake.value) == period
    ensures OnBeat(Initialise(c, d, q, view).value, FollowAll(cy, Happened(c, d, StartCycle(q, view)), p), p, period)
  {
    var tail := [Started(q, d.ticker), Assigned(q, Initialise(c, d, q, view).value.records[q].next)];
    FollowConcat(cy, Settle(d, q), tail, p);
    FollowTwo(FollowAll(cy, Settle(d, q), p), tail[0], tail[1], p);
    NextBeat(d.ticker, period, 0);
  }

  lemma SubmitOnBeat(c: Config, d: Dealer, cy: Cycle, p: ProviderId, q: ProviderId, view: View, proof: Proof, period: nat)
    requires OnBeat(d, cy, p, period) && Submit(c, d, q, view, proof).Ok?
    requires q == p ==> Period(c, view.stake.value) == period
    ensures OnBeat(Submit(c, d, q, view, proof).value.dealer,
                   FollowAll(cy, Happened(c, d, SubmitProof(q, view, proof)), p), p, period)
  {
    hide Period, ProofTick;
    var h := Happened(c, d, SubmitProof(q, view, proof));
    FollowTwo(cy, h[0], h[1], p);
    if cy.Cycle? {
      NextBeat(cy.start, period, cy.proofs);
      NextBeat(cy.start, period, cy.proofs + 1);
    }
  }

  lemma PollOnBeat(c: Config, d: Dealer, cy: Cycle, p: ProviderId, seed: Seed, stakes: map<ProviderId, nat>, period: nat)
    requires ValidConfig(c) && Inv(c, d) && OnBeat(d, cy, p, period)
    ensures OnBeat(NewRound(c, d, seed, stakes), FollowAll(cy, Happened(c, d, Poll(seed, stakes)), p), p, period)
  {
    hide Inv, Sweep, Firsts, ProofTick;
    PollMissesExactly(c, d, seed, stakes, p);
    RoundMarksExactly(c, d, seed, stakes, p);
    SweepFollowed(c, OpenRound(c, d, seed), PolicyOf(d), stakes, MarkedInRound(c, d, seed), cy, p);
  }

  lemma StepOnBeat(c: Config, d: Dealer, cy: Cycle, step: Step, p: ProviderId, period: nat)
    requires ValidConfig(c) && Inv(c, d) && OnBeat(d, cy, p, period)
    requires SteadyStep(c, step, p, period)
    ensures OnBeat(Apply(c, d, step), FollowAll(cy, Happened(c, d, step), p), p, period)
  {
    hide Inv, ProofTick, Initialise, Submit, Sweep, SweepEvents;
    match step
    case StartCycle(q, view) =>
      SubmitGuards(c, d, q, view, PERFECT_PROOF);
      if Initialise(c, d, q, view).Ok? { StartOnBeat(c, d, cy, p, q, view, period); }
    case StopCycle(q, registered) =>
    case SubmitProof(q, view, proof) =>
      SubmitGuards(c, d, q, view, proof);
      if Submit(c, d, q, view, proof).Ok? { SubmitOnBeat(c, d, cy, p, q, view, proof, period); }
    case Poll(seed, stakes) => PollOnBeat(c, d, cy, p, seed, stakes, period);
    case ChallengeKey(key) =>
    case ChallengeWithPriority(ch) =>
    case ClearAccrued(q) =>
  }

  /** Over every run, whatever the others do: a provider whose stake gives it a constant period, and that has missed nothing
      since its cycle started, has proven exactly the ticks `start + period`, `start + 2 * period`, and so on, one per
      accepted proof, and is due next one period after the last. */
  lemma {:induction false} ProofsAreEvenlySpaced(c: Config, initial: seq<Challenge>, steps: seq<Step>, p: ProviderId,
      period: nat)
    requires ValidConfig(c) && Steady(c, steps, p, period)
    ensures OnBeat(Run(c, initial, steps), CycleOf(c, initial, steps, p), p, period)
    decreases |steps|
  {
    hide OnBeat, Apply, Happened, Inv;
    if steps != [] {
      var n := |steps| - 1;
      var prefix := steps[..n];
      ProofsAreEvenlySpaced(c, initial, prefix, p, period);
      EveryRunKeepsInv(c, initial, prefix);
      var d := Run(c, initial, prefix);
      FollowConcat(NoCycle, History(c, initial, prefix), Happened(c, d, steps[n]), p);
      StepOnBeat(c, d, CycleOf(c, initial, prefix, p), steps[n], p, period);
    } else {
      NothingOnBeat(c, initial, p, period);
    }
  }

  lemma NothingOnBeat(c: Config, initial: seq<Challenge>, p: ProviderId, period: nat)
    ensures OnBeat(Run(c, initial, []), CycleOf(c, initial, [], p), p, period)
  {
  }
}
