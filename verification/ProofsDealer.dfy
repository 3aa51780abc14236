/** The proofs dealer: the ticker, the deadlines of the providers, the seeds and checkpoint challenges they
    answer, and the sweep that marks the late ones slashable. Every dispatchable and hook is a function on the
    pallet's storage; the storage itself is the `Dealer` record. */
module ProofsDealer {
  import opened Prelude
  import opened ChallengeQueues

  type Tick = nat
  type Seed = nat

  /** Providers are numbered in the order in which the storage map iterates over their hashed keys. */
  type ProviderId = nat

  /** One entry of `TickToProvidersDeadlines`: the deadline tick and the provider due by it. */
  type Entry = (Tick, ProviderId)

  datatype Config = Config(
    tolerance: nat,
    historyLength: nat,
    checkpointPeriod: nat,
    maxSlashablePerTick: nat,
    randomChallenges: nat,
    maxCustomChallenges: nat,
    queueLength: nat,
    maxSubmittersPerTick: nat,
    stakeToChallengePeriod: nat,
    minChallengePeriod: nat)

  /** Challenge periods are at least one tick. */
  ghost predicate ValidConfig(c: Config) {
    c.minChallengePeriod >= 1
  }

  datatype Record = Record(lastProven: Tick, next: Tick)

  datatype Dealer = Dealer(
    ticker: Tick,
    seeds: map<Tick, Seed>,
    checkpoints: map<Tick, seq<Challenge>>,
    lastCheckpoint: Tick,
    deadlines: set<Entry>,
    records: map<ProviderId, Record>,
    toCheck: Tick,
    slashable: map<ProviderId, nat>,
    submitters: map<Tick, set<ProviderId>>,
    queues: Queues)

  function Genesis(initial: seq<Challenge>): Dealer {
    Dealer(0, map[], map[0 := initial], 0, {}, map[], 0, map[], map[], NO_CHALLENGES)
  }

  datatype Error =
    | NotProvider
    | EmptyKeyProofs
    | ProviderRootNotFound
    | ZeroRoot
    | NoRecordOfLastSubmittedProof
    | ProviderStakeNotFound
    | ZeroStake
    | ChallengesTickNotReached
    | ChallengesTickTooOld
    | ChallengesTickTooLate
    | SeedNotFound
    | CheckpointChallengesNotFound
    | ProofRejected(verdict: Verdict)
    | TooManyValidProofSubmitters

  /** What the providers pallet says about a provider at the moment of a call. */
  datatype RootStatus = NoRoot | DefaultRoot | ForestRoot
  datatype View = View(registered: bool, root: RootStatus, stake: Option<nat>)

  /** The answer of the forest and key verifiers, which are outside the pallet. */
  datatype Verdict =
    | ForestProofVerificationFailed
    | FailedToApplyDelta
    | UnexpectedNumberOfRemoveMutations
    | IncorrectNumberOfKeyProofs
    | KeyProofNotFound
    | KeyProofVerificationFailed
    | Valid

  /** A submitted proof: the number of its key proofs, and how the verifiers judge it on a list of challenges. */
  datatype Proof = Proof(keyProofs: nat, judge: seq<Key> -> Verdict)

  /** `stake_to_challenge_period`: the ratio divided by the stake, but never below the minimum period. */
  function Period(c: Config, stake: nat): nat {
    if stake == 0 then c.minChallengePeriod
    else Max(c.minChallengePeriod, c.stakeToChallengePeriod / stake)
  }

  /** The tick of the latest checkpoint round at tick `t`, the genesis round being at tick 0. */
  function CheckpointAt(period: nat, t: Tick): Tick {
    if period == 0 then 0 else t / period * period
  }

  ghost predicate IsCheckpoint(period: nat, k: Tick) {
    period > 0 && k > 0 && k % period == 0
  }

  // --- Dispatchables ----------------------------------------------------------------------------------

  function Deadline(c: Config, r: Record): Tick {
    r.next + c.tolerance
  }

  /** `initialise_challenge_cycle`: start over from the current tick, forgetting any earlier deadline. */
  function Initialise(c: Config, d: Dealer, p: ProviderId, view: View): Outcome<Dealer, Error> {
    var _ :- Need(view.registered, NotProvider);
    var _ :- Need(view.stake.Some?, ProviderStakeNotFound);
    var _ :- Need(view.stake.value > 0, ZeroStake);
    var cleared := if p in d.records then d.deadlines - {(Deadline(c, d.records[p]), p)} else d.deadlines;
    var r := Record(d.ticker, d.ticker + Period(c, view.stake.value));
    Ok(d.(records := d.records[p := r], deadlines := cleared + {(Deadline(c, r), p)}))
  }

  /** `stop_challenge_cycle`: drop the provider's record and deadline, if it has any. */
  function Stop(c: Config, d: Dealer, p: ProviderId, registered: bool): Outcome<Dealer, Error> {
    var _ :- Need(registered, NotProvider);
    if p in d.records then
      Ok(d.(records := d.records - {p}, deadlines := d.deadlines - {(Deadline(c, d.records[p]), p)}))
    else
      Ok(d)
  }

  /** The challenges every provider draws from a tick's seed. */
  function DrawnKeys(c: Config, seed: Seed, p: ProviderId): seq<Key> {
    seq(c.randomChallenges, i requires 0 <= i < c.randomChallenges => Drawn(seed, p, i))
  }

  function KeysOf(challenges: seq<Challenge>): seq<Key> {
    seq(|challenges|, i requires 0 <= i < |challenges| => challenges[i].key)
  }

  /** The checkpoint round a proof for tick `r.next` has to answer: the latest one, when it lies after the last
      proven tick and not after the tick being proven. */
  function CheckpointOwed(d: Dealer, r: Record): Option<Tick> {
    if r.lastProven < d.lastCheckpoint <= r.next then Some(d.lastCheckpoint) else None
  }

  /** An accepted proof: the new storage, the tick it proves and the checkpoint round it answers. */
  datatype Acceptance = Acceptance(dealer: Dealer, tick: Tick, checkpoint: Option<Tick>)

  /** The guards of `submit_proof` up to the verifiers; their result is the list of challenges to verify. */
  function ChallengesFor(c: Config, d: Dealer, p: ProviderId, view: View, proof: Proof): Outcome<seq<Key>, Error> {
    var _ :- Need(view.registered, NotProvider);
    var _ :- Need(proof.keyProofs > 0, EmptyKeyProofs);
    var _ :- Need(!view.root.NoRoot?, ProviderRootNotFound);
    var _ :- Need(!view.root.DefaultRoot?, ZeroRoot);
    var _ :- Need(p in d.records, NoRecordOfLastSubmittedProof);
    var _ :- Need(view.stake.Some?, ProviderStakeNotFound);
    var _ :- Need(view.stake.value > 0, ZeroStake);
    var r := d.records[p];
    var _ :- Need(r.next < d.ticker, ChallengesTickNotReached);
    var _ :- Need(r.next > SatSub(d.ticker, c.historyLength), ChallengesTickTooOld);
    var _ :- Need(Deadline(c, r) > d.ticker, ChallengesTickTooLate);
    var _ :- Need(r.next in d.seeds, SeedNotFound);
    var drawn := DrawnKeys(c, d.seeds[r.next], p);
    match CheckpointOwed(d, r)
    case None => Ok(drawn)
    case Some(k) =>
      var _ :- Need(k in d.checkpoints, CheckpointChallengesNotFound);
      Ok(drawn + KeysOf(d.checkpoints[k]))
  }

  /** `do_submit_proof`. */
  function Submit(c: Config, d: Dealer, p: ProviderId, view: View, proof: Proof): Outcome<Acceptance, Error> {
    var challenges :- ChallengesFor(c, d, p, view, proof);
    var verdict := proof.judge(challenges);
    var _ :- Need(verdict.Valid?, ProofRejected(verdict));
    var sameTick := if d.ticker in d.submitters then d.submitters[d.ticker] else {};
    var _ :- Need(p in sameTick || |sameTick| < c.maxSubmittersPerTick, TooManyValidProofSubmitters);
    Ok(Acceptance(Accept(c, d, p, view.stake.value), d.records[p].next, CheckpointOwed(d, d.records[p])))
  }

  /** The writes of an accepted proof: the record and the deadline move one period on, and the provider is listed among
      the submitters of this tick. */
  function Accept(c: Config, d: Dealer, p: ProviderId, stake: nat): Dealer
    requires p in d.records
  {
    var r := d.records[p];
    var r' := Record(r.next, r.next + Period(c, stake));
    var sameTick := if d.ticker in d.submitters then d.submitters[d.ticker] else {};
    d.(records := d.records[p := r'],
       deadlines := d.deadlines - {(Deadline(c, r), p)} + {(Deadline(c, r'), p)},
       submitters := d.submitters[d.ticker := sameTick + {p}])
  }

  lemma SubmitGuards(c: Config, d: Dealer, p: ProviderId, view: View, proof: Proof)
    ensures ChallengesFor(c, d, p, view, proof).Ok? ==> p in d.records && view.stake.Some?
    ensures Submit(c, d, p, view, proof).Ok? ==>
              && p in d.records && view.stake.Some?
              && d.records[p].next < d.ticker < Deadline(c, d.records[p])
    ensures Initialise(c, d, p, view).Ok? ==> view.stake.Some?
  {
  }

  /** The submitters listed under a tick. */
  function SubmittersAt(d: Dealer, t: Tick): set<ProviderId> {
    if t in d.submitters then d.submitters[t] else {}
  }

  /** Ticks that one run of the trimming hook forgets: those beyond the target, as far as the weight goes. */
  function ToTrim(d: Dealer, deleted: Tick, keep: nat, room: nat): nat {
    Min(room, SatSub(SatSub(d.ticker, deleted), keep))
  }

  /** `do_trim_valid_proof_submitters_last_ticks`: forget the submitters of the `n` ticks after the last one deleted. */
  function Trim(d: Dealer, deleted: Tick, n: nat): Dealer {
    d.(submitters := map t | t in d.submitters && !(deleted < t <= deleted + n) :: d.submitters[t])
  }

  // --- The round run at every unpaused block ----------------------------------------------------------

  /** The checkpoint round the sweep holds late providers to: read before the new round replaces it. */
  datatype Policy = Policy(lastCheckpoint: Tick, checkpointChallenges: nat)

  /** The stake the sweep uses; a provider the providers pallet does not know gets the fallback. */
  function SweepStake(c: Config, stakes: map<ProviderId, nat>, p: ProviderId): nat {
    if p in stakes then stakes[p] else c.stakeToChallengePeriod * c.checkpointPeriod
  }

  /** Challenges a late provider is charged for: its random ones, and the checkpoint ones it should have answered. */
  function Owed(c: Config, d: Dealer, pol: Policy, r: Record): nat {
    var answered := SatSub(d.ticker, c.tolerance);
    c.randomChallenges +
    (if pol.checkpointChallenges != 0 && r.lastProven < pol.lastCheckpoint <= answered
     then pol.checkpointChallenges else 0)
  }

  function Accrue(c: Config, d: Dealer, pol: Policy, accrued: nat, r: Record): nat {
    var owed := Owed(c, d, pol, r);
    SatAdd32(SatAdd32(accrued, owed - c.randomChallenges), c.randomChallenges)
  }

  /** The record of a drained provider; the current tick stands in for a missing one. */
  function RecordOf(d: Dealer, p: ProviderId): Record {
    if p in d.records then d.records[p] else Record(d.ticker, d.ticker)
  }

  /** Mark the provider of a drained entry slashable and push its deadline one period past the current tick. */
  function Mark(c: Config, d: Dealer, pol: Policy, stakes: map<ProviderId, nat>, e: Entry): Dealer {
    var p := e.1;
    var r := RecordOf(d, p);
    var accrued := if p in d.slashable then d.slashable[p] else 0;
    var deadline := d.ticker + Period(c, SweepStake(c, stakes, p));
    d.(deadlines := d.deadlines - {e} + {(deadline, p)},
       records := d.records[p := r.(next := SatSub(deadline, c.tolerance))],
       slashable := d.slashable[p := Accrue(c, d, pol, accrued, r)])
  }

  /** The providers still registered under a deadline tick. */
  function Under(d: Dealer, t: Tick): set<ProviderId> {
    set e | e in d.deadlines && e.0 == t :: e.1
  }

  ghost predicate IsLeast(s: set<nat>, m: nat) {
    m in s && forall x :: x in s ==> m <= x
  }

  ghost function Least(s: set<nat>): (m: nat)
    requires s != {}
    ensures m in s
    ensures forall x :: x in s ==> m <= x
  {
    LeastExists(s);
    var m :| IsLeast(s, m);
    m
  }

  lemma LeastExists(s: set<nat>)
    requires s != {}
    ensures exists m :: IsLeast(s, m)
  {
    var m := FindLeast(s);
  }

  lemma {:induction false} FindLeast(s: set<nat>) returns (m: nat)
    requires s != {}
    ensures IsLeast(s, m)
    decreases s
  {
    m :| m in s;
    var smaller := set x | x in s && x < m;
    if smaller != {} {
      var least := FindLeast(smaller);
      assert forall x :: x in s ==> x in smaller || m <= x;
      m := least;
    } else {
      assert forall x :: x in s && x < m ==> x in smaller;
    }
  }

  /** The sweep loop: mark the next provider under the pointer, or move the pointer when none is left, until the
      pointer passes the ticker or `budget` providers are marked. */
  ghost function Sweep(c: Config, d: Dealer, pol: Policy, stakes: map<ProviderId, nat>, budget: nat): Dealer
    decreases budget, d.ticker + 1 - d.toCheck
  {
    if d.toCheck > d.ticker || budget == 0 then d
    else if Under(d, d.toCheck) != {} then
      Sweep(c, Mark(c, d, pol, stakes, (d.toCheck, Least(Under(d, d.toCheck)))), pol, stakes, budget - 1)
    else
      Sweep(c, d.(toCheck := d.toCheck + 1), pol, stakes, budget)
  }

  /** `do_new_checkpoint_challenge_round`. */
  function NewCheckpoint(c: Config, d: Dealer): Dealer {
    d.(checkpoints := d.checkpoints[d.ticker := Dispatched(d.queues, c.maxCustomChallenges)] - {d.lastCheckpoint},
       queues := Leftover(d.queues, c.maxCustomChallenges),
       lastCheckpoint := d.ticker)
  }

  /** The round up to its sweep: advance the ticker, store its seed, drop the one that falls out of the history,
      and run a checkpoint round when it is time. */
  function OpenRound(c: Config, d: Dealer, seed: Seed): Dealer {
    var t := d.ticker + 1;
    var stored := d.seeds[t := seed];
    var kept := if t >= c.historyLength then stored - {t - c.historyLength} else stored;
    var advanced := d.(ticker := t, seeds := kept);
    if t == d.lastCheckpoint + c.checkpointPeriod then NewCheckpoint(c, advanced) else advanced
  }

  function PolicyOf(d: Dealer): Policy {
    Policy(d.lastCheckpoint, if d.lastCheckpoint in d.checkpoints then |d.checkpoints[d.lastCheckpoint]| else 0)
  }

  /** `do_new_challenges_round`. */
  ghost function NewRound(c: Config, d: Dealer, seed: Seed, stakes: map<ProviderId, nat>): Dealer {
    Sweep(c, OpenRound(c, d, seed), PolicyOf(d), stakes, c.maxSlashablePerTick)
  }

  // --- The invariant ----------------------------------------------------------------------------------

  /** Each initialised provider sits under exactly one deadline, `next + tolerance`; nothing else does. */
  ghost predicate DeadlinesMatchRecords(c: Config, d: Dealer) {
    && (forall e :: e in d.deadlines ==> e.1 in d.records && e.0 == Deadline(c, d.records[e.1]))
    && (forall p :: p in d.records ==> (Deadline(c, d.records[p]), p) in d.deadlines)
  }

  /** The sweep pointer is at most one tick ahead of the ticker and has left no entry behind. */
  ghost predicate PointerInStep(d: Dealer) {
    && d.toCheck <= d.ticker + 1
    && (forall e :: e in d.deadlines ==> e.0 >= d.toCheck)
  }

  ghost predicate RecordsInOrder(d: Dealer) {
    forall p :: p in d.records ==> d.records[p].lastProven < d.records[p].next && d.records[p].lastProven <= d.ticker
  }

  /** Seeds are kept for exactly the last `historyLength` ticks. */
  ghost predicate SeedsCoverHistory(c: Config, d: Dealer) {
    forall t :: t in d.seeds <==> 1 <= t <= d.ticker && t + c.historyLength > d.ticker
  }

  /** Checkpoint challenges are kept for the latest round only, which is the latest multiple of the period. */
  ghost predicate CheckpointsInStep(c: Config, d: Dealer) {
    && d.lastCheckpoint == CheckpointAt(c.checkpointPeriod, d.ticker)
    && d.checkpoints.Keys == {d.lastCheckpoint}
    && |d.queues.priority| <= c.queueLength
    && |d.queues.regular| <= c.queueLength
  }

  ghost predicate Inv(c: Config, d: Dealer) {
    && DeadlinesMatchRecords(c, d)
    && PointerInStep(d)
    && RecordsInOrder(d)
    && SeedsCoverHistory(c, d)
    && CheckpointsInStep(c, d)
  }

  lemma GenesisInv(c: Config, initial: seq<Challenge>)
    ensures Inv(c, Genesis(initial))
  {
  }

  lemma PeriodPositive(c: Config, stake: nat)
    requires ValidConfig(c)
    ensures Period(c, stake) >= 1
  {
  }

  /** The challenge period is the longest number of ticks the stake pays the ratio for, but no less than the minimum. */
  lemma PeriodExactly(c: Config, stake: nat)
    ensures Period(c, stake) >= c.minChallengePeriod
    ensures stake == 0 ==> Period(c, stake) == c.minChallengePeriod
    ensures stake > 0 ==> stake * (Period(c, stake) + 1) > c.stakeToChallengePeriod
    ensures stake > 0 && Period(c, stake) > c.minChallengePeriod ==> stake * Period(c, stake) <= c.stakeToChallengePeriod
  {
    if stake > 0 {
      var x, q := c.stakeToChallengePeriod, c.stakeToChallengePeriod / stake;
      assert x == stake * q + x % stake;
      assert stake * (q + 1) == stake * q + stake;
      MulMonotone(stake, q + 1, Period(c, stake) + 1);
    }
  }

  /** More stake never means a longer period, and no stake makes it shorter than the minimum. */
  lemma PeriodShrinksWithStake(c: Config, less: nat, more: nat)
    requires 0 < less <= more
    ensures c.minChallengePeriod <= Period(c, more) <= Period(c, less)
  {
    var x := c.stakeToChallengePeriod;
    var a, b := x / less, x / more;
    assert x == less * a + x % less && x == more * b + x % more;
    if a < b {
      MulMonotone(less, a + 1, b);
      MulMonotone(b, less, more);
    }
  }

  /** The fallback stake of a provider the providers pallet does not know gives it the shortest period there is. */
  lemma FallbackIsMinimum(c: Config, stakes: map<ProviderId, nat>, p: ProviderId)
    requires ValidConfig(c) && p !in stakes
    ensures Period(c, SweepStake(c, stakes, p)) == c.minChallengePeriod
  {
    var x, k := c.stakeToChallengePeriod, c.checkpointPeriod;
    if x * k != 0 {
      var q := x / (x * k);
      assert x == x * k * q + x % (x * k);
      MulMonotone(x, 1, k);
      if q > 1 {
        MulMonotone(x * k, 2, q);
      }
    }
  }

  lemma InitialiseInv(c: Config, d: Dealer, p: ProviderId, view: View)
    requires ValidConfig(c) && Inv(c, d)
    requires Initialise(c, d, p, view).Ok?
    ensures Inv(c, Initialise(c, d, p, view).value)
  {
    PeriodPositive(c, view.stake.value);
  }

  lemma StopInv(c: Config, d: Dealer, p: ProviderId, registered: bool)
    requires Inv(c, d)
    requires Stop(c, d, p, registered).Ok?
    ensures Inv(c, Stop(c, d, p, registered).value)
  {
  }

  lemma SubmitInv(c: Config, d: Dealer, p: ProviderId, view: View, proof: Proof)
    requires ValidConfig(c) && Inv(c, d)
    requires Submit(c, d, p, view, proof).Ok?
    ensures Inv(c, Submit(c, d, p, view, proof).value.dealer)
  {
    SubmitGuards(c, d, p, view, proof);
    assert Submit(c, d, p, view, proof).value.dealer == Accept(c, d, p, view.stake.value);
    hide Submit;
    AcceptInv(c, d, p, view.stake.value);
  }

  lemma AcceptInv(c: Config, d: Dealer, p: ProviderId, stake: nat)
    requires ValidConfig(c) && Inv(c, d)
    requires p in d.records && d.records[p].next < d.ticker < Deadline(c, d.records[p])
    ensures Inv(c, Accept(c, d, p, stake))
  {
    PeriodPositive(c, stake);
  }

  lemma CheckpointAtNext(period: nat, t: Tick)
    requires period > 0
    ensures CheckpointAt(period, t) <= t < CheckpointAt(period, t) + period
    ensures CheckpointAt(period, t + 1)
            == (if t + 1 == CheckpointAt(period, t) + period then t + 1 else CheckpointAt(period, t))
  {
    var q := t / period;
    var q' := (t + 1) / period;
    assert q * period <= t < q * period + period;
    assert q' * period <= t + 1 < q' * period + period;
    if t + 1 == q * period + period {
      assert t + 1 == (q + 1) * period;
      QuotientUnique(t + 1, period, q', q + 1);
    } else {
      QuotientUnique(t + 1, period, q', q);
    }
  }

  lemma QuotientUnique(x: nat, period: nat, a: nat, b: nat)
    requires period > 0
    requires a * period <= x < a * period + period
    requires b * period <= x < b * period + period
    ensures a == b
  {
    assert (a + 1) * period == a * period + period;
    assert (b + 1) * period == b * period + period;
    MulMonotone(period, a + 1, b);
    MulMonotone(period, b + 1, a);
  }

  lemma MulMonotone(period: nat, a: nat, b: nat)
    ensures a <= b ==> a * period <= b * period
  {
    if a <= b {
      assert b * period == a * period + (b - a) * period;
    }
  }

  lemma OpenRoundInv(c: Config, d: Dealer, seed: Seed)
    requires Inv(c, d)
    ensures Inv(c, OpenRound(c, d, seed))
    ensures OpenRound(c, d, seed).deadlines == d.deadlines
    ensures OpenRound(c, d, seed).records == d.records
    ensures OpenRound(c, d, seed).toCheck == d.toCheck
    ensures OpenRound(c, d, seed).slashable == d.slashable
    ensures OpenRound(c, d, seed).ticker == d.ticker + 1
  {
    OpenRoundSeeds(c, d, seed);
    OpenRoundCheckpoints(c, d, seed);
    hide SeedsCoverHistory, CheckpointsInStep;
  }

  lemma OpenRoundSeeds(c: Config, d: Dealer, seed: Seed)
    requires SeedsCoverHistory(c, d)
    ensures SeedsCoverHistory(c, OpenRound(c, d, seed))
  {
  }

  lemma OpenRoundCheckpoints(c: Config, d: Dealer, seed: Seed)
    requires CheckpointsInStep(c, d)
    ensures CheckpointsInStep(c, OpenRound(c, d, seed))
  {
    if c.checkpointPeriod > 0 {
      CheckpointAtNext(c.checkpointPeriod, d.ticker);
    }
    var o := OpenRound(c, d, seed);
    assert o.checkpoints.Keys == {o.lastCheckpoint};
  }

  lemma MarkInv(c: Config, d: Dealer, pol: Policy, stakes: map<ProviderId, nat>, e: Entry)
    requires ValidConfig(c) && Inv(c, d)
    requires e in d.deadlines && e.0 <= d.ticker
    ensures Inv(c, Mark(c, d, pol, stakes, e))
  {
    PeriodPositive(c, SweepStake(c, stakes, e.1));
  }

  lemma {:induction false} SweepInv(c: Config, d: Dealer, pol: Policy, stakes: map<ProviderId, nat>, budget: nat)
    requires ValidConfig(c) && Inv(c, d)
    ensures Inv(c, Sweep(c, d, pol, stakes, budget))
    decreases budget, d.ticker + 1 - d.toCheck
  {
    hide Mark, DeadlinesMatchRecords, RecordsInOrder, SeedsCoverHistory, CheckpointsInStep;
    if d.toCheck > d.ticker || budget == 0 {
    } else if Under(d, d.toCheck) != {} {
      var e := (d.toCheck, Least(Under(d, d.toCheck)));
      MarkInv(c, d, pol, stakes, e);
      SweepInv(c, Mark(c, d, pol, stakes, e), pol, stakes, budget - 1);
    } else {
      PointerInv(c, d);
      SweepInv(c, d.(toCheck := d.toCheck + 1), pol, stakes, budget);
    }
  }

  /** The pointer may leave a tick under which nobody is left. */
  lemma PointerInv(c: Config, d: Dealer)
    requires Inv(c, d) && d.toCheck <= d.ticker && Under(d, d.toCheck) == {}
    ensures Inv(c, d.(toCheck := d.toCheck + 1))
  {
    assert forall e :: e in d.deadlines && e.0 == d.toCheck ==> e.1 in Under(d, d.toCheck);
  }

  lemma NewRoundInv(c: Config, d: Dealer, seed: Seed, stakes: map<ProviderId, nat>)
    requires ValidConfig(c) && Inv(c, d)
    ensures Inv(c, NewRound(c, d, seed, stakes))
  {
    OpenRoundInv(c, d, seed);
    SweepInv(c, OpenRound(c, d, seed), PolicyOf(d), stakes, c.maxSlashablePerTick);
  }

  /** The sweep changes deadlines, records, accrued counts and its pointer only. */
  lemma {:induction false} SweepFrame(c: Config, d: Dealer, pol: Policy, stakes: map<ProviderId, nat>, budget: nat)
    ensures var d' := Sweep(c, d, pol, stakes, budget);
            d' == d.(deadlines := d'.deadlines, records := d'.records, slashable := d'.slashable, toCheck := d'.toCheck)
    decreases budget, d.ticker + 1 - d.toCheck
  {
    if d.toCheck > d.ticker || budget == 0 {
    } else if Under(d, d.toCheck) != {} {
      var e := (d.toCheck, Least(Under(d, d.toCheck)));
      SweepFrame(c, Mark(c, d, pol, stakes, e), pol, stakes, budget - 1);
    } else {
      SweepFrame(c, d.(toCheck := d.toCheck + 1), pol, stakes, budget);
    }
  }
}
