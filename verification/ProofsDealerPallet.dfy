/** The proofs dealer in the form the pallet has: storage items that the dispatchables and hooks update in place. Each
    method is proved against its function in `ProofsDealer`, so everything shown of those holds of the pallet. */
module ProofsDealerPallet {
  import opened Prelude
  import opened ChallengeQueues
  import opened ProofsDealer
  import opened SlashSweep

  lemma OpenRoundInPointer(c: Config, d: Dealer, seed: Seed)
    requires Inv(c, d)
    ensures PointerInStep(OpenRound(c, d, seed))
  {
    OpenRoundInv(c, d, seed);
  }

  /** One turn of the sweep loop. */
  lemma SweepStep(c: Config, d: Dealer, pol: Policy, stakes: map<ProviderId, nat>, budget: nat)
    ensures d.toCheck > d.ticker || budget == 0 ==> Sweep(c, d, pol, stakes, budget) == d
    ensures d.toCheck <= d.ticker && budget > 0 ==>
              Sweep(c, d, pol, stakes, budget)
              == if Under(d, d.toCheck) != {}
                 then Sweep(c, Mark(c, d, pol, stakes, (d.toCheck, Least(Under(d, d.toCheck)))), pol, stakes, budget - 1)
                 else Sweep(c, d.(toCheck := d.toCheck + 1), pol, stakes, budget)
  {
  }

  class Pallet {
    const config: Config

    var ticker: Tick
    var seeds: map<Tick, Seed>
    var checkpoints: map<Tick, seq<Challenge>>
    var lastCheckpoint: Tick
    var deadlines: set<Entry>
    var records: map<ProviderId, Record>
    var toCheck: Tick
    var slashable: map<ProviderId, nat>
    var submitters: map<Tick, set<ProviderId>>
    var queues: Queues
    var lastDeleted: Tick

    function State(): Dealer
      reads this
    {
      Dealer(ticker, seeds, checkpoints, lastCheckpoint, deadlines, records, toCheck, slashable, submitters, queues)
    }

    constructor (c: Config, initial: seq<Challenge>)
      ensures config == c
      ensures State() == Genesis(initial) && lastDeleted == 0
      ensures Inv(config, State())
    {
      config := c;
      ticker, lastCheckpoint, toCheck, lastDeleted := 0, 0, 0, 0;
      seeds, records, slashable, submitters := map[], map[], map[], map[];
      checkpoints, deadlines, queues := map[0 := initial], {}, NO_CHALLENGES;
      new;
      GenesisInv(c, initial);
    }

    method EnqueueChallenge(key: Key) returns (result: Outcome<(), QueueError>)
      modifies this`queues
      ensures var spec := Enqueue(old(queues), config.queueLength, key);
              && (result.Ok? <==> spec.Ok?)
              && queues == (if spec.Ok? then spec.value else old(queues))
              && (result.Err? ==> result.error == spec.error)
    {
      if key in queues.regular {
        return Ok(());
      }
      if |queues.regular| >= config.queueLength {
        return Err(ChallengesQueueOverflow);
      }
      queues := queues.(regular := queues.regular + [key]);
      result := Ok(());
    }

    method EnqueueChallengeWithPriority(ch: Challenge) returns (result: Outcome<(), QueueError>)
      modifies this`queues
      ensures var spec := EnqueuePriority(old(queues), config.queueLength, ch);
              && (result.Ok? <==> spec.Ok?)
              && queues == (if spec.Ok? then spec.value else old(queues))
              && (result.Err? ==> result.error == spec.error)
    {
      if ch in queues.priority {
        return Ok(());
      }
      if |queues.priority| >= config.queueLength {
        return Err(PriorityChallengesQueueOverflow);
      }
      queues := queues.(priority := queues.priority + [ch]);
      result := Ok(());
    }

    method InitialiseCycle(p: ProviderId, view: View) returns (result: Outcome<(), Error>)
      requires ValidConfig(config) && Inv(config, State())
      modifies this`records, this`deadlines
      ensures var spec := Initialise(config, old(State()), p, view);
              && (result.Ok? <==> spec.Ok?)
              && State() == (if spec.Ok? then spec.value else old(State()))
              && (result.Err? ==> result.error == spec.error)
      ensures Inv(config, State())
    {
      hide Inv, Period;
      if !view.registered { return Err(NotProvider); }
      if view.stake.None? { return Err(ProviderStakeNotFound); }
      var stake := view.stake.value;
      if stake == 0 { return Err(ZeroStake); }
      ghost var before := State();
      if p in records {
        deadlines := deadlines - {(records[p].next + config.tolerance, p)};
      }
      var next := ticker + Period(config, stake);
      records := records[p := Record(ticker, next)];
      deadlines := deadlines + {(next + config.tolerance, p)};
      result := Ok(());
      InitialiseInv(config, before, p, view);
    }

    method StopCycle(p: ProviderId, registered: bool) returns (result: Outcome<(), Error>)
      requires Inv(config, State())
      modifies this`records, this`deadlines
      ensures var spec := Stop(config, old(State()), p, registered);
              && (result.Ok? <==> spec.Ok?)
              && State() == (if spec.Ok? then spec.value else old(State()))
              && (result.Err? ==> result.error == spec.error)
      ensures Inv(config, State())
    {
      hide Inv;
      if !registered { return Err(NotProvider); }
      ghost var before := State();
      if p in records {
        var deadline := records[p].next + config.tolerance;
        records := records - {p};
        deadlines := deadlines - {(deadline, p)};
      }
      result := Ok(());
      StopInv(config, before, p, registered);
    }

    /** `do_submit_proof`: everything is checked before anything is written. */
    method SubmitProof(p: ProviderId, view: View, proof: Proof) returns (result: Outcome<(), Error>)
      requires ValidConfig(config) && Inv(config, State())
      modifies this`records, this`deadlines, this`submitters
      ensures var spec := Submit(config, old(State()), p, view, proof);
              && (result.Ok? <==> spec.Ok?)
              && State() == (if spec.Ok? then spec.value.dealer else old(State()))
              && (result.Err? ==> result.error == spec.error)
      ensures Inv(config, State())
    {
      SubmitGuards(config, State(), p, view, proof);
      hide Inv, Period, ChallengesFor, Accept;
      var challenges := ChallengesFor(config, State(), p, view, proof);
      if challenges.Err? { return Err(challenges.error); }
      var verdict := proof.judge(challenges.value);
      if !verdict.Valid? { return Err(ProofRejected(verdict)); }
      var sameTick := if ticker in submitters then submitters[ticker] else {};
      if p !in sameTick && |sameTick| >= config.maxSubmittersPerTick { return Err(TooManyValidProofSubmitters); }
      SubmitInv(config, State(), p, view, proof);
      RecordProof(p, view.stake.value);
      result := Ok(());
    }

    /** The writes of an accepted proof. */
    method RecordProof(p: ProviderId, stake: nat)
      requires p in records
      modifies this`records, this`deadlines, this`submitters
      ensures State() == Accept(config, old(State()), p, stake)
    {
      hide Period;
      var proven := records[p].next;
      var next := proven + Period(config, stake);
      deadlines := deadlines - {(proven + config.tolerance, p)};
      deadlines := deadlines + {(next + config.tolerance, p)};
      records := records[p := Record(proven, next)];
      var sameTick := if ticker in submitters then submitters[ticker] else {};
      submitters := submitters[ticker := sameTick + {p}];
    }

    /** `do_trim_valid_proof_submitters_last_ticks`. */
    method TrimSubmitters(keep: nat, room: nat)
      modifies this`submitters, this`lastDeleted
      ensures var n := ToTrim(old(State()), old(lastDeleted), keep, room);
              State() == Trim(old(State()), old(lastDeleted), n) && lastDeleted == old(lastDeleted) + n
    {
      var start := lastDeleted;
      var n := Min(room, SatSub(SatSub(ticker, start), keep));
      var tick := start + 1;
      while tick <= start + n
        invariant start + 1 <= tick <= start + n + 1 && lastDeleted == tick - 1
        invariant submitters.Keys == set t | t in old(submitters) && !(start < t < tick)
        invariant forall t :: t in submitters ==> submitters[t] == old(submitters)[t]
      {
        submitters := submitters - {tick};
        lastDeleted := tick;
        tick := tick + 1;
      }
      assert submitters == Trim(old(State()), start, n).submitters;
    }

    /** `do_new_checkpoint_challenge_round`. */
    method NewCheckpointRound()
      modifies this`checkpoints, this`queues, this`lastCheckpoint
      ensures State() == NewCheckpoint(config, old(State()))
    {
      var round, left := FillCheckpointRound(queues, config.maxCustomChallenges);
      queues := left;
      checkpoints := checkpoints[ticker := round];
      checkpoints := checkpoints - {lastCheckpoint};
      lastCheckpoint := ticker;
    }

    /** The next provider a drain of the entries under `t` yields. */
    method NextUnder(t: Tick) returns (found: Option<ProviderId>)
      ensures found.None? <==> Under(State(), t) == {}
      ensures found.Some? ==> found.value == Least(Under(State(), t))
    {
      var rest := deadlines;
      found := None;
      while rest != {}
        invariant rest <= deadlines
        invariant found.None? ==> forall e :: e in deadlines && e.0 == t ==> e in rest
        invariant found.Some? ==> (t, found.value) in deadlines
        invariant found.Some? ==> forall e :: e in deadlines && e.0 == t ==> e in rest || found.value <= e.1
        decreases rest
      {
        var e: Entry :| e in rest;
        if e.0 == t && (found.None? || e.1 < found.value) {
          found := Some(e.1);
        }
        rest := rest - {e};
      }
      ghost var under := Under(State(), t);
      if found.Some? {
        assert found.value in under;
      }
    }

    /** The accrued count of a late provider, after the challenges it missed are added. */
    method ChargeFailure(before: nat, record: Record, pol: Policy) returns (accrued: nat)
      ensures forall d: Dealer :: d.ticker == ticker ==> accrued == Accrue(config, d, pol, before, record)
    {
      accrued := before;
      if pol.checkpointChallenges != 0 && record.lastProven < pol.lastCheckpoint <= SatSub(ticker, config.tolerance) {
        accrued := SatAdd32(accrued, pol.checkpointChallenges);
      }
      accrued := SatAdd32(accrued, config.randomChallenges);
    }

    /** Mark one late provider. */
    method MarkSlashable(p: ProviderId, t: Tick, pol: Policy, stakes: map<ProviderId, nat>)
      modifies this`deadlines, this`records, this`slashable
      ensures State() == Mark(config, old(State()), pol, stakes, (t, p))
    {
      hide Period, SweepStake, Accrue, SatSub;
      deadlines := deadlines - {(t, p)};
      var record := if p in records then records[p] else Record(ticker, ticker);
      var accrued := ChargeFailure(if p in slashable then slashable[p] else 0, record, pol);
      slashable := slashable[p := accrued];
      var deadline := ticker + Period(config, SweepStake(config, stakes, p));
      deadlines := deadlines + {(deadline, p)};
      records := records[p := record.(next := SatSub(deadline, config.tolerance))];
    }

    /** One turn of the sweep: mark the next provider under the pointer, or move the pointer on. */
    method MarkNext(pol: Policy, stakes: map<ProviderId, nat>, ghost budget: nat) returns (marked: bool)
      requires toCheck <= ticker && budget > 0
      modifies this`deadlines, this`records, this`slashable, this`toCheck
      ensures marked ==> toCheck == old(toCheck)
      ensures !marked ==> toCheck == old(toCheck) + 1
      ensures Sweep(config, State(), pol, stakes, if marked then budget - 1 else budget)
              == Sweep(config, old(State()), pol, stakes, budget)
    {
      hide Mark, Sweep, Least, Under;
      SweepStep(config, State(), pol, stakes, budget);
      var next := NextUnder(toCheck);
      marked := next.Some?;
      if marked {
        MarkSlashable(next.value, toCheck, pol, stakes);
      } else {
        toCheck := toCheck + 1;
      }
    }

    /** The sweep loop. */
    method MarkUpTo(pol: Policy, stakes: map<ProviderId, nat>)
      modifies this`deadlines, this`records, this`slashable, this`toCheck
      ensures State() == Sweep(config, old(State()), pol, stakes, config.maxSlashablePerTick)
    {
      hide Sweep, Mark, Least, Under;
      ghost var swept := Sweep(config, State(), pol, stakes, config.maxSlashablePerTick);
      var count := 0;
      ghost var left := config.maxSlashablePerTick;
      while toCheck <= ticker && count < config.maxSlashablePerTick
        invariant count + left == config.maxSlashablePerTick
        invariant Sweep(config, State(), pol, stakes, left) == swept
        decreases left, ticker + 1 - toCheck
      {
        var marked := MarkNext(pol, stakes, left);
        if marked {
          count, left := count + 1, left - 1;
        }
      }
      SweepStep(config, State(), pol, stakes, left);
    }

    /** What the loop leaves is what sorting the overdue entries and marking the first `maxSlashablePerTick` of them
        would. */
    method SweepLateProviders(pol: Policy, stakes: map<ProviderId, nat>)
      requires ValidConfig(config) && PointerInStep(State())
      modifies this`deadlines, this`records, this`slashable, this`toCheck
      ensures State() == Sweep(config, old(State()), pol, stakes, config.maxSlashablePerTick)
      ensures State() == SimpleSweep(config, old(State()), pol, stakes, config.maxSlashablePerTick)
    {
      hide *;
      SweepMarksFirstDue(config, State(), pol, stakes, config.maxSlashablePerTick);
      MarkUpTo(pol, stakes);
    }

    /** The round up to its sweep. */
    method AdvanceTick(seed: Seed)
      modifies this`ticker, this`seeds, this`checkpoints, this`queues, this`lastCheckpoint
      ensures State() == OpenRound(config, old(State()), seed)
    {
      hide Dispatched, Leftover;
      ticker := ticker + 1;
      seeds := seeds[ticker := seed];
      if ticker >= config.historyLength {
        seeds := seeds - {ticker - config.historyLength};
      }
      if ticker == lastCheckpoint + config.checkpointPeriod {
        NewCheckpointRound();
      }
    }

    /** `do_new_challenges_round`. */
    method NewChallengesRound(seed: Seed, stakes: map<ProviderId, nat>)
      requires ValidConfig(config) && Inv(config, State())
      modifies this
      ensures State() == NewRound(config, old(State()), seed, stakes)
      ensures Inv(config, State())
    {
      NewRoundInv(config, State(), seed, stakes);
      OpenRoundInPointer(config, State(), seed);
      hide Inv, OpenRound, Sweep, SimpleSweep;
      var pol := PolicyOf(State());
      AdvanceTick(seed);
      SweepLateProviders(pol, stakes);
    }
  }
}
