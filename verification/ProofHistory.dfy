/** Whole runs of the proofs dealer: the invariant in every reachable state, and the history of every provider's
    obligations, from the tick it is assigned to the proof, miss or cancellation that settles it. */
module ProofHistory {
  import opened Prelude
  import opened ChallengeQueues
  import opened ProofsDealer
  import opened SlashSweep

  datatype Step =
    | StartCycle(provider: ProviderId, view: View)
    | StopCycle(provider: ProviderId, registered: bool)
    | SubmitProof(provider: ProviderId, view: View, proof: Proof)
    | Poll(seed: Seed, stakes: map<ProviderId, nat>)
    | ChallengeKey(key: Key)
    | ChallengeWithPriority(challenge: Challenge)
    | ClearAccrued(provider: ProviderId)

  /** One step of the pallet. A dispatchable that fails changes nothing. */
  ghost function Apply(c: Config, d: Dealer, step: Step): Dealer {
    match step
    case StartCycle(p, view) => (match Initialise(c, d, p, view) case Ok(d') => d' case Err(_) => d)
    case StopCycle(p, registered) => (match Stop(c, d, p, registered) case Ok(d') => d' case Err(_) => d)
    case SubmitProof(p, view, proof) => (match Submit(c, d, p, view, proof) case Ok(a) => a.dealer case Err(_) => d)
    case Poll(seed, stakes) => NewRound(c, d, seed, stakes)
    case ChallengeKey(key) =>
      (match Enqueue(d.queues, c.queueLength, key) case Ok(q) => d.(queues := q) case Err(_) => d)
    case ChallengeWithPriority(ch) =>
      (match EnqueuePriority(d.queues, c.queueLength, ch) case Ok(q) => d.(queues := q) case Err(_) => d)
    case ClearAccrued(p) => d.(slashable := d.slashable - {p})
  }

  ghost function RunFrom(c: Config, d: Dealer, steps: seq<Step>): Dealer
    decreases |steps|
  {
    if steps == [] then d else Apply(c, RunFrom(c, d, steps[..|steps| - 1]), steps[|steps| - 1])
  }

  /** The state after a run from genesis. */
  ghost function Run(c: Config, initial: seq<Challenge>, steps: seq<Step>): Dealer {
    RunFrom(c, Genesis(initial), steps)
  }

  lemma ApplyInv(c: Config, d: Dealer, step: Step)
    requires ValidConfig(c) && Inv(c, d)
    ensures Inv(c, Apply(c, d, step))
  {
    match step
    case StartCycle(p, view) =>
      if Initialise(c, d, p, view).Ok? { InitialiseInv(c, d, p, view); }
    case StopCycle(p, registered) =>
      if Stop(c, d, p, registered).Ok? { StopInv(c, d, p, registered); }
    case SubmitProof(p, view, proof) =>
      if Submit(c, d, p, view, proof).Ok? { SubmitInv(c, d, p, view, proof); }
    case Poll(seed, stakes) =>
      NewRoundInv(c, d, seed, stakes);
    case ChallengeKey(key) =>
    case ChallengeWithPriority(ch) =>
    case ClearAccrued(p) =>
  }

  /** Every reachable state satisfies the invariant: each initialised provider sits under exactly one deadline,
      `next + tolerance`; the sweep pointer is at most one ahead of the ticker with nothing behind it; seeds cover
      exactly the history; the one stored checkpoint round is the latest. */
  lemma EveryRunKeepsInv(c: Config, initial: seq<Challenge>, steps: seq<Step>)
    requires ValidConfig(c)
    ensures Inv(c, Run(c, initial, steps))
  {
    GenesisInv(c, initial);
    RunFromInv(c, Genesis(initial), steps);
  }

  lemma {:induction false} RunFromInv(c: Config, d: Dealer, steps: seq<Step>)
    requires ValidConfig(c) && Inv(c, d)
    ensures Inv(c, RunFrom(c, d, steps))
    decreases |steps|
  {
    if steps != [] {
      var prefix := steps[..|steps| - 1];
      RunFromInv(c, d, prefix);
      ApplyInv(c, RunFrom(c, d, prefix), steps[|steps| - 1]);
    }
  }

  // --- Errors the pallet calls impossible -------------------------------------------------------------

  /** In every reachable state a proof never fails for want of a seed or of checkpoint challenges, whatever the
      history length; it is too late exactly when the sweep still owes the provider a mark. Too old can only
      be reported to a provider that is too late as well, as long as the history covers the tolerance. */
  lemma UnreachableErrors(c: Config, d: Dealer, p: ProviderId, view: View, proof: Proof)
    requires ValidConfig(c) && Inv(c, d)
    ensures ChallengesFor(c, d, p, view, proof) != Err(SeedNotFound)
    ensures ChallengesFor(c, d, p, view, proof) != Err(CheckpointChallengesNotFound)
    ensures ChallengesFor(c, d, p, view, proof) == Err(ChallengesTickTooLate) ==>
              p in d.records && (Deadline(c, d.records[p]), p) in Due(d) && d.toCheck <= d.ticker
    ensures c.historyLength >= c.tolerance && ChallengesFor(c, d, p, view, proof) == Err(ChallengesTickTooOld) ==>
              p in d.records && (Deadline(c, d.records[p]), p) in Due(d) && d.toCheck <= d.ticker
    ensures d.toCheck == d.ticker + 1 && c.historyLength >= c.tolerance ==>
              ChallengesFor(c, d, p, view, proof) != Err(ChallengesTickTooLate)
              && ChallengesFor(c, d, p, view, proof) != Err(ChallengesTickTooOld)
  {
    if p in d.records {
      assert (Deadline(c, d.records[p]), p) in d.deadlines;
    }
  }

  /** The window of an accepted proof for tick `n` is `n < ticker < n + tolerance`, cut short when the history is shorter
      than the tolerance: the tick itself is refused, so a tolerance of one admits no proof at all. For a provider in good
      standing the window is also sufficient. */
  lemma ProofWindow(c: Config, d: Dealer, p: ProviderId, view: View, proof: Proof)
    requires ValidConfig(c) && Inv(c, d)
    requires p in d.records && view.registered && view.root.ForestRoot? && proof.keyProofs > 0
    requires view.stake.Some? && view.stake.value > 0
    ensures ChallengesFor(c, d, p, view, proof).Ok? <==>
              d.records[p].next < d.ticker < d.records[p].next + Min(c.tolerance, c.historyLength)
  {
    UnreachableErrors(c, d, p, view, proof);
  }

  // --- History ----------------------------------------------------------------------------------------

  /** What happened to a provider. `Assigned` gives it a tick to prove; the other three settle that tick. */
  datatype Event =
    | Started(provider: ProviderId, at: Tick)
    | Assigned(provider: ProviderId, tick: Tick)
    | Proven(provider: ProviderId, tick: Tick, at: Tick, checkpoint: Option<Tick>)
    | Missed(provider: ProviderId, deadline: Tick, at: Tick, extra: nat)
    | Cancelled(provider: ProviderId, tick: Tick)
    | Cleared(provider: ProviderId)

  function Settle(d: Dealer, p: ProviderId): seq<Event> {
    if p in d.records then [Cancelled(p, d.records[p].next)] else []
  }

  /** The checkpoint challenges a miss costs on top of the random ones. */
  function Extra(c: Config, d: Dealer, pol: Policy, p: ProviderId): nat {
    Owed(c, d, pol, RecordOf(d, p)) - c.randomChallenges
  }

  /** A mark settles one deadline as missed and assigns the next tick. */
  function MarkEvents(c: Config, d: Dealer, pol: Policy, stakes: map<ProviderId, nat>, e: Entry): seq<Event> {
    [Missed(e.1, e.0, d.ticker, Extra(c, d, pol, e.1)),
     Assigned(e.1, SatSub(PushedDeadline(c, d, stakes, e.1), c.tolerance))]
  }

  function SweepEvents(c: Config, d: Dealer, pol: Policy, stakes: map<ProviderId, nat>, es: seq<Entry>): seq<Event>
    decreases |es|
  {
    if es == [] then []
    else MarkEvents(c, d, pol, stakes, es[0]) + SweepEvents(c, Mark(c, d, pol, stakes, es[0]), pol, stakes, es[1..])
  }

  ghost function Happened(c: Config, d: Dealer, step: Step): seq<Event> {
    match step
    case StartCycle(p, view) =>
      (match Initialise(c, d, p, view)
       case Ok(d') => Settle(d, p) + [Started(p, d.ticker), Assigned(p, d'.records[p].next)]
       case Err(_) => [])
    case StopCycle(p, registered) => if registered then Settle(d, p) else []
    case SubmitProof(p, view, proof) =>
      (match Submit(c, d, p, view, proof)
       case Ok(a) => [Proven(p, a.tick, d.ticker, a.checkpoint), Assigned(p, a.dealer.records[p].next)]
       case Err(_) => [])
    case Poll(seed, stakes) =>
      SweepEvents(c, OpenRound(c, d, seed), PolicyOf(d), stakes, MarkedInRound(c, d, seed))
    case ChallengeKey(_) => []
    case ChallengeWithPriority(_) => []
    case ClearAccrued(p) => [Cleared(p)]
  }

  ghost function History(c: Config, initial: seq<Challenge>, steps: seq<Step>): seq<Event>
    decreases |steps|
  {
    if steps == [] then []
    else
      var prefix := steps[..|steps| - 1];
      History(c, initial, prefix) + Happened(c, Run(c, initial, prefix), steps[|steps| - 1])
  }

  /** Where a provider stands after a history: nothing pending, one tick pending, or an event out of place. */
  datatype Standing = Free | Owes(tick: Tick) | Broken

  /** One event of `p`'s history. A proof must be for the pending tick and inside its window; a miss must be of the
      pending deadline and at a tick that has reached it; only the pending tick can be cancelled; a new tick is
      assigned only when none is pending. */
  function Advance(c: Config, s: Standing, ev: Event, p: ProviderId): Standing {
    if ev.provider != p then s
    else
      match ev
      case Started(_, _) => if s.Free? then s else Broken
      case Assigned(_, n) => if s.Free? then Owes(n) else Broken
      case Proven(_, n, at, _) => if s == Owes(n) && n < at < n + c.tolerance then Free else Broken
      case Missed(_, deadline, at, _) =>
        if s.Owes? && deadline == s.tick + c.tolerance && deadline <= at then Free else Broken
      case Cancelled(_, n) => if s == Owes(n) then Free else Broken
      case Cleared(_) => s
  }

  function Replay(c: Config, s: Standing, h: seq<Event>, p: ProviderId): Standing
    decreases |h|
  {
    if h == [] then s else Replay(c, Advance(c, s, h[0], p), h[1..], p)
  }

  lemma {:induction false} ReplayConcat(c: Config, s: Standing, g: seq<Event>, h: seq<Event>, p: ProviderId)
    ensures Replay(c, s, g + h, p) == Replay(c, Replay(c, s, g, p), h, p)
    decreases |g|
  {
    if g == [] {
      assert g + h == h;
    } else {
      assert (g + h)[1..] == g[1..] + h;
      ReplayConcat(c, Advance(c, s, g[0], p), g[1..], h, p);
    }
  }

  function StandingIn(d: Dealer, p: ProviderId): Standing {
    if p in d.records then Owes(d.records[p].next) else Free
  }

  lemma ReplayTwo(c: Config, s: Standing, a: Event, b: Event, p: ProviderId)
    ensures Replay(c, s, [a, b], p) == Advance(c, Advance(c, s, a, p), b, p)
  {
    assert [a, b][1..] == [b];
    assert Replay(c, Advance(c, s, a, p), [b], p) == Advance(c, Advance(c, s, a, p), b, p);
  }

  /** The sweep's events replay to the state it leaves. */
  lemma {:induction false} SweepReplays(c: Config, d: Dealer, pol: Policy, stakes: map<ProviderId, nat>,
                                        es: seq<Entry>, p: ProviderId)
    requires ValidConfig(c) && DistinctProviders(es)
    requires forall e :: e in es ==> e.1 in d.records && e.0 == Deadline(c, d.records[e.1]) && e.0 <= d.ticker
    ensures Replay(c, StandingIn(d, p), SweepEvents(c, d, pol, stakes, es), p)
            == StandingIn(MarkAll(c, d, pol, stakes, es), p)
    decreases |es|
  {
    if es != [] {
      var e := es[0];
      var m := Mark(c, d, pol, stakes, e);
      var events := MarkEvents(c, d, pol, stakes, e);
      assert e in es;
      ReplayTwo(c, StandingIn(d, p), events[0], events[1], p);
      assert Replay(c, StandingIn(d, p), events, p) == StandingIn(m, p);
      DistinctTail(es);
      forall x | x in es[1..]
        ensures x.1 in m.records && x.0 == Deadline(c, m.records[x.1]) && x.0 <= m.ticker
      {
        var i :| 0 <= i < |es[1..]| && es[1..][i] == x;
        assert es[i + 1] == x;
        assert es[0].1 != es[i + 1].1;
      }
      SweepReplays(c, m, pol, stakes, es[1..], p);
      ReplayConcat(c, StandingIn(d, p), events, SweepEvents(c, m, pol, stakes, es[1..]), p);
    }
  }

  lemma PollReplays(c: Config, d: Dealer, seed: Seed, stakes: map<ProviderId, nat>, p: ProviderId)
    requires ValidConfig(c) && Inv(c, d)
    ensures Replay(c, StandingIn(d, p), Happened(c, d, Poll(seed, stakes)), p)
            == StandingIn(NewRound(c, d, seed, stakes), p)
  {
    OpenRoundInv(c, d, seed);
    var open := OpenRound(c, d, seed);
    var pol := PolicyOf(d);
    var es := MarkedInRound(c, d, seed);
    SweepMarksFirstDue(c, open, pol, stakes, c.maxSlashablePerTick);
    FirstsDistinct(c, open, c.maxSlashablePerTick);
    forall e | e in es
      ensures e.1 in open.records && e.0 == Deadline(c, open.records[e.1]) && e.0 <= open.ticker
    {
      assert e in Due(open);
    }
    SweepReplays(c, open, pol, stakes, es, p);
  }

  lemma StepReplays(c: Config, d: Dealer, step: Step, p: ProviderId)
    requires ValidConfig(c) && Inv(c, d)
    ensures Replay(c, StandingIn(d, p), Happened(c, d, step), p) == StandingIn(Apply(c, d, step), p)
  {
    hide Inv;
    match step
    case StartCycle(q, view) => StartReplays(c, d, q, view, p);
    case StopCycle(q, registered) =>
    case SubmitProof(q, view, proof) => SubmitReplays(c, d, q, view, proof, p);
    case Poll(seed, stakes) => PollReplays(c, d, seed, stakes, p);
    case ChallengeKey(key) =>
    case ChallengeWithPriority(ch) =>
    case ClearAccrued(q) =>
  }

  lemma SubmitReplays(c: Config, d: Dealer, q: ProviderId, view: View, proof: Proof, p: ProviderId)
    ensures Replay(c, StandingIn(d, p), Happened(c, d, SubmitProof(q, view, proof)), p)
            == StandingIn(Apply(c, d, SubmitProof(q, view, proof)), p)
  {
    if Submit(c, d, q, view, proof).Ok? {
      var h := Happened(c, d, SubmitProof(q, view, proof));
      ReplayTwo(c, StandingIn(d, p), h[0], h[1], p);
    }
  }

  lemma StartReplays(c: Config, d: Dealer, q: ProviderId, view: View, p: ProviderId)
    ensures Replay(c, StandingIn(d, p), Happened(c, d, StartCycle(q, view)), p)
            == StandingIn(Apply(c, d, StartCycle(q, view)), p)
  {
    if Initialise(c, d, q, view).Ok? {
      var tail := [Started(q, d.ticker), Assigned(q, Initialise(c, d, q, view).value.records[q].next)];
      ReplayConcat(c, StandingIn(d, p), Settle(d, q), tail, p);
      ReplayTwo(c, Replay(c, StandingIn(d, p), Settle(d, q), p), tail[0], tail[1], p);
    }
  }

  /** Slashing is exact over whole runs. Replaying any provider's history never breaks: every tick it was assigned is
      settled exactly once before the next one is assigned, either by a proof accepted strictly inside
      `(n, n + tolerance)`, or by a mark at a tick that had reached `n + tolerance`, or by a cancellation. What is
      pending at the end is exactly its record. */
  lemma {:induction false} SlashingIsExact(c: Config, initial: seq<Challenge>, steps: seq<Step>, p: ProviderId)
    requires ValidConfig(c)
    ensures Replay(c, Free, History(c, initial, steps), p) == StandingIn(Run(c, initial, steps), p)
    decreases |steps|
  {
    if steps != [] {
      var prefix := steps[..|steps| - 1];
      var step := steps[|steps| - 1];
      SlashingIsExact(c, initial, prefix, p);
      EveryRunKeepsInv(c, initial, prefix);
      var d := Run(c, initial, prefix);
      StepReplays(c, d, step, p);
      ReplayConcat(c, Free, History(c, initial, prefix), Happened(c, d, step), p);
    }
  }

  // --- Accrued counts ---------------------------------------------------------------------------------

  /** The accrued count a history adds up to: each miss since the last clearing adds the random challenges and the
      checkpoint challenges owed, saturating at 32 bits. */
  function AccruedBy(c: Config, acc: Option<nat>, h: seq<Event>, p: ProviderId): Option<nat>
    decreases |h|
  {
    if h == [] then acc else AccruedBy(c, Accumulate(c, acc, h[0], p), h[1..], p)
  }

  function Accumulate(c: Config, acc: Option<nat>, ev: Event, p: ProviderId): Option<nat> {
    if ev.provider != p then acc
    else
      match ev
      case Missed(_, _, _, extra) =>
        Some(SatAdd32(SatAdd32(if acc.Some? then acc.value else 0, extra), c.randomChallenges))
      case Cleared(_) => None
      case _ => acc
  }

  lemma {:induction false} AccruedConcat(c: Config, acc: Option<nat>, g: seq<Event>, h: seq<Event>, p: ProviderId)
    ensures AccruedBy(c, acc, g + h, p) == AccruedBy(c, AccruedBy(c, acc, g, p), h, p)
    decreases |g|
  {
    if g == [] {
      assert g + h == h;
    } else {
      assert (g + h)[1..] == g[1..] + h;
      AccruedConcat(c, Accumulate(c, acc, g[0], p), g[1..], h, p);
    }
  }

  function AccruedIn(d: Dealer, p: ProviderId): Option<nat> {
    if p in d.slashable then Some(d.slashable[p]) else None
  }

  lemma {:induction false} SweepAccrues(c: Config, d: Dealer, pol: Policy, stakes: map<ProviderId, nat>,
                                        es: seq<Entry>, p: ProviderId)
    ensures AccruedBy(c, AccruedIn(d, p), SweepEvents(c, d, pol, stakes, es), p)
            == AccruedIn(MarkAll(c, d, pol, stakes, es), p)
    decreases |es|
  {
    if es != [] {
      var e := es[0];
      var m := Mark(c, d, pol, stakes, e);
      var events := MarkEvents(c, d, pol, stakes, e);
      assert events == [events[0]] + [events[1]];
      AccruedConcat(c, AccruedIn(d, p), [events[0]], [events[1]], p);
      assert AccruedBy(c, AccruedIn(d, p), events, p) == AccruedIn(m, p);
      SweepAccrues(c, m, pol, stakes, es[1..], p);
      AccruedConcat(c, AccruedIn(d, p), events, SweepEvents(c, m, pol, stakes, es[1..]), p);
    }
  }

  lemma StepAccrues(c: Config, d: Dealer, step: Step, p: ProviderId)
    requires ValidConfig(c) && Inv(c, d)
    ensures AccruedBy(c, AccruedIn(d, p), Happened(c, d, step), p) == AccruedIn(Apply(c, d, step), p)
  {
    match step
    case StartCycle(q, view) =>
      StartAccrues(c, d, q, view, p);
    case StopCycle(q, registered) =>
    case SubmitProof(q, view, proof) =>
      SubmitAccrues(c, d, q, view, proof, p);
    case Poll(seed, stakes) =>
      PollAccrues(c, d, seed, stakes, p);
    case ChallengeKey(key) =>
    case ChallengeWithPriority(ch) =>
    case ClearAccrued(q) =>
  }

  lemma StartAccrues(c: Config, d: Dealer, q: ProviderId, view: View, p: ProviderId)
    ensures AccruedBy(c, AccruedIn(d, p), Happened(c, d, StartCycle(q, view)), p)
            == AccruedIn(Apply(c, d, StartCycle(q, view)), p)
  {
    if Initialise(c, d, q, view).Ok? {
      QuietHistory(c, AccruedIn(d, p), Happened(c, d, StartCycle(q, view)), p);
    }
  }

  lemma SubmitAccrues(c: Config, d: Dealer, q: ProviderId, view: View, proof: Proof, p: ProviderId)
    ensures AccruedBy(c, AccruedIn(d, p), Happened(c, d, SubmitProof(q, view, proof)), p)
            == AccruedIn(Apply(c, d, SubmitProof(q, view, proof)), p)
  {
    if Submit(c, d, q, view, proof).Ok? {
      QuietHistory(c, AccruedIn(d, p), Happened(c, d, SubmitProof(q, view, proof)), p);
    }
  }

  lemma PollAccrues(c: Config, d: Dealer, seed: Seed, stakes: map<ProviderId, nat>, p: ProviderId)
    requires ValidConfig(c) && Inv(c, d)
    ensures AccruedBy(c, AccruedIn(d, p), Happened(c, d, Poll(seed, stakes)), p)
            == AccruedIn(Apply(c, d, Poll(seed, stakes)), p)
  {
    OpenRoundInv(c, d, seed);
    var open := OpenRound(c, d, seed);
    SweepMarksFirstDue(c, open, PolicyOf(d), stakes, c.maxSlashablePerTick);
    SweepAccrues(c, open, PolicyOf(d), stakes, MarkedInRound(c, d, seed), p);
  }

  lemma {:induction false} QuietHistory(c: Config, acc: Option<nat>, h: seq<Event>, p: ProviderId)
    requires forall i :: 0 <= i < |h| ==> !h[i].Missed? && !h[i].Cleared?
    ensures AccruedBy(c, acc, h, p) == acc
    decreases |h|
  {
    if h != [] {
      QuietHistory(c, acc, h[1..], p);
    }
  }

  /** The stored count of failed submissions is the sum over the misses in the history since it was last cleared. */
  lemma {:induction false} AccruedMatchesHistory(c: Config, initial: seq<Challenge>, steps: seq<Step>, p: ProviderId)
    requires ValidConfig(c)
    ensures AccruedBy(c, None, History(c, initial, steps), p) == AccruedIn(Run(c, initial, steps), p)
    decreases |steps|
  {
    if steps != [] {
      var prefix := steps[..|steps| - 1];
      var step := steps[|steps| - 1];
      AccruedMatchesHistory(c, initial, prefix, p);
      EveryRunKeepsInv(c, initial, prefix);
      StepAccrues(c, Run(c, initial, prefix), step, p);
      AccruedConcat(c, None, History(c, initial, prefix), Happened(c, Run(c, initial, prefix), step), p);
    }
  }

  // --- Prompt and late providers ----------------------------------------------------------------------

  /** At every poll of the run the provider's deadline, if it has one, is still ahead of the new tick. */
  ghost predicate Prompt(c: Config, initial: seq<Challenge>, steps: seq<Step>, p: ProviderId) {
    forall i :: 0 <= i < |steps| && steps[i].Poll? ==> InTime(c, Run(c, initial, steps[..i]), p)
  }

  /** The deadline of the provider, if it has one, is ahead of the next tick. */
  ghost predicate InTime(c: Config, d: Dealer, p: ProviderId) {
    p in d.records ==> Deadline(c, d.records[p]) > d.ticker + 1
  }

  ghost predicate NeverMissed(h: seq<Event>, p: ProviderId) {
    forall i :: 0 <= i < |h| ==> !(h[i].Missed? && h[i].provider == p)
  }

  lemma {:induction false} SweepEventsAreListed(c: Config, d: Dealer, pol: Policy, stakes: map<ProviderId, nat>,
      es: seq<Entry>, p: ProviderId)
    ensures NeverMissed(SweepEvents(c, d, pol, stakes, es), p) <==> !Listed(es, p)
    decreases |es|
  {
    if es != [] {
      ListedTail(es, p);
      var rest := SweepEvents(c, Mark(c, d, pol, stakes, es[0]), pol, stakes, es[1..]);
      SweepEventsAreListed(c, Mark(c, d, pol, stakes, es[0]), pol, stakes, es[1..], p);
      var all := SweepEvents(c, d, pol, stakes, es);
      assert all == MarkEvents(c, d, pol, stakes, es[0]) + rest;
      assert all[0].Missed? && all[0].provider == es[0].1;
      if !NeverMissed(rest, p) {
        var i :| 0 <= i < |rest| && rest[i].Missed? && rest[i].provider == p;
        assert all[i + 2] == rest[i];
      }
    }
  }

  /** A poll marks a provider exactly when its deadline is among the first `maxSlashablePerTick` overdue ones; with
      no more than that many overdue, exactly when its deadline has been reached. */
  lemma PollMissesExactly(c: Config, d: Dealer, seed: Seed, stakes: map<ProviderId, nat>, p: ProviderId)
    requires ValidConfig(c) && Inv(c, d)
    ensures NeverMissed(Happened(c, d, Poll(seed, stakes)), p) <==> !Listed(MarkedInRound(c, d, seed), p)
    ensures Listed(MarkedInRound(c, d, seed), p) ==>
              p in d.records && Deadline(c, d.records[p]) <= d.ticker + 1
    ensures |Due(OpenRound(c, d, seed))| <= c.maxSlashablePerTick ==>
              (Listed(MarkedInRound(c, d, seed), p) <==> p in d.records && Deadline(c, d.records[p]) <= d.ticker + 1)
  {
    OpenRoundInv(c, d, seed);
    var open := OpenRound(c, d, seed);
    var es := MarkedInRound(c, d, seed);
    SweepEventsAreListed(c, open, PolicyOf(d), stakes, es, p);
    if Listed(es, p) {
      var i :| 0 <= i < |es| && es[i].1 == p;
      assert es[i] in es && es[i] in Due(open);
    }
    if |Due(open)| <= c.maxSlashablePerTick && p in d.records && Deadline(c, d.records[p]) <= d.ticker + 1 {
      var e := (Deadline(c, d.records[p]), p);
      assert e in Due(open);
      FirstsOfAll(Due(open), c.maxSlashablePerTick, e);
      var i :| 0 <= i < |es| && es[i] == e;
      assert es[i].1 == p;
    }
  }

  lemma {:induction false} FirstsOfAll(s: set<Entry>, k: nat, e: Entry)
    requires |s| <= k && e in s
    ensures e in Firsts(s, k)
    decreases k
  {
    var f := FirstOf(s);
    if e != f {
      FirstsOfAll(s - {f}, k - 1, e);
    }
  }

  /** A provider that is never overdue at a poll is never marked, whatever the others do and however far the sweep
      lags: its history holds no miss. */
  lemma {:induction false} PromptProviderIsNeverMarked(c: Config, initial: seq<Challenge>, steps: seq<Step>,
      p: ProviderId)
    requires ValidConfig(c) && Prompt(c, initial, steps, p)
    ensures NeverMissed(History(c, initial, steps), p)
    decreases |steps|
  {
    if steps != [] {
      var n := |steps| - 1;
      var prefix := steps[..n];
      var d := Run(c, initial, prefix);
      PromptPrefix(c, initial, steps, p);
      assert History(c, initial, steps) == History(c, initial, prefix) + Happened(c, d, steps[n]);
      hide Run, History, Happened, Prompt, Inv;
      PromptProviderIsNeverMarked(c, initial, prefix, p);
      EveryRunKeepsInv(c, initial, prefix);
      PromptStep(c, d, steps[n], p);
    }
  }

  lemma PromptPrefix(c: Config, initial: seq<Challenge>, steps: seq<Step>, p: ProviderId)
    requires steps != [] && Prompt(c, initial, steps, p)
    ensures var n := |steps| - 1;
            && Prompt(c, initial, steps[..n], p)
            && (steps[n].Poll? ==> InTime(c, Run(c, initial, steps[..n]), p))
  {
    hide Run;
    var prefix := steps[..|steps| - 1];
    forall i | 0 <= i < |prefix| && prefix[i].Poll?
      ensures InTime(c, Run(c, initial, prefix[..i]), p)
    {
      assert prefix[..i] == steps[..i];
      assert steps[i].Poll?;
    }
  }

  lemma PromptStep(c: Config, d: Dealer, step: Step, p: ProviderId)
    requires ValidConfig(c) && Inv(c, d) && (step.Poll? ==> InTime(c, d, p))
    ensures NeverMissed(Happened(c, d, step), p)
  {
    if step.Poll? {
      PollMissesExactly(c, d, step.seed, step.stakes, p);
    }
  }

  // --- Catching up ------------------------------------------------------------------------------------

  /** Entries that fall due at the next tick. */
  function Arrivals(d: Dealer): set<Entry> {
    set e | e in d.deadlines && e.0 == d.ticker + 1
  }

  function Polls(steps: seq<Step>): nat
    decreases |steps|
  {
    if steps == [] then 0 else Polls(steps[..|steps| - 1]) + (if steps[|steps| - 1].Poll? then 1 else 0)
  }

  /** A poll clears `maxSlashablePerTick` of the backlog, after the new arrivals have joined it. */
  lemma PollBacklog(c: Config, d: Dealer, seed: Seed, stakes: map<ProviderId, nat>)
    requires ValidConfig(c) && Inv(c, d)
    ensures var d' := NewRound(c, d, seed, stakes);
            && |Due(d')| == SatSub(|Due(d)| + |Arrivals(d)|, c.maxSlashablePerTick)
            && (d'.toCheck == d'.ticker + 1 <==> |Due(d)| + |Arrivals(d)| < c.maxSlashablePerTick)
  {
    OpenRoundInv(c, d, seed);
    var open := OpenRound(c, d, seed);
    var k := c.maxSlashablePerTick;
    assert Due(open) == Due(d) + Arrivals(d);
    assert Due(d) !! Arrivals(d);
    RoundMarksExactly(c, d, seed, stakes, 0);
    SweepMarksFirstDue(c, open, PolicyOf(d), stakes, k);
    FirstsDistinct(c, open, k);
    MarkAllDue(c, open, PolicyOf(d), stakes, Firsts(Due(open), k));
  }

  lemma {:induction false} MarkAllDue(c: Config, d: Dealer, pol: Policy, stakes: map<ProviderId, nat>, es: seq<Entry>)
    requires ValidConfig(c) && DistinctProviders(es)
    requires forall e :: e in es ==> e in Due(d)
    ensures |Due(MarkAll(c, d, pol, stakes, es))| == |Due(d)| - |es|
    decreases |es|
  {
    if es != [] {
      assert es[0] in es;
      MarkShrinksDue(c, d, pol, stakes, es[0]);
      DistinctTail(es);
      forall e | e in es[1..]
        ensures e in Due(Mark(c, d, pol, stakes, es[0]))
      {
        assert e in es;
        var i :| 0 <= i < |es[1..]| && es[1..][i] == e;
        assert Listed(es[1..], e.1);
      }
      MarkAllDue(c, Mark(c, d, pol, stakes, es[0]), pol, stakes, es[1..]);
    }
  }

  /** Between polls the backlog never grows and the pointer stays. */
  lemma OtherStepsBacklog(c: Config, d: Dealer, step: Step)
    requires ValidConfig(c) && Inv(c, d) && !step.Poll?
    ensures var d' := Apply(c, d, step);
            && |Due(d')| <= |Due(d)|
            && d'.ticker == d.ticker && d'.toCheck == d.toCheck
  {
    var d' := Apply(c, d, step);
    match step {
      case StartCycle(p, view) =>
        StartDue(c, d, p, view);
      case StopCycle(p, registered) =>
        assert Due(d') <= Due(d);
      case SubmitProof(p, view, proof) =>
        if Submit(c, d, p, view, proof).Ok? { SubmitDue(c, d, p, view, proof); }
      case ChallengeKey(key) =>
        assert Due(d') <= Due(d);
      case ChallengeWithPriority(ch) =>
        assert Due(d') <= Due(d);
      case ClearAccrued(p) =>
        assert Due(d') <= Due(d);
      case Poll(_, _) =>
    }
    SubsetSize(Due(d'), Due(d));
  }

  lemma StartDue(c: Config, d: Dealer, p: ProviderId, view: View)
    requires ValidConfig(c)
    ensures Initialise(c, d, p, view).Ok? ==>
              var d' := Initialise(c, d, p, view).value;
              Due(d') <= Due(d) && d'.ticker == d.ticker && d'.toCheck == d.toCheck
  {
    if Initialise(c, d, p, view).Ok? {
      PeriodPositive(c, view.stake.value);
    }
  }

  lemma SubmitDue(c: Config, d: Dealer, p: ProviderId, view: View, proof: Proof)
    requires ValidConfig(c)
    requires Submit(c, d, p, view, proof).Ok?
    ensures var d' := Submit(c, d, p, view, proof).value.dealer;
            Due(d') <= Due(d) && d'.ticker == d.ticker && d'.toCheck == d.toCheck
  {
    PeriodPositive(c, view.stake.value);
  }

  lemma {:induction false} SubsetSize(a: set<Entry>, b: set<Entry>)
    requires a <= b
    ensures |a| <= |b|
    decreases |a|
  {
    if a != {} {
      var x :| x in a;
      SubsetSize(a - {x}, b - {x});
    }
  }

  /** Fewer than `maxSlashablePerTick` deadlines fall due at each poll of the run. */
  ghost predicate LightLoad(c: Config, d: Dealer, steps: seq<Step>) {
    forall i :: 0 <= i < |steps| && steps[i].Poll? ==>
      |Arrivals(RunFrom(c, d, steps[..i]))| < c.maxSlashablePerTick
  }

  /** `polls` polls have each taken at least one entry off a backlog of `backlog`; once it is gone the pointer is past
      the ticker. */
  ghost predicate CaughtUp(d: Dealer, backlog: nat, polls: nat) {
    && |Due(d)| <= SatSub(backlog, polls)
    && (polls > backlog ==> d.toCheck == d.ticker + 1 && Due(d) == {})
  }

  /** The sweep catches up: under a light load every poll takes at least one entry off the backlog, so one poll more
      than there were overdue entries brings the pointer past the ticker, and it stays there. */
  lemma {:induction false} SweepCatchesUp(c: Config, d: Dealer, steps: seq<Step>)
    requires ValidConfig(c) && Inv(c, d) && LightLoad(c, d, steps)
    ensures CaughtUp(RunFrom(c, d, steps), |Due(d)|, Polls(steps))
    decreases |steps|
  {
    if steps != [] {
      var n := |steps| - 1;
      var prefix := steps[..n];
      LightPrefix(c, d, steps);
      hide Apply, Due, Arrivals, Inv, LightLoad, CaughtUp;
      SweepCatchesUp(c, d, prefix);
      RunFromInv(c, d, prefix);
      CatchUpStep(c, RunFrom(c, d, prefix), steps[n], |Due(d)|, Polls(prefix));
    } else {
      NothingToCatchUp(d);
    }
  }

  lemma LightPrefix(c: Config, d: Dealer, steps: seq<Step>)
    requires steps != [] && LightLoad(c, d, steps)
    ensures var n := |steps| - 1;
            && LightLoad(c, d, steps[..n])
            && (steps[n].Poll? ==> |Arrivals(RunFrom(c, d, steps[..n]))| < c.maxSlashablePerTick)
  {
    hide RunFrom, Arrivals;
    var prefix := steps[..|steps| - 1];
    forall i | 0 <= i < |prefix| && prefix[i].Poll?
      ensures |Arrivals(RunFrom(c, d, prefix[..i]))| < c.maxSlashablePerTick
    {
      assert prefix[..i] == steps[..i];
      assert steps[i].Poll?;
    }
  }

  lemma NothingToCatchUp(d: Dealer)
    ensures CaughtUp(d, |Due(d)|, 0)
  {
  }

  lemma CatchUpStep(c: Config, d: Dealer, step: Step, backlog: nat, polls: nat)
    requires ValidConfig(c) && Inv(c, d) && CaughtUp(d, backlog, polls)
    requires step.Poll? ==> |Arrivals(d)| < c.maxSlashablePerTick
    ensures CaughtUp(Apply(c, d, step), backlog, if step.Poll? then polls + 1 else polls)
  {
    hide Inv, Due, Arrivals, Sweep;
    if step.Poll? {
      PollBacklog(c, d, step.seed, step.stakes);
    } else {
      OtherStepsBacklog(c, d, step);
    }
  }
}
