/** The proofs dealer and the payment streams pallet in one chain. Both hooks run in every block that polls, the dealer's
    first; a proof accepted in one tick of the dealer lets its provider charge up to the payment tick in which the dealer
    left that tick. The submitters list that carries this is trimmed when a block has weight to spare. */
module ProofCredits {
  import opened Prelude
  import opened ChallengeQueues
  import D = ProofsDealer
  import H = ProofHistory
  import C = CheckpointCoverage
  import P = PaymentStreams
  import A = StreamAccounts
  import M = StreamMetering

  type Tick = nat
  type ProviderId = nat

  /** A provider proved in a tick of the dealer. */
  type Claim = (ProviderId, Tick)

  /** `keep` is the number of ticks whose submitters the dealer aims to keep. */
  datatype Config = Config(dealer: D.Config, payments: P.Config, keep: nat)

  /** The storage of the two pallets, and a log of what happened: how many polls found the dealer paused, the value of
      that count when each claim was last accepted and when the dealer left each tick, and the claims credited. */
  datatype Chain = Chain(
    dealer: D.Dealer,
    payments: P.State,
    deleted: Tick,
    stalls: nat,
    accepted: map<Claim, nat>,
    left: map<Tick, nat>,
    credited: multiset<Claim>)

  datatype Step =
    | Block(polled: bool, paused: bool, seed: D.Seed, stakes: map<ProviderId, nat>)
    | Idle(room: nat)
    | DealerCall(call: H.Step)
    | PaymentCall(payment: A.Step)

  /** The tick whose submitters the payment streams pallet handles when the dealer is at `ticker`. */
  function Handled(ticker: Tick): Tick {
    SatSub(ticker, 1)
  }

  function ClaimsOf(providers: set<ProviderId>, t: Tick): set<Claim> {
    set p | p in providers :: (p, t)
  }

  /** The hooks of a block that polls: the dealer's unless it is paused, then the one of the payment streams. */
  ghost function Polled(c: Config, ch: Chain, paused: bool, seed: D.Seed, stakes: map<ProviderId, nat>): Chain {
    var d := if paused then ch.dealer else D.NewRound(c.dealer, ch.dealer, seed, stakes);
    var who := D.SubmittersAt(d, Handled(d.ticker));
    ch.(dealer := d,
        payments := P.Poll(ch.payments, d.ticker, who),
        stalls := if paused then ch.stalls + 1 else ch.stalls,
        left := if paused then ch.left else ch.left[ch.dealer.ticker := ch.stalls],
        credited := if ch.payments.provenTick < Handled(d.ticker)
                    then ch.credited + multiset(ClaimsOf(who, Handled(d.ticker))) else ch.credited)
  }

  ghost predicate Accepts(c: Config, d: D.Dealer, call: H.Step) {
    call.SubmitProof? && D.Submit(c.dealer, d, call.provider, call.view, call.proof).Ok?
  }

  ghost function Called(c: Config, ch: Chain, call: H.Step): Chain
    requires !call.Poll?
  {
    ch.(dealer := H.Apply(c.dealer, ch.dealer, call),
        accepted := if Accepts(c, ch.dealer, call) then ch.accepted[(call.provider, ch.dealer.ticker) := ch.stalls]
                    else ch.accepted)
  }

  function Trimmed(c: Config, ch: Chain, room: nat): Chain {
    var n := D.ToTrim(ch.dealer, ch.deleted, c.keep, room);
    ch.(dealer := D.Trim(ch.dealer, ch.deleted, n), deleted := ch.deleted + n)
  }

  /** The hooks run in blocks only, so the calls are the dispatchables. */
  ghost function Apply(c: Config, ch: Chain, step: Step): Chain {
    match step
    case Block(polled, paused, seed, stakes) => if polled then Polled(c, ch, paused, seed, stakes) else ch
    case Idle(room) => Trimmed(c, ch, room)
    case DealerCall(call) => if call.Poll? then ch else Called(c, ch, call)
    case PaymentCall(call) => if call.Tick? then ch else ch.(payments := A.Apply(c.payments, ch.payments, call))
  }

  ghost function Run(c: Config, ch: Chain, steps: seq<Step>): Chain
    decreases |steps|
  {
    if steps == [] then ch else Apply(c, Run(c, ch, steps[..|steps| - 1]), steps[|steps| - 1])
  }

  /** Both pallets at genesis; people may own anything and streams may exist. */
  ghost predicate Fresh(ch: Chain) {
    && ch.dealer.ticker == 0 && ch.dealer.submitters == map[]
    && ch.payments.tick == 0 && ch.payments.provenTick == 0 && ch.payments.chargeable == map[]
    && ch.deleted == 0 && ch.stalls == 0 && ch.accepted == map[] && ch.left == map[] && ch.credited == multiset{}
  }

  // --- The invariant ----------------------------------------------------------------------------------

  /** The payment tick is ahead of the dealer's by exactly the polls the dealer was paused in. */
  ghost predicate ClocksInStep(ch: Chain) {
    && ch.payments.tick == ch.dealer.ticker + ch.stalls
    && ch.payments.provenTick == Handled(ch.dealer.ticker)
    && (forall t :: t in ch.dealer.submitters ==> t <= ch.dealer.ticker)
  }

  /** The submitters listed under the current tick are those with a proof accepted in it. */
  ghost predicate PendingListed(ch: Chain) {
    forall p :: p in D.SubmittersAt(ch.dealer, ch.dealer.ticker) <==> (p, ch.dealer.ticker) in ch.accepted
  }

  /** The log is in order: proofs of a tick are accepted after the tick before it was left and before it is itself. */
  ghost predicate LogInOrder(ch: Chain) {
    InOrder(ch.left, ch.accepted, ch.stalls, ch.dealer.ticker)
  }

  ghost predicate InOrder(left: map<Tick, nat>, accepted: map<Claim, nat>, stalls: nat, now: Tick) {
    && (forall t: Tick :: t in left <==> t < now)
    && (forall t :: t in left ==> left[t] <= stalls)
    && (forall x :: x in accepted ==> 1 <= x.1 <= now && accepted[x] <= stalls)
    && (forall x :: x in accepted && x.1 < now ==> accepted[x] <= left[x.1])
    && (forall x, t: Tick :: x in accepted && t in left && t < x.1 ==> left[t] <= accepted[x])
  }

  /** Every claim of an earlier tick has been credited exactly once, and nothing else has. */
  ghost predicate AllCredited(ch: Chain) {
    forall x: Claim :: ch.credited[x] == if x in ch.accepted && x.1 < ch.dealer.ticker then 1 else 0
  }

  /** `t` is the latest tick before `now` in which the provider had a proof accepted. */
  ghost predicate LatestBefore(accepted: map<Claim, nat>, p: ProviderId, t: Tick, now: Tick) {
    t < now && (p, t) in accepted && forall u: Tick :: t < u < now ==> (p, u) !in accepted
  }

  /** A provider is chargeable up to the payment tick in which the dealer left the tick of its latest credited proof. */
  ghost predicate ChargeableInStep(ch: Chain, p: ProviderId) {
    && (p in ch.payments.chargeable <==> exists t: Tick :: t < ch.dealer.ticker && (p, t) in ch.accepted)
    && (forall t: Tick :: LatestBefore(ch.accepted, p, t, ch.dealer.ticker) && t in ch.left ==>
          p in ch.payments.chargeable && ch.payments.chargeable[p].tick == t + ch.left[t])
  }

  ghost predicate Inv(ch: Chain) {
    && ClocksInStep(ch) && PendingListed(ch) && LogInOrder(ch) && AllCredited(ch)
    && forall p :: ChargeableInStep(ch, p)
  }

  lemma FreshInv(ch: Chain)
    requires Fresh(ch)
    ensures Inv(ch)
  {
  }

  // --- Steps that are not blocks ----------------------------------------------------------------------

  /** With a target of at least one tick, trimming never reaches the current one. */
  lemma TrimInv(c: Config, ch: Chain, room: nat)
    requires Inv(ch) && c.keep >= 1
    ensures Inv(Trimmed(c, ch, room))
  {
    var ch' := Trimmed(c, ch, room);
    assert D.SubmittersAt(ch'.dealer, ch.dealer.ticker) == D.SubmittersAt(ch.dealer, ch.dealer.ticker);
    hide AllCredited;
    assert AllCredited(ch') by { SameCredits(ch, ch'); }
    forall p
      ensures ChargeableInStep(ch', p)
    {
      SameCharges(ch, ch', p);
    }
  }

  lemma SameCredits(ch: Chain, ch': Chain)
    requires AllCredited(ch)
    requires ch'.credited == ch.credited && ch'.accepted == ch.accepted && ch'.dealer.ticker == ch.dealer.ticker
    ensures AllCredited(ch')
  {
  }

  lemma SameCharges(ch: Chain, ch': Chain, p: ProviderId)
    requires ChargeableInStep(ch, p)
    requires ch'.payments.chargeable == ch.payments.chargeable && ch'.left == ch.left
    requires ch'.accepted == ch.accepted && ch'.dealer.ticker == ch.dealer.ticker
    ensures ChargeableInStep(ch', p)
  {
  }

  lemma PaymentClock(c: P.Config, s: P.State, call: A.Step)
    requires !call.Tick?
    ensures var s' := A.Apply(c, s, call);
            s'.tick == s.tick && s'.chargeable == s.chargeable && s'.provenTick == s.provenTick
  {
    if !call.NewPrice? {
      M.StepMarker(c, s, call, P.StreamKey(0, 0, P.FixedRate));
    }
  }

  lemma PaymentCallInv(c: Config, ch: Chain, call: A.Step)
    requires Inv(ch) && !call.Tick?
    ensures Inv(Apply(c, ch, PaymentCall(call)))
  {
    PaymentClock(c.payments, ch.payments, call);
    var ch' := Apply(c, ch, PaymentCall(call));
    hide A.Apply, AllCredited, ClocksInStep, PendingListed, LogInOrder, ChargeableInStep;
    SameLog(ch, ch');
    SameCredits(ch, ch');
    forall p
      ensures ChargeableInStep(ch', p)
    {
      SameCharges(ch, ch', p);
    }
  }

  /** A call of the dealer leaves the submitters alone unless it is an accepted proof. */
  lemma DealerCallSubmitters(c: Config, d: D.Dealer, call: H.Step)
    requires !call.Poll?
    ensures var d' := H.Apply(c.dealer, d, call);
            && d'.ticker == d.ticker
            && (Accepts(c, d, call) ==>
                  && d.ticker >= 1
                  && d'.submitters == d.submitters[d.ticker := D.SubmittersAt(d, d.ticker) + {call.provider}])
            && (!Accepts(c, d, call) ==> d'.submitters == d.submitters)
  {
    if Accepts(c, d, call) {
      AcceptedSubmitters(c.dealer, d, call.provider, call.view, call.proof);
    }
    hide D.Submit, D.Accept, D.Period;
  }

  lemma AcceptedSubmitters(c: D.Config, d: D.Dealer, p: ProviderId, view: D.View, proof: D.Proof)
    requires D.Submit(c, d, p, view, proof).Ok?
    ensures var d' := D.Submit(c, d, p, view, proof).value.dealer;
            && d'.ticker == d.ticker >= 1
            && d'.submitters == d.submitters[d.ticker := D.SubmittersAt(d, d.ticker) + {p}]
  {
    D.SubmitGuards(c, d, p, view, proof);
    hide D.ChallengesFor, D.Period;
  }

  lemma DealerCallInv(c: Config, ch: Chain, call: H.Step)
    requires Inv(ch) && !call.Poll?
    ensures Inv(Called(c, ch, call))
  {
    var ch' := Called(c, ch, call);
    DealerCallLog(c, ch, call);
    hide Called, ClocksInStep, PendingListed, LogInOrder;
    forall p
      ensures ChargeableInStep(ch', p)
    {
      LaterProof(ch, ch', p);
    }
  }

  lemma DealerCallLog(c: Config, ch: Chain, call: H.Step)
    requires ClocksInStep(ch) && PendingListed(ch) && LogInOrder(ch) && !call.Poll?
    ensures var ch' := Called(c, ch, call);
            && ClocksInStep(ch') && PendingListed(ch') && LogInOrder(ch')
            && ch'.payments == ch.payments && ch'.left == ch.left && ch'.credited == ch.credited
            && ch'.dealer.ticker == ch.dealer.ticker
            && forall x: Claim :: x.1 < ch.dealer.ticker ==> (x in ch'.accepted <==> x in ch.accepted)
  {
    DealerCallSubmitters(c, ch.dealer, call);
    hide H.Apply, Accepts, ClocksInStep, PendingListed, LogInOrder, D.SubmittersAt;
    var ch' := Called(c, ch, call);
    if Accepts(c, ch.dealer, call) {
      NewClaimInOrder(ch, ch', call.provider);
      NewClaimListed(ch, ch', call.provider);
    } else {
      SameLog(ch, ch');
    }
  }

  /** The call that takes `ch` to `ch'` accepted a proof. */
  ghost predicate NewClaim(ch: Chain, ch': Chain, p: ProviderId) {
    var t := ch.dealer.ticker;
    && t >= 1 && ch'.dealer.ticker == t && ch'.stalls == ch.stalls && ch'.left == ch.left
    && ch'.accepted == ch.accepted[(p, t) := ch.stalls]
    && ch'.dealer.submitters == ch.dealer.submitters[t := D.SubmittersAt(ch.dealer, t) + {p}]
  }

  lemma NewClaimInOrder(ch: Chain, ch': Chain, p: ProviderId)
    requires LogInOrder(ch) && NewClaim(ch, ch', p)
    ensures LogInOrder(ch')
  {
  }

  lemma NewClaimListed(ch: Chain, ch': Chain, p: ProviderId)
    requires ClocksInStep(ch) && PendingListed(ch) && NewClaim(ch, ch', p) && ch'.payments == ch.payments
    ensures ClocksInStep(ch') && PendingListed(ch')
  {
  }

  lemma SameLog(ch: Chain, ch': Chain)
    requires ClocksInStep(ch) && PendingListed(ch) && LogInOrder(ch)
    requires ch'.dealer.ticker == ch.dealer.ticker && ch'.dealer.submitters == ch.dealer.submitters
    requires ch'.payments.tick == ch.payments.tick && ch'.payments.provenTick == ch.payments.provenTick
    requires ch'.accepted == ch.accepted && ch'.left == ch.left && ch'.stalls == ch.stalls
    ensures ClocksInStep(ch') && PendingListed(ch') && LogInOrder(ch')
  {
  }

  /** A proof accepted in the current tick changes nobody's chargeable tick yet. */
  lemma LaterProof(ch: Chain, ch': Chain, p: ProviderId)
    requires ChargeableInStep(ch, p)
    requires ch'.payments == ch.payments && ch'.left == ch.left && ch'.dealer.ticker == ch.dealer.ticker
    requires forall x: Claim :: x.1 < ch.dealer.ticker ==> (x in ch'.accepted <==> x in ch.accepted)
    ensures ChargeableInStep(ch', p)
  {
    var now := ch.dealer.ticker;
    forall t: Tick | LatestBefore(ch'.accepted, p, t, now)
      ensures LatestBefore(ch.accepted, p, t, now)
    {
      forall u: Tick | t < u < now
        ensures (p, u) !in ch.accepted
      {
        assert (p, u) !in ch'.accepted;
      }
    }
    if t: Tick :| t < now && (p, t) in ch'.accepted {
      assert (p, t) in ch.accepted;
    }
    if t: Tick :| t < now && (p, t) in ch.accepted {
      assert (p, t) in ch'.accepted;
    }
  }

  // --- Blocks -----------------------------------------------------------------------------------------

  lemma RoundSubmitters(c: D.Config, d: D.Dealer, seed: D.Seed, stakes: map<ProviderId, nat>)
    ensures D.NewRound(c, d, seed, stakes).submitters == d.submitters
    ensures D.NewRound(c, d, seed, stakes).ticker == d.ticker + 1
  {
    D.SweepFrame(c, D.OpenRound(c, d, seed), D.PolicyOf(d), stakes, c.maxSlashablePerTick);
  }

  /** A poll that finds the dealer paused only moves the payment tick: its tick was handled when the dealer reached it. */
  lemma StalledInv(c: Config, ch: Chain, seed: D.Seed, stakes: map<ProviderId, nat>)
    requires Inv(ch)
    ensures Inv(Polled(c, ch, true, seed, stakes))
    ensures Polled(c, ch, true, seed, stakes).payments.chargeable == ch.payments.chargeable
  {
    var ch' := Polled(c, ch, true, seed, stakes);
    hide AllCredited;
    SameCredits(ch, ch');
    forall p
      ensures ChargeableInStep(ch', p)
    {
      SameCharges(ch, ch', p);
    }
  }

  /** `ch'` is `ch` after a poll that moved the dealer on from its tick: the claims of that tick are credited, and their
      providers become chargeable up to the payment tick this poll ends. */
  ghost predicate MovedOn(ch: Chain, ch': Chain) {
    var t := ch.dealer.ticker;
    var who := D.SubmittersAt(ch.dealer, t);
    && ch'.dealer.ticker == t + 1 && ch'.dealer.submitters == ch.dealer.submitters && ch'.deleted == ch.deleted
    && ch'.payments.tick == ch.payments.tick + 1 && ch'.payments.provenTick == t
    && ch'.left == ch.left[t := ch.stalls] && ch'.accepted == ch.accepted && ch'.stalls == ch.stalls
    && (if t >= 1 then
          && ch'.credited == ch.credited + multiset(ClaimsOf(who, t))
          && ch'.payments.chargeable
             == P.Proven(ch.payments.chargeable, who, P.Chargeable(ch.payments.tick, ch.payments.index))
        else
          ch'.credited == ch.credited && ch'.payments.chargeable == ch.payments.chargeable)
  }

  lemma PollMovesOn(c: Config, ch: Chain, seed: D.Seed, stakes: map<ProviderId, nat>)
    requires ClocksInStep(ch)
    ensures MovedOn(ch, Polled(c, ch, false, seed, stakes))
  {
    RoundSubmitters(c.dealer, ch.dealer, seed, stakes);
    hide D.NewRound, P.Proven;
  }

  lemma MovedOnInv(ch: Chain, ch': Chain)
    requires Inv(ch) && MovedOn(ch, ch')
    ensures Inv(ch')
  {
    MovedOnLog(ch, ch');
    MovedOnCredits(ch, ch');
    forall p
      ensures ChargeableInStep(ch', p)
    {
      assert ChargeableInStep(ch, p);
      MovedOnCharges(ch, ch', p);
    }
    hide ClocksInStep, AllCredited, LogInOrder, PendingListed, MovedOn;
  }

  lemma MovedOnLog(ch: Chain, ch': Chain)
    requires ClocksInStep(ch) && PendingListed(ch) && LogInOrder(ch) && MovedOn(ch, ch')
    ensures ClocksInStep(ch') && PendingListed(ch') && LogInOrder(ch')
  {
    hide P.Proven, ClaimsOf;
    LeftInOrder(ch, ch');
    assert forall x :: x in ch.accepted ==> x.1 <= ch.dealer.ticker;
    hide LogInOrder;
  }

  lemma LeftInOrder(ch: Chain, ch': Chain)
    requires LogInOrder(ch)
    requires ch'.dealer.ticker == ch.dealer.ticker + 1 && ch'.left == ch.left[ch.dealer.ticker := ch.stalls]
    requires ch'.accepted == ch.accepted && ch'.stalls == ch.stalls
    ensures LogInOrder(ch')
  {
    LeaveInOrder(ch.left, ch.accepted, ch.stalls, ch.dealer.ticker);
  }

  lemma LeaveInOrder(left: map<Tick, nat>, accepted: map<Claim, nat>, stalls: nat, now: Tick)
    requires InOrder(left, accepted, stalls, now)
    ensures InOrder(left[now := stalls], accepted, stalls, now + 1)
  {
  }

  lemma MovedOnCredits(ch: Chain, ch': Chain)
    requires PendingListed(ch) && LogInOrder(ch) && AllCredited(ch) && MovedOn(ch, ch')
    ensures AllCredited(ch')
  {
    hide P.Proven;
    var t := ch.dealer.ticker;
    var claims := ClaimsOf(D.SubmittersAt(ch.dealer, t), t);
    forall x: Claim
      ensures ch'.credited[x] == if x in ch'.accepted && x.1 < ch'.dealer.ticker then 1 else 0
    {
      assert x in claims <==> x.1 == t && x.0 in D.SubmittersAt(ch.dealer, t);
      assert multiset(claims)[x] == if x in claims then 1 else 0;
      assert x.1 == t ==> x == (x.0, t);
    }
  }

  lemma MovedOnCharges(ch: Chain, ch': Chain, p: ProviderId)
    requires ClocksInStep(ch) && PendingListed(ch) && LogInOrder(ch) && ChargeableInStep(ch, p) && MovedOn(ch, ch')
    ensures ChargeableInStep(ch', p)
  {
    var now := ch.dealer.ticker;
    hide D.SubmittersAt, LogInOrder, PendingListed, ChargeableInStep, ClaimsOf;
    ClaimsNow(ch, p);
    if (p, now) in ch.accepted {
      ProvedJustNow(ch', p, now);
    } else {
      NothingProved(ch, ch', p);
    }
  }

  lemma ClaimsNow(ch: Chain, p: ProviderId)
    requires PendingListed(ch) && LogInOrder(ch)
    ensures var now := ch.dealer.ticker;
            && (p in D.SubmittersAt(ch.dealer, now) <==> (p, now) in ch.accepted)
            && ((p, now) in ch.accepted ==> now >= 1)
  {
  }

  lemma ProvedJustNow(ch: Chain, p: ProviderId, t: Tick)
    requires ch.dealer.ticker == t + 1 && (p, t) in ch.accepted && t in ch.left
    requires p in ch.payments.chargeable && ch.payments.chargeable[p].tick == t + ch.left[t]
    ensures ChargeableInStep(ch, p)
  {
  }

  lemma NothingProved(ch: Chain, ch': Chain, p: ProviderId)
    requires ChargeableInStep(ch, p) && ch'.accepted == ch.accepted && (p, ch.dealer.ticker) !in ch.accepted
    requires ch'.dealer.ticker == ch.dealer.ticker + 1
    requires ch'.left.Keys == ch.left.Keys + {ch.dealer.ticker}
    requires forall t :: t in ch.left && t != ch.dealer.ticker ==> ch'.left[t] == ch.left[t]
    requires p in ch'.payments.chargeable <==> p in ch.payments.chargeable
    requires p in ch.payments.chargeable ==> ch'.payments.chargeable[p] == ch.payments.chargeable[p]
    ensures ChargeableInStep(ch', p)
  {
    var now := ch.dealer.ticker;
    forall t: Tick | LatestBefore(ch.accepted, p, t, now + 1)
      ensures LatestBefore(ch.accepted, p, t, now)
    {
    }
    assert forall t: Tick :: (p, t) in ch.accepted ==> (t < now + 1 <==> t < now);
  }

  // --- Runs -------------------------------------------------------------------------------------------

  lemma ApplyInv(c: Config, ch: Chain, step: Step)
    requires Inv(ch) && (c.keep >= 1 || !step.Idle?)
    ensures Inv(Apply(c, ch, step))
  {
    hide Inv, Polled, Called, Trimmed, MovedOn;
    match step
    case Block(polled, paused, seed, stakes) =>
      if polled && paused {
        StalledInv(c, ch, seed, stakes);
      } else if polled {
        assert ClocksInStep(ch) by { InvClocks(ch); }
        PollMovesOn(c, ch, seed, stakes);
        MovedOnInv(ch, Polled(c, ch, false, seed, stakes));
      }
    case Idle(room) => TrimInv(c, ch, room);
    case DealerCall(call) => if !call.Poll? { DealerCallInv(c, ch, call); }
    case PaymentCall(call) => if !call.Tick? { PaymentCallInv(c, ch, call); }
  }

  lemma InvClocks(ch: Chain)
    requires Inv(ch)
    ensures ClocksInStep(ch)
  {
  }

  lemma {:induction false} RunInv(c: Config, ch: Chain, steps: seq<Step>)
    requires Inv(ch)
    requires c.keep >= 1 || forall i :: 0 <= i < |steps| ==> !steps[i].Idle?
    ensures Inv(Run(c, ch, steps))
    decreases |steps|
  {
    hide Inv, Apply;
    if steps != [] {
      var prefix := steps[..|steps| - 1];
      RunInv(c, ch, prefix);
      ApplyInv(c, Run(c, ch, prefix), steps[|steps| - 1]);
    }
  }

  /** Every accepted proof is credited exactly once, in every run: as soon as the dealer has left its tick, and not
      before. Nothing else is ever credited. */
  lemma CreditedExactlyOnce(c: Config, ch: Chain, steps: seq<Step>, x: Claim)
    requires Fresh(ch) && c.keep >= 1
    ensures var r := Run(c, ch, steps);
            r.credited[x] == if x in r.accepted && x.1 < r.dealer.ticker then 1 else 0
  {
    FreshInv(ch);
    RunInv(c, ch, steps);
    hide Run;
  }

  // --- How far a provider may charge ------------------------------------------------------------------

  lemma {:induction false} FindLatest(accepted: map<Claim, nat>, p: ProviderId, t: Tick, now: Tick) returns (last: Tick)
    requires t < now && (p, t) in accepted
    ensures LatestBefore(accepted, p, last, now)
    decreases now
  {
    if (p, now - 1) in accepted {
      last := now - 1;
    } else {
      last := FindLatest(accepted, p, t, now - 1);
    }
  }

  /** `t` is the tick of the provider's last accepted proof. */
  ghost predicate LastProof(r: Chain, p: ProviderId, t: Tick) {
    (p, t) in r.accepted && forall u: Tick :: u > t ==> (p, u) !in r.accepted
  }

  /** The payment tick of the block in which the provider's proof of tick `t` was accepted. */
  function AcceptedIn(r: Chain, p: ProviderId, t: Tick): Tick
    requires (p, t) in r.accepted
  {
    t + r.accepted[(p, t)]
  }

  /** That is what the log stores: an accepted proof is dated with the payment tick it is accepted in. */
  lemma AcceptedNow(c: Config, ch: Chain, call: H.Step)
    requires Inv(ch) && !call.Poll? && Accepts(c, ch.dealer, call)
    ensures var r := Called(c, ch, call);
            && (call.provider, ch.dealer.ticker) in r.accepted
            && AcceptedIn(r, call.provider, ch.dealer.ticker) == ch.payments.tick
  {
    hide Accepts, H.Apply;
  }

  /** A provider without privileges may charge up to the payment tick in which the dealer left the tick of its last
      credited proof. That lies beyond the block of the proof exactly when the dealer was paused in some poll between the
      proof and the next tick: then the time it stood still is charged as well. */
  lemma ChargeableExactly(c: Config, ch: Chain, steps: seq<Step>, env: P.Env, p: ProviderId, t: Tick)
    requires Fresh(ch) && c.keep >= 1 && p !in env.privileged
    requires LastProof(Run(c, ch, steps), p, t)
    ensures var r := Run(c, ch, steps);
            var upTo := P.ChargeableUpTo(env, r.payments, p).tick;
            && t <= r.dealer.ticker && (t < r.dealer.ticker ==> t in r.left && upTo == t + r.left[t])
            && (upTo > AcceptedIn(r, p, t) <==> t < r.dealer.ticker && r.left[t] > r.accepted[(p, t)])
            && (r.stalls == 0 ==> r.payments.tick == r.dealer.ticker && upTo <= t)
  {
    FreshInv(ch);
    RunInv(c, ch, steps);
    UpToLastProof(Run(c, ch, steps), env, p, t);
  }

  lemma UpToLastProof(r: Chain, env: P.Env, p: ProviderId, t: Tick)
    requires Inv(r) && p !in env.privileged && LastProof(r, p, t)
    ensures var upTo := P.ChargeableUpTo(env, r.payments, p).tick;
            && t <= r.dealer.ticker && (t < r.dealer.ticker ==> t in r.left && upTo == t + r.left[t])
            && (upTo > AcceptedIn(r, p, t) <==> t < r.dealer.ticker && r.left[t] > r.accepted[(p, t)])
            && (r.stalls == 0 ==> r.payments.tick == r.dealer.ticker && upTo <= t)
  {
    var now := r.dealer.ticker;
    assert ChargeableInStep(r, p);
    if t < now {
      assert LatestBefore(r.accepted, p, t, now);
    } else if u: Tick :| u < now && (p, u) in r.accepted {
      var last := FindLatest(r.accepted, p, u, now);
      assert last in r.left && last < t;
    }
  }

  // --- Polls without the dealer -----------------------------------------------------------------------

  const MOVE := Block(true, false, 0, map[])
  const STALL := Block(true, true, 0, map[])

  function Times(step: Step, n: nat): seq<Step> {
    if n == 0 then [] else Times(step, n - 1) + [step]
  }

  lemma RunSnoc(c: Config, ch: Chain, steps: seq<Step>, step: Step)
    ensures Run(c, ch, steps + [step]) == Apply(c, Run(c, ch, steps), step)
  {
    assert (steps + [step])[..|steps|] == steps;
  }

  lemma {:induction false} Stalls(c: Config, ch: Chain, steps: seq<Step>, k: nat)
    requires Inv(Run(c, ch, steps))
    ensures var r, r' := Run(c, ch, steps), Run(c, ch, steps + Times(STALL, k));
            && Inv(r') && r'.dealer == r.dealer && r'.stalls == r.stalls + k && r'.accepted == r.accepted
    decreases k
  {
    hide Run, Inv;
    if k == 0 {
      assert steps + [] == steps;
    } else {
      Stalls(c, ch, steps, k - 1);
      var before := steps + Times(STALL, k - 1);
      assert steps + Times(STALL, k) == before + [STALL];
      RunSnoc(c, ch, before, STALL);
      StalledInv(c, Run(c, ch, before), 0, map[]);
    }
  }

  /** After an accepted proof, `k` polls in which the dealer is paused move the provider's chargeable tick `k` beyond the
      block of its proof. */
  lemma StallsAreCharged(c: Config, ch: Chain, steps: seq<Step>, p: ProviderId, k: nat)
    requires Inv(Run(c, ch, steps))
    requires (p, Run(c, ch, steps).dealer.ticker) in Run(c, ch, steps).accepted
    ensures var r, r' := Run(c, ch, steps), Run(c, ch, steps + Times(STALL, k) + [MOVE]);
            p in r'.payments.chargeable && r'.payments.chargeable[p].tick == r.payments.tick + k
  {
    var r := Run(c, ch, steps);
    InvClocks(r);
    Stalls(c, ch, steps, k);
    var stalled := steps + Times(STALL, k);
    RunSnoc(c, ch, stalled, MOVE);
    var s := Run(c, ch, stalled);
    hide Run;
    InvClocks(s);
    PollMovesOn(c, s, 0, map[]);
    assert p in D.SubmittersAt(s.dealer, s.dealer.ticker) && s.dealer.ticker >= 1;
  }

  // --- A provider with a proof ------------------------------------------------------------------------

  /** Configurations under which a proof can be accepted at all. */
  ghost predicate Usable(c: D.Config) {
    D.ValidConfig(c) && c.tolerance >= 2 && c.historyLength >= 2 && c.maxSubmittersPerTick > 0
  }

  /** The first tick in which a provider that starts at genesis with a stake of one can prove. */
  function FirstChance(c: D.Config): Tick {
    D.Period(c, 1) + 1
  }

  /** A provider starts at genesis and proves at its first chance. */
  function ProvingRun(c: D.Config): seq<Step> {
    [DealerCall(H.StartCycle(0, C.GoodView(1)))] + Times(MOVE, FirstChance(c))
    + [DealerCall(H.SubmitProof(0, C.GoodView(1), C.PERFECT_PROOF))]
  }

  lemma DealerMove(c: Config, ch: Chain)
    ensures var r := Apply(c, ch, MOVE);
            && r.dealer == H.Apply(c.dealer, ch.dealer, H.Poll(0, map[]))
            && r.stalls == ch.stalls && r.deleted == ch.deleted && r.accepted == ch.accepted
  {
  }

  /** Without pauses the dealer of the chain is the dealer on its own. */
  lemma {:induction false} DealerMoves(c: Config, ch: Chain, initial: seq<Challenge>, steps: seq<Step>,
                                       calls: seq<H.Step>, n: nat)
    requires Run(c, ch, steps).dealer == H.Run(c.dealer, initial, calls)
    ensures var r, r' := Run(c, ch, steps), Run(c, ch, steps + Times(MOVE, n));
            && r'.dealer == H.Run(c.dealer, initial, calls + C.Ticks(n))
            && r'.stalls == r.stalls && r'.deleted == r.deleted && r'.accepted == r.accepted
    decreases n
  {
    hide Run, H.Run, Apply, H.Apply, H.History, H.Happened;
    if n == 0 {
      assert steps + [] == steps && calls + [] == calls;
    } else {
      DealerMoves(c, ch, initial, steps, calls, n - 1);
      var before := steps + Times(MOVE, n - 1);
      assert steps + Times(MOVE, n) == before + [MOVE];
      RunSnoc(c, ch, before, MOVE);
      DealerMove(c, Run(c, ch, before));
      var past := calls + C.Ticks(n - 1);
      assert calls + C.Ticks(n) == past + [H.Poll(0, map[])];
      C.RunSnoc(c.dealer, initial, past, H.Poll(0, map[]));
    }
  }

  /** Just before the proof: the provider's deadline is still ahead. */
  lemma BeforeProof(c: Config, ch: Chain, initial: seq<Challenge>)
    requires Fresh(ch) && ch.dealer == D.Genesis(initial) && Usable(c.dealer)
    ensures var r := Run(c, ch, [DealerCall(H.StartCycle(0, C.GoodView(1)))] + Times(MOVE, FirstChance(c.dealer)));
            && r.dealer.ticker == FirstChance(c.dealer) && r.dealer.submitters == map[]
            && r.dealer.records == map[0 := D.Record(0, D.Period(c.dealer, 1))]
            && r.stalls == 0 && r.deleted == 0 && D.Inv(c.dealer, r.dealer)
  {
    var start := H.StartCycle(0, C.GoodView(1));
    var n := FirstChance(c.dealer);
    C.NothingRun(c.dealer, initial);
    C.RunSnoc(c.dealer, initial, [], start);
    C.FirstStart(c.dealer, ch.dealer, 1);
    assert [] + [start] == [start];
    assert Run(c, ch, []) == ch;
    RunSnoc(c, ch, [], DealerCall(start));
    assert [] + [DealerCall(start)] == [DealerCall(start)];
    hide Run, H.RunFrom, H.Apply, D.Period;
    DealerMoves(c, ch, initial, [DealerCall(start)], [start], n);
    C.QuietTicks(c.dealer, initial, [start], n);
    H.EveryRunKeepsInv(c.dealer, initial, [start] + C.Ticks(n));
  }

  /** In every usable configuration the proof is accepted. */
  lemma ProofIsAccepted(c: Config, ch: Chain, initial: seq<Challenge>)
    requires Fresh(ch) && ch.dealer == D.Genesis(initial) && Usable(c.dealer)
    ensures var r := Run(c, ch, ProvingRun(c.dealer));
            && Inv(r) && r.dealer.ticker == FirstChance(c.dealer) && r.stalls == 0 && r.deleted == 0
            && (0, FirstChance(c.dealer)) in r.accepted
  {
    var n := FirstChance(c.dealer);
    var before := [DealerCall(H.StartCycle(0, C.GoodView(1)))] + Times(MOVE, n);
    var prove := H.SubmitProof(0, C.GoodView(1), C.PERFECT_PROOF);
    BeforeProof(c, ch, initial);
    var r := Run(c, ch, before);
    RunSnoc(c, ch, before, DealerCall(prove));
    FreshInv(ch);
    NeverIdle(c.dealer);
    hide Run, Accepts, Inv, H.Apply;
    RunInv(c, ch, ProvingRun(c.dealer));
    AcceptsFirst(c, r.dealer);
    DealerCallSubmitters(c, r.dealer, prove);
  }

  lemma AcceptsFirst(c: Config, d: D.Dealer)
    requires Usable(c.dealer) && D.Inv(c.dealer, d)
    requires d.ticker == FirstChance(c.dealer) && d.submitters == map[]
    requires d.records == map[0 := D.Record(0, D.Period(c.dealer, 1))]
    ensures Accepts(c, d, H.SubmitProof(0, C.GoodView(1), C.PERFECT_PROOF))
  {
    D.PeriodPositive(c.dealer, 1);
    H.ProofWindow(c.dealer, d, 0, C.GoodView(1), C.PERFECT_PROOF);
    hide D.Inv, D.ChallengesFor, D.Period;
  }

  lemma NeverIdle(c: D.Config)
    ensures forall i :: 0 <= i < |ProvingRun(c)| ==> !ProvingRun(c)[i].Idle?
  {
    MovesOnly(FirstChance(c));
  }

  lemma {:induction false} MovesOnly(n: nat)
    ensures forall i :: 0 <= i < |Times(MOVE, n)| ==> Times(MOVE, n)[i] == MOVE
  {
    if n > 0 {
      MovesOnly(n - 1);
    }
  }

  /** So the chargeable tick can pass the block after the last accepted proof: two paused polls are enough. */
  lemma PassesItsProof(c: Config, ch: Chain, initial: seq<Challenge>)
    requires Fresh(ch) && ch.dealer == D.Genesis(initial) && Usable(c.dealer)
    ensures var n := FirstChance(c.dealer);
            var r := Run(c, ch, ProvingRun(c.dealer) + Times(STALL, 2) + [MOVE]);
            0 in r.payments.chargeable && r.payments.chargeable[0].tick == n + 2
  {
    ProofIsAccepted(c, ch, initial);
    InvClocks(Run(c, ch, ProvingRun(c.dealer)));
    StallsAreCharged(c, ch, ProvingRun(c.dealer), 0, 2);
  }

  // --- Trimming ---------------------------------------------------------------------------------------

  /** Trimming drops the pending claims of the current tick exactly when no tick is to be kept and the weight reaches as
      far as the current one. */
  lemma TrimDropsPendingExactly(c: Config, ch: Chain, room: nat, p: ProviderId)
    requires p in D.SubmittersAt(ch.dealer, ch.dealer.ticker)
    ensures var t := ch.dealer.ticker;
            p !in D.SubmittersAt(Trimmed(c, ch, room).dealer, t) <==>
              c.keep == 0 && ch.deleted < t <= ch.deleted + room
  {
  }

  /** Every accepted proof is credited, in every run, exactly when the submitters of at least one tick are kept. */
  lemma CreditNeedsKeeping(c: Config, ch: Chain, initial: seq<Challenge>)
    requires Fresh(ch) && ch.dealer == D.Genesis(initial) && Usable(c.dealer)
    ensures (forall steps: seq<Step> :: AllCredited(Run(c, ch, steps))) <==> c.keep >= 1
  {
    if c.keep >= 1 {
      forall steps: seq<Step> { KeptIsCredited(c, ch, steps); }
    } else {
      LostCredit(c, ch, initial);
      hide *;
      Uncredited(Run(c, ch, ProvingRun(c.dealer) + [Idle(FirstChance(c.dealer))] + [MOVE]), (0, FirstChance(c.dealer)));
    }
  }

  lemma KeptIsCredited(c: Config, ch: Chain, steps: seq<Step>)
    requires Fresh(ch) && c.keep >= 1
    ensures AllCredited(Run(c, ch, steps))
  {
    hide Run, Fresh;
    forall x: Claim { CreditedExactlyOnce(c, ch, steps, x); }
  }

  lemma Uncredited(ch: Chain, x: Claim)
    requires x in ch.accepted && x.1 < ch.dealer.ticker && ch.credited[x] == 0
    ensures !AllCredited(ch)
  {
  }

  lemma LostCredit(c: Config, ch: Chain, initial: seq<Challenge>)
    requires Fresh(ch) && ch.dealer == D.Genesis(initial) && Usable(c.dealer) && c.keep == 0
    ensures var n := FirstChance(c.dealer);
            var r := Run(c, ch, ProvingRun(c.dealer) + [Idle(n)] + [MOVE]);
            (0, n) in r.accepted && n < r.dealer.ticker && r.credited[(0, n)] == 0
  {
    var n := FirstChance(c.dealer);
    var steps := ProvingRun(c.dealer);
    ProofIsAccepted(c, ch, initial);
    RunSnoc(c, ch, steps, Idle(n));
    RunSnoc(c, ch, steps + [Idle(n)], MOVE);
    var r := Run(c, ch, steps);
    hide Run, ProvingRun, FirstChance;
    var s := Trimmed(c, r, n);
    assert ClocksInStep(s);
    PollMovesOn(c, s, 0, map[]);
    assert D.SubmittersAt(s.dealer, n) == {};
    assert ClaimsOf({}, n) == {};
  }
}
