/** The grace a user has before insolvency: a stream that cannot be paid is only liquidated a full `newStreamDeposit`
    ticks after it was first found unpaid, which is the service its deposit was computed for. */
module Grace {
  import opened Prelude
  import opened Balances
  import opened PaymentStreams
  import opened StreamAccounts

  /** The deposit is the base deposit plus exactly what `newStreamDeposit` ticks at the current price would be billed in one
      charge. */
  lemma DepositCoversGrace(c: Config, s: State, kind: Kind, rate: nat)
    requires DepositFor(c, s, kind, rate).Some?
    ensures var passed := if kind.FixedRate? then c.newStreamDeposit else s.price * c.newStreamDeposit;
            Metered(kind, rate, passed) == Some(DepositFor(c, s, kind, rate).value - c.baseDeposit)
  {
    if kind.DynamicRate? {
      assert s.price * rate * c.newStreamDeposit == rate * (s.price * c.newStreamDeposit) by {
        Regroup(s.price, rate, c.newStreamDeposit);
      }
    }
  }

  lemma Regroup(a: nat, b: nat, d: nat)
    ensures a * b * d == b * (a * d)
  {
    assert a * b == b * a;
    assert b * a * d == b * (a * d);
  }

  /** The user is not flagged, and none of its streams was found unpaid before tick `since`. */
  ghost predicate InGrace(s: State, u: Account, since: Tick) {
    && u !in s.flagged
    && forall k :: k in s.streams && k.user == u && s.streams[k].outOfFunds.Some? ==> s.streams[k].outOfFunds.value >= since
  }

  /** The grace has not run out yet. */
  ghost predicate Early(c: Config, s: State, since: Tick) {
    since <= s.tick < since + c.newStreamDeposit
  }

  lemma EnactGrace(c: Config, env: Env, s: State, key: StreamKey, e: Effect, u: Account, since: Tick)
    requires key in s.streams && Enact(c, env, s, key, e).Ok? && InGrace(s, u, since) && since <= s.tick
    requires e.Liquidates? ==> key.user != u
    ensures var s' := Enact(c, env, s, key, e).value;
            InGrace(s', u, since) && s'.tick == s.tick
  {
    hide PayFrom, Release;
  }

  lemma ChargeStreamGrace(c: Config, env: Env, s: State, key: StreamKey, already: nat, u: Account, since: Tick)
    requires ChargeStream(c, env, s, key, already).Ok? && InGrace(s, u, since) && Early(c, s, since)
    ensures var s' := ChargeStream(c, env, s, key, already).value.state;
            InGrace(s', u, since) && s'.tick == s.tick
  {
    if key in s.streams {
      NoEarlyLiquidation(c, env, s, key, already, u, since);
      hide Enact, Decide;
      EnactGrace(c, env, s, key, Decide(c, env, s, key, already).value, u, since);
    }
  }

  lemma NoEarlyLiquidation(c: Config, env: Env, s: State, key: StreamKey, already: nat, u: Account, since: Tick)
    requires key in s.streams && Decide(c, env, s, key, already).Ok? && InGrace(s, u, since) && Early(c, s, since)
    ensures key.user == u ==> !Decide(c, env, s, key, already).value.Liquidates?
  {
    hide Metered;
  }

  lemma ChargeGrace(c: Config, env: Env, s: State, p: ProviderId, v: Account, u: Account, since: Tick)
    requires Charge(c, env, s, p, v).Ok? && InGrace(s, u, since) && Early(c, s, since)
    ensures var s' := Charge(c, env, s, p, v).value.state;
            InGrace(s', u, since) && s'.tick == s.tick
  {
    hide ChargeStream, InGrace;
    var first := ChargeStream(c, env, s, StreamKey(p, v, FixedRate), 0).value;
    ChargeStreamGrace(c, env, s, StreamKey(p, v, FixedRate), 0, u, since);
    ChargeStreamGrace(c, env, first.state, StreamKey(p, v, DynamicRate), first.amount, u, since);
  }

  lemma {:induction false} ChargeAllGrace(c: Config, env: Env, s: State, p: ProviderId, users: seq<Account>,
                                          u: Account, since: Tick)
    requires ChargeAll(c, env, s, p, users).Ok? && InGrace(s, u, since) && Early(c, s, since)
    ensures var s' := ChargeAll(c, env, s, p, users).value;
            InGrace(s', u, since) && s'.tick == s.tick
    decreases |users|
  {
    hide Charge, InGrace;
    if users != [] {
      ChargeGrace(c, env, s, p, users[0], u, since);
      ChargeAllGrace(c, env, Charge(c, env, s, p, users[0]).value.state, p, users[1..], u, since);
    }
  }

  lemma UpdateGrace(c: Config, env: Env, s: State, key: StreamKey, rate: nat, u: Account, since: Tick)
    requires Update(c, env, s, key, rate).Ok? && InGrace(s, u, since) && Early(c, s, since)
    ensures var s' := Update(c, env, s, key, rate).value;
            InGrace(s', u, since) && s'.tick == s.tick
  {
    hide Charge, DepositFor, AdjustDeposit;
    ChargeGrace(c, env, s, key.provider, key.user, u, since);
  }

  lemma DeleteGrace(c: Config, env: Env, s: State, key: StreamKey, u: Account, since: Tick)
    requires Delete(c, env, s, key).Ok? && InGrace(s, u, since) && Early(c, s, since)
    ensures var s' := Delete(c, env, s, key).value;
            InGrace(s', u, since) && s'.tick == s.tick
  {
    hide Charge, Release;
    if key.provider !in env.insolvent {
      ChargeGrace(c, env, s, key.provider, key.user, u, since);
    }
  }

  /** Paying another user's debts leaves this user's streams alone. */
  lemma {:induction false} PayProvidersGrace(c: Config, env: Env, w: Paying, v: Account, ps: seq<ProviderId>,
                                             u: Account, since: Tick)
    requires PayProviders(c, env, w, v, ps).Ok? && InGrace(w.state, u, since)
    ensures var s' := PayProviders(c, env, w, v, ps).value.state;
            InGrace(s', u, since) && s'.tick == w.state.tick
    decreases |ps|
  {
    if ps != [] {
      PayStreamGrace(c, env, w, StreamKey(ps[0], v, FixedRate), u, since);
      var w1 := PayStream(c, env, w, StreamKey(ps[0], v, FixedRate)).value;
      PayStreamGrace(c, env, w1, StreamKey(ps[0], v, DynamicRate), u, since);
      hide PayStream, InGrace;
      PayProvidersGrace(c, env, PayProvider(c, env, w, v, ps[0]).value, v, ps[1..], u, since);
    }
  }

  lemma PayStreamGrace(c: Config, env: Env, w: Paying, key: StreamKey, u: Account, since: Tick)
    requires PayStream(c, env, w, key).Ok? && InGrace(w.state, u, since)
    ensures var s' := PayStream(c, env, w, key).value.state;
            InGrace(s', u, since) && s'.tick == w.state.tick
  {
    hide DecideLiquidation, PayFrom;
  }

  lemma PayDebtGrace(c: Config, env: Env, s: State, v: Account, ps: seq<ProviderId>, u: Account, since: Tick)
    requires PayDebt(c, env, s, v, ps).Ok? && InGrace(s, u, since)
    ensures var s' := PayDebt(c, env, s, v, ps).value.state;
            InGrace(s', u, since) && s'.tick == s.tick
  {
    hide PayProviders;
    PayProvidersGrace(c, env, StartPaying(s, v), v, ps, u, since);
  }

  lemma ApplyGrace(c: Config, s: State, step: Step, u: Account, since: Tick)
    requires InGrace(s, u, since) && Early(c, s, since)
    ensures var s' := Apply(c, s, step);
            InGrace(s', u, since) && s'.tick == if step.Tick? then s.tick + 1 else s.tick
  {
    hide Update, Delete, ChargeAll, PayDebt, DepositFor, Transfer;
    match step
    case Tick(_, _) =>
    case NewPrice(_) =>
    case Spend(_, _, _) =>
    case Open(_, _, _) =>
    case Change(env, key, rate) =>
      if Update(c, env, s, key, rate).Ok? { UpdateGrace(c, env, s, key, rate, u, since); }
    case Close(env, key) =>
      if Delete(c, env, s, key).Ok? { DeleteGrace(c, env, s, key, u, since); }
    case ChargeUsers(env, p, users) =>
      if ChargeAll(c, env, s, p, users).Ok? { ChargeAllGrace(c, env, s, p, users, u, since); }
    case PayDebts(env, v, ps) =>
      if PayDebt(c, env, s, v, ps).Ok? { PayDebtGrace(c, env, s, v, ps, u, since); }
    case Clear(_) =>
  }

  function TicksIn(steps: seq<Step>): nat
    decreases |steps|
  {
    if steps == [] then 0 else (if steps[0].Tick? then 1 else 0) + TicksIn(steps[1..])
  }

  /** Over every run: a user none of whose streams was found unpaid before tick `since` is not flagged, as any liquidation
      would, until `newStreamDeposit` ticks after `since`, however often it is charged and whatever it can pay. */
  lemma {:induction false} NoInsolvencyWithinGrace(c: Config, s: State, steps: seq<Step>, u: Account, since: Tick)
    requires InGrace(s, u, since) && since <= s.tick && s.tick + TicksIn(steps) < since + c.newStreamDeposit
    ensures InGrace(Run(c, s, steps), u, since)
    decreases |steps|
  {
    hide Apply, InGrace;
    if steps != [] {
      ApplyGrace(c, s, steps[0], u, since);
      NoInsolvencyWithinGrace(c, Apply(c, s, steps[0]), steps[1..], u, since);
    }
  }

  /** And no longer: a stream found unpaid `newStreamDeposit` ticks ago that still cannot be paid is liquidated by the next
      charge that goes through, and the user is flagged. */
  lemma InsolventAfterGrace(c: Config, env: Env, s: State, key: StreamKey, already: nat)
    requires key in s.streams && key.user !in s.flagged && s.streams[key].outOfFunds.Some?
    requires s.streams[key].outOfFunds.value + c.newStreamDeposit <= s.tick
    requires var st := s.streams[key];
             var target := Target(env, s, key);
             && target >= st.marker && Metered(key.kind, st.rate, target - st.marker).Some?
             && Metered(key.kind, st.rate, target - st.marker).value > Reducible(c.ed, s.ledger, key.user)
    requires ChargeStream(c, env, s, key, already).Ok?
    ensures var s' := ChargeStream(c, env, s, key, already).value.state;
            key !in s'.streams && key.user in s'.flagged && s'.flagged[key.user] == env.block
  {
    hide Metered, PayFrom, Release;
  }
}
