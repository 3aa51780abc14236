/** Charging the same user twice. A second charge in the same tick takes nothing unless the first one leaves the user
    flagged, which can be told before it. */
module ChargeOrder {
  import opened Prelude
  import opened Balances
  import opened PaymentStreams
  import opened StreamAccounts

  // --- The same user twice ----------------------------------------------------------------------------

  /** Charging the stream now would change nothing and take nothing. */
  ghost predicate Quiet(c: Config, env: Env, s: State, key: StreamKey) {
    ChargeStream(c, env, s, key, 0) == Ok(Charged(s, 0))
  }

  /** What a quiet stream looks like. */
  ghost predicate QuietBranch(c: Config, env: Env, s: State, key: StreamKey)
    requires key in s.streams
  {
    var st := s.streams[key];
    var target := Target(env, s, key);
    && key.user !in s.flagged
    && (|| target < st.marker
        || (target == st.marker && st.outOfFunds == None && key.provider in env.payees)
        || (&& Metered(key.kind, st.rate, target - st.marker).Some?
            && Reducible(c.ed, s.ledger, key.user) < Metered(key.kind, st.rate, target - st.marker).value
            && st.outOfFunds.Some? && SatSub(s.tick, st.outOfFunds.value) < c.newStreamDeposit))
  }

  lemma PayNothing(c: Config, env: Env, l: Ledger, key: StreamKey)
    requires key.provider in env.payees
    ensures PayFrom(c, env, l, key, 0) == Ok(l)
  {
    assert Cut(env.share, 0) == 0;
  }

  lemma MeteredNothing(kind: Kind, rate: nat)
    ensures Metered(kind, rate, 0) == Some(0)
  {
    assert rate * 0 == 0;
  }

  lemma QuietBranchIsQuiet(c: Config, env: Env, s: State, key: StreamKey)
    requires key in s.streams && QuietBranch(c, env, s, key)
    ensures Quiet(c, env, s, key)
  {
    hide Metered, PayFrom;
    var st := s.streams[key];
    assert s.streams[key := st] == s.streams;
    if Target(env, s, key) == st.marker && st.outOfFunds == None {
      MeteredNothing(key.kind, st.rate);
      PayNothing(c, env, s.ledger, key);
    }
  }

  /** After a charge that left the user unflagged, the stream is quiet. */
  lemma QuietAfter(c: Config, env: Env, s: State, key: StreamKey, already: nat)
    requires key in s.streams && ChargeStream(c, env, s, key, already).Ok?
    requires key.user !in ChargeStream(c, env, s, key, already).value.state.flagged
    ensures var s' := ChargeStream(c, env, s, key, already).value.state;
            key in s'.streams && QuietBranch(c, env, s', key)
  {
    hide Metered, PayFrom, Release;
  }

  lemma PayFromSpends(c: Config, env: Env, l: Ledger, key: StreamKey, amount: nat)
    requires PayFrom(c, env, l, key, amount).Ok?
    ensures Free(PayFrom(c, env, l, key, amount).value, key.user) <= Free(l, key.user)
  {
    hide Cut;
  }

  /** Charging the user's other stream keeps a stream quiet. */
  lemma QuietKept(c: Config, env: Env, s: State, key: StreamKey, other: StreamKey, already: nat)
    requires key in s.streams && QuietBranch(c, env, s, key)
    requires other != key && other.user == key.user && other.provider == key.provider
    requires ChargeStream(c, env, s, other, already).Ok?
    requires key.user !in ChargeStream(c, env, s, other, already).value.state.flagged
    ensures var s' := ChargeStream(c, env, s, other, already).value.state;
            key in s'.streams && QuietBranch(c, env, s', key)
  {
    hide Metered, PayFrom, Release;
    if other in s.streams {
      var e := Decide(c, env, s, other, already).value;
      if e.Pays? {
        PayFromSpends(c, env, s.ledger, other, e.amount);
      }
    }
  }

  lemma QuietWhenAbsent(c: Config, env: Env, s: State, key: StreamKey)
    requires key !in s.streams
    ensures Quiet(c, env, s, key)
  {
  }

  /** An unflagged user's stream does not disappear in a charge that leaves the user unflagged. */
  lemma ChargeStreamStays(c: Config, env: Env, s: State, key: StreamKey, already: nat, k: StreamKey)
    requires ChargeStream(c, env, s, key, already).Ok?
    requires key.user !in ChargeStream(c, env, s, key, already).value.state.flagged
    ensures key.user !in s.flagged
    ensures k in ChargeStream(c, env, s, key, already).value.state.streams <==> k in s.streams
  {
    hide Metered, PayFrom, Release;
  }

  lemma UnflaggedRepeat(c: Config, env: Env, s: State, p: ProviderId, u: Account)
    requires Charge(c, env, s, p, u).Ok? && u !in Charge(c, env, s, p, u).value.state.flagged
    ensures var s' := Charge(c, env, s, p, u).value.state;
            Charge(c, env, s', p, u) == Ok(Charged(s', 0))
  {
    hide ChargeStream, QuietBranch;
    var fixed, dynamic := StreamKey(p, u, FixedRate), StreamKey(p, u, DynamicRate);
    var first := ChargeStream(c, env, s, fixed, 0).value;
    ChargeStreamStays(c, env, first.state, dynamic, first.amount, fixed);
    ChargeStreamStays(c, env, first.state, dynamic, first.amount, dynamic);
    ChargeStreamStays(c, env, s, fixed, 0, fixed);
    ChargeStreamStays(c, env, s, fixed, 0, dynamic);
    var s' := ChargeStream(c, env, first.state, dynamic, first.amount).value.state;
    if fixed in s.streams {
      QuietAfter(c, env, s, fixed, 0);
      QuietKept(c, env, first.state, fixed, dynamic, first.amount);
      QuietBranchIsQuiet(c, env, s', fixed);
    } else {
      QuietWhenAbsent(c, env, s', fixed);
    }
    if dynamic in s.streams {
      QuietAfter(c, env, first.state, dynamic, first.amount);
      QuietBranchIsQuiet(c, env, s', dynamic);
    } else {
      QuietWhenAbsent(c, env, s', dynamic);
    }
  }

  /** A flagged user's streams with the provider are liquidated by its next charge. */
  lemma FlaggedStreamGoes(c: Config, env: Env, s: State, key: StreamKey, already: nat)
    requires key.user in s.flagged && ChargeStream(c, env, s, key, already).Ok?
    ensures var r := ChargeStream(c, env, s, key, already).value;
            key !in r.state.streams && key.user in r.state.flagged && r.amount == already
  {
    hide Metered, PayFrom, Release;
  }

  lemma FlaggedRepeat(c: Config, env: Env, s: State, p: ProviderId, u: Account)
    requires u in s.flagged && Charge(c, env, s, p, u).Ok?
    ensures var s' := Charge(c, env, s, p, u).value.state;
            HasStream(s, p, u) && !HasStream(s', p, u)
  {
    hide ChargeStream;
    var fixed, dynamic := StreamKey(p, u, FixedRate), StreamKey(p, u, DynamicRate);
    var first := ChargeStream(c, env, s, fixed, 0).value;
    FlaggedStreamGoes(c, env, s, fixed, 0);
    FlaggedStreamGoes(c, env, first.state, dynamic, first.amount);
    ChargeStreamDeposit(c, env, first.state, dynamic, first.amount, fixed);
  }

  // --- When the first charge flags the user -----------------------------------------------------------

  /** The stream has been found unpaid for the whole grace period and cannot be paid by a user owning `free`. */
  predicate Overdue(c: Config, env: Env, s: State, key: StreamKey, free: nat) {
    && key in s.streams
    && var st := s.streams[key];
       var target := Target(env, s, key);
       && target >= st.marker
       && Metered(key.kind, st.rate, target - st.marker).Some?
       && SatSub(free, c.ed) < Metered(key.kind, st.rate, target - st.marker).value
       && c.newStreamDeposit <= if st.outOfFunds.Some? then SatSub(s.tick, st.outOfFunds.value) else 0
  }

  /** What a user owns after a payment: a payment to oneself costs nothing. */
  function FreeAfter(c: Config, env: Env, s: State, p: ProviderId, u: Account, amount: nat): nat
    requires p in env.payees
  {
    var cut := Cut(env.share, amount);
    SatSub(SatSub(Free(s.ledger, u), if env.payees[p] == u then 0 else amount - cut), if c.treasury == u then 0 else cut)
  }

  /** What an unflagged user owns when its dynamic-rate stream is charged: the fixed-rate one was charged before. */
  function FreeForDynamic(c: Config, env: Env, s: State, p: ProviderId, u: Account): nat
    requires p in env.payees
  {
    var key := StreamKey(p, u, FixedRate);
    var free := Free(s.ledger, u);
    if key !in s.streams || Target(env, s, key) < s.streams[key].marker then free
    else
      var due := Metered(FixedRate, s.streams[key].rate, Target(env, s, key) - s.streams[key].marker);
      if due.None? || SatSub(free, c.ed) < due.value then free else FreeAfter(c, env, s, p, u, due.value)
  }

  /** Before the charge: the user is flagged already, or one of its streams with the provider is overdue. */
  predicate WillBeFlagged(c: Config, env: Env, s: State, p: ProviderId, u: Account)
    requires p in env.payees
  {
    || u in s.flagged
    || Overdue(c, env, s, StreamKey(p, u, FixedRate), Free(s.ledger, u))
    || Overdue(c, env, s, StreamKey(p, u, DynamicRate), FreeForDynamic(c, env, s, p, u))
  }

  lemma PayFromLeaves(c: Config, env: Env, s: State, key: StreamKey, amount: nat)
    requires PayFrom(c, env, s.ledger, key, amount).Ok?
    ensures Free(PayFrom(c, env, s.ledger, key, amount).value, key.user)
            == FreeAfter(c, env, s, key.provider, key.user, amount)
  {
    hide Cut;
  }

  lemma StreamFlagsExactly(c: Config, env: Env, s: State, key: StreamKey, already: nat)
    requires key.user !in s.flagged && ChargeStream(c, env, s, key, already).Ok?
    ensures key.user in ChargeStream(c, env, s, key, already).value.state.flagged
            <==> Overdue(c, env, s, key, Free(s.ledger, key.user))
  {
    hide Metered, PayFrom, Release;
  }

  /** What the fixed-rate charge leaves for the dynamic-rate one to look at. */
  lemma AfterFixed(c: Config, env: Env, s: State, p: ProviderId, u: Account)
    requires p in env.payees && u !in s.flagged
    requires ChargeStream(c, env, s, StreamKey(p, u, FixedRate), 0).Ok?
    requires u !in ChargeStream(c, env, s, StreamKey(p, u, FixedRate), 0).value.state.flagged
    ensures var s' := ChargeStream(c, env, s, StreamKey(p, u, FixedRate), 0).value.state;
            var dynamic := StreamKey(p, u, DynamicRate);
            && Free(s'.ledger, u) == FreeForDynamic(c, env, s, p, u)
            && s'.tick == s.tick && s'.chargeable == s.chargeable
            && (dynamic in s'.streams <==> dynamic in s.streams)
            && (dynamic in s.streams ==> s'.streams[dynamic] == s.streams[dynamic])
  {
    hide Metered, PayFrom, Release, FreeAfter;
    var key := StreamKey(p, u, FixedRate);
    if key in s.streams {
      var e := Decide(c, env, s, key, 0).value;
      if e.Pays? {
        PayFromLeaves(c, env, s, key, e.amount);
      }
    }
  }

  /** Whether a charge leaves the user flagged can be told before it. */
  lemma FlagsExactly(c: Config, env: Env, s: State, p: ProviderId, u: Account)
    requires Charge(c, env, s, p, u).Ok?
    ensures p in env.payees
    ensures u in Charge(c, env, s, p, u).value.state.flagged <==> WillBeFlagged(c, env, s, p, u)
  {
    var fixed, dynamic := StreamKey(p, u, FixedRate), StreamKey(p, u, DynamicRate);
    var first := ChargeStream(c, env, s, fixed, 0).value;
    hide ChargeStream, Overdue, FreeForDynamic;
    if u in s.flagged {
      FlaggedStreamGoes(c, env, s, fixed, 0);
      FlaggedStreamGoes(c, env, first.state, dynamic, first.amount);
    } else {
      StreamFlagsExactly(c, env, s, fixed, 0);
      if u in first.state.flagged {
        FlaggedStreamGoes(c, env, first.state, dynamic, first.amount);
      } else {
        AfterFixed(c, env, s, p, u);
        StreamFlagsExactly(c, env, first.state, dynamic, first.amount);
        OverdueSame(c, env, s, first.state, dynamic, Free(first.state.ledger, u));
      }
    }
  }

  lemma OverdueSame(c: Config, env: Env, s: State, t: State, key: StreamKey, free: nat)
    requires s.tick == t.tick && s.chargeable == t.chargeable
    requires (key in s.streams <==> key in t.streams) && (key in s.streams ==> s.streams[key] == t.streams[key])
    ensures Overdue(c, env, s, key, free) <==> Overdue(c, env, t, key, free)
  {
  }

  /** Charging a user again at once takes nothing and changes nothing, exactly when the user is not flagged and neither of its
      streams with the provider is overdue before the first charge. Otherwise the second charge finds no stream, or
      liquidates the one the first charge had left. */
  lemma RepeatedChargeExactly(c: Config, env: Env, s: State, p: ProviderId, u: Account)
    requires Charge(c, env, s, p, u).Ok?
    ensures p in env.payees
    ensures var s' := Charge(c, env, s, p, u).value.state;
            Charge(c, env, s', p, u) == Ok(Charged(s', 0)) <==> !WillBeFlagged(c, env, s, p, u)
  {
    FlagsExactly(c, env, s, p, u);
    hide WillBeFlagged;
    var s' := Charge(c, env, s, p, u).value.state;
    if u !in s'.flagged {
      UnflaggedRepeat(c, env, s, p, u);
    } else {
      hide Charge;
      if Charge(c, env, s', p, u).Ok? {
        FlaggedRepeat(c, env, s', p, u);
      }
    }
  }

  /** So naming a user twice in a batch makes no difference exactly when the user cannot be charged at all, or is not about
      to be flagged. */
  lemma NamedTwiceExactly(c: Config, env: Env, s: State, p: ProviderId, u: Account)
    ensures ChargeAll(c, env, s, p, [u, u]) == ChargeAll(c, env, s, p, [u]) <==>
              Charge(c, env, s, p, u).Err? || (p in env.payees && !WillBeFlagged(c, env, s, p, u))
  {
    assert [u, u][1..] == [u] && [u][1..] == [];
    if Charge(c, env, s, p, u).Ok? {
      RepeatedChargeExactly(c, env, s, p, u);
      var s' := Charge(c, env, s, p, u).value.state;
      OneUser(c, env, s, p, u);
      OneUser(c, env, s', p, u);
      if WillBeFlagged(c, env, s, p, u) && Charge(c, env, s', p, u).Ok? {
        FlagsExactly(c, env, s, p, u);
        FlaggedRepeat(c, env, s', p, u);
      }
    }
  }

  lemma OneUser(c: Config, env: Env, s: State, p: ProviderId, u: Account)
    ensures var r := Charge(c, env, s, p, u);
            ChargeAll(c, env, s, p, [u]) == if r.Ok? then Ok(r.value.state) else Err(r.error)
  {
    hide Charge;
    assert [u][1..] == [];
  }

  // --- A user that must not be named twice ------------------------------------------------------------

  const SHORT_CONFIG := Config(2, 0, 0, 1, 9)
  const SHORT_ENV := Env(map[1 := 5], {}, {}, 0, 4)
  const SHORT_KEY := StreamKey(1, 2, FixedRate)

  /** A fresh pallet and a user with just enough for a deposit. */
  const SHORT_START := State(Ledger(map[2 := 25, 5 := 10], map[]), map[], map[], map[], map[], 0, 0, 0, 0)

  /** The user opens a stream, is found unable to pay at tick 2, and two ticks pass. */
  const SHORT_STEPS := [Open(SHORT_ENV, SHORT_KEY, 10), Tick(1, {}), Tick(2, {1}), ChargeUsers(SHORT_ENV, 1, [2]),
                        Tick(3, {1}), Tick(4, {1})]

  function ShortState(waiting: Option<Tick>, chargeable: map<ProviderId, Chargeable>, tick: Tick, proven: Tick): State {
    State(Ledger(map[2 := 5, 5 := 10], map[2 := 20]), map[SHORT_KEY := Stream(10, 0, 20, waiting)],
          map[2 := 1], map[], chargeable, tick, 0, 0, proven)
  }

  lemma ShortOpened()
    ensures Apply(SHORT_CONFIG, SHORT_START, Open(SHORT_ENV, SHORT_KEY, 10)) == ShortState(None, map[], 0, 0)
  {
    var s := Apply(SHORT_CONFIG, SHORT_START, Open(SHORT_ENV, SHORT_KEY, 10));
    assert DepositFor(SHORT_CONFIG, SHORT_START, FixedRate, 10) == Some(20);
    assert s.ledger.free == map[2 := 5, 5 := 10];
  }

  lemma ShortTick(waiting: Option<Tick>, chargeable: map<ProviderId, Chargeable>, tick: Tick, proven: Tick,
                  submitters: set<ProviderId>)
    requires proven <= tick && submitters <= {1} && chargeable.Keys <= {1}
    ensures Apply(SHORT_CONFIG, ShortState(waiting, chargeable, tick, proven), Tick(tick + 1, submitters))
            == ShortState(waiting, if proven < tick && 1 in submitters then map[1 := Chargeable(tick, 0)] else chargeable,
                          tick + 1, tick)
  {
    if proven < tick {
      assert Proven(chargeable, submitters, Chargeable(tick, 0))
          == if 1 in submitters then map[1 := Chargeable(tick, 0)] else chargeable;
    }
  }

  lemma ShortCharge()
    ensures Apply(SHORT_CONFIG, ShortState(None, map[1 := Chargeable(1, 0)], 2, 1), ChargeUsers(SHORT_ENV, 1, [2]))
            == ShortState(Some(2), map[1 := Chargeable(1, 0)], 2, 1)
  {
    var s := ShortState(None, map[1 := Chargeable(1, 0)], 2, 1);
    var s' := ShortState(Some(2), map[1 := Chargeable(1, 0)], 2, 1);
    assert Decide(SHORT_CONFIG, SHORT_ENV, s, SHORT_KEY, 0) == Ok(Waits);
    assert s.streams[SHORT_KEY := Stream(10, 0, 20, Some(2))] == s'.streams;
    assert ChargeStream(SHORT_CONFIG, SHORT_ENV, s, SHORT_KEY, 0) == Ok(Charged(s', 0));
    OneUser(SHORT_CONFIG, SHORT_ENV, s, 1, 2);
  }

  lemma ShortRun()
    ensures Run(SHORT_CONFIG, SHORT_START, SHORT_STEPS) == ShortState(Some(2), map[1 := Chargeable(3, 0)], 4, 3)
  {
    hide Apply, Run;
    var c, charge := SHORT_CONFIG, ChargeUsers(SHORT_ENV, 1, [2]);
    ShortOpened();
    ShortTick(None, map[], 0, 0, {});
    ShortTick(None, map[], 1, 0, {1});
    ShortCharge();
    ShortTick(Some(2), map[1 := Chargeable(1, 0)], 2, 1, {1});
    ShortTick(Some(2), map[1 := Chargeable(2, 0)], 3, 2, {1});
    var open := Open(SHORT_ENV, SHORT_KEY, 10);
    RunThree(c, SHORT_START, open, Tick(1, {}), Tick(2, {1}), [charge, Tick(3, {1}), Tick(4, {1})]);
    assert SHORT_STEPS == [open, Tick(1, {}), Tick(2, {1})] + [charge, Tick(3, {1}), Tick(4, {1})];
    var s := ShortState(None, map[1 := Chargeable(1, 0)], 2, 1);
    RunCons(c, s, charge, [Tick(3, {1}), Tick(4, {1})]);
    assert [charge] + [Tick(3, {1}), Tick(4, {1})] == [charge, Tick(3, {1}), Tick(4, {1})];
    RunTwo(c, Apply(c, s, charge), Tick(3, {1}), Tick(4, {1}));
  }

  /** In a state a run leads to, charging the user goes through, and charging it twice in one batch fails. */
  lemma NamedTwiceFails()
    ensures var s := Run(SHORT_CONFIG, SHORT_START, SHORT_STEPS);
            && ChargeAll(SHORT_CONFIG, SHORT_ENV, s, 1, [2]).Ok?
            && ChargeAll(SHORT_CONFIG, SHORT_ENV, s, 1, [2, 2]) == Err(PaymentStreamNotFound)
  {
    ShortRun();
    hide Run;
    var c, env := SHORT_CONFIG, SHORT_ENV;
    var s := Run(SHORT_CONFIG, SHORT_START, SHORT_STEPS);
    assert Decide(c, env, s, SHORT_KEY, 0) == Ok(Liquidates(20));
    var released := Release(s.ledger, 2, 20).value;
    assert Free(released, 2) == 25 && Free(released, 5) == 10;
    assert Cut(0, 20) == 0;
    assert PayFrom(c, env, released, SHORT_KEY, 20).Ok?;
    assert ChargeStream(c, env, s, SHORT_KEY, 0).Ok?;
    OneUser(c, env, s, 1, 2);
    var s' := Charge(c, env, s, 1, 2).value.state;
    FlaggedAfter(c, env, s);
    assert [2, 2][1..] == [2];
    OneUser(c, env, s', 1, 2);
  }

  lemma FlaggedAfter(c: Config, env: Env, s: State)
    requires StreamKey(1, 2, DynamicRate) !in s.streams && Charge(c, env, s, 1, 2).Ok?
    requires SHORT_KEY in s.streams && Decide(c, env, s, SHORT_KEY, 0).Ok? && Decide(c, env, s, SHORT_KEY, 0).value.Liquidates?
    requires 1 in env.payees && 1 !in env.insolvent
    ensures var s' := Charge(c, env, s, 1, 2).value.state;
            !HasStream(s', 1, 2) && Charge(c, env, s', 1, 2) == Err(PaymentStreamNotFound)
  {
    hide Decide, PayFrom, Release;
  }
}
