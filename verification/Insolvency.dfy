/** The life of an insolvent user: flagged by a liquidation, barred from new streams, paying its debts from the
    deposits, and cleared after the cooldown. */
module Insolvency {
  import opened Prelude
  import opened Sums
  import opened Balances
  import opened PaymentStreams
  import opened StreamAccounts

  /** The stream is gone, or it is an old one with its rate and deposit. */
  ghost predicate NotNew(s: State, s': State, k: StreamKey) {
    k in s'.streams ==> k in s.streams && s'.streams[k].rate == s.streams[k].rate
                        && s'.streams[k].deposit == s.streams[k].deposit
  }

  /** The user stays flagged since the same block and `k` is no new stream of its. */
  ghost predicate Barred(s: State, s': State, k: StreamKey) {
    k.user in s.flagged ==>
      k.user in s'.flagged && s'.flagged[k.user] == s.flagged[k.user] && NotNew(s, s', k)
  }

  lemma EnactBars(c: Config, env: Env, s: State, key: StreamKey, e: Effect, k: StreamKey)
    requires key in s.streams && Enact(c, env, s, key, e).Ok?
    ensures Barred(s, Enact(c, env, s, key, e).value, k)
  {
    hide PayFrom, Release;
  }

  lemma ChargeStreamBars(c: Config, env: Env, s: State, key: StreamKey, already: nat, k: StreamKey)
    requires ChargeStream(c, env, s, key, already).Ok?
    ensures Barred(s, ChargeStream(c, env, s, key, already).value.state, k)
  {
    hide Enact, Decide;
    if key in s.streams {
      EnactBars(c, env, s, key, Decide(c, env, s, key, already).value, k);
    }
  }

  lemma ChargeBars(c: Config, env: Env, s: State, p: ProviderId, u: Account, k: StreamKey)
    requires Charge(c, env, s, p, u).Ok?
    ensures Barred(s, Charge(c, env, s, p, u).value.state, k)
  {
    hide ChargeStream;
    var first := ChargeStream(c, env, s, StreamKey(p, u, FixedRate), 0);
    ChargeStreamBars(c, env, s, StreamKey(p, u, FixedRate), 0, k);
    ChargeStreamBars(c, env, first.value.state, StreamKey(p, u, DynamicRate), first.value.amount, k);
  }

  lemma {:induction false} ChargeAllBars(c: Config, env: Env, s: State, p: ProviderId, users: seq<Account>, k: StreamKey)
    requires ChargeAll(c, env, s, p, users).Ok?
    ensures Barred(s, ChargeAll(c, env, s, p, users).value, k)
    decreases |users|
  {
    hide Charge;
    if users != [] {
      ChargeBars(c, env, s, p, users[0], k);
      ChargeAllBars(c, env, Charge(c, env, s, p, users[0]).value.state, p, users[1..], k);
    }
  }

  lemma UpdateBars(c: Config, env: Env, s: State, key: StreamKey, rate: nat, k: StreamKey)
    requires Update(c, env, s, key, rate).Ok?
    ensures Barred(s, Update(c, env, s, key, rate).value, k)
  {
    hide Charge, DepositFor, AdjustDeposit;
    ChargeBars(c, env, s, key.provider, key.user, k);
  }

  lemma DeleteBars(c: Config, env: Env, s: State, key: StreamKey, k: StreamKey)
    requires Delete(c, env, s, key).Ok?
    ensures Barred(s, Delete(c, env, s, key).value, k)
  {
    hide Charge, Release;
    if key.provider !in env.insolvent {
      ChargeBars(c, env, s, key.provider, key.user, k);
    }
  }

  // --- What paying debts leaves -----------------------------------------------------------------------

  /** Paying a provider removes exactly the user's streams with it. */
  lemma PayStreamLeaves(c: Config, env: Env, w: Paying, key: StreamKey, k: StreamKey)
    requires PayStream(c, env, w, key).Ok?
    ensures var w' := PayStream(c, env, w, key).value;
            && (k in w'.state.streams <==> k in w.state.streams && k != key)
            && (k in w'.state.streams ==> w'.state.streams[k] == w.state.streams[k])
            && w'.state.flagged == w.state.flagged
  {
    hide DecideLiquidation, PayFrom;
  }

  lemma {:induction false} PayProvidersLeaves(c: Config, env: Env, w: Paying, u: Account, ps: seq<ProviderId>,
      k: StreamKey)
    requires PayProviders(c, env, w, u, ps).Ok?
    ensures var w' := PayProviders(c, env, w, u, ps).value;
            && (k in w'.state.streams <==> k in w.state.streams && !(k.user == u && k.provider in ps))
            && (k in w'.state.streams ==> w'.state.streams[k] == w.state.streams[k])
            && w'.state.flagged == w.state.flagged
    decreases |ps|
  {
    if ps != [] {
      hide PayStream;
      var fixed, dynamic := StreamKey(ps[0], u, FixedRate), StreamKey(ps[0], u, DynamicRate);
      var w1 := PayStream(c, env, w, fixed).value;
      PayStreamLeaves(c, env, w, fixed, k);
      PayStreamLeaves(c, env, w1, dynamic, k);
      assert k.user == u && k.provider == ps[0] <==> k == fixed || k == dynamic by {
        assert k.kind == FixedRate || k.kind == DynamicRate;
      }
      PayProvidersLeaves(c, env, PayProvider(c, env, w, u, ps[0]).value, u, ps[1..], k);
      assert k.provider in ps <==> k.provider == ps[0] || k.provider in ps[1..];
    }
  }

  /** Paying debts removes exactly the user's streams with the listed providers, touches no other stream, and keeps the
      flag. */
  lemma PayDebtLeaves(c: Config, env: Env, s: State, u: Account, ps: seq<ProviderId>, k: StreamKey)
    requires PayDebt(c, env, s, u, ps).Ok?
    ensures var s' := PayDebt(c, env, s, u, ps).value.state;
            && (k in s'.streams <==> k in s.streams && !(k.user == u && k.provider in ps))
            && (k in s'.streams ==> s'.streams[k] == s.streams[k])
            && s'.flagged == s.flagged
  {
    hide PayProviders;
    PayProvidersLeaves(c, env, StartPaying(s, u), u, ps, k);
  }

  /** "All debts paid" is reported exactly when no stream of the user remains. */
  lemma AllPaidExactly(c: Config, env: Env, s: State, u: Account, ps: seq<ProviderId>)
    requires Backed(s, u) && PayDebt(c, env, s, u, ps).Ok?
    ensures var r := PayDebt(c, env, s, u, ps).value;
            r.all <==> forall k :: k in r.state.streams ==> k.user != u
  {
    var r := PayDebt(c, env, s, u, ps).value;
    PayDebtKeeps(c, env, s, u, ps, u);
    PaidFlag(c, env, s, u, ps);
    hide PayDebt;
    NoDeposits(r.state.streams, u);
  }

  lemma PaidFlag(c: Config, env: Env, s: State, u: Account, ps: seq<ProviderId>)
    requires PayDebt(c, env, s, u, ps).Ok?
    ensures var r := PayDebt(c, env, s, u, ps).value;
            r.all <==> Get(r.state.counts, u) == 0
  {
    hide PayProviders;
  }

  lemma NoDeposits(streams: map<StreamKey, Stream>, u: Account)
    ensures |DepositsOf(streams, u)| == 0 <==> forall k :: k in streams ==> k.user != u
  {
    var deposits := DepositsOf(streams, u);
    if |deposits| == 0 {
      assert deposits == map[];
      forall k | k in streams
        ensures k.user != u
      {
        assert k !in deposits;
      }
    } else {
      assert deposits != map[];
      var k :| k in deposits;
    }
  }

  /** The flag clears exactly when the cooldown has passed and no stream of the user remains. */
  lemma ClearsExactly(c: Config, s: State, u: Account)
    requires Backed(s, u)
    ensures ClearFlag(c, s, u).Ok? <==>
              && u in s.flagged
              && SatSub(s.tick, s.flagged[u]) >= c.cooldown
              && forall k :: k in s.streams ==> k.user != u
  {
    NoDeposits(s.streams, u);
  }

  // --- Runs -------------------------------------------------------------------------------------------

  ghost predicate Clears(c: Config, s: State, step: Step, u: Account) {
    step == Clear(u) && ClearFlag(c, s, u).Ok?
  }

  lemma ApplyBars(c: Config, s: State, step: Step, k: StreamKey)
    requires !Clears(c, s, step, k.user)
    ensures Barred(s, Apply(c, s, step), k)
  {
    hide Update, Delete, ChargeAll, PayDebt;
    match step
    case Tick(_, _) =>
    case NewPrice(_) =>
    case Spend(_, _, _) =>
    case Open(_, _, _) =>
    case Change(env, key, rate) =>
      if Update(c, env, s, key, rate).Ok? { UpdateBars(c, env, s, key, rate, k); }
    case Close(env, key) =>
      if Delete(c, env, s, key).Ok? { DeleteBars(c, env, s, key, k); }
    case ChargeUsers(env, p, users) =>
      if ChargeAll(c, env, s, p, users).Ok? { ChargeAllBars(c, env, s, p, users, k); }
    case PayDebts(env, v, ps) =>
      if PayDebt(c, env, s, v, ps).Ok? { PayDebtLeaves(c, env, s, v, ps, k); }
    case Clear(_) =>
  }

  /** No step of the run clears the user's flag. */
  ghost predicate Uncleared(c: Config, s: State, steps: seq<Step>, u: Account)
    decreases |steps|
  {
    steps == [] || (!Clears(c, s, steps[0], u) && Uncleared(c, Apply(c, s, steps[0]), steps[1..], u))
  }

  /** From the flag being set until it is cleared, whatever happens in between: the flag and its block stay, and every
      stream of the user at the end is one it already had, at its old rate and deposit. */
  lemma {:induction false} FlaggedUntilCleared(c: Config, s: State, steps: seq<Step>, k: StreamKey)
    requires k.user in s.flagged && Uncleared(c, s, steps, k.user)
    ensures var s' := Run(c, s, steps);
            k.user in s'.flagged && s'.flagged[k.user] == s.flagged[k.user] && NotNew(s, s', k)
    decreases |steps|
  {
    hide Apply, Clears;
    if steps != [] {
      ApplyBars(c, s, steps[0], k);
      FlaggedUntilCleared(c, Apply(c, s, steps[0]), steps[1..], k);
    }
  }

  // --- Paying in two calls ----------------------------------------------------------------------------

  lemma {:induction false} PayProvidersConcat(c: Config, env: Env, w: Paying, u: Account, ps: seq<ProviderId>,
      qs: seq<ProviderId>)
    ensures var first := PayProviders(c, env, w, u, ps);
            PayProviders(c, env, w, u, ps + qs)
            == if first.Ok? then PayProviders(c, env, first.value, u, qs) else first
    decreases |ps|
  {
    hide PayProvider;
    if ps == [] {
      assert ps + qs == qs;
    } else {
      assert (ps + qs)[1..] == ps[1..] + qs;
      var next := PayProvider(c, env, w, u, ps[0]);
      if next.Ok? {
        PayProvidersConcat(c, env, next.value, u, ps[1..], qs);
      }
    }
  }

  function Shifted(r: Outcome<Paying, Error>, extra: nat): Outcome<Paying, Error> {
    if r.Ok? then Ok(Paying(r.value.state, r.value.deposits + extra)) else r
  }

  lemma PayStreamShift(c: Config, env: Env, w: Paying, key: StreamKey, extra: nat)
    ensures PayStream(c, env, Paying(w.state, w.deposits + extra), key) == Shifted(PayStream(c, env, w, key), extra)
  {
    hide DecideLiquidation, PayFrom, Drop;
  }

  /** The deposits counted so far do not matter to what is paid next. */
  lemma {:induction false} PayProvidersShift(c: Config, env: Env, w: Paying, u: Account, ps: seq<ProviderId>, extra: nat)
    ensures PayProviders(c, env, Paying(w.state, w.deposits + extra), u, ps) == Shifted(PayProviders(c, env, w, u, ps), extra)
    decreases |ps|
  {
    hide PayStream;
    if ps != [] {
      PayStreamShift(c, env, w, StreamKey(ps[0], u, FixedRate), extra);
      var w1 := PayStream(c, env, w, StreamKey(ps[0], u, FixedRate));
      if w1.Ok? {
        PayStreamShift(c, env, w1.value, StreamKey(ps[0], u, DynamicRate), extra);
        var w2 := PayStream(c, env, w1.value, StreamKey(ps[0], u, DynamicRate));
        if w2.Ok? {
          PayProvidersShift(c, env, w2.value, u, ps[1..], extra);
        }
      }
    }
  }

  /** Nothing is on hold for the user, and its account is on the books. */
  ghost predicate Emptied(l: Ledger, u: Account) {
    u in l.free && u in l.held && l.held[u] == 0
  }

  lemma PayFromEmptied(c: Config, env: Env, l: Ledger, key: StreamKey, amount: nat)
    requires PayFrom(c, env, l, key, amount).Ok? && Emptied(l, key.user)
    ensures Emptied(PayFrom(c, env, l, key, amount).value, key.user)
  {
  }

  lemma PayStreamEmptied(c: Config, env: Env, w: Paying, key: StreamKey)
    requires PayStream(c, env, w, key).Ok? && Emptied(w.state.ledger, key.user)
    ensures Emptied(PayStream(c, env, w, key).value.state.ledger, key.user)
  {
    hide PayFrom, Metered, Emptied;
    if key in w.state.streams {
      PayFromEmptied(c, env, w.state.ledger, key, DecideLiquidation(env, w.state, key).value.amount);
    }
  }

  lemma {:induction false} PayProvidersEmptied(c: Config, env: Env, w: Paying, u: Account, ps: seq<ProviderId>)
    requires PayProviders(c, env, w, u, ps).Ok? && Emptied(w.state.ledger, u)
    ensures Emptied(PayProviders(c, env, w, u, ps).value.state.ledger, u)
    decreases |ps|
  {
    hide PayStream, Emptied;
    if ps != [] {
      PayStreamEmptied(c, env, w, StreamKey(ps[0], u, FixedRate));
      var w1 := PayStream(c, env, w, StreamKey(ps[0], u, FixedRate)).value;
      PayStreamEmptied(c, env, w1, StreamKey(ps[0], u, DynamicRate));
      PayProvidersEmptied(c, env, PayProvider(c, env, w, u, ps[0]).value, u, ps[1..]);
    }
  }

  /** Holding what is left and releasing it again changes nothing. */
  lemma RestartPaying(c: Config, w: Paying, u: Account, released: nat)
    requires Emptied(w.state.ledger, u) && FinishPaying(c, w, u, released).Ok?
    ensures var s := FinishPaying(c, w, u, released).value.state;
            && StartPaying(s, u) == Paying(w.state, 0)
            && Held(s.ledger, u) == released - w.deposits
            && s.flagged == w.state.flagged
  {
    var s := FinishPaying(c, w, u, released).value.state;
    var l := StartPaying(s, u).state.ledger;
    assert l.free == w.state.ledger.free;
    assert l.held == w.state.ledger.held;
  }

  /** Paying the providers of one list and then those of another is paying those of both lists. */
  lemma PayInTwoCalls(c: Config, env: Env, s: State, u: Account, ps: seq<ProviderId>, qs: seq<ProviderId>)
    requires PayDebt(c, env, s, u, ps).Ok?
    ensures PayDebt(c, env, PayDebt(c, env, s, u, ps).value.state, u, qs) == PayDebt(c, env, s, u, ps + qs)
  {
    hide PayProviders, StartPaying, FinishPaying;
    var released := Held(s.ledger, u);
    var start := StartPaying(s, u);
    var w := PayProviders(c, env, start, u, ps).value;
    StartEmptied(s, u);
    PayProvidersEmptied(c, env, start, u, ps);
    RestartPaying(c, w, u, released);
    PayProvidersConcat(c, env, start, u, ps, qs);
    PayProvidersShift(c, env, Paying(w.state, 0), u, qs, w.deposits);
    PayProvidersFlags(c, env, start, u, ps);
    var rest := PayProviders(c, env, Paying(w.state, 0), u, qs);
    assert Paying(w.state, 0 + w.deposits) == w;
    if rest.Ok? {
      FinishShift(c, rest.value, u, released - w.deposits, w.deposits);
    }
  }

  lemma PayProvidersFlags(c: Config, env: Env, w: Paying, u: Account, ps: seq<ProviderId>)
    requires PayProviders(c, env, w, u, ps).Ok?
    ensures PayProviders(c, env, w, u, ps).value.state.flagged == w.state.flagged
  {
    PayProvidersLeaves(c, env, w, u, ps, StreamKey(0, u, FixedRate));
  }

  lemma StartEmptied(s: State, u: Account)
    ensures Emptied(StartPaying(s, u).state.ledger, u)
    ensures StartPaying(s, u).state.flagged == s.flagged
  {
  }

  lemma FinishShift(c: Config, w: Paying, u: Account, released: nat, extra: nat)
    ensures FinishPaying(c, Paying(w.state, w.deposits + extra), u, released + extra) == FinishPaying(c, w, u, released)
  {
  }

  // --- When the first of the two calls goes through ---------------------------------------------------

  /** A payment costs the user no more than its amount. */
  lemma PayFromCosts(c: Config, env: Env, l: Ledger, key: StreamKey, amount: nat)
    requires PayFrom(c, env, l, key, amount).Ok?
    ensures Free(PayFrom(c, env, l, key, amount).value, key.user) + amount >= Free(l, key.user)
  {
    hide Cut;
  }

  lemma PayStreamCosts(c: Config, env: Env, w: Paying, key: StreamKey)
    requires PayStream(c, env, w, key).Ok?
    ensures var w' := PayStream(c, env, w, key).value;
            && w'.deposits >= w.deposits
            && Free(w'.state.ledger, key.user) + (w'.deposits - w.deposits) >= Free(w.state.ledger, key.user)
  {
    hide PayFrom, Metered;
    if key in w.state.streams {
      PayFromCosts(c, env, w.state.ledger, key, DecideLiquidation(env, w.state, key).value.amount);
    }
  }

  lemma {:induction false} PayProvidersCosts(c: Config, env: Env, w: Paying, u: Account, ps: seq<ProviderId>)
    requires PayProviders(c, env, w, u, ps).Ok?
    ensures var w' := PayProviders(c, env, w, u, ps).value;
            && w'.deposits >= w.deposits
            && Free(w'.state.ledger, u) + (w'.deposits - w.deposits) >= Free(w.state.ledger, u)
    decreases |ps|
  {
    hide PayStream;
    if ps != [] {
      PayStreamCosts(c, env, w, StreamKey(ps[0], u, FixedRate));
      var w1 := PayStream(c, env, w, StreamKey(ps[0], u, FixedRate)).value;
      PayStreamCosts(c, env, w1, StreamKey(ps[0], u, DynamicRate));
      PayProvidersCosts(c, env, PayProvider(c, env, w, u, ps[0]).value, u, ps[1..]);
    }
  }

  // --- Whoever has a deposit on hold owns the existential deposit -------------------------------------

  ghost predicate Reserved(c: Config, l: Ledger, u: Account) {
    Held(l, u) > 0 ==> Free(l, u) >= c.ed
  }

  lemma PayFromReserves(c: Config, env: Env, l: Ledger, key: StreamKey, amount: nat, u: Account)
    requires Reserved(c, l, u) && PayFrom(c, env, l, key, amount).Ok?
    ensures Reserved(c, PayFrom(c, env, l, key, amount).value, u)
  {
    hide Cut;
  }

  lemma EnactReserves(c: Config, env: Env, s: State, key: StreamKey, e: Effect, u: Account)
    requires Reserved(c, s.ledger, u) && key in s.streams && Enact(c, env, s, key, e).Ok?
    ensures Reserved(c, Enact(c, env, s, key, e).value.ledger, u)
  {
    hide PayFrom;
    match e {
      case Nothing =>
      case Waits =>
      case Pays(amount, marker) => PayFromReserves(c, env, s.ledger, key, amount, u);
      case Liquidates(amount) =>
        PayFromReserves(c, env, Release(s.ledger, key.user, s.streams[key].deposit).value, key, amount, u);
    }
  }

  lemma ChargeReserves(c: Config, env: Env, s: State, p: ProviderId, v: Account, u: Account)
    requires Reserved(c, s.ledger, u) && Charge(c, env, s, p, v).Ok?
    ensures Reserved(c, Charge(c, env, s, p, v).value.state.ledger, u)
  {
    hide Enact, Decide, Reserved;
    var fixed, dynamic := StreamKey(p, v, FixedRate), StreamKey(p, v, DynamicRate);
    var first := ChargeStream(c, env, s, fixed, 0).value;
    if fixed in s.streams { EnactReserves(c, env, s, fixed, Decide(c, env, s, fixed, 0).value, u); }
    if dynamic in first.state.streams {
      EnactReserves(c, env, first.state, dynamic, Decide(c, env, first.state, dynamic, first.amount).value, u);
    }
  }

  lemma {:induction false} ChargeAllReserves(c: Config, env: Env, s: State, p: ProviderId, users: seq<Account>,
                                             u: Account)
    requires Reserved(c, s.ledger, u) && ChargeAll(c, env, s, p, users).Ok?
    ensures Reserved(c, ChargeAll(c, env, s, p, users).value.ledger, u)
    decreases |users|
  {
    hide Charge, Reserved;
    if users != [] {
      ChargeReserves(c, env, s, p, users[0], u);
      ChargeAllReserves(c, env, Charge(c, env, s, p, users[0]).value.state, p, users[1..], u);
    }
  }

  lemma UpdateReserves(c: Config, env: Env, s: State, key: StreamKey, rate: nat, u: Account)
    requires Reserved(c, s.ledger, u) && Update(c, env, s, key, rate).Ok?
    ensures Reserved(c, Update(c, env, s, key, rate).value.ledger, u)
  {
    hide Charge, DepositFor;
    ChargeReserves(c, env, s, key.provider, key.user, u);
  }

  lemma DeleteReserves(c: Config, env: Env, s: State, key: StreamKey, u: Account)
    requires Reserved(c, s.ledger, u) && Delete(c, env, s, key).Ok?
    ensures Reserved(c, Delete(c, env, s, key).value.ledger, u)
  {
    hide Charge;
    if key.provider !in env.insolvent {
      ChargeReserves(c, env, s, key.provider, key.user, u);
    }
  }

  lemma PayStreamReserves(c: Config, env: Env, w: Paying, key: StreamKey, u: Account)
    requires Reserved(c, w.state.ledger, u) && PayStream(c, env, w, key).Ok?
    ensures Reserved(c, PayStream(c, env, w, key).value.state.ledger, u)
  {
    hide PayFrom, Metered, Reserved;
    if key in w.state.streams {
      PayFromReserves(c, env, w.state.ledger, key, DecideLiquidation(env, w.state, key).value.amount, u);
    }
  }

  lemma {:induction false} PayProvidersReserves(c: Config, env: Env, w: Paying, v: Account, ps: seq<ProviderId>,
      u: Account)
    requires Reserved(c, w.state.ledger, u) && PayProviders(c, env, w, v, ps).Ok?
    ensures Reserved(c, PayProviders(c, env, w, v, ps).value.state.ledger, u)
    decreases |ps|
  {
    hide PayStream, Reserved;
    if ps != [] {
      PayStreamReserves(c, env, w, StreamKey(ps[0], v, FixedRate), u);
      var w1 := PayStream(c, env, w, StreamKey(ps[0], v, FixedRate)).value;
      PayStreamReserves(c, env, w1, StreamKey(ps[0], v, DynamicRate), u);
      PayProvidersReserves(c, env, PayProvider(c, env, w, v, ps[0]).value, v, ps[1..], u);
    }
  }

  lemma PayDebtReserves(c: Config, env: Env, s: State, v: Account, ps: seq<ProviderId>, u: Account)
    requires Reserved(c, s.ledger, u) && PayDebt(c, env, s, v, ps).Ok?
    ensures Reserved(c, PayDebt(c, env, s, v, ps).value.state.ledger, u)
  {
    hide PayProviders;
    PayProvidersReserves(c, env, StartPaying(s, v), v, ps, u);
  }

  lemma ApplyReserves(c: Config, s: State, step: Step, u: Account)
    requires Reserved(c, s.ledger, u)
    ensures Reserved(c, Apply(c, s, step).ledger, u)
  {
    hide Update, Delete, ChargeAll, PayDebt, DepositFor;
    match step
    case Tick(_, _) =>
    case NewPrice(_) =>
    case Spend(_, _, _) =>
    case Open(_, _, _) =>
    case Change(env, key, rate) =>
      if Update(c, env, s, key, rate).Ok? { UpdateReserves(c, env, s, key, rate, u); }
    case Close(env, key) =>
      if Delete(c, env, s, key).Ok? { DeleteReserves(c, env, s, key, u); }
    case ChargeUsers(env, p, users) =>
      if ChargeAll(c, env, s, p, users).Ok? { ChargeAllReserves(c, env, s, p, users, u); }
    case PayDebts(env, v, ps) =>
      if PayDebt(c, env, s, v, ps).Ok? { PayDebtReserves(c, env, s, v, ps, u); }
    case Clear(_) =>
  }

  /** Over every run, whoever has something on hold keeps the existential deposit free besides. */
  lemma {:induction false} RunReserves(c: Config, s: State, steps: seq<Step>, u: Account)
    requires Reserved(c, s.ledger, u)
    ensures Reserved(c, Run(c, s, steps).ledger, u)
    decreases |steps|
  {
    hide Apply, Reserved;
    if steps != [] {
      ApplyReserves(c, s, steps[0], u);
      RunReserves(c, Apply(c, s, steps[0]), steps[1..], u);
    }
  }

  /** Such a user can always pay part of a list it could pay whole. */
  lemma PartOfListCanBePaid(c: Config, env: Env, s: State, u: Account, ps: seq<ProviderId>, qs: seq<ProviderId>)
    requires Backed(s, u) && Reserved(c, s.ledger, u)
    requires PayDebt(c, env, s, u, ps + qs).Ok?
    ensures PayDebt(c, env, s, u, ps).Ok?
  {
    hide PayProviders, PayStream, Backed;
    var start := StartPaying(s, u);
    var released := Held(s.ledger, u);
    PayProvidersConcat(c, env, start, u, ps, qs);
    var w := PayProviders(c, env, start, u, ps).value;
    PayProvidersCosts(c, env, start, u, ps);
    StartPayingKeeps(s, u, u);
    PayProvidersKeeps(c, env, start, u, ps, u, released);
  }

  /** So in every state that a run of a fresh pallet leads to, a list of debts that can be paid in one call can be paid in
      two, however it is split, with the same result. */
  lemma DebtsCanBeSplit(c: Config, start: State, steps: seq<Step>, env: Env, u: Account, ps: seq<ProviderId>,
                        qs: seq<ProviderId>)
    requires Unused(start) && PayDebt(c, env, Run(c, start, steps), u, ps + qs).Ok?
    ensures var s := Run(c, start, steps);
            && PayDebt(c, env, s, u, ps).Ok?
            && PayDebt(c, env, PayDebt(c, env, s, u, ps).value.state, u, qs) == PayDebt(c, env, s, u, ps + qs)
  {
    UnusedIsBacked(start, u);
    RunConserves(c, start, steps, u);
    RunReserves(c, start, steps, u);
    hide Run, PayDebt, Backed;
    PartOfListCanBePaid(c, env, Run(c, start, steps), u, ps, qs);
    PayInTwoCalls(c, env, Run(c, start, steps), u, ps, qs);
  }

  /** The reserve is also necessary: without it not even a call that pays nobody goes through. */
  lemma EmptyListCanBePaidExactly(c: Config, env: Env, s: State, u: Account)
    ensures PayDebt(c, env, s, u, []).Ok? <==>
              u in s.flagged && Reserved(c, s.ledger, u)
  {
  }
}
