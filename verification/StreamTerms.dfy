/** The terms of a stream: where its first bill starts, what a charge, a liquidation and a debt payment take from the user,
    and which rate a bill is at when the rate has changed. */
module StreamTerms {
  import opened Prelude
  import opened Sums
  import opened Balances
  import opened PaymentStreams
  import opened StreamAccounts
  import opened StreamMetering
  import opened ChargeJournals
  import CC = ChargeCommutes

  // --- What is taken ----------------------------------------------------------------------------------

  /** The price of moving a marker by `units`. */
  function Price(kind: Kind, rate: nat, units: nat): nat {
    if kind.FixedRate? then rate * units else rate * units / GIGAUNIT
  }

  /** The tick, or the price index, up to which the provider of a stream may charge: for a privileged provider the current
      tick, otherwise what its last credited proof says, and nothing without one. */
  function UpTo(env: Env, s: State, key: StreamKey): nat {
    if key.provider in env.privileged then (if key.kind.FixedRate? then s.tick else 0)
    else if key.provider !in s.chargeable then 0
    else if key.kind.FixedRate? then s.chargeable[key.provider].tick
    else s.chargeable[key.provider].index
  }

  /** What a stream owes and has a deposit for. */
  function Debt(env: Env, s: State, key: StreamKey): nat
    requires key in s.streams
  {
    var st := s.streams[key];
    Min(Price(key.kind, st.rate, SatSub(UpTo(env, s, key), st.marker)), st.deposit)
  }

  /** What a charge that leads from `s` to `s'` took for a stream: the price of the stretch its marker moved, or its debt when
      it was removed. */
  function TakenFor(env: Env, s: State, s': State, key: StreamKey): nat {
    if key !in s.streams then 0
    else if key in s'.streams then
      Price(key.kind, s.streams[key].rate, SatSub(s'.streams[key].marker, s.streams[key].marker))
    else Debt(env, s, key)
  }

  /** Everything a user owns. */
  function Wealth(l: Ledger, u: Account): nat {
    Free(l, u) + Held(l, u)
  }

  lemma MeteredIsPrice(env: Env, s: State, key: StreamKey, rate: nat, units: nat)
    ensures Target(env, s, key) == UpTo(env, s, key)
    ensures Metered(key.kind, rate, units).Some? ==> Metered(key.kind, rate, units).value == Price(key.kind, rate, units)
  {
  }

  lemma PayFromTakes(c: Config, env: Env, l: Ledger, key: StreamKey, amount: nat)
    requires key.provider in env.payees && Payer(c, env, key.provider, key.user) && PayFrom(c, env, l, key, amount).Ok?
    ensures Wealth(PayFrom(c, env, l, key, amount).value, key.user) + amount == Wealth(l, key.user)
  {
    CC.PayFromExactly(c, env, l, key, amount);
  }

  /** A charge of one stream takes exactly that, and touches no other stream. */
  lemma ChargeStreamTakes(c: Config, env: Env, s: State, key: StreamKey, already: nat, other: StreamKey)
    requires key.provider in env.payees && Payer(c, env, key.provider, key.user)
    requires ChargeStream(c, env, s, key, already).Ok?
    ensures var s' := ChargeStream(c, env, s, key, already).value.state;
            && Wealth(s'.ledger, key.user) + TakenFor(env, s, s', key) == Wealth(s.ledger, key.user)
            && ChargeStream(c, env, s, key, already).value.amount
               == already + (if key in s'.streams then TakenFor(env, s, s', key) else 0)
            && s'.tick == s.tick && s'.chargeable == s.chargeable
            && (other != key ==> (other in s'.streams <==> other in s.streams)
                                 && (other in s.streams ==> s'.streams[other] == s.streams[other]))
  {
    if key in s.streams {
      DecidesPrice(c, env, s, key, already);
      var e := Decide(c, env, s, key, already).value;
      hide Decide, UpTo, Price;
      EnactTakes(c, env, s, key, e, other);
      NothingTaken(key.kind, s.streams[key].rate);
    }
  }

  /** What a charge decides to take. */
  lemma DecidesPrice(c: Config, env: Env, s: State, key: StreamKey, already: nat)
    requires key in s.streams && Decide(c, env, s, key, already).Ok?
    ensures var e, st := Decide(c, env, s, key, already).value, s.streams[key];
            && (e.Pays? ==> key.provider in env.payees && e.marker == UpTo(env, s, key) >= st.marker
                            && e.amount == Price(key.kind, st.rate, e.marker - st.marker))
            && (e.Liquidates? ==> key.provider in env.payees && e.amount == Debt(env, s, key))
  {
    var st := s.streams[key];
    MeteredIsPrice(env, s, key, st.rate, SatSub(Target(env, s, key), st.marker));
    hide Metered, Target, UpTo, Price;
  }

  lemma EnactTakes(c: Config, env: Env, s: State, key: StreamKey, e: Effect, other: StreamKey)
    requires key in s.streams && key.provider in env.payees && Payer(c, env, key.provider, key.user)
    requires Enact(c, env, s, key, e).Ok?
    ensures var s' := Enact(c, env, s, key, e).value;
            && Wealth(s'.ledger, key.user) + (if e.Pays? || e.Liquidates? then e.amount else 0) == Wealth(s.ledger, key.user)
            && (key in s'.streams <==> !e.Liquidates?)
            && (key in s'.streams ==> s'.streams[key].marker == if e.Pays? then e.marker else s.streams[key].marker)
            && s'.tick == s.tick && s'.chargeable == s.chargeable
            && (other != key ==> (other in s'.streams <==> other in s.streams)
                                 && (other in s.streams ==> s'.streams[other] == s.streams[other]))
  {
    hide PayFrom;
    match e {
      case Nothing =>
      case Waits =>
      case Pays(amount, marker) => PayFromTakes(c, env, s.ledger, key, amount);
      case Liquidates(amount) => PayFromTakes(c, env, Release(s.ledger, key.user, s.streams[key].deposit).value, key, amount);
    }
  }

  lemma NothingTaken(kind: Kind, rate: nat)
    ensures Price(kind, rate, 0) == 0
  {
  }

  /** A charge lowers what the user owns by exactly the price of the stretch each stream was paid for, and by the debt of each
      stream it liquidates; it reports the former. */
  lemma ChargeTakes(c: Config, env: Env, s: State, p: ProviderId, u: Account)
    requires p in env.payees && Payer(c, env, p, u) && Charge(c, env, s, p, u).Ok?
    ensures var s' := Charge(c, env, s, p, u).value.state;
            var fixed, dynamic := StreamKey(p, u, FixedRate), StreamKey(p, u, DynamicRate);
            && Wealth(s'.ledger, u) + TakenFor(env, s, s', fixed) + TakenFor(env, s, s', dynamic) == Wealth(s.ledger, u)
            && Charge(c, env, s, p, u).value.amount
               == (if fixed in s'.streams then TakenFor(env, s, s', fixed) else 0)
                  + (if dynamic in s'.streams then TakenFor(env, s, s', dynamic) else 0)
  {
    hide ChargeStream, Price, Wealth;
    var fixed, dynamic := StreamKey(p, u, FixedRate), StreamKey(p, u, DynamicRate);
    var first := ChargeStream(c, env, s, fixed, 0).value;
    ChargeStreamTakes(c, env, s, fixed, 0, dynamic);
    ChargeStreamTakes(c, env, first.state, dynamic, first.amount, fixed);
  }

  // --- Paying debts -----------------------------------------------------------------------------------

  /** The debts of a user with the listed providers. */
  ghost function Debts(env: Env, s: State, u: Account, ps: seq<ProviderId>): map<StreamKey, nat> {
    map k | k in s.streams && k.user == u && k.provider in ps :: Debt(env, s, k)
  }

  lemma PayStreamTakes(c: Config, env: Env, w: Paying, key: StreamKey)
    requires (key in w.state.streams && key.provider in env.payees) ==> Payer(c, env, key.provider, key.user)
    requires PayStream(c, env, w, key).Ok?
    ensures var s' := PayStream(c, env, w, key).value.state;
            && Wealth(s'.ledger, key.user) + (if key in w.state.streams then Debt(env, w.state, key) else 0)
               == Wealth(w.state.ledger, key.user)
            && s'.streams == w.state.streams - {key} && s'.tick == w.state.tick && s'.chargeable == w.state.chargeable
  {
    var s := w.state;
    if key in s.streams {
      var st := s.streams[key];
      MeteredIsPrice(env, s, key, st.rate, SatSub(Target(env, s, key), st.marker));
      hide Metered, Target, UpTo, Price, PayFrom;
      PayFromTakes(c, env, s.ledger, key, DecideLiquidation(env, s, key).value.amount);
    } else {
      assert s.streams - {key} == s.streams;
    }
  }

  /** The user pays none of the listed providers as its own payee, and is not the treasury. */
  ghost predicate PaysOthers(c: Config, env: Env, u: Account, ps: seq<ProviderId>) {
    forall p :: p in ps && p in env.payees ==> Payer(c, env, p, u)
  }

  lemma {:induction false} PayProvidersTakes(c: Config, env: Env, w: Paying, u: Account, ps: seq<ProviderId>)
    requires PaysOthers(c, env, u, ps) && PayProviders(c, env, w, u, ps).Ok?
    ensures Wealth(PayProviders(c, env, w, u, ps).value.state.ledger, u) + Total(Debts(env, w.state, u, ps))
            == Wealth(w.state.ledger, u)
    decreases |ps|
  {
    hide PayStream, Wealth, Debt;
    if ps == [] {
      assert Debts(env, w.state, u, ps) == map[];
    } else {
      var p, s := ps[0], w.state;
      var fixed, dynamic := StreamKey(p, u, FixedRate), StreamKey(p, u, DynamicRate);
      assert p in ps;
      PayStreamTakes(c, env, w, fixed);
      var w1 := PayStream(c, env, w, fixed).value;
      PayStreamTakes(c, env, w1, dynamic);
      var w2 := PayProvider(c, env, w, u, p).value;
      assert PaysOthers(c, env, u, ps[1..]);
      PayProvidersTakes(c, env, w2, u, ps[1..]);
      DebtsOfFirst(env, s, w1.state, w2.state, u, ps);
    }
  }

  lemma DebtsOfFirst(env: Env, s: State, s1: State, s2: State, u: Account, ps: seq<ProviderId>)
    requires ps != []
    requires var fixed, dynamic := StreamKey(ps[0], u, FixedRate), StreamKey(ps[0], u, DynamicRate);
             && s1.streams == s.streams - {fixed} && s2.streams == s1.streams - {dynamic}
             && s1.tick == s.tick && s1.chargeable == s.chargeable && s2.tick == s.tick && s2.chargeable == s.chargeable
    ensures var fixed, dynamic := StreamKey(ps[0], u, FixedRate), StreamKey(ps[0], u, DynamicRate);
            Total(Debts(env, s, u, ps))
            == (if fixed in s.streams then Debt(env, s, fixed) else 0) + (if dynamic in s1.streams then Debt(env, s1, dynamic) else 0)
               + Total(Debts(env, s2, u, ps[1..]))
  {
    var fixed, dynamic := StreamKey(ps[0], u, FixedRate), StreamKey(ps[0], u, DynamicRate);
    hide Debt;
    var all := Debts(env, s, u, ps);
    assert ps[0] in ps;
    TotalDrop(all, fixed);
    TotalDrop(all - {fixed}, dynamic);
    if dynamic in s.streams {
      SameDebt(env, s, s1, dynamic);
    }
    RestOfDebts(env, s, s2, u, ps);
    hide Total;
  }

  lemma SameDebt(env: Env, s: State, t: State, k: StreamKey)
    requires k in s.streams && k in t.streams && t.streams[k] == s.streams[k] && t.tick == s.tick && t.chargeable == s.chargeable
    ensures Debt(env, t, k) == Debt(env, s, k)
  {
  }

  lemma RestOfDebts(env: Env, s: State, s2: State, u: Account, ps: seq<ProviderId>)
    requires ps != [] && s2.tick == s.tick && s2.chargeable == s.chargeable
    requires s2.streams == s.streams - {StreamKey(ps[0], u, FixedRate)} - {StreamKey(ps[0], u, DynamicRate)}
    ensures Debts(env, s, u, ps) - {StreamKey(ps[0], u, FixedRate)} - {StreamKey(ps[0], u, DynamicRate)}
            == Debts(env, s2, u, ps[1..])
  {
    hide Debt;
    var fixed, dynamic := StreamKey(ps[0], u, FixedRate), StreamKey(ps[0], u, DynamicRate);
    var left, rest := Debts(env, s, u, ps) - {fixed} - {dynamic}, Debts(env, s2, u, ps[1..]);
    forall k: StreamKey
      ensures k in left <==> k in rest
      ensures k in left ==> left[k] == rest[k]
    {
      assert k.kind == FixedRate || k.kind == DynamicRate;
      assert k.provider in ps <==> k.provider == ps[0] || k.provider in ps[1..];
      if k in left {
        SameDebt(env, s, s2, k);
      }
    }
  }

  /** Paying debts lowers what the user owns by exactly the sum of its debts with the listed providers, each no more than the
      stream's deposit. */
  lemma PayDebtTakes(c: Config, env: Env, s: State, u: Account, ps: seq<ProviderId>)
    requires PaysOthers(c, env, u, ps) && PayDebt(c, env, s, u, ps).Ok?
    ensures Wealth(PayDebt(c, env, s, u, ps).value.state.ledger, u) + Total(Debts(env, s, u, ps)) == Wealth(s.ledger, u)
  {
    hide PayProviders, Debt;
    var start := StartPaying(s, u);
    PayProvidersTakes(c, env, start, u, ps);
    SameDebts(env, s, start.state, u, ps);
  }

  lemma SameDebts(env: Env, s: State, t: State, u: Account, ps: seq<ProviderId>)
    requires t.streams == s.streams && t.tick == s.tick && t.chargeable == s.chargeable
    ensures Debts(env, t, u, ps) == Debts(env, s, u, ps)
  {
  }

  // --- Opening a stream -------------------------------------------------------------------------------

  /** The deposit the terms of a stream ask for: the base deposit, and what `newStreamDeposit` ticks cost at the current
      price. */
  function TermsDeposit(c: Config, price: nat, kind: Kind, rate: nat): nat {
    c.baseDeposit + if kind.FixedRate? then rate * c.newStreamDeposit else price * rate * c.newStreamDeposit / GIGAUNIT
  }

  lemma DepositIsTerms(c: Config, s: State, kind: Kind, rate: nat)
    requires DepositFor(c, s, kind, rate).Some?
    ensures DepositFor(c, s, kind, rate).value == TermsDeposit(c, s.price, kind, rate)
  {
  }

  /** A new stream has the rate it was opened at, the deposit of its terms, and nothing charged before the tick, or the index,
      at which it was opened. */
  lemma OpensOnTerms(c: Config, env: Env, s: State, k: StreamKey, rate: nat)
    requires Create(c, env, s, k, rate).Ok?
    ensures var s' := Apply(c, s, Open(env, k, rate));
            && s' == Create(c, env, s, k, rate).value && k in s'.streams && s'.tick == s.tick
            && s'.streams[k] == Stream(rate, if k.kind.FixedRate? then s.tick else s.index,
                                       TermsDeposit(c, s.price, k.kind, rate), None)
  {
    DepositIsTerms(c, s, k.kind, rate);
    hide DepositFor, TermsDeposit;
  }

  /** Over every run that opens a fixed-rate stream and in which it then lives: each tick after the opening tick, up to the
      tick of the last charge paid, is billed exactly once, and no tick at or before it. */
  lemma OpenedRunTotal(c: Config, env: Env, s: State, k: StreamKey, rate: nat, rest: seq<Step>, tick: nat)
    requires k.kind.FixedRate? && Create(c, env, s, k, rate).Ok?
    requires Lives(c, Apply(c, s, Open(env, k, rate)), rest, k)
    ensures var s1 := Apply(c, s, Open(env, k, rate));
            var bills := RunBills(c, s1, rest, k);
            && k in Run(c, s1, rest).streams
            && var end := Run(c, s1, rest).streams[k].marker;
               && s.tick <= end && Billing(bills) == rate * (end - s.tick)
               && TimesCovered(bills, tick) == if s.tick < tick <= end then 1 else 0
  {
    hide *;
    OpensOnTerms(c, env, s, k, rate);
    FixedRunTotal(c, Apply(c, s, Open(env, k, rate)), rest, k, tick);
  }

  lemma TicksFrom(prices: seq<nat>, a: nat, y: nat) returns (b: nat)
    requires a <= |prices| && IsIndex(prices, y) && Index(prices[..a]) <= y
    ensures a <= b <= |prices| && Index(prices[..b]) == y
    ensures y - Index(prices[..a]) <= SumOf(prices[a..b])
    ensures SumOf(prices[a..b]) == y - Index(prices[..a]) <==> Unsaturated(prices, a, b)
  {
    b :| 0 <= b <= |prices| && y == Index(prices[..b]);
    if b < a {
      SumBetween(prices, b, a);
      b := a;
    }
    SumBetween(prices, a, b);
  }

  /** The same for a dynamic-rate stream: what it paid, with what rounding lost, is compared with the price of every tick from
      the one it was opened at. */
  lemma OpenedRunPrices(c: Config, env: Env, s: State, prices: seq<nat>, k: StreamKey, rate: nat,
                        rest: seq<Step>) returns (b: nat)
    requires k.kind.DynamicRate? && Create(c, env, s, k, rate).Ok? && InStep(s, prices)
    requires Lives(c, Apply(c, s, Open(env, k, rate)), rest, k)
    ensures var s1 := Apply(c, s, Open(env, k, rate));
            var history := prices + Prices(c, s1, rest);
            var bills := RunBills(c, s1, rest, k);
            && k in Run(c, s1, rest).streams
            && s.tick <= b <= |history| && Index(history[..b]) == Run(c, s1, rest).streams[k].marker
            && GIGAUNIT * Billing(bills) + Lost(rate, bills) <= PerTick(rate, history[s.tick..b])
            && (GIGAUNIT * Billing(bills) + Lost(rate, bills) == PerTick(rate, history[s.tick..b]) <==>
                  Unsaturated(history, s.tick, b))
  {
    OpensInStep(c, env, s, prices, k, rate);
    var s1 := Apply(c, s, Open(env, k, rate));
    var history := prices + Prices(c, s1, rest);
    assert history[..s.tick] == prices;
    hide *;
    RunBilled(c, s1, rest, k);
    RunInStep(c, s1, prices, rest);
    MarkerIsIndex(Run(c, s1, rest), history, k);
    b := BillsFromTick(rate, RunBills(c, s1, rest, k), history, s.tick, Run(c, s1, rest).streams[k].marker);
  }

  lemma OpensInStep(c: Config, env: Env, s: State, prices: seq<nat>, k: StreamKey, rate: nat)
    requires k.kind.DynamicRate? && Create(c, env, s, k, rate).Ok? && InStep(s, prices)
    ensures var s1 := Apply(c, s, Open(env, k, rate));
            && InStep(s1, prices) && s.tick == |prices| && rate != 0
            && k in s1.streams && s1.streams[k].rate == rate && s1.streams[k].marker == Index(prices)
  {
    OpensOnTerms(c, env, s, k, rate);
    OtherInStep(c, s, prices, Open(env, k, rate));
    hide Apply, DepositFor, TermsDeposit;
  }

  lemma BillsFromTick(rate: nat, bills: seq<Bill>, history: seq<nat>, a: nat, end: nat) returns (b: nat)
    requires rate != 0 && a <= |history| && Chained(DynamicRate, rate, bills, Index(history[..a]), end) && IsIndex(history, end)
    ensures a <= b <= |history| && Index(history[..b]) == end
    ensures GIGAUNIT * Billing(bills) + Lost(rate, bills) <= PerTick(rate, history[a..b])
    ensures GIGAUNIT * Billing(bills) + Lost(rate, bills) == PerTick(rate, history[a..b]) <==> Unsaturated(history, a, b)
  {
    hide IsIndex, Chained, Billing, Lost, SumOf, PerTick, Index, Unsaturated;
    DynamicTotal(rate, bills, Index(history[..a]), end);
    b := TicksFrom(history, a, end);
    PerTickIsProduct(rate, history[a..b]);
    ProductGap(rate, end - Index(history[..a]), SumOf(history[a..b]));
  }

  // --- Up to where a charge bills ---------------------------------------------------------------------

  /** After a charge that billed the stream, its marker is where its provider may charge up to. */
  lemma StreamBilledUpTo(c: Config, env: Env, s: State, key: StreamKey, already: nat, k: StreamKey)
    requires ChargeStream(c, env, s, key, already).Ok?
    ensures var s' := ChargeStream(c, env, s, key, already).value.state;
            && s'.tick == s.tick && s'.chargeable == s.chargeable
            && (StreamBills(c, env, s, key, already, k) != [] ==> k in s'.streams && s'.streams[k].marker == UpTo(env, s, k))
            && (k in s'.streams ==> k in s.streams)
            && (k in s'.streams && StreamBills(c, env, s, key, already, k) == [] ==> s'.streams[k].marker == s.streams[k].marker)
  {
    if key in s.streams {
      DecidesPrice(c, env, s, key, already);
    }
    hide Decide, PayFrom, Release, UpTo, Price;
  }

  lemma UserBilledUpTo(c: Config, env: Env, s: State, p: ProviderId, u: Account, k: StreamKey)
    requires Charge(c, env, s, p, u).Ok?
    ensures var s' := Charge(c, env, s, p, u).value.state;
            && s'.tick == s.tick && s'.chargeable == s.chargeable
            && (k in s'.streams ==> k in s.streams)
            && (ChargeBills(c, env, s, p, u, k) != [] ==> k in s'.streams && s'.streams[k].marker == UpTo(env, s, k))
            && (k in s'.streams && ChargeBills(c, env, s, p, u, k) == [] ==> s'.streams[k].marker == s.streams[k].marker)
  {
    hide ChargeStream;
    var fixed, dynamic := StreamKey(p, u, FixedRate), StreamKey(p, u, DynamicRate);
    var first := ChargeStream(c, env, s, fixed, 0).value;
    StreamBilledUpTo(c, env, s, fixed, 0, k);
    StreamBilledUpTo(c, env, first.state, dynamic, first.amount, k);
    if k == fixed {
      ChargedAlone(c, env, first.state, dynamic, first.amount, k);
    }
    hide StreamBills;
  }

  lemma ChargedAlone(c: Config, env: Env, s: State, key: StreamKey, already: nat, k: StreamKey)
    requires k != key && ChargeStream(c, env, s, key, already).Ok?
    ensures k in s.streams ==> k in ChargeStream(c, env, s, key, already).value.state.streams
    ensures StreamBills(c, env, s, key, already, k) == []
  {
    hide Metered, PayFrom, Release;
  }

  /** A batch that billed the stream leaves its marker where its provider may charge up to. */
  lemma {:induction false} BatchBilledUpTo(c: Config, env: Env, s: State, p: ProviderId, users: seq<Account>,
                                           k: StreamKey)
    requires ChargeAll(c, env, s, p, users).Ok?
    ensures var s' := ChargeAll(c, env, s, p, users).value;
            && (k in s'.streams ==> k in s.streams)
            && (k in s'.streams && ChargeAllBills(c, env, s, p, users, k) != [] ==> s'.streams[k].marker == UpTo(env, s, k))
            && (k in s'.streams && ChargeAllBills(c, env, s, p, users, k) == [] ==> s'.streams[k].marker == s.streams[k].marker)
    decreases |users|
  {
    hide Charge, ChargeBills;
    if users != [] {
      var s1 := Charge(c, env, s, p, users[0]).value.state;
      UserBilledUpTo(c, env, s, p, users[0], k);
      BatchBilledUpTo(c, env, s1, p, users[1..], k);
    }
  }

  // --- A new rate -------------------------------------------------------------------------------------

  /** An accepted update gives the stream its new rate and the deposit of its new terms, after billing it at the old one. */
  lemma RerateOnTerms(c: Config, env: Env, s: State, k: StreamKey, rate: nat)
    requires Update(c, env, s, k, rate).Ok?
    ensures var s' := Apply(c, s, Change(env, k, rate));
            && k in s.streams && k in s'.streams
            && s'.streams[k].rate == rate != s.streams[k].rate
            && s'.streams[k].deposit == TermsDeposit(c, s.price, k.kind, rate)
            && Chained(k.kind, s.streams[k].rate, StepBills(c, s, Change(env, k, rate), k),
                       s.streams[k].marker, s'.streams[k].marker)
            && (StepBills(c, s, Change(env, k, rate), k) != [] ==> s'.streams[k].marker == UpTo(env, s, k))
  {
    var charged := Charge(c, env, s, k.provider, k.user).value.state;
    ChargeBilled(c, env, s, k.provider, k.user, k);
    UserBilledUpTo(c, env, s, k.provider, k.user, k);
    ChargeMarker(c, env, s, k.provider, k.user, k);
    DepositIsTerms(c, charged, k.kind, rate);
    hide Charge, ChargeBills, DepositFor, AdjustDeposit, Chained, TermsDeposit, UpTo;
  }

  /** Over a run with an update in it, a fixed-rate stream pays every tick up to the update's charge at the old rate and every
      tick after it at the new one. */
  lemma ReratedRunTotal(c: Config, s: State, before: seq<Step>, env: Env, k: StreamKey, rate: nat, after: seq<Step>)
    requires k.kind.FixedRate? && Lives(c, s, before, k)
    requires Update(c, env, Run(c, s, before), k, rate).Ok?
    requires Lives(c, Apply(c, Run(c, s, before), Change(env, k, rate)), after, k)
    ensures var s1 := Run(c, s, before);
            var s2 := Apply(c, s1, Change(env, k, rate));
            && k in s2.streams && k in Run(c, s2, after).streams
            && var a, m, b := s.streams[k].marker, s2.streams[k].marker, Run(c, s2, after).streams[k].marker;
               && a <= m <= b
               && Billing(RunBills(c, s, before, k) + StepBills(c, s1, Change(env, k, rate), k)) == s.streams[k].rate * (m - a)
               && Billing(RunBills(c, s2, after, k)) == rate * (b - m)
  {
    var s1 := Run(c, s, before);
    var s2 := Apply(c, s1, Change(env, k, rate));
    hide Apply, Run, RunBills, StepBills, Chained, TermsDeposit;
    RunBilled(c, s, before, k);
    RerateOnTerms(c, env, s1, k, rate);
    RunBilled(c, s2, after, k);
    hide Lives, Update;
    var a, m0, m, b := s.streams[k].marker, s1.streams[k].marker, s2.streams[k].marker, Run(c, s2, after).streams[k].marker;
    var early, late := RunBills(c, s, before, k), StepBills(c, s1, Change(env, k, rate), k);
    ChainedConcat(k.kind, s.streams[k].rate, early, late, a, m0, m);
    FixedTotal(s.streams[k].rate, early + late, a, m);
    FixedTotal(rate, RunBills(c, s2, after, k), m, b);
  }
}
