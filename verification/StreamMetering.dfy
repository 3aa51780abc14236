/** What a stream is billed over a run. The charge of a dynamic-rate stream is computed from the difference of two
    accumulated price indexes; here it is compared with pricing every tick on its own. */
module StreamMetering {
  import opened Prelude
  import opened Balances
  import opened PaymentStreams
  import opened StreamAccounts

  /** One payment taken for a stream: its marker moved from `start` to `end`. */
  datatype Bill = Bill(start: nat, end: nat, amount: nat)

  ghost function StreamBills(c: Config, env: Env, s: State, key: StreamKey, already: nat, k: StreamKey): seq<Bill> {
    if key != k || key !in s.streams then []
    else
      var e := Decide(c, env, s, key, already);
      if e.Ok? && e.value.Pays? then [Bill(s.streams[key].marker, e.value.marker, e.value.amount)] else []
  }

  ghost function ChargeBills(c: Config, env: Env, s: State, p: ProviderId, u: Account, k: StreamKey): seq<Bill> {
    var first := ChargeStream(c, env, s, StreamKey(p, u, FixedRate), 0);
    StreamBills(c, env, s, StreamKey(p, u, FixedRate), 0, k)
    + if first.Ok? then StreamBills(c, env, first.value.state, StreamKey(p, u, DynamicRate), first.value.amount, k) else []
  }

  ghost function ChargeAllBills(c: Config, env: Env, s: State, p: ProviderId, users: seq<Account>,
                                k: StreamKey): seq<Bill>
    decreases |users|
  {
    if users == [] then []
    else
      var charged := Charge(c, env, s, p, users[0]);
      ChargeBills(c, env, s, p, users[0], k)
      + if charged.Ok? then ChargeAllBills(c, env, charged.value.state, p, users[1..], k) else []
  }

  /** The payments a step takes for stream `k`. Updates and deletions charge both streams of the pair first; a failed
      step takes nothing. */
  ghost function StepBills(c: Config, s: State, step: Step, k: StreamKey): seq<Bill> {
    match step
    case ChargeUsers(env, p, users) =>
      if ChargeAll(c, env, s, p, users).Ok? then ChargeAllBills(c, env, s, p, users, k) else []
    case Change(env, key, rate) =>
      if Update(c, env, s, key, rate).Ok? then ChargeBills(c, env, s, key.provider, key.user, k) else []
    case Close(env, key) =>
      if Delete(c, env, s, key).Ok? && key.provider !in env.insolvent
      then ChargeBills(c, env, s, key.provider, key.user, k) else []
    case _ => []
  }

  ghost function RunBills(c: Config, s: State, steps: seq<Step>, k: StreamKey): seq<Bill>
    decreases |steps|
  {
    if steps == [] then []
    else StepBills(c, s, steps[0], k) + RunBills(c, Apply(c, s, steps[0]), steps[1..], k)
  }

  /** The bills take the marker from `start` to `end` without gap or overlap, each at the price of its own stretch. */
  ghost predicate Chained(kind: Kind, rate: nat, bills: seq<Bill>, start: nat, end: nat)
    decreases |bills|
  {
    if bills == [] then start == end
    else
      && bills[0].start == start <= bills[0].end
      && Metered(kind, rate, bills[0].end - start) == Some(bills[0].amount)
      && Chained(kind, rate, bills[1..], bills[0].end, end)
  }

  lemma {:induction false} ChainedConcat(kind: Kind, rate: nat, a: seq<Bill>, b: seq<Bill>, start: nat, mid: nat,
                                         end: nat)
    requires Chained(kind, rate, a, start, mid) && Chained(kind, rate, b, mid, end)
    ensures Chained(kind, rate, a + b, start, end)
    decreases |a|
  {
    if a == [] {
      assert a + b == b;
    } else {
      assert (a + b)[1..] == a[1..] + b;
      ChainedConcat(kind, rate, a[1..], b, a[0].end, mid, end);
    }
  }

  /** The bills of a step account for what it did to the marker of a stream that survives it at its rate. */
  ghost predicate Billed(s: State, s': State, k: StreamKey, bills: seq<Bill>) {
    k in s'.streams ==>
      && k in s.streams && s'.streams[k].rate == s.streams[k].rate
      && Chained(k.kind, s.streams[k].rate, bills, s.streams[k].marker, s'.streams[k].marker)
  }

  lemma BilledConcat(s: State, t: State, r: State, k: StreamKey, a: seq<Bill>, b: seq<Bill>)
    requires Billed(s, t, k, a) && Billed(t, r, k, b)
    ensures Billed(s, r, k, a + b)
  {
    hide Chained;
    if k in r.streams {
      ChainedConcat(k.kind, s.streams[k].rate, a, b, s.streams[k].marker, t.streams[k].marker, r.streams[k].marker);
    }
  }

  lemma NothingBilled(s: State, s': State, k: StreamKey)
    requires k in s'.streams ==> k in s.streams && s'.streams[k].rate == s.streams[k].rate
                                 && s'.streams[k].marker == s.streams[k].marker
    ensures Billed(s, s', k, [])
  {
  }

  lemma OneBill(kind: Kind, rate: nat, bill: Bill)
    requires bill.start <= bill.end && Metered(kind, rate, bill.end - bill.start) == Some(bill.amount)
    ensures Chained(kind, rate, [bill], bill.start, bill.end)
  {
    assert Chained(kind, rate, [bill][1..], bill.end, bill.end);
  }

  lemma ChargeStreamBilled(c: Config, env: Env, s: State, key: StreamKey, already: nat, k: StreamKey)
    requires ChargeStream(c, env, s, key, already).Ok?
    ensures Billed(s, ChargeStream(c, env, s, key, already).value.state, k, StreamBills(c, env, s, key, already, k))
  {
    hide Metered, PayFrom, Release, Chained;
    var s' := ChargeStream(c, env, s, key, already).value.state;
    if key == k && key in s.streams && Decide(c, env, s, key, already).value.Pays? {
      OneBill(k.kind, s.streams[k].rate, StreamBills(c, env, s, key, already, k)[0]);
    } else {
      NothingBilled(s, s', k);
    }
  }

  lemma ChargeBilled(c: Config, env: Env, s: State, p: ProviderId, u: Account, k: StreamKey)
    requires Charge(c, env, s, p, u).Ok?
    ensures Billed(s, Charge(c, env, s, p, u).value.state, k, ChargeBills(c, env, s, p, u, k))
  {
    hide ChargeStream, StreamBills, Billed;
    var fixed, dynamic := StreamKey(p, u, FixedRate), StreamKey(p, u, DynamicRate);
    var first := ChargeStream(c, env, s, fixed, 0).value;
    var last := ChargeStream(c, env, first.state, dynamic, first.amount).value;
    ChargeStreamBilled(c, env, s, fixed, 0, k);
    ChargeStreamBilled(c, env, first.state, dynamic, first.amount, k);
    BilledConcat(s, first.state, last.state, k, StreamBills(c, env, s, fixed, 0, k),
                 StreamBills(c, env, first.state, dynamic, first.amount, k));
  }

  lemma {:induction false} ChargeAllBilled(c: Config, env: Env, s: State, p: ProviderId, users: seq<Account>,
                                           k: StreamKey)
    requires ChargeAll(c, env, s, p, users).Ok?
    ensures Billed(s, ChargeAll(c, env, s, p, users).value, k, ChargeAllBills(c, env, s, p, users, k))
    decreases |users|
  {
    hide Charge, ChargeBills, Billed;
    if users == [] {
      NothingBilled(s, s, k);
    } else {
      var s' := Charge(c, env, s, p, users[0]).value.state;
      ChargeBilled(c, env, s, p, users[0], k);
      ChargeAllBilled(c, env, s', p, users[1..], k);
      BilledConcat(s, s', ChargeAll(c, env, s', p, users[1..]).value, k, ChargeBills(c, env, s, p, users[0], k),
                   ChargeAllBills(c, env, s', p, users[1..], k));
    }
  }

  /** The step gives stream `k` a new rate. */
  ghost predicate Rerates(c: Config, s: State, step: Step, k: StreamKey) {
    step.Change? && step.key == k && Update(c, step.env, s, step.key, step.rate).Ok?
  }

  lemma UpdateBilled(c: Config, env: Env, s: State, key: StreamKey, rate: nat, k: StreamKey)
    requires Update(c, env, s, key, rate).Ok? && key != k
    ensures Billed(s, Update(c, env, s, key, rate).value, k, ChargeBills(c, env, s, key.provider, key.user, k))
  {
    hide Charge, ChargeBills, DepositFor, AdjustDeposit, Chained;
    ChargeBilled(c, env, s, key.provider, key.user, k);
  }

  lemma DeleteBilled(c: Config, env: Env, s: State, key: StreamKey, k: StreamKey)
    requires Delete(c, env, s, key).Ok?
    ensures Billed(s, Delete(c, env, s, key).value, k, StepBills(c, s, Close(env, key), k))
  {
    hide Charge, ChargeBills, Release, Chained;
    if key.provider !in env.insolvent {
      ChargeBilled(c, env, s, key.provider, key.user, k);
    } else {
      NothingBilled(s, Delete(c, env, s, key).value, k);
    }
  }

  /** Paying debts takes streams away and leaves the others as they are. */
  lemma PayStreamMarks(c: Config, env: Env, w: Paying, key: StreamKey, k: StreamKey)
    requires PayStream(c, env, w, key).Ok?
    ensures var s' := PayStream(c, env, w, key).value.state;
            k in s'.streams ==> k in w.state.streams && s'.streams[k] == w.state.streams[k]
  {
    hide DecideLiquidation, PayFrom;
  }

  lemma {:induction false} PayProvidersMarks(c: Config, env: Env, w: Paying, u: Account, ps: seq<ProviderId>,
                                             k: StreamKey)
    requires PayProviders(c, env, w, u, ps).Ok?
    ensures var s' := PayProviders(c, env, w, u, ps).value.state;
            k in s'.streams ==> k in w.state.streams && s'.streams[k] == w.state.streams[k]
    decreases |ps|
  {
    hide PayStream;
    if ps != [] {
      PayStreamMarks(c, env, w, StreamKey(ps[0], u, FixedRate), k);
      var w1 := PayStream(c, env, w, StreamKey(ps[0], u, FixedRate)).value;
      PayStreamMarks(c, env, w1, StreamKey(ps[0], u, DynamicRate), k);
      PayProvidersMarks(c, env, PayProvider(c, env, w, u, ps[0]).value, u, ps[1..], k);
    }
  }

  lemma PayDebtBilled(c: Config, env: Env, s: State, u: Account, ps: seq<ProviderId>, k: StreamKey)
    requires PayDebt(c, env, s, u, ps).Ok?
    ensures Billed(s, PayDebt(c, env, s, u, ps).value.state, k, [])
  {
    hide PayProviders;
    PayProvidersMarks(c, env, StartPaying(s, u), u, ps, k);
    NothingBilled(s, PayDebt(c, env, s, u, ps).value.state, k);
  }

  lemma StepBilled(c: Config, s: State, step: Step, k: StreamKey)
    requires k in s.streams && !Rerates(c, s, step, k)
    ensures Billed(s, Apply(c, s, step), k, StepBills(c, s, step, k))
  {
    hide Update, Delete, ChargeAll, PayDebt, Billed, ChargeAllBills, ChargeBills;
    match step
    case Tick(_, _) => NothingBilled(s, Apply(c, s, step), k);
    case NewPrice(_) => NothingBilled(s, Apply(c, s, step), k);
    case Spend(_, _, _) => NothingBilled(s, Apply(c, s, step), k);
    case Open(_, _, _) => NothingBilled(s, Apply(c, s, step), k);
    case Change(env, key, rate) =>
      if Update(c, env, s, key, rate).Ok? { UpdateBilled(c, env, s, key, rate, k); } else { NothingBilled(s, s, k); }
    case Close(env, key) =>
      if Delete(c, env, s, key).Ok? { DeleteBilled(c, env, s, key, k); } else { NothingBilled(s, s, k); }
    case ChargeUsers(env, p, users) =>
      if ChargeAll(c, env, s, p, users).Ok? { ChargeAllBilled(c, env, s, p, users, k); } else { NothingBilled(s, s, k); }
    case PayDebts(env, v, ps) =>
      if PayDebt(c, env, s, v, ps).Ok? { PayDebtBilled(c, env, s, v, ps, k); } else { NothingBilled(s, s, k); }
    case Clear(_) => NothingBilled(s, Apply(c, s, step), k);
  }

  /** The stream lives through the whole run at one rate. */
  ghost predicate Lives(c: Config, s: State, steps: seq<Step>, k: StreamKey)
    decreases |steps|
  {
    && k in s.streams
    && (steps == [] || (!Rerates(c, s, steps[0], k) && Lives(c, Apply(c, s, steps[0]), steps[1..], k)))
  }

  /** Whatever else happens in the run, the bills of a stream that lives through it are chained from its first marker to
      its last. */
  lemma {:induction false} RunBilled(c: Config, s: State, steps: seq<Step>, k: StreamKey)
    requires Lives(c, s, steps, k)
    ensures var s' := Run(c, s, steps);
            && k in s'.streams && s'.streams[k].rate == s.streams[k].rate
            && Chained(k.kind, s.streams[k].rate, RunBills(c, s, steps, k), s.streams[k].marker, s'.streams[k].marker)
    decreases |steps|
  {
    hide Apply, StepBills, Rerates, Chained;
    if steps == [] {
      NothingBilled(s, s, k);
    } else {
      var s' := Apply(c, s, steps[0]);
      StepBilled(c, s, steps[0], k);
      RunBilled(c, s', steps[1..], k);
      BilledConcat(s, s', Run(c, s, steps), k, StepBills(c, s, steps[0], k), RunBills(c, s', steps[1..], k));
    }
  }

  // --- No stretch twice, none skipped -----------------------------------------------------------------

  /** How many bills cover the unit that ends at `x`. */
  function TimesCovered(bills: seq<Bill>, x: nat): nat
    decreases |bills|
  {
    if bills == [] then 0 else (if bills[0].start < x <= bills[0].end then 1 else 0) + TimesCovered(bills[1..], x)
  }

  lemma {:induction false} ChainedCoversOnce(kind: Kind, rate: nat, bills: seq<Bill>, start: nat, end: nat, x: nat)
    requires Chained(kind, rate, bills, start, end)
    ensures start <= end
    ensures TimesCovered(bills, x) == if start < x <= end then 1 else 0
    decreases |bills|
  {
    if bills != [] {
      ChainedCoversOnce(kind, rate, bills[1..], bills[0].end, end, x);
    }
  }

  function Billing(bills: seq<Bill>): nat
    decreases |bills|
  {
    if bills == [] then 0 else bills[0].amount + Billing(bills[1..])
  }

  /** What dynamic-rate bills lose to rounding, in parts of a giga-unit. */
  function Lost(rate: nat, bills: seq<Bill>): nat
    decreases |bills|
  {
    if bills == [] then 0
    else rate * SatSub(bills[0].end, bills[0].start) % GIGAUNIT + Lost(rate, bills[1..])
  }

  lemma Distribute(rate: nat, a: nat, b: nat, d: nat)
    requires a <= b <= d
    ensures rate * (d - a) == rate * (b - a) + rate * (d - b)
  {
    assert d - a == (b - a) + (d - b);
  }

  lemma {:induction false} FixedTotal(rate: nat, bills: seq<Bill>, start: nat, end: nat)
    requires Chained(FixedRate, rate, bills, start, end)
    ensures start <= end && Billing(bills) == rate * (end - start)
    decreases |bills|
  {
    if bills != [] {
      FixedTotal(rate, bills[1..], bills[0].end, end);
      Distribute(rate, start, bills[0].end, end);
    }
  }

  lemma {:induction false} DynamicTotal(rate: nat, bills: seq<Bill>, start: nat, end: nat)
    requires Chained(DynamicRate, rate, bills, start, end)
    ensures start <= end && GIGAUNIT * Billing(bills) + Lost(rate, bills) == rate * (end - start)
    ensures Lost(rate, bills) <= |bills| * (GIGAUNIT - 1)
    decreases |bills|
  {
    if bills != [] {
      DynamicTotal(rate, bills[1..], bills[0].end, end);
      Distribute(rate, start, bills[0].end, end);
      var product := rate * (bills[0].end - start);
      assert product == GIGAUNIT * (product / GIGAUNIT) + product % GIGAUNIT;
    }
  }

  /** A fixed-rate stream pays for each tick its marker passes exactly once: the total over any run telescopes. */
  lemma FixedRunTotal(c: Config, s: State, steps: seq<Step>, k: StreamKey, tick: nat)
    requires k.kind.FixedRate? && Lives(c, s, steps, k)
    ensures k in Run(c, s, steps).streams
    ensures var a, b := s.streams[k].marker, Run(c, s, steps).streams[k].marker;
            && a <= b
            && Billing(RunBills(c, s, steps, k)) == s.streams[k].rate * (b - a)
            && TimesCovered(RunBills(c, s, steps, k), tick) == if a < tick <= b then 1 else 0
  {
    hide Run, RunBills;
    RunBilled(c, s, steps, k);
    hide Lives;
    var a, b := s.streams[k].marker, Run(c, s, steps).streams[k].marker;
    FixedTotal(s.streams[k].rate, RunBills(c, s, steps, k), a, b);
    ChainedCoversOnce(k.kind, s.streams[k].rate, RunBills(c, s, steps, k), a, b, tick);
  }

  // --- Dynamic rate against the price history ---------------------------------------------------------

  function SumOf(xs: seq<nat>): nat
    decreases |xs|
  {
    if xs == [] then 0 else SumOf(xs[..|xs| - 1]) + xs[|xs| - 1]
  }

  /** The price of each tick of a run. */
  function Prices(c: Config, s: State, steps: seq<Step>): seq<nat>
    decreases |steps|
  {
    if steps == [] then []
    else (if steps[0].Tick? then [s.price] else []) + Prices(c, Apply(c, s, steps[0]), steps[1..])
  }

  /** The accumulated index of a price history: the sum of the prices, which saturates. */
  function Index(prices: seq<nat>): nat {
    Min(SumOf(prices), MAX_BALANCE)
  }

  /** `index` is the accumulated index of the first ticks of the history. */
  ghost predicate IsIndex(prices: seq<nat>, index: nat) {
    exists t :: 0 <= t <= |prices| && index == Index(prices[..t])
  }

  /** Every price index in the storage is the accumulated price at some tick: the current one at the current tick, a
      provider's at its chargeable tick, which has passed, and each dynamic stream's marker at some tick. */
  ghost predicate InStep(s: State, prices: seq<nat>) {
    && s.tick == |prices| && s.index == Index(prices)
    && (forall p :: p in s.chargeable ==>
          s.chargeable[p].tick < |prices| && s.chargeable[p].index == Index(prices[..s.chargeable[p].tick]))
    && (forall k :: k in s.streams && k.kind.DynamicRate? ==> IsIndex(prices, s.streams[k].marker))
  }

  /** A marker a step may write: an old one, the current index, or a chargeable one. */
  ghost predicate MarkerFrom(s: State, s': State, k: StreamKey) {
    k in s'.streams && k.kind.DynamicRate? ==>
      || (k in s.streams && s'.streams[k].marker == s.streams[k].marker)
      || s'.streams[k].marker == s.index
      || (k.provider in s.chargeable && s'.streams[k].marker == s.chargeable[k.provider].index)
  }

  ghost predicate ClockKept(s: State, s': State) {
    s'.tick == s.tick && s'.index == s.index && s'.chargeable == s.chargeable && s'.price == s.price
    && s'.provenTick == s.provenTick
  }

  lemma ChargeStreamMarker(c: Config, env: Env, s: State, key: StreamKey, already: nat, k: StreamKey)
    requires ChargeStream(c, env, s, key, already).Ok?
    ensures var s' := ChargeStream(c, env, s, key, already).value.state;
            MarkerFrom(s, s', k) && ClockKept(s, s')
  {
    hide Metered, PayFrom, Release;
  }

  lemma ChargeMarker(c: Config, env: Env, s: State, p: ProviderId, u: Account, k: StreamKey)
    requires Charge(c, env, s, p, u).Ok?
    ensures var s' := Charge(c, env, s, p, u).value.state;
            MarkerFrom(s, s', k) && ClockKept(s, s')
  {
    hide ChargeStream;
    var first := ChargeStream(c, env, s, StreamKey(p, u, FixedRate), 0).value;
    ChargeStreamMarker(c, env, s, StreamKey(p, u, FixedRate), 0, k);
    ChargeStreamMarker(c, env, first.state, StreamKey(p, u, DynamicRate), first.amount, k);
  }

  lemma {:induction false} ChargeAllMarker(c: Config, env: Env, s: State, p: ProviderId, users: seq<Account>,
                                           k: StreamKey)
    requires ChargeAll(c, env, s, p, users).Ok?
    ensures var s' := ChargeAll(c, env, s, p, users).value;
            MarkerFrom(s, s', k) && ClockKept(s, s')
    decreases |users|
  {
    hide Charge;
    if users != [] {
      ChargeMarker(c, env, s, p, users[0], k);
      ChargeAllMarker(c, env, Charge(c, env, s, p, users[0]).value.state, p, users[1..], k);
    }
  }

  lemma PayProvidersClock(c: Config, env: Env, w: Paying, u: Account, ps: seq<ProviderId>)
    requires PayProviders(c, env, w, u, ps).Ok?
    ensures ClockKept(w.state, PayProviders(c, env, w, u, ps).value.state)
    decreases |ps|
  {
    hide DecideLiquidation, PayFrom;
    if ps != [] {
      PayProvidersClock(c, env, PayProvider(c, env, w, u, ps[0]).value, u, ps[1..]);
    }
  }

  lemma StepMarker(c: Config, s: State, step: Step, k: StreamKey)
    requires !step.Tick? && !step.NewPrice?
    ensures MarkerFrom(s, Apply(c, s, step), k) && ClockKept(s, Apply(c, s, step))
  {
    match step
    case Spend(_, _, _) =>
    case Open(_, _, _) =>
    case Change(env, key, rate) =>
      hide Charge, DepositFor, AdjustDeposit;
      if Update(c, env, s, key, rate).Ok? { ChargeMarker(c, env, s, key.provider, key.user, k); }
    case Close(env, key) =>
      hide Charge, Release;
      if Delete(c, env, s, key).Ok? && key.provider !in env.insolvent { ChargeMarker(c, env, s, key.provider, key.user, k); }
    case ChargeUsers(env, p, users) =>
      hide ChargeAll;
      if ChargeAll(c, env, s, p, users).Ok? { ChargeAllMarker(c, env, s, p, users, k); }
    case PayDebts(env, v, ps) =>
      hide PayProviders;
      if PayDebt(c, env, s, v, ps).Ok? {
        PayProvidersMarks(c, env, StartPaying(s, v), v, ps, k);
        PayProvidersClock(c, env, StartPaying(s, v), v, ps);
      }
    case Clear(_) =>
  }

  lemma PrefixOf(prices: seq<nat>, price: nat, t: nat)
    requires t <= |prices|
    ensures (prices + [price])[..t] == prices[..t]
  {
  }

  lemma IsIndexLonger(prices: seq<nat>, price: nat, index: nat)
    requires IsIndex(prices, index)
    ensures IsIndex(prices + [price], index)
  {
    var t :| 0 <= t <= |prices| && index == Index(prices[..t]);
    PrefixOf(prices, price, t);
  }

  lemma PollInStep(s: State, prices: seq<nat>, dealerTick: Tick, submitters: set<ProviderId>)
    requires InStep(s, prices)
    ensures InStep(Poll(s, dealerTick, submitters), prices + [s.price])
  {
    var longer := prices + [s.price];
    var s' := Poll(s, dealerTick, submitters);
    assert longer[..|longer| - 1] == prices == prices[..|prices|];
    forall p | p in s'.chargeable
      ensures s'.chargeable[p].tick < |longer| && s'.chargeable[p].index == Index(longer[..s'.chargeable[p].tick])
    {
      PrefixOf(prices, s.price, s'.chargeable[p].tick);
    }
    forall k | k in s'.streams && k.kind.DynamicRate?
      ensures IsIndex(longer, s'.streams[k].marker)
    {
      IsIndexLonger(prices, s.price, s.streams[k].marker);
    }
  }

  lemma OtherInStep(c: Config, s: State, prices: seq<nat>, step: Step)
    requires InStep(s, prices) && !step.Tick?
    ensures InStep(Apply(c, s, step), prices)
  {
    var s' := Apply(c, s, step);
    hide Apply;
    if step.NewPrice? {
      PriceInStep(c, s, prices, step);
    } else {
      StepMarker(c, s, step, StreamKey(0, 0, FixedRate));
      forall k | k in s'.streams && k.kind.DynamicRate?
        ensures IsIndex(prices, s'.streams[k].marker)
      {
        StepMarker(c, s, step, k);
        assert prices[..|prices|] == prices;
      }
    }
  }

  lemma PriceInStep(c: Config, s: State, prices: seq<nat>, step: Step)
    requires InStep(s, prices) && step.NewPrice?
    ensures InStep(Apply(c, s, step), prices)
  {
  }

  /** Index bookkeeping over whole runs: the accumulated index is the sum of the prices of all ticks so far, and every
      index that charges are computed from is that sum at some earlier tick. */
  lemma {:induction false} RunInStep(c: Config, s: State, prices: seq<nat>, steps: seq<Step>)
    requires InStep(s, prices)
    ensures InStep(Run(c, s, steps), prices + Prices(c, s, steps))
    decreases |steps|
  {
    if steps == [] {
      assert prices + [] == prices;
    } else {
      hide InStep;
      var s' := Apply(c, s, steps[0]);
      var rest := Prices(c, s', steps[1..]);
      if steps[0].Tick? {
        PollInStep(s, prices, steps[0].dealerTick, steps[0].submitters);
        RunInStep(c, s', prices + [s.price], steps[1..]);
        assert prices + [s.price] + rest == prices + ([s.price] + rest);
      } else {
        OtherInStep(c, s, prices, steps[0]);
        RunInStep(c, s', prices, steps[1..]);
        assert [] + rest == rest;
      }
    }
  }

  lemma {:induction false} SumOfConcat(xs: seq<nat>, ys: seq<nat>)
    ensures SumOf(xs + ys) == SumOf(xs) + SumOf(ys)
    decreases |ys|
  {
    if ys == [] {
      assert xs + ys == xs;
    } else {
      assert (xs + ys)[..|xs + ys| - 1] == xs + ys[..|ys| - 1];
      SumOfConcat(xs, ys[..|ys| - 1]);
    }
  }

  lemma SumBetween(prices: seq<nat>, a: nat, b: nat)
    requires a <= b <= |prices|
    ensures SumOf(prices[..b]) == SumOf(prices[..a]) + SumOf(prices[a..b])
  {
    assert prices[..b] == prices[..a] + prices[a..b];
    SumOfConcat(prices[..a], prices[a..b]);
  }

  /** The index has not saturated over a stretch of the history, or nothing was due in it. */
  predicate Unsaturated(prices: seq<nat>, a: nat, b: nat)
    requires a <= b <= |prices|
  {
    SumOf(prices[..b]) <= MAX_BALANCE || SumOf(prices[a..b]) == 0
  }

  /** The ticks between two indexes of a history. */
  lemma TicksBetween(prices: seq<nat>, x: nat, y: nat) returns (a: nat, b: nat)
    requires IsIndex(prices, x) && IsIndex(prices, y) && x <= y
    ensures a <= b <= |prices| && Index(prices[..a]) == x && Index(prices[..b]) == y
    ensures y - x <= SumOf(prices[a..b])
    ensures SumOf(prices[a..b]) == y - x <==> Unsaturated(prices, a, b)
  {
    a :| 0 <= a <= |prices| && x == Index(prices[..a]);
    b :| 0 <= b <= |prices| && y == Index(prices[..b]);
    if a > b {
      SumBetween(prices, b, a);
      b := a;
    }
    SumBetween(prices, a, b);
  }

  /** The per-tick reference: every tick priced on its own. */
  function PerTick(rate: nat, prices: seq<nat>): nat
    decreases |prices|
  {
    if prices == [] then 0 else PerTick(rate, prices[..|prices| - 1]) + rate * prices[|prices| - 1]
  }

  lemma {:induction false} PerTickIsProduct(rate: nat, prices: seq<nat>)
    ensures PerTick(rate, prices) == rate * SumOf(prices)
    decreases |prices|
  {
    if prices != [] {
      var xs, x := prices[..|prices| - 1], prices[|prices| - 1];
      PerTickIsProduct(rate, xs);
      assert rate * (SumOf(xs) + x) == rate * SumOf(xs) + rate * x;
    }
  }

  /** The stretch of the price history a stream paid for, from `a` up to `b`. */
  ghost predicate PaidStretch(c: Config, s: State, prices: seq<nat>, steps: seq<Step>, k: StreamKey, a: nat, b: nat)
    requires k in s.streams
  {
    var history := prices + Prices(c, s, steps);
    && k in Run(c, s, steps).streams && a <= b <= |history|
    && Index(history[..a]) == s.streams[k].marker
    && Index(history[..b]) == Run(c, s, steps).streams[k].marker
  }

  /** The ticks a dynamic-rate stream of constant amount paid for over a run are consecutive ticks of the price history
      (`prices` from before the run, then the run's own). What it paid, in parts of a giga-unit and with what rounding lost,
      is never more than the sum over those ticks of amount times price, and is exactly that unless the index saturated. */
  lemma DynamicRunTotal(c: Config, s: State, prices: seq<nat>, steps: seq<Step>, k: StreamKey)
    returns (a: nat, b: nat)
    requires InStep(s, prices) && k.kind.DynamicRate? && Lives(c, s, steps, k)
    ensures PaidStretch(c, s, prices, steps, k, a, b)
    ensures var history := prices + Prices(c, s, steps);
            var bills := RunBills(c, s, steps, k);
            var rate := s.streams[k].rate;
            && GIGAUNIT * Billing(bills) + Lost(rate, bills) <= PerTick(rate, history[a..b])
            && (GIGAUNIT * Billing(bills) + Lost(rate, bills) == PerTick(rate, history[a..b]) <==>
                  rate == 0 || Unsaturated(history, a, b))
            && Lost(rate, bills) <= |bills| * (GIGAUNIT - 1)
  {
    hide Run, RunBills, Prices, IsIndex, InStep, Chained, Index;
    var history := prices + Prices(c, s, steps);
    RunBilled(c, s, steps, k);
    RunInStep(c, s, prices, steps);
    MarkerIsIndex(s, prices, k);
    MarkerIsIndex(Run(c, s, steps), history, k);
    StartsInHistory(prices, Prices(c, s, steps), s.streams[k].marker);
    a, b := BillsAgainstHistory(s.streams[k].rate, RunBills(c, s, steps, k), history,
                                s.streams[k].marker, Run(c, s, steps).streams[k].marker);
  }

  lemma BillsAgainstHistory(rate: nat, bills: seq<Bill>, history: seq<nat>, start: nat, end: nat) returns (a: nat, b: nat)
    requires Chained(DynamicRate, rate, bills, start, end) && IsIndex(history, start) && IsIndex(history, end)
    ensures a <= b <= |history| && Index(history[..a]) == start && Index(history[..b]) == end
    ensures GIGAUNIT * Billing(bills) + Lost(rate, bills) <= PerTick(rate, history[a..b])
    ensures GIGAUNIT * Billing(bills) + Lost(rate, bills) == PerTick(rate, history[a..b]) <==>
              rate == 0 || Unsaturated(history, a, b)
    ensures Lost(rate, bills) <= |bills| * (GIGAUNIT - 1)
  {
    hide IsIndex, Chained, Billing, Lost, SumOf, PerTick, Index, Unsaturated;
    DynamicTotal(rate, bills, start, end);
    a, b := TicksBetween(history, start, end);
    PerTickIsProduct(rate, history[a..b]);
    ProductGap(rate, end - start, SumOf(history[a..b]));
  }

  lemma ProductGap(rate: nat, x: nat, y: nat)
    requires x <= y
    ensures rate * x <= rate * y
    ensures rate * x == rate * y <==> rate == 0 || x == y
  {
    assert rate * y == rate * x + rate * (y - x);
    if rate > 0 && x < y {
      assert rate * (y - x) >= 1;
    }
  }

  lemma MarkerIsIndex(s: State, prices: seq<nat>, k: StreamKey)
    requires InStep(s, prices) && k in s.streams && k.kind.DynamicRate?
    ensures IsIndex(prices, s.streams[k].marker)
  {
  }

  lemma StartsInHistory(prices: seq<nat>, more: seq<nat>, index: nat)
    requires IsIndex(prices, index)
    ensures IsIndex(prices + more, index)
  {
    var t :| 0 <= t <= |prices| && index == Index(prices[..t]);
    assert (prices + more)[..t] == prices[..t];
  }

  lemma {:induction false} NothingLost(rate: nat, bills: seq<Bill>)
    ensures Lost(rate, bills) == 0 <==> Unrounded(rate, bills)
    decreases |bills|
  {
    if bills != [] {
      NothingLost(rate, bills[1..]);
      assert forall i :: 1 <= i < |bills| ==> bills[i] == bills[1..][i - 1];
      assert forall i :: 0 <= i < |bills[1..]| ==> bills[1..][i] == bills[i + 1];
    }
  }

  /** At every charge that was paid, the amount times the index passed since the last one was whole giga-units. A bill
      starts at the stream's marker and ends at the target of the charge, so each part can be checked before the charge. */
  ghost predicate Unrounded(rate: nat, bills: seq<Bill>) {
    forall i :: 0 <= i < |bills| ==> rate * SatSub(bills[i].end, bills[i].start) % GIGAUNIT == 0
  }

  /** Over every run, charging by index differences collects the per-tick price exactly when no charge was rounded and the
      index did not saturate. */
  lemma PerTickExactly(c: Config, s: State, prices: seq<nat>, steps: seq<Step>, k: StreamKey) returns (a: nat, b: nat)
    requires InStep(s, prices) && k.kind.DynamicRate? && Lives(c, s, steps, k)
    ensures PaidStretch(c, s, prices, steps, k, a, b)
    ensures var history := prices + Prices(c, s, steps);
            var rate := s.streams[k].rate;
            GIGAUNIT * Billing(RunBills(c, s, steps, k)) == PerTick(rate, history[a..b]) <==>
              Unrounded(rate, RunBills(c, s, steps, k)) && (rate == 0 || Unsaturated(history, a, b))
  {
    hide Run, RunBills, Prices, InStep, Unrounded, Unsaturated, PaidStretch;
    a, b := DynamicRunTotal(c, s, prices, steps, k);
    NothingLost(s.streams[k].rate, RunBills(c, s, steps, k));
  }

  /** A pallet nobody has used yet is in step with an empty history. */
  lemma UnusedIsInStep(s: State)
    requires s.tick == 0 && s.index == 0 && s.chargeable == map[] && s.streams == map[]
    ensures InStep(s, [])
  {
  }

  // --- Two charges lose what one collects -------------------------------------------------------------

  const HALF_CONFIG := Config(2, 0, 0, 1, 9)
  const HALF_ENV := Env(map[1 := 5], {}, {}, 0, 0)
  const HALF_KEY := StreamKey(1, 2, DynamicRate)

  /** A fresh pallet at a price of one per giga-unit, and a user about to open a stream of half a giga-unit. */
  const HALF_START := State(Ledger(map[2 := 100, 5 := 10], map[]), map[], map[], map[], map[], 0, 0, 1, 0)

  const HALF_OPEN := Open(HALF_ENV, HALF_KEY, GIGAUNIT / 2)
  const HALF_CHARGE := ChargeUsers(HALF_ENV, 1, [2])

  /** The provider proves in the first two ticks; it charges once at the end, or after each of them. */
  const CHARGED_ONCE := [HALF_OPEN, Tick(1, {}), Tick(2, {1}), Tick(3, {1}), HALF_CHARGE]
  const CHARGED_TWICE := [HALF_OPEN, Tick(1, {}), Tick(2, {1}), HALF_CHARGE, Tick(3, {1}), HALF_CHARGE]

  /** The state of that pallet: the user has paid `paid` to the provider, and the stream stands at `marker`. */
  function HalfState(paid: nat, marker: nat, chargeable: map<ProviderId, Chargeable>, tick: nat, proven: nat): State
    requires paid <= 99
  {
    State(Ledger(map[2 := 99 - paid, 5 := 10 + paid], map[2 := 1]), map[HALF_KEY := Stream(GIGAUNIT / 2, marker, 1, None)],
          map[2 := 1], map[], chargeable, tick, tick, 1, proven)
  }

  lemma HalfOpened()
    ensures Apply(HALF_CONFIG, HALF_START, HALF_OPEN) == HalfState(0, 0, map[], 0, 0)
  {
    var s := Apply(HALF_CONFIG, HALF_START, HALF_OPEN);
    assert DepositFor(HALF_CONFIG, HALF_START, DynamicRate, GIGAUNIT / 2) == Some(1);
    assert s.ledger.free == map[2 := 99, 5 := 10];
  }

  lemma HalfTick(paid: nat, marker: nat, chargeable: map<ProviderId, Chargeable>, tick: nat, proven: nat,
                 submitters: set<ProviderId>)
    requires paid <= 99 && tick < 10 && proven <= tick && submitters <= {1} && chargeable.Keys <= {1}
    ensures Apply(HALF_CONFIG, HalfState(paid, marker, chargeable, tick, proven), Tick(tick + 1, submitters))
            == HalfState(paid, marker, if proven < tick && 1 in submitters then map[1 := Chargeable(tick, tick)] else chargeable,
                         tick + 1, tick)
  {
    var s := HalfState(paid, marker, chargeable, tick, proven);
    if proven < tick {
      assert Proven(chargeable, submitters, Chargeable(tick, tick))
          == if 1 in submitters then map[1 := Chargeable(tick, tick)] else chargeable;
    }
  }

  lemma HalfCharge(marker: nat, index: nat, tick: nat, proven: nat)
    requires marker <= index <= marker + 2 && index < 10
    ensures var due := if index == marker + 2 then 1 else 0;
            Apply(HALF_CONFIG, HalfState(0, marker, map[1 := Chargeable(index, index)], tick, proven), HALF_CHARGE)
            == HalfState(due, index, map[1 := Chargeable(index, index)], tick, proven)
  {
    var c, s := HALF_CONFIG, HalfState(0, marker, map[1 := Chargeable(index, index)], tick, proven);
    var due := if index == marker + 2 then 1 else 0;
    assert Metered(DynamicRate, GIGAUNIT / 2, index - marker) == Some(due);
    assert Decide(c, HALF_ENV, s, HALF_KEY, 0) == Ok(Pays(due, index));
    assert Cut(0, due) == 0;
    var s' := HalfState(due, index, map[1 := Chargeable(index, index)], tick, proven);
    assert Cut(HALF_ENV.share, due) == 0;
    assert s.ledger.free[2 := 99 - due][5 := 10 + due] == s'.ledger.free;
    assert due == 0 ==> s.ledger == s'.ledger;
    assert PayFrom(c, HALF_ENV, s.ledger, HALF_KEY, due) == Ok(s'.ledger);
    assert s.streams[HALF_KEY := s.streams[HALF_KEY].(marker := index, outOfFunds := None)] == s'.streams;
    assert ChargeStream(c, HALF_ENV, s, HALF_KEY, 0) == Ok(Charged(s', due));
    assert Charge(c, HALF_ENV, s, 1, 2) == Ok(Charged(s', due));
    assert [2][1..] == [];
    assert ChargeAll(c, HALF_ENV, s', 1, []) == Ok(s');
  }

  /** From the same fresh pallet, over the same ticks and up to the same marker, one charge at the end collects a unit and a
      charge after each tick collects nothing. */
  lemma TwoChargesLose()
    ensures Run(HALF_CONFIG, HALF_START, CHARGED_ONCE) == HalfState(1, 2, map[1 := Chargeable(2, 2)], 3, 2)
    ensures Run(HALF_CONFIG, HALF_START, CHARGED_TWICE) == HalfState(0, 2, map[1 := Chargeable(2, 2)], 3, 2)
  {
    hide Apply, Run;
    var c := HALF_CONFIG;
    var first, second := map[1 := Chargeable(1, 1)], map[1 := Chargeable(2, 2)];
    HalfOpened();
    HalfTick(0, 0, map[], 0, 0, {});
    HalfTick(0, 0, map[], 1, 0, {1});
    HalfTick(0, 0, first, 2, 1, {1});
    HalfCharge(0, 2, 3, 2);
    HalfCharge(0, 1, 2, 1);
    HalfTick(0, 1, first, 2, 1, {1});
    HalfCharge(1, 2, 3, 2);
    RunThree(c, HALF_START, HALF_OPEN, Tick(1, {}), Tick(2, {1}), [Tick(3, {1}), HALF_CHARGE]);
    RunTwo(c, HalfState(0, 0, first, 2, 1), Tick(3, {1}), HALF_CHARGE);
    assert CHARGED_ONCE == [HALF_OPEN, Tick(1, {}), Tick(2, {1})] + [Tick(3, {1}), HALF_CHARGE];
    RunThree(c, HALF_START, HALF_OPEN, Tick(1, {}), Tick(2, {1}), [HALF_CHARGE, Tick(3, {1}), HALF_CHARGE]);
    RunCons(c, HalfState(0, 0, first, 2, 1), HALF_CHARGE, [Tick(3, {1}), HALF_CHARGE]);
    assert [HALF_CHARGE] + [Tick(3, {1}), HALF_CHARGE] == [HALF_CHARGE, Tick(3, {1}), HALF_CHARGE];
    RunTwo(c, HalfState(0, 1, first, 2, 1), Tick(3, {1}), HALF_CHARGE);
    assert CHARGED_TWICE == [HALF_OPEN, Tick(1, {}), Tick(2, {1})] + [HALF_CHARGE, Tick(3, {1}), HALF_CHARGE];
  }
}
