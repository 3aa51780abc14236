/** The payment streams pallet: fixed-rate and dynamic-rate streams from users to providers, charged up to the last
    tick each provider proved its storage, backed by held deposits, and liquidated when a user runs out of funds. A
    failed dispatchable changes nothing, so each operation returns either an error or the new storage. */
module PaymentStreams {
  import opened Prelude
  import opened Sums
  import opened Balances

  type Tick = nat
  type ProviderId = nat

  datatype Kind = FixedRate | DynamicRate

  datatype StreamKey = StreamKey(provider: ProviderId, user: Account, kind: Kind)

  /** `rate` is the rate of a fixed-rate stream and the amount provided by a dynamic-rate one. `marker` is the last
      charged tick of the former and the price index when last charged of the latter. */
  datatype Stream = Stream(rate: nat, marker: nat, deposit: nat, outOfFunds: Option<Tick>)

  datatype Config = Config(newStreamDeposit: nat, baseDeposit: nat, cooldown: nat, ed: nat, treasury: Account)

  /** What other pallets say at the moment of a call: the payment accounts of the registered providers, who is
      insolvent, who is privileged, the treasury's share and the block number. */
  datatype Env = Env(
    payees: map<ProviderId, Account>,
    insolvent: set<ProviderId>,
    privileged: set<ProviderId>,
    share: Share,
    block: nat)

  datatype Chargeable = Chargeable(tick: Tick, index: nat)

  datatype State = State(
    ledger: Ledger,
    streams: map<StreamKey, Stream>,
    counts: map<Account, nat>,
    flagged: map<Account, nat>,
    chargeable: map<ProviderId, Chargeable>,
    tick: Tick,
    index: nat,
    price: nat,
    provenTick: Tick)

  datatype Error =
    | NotAProvider
    | ProviderInsolvent
    | RateCantBeZero
    | AmountProvidedCantBeZero
    | PaymentStreamAlreadyExists
    | PaymentStreamNotFound
    | UpdateRateToSameRate
    | UpdateAmountToSameAmount
    | UserWithoutFunds
    | CannotHoldDeposit
    | ChargeOverflow
    | Overflow
    | Underflow
    | ProviderInconsistencyError
    | UserNotFlaggedAsWithoutFunds
    | CooldownPeriodNotPassed
    | UserHasRemainingDebt
    | Token(cause: LedgerError)

  const GIGAUNIT: nat := 0x4000_0000
  const MAX_COUNT: nat := 0xFFFF_FFFF

  /** `saturating_add` on a balance. */
  function SatAdd128(a: nat, b: nat): nat {
    Min(a + b, MAX_BALANCE)
  }

  function Try(r: Outcome<Ledger, LedgerError>): Outcome<Ledger, Error> {
    if r.Ok? then Ok(r.value) else Err(Token(r.error))
  }

  // --- Charging one stream ----------------------------------------------------------------------------

  /** How far a provider may charge: the tick of its last proof and the price index there. */
  function ChargeableUpTo(env: Env, s: State, p: ProviderId): Chargeable {
    if p in env.privileged then Chargeable(s.tick, 0)
    else if p in s.chargeable then s.chargeable[p]
    else Chargeable(0, 0)
  }

  /** The same as a marker for a stream of the given kind. */
  function Target(env: Env, s: State, key: StreamKey): nat {
    var upTo := ChargeableUpTo(env, s, key.provider);
    if key.kind.FixedRate? then upTo.tick else upTo.index
  }

  /** The price of moving a marker by `passed`; none when the product does not fit a balance. */
  function Metered(kind: Kind, rate: nat, passed: nat): Option<nat> {
    if rate * passed > MAX_BALANCE then None
    else if kind.FixedRate? then Some(rate * passed)
    else Some(rate * passed / GIGAUNIT)
  }

  /** What a charge does to a stream. */
  datatype Effect =
    | Nothing
    | Waits
    | Pays(amount: nat, marker: nat)
    | Liquidates(amount: nat)

  /** `manage_user_without_funds`, its decision: what is due, but no more than the deposit. */
  function DecideLiquidation(env: Env, s: State, key: StreamKey): Outcome<Effect, Error>
    requires key in s.streams
  {
    var st := s.streams[key];
    var due := Metered(key.kind, st.rate, SatSub(Target(env, s, key), st.marker));
    var _ :- Need(due.Some?, Overflow);
    var _ :- Need(key.provider in env.payees, ProviderInconsistencyError);
    Ok(Liquidates(Min(due.value, st.deposit)))
  }

  /** The branches of `do_charge_payment_streams` for one stream; `already` is what this call charged before. */
  function Decide(c: Config, env: Env, s: State, key: StreamKey, already: nat): Outcome<Effect, Error>
    requires key in s.streams
  {
    var st := s.streams[key];
    var target := Target(env, s, key);
    if key.user in s.flagged then DecideLiquidation(env, s, key)
    else if target < st.marker then Ok(Nothing)
    else
      var due := Metered(key.kind, st.rate, target - st.marker);
      var _ :- Need(due.Some?, ChargeOverflow);
      if Reducible(c.ed, s.ledger, key.user) < due.value then
        var waited := if st.outOfFunds.Some? then SatSub(s.tick, st.outOfFunds.value) else 0;
        if waited >= c.newStreamDeposit then DecideLiquidation(env, s, key) else Ok(Waits)
      else
        var _ :- Need(key.provider in env.payees, ProviderInconsistencyError);
        var _ :- Need(already + due.value <= MAX_BALANCE, Overflow);
        Ok(Pays(due.value, target))
  }

  /** Delete a stream and take it off its user's count. */
  function Drop(s: State, key: StreamKey): Outcome<State, Error> {
    var _ :- Need(Get(s.counts, key.user) > 0, Underflow);
    Ok(s.(streams := s.streams - {key}, counts := s.counts[key.user := Get(s.counts, key.user) - 1]))
  }

  /** Flag a user as without funds, unless it already is. */
  function Flag(s: State, user: Account, block: nat): State {
    if user in s.flagged then s else s.(flagged := s.flagged[user := block])
  }

  function PayFrom(c: Config, env: Env, l: Ledger, key: StreamKey, amount: nat): Outcome<Ledger, Error> {
    var _ :- Need(key.provider in env.payees, ProviderInconsistencyError);
    Try(Pay(c.ed, l, key.user, env.payees[key.provider], c.treasury, env.share, amount))
  }

  /** Carry out what was decided. */
  function Enact(c: Config, env: Env, s: State, key: StreamKey, e: Effect): Outcome<State, Error>
    requires key in s.streams
  {
    var st := s.streams[key];
    match e
    case Nothing => Ok(s)
    case Waits =>
      Ok(s.(streams := s.streams[key := st.(outOfFunds := if st.outOfFunds.Some? then st.outOfFunds else Some(s.tick))]))
    case Pays(amount, marker) =>
      var l :- PayFrom(c, env, s.ledger, key, amount);
      Ok(s.(ledger := l, streams := s.streams[key := st.(marker := marker, outOfFunds := None)]))
    case Liquidates(amount) =>
      var released :- Try(Release(s.ledger, key.user, st.deposit));
      var l :- PayFrom(c, env, released, key, amount);
      var dropped :- Drop(s.(ledger := l), key);
      Ok(Flag(dropped, key.user, env.block))
  }

  datatype Charged = Charged(state: State, amount: nat)

  function ChargeStream(c: Config, env: Env, s: State, key: StreamKey, already: nat): Outcome<Charged, Error> {
    if key !in s.streams then Ok(Charged(s, already))
    else
      var e :- Decide(c, env, s, key, already);
      var s' :- Enact(c, env, s, key, e);
      Ok(Charged(s', if e.Pays? then already + e.amount else already))
  }

  predicate HasStream(s: State, p: ProviderId, u: Account) {
    StreamKey(p, u, FixedRate) in s.streams || StreamKey(p, u, DynamicRate) in s.streams
  }

  /** `do_charge_payment_streams`: both streams of a user with a provider, the fixed-rate one first. */
  function Charge(c: Config, env: Env, s: State, p: ProviderId, u: Account): Outcome<Charged, Error> {
    var _ :- Need(p !in env.insolvent, ProviderInsolvent);
    var _ :- Need(p in env.payees, NotAProvider);
    var _ :- Need(HasStream(s, p, u), PaymentStreamNotFound);
    var first :- ChargeStream(c, env, s, StreamKey(p, u, FixedRate), 0);
    ChargeStream(c, env, first.state, StreamKey(p, u, DynamicRate), first.amount)
  }

  /** `do_charge_multiple_users_payment_streams`. */
  function ChargeAll(c: Config, env: Env, s: State, p: ProviderId, users: seq<Account>): Outcome<State, Error>
    decreases |users|
  {
    if users == [] then Ok(s)
    else
      var charged :- Charge(c, env, s, p, users[0]);
      ChargeAll(c, env, charged.state, p, users[1..])
  }

  // --- Opening, updating and closing streams ----------------------------------------------------------

  /** The deposit of a stream: `newStreamDeposit` ticks of service, and the base deposit. */
  function DepositFor(c: Config, s: State, kind: Kind, rate: nat): Option<nat> {
    var perTick := if kind.FixedRate? then rate else s.price * rate;
    if perTick > MAX_BALANCE || perTick * c.newStreamDeposit > MAX_BALANCE then None
    else
      var service := if kind.FixedRate? then perTick * c.newStreamDeposit else perTick * c.newStreamDeposit / GIGAUNIT;
      if service + c.baseDeposit > MAX_BALANCE then None else Some(service + c.baseDeposit)
  }

  /** A new stream starts at the current tick, or at the current price index. */
  function StartMarker(s: State, kind: Kind): nat {
    if kind.FixedRate? then s.tick else s.index
  }

  function ZeroError(kind: Kind): Error {
    if kind.FixedRate? then RateCantBeZero else AmountProvidedCantBeZero
  }

  function Create(c: Config, env: Env, s: State, key: StreamKey, rate: nat): Outcome<State, Error> {
    var _ :- Need(key.provider in env.payees, NotAProvider);
    var _ :- Need(key.provider !in env.insolvent, ProviderInsolvent);
    var _ :- Need(rate != 0, ZeroError(key.kind));
    var _ :- Need(key !in s.streams, PaymentStreamAlreadyExists);
    var _ :- Need(key.user !in s.flagged, UserWithoutFunds);
    var deposit := DepositFor(c, s, key.kind, rate);
    var _ :- Need(deposit.Some?, Overflow);
    var _ :- Need(Reducible(c.ed, s.ledger, key.user) >= deposit.value, CannotHoldDeposit);
    var _ :- Need(Get(s.counts, key.user) < MAX_COUNT, Overflow);
    var l :- Try(Hold(c.ed, s.ledger, key.user, deposit.value));
    Ok(s.(ledger := l,
          streams := s.streams[key := Stream(rate, StartMarker(s, key.kind), deposit.value, None)],
          counts := s.counts[key.user := Get(s.counts, key.user) + 1]))
  }

  /** `update_user_deposit`. */
  function AdjustDeposit(c: Config, l: Ledger, u: Account, was: nat, updated: nat): Outcome<Ledger, Error> {
    if updated < was then Try(Release(l, u, was - updated))
    else if updated > was then
      var held := Hold(c.ed, l, u, updated - was);
      if held.Ok? then Ok(held.value) else Err(CannotHoldDeposit)
    else Ok(l)
  }

  /** The streams of the pair are charged at the old rate first; an update that finds its stream liquidated by that
      charge fails. */
  function Update(c: Config, env: Env, s: State, key: StreamKey, rate: nat): Outcome<State, Error> {
    var _ :- Need(key.provider in env.payees, NotAProvider);
    var _ :- Need(key.provider !in env.insolvent, ProviderInsolvent);
    var _ :- Need(rate != 0, ZeroError(key.kind));
    var _ :- Need(key in s.streams, PaymentStreamNotFound);
    var _ :- Need(s.streams[key].rate != rate,
                  if key.kind.FixedRate? then UpdateRateToSameRate else UpdateAmountToSameAmount);
    var _ :- Need(key.user !in s.flagged, UserWithoutFunds);
    var charged :- Charge(c, env, s, key.provider, key.user);
    var s' := charged.state;
    var deposit := DepositFor(c, s', key.kind, rate);
    var _ :- Need(deposit.Some?, Overflow);
    var l :- AdjustDeposit(c, s'.ledger, key.user, s.streams[key].deposit, deposit.value);
    var _ :- Need(key in s'.streams, PaymentStreamNotFound);
    Ok(s'.(ledger := l, streams := s'.streams[key := s'.streams[key].(rate := rate, deposit := deposit.value)]))
  }

  /** The last charge before a deletion, skipped for insolvent providers. */
  function SettleBefore(c: Config, env: Env, s: State, key: StreamKey): Outcome<State, Error> {
    if key.provider in env.insolvent then Ok(s)
    else
      var charged :- Charge(c, env, s, key.provider, key.user);
      Ok(charged.state)
  }

  function Delete(c: Config, env: Env, s: State, key: StreamKey): Outcome<State, Error> {
    var _ :- Need(key.provider in env.payees, NotAProvider);
    var _ :- Need(key in s.streams, PaymentStreamNotFound);
    var s' :- SettleBefore(c, env, s, key);
    if key !in s'.streams then Ok(s')
    else
      var l :- Try(Release(s'.ledger, key.user, s'.streams[key].deposit));
      Drop(s'.(ledger := l), key)
  }

  // --- Insolvency -------------------------------------------------------------------------------------

  /** Storage in the middle of `do_pay_outstanding_debt`, with the deposits that paid streams had held. */
  datatype Paying = Paying(state: State, deposits: nat)

  function PayStream(c: Config, env: Env, w: Paying, key: StreamKey): Outcome<Paying, Error> {
    if key !in w.state.streams then Ok(w)
    else
      var s := w.state;
      var e :- DecideLiquidation(env, s, key);
      var l :- PayFrom(c, env, s.ledger, key, e.amount);
      var dropped :- Drop(s.(ledger := l), key);
      Ok(Paying(dropped, w.deposits + s.streams[key].deposit))
  }

  function PayProvider(c: Config, env: Env, w: Paying, u: Account, p: ProviderId): Outcome<Paying, Error> {
    var w' :- PayStream(c, env, w, StreamKey(p, u, FixedRate));
    PayStream(c, env, w', StreamKey(p, u, DynamicRate))
  }

  function PayProviders(c: Config, env: Env, w: Paying, u: Account, ps: seq<ProviderId>): Outcome<Paying, Error>
    decreases |ps|
  {
    if ps == [] then Ok(w)
    else
      var w' :- PayProvider(c, env, w, u, ps[0]);
      PayProviders(c, env, w', u, ps[1..])
  }

  datatype DebtPaid = DebtPaid(state: State, all: bool)

  /** `release_all`: everything held goes back to the user before the streams are paid from it. */
  function StartPaying(s: State, u: Account): Paying {
    Paying(s.(ledger := Release(s.ledger, u, Held(s.ledger, u)).value), 0)
  }

  /** Hold again what was released for streams that were not paid. */
  function FinishPaying(c: Config, w: Paying, u: Account, released: nat): Outcome<DebtPaid, Error> {
    var _ :- Need(w.deposits <= released, Underflow);
    var l :- Try(Hold(c.ed, w.state.ledger, u, released - w.deposits));
    Ok(DebtPaid(w.state.(ledger := l), Get(w.state.counts, u) == 0))
  }

  /** `do_pay_outstanding_debt`. */
  function PayDebt(c: Config, env: Env, s: State, u: Account, ps: seq<ProviderId>): Outcome<DebtPaid, Error> {
    var _ :- Need(u in s.flagged, UserNotFlaggedAsWithoutFunds);
    var w :- PayProviders(c, env, StartPaying(s, u), u, ps);
    FinishPaying(c, w, u, Held(s.ledger, u))
  }

  /** `do_clear_insolvent_flag`. */
  function ClearFlag(c: Config, s: State, u: Account): Outcome<State, Error> {
    var _ :- Need(u in s.flagged, UserNotFlaggedAsWithoutFunds);
    var _ :- Need(SatSub(s.tick, s.flagged[u]) >= c.cooldown, CooldownPeriodNotPassed);
    var _ :- Need(Get(s.counts, u) == 0, UserHasRemainingDebt);
    Ok(s.(flagged := s.flagged - {u}))
  }

  // --- The hook ---------------------------------------------------------------------------------------

  /** Every submitter becomes chargeable up to `upTo`. */
  function Proven(chargeable: map<ProviderId, Chargeable>, submitters: set<ProviderId>, upTo: Chargeable)
    : map<ProviderId, Chargeable>
  {
    map p | p in chargeable.Keys + submitters :: if p in submitters then upTo else chargeable[p]
  }

  /** `on_poll`: advance the tick; let the providers that proved in the proofs dealer's previous tick charge up to this
      pallet's previous tick and price index, once per tick of the dealer; add the price to the index. */
  function Poll(s: State, dealerTick: Tick, submitters: set<ProviderId>): State {
    var toProcess := SatSub(dealerTick, 1);
    var processes := s.provenTick < toProcess;
    s.(tick := s.tick + 1,
       index := SatAdd128(s.index, s.price),
       chargeable := if processes then Proven(s.chargeable, submitters, Chargeable(s.tick, s.index)) else s.chargeable,
       provenTick := if processes then toProcess else s.provenTick)
  }
}
