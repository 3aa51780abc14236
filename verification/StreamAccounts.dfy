/** What every run of the payment streams pallet keeps: the money there is, the number of streams of each user, and
    the deposits that back them. */
module StreamAccounts {
  import opened Prelude
  import opened Sums
  import opened Balances
  import opened PaymentStreams

  /** The deposits of a user's live streams. */
  function DepositsOf(streams: map<StreamKey, Stream>, u: Account): map<StreamKey, nat> {
    map k | k in streams && k.user == u :: streams[k].deposit
  }

  /** The user's stream count is the number of its live streams, and what it has on hold is the sum of their deposits. */
  ghost predicate Backed(s: State, u: Account) {
    var deposits := DepositsOf(s.streams, u);
    && Get(s.counts, u) == |deposits|
    && Held(s.ledger, u) == Total(deposits)
  }

  lemma DepositsDrop(streams: map<StreamKey, Stream>, key: StreamKey, u: Account)
    ensures DepositsOf(streams - {key}, u) == DepositsOf(streams, u) - {key}
    ensures key.user != u || key !in streams ==> DepositsOf(streams - {key}, u) == DepositsOf(streams, u)
  {
  }

  lemma DepositsPut(streams: map<StreamKey, Stream>, key: StreamKey, st: Stream, u: Account)
    ensures DepositsOf(streams[key := st], u)
            == if key.user == u then DepositsOf(streams, u)[key := st.deposit] else DepositsOf(streams, u)
  {
  }

  /** Replacing a stream by one with the same deposit changes no user's deposits. */
  lemma DepositsKept(streams: map<StreamKey, Stream>, key: StreamKey, st: Stream, u: Account)
    requires key in streams && st.deposit == streams[key].deposit
    ensures DepositsOf(streams[key := st], u) == DepositsOf(streams, u)
  {
  }

  /** Dropping a stream takes one off the number of its user's deposits, and its deposit off their sum. */
  lemma DepositsAfterDrop(streams: map<StreamKey, Stream>, key: StreamKey, u: Account)
    requires key in streams
    ensures var before, after := DepositsOf(streams, u), DepositsOf(streams - {key}, u);
            if u == key.user then |after| + 1 == |before| && Total(after) + streams[key].deposit == Total(before)
            else after == before
  {
    DepositsDrop(streams, key, u);
    var before := DepositsOf(streams, u);
    assert u == key.user ==> key in before && before[key] == streams[key].deposit;
    TotalDrop(before, key);
    MapSizeDrop(before, key);
  }

  lemma DropBacked(s: State, l: Ledger, key: StreamKey, u: Account)
    requires key in s.streams && Backed(s, u)
    requires Drop(s.(ledger := l), key).Ok?
    requires Held(l, u) == Held(s.ledger, u) - if u == key.user then s.streams[key].deposit else 0
    ensures Backed(Drop(s.(ledger := l), key).value, u)
  {
    hide DepositsOf, Total;
    DepositsAfterDrop(s.streams, key, u);
  }

  lemma PayFromKeeps(c: Config, env: Env, l: Ledger, key: StreamKey, amount: nat)
    requires PayFrom(c, env, l, key, amount).Ok?
    ensures var l' := PayFrom(c, env, l, key, amount).value;
            Money(l') == Money(l) && l'.held == l.held
  {
    hide Pay, Money;
    PayConserves(c.ed, l, key.user, env.payees[key.provider], c.treasury, env.share, amount);
  }

  lemma EnactKeeps(c: Config, env: Env, s: State, key: StreamKey, e: Effect, u: Account)
    requires key in s.streams && Enact(c, env, s, key, e).Ok?
    ensures var s' := Enact(c, env, s, key, e).value;
            Money(s'.ledger) == Money(s.ledger) && (Backed(s, u) ==> Backed(s', u))
  {
    hide Money, PayFrom;
    match e {
      case Nothing =>
      case Waits =>
        DepositsKept(s.streams, key, Enact(c, env, s, key, e).value.streams[key], u);
      case Pays(amount, marker) =>
        PayFromKeeps(c, env, s.ledger, key, amount);
        DepositsKept(s.streams, key, Enact(c, env, s, key, e).value.streams[key], u);
      case Liquidates(amount) =>
        LiquidationKeeps(c, env, s, key, amount, u);
    }
  }

  lemma LiquidationKeeps(c: Config, env: Env, s: State, key: StreamKey, amount: nat, u: Account)
    requires key in s.streams && Enact(c, env, s, key, Liquidates(amount)).Ok?
    ensures var s' := Enact(c, env, s, key, Liquidates(amount)).value;
            Money(s'.ledger) == Money(s.ledger) && (Backed(s, u) ==> Backed(s', u))
  {
    hide Money, PayFrom;
    ReleaseConserves(s.ledger, key.user, s.streams[key].deposit);
    var released := Release(s.ledger, key.user, s.streams[key].deposit).value;
    PayFromKeeps(c, env, released, key, amount);
    if Backed(s, u) {
      DropBacked(s, PayFrom(c, env, released, key, amount).value, key, u);
    }
  }

  /** Both facts about one step, for one user. */
  ghost predicate Keeps(s: State, s': State, u: Account) {
    Money(s'.ledger) == Money(s.ledger) && (Backed(s, u) ==> Backed(s', u))
  }

  lemma ChargeStreamKeeps(c: Config, env: Env, s: State, key: StreamKey, already: nat, u: Account)
    requires ChargeStream(c, env, s, key, already).Ok?
    ensures Keeps(s, ChargeStream(c, env, s, key, already).value.state, u)
  {
    hide Enact, Decide, Money, Backed;
    if key in s.streams {
      EnactKeeps(c, env, s, key, Decide(c, env, s, key, already).value, u);
    }
  }

  lemma ChargeKeeps(c: Config, env: Env, s: State, p: ProviderId, u: Account, v: Account)
    requires Charge(c, env, s, p, u).Ok?
    ensures Keeps(s, Charge(c, env, s, p, u).value.state, v)
  {
    hide ChargeStream, Money, Backed;
    var first := ChargeStream(c, env, s, StreamKey(p, u, FixedRate), 0);
    ChargeStreamKeeps(c, env, s, StreamKey(p, u, FixedRate), 0, v);
    ChargeStreamKeeps(c, env, first.value.state, StreamKey(p, u, DynamicRate), first.value.amount, v);
  }

  lemma {:induction false} ChargeAllKeeps(c: Config, env: Env, s: State, p: ProviderId, users: seq<Account>, v: Account)
    requires ChargeAll(c, env, s, p, users).Ok?
    ensures Keeps(s, ChargeAll(c, env, s, p, users).value, v)
    decreases |users|
  {
    hide Charge, Money, Backed;
    if users != [] {
      ChargeKeeps(c, env, s, p, users[0], v);
      ChargeAllKeeps(c, env, Charge(c, env, s, p, users[0]).value.state, p, users[1..], v);
    }
  }

  lemma CreateKeeps(c: Config, env: Env, s: State, key: StreamKey, rate: nat, u: Account)
    requires Create(c, env, s, key, rate).Ok?
    ensures Keeps(s, Create(c, env, s, key, rate).value, u)
  {
    hide DepositFor, Money, Backed;
    var deposit := DepositFor(c, s, key.kind, rate).value;
    HoldConserves(c.ed, s.ledger, key.user, deposit);
    if Backed(s, u) {
      PutBacked(s, Hold(c.ed, s.ledger, key.user, deposit).value, key,
                Stream(rate, StartMarker(s, key.kind), deposit, None), u);
    }
  }

  lemma PutBacked(s: State, l: Ledger, key: StreamKey, st: Stream, u: Account)
    requires key !in s.streams && Backed(s, u)
    requires Held(l, u) == Held(s.ledger, u) + if u == key.user then st.deposit else 0
    ensures Backed(s.(ledger := l, streams := s.streams[key := st],
                      counts := s.counts[key.user := Get(s.counts, key.user) + 1]), u)
  {
    DepositsPut(s.streams, key, st, u);
    assert key !in DepositsOf(s.streams, u);
    hide DepositsOf;
    if u == key.user {
      TotalPut(DepositsOf(s.streams, u), key, st.deposit);
      MapSizePut(DepositsOf(s.streams, u), key, st.deposit);
    }
  }

  lemma AdjustKeeps(c: Config, s: State, key: StreamKey, st: Stream, u: Account)
    requires key in s.streams
    requires AdjustDeposit(c, s.ledger, key.user, s.streams[key].deposit, st.deposit).Ok?
    ensures var l := AdjustDeposit(c, s.ledger, key.user, s.streams[key].deposit, st.deposit).value;
            Keeps(s, s.(ledger := l, streams := s.streams[key := st]), u)
  {
    hide Money, AdjustDeposit, Backed;
    var was := s.streams[key].deposit;
    AdjustDepositHeld(c, s.ledger, key.user, was, st.deposit, u);
    if Backed(s, u) {
      ReplaceBacked(s, AdjustDeposit(c, s.ledger, key.user, was, st.deposit).value, key, st, u);
    }
  }

  lemma AdjustDepositHeld(c: Config, l: Ledger, u: Account, was: nat, updated: nat, v: Account)
    requires AdjustDeposit(c, l, u, was, updated).Ok?
    ensures var l' := AdjustDeposit(c, l, u, was, updated).value;
            && Money(l') == Money(l)
            && Held(l', v) == Held(l, v) + if v == u then updated - was else 0
  {
    hide Money;
    if updated < was {
      ReleaseConserves(l, u, was - updated);
    } else if updated > was {
      HoldConserves(c.ed, l, u, updated - was);
    }
  }

  lemma ReplaceBacked(s: State, l: Ledger, key: StreamKey, st: Stream, u: Account)
    requires key in s.streams && Backed(s, u)
    requires Held(l, u) == Held(s.ledger, u) + if u == key.user then st.deposit - s.streams[key].deposit else 0
    ensures Backed(s.(ledger := l, streams := s.streams[key := st]), u)
  {
    DepositsPut(s.streams, key, st, u);
    var deposits := DepositsOf(s.streams, u);
    assert u == key.user ==> key in deposits && deposits[key] == s.streams[key].deposit;
    hide DepositsOf;
    if key.user == u {
      TotalPut(deposits, key, st.deposit);
      assert deposits[key := st.deposit].Keys == deposits.Keys;
    }
  }

  /** A charge leaves a stream gone or with its rate and deposit. */
  lemma ChargeStreamDeposit(c: Config, env: Env, s: State, key: StreamKey, already: nat, k: StreamKey)
    requires ChargeStream(c, env, s, key, already).Ok?
    ensures var s' := ChargeStream(c, env, s, key, already).value.state;
            k in s'.streams ==> k in s.streams && s'.streams[k].rate == s.streams[k].rate
                                && s'.streams[k].deposit == s.streams[k].deposit
  {
    hide Decide, PayFrom, Release;
  }

  lemma ChargeDeposit(c: Config, env: Env, s: State, p: ProviderId, u: Account, k: StreamKey)
    requires Charge(c, env, s, p, u).Ok?
    ensures var s' := Charge(c, env, s, p, u).value.state;
            k in s'.streams ==> k in s.streams && s'.streams[k].rate == s.streams[k].rate
                                && s'.streams[k].deposit == s.streams[k].deposit
  {
    hide ChargeStream;
    var first := ChargeStream(c, env, s, StreamKey(p, u, FixedRate), 0);
    ChargeStreamDeposit(c, env, s, StreamKey(p, u, FixedRate), 0, k);
    ChargeStreamDeposit(c, env, first.value.state, StreamKey(p, u, DynamicRate), first.value.amount, k);
  }

  lemma UpdateKeeps(c: Config, env: Env, s: State, key: StreamKey, rate: nat, u: Account)
    requires Update(c, env, s, key, rate).Ok?
    ensures Keeps(s, Update(c, env, s, key, rate).value, u)
  {
    hide Charge, DepositFor, AdjustDeposit, Money, Backed;
    var s' := Charge(c, env, s, key.provider, key.user).value.state;
    ChargeKeeps(c, env, s, key.provider, key.user, u);
    ChargeDeposit(c, env, s, key.provider, key.user, key);
    var deposit := DepositFor(c, s', key.kind, rate).value;
    AdjustKeeps(c, s', key, s'.streams[key].(rate := rate, deposit := deposit), u);
  }

  lemma DeleteKeeps(c: Config, env: Env, s: State, key: StreamKey, u: Account)
    requires Delete(c, env, s, key).Ok?
    ensures Keeps(s, Delete(c, env, s, key).value, u)
  {
    hide Charge, Money, Drop, Backed, Release;
    var s' := SettleBefore(c, env, s, key).value;
    if key.provider !in env.insolvent {
      ChargeKeeps(c, env, s, key.provider, key.user, u);
    }
    if key in s'.streams {
      CloseKeeps(s', key, u);
    }
  }

  lemma CloseKeeps(s: State, key: StreamKey, u: Account)
    requires key in s.streams && Release(s.ledger, key.user, s.streams[key].deposit).Ok?
    requires Drop(s.(ledger := Release(s.ledger, key.user, s.streams[key].deposit).value), key).Ok?
    ensures Keeps(s, Drop(s.(ledger := Release(s.ledger, key.user, s.streams[key].deposit).value), key).value, u)
  {
    hide Money;
    ReleaseConserves(s.ledger, key.user, s.streams[key].deposit);
    if Backed(s, u) {
      DropBacked(s, Release(s.ledger, key.user, s.streams[key].deposit).value, key, u);
    }
  }

  // --- Paying debts -----------------------------------------------------------------------------------

  /** While a user's debts are paid, what was released covers the deposits of the paid and of the live streams. */
  ghost predicate PayingBacked(w: Paying, u: Account, released: nat) {
    var deposits := DepositsOf(w.state.streams, u);
    && Get(w.state.counts, u) == |deposits|
    && Held(w.state.ledger, u) == 0
    && Total(deposits) + w.deposits == released
  }

  ghost predicate PayingKeeps(w: Paying, w': Paying, u: Account, v: Account, released: nat) {
    && Money(w'.state.ledger) == Money(w.state.ledger)
    && (PayingBacked(w, u, released) ==> PayingBacked(w', u, released))
    && (v != u && Backed(w.state, v) ==> Backed(w'.state, v))
  }

  lemma PayStreamKeeps(c: Config, env: Env, w: Paying, key: StreamKey, v: Account, released: nat)
    requires PayStream(c, env, w, key).Ok?
    ensures PayingKeeps(w, PayStream(c, env, w, key).value, key.user, v, released)
  {
    hide Money, PayFrom;
    var s := w.state;
    if key in s.streams {
      var amount := DecideLiquidation(env, s, key).value.amount;
      PayFromKeeps(c, env, s.ledger, key, amount);
      var l := PayFrom(c, env, s.ledger, key, amount).value;
      if v != key.user && Backed(s, v) {
        DropBacked(s, l, key, v);
      }
      PayStreamPaying(w, l, key, released);
    }
  }

  lemma PayStreamPaying(w: Paying, l: Ledger, key: StreamKey, released: nat)
    requires key in w.state.streams && l.held == w.state.ledger.held
    requires Drop(w.state.(ledger := l), key).Ok?
    ensures PayingBacked(w, key.user, released) ==>
              PayingBacked(Paying(Drop(w.state.(ledger := l), key).value, w.deposits + w.state.streams[key].deposit),
                           key.user, released)
  {
    hide DepositsOf, Total;
    DepositsAfterDrop(w.state.streams, key, key.user);
  }

  lemma PayProviderKeeps(c: Config, env: Env, w: Paying, u: Account, p: ProviderId, v: Account, released: nat)
    requires PayProvider(c, env, w, u, p).Ok?
    ensures PayingKeeps(w, PayProvider(c, env, w, u, p).value, u, v, released)
  {
    hide PayStream, Money, Backed, PayingBacked;
    var w' := PayStream(c, env, w, StreamKey(p, u, FixedRate)).value;
    PayStreamKeeps(c, env, w, StreamKey(p, u, FixedRate), v, released);
    PayStreamKeeps(c, env, w', StreamKey(p, u, DynamicRate), v, released);
  }

  lemma {:induction false} PayProvidersKeeps(c: Config, env: Env, w: Paying, u: Account, ps: seq<ProviderId>,
                                             v: Account, released: nat)
    requires PayProviders(c, env, w, u, ps).Ok?
    ensures PayingKeeps(w, PayProviders(c, env, w, u, ps).value, u, v, released)
    decreases |ps|
  {
    hide PayProvider, Money, Backed, PayingBacked;
    if ps != [] {
      PayProviderKeeps(c, env, w, u, ps[0], v, released);
      PayProvidersKeeps(c, env, PayProvider(c, env, w, u, ps[0]).value, u, ps[1..], v, released);
    }
  }

  lemma StartPayingKeeps(s: State, u: Account, v: Account)
    ensures var w := StartPaying(s, u);
            && Money(w.state.ledger) == Money(s.ledger)
            && (Backed(s, u) ==> PayingBacked(w, u, Held(s.ledger, u)))
            && (v != u && Backed(s, v) ==> Backed(w.state, v))
  {
    hide Money;
    ReleaseConserves(s.ledger, u, Held(s.ledger, u));
  }

  lemma FinishPayingKeeps(c: Config, w: Paying, u: Account, v: Account, released: nat)
    requires FinishPaying(c, w, u, released).Ok?
    ensures var s' := FinishPaying(c, w, u, released).value.state;
            && Money(s'.ledger) == Money(w.state.ledger)
            && (PayingBacked(w, u, released) ==> Backed(s', u))
            && (v != u && Backed(w.state, v) ==> Backed(s', v))
  {
    hide Money;
    HoldConserves(c.ed, w.state.ledger, u, released - w.deposits);
  }

  lemma PayDebtKeeps(c: Config, env: Env, s: State, u: Account, ps: seq<ProviderId>, v: Account)
    requires PayDebt(c, env, s, u, ps).Ok?
    ensures Keeps(s, PayDebt(c, env, s, u, ps).value.state, v)
  {
    hide PayProviders, StartPaying, FinishPaying, Money, Backed, PayingBacked;
    var start := StartPaying(s, u);
    var released := Held(s.ledger, u);
    var w := PayProviders(c, env, start, u, ps).value;
    StartPayingKeeps(s, u, v);
    PayProvidersKeeps(c, env, start, u, ps, v, released);
    FinishPayingKeeps(c, w, u, v, released);
  }

  // --- Runs -------------------------------------------------------------------------------------------

  datatype Step =
    | Tick(dealerTick: PaymentStreams.Tick, submitters: set<ProviderId>)
    | NewPrice(price: nat)
    | Spend(from: Account, to: Account, amount: nat)
    | Open(env: Env, key: StreamKey, rate: nat)
    | Change(env: Env, key: StreamKey, rate: nat)
    | Close(env: Env, key: StreamKey)
    | ChargeUsers(env: Env, provider: ProviderId, users: seq<Account>)
    | PayDebts(env: Env, user: Account, providers: seq<ProviderId>)
    | Clear(user: Account)

  function Settled(s: State, r: Outcome<State, Error>): State {
    if r.Ok? then r.value else s
  }

  function Apply(c: Config, s: State, step: Step): State {
    match step
    case Tick(dealerTick, submitters) => Poll(s, dealerTick, submitters)
    case NewPrice(price) => s.(price := price)
    case Spend(from, to, amount) =>
      (match Transfer(c.ed, s.ledger, from, to, amount)
       case Ok(l) => s.(ledger := l)
       case Err(_) => s)
    case Open(env, key, rate) => Settled(s, Create(c, env, s, key, rate))
    case Change(env, key, rate) => Settled(s, Update(c, env, s, key, rate))
    case Close(env, key) => Settled(s, Delete(c, env, s, key))
    case ChargeUsers(env, p, users) => Settled(s, ChargeAll(c, env, s, p, users))
    case PayDebts(env, u, ps) =>
      (match PayDebt(c, env, s, u, ps)
       case Ok(paid) => paid.state
       case Err(_) => s)
    case Clear(u) => Settled(s, ClearFlag(c, s, u))
  }

  function Run(c: Config, s: State, steps: seq<Step>): State
    decreases |steps|
  {
    if steps == [] then s else Run(c, Apply(c, s, steps[0]), steps[1..])
  }

  lemma ApplyKeeps(c: Config, s: State, step: Step, u: Account)
    ensures Keeps(s, Apply(c, s, step), u)
  {
    hide Money, Create, Update, Delete, ChargeAll, PayDebt, Transfer;
    match step
    case Tick(_, _) =>
    case NewPrice(_) =>
    case Spend(from, to, amount) =>
      if Transfer(c.ed, s.ledger, from, to, amount).Ok? { TransferConserves(c.ed, s.ledger, from, to, amount); }
    case Open(env, key, rate) =>
      if Create(c, env, s, key, rate).Ok? { CreateKeeps(c, env, s, key, rate, u); }
    case Change(env, key, rate) =>
      if Update(c, env, s, key, rate).Ok? { UpdateKeeps(c, env, s, key, rate, u); }
    case Close(env, key) =>
      if Delete(c, env, s, key).Ok? { DeleteKeeps(c, env, s, key, u); }
    case ChargeUsers(env, p, users) =>
      if ChargeAll(c, env, s, p, users).Ok? { ChargeAllKeeps(c, env, s, p, users, u); }
    case PayDebts(env, v, ps) =>
      if PayDebt(c, env, s, v, ps).Ok? { PayDebtKeeps(c, env, s, v, ps, u); }
    case Clear(_) =>
  }

  /** In every run from a state in which a user's streams are backed: all the money is still there, the user's count is
      the number of its live streams, and its hold is exactly the sum of their deposits. */
  lemma {:induction false} RunConserves(c: Config, s: State, steps: seq<Step>, u: Account)
    requires Backed(s, u)
    ensures Money(Run(c, s, steps).ledger) == Money(s.ledger)
    ensures Backed(Run(c, s, steps), u)
    decreases |steps|
  {
    hide Money, Backed, Apply;
    if steps != [] {
      ApplyKeeps(c, s, steps[0], u);
      RunConserves(c, Apply(c, s, steps[0]), steps[1..], u);
    }
  }

  /** A pallet nobody has used yet, whatever people own. */
  ghost predicate Unused(s: State) {
    s.streams == map[] && s.counts == map[] && s.ledger.held == map[]
  }

  lemma UnusedIsBacked(s: State, u: Account)
    requires Unused(s)
    ensures Backed(s, u)
  {
    assert DepositsOf(s.streams, u) == map[];
  }

  /** From a pallet nobody has used yet, all the money is always there, and every user's count and hold are those of its
      live streams. */
  lemma FromUnusedConserves(c: Config, s: State, steps: seq<Step>, u: Account)
    requires Unused(s)
    ensures Money(Run(c, s, steps).ledger) == Money(s.ledger) && Backed(Run(c, s, steps), u)
  {
    UnusedIsBacked(s, u);
    RunConserves(c, s, steps, u);
  }

  lemma RunCons(c: Config, s: State, step: Step, rest: seq<Step>)
    ensures Run(c, s, [step] + rest) == Run(c, Apply(c, s, step), rest)
  {
    assert ([step] + rest)[1..] == rest;
  }

  lemma RunTwo(c: Config, s: State, a: Step, b: Step)
    ensures Run(c, s, [a, b]) == Apply(c, Apply(c, s, a), b)
  {
    hide Apply;
    RunCons(c, s, a, [b]);
    RunCons(c, Apply(c, s, a), b, []);
    assert [a] + [b] == [a, b] && [b] + [] == [b];
  }

  lemma RunThree(c: Config, s: State, a: Step, b: Step, d: Step, rest: seq<Step>)
    ensures Run(c, s, [a, b, d] + rest) == Run(c, Apply(c, Apply(c, Apply(c, s, a), b), d), rest)
  {
    hide Apply;
    assert [a, b, d] + rest == [a] + ([b] + ([d] + rest));
    RunCons(c, s, a, [b] + ([d] + rest));
    RunCons(c, Apply(c, s, a), b, [d] + rest);
    RunCons(c, Apply(c, Apply(c, s, a), b), d, rest);
  }
}
