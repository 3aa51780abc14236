/** The order of users in a batch. What a charge decides depends only on the charged user's own part of the storage;
    whether it goes through depends also on whether its recipients can receive. */
module ChargeCommutes {
  import opened Prelude
  import opened Sums
  import opened Balances
  import opened PaymentStreams
  import opened StreamAccounts
  import opened ChargeJournals
  import opened ChargeSchedules

  // --- Recipients -------------------------------------------------------------------------------------

  /** The first credits of a payment or a charge to the provider's payment account and to the treasury. An account that owns
      less than the existential deposit can only receive amounts that lift it there, so the first credit decides. Payee and
      treasury may be one account, which then has one first credit. */
  datatype Credits = Credits(payee: nat, treasury: nat)

  const NO_CREDITS := Credits(0, 0)

  function PayCredits(c: Config, env: Env, p: ProviderId, amount: nat): Credits
    requires p in env.payees
  {
    var cut := Cut(env.share, amount);
    if env.payees[p] != c.treasury then Credits(amount - cut, cut)
    else if amount - cut > 0 then Credits(amount - cut, amount - cut)
    else Credits(cut, cut)
  }

  /** The first credits of two payments in a row. */
  function Then(x: Credits, y: Credits): Credits {
    Credits(if x.payee > 0 then x.payee else y.payee, if x.treasury > 0 then x.treasury else y.treasury)
  }

  /** The credit can be received by an account that owns `purse`. */
  predicate Passes(c: Config, purse: nat, credit: nat) {
    credit == 0 || purse + credit >= c.ed
  }

  predicate BothPass(c: Config, env: Env, p: ProviderId, l: Ledger, x: Credits)
    requires p in env.payees
  {
    Passes(c, Free(l, env.payees[p]), x.payee) && Passes(c, Free(l, c.treasury), x.treasury)
  }

  /** Both recipients own the existential deposit. */
  ghost predicate CanReceive(c: Config, env: Env, p: ProviderId, l: Ledger)
    requires p in env.payees
  {
    Free(l, env.payees[p]) >= c.ed && Free(l, c.treasury) >= c.ed
  }

  /** What payments do to the recipients: each receives its first credit at least, or nothing at all. */
  ghost predicate Received(c: Config, env: Env, p: ProviderId, l: Ledger, l': Ledger, x: Credits)
    requires p in env.payees
  {
    && Free(l', env.payees[p]) >= Free(l, env.payees[p]) + x.payee
    && (x.payee == 0 ==> Free(l', env.payees[p]) == Free(l, env.payees[p]))
    && Free(l', c.treasury) >= Free(l, c.treasury) + x.treasury
    && (x.treasury == 0 ==> Free(l', c.treasury) == Free(l, c.treasury))
  }

  lemma ReceivedTwice(c: Config, env: Env, p: ProviderId, l: Ledger, l': Ledger, l'': Ledger, x: Credits, y: Credits)
    requires p in env.payees && Received(c, env, p, l, l', x) && Received(c, env, p, l', l'', y)
    ensures Received(c, env, p, l, l'', Then(x, y))
  {
  }

  // --- A user's part of the storage -------------------------------------------------------------------

  ghost predicate SameStream(s: State, t: State, k: StreamKey) {
    (k in s.streams <==> k in t.streams) && (k in s.streams ==> s.streams[k] == t.streams[k])
  }

  /** Two storages agree on everything a charge of `u` by `p` looks at. */
  ghost predicate Agree(s: State, t: State, p: ProviderId, u: Account) {
    && s.tick == t.tick && s.chargeable == t.chargeable
    && Free(s.ledger, u) == Free(t.ledger, u) && Held(s.ledger, u) == Held(t.ledger, u)
    && Get(s.counts, u) == Get(t.counts, u)
    && (u in s.flagged <==> u in t.flagged)
    && SameStream(s, t, StreamKey(p, u, FixedRate)) && SameStream(s, t, StreamKey(p, u, DynamicRate))
  }

  lemma AgreeTransitive(s: State, t: State, r: State, p: ProviderId, u: Account)
    requires Agree(s, t, p, u) && Agree(t, r, p, u)
    ensures Agree(s, r, p, u) && Agree(t, s, p, u)
  {
  }

  /** When a payment goes through, and what it costs. */
  lemma PayFromExactly(c: Config, env: Env, l: Ledger, key: StreamKey, amount: nat)
    requires key.provider in env.payees && Payer(c, env, key.provider, key.user)
    ensures PayFrom(c, env, l, key, amount).Ok? <==>
              amount <= Reducible(c.ed, l, key.user)
              && BothPass(c, env, key.provider, l, PayCredits(c, env, key.provider, amount))
    ensures PayFrom(c, env, l, key, amount).Ok? ==>
              var l' := PayFrom(c, env, l, key, amount).value;
              var p := key.provider;
              && Free(l', key.user) == Free(l, key.user) - amount && l'.held == l.held
              && Received(c, env, p, l, l', PayCredits(c, env, p, amount))
              && (forall a :: Payer(c, env, p, a) && a != key.user ==> Free(l', a) == Free(l, a))
  {
    hide Cut, Transfer;
    var payee, cut := env.payees[key.provider], Cut(env.share, amount);
    TransferExactly(c.ed, l, key.user, payee, amount - cut);
    var first := Transfer(c.ed, l, key.user, payee, amount - cut);
    if first.Ok? {
      TransferExactly(c.ed, first.value, key.user, c.treasury, cut);
    }
  }

  lemma TransferExactly(ed: nat, l: Ledger, from: Account, to: Account, amount: nat)
    requires from != to
    ensures Transfer(ed, l, from, to, amount).Ok? <==>
              amount <= Reducible(ed, l, from) && (amount == 0 || Free(l, to) + amount >= ed)
    ensures Transfer(ed, l, from, to, amount).Ok? ==>
              var l' := Transfer(ed, l, from, to, amount).value;
              && l'.held == l.held
              && forall a :: Free(l', a) == if a == from then Free(l, a) - amount
                                            else if a == to then Free(l, a) + amount else Free(l, a)
  {
  }

  /** The credits an effect sends. */
  function CreditsOf(c: Config, env: Env, p: ProviderId, e: Effect): Credits
    requires p in env.payees
  {
    if e.Pays? || e.Liquidates? then PayCredits(c, env, p, e.amount) else NO_CREDITS
  }

  /** A charge of one user leaves another user's part alone. */
  lemma EnactFrame(c: Config, env: Env, s: State, key: StreamKey, e: Effect, u: Account)
    requires key in s.streams && key.provider in env.payees && Payer(c, env, key.provider, key.user)
    requires Enact(c, env, s, key, e).Ok?
    ensures var s' := Enact(c, env, s, key, e).value;
            var p := key.provider;
            && Received(c, env, p, s.ledger, s'.ledger, CreditsOf(c, env, p, e))
            && (u != key.user && Payer(c, env, p, u) ==> Agree(s, s', p, u))
  {
    hide PayFrom, PayCredits, Release;
    match e {
      case Nothing =>
      case Waits =>
      case Pays(amount, marker) => PayFromExactly(c, env, s.ledger, key, amount);
      case Liquidates(amount) => LiquidationFrame(c, env, s, key, amount, u);
    }
  }

  lemma LiquidationFrame(c: Config, env: Env, s: State, key: StreamKey, amount: nat, u: Account)
    requires key in s.streams && key.provider in env.payees && Payer(c, env, key.provider, key.user)
    requires Enact(c, env, s, key, Liquidates(amount)).Ok?
    ensures var s' := Enact(c, env, s, key, Liquidates(amount)).value;
            var p := key.provider;
            && Received(c, env, p, s.ledger, s'.ledger, PayCredits(c, env, p, amount))
            && (u != key.user && Payer(c, env, p, u) ==> Agree(s, s', p, u))
  {
    hide PayFrom, PayCredits, Release;
    ReleaseExactly(s.ledger, key.user, s.streams[key].deposit);
    PayFromExactly(c, env, Release(s.ledger, key.user, s.streams[key].deposit).value, key, amount);
  }

  lemma DecideAgrees(c: Config, env: Env, s: State, t: State, key: StreamKey, already: nat)
    requires Agree(s, t, key.provider, key.user) && key in s.streams
    ensures key in t.streams && Decide(c, env, s, key, already) == Decide(c, env, t, key, already)
  {
    hide Metered;
    assert key.kind == FixedRate || key.kind == DynamicRate;
  }

  /** The recipients of `t` can receive anything, so what fails in `t` fails for the user's own sake; in `s` the credits must
      pass as well. */
  ghost predicate Comparable(c: Config, env: Env, s: State, t: State, p: ProviderId, u: Account)
    requires p in env.payees
  {
    Agree(s, t, p, u) && CanReceive(c, env, p, t.ledger)
  }

  lemma EnactAgrees(c: Config, env: Env, s: State, t: State, key: StreamKey, e: Effect)
    requires key in s.streams && key in t.streams
    requires key.provider in env.payees && Payer(c, env, key.provider, key.user)
    requires Comparable(c, env, s, t, key.provider, key.user)
    ensures Enact(c, env, s, key, e).Ok? <==>
              Enact(c, env, t, key, e).Ok? && BothPass(c, env, key.provider, s.ledger, CreditsOf(c, env, key.provider, e))
    ensures Enact(c, env, s, key, e).Ok? ==>
              Agree(Enact(c, env, s, key, e).value, Enact(c, env, t, key, e).value, key.provider, key.user)
    ensures EffectWrites(c, env, s, key, e) == EffectWrites(c, env, t, key, e)
  {
    hide PayFrom, PayWrites, PayCredits, Release;
    assert key.kind == FixedRate || key.kind == DynamicRate;
    match e {
      case Nothing =>
      case Waits =>
      case Pays(amount, marker) => PaysAgrees(c, env, s, t, key, amount, marker);
      case Liquidates(amount) => LiquidationAgrees(c, env, s, t, key, amount);
    }
  }

  lemma PaysAgrees(c: Config, env: Env, s: State, t: State, key: StreamKey, amount: nat, marker: nat)
    requires key in s.streams && key in t.streams && s.streams[key] == t.streams[key]
    requires key.provider in env.payees && Payer(c, env, key.provider, key.user)
    requires Comparable(c, env, s, t, key.provider, key.user)
    ensures var a, b := Enact(c, env, s, key, Pays(amount, marker)), Enact(c, env, t, key, Pays(amount, marker));
            && (a.Ok? <==> b.Ok? && BothPass(c, env, key.provider, s.ledger, PayCredits(c, env, key.provider, amount)))
            && (a.Ok? ==> Agree(a.value, b.value, key.provider, key.user))
  {
    hide PayFrom, PayCredits;
    PayFromExactly(c, env, s.ledger, key, amount);
    PayFromExactly(c, env, t.ledger, key, amount);
  }

  lemma ReleaseExactly(l: Ledger, u: Account, amount: nat)
    ensures Release(l, u, amount).Ok? <==> amount <= Held(l, u)
    ensures Release(l, u, amount).Ok? ==>
              var l' := Release(l, u, amount).value;
              && (forall a :: Held(l', a) == if a == u then Held(l, a) - amount else Held(l, a))
              && forall a :: Free(l', a) == if a == u then Free(l, a) + amount else Free(l, a)
  {
  }

  lemma LiquidationAgrees(c: Config, env: Env, s: State, t: State, key: StreamKey, amount: nat)
    requires key in s.streams && key in t.streams && s.streams[key] == t.streams[key]
    requires key.provider in env.payees && Payer(c, env, key.provider, key.user)
    requires Comparable(c, env, s, t, key.provider, key.user)
    ensures var a, b := Enact(c, env, s, key, Liquidates(amount)), Enact(c, env, t, key, Liquidates(amount));
            && (a.Ok? <==> b.Ok? && BothPass(c, env, key.provider, s.ledger, PayCredits(c, env, key.provider, amount)))
            && (a.Ok? ==> Agree(a.value, b.value, key.provider, key.user))
  {
    var dep := s.streams[key].deposit;
    ReleaseExactly(s.ledger, key.user, dep);
    ReleaseExactly(t.ledger, key.user, dep);
    hide PayFrom, PayCredits, Release;
    if dep <= Held(s.ledger, key.user) {
      var l, m := Release(s.ledger, key.user, dep).value, Release(t.ledger, key.user, dep).value;
      PayFromExactly(c, env, l, key, amount);
      PayFromExactly(c, env, m, key, amount);
      if PayFrom(c, env, l, key, amount).Ok? {
        DropAgrees(s, t, PayFrom(c, env, l, key, amount).value, PayFrom(c, env, m, key, amount).value, key, env.block);
      }
    }
  }

  lemma DropAgrees(s: State, t: State, l: Ledger, m: Ledger, key: StreamKey, block: nat)
    requires Agree(s, t, key.provider, key.user)
    requires Free(l, key.user) == Free(m, key.user) && Held(l, key.user) == Held(m, key.user)
    ensures var a, b := Drop(s.(ledger := l), key), Drop(t.(ledger := m), key);
            && (a.Ok? <==> b.Ok?)
            && (a.Ok? ==> Agree(Flag(a.value, key.user, block), Flag(b.value, key.user, block), key.provider, key.user))
  {
  }

  // --- One stream -------------------------------------------------------------------------------------

  ghost function StreamWrites(c: Config, env: Env, s: State, key: StreamKey, already: nat): seq<Write>
    requires key.provider in env.payees
  {
    if key in s.streams && Decide(c, env, s, key, already).Ok?
    then EffectWrites(c, env, s, key, Decide(c, env, s, key, already).value) else []
  }

  /** The credits a charge of one stream sends. */
  function StreamCredits(c: Config, env: Env, s: State, key: StreamKey, already: nat): Credits
    requires key.provider in env.payees
  {
    if key in s.streams && Decide(c, env, s, key, already).Ok?
    then CreditsOf(c, env, key.provider, Decide(c, env, s, key, already).value) else NO_CREDITS
  }

  /** The charge of a stream as its journal. */
  lemma ChargeStreamJournal(c: Config, env: Env, s: State, key: StreamKey, already: nat)
    requires key.provider in env.payees && Payer(c, env, key.provider, key.user)
    requires ChargeStream(c, env, s, key, already).Ok?
    ensures ChargeStream(c, env, s, key, already).value.state == PerformAll(s, StreamWrites(c, env, s, key, already))
  {
    hide Enact, Decide, EffectWrites, Payer;
    if key in s.streams {
      EnactJournal(c, env, s, key, Decide(c, env, s, key, already).value);
    }
  }

  lemma StreamWritesOwn(c: Config, env: Env, s: State, key: StreamKey, already: nat)
    requires key.provider in env.payees
    ensures AllOwnOrCredit(StreamWrites(c, env, s, key, already), key.user, env.payees[key.provider], c.treasury)
  {
    hide Decide, EffectWrites;
    if key in s.streams && Decide(c, env, s, key, already).Ok? {
      EffectWritesOwn(c, env, s, key, Decide(c, env, s, key, already).value);
    }
  }

  lemma ChargeStreamFrame(c: Config, env: Env, s: State, key: StreamKey, already: nat, u: Account)
    requires key.provider in env.payees && Payer(c, env, key.provider, key.user)
    requires ChargeStream(c, env, s, key, already).Ok?
    ensures var s' := ChargeStream(c, env, s, key, already).value.state;
            var p := key.provider;
            && Received(c, env, p, s.ledger, s'.ledger, StreamCredits(c, env, s, key, already))
            && (u != key.user && Payer(c, env, p, u) ==> Agree(s, s', p, u))
  {
    hide Enact, Decide, Payer, CreditsOf;
    if key in s.streams {
      EnactFrame(c, env, s, key, Decide(c, env, s, key, already).value, u);
    }
  }

  lemma ChargeStreamAgrees(c: Config, env: Env, s: State, t: State, key: StreamKey, already: nat)
    requires key.provider in env.payees && Payer(c, env, key.provider, key.user)
    requires Comparable(c, env, s, t, key.provider, key.user)
    ensures var a, b := ChargeStream(c, env, s, key, already), ChargeStream(c, env, t, key, already);
            && (a.Ok? <==> b.Ok? && BothPass(c, env, key.provider, s.ledger, StreamCredits(c, env, t, key, already)))
            && (a.Ok? ==> a.value.amount == b.value.amount
                          && Agree(a.value.state, b.value.state, key.provider, key.user))
    ensures StreamWrites(c, env, s, key, already) == StreamWrites(c, env, t, key, already)
    ensures StreamCredits(c, env, s, key, already) == StreamCredits(c, env, t, key, already)
  {
    assert key.kind == FixedRate || key.kind == DynamicRate;
    assert key in s.streams <==> key in t.streams;
    hide Enact, Decide, EffectWrites, Payer, Agree, CreditsOf;
    if key in s.streams {
      DecideAgrees(c, env, s, t, key, already);
      if Decide(c, env, s, key, already).Ok? {
        EnactAgrees(c, env, s, t, key, Decide(c, env, s, key, already).value);
      }
    }
  }

  // --- One user ---------------------------------------------------------------------------------------

  /** The journal of charging a user, as long as its streams can be charged. */
  ghost function ChargeWrites(c: Config, env: Env, s: State, p: ProviderId, u: Account): seq<Write>
    requires p in env.payees
  {
    var fixed, dynamic := StreamKey(p, u, FixedRate), StreamKey(p, u, DynamicRate);
    var first := ChargeStream(c, env, s, fixed, 0);
    StreamWrites(c, env, s, fixed, 0)
    + if first.Ok? then StreamWrites(c, env, first.value.state, dynamic, first.value.amount) else []
  }

  /** The first credits a charge sends, from the fixed-rate stream or else from the dynamic-rate one. */
  function ChargeCredits(c: Config, env: Env, s: State, p: ProviderId, u: Account): Credits
    requires p in env.payees
  {
    var fixed, dynamic := StreamKey(p, u, FixedRate), StreamKey(p, u, DynamicRate);
    var first := ChargeStream(c, env, s, fixed, 0);
    Then(StreamCredits(c, env, s, fixed, 0),
         if first.Ok? then StreamCredits(c, env, first.value.state, dynamic, first.value.amount) else NO_CREDITS)
  }

  /** The same storage with recipients that own the existential deposit at least. */
  function Lifted(c: Config, env: Env, s: State, p: ProviderId): State
    requires p in env.payees
  {
    var payee, free := env.payees[p], s.ledger.free;
    var once := free[payee := Max(Get(free, payee), c.ed)];
    s.(ledger := s.ledger.(free := once[c.treasury := Max(Get(once, c.treasury), c.ed)]))
  }

  /** Nothing but the recipients stands in the way of charging the user. */
  predicate Able(c: Config, env: Env, s: State, p: ProviderId, u: Account)
    requires p in env.payees
  {
    Charge(c, env, Lifted(c, env, s, p), p, u).Ok?
  }

  /** What the user would send first to each recipient. */
  function FirstCredits(c: Config, env: Env, s: State, p: ProviderId, u: Account): Credits
    requires p in env.payees
  {
    ChargeCredits(c, env, Lifted(c, env, s, p), p, u)
  }

  ghost function Journal(c: Config, env: Env, s: State, p: ProviderId, u: Account): seq<Write>
    requires p in env.payees
  {
    ChargeWrites(c, env, Lifted(c, env, s, p), p, u)
  }

  lemma ChargeAgrees(c: Config, env: Env, s: State, t: State, p: ProviderId, u: Account)
    requires p in env.payees && Payer(c, env, p, u) && Comparable(c, env, s, t, p, u)
    ensures Charge(c, env, s, p, u).Ok? <==>
              Charge(c, env, t, p, u).Ok? && BothPass(c, env, p, s.ledger, ChargeCredits(c, env, t, p, u))
    ensures CanReceive(c, env, p, s.ledger) ==> ChargeCredits(c, env, s, p, u) == ChargeCredits(c, env, t, p, u)
    ensures Charge(c, env, s, p, u).Ok? || CanReceive(c, env, p, s.ledger) ==>
              ChargeWrites(c, env, s, p, u) == ChargeWrites(c, env, t, p, u)
    ensures Charge(c, env, s, p, u).Ok? ==>
              Received(c, env, p, s.ledger, Charge(c, env, s, p, u).value.state.ledger, ChargeCredits(c, env, t, p, u))
  {
    assert HasStream(s, p, u) <==> HasStream(t, p, u);
    var fixed, dynamic := StreamKey(p, u, FixedRate), StreamKey(p, u, DynamicRate);
    ChargeStreamAgrees(c, env, s, t, fixed, 0);
    var a, b := ChargeStream(c, env, s, fixed, 0), ChargeStream(c, env, t, fixed, 0);
    hide StreamWrites, StreamCredits, Agree, Payer, HasStream, ChargeStream;
    var x := StreamCredits(c, env, t, fixed, 0);
    if a.Ok? {
      ChargeStreamFrame(c, env, s, fixed, 0, u);
      ChargeStreamFrame(c, env, t, fixed, 0, u);
      StillReceives(c, env, p, t.ledger, b.value.state.ledger, x);
      SecondStream(c, env, s, a.value.state, b.value.state, p, u, a.value.amount, x);
    } else {
      FirstFails(c, env, p, s.ledger, x, ChargeCredits(c, env, t, p, u));
    }
  }

  lemma StillReceives(c: Config, env: Env, p: ProviderId, l: Ledger, l': Ledger, x: Credits)
    requires p in env.payees && CanReceive(c, env, p, l) && Received(c, env, p, l, l', x)
    ensures CanReceive(c, env, p, l')
  {
  }

  lemma FirstFails(c: Config, env: Env, p: ProviderId, l: Ledger, x: Credits, y: Credits)
    requires p in env.payees
    requires (x.payee > 0 ==> y.payee == x.payee) && (x.treasury > 0 ==> y.treasury == x.treasury)
    ensures !BothPass(c, env, p, l, x) ==> !BothPass(c, env, p, l, y) && !CanReceive(c, env, p, l)
  {
  }

  /** The second half of a charge, after a first half that sent `x`. */
  lemma SecondStream(c: Config, env: Env, s: State, a: State, b: State, p: ProviderId, u: Account, already: nat,
                     x: Credits)
    requires p in env.payees && Payer(c, env, p, u) && Comparable(c, env, a, b, p, u)
    requires Received(c, env, p, s.ledger, a.ledger, x) && BothPass(c, env, p, s.ledger, x)
    ensures var key := StreamKey(p, u, DynamicRate);
            var y := StreamCredits(c, env, b, key, already);
            && (ChargeStream(c, env, a, key, already).Ok? <==>
                  ChargeStream(c, env, b, key, already).Ok? && BothPass(c, env, p, s.ledger, Then(x, y)))
            && StreamWrites(c, env, a, key, already) == StreamWrites(c, env, b, key, already)
            && StreamCredits(c, env, a, key, already) == y
            && (ChargeStream(c, env, a, key, already).Ok? ==>
                  Received(c, env, p, s.ledger, ChargeStream(c, env, a, key, already).value.state.ledger, Then(x, y)))
  {
    hide StreamWrites, StreamCredits, Agree, Payer, ChargeStream;
    var key := StreamKey(p, u, DynamicRate);
    var y := StreamCredits(c, env, b, key, already);
    ChargeStreamAgrees(c, env, a, b, key, already);
    ThenPasses(c, env, p, s.ledger, a.ledger, x, y);
    if ChargeStream(c, env, a, key, already).Ok? {
      ChargeStreamFrame(c, env, a, key, already, u);
      ReceivedTwice(c, env, p, s.ledger, a.ledger, ChargeStream(c, env, a, key, already).value.state.ledger, x, y);
    }
  }

  lemma ThenPasses(c: Config, env: Env, p: ProviderId, l: Ledger, l': Ledger, x: Credits, y: Credits)
    requires p in env.payees && Received(c, env, p, l, l', x) && BothPass(c, env, p, l, x)
    ensures BothPass(c, env, p, l', y) <==> BothPass(c, env, p, l, Then(x, y))
  {
  }

  lemma LiftedComparable(c: Config, env: Env, s: State, p: ProviderId, u: Account)
    requires p in env.payees && Payer(c, env, p, u)
    ensures Comparable(c, env, s, Lifted(c, env, s, p), p, u)
  {
  }

  /** The recipients whose first credit from the user would leave them below the existential deposit. */
  function Short(c: Config, env: Env, s: State, p: ProviderId, u: Account): set<Account>
    requires p in env.payees
  {
    var x := FirstCredits(c, env, s, p, u);
    (if Passes(c, Free(s.ledger, env.payees[p]), x.payee) then {} else {env.payees[p]})
    + (if Passes(c, Free(s.ledger, c.treasury), x.treasury) then {} else {c.treasury})
  }

  /** The recipients whose first credit from the user would leave them at the existential deposit or above. */
  function Lifts(c: Config, env: Env, s: State, p: ProviderId, u: Account): set<Account>
    requires p in env.payees
  {
    var x := FirstCredits(c, env, s, p, u);
    (if x.payee > 0 && Passes(c, Free(s.ledger, env.payees[p]), x.payee) then {env.payees[p]} else {})
    + (if x.treasury > 0 && Passes(c, Free(s.ledger, c.treasury), x.treasury) then {c.treasury} else {})
  }

  /** A charge goes through exactly when nothing but the recipients stands in its way and it is short on neither of them. It
      then does what its journal says, lifts what it lifts, and leaves the other recipients as they were. */
  lemma ChargeExactly(c: Config, env: Env, s: State, p: ProviderId, u: Account)
    requires p in env.payees && Payer(c, env, p, u)
    ensures Charge(c, env, s, p, u).Ok? <==> Able(c, env, s, p, u) && Short(c, env, s, p, u) == {}
    ensures Charge(c, env, s, p, u).Ok? ==>
              var s' := Charge(c, env, s, p, u).value.state;
              && s' == PerformAll(s, Journal(c, env, s, p, u))
              && forall a :: a in {env.payees[p], c.treasury} ==>
                   if a in Lifts(c, env, s, p, u) then Free(s'.ledger, a) >= c.ed
                   else Free(s'.ledger, a) == Free(s.ledger, a)
  {
    var t := Lifted(c, env, s, p);
    LiftedComparable(c, env, s, p, u);
    hide Lifted, Charge, ChargeCredits, ChargeWrites, PerformAll, Payer;
    ChargeAgrees(c, env, s, t, p, u);
    if Charge(c, env, s, p, u).Ok? {
      ChargeFollowsJournal(c, env, s, p, u);
    }
  }

  lemma ChargeFollowsJournal(c: Config, env: Env, s: State, p: ProviderId, u: Account)
    requires p in env.payees && Payer(c, env, p, u) && Charge(c, env, s, p, u).Ok?
    ensures Charge(c, env, s, p, u).value.state == PerformAll(s, ChargeWrites(c, env, s, p, u))
  {
    hide ChargeStream, StreamWrites, PerformAll, Payer;
    var fixed, dynamic := StreamKey(p, u, FixedRate), StreamKey(p, u, DynamicRate);
    var first := ChargeStream(c, env, s, fixed, 0).value;
    ChargeStreamJournal(c, env, s, fixed, 0);
    ChargeStreamJournal(c, env, first.state, dynamic, first.amount);
    PerformConcat(s, StreamWrites(c, env, s, fixed, 0), StreamWrites(c, env, first.state, dynamic, first.amount));
  }

  lemma JournalOwn(c: Config, env: Env, s: State, p: ProviderId, u: Account)
    requires p in env.payees
    ensures AllOwnOrCredit(Journal(c, env, s, p, u), u, env.payees[p], c.treasury)
  {
    var t := Lifted(c, env, s, p);
    hide ChargeStream, StreamWrites, Lifted;
    var fixed, dynamic := StreamKey(p, u, FixedRate), StreamKey(p, u, DynamicRate);
    var first := ChargeStream(c, env, t, fixed, 0);
    StreamWritesOwn(c, env, t, fixed, 0);
    if first.Ok? {
      StreamWritesOwn(c, env, first.value.state, dynamic, first.value.amount);
    }
  }

  lemma ChargeFrame(c: Config, env: Env, s: State, p: ProviderId, u: Account, v: Account)
    requires p in env.payees && Payer(c, env, p, u) && Payer(c, env, p, v) && v != u
    requires Charge(c, env, s, p, u).Ok?
    ensures Agree(s, Charge(c, env, s, p, u).value.state, p, v)
  {
    hide ChargeStream, Agree, Payer, StreamCredits;
    var fixed, dynamic := StreamKey(p, u, FixedRate), StreamKey(p, u, DynamicRate);
    var first := ChargeStream(c, env, s, fixed, 0).value;
    var last := ChargeStream(c, env, first.state, dynamic, first.amount).value;
    ChargeStreamFrame(c, env, s, fixed, 0, v);
    ChargeStreamFrame(c, env, first.state, dynamic, first.amount, v);
    AgreeTransitive(s, first.state, last.state, p, v);
  }

  /** What a charge of `v` would be depends on nothing that a charge of another user changes. */
  lemma SameCharge(c: Config, env: Env, s: State, t: State, p: ProviderId, v: Account)
    requires p in env.payees && Payer(c, env, p, v) && Agree(s, t, p, v)
    ensures Able(c, env, s, p, v) <==> Able(c, env, t, p, v)
    ensures FirstCredits(c, env, s, p, v) == FirstCredits(c, env, t, p, v)
    ensures Journal(c, env, s, p, v) == Journal(c, env, t, p, v)
  {
    var a, b := Lifted(c, env, s, p), Lifted(c, env, t, p);
    LiftedComparable(c, env, s, p, v);
    LiftedComparable(c, env, t, p, v);
    hide Lifted, Charge, ChargeCredits, ChargeWrites, Payer, Agree;
    AgreeTransitive(s, a, a, p, v);
    AgreeTransitive(a, s, t, p, v);
    AgreeTransitive(a, t, b, p, v);
    ChargeAgrees(c, env, a, b, p, v);
  }

  // --- Two users --------------------------------------------------------------------------------------

  /** Both fail, or both succeed with the same storage. */
  ghost predicate SameOutcome(a: Outcome<State, Error>, b: Outcome<State, Error>) {
    (a.Ok? <==> b.Ok?) && (a.Ok? ==> a.value == b.value)
  }

  ghost function ChargeTwo(c: Config, env: Env, s: State, p: ProviderId, u: Account, v: Account): Outcome<State, Error> {
    var first :- Charge(c, env, s, p, u);
    var last :- Charge(c, env, first.state, p, v);
    Ok(last.state)
  }

  /** After a charge everybody else can be charged as before, and is short on less by what the charge lifted. */
  lemma ChargeKeepsOthers(c: Config, env: Env, s: State, p: ProviderId, u: Account, v: Account)
    requires p in env.payees && u != v && Payer(c, env, p, u) && Payer(c, env, p, v) && Charge(c, env, s, p, u).Ok?
    ensures var s' := Charge(c, env, s, p, u).value.state;
            var lifted := Lifts(c, env, s, p, u);
            && (Able(c, env, s', p, v) <==> Able(c, env, s, p, v))
            && Journal(c, env, s', p, v) == Journal(c, env, s, p, v)
            && Short(c, env, s', p, v) == Short(c, env, s, p, v) - lifted
            && Lifts(c, env, s', p, v) - lifted == Lifts(c, env, s, p, v) - lifted
  {
    hide Charge, Able, FirstCredits, Journal, PerformAll, Agree, Payer;
    ChargeExactly(c, env, s, p, u);
    ChargeFrame(c, env, s, p, u, v);
    var s' := Charge(c, env, s, p, u).value.state;
    SameCharge(c, env, s, s', p, v);
    var lifted := Lifts(c, env, s, p, u);
    hide Lifts;
    assert env.payees[p] in {env.payees[p], c.treasury} && c.treasury in {env.payees[p], c.treasury};
    NeedAfter(c, env, s, s', p, v, lifted);
  }

  ghost predicate LiftedOnlyThese(c: Config, l: Ledger, l': Ledger, a: Account, lifted: set<Account>) {
    if a in lifted then Free(l', a) >= c.ed else Free(l', a) == Free(l, a)
  }

  lemma NeedAfter(c: Config, env: Env, s: State, s': State, p: ProviderId, v: Account, lifted: set<Account>)
    requires p in env.payees && FirstCredits(c, env, s', p, v) == FirstCredits(c, env, s, p, v)
    requires LiftedOnlyThese(c, s.ledger, s'.ledger, env.payees[p], lifted)
    requires LiftedOnlyThese(c, s.ledger, s'.ledger, c.treasury, lifted)
    ensures Short(c, env, s', p, v) == Short(c, env, s, p, v) - lifted
    ensures Lifts(c, env, s', p, v) - lifted == Lifts(c, env, s, p, v) - lifted
  {
    hide FirstCredits;
  }

  /** `u` is short on neither recipient, and lifts every recipient `v` is short on. */
  predicate InOrder(c: Config, env: Env, s: State, p: ProviderId, u: Account, v: Account)
    requires p in env.payees
  {
    Short(c, env, s, p, u) == {} && Short(c, env, s, p, v) <= Lifts(c, env, s, p, u)
  }

  lemma ChargeTwoOf(c: Config, env: Env, s: State, p: ProviderId, u: Account, v: Account)
    requires p in env.payees && u != v && Payer(c, env, p, u) && Payer(c, env, p, v)
    ensures ChargeTwo(c, env, s, p, u, v).Ok? <==>
              Able(c, env, s, p, u) && Able(c, env, s, p, v) && InOrder(c, env, s, p, u, v)
    ensures ChargeTwo(c, env, s, p, u, v).Ok? ==>
              ChargeTwo(c, env, s, p, u, v).value
              == PerformAll(PerformAll(s, Journal(c, env, s, p, u)), Journal(c, env, s, p, v))
  {
    hide Charge, Able, Short, Lifts, Journal, PerformAll, Payer;
    ChargeExactly(c, env, s, p, u);
    if Charge(c, env, s, p, u).Ok? {
      ChargeKeepsOthers(c, env, s, p, u, v);
      ChargeExactly(c, env, Charge(c, env, s, p, u).value.state, p, v);
      NothingLeft(Short(c, env, s, p, v), Lifts(c, env, s, p, u));
    }
  }

  lemma NothingLeft(a: set<Account>, b: set<Account>)
    ensures a - b == {} <==> a <= b
  {
    if a - b == {} {
      forall x | x in a
        ensures x in b
      {
        assert x !in a - b;
      }
    }
  }

  /** Two different users, neither of them payee or treasury, can be charged in either order, unless nothing but the
      recipients stands in the way of either and just one of the two orders serves the recipients. */
  lemma UsersCommuteExactly(c: Config, env: Env, s: State, p: ProviderId, u: Account, v: Account)
    requires p in env.payees && u != v && Payer(c, env, p, u) && Payer(c, env, p, v)
    ensures SameOutcome(ChargeTwo(c, env, s, p, u, v), ChargeTwo(c, env, s, p, v, u)) <==>
              (Able(c, env, s, p, u) && Able(c, env, s, p, v) ==>
                 (InOrder(c, env, s, p, u, v) <==> InOrder(c, env, s, p, v, u)))
  {
    hide ChargeTwo, Journal, PerformAll, Able, InOrder;
    ChargeTwoOf(c, env, s, p, u, v);
    ChargeTwoOf(c, env, s, p, v, u);
    JournalOwn(c, env, s, p, u);
    JournalOwn(c, env, s, p, v);
    var us, vs := Journal(c, env, s, p, u), Journal(c, env, s, p, v);
    OwnJournalsIndependent(us, vs, u, v, env.payees[p], c.treasury);
    JournalsCommute(s, us, vs);
  }

  // --- Batches ----------------------------------------------------------------------------------------

  ghost predicate AllPayers(c: Config, env: Env, p: ProviderId, users: seq<Account>)
    requires p in env.payees
  {
    forall u :: u in users ==> Payer(c, env, p, u)
  }

  ghost predicate AllAble(c: Config, env: Env, s: State, p: ProviderId, users: seq<Account>)
    requires p in env.payees
  {
    forall u :: u in users ==> Able(c, env, s, p, u)
  }

  ghost function Needs(c: Config, env: Env, s: State, p: ProviderId, users: seq<Account>): map<Account, Need>
    requires p in env.payees
  {
    map u | u in users :: Need(Short(c, env, s, p, u), Lifts(c, env, s, p, u))
  }

  ghost function Journals(c: Config, env: Env, s: State, p: ProviderId, users: seq<Account>): seq<Write>
    requires p in env.payees
    decreases |users|
  {
    if users == [] then [] else Journal(c, env, s, p, users[0]) + Journals(c, env, s, p, users[1..])
  }

  lemma FirstOne(c: Config, env: Env, s: State, p: ProviderId, u: Account, rest: seq<Account>)
    ensures var one := Charge(c, env, s, p, u);
            ChargeAll(c, env, s, p, [u] + rest)
            == if one.Ok? then ChargeAll(c, env, one.value.state, p, rest) else Err(one.error)
  {
    hide Charge;
    assert ([u] + rest)[1..] == rest;
  }

  /** A batch of different users goes through exactly when nothing but the recipients stands in the way of any of them, and
      the order serves the recipients. It then does what the journals of its users say. */
  lemma {:induction false} BatchExactly(c: Config, env: Env, s: State, p: ProviderId, users: seq<Account>)
    requires p in env.payees && Distinct(users) && AllPayers(c, env, p, users)
    ensures ChargeAll(c, env, s, p, users).Ok? <==>
              AllAble(c, env, s, p, users) && Feasible(Needs(c, env, s, p, users), {}, users)
    ensures ChargeAll(c, env, s, p, users).Ok? ==>
              ChargeAll(c, env, s, p, users).value == PerformAll(s, Journals(c, env, s, p, users))
    decreases |users|
  {
    hide Charge, Able, Short, Lifts, Journal, Payer;
    if users != [] {
      var v, rest := users[0], users[1..];
      assert users == [v] + rest && v in users;
      DistinctTail(users);
      FirstOne(c, env, s, p, v, rest);
      ChargeExactly(c, env, s, p, v);
      hide PerformAll, Distinct, ChargeAll;
      if Charge(c, env, s, p, v).Ok? {
        var s' := Charge(c, env, s, p, v).value.state;
        BatchExactly(c, env, s', p, rest);
        RestOfBatch(c, env, s, p, users);
        PerformConcat(s, Journal(c, env, s, p, v), Journals(c, env, s, p, rest));
      }
    }
  }

  /** The rest of a batch after its first charge. */
  lemma RestOfBatch(c: Config, env: Env, s: State, p: ProviderId, users: seq<Account>)
    requires p in env.payees && users != [] && users[0] !in users[1..] && AllPayers(c, env, p, users)
    requires Charge(c, env, s, p, users[0]).Ok? && Able(c, env, s, p, users[0]) && Short(c, env, s, p, users[0]) == {}
    ensures var s', rest := Charge(c, env, s, p, users[0]).value.state, users[1..];
            && (AllAble(c, env, s', p, rest) <==> AllAble(c, env, s, p, users))
            && Journals(c, env, s', p, rest) == Journals(c, env, s, p, rest)
            && (Feasible(Needs(c, env, s', p, rest), {}, rest) <==> Feasible(Needs(c, env, s, p, users), {}, users))
  {
    hide Charge, Able, Short, Lifts, Journal, Payer;
    var v, rest := users[0], users[1..];
    var s' := Charge(c, env, s, p, v).value.state;
    assert users == [v] + rest && v in users;
    var needs, needs' := Needs(c, env, s, p, users), Needs(c, env, s', p, rest);
    var lifted := Lifts(c, env, s, p, v);
    forall w | w in rest
      ensures Able(c, env, s', p, w) <==> Able(c, env, s, p, w)
      ensures Journal(c, env, s', p, w) == Journal(c, env, s, p, w)
      ensures w in needs && w in needs' && needs'[w].short == needs[w].short - lifted
      ensures needs'[w].lifts - lifted == needs[w].lifts - lifted
    {
      assert w in users;
      ChargeKeepsOthers(c, env, s, p, v, w);
    }
    SameJournals(c, env, s, s', p, rest);
    FeasibleAfter(needs, needs', lifted, {}, rest);
    assert lifted + {} == lifted && {} + lifted == lifted;
    assert needs[v] == Need({}, lifted);
  }

  lemma {:induction false} SameJournals(c: Config, env: Env, s: State, t: State, p: ProviderId, users: seq<Account>)
    requires p in env.payees
    requires forall w :: w in users ==> Journal(c, env, t, p, w) == Journal(c, env, s, p, w)
    ensures Journals(c, env, t, p, users) == Journals(c, env, s, p, users)
    decreases |users|
  {
    hide Journal;
    if users != [] {
      assert users[0] in users;
      SameJournals(c, env, s, t, p, users[1..]);
    }
  }

  // --- Orders of a batch ------------------------------------------------------------------------------

  lemma {:induction false} JournalsConcat(c: Config, env: Env, s: State, p: ProviderId, us: seq<Account>,
                                          vs: seq<Account>)
    requires p in env.payees
    ensures Journals(c, env, s, p, us + vs) == Journals(c, env, s, p, us) + Journals(c, env, s, p, vs)
    decreases |us|
  {
    hide Journal;
    if us == [] {
      assert us + vs == vs;
    } else {
      assert (us + vs)[1..] == us[1..] + vs;
      JournalsConcat(c, env, s, p, us[1..], vs);
    }
  }

  /** The journals of other users are independent of a user's journal. */
  lemma {:induction false} JournalsIndependent(c: Config, env: Env, s: State, p: ProviderId, users: seq<Account>,
      u: Account)
    requires p in env.payees && u !in users && Payer(c, env, p, u) && AllPayers(c, env, p, users)
    ensures AllProper(Journals(c, env, s, p, users)) && AllProper(Journal(c, env, s, p, u))
    ensures AllIndependent(Journals(c, env, s, p, users), Journal(c, env, s, p, u))
    decreases |users|
  {
    JournalOwn(c, env, s, p, u);
    hide Journal;
    if users != [] {
      assert users[0] in users;
      JournalOwn(c, env, s, p, users[0]);
      OwnJournalsIndependent(Journal(c, env, s, p, users[0]), Journal(c, env, s, p, u), users[0], u, env.payees[p], c.treasury);
      JournalsIndependent(c, env, s, p, users[1..], u);
      IndependentConcat(Journal(c, env, s, p, users[0]), Journals(c, env, s, p, users[1..]), Journal(c, env, s, p, u));
    }
  }

  lemma IndependentConcat(a: seq<Write>, b: seq<Write>, w: seq<Write>)
    requires AllProper(a) && AllProper(b) && AllIndependent(a, w) && AllIndependent(b, w)
    ensures AllProper(a + b) && AllIndependent(a + b, w)
  {
    hide Proper, Independent;
  }

  /** The journals of a batch do the same in every order. */
  lemma {:induction false} OrderOfJournals(c: Config, env: Env, s: State, at: State, p: ProviderId, us: seq<Account>,
                                           vs: seq<Account>)
    requires p in env.payees && Reordered(us, vs) && Distinct(us) && AllPayers(c, env, p, us)
    ensures PerformAll(at, Journals(c, env, s, p, us)) == PerformAll(at, Journals(c, env, s, p, vs))
    decreases |us|
  {
    hide Journal, PerformAll, Payer;
    ReorderedKeeps(us, vs);
    if us == [] {
      assert |multiset(vs)| == |multiset(us)|;
      assert vs == [];
    } else {
      var u, rest := us[0], us[1..];
      var pre, post := Locate(us, vs);
      DistinctTail(us);
      ReorderedKeeps(rest, pre + post);
      assert forall x :: x in pre ==> x in pre + post;
      assert forall x :: x in pre + post ==> x in us;
      assert u in us;
      var mine, before, after := Journal(c, env, s, p, u), Journals(c, env, s, p, pre), Journals(c, env, s, p, post);
      JournalsConcat(c, env, s, p, pre, [u] + post);
      JournalsConcat(c, env, s, p, pre, post);
      assert vs == pre + ([u] + post) && ([u] + post)[1..] == post;
      assert Journals(c, env, s, p, vs) == before + (mine + after);
      JournalsIndependent(c, env, s, p, pre, u);
      MoveToFront(at, before, mine, after);
      OrderOfJournals(c, env, s, PerformAll(at, mine), p, rest, pre + post);
      PerformConcat(at, mine, Journals(c, env, s, p, rest));
      PerformConcat(at, mine, before + after);
    }
  }

  lemma MoveToFront(at: State, before: seq<Write>, mine: seq<Write>, after: seq<Write>)
    requires AllProper(before) && AllProper(mine) && AllIndependent(before, mine)
    ensures PerformAll(at, before + (mine + after)) == PerformAll(at, mine + (before + after))
  {
    hide PerformAll;
    PerformConcat(at, before, mine + after);
    PerformConcat(PerformAll(at, before), mine, after);
    JournalsCommute(at, before, mine);
    PerformConcat(at, mine, before + after);
    PerformConcat(PerformAll(at, mine), before, after);
  }

  /** Every order of the batch fails, or every order succeeds with the same storage. */
  ghost predicate OrderDoesNotMatter(c: Config, env: Env, s: State, p: ProviderId, users: seq<Account>) {
    forall vs: seq<Account> :: Reordered(users, vs) ==>
      SameOutcome(ChargeAll(c, env, s, p, users), ChargeAll(c, env, s, p, vs))
  }

  /** Nothing but the recipients stands in the way of the batch, as things stand somebody is short on one of them, and there
      is an order in which they are lifted in time. */
  ghost predicate OrderDecides(c: Config, env: Env, s: State, p: ProviderId, users: seq<Account>) {
    && p in env.payees && AllAble(c, env, s, p, users)
    && SomeoneShort(Needs(c, env, s, p, users), users) && Schedulable(Needs(c, env, s, p, users), users)
  }

  lemma {:induction false} NoProviderNoCharge(c: Config, env: Env, s: State, p: ProviderId, us: seq<Account>,
      vs: seq<Account>)
    requires p !in env.payees && Reordered(us, vs)
    ensures SameOutcome(ChargeAll(c, env, s, p, us), ChargeAll(c, env, s, p, vs))
  {
    assert |multiset(us)| == |multiset(vs)|;
  }

  /** A batch in another order, in terms of the same needs. */
  lemma OtherOrder(c: Config, env: Env, s: State, p: ProviderId, users: seq<Account>, vs: seq<Account>)
    requires p in env.payees && Distinct(users) && AllPayers(c, env, p, users) && Reordered(users, vs)
    ensures ChargeAll(c, env, s, p, vs).Ok? <==>
              AllAble(c, env, s, p, users) && Feasible(Needs(c, env, s, p, users), {}, vs)
    ensures ChargeAll(c, env, s, p, vs).Ok? ==>
              ChargeAll(c, env, s, p, vs).value == PerformAll(s, Journals(c, env, s, p, users))
  {
    hide Charge, ChargeAll, Able, Short, Lifts, Journals, PerformAll, Feasible, Distinct, Reordered, Payer;
    ReorderedKeeps(users, vs);
    BatchExactly(c, env, s, p, vs);
    assert Needs(c, env, s, p, vs) == Needs(c, env, s, p, users);
    OrderOfJournals(c, env, s, s, p, users, vs);
  }

  /** All orders of a batch of different users that go through leave the same storage. */
  lemma SuccessfulOrdersAgree(c: Config, env: Env, s: State, p: ProviderId, users: seq<Account>, vs: seq<Account>)
    requires Distinct(users) && (p in env.payees ==> AllPayers(c, env, p, users)) && Reordered(users, vs)
    ensures ChargeAll(c, env, s, p, users).Ok? && ChargeAll(c, env, s, p, vs).Ok? ==>
              ChargeAll(c, env, s, p, users) == ChargeAll(c, env, s, p, vs)
  {
    if p in env.payees {
      hide ChargeAll;
      OtherOrder(c, env, s, p, users, users);
      OtherOrder(c, env, s, p, users, vs);
    } else {
      NoProviderNoCharge(c, env, s, p, users, vs);
    }
  }

  /** The exact condition for a batch of different users, none of them payee or treasury: the order matters exactly when
      nothing but the recipients stands in the way of any user, somebody is short on a recipient, and the batch can be
      scheduled. */
  lemma BatchOrderExactly(c: Config, env: Env, s: State, p: ProviderId, users: seq<Account>)
    requires Distinct(users) && (p in env.payees ==> AllPayers(c, env, p, users))
    ensures OrderDoesNotMatter(c, env, s, p, users) <==> !OrderDecides(c, env, s, p, users)
  {
    if OrderDecides(c, env, s, p, users) {
      OrdersDiffer(c, env, s, p, users);
    } else {
      forall vs: seq<Account> | Reordered(users, vs)
        ensures SameOutcome(ChargeAll(c, env, s, p, users), ChargeAll(c, env, s, p, vs))
      {
        SameInThisOrder(c, env, s, p, users, vs);
      }
    }
  }

  lemma SameInThisOrder(c: Config, env: Env, s: State, p: ProviderId, users: seq<Account>, vs: seq<Account>)
    requires Distinct(users) && (p in env.payees ==> AllPayers(c, env, p, users)) && Reordered(users, vs)
    requires !OrderDecides(c, env, s, p, users)
    ensures SameOutcome(ChargeAll(c, env, s, p, users), ChargeAll(c, env, s, p, vs))
  {
    if p !in env.payees {
      NoProviderNoCharge(c, env, s, p, users, vs);
    } else {
      OtherOrder(c, env, s, p, users, users);
      OtherOrder(c, env, s, p, users, vs);
      var needs := Needs(c, env, s, p, users);
      NeedsKnown(c, env, s, p, users);
      hide ChargeAll, Needs, Journals, PerformAll, AllAble, Distinct, Feasible, Schedulable;
      ReorderedKeeps(users, vs);
      ScheduleExactly(needs, users, env.payees[p], c.treasury);
      if !SomeoneShort(needs, users) {
        FeasibleInAnyOrder(needs, {}, users);
        FeasibleInAnyOrder(needs, {}, vs);
      } else {
        assert Reordered(users, users);
      }
    }
  }

  lemma NeedsKnown(c: Config, env: Env, s: State, p: ProviderId, users: seq<Account>)
    requires p in env.payees
    ensures var needs := Needs(c, env, s, p, users);
            Known(needs, users) && forall u :: u in users ==> needs[u].lifts <= {env.payees[p], c.treasury}
  {
    hide FirstCredits, Short;
  }

  lemma OrdersDiffer(c: Config, env: Env, s: State, p: ProviderId, users: seq<Account>)
    requires p in env.payees && Distinct(users) && AllPayers(c, env, p, users) && OrderDecides(c, env, s, p, users)
    ensures !OrderDoesNotMatter(c, env, s, p, users)
  {
    var needs := Needs(c, env, s, p, users);
    NeedsKnown(c, env, s, p, users);
    hide ChargeAll, Needs, Journals, PerformAll, AllAble, Distinct, Schedulable;
    var us := ScheduledOrder(needs, users);
    var v :| v in users && v in needs && needs[v].short != {};
    var vs := BeginWith(users, v);
    OtherOrder(c, env, s, p, users, us);
    OtherOrder(c, env, s, p, users, vs);
    assert !Feasible(needs, {}, vs);
  }

  /** In particular the order never matters when nobody is short on a recipient, and so when payee and treasury own the
      existential deposit. */
  lemma BatchOrderDoesNotMatter(c: Config, env: Env, s: State, p: ProviderId, users: seq<Account>)
    requires p in env.payees && Distinct(users) && AllPayers(c, env, p, users)
    ensures (forall u :: u in users ==> Short(c, env, s, p, u) == {}) ==> OrderDoesNotMatter(c, env, s, p, users)
    ensures CanReceive(c, env, p, s.ledger) ==> OrderDoesNotMatter(c, env, s, p, users)
  {
    hide FirstCredits, OrderDoesNotMatter;
    BatchOrderExactly(c, env, s, p, users);
  }

  // --- A provider and a treasury that own nothing -----------------------------------------------------

  const POOR_CONFIG := Config(10, 0, 0, 10, 9)
  const POOR_ENV := Env(map[1 := 5], {}, {}, 0, 0)
  const SMALL := StreamKey(1, 2, FixedRate)
  const LARGE := StreamKey(1, 3, FixedRate)

  /** A fresh pallet, and a provider and a treasury that own less than the existential deposit. */
  const POOR_START := State(Ledger(map[2 := 200, 3 := 400], map[]), map[], map[], map[], map[], 0, 0, 0, 0)

  /** Two users open streams, of rates below and above the existential deposit, and the provider proves one tick. */
  const POOR_STEPS := [Open(POOR_ENV, SMALL, 5), Open(POOR_ENV, LARGE, 20), Tick(1, {}), Tick(2, {1})]

  const SMALL_STREAM := Stream(5, 0, 50, None)
  const LARGE_STREAM := Stream(20, 0, 200, None)

  /** After the first stream is opened, after the second, and where the run leads. */
  const POOR_ONE := State(Ledger(map[2 := 150, 3 := 400], map[2 := 50]), map[SMALL := SMALL_STREAM],
                          map[2 := 1], map[], map[], 0, 0, 0, 0)
  const POOR_TWO := State(Ledger(map[2 := 150, 3 := 200], map[2 := 50, 3 := 200]),
                          map[SMALL := SMALL_STREAM, LARGE := LARGE_STREAM], map[2 := 1, 3 := 1], map[], map[], 0, 0, 0, 0)
  const POOR := POOR_TWO.(chargeable := map[1 := Chargeable(1, 0)], tick := 2, provenTick := 1)

  lemma PoorOpensSmall()
    ensures Apply(POOR_CONFIG, POOR_START, Open(POOR_ENV, SMALL, 5)) == POOR_ONE
  {
    assert DepositFor(POOR_CONFIG, POOR_START, FixedRate, 5) == Some(50);
    var a := Apply(POOR_CONFIG, POOR_START, Open(POOR_ENV, SMALL, 5));
    assert a.ledger.free == POOR_ONE.ledger.free;
  }

  lemma PoorOpensLarge()
    ensures Apply(POOR_CONFIG, POOR_ONE, Open(POOR_ENV, LARGE, 20)) == POOR_TWO
  {
    assert DepositFor(POOR_CONFIG, POOR_ONE, FixedRate, 20) == Some(200);
    var b := Apply(POOR_CONFIG, POOR_ONE, Open(POOR_ENV, LARGE, 20));
    assert b.ledger.free == POOR_TWO.ledger.free;
  }

  lemma PoorTicks()
    ensures Apply(POOR_CONFIG, Apply(POOR_CONFIG, POOR_TWO, Tick(1, {})), Tick(2, {1})) == POOR
  {
    assert Proven(map[], {1}, Chargeable(1, 0)) == map[1 := Chargeable(1, 0)];
  }

  lemma PoorRun()
    ensures Run(POOR_CONFIG, POOR_START, POOR_STEPS) == POOR
  {
    PoorOpensSmall();
    PoorOpensLarge();
    PoorTicks();
    hide Apply, Run;
    var c, small, large := POOR_CONFIG, Open(POOR_ENV, SMALL, 5), Open(POOR_ENV, LARGE, 20);
    assert POOR_STEPS == [small, large, Tick(1, {})] + [Tick(2, {1})];
    RunThree(c, POOR_START, small, large, Tick(1, {}), [Tick(2, {1})]);
    RunCons(c, Apply(c, POOR_TWO, Tick(1, {})), Tick(2, {1}), []);
    assert [Tick(2, {1})] + [] == [Tick(2, {1})];
    RunNothing(c, POOR);
  }

  lemma RunNothing(c: Config, s: State)
    ensures Run(c, s, []) == s
  {
  }

  lemma OneStreamOnly(c: Config, env: Env, s: State, p: ProviderId, u: Account, e: Effect)
    requires p !in env.insolvent && p in env.payees
    requires StreamKey(p, u, FixedRate) in s.streams && StreamKey(p, u, DynamicRate) !in s.streams
    requires Decide(c, env, s, StreamKey(p, u, FixedRate), 0) == Ok(e) && !e.Liquidates?
    ensures var enacted := Enact(c, env, s, StreamKey(p, u, FixedRate), e);
            var charged := Charge(c, env, s, p, u);
            (charged.Ok? <==> enacted.Ok?) && (enacted.Ok? ==> charged.value.state == enacted.value)
  {
    hide Decide, PayFrom;
  }

  /** In a state a run leads to, the order matters: the small payment first fails the batch, the large one first carries
      it. */
  lemma OrderMattersForPoorPayee()
    ensures var s := Run(POOR_CONFIG, POOR_START, POOR_STEPS);
            && ChargeAll(POOR_CONFIG, POOR_ENV, s, 1, [2, 3]).Err?
            && ChargeAll(POOR_CONFIG, POOR_ENV, s, 1, [3, 2]).Ok?
  {
    PoorRun();
    hide Run;
    var c, env, s := POOR_CONFIG, POOR_ENV, POOR;
    OneStreamOnly(c, env, s, 1, 2, Pays(5, 1));
    OneStreamOnly(c, env, s, 1, 3, Pays(20, 1));
    var s' := Charge(c, env, s, 1, 3).value.state;
    OneStreamOnly(c, env, s', 1, 2, Pays(5, 1));
    assert [3, 2][1..] == [2];
    FirstOne(c, env, s', 1, 2, []);
    assert [2] + [] == [2];
  }
}
