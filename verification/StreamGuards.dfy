/** When the calls of the payment streams pallet go through: for every state a run can lead to, from what the call finds and
    not from how it looks for it. */
module StreamGuards {
  import opened Prelude
  import opened Sums
  import opened Balances
  import opened PaymentStreams
  import opened StreamAccounts
  import opened ChargeJournals
  import opened Insolvency
  import opened StreamMetering
  import opened StreamTerms
  import CC = ChargeCommutes

  /** What a user's streams rest on: count and hold are those of its streams, whoever has a hold owns the existential deposit
      besides, and a balance fits its type. */
  ghost predicate Sound(c: Config, s: State, u: Account) {
    Backed(s, u) && Reserved(c, s.ledger, u) && Free(s.ledger, u) <= MAX_BALANCE
  }

  lemma DepositIsHeld(s: State, key: StreamKey)
    requires Backed(s, key.user) && key in s.streams
    ensures s.streams[key].deposit <= Held(s.ledger, key.user) && Get(s.counts, key.user) > 0
  {
    var deposits := DepositsOf(s.streams, key.user);
    assert key in deposits;
    TotalAtLeast(deposits, key);
  }

  /** Every user is sound in every state a fresh pallet can reach, as long as all the money there is fits a balance. */
  lemma SoundInRuns(c: Config, start: State, steps: seq<Step>, u: Account)
    requires Unused(start) && Money(start.ledger) <= MAX_BALANCE
    ensures Sound(c, Run(c, start, steps), u)
  {
    FromUnusedConserves(c, start, steps, u);
    RunReserves(c, start, steps, u);
    hide Run;
    TotalAtLeast(Run(c, start, steps).ledger.free, u);
  }

  // --- Charging ---------------------------------------------------------------------------------------

  /** What the stream owes fits a balance. */
  predicate Fits(env: Env, s: State, key: StreamKey) {
    key in s.streams ==> s.streams[key].rate * SatSub(UpTo(env, s, key), s.streams[key].marker) <= MAX_BALANCE
  }

  /** With recipients that can receive, a stream of a sound user is charged exactly when what it owes fits. */
  lemma StreamGoesThrough(c: Config, env: Env, s: State, key: StreamKey, already: nat)
    requires key.provider in env.payees && Payer(c, env, key.provider, key.user)
    requires CC.CanReceive(c, env, key.provider, s.ledger)
    requires Backed(s, key.user) && Reserved(c, s.ledger, key.user)
    requires key.user !in s.flagged ==> already + Free(s.ledger, key.user) <= MAX_BALANCE
    ensures ChargeStream(c, env, s, key, already).Ok? <==> Fits(env, s, key)
    ensures ChargeStream(c, env, s, key, already).Ok? ==>
              var r := ChargeStream(c, env, s, key, already).value;
              key.user !in r.state.flagged ==> r.amount + Free(r.state.ledger, key.user) <= MAX_BALANCE
  {
    if key in s.streams {
      DecidesWhenFits(c, env, s, key, already);
      if Fits(env, s, key) {
        DecidesPrice(c, env, s, key, already);
        var e := Decide(c, env, s, key, already).value;
        EnactGoesThrough(c, env, s, key, already, e);
      }
    }
  }

  lemma DecidesWhenFits(c: Config, env: Env, s: State, key: StreamKey, already: nat)
    requires key in s.streams && key.provider in env.payees
    requires key.user !in s.flagged ==> already + Free(s.ledger, key.user) <= MAX_BALANCE
    ensures Decide(c, env, s, key, already).Ok? <==> Fits(env, s, key)
    ensures Decide(c, env, s, key, already).Ok? && Decide(c, env, s, key, already).value.Pays? ==>
              Decide(c, env, s, key, already).value.amount <= Reducible(c.ed, s.ledger, key.user)
  {
    MeteredIsPrice(env, s, key, s.streams[key].rate, SatSub(Target(env, s, key), s.streams[key].marker));
  }

  lemma EnactGoesThrough(c: Config, env: Env, s: State, key: StreamKey, already: nat, e: Effect)
    requires key in s.streams && key.provider in env.payees && Payer(c, env, key.provider, key.user)
    requires CC.CanReceive(c, env, key.provider, s.ledger) && Backed(s, key.user) && Reserved(c, s.ledger, key.user)
    requires key.user !in s.flagged ==> already + Free(s.ledger, key.user) <= MAX_BALANCE
    requires e.Pays? ==> e.amount <= Reducible(c.ed, s.ledger, key.user)
    requires e.Liquidates? ==> e.amount <= s.streams[key].deposit
    ensures Enact(c, env, s, key, e).Ok?
    ensures var s' := Enact(c, env, s, key, e).value;
            key.user !in s'.flagged ==> (if e.Pays? then already + e.amount else already) + Free(s'.ledger, key.user) <= MAX_BALANCE
  {
    DepositIsHeld(s, key);
    hide Backed, PayFrom;
    match e {
      case Nothing =>
      case Waits =>
      case Pays(amount, marker) => CC.PayFromExactly(c, env, s.ledger, key, amount);
      case Liquidates(amount) =>
        CC.PayFromExactly(c, env, Release(s.ledger, key.user, s.streams[key].deposit).value, key, amount);
    }
  }

  /** With recipients that can receive, a sound user is charged exactly when the provider is solvent, there is a stream between
      the two, and what each of their streams owes fits a balance. */
  lemma GoesThroughToRecipients(c: Config, env: Env, s: State, p: ProviderId, u: Account)
    requires p in env.payees && Payer(c, env, p, u) && CC.CanReceive(c, env, p, s.ledger) && Sound(c, s, u)
    ensures Charge(c, env, s, p, u).Ok? <==>
              && p !in env.insolvent && HasStream(s, p, u)
              && Fits(env, s, StreamKey(p, u, FixedRate)) && Fits(env, s, StreamKey(p, u, DynamicRate))
  {
    var fixed, dynamic := StreamKey(p, u, FixedRate), StreamKey(p, u, DynamicRate);
    hide ChargeStream, Fits, Backed, Reserved, Decide, Enact;
    StreamGoesThrough(c, env, s, fixed, 0);
    if ChargeStream(c, env, s, fixed, 0).Ok? {
      var first := ChargeStream(c, env, s, fixed, 0).value;
      CC.ChargeStreamFrame(c, env, s, fixed, 0, u);
      CC.StillReceives(c, env, p, s.ledger, first.state.ledger, CC.StreamCredits(c, env, s, fixed, 0));
      ChargeStreamKeeps(c, env, s, fixed, 0, u);
      StreamReserves(c, env, s, fixed, 0, u);
      ChargeStreamTakes(c, env, s, fixed, 0, dynamic);
      SameFits(env, s, first.state, dynamic);
      StreamGoesThrough(c, env, first.state, dynamic, first.amount);
    }
  }

  lemma SameFits(env: Env, s: State, t: State, key: StreamKey)
    requires t.tick == s.tick && t.chargeable == s.chargeable && (key in t.streams <==> key in s.streams)
    requires key in s.streams ==> t.streams[key] == s.streams[key]
    ensures Fits(env, t, key) <==> Fits(env, s, key)
  {
  }

  lemma StreamReserves(c: Config, env: Env, s: State, key: StreamKey, already: nat, u: Account)
    requires Reserved(c, s.ledger, u) && ChargeStream(c, env, s, key, already).Ok?
    ensures Reserved(c, ChargeStream(c, env, s, key, already).value.state.ledger, u)
  {
    hide Enact, Decide, Reserved;
    if key in s.streams {
      EnactReserves(c, env, s, key, Decide(c, env, s, key, already).value, u);
    }
  }

  /** A charge of a sound user goes through exactly when the provider is registered and solvent, there is a stream between the
      two, what each of their streams owes fits a balance, and neither recipient is left below the existential deposit by
      its first credit. */
  lemma ChargeGoesThroughExactly(c: Config, env: Env, s: State, p: ProviderId, u: Account)
    requires Sound(c, s, u) && (p in env.payees ==> Payer(c, env, p, u))
    ensures Charge(c, env, s, p, u).Ok? <==>
              && p in env.payees && p !in env.insolvent && HasStream(s, p, u)
              && Fits(env, s, StreamKey(p, u, FixedRate)) && Fits(env, s, StreamKey(p, u, DynamicRate))
              && CC.Short(c, env, s, p, u) == {}
  {
    if p in env.payees {
      var t := CC.Lifted(c, env, s, p);
      CC.LiftedComparable(c, env, s, p, u);
      LiftedSound(c, env, s, p, u);
      CC.ChargeExactly(c, env, s, p, u);
      GoesThroughToRecipients(c, env, t, p, u);
      hide Charge, Fits, CC.Short, CC.Lifted;
      SameFits(env, s, t, StreamKey(p, u, FixedRate));
      SameFits(env, s, t, StreamKey(p, u, DynamicRate));
    }
  }

  lemma LiftedSound(c: Config, env: Env, s: State, p: ProviderId, u: Account)
    requires p in env.payees && Payer(c, env, p, u) && Sound(c, s, u)
    ensures Sound(c, CC.Lifted(c, env, s, p), u)
    ensures CC.Lifted(c, env, s, p).streams == s.streams && CC.Lifted(c, env, s, p).tick == s.tick
    ensures CC.Lifted(c, env, s, p).chargeable == s.chargeable
  {
  }

  // --- Opening, changing and closing ------------------------------------------------------------------

  /** The deposit of the terms, and what it is computed from, fit a balance. */
  predicate TermsFit(c: Config, price: nat, kind: Kind, rate: nat) {
    var perTick := if kind.FixedRate? then rate else price * rate;
    perTick <= MAX_BALANCE && perTick * c.newStreamDeposit <= MAX_BALANCE && TermsDeposit(c, price, kind, rate) <= MAX_BALANCE
  }

  lemma DepositExists(c: Config, s: State, kind: Kind, rate: nat)
    ensures DepositFor(c, s, kind, rate)
            == if TermsFit(c, s.price, kind, rate) then Some(TermsDeposit(c, s.price, kind, rate)) else None
  {
  }

  /** The user can put the amount on hold and keep the existential deposit. */
  predicate CanSpare(c: Config, l: Ledger, u: Account, amount: nat) {
    amount == 0 || Free(l, u) >= amount + c.ed
  }

  /** A stream is opened exactly when the provider is registered and solvent, the rate is not zero, the two have no stream of
      that kind, the user is not flagged, has room for one more stream, and can spare the deposit of the terms. */
  lemma OpensExactly(c: Config, env: Env, s: State, k: StreamKey, rate: nat)
    ensures Create(c, env, s, k, rate).Ok? <==>
              && k.provider in env.payees && k.provider !in env.insolvent && rate > 0 && k !in s.streams
              && k.user !in s.flagged && Get(s.counts, k.user) < MAX_COUNT
              && TermsFit(c, s.price, k.kind, rate) && CanSpare(c, s.ledger, k.user, TermsDeposit(c, s.price, k.kind, rate))
  {
    DepositExists(c, s, k.kind, rate);
    hide DepositFor, TermsFit, TermsDeposit;
  }

  /** A rate is changed exactly when the provider is registered and solvent, the rate is new and not zero, the user is not
      flagged, the streams of the two can be charged at the old rate, the stream survives that, and the user can then spare
      what the deposit grows by. */
  lemma ChangesExactly(c: Config, env: Env, s: State, k: StreamKey, rate: nat)
    requires Backed(s, k.user)
    ensures Update(c, env, s, k, rate).Ok? <==>
              && k.provider in env.payees && k.provider !in env.insolvent && rate > 0
              && k in s.streams && s.streams[k].rate != rate && k.user !in s.flagged
              && Charge(c, env, s, k.provider, k.user).Ok?
              && (var s1 := Charge(c, env, s, k.provider, k.user).value.state;
                  && k in s1.streams && TermsFit(c, s.price, k.kind, rate)
                  && CanSpare(c, s1.ledger, k.user, SatSub(TermsDeposit(c, s.price, k.kind, rate), s.streams[k].deposit)))
  {
    hide Charge, Backed, TermsFit, TermsDeposit, DepositFor;
    if k in s.streams && Charge(c, env, s, k.provider, k.user).Ok? {
      var s1 := Charge(c, env, s, k.provider, k.user).value.state;
      DepositExists(c, s1, k.kind, rate);
      ChargeKeeps(c, env, s, k.provider, k.user, k.user);
      ChargeDeposit(c, env, s, k.provider, k.user, k);
      ChargeMarker(c, env, s, k.provider, k.user, k);
      if k in s1.streams {
        DepositIsHeld(s1, k);
        AdjustsExactly(c, s1.ledger, k.user, s.streams[k].deposit, TermsDeposit(c, s.price, k.kind, rate));
      }
      hide AdjustDeposit, CanSpare;
    }
  }

  lemma AdjustsExactly(c: Config, l: Ledger, u: Account, was: nat, updated: nat)
    requires was <= Held(l, u)
    ensures AdjustDeposit(c, l, u, was, updated).Ok? <==> CanSpare(c, l, u, SatSub(updated, was))
  {
  }

  /** A stream is closed exactly when the provider is registered, the stream exists, and the provider is insolvent or the
      streams of the two can be charged first. */
  lemma ClosesExactly(c: Config, env: Env, s: State, k: StreamKey)
    requires Backed(s, k.user)
    ensures Delete(c, env, s, k).Ok? <==>
              && k.provider in env.payees && k in s.streams
              && (k.provider in env.insolvent || Charge(c, env, s, k.provider, k.user).Ok?)
  {
    if k in s.streams && k.provider !in env.insolvent && Charge(c, env, s, k.provider, k.user).Ok? {
      var s1 := Charge(c, env, s, k.provider, k.user).value.state;
      ChargeKeeps(c, env, s, k.provider, k.user, k.user);
      if k in s1.streams {
        DepositIsHeld(s1, k);
      }
    } else if k in s.streams {
      DepositIsHeld(s, k);
    }
    hide Charge, Backed;
  }

  // --- Refusals are true ------------------------------------------------------------------------------

  /** What a refusal to open a stream says of the call. */
  ghost predicate TrueOfOpening(c: Config, env: Env, s: State, k: StreamKey, rate: nat, error: Error) {
    match error
    case NotAProvider => k.provider !in env.payees
    case ProviderInsolvent => k.provider in env.insolvent
    case RateCantBeZero => rate == 0 && k.kind.FixedRate?
    case AmountProvidedCantBeZero => rate == 0 && k.kind.DynamicRate?
    case PaymentStreamAlreadyExists => k in s.streams
    case UserWithoutFunds => k.user in s.flagged
    case CannotHoldDeposit => !CanSpare(c, s.ledger, k.user, TermsDeposit(c, s.price, k.kind, rate))
    case Overflow => !TermsFit(c, s.price, k.kind, rate) || Get(s.counts, k.user) >= MAX_COUNT
    case _ => false
  }

  /** A refused opening names a reason that holds. */
  lemma OpeningRefusedTruly(c: Config, env: Env, s: State, k: StreamKey, rate: nat)
    requires Create(c, env, s, k, rate).Err?
    ensures TrueOfOpening(c, env, s, k, rate, Create(c, env, s, k, rate).error)
  {
    DepositExists(c, s, k.kind, rate);
    hide DepositFor, TermsFit, TermsDeposit;
  }

  ghost predicate TrueOfCharge(c: Config, env: Env, s: State, p: ProviderId, u: Account, error: Error) {
    match error
    case ProviderInsolvent => p in env.insolvent
    case NotAProvider => p !in env.payees
    case PaymentStreamNotFound => !HasStream(s, p, u)
    case ChargeOverflow => !Fits(env, s, StreamKey(p, u, FixedRate)) || !Fits(env, s, StreamKey(p, u, DynamicRate))
    case Overflow => !Fits(env, s, StreamKey(p, u, FixedRate)) || !Fits(env, s, StreamKey(p, u, DynamicRate))
    case Token(cause) => cause.BelowMinimum? && p in env.payees && !CC.CanReceive(c, env, p, s.ledger)
    case _ => false
  }

  lemma PayFromRefused(c: Config, env: Env, l: Ledger, key: StreamKey, amount: nat)
    requires key.provider in env.payees && Payer(c, env, key.provider, key.user)
    requires amount <= Reducible(c.ed, l, key.user) && PayFrom(c, env, l, key, amount).Err?
    ensures PayFrom(c, env, l, key, amount).error == Token(BelowMinimum)
  {
    hide Cut;
  }

  /** Of a sound user's stream, only what does not fit and what recipients cannot receive is refused. */
  lemma StreamRefused(c: Config, env: Env, s: State, key: StreamKey, already: nat)
    requires key.provider in env.payees && Payer(c, env, key.provider, key.user)
    requires Backed(s, key.user) && Reserved(c, s.ledger, key.user)
    requires key.user !in s.flagged ==> already + Free(s.ledger, key.user) <= MAX_BALANCE
    requires ChargeStream(c, env, s, key, already).Err?
    ensures var error := ChargeStream(c, env, s, key, already).error;
            if Fits(env, s, key) then error == Token(BelowMinimum) else error == ChargeOverflow || error == Overflow
  {
    DecidesWhenFits(c, env, s, key, already);
    DecideRefused(c, env, s, key, already);
    if Fits(env, s, key) {
      DecidesPrice(c, env, s, key, already);
      DepositIsHeld(s, key);
      var e := Decide(c, env, s, key, already).value;
      hide Decide, Fits, Backed, PayFrom;
      match e {
        case Pays(amount, marker) => PayFromRefused(c, env, s.ledger, key, amount);
        case Liquidates(amount) =>
          var released := Release(s.ledger, key.user, s.streams[key].deposit).value;
          if PayFrom(c, env, released, key, amount).Err? {
            PayFromRefused(c, env, released, key, amount);
          }
        case _ =>
      }
    }
  }

  lemma DecideRefused(c: Config, env: Env, s: State, key: StreamKey, already: nat)
    requires key in s.streams && key.provider in env.payees
    requires key.user !in s.flagged ==> already + Free(s.ledger, key.user) <= MAX_BALANCE
    ensures Decide(c, env, s, key, already).Err? ==>
              Decide(c, env, s, key, already).error == ChargeOverflow || Decide(c, env, s, key, already).error == Overflow
  {
  }

  /** A refused charge of a sound user names a reason that holds. */
  lemma ChargeRefusedTruly(c: Config, env: Env, s: State, p: ProviderId, u: Account)
    requires Sound(c, s, u) && (p in env.payees ==> Payer(c, env, p, u)) && Charge(c, env, s, p, u).Err?
    ensures TrueOfCharge(c, env, s, p, u, Charge(c, env, s, p, u).error)
  {
    if p in env.payees && p !in env.insolvent && HasStream(s, p, u) {
      hide ChargeStream, Fits, Backed, Reserved, HasStream, CC.CanReceive;
      if ChargeStream(c, env, s, StreamKey(p, u, FixedRate), 0).Err? {
        FirstRefused(c, env, s, p, u);
      } else {
        SecondRefused(c, env, s, p, u);
      }
    }
  }

  lemma FirstRefused(c: Config, env: Env, s: State, p: ProviderId, u: Account)
    requires p in env.payees && Payer(c, env, p, u) && Sound(c, s, u) && ChargeStream(c, env, s, StreamKey(p, u, FixedRate), 0).Err?
    ensures TrueOfCharge(c, env, s, p, u, ChargeStream(c, env, s, StreamKey(p, u, FixedRate), 0).error)
  {
    hide ChargeStream, Fits, Backed, Reserved, HasStream;
    StreamRefused(c, env, s, StreamKey(p, u, FixedRate), 0);
    if CC.CanReceive(c, env, p, s.ledger) {
      StreamGoesThrough(c, env, s, StreamKey(p, u, FixedRate), 0);
    }
  }

  lemma SecondRefused(c: Config, env: Env, s: State, p: ProviderId, u: Account)
    requires p in env.payees && Payer(c, env, p, u) && Sound(c, s, u) && ChargeStream(c, env, s, StreamKey(p, u, FixedRate), 0).Ok?
    requires var first := ChargeStream(c, env, s, StreamKey(p, u, FixedRate), 0).value;
             ChargeStream(c, env, first.state, StreamKey(p, u, DynamicRate), first.amount).Err?
    ensures var first := ChargeStream(c, env, s, StreamKey(p, u, FixedRate), 0).value;
            TrueOfCharge(c, env, s, p, u, ChargeStream(c, env, first.state, StreamKey(p, u, DynamicRate), first.amount).error)
  {
    var fixed, dynamic := StreamKey(p, u, FixedRate), StreamKey(p, u, DynamicRate);
    var first := ChargeStream(c, env, s, fixed, 0).value;
    AfterFirstStream(c, env, s, p, u);
    hide ChargeStream, Fits, Backed, Reserved, HasStream;
    StreamRefused(c, env, first.state, dynamic, first.amount);
    if CC.CanReceive(c, env, p, s.ledger) {
      ReceivesAfterFirst(c, env, s, p, u);
      hide CC.CanReceive;
      StreamGoesThrough(c, env, first.state, dynamic, first.amount);
    }
  }

  lemma ReceivesAfterFirst(c: Config, env: Env, s: State, p: ProviderId, u: Account)
    requires p in env.payees && Payer(c, env, p, u) && Sound(c, s, u) && CC.CanReceive(c, env, p, s.ledger)
    requires ChargeStream(c, env, s, StreamKey(p, u, FixedRate), 0).Ok?
    ensures CC.CanReceive(c, env, p, ChargeStream(c, env, s, StreamKey(p, u, FixedRate), 0).value.state.ledger)
  {
    hide Fits, Backed, Reserved;
    var fixed := StreamKey(p, u, FixedRate);
    CC.ChargeStreamFrame(c, env, s, fixed, 0, u);
    hide ChargeStream;
    CC.StillReceives(c, env, p, s.ledger, ChargeStream(c, env, s, fixed, 0).value.state.ledger, CC.StreamCredits(c, env, s, fixed, 0));
  }

  lemma AfterFirstStream(c: Config, env: Env, s: State, p: ProviderId, u: Account)
    requires p in env.payees && Payer(c, env, p, u) && Sound(c, s, u) && ChargeStream(c, env, s, StreamKey(p, u, FixedRate), 0).Ok?
    ensures var r, dynamic := ChargeStream(c, env, s, StreamKey(p, u, FixedRate), 0).value, StreamKey(p, u, DynamicRate);
            && Backed(r.state, u) && Reserved(c, r.state.ledger, u)
            && (u !in r.state.flagged ==> r.amount + Free(r.state.ledger, u) <= MAX_BALANCE)
            && (Fits(env, r.state, dynamic) <==> Fits(env, s, dynamic))
  {
    var fixed, dynamic := StreamKey(p, u, FixedRate), StreamKey(p, u, DynamicRate);
    hide Fits, Backed, Reserved;
    ChargeStreamKeeps(c, env, s, fixed, 0, u);
    StreamReserves(c, env, s, fixed, 0, u);
    ChargeStreamTakes(c, env, s, fixed, 0, dynamic);
    SameFits(env, s, ChargeStream(c, env, s, fixed, 0).value.state, dynamic);
    StaysWithinBalance(c, env, s, fixed);
  }

  lemma StaysWithinBalance(c: Config, env: Env, s: State, key: StreamKey)
    requires key.provider in env.payees && Payer(c, env, key.provider, key.user)
    requires Free(s.ledger, key.user) <= MAX_BALANCE && ChargeStream(c, env, s, key, 0).Ok?
    ensures var r := ChargeStream(c, env, s, key, 0).value;
            key.user !in r.state.flagged ==> r.amount + Free(r.state.ledger, key.user) <= MAX_BALANCE
  {
    if key in s.streams {
      var e := Decide(c, env, s, key, 0).value;
      hide Decide, PayFrom;
      match e {
        case Pays(amount, marker) => CC.PayFromExactly(c, env, s.ledger, key, amount);
        case _ =>
      }
    }
  }

  /** A refused change that could have been charged for names a reason that holds; otherwise it names the charge's. */
  ghost predicate TrueOfChange(c: Config, env: Env, s: State, k: StreamKey, rate: nat, error: Error) {
    var charged := Charge(c, env, s, k.provider, k.user);
    match error
    case NotAProvider => k.provider !in env.payees
    case ProviderInsolvent => k.provider in env.insolvent
    case RateCantBeZero => rate == 0 && k.kind.FixedRate?
    case AmountProvidedCantBeZero => rate == 0 && k.kind.DynamicRate?
    case UpdateRateToSameRate => k in s.streams && s.streams[k].rate == rate && k.kind.FixedRate?
    case UpdateAmountToSameAmount => k in s.streams && s.streams[k].rate == rate && k.kind.DynamicRate?
    case UserWithoutFunds => k.user in s.flagged
    case PaymentStreamNotFound => k !in s.streams || (charged.Ok? && k !in charged.value.state.streams)
    case CannotHoldDeposit =>
      charged.Ok? && k in s.streams
      && !CanSpare(c, charged.value.state.ledger, k.user,
                   SatSub(TermsDeposit(c, s.price, k.kind, rate), s.streams[k].deposit))
    case Overflow => charged == Err(Overflow) || !TermsFit(c, s.price, k.kind, rate)
    case Token(cause) =>
      charged == Err(error) || (charged.Ok? && k !in charged.value.state.streams && cause.FundsUnavailable?)
    case _ => charged == Err(error)
  }

  lemma ChangeRefusedTruly(c: Config, env: Env, s: State, k: StreamKey, rate: nat)
    requires Backed(s, k.user) && Update(c, env, s, k, rate).Err?
    ensures TrueOfChange(c, env, s, k, rate, Update(c, env, s, k, rate).error)
  {
    hide Charge, Backed, TermsFit, TermsDeposit, DepositFor;
    if k in s.streams && Charge(c, env, s, k.provider, k.user).Ok? {
      var s1 := Charge(c, env, s, k.provider, k.user).value.state;
      DepositExists(c, s1, k.kind, rate);
      ChargeKeeps(c, env, s, k.provider, k.user, k.user);
      ChargeDeposit(c, env, s, k.provider, k.user, k);
      ChargeMarker(c, env, s, k.provider, k.user, k);
      AdjustRefused(c, s1.ledger, k.user, s.streams[k].deposit, TermsDeposit(c, s.price, k.kind, rate));
      if k in s1.streams {
        DepositIsHeld(s1, k);
      }
      hide AdjustDeposit, CanSpare;
    } else if k in s.streams && k.provider in env.payees && k.provider !in env.insolvent {
      ChargeErrors(c, env, s, k);
    }
  }

  /** The errors a charge has of its own. */
  lemma ChargeErrors(c: Config, env: Env, s: State, k: StreamKey)
    requires k in s.streams && k.provider in env.payees && k.provider !in env.insolvent
    requires Charge(c, env, s, k.provider, k.user).Err?
    ensures var error := Charge(c, env, s, k.provider, k.user).error;
            error.ChargeOverflow? || error.Overflow? || error.Underflow? || error.ProviderInconsistencyError? || error.Token?
  {
    assert k.kind == FixedRate || k.kind == DynamicRate;
    var fixed, dynamic := StreamKey(k.provider, k.user, FixedRate), StreamKey(k.provider, k.user, DynamicRate);
    var r := ChargeStream(c, env, s, fixed, 0);
    if r.Err? {
      StreamErrors(c, env, s, fixed, 0);
    } else {
      StreamErrors(c, env, r.value.state, dynamic, r.value.amount);
    }
    hide ChargeStream;
  }

  lemma StreamErrors(c: Config, env: Env, s: State, key: StreamKey, already: nat)
    requires ChargeStream(c, env, s, key, already).Err?
    ensures var error := ChargeStream(c, env, s, key, already).error;
            error.ChargeOverflow? || error.Overflow? || error.Underflow? || error.ProviderInconsistencyError? || error.Token?
  {
    hide Metered, Pay;
  }

  lemma AdjustRefused(c: Config, l: Ledger, u: Account, was: nat, updated: nat)
    ensures AdjustDeposit(c, l, u, was, updated).Err? ==>
              var error := AdjustDeposit(c, l, u, was, updated).error;
              || (error == CannotHoldDeposit && !CanSpare(c, l, u, SatSub(updated, was)))
              || (error == Token(FundsUnavailable) && was > Held(l, u))
  {
  }

  /** A refused clearing of the flag names a reason that holds. */
  lemma ClearRefusedTruly(c: Config, s: State, u: Account)
    requires Backed(s, u) && ClearFlag(c, s, u).Err?
    ensures match ClearFlag(c, s, u).error
            case UserNotFlaggedAsWithoutFunds => u !in s.flagged
            case CooldownPeriodNotPassed => u in s.flagged && SatSub(s.tick, s.flagged[u]) < c.cooldown
            case UserHasRemainingDebt => exists k :: k in s.streams && k.user == u
            case _ => false
  {
    NoDeposits(s.streams, u);
  }
}
