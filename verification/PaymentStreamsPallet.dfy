/** The payment streams pallet in the form it has: storage items updated in place, the batch loop over users, the loop
    over the providers of an insolvent user, and the hook's loop over the provers of the last tick. Each method is proved
    against its function in `PaymentStreams`. Internal methods may stop halfway with an error; the dispatchables that call
    them then put the storage back, as the runtime's storage layer does. */
module PaymentStreamsPallet {
  import opened Prelude
  import opened Sums
  import opened Balances
  import opened PaymentStreams

  lemma LiquidationLiquidates(env: Env, s: State, key: StreamKey)
    requires key in s.streams
    ensures DecideLiquidation(env, s, key).Ok? ==> DecideLiquidation(env, s, key).value.Liquidates?
  {
  }

  class Pallet {
    const config: Config

    var ledger: Ledger
    var streams: map<StreamKey, Stream>
    var counts: map<Account, nat>
    var flagged: map<Account, nat>
    var chargeable: map<ProviderId, Chargeable>
    var tick: Tick
    var index: nat
    var price: nat
    var provenTick: Tick

    function Storage(): State
      reads this
    {
      State(ledger, streams, counts, flagged, chargeable, tick, index, price, provenTick)
    }

    constructor (c: Config, free: map<Account, nat>, initialPrice: nat)
      ensures config == c
      ensures Storage() == State(Ledger(free, map[]), map[], map[], map[], map[], 0, 0, initialPrice, 0)
    {
      config := c;
      ledger := Ledger(free, map[]);
      streams, counts, flagged, chargeable := map[], map[], map[], map[];
      tick, index, price, provenTick := 0, 0, initialPrice, 0;
    }

    method Restore(s: State)
      modifies this
      ensures Storage() == s
    {
      ledger, streams, counts, flagged := s.ledger, s.streams, s.counts, s.flagged;
      chargeable, tick, index, price, provenTick := s.chargeable, s.tick, s.index, s.price, s.provenTick;
    }

    /** `manage_user_without_funds`. */
    method ManageUserWithoutFunds(env: Env, key: StreamKey) returns (result: Outcome<(), Error>)
      requires key in streams
      modifies this`ledger, this`streams, this`counts, this`flagged
      ensures var effect := DecideLiquidation(env, old(Storage()), key);
              && (effect.Err? ==> result == Err(effect.error))
              && (effect.Ok? ==>
                    var spec := Enact(config, env, old(Storage()), key, effect.value);
                    && (result.Ok? <==> spec.Ok?)
                    && (result.Ok? ==> Storage() == spec.value)
                    && (result.Err? ==> result.error == spec.error))
    {
      hide Metered, Pay, Release;
      var stream := streams[key];
      var due := Metered(key.kind, stream.rate, SatSub(Target(env, Storage(), key), stream.marker));
      if due.None? { return Err(Overflow); }
      if key.provider !in env.payees { return Err(ProviderInconsistencyError); }
      var amount := Min(due.value, stream.deposit);
      var released := Release(ledger, key.user, stream.deposit);
      if released.Err? { return Err(Token(released.error)); }
      ledger := released.value;
      var paid := Pay(config.ed, ledger, key.user, env.payees[key.provider], config.treasury, env.share, amount);
      if paid.Err? { return Err(Token(paid.error)); }
      ledger := paid.value;
      streams := streams - {key};
      var count := Get(counts, key.user);
      if count == 0 { return Err(Underflow); }
      counts := counts[key.user := count - 1];
      if key.user !in flagged {
        flagged := flagged[key.user := env.block];
      }
      result := Ok(());
    }

    /** One of the two halves of `do_charge_payment_streams`. */
    method ChargeOneStream(env: Env, key: StreamKey, already: nat) returns (result: Outcome<nat, Error>)
      modifies this`ledger, this`streams, this`counts, this`flagged
      ensures var spec := ChargeStream(config, env, old(Storage()), key, already);
              && (result.Ok? <==> spec.Ok?)
              && (result.Ok? ==> result.value == spec.value.amount && Storage() == spec.value.state)
              && (result.Err? ==> result.error == spec.error)
    {
      hide Metered, Pay, DecideLiquidation;
      if key !in streams { return Ok(already); }
      var stream := streams[key];
      if key.user in flagged {
        LiquidationLiquidates(env, Storage(), key);
        var managed := ManageUserWithoutFunds(env, key);
        return if managed.Ok? then Ok(already) else Err(managed.error);
      }
      var target := Target(env, Storage(), key);
      if target < stream.marker { return Ok(already); }
      var due := Metered(key.kind, stream.rate, target - stream.marker);
      if due.None? { return Err(ChargeOverflow); }
      if Reducible(config.ed, ledger, key.user) < due.value {
        result := HandleLowFunds(env, key, already);
        return;
      }
      if key.provider !in env.payees { return Err(ProviderInconsistencyError); }
      if already + due.value > MAX_BALANCE { return Err(Overflow); }
      var paid := Pay(config.ed, ledger, key.user, env.payees[key.provider], config.treasury, env.share, due.value);
      if paid.Err? { return Err(Token(paid.error)); }
      ledger := paid.value;
      streams := streams[key := stream.(marker := target, outOfFunds := None)];
      result := Ok(already + due.value);
    }

    /** The branch taken when the user cannot pay: start waiting, go on waiting, or liquidate. */
    method HandleLowFunds(env: Env, key: StreamKey, already: nat) returns (result: Outcome<nat, Error>)
      requires key in streams && key.user !in flagged
      requires var target := Target(env, Storage(), key);
               && target >= streams[key].marker
               && Metered(key.kind, streams[key].rate, target - streams[key].marker).Some?
               && Reducible(config.ed, ledger, key.user)
                  < Metered(key.kind, streams[key].rate, target - streams[key].marker).value
      modifies this`ledger, this`streams, this`counts, this`flagged
      ensures var spec := ChargeStream(config, env, old(Storage()), key, already);
              && (result.Ok? <==> spec.Ok?)
              && (result.Ok? ==> result.value == spec.value.amount && Storage() == spec.value.state)
              && (result.Err? ==> result.error == spec.error)
    {
      hide Metered, PayFrom, DecideLiquidation, Release;
      var stream := streams[key];
      var waited := if stream.outOfFunds.Some? then SatSub(tick, stream.outOfFunds.value) else 0;
      if waited >= config.newStreamDeposit {
        LiquidationLiquidates(env, Storage(), key);
        var managed := ManageUserWithoutFunds(env, key);
        return if managed.Ok? then Ok(already) else Err(managed.error);
      }
      if stream.outOfFunds.None? {
        streams := streams[key := stream.(outOfFunds := Some(tick))];
      } else {
        assert streams[key := stream] == streams;
      }
      result := Ok(already);
    }

    /** `do_charge_payment_streams`. */
    method ChargeUser(env: Env, p: ProviderId, u: Account) returns (result: Outcome<nat, Error>)
      modifies this`ledger, this`streams, this`counts, this`flagged
      ensures var spec := Charge(config, env, old(Storage()), p, u);
              && (result.Ok? <==> spec.Ok?)
              && (result.Ok? ==> result.value == spec.value.amount && Storage() == spec.value.state)
              && (result.Err? ==> result.error == spec.error)
    {
      hide ChargeStream;
      if p in env.insolvent { return Err(ProviderInsolvent); }
      if p !in env.payees { return Err(NotAProvider); }
      if !HasStream(Storage(), p, u) { return Err(PaymentStreamNotFound); }
      result := ChargeOneStream(env, StreamKey(p, u, FixedRate), 0);
      if result.Ok? {
        result := ChargeOneStream(env, StreamKey(p, u, DynamicRate), result.value);
      }
    }

    /** The batch: one user after the other, all or nothing. What it leaves is what charging each user in turn would. */
    method ChargeMultipleUsers(env: Env, p: ProviderId, users: seq<Account>) returns (result: Outcome<(), Error>)
      modifies this
      ensures var spec := ChargeAll(config, env, old(Storage()), p, users);
              && (result.Ok? <==> spec.Ok?)
              && Storage() == (if spec.Ok? then spec.value else old(Storage()))
              && (result.Err? ==> result.error == spec.error)
    {
      hide Charge;
      var saved := Storage();
      var i := 0;
      while i < |users|
        invariant 0 <= i <= |users|
        invariant ChargeAll(config, env, saved, p, users) == ChargeAll(config, env, Storage(), p, users[i..])
        modifies this
      {
        var charged := ChargeUser(env, p, users[i]);
        if charged.Err? {
          Restore(saved);
          return Err(charged.error);
        }
        assert users[i..][1..] == users[i + 1..];
        i := i + 1;
      }
      result := Ok(());
    }

    /** Opening a stream: every check comes before the hold. */
    method CreateStream(env: Env, key: StreamKey, rate: nat) returns (result: Outcome<(), Error>)
      modifies this`ledger, this`streams, this`counts
      ensures var spec := Create(config, env, old(Storage()), key, rate);
              && (result.Ok? <==> spec.Ok?)
              && Storage() == (if spec.Ok? then spec.value else old(Storage()))
              && (result.Err? ==> result.error == spec.error)
    {
      hide DepositFor;
      if key.provider !in env.payees { return Err(NotAProvider); }
      if key.provider in env.insolvent { return Err(ProviderInsolvent); }
      if rate == 0 { return Err(ZeroError(key.kind)); }
      if key in streams { return Err(PaymentStreamAlreadyExists); }
      if key.user in flagged { return Err(UserWithoutFunds); }
      var deposit := DepositFor(config, Storage(), key.kind, rate);
      if deposit.None? { return Err(Overflow); }
      if Reducible(config.ed, ledger, key.user) < deposit.value { return Err(CannotHoldDeposit); }
      var count := Get(counts, key.user);
      if count >= MAX_COUNT { return Err(Overflow); }
      ledger := Hold(config.ed, ledger, key.user, deposit.value).value;
      counts := counts[key.user := count + 1];
      streams := streams[key := Stream(rate, if key.kind.FixedRate? then tick else index, deposit.value, None)];
      result := Ok(());
    }

    /** Changing a rate: charge at the old one, adjust the deposit, then write the new one. */
    method UpdateStream(env: Env, key: StreamKey, rate: nat) returns (result: Outcome<(), Error>)
      modifies this
      ensures var spec := Update(config, env, old(Storage()), key, rate);
              && (result.Ok? <==> spec.Ok?)
              && Storage() == (if spec.Ok? then spec.value else old(Storage()))
              && (result.Err? ==> result.error == spec.error)
    {
      hide Charge, DepositFor, AdjustDeposit;
      if key.provider !in env.payees { return Err(NotAProvider); }
      if key.provider in env.insolvent { return Err(ProviderInsolvent); }
      if rate == 0 { return Err(ZeroError(key.kind)); }
      if key !in streams { return Err(PaymentStreamNotFound); }
      var stream := streams[key];
      if stream.rate == rate {
        return Err(if key.kind.FixedRate? then UpdateRateToSameRate else UpdateAmountToSameAmount);
      }
      if key.user in flagged { return Err(UserWithoutFunds); }
      var saved := Storage();
      var charged := ChargeUser(env, key.provider, key.user);
      if charged.Err? {
        Restore(saved);
        return Err(charged.error);
      }
      var deposit := DepositFor(config, Storage(), key.kind, rate);
      if deposit.None? {
        Restore(saved);
        return Err(Overflow);
      }
      var adjusted := AdjustDeposit(config, ledger, key.user, stream.deposit, deposit.value);
      if adjusted.Err? {
        Restore(saved);
        return Err(adjusted.error);
      }
      if key !in streams {
        Restore(saved);
        return Err(PaymentStreamNotFound);
      }
      ledger := adjusted.value;
      streams := streams[key := streams[key].(rate := rate, deposit := deposit.value)];
      result := Ok(());
    }

    /** Closing a stream: charge it first, unless the provider is insolvent; then release its deposit, unless that charge
        liquidated it. */
    method DeleteStream(env: Env, key: StreamKey) returns (result: Outcome<(), Error>)
      modifies this
      ensures var spec := Delete(config, env, old(Storage()), key);
              && (result.Ok? <==> spec.Ok?)
              && Storage() == (if spec.Ok? then spec.value else old(Storage()))
              && (result.Err? ==> result.error == spec.error)
    {
      hide Charge, Release;
      if key.provider !in env.payees { return Err(NotAProvider); }
      if key !in streams { return Err(PaymentStreamNotFound); }
      var saved := Storage();
      if key.provider !in env.insolvent {
        var charged := ChargeUser(env, key.provider, key.user);
        if charged.Err? {
          Restore(saved);
          return Err(charged.error);
        }
      }
      if key in streams {
        var released := Release(ledger, key.user, streams[key].deposit);
        if released.Err? {
          Restore(saved);
          return Err(Token(released.error));
        }
        ledger := released.value;
        streams := streams - {key};
        var count := Get(counts, key.user);
        if count == 0 {
          Restore(saved);
          return Err(Underflow);
        }
        counts := counts[key.user := count - 1];
      }
      result := Ok(());
    }

    /** One stream of a user whose debts are being paid; `paid` is the sum of the deposits used up so far. */
    method PayOneStream(env: Env, key: StreamKey, paid: nat) returns (result: Outcome<nat, Error>)
      modifies this`ledger, this`streams, this`counts
      ensures var spec := PayStream(config, env, Paying(old(Storage()), paid), key);
              && (result.Ok? <==> spec.Ok?)
              && (result.Ok? ==> Paying(Storage(), result.value) == spec.value)
              && (result.Err? ==> result.error == spec.error)
    {
      hide Metered, Pay;
      if key !in streams { return Ok(paid); }
      var stream := streams[key];
      var due := Metered(key.kind, stream.rate, SatSub(Target(env, Storage(), key), stream.marker));
      if due.None? { return Err(Overflow); }
      if key.provider !in env.payees { return Err(ProviderInconsistencyError); }
      var amount := Min(due.value, stream.deposit);
      var sent := Pay(config.ed, ledger, key.user, env.payees[key.provider], config.treasury, env.share, amount);
      if sent.Err? { return Err(Token(sent.error)); }
      ledger := sent.value;
      streams := streams - {key};
      var count := Get(counts, key.user);
      if count == 0 { return Err(Underflow); }
      counts := counts[key.user := count - 1];
      result := Ok(paid + stream.deposit);
    }

    /** `do_pay_outstanding_debt`: release everything, pay the listed providers, hold the rest again. */
    method PayOutstandingDebt(env: Env, u: Account, ps: seq<ProviderId>) returns (result: Outcome<bool, Error>)
      modifies this
      ensures var spec := PayDebt(config, env, old(Storage()), u, ps);
              && (result.Ok? <==> spec.Ok?)
              && Storage() == (if spec.Ok? then spec.value.state else old(Storage()))
              && (result.Ok? ==> result.value == spec.value.all)
              && (result.Err? ==> result.error == spec.error)
    {
      hide PayStream;
      if u !in flagged { return Err(UserNotFlaggedAsWithoutFunds); }
      var saved := Storage();
      var released := Held(ledger, u);
      ledger := Release(ledger, u, released).value;
      ghost var start := StartPaying(saved, u);
      var paid := 0;
      var i := 0;
      while i < |ps|
        invariant 0 <= i <= |ps|
        invariant PayProviders(config, env, start, u, ps)
                  == PayProviders(config, env, Paying(Storage(), paid), u, ps[i..])
        modifies this
      {
        assert ps[i..][1..] == ps[i + 1..];
        var first := PayOneStream(env, StreamKey(ps[i], u, FixedRate), paid);
        if first.Err? {
          Restore(saved);
          return Err(first.error);
        }
        var second := PayOneStream(env, StreamKey(ps[i], u, DynamicRate), first.value);
        if second.Err? {
          Restore(saved);
          return Err(second.error);
        }
        paid := second.value;
        i := i + 1;
      }
      if paid > released {
        Restore(saved);
        return Err(Underflow);
      }
      var held := Hold(config.ed, ledger, u, released - paid);
      if held.Err? {
        Restore(saved);
        return Err(Token(held.error));
      }
      ledger := held.value;
      result := Ok(Get(counts, u) == 0);
    }

    method ClearInsolventFlag(u: Account) returns (result: Outcome<(), Error>)
      modifies this`flagged
      ensures var spec := ClearFlag(config, old(Storage()), u);
              && (result.Ok? <==> spec.Ok?)
              && Storage() == (if spec.Ok? then spec.value else old(Storage()))
              && (result.Err? ==> result.error == spec.error)
    {
      if u !in flagged { return Err(UserNotFlaggedAsWithoutFunds); }
      if SatSub(tick, flagged[u]) < config.cooldown { return Err(CooldownPeriodNotPassed); }
      if Get(counts, u) != 0 { return Err(UserHasRemainingDebt); }
      flagged := flagged - {u};
      result := Ok(());
    }

    /** `on_poll`. */
    method OnPoll(dealerTick: Tick, submitters: set<ProviderId>)
      modifies this`tick, this`index, this`chargeable, this`provenTick
      ensures Storage() == Poll(old(Storage()), dealerTick, submitters)
    {
      var previous := tick;
      tick := tick + 1;
      var toProcess := SatSub(dealerTick, 1);
      if provenTick < toProcess {
        var rest := submitters;
        while rest != {}
          invariant rest <= submitters
          invariant chargeable.Keys == old(chargeable).Keys + (submitters - rest)
          invariant forall p :: p in chargeable ==>
                      chargeable[p] == if p in submitters - rest then Chargeable(previous, index) else old(chargeable)[p]
          decreases rest
          modifies this`chargeable
        {
          var p :| p in rest;
          chargeable := chargeable[p := Chargeable(previous, index)];
          rest := rest - {p};
        }
        assert submitters - rest == submitters;
        provenTick := toProcess;
        assert chargeable == Proven(old(chargeable), submitters, Chargeable(previous, index));
      }
      index := SatAdd128(index, price);
    }
  }
}
