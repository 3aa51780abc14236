/** The two clocks of insolvency. The flag stores the block in which it was set, and the cooldown compares it with the
    pallet's tick, which advances at most once per block; so the cooldown runs from the block, not from the tick. */
module InsolvencyClock {
  import opened Prelude
  import opened Balances
  import opened PaymentStreams
  import opened StreamAccounts
  import opened Insolvency

  /** The pallet and the number of the current block. */
  datatype Chain = Chain(state: State, block: nat)

  /** A new block, polled or not (it is not during a multi-block migration), or a call within the block. */
  datatype ChainStep =
    | NewBlock(polled: bool, dealerTick: PaymentStreams.Tick, submitters: set<ProviderId>)
    | Call(step: Step)

  /** The step as executed in a block: what it learns from the system is that block's number. */
  function InBlock(step: Step, block: nat): Step {
    match step
    case Open(env, key, rate) => Open(env.(block := block), key, rate)
    case Change(env, key, rate) => Change(env.(block := block), key, rate)
    case Close(env, key) => Close(env.(block := block), key)
    case ChargeUsers(env, p, users) => ChargeUsers(env.(block := block), p, users)
    case PayDebts(env, u, ps) => PayDebts(env.(block := block), u, ps)
    case _ => step
  }

  function ApplyIn(c: Config, ch: Chain, step: ChainStep): Chain {
    match step
    case NewBlock(polled, dealerTick, submitters) =>
      Chain(if polled then Apply(c, ch.state, Tick(dealerTick, submitters)) else ch.state, ch.block + 1)
    case Call(call) =>
      if call.Tick? then ch else ch.(state := Apply(c, ch.state, InBlock(call, ch.block)))
  }

  function RunIn(c: Config, ch: Chain, steps: seq<ChainStep>): Chain
    decreases |steps|
  {
    if steps == [] then ch else RunIn(c, ApplyIn(c, ch, steps[0]), steps[1..])
  }

  /** Ticks never overtake blocks. */
  ghost predicate InOrder(ch: Chain) {
    ch.state.tick <= ch.block
  }

  // --- The block a flag stores ------------------------------------------------------------------------

  /** A flag set between the two storages stores `block`; one that was set before is left as it was. The tick stays. */
  ghost predicate FlagsIn(s: State, s': State, u: Account, block: nat) {
    && (u in s'.flagged ==> s'.flagged[u] == if u in s.flagged then s.flagged[u] else block)
    && s'.tick == s.tick
  }

  lemma ChargeStreamFlags(c: Config, env: Env, s: State, key: StreamKey, already: nat, u: Account)
    requires ChargeStream(c, env, s, key, already).Ok?
    ensures var s' := ChargeStream(c, env, s, key, already).value.state;
            FlagsIn(s, s', u, env.block) && (u in s.flagged ==> u in s'.flagged)
  {
    hide Decide, PayFrom, Release;
  }

  lemma ChargeFlags(c: Config, env: Env, s: State, p: ProviderId, v: Account, u: Account)
    requires Charge(c, env, s, p, v).Ok?
    ensures var s' := Charge(c, env, s, p, v).value.state;
            FlagsIn(s, s', u, env.block) && (u in s.flagged ==> u in s'.flagged)
  {
    hide ChargeStream;
    var first := ChargeStream(c, env, s, StreamKey(p, v, FixedRate), 0).value;
    ChargeStreamFlags(c, env, s, StreamKey(p, v, FixedRate), 0, u);
    ChargeStreamFlags(c, env, first.state, StreamKey(p, v, DynamicRate), first.amount, u);
  }

  lemma {:induction false} ChargeAllFlags(c: Config, env: Env, s: State, p: ProviderId, users: seq<Account>, u: Account)
    requires ChargeAll(c, env, s, p, users).Ok?
    ensures var s' := ChargeAll(c, env, s, p, users).value;
            FlagsIn(s, s', u, env.block) && (u in s.flagged ==> u in s'.flagged)
    decreases |users|
  {
    hide Charge;
    if users != [] {
      ChargeFlags(c, env, s, p, users[0], u);
      ChargeAllFlags(c, env, Charge(c, env, s, p, users[0]).value.state, p, users[1..], u);
    }
  }

  lemma PayDebtFlags(c: Config, env: Env, s: State, v: Account, ps: seq<ProviderId>)
    requires PayDebt(c, env, s, v, ps).Ok?
    ensures PayDebt(c, env, s, v, ps).value.state.flagged == s.flagged
    ensures PayDebt(c, env, s, v, ps).value.state.tick == s.tick
  {
    PayDebtLeaves(c, env, s, v, ps, StreamKey(0, v, FixedRate));
    hide PayProviders;
    PayProvidersTick(c, env, StartPaying(s, v), v, ps);
  }

  lemma {:induction false} PayProvidersTick(c: Config, env: Env, w: Paying, u: Account, ps: seq<ProviderId>)
    requires PayProviders(c, env, w, u, ps).Ok?
    ensures PayProviders(c, env, w, u, ps).value.state.tick == w.state.tick
    decreases |ps|
  {
    hide DecideLiquidation, PayFrom;
    if ps != [] {
      PayProvidersTick(c, env, PayProvider(c, env, w, u, ps[0]).value, u, ps[1..]);
    }
  }

  lemma CallFlags(c: Config, s: State, step: Step, block: nat, u: Account)
    requires !step.Tick?
    ensures FlagsIn(s, Apply(c, s, InBlock(step, block)), u, block)
  {
    hide Charge, ChargeAll, PayDebt, DepositFor, AdjustDeposit, Transfer, Release;
    match step
    case NewPrice(_) =>
    case Spend(_, _, _) =>
    case Open(_, _, _) =>
    case Change(env, key, rate) =>
      var e := env.(block := block);
      if Update(c, e, s, key, rate).Ok? { ChargeFlags(c, e, s, key.provider, key.user, u); }
    case Close(env, key) =>
      var e := env.(block := block);
      if Delete(c, e, s, key).Ok? && key.provider !in e.insolvent { ChargeFlags(c, e, s, key.provider, key.user, u); }
    case ChargeUsers(env, p, users) =>
      var e := env.(block := block);
      if ChargeAll(c, e, s, p, users).Ok? { ChargeAllFlags(c, e, s, p, users, u); }
    case PayDebts(env, v, ps) =>
      var e := env.(block := block);
      if PayDebt(c, e, s, v, ps).Ok? { PayDebtFlags(c, e, s, v, ps); }
    case Clear(_) =>
  }

  // --- Runs -------------------------------------------------------------------------------------------

  lemma ApplyInOrder(c: Config, ch: Chain, step: ChainStep)
    requires InOrder(ch)
    ensures InOrder(ApplyIn(c, ch, step)) && ApplyIn(c, ch, step).state.tick >= ch.state.tick
  {
    if step.Call? && !step.step.Tick? {
      CallFlags(c, ch.state, step.step, ch.block, 0);
      hide Apply;
    }
  }

  /** Over every run the tick stays at or below the block number, and neither goes back. */
  lemma {:induction false} RunInOrder(c: Config, ch: Chain, steps: seq<ChainStep>)
    requires InOrder(ch)
    ensures InOrder(RunIn(c, ch, steps)) && RunIn(c, ch, steps).state.tick >= ch.state.tick
    decreases |steps|
  {
    hide ApplyIn;
    if steps != [] {
      ApplyInOrder(c, ch, steps[0]);
      RunInOrder(c, ApplyIn(c, ch, steps[0]), steps[1..]);
    }
  }

  lemma StepBacked(c: Config, ch: Chain, step: ChainStep, u: Account)
    requires Backed(ch.state, u)
    ensures Backed(ApplyIn(c, ch, step).state, u)
  {
    hide Apply, Backed;
    match step
    case NewBlock(polled, dealerTick, submitters) => ApplyKeeps(c, ch.state, Tick(dealerTick, submitters), u);
    case Call(call) => ApplyKeeps(c, ch.state, InBlock(call, ch.block), u);
  }

  /** A step that does not clear the flag leaves it set, since the same block. */
  lemma StepKeepsFlag(c: Config, ch: Chain, step: ChainStep, u: Account)
    requires u in ch.state.flagged
    requires !(step == Call(Clear(u)) && ClearFlag(c, ch.state, u).Ok?)
    ensures var s' := ApplyIn(c, ch, step).state;
            u in s'.flagged && s'.flagged[u] == ch.state.flagged[u]
  {
    hide Apply, ClearFlag;
    var k := StreamKey(0, u, FixedRate);
    match step
    case NewBlock(polled, dealerTick, submitters) => ApplyBars(c, ch.state, Tick(dealerTick, submitters), k);
    case Call(call) => ApplyBars(c, ch.state, InBlock(call, ch.block), k);
  }

  /** A flag that is gone after a run was cleared by one of its steps, at a tick at least the cooldown after the block the
      flag stores, when no stream of the user remained. */
  lemma {:induction false} ClearedAfterBlock(c: Config, ch: Chain, steps: seq<ChainStep>, u: Account) returns (i: nat)
    requires Backed(ch.state, u) && u in ch.state.flagged && u !in RunIn(c, ch, steps).state.flagged
    ensures i < |steps| && steps[i] == Call(Clear(u))
    ensures var at := RunIn(c, ch, steps[..i]).state;
            && SatSub(at.tick, ch.state.flagged[u]) >= c.cooldown
            && (forall k :: k in at.streams ==> k.user != u)
    decreases |steps|
  {
    hide ApplyIn, Backed, ClearFlag;
    if steps[0] == Call(Clear(u)) && ClearFlag(c, ch.state, u).Ok? {
      ClearsExactly(c, ch.state, u);
      i := 0;
    } else {
      var next := ApplyIn(c, ch, steps[0]);
      StepBacked(c, ch, steps[0], u);
      StepKeepsFlag(c, ch, steps[0], u);
      var j := ClearedAfterBlock(c, next, steps[1..], u);
      i := j + 1;
      assert steps[..i][1..] == steps[1..][..j];
    }
  }

  /** A call flags the user: it was not flagged before, and is after. */
  ghost predicate FlaggedBy(c: Config, ch: Chain, call: Step, u: Account) {
    !call.Tick? && u !in ch.state.flagged && u in ApplyIn(c, ch, Call(call)).state.flagged
  }

  /** A user flagged at tick `t0` in block `b`, with `t0 <= b`, can be cleared only at a tick of at least `b + cooldown`: a
      full cooldown after `t0`, and later than that by the `b - t0` blocks that were not polled. By then no stream of the
      user remains. */
  lemma ClearedOnlyAfterCooldown(c: Config, ch: Chain, call: Step, rest: seq<ChainStep>, u: Account) returns (i: nat)
    requires InOrder(ch) && Backed(ch.state, u) && FlaggedBy(c, ch, call, u)
    requires u !in RunIn(c, ApplyIn(c, ch, Call(call)), rest).state.flagged
    ensures i < |rest| && rest[i] == Call(Clear(u))
    ensures var at := RunIn(c, ApplyIn(c, ch, Call(call)), rest[..i]).state;
            && (c.cooldown > 0 ==> at.tick >= ch.block + c.cooldown)
            && at.tick >= ch.state.tick + c.cooldown
            && (forall k :: k in at.streams ==> k.user != u)
  {
    var flagged := ApplyIn(c, ch, Call(call));
    CallFlags(c, ch.state, call, ch.block, u);
    StepBacked(c, ch, Call(call), u);
    ApplyInOrder(c, ch, Call(call));
    hide Apply, RunIn, Backed;
    i := ClearedAfterBlock(c, flagged, rest, u);
    RunInOrder(c, flagged, rest[..i]);
  }

  /** And exactly then: whatever happened since, the flag can be cleared at a tick if and only if the cooldown has passed
      since the block of the flagging call and no stream of the user remains. */
  lemma ClearableExactly(c: Config, ch: Chain, call: Step, rest: seq<ChainStep>, u: Account)
    requires InOrder(ch) && Backed(ch.state, u) && FlaggedBy(c, ch, call, u)
    requires NeverCleared(c, ApplyIn(c, ch, Call(call)), rest, u)
    ensures var at := RunIn(c, ApplyIn(c, ch, Call(call)), rest).state;
            ClearFlag(c, at, u).Ok? <==>
              && (c.cooldown == 0 || at.tick >= ch.block + c.cooldown)
              && (forall k :: k in at.streams ==> k.user != u)
  {
    var flagged := ApplyIn(c, ch, Call(call));
    CallFlags(c, ch.state, call, ch.block, u);
    StepBacked(c, ch, Call(call), u);
    hide Apply, ApplyIn, RunIn, Backed, NeverCleared, ClearFlag;
    StaysFlagged(c, flagged, rest, u);
    ClearsExactly(c, RunIn(c, flagged, rest).state, u);
  }

  /** No step of the run clears the user's flag. */
  ghost predicate NeverCleared(c: Config, ch: Chain, steps: seq<ChainStep>, u: Account)
    decreases |steps|
  {
    || steps == []
    || (&& !(steps[0] == Call(Clear(u)) && ClearFlag(c, ch.state, u).Ok?)
        && NeverCleared(c, ApplyIn(c, ch, steps[0]), steps[1..], u))
  }

  lemma {:induction false} StaysFlagged(c: Config, ch: Chain, steps: seq<ChainStep>, u: Account)
    requires Backed(ch.state, u) && u in ch.state.flagged && NeverCleared(c, ch, steps, u)
    ensures var s' := RunIn(c, ch, steps).state;
            Backed(s', u) && u in s'.flagged && s'.flagged[u] == ch.state.flagged[u]
    decreases |steps|
  {
    hide ApplyIn, Backed, ClearFlag;
    if steps != [] {
      StepBacked(c, ch, steps[0], u);
      StepKeepsFlag(c, ch, steps[0], u);
      StaysFlagged(c, ApplyIn(c, ch, steps[0]), steps[1..], u);
    }
  }
}
