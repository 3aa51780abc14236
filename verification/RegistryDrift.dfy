/** Runs of the registry in which providers are also slashed and top up. Both may rewrite the capacity of a backup provider
    without telling the total, so the total drifts from the recount by the sum of those rewrites. */
module RegistryDrift {
  import opened Prelude
  import opened Sums
  import opened Balances
  import opened ProviderRegistry
  import R = RegistryRuns
  import opened RegistrySlash

  datatype Step =
    | Ordinary(step: R.Step)
    | Punish(id: ProviderId, treasury: Account, failures: Option<nat>)
    | Replenish(who: Account)

  function Apply(c: Config, s: Registry, step: Step): Registry {
    match step
    case Ordinary(r) => R.Apply(c, s, r)
    case Punish(id, treasury, failures) => R.Settled(s, Slash(c, s, id, treasury, failures))
    case Replenish(who) => R.Settled(s, TopUp(c, s, who))
  }

  function Run(c: Config, s: Registry, steps: seq<Step>): Registry
    decreases |steps|
  {
    if steps == [] then s else Apply(c, Run(c, s, steps[..|steps| - 1]), steps[|steps| - 1])
  }

  /** No sign-up of the run draws an id that is in use. */
  ghost predicate FreshIds(c: Config, s: Registry, steps: seq<Step>)
    decreases |steps|
  {
    steps == [] ||
    (var n := |steps| - 1;
     FreshIds(c, s, steps[..n]) && (steps[n].Ordinary? ==> R.FreshId(Run(c, s, steps[..n]), steps[n].step)))
  }

  /** The capacities of the backup providers, added up. */
  ghost function Recount(s: Registry): nat {
    Total(Capacities(s.bsps.byId))
  }

  function CapacityAt(s: Registry, id: ProviderId): nat {
    if id in s.bsps.byId then s.bsps.byId[id].capacity else 0
  }

  /** By how much a slash or top-up rewrites the capacity of a backup provider. */
  function Rewrite(c: Config, s: Registry, step: Step): int {
    match step
    case Ordinary(_) => 0
    case Punish(id, _, _) => CapacityAt(Apply(c, s, step), id) - CapacityAt(s, id)
    case Replenish(who) =>
      if who in s.msps.ids || who in s.bsps.ids
      then CapacityAt(Apply(c, s, step), IdOf(s, who)) - CapacityAt(s, IdOf(s, who)) else 0
  }

  function Drift(c: Config, s: Registry, steps: seq<Step>): int
    decreases |steps|
  {
    if steps == [] then 0
    else
      var n := |steps| - 1;
      Drift(c, s, steps[..n]) + Rewrite(c, Run(c, s, steps[..n]), steps[n])
  }

  /** By how much the recount exceeds the total. */
  ghost function Gap(s: Registry): int {
    Recount(s) - s.totalCapacity
  }

  // --- Steps ------------------------------------------------------------------------------------------

  lemma SameGap(s: Registry, s': Registry)
    requires s'.bsps.byId == s.bsps.byId && s'.totalCapacity == s.totalCapacity
    ensures Gap(s') == Gap(s)
  {
  }

  lemma SignUpGap(c: Config, s: Registry, role: Role, who: Account, id: ProviderId, capacity: nat, at: nat, block: nat)
    requires SignUp(c, s, role, who, id, capacity, at, block).Ok? && id !in BookOf(s, role).byId
    ensures Gap(SignUp(c, s, role, who, id, capacity, at, block).value) == Gap(s)
  {
    if role.Bsp? {
      R.CapacitiesPut(s.bsps.byId, id, Provider(who, capacity, 0, at, at));
    }
  }

  lemma SignOffGap(c: Config, s: Registry, role: Role, who: Account, block: nat)
    requires SignOff(c, s, role, who, block).Ok?
    ensures Gap(SignOff(c, s, role, who, block).value) == Gap(s)
  {
    if role.Bsp? {
      R.CapacitiesDrop(s.bsps.byId, s.bsps.ids[who]);
    }
  }

  lemma ChangeGap(c: Config, s: Registry, role: Role, who: Account, id: ProviderId, capacity: nat, block: nat)
    requires ChangeRoleCapacity(c, s, role, who, id, capacity, block).Ok?
    ensures Gap(ChangeRoleCapacity(c, s, role, who, id, capacity, block).value) == Gap(s)
  {
    hide DepositFor, AdjustHold;
    if role.Bsp? {
      R.CapacitiesPut(s.bsps.byId, id, s.bsps.byId[id].(capacity := capacity, lastChange := block));
    }
  }

  lemma UseGap(s: Registry, role: Role, id: ProviderId, used: nat)
    ensures Gap(SetUsed(s, role, id, used)) == Gap(s)
  {
    if role.Bsp? && id in s.bsps.byId {
      assert Capacities(s.bsps.byId[id := s.bsps.byId[id].(used := used)]) == Capacities(s.bsps.byId);
    }
  }

  lemma OrdinaryGap(c: Config, s: Registry, step: R.Step)
    requires R.FreshId(s, step)
    ensures Gap(R.Apply(c, s, step)) == Gap(s)
  {
    hide Gap, SignUp, SignOff, ChangeRoleCapacity, DepositFor, Transfer;
    match step
    case Ask(role, who, capacity, hasAddress, block) => SameGap(s, R.Apply(c, s, step));
    case Cancel(who) => SameGap(s, R.Apply(c, s, step));
    case Confirm(who, id, randomBlock, block) =>
      if ConfirmSignUp(c, s, who, id, randomBlock, block).Ok? {
        var r := s.requests[who];
        SignUpGap(c, s, r.role, who, id, r.capacity, r.at, block);
      }
    case Force(who, id, capacity, hasAddress, block) =>
      if ForceSignUp(c, s, who, id, capacity, hasAddress, block).Ok? {
        var requested := RequestSignUp(c, s, Bsp, who, capacity, hasAddress, block).value;
        SameGap(s, requested);
        SignUpGap(c, requested, Bsp, who, id, capacity, block, block);
      }
    case Leave(role, who, block) =>
      if SignOff(c, s, role, who, block).Ok? { SignOffGap(c, s, role, who, block); }
    case Resize(who, capacity, block) => ResizeGap(c, s, who, capacity, block);
    case Use(role, id, used) => UseGap(s, role, id, used);
    case Declare(insolvent) => SameGap(s, R.Apply(c, s, step));
    case Move(from, to, amount) => SameGap(s, R.Apply(c, s, step));
  }

  lemma ResizeGap(c: Config, s: Registry, who: Account, capacity: nat, block: nat)
    ensures ChangeCapacity(c, s, who, capacity, block).Ok? ==>
              Gap(ChangeCapacity(c, s, who, capacity, block).value) == Gap(s)
  {
    hide Gap, ChangeRoleCapacity;
    if ChangeCapacity(c, s, who, capacity, block).Ok? {
      if who in s.msps.ids {
        ChangeGap(c, s, Msp, who, s.msps.ids[who], capacity, block);
      } else {
        ChangeGap(c, s, Bsp, who, s.bsps.ids[who], capacity, block);
      }
    }
  }

  /** `s'` is `s` up to the ledger, the awaited top-ups, and the capacity of one provider of a role. */
  ghost predicate Rewritten(s: Registry, s': Registry, id: ProviderId) {
    && s'.totalCapacity == s.totalCapacity
    && (|| s'.bsps == s.bsps
        || (id in s.bsps.byId
            && s'.bsps.byId == s.bsps.byId[id := s.bsps.byId[id].(capacity := CapacityAt(s', id))]))
  }

  lemma RewrittenGap(s: Registry, s': Registry, id: ProviderId)
    requires Rewritten(s, s', id)
    ensures Gap(s') == Gap(s) + (CapacityAt(s', id) - CapacityAt(s, id))
  {
    if s'.bsps != s.bsps {
      R.CapacitiesPut(s.bsps.byId, id, s.bsps.byId[id].(capacity := CapacityAt(s', id)));
    }
  }

  lemma SlashRewrites(c: Config, s: Registry, id: ProviderId, treasury: Account, failures: Option<nat>)
    requires Slash(c, s, id, treasury, failures).Ok?
    ensures Rewritten(s, Slash(c, s, id, treasury, failures).value, id)
  {
    hide DepositFor, CapacityFor, SlashableAmount;
  }

  lemma TopUpRewrites(c: Config, s: Registry, who: Account)
    requires TopUp(c, s, who).Ok?
    ensures who in s.msps.ids || who in s.bsps.ids
    ensures Rewritten(s, TopUp(c, s, who).value, IdOf(s, who))
  {
    hide DepositFor;
  }

  /** Every step moves the recount and the total alike, except for the rewrites. */
  lemma StepGap(c: Config, s: Registry, step: Step)
    requires step.Ordinary? ==> R.FreshId(s, step.step)
    ensures Gap(Apply(c, s, step)) == Gap(s) + Rewrite(c, s, step)
  {
    hide Gap, Slash, TopUp, R.Apply, R.FreshId, Rewritten, CapacityAt;
    match step
    case Ordinary(r) => OrdinaryGap(c, s, r);
    case Punish(id, treasury, failures) =>
      if Slash(c, s, id, treasury, failures).Ok? {
        SlashRewrites(c, s, id, treasury, failures);
        RewrittenGap(s, Apply(c, s, step), id);
      }
    case Replenish(who) =>
      if TopUp(c, s, who).Ok? {
        TopUpRewrites(c, s, who);
        RewrittenGap(s, Apply(c, s, step), IdOf(s, who));
      }
  }

  // --- Runs -------------------------------------------------------------------------------------------

  /** Over every run the total capacity plus the sum of all capacity rewrites is the recount. */
  lemma {:induction false} TotalDrifts(c: Config, s: Registry, steps: seq<Step>)
    requires TotalOk(s) && FreshIds(c, s, steps)
    ensures Run(c, s, steps).totalCapacity + Drift(c, s, steps) == Recount(Run(c, s, steps))
    decreases |steps|
  {
    hide Apply, Rewrite;
    if steps != [] {
      var n := |steps| - 1;
      TotalDrifts(c, s, steps[..n]);
      StepGap(c, Run(c, s, steps[..n]), steps[n]);
    }
  }

  /** What a backup provider needs to sign off, but for the counters. */
  predicate MayLeave(c: Config, s: Registry, who: Account, block: nat) {
    && who in s.bsps.ids && s.bsps.ids[who] in s.bsps.byId
    && (var p := s.bsps.byId[s.bsps.ids[who]]; p.used == 0 && block >= p.signUpBlock + c.lockPeriod)
  }

  /** After any run, the sign-off of a backup provider that is free to leave underflows exactly when the rewrites of the run
      added more capacity than all the other backup providers have, or the counter is at zero. */
  lemma SignOffUnderflowsExactly(c: Config, start: Registry, steps: seq<Step>, who: Account, block: nat)
    requires TotalOk(start) && FreshIds(c, start, steps) && MayLeave(c, Run(c, start, steps), who, block)
    ensures var s := Run(c, start, steps);
            SignOff(c, s, Bsp, who, block) == Err(Underflow) <==>
              || Drift(c, start, steps) > Total(Capacities(s.bsps.byId - {s.bsps.ids[who]}))
              || s.bsps.count == 0
  {
    TotalDrifts(c, start, steps);
    hide Run, Drift;
    var s := Run(c, start, steps);
    R.CapacitiesDrop(s.bsps.byId, s.bsps.ids[who]);
  }

  // --- Money ------------------------------------------------------------------------------------------

  lemma SeizeConserves(l: Ledger, from: Account, treasury: Account, amount: nat)
    ensures Money(Seize(l, from, treasury, amount)) == Money(l)
    ensures Held(Seize(l, from, treasury, amount), from) + Min(amount, Held(l, from)) == Held(l, from)
    ensures Free(Seize(l, from, treasury, amount), treasury) == Free(l, treasury) + Min(amount, Held(l, from))
  {
    var seized := Min(amount, Held(l, from));
    TotalPut(l.free, treasury, Free(l, treasury) + seized);
    TotalPut(l.held, from, Held(l, from) - seized);
  }

  lemma OrdinaryConserves(c: Config, s: Registry, step: R.Step)
    ensures Money(R.Apply(c, s, step).ledger) == Money(s.ledger)
  {
    hide Money, DepositFor, SignUp;
    match step
    case Ask(role, who, capacity, hasAddress, block) => AskConserves(c, s, role, who, capacity, hasAddress, block);
    case Cancel(who) => ReleaseConserves(s.ledger, who, Held(s.ledger, who));
    case Confirm(who, id, randomBlock, block) =>
      if ConfirmSignUp(c, s, who, id, randomBlock, block).Ok? {
        SignUpLedger(c, s, s.requests[who].role, who, id, s.requests[who].capacity, s.requests[who].at, block);
      }
    case Force(who, id, capacity, hasAddress, block) =>
      AskConserves(c, s, Bsp, who, capacity, hasAddress, block);
      if ForceSignUp(c, s, who, id, capacity, hasAddress, block).Ok? {
        SignUpLedger(c, RequestSignUp(c, s, Bsp, who, capacity, hasAddress, block).value, Bsp, who, id, capacity, block, block);
      }
    case Leave(role, who, block) => ReleaseConserves(s.ledger, who, Held(s.ledger, who));
    case Resize(who, capacity, block) => ResizeConserves(c, s, who, capacity, block);
    case Use(role, id, used) =>
    case Declare(insolvent) =>
    case Move(from, to, amount) =>
      if Transfer(c.ed, s.ledger, from, to, amount).Ok? { TransferConserves(c.ed, s.ledger, from, to, amount); }
  }

  lemma AskConserves(c: Config, s: Registry, role: Role, who: Account, capacity: nat, hasAddress: bool, block: nat)
    ensures RequestSignUp(c, s, role, who, capacity, hasAddress, block).Ok? ==>
              Money(RequestSignUp(c, s, role, who, capacity, hasAddress, block).value.ledger) == Money(s.ledger)
  {
    hide Money, DepositFor;
    if RequestSignUp(c, s, role, who, capacity, hasAddress, block).Ok? {
      HoldConserves(c.ed, s.ledger, who, DepositFor(c, capacity).value);
    }
  }

  lemma SignUpLedger(c: Config, s: Registry, role: Role, who: Account, id: ProviderId, capacity: nat, at: nat, block: nat)
    requires SignUp(c, s, role, who, id, capacity, at, block).Ok?
    ensures SignUp(c, s, role, who, id, capacity, at, block).value.ledger == s.ledger
  {
  }

  lemma ResizeConserves(c: Config, s: Registry, who: Account, capacity: nat, block: nat)
    ensures ChangeCapacity(c, s, who, capacity, block).Ok? ==>
              Money(ChangeCapacity(c, s, who, capacity, block).value.ledger) == Money(s.ledger)
  {
    hide Money, DepositFor;
    if ChangeCapacity(c, s, who, capacity, block).Ok? {
      var deposit, current := DepositFor(c, capacity).value, Held(s.ledger, who);
      if deposit > current {
        HoldConserves(c.ed, s.ledger, who, deposit - current);
      } else if deposit < current {
        ReleaseConserves(s.ledger, who, current - deposit);
      }
    }
  }

  lemma SlashConserves(c: Config, s: Registry, id: ProviderId, treasury: Account, failures: Option<nat>)
    requires Slash(c, s, id, treasury, failures).Ok?
    ensures Money(Slash(c, s, id, treasury, failures).value.ledger) == Money(s.ledger)
  {
    hide Money, DepositFor, CapacityFor, SlashableAmount;
    var p := BookOf(s, RoleOf(s, id)).byId[id];
    var amount := SlashableAmount(c, failures.value);
    SeizeConserves(s.ledger, p.owner, treasury, amount);
    var l := Seize(s.ledger, p.owner, treasury, amount);
    var deficit := Deficit(c, l, p).value;
    if Hold(c.ed, l, p.owner, deficit).Ok? {
      HoldConserves(c.ed, l, p.owner, deficit);
    }
  }

  lemma TopUpConserves(c: Config, s: Registry, who: Account)
    requires TopUp(c, s, who).Ok?
    ensures Money(TopUp(c, s, who).value.ledger) == Money(s.ledger)
  {
    hide Money, DepositFor;
    var p := BookOf(s, RoleOf(s, IdOf(s, who))).byId[IdOf(s, who)];
    var deficit := Deficit(c, s.ledger, p).value;
    if deficit > 0 {
      HoldConserves(c.ed, s.ledger, p.owner, deficit);
    }
  }

  /** Over every run, slashes and top-ups included, all the money is still there. */
  lemma {:induction false} RunKeepsMoney(c: Config, s: Registry, steps: seq<Step>)
    ensures Money(Run(c, s, steps).ledger) == Money(s.ledger)
    decreases |steps|
  {
    if steps != [] {
      var n := |steps| - 1;
      RunKeepsMoney(c, s, steps[..n]);
      var r := Run(c, s, steps[..n]);
      hide Money, Slash, TopUp, R.Apply;
      match steps[n]
      case Ordinary(step) => OrdinaryConserves(c, r, step);
      case Punish(id, treasury, failures) =>
        if Slash(c, r, id, treasury, failures).Ok? { SlashConserves(c, r, id, treasury, failures); }
      case Replenish(who) =>
        if TopUp(c, r, who).Ok? { TopUpConserves(c, r, who); }
    }
  }

  // --- A sign-off that underflows ---------------------------------------------------------------------

  const SMALL_CONFIG := ProviderRegistry.Config(10, 100, 1, 0, 1, 0, 0, 1000, 1000, 25)
  const EMPTY := Registry(Ledger(map[5 := 1000], map[]), map[], R.NOBODY, R.NOBODY, 0, {}, {}, {})

  /** A backup provider of capacity 50 is given 60 to store, is slashed by 100, pays the difference to the deposit for
      60 from its own balance, gives the data up and wants to leave. */
  const SIGN_UP := Ordinary(R.Force(5, 1, 50, true, 0))
  const OVERFILL := Ordinary(R.Use(Bsp, 1, 60))
  const PUNISH := Punish(1, 9, Some(2))
  const GIVE_UP := Ordinary(R.Use(Bsp, 1, 0))

  /** Where the run is when the provider has this capacity and stores this much. */
  function Backup(capacity: nat, used: nat, free: map<Account, nat>, held: nat): Registry {
    Registry(Ledger(free, map[5 := held]), map[], R.NOBODY, Book(map[1 := Provider(5, capacity, used, 0, 0)], map[5 := 1], 1),
             50, {}, {}, {})
  }

  lemma SignedUp()
    ensures Apply(SMALL_CONFIG, EMPTY, SIGN_UP) == Backup(50, 0, map[5 := 860], 140)
  {
    assert DepositFor(SMALL_CONFIG, 50) == Ok(140);
    assert map[5 := 1000][5 := 860] == map[5 := 860];
    assert RequestSignUp(SMALL_CONFIG, EMPTY, Bsp, 5, 50, true, 0)
        == Ok(EMPTY.(ledger := Ledger(map[5 := 860], map[5 := 140]), requests := map[5 := Request(Bsp, 50, 0)]));
    assert map[5 := Request(Bsp, 50, 0)] - {5} == map[];
    assert {} + {1} - {1} == {};
  }

  lemma Punished()
    ensures Apply(SMALL_CONFIG, Backup(50, 60, map[5 := 860], 140), PUNISH) == Backup(60, 60, map[5 := 750, 9 := 100], 150)
  {
    var s := Backup(50, 60, map[5 := 860], 140);
    var l := Seize(s.ledger, 5, 9, 100);
    assert l == Ledger(map[5 := 860, 9 := 100], map[5 := 40]);
    assert Free(l, 5) == 860 && Held(l, 5) == 40;
    assert l.free[5 := 750] == map[5 := 750, 9 := 100];
    assert l.held[5 := 150] == map[5 := 150];
    assert Hold(0, l, 5, 110) == Ok(Ledger(map[5 := 750, 9 := 100], map[5 := 150]));
  }

  lemma Overfilled()
    ensures Apply(SMALL_CONFIG, Backup(50, 0, map[5 := 860], 140), OVERFILL) == Backup(50, 60, map[5 := 860], 140)
  {
  }

  lemma GaveUp()
    ensures Apply(SMALL_CONFIG, Backup(60, 60, map[5 := 750, 9 := 100], 150), GIVE_UP)
            == Backup(60, 0, map[5 := 750, 9 := 100], 150)
    ensures SignOff(SMALL_CONFIG, Backup(60, 0, map[5 := 750, 9 := 100], 150), Bsp, 5, 10) == Err(Underflow)
  {
  }

  lemma RunOn(c: Config, s: Registry, steps: seq<Step>, step: Step)
    ensures Run(c, s, steps + [step]) == Apply(c, Run(c, s, steps), step)
  {
    assert (steps + [step])[..|steps|] == steps;
  }

  /** The total says 50, the provider has 60, and cannot leave. */
  lemma SignOffCanUnderflow()
    ensures var s := Run(SMALL_CONFIG, EMPTY, [SIGN_UP, OVERFILL, PUNISH, GIVE_UP]);
            s.totalCapacity == 50 && SignOff(SMALL_CONFIG, s, Bsp, 5, 10) == Err(Underflow)
  {
    SignedUp();
    Overfilled();
    Punished();
    GaveUp();
    var c := SMALL_CONFIG;
    assert Run(c, EMPTY, []) == EMPTY;
    hide Apply, Run, SignOff;
    assert [] + [SIGN_UP] == [SIGN_UP];
    RunOn(c, EMPTY, [], SIGN_UP);
    assert [SIGN_UP] + [OVERFILL] == [SIGN_UP, OVERFILL];
    RunOn(c, EMPTY, [SIGN_UP], OVERFILL);
    assert [SIGN_UP, OVERFILL] + [PUNISH] == [SIGN_UP, OVERFILL, PUNISH];
    RunOn(c, EMPTY, [SIGN_UP, OVERFILL], PUNISH);
    assert [SIGN_UP, OVERFILL, PUNISH] + [GIVE_UP] == [SIGN_UP, OVERFILL, PUNISH, GIVE_UP];
    RunOn(c, EMPTY, [SIGN_UP, OVERFILL, PUNISH], GIVE_UP);
  }
}
