/** Slashing and topping up a provider's deposit. Both may rewrite the provider's capacity, and neither touches the
    total capacity of the network; here is exactly when the total stays the sum of the capacities. */
module RegistrySlash {
  import opened Prelude
  import opened Sums
  import opened Balances
  import opened ProviderRegistry
  import opened RegistryRuns

  /** The role under which the pallet looks an id up. */
  function RoleOf(s: Registry, id: ProviderId): Role {
    if id in s.msps.byId then Msp else Bsp
  }

  /** The capacity a provider must have a deposit for. */
  function NeededCapacity(c: Config, p: Provider): nat {
    Max(p.used, c.minCapacity)
  }

  /** Move up to `amount` of what an account has on hold to the treasury. */
  function Seize(l: Ledger, from: Account, treasury: Account, amount: nat): Ledger {
    var seized := Min(amount, Held(l, from));
    Ledger(l.free[treasury := Free(l, treasury) + seized], l.held[from := Held(l, from) - seized])
  }

  /** What the provider's hold lacks for the capacity it needs. */
  function Deficit(c: Config, l: Ledger, p: Provider): Outcome<nat, Error> {
    var required :- DepositFor(c, NeededCapacity(c, p));
    Ok(SatSub(required, Held(l, p.owner)))
  }

  function WithCapacity(s: Registry, role: Role, id: ProviderId, capacity: nat): Registry
    requires id in BookOf(s, role).byId
  {
    var book := BookOf(s, role);
    WithBook(s, role, book.(byId := book.byId[id := book.byId[id].(capacity := capacity)]))
  }

  /** `compute_worst_case_scenario_slashable_amount`: two files for every failed submission, saturating. */
  function SlashableAmount(c: Config, failures: nat): nat {
    Min(Min(c.slashPerFailure * failures, MAX_BALANCE) * 2, MAX_BALANCE)
  }

  /** `do_slash`, for the failed submissions accrued so far. A provider whose hold still covers what it needs keeps its
      capacity; otherwise the deficit is taken from its free balance, or, when that does not suffice, its capacity becomes
      the one computed from the slashed amount, and it is awaited to top up. */
  function Slash(c: Config, s: Registry, id: ProviderId, treasury: Account,
                 failures: Option<nat>): Outcome<Registry, Error> {
    var role := RoleOf(s, id);
    var book := BookOf(s, role);
    var _ :- Need((role, id) !in s.insolvent, OperationNotAllowedForInsolventProvider);
    var _ :- Need(id in book.byId, NotRegistered);
    var _ :- Need(failures.Some?, ProviderNotSlashable);
    var p := book.byId[id];
    var amount := SlashableAmount(c, failures.value);
    var slashed :- CapacityFor(c, Min(amount, Held(s.ledger, p.owner)));
    var l := Seize(s.ledger, p.owner, treasury, amount);
    var deficit :- Deficit(c, l, p);
    if deficit == 0 then Ok(s.(ledger := l))
    else
      var held := Hold(c.ed, l, p.owner, deficit);
      if held.Ok?
      then Ok(WithCapacity(s, role, id, NeededCapacity(c, p)).(ledger := held.value, awaiting := s.awaiting - {(role, id)}))
      else Ok(WithCapacity(s, role, id, slashed).(ledger := l, awaiting := s.awaiting + {(role, id)}))
  }

  function IdOf(s: Registry, who: Account): ProviderId
    requires who in s.msps.ids || who in s.bsps.ids
  {
    if who in s.msps.ids then s.msps.ids[who] else s.bsps.ids[who]
  }

  /** `do_top_up_deposit`. */
  function TopUp(c: Config, s: Registry, who: Account): Outcome<Registry, Error> {
    var _ :- Need(who in s.msps.ids || who in s.bsps.ids, NotRegistered);
    var id := IdOf(s, who);
    var role := RoleOf(s, id);
    var book := BookOf(s, role);
    var _ :- Need((role, id) !in s.insolvent, OperationNotAllowedForInsolventProvider);
    var _ :- Need(id in book.byId, NotRegistered);
    var p := book.byId[id];
    var deficit :- Deficit(c, s.ledger, p);
    if deficit == 0 then Ok(s)
    else
      var held := Hold(c.ed, s.ledger, p.owner, deficit);
      var _ :- Need(held.Ok?, CannotHoldDeposit);
      Ok(WithCapacity(s, role, id, NeededCapacity(c, p)).(ledger := held.value, awaiting := s.awaiting - {(role, id)}))
  }

  ghost predicate TotalOk(s: Registry) {
    s.totalCapacity == Total(Capacities(s.bsps.byId))
  }

  lemma WithCapacityExactly(s: Registry, role: Role, id: ProviderId, capacity: nat, l: Ledger,
                            awaiting: set<(Role, ProviderId)>)
    requires TotalOk(s) && id in BookOf(s, role).byId
    ensures TotalOk(WithCapacity(s, role, id, capacity).(ledger := l, awaiting := awaiting))
            <==> role.Msp? || capacity == s.bsps.byId[id].capacity
  {
    if role.Bsp? {
      CapacitiesPut(s.bsps.byId, id, s.bsps.byId[id].(capacity := capacity));
    }
  }

  /** A slash keeps the total capacity a recount exactly when the provider is a main one, or when what is left on hold covers
      what the provider needs, or the deficit is affordable and the needed capacity is the old one, or it is not affordable
      and the capacity of the slashed amount is the old one. In the last case, and only then, it is newly awaited. */
  lemma SlashKeepsTotalExactly(c: Config, s: Registry, id: ProviderId, treasury: Account, failures: Option<nat>)
    requires TotalOk(s) && Slash(c, s, id, treasury, failures).Ok?
    ensures id in BookOf(s, RoleOf(s, id)).byId && failures.Some?
    ensures DepositFor(c, NeededCapacity(c, BookOf(s, RoleOf(s, id)).byId[id])).Ok?
    ensures var s' := Slash(c, s, id, treasury, failures).value;
            var role := RoleOf(s, id);
            var p := BookOf(s, role).byId[id];
            var amount := SlashableAmount(c, failures.value);
            var l := Seize(s.ledger, p.owner, treasury, amount);
            var required := DepositFor(c, NeededCapacity(c, p)).value;
            var deficit := SatSub(required, SatSub(Held(s.ledger, p.owner), amount));
            var affordable := deficit <= Reducible(c.ed, l, p.owner);
            && (TotalOk(s') <==>
                  || role.Msp?
                  || deficit == 0
                  || (affordable && NeededCapacity(c, p) == p.capacity)
                  || (!affordable && CapacityFor(c, Min(amount, Held(s.ledger, p.owner))) == Ok(p.capacity)))
            && ((role, id) in s'.awaiting <==> if deficit == 0 then (role, id) in s.awaiting else !affordable)
  {
    hide DepositFor, CapacityFor, TotalOk, WithCapacity, SlashableAmount;
    var role := RoleOf(s, id);
    var p := BookOf(s, role).byId[id];
    var amount := SlashableAmount(c, failures.value);
    var l := Seize(s.ledger, p.owner, treasury, amount);
    var deficit := Deficit(c, l, p).value;
    var slashed := CapacityFor(c, Min(amount, Held(s.ledger, p.owner))).value;
    if deficit == 0 {
      LedgerOnly(s, l);
    } else {
      var held := Hold(c.ed, l, p.owner, deficit);
      if held.Ok? {
        WithCapacityExactly(s, role, id, NeededCapacity(c, p), held.value, s.awaiting - {(role, id)});
      } else {
        WithCapacityExactly(s, role, id, slashed, l, s.awaiting + {(role, id)});
      }
      KeepsAwaiting(s, role, id);
    }
  }

  /** Rewriting a capacity touches nobody who is awaited. */
  lemma KeepsAwaiting(s: Registry, role: Role, id: ProviderId)
    requires id in BookOf(s, role).byId
    ensures forall capacity :: WithCapacity(s, role, id, capacity).awaiting == s.awaiting
  {
  }

  lemma LedgerOnly(s: Registry, l: Ledger)
    ensures TotalOk(s) <==> TotalOk(s.(ledger := l))
  {
  }

  /** A top-up keeps it exactly when the id is looked up as a main provider's, there is nothing to top up, or the needed
      capacity is the old one. */
  lemma TopUpKeepsTotalExactly(c: Config, s: Registry, who: Account)
    requires TotalOk(s) && TopUp(c, s, who).Ok?
    ensures who in s.msps.ids || who in s.bsps.ids
    ensures IdOf(s, who) in BookOf(s, RoleOf(s, IdOf(s, who))).byId
    ensures var role := RoleOf(s, IdOf(s, who));
            var p := BookOf(s, role).byId[IdOf(s, who)];
            TotalOk(TopUp(c, s, who).value) <==>
              role.Msp? || Deficit(c, s.ledger, p) == Ok(0) || NeededCapacity(c, p) == p.capacity
  {
    hide DepositFor, TotalOk, WithCapacity;
    var id := IdOf(s, who);
    var role := RoleOf(s, id);
    var p := BookOf(s, role).byId[id];
    if Deficit(c, s.ledger, p).value != 0 {
      WithCapacityExactly(s, role, id, NeededCapacity(c, p), Hold(c.ed, s.ledger, p.owner, Deficit(c, s.ledger, p).value).value,
                          s.awaiting - {(role, id)});
    }
  }

  /** A provider is slashed exactly when it is registered and solvent, has failed submissions to answer for, and the capacity
      of what is seized and the deposit it needs can be computed. */
  lemma SlashesExactly(c: Config, s: Registry, id: ProviderId, treasury: Account, failures: Option<nat>)
    ensures Slash(c, s, id, treasury, failures).Ok? <==>
              && (id in s.msps.byId || id in s.bsps.byId) && (RoleOf(s, id), id) !in s.insolvent && failures.Some?
              && (var p := BookOf(s, RoleOf(s, id)).byId[id];
                  && CapacityFor(c, Min(SlashableAmount(c, failures.value), Held(s.ledger, p.owner))).Ok?
                  && DepositFor(c, NeededCapacity(c, p)).Ok?)
  {
    hide DepositFor, CapacityFor, SlashableAmount;
  }

  /** A provider tops up exactly when it is registered and solvent and can spare what its hold lacks. It then has the deposit
      for the capacity it needs on hold, at least, and is awaited no longer if it lacked anything. */
  lemma TopsUpExactly(c: Config, s: Registry, who: Account)
    ensures TopUp(c, s, who).Ok? <==>
              && (who in s.msps.ids || who in s.bsps.ids)
              && (var id := IdOf(s, who);
                  && (id in s.msps.byId || id in s.bsps.byId) && (RoleOf(s, id), id) !in s.insolvent
                  && (var p := BookOf(s, RoleOf(s, id)).byId[id];
                      && DepositFor(c, NeededCapacity(c, p)).Ok?
                      && (var lacking := SatSub(DepositFor(c, NeededCapacity(c, p)).value, Held(s.ledger, p.owner));
                          lacking <= SatSub(Free(s.ledger, p.owner), c.ed))))
    ensures TopUp(c, s, who).Ok? ==>
              var s', id := TopUp(c, s, who).value, IdOf(s, who);
              var role := RoleOf(s, id);
              var p := BookOf(s, role).byId[id];
              var required := DepositFor(c, NeededCapacity(c, p)).value;
              && Held(s'.ledger, p.owner) == Max(required, Held(s.ledger, p.owner))
              && ((role, id) in s'.awaiting <==> (role, id) in s.awaiting && required <= Held(s.ledger, p.owner))
  {
    hide DepositFor;
  }

  /** A refused slash names a reason that holds. */
  lemma SlashRefusedTruly(c: Config, s: Registry, id: ProviderId, treasury: Account, failures: Option<nat>)
    requires Slash(c, s, id, treasury, failures).Err?
    ensures var registered := id in s.msps.byId || id in s.bsps.byId;
            match Slash(c, s, id, treasury, failures).error
            case OperationNotAllowedForInsolventProvider => (RoleOf(s, id), id) in s.insolvent
            case NotRegistered => !registered
            case ProviderNotSlashable => failures.None?
            case _ =>
              && registered && failures.Some?
              && var p := BookOf(s, RoleOf(s, id)).byId[id];
                 || CapacityFor(c, Min(SlashableAmount(c, failures.value), Held(s.ledger, p.owner))).Err?
                 || DepositFor(c, NeededCapacity(c, p)).Err?
  {
    hide SlashableAmount;
  }

  /** What a refusal of a top-up says. */
  ghost predicate TrueOfTopUp(c: Config, s: Registry, who: Account, error: Error) {
    var known := who in s.msps.ids || who in s.bsps.ids;
    if error.NotRegistered? then !known || (IdOf(s, who) !in s.msps.byId && IdOf(s, who) !in s.bsps.byId)
    else if error.OperationNotAllowedForInsolventProvider? then
      known && (RoleOf(s, IdOf(s, who)), IdOf(s, who)) in s.insolvent
    else
      && known && (IdOf(s, who) in s.msps.byId || IdOf(s, who) in s.bsps.byId)
      && var p := BookOf(s, RoleOf(s, IdOf(s, who))).byId[IdOf(s, who)];
         var required := DepositFor(c, NeededCapacity(c, p));
         if error.CannotHoldDeposit? then
           required.Ok? && required.value - Held(s.ledger, p.owner) > SatSub(Free(s.ledger, p.owner), c.ed)
         else required.Err?
  }

  /** A refused top-up names a reason that holds. */
  lemma TopUpRefusedTruly(c: Config, s: Registry, who: Account)
    requires TopUp(c, s, who).Err?
    ensures TrueOfTopUp(c, s, who, TopUp(c, s, who).error)
  {
  }

  const EXAMPLE_CONFIG := ProviderRegistry.Config(10, 100, 1, 0, 0, 0, 0, 1000, 1000, 25)
  const ONE_BSP := Book(map[1 := Provider(5, 50, 0, 0, 0)], map[5 := 1], 1)

  /** One backup provider of capacity 50, with its deposit of 140 on hold and nothing else. */
  const EXAMPLE := Registry(Ledger(map[], map[5 := 140]), map[], Book(map[], map[], 0), ONE_BSP, 50, {}, {}, {})

  /** Slashing it for two failures, by 100, leaves it a capacity of 10 in a network that still counts 50. */
  lemma SlashBreaksTotal()
    ensures TotalOk(EXAMPLE)
    ensures Slash(EXAMPLE_CONFIG, EXAMPLE, 1, 9, Some(2)).Ok?
    ensures Slash(EXAMPLE_CONFIG, EXAMPLE, 1, 9, Some(2)).value.bsps.byId[1].capacity == 10
    ensures !TotalOk(Slash(EXAMPLE_CONFIG, EXAMPLE, 1, 9, Some(2)).value)
  {
    CapacitiesDrop(EXAMPLE.bsps.byId, 1);
    assert EXAMPLE.bsps.byId - {1} == map[];
    assert Capacities(map[]) == map[];
    SlashKeepsTotalExactly(EXAMPLE_CONFIG, EXAMPLE, 1, 9, Some(2));
  }
}
