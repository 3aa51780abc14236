/** Who may join, leave and change its capacity, told from the run: when an account asked to join and last changed its
    capacity, for how much, and what it was last given to store. */
module RegistryTerms {
  import opened Prelude
  import opened Sums
  import opened Balances
  import opened ProviderRegistry
  import opened RegistryRuns

  /** A run of the registry, with what happened in it: the block of each account's latest accepted request, the block of its
      latest accepted capacity change or else of that request, the capacity it last asked for, and what each provider was
      last given to store since it joined. */
  datatype Log = Log(
    registry: Registry,
    askedAt: map<Account, nat>,
    changedAt: map<Account, nat>,
    capacity: map<Account, nat>,
    stored: map<(Role, ProviderId), nat>)

  function Asked(log: Log, who: Account, capacity: nat, block: nat): Log {
    log.(askedAt := log.askedAt[who := block], changedAt := log.changedAt[who := block],
         capacity := log.capacity[who := capacity])
  }

  function Note(c: Config, log: Log, step: Step): Log {
    var s := log.registry;
    match step
    case Ask(role, who, capacity, hasAddress, block) =>
      if RequestSignUp(c, s, role, who, capacity, hasAddress, block).Ok? then Asked(log, who, capacity, block) else log
    case Confirm(who, id, randomBlock, block) =>
      if ConfirmSignUp(c, s, who, id, randomBlock, block).Ok?
      then log.(stored := log.stored[(s.requests[who].role, id) := 0]) else log
    case Force(who, id, capacity, hasAddress, block) =>
      if ForceSignUp(c, s, who, id, capacity, hasAddress, block).Ok?
      then Asked(log, who, capacity, block).(stored := log.stored[(Bsp, id) := 0]) else log
    case Resize(who, capacity, block) =>
      if ChangeCapacity(c, s, who, capacity, block).Ok?
      then log.(changedAt := log.changedAt[who := block], capacity := log.capacity[who := capacity]) else log
    case Use(role, id, used) => log.(stored := log.stored[(role, id) := used])
    case _ => log
  }

  function Record(c: Config, log: Log, step: Step): Log {
    Note(c, log, step).(registry := Apply(c, log.registry, step))
  }

  function RecordAll(c: Config, log: Log, steps: seq<Step>): Log
    decreases |steps|
  {
    if steps == [] then log else Record(c, RecordAll(c, log, steps[..|steps| - 1]), steps[|steps| - 1])
  }

  lemma {:induction false} RecordsRun(c: Config, log: Log, steps: seq<Step>)
    ensures RecordAll(c, log, steps).registry == Run(c, log.registry, steps)
    decreases |steps|
  {
    hide Apply, Note;
    if steps != [] {
      RecordsRun(c, log, steps[..|steps| - 1]);
    }
  }

  // --- The registry says what happened ----------------------------------------------------------------

  ghost predicate RequestTold(log: Log, a: Account) {
    a in log.registry.requests ==>
      && a in log.askedAt && a in log.changedAt && a in log.capacity
      && log.registry.requests[a].at == log.askedAt[a] == log.changedAt[a]
      && log.registry.requests[a].capacity == log.capacity[a]
  }

  ghost predicate ProviderTold(log: Log, role: Role, id: ProviderId) {
    var byId := BookOf(log.registry, role).byId;
    id in byId ==>
      var p := byId[id];
      && p.owner in log.askedAt && p.owner in log.changedAt && p.owner in log.capacity && (role, id) in log.stored
      && p.signUpBlock == log.askedAt[p.owner] && p.lastChange == log.changedAt[p.owner]
      && p.capacity == log.capacity[p.owner] && p.used == log.stored[(role, id)]
  }

  ghost predicate Told(log: Log) {
    && (forall a :: RequestTold(log, a))
    && (forall role, id :: ProviderTold(log, role, id))
  }

  /** Nobody has joined yet. */
  lemma EmptyIsTold(c: Config, free: map<Account, nat>)
    ensures var empty := Registry(Ledger(free, map[]), map[], NOBODY, NOBODY, 0, {}, {}, {});
            Inv(c, empty) && Told(Log(empty, map[], map[], map[], map[]))
  {
  }

  /** An account that has asked to join owns no provider yet. */
  lemma NoOwner(c: Config, s: Registry, who: Account, role: Role, id: ProviderId)
    requires Inv(c, s) && who !in s.msps.ids && who !in s.bsps.ids && id in BookOf(s, role).byId
    ensures BookOf(s, role).byId[id].owner != who
  {
  }

  /** A registered account has one provider, in one role, and no request. */
  lemma OneOwner(c: Config, s: Registry, who: Account, role: Role, other: Role, id: ProviderId)
    requires Inv(c, s) && who in BookOf(s, role).ids && id in BookOf(s, other).byId && BookOf(s, other).byId[id].owner == who
    ensures other == role && id == BookOf(s, role).ids[who] && who !in s.requests
  {
    assert OneRole(s, who);
  }

  lemma OwnsOne(c: Config, s: Registry, role: Role, who: Account)
    requires Inv(c, s) && who in BookOf(s, role).ids
    ensures var book := BookOf(s, role);
            who !in s.requests && book.ids[who] in book.byId && book.byId[book.ids[who]].owner == who
  {
    assert OneRole(s, who);
  }

  lemma AskTold(c: Config, log: Log, step: Step, a: Account, role: Role, id: ProviderId)
    requires Inv(c, log.registry) && step.Ask? && RequestTold(log, a) && ProviderTold(log, role, id)
    ensures RequestTold(Record(c, log, step), a) && ProviderTold(Record(c, log, step), role, id)
  {
    var s := log.registry;
    if RequestSignUp(c, s, step.role, step.who, step.capacity, step.hasAddress, step.block).Ok? {
      RequestEffect(c, s, step.role, step.who, step.capacity, step.hasAddress, step.block);
      if id in BookOf(s, role).byId {
        NoOwner(c, s, step.who, role, id);
      }
    }
    hide Inv, RequestSignUp;
  }

  lemma RequestEffect(c: Config, s: Registry, role: Role, who: Account, capacity: nat, hasAddress: bool, block: nat)
    requires RequestSignUp(c, s, role, who, capacity, hasAddress, block).Ok?
    ensures var s' := RequestSignUp(c, s, role, who, capacity, hasAddress, block).value;
            && who !in s.msps.ids && who !in s.bsps.ids
            && s'.requests == s.requests[who := Request(role, capacity, block)] && s'.msps == s.msps && s'.bsps == s.bsps
  {
    hide DepositFor;
  }

  lemma SignUpTold(c: Config, log: Log, role: Role, who: Account, id: ProviderId, capacity: nat, at: nat, block: nat,
                   a: Account, r: Role, i: ProviderId)
    requires RequestTold(log, a) && ProviderTold(log, r, i)
    requires SignUp(c, log.registry, role, who, id, capacity, at, block).Ok?
    requires who in log.askedAt && who in log.changedAt && who in log.capacity
    requires log.askedAt[who] == log.changedAt[who] == at && log.capacity[who] == capacity
    ensures var log' := log.(registry := SignUp(c, log.registry, role, who, id, capacity, at, block).value,
                             stored := log.stored[(role, id) := 0]);
            RequestTold(log', a) && ProviderTold(log', r, i)
  {
  }

  lemma ConfirmTold(c: Config, log: Log, step: Step, a: Account, role: Role, id: ProviderId)
    requires step.Confirm? && RequestTold(log, a) && ProviderTold(log, role, id) && RequestTold(log, step.who)
    ensures RequestTold(Record(c, log, step), a) && ProviderTold(Record(c, log, step), role, id)
  {
    var s := log.registry;
    if ConfirmSignUp(c, s, step.who, step.id, step.randomBlock, step.block).Ok? {
      var r := s.requests[step.who];
      hide SignUp;
      SignUpTold(c, log, r.role, step.who, step.id, r.capacity, r.at, step.block, a, role, id);
    }
  }

  lemma ForceTold(c: Config, log: Log, step: Step, a: Account, role: Role, id: ProviderId)
    requires Inv(c, log.registry) && step.Force? && RequestTold(log, a) && ProviderTold(log, role, id)
    ensures RequestTold(Record(c, log, step), a) && ProviderTold(Record(c, log, step), role, id)
  {
    var s := log.registry;
    if ForceSignUp(c, s, step.who, step.id, step.capacity, step.hasAddress, step.block).Ok? {
      var ask := Ask(Bsp, step.who, step.capacity, step.hasAddress, step.block);
      AskTold(c, log, ask, a, role, id);
      var asked := Record(c, log, ask);
      hide SignUp, Inv, DepositFor;
      SignUpTold(c, asked, Bsp, step.who, step.id, step.capacity, step.block, step.block, a, role, id);
    }
  }

  lemma LeaveTold(c: Config, log: Log, step: Step, a: Account, role: Role, id: ProviderId)
    requires step.Leave? && RequestTold(log, a) && ProviderTold(log, role, id)
    ensures RequestTold(Record(c, log, step), a) && ProviderTold(Record(c, log, step), role, id)
  {
  }

  lemma ResizeTold(c: Config, log: Log, step: Step, a: Account, role: Role, id: ProviderId)
    requires Inv(c, log.registry) && step.Resize? && RequestTold(log, a) && ProviderTold(log, role, id)
    ensures RequestTold(Record(c, log, step), a) && ProviderTold(Record(c, log, step), role, id)
  {
    var s := log.registry;
    if ChangeCapacity(c, s, step.who, step.capacity, step.block).Ok? {
      var mine := if step.who in s.msps.ids then Msp else Bsp;
      if id in BookOf(s, role).byId && BookOf(s, role).byId[id].owner == step.who {
        OneOwner(c, s, step.who, mine, role, id);
      }
      OwnsOne(c, s, mine, step.who);
      ResizedBook(c, s, mine, step.who, step.capacity, step.block);
      var log' := Record(c, log, step);
      assert log'.registry == ChangeRoleCapacity(c, s, mine, step.who, BookOf(s, mine).ids[step.who], step.capacity, step.block).value;
      hide Record, ChangeCapacity, ChangeRoleCapacity, Inv;
      ResizedTold(log, log', mine, step.who, step.capacity, step.block, a, role, id);
    }
  }

  lemma ResizedTold(log: Log, log': Log, mine: Role, who: Account, capacity: nat, block: nat, a: Account, role: Role,
                    id: ProviderId)
    requires RequestTold(log, a) && ProviderTold(log, role, id)
    requires log'.registry.requests == log.registry.requests && who !in log.registry.requests
    requires log'.askedAt == log.askedAt && log'.stored == log.stored
    requires log'.changedAt == log.changedAt[who := block] && log'.capacity == log.capacity[who := capacity]
    requires var book, book' := BookOf(log.registry, mine), BookOf(log'.registry, mine);
             && who in book.ids && book.ids[who] in book.byId
             && book'.byId == book.byId[book.ids[who] := book.byId[book.ids[who]].(capacity := capacity, lastChange := block)]
             && book.byId[book.ids[who]].owner == who
    requires mine.Msp? ==> log'.registry.bsps == log.registry.bsps
    requires mine.Bsp? ==> log'.registry.msps == log.registry.msps
    requires id in BookOf(log.registry, role).byId && BookOf(log.registry, role).byId[id].owner == who ==>
               role == mine && id == BookOf(log.registry, mine).ids[who]
    ensures RequestTold(log', a) && ProviderTold(log', role, id)
  {
  }

  lemma ResizedBook(c: Config, s: Registry, role: Role, who: Account, capacity: nat, block: nat)
    requires who in BookOf(s, role).ids && ChangeRoleCapacity(c, s, role, who, BookOf(s, role).ids[who], capacity, block).Ok?
    ensures var s' := ChangeRoleCapacity(c, s, role, who, BookOf(s, role).ids[who], capacity, block).value;
            var id := BookOf(s, role).ids[who];
            && id in BookOf(s, role).byId && s'.requests == s.requests
            && BookOf(s', role).byId == BookOf(s, role).byId[id := BookOf(s, role).byId[id].(capacity := capacity, lastChange := block)]
            && (role.Msp? ==> s'.bsps == s.bsps) && (role.Bsp? ==> s'.msps == s.msps)
  {
    hide DepositFor, AdjustHold;
  }

  lemma OtherTold(c: Config, log: Log, step: Step, a: Account, role: Role, id: ProviderId)
    requires (step.Cancel? || step.Declare? || step.Move?) && RequestTold(log, a) && ProviderTold(log, role, id)
    ensures RequestTold(Record(c, log, step), a) && ProviderTold(Record(c, log, step), role, id)
  {
    var log' := Record(c, log, step);
    assert log' == log.(registry := log'.registry);
    assert log'.registry.msps == log.registry.msps && log'.registry.bsps == log.registry.bsps;
    assert a in log'.registry.requests ==> a in log.registry.requests && log'.registry.requests[a] == log.registry.requests[a];
    hide Record;
  }

  lemma UseTold(c: Config, log: Log, step: Step, a: Account, role: Role, id: ProviderId)
    requires step.Use? && RequestTold(log, a) && ProviderTold(log, role, id)
    ensures RequestTold(Record(c, log, step), a) && ProviderTold(Record(c, log, step), role, id)
  {
    var s' := SetUsed(log.registry, step.role, step.id, step.used);
    var log' := Record(c, log, step);
    assert log'.registry == s' && log'.stored == log.stored[(step.role, step.id) := step.used];
    assert log'.askedAt == log.askedAt && log'.changedAt == log.changedAt && log'.capacity == log.capacity;
    hide Record;
    if role == step.role && id == step.id {
      assert (role, id) == (step.role, step.id);
    } else {
      assert (role, id) != (step.role, step.id);
    }
  }

  lemma StepTold(c: Config, log: Log, step: Step)
    requires Inv(c, log.registry) && Told(log)
    ensures Told(Record(c, log, step))
  {
    hide Record, Inv, RequestTold, ProviderTold;
    forall a
      ensures RequestTold(Record(c, log, step), a)
    {
      assert RequestTold(log, a) && ProviderTold(log, Msp, 0);
      StepTells(c, log, step, a, Msp, 0);
    }
    forall role, id
      ensures ProviderTold(Record(c, log, step), role, id)
    {
      assert RequestTold(log, 0) && ProviderTold(log, role, id);
      StepTells(c, log, step, 0, role, id);
    }
  }

  lemma StepTells(c: Config, log: Log, step: Step, a: Account, role: Role, id: ProviderId)
    requires Inv(c, log.registry) && Told(log) && RequestTold(log, a) && ProviderTold(log, role, id)
    ensures RequestTold(Record(c, log, step), a) && ProviderTold(Record(c, log, step), role, id)
  {
    hide Record, Inv, RequestTold, ProviderTold;
    match step
    case Ask(_, _, _, _, _) => AskTold(c, log, step, a, role, id);
    case Confirm(who, _, _, _) =>
      assert RequestTold(log, who);
      ConfirmTold(c, log, step, a, role, id);
    case Force(_, _, _, _, _) => ForceTold(c, log, step, a, role, id);
    case Leave(_, _, _) => LeaveTold(c, log, step, a, role, id);
    case Resize(_, _, _) => ResizeTold(c, log, step, a, role, id);
    case Use(_, _, _) => UseTold(c, log, step, a, role, id);
    case _ => OtherTold(c, log, step, a, role, id);
  }

  /** Over every run the registry's records are what happened in it. */
  lemma {:induction false} RunTold(c: Config, log: Log, steps: seq<Step>)
    requires Inv(c, log.registry) && Told(log) && FreshIds(c, log.registry, steps)
    ensures Told(RecordAll(c, log, steps)) && Inv(c, RecordAll(c, log, steps).registry)
    decreases |steps|
  {
    RecordsRun(c, log, steps);
    RunInv(c, log.registry, steps);
    if steps != [] {
      var n := |steps| - 1;
      hide Inv, Told, Record, Run, FreshId;
      FreshPrefix(c, log.registry, steps);
      RunTold(c, log, steps[..n]);
      StepTold(c, RecordAll(c, log, steps[..n]), steps[n]);
    }
  }

  lemma FreshPrefix(c: Config, s: Registry, steps: seq<Step>)
    requires steps != [] && FreshIds(c, s, steps)
    ensures FreshIds(c, s, steps[..|steps| - 1])
  {
    hide Run, FreshId;
    var prefix := steps[..|steps| - 1];
    forall i | 0 <= i < |prefix|
      ensures FreshId(Run(c, s, prefix[..i]), prefix[i])
    {
      assert prefix[..i] == steps[..i];
    }
  }

  // --- Who may leave ----------------------------------------------------------------------------------

  /** After any run, a provider signs off exactly when it is registered in the role, was last given nothing to store, and, a
      backup provider, asked to join at least the lock period ago. */
  lemma LeavesExactly(c: Config, log: Log, steps: seq<Step>, role: Role, who: Account, block: nat)
    requires Inv(c, log.registry) && Told(log) && FreshIds(c, log.registry, steps)
    ensures var r := RecordAll(c, log, steps);
            var ids := BookOf(r.registry, role).ids;
            && (who in ids ==> (role, ids[who]) in r.stored && who in r.askedAt)
            && (SignOff(c, r.registry, role, who, block).Ok? <==>
                  who in ids && r.stored[(role, ids[who])] == 0 && (role.Bsp? ==> block >= r.askedAt[who] + c.lockPeriod))
  {
    RunTold(c, log, steps);
    var r := RecordAll(c, log, steps);
    hide RecordAll, Inv, Told;
    if who in BookOf(r.registry, role).ids {
      OwnTold(c, r, role, who);
      CountsSuffice(c, r.registry, role, who);
    }
    LeavesAt(c, r.registry, role, who, block);
    hide SignOff;
  }

  lemma LeavesAt(c: Config, s: Registry, role: Role, who: Account, block: nat)
    requires var book := BookOf(s, role);
             who in book.ids ==>
               && book.ids[who] in book.byId && book.count > 0
               && (role.Bsp? ==> book.byId[book.ids[who]].capacity <= s.totalCapacity)
    ensures var r, book := SignOff(c, s, role, who, block), BookOf(s, role);
            if who !in book.ids then r == Err(NotRegistered)
            else
              var p := book.byId[book.ids[who]];
              if p.used > 0 then r == Err(StorageStillInUse)
              else if role.Bsp? && block < p.signUpBlock + c.lockPeriod then r == Err(SignOffPeriodNotPassed)
              else r.Ok?
  {
  }

  lemma OwnTold(c: Config, r: Log, role: Role, who: Account)
    requires Inv(c, r.registry) && Told(r) && who in BookOf(r.registry, role).ids
    ensures var book := BookOf(r.registry, role);
            var id := book.ids[who];
            && id in book.byId && who in r.askedAt && who in r.changedAt && who in r.capacity && (role, id) in r.stored
            && var p := book.byId[id];
               && p.owner == who && p.signUpBlock == r.askedAt[who] && p.lastChange == r.changedAt[who]
               && p.capacity == r.capacity[who] && p.used == r.stored[(role, id)]
  {
    assert ProviderTold(r, role, BookOf(r.registry, role).ids[who]);
  }

  /** The counters never underflow. */
  lemma CountsSuffice(c: Config, s: Registry, role: Role, who: Account)
    requires Inv(c, s) && who in BookOf(s, role).ids
    ensures var book := BookOf(s, role);
            var id := book.ids[who];
            id in book.byId && book.count > 0 && (role.Bsp? ==> book.byId[id].capacity <= s.totalCapacity)
  {
    var book := BookOf(s, role);
    assert book.byId != map[];
    if role.Bsp? {
      TotalAtLeast(Capacities(s.bsps.byId), book.ids[who]);
    }
  }

  // --- Who may join and change its capacity -----------------------------------------------------------

  /** The account can put the amount on hold and keep the existential deposit. */
  predicate CanSpare(c: Config, l: Ledger, who: Account, amount: nat) {
    amount == 0 || Free(l, who) >= amount + c.ed
  }

  /** The deposit for a capacity: the minimum, and a fee for every unit above the least capacity. */
  function FeeFor(c: Config, capacity: nat): int {
    c.minDeposit + c.depositPerData * (capacity - c.minCapacity)
  }

  lemma DepositIsFee(c: Config, capacity: nat)
    ensures DepositFor(c, capacity).Ok? <==> capacity >= c.minCapacity && FeeFor(c, capacity) <= MAX_BALANCE
    ensures DepositFor(c, capacity).Ok? ==> DepositFor(c, capacity).value == FeeFor(c, capacity)
  {
    if capacity >= c.minCapacity {
      MulOrder(c.depositPerData, 0, capacity - c.minCapacity);
    }
  }

  /** An account may ask to join exactly when it has no request pending and is not registered, names an address, and can spare
      the deposit for a capacity that is large enough. */
  lemma AsksExactly(c: Config, s: Registry, role: Role, who: Account, capacity: nat, hasAddress: bool, block: nat)
    ensures RequestSignUp(c, s, role, who, capacity, hasAddress, block).Ok? <==>
              && who !in s.requests && who !in s.msps.ids && who !in s.bsps.ids && hasAddress
              && capacity >= c.minCapacity && FeeFor(c, capacity) <= MAX_BALANCE
              && FeeFor(c, capacity) >= 0 && CanSpare(c, s.ledger, who, FeeFor(c, capacity))
  {
    DepositIsFee(c, capacity);
    hide DepositFor, FeeFor;
  }

  /** After any run, an account's request is confirmed exactly when it has one, the randomness is no older than the request,
      the request has not expired, and the counters have room. */
  lemma ConfirmsExactly(c: Config, log: Log, steps: seq<Step>, who: Account, id: ProviderId, randomBlock: nat, block: nat)
    requires Inv(c, log.registry) && Told(log) && FreshIds(c, log.registry, steps)
    ensures var r := RecordAll(c, log, steps);
            var s := r.registry;
            && (who in s.requests ==> who in r.askedAt && who in r.capacity)
            && (ConfirmSignUp(c, s, who, id, randomBlock, block).Ok? <==>
                  who in s.requests && MayConfirm(c, s, s.requests[who].role, r.askedAt[who], r.capacity[who], randomBlock, block))
  {
    RunTold(c, log, steps);
    var r := RecordAll(c, log, steps);
    hide RecordAll, Inv;
    assert RequestTold(r, who);
    ConfirmsAt(c, r.registry, who, id, randomBlock, block);
    hide Told, MayConfirm, ConfirmSignUp;
  }

  /** A request of this capacity, made in block `asked`, may be confirmed. */
  predicate MayConfirm(c: Config, s: Registry, role: Role, asked: nat, capacity: nat, randomBlock: nat, block: nat) {
    && asked <= randomBlock && block < asked + c.maxBlocksForRandomness
    && (role.Bsp? ==> s.totalCapacity + capacity <= c.maxUnits)
    && BookOf(s, role).count < c.maxCount
  }

  /** What a refusal to confirm it says. */
  ghost predicate TrueOfConfirmation(c: Config, s: Registry, role: Role, asked: nat, capacity: nat, randomBlock: nat,
                                     block: nat, error: Error)
  {
    match error
    case RandomnessNotValidYet => randomBlock < asked
    case SignUpRequestExpired => block >= asked + c.maxBlocksForRandomness
    case Overflow => (role.Bsp? && s.totalCapacity + capacity > c.maxUnits) || BookOf(s, role).count >= c.maxCount
    case _ => false
  }

  lemma ConfirmsAt(c: Config, s: Registry, who: Account, id: ProviderId, randomBlock: nat, block: nat)
    ensures var r := ConfirmSignUp(c, s, who, id, randomBlock, block);
            if who !in s.requests then r == Err(SignUpNotRequested)
            else
              var q := s.requests[who];
              && (r.Ok? <==> MayConfirm(c, s, q.role, q.at, q.capacity, randomBlock, block))
              && (r.Err? ==> r.error != SignUpNotRequested
                             && TrueOfConfirmation(c, s, q.role, q.at, q.capacity, randomBlock, block, r.error))
  {
  }

  /** A provider of capacity `current`, which stores `used` and last changed in block `changed`, may have another capacity. */
  predicate MayResize(c: Config, s: Registry, role: Role, who: Account, id: ProviderId, current: nat, used: nat,
                      changed: nat, capacity: nat, block: nat)
  {
    && (role, id) !in s.insolvent && capacity != current && capacity >= used
    && block >= changed + c.blocksBetweenChanges
    && capacity >= c.minCapacity && FeeFor(c, capacity) <= MAX_BALANCE
    && (FeeFor(c, capacity) > Held(s.ledger, who) ==>
          CanSpare(c, s.ledger, who, FeeFor(c, capacity) - Held(s.ledger, who)))
    && (role.Bsp? ==> s.totalCapacity - current + capacity <= c.maxUnits || capacity < current)
  }

  /** After any run, a provider changes its capacity exactly when the new one is another, is no less than the minimum and than
      what it was last given to store, the provider is solvent, its last change or its request lies far enough back, it can
      spare what the deposit grows by, and a backup provider's share fits the total. */
  lemma ResizesExactly(c: Config, log: Log, steps: seq<Step>, who: Account, capacity: nat, block: nat)
    requires Inv(c, log.registry) && Told(log) && FreshIds(c, log.registry, steps)
    ensures var r := RecordAll(c, log, steps);
            var s := r.registry;
            var role := if who in s.msps.ids then Msp else Bsp;
            var ids := BookOf(s, role).ids;
            && (who in ids ==> who in r.changedAt && who in r.capacity && (role, ids[who]) in r.stored)
            && (ChangeCapacity(c, s, who, capacity, block).Ok? <==>
                  && capacity > 0 && who in ids
                  && MayResize(c, s, role, who, ids[who], r.capacity[who], r.stored[(role, ids[who])], r.changedAt[who],
                               capacity, block))
  {
    RunTold(c, log, steps);
    var r := RecordAll(c, log, steps);
    hide RecordAll, Inv, Told, MayResize, ChangeRoleCapacity;
    var s := r.registry;
    var role := if who in s.msps.ids then Msp else Bsp;
    if who in BookOf(s, role).ids {
      OwnTold(c, r, role, who);
      CountsSuffice(c, s, role, who);
      RoleResizesExactly(c, s, role, who, BookOf(s, role).ids[who], capacity, block);
    }
  }

  lemma RoleResizesExactly(c: Config, s: Registry, role: Role, who: Account, id: ProviderId, capacity: nat, block: nat)
    requires id in BookOf(s, role).byId && (role.Bsp? ==> BookOf(s, role).byId[id].capacity <= s.totalCapacity)
    ensures var p := BookOf(s, role).byId[id];
            ChangeRoleCapacity(c, s, role, who, id, capacity, block).Ok? <==>
              MayResize(c, s, role, who, id, p.capacity, p.used, p.lastChange, capacity, block)
  {
    DepositIsFee(c, capacity);
    hide DepositFor, FeeFor;
  }

  // --- Refusals are true ------------------------------------------------------------------------------

  /** A refused request names a reason that holds. */
  lemma RequestRefusedTruly(c: Config, s: Registry, role: Role, who: Account, capacity: nat, hasAddress: bool, block: nat)
    requires RequestSignUp(c, s, role, who, capacity, hasAddress, block).Err?
    ensures match RequestSignUp(c, s, role, who, capacity, hasAddress, block).error
            case SignUpRequestPending => who in s.requests
            case AlreadyRegistered => who in s.msps.ids || who in s.bsps.ids
            case NoMultiAddress => !hasAddress
            case StorageTooLow => capacity < c.minCapacity
            case Overflow => capacity >= c.minCapacity && FeeFor(c, capacity) > MAX_BALANCE
            case NotEnoughBalance => capacity >= c.minCapacity && FeeFor(c, capacity) > SatSub(Free(s.ledger, who), c.ed)
            case _ => false
  {
    DepositIsFee(c, capacity);
    DepositRefused(c, capacity);
    hide DepositFor, FeeFor;
  }

  lemma DepositRefused(c: Config, capacity: nat)
    ensures DepositFor(c, capacity).Err? ==>
              DepositFor(c, capacity).error == if capacity < c.minCapacity then StorageTooLow else Overflow
  {
  }

  /** After any run, a refused confirmation names a reason that holds. */
  lemma ConfirmationRefusedTruly(c: Config, log: Log, steps: seq<Step>, who: Account, id: ProviderId,
                                 randomBlock: nat, block: nat)
    requires Inv(c, log.registry) && Told(log) && FreshIds(c, log.registry, steps)
    requires ConfirmSignUp(c, RecordAll(c, log, steps).registry, who, id, randomBlock, block).Err?
    ensures var r := RecordAll(c, log, steps);
            var s := r.registry;
            && (who in s.requests ==> who in r.askedAt && who in r.capacity)
            && var error := ConfirmSignUp(c, s, who, id, randomBlock, block).error;
               if error == SignUpNotRequested then who !in s.requests
               else who in s.requests
                    && TrueOfConfirmation(c, s, s.requests[who].role, r.askedAt[who], r.capacity[who], randomBlock, block, error)
  {
    RunTold(c, log, steps);
    var r := RecordAll(c, log, steps);
    hide RecordAll, Inv;
    assert RequestTold(r, who);
    ConfirmsAt(c, r.registry, who, id, randomBlock, block);
    hide Told, TrueOfConfirmation, MayConfirm, ConfirmSignUp;
  }

  /** After any run, a refused sign-off names a reason that holds. */
  lemma LeaveRefusedTruly(c: Config, log: Log, steps: seq<Step>, role: Role, who: Account, block: nat)
    requires Inv(c, log.registry) && Told(log) && FreshIds(c, log.registry, steps)
    requires SignOff(c, RecordAll(c, log, steps).registry, role, who, block).Err?
    ensures var r := RecordAll(c, log, steps);
            var ids := BookOf(r.registry, role).ids;
            && (who in ids ==> (role, ids[who]) in r.stored && who in r.askedAt)
            && match SignOff(c, r.registry, role, who, block).error
               case NotRegistered => who !in ids
               case StorageStillInUse => who in ids && r.stored[(role, ids[who])] > 0
               case SignOffPeriodNotPassed => role.Bsp? && who in ids && block < r.askedAt[who] + c.lockPeriod
               case _ => false
  {
    RunTold(c, log, steps);
    var r := RecordAll(c, log, steps);
    hide RecordAll, Inv, Told;
    if who in BookOf(r.registry, role).ids {
      OwnTold(c, r, role, who);
      CountsSuffice(c, r.registry, role, who);
    }
    LeavesAt(c, r.registry, role, who, block);
    hide SignOff;
  }

  /** After any run, a refused change of capacity names a reason that holds. */
  lemma ResizeRefusedTruly(c: Config, log: Log, steps: seq<Step>, who: Account, capacity: nat, block: nat)
    requires Inv(c, log.registry) && Told(log) && FreshIds(c, log.registry, steps)
    requires ChangeCapacity(c, RecordAll(c, log, steps).registry, who, capacity, block).Err?
    ensures var r := RecordAll(c, log, steps);
            var s := r.registry;
            var role := if who in s.msps.ids then Msp else Bsp;
            var ids := BookOf(s, role).ids;
            var error := ChangeCapacity(c, s, who, capacity, block).error;
            && (who in ids ==> who in r.changedAt && who in r.capacity && (role, ids[who]) in r.stored)
            && (error == NewCapacityCantBeZero ==> capacity == 0)
            && (error == NotRegistered ==> who !in ids)
            && (error != NewCapacityCantBeZero && error != NotRegistered ==>
                  who in ids && TrueOfResize(c, s, role, who, ids[who], r.capacity[who], r.stored[(role, ids[who])],
                                             r.changedAt[who], capacity, block, error))
  {
    RunTold(c, log, steps);
    var r := RecordAll(c, log, steps);
    hide RecordAll, Inv, Told, TrueOfResize, ChangeRoleCapacity;
    var s := r.registry;
    var role := if who in s.msps.ids then Msp else Bsp;
    if who in BookOf(s, role).ids {
      OwnTold(c, r, role, who);
      CountsSuffice(c, s, role, who);
      if ChangeRoleCapacity(c, s, role, who, BookOf(s, role).ids[who], capacity, block).Err? {
        RoleResizeRefused(c, s, role, who, BookOf(s, role).ids[who], capacity, block);
      }
    }
  }

  ghost predicate TrueOfResize(c: Config, s: Registry, role: Role, who: Account, id: ProviderId, current: nat,
                               used: nat, changed: nat, capacity: nat, block: nat, error: Error)
  {
    match error
    case OperationNotAllowedForInsolventProvider => (role, id) in s.insolvent
    case NewCapacityEqualsCurrentCapacity => capacity == current
    case NotEnoughTimePassed => block < changed + c.blocksBetweenChanges
    case StorageTooLow => capacity < c.minCapacity
    case NewCapacityLessThanUsedStorage => capacity < used
    case NotEnoughBalance => FeeFor(c, capacity) - Held(s.ledger, who) > SatSub(Free(s.ledger, who), c.ed)
    case Overflow => FeeFor(c, capacity) > MAX_BALANCE || (role.Bsp? && s.totalCapacity - current + capacity > c.maxUnits)
    case _ => false
  }

  lemma RoleResizeRefused(c: Config, s: Registry, role: Role, who: Account, id: ProviderId, capacity: nat, block: nat)
    requires id in BookOf(s, role).byId && (role.Bsp? ==> BookOf(s, role).byId[id].capacity <= s.totalCapacity)
    requires ChangeRoleCapacity(c, s, role, who, id, capacity, block).Err?
    ensures var p := BookOf(s, role).byId[id];
            var error := ChangeRoleCapacity(c, s, role, who, id, capacity, block).error;
            error != NewCapacityCantBeZero && error != NotRegistered
            && TrueOfResize(c, s, role, who, id, p.capacity, p.used, p.lastChange, capacity, block, error)
  {
    DepositIsFee(c, capacity);
    DepositRefused(c, capacity);
    hide DepositFor, FeeFor;
  }
}
