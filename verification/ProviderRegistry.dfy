/** The registry of storage providers: two-step sign-up, sign-off and capacity changes of main and backup storage
    providers, with the counters, the total capacity and the deposits kept in step. */
module ProviderRegistry {
  import opened Prelude
  import opened Sums
  import opened Balances

  type ProviderId = nat

  datatype Role = Msp | Bsp

  datatype Provider = Provider(owner: Account, capacity: nat, used: nat, lastChange: nat, signUpBlock: nat)

  datatype Request = Request(role: Role, capacity: nat, at: nat)

  /** The storage items of one role: provider data by id, ids by owner, and the counter. */
  datatype Book = Book(byId: map<ProviderId, Provider>, ids: map<Account, ProviderId>, count: nat)

  datatype Config = Config(
    minCapacity: nat, minDeposit: nat, depositPerData: nat, ed: nat,
    maxBlocksForRandomness: nat, lockPeriod: nat, blocksBetweenChanges: nat,
    maxUnits: nat, maxCount: nat, slashPerFailure: nat)

  datatype Registry = Registry(
    ledger: Ledger,
    requests: map<Account, Request>,
    msps: Book,
    bsps: Book,
    totalCapacity: nat,
    privileged: set<ProviderId>,
    insolvent: set<(Role, ProviderId)>,
    awaiting: set<(Role, ProviderId)>)

  datatype Error =
    | SignUpRequestPending
    | AlreadyRegistered
    | NoMultiAddress
    | StorageTooLow
    | NotEnoughBalance
    | CannotHoldDeposit
    | SignUpNotRequested
    | RandomnessNotValidYet
    | SignUpRequestExpired
    | NotRegistered
    | SpRegisteredButDataNotFound
    | StorageStillInUse
    | SignOffPeriodNotPassed
    | NewCapacityCantBeZero
    | OperationNotAllowedForInsolventProvider
    | NewCapacityEqualsCurrentCapacity
    | NotEnoughTimePassed
    | NewCapacityLessThanUsedStorage
    | ProviderNotSlashable
    | Overflow
    | Underflow
    | Token(cause: LedgerError)

  // --- Deposits and capacities ------------------------------------------------------------------------

  /** `compute_deposit_needed_for_capacity`. */
  function DepositFor(c: Config, capacity: nat): Outcome<nat, Error> {
    var _ :- Need(capacity >= c.minCapacity, StorageTooLow);
    var extra := c.depositPerData * (capacity - c.minCapacity);
    var _ :- Need(extra <= MAX_BALANCE && c.minDeposit + extra <= MAX_BALANCE, Overflow);
    Ok(c.minDeposit + extra)
  }

  /** `compute_capacity_from_held_deposit`. */
  function CapacityFor(c: Config, deposit: nat): Outcome<nat, Error> {
    if deposit < c.minDeposit then Ok(0)
    else if deposit == c.minDeposit then Ok(c.minCapacity)
    else
      var _ :- Need(c.depositPerData > 0, Underflow);
      var capacity := c.minCapacity + (deposit - c.minDeposit) / c.depositPerData;
      var _ :- Need(capacity <= c.maxUnits, Overflow);
      Ok(capacity)
  }

  /** The two computations are inverse: a capacity is recovered from its deposit, and the capacity of a deposit is the
      largest one the deposit pays for. */
  lemma CapacityRoundTrip(c: Config, capacity: nat)
    requires c.depositPerData > 0 && c.minCapacity <= capacity <= c.maxUnits && DepositFor(c, capacity).Ok?
    ensures CapacityFor(c, DepositFor(c, capacity).value) == Ok(capacity)
  {
    var over := capacity - c.minCapacity;
    DivideProduct(over, c.depositPerData);
    if over > 0 {
      assert c.depositPerData * over > 0;
    }
  }

  lemma DivideProduct(a: nat, d: nat)
    requires d > 0
    ensures d * a / d == a
  {
    var q := d * a / d;
    assert d * a == d * q + (d * a) % d;
    MulOrder(d, q + 1, a);
    MulOrder(d, a + 1, q);
  }

  lemma MulOrder(d: nat, a: nat, b: nat)
    ensures a <= b ==> d * a <= d * b
  {
    if a <= b {
      assert d * b == d * a + d * (b - a);
    }
  }

  lemma LargestAffordable(c: Config, deposit: nat, other: nat)
    requires c.minDeposit <= deposit && CapacityFor(c, deposit).Ok?
    requires DepositFor(c, CapacityFor(c, deposit).value).Ok? && DepositFor(c, other).Ok?
    ensures DepositFor(c, CapacityFor(c, deposit).value).value <= deposit
    ensures c.depositPerData > 0 && DepositFor(c, other).value <= deposit ==> other <= CapacityFor(c, deposit).value
  {
    if c.depositPerData > 0 {
      UnitsFor(c.depositPerData, deposit - c.minDeposit, other - c.minCapacity);
    } else {
      assert c.depositPerData * (CapacityFor(c, deposit).value - c.minCapacity) == 0;
    }
  }

  lemma UnitsFor(d: nat, x: nat, y: nat)
    requires d > 0
    ensures d * (x / d) <= x
    ensures d * y <= x ==> y <= x / d
    ensures x == 0 ==> x / d == 0
  {
    var q := x / d;
    assert x == d * q + x % d;
    MulOrder(d, q + 1, y);
    assert d * (q + 1) == d * q + d;
  }

  // --- Dispatchables ----------------------------------------------------------------------------------

  function BookOf(s: Registry, role: Role): Book {
    if role.Msp? then s.msps else s.bsps
  }

  function WithBook(s: Registry, role: Role, b: Book): Registry {
    if role.Msp? then s.(msps := b) else s.(bsps := b)
  }

  /** Only backup storage providers count towards the capacity of the network; only main storage providers are privileged
      to charge up to the current tick. */
  function WithTotal(s: Registry, role: Role, total: nat): Registry {
    if role.Msp? then s else s.(totalCapacity := total)
  }

  function WithPrivilege(s: Registry, role: Role, privileged: set<ProviderId>): Registry {
    if role.Msp? then s.(privileged := privileged) else s
  }

  function RequestSignUp(c: Config, s: Registry, role: Role, who: Account, capacity: nat, hasAddress: bool, block: nat)
    : Outcome<Registry, Error>
  {
    var _ :- Need(who !in s.requests, SignUpRequestPending);
    var _ :- Need(who !in s.msps.ids && who !in s.bsps.ids, AlreadyRegistered);
    var _ :- Need(hasAddress, NoMultiAddress);
    var deposit :- DepositFor(c, capacity);
    var _ :- Need(Reducible(c.ed, s.ledger, who) >= deposit, NotEnoughBalance);
    Ok(s.(ledger := Hold(c.ed, s.ledger, who, deposit).value, requests := s.requests[who := Request(role, capacity, block)]))
  }

  /** `release_all` of the pallet's hold. */
  function ReleaseAll(l: Ledger, who: Account): Ledger {
    Release(l, who, Held(l, who)).value
  }

  function CancelSignUp(s: Registry, who: Account): Outcome<Registry, Error> {
    var _ :- Need(who in s.requests, SignUpNotRequested);
    Ok(s.(ledger := ReleaseAll(s.ledger, who), requests := s.requests - {who}))
  }

  /** Enter a provider under an id; whoever was under that id is overwritten. */
  function Enrol(b: Book, id: ProviderId, p: Provider): Book {
    Book(b.byId[id := p], b.ids[p.owner := id], b.count + 1)
  }

  /** `do_msp_sign_up` and `do_bsp_sign_up`. */
  function SignUp(c: Config, s: Registry, role: Role, who: Account, id: ProviderId, capacity: nat, at: nat, block: nat)
    : Outcome<Registry, Error>
  {
    var _ :- Need(block < at + c.maxBlocksForRandomness, SignUpRequestExpired);
    var book := BookOf(s, role);
    var _ :- Need(role.Msp? || s.totalCapacity + capacity <= c.maxUnits, Overflow);
    var _ :- Need(book.count + 1 <= c.maxCount, Overflow);
    var enrolled := WithBook(s, role, Enrol(book, id, Provider(who, capacity, 0, at, at)));
    var counted := WithTotal(enrolled, role, s.totalCapacity + capacity);
    Ok(WithPrivilege(counted, role, s.privileged + {id}).(requests := s.requests - {who}))
  }

  /** `do_confirm_sign_up`: the id comes from randomness drawn at `randomBlock`. */
  function ConfirmSignUp(c: Config, s: Registry, who: Account, id: ProviderId, randomBlock: nat, block: nat)
    : Outcome<Registry, Error>
  {
    var _ :- Need(who in s.requests, SignUpNotRequested);
    var r := s.requests[who];
    var _ :- Need(randomBlock >= r.at, RandomnessNotValidYet);
    SignUp(c, s, r.role, who, id, r.capacity, r.at, block)
  }

  /** `force_bsp_sign_up`: both steps at once, with an id of root's choice. */
  function ForceSignUp(c: Config, s: Registry, who: Account, id: ProviderId, capacity: nat, hasAddress: bool, block: nat)
    : Outcome<Registry, Error>
  {
    var requested :- RequestSignUp(c, s, Bsp, who, capacity, hasAddress, block);
    SignUp(c, requested, Bsp, who, id, capacity, block, block)
  }

  function Expel(b: Book, who: Account, id: ProviderId): Book {
    Book(b.byId - {id}, b.ids - {who}, SatSub(b.count, 1))
  }

  function SignOff(c: Config, s: Registry, role: Role, who: Account, block: nat): Outcome<Registry, Error> {
    var book := BookOf(s, role);
    var _ :- Need(who in book.ids, NotRegistered);
    var id := book.ids[who];
    var _ :- Need(id in book.byId, SpRegisteredButDataNotFound);
    var p := book.byId[id];
    var _ :- Need(p.used == 0, StorageStillInUse);
    var _ :- Need(role.Msp? || block >= p.signUpBlock + c.lockPeriod, SignOffPeriodNotPassed);
    var _ :- Need(role.Msp? || p.capacity <= s.totalCapacity, Underflow);
    var _ :- Need(book.count > 0, Underflow);
    var left := WithBook(s, role, Expel(book, who, id));
    var counted := WithTotal(left, role, SatSub(s.totalCapacity, p.capacity));
    Ok(WithPrivilege(counted, role, s.privileged - {id}).(ledger := ReleaseAll(s.ledger, who)))
  }

  /** Hold or release the difference to the new deposit. */
  function AdjustHold(c: Config, l: Ledger, who: Account, deposit: nat): Outcome<Ledger, Error> {
    var current := Held(l, who);
    if deposit > current then
      var _ :- Need(Reducible(c.ed, l, who) >= deposit - current, NotEnoughBalance);
      Ok(Hold(c.ed, l, who, deposit - current).value)
    else if deposit < current then Ok(Release(l, who, current - deposit).value)
    else Ok(l)
  }

  function ChangeRoleCapacity(c: Config, s: Registry, role: Role, who: Account, id: ProviderId, capacity: nat, block: nat)
    : Outcome<Registry, Error>
  {
    var book := BookOf(s, role);
    var _ :- Need((role, id) !in s.insolvent, OperationNotAllowedForInsolventProvider);
    var _ :- Need(id in book.byId, NotRegistered);
    var p := book.byId[id];
    var _ :- Need(capacity != p.capacity, NewCapacityEqualsCurrentCapacity);
    var _ :- Need(block >= p.lastChange + c.blocksBetweenChanges, NotEnoughTimePassed);
    var _ :- Need(capacity >= c.minCapacity, StorageTooLow);
    var _ :- Need(capacity >= p.used, NewCapacityLessThanUsedStorage);
    var deposit :- DepositFor(c, capacity);
    var l :- AdjustHold(c, s.ledger, who, deposit);
    var _ :- Need(role.Msp? || capacity < p.capacity || s.totalCapacity + (capacity - p.capacity) <= c.maxUnits, Overflow);
    var _ :- Need(role.Msp? || capacity > p.capacity || p.capacity - capacity <= s.totalCapacity, Underflow);
    var changed := book.(byId := book.byId[id := p.(capacity := capacity, lastChange := block)]);
    var total := if capacity > p.capacity then s.totalCapacity + (capacity - p.capacity)
                 else SatSub(s.totalCapacity, p.capacity - capacity);
    Ok(WithTotal(WithBook(s, role, changed), role, total).(ledger := l))
  }

  /** `do_change_capacity`. */
  function ChangeCapacity(c: Config, s: Registry, who: Account, capacity: nat, block: nat): Outcome<Registry, Error> {
    var _ :- Need(capacity != 0, NewCapacityCantBeZero);
    if who in s.msps.ids then ChangeRoleCapacity(c, s, Msp, who, s.msps.ids[who], capacity, block)
    else if who in s.bsps.ids then ChangeRoleCapacity(c, s, Bsp, who, s.bsps.ids[who], capacity, block)
    else Err(NotRegistered)
  }

  /** Other pallets store and delete data. */
  function SetUsed(s: Registry, role: Role, id: ProviderId, used: nat): Registry {
    var book := BookOf(s, role);
    if id in book.byId then WithBook(s, role, book.(byId := book.byId[id := book.byId[id].(used := used)])) else s
  }

  // --- The invariant ----------------------------------------------------------------------------------

  /** The counter is the number of providers, and ids and owners point at each other. */
  ghost predicate BookOk(b: Book) {
    && b.count == |b.byId|
    && (forall id :: id in b.byId ==> b.byId[id].owner in b.ids && b.ids[b.byId[id].owner] == id)
    && (forall a :: a in b.ids ==> b.ids[a] in b.byId && b.byId[b.ids[a]].owner == a)
  }

  function Capacities(byId: map<ProviderId, Provider>): map<ProviderId, nat> {
    map id | id in byId :: byId[id].capacity
  }

  /** The capacity an account has a deposit for: of its request, or of its provider. */
  function CapacityOf(s: Registry, a: Account): Option<nat> {
    if a in s.requests then Some(s.requests[a].capacity)
    else if a in s.msps.ids && s.msps.ids[a] in s.msps.byId then Some(s.msps.byId[s.msps.ids[a]].capacity)
    else if a in s.bsps.ids && s.bsps.ids[a] in s.bsps.byId then Some(s.bsps.byId[s.bsps.ids[a]].capacity)
    else None
  }

  /** An account is pending, a main provider or a backup provider, and at most one of the three. */
  ghost predicate OneRole(s: Registry, a: Account) {
    && !(a in s.requests && a in s.msps.ids)
    && !(a in s.requests && a in s.bsps.ids)
    && !(a in s.msps.ids && a in s.bsps.ids)
  }

  /** What an account has on hold is exactly the deposit for its capacity. */
  ghost predicate DepositMatches(c: Config, s: Registry, a: Account) {
    match CapacityOf(s, a)
    case None => Held(s.ledger, a) == 0
    case Some(capacity) => DepositFor(c, capacity) == Ok(Held(s.ledger, a))
  }

  ghost predicate Inv(c: Config, s: Registry) {
    && BookOk(s.msps) && BookOk(s.bsps)
    && s.totalCapacity == Total(Capacities(s.bsps.byId))
    && s.privileged == s.msps.byId.Keys
    && (forall a :: OneRole(s, a))
    && (forall a :: DepositMatches(c, s, a))
  }
}
