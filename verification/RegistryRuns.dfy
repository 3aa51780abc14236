/** What every run of the provider registry keeps, and exactly when it does not. */
module RegistryRuns {
  import opened Prelude
  import opened Sums
  import opened Balances
  import opened ProviderRegistry

  // --- Books ------------------------------------------------------------------------------------------

  /** A book stays in order under a new provider exactly when the id was free. */
  lemma EnrolExactly(b: Book, id: ProviderId, p: Provider)
    requires BookOk(b) && p.owner !in b.ids
    ensures BookOk(Enrol(b, id, p)) <==> id !in b.byId
  {
    var e := Enrol(b, id, p);
    if id in b.byId {
      assert e.byId.Keys == b.byId.Keys;
    } else {
      MapSizePut(b.byId, id, p);
      forall a | a in e.ids
        ensures e.ids[a] in e.byId && e.byId[e.ids[a]].owner == a
      {
        if a != p.owner { assert b.ids[a] != id; }
      }
    }
  }

  lemma ExpelOk(b: Book, who: Account)
    requires BookOk(b) && who in b.ids
    ensures BookOk(Expel(b, who, b.ids[who]))
  {
    MapSizeDrop(b.byId, b.ids[who]);
  }

  lemma ReplaceOk(b: Book, id: ProviderId, p: Provider)
    requires BookOk(b) && id in b.byId && p.owner == b.byId[id].owner
    ensures BookOk(b.(byId := b.byId[id := p]))
  {
    assert b.byId[id := p].Keys == b.byId.Keys;
  }

  lemma CapacitiesPut(byId: map<ProviderId, Provider>, id: ProviderId, p: Provider)
    ensures Total(Capacities(byId[id := p])) + Get(Capacities(byId), id) == Total(Capacities(byId)) + p.capacity
  {
    assert Capacities(byId[id := p]) == Capacities(byId)[id := p.capacity];
    TotalPut(Capacities(byId), id, p.capacity);
  }

  lemma CapacitiesDrop(byId: map<ProviderId, Provider>, id: ProviderId)
    requires id in byId
    ensures Total(Capacities(byId)) == byId[id].capacity + Total(Capacities(byId - {id}))
  {
    assert Capacities(byId - {id}) == Capacities(byId) - {id};
    TotalDrop(Capacities(byId), id);
  }

  // --- The parts of the invariant ---------------------------------------------------------------------

  ghost predicate BooksOk(s: Registry) {
    && BookOk(s.msps) && BookOk(s.bsps)
    && s.totalCapacity == Total(Capacities(s.bsps.byId))
    && s.privileged == s.msps.byId.Keys
  }

  ghost predicate AccountOk(c: Config, s: Registry, a: Account) {
    OneRole(s, a) && DepositMatches(c, s, a)
  }

  lemma InvParts(c: Config, s: Registry)
    ensures Inv(c, s) <==> BooksOk(s) && forall a :: AccountOk(c, s, a)
  {
    hide OneRole, DepositMatches;
    forall a
      ensures AccountOk(c, s, a) <==> OneRole(s, a) && DepositMatches(c, s, a)
    {
    }
    if BooksOk(s) && forall a :: AccountOk(c, s, a) {
      forall a
        ensures OneRole(s, a) && DepositMatches(c, s, a)
      {
        assert AccountOk(c, s, a);
      }
    }
  }

  // --- Sign-up ----------------------------------------------------------------------------------------

  lemma RequestAccount(c: Config, s: Registry, role: Role, who: Account, capacity: nat, hasAddress: bool, block: nat,
                       a: Account)
    requires AccountOk(c, s, a) && RequestSignUp(c, s, role, who, capacity, hasAddress, block).Ok?
    ensures AccountOk(c, RequestSignUp(c, s, role, who, capacity, hasAddress, block).value, a)
  {
    hide DepositFor;
  }

  lemma RequestInv(c: Config, s: Registry, role: Role, who: Account, capacity: nat, hasAddress: bool, block: nat)
    requires Inv(c, s) && RequestSignUp(c, s, role, who, capacity, hasAddress, block).Ok?
    ensures Inv(c, RequestSignUp(c, s, role, who, capacity, hasAddress, block).value)
  {
    var s' := RequestSignUp(c, s, role, who, capacity, hasAddress, block).value;
    InvParts(c, s);
    InvParts(c, s');
    hide Inv, AccountOk, DepositFor;
    forall a
      ensures AccountOk(c, s', a)
    {
      RequestAccount(c, s, role, who, capacity, hasAddress, block, a);
    }
  }

  lemma CancelAccount(c: Config, s: Registry, who: Account, a: Account)
    requires AccountOk(c, s, a) && CancelSignUp(s, who).Ok?
    ensures AccountOk(c, CancelSignUp(s, who).value, a)
  {
    hide DepositFor;
  }

  lemma CancelInv(c: Config, s: Registry, who: Account)
    requires Inv(c, s) && CancelSignUp(s, who).Ok?
    ensures Inv(c, CancelSignUp(s, who).value)
  {
    var s' := CancelSignUp(s, who).value;
    InvParts(c, s);
    InvParts(c, s');
    hide Inv, AccountOk;
    forall a
      ensures AccountOk(c, s', a)
    {
      CancelAccount(c, s, who, a);
    }
  }

  lemma SignUpBooks(c: Config, s: Registry, role: Role, who: Account, id: ProviderId, capacity: nat, at: nat, block: nat)
    requires BooksOk(s) && who !in BookOf(s, role).ids
    requires SignUp(c, s, role, who, id, capacity, at, block).Ok?
    ensures BooksOk(SignUp(c, s, role, who, id, capacity, at, block).value) <==> id !in BookOf(s, role).byId
  {
    hide Total, Capacities, BookOk;
    var p := Provider(who, capacity, 0, at, at);
    EnrolExactly(BookOf(s, role), id, p);
    if role.Bsp? && id !in s.bsps.byId {
      CapacitiesPut(s.bsps.byId, id, p);
      NoCapacity(s.bsps.byId, id);
    }
  }

  lemma NoCapacity(byId: map<ProviderId, Provider>, id: ProviderId)
    requires id !in byId
    ensures Get(Capacities(byId), id) == 0
  {
  }

  lemma SignUpAccount(c: Config, s: Registry, role: Role, who: Account, id: ProviderId, at: nat, block: nat, a: Account)
    requires AccountOk(c, s, a) && OneRole(s, who) && BookOk(BookOf(s, role))
    requires who in s.requests && s.requests[who].role == role && id !in BookOf(s, role).byId
    requires SignUp(c, s, role, who, id, s.requests[who].capacity, at, block).Ok?
    ensures AccountOk(c, SignUp(c, s, role, who, id, s.requests[who].capacity, at, block).value, a)
  {
    hide DepositFor;
    assert a in BookOf(s, role).ids ==> BookOf(s, role).ids[a] != id;
  }

  /** Confirming keeps the books in step exactly when the id is not in use by a provider of the same role. */
  lemma ConfirmExactly(c: Config, s: Registry, who: Account, id: ProviderId, randomBlock: nat, block: nat)
    requires Inv(c, s) && ConfirmSignUp(c, s, who, id, randomBlock, block).Ok?
    ensures Inv(c, ConfirmSignUp(c, s, who, id, randomBlock, block).value)
            <==> id !in BookOf(s, s.requests[who].role).byId
  {
    var r := s.requests[who];
    var s' := ConfirmSignUp(c, s, who, id, randomBlock, block).value;
    InvParts(c, s);
    InvParts(c, s');
    assert OneRole(s, who);
    SignUpBooks(c, s, r.role, who, id, r.capacity, r.at, block);
    if id !in BookOf(s, r.role).byId {
      hide Inv, AccountOk, SignUp;
      forall a
        ensures AccountOk(c, s', a)
      {
        assert AccountOk(c, s, a);
        SignUpAccount(c, s, r.role, who, id, r.at, block, a);
      }
    }
  }

  /** So does a forced sign-up. */
  lemma ForceExactly(c: Config, s: Registry, who: Account, id: ProviderId, capacity: nat, hasAddress: bool, block: nat)
    requires Inv(c, s) && ForceSignUp(c, s, who, id, capacity, hasAddress, block).Ok?
    ensures Inv(c, ForceSignUp(c, s, who, id, capacity, hasAddress, block).value) <==> id !in s.bsps.byId
  {
    var requested := RequestSignUp(c, s, Bsp, who, capacity, hasAddress, block).value;
    RequestInv(c, s, Bsp, who, capacity, hasAddress, block);
    RequestedAs(c, s, Bsp, who, capacity, hasAddress, block);
    hide Inv, RequestSignUp, SignUp;
    ConfirmExactly(c, requested, who, id, block, block);
  }

  lemma RequestedAs(c: Config, s: Registry, role: Role, who: Account, capacity: nat, hasAddress: bool, block: nat)
    requires RequestSignUp(c, s, role, who, capacity, hasAddress, block).Ok?
    ensures var s' := RequestSignUp(c, s, role, who, capacity, hasAddress, block).value;
            && who in s'.requests && s'.requests[who] == Request(role, capacity, block)
            && s'.bsps == s.bsps
  {
  }

  // --- Sign-off and capacity changes ------------------------------------------------------------------

  lemma SignOffBooks(c: Config, s: Registry, role: Role, who: Account, block: nat)
    requires BooksOk(s) && SignOff(c, s, role, who, block).Ok?
    ensures BooksOk(SignOff(c, s, role, who, block).value)
  {
    hide Total, Capacities, BookOk;
    ExpelOk(BookOf(s, role), who);
    if role.Bsp? {
      CapacitiesDrop(s.bsps.byId, s.bsps.ids[who]);
    }
  }

  lemma SignOffAccount(c: Config, s: Registry, role: Role, who: Account, block: nat, a: Account)
    requires AccountOk(c, s, a) && OneRole(s, who) && BookOk(BookOf(s, role)) && SignOff(c, s, role, who, block).Ok?
    ensures AccountOk(c, SignOff(c, s, role, who, block).value, a)
  {
    hide DepositFor;
  }

  lemma SignOffInv(c: Config, s: Registry, role: Role, who: Account, block: nat)
    requires Inv(c, s) && SignOff(c, s, role, who, block).Ok?
    ensures Inv(c, SignOff(c, s, role, who, block).value)
  {
    var s' := SignOff(c, s, role, who, block).value;
    InvParts(c, s);
    InvParts(c, s');
    assert OneRole(s, who);
    SignOffBooks(c, s, role, who, block);
    hide Inv, AccountOk, SignOff;
    forall a
      ensures AccountOk(c, s', a)
    {
      SignOffAccount(c, s, role, who, block, a);
    }
  }

  lemma AdjustHoldHeld(c: Config, l: Ledger, who: Account, deposit: nat, a: Account)
    requires AdjustHold(c, l, who, deposit).Ok?
    ensures Held(AdjustHold(c, l, who, deposit).value, a) == if a == who then deposit else Held(l, a)
  {
  }

  lemma ChangeBooks(c: Config, s: Registry, role: Role, who: Account, id: ProviderId, capacity: nat, block: nat)
    requires BooksOk(s) && ChangeRoleCapacity(c, s, role, who, id, capacity, block).Ok?
    ensures BooksOk(ChangeRoleCapacity(c, s, role, who, id, capacity, block).value)
  {
    hide Total, BookOk, DepositFor, AdjustHold;
    var p := BookOf(s, role).byId[id].(capacity := capacity, lastChange := block);
    assert BookOf(s, role).byId[id := p].Keys == BookOf(s, role).byId.Keys;
    ReplaceOk(BookOf(s, role), id, p);
    if role.Bsp? {
      CapacitiesPut(s.bsps.byId, id, p);
      TotalAtLeast(Capacities(s.bsps.byId), id);
    }
  }

  lemma ChangeAccount(c: Config, s: Registry, role: Role, who: Account, id: ProviderId, capacity: nat, block: nat,
                      a: Account)
    requires AccountOk(c, s, a) && OneRole(s, who) && BookOk(BookOf(s, role))
    requires who in BookOf(s, role).ids && BookOf(s, role).ids[who] == id
    requires ChangeRoleCapacity(c, s, role, who, id, capacity, block).Ok?
    ensures AccountOk(c, ChangeRoleCapacity(c, s, role, who, id, capacity, block).value, a)
  {
    hide DepositFor, AdjustHold;
    AdjustHoldHeld(c, s.ledger, who, DepositFor(c, capacity).value, a);
    assert a in BookOf(s, role).ids && BookOf(s, role).ids[a] == id ==> a == who;
  }

  lemma ChangeRoleInv(c: Config, s: Registry, role: Role, who: Account, id: ProviderId, capacity: nat, block: nat)
    requires Inv(c, s) && who in BookOf(s, role).ids && BookOf(s, role).ids[who] == id
    requires ChangeRoleCapacity(c, s, role, who, id, capacity, block).Ok?
    ensures Inv(c, ChangeRoleCapacity(c, s, role, who, id, capacity, block).value)
  {
    var s' := ChangeRoleCapacity(c, s, role, who, id, capacity, block).value;
    InvParts(c, s);
    InvParts(c, s');
    assert OneRole(s, who);
    ChangeBooks(c, s, role, who, id, capacity, block);
    hide Inv, AccountOk, ChangeRoleCapacity;
    forall a
      ensures AccountOk(c, s', a)
    {
      ChangeAccount(c, s, role, who, id, capacity, block, a);
    }
  }

  lemma ChangeInv(c: Config, s: Registry, who: Account, capacity: nat, block: nat)
    requires Inv(c, s) && ChangeCapacity(c, s, who, capacity, block).Ok?
    ensures Inv(c, ChangeCapacity(c, s, who, capacity, block).value)
  {
    hide Inv, ChangeRoleCapacity;
    if who in s.msps.ids {
      ChangeRoleInv(c, s, Msp, who, s.msps.ids[who], capacity, block);
    } else {
      ChangeRoleInv(c, s, Bsp, who, s.bsps.ids[who], capacity, block);
    }
  }

  lemma SetUsedInv(c: Config, s: Registry, role: Role, id: ProviderId, used: nat)
    requires Inv(c, s)
    ensures Inv(c, SetUsed(s, role, id, used))
  {
    InvParts(c, s);
    SetUsedBooks(s, role, id, used);
    var s' := SetUsed(s, role, id, used);
    InvParts(c, s');
    hide *;
    forall a
      ensures AccountOk(c, s', a)
    {
      SetUsedAccount(c, s, role, id, used, a);
    }
  }

  lemma SetUsedBooks(s: Registry, role: Role, id: ProviderId, used: nat)
    requires BooksOk(s)
    ensures BooksOk(SetUsed(s, role, id, used))
  {
    var book := BookOf(s, role);
    if id in book.byId {
      var p := book.byId[id].(used := used);
      ReplaceOk(book, id, p);
      assert Capacities(book.byId[id := p]) == Capacities(book.byId);
      assert book.byId[id := p].Keys == book.byId.Keys;
    }
  }

  lemma SetUsedAccount(c: Config, s: Registry, role: Role, id: ProviderId, used: nat, a: Account)
    requires AccountOk(c, s, a)
    ensures AccountOk(c, SetUsed(s, role, id, used), a)
  {
    hide DepositFor;
  }

  // --- Runs -------------------------------------------------------------------------------------------

  datatype Step =
    | Ask(role: Role, who: Account, capacity: nat, hasAddress: bool, block: nat)
    | Cancel(who: Account)
    | Confirm(who: Account, id: ProviderId, randomBlock: nat, block: nat)
    | Force(who: Account, id: ProviderId, capacity: nat, hasAddress: bool, block: nat)
    | Leave(role: Role, who: Account, block: nat)
    | Resize(who: Account, capacity: nat, block: nat)
    | Use(role: Role, id: ProviderId, used: nat)
    | Declare(insolvent: set<(Role, ProviderId)>)
    | Move(from: Account, to: Account, amount: nat)

  function Settled(s: Registry, r: Outcome<Registry, Error>): Registry {
    if r.Ok? then r.value else s
  }

  function Apply(c: Config, s: Registry, step: Step): Registry {
    match step
    case Ask(role, who, capacity, hasAddress, block) => Settled(s, RequestSignUp(c, s, role, who, capacity, hasAddress, block))
    case Cancel(who) => Settled(s, CancelSignUp(s, who))
    case Confirm(who, id, randomBlock, block) => Settled(s, ConfirmSignUp(c, s, who, id, randomBlock, block))
    case Force(who, id, capacity, hasAddress, block) => Settled(s, ForceSignUp(c, s, who, id, capacity, hasAddress, block))
    case Leave(role, who, block) => Settled(s, SignOff(c, s, role, who, block))
    case Resize(who, capacity, block) => Settled(s, ChangeCapacity(c, s, who, capacity, block))
    case Use(role, id, used) => SetUsed(s, role, id, used)
    case Declare(insolvent) => s.(insolvent := insolvent)
    case Move(from, to, amount) =>
      (match Transfer(c.ed, s.ledger, from, to, amount)
       case Ok(l) => s.(ledger := l)
       case Err(_) => s)
  }

  /** The id a sign-up of this step would use is free. */
  predicate FreshId(s: Registry, step: Step) {
    match step
    case Confirm(who, id, _, _) => who in s.requests ==> id !in BookOf(s, s.requests[who].role).byId
    case Force(_, id, _, _, _) => id !in s.bsps.byId
    case _ => true
  }

  lemma ApplyInv(c: Config, s: Registry, step: Step)
    requires Inv(c, s) && FreshId(s, step)
    ensures Inv(c, Apply(c, s, step))
  {
    if step.Move? {
      MoveInv(c, s, step);
    } else {
      hide RequestSignUp, CancelSignUp, SignUp, SignOff, ChangeRoleCapacity, DepositFor;
      match step
      case Ask(role, who, capacity, hasAddress, block) =>
        if RequestSignUp(c, s, role, who, capacity, hasAddress, block).Ok? { RequestInv(c, s, role, who, capacity, hasAddress, block); }
      case Cancel(who) =>
        if CancelSignUp(s, who).Ok? { CancelInv(c, s, who); }
      case Confirm(who, id, randomBlock, block) =>
        if ConfirmSignUp(c, s, who, id, randomBlock, block).Ok? { ConfirmExactly(c, s, who, id, randomBlock, block); }
      case Force(who, id, capacity, hasAddress, block) =>
        if ForceSignUp(c, s, who, id, capacity, hasAddress, block).Ok? { ForceExactly(c, s, who, id, capacity, hasAddress, block); }
      case Leave(role, who, block) =>
        if SignOff(c, s, role, who, block).Ok? { SignOffInv(c, s, role, who, block); }
      case Resize(who, capacity, block) =>
        if ChangeCapacity(c, s, who, capacity, block).Ok? { ChangeInv(c, s, who, capacity, block); }
      case Use(role, id, used) => SetUsedInv(c, s, role, id, used);
      case Declare(insolvent) => DeclareInv(c, s, insolvent);
    }
  }

  lemma DeclareInv(c: Config, s: Registry, insolvent: set<(Role, ProviderId)>)
    requires Inv(c, s)
    ensures Inv(c, s.(insolvent := insolvent))
  {
    var s' := s.(insolvent := insolvent);
    forall a
      ensures OneRole(s', a) && DepositMatches(c, s', a)
    {
      assert OneRole(s, a) && DepositMatches(c, s, a);
    }
  }

  lemma MoveInv(c: Config, s: Registry, step: Step)
    requires Inv(c, s) && step.Move?
    ensures Inv(c, Apply(c, s, step))
  {
    var s' := Apply(c, s, step);
    hide DepositFor;
    forall a
      ensures OneRole(s', a) && DepositMatches(c, s', a)
    {
      assert OneRole(s, a) && DepositMatches(c, s, a);
    }
  }

  function Run(c: Config, s: Registry, steps: seq<Step>): Registry
    decreases |steps|
  {
    if steps == [] then s else Apply(c, Run(c, s, steps[..|steps| - 1]), steps[|steps| - 1])
  }

  ghost predicate FreshIds(c: Config, s: Registry, steps: seq<Step>) {
    forall i :: 0 <= i < |steps| ==> FreshId(Run(c, s, steps[..i]), steps[i])
  }

  /** Over every run of sign-ups, confirmations, cancellations, capacity changes and sign-offs in which no confirmation
      draws an id that is in use: counters and total capacity are recounts, accounts and ids point at each other, exactly
      the main providers are privileged, no account has two roles, and every hold is exactly the deposit for the account's
      capacity. */
  lemma {:induction false} RunInv(c: Config, s: Registry, steps: seq<Step>)
    requires Inv(c, s) && FreshIds(c, s, steps)
    ensures Inv(c, Run(c, s, steps))
    decreases |steps|
  {
    hide Inv, Apply, FreshId;
    if steps != [] {
      var n := |steps| - 1;
      forall i | 0 <= i < n
        ensures FreshId(Run(c, s, steps[..n][..i]), steps[..n][i])
      {
        assert steps[..n][..i] == steps[..i];
      }
      RunInv(c, s, steps[..n]);
      ApplyInv(c, Run(c, s, steps[..n]), steps[n]);
    }
  }

  const NOBODY := Book(map[], map[], 0)

  lemma EmptyInv(c: Config, free: map<Account, nat>)
    ensures Inv(c, Registry(Ledger(free, map[]), map[], NOBODY, NOBODY, 0, {}, {}, {}))
  {
    assert Capacities(map[]) == map[];
  }

  /** An id drawn twice: two sign-ups counted, one provider left. */
  lemma SameIdMiscounts(b: Book, id: ProviderId, p: Provider)
    requires BookOk(b) && id in b.byId && p.owner !in b.ids
    ensures Enrol(b, id, p).count == |Enrol(b, id, p).byId| + 1
  {
    assert Enrol(b, id, p).byId.Keys == b.byId.Keys;
  }
}
