/** Charges as journals: each charge is a list of small writes; writes of different users, and credits to the recipients,
    commute. */
module ChargeJournals {
  import opened Prelude
  import opened Sums
  import opened Balances
  import opened PaymentStreams

  // --- Journals ---------------------------------------------------------------------------------------

  datatype Write =
    | Debit(who: Account, amount: nat)
    | Credit(who: Account, amount: nat)
    | Unhold(who: Account, amount: nat)
    | Put(who: Account, key: StreamKey, stream: Stream)
    | Remove(who: Account, key: StreamKey)
    | Uncount(who: Account)
    | SetFlag(who: Account, block: nat)

  /** The key of a stream write belongs to the user the write is about. */
  ghost predicate Proper(w: Write) {
    (w.Put? || w.Remove?) ==> w.key.user == w.who
  }

  function Perform(s: State, w: Write): State {
    match w
    case Debit(a, x) => s.(ledger := s.ledger.(free := s.ledger.free[a := SatSub(Free(s.ledger, a), x)]))
    case Credit(a, x) => s.(ledger := s.ledger.(free := s.ledger.free[a := Free(s.ledger, a) + x]))
    case Unhold(a, x) => s.(ledger := s.ledger.(held := s.ledger.held[a := SatSub(Held(s.ledger, a), x)]))
    case Put(_, key, st) => s.(streams := s.streams[key := st])
    case Remove(_, key) => s.(streams := s.streams - {key})
    case Uncount(a) => s.(counts := s.counts[a := SatSub(Get(s.counts, a), 1)])
    case SetFlag(a, block) => s.(flagged := s.flagged[a := block])
  }

  function PerformAll(s: State, ws: seq<Write>): State
    decreases |ws|
  {
    if ws == [] then s else PerformAll(Perform(s, ws[0]), ws[1..])
  }

  lemma {:induction false} PerformConcat(s: State, vs: seq<Write>, ws: seq<Write>)
    ensures PerformAll(s, vs + ws) == PerformAll(PerformAll(s, vs), ws)
    decreases |vs|
  {
    if vs == [] {
      assert vs + ws == ws;
    } else {
      assert (vs + ws)[1..] == vs[1..] + ws;
      PerformConcat(Perform(s, vs[0]), vs[1..], ws);
    }
  }

  lemma PerformTwo(s: State, v: Write, w: Write)
    ensures PerformAll(s, [v, w]) == Perform(Perform(s, v), w)
  {
    assert [v, w][1..] == [w];
    assert PerformAll(Perform(s, v), [w]) == Perform(Perform(s, v), w);
  }

  lemma PerformOne(s: State, w: Write)
    ensures PerformAll(s, [w]) == Perform(s, w)
  {
    assert PerformAll(Perform(s, w), [w][1..]) == Perform(s, w);
  }

  ghost predicate Independent(v: Write, w: Write) {
    v.who != w.who || (v.Credit? && w.Credit?)
  }

  /** Writes about different users commute, and so do credits. */
  lemma WritesCommute(s: State, v: Write, w: Write)
    requires Proper(v) && Proper(w) && Independent(v, w)
    ensures Perform(Perform(s, v), w) == Perform(Perform(s, w), v)
  {
    if Field(v) != Field(w) {
      FieldsCommute(s, v, w);
    } else if v.Put? || v.Remove? {
      StreamWritesCommute(s, v, w);
    } else {
      BalanceWritesCommute(s, v, w);
    }
  }

  datatype Place = FreeBalance | HeldBalance | TheStreams | TheCounts | TheFlags

  /** The part of the storage a write is to. */
  function Field(w: Write): Place {
    match w
    case Debit(_, _) => FreeBalance
    case Credit(_, _) => FreeBalance
    case Unhold(_, _) => HeldBalance
    case Put(_, _, _) => TheStreams
    case Remove(_, _) => TheStreams
    case Uncount(_) => TheCounts
    case SetFlag(_, _) => TheFlags
  }

  lemma FieldsCommute(s: State, v: Write, w: Write)
    requires Field(v) != Field(w)
    ensures Perform(Perform(s, v), w) == Perform(Perform(s, w), v)
  {
    if v.Debit? || v.Credit? {
      FreeCommutes(s, v, w);
    } else if w.Debit? || w.Credit? {
      FreeCommutes(s, w, v);
    } else {
      match v {
        case Unhold(_, _) =>
        case Put(_, _, _) =>
        case Remove(_, _) =>
        case Uncount(_) =>
        case SetFlag(_, _) =>
      }
    }
  }

  lemma FreeCommutes(s: State, v: Write, w: Write)
    requires (v.Debit? || v.Credit?) && Field(v) != Field(w)
    ensures Perform(Perform(s, v), w) == Perform(Perform(s, w), v)
  {
    match w {
      case Unhold(_, _) =>
      case Put(_, _, _) =>
      case Remove(_, _) =>
      case Uncount(_) =>
      case SetFlag(_, _) =>
    }
  }

  lemma StreamWritesCommute(s: State, v: Write, w: Write)
    requires Field(v) == Field(w) == TheStreams && v.key != w.key
    ensures Perform(Perform(s, v), w) == Perform(Perform(s, w), v)
  {
    assert Perform(Perform(s, v), w).streams == Perform(Perform(s, w), v).streams;
  }

  lemma BalanceWritesCommute(s: State, v: Write, w: Write)
    requires Field(v) == Field(w) != TheStreams && Independent(v, w)
    ensures Perform(Perform(s, v), w) == Perform(Perform(s, w), v)
  {
    if v.who != w.who {
      match v {
        case Debit(a, x) => FreeWritesCommute(s, v, w);
        case Credit(a, x) => FreeWritesCommute(s, v, w);
        case Unhold(a, x) =>
          PutsCommute(s.ledger.held, a, SatSub(Held(s.ledger, a), x), w.who, SatSub(Held(s.ledger, w.who), w.amount));
        case Uncount(a) =>
          PutsCommute(s.counts, a, SatSub(Get(s.counts, a), 1), w.who, SatSub(Get(s.counts, w.who), 1));
        case SetFlag(a, block) => PutsCommute(s.flagged, a, block, w.who, w.block);
      }
    } else {
      CreditsCommute(s, v.who, v.amount, w.amount);
    }
  }

  lemma PutsCommute(m: map<Account, nat>, a: Account, x: nat, b: Account, y: nat)
    requires a != b
    ensures m[a := x][b := y] == m[b := y][a := x]
    ensures Get(m[a := x], b) == Get(m, b) && Get(m[b := y], a) == Get(m, a)
  {
  }

  /** The balance after a debit or credit. */
  function Changed(s: State, w: Write): nat
    requires w.Debit? || w.Credit?
  {
    if w.Debit? then SatSub(Free(s.ledger, w.who), w.amount) else Free(s.ledger, w.who) + w.amount
  }

  lemma FreeWritesCommute(s: State, v: Write, w: Write)
    requires (v.Debit? || v.Credit?) && (w.Debit? || w.Credit?) && v.who != w.who
    ensures Perform(Perform(s, v), w) == Perform(Perform(s, w), v)
  {
    PutsCommute(s.ledger.free, v.who, Changed(s, v), w.who, Changed(s, w));
  }

  lemma CreditsCommute(s: State, a: Account, x: nat, y: nat)
    ensures Perform(Perform(s, Credit(a, x)), Credit(a, y)) == Perform(Perform(s, Credit(a, y)), Credit(a, x))
  {
    assert Perform(Perform(s, Credit(a, x)), Credit(a, y)).ledger.free
        == Perform(Perform(s, Credit(a, y)), Credit(a, x)).ledger.free;
  }

  ghost predicate AllProper(ws: seq<Write>) {
    forall i :: 0 <= i < |ws| ==> Proper(ws[i])
  }

  ghost predicate AllIndependent(vs: seq<Write>, ws: seq<Write>) {
    forall i, j :: 0 <= i < |vs| && 0 <= j < |ws| ==> Independent(vs[i], ws[j])
  }

  lemma {:induction false} WritePastJournal(s: State, v: Write, ws: seq<Write>)
    requires Proper(v) && AllProper(ws) && AllIndependent([v], ws)
    ensures PerformAll(Perform(s, v), ws) == Perform(PerformAll(s, ws), v)
    decreases |ws|
  {
    if ws != [] {
      assert Independent([v][0], ws[0]);
      WritesCommute(s, v, ws[0]);
      forall i, j | 0 <= i < 1 && 0 <= j < |ws[1..]|
        ensures Independent([v][i], ws[1..][j])
      {
        assert ws[1..][j] == ws[j + 1];
      }
      WritePastJournal(Perform(s, ws[0]), v, ws[1..]);
    }
  }

  lemma {:induction false} JournalsCommute(s: State, vs: seq<Write>, ws: seq<Write>)
    requires AllProper(vs) && AllProper(ws) && AllIndependent(vs, ws)
    ensures PerformAll(PerformAll(s, vs), ws) == PerformAll(PerformAll(s, ws), vs)
    decreases |vs|
  {
    if vs != [] {
      forall i, j | 0 <= i < 1 && 0 <= j < |ws|
        ensures Independent([vs[0]][i], ws[j])
      {
      }
      WritePastJournal(s, vs[0], ws);
      JournalsCommute(Perform(s, vs[0]), vs[1..], ws);
    }
  }

  // --- The journal of a charge ------------------------------------------------------------------------

  function TransferWrites(from: Account, to: Account, amount: nat): seq<Write> {
    if amount == 0 then [] else [Debit(from, amount), Credit(to, amount)]
  }

  function PayWrites(c: Config, env: Env, key: StreamKey, amount: nat): seq<Write>
    requires key.provider in env.payees
  {
    var cut := Cut(env.share, amount);
    TransferWrites(key.user, env.payees[key.provider], amount - cut) + TransferWrites(key.user, c.treasury, cut)
  }

  function EffectWrites(c: Config, env: Env, s: State, key: StreamKey, e: Effect): seq<Write>
    requires key in s.streams && ((e.Pays? || e.Liquidates?) ==> key.provider in env.payees)
  {
    var st := s.streams[key];
    match e
    case Nothing => []
    case Waits => [Put(key.user, key, st.(outOfFunds := if st.outOfFunds.Some? then st.outOfFunds else Some(s.tick)))]
    case Pays(amount, marker) =>
      PayWrites(c, env, key, amount) + [Put(key.user, key, st.(marker := marker, outOfFunds := None))]
    case Liquidates(amount) =>
      [Credit(key.user, st.deposit), Unhold(key.user, st.deposit)] + PayWrites(c, env, key, amount)
      + [Remove(key.user, key), Uncount(key.user)]
      + (if key.user in s.flagged then [] else [SetFlag(key.user, env.block)])
  }

  /** The user is neither the payee nor the treasury. */
  ghost predicate Payer(c: Config, env: Env, p: ProviderId, u: Account)
    requires p in env.payees
  {
    u != env.payees[p] && u != c.treasury
  }

  lemma TransferJournal(c: Config, s: State, from: Account, to: Account, amount: nat)
    requires from != to && Transfer(c.ed, s.ledger, from, to, amount).Ok?
    ensures s.(ledger := Transfer(c.ed, s.ledger, from, to, amount).value)
            == PerformAll(s, TransferWrites(from, to, amount))
  {
    if amount > 0 {
      PerformTwo(s, Debit(from, amount), Credit(to, amount));
    }
  }

  lemma PayJournal(c: Config, env: Env, s: State, key: StreamKey, amount: nat)
    requires PayFrom(c, env, s.ledger, key, amount).Ok? && Payer(c, env, key.provider, key.user)
    ensures s.(ledger := PayFrom(c, env, s.ledger, key, amount).value)
            == PerformAll(s, PayWrites(c, env, key, amount))
  {
    hide Transfer, TransferWrites, PerformAll;
    var cut := Cut(env.share, amount);
    var payee := env.payees[key.provider];
    var l := Transfer(c.ed, s.ledger, key.user, payee, amount - cut).value;
    TransferJournal(c, s, key.user, payee, amount - cut);
    TransferJournal(c, s.(ledger := l), key.user, c.treasury, cut);
    PerformConcat(s, TransferWrites(key.user, payee, amount - cut), TransferWrites(key.user, c.treasury, cut));
  }

  lemma ReleaseJournal(s: State, u: Account, amount: nat)
    requires Release(s.ledger, u, amount).Ok?
    ensures s.(ledger := Release(s.ledger, u, amount).value)
            == PerformAll(s, [Credit(u, amount), Unhold(u, amount)])
  {
    PerformTwo(s, Credit(u, amount), Unhold(u, amount));
  }

  lemma DropJournal(s: State, key: StreamKey)
    requires Drop(s, key).Ok?
    ensures Drop(s, key).value == PerformAll(s, [Remove(key.user, key), Uncount(key.user)])
  {
    PerformTwo(s, Remove(key.user, key), Uncount(key.user));
  }

  lemma LiquidationJournal(c: Config, env: Env, s: State, key: StreamKey, amount: nat)
    requires key in s.streams && key.provider in env.payees && Payer(c, env, key.provider, key.user)
    requires Enact(c, env, s, key, Liquidates(amount)).Ok?
    ensures Enact(c, env, s, key, Liquidates(amount)).value
            == PerformAll(s, EffectWrites(c, env, s, key, Liquidates(amount)))
  {
    hide PayFrom, PayWrites, PerformAll, Release, Drop;
    var u, dep := key.user, s.streams[key].deposit;
    var a, b := [Credit(u, dep), Unhold(u, dep)], PayWrites(c, env, key, amount);
    var d := [Remove(u, key), Uncount(u)];
    var flag := if u in s.flagged then [] else [SetFlag(u, env.block)];
    var l1 := Release(s.ledger, u, dep).value;
    var s1 := s.(ledger := l1);
    ReleaseJournal(s, u, dep);
    var s2 := s.(ledger := PayFrom(c, env, l1, key, amount).value);
    PayJournal(c, env, s1, key, amount);
    var s3 := Drop(s2, key).value;
    DropJournal(s2, key);
    FlagJournal(s2, s3, key, env.block);
    PerformConcat(s, a, b);
    PerformConcat(s, a + b, d);
    PerformConcat(s, a + b + d, flag);
  }

  lemma FlagJournal(s: State, s': State, key: StreamKey, block: nat)
    requires Drop(s, key).Ok? && s' == Drop(s, key).value
    ensures Flag(s', key.user, block)
            == PerformAll(s', if key.user in s.flagged then [] else [SetFlag(key.user, block)])
  {
    PerformOne(s', SetFlag(key.user, block));
  }

  /** What a charge does is what its journal does. */
  lemma EnactJournal(c: Config, env: Env, s: State, key: StreamKey, e: Effect)
    requires key in s.streams && key.provider in env.payees && Payer(c, env, key.provider, key.user)
    requires Enact(c, env, s, key, e).Ok?
    ensures Enact(c, env, s, key, e).value == PerformAll(s, EffectWrites(c, env, s, key, e))
  {
    match e {
      case Nothing =>
      case Waits => PerformOne(s, EffectWrites(c, env, s, key, e)[0]);
      case Pays(amount, marker) => PaysJournal(c, env, s, key, amount, marker);
      case Liquidates(amount) => LiquidationJournal(c, env, s, key, amount);
    }
  }

  lemma PaysJournal(c: Config, env: Env, s: State, key: StreamKey, amount: nat, marker: nat)
    requires key in s.streams && key.provider in env.payees && Payer(c, env, key.provider, key.user)
    requires Enact(c, env, s, key, Pays(amount, marker)).Ok?
    ensures Enact(c, env, s, key, Pays(amount, marker)).value
            == PerformAll(s, EffectWrites(c, env, s, key, Pays(amount, marker)))
  {
    hide PayFrom, PayWrites, PerformAll;
    var put := Put(key.user, key, s.streams[key].(marker := marker, outOfFunds := None));
    PayJournal(c, env, s, key, amount);
    PerformConcat(s, PayWrites(c, env, key, amount), [put]);
    PerformOne(s.(ledger := PayFrom(c, env, s.ledger, key, amount).value), put);
  }

  /** A user's journal writes about that user, or credits the recipients. */
  ghost predicate OwnOrCredit(w: Write, u: Account, payee: Account, treasury: Account) {
    Proper(w) && (w.who == u || (w.Credit? && (w.who == payee || w.who == treasury)))
  }

  ghost predicate AllOwnOrCredit(ws: seq<Write>, u: Account, payee: Account, treasury: Account) {
    forall i :: 0 <= i < |ws| ==> OwnOrCredit(ws[i], u, payee, treasury)
  }

  lemma EffectWritesOwn(c: Config, env: Env, s: State, key: StreamKey, e: Effect)
    requires key in s.streams && key.provider in env.payees
    ensures AllOwnOrCredit(EffectWrites(c, env, s, key, e), key.user, env.payees[key.provider], c.treasury)
  {
  }

  lemma OwnJournalsIndependent(us: seq<Write>, vs: seq<Write>, u: Account, v: Account, payee: Account, treasury: Account)
    requires AllOwnOrCredit(us, u, payee, treasury) && AllOwnOrCredit(vs, v, payee, treasury)
    requires u != v && u != payee && u != treasury && v != payee && v != treasury
    ensures AllProper(us) && AllProper(vs) && AllIndependent(us, vs)
  {
  }
}
