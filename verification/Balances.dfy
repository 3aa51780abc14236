/** The native currency as the payment streams pallet uses it: free and held balances, transfers that keep the sender
    alive, holds and exact releases. An account that is not in a map has balance zero. */
module Balances {
  import opened Prelude
  import opened Sums

  type Account = nat

  datatype Ledger = Ledger(free: map<Account, nat>, held: map<Account, nat>)

  datatype LedgerError = FundsUnavailable | BelowMinimum

  const MAX_BALANCE: nat := 0xFFFF_FFFF_FFFF_FFFF_FFFF_FFFF_FFFF_FFFF

  function Free(l: Ledger, a: Account): nat {
    Get(l.free, a)
  }

  function Held(l: Ledger, a: Account): nat {
    Get(l.held, a)
  }

  /** What an account can spend without dropping below the existential deposit. */
  function Reducible(ed: nat, l: Ledger, a: Account): nat {
    SatSub(Free(l, a), ed)
  }

  function Transfer(ed: nat, l: Ledger, from: Account, to: Account, amount: nat): Outcome<Ledger, LedgerError> {
    var _ :- Need(amount <= Reducible(ed, l, from), FundsUnavailable);
    var _ :- Need(amount == 0 || Free(l, to) + amount >= ed, BelowMinimum);
    if amount == 0 || from == to then Ok(l)
    else Ok(l.(free := l.free[from := Free(l, from) - amount][to := Free(l, to) + amount]))
  }

  function Hold(ed: nat, l: Ledger, who: Account, amount: nat): Outcome<Ledger, LedgerError> {
    var _ :- Need(amount <= Reducible(ed, l, who), FundsUnavailable);
    Ok(Ledger(l.free[who := Free(l, who) - amount], l.held[who := Held(l, who) + amount]))
  }

  function Release(l: Ledger, who: Account, amount: nat): Outcome<Ledger, LedgerError> {
    var _ :- Need(amount <= Held(l, who), FundsUnavailable);
    Ok(Ledger(l.free[who := Free(l, who) + amount], l.held[who := Held(l, who) - amount]))
  }

  /** A share of at most one, in parts per billion. */
  const BILLION: nat := 1_000_000_000
  type Share = x: nat | x <= 1_000_000_000

  /** The treasury's part of a payment, rounded down. */
  function Cut(share: Share, amount: nat): (cut: nat)
    ensures cut <= amount
  {
    CutBound(share, amount);
    share * amount / BILLION
  }

  /** The cut is the largest whole amount that is no more than the share of the payment. */
  lemma CutIsFloor(share: Share, amount: nat, other: nat)
    ensures BILLION * Cut(share, amount) <= share * amount
    ensures BILLION * other <= share * amount ==> other <= Cut(share, amount)
  {
    var q := Cut(share, amount);
    assert share * amount == BILLION * q + (share * amount) % BILLION;
  }

  lemma CutBound(share: Share, amount: nat)
    ensures 0 <= share * amount / BILLION <= amount
  {
    assert share * amount <= BILLION * amount;
  }

  /** A payment split between the payee and the treasury. */
  function Pay(ed: nat, l: Ledger, user: Account, payee: Account, treasury: Account, share: Share, amount: nat)
    : Outcome<Ledger, LedgerError>
  {
    var cut := Cut(share, amount);
    var paid :- Transfer(ed, l, user, payee, amount - cut);
    Transfer(ed, paid, user, treasury, cut)
  }

  /** What payee and treasury each receive of a payment by somebody else. */
  lemma PayReceipts(ed: nat, l: Ledger, user: Account, payee: Account, treasury: Account, share: Share, amount: nat)
    requires user != payee && user != treasury && Pay(ed, l, user, payee, treasury, share, amount).Ok?
    ensures var l', cut := Pay(ed, l, user, payee, treasury, share, amount).value, Cut(share, amount);
            && Free(l', user) + amount == Free(l, user)
            && (payee != treasury ==>
                  Free(l', payee) == Free(l, payee) + (amount - cut) && Free(l', treasury) == Free(l, treasury) + cut)
            && (payee == treasury ==> Free(l', payee) == Free(l, payee) + amount)
  {
    hide Cut;
  }

  /** All the money there is. */
  ghost function Money(l: Ledger): nat {
    Total(l.free) + Total(l.held)
  }

  lemma TransferConserves(ed: nat, l: Ledger, from: Account, to: Account, amount: nat)
    requires Transfer(ed, l, from, to, amount).Ok?
    ensures var l' := Transfer(ed, l, from, to, amount).value;
            Money(l') == Money(l) && l'.held == l.held
  {
    if amount > 0 && from != to {
      var debited := l.free[from := Free(l, from) - amount];
      TotalPut(l.free, from, Free(l, from) - amount);
      TotalPut(debited, to, Free(l, to) + amount);
    }
  }

  lemma HoldConserves(ed: nat, l: Ledger, who: Account, amount: nat)
    requires Hold(ed, l, who, amount).Ok?
    ensures Money(Hold(ed, l, who, amount).value) == Money(l)
  {
    TotalPut(l.free, who, Free(l, who) - amount);
    TotalPut(l.held, who, Held(l, who) + amount);
  }

  lemma ReleaseConserves(l: Ledger, who: Account, amount: nat)
    requires Release(l, who, amount).Ok?
    ensures Money(Release(l, who, amount).value) == Money(l)
  {
    TotalPut(l.free, who, Free(l, who) + amount);
    TotalPut(l.held, who, Held(l, who) - amount);
  }

  lemma PayConserves(ed: nat, l: Ledger, user: Account, payee: Account, treasury: Account, share: Share, amount: nat)
    requires Pay(ed, l, user, payee, treasury, share, amount).Ok?
    ensures var l' := Pay(ed, l, user, payee, treasury, share, amount).value;
            Money(l') == Money(l) && l'.held == l.held
  {
    hide Transfer, Money;
    var cut := Cut(share, amount);
    TransferConserves(ed, l, user, payee, amount - cut);
    TransferConserves(ed, Transfer(ed, l, user, payee, amount - cut).value, user, treasury, cut);
  }
}
