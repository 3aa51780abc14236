/** What the pointer-walking sweep computes: it marks the first `budget` overdue entries, in order of deadline and
    then of provider, and nothing else. */
module SlashSweep {
  import opened Prelude
  import opened ProofsDealer

  /** Entries whose deadline the ticker has reached. */
  function Due(d: Dealer): set<Entry> {
    set e | e in d.deadlines && e.0 <= d.ticker
  }

  predicate Before(a: Entry, b: Entry) {
    a.0 < b.0 || (a.0 == b.0 && a.1 < b.1)
  }

  ghost function FirstOf(s: set<Entry>): (e: Entry)
    requires s != {}
    ensures e in s
    ensures forall x :: x in s ==> x == e || Before(e, x)
  {
    var any :| any in s;
    var ticks := set e | e in s :: e.0;
    assert any.0 in ticks;
    var t := Least(ticks);
    var providers := set e | e in s && e.0 == t :: e.1;
    var found :| found in s && found.0 == t;
    assert found.1 in providers;
    assert forall x :: x in s ==> x.0 in ticks;
    assert forall x :: x in s && x.0 == t ==> x.1 in providers;
    (t, Least(providers))
  }

  /** The first `k` entries of a set, in order. */
  ghost function Firsts(s: set<Entry>, k: nat): (r: seq<Entry>)
    ensures |r| == Min(k, |s|)
    ensures forall e :: e in r ==> e in s
    decreases k
  {
    if k == 0 || s == {} then [] else [FirstOf(s)] + Firsts(s - {FirstOf(s)}, k - 1)
  }

  ghost predicate Increasing(r: seq<Entry>) {
    forall i, j :: 0 <= i < j < |r| ==> Before(r[i], r[j])
  }

  /** Everything in `s` that `r` leaves out comes after everything it lists. */
  ghost predicate LeavesLater(s: set<Entry>, r: seq<Entry>) {
    forall e, x :: e in r && x in s && x !in r ==> Before(e, x)
  }

  lemma IncreasingCons(f: Entry, r: seq<Entry>)
    requires Increasing(r) && forall e :: e in r ==> Before(f, e)
    ensures Increasing([f] + r)
  {
    var all := [f] + r;
    forall i, j | 0 <= i < j < |all|
      ensures Before(all[i], all[j])
    {
      assert all[j] == r[j - 1] && r[j - 1] in r;
    }
  }

  lemma LeavesLaterCons(s: set<Entry>, f: Entry, r: seq<Entry>)
    requires LeavesLater(s - {f}, r) && forall x :: x in s ==> x == f || Before(f, x)
    ensures LeavesLater(s, [f] + r)
  {
    forall e, x | e in [f] + r && x in s && x !in [f] + r
      ensures Before(e, x)
    {
      assert f in [f] + r;
      assert x != f && x in s - {f} && x !in r;
    }
  }

  /** `Firsts` is strictly increasing, and everything it leaves out comes after everything it lists. */
  lemma {:induction false} FirstsAreFirst(s: set<Entry>, k: nat)
    ensures Increasing(Firsts(s, k)) && LeavesLater(s, Firsts(s, k))
    decreases k
  {
    hide FirstOf, Increasing, LeavesLater;
    if k == 0 || s == {} {
      NothingLeavesLater(s);
    } else {
      var f := FirstOf(s);
      var r := Firsts(s - {f}, k - 1);
      FirstsAreFirst(s - {f}, k - 1);
      IncreasingCons(f, r);
      LeavesLaterCons(s, f, r);
    }
  }

  lemma NothingLeavesLater(s: set<Entry>)
    ensures Increasing([]) && LeavesLater(s, [])
  {
  }

  /** Mark the listed entries one after another. */
  function MarkAll(c: Config, d: Dealer, pol: Policy, stakes: map<ProviderId, nat>, es: seq<Entry>): Dealer
    decreases |es|
  {
    if es == [] then d else MarkAll(c, Mark(c, d, pol, stakes, es[0]), pol, stakes, es[1..])
  }

  /** Where the sweep leaves its pointer: past the ticker when it had budget to spare, otherwise at the deadline of
      the last entry it marked. */
  ghost function PointerAfter(d: Dealer, budget: nat): Tick {
    if |Due(d)| < budget then d.ticker + 1
    else if budget == 0 then d.toCheck
    else Firsts(Due(d), budget)[budget - 1].0
  }

  lemma {:induction false} MarkAllIgnoresPointer(c: Config, d: Dealer, pol: Policy, stakes: map<ProviderId, nat>,
      es: seq<Entry>, at: Tick)
    ensures MarkAll(c, d.(toCheck := at), pol, stakes, es) == MarkAll(c, d, pol, stakes, es).(toCheck := at)
    decreases |es|
  {
    if es != [] {
      assert Mark(c, d.(toCheck := at), pol, stakes, es[0]) == Mark(c, d, pol, stakes, es[0]).(toCheck := at);
      MarkAllIgnoresPointer(c, Mark(c, d, pol, stakes, es[0]), pol, stakes, es[1..], at);
    }
  }

  /** The loop's next pick is the first overdue entry. */
  lemma PickIsFirstDue(d: Dealer)
    requires PointerInStep(d) && d.toCheck <= d.ticker && Under(d, d.toCheck) != {}
    ensures Due(d) != {} && FirstOf(Due(d)) == (d.toCheck, Least(Under(d, d.toCheck)))
  {
    var p := Least(Under(d, d.toCheck));
    var e := (d.toCheck, p);
    assert e in d.deadlines;
    assert e in Due(d);
    var f := FirstOf(Due(d));
    assert f.0 >= d.toCheck;
    assert f.0 == d.toCheck ==> f.1 in Under(d, d.toCheck);
  }

  lemma MarkShrinksDue(c: Config, d: Dealer, pol: Policy, stakes: map<ProviderId, nat>, e: Entry)
    requires ValidConfig(c)
    requires e in Due(d)
    ensures Due(Mark(c, d, pol, stakes, e)) == Due(d) - {e}
  {
    PeriodPositive(c, SweepStake(c, stakes, e.1));
  }

  /** The simple form of the sweep: sort the overdue entries, take the first `budget`, mark each. */
  ghost function SimpleSweep(c: Config, d: Dealer, pol: Policy, stakes: map<ProviderId, nat>, budget: nat): Dealer {
    MarkAll(c, d, pol, stakes, Firsts(Due(d), budget)).(toCheck := PointerAfter(d, budget))
  }

  lemma SimpleSweepDone(c: Config, d: Dealer, pol: Policy, stakes: map<ProviderId, nat>, budget: nat)
    requires PointerInStep(d) && (d.toCheck > d.ticker || budget == 0)
    ensures SimpleSweep(c, d, pol, stakes, budget) == d
  {
    if budget > 0 {
      assert Due(d) == {};
    }
  }

  lemma SimpleSweepMark(c: Config, d: Dealer, pol: Policy, stakes: map<ProviderId, nat>, budget: nat)
    requires ValidConfig(c) && budget > 0 && Due(d) != {} && FirstOf(Due(d)).0 == d.toCheck
    ensures SimpleSweep(c, Mark(c, d, pol, stakes, FirstOf(Due(d))), pol, stakes, budget - 1)
            == SimpleSweep(c, d, pol, stakes, budget)
  {
    var e := FirstOf(Due(d));
    MarkShrinksDue(c, d, pol, stakes, e);
    var marked := Mark(c, d, pol, stakes, e);
    assert |Due(marked)| == |Due(d)| - 1;
    assert Firsts(Due(d), budget) == [e] + Firsts(Due(marked), budget - 1);
    assert ([e] + Firsts(Due(marked), budget - 1))[1..] == Firsts(Due(marked), budget - 1);
  }

  lemma SimpleSweepMove(c: Config, d: Dealer, pol: Policy, stakes: map<ProviderId, nat>, budget: nat)
    requires budget > 0
    ensures SimpleSweep(c, d.(toCheck := d.toCheck + 1), pol, stakes, budget) == SimpleSweep(c, d, pol, stakes, budget)
  {
    var moved := d.(toCheck := d.toCheck + 1);
    assert Due(moved) == Due(d);
    MarkAllIgnoresPointer(c, d, pol, stakes, Firsts(Due(d), budget), d.toCheck + 1);
  }

  /** The pointer-walking loop refines the simple form. */
  lemma {:induction false} SweepMarksFirstDue(c: Config, d: Dealer, pol: Policy, stakes: map<ProviderId, nat>,
      budget: nat)
    requires ValidConfig(c) && PointerInStep(d)
    ensures Sweep(c, d, pol, stakes, budget) == SimpleSweep(c, d, pol, stakes, budget)
    decreases budget, d.ticker + 1 - d.toCheck
  {
    hide SimpleSweep, Mark, Due;
    if d.toCheck > d.ticker || budget == 0 {
      SimpleSweepDone(c, d, pol, stakes, budget);
    } else if Under(d, d.toCheck) != {} {
      PickIsFirstDue(d);
      var e := FirstOf(Due(d));
      MarkKeepsPointer(c, d, pol, stakes, e);
      SweepMarksFirstDue(c, Mark(c, d, pol, stakes, e), pol, stakes, budget - 1);
      SimpleSweepMark(c, d, pol, stakes, budget);
    } else {
      assert forall e :: e in d.deadlines && e.0 == d.toCheck ==> e.1 in Under(d, d.toCheck);
      SweepMarksFirstDue(c, d.(toCheck := d.toCheck + 1), pol, stakes, budget);
      SimpleSweepMove(c, d, pol, stakes, budget);
    }
  }

  lemma MarkKeepsPointer(c: Config, d: Dealer, pol: Policy, stakes: map<ProviderId, nat>, e: Entry)
    requires PointerInStep(d) && d.toCheck <= d.ticker
    ensures PointerInStep(Mark(c, d, pol, stakes, e))
  {
  }

  /** The deadline a provider marked at the current tick gets. */
  function PushedDeadline(c: Config, d: Dealer, stakes: map<ProviderId, nat>, p: ProviderId): Tick {
    d.ticker + Period(c, SweepStake(c, stakes, p))
  }

  function AccruedOf(d: Dealer, p: ProviderId): nat {
    if p in d.slashable then d.slashable[p] else 0
  }

  /** Whether the provider appears among the listed entries. */
  predicate Listed(es: seq<Entry>, p: ProviderId) {
    exists i :: 0 <= i < |es| && es[i].1 == p
  }

  ghost predicate DistinctProviders(es: seq<Entry>) {
    forall i, j :: 0 <= i < j < |es| ==> es[i].1 != es[j].1
  }

  /** The provider is marked: it keeps its last proven tick, moves to the deadline one period after the current
      tick and accrues the challenges it owed, once. */
  ghost predicate Marked(c: Config, d: Dealer, pol: Policy, stakes: map<ProviderId, nat>, d': Dealer, p: ProviderId) {
    && p in d'.records
    && d'.records[p] == RecordOf(d, p).(next := SatSub(PushedDeadline(c, d, stakes, p), c.tolerance))
    && p in d'.slashable
    && d'.slashable[p] == Accrue(c, d, pol, AccruedOf(d, p), RecordOf(d, p))
  }

  /** The provider's record and accrued count are what they were. */
  ghost predicate Untouched(d: Dealer, d': Dealer, p: ProviderId) {
    && (p in d'.records <==> p in d.records)
    && (p in d.records ==> d'.records[p] == d.records[p])
    && (p in d'.slashable <==> p in d.slashable)
    && (p in d.slashable ==> d'.slashable[p] == d.slashable[p])
  }

  lemma ListedTail(es: seq<Entry>, p: ProviderId)
    requires es != []
    ensures Listed(es, p) <==> es[0].1 == p || Listed(es[1..], p)
  {
    if Listed(es[1..], p) {
      var i :| 0 <= i < |es[1..]| && es[1..][i].1 == p;
      assert es[i + 1].1 == p;
    }
    if Listed(es, p) && es[0].1 != p {
      var i :| 0 <= i < |es| && es[i].1 == p;
      assert es[1..][i - 1].1 == p;
    }
  }

  lemma InTail(es: seq<Entry>, x: Entry)
    requires es != []
    ensures x in es <==> x == es[0] || x in es[1..]
    ensures x in es[1..] ==> Listed(es[1..], x.1)
  {
    assert es == [es[0]] + es[1..];
  }

  lemma DistinctTail(es: seq<Entry>)
    requires es != [] && DistinctProviders(es)
    ensures DistinctProviders(es[1..]) && !Listed(es[1..], es[0].1)
  {
    var rest := es[1..];
    forall i, j | 0 <= i < j < |rest|
      ensures rest[i].1 != rest[j].1
    {
      assert rest[i] == es[i + 1] && rest[j] == es[j + 1];
    }
    forall i | 0 <= i < |rest|
      ensures rest[i].1 != es[0].1
    {
      assert rest[i] == es[i + 1];
    }
  }

  /** Exactly the listed providers are marked. */
  lemma {:induction false} MarkAllProvider(c: Config, d: Dealer, pol: Policy, stakes: map<ProviderId, nat>,
                                           es: seq<Entry>, p: ProviderId)
    requires DistinctProviders(es)
    ensures var d' := MarkAll(c, d, pol, stakes, es);
            if Listed(es, p) then Marked(c, d, pol, stakes, d', p) else Untouched(d, d', p)
    decreases |es|
  {
    if es != [] {
      ListedTail(es, p);
      DistinctTail(es);
      var m := Mark(c, d, pol, stakes, es[0]);
      MarkOne(c, d, pol, stakes, es[0], p);
      hide Mark, Listed, DistinctProviders, Period, Accrue, Marked, Untouched;
      MarkAllProvider(c, m, pol, stakes, es[1..], p);
      MarkedOnce(c, d, m, MarkAll(c, m, pol, stakes, es[1..]), pol, stakes, p);
    }
  }

  /** A provider marked at one step and untouched at the other is marked over both; untouched at both, over both. */
  lemma MarkedOnce(c: Config, d: Dealer, m: Dealer, d': Dealer, pol: Policy, stakes: map<ProviderId, nat>, p: ProviderId)
    requires m.ticker == d.ticker
    ensures Untouched(d, m, p) && Untouched(m, d', p) ==> Untouched(d, d', p)
    ensures Untouched(d, m, p) && Marked(c, m, pol, stakes, d', p) ==> Marked(c, d, pol, stakes, d', p)
    ensures Marked(c, d, pol, stakes, m, p) && Untouched(m, d', p) ==> Marked(c, d, pol, stakes, d', p)
  {
  }

  lemma MarkOne(c: Config, d: Dealer, pol: Policy, stakes: map<ProviderId, nat>, e: Entry, p: ProviderId)
    ensures var m := Mark(c, d, pol, stakes, e);
            && m.ticker == d.ticker
            && if e.1 == p then Marked(c, d, pol, stakes, m, p) else Untouched(d, m, p)
  {
  }

  lemma MarkEntry(c: Config, d: Dealer, pol: Policy, stakes: map<ProviderId, nat>, e: Entry, x: Entry)
    ensures var m := Mark(c, d, pol, stakes, e);
            && m.ticker == d.ticker
            && (x in m.deadlines <==>
                  (x in d.deadlines && x != e) || (x.1 == e.1 && x.0 == PushedDeadline(c, d, stakes, x.1)))
  {
  }

  /** The deadlines afterwards: the listed entries are gone, each listed provider has its pushed one. */
  lemma {:induction false} MarkAllEntry(c: Config, d: Dealer, pol: Policy, stakes: map<ProviderId, nat>,
                                        es: seq<Entry>, x: Entry)
    requires ValidConfig(c)
    requires DistinctProviders(es)
    requires forall e :: e in es ==> e.0 <= d.ticker
    ensures x in MarkAll(c, d, pol, stakes, es).deadlines <==>
              (x in d.deadlines && x !in es) || (Listed(es, x.1) && x.0 == PushedDeadline(c, d, stakes, x.1))
    decreases |es|
  {
    if es != [] {
      ListedTail(es, x.1);
      DistinctTail(es);
      PeriodPositive(c, SweepStake(c, stakes, es[0].1));
      InTail(es, x);
      assert es[0] in es;
      var m := Mark(c, d, pol, stakes, es[0]);
      MarkEntry(c, d, pol, stakes, es[0], x);
      hide Mark, Period, Listed, DistinctProviders;
      MarkAllEntry(c, m, pol, stakes, es[1..], x);
    }
  }

  /** Marking changes only deadlines, records and accrued counts. */
  lemma {:induction false} MarkAllFrame(c: Config, d: Dealer, pol: Policy, stakes: map<ProviderId, nat>, es: seq<Entry>)
    ensures var d' := MarkAll(c, d, pol, stakes, es);
            d' == d.(deadlines := d'.deadlines, records := d'.records, slashable := d'.slashable)
    decreases |es|
  {
    if es != [] {
      MarkAllFrame(c, Mark(c, d, pol, stakes, es[0]), pol, stakes, es[1..]);
    }
  }

  /** The entries a round marks. */
  ghost function MarkedInRound(c: Config, d: Dealer, seed: Seed): seq<Entry> {
    Firsts(Due(OpenRound(c, d, seed)), c.maxSlashablePerTick)
  }

  lemma FirstsDistinct(c: Config, d: Dealer, k: nat)
    requires DeadlinesMatchRecords(c, d)
    ensures DistinctProviders(Firsts(Due(d), k))
  {
    var r := Firsts(Due(d), k);
    FirstsAreFirst(Due(d), k);
    forall i, j | 0 <= i < j < |r|
      ensures r[i].1 != r[j].1
    {
      assert r[i] in r && r[j] in r;
      assert Before(r[i], r[j]);
    }
  }

  /** What a round does to every provider and to the pointer. A provider is marked exactly when its deadline is
      among the first `maxSlashablePerTick` overdue ones; at most that many are marked; the pointer catches up with
      the ticker exactly when fewer than that many were overdue. */
  lemma RoundMarksExactly(c: Config, d: Dealer, seed: Seed, stakes: map<ProviderId, nat>, p: ProviderId)
    requires ValidConfig(c) && Inv(c, d)
    ensures var open := OpenRound(c, d, seed);
            var marked := MarkedInRound(c, d, seed);
            var d' := NewRound(c, d, seed, stakes);
            && |marked| == Min(c.maxSlashablePerTick, |Due(open)|)
            && DistinctProviders(marked)
            && (Listed(marked, p) ==> Marked(c, open, PolicyOf(d), stakes, d', p))
            && (!Listed(marked, p) ==> Untouched(d, d', p))
            && (d'.toCheck == d'.ticker + 1 <==> |Due(open)| < c.maxSlashablePerTick)
  {
    OpenRoundInv(c, d, seed);
    var open := OpenRound(c, d, seed);
    var pol := PolicyOf(d);
    var k := c.maxSlashablePerTick;
    SweepMarksFirstDue(c, open, pol, stakes, k);
    FirstsDistinct(c, open, k);
    MarkAllProvider(c, open, pol, stakes, Firsts(Due(open), k), p);
    MarkAllFrame(c, open, pol, stakes, Firsts(Due(open), k));
    assert k > 0 && |Due(open)| >= k ==> Firsts(Due(open), k)[k - 1] in Due(open);
  }
}
