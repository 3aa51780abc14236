/** Orders of a batch. A charge can lift a recipient to the existential deposit, and can fail because a recipient it credits
    is left below it; so some orders of the users go through and others do not. This module says which, from what each user
    lifts and falls short on alone. */
module ChargeSchedules {
  import opened Balances

  // --- Lists of users ---------------------------------------------------------------------------------

  ghost predicate Distinct(users: seq<Account>) {
    forall i, j :: 0 <= i < j < |users| ==> users[i] != users[j]
  }

  lemma DistinctTail(users: seq<Account>)
    requires users != [] && Distinct(users)
    ensures Distinct(users[1..]) && users[0] !in users[1..]
  {
    forall j | 0 <= j < |users[1..]|
      ensures users[1..][j] != users[0]
    {
      assert users[1..][j] == users[j + 1];
    }
    forall i, j | 0 <= i < j < |users[1..]|
      ensures users[1..][i] != users[1..][j]
    {
      assert users[1..][i] == users[i + 1] && users[1..][j] == users[j + 1];
    }
  }

  /** Distinct lists are those that list nobody twice. */
  lemma DistinctCounts(us: seq<Account>)
    ensures Distinct(us) <==> forall x :: multiset(us)[x] <= 1
    decreases |us|
  {
    if us != [] {
      var rest := us[1..];
      assert us == [us[0]] + rest;
      assert multiset(us) == multiset{us[0]} + multiset(rest);
      DistinctCounts(rest);
      if Distinct(us) {
        DistinctTail(us);
        assert us[0] !in multiset(rest);
      }
      if forall x :: multiset(us)[x] <= 1 {
        assert multiset(us)[us[0]] <= 1;
        assert us[0] !in rest;
        forall x
          ensures multiset(rest)[x] <= 1
        {
          assert multiset(us)[x] <= 1;
        }
        forall i, j | 0 <= i < j < |us|
          ensures us[i] != us[j]
        {
          assert us[j] == rest[j - 1];
          if i > 0 { assert us[i] == rest[i - 1]; }
        }
      }
    }
  }

  /** `vs` lists the same users as `us`, in some order. */
  ghost predicate Reordered(us: seq<Account>, vs: seq<Account>) {
    multiset(us) == multiset(vs)
  }

  lemma ReorderedKeeps(us: seq<Account>, vs: seq<Account>)
    requires Reordered(us, vs)
    ensures Distinct(us) <==> Distinct(vs)
    ensures forall x :: x in vs <==> x in us
  {
    DistinctCounts(us);
    DistinctCounts(vs);
    forall x
      ensures x in vs <==> x in us
    {
      assert x in vs <==> x in multiset(vs);
      assert x in us <==> x in multiset(us);
    }
  }

  /** The first user of one order, found in another. */
  lemma Locate(us: seq<Account>, vs: seq<Account>) returns (pre: seq<Account>, post: seq<Account>)
    requires us != [] && Reordered(us, vs)
    ensures vs == pre + [us[0]] + post
    ensures Reordered(us[1..], pre + post)
  {
    assert us[0] in multiset(us);
    var i :| 0 <= i < |vs| && vs[i] == us[0];
    pre, post := vs[..i], vs[i + 1..];
    assert vs == pre + [us[0]] + post;
    assert us == [us[0]] + us[1..];
    assert multiset(us[1..]) == multiset(us) - multiset{us[0]};
    assert multiset(pre + post) == multiset(vs) - multiset{us[0]};
  }

  /** An order of the batch that begins with a given user. */
  lemma BeginWith(users: seq<Account>, u: Account) returns (vs: seq<Account>)
    requires u in users
    ensures vs != [] && vs[0] == u && Reordered(users, vs)
  {
    var i :| 0 <= i < |users| && users[i] == u;
    vs := [u] + (users[..i] + users[i + 1..]);
    assert users == users[..i] + [u] + users[i + 1..];
  }

  // --- What users lift and fall short on --------------------------------------------------------------

  /** The recipients a user's charge would leave below the existential deposit as things stand, so that it fails, and those
      it would lift to it. */
  datatype Need = Need(short: set<Account>, lifts: set<Account>)

  ghost predicate Known(needs: map<Account, Need>, users: seq<Account>) {
    forall u :: u in users ==> u in needs
  }

  /** With the recipients in `lifted` already at the existential deposit, the users can be charged in this order. */
  ghost predicate Feasible(needs: map<Account, Need>, lifted: set<Account>, users: seq<Account>)
    decreases |users|
  {
    || users == []
    || (&& users[0] in needs && needs[users[0]].short <= lifted
        && Feasible(needs, lifted + needs[users[0]].lifts, users[1..]))
  }

  /** The recipients lifted by users that are short on nothing outside `within`. */
  function LiftedWithin(needs: map<Account, Need>, within: set<Account>, users: seq<Account>): set<Account>
    decreases |users|
  {
    if users == [] then {}
    else
      (if users[0] in needs && needs[users[0]].short <= within then needs[users[0]].lifts else {})
      + LiftedWithin(needs, within, users[1..])
  }

  /** First come the users that are short on nothing, then those that are short only on what the first ones lift, and what
      these two groups lift is all that anybody is short on. */
  ghost predicate Schedulable(needs: map<Account, Need>, users: seq<Account>) {
    var first := LiftedWithin(needs, {}, users);
    var second := LiftedWithin(needs, first, users);
    forall u :: u in users && u in needs ==> needs[u].short <= second
  }

  ghost predicate SomeoneShort(needs: map<Account, Need>, users: seq<Account>) {
    exists u :: u in users && u in needs && needs[u].short != {}
  }

  lemma {:induction false} LiftedHas(needs: map<Account, Need>, within: set<Account>, users: seq<Account>, u: Account)
    requires u in users && u in needs && needs[u].short <= within
    ensures needs[u].lifts <= LiftedWithin(needs, within, users)
    decreases |users|
  {
    if users[0] != u {
      LiftedHas(needs, within, users[1..], u);
    }
  }

  lemma {:induction false} LiftedOnly(needs: map<Account, Need>, within: set<Account>, users: seq<Account>,
                                      all: set<Account>)
    requires forall u :: u in users && u in needs && needs[u].short <= within ==> needs[u].lifts <= all
    ensures LiftedWithin(needs, within, users) <= all
    decreases |users|
  {
    if users != [] {
      assert users[0] in users;
      LiftedOnly(needs, within, users[1..], all);
    }
  }

  /** A set of recipients that users short only inside it never leave. */
  ghost predicate Closed(needs: map<Account, Need>, within: set<Account>, users: seq<Account>) {
    forall u :: u in users && u in needs && needs[u].short <= within ==> needs[u].lifts <= within
  }

  /** There are at most two recipients, so two rounds lift everything that can be lifted. */
  lemma TwoRoundsClose(needs: map<Account, Need>, users: seq<Account>, a: Account, b: Account)
    requires forall u :: u in users && u in needs ==> needs[u].lifts <= {a, b}
    ensures var first := LiftedWithin(needs, {}, users);
            Closed(needs, LiftedWithin(needs, first, users), users)
  {
    var first := LiftedWithin(needs, {}, users);
    var second := LiftedWithin(needs, first, users);
    LiftedOnly(needs, first, users, {a, b});
    forall u | u in users && u in needs && needs[u].short <= {}
      ensures needs[u].lifts <= second
    {
      LiftedHas(needs, first, users, u);
    }
    LiftedOnly(needs, {}, users, second);
    forall u | u in users && u in needs && needs[u].short <= second
      ensures needs[u].lifts <= second
    {
      if first == {} || second <= first {
        assert second == first;
        LiftedHas(needs, first, users, u);
      } else {
        var x :| x in first;
        var y :| y in second && y !in first;
        assert {a, b} == {x, y};
      }
    }
  }

  /** What a feasible order lifts stays inside a closed set, and so does what its users are short on. */
  lemma {:induction false} FeasibleStaysWithin(needs: map<Account, Need>, within: set<Account>, lifted: set<Account>,
      users: seq<Account>)
    requires Feasible(needs, lifted, users) && lifted <= within && Closed(needs, within, users)
    ensures forall u :: u in users && u in needs ==> needs[u].short <= within
    decreases |users|
  {
    if users != [] {
      assert users[0] in users;
      FeasibleStaysWithin(needs, within, lifted + needs[users[0]].lifts, users[1..]);
      assert users == [users[0]] + users[1..];
    }
  }

  // --- Building a feasible order ----------------------------------------------------------------------

  function AllLifted(needs: map<Account, Need>, users: seq<Account>): set<Account>
    decreases |users|
  {
    if users == [] then {}
    else (if users[0] in needs then needs[users[0]].lifts else {}) + AllLifted(needs, users[1..])
  }

  lemma {:induction false} AllLiftedHas(needs: map<Account, Need>, users: seq<Account>, u: Account)
    requires u in users && u in needs
    ensures needs[u].lifts <= AllLifted(needs, users)
    decreases |users|
  {
    if users[0] != u {
      AllLiftedHas(needs, users[1..], u);
    }
  }

  lemma {:induction false} FeasibleConcat(needs: map<Account, Need>, lifted: set<Account>, us: seq<Account>,
                                          vs: seq<Account>)
    requires Feasible(needs, lifted, us) && Feasible(needs, lifted + AllLifted(needs, us), vs)
    ensures Feasible(needs, lifted, us + vs)
    decreases |us|
  {
    if us == [] {
      assert us + vs == vs && lifted + {} == lifted;
    } else {
      var more := lifted + needs[us[0]].lifts;
      assert lifted + AllLifted(needs, us) == more + AllLifted(needs, us[1..]);
      FeasibleConcat(needs, more, us[1..], vs);
      assert (us + vs)[1..] == us[1..] + vs;
    }
  }

  lemma {:induction false} FeasibleInAnyOrder(needs: map<Account, Need>, lifted: set<Account>, users: seq<Account>)
    requires forall u :: u in users ==> u in needs && needs[u].short <= lifted
    ensures Feasible(needs, lifted, users)
    decreases |users|
  {
    if users != [] {
      assert users[0] in users;
      FeasibleInAnyOrder(needs, lifted + needs[users[0]].lifts, users[1..]);
    }
  }

  /** The users short on nothing outside `within`, and the others. */
  lemma {:induction false} Split(needs: map<Account, Need>, within: set<Account>, users: seq<Account>)
    returns (ready: seq<Account>, waiting: seq<Account>)
    requires Known(needs, users)
    ensures Reordered(users, ready + waiting)
    ensures forall u :: u in ready ==> u in users && u in needs && needs[u].short <= within
    ensures forall u :: u in waiting ==> u in users
    ensures forall u :: u in users && u in needs && needs[u].short <= within ==> u in ready
    decreases |users|
  {
    if users == [] {
      ready, waiting := [], [];
    } else {
      var u := users[0];
      assert u in users && users == [u] + users[1..];
      var r, w := Split(needs, within, users[1..]);
      if needs[u].short <= within {
        ready, waiting := [u] + r, w;
        assert ready + waiting == [u] + (r + w);
      } else {
        ready, waiting := r, [u] + w;
        assert multiset(ready + waiting) == multiset{u} + multiset(r + w);
      }
    }
  }

  lemma ScheduledOrder(needs: map<Account, Need>, users: seq<Account>) returns (vs: seq<Account>)
    requires Known(needs, users) && Schedulable(needs, users)
    ensures Reordered(users, vs) && Feasible(needs, {}, vs)
  {
    var first := LiftedWithin(needs, {}, users);
    var second := LiftedWithin(needs, first, users);
    var a, later := Split(needs, {}, users);
    SplitKnown(needs, users, a, later);
    var b, d := Split(needs, first, later);
    vs := a + (b + d);
    assert multiset(vs) == multiset(a) + multiset(b + d);
    forall u | u in users && needs[u].short <= {}
      ensures needs[u].lifts <= AllLifted(needs, a)
    {
      AllLiftedHas(needs, a, u);
    }
    LiftedOnly(needs, {}, users, AllLifted(needs, a));
    FeasibleInAnyOrder(needs, {}, a);
    FeasibleInAnyOrder(needs, {} + AllLifted(needs, a), b);
    var both := AllLifted(needs, a) + AllLifted(needs, b);
    forall u | u in users && needs[u].short <= first
      ensures needs[u].lifts <= both
    {
      if u in a { AllLiftedHas(needs, a, u); } else { AllLiftedHas(needs, b, u); }
    }
    LiftedOnly(needs, first, users, both);
    FeasibleInAnyOrder(needs, {} + AllLifted(needs, a) + AllLifted(needs, b), d);
    FeasibleConcat(needs, {} + AllLifted(needs, a), b, d);
    FeasibleConcat(needs, {}, a, b + d);
  }

  lemma SplitKnown(needs: map<Account, Need>, users: seq<Account>, a: seq<Account>, b: seq<Account>)
    requires Known(needs, users) && Reordered(users, a + b)
    ensures Known(needs, a) && Known(needs, b)
    ensures forall u :: u in users ==> u in a || u in b
  {
    ReorderedKeeps(users, a + b);
    assert forall u :: u in a || u in b ==> u in a + b;
    assert forall u :: u in a + b ==> u in a || u in b;
  }

  /** Some order of the users goes through exactly when the batch can be scheduled. */
  lemma ScheduleExactly(needs: map<Account, Need>, users: seq<Account>, a: Account, b: Account)
    requires Known(needs, users) && forall u :: u in users ==> needs[u].lifts <= {a, b}
    ensures (exists vs :: Reordered(users, vs) && Feasible(needs, {}, vs)) <==> Schedulable(needs, users)
  {
    if Schedulable(needs, users) {
      var vs := ScheduledOrder(needs, users);
    }
    if vs :| Reordered(users, vs) && Feasible(needs, {}, vs) {
      var first := LiftedWithin(needs, {}, users);
      var second := LiftedWithin(needs, first, users);
      TwoRoundsClose(needs, users, a, b);
      ReorderedKeeps(users, vs);
      FeasibleStaysWithin(needs, second, {}, vs);
    }
  }

  /** What is left of a batch after a charge that lifted `lifted`: everybody is short on that much less. */
  lemma {:induction false} FeasibleAfter(needs: map<Account, Need>, needs': map<Account, Need>, lifted: set<Account>,
                                         more: set<Account>, rest: seq<Account>)
    requires Known(needs, rest) && Known(needs', rest)
    requires forall w :: w in rest ==>
               && needs'[w].short == needs[w].short - lifted
               && needs'[w].lifts - lifted == needs[w].lifts - lifted
    ensures Feasible(needs', more, rest) <==> Feasible(needs, lifted + more, rest)
    decreases |rest|
  {
    if rest != [] {
      var w := rest[0];
      assert w in rest;
      SameUnion(lifted, more, needs'[w].lifts, needs[w].lifts);
      FeasibleAfter(needs, needs', lifted, more + needs'[w].lifts, rest[1..]);
    }
  }

  lemma SameUnion(lifted: set<Account>, more: set<Account>, x: set<Account>, y: set<Account>)
    requires x - lifted == y - lifted
    ensures lifted + (more + x) == lifted + more + y
  {
    forall a
      ensures a in lifted || (a in x <==> a in y)
    {
      assert a in x - lifted <==> a in y - lifted;
    }
  }
}
