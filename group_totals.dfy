/** What the numbers `_add_test_group_data` writes into a group mean for the
    whole tree of test cases below it: `total` is the per-status tally of
    every case in the tree, `total_tests` is how many cases the tree holds,
    and `regressions` is how many of them are failures with a regression
    message. */
module GroupTotals {
  import opened Wrappers
  import opened TestData
  import opened Regressions
  import opened GroupData

  /** Every test case of a processed group's tree in report order: the
      group's own cases, then those of each sub-group in turn. */
  function AllCases(g: Group): seq<TestCase>
    decreases g, 1
  {
    if g.report.None? then []
    else g.report.value.testCases + SubGroupCases(g, |g.report.value.subGroups|)
  }

  /** The cases of the trees of the first `n` sub-groups of `g`, in order. */
  function SubGroupCases(g: Group, n: nat): seq<TestCase>
    requires g.report.Some? && n <= |g.report.value.subGroups|
    decreases g, 0, n
  {
    if n == 0 then []
    else
      var sub := g.report.value.subGroups[n - 1];
      assert sub in g.report.value.subGroups;
      SubGroupCases(g, n - 1) + AllCases(sub)
  }

  function TallyOf(cases: seq<TestCase>): Tally
  {
    CaseTally(cases, |cases|)
  }

  /** A failing case whose message comes from a regression record (every
      other failing case says "never passed"). */
  predicate IsRegression(c: TestCase)
  {
    c.status == Fail && c.failureMessage != Some(NeverPassed)
  }

  /** The number of regressions among the first `n` cases. */
  function RegressionCount(cases: seq<TestCase>, n: nat): nat
    requires n <= |cases|
  {
    if n == 0 then 0
    else RegressionCount(cases, n - 1) + if IsRegression(cases[n - 1]) then 1 else 0
  }

  function RegressionsIn(cases: seq<TestCase>): nat
  {
    RegressionCount(cases, |cases|)
  }

  lemma {:induction false} CaseTallyOfPrefix(a: seq<TestCase>, b: seq<TestCase>, n: nat)
    requires n <= |a|
    ensures CaseTally(a + b, n) == CaseTally(a, n)
  {
    if n > 0 {
      CaseTallyOfPrefix(a, b, n - 1);
      assert (a + b)[n - 1] == a[n - 1];
    }
  }

  lemma {:induction false} CaseTallyOfAppend(a: seq<TestCase>, b: seq<TestCase>, k: nat)
    requires k <= |b|
    ensures CaseTally(a + b, |a| + k) == TallyOf(a).Plus(CaseTally(b, k))
  {
    if k == 0 {
      CaseTallyOfPrefix(a, b, |a|);
    } else {
      CaseTallyOfAppend(a, b, k - 1);
      assert (a + b)[|a| + k - 1] == b[k - 1];
      PlusAssociative(TallyOf(a), CaseTally(b, k - 1), StatusTally(b[k - 1].status));
    }
  }

  /** A regression is one of the cases: there are never more regressions
      than cases. */
  lemma {:induction false} RegressionsAtMostCases(cases: seq<TestCase>, n: nat)
    requires n <= |cases|
    ensures RegressionCount(cases, n) <= n
  {
    if n > 0 {
      RegressionsAtMostCases(cases, n - 1);
    }
  }

  /** The tally of two runs of cases one after the other is the sum of their tallies. */
  lemma TallyOfConcat(a: seq<TestCase>, b: seq<TestCase>)
    ensures TallyOf(a + b) == TallyOf(a).Plus(TallyOf(b))
  {
    CaseTallyOfAppend(a, b, |b|);
  }

  lemma {:induction false} RegressionCountOfPrefix(a: seq<TestCase>, b: seq<TestCase>, n: nat)
    requires n <= |a|
    ensures RegressionCount(a + b, n) == RegressionCount(a, n)
  {
    if n > 0 {
      RegressionCountOfPrefix(a, b, n - 1);
      assert (a + b)[n - 1] == a[n - 1];
    }
  }

  lemma {:induction false} RegressionCountOfAppend(a: seq<TestCase>, b: seq<TestCase>, k: nat)
    requires k <= |b|
    ensures RegressionCount(a + b, |a| + k) == RegressionsIn(a) + RegressionCount(b, k)
  {
    if k == 0 {
      RegressionCountOfPrefix(a, b, |a|);
    } else {
      RegressionCountOfAppend(a, b, k - 1);
      assert (a + b)[|a| + k - 1] == b[k - 1];
    }
  }

  /** The regressions of two runs of cases one after the other add up. */
  lemma RegressionsOfConcat(a: seq<TestCase>, b: seq<TestCase>)
    ensures RegressionsIn(a + b) == RegressionsIn(a) + RegressionsIn(b)
  {
    RegressionCountOfAppend(a, b, |b|);
  }

  /** When every status is PASS, FAIL or SKIP, each case is counted exactly
      once: the tally adds up to the number of cases. */
  lemma {:induction false} KnownTallySum(cases: seq<TestCase>, n: nat)
    requires n <= |cases|
    requires forall i :: 0 <= i < n ==> KnownStatus(cases[i].status)
    ensures CaseTally(cases, n).Sum() == n
  {
    if n > 0 {
      KnownTallySum(cases, n - 1);
      assert KnownStatus(cases[n - 1].status);
    }
  }

  lemma KnownOfConcat(a: seq<TestCase>, b: seq<TestCase>)
    requires StatusesKnown(a) && StatusesKnown(b)
    ensures StatusesKnown(a + b)
  {
    forall i | 0 <= i < |a + b|
      ensures KnownStatus((a + b)[i].status)
    {
      if i >= |a| {
        assert (a + b)[i] == b[i - |a|];
      }
    }
  }

  /** An annotated case is a regression exactly when it is a regression hit:
      a failing case whose lookup found a record, since a regression message
      is never "never passed". */
  lemma {:induction false} OwnRegressions(cases: seq<TestCase>, db: Database, spec: Query, path: seq<string>,
                                          ids: seq<Id>, n: nat)
    requires CasesAnnotated(cases, db, spec, path, ids)
    requires n <= |ids|
    ensures RegressionHits(db, spec, path, ids, n) == RegressionCount(cases, n)
  {
    if n > 0 {
      OwnRegressions(cases, db, spec, path, ids, n - 1);
      var id := ids[n - 1];
      assert CaseAnnotatedAs(cases[n - 1], db, spec, path, id);
      var c := db.cases[id];
      var regr := FindRegression(db, spec, path, c.name);
      if c.status == Fail && regr.Some? {
        MessageIsNotNeverPassed(regr.value.history);
      }
      assert IsRegressionHit(db, spec, path, id) <==> IsRegression(cases[n - 1]);
    }
  }

  /** What `TreeTotals` proves of a processed group. */
  ghost predicate Summarizes(g: Group)
  {
    && g.report.Some?
    && g.report.value.total == TallyOf(AllCases(g))
    && StatusesKnown(AllCases(g))
    && g.report.value.totalTests == |AllCases(g)|
    && g.report.value.regressions == RegressionsIn(AllCases(g))
  }

  /** The numbers a processed group carries describe its whole tree of test
      cases: `total` is their per-status tally, every status is known,
      `total_tests` is their number and `regressions` counts the failing
      ones with a regression message. */
  lemma {:induction false} TreeTotals(out: Group, g: Group, db: Database, spec: Query, hierarchy: seq<string>)
    requires Annotated(out, g, db, spec, hierarchy)
    ensures out.report.Some?
    ensures out.report.value.total == TallyOf(AllCases(out))
    ensures StatusesKnown(AllCases(out))
    ensures out.report.value.totalTests == |AllCases(out)|
    ensures out.report.value.regressions == RegressionsIn(AllCases(out))
    decreases out
  {
    var rep, path := out.report.value, hierarchy + [g.name];
    var subs := rep.subGroups;
    forall i | 0 <= i < |subs|
      ensures Summarizes(subs[i])
    {
      assert subs[i] in subs;
      TreeTotals(subs[i], db.groups[g.subGroupIds[i]], db, spec, path);
    }
    OwnRegressions(rep.testCases, db, spec, path, g.testCaseIds, |g.testCaseIds|);
    CombineTotals(out);
  }

  /** A group's numbers describe its tree when they add its own cases to
      its sub-groups' numbers and each sub-group describes its own tree. */
  lemma CombineTotals(out: Group)
    requires out.report.Some?
    requires var rep := out.report.value;
      && StatusesKnown(rep.testCases)
      && rep.total == CaseTally(rep.testCases, |rep.testCases|).Plus(SumTotals(rep.subGroups, |rep.subGroups|))
      && rep.regressions == RegressionsIn(rep.testCases) + SumRegressions(rep.subGroups, |rep.subGroups|)
      && rep.totalTests == rep.total.Sum()
    requires forall i :: 0 <= i < |out.report.value.subGroups| ==> Summarizes(out.report.value.subGroups[i])
    ensures Summarizes(out)
  {
    var rep := out.report.value;
    var own, rest := rep.testCases, SubGroupCases(out, |rep.subGroups|);
    SubTreeTotals(out, |rep.subGroups|);
    assert AllCases(out) == own + rest;
    TallyOfConcat(own, rest);
    RegressionsOfConcat(own, rest);
    KnownOfConcat(own, rest);
    KnownTallySum(own + rest, |own + rest|);
  }

  /** The first `n` sub-groups of a processed group taken together: when
      each describes its own tree, their totals and regressions add up to
      the tally and the regression count of all their cases. */
  lemma {:induction false} SubTreeTotals(out: Group, n: nat)
    requires out.report.Some? && n <= |out.report.value.subGroups|
    requires forall i :: 0 <= i < n ==> Summarizes(out.report.value.subGroups[i])
    ensures var subs := out.report.value.subGroups;
      && SumTotals(subs, n) == TallyOf(SubGroupCases(out, n))
      && SumRegressions(subs, n) == RegressionsIn(SubGroupCases(out, n))
      && StatusesKnown(SubGroupCases(out, n))
  {
    if n > 0 {
      SubTreeTotals(out, n - 1);
      var sub := out.report.value.subGroups[n - 1];
      assert Summarizes(sub);
      var a, b := SubGroupCases(out, n - 1), AllCases(sub);
      assert SubGroupCases(out, n) == a + b;
      TallyOfConcat(a, b);
      RegressionsOfConcat(a, b);
      KnownOfConcat(a, b);
    }
  }
}
