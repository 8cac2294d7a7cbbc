/** `_add_test_group_data`: resolve a test group's cases and sub-groups,
    give failing cases their failure message, and add the regression count
    and per-status totals of the whole sub-tree to the group. */
module GroupData {
  import opened Wrappers
  import opened Bson
  import opened TestData
  import opened Regressions

  predicate KnownStatus(s: Status)
  {
    !s.Other?
  }

  /** The hierarchy value of a regression query: the list of names. */
  function Hierarchy(names: seq<string>): (v: Value)
    ensures v.List? && |v.items| == |names|
    ensures forall i :: 0 <= i < |names| ==> v.items[i] == Str(names[i])
  {
    List(seq(|names|, i requires 0 <= i < |names| => Str(names[i])))
  }

  /** The query for a case's regression record: the group query with the
      hierarchy set to the group path followed by the case name. */
  function RegressionQuery(spec: Query, path: seq<string>, caseName: string): Query
  {
    spec[HierarchyKey := Hierarchy(path + [caseName])]
  }

  /** `q` is the group query `spec` apart from (possibly) its hierarchy. */
  predicate AgreesOutsideHierarchy(q: Query, spec: Query)
  {
    && q.Keys <= spec.Keys + {HierarchyKey}
    && forall k :: k in spec && k != HierarchyKey ==> k in q && q[k] == spec[k]
  }

  /** Setting the hierarchy of such a query gives the regression query of
      the case, whatever hierarchy an earlier case left in it. */
  lemma QueryUpdate(q: Query, spec: Query, path: seq<string>, caseName: string)
    requires AgreesOutsideHierarchy(q, spec)
    ensures q[HierarchyKey := Hierarchy(path + [caseName])] == RegressionQuery(spec, path, caseName)
    ensures AgreesOutsideHierarchy(RegressionQuery(spec, path, caseName), spec)
  {
  }

  /** A case's regression is looked up under the names of the group's
      ancestors, then the group's own name, then the case's name; every
      other key of the query is the group query's. */
  lemma LookupPath(spec: Query, hierarchy: seq<string>, groupName: string, caseName: string)
    ensures var q := RegressionQuery(spec, hierarchy + [groupName], caseName);
      var n := |hierarchy|;
      && q.Keys == spec.Keys + {HierarchyKey}
      && (forall k :: k in spec && k != HierarchyKey ==> q[k] == spec[k])
      && q[HierarchyKey].List? && |q[HierarchyKey].items| == n + 2
      && (forall i :: 0 <= i < n ==> q[HierarchyKey].items[i] == Str(hierarchy[i]))
      && q[HierarchyKey].items[n] == Str(groupName)
      && q[HierarchyKey].items[n + 1] == Str(caseName)
  {
    var names := hierarchy + [groupName] + [caseName];
    assert hierarchy + [groupName] + [caseName] == names;
    assert names[|hierarchy|] == groupName && names[|hierarchy| + 1] == caseName;
    assert forall i :: 0 <= i < |hierarchy| ==> names[i] == hierarchy[i];
  }

  /** What the store finds for that query. */
  function FindRegression(db: Database, spec: Query, path: seq<string>, caseName: string): Option<Regression>
  {
    var q := RegressionQuery(spec, path, caseName);
    if q in db.regressions then Some(db.regressions[q]) else None
  }

  /** A case as the report leaves it: a failing case gets "never passed"
      without a record and its regression message with one; any other case
      is left as the store returned it. */
  ghost predicate CaseAnnotated(out: TestCase, c: TestCase, regr: Option<Regression>)
  {
    && out.name == c.name
    && out.status == c.status
    && (c.status != Fail ==> out.failureMessage == c.failureMessage)
    && (c.status == Fail && regr.None? ==> out.failureMessage == Some(NeverPassed))
    && (c.status == Fail && regr.Some? ==>
          RegressionMessage(regr.value.history).Some?
          && out.failureMessage == RegressionMessage(regr.value.history))
  }

  /** One step of the tally: the case's status counted once. */
  function StatusTally(s: Status): Tally
  {
    match s
    case Pass => Tally(1, 0, 0)
    case Fail => Tally(0, 1, 0)
    case Skip => Tally(0, 0, 1)
    case Other(_) => NoTests()
  }

  /** The tally of the first `n` cases. */
  function CaseTally(cases: seq<TestCase>, n: nat): Tally
    requires n <= |cases|
  {
    if n == 0 then NoTests()
    else CaseTally(cases, n - 1).Plus(StatusTally(cases[n - 1].status))
  }

  /** The `total` of a processed group. */
  function TotalOf(g: Group): Tally
  {
    if g.report.Some? then g.report.value.total else NoTests()
  }

  /** The `regressions` of a processed group. */
  function RegressionsOf(g: Group): nat
  {
    if g.report.Some? then g.report.value.regressions else 0
  }

  /** The totals of the first `n` groups added up. */
  function SumTotals(groups: seq<Group>, n: nat): Tally
    requires n <= |groups|
  {
    if n == 0 then NoTests()
    else SumTotals(groups, n - 1).Plus(TotalOf(groups[n - 1]))
  }

  /** The regressions of the first `n` groups added up. */
  function SumRegressions(groups: seq<Group>, n: nat): nat
    requires n <= |groups|
  {
    if n == 0 then 0
    else SumRegressions(groups, n - 1) + RegressionsOf(groups[n - 1])
  }

  /** The case stored under `id` fails and its regression lookup finds a record. */
  predicate IsRegressionHit(db: Database, spec: Query, path: seq<string>, id: Id)
  {
    id in db.cases && db.cases[id].status == Fail
    && FindRegression(db, spec, path, db.cases[id].name).Some?
  }

  /** The number of regression hits among the first `n` case ids. */
  function RegressionHits(db: Database, spec: Query, path: seq<string>, ids: seq<Id>, n: nat): nat
    requires n <= |ids|
  {
    if n == 0 then 0
    else RegressionHits(db, spec, path, ids, n - 1) + if IsRegressionHit(db, spec, path, ids[n - 1]) then 1 else 0
  }

  /** The sub-group tree below `ids` is at most `depth` levels deep (so it has
      no cycle and the recursion ends). */
  ghost predicate Bounded(db: Database, ids: seq<Id>, depth: nat)
    decreases depth
  {
    forall i :: 0 <= i < |ids| && ids[i] in db.groups ==>
      depth > 0 && Bounded(db, db.groups[ids[i]].subGroupIds, depth - 1)
  }

  /** The case id resolves, and if the case fails and its lookup finds a
      regression record, that record has at least two history entries. */
  predicate CaseProcessable(db: Database, spec: Query, path: seq<string>, id: Id)
  {
    && id in db.cases
    && var c := db.cases[id];
       var regr := FindRegression(db, spec, path, c.name);
       c.status == Fail && regr.Some? ==> |regr.value.history| >= 2
  }

  ghost predicate CasesProcessable(db: Database, spec: Query, path: seq<string>, ids: seq<Id>)
  {
    forall i :: 0 <= i < |ids| ==> CaseProcessable(db, spec, path, ids[i])
  }

  /** `out` is the case stored under `id`, annotated. */
  ghost predicate CaseAnnotatedAs(out: TestCase, db: Database, spec: Query, path: seq<string>, id: Id)
  {
    && id in db.cases
    && var c := db.cases[id];
       CaseAnnotated(out, c, FindRegression(db, spec, path, c.name))
  }

  /** Each case of `cases` is the case of the same position in `ids`, annotated. */
  ghost predicate CasesAnnotated(cases: seq<TestCase>, db: Database, spec: Query, path: seq<string>, ids: seq<Id>)
  {
    && |cases| == |ids|
    && forall i :: 0 <= i < |ids| ==> CaseAnnotatedAs(cases[i], db, spec, path, ids[i])
  }

  predicate StatusesKnown(cases: seq<TestCase>)
  {
    forall i :: 0 <= i < |cases| ==> KnownStatus(cases[i].status)
  }

  /** `_add_test_group_data` returns normally exactly for these groups: every
      case and sub-group id resolves, every regression history found for a
      failing case has two entries, every status is PASS, FAIL or SKIP, and
      the same holds of every sub-group. */
  ghost predicate Processable(g: Group, db: Database, spec: Query, hierarchy: seq<string>, depth: nat)
    decreases depth, 2
  {
    var path := hierarchy + [g.name];
    && CasesProcessable(db, spec, path, g.testCaseIds)
    && SubGroupsProcessable(db, spec, path, g.subGroupIds, depth)
    && forall i :: 0 <= i < |g.testCaseIds| && g.testCaseIds[i] in db.cases ==>
         KnownStatus(db.cases[g.testCaseIds[i]].status)
  }

  ghost predicate SubGroupsProcessable(db: Database, spec: Query, path: seq<string>, ids: seq<Id>, depth: nat)
    decreases depth, 1
  {
    forall i :: 0 <= i < |ids| ==> SubGroupProcessable(db, spec, path, ids[i], depth)
  }

  ghost predicate SubGroupProcessable(db: Database, spec: Query, path: seq<string>, id: Id, depth: nat)
    decreases depth, 0
  {
    && id in db.groups
    && depth > 0
    && Processable(db.groups[id], db, spec, path, depth - 1)
  }

  /** `out` is group `g` after `_add_test_group_data(g, db, spec, hierarchy)`:
      its own keys are kept; the cases and sub-groups are resolved in order
      and annotated, sub-groups with the path extended by this group's name;
      `total` is the own cases' tally plus the sub-groups' totals;
      `regressions` is the own failing cases with a record plus the
      sub-groups' regressions; `total_tests` is the sum of `total`. */
  ghost predicate Annotated(out: Group, g: Group, db: Database, spec: Query, hierarchy: seq<string>)
    decreases out
  {
    && out == g.(report := out.report)
    && out.report.Some?
    && var rep, path := out.report.value, hierarchy + [g.name];
       && CasesAnnotated(rep.testCases, db, spec, path, g.testCaseIds)
       && StatusesKnown(rep.testCases)
       && |rep.subGroups| == |g.subGroupIds|
       && (forall i :: 0 <= i < |g.subGroupIds| ==>
             && g.subGroupIds[i] in db.groups
             // true of any sequence; it lets Dafny see that the recursion ends
             && rep.subGroups[i] in rep.subGroups
             && Annotated(rep.subGroups[i], db.groups[g.subGroupIds[i]], db, spec, path))
       && rep.total == CaseTally(rep.testCases, |rep.testCases|).Plus(SumTotals(rep.subGroups, |rep.subGroups|))
       && rep.regressions == RegressionHits(db, spec, path, g.testCaseIds, |g.testCaseIds|)
                             + SumRegressions(rep.subGroups, |rep.subGroups|)
       && rep.totalTests == rep.total.Sum()
  }

  /** `_add_test_group_data`, returning the updated group (the source
      updates the dictionary in place) or the exception it raises. */
  method AddTestGroupData(group: Group, db: Database, spec: Query, hierarchy: seq<string>, ghost depth: nat)
    returns (r: Result<Group, ReportError>)
    requires Bounded(db, group.subGroupIds, depth)
    ensures r.Success? <==> Processable(group, db, spec, hierarchy, depth)
    ensures r.Success? ==> Annotated(r.value, group, db, spec, hierarchy)
    decreases depth, 2
  {
    var path := hierarchy + [group.name];
    var cases := AnnotateTestCases(group.testCaseIds, db, spec, path);
    if cases.Failure? {
      return Failure(cases.error);
    }
    var (testCases, regrCount) := cases.value;

    var subGroups := ResolveSubGroups(group.subGroupIds, db, spec, path, depth);
    if subGroups.Failure? {
      return Failure(subGroups.error);
    }

    var total := CountStatuses(testCases);
    if total.Failure? {
      forall i | 0 <= i < |group.testCaseIds|
        ensures testCases[i].status == db.cases[group.testCaseIds[i]].status
      {
        assert CaseAnnotatedAs(testCases[i], db, spec, path, group.testCaseIds[i]);
      }
      return Failure(total.error);
    }
    var sum := AddSubGroupTotals(total.value, subGroups.value);
    regrCount := regrCount + SumRegressions(subGroups.value, |subGroups.value|);

    var report := GroupReport(testCases, subGroups.value, regrCount, sum.Sum(), sum);
    r := Success(group.(report := Some(report)));
    assert r.value.report.value.subGroups == subGroups.value;
  }

  /** The test-case loop: resolve each case, and for a failing one look up
      its regression record under the group query with the hierarchy set to
      the path and the case name; count the records found. */
  method AnnotateTestCases(ids: seq<Id>, db: Database, spec: Query, path: seq<string>)
    returns (r: Result<(seq<TestCase>, nat), ReportError>)
    ensures r.Success? <==> CasesProcessable(db, spec, path, ids)
    ensures r.Success? ==> CasesAnnotated(r.value.0, db, spec, path, ids)
    ensures r.Success? ==> r.value.1 == RegressionHits(db, spec, path, ids, |ids|)
  {
    var regrSpec := spec;
    var regrCount := 0;
    var testCases: seq<TestCase> := [];
    var i := 0;
    while i < |ids|
      invariant 0 <= i <= |ids| && |testCases| == i
      invariant AgreesOutsideHierarchy(regrSpec, spec)
      invariant forall j :: 0 <= j < i ==> CaseProcessable(db, spec, path, ids[j])
      invariant forall j :: 0 <= j < i ==> CaseAnnotatedAs(testCases[j], db, spec, path, ids[j])
      invariant regrCount == RegressionHits(db, spec, path, ids, i)
    {
      var id := ids[i];
      if id !in db.cases {
        assert !CaseProcessable(db, spec, path, ids[i]);
        return Failure(MissingTestCase(id));
      }
      var testCase := db.cases[id];
      if testCase.status == Fail {
        QueryUpdate(regrSpec, spec, path, testCase.name);
        regrSpec := regrSpec[HierarchyKey := Hierarchy(path + [testCase.name])];
        var regr := if regrSpec in db.regressions then Some(db.regressions[regrSpec]) else None;
        if regr.Some? {
          var msg := RegressionMessage(regr.value.history);
          if msg.None? {
            assert !CaseProcessable(db, spec, path, ids[i]);
            return Failure(ShortHistory(testCase.name));
          }
          testCase := testCase.(failureMessage := msg);
          regrCount := regrCount + 1;
        } else {
          testCase := testCase.(failureMessage := Some(NeverPassed));
        }
      }
      assert CaseProcessable(db, spec, path, ids[i]);
      testCases := testCases + [testCase];
      i := i + 1;
    }
    return Success((testCases, regrCount));
  }

  /** The sub-group loop: resolve each sub-group and process it recursively
      with the extended path. */
  method ResolveSubGroups(ids: seq<Id>, db: Database, spec: Query, path: seq<string>, ghost depth: nat)
    returns (r: Result<seq<Group>, ReportError>)
    requires Bounded(db, ids, depth)
    ensures r.Success? <==> SubGroupsProcessable(db, spec, path, ids, depth)
    ensures r.Success? ==> |r.value| == |ids|
    ensures r.Success? ==> forall i :: 0 <= i < |ids| ==>
      ids[i] in db.groups && Annotated(r.value[i], db.groups[ids[i]], db, spec, path)
    decreases depth, 1
  {
    var subGroups: seq<Group> := [];
    var i := 0;
    while i < |ids|
      invariant 0 <= i <= |ids| && |subGroups| == i
      invariant forall j :: 0 <= j < i ==> SubGroupProcessable(db, spec, path, ids[j], depth)
      invariant forall j :: 0 <= j < i ==>
        ids[j] in db.groups && Annotated(subGroups[j], db.groups[ids[j]], db, spec, path)
    {
      var id := ids[i];
      if id !in db.groups {
        assert !SubGroupProcessable(db, spec, path, ids[i], depth);
        return Failure(MissingGroup(id));
      }
      var subGroup := AddTestGroupData(db.groups[id], db, spec, path, depth - 1);
      if subGroup.Failure? {
        assert !SubGroupProcessable(db, spec, path, ids[i], depth);
        return Failure(subGroup.error);
      }
      subGroups := subGroups + [subGroup.value];
      i := i + 1;
    }
    return Success(subGroups);
  }

  /** The loop `total[status] += 1` over the cases; a status other than
      PASS, FAIL or SKIP is not a key of `total` (KeyError). */
  method CountStatuses(testCases: seq<TestCase>) returns (r: Result<Tally, ReportError>)
    ensures r.Success? <==> StatusesKnown(testCases)
    ensures r.Success? ==> r.value == CaseTally(testCases, |testCases|)
  {
    var total := NoTests();
    var i := 0;
    while i < |testCases|
      invariant 0 <= i <= |testCases|
      invariant total == CaseTally(testCases, i)
      invariant forall j :: 0 <= j < i ==> KnownStatus(testCases[j].status)
    {
      var status := testCases[i].status;
      if status.Other? {
        return Failure(UnknownStatus(status));
      }
      total := total.Plus(StatusTally(status));
      i := i + 1;
    }
    return Success(total);
  }

  /** The loop adding every sub-group's `total` into `total`. */
  method AddSubGroupTotals(own: Tally, subGroups: seq<Group>) returns (total: Tally)
    ensures total == own.Plus(SumTotals(subGroups, |subGroups|))
  {
    total := own;
    var i := 0;
    while i < |subGroups|
      invariant 0 <= i <= |subGroups|
      invariant total == own.Plus(SumTotals(subGroups, i))
    {
      total := total.Plus(TotalOf(subGroups[i]));
      i := i + 1;
    }
  }
}
