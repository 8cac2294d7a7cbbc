/** `create_test_report`: the query a job's test groups are found by, the
    processing of every group found, and the subject line that sums up the
    tests and regressions of all of them. */
module TestReport {
  import opened Wrappers
  import opened Bson
  import opened Decimal
  import opened TestData
  import opened GroupData
  import opened GroupTotals
  import opened Strings

  /** The job meta-data the report is created from: field name to text. */
  type JobData = map<string, string>

  /** What the report is made of: the subject line, the processed groups and
      the repository details of the first group. */
  datatype Report = Report(subject: string, groups: seq<Group>, gitUrl: Value, gitCommit: Value)

  /** The keys read out of the job data, in the order they are read. */
  predicate HasJobKeys(data: JobData)
  {
    JobKey in data && GitBranchKey in data && KernelKey in data && PlanKey in data
  }

  /** The key whose lookup raises first when `data` lacks one of them. */
  function FirstMissingKey(data: JobData): (k: string)
    requires !HasJobKeys(data)
    ensures k !in data
    ensures k in {JobKey, GitBranchKey, KernelKey, PlanKey}
    ensures k != JobKey ==> JobKey in data
    ensures k != JobKey && k != GitBranchKey ==> GitBranchKey in data
    ensures k == PlanKey ==> KernelKey in data
  {
    if JobKey !in data then JobKey
    else if GitBranchKey !in data then GitBranchKey
    else if KernelKey !in data then KernelKey
    else PlanKey
  }

  /** The job data without the plan, as a query. */
  function QuerySpec(data: JobData): (spec: Query)
    ensures spec.Keys == data.Keys - {PlanKey}
    ensures forall k :: k in spec ==> spec[k] == Str(data[k])
  {
    map k | k in data && k != PlanKey :: Str(data[k])
  }

  /** The query of the top-level groups of a plan: the job's query with
      the plan as name and no parent. */
  function TopGroupQuery(spec: Query, plan: string): (q: Query)
    ensures q.Keys == spec.Keys + {NameKey, ParentIdKey}
    ensures q[NameKey] == Str(plan) && q[ParentIdKey] == Null
    ensures forall k :: k in spec && k != NameKey && k != ParentIdKey ==> q[k] == spec[k]
  {
    spec[NameKey := Str(plan)][ParentIdKey := Null]
  }

  /** The groups the store finds for a query (none if it knows no match). */
  function FindGroups(db: Database, q: Query): seq<Group>
  {
    if q in db.groupQueries then db.groupQueries[q] else []
  }

  /** The keys a top-level group contributes to its query. */
  function GroupKeys(): set<string>
  {
    {DeviceTypeKey, ArchitectureKey, BuildEnvironmentKey, DefconfigFullKey}
  }

  /** The query a top-level group's tree is processed with: the job's query
      with the group's device type, architecture, build environment and full
      defconfig; a group lacking one of them raises. */
  function PerGroupQuery(spec: Query, g: Group): (r: Result<Query, ReportError>)
    ensures r.Success? <==> GroupKeys() <= g.attrs.Keys
    ensures r.Success? ==> && r.value.Keys == spec.Keys + GroupKeys()
                           && (forall k :: k in GroupKeys() ==> r.value[k] == g.attrs[k])
                           && (forall k :: k in spec && k !in GroupKeys() ==> r.value[k] == spec[k])
    ensures r.Failure? ==> && r.error.MissingKey?
                           && r.error.key in GroupKeys() && r.error.key !in g.attrs
                           && (r.error.key != DeviceTypeKey ==> DeviceTypeKey in g.attrs)
                           && (r.error.key != DeviceTypeKey && r.error.key != ArchitectureKey
                               ==> ArchitectureKey in g.attrs)
                           && (r.error.key == DefconfigFullKey ==> BuildEnvironmentKey in g.attrs)
  {
    if DeviceTypeKey !in g.attrs then Failure(MissingKey(DeviceTypeKey))
    else if ArchitectureKey !in g.attrs then Failure(MissingKey(ArchitectureKey))
    else if BuildEnvironmentKey !in g.attrs then Failure(MissingKey(BuildEnvironmentKey))
    else if DefconfigFullKey !in g.attrs then Failure(MissingKey(DefconfigFullKey))
    else Success(spec[DeviceTypeKey := g.attrs[DeviceTypeKey]]
                     [ArchitectureKey := g.attrs[ArchitectureKey]]
                     [BuildEnvironmentKey := g.attrs[BuildEnvironmentKey]]
                     [DefconfigFullKey := g.attrs[DefconfigFullKey]])
  }

  /** The subject of each plan that has its own (`TEST_PLAN_OPTIONS`). */
  function PlanSubjects(): map<string, string>
  {
    map["v4l2-compliance-uvc" := "v4l2-compliance on uvcvideo",
        "v4l2-compliance-vivid" := "v4l2-compliance on vivid"]
  }

  /** The plan's own subject, or the plan name when it has none. */
  function PlanSubject(plan: string): (s: string)
    ensures plan == "v4l2-compliance-uvc" ==> s == "v4l2-compliance on uvcvideo"
    ensures plan == "v4l2-compliance-vivid" ==> s == "v4l2-compliance on vivid"
    ensures plan != "v4l2-compliance-uvc" && plan != "v4l2-compliance-vivid" ==> s == plan
  {
    if plan in PlanSubjects() then PlanSubjects()[plan] else plan
  }

  /** `"{}/{} {}: {} tests, {} regressions ({})".format(...)` */
  function Subject(job: string, branch: string, planSubject: string, tests: int, regressions: nat, kernel: string): (s: string)
    ensures |s| == |job| + |branch| + |planSubject| + |IntToString(tests)| + |NatToString(regressions)| + |kernel| + 27
    ensures s[..|job|] == job && s[|job|] == '/'
    ensures s[|s| - |kernel| - 1..] == kernel + ")"
  {
    job + "/" + branch + " " + planSubject + ": " + IntToString(tests) + " tests, "
      + NatToString(regressions) + " regressions (" + kernel + ")"
  }

  /** Where the pieces of a text shaped like a subject line sit. */
  lemma SubjectPieces(msg: string, prefix: string, digits: string, count: string, tail: string)
    requires msg == prefix + digits + " tests, " + count + " regressions (" + tail
    ensures var h, t, g := |prefix|, |digits|, |count|;
      && msg[..h] == prefix
      && msg[h..h + t] == digits
      && msg[h + t..h + t + 8] == " tests, "
      && msg[h + t + 8..h + t + 8 + g] == count
      && msg[h + t + 8 + g..h + t + 22 + g] == " regressions ("
  {
    var x1 := prefix + digits;
    var x2 := x1 + " tests, ";
    var x3 := x2 + count;
    var x4 := x3 + " regressions (";
    assert msg[..|x4|] == x4;
    Split(msg, x3, " regressions (");
    Split(msg, x2, count);
    Split(msg, x1, " tests, ");
    Split(msg, prefix, digits);
  }

  /** The subject's tests total reads back: after the job, branch and plan
      subject and ": " comes the number of tests, then " tests, ". */
  lemma SubjectTestsReadBack(job: string, branch: string, planSubject: string, tests: int, regressions: nat, kernel: string)
    ensures var msg, prefix := Subject(job, branch, planSubject, tests, regressions, kernel),
                               job + "/" + branch + " " + planSubject + ": ";
      var h, t := |prefix|, |IntToString(tests)|;
      && msg[..h] == prefix
      && ParseInt(msg[h..h + t]) == tests
      && msg[h + t..h + t + 8] == " tests, "
  {
    SubjectPieces(Subject(job, branch, planSubject, tests, regressions, kernel),
                  job + "/" + branch + " " + planSubject + ": ",
                  IntToString(tests), NatToString(regressions), kernel + ")");
    IntToStringRoundTrip(tests);
  }

  /** The subject's regressions total reads back: after " tests, " comes
      the number of regressions, then " regressions (". */
  lemma SubjectRegressionsReadBack(job: string, branch: string, planSubject: string, tests: int, regressions: nat, kernel: string)
    ensures var msg, prefix := Subject(job, branch, planSubject, tests, regressions, kernel),
                               job + "/" + branch + " " + planSubject + ": ";
      var h, t, g := |prefix|, |IntToString(tests)|, |NatToString(regressions)|;
      && ParseNat(msg[h + t + 8..h + t + 8 + g]) == regressions
      && msg[h + t + 8 + g..h + t + 22 + g] == " regressions ("
  {
    SubjectPieces(Subject(job, branch, planSubject, tests, regressions, kernel),
                  job + "/" + branch + " " + planSubject + ": ",
                  IntToString(tests), NatToString(regressions), kernel + ")");
    ParseNatToString(regressions);
  }

  /** `total_tests` of the first `n` groups added up. */
  function TestsTotal(groups: seq<Group>, n: nat): int
    requires n <= |groups|
  {
    if n == 0 then 0
    else TestsTotal(groups, n - 1) + if groups[n - 1].report.Some? then groups[n - 1].report.value.totalTests else 0
  }

  /** Every test case of the trees of the first `n` groups, in order. */
  function ReportCases(groups: seq<Group>, n: nat): seq<TestCase>
    requires n <= |groups|
  {
    if n == 0 then [] else ReportCases(groups, n - 1) + AllCases(groups[n - 1])
  }

  /** Every sub-group tree the store can hand out is at most `depth` deep. */
  ghost predicate TreesBounded(db: Database, depth: nat)
  {
    forall q, i :: q in db.groupQueries && 0 <= i < |db.groupQueries[q]| ==>
      Bounded(db, db.groupQueries[q][i].subGroupIds, depth)
  }

  /** The top-level group `g` can be processed: it has the four keys of its
      query and its tree can be processed under that query. */
  ghost predicate Reportable(g: Group, db: Database, spec: Query, depth: nat)
  {
    var q := PerGroupQuery(spec, g);
    q.Success? && Processable(g, db, q.value, [], depth)
  }

  /** `out` is the top-level group `g` after the report processed it. */
  ghost predicate Reported(out: Group, g: Group, db: Database, spec: Query)
  {
    var q := PerGroupQuery(spec, g);
    q.Success? && Annotated(out, g, db, q.value, [])
  }

  /** One step of that loop: the group's own query, then the group's tree. */
  method ProcessGroup(group: Group, db: Database, spec: Query, ghost depth: nat)
    returns (r: Result<Group, ReportError>)
    requires Bounded(db, group.subGroupIds, depth)
    ensures r.Success? <==> Reportable(group, db, spec, depth)
    ensures r.Success? ==> Reported(r.value, group, db, spec)
  {
    var groupSpec := PerGroupQuery(spec, group);
    if groupSpec.Failure? {
      return Failure(groupSpec.error);
    }
    r := AddTestGroupData(group, db, groupSpec.value, [], depth);
  }

  /** The loop over the groups found: each is processed under its own query
      with an empty hierarchy. */
  method ProcessGroups(groups: seq<Group>, db: Database, spec: Query, ghost depth: nat)
    returns (r: Result<seq<Group>, ReportError>)
    requires forall i :: 0 <= i < |groups| ==> Bounded(db, groups[i].subGroupIds, depth)
    ensures r.Success? <==> forall i :: 0 <= i < |groups| ==> Reportable(groups[i], db, spec, depth)
    ensures r.Success? ==> |r.value| == |groups|
    ensures r.Success? ==> forall i :: 0 <= i < |groups| ==> Reported(r.value[i], groups[i], db, spec)
  {
    var processed: seq<Group> := [];
    var i := 0;
    while i < |groups|
      invariant 0 <= i <= |groups| && |processed| == i
      invariant forall j :: 0 <= j < i ==> Reportable(groups[j], db, spec, depth)
      invariant forall j :: 0 <= j < i ==> Reported(processed[j], groups[j], db, spec)
    {
      var g := ProcessGroup(groups[i], db, spec, depth);
      if g.Failure? {
        return Failure(g.error);
      }
      processed := processed + [g.value];
      i := i + 1;
    }
    return Success(processed);
  }

  /** `create_test_report` up to the e-mail: `None` when no group matches,
      otherwise the subject, the processed groups and the first group's
      repository URL and commit; a missing key raises. */
  method CreateTestReport(data: JobData, db: Database, ghost depth: nat)
    returns (r: Result<Option<Report>, ReportError>)
    requires TreesBounded(db, depth)
    ensures !HasJobKeys(data) ==> r == Failure(MissingKey(FirstMissingKey(data)))
    ensures HasJobKeys(data) ==>
      var spec := QuerySpec(data);
      var found := FindGroups(db, TopGroupQuery(spec, data[PlanKey]));
      && (r == Success(None) <==> found == [])
      && (r.Success? <==>
            || found == []
            || ((forall i :: 0 <= i < |found| ==> Reportable(found[i], db, spec, depth))
                && GitUrlKey in found[0].attrs && GitCommitKey in found[0].attrs))
      && (r.Success? && r.value.Some? ==>
            var rep := r.value.value;
            var cases := ReportCases(rep.groups, |rep.groups|);
            && |rep.groups| == |found|
            && (forall i :: 0 <= i < |found| ==> Reported(rep.groups[i], found[i], db, spec))
            && rep.subject == Subject(data[JobKey], data[GitBranchKey], PlanSubject(data[PlanKey]),
                                      |cases|, RegressionsIn(cases), data[KernelKey])
            && RegressionsIn(cases) <= |cases|
            && rep.gitUrl == found[0].attrs[GitUrlKey]
            && rep.gitCommit == found[0].attrs[GitCommitKey])
  {
    if !HasJobKeys(data) {
      return Failure(MissingKey(FirstMissingKey(data)));
    }
    var job, branch, kernel, plan := data[JobKey], data[GitBranchKey], data[KernelKey], data[PlanKey];
    var spec := QuerySpec(data);
    var groups := FindGroups(db, TopGroupQuery(spec, plan));
    if groups == [] {
      return Success(None);
    }
    var processed := ProcessGroups(groups, db, spec, depth);
    if processed.Failure? {
      return Failure(processed.error);
    }
    var out := processed.value;
    forall i | 0 <= i < |out|
      ensures Summarizes(out[i])
    {
      assert Reported(out[i], groups[i], db, spec);
      TreeTotals(out[i], groups[i], db, PerGroupQuery(spec, groups[i]).value, []);
    }
    ReportTotals(out, |out|);
    RegressionsAtMostCases(ReportCases(out, |out|), |ReportCases(out, |out|)|);
    var testsTotal := TestsTotal(out, |out|);
    var regrTotal := SumRegressions(out, |out|);
    var subject := Subject(job, branch, PlanSubject(plan), testsTotal, regrTotal, kernel);
    assert out[0].attrs == groups[0].attrs;
    if GitUrlKey !in out[0].attrs {
      return Failure(MissingKey(GitUrlKey));
    }
    if GitCommitKey !in out[0].attrs {
      return Failure(MissingKey(GitCommitKey));
    }
    return Success(Some(Report(subject, out, out[0].attrs[GitUrlKey], out[0].attrs[GitCommitKey])));
  }

  /** The two numbers of the subject are the number of test cases in the
      trees of all the groups and the number of regressions among them. */
  lemma {:induction false} ReportTotals(out: seq<Group>, n: nat)
    requires n <= |out|
    requires forall i :: 0 <= i < n ==> Summarizes(out[i])
    ensures TestsTotal(out, n) == |ReportCases(out, n)|
    ensures SumRegressions(out, n) == RegressionsIn(ReportCases(out, n))
  {
    if n > 0 {
      ReportTotals(out, n - 1);
      assert Summarizes(out[n - 1]);
      RegressionsOfConcat(ReportCases(out, n - 1), AllCases(out[n - 1]));
    }
  }
}
