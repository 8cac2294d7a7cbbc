/** The documents the test report reads: test cases, test groups and
    regression records, and the store they are read from. */
module TestData {
  import opened Wrappers
  import opened Bson

  type Id = string

  /** A query: field name to the value it must have. */
  type Query = Doc

  /** Status text other than the three the report tallies. */
  type OtherText = t: string | t != "PASS" && t != "FAIL" && t != "SKIP" witness ""

  /** A test case's status string: the three the report tallies, and any
      other text. */
  datatype Status = Pass | Fail | Skip | Other(text: OtherText)

  // Field names of the documents and queries.
  const NameKey := "name"
  const HierarchyKey := "hierarchy"
  const ParentIdKey := "parent_id"
  const JobKey := "job"
  const GitBranchKey := "git_branch"
  const KernelKey := "kernel"
  const PlanKey := "plan"
  const DeviceTypeKey := "device_type"
  const ArchitectureKey := "arch"
  const BuildEnvironmentKey := "build_environment"
  const DefconfigFullKey := "defconfig_full"
  const GitUrlKey := "git_url"
  const GitCommitKey := "git_commit"

  /** One entry of a regression's history: the kernel it ran on and when it
      was created, in whole seconds. */
  datatype RegressionEntry = RegressionEntry(kernel: string, created: int)

  /** A regression record: the last pass followed by every failure since. */
  datatype Regression = Regression(history: seq<RegressionEntry>)

  /** A test case; `failureMessage` is the `failure_message` key, absent
      until the report adds it. */
  datatype TestCase = TestCase(name: string, status: Status, failureMessage: Option<string>)

  /** The per-status tally of a group (the `total` dictionary). */
  datatype Tally = Tally(pass: int, fail: int, skip: int)
  {
    function Plus(other: Tally): Tally
    {
      Tally(pass + other.pass, fail + other.fail, skip + other.skip)
    }

    /** `sum(total.values())` */
    function Sum(): int
    {
      pass + fail + skip
    }
  }

  /** Adding tallies is associative. */
  lemma PlusAssociative(x: Tally, y: Tally, z: Tally)
    ensures x.Plus(y).Plus(z) == x.Plus(y.Plus(z))
  {
  }

  function NoTests(): Tally
  {
    Tally(0, 0, 0)
  }

  /** A test group: its name, the other fields it is queried by, the ids of
      its test cases and sub-groups, and the keys the report adds to it. */
  datatype Group = Group(
    name: string,
    attrs: Doc,
    testCaseIds: seq<Id>,
    subGroupIds: seq<Id>,
    report: Option<GroupReport>)

  /** The keys `_add_test_group_data` writes into a group: `test_cases`,
      `sub_groups`, `regressions`, `total_tests` and `total`. */
  datatype GroupReport = GroupReport(
    testCases: seq<TestCase>,
    subGroups: seq<Group>,
    regressions: nat,
    totalTests: int,
    total: Tally)

  /** What the store answers: a document by id, the regression record a
      query finds (if any), and the groups a query finds. */
  datatype Database = Database(
    cases: map<Id, TestCase>,
    groups: map<Id, Group>,
    regressions: map<Query, Regression>,
    groupQueries: map<Query, seq<Group>>)

  /** The exceptions the report lets propagate. */
  datatype ReportError =
    | MissingTestCase(caseId: Id)       // find_one2 returned None for a test case
    | MissingGroup(groupId: Id)         // find_one2 returned None for a sub-group
    | ShortHistory(caseName: string)    // regression history with fewer than two entries
    | UnknownStatus(status: Status)     // a status that is not a key of `total`
    | MissingKey(key: string)           // a key absent from the job data or a group
}
