# KernelCI backend: test report aggregation and the job document

This project models two pieces of the KernelCI backend in Dafny and proves
properties of them.

**The test report** (`app/utils/report/test.py`). A job's test results are
stored as a tree of test groups. Each group holds test cases and sub-groups,
and both are referenced by id.

`_add_test_group_data` walks that tree. For each group it:

- resolves every case;
- gives each `FAIL` case a `failure_message`: the message built by
  `_regression_message` from its regression record, or `"never passed"`
  when there is none;
- counts the regressions;
- tallies `PASS`, `FAIL` and `SKIP` over the group and all its sub-groups;
- writes `test_cases`, `sub_groups`, `regressions`, `total_tests` and `total`
  into the group.

`create_test_report` builds the queries from the job's data and finds the
plan's top-level groups. It processes each one and sums their numbers into
the subject line `"{job}/{branch} {plan}: {N} tests, {R} regressions ({kernel})"`.

**The job document** (`app/models/job.py`). `JobDocument` is a record with
six settable fields: `private`, `job`, `kernel`, `status`, `updated` and
`metadata`. `to_dict` writes those fields over the base document's dictionary.
`from_json` pops the id from a dictionary and builds a document named by it.
Then, through `setattr`, it assigns every key that remains.

Files:

- `wrappers.dfy`: `Option` and `Result`.
- `bson.dfy`: document values (`Value`) and documents (`Doc`).
- `strings.dfy`: where the pieces of a concatenated text sit.
- `decimal.dfy`: decimal rendering of integers, as `"{}".format(n)` does, and
  parsing it back.
- `test_data.dfy`: the documents the report reads, the store, and the
  exceptions the report lets escape.
- `regressions.dfy`: `_regression_message`.
- `group_data.dfy`: `_add_test_group_data` and its loops, as methods proved
  against predicates on the store.
- `group_totals.dfy`: what the numbers written into a group mean for its whole
  tree of cases.
- `test_report.dfy`: `create_test_report` up to the e-mail.
- `job.dfy`: `JobDocument` as a class, plus `to_dict`, `setattr`, `from_json`
  and the round trip.

Each exception the source raises on the data it reads becomes a `Failure`
result, not a precondition: a missing case or group id, an unknown status,
a regression history that is too short, a missing key in the job data or in
a top-level group, and an id missing from the dictionary `from_json` gets.
The fields the model gives every document (a case's name and status, a
group's name and id lists, a record's history, an entry's kernel and
creation time) are always present; the errors their absence would raise are
listed under "## Left out". Each of the group methods
states exactly when it succeeds (an if-and-only-if) and what it returns when
it does.

## Model

| member | source | states |
|---|---|---|
| Regressions.Days | app/utils/report/test.py:88 | `delta.days` over whole seconds is the number of whole days from the first to the latest failure, rounded down |
| Regressions.Plural | app/utils/report/test.py:89 | the ending is "s" exactly when the number of days is above one, and empty for 0 and 1 |
| Regressions.RegressionMessage | app/utils/report/test.py:79-92 | fails (indexing error) exactly when the history has fewer than two entries; with exactly two it is "new failure (last pass: K)" with K the kernel of the first entry |
| Regressions.MessageReadsBack | app/utils/report/test.py:88-92 | with more than two entries the message starts "failing since N day", N reads back as the whole days between the first failure (entry 1) and the latest (the last entry), and an "s" follows exactly when N > 1 |
| Regressions.MessageNamesKernels | app/utils/report/test.py:90-92 | with more than two entries the message ends " (last pass: K0, first fail: K1)", with K0 the kernel of entry 0 and K1 that of entry 1 |
| Regressions.MessageIsNotNeverPassed | app/utils/report/test.py:110-112 | no regression message equals "never passed", so cases with and without a regression record stay distinguishable |
| Decimal.IntToStringRoundTrip | app/utils/report/test.py:90-92 | the decimal text of any integer, as `format` renders it, parses back to the same integer |
| GroupData.LookupPath | app/utils/report/test.py:96-109 | a case's regression lookup uses the ancestor group names, then the group's own name, then the case name as `hierarchy`; every other key of the query is the group query's |
| GroupData.QueryUpdate | app/utils/report/test.py:100-109 | overwriting `hierarchy` in the query left by earlier cases yields that case's own lookup query, so the reused `regr_spec` dictionary carries nothing over from one case to the next |
| GroupData.AddTestGroupData | app/utils/report/test.py:95-140 | succeeds exactly when every case and sub-group id in the tree resolves, every regression history found for a failing case has two or more entries, and every status is PASS, FAIL or SKIP. On success the group's other fields are unchanged and it gains annotated cases, processed sub-groups (with the path extended by its name), `total` = own tally + sub-groups' totals, `regressions` = own failing cases with a record + sub-groups' regressions, and `total_tests` = the sum of `total` |
| GroupData.AnnotateTestCases | app/utils/report/test.py:100-115 | resolves the ids in order and fails exactly when one is missing or a failing case's regression history has fewer than two entries; on success the cases come in the order of the ids and each FAIL case gets "never passed" without a record and its regression message with one, other cases keep their message; the count returned is the number of failing cases with a record |
| GroupData.ResolveSubGroups | app/utils/report/test.py:117-121 | resolves and processes every sub-group in order, under the path of the group above them; fails exactly when one of them is missing or cannot be processed |
| GroupData.CountStatuses | app/utils/report/test.py:123-126 | fails (KeyError on `total`) exactly when some status is not PASS, FAIL or SKIP; otherwise returns the per-status tally of the cases |
| GroupData.AddSubGroupTotals | app/utils/report/test.py:128-130 | the result is the own tally plus every sub-group's `total`, status by status |
| GroupTotals.TreeTotals | app/utils/report/test.py:123-138 | for a processed group, `total` is the per-status tally of every case in its whole tree, every status there is known, `total_tests` is the number of those cases, and `regressions` is the number of them that fail with a regression message |
| GroupTotals.CombineTotals | app/utils/report/test.py:123-138 | the numbers of one level (own cases plus sub-groups' numbers) describe the group's tree whenever every sub-group's numbers describe its own tree |
| GroupTotals.SubTreeTotals | app/utils/report/test.py:128-132 | the sub-groups' totals and regressions add up to the tally and the regression count of all the cases below them |
| GroupTotals.OwnRegressions | app/utils/report/test.py:106-114 | the regressions counted while the cases are annotated are the failing cases whose message is not "never passed" |
| GroupTotals.KnownTallySum | app/utils/report/test.py:125-126 | when every status is PASS, FAIL or SKIP the three counts of the tally add up to the number of cases |
| GroupTotals.TallyOfConcat | app/utils/report/test.py:125-130 | the tally of two runs of cases is the sum of their tallies |
| GroupTotals.RegressionsOfConcat | app/utils/report/test.py:132 | the regressions of two runs of cases add up |
| GroupTotals.RegressionsAtMostCases | app/utils/report/test.py:113-114 | there are never more regressions than cases |
| TestReport.FirstMissingKey | app/utils/report/test.py:160-165 | the key reported missing is the first of job, git_branch, kernel and plan, in that order, that the job data lacks: it is absent and every key before it is present |
| TestReport.QuerySpec | app/utils/report/test.py:169 | the query holds every field of the job data except the plan, with the same values |
| TestReport.TopGroupQuery | app/utils/report/test.py:170-174 | the top-level group query is the job's query with `name` set to the plan and `parent_id` set to None; every other key keeps its value |
| TestReport.PlanSubject | app/utils/report/test.py:61-76 | the two v4l2-compliance plans have their own subjects (`TEST_PLAN_OPTIONS`); every other plan's subject is its own name, as `.get("subject", plan)` at lines 167 and 200 gives |
| TestReport.Subject | app/utils/report/test.py:201-202 | the subject starts with the job followed by "/", ends with the kernel followed by ")", and its length is that of its six parts plus the 27 characters of fixed text |
| TestReport.PerGroupQuery | app/utils/report/test.py:186-194 | the per-group query exists exactly when the group has device type, architecture, build environment and full defconfig; it is then the job query with those four keys added and set to the group's values, every other key keeping the job query's value; otherwise the key reported missing is the first of the four, in that order, that the group lacks |
| TestReport.ProcessGroup | app/utils/report/test.py:186-195 | one top-level group: succeeds exactly when it has its four query keys and its tree can be processed under that query with an empty hierarchy, and returns it processed |
| TestReport.ProcessGroups | app/utils/report/test.py:185-195 | succeeds exactly when every top-level group has its four query keys and its tree can be processed under its query with an empty hierarchy; every group is then processed in order |
| TestReport.ReportTotals | app/utils/report/test.py:197-198 | the summed `total_tests` is the number of cases in the trees of all the groups, and the summed `regressions` is the number of regressions among them |
| TestReport.CreateTestReport | app/utils/report/test.py:143-205 | a missing job key fails with the first one missing. With no group found for the data minus the plan, plus name = plan and parent_id = None, the result is None. Otherwise it succeeds exactly when every group can be processed and the first one has git_url and git_commit. The subject then carries job, branch, the plan's subject (or the plan's name), the number of cases in all the trees, the number of regressions among them (never more than the cases), and the kernel |
| TestReport.SubjectTestsReadBack | app/utils/report/test.py:200-202 | after "{job}/{branch} {plan}: " the subject holds the tests total, which reads back as the same number, followed by " tests, " |
| TestReport.SubjectRegressionsReadBack | app/utils/report/test.py:200-202 | after " tests, " the subject holds the regressions total, which reads back as the same number, followed by " regressions (" |
| Job.JobDocument.constructor | app/models/job.py:55-63 | a new document has private False, status and updated None, metadata {}, job and kernel as given, and no other attribute |
| Job.JobDocument.Collection | app/models/job.py:65-67 | the collection is always "job" |
| Job.JobDocument.SetPrivate | app/models/job.py:77-80 | sets `private` and changes no other field |
| Job.JobDocument.SetJob | app/models/job.py:87-90 | sets `job` and changes no other field |
| Job.JobDocument.SetKernel | app/models/job.py:97-100 | sets `kernel` and changes no other field |
| Job.JobDocument.SetUpdated | app/models/job.py:111-117 | sets `updated` and changes no other field |
| Job.JobDocument.SetStatus | app/models/job.py:124-130 | sets `status` and changes no other field |
| Job.JobDocument.SetMetadata | app/models/job.py:140-146 | sets `metadata` and changes no other field |
| Job.JobFields.Set | app/models/job.py:77-146 | after setting a field, its getter returns the value set and every other getter returns what it did before |
| Job.JobDict | app/models/job.py:148-156 | the dictionary has the base keys plus the six field keys; each field key holds the field's value (overwriting a same-named base key) and every other base key keeps its value |
| Job.JobDocument.ToDict | app/models/job.py:148-156 | returns that dictionary for the document's current fields and modifies nothing |
| Job.FieldOf | app/models/job.py:69-146 | an attribute name assigns a field exactly when it is the field's property name or its backing attribute |
| Job.JobDocument.SetAttribute | app/models/job.py:65-146 | `setattr`: a property or backing name sets only that field; `collection` has no setter and fails; any other name becomes an extra attribute; the name never changes |
| Job.ExtraAttributes | app/models/job.py:170-172 | the extra attributes are exactly the assigned keys that name no field, with their values |
| Job.FromJson | app/models/job.py:159-174 | without the id key it fails and leaves the dictionary alone. Otherwise it removes the id from the caller's dictionary, names a new document by it, and fails only if "collection" is among the keys. On success each field holds the value of its key (or backing key) when present and its constructor default otherwise, and the other keys are extra attributes |
| Job.LoadedAfterAssign | app/models/job.py:170-172 | assigning one more key keeps the fields and extra attributes in step with the keys assigned so far |
| Job.FieldAfterAssign | app/models/job.py:170-172 | a field holds the value of the key just assigned when the key is its property or backing name, and keeps its value otherwise |
| Job.ExtraAfterAssign | app/models/job.py:170-172 | a key naming no field adds one extra attribute; a key naming a field leaves them unchanged |
| Job.RoundTripFields | app/models/job.py:148-172 | loading a `to_dict` result without its id restores the six fields exactly, and the extra attributes are the base dictionary's other keys |
| Job.FieldRestored | app/models/job.py:148-172 | one field after the round trip equals the field it was written from |
| Job.ExtraRestored | app/models/job.py:148-172 | the extra attributes after the round trip are the base keys that are neither the id nor a field key |
| Job.Reload | app/models/job.py:148-172 | `from_json(to_dict())` succeeds on a fresh document with the same six fields, named by the base dictionary's id |

## Left out

- The database: `get_db_connection`, `find`, `find_one2` and the collections
  are a `Database` value of finite maps. Cases and groups are looked up by id.
  A regression record is looked up by the exact query. The groups `find`
  returns are listed per query and are taken as already projected to
  `TEST_REPORT_FIELDS`.
- The e-mail: `create_txt_email`, the headers, the template, its parameters,
  `BOOT_LOG*` and the storage URL. The report returns the subject, the
  processed groups, and `git_url` and `git_commit`. It does not return the
  rendered body.
- Logging (`utils.LOG`).
- `from_json` on a JSON string (`json_util.loads`). Only the dictionary path
  is modelled.
- `BaseDocument`. Only the name given to its constructor is kept. The base
  dictionary its `to_dict` returns is a parameter of `ToDict`.
- `ID_FORMAT` and `METADATA_KEYS`. They are declared in the class but never
  used by the modelled code.
- Job.JobDocument.SetAttribute: Python's `setattr` on any other name adds an
  instance attribute. It is kept in `extra`, not as a real attribute.
  Attributes of the base class other than the name are not modelled.
- Job.FromJson: the dictionary is iterated in an unspecified order, modelled
  by a nondeterministic choice. When both `job` and `_job` (say) are present,
  the contract says only that the field holds one of the two values.
- Job.Reload: it requires the base dictionary to have the id, to have no
  `collection` key, and to have no key named like a backing attribute
  (`_job`, ...). Without these the round trip does not hold: the first two
  make `from_json` fail, and the last lets a base key overwrite a field.
- Timestamps are whole seconds (`created: int`), not `datetime`.
  `delta.days` is floor division by 86400.
- Status strings are the datatype `Status`: `Pass`, `Fail`, `Skip`, or
  `Other` for any other text (a subset type excludes "PASS", "FAIL" and
  "SKIP" from it).
- Documents always have the fields the model reads. The `KeyError` or
  `TypeError` the source raises on a case without `status` or `name`
  (app/utils/report/test.py:106, 108), a group without `name`, `test_cases`
  or `sub_groups` (lines 96, 104, 118), a regression record without its
  `regressions` list (line 111), or a history entry without `kernel` or
  `created` (lines 86, 88, 91-92) is not modelled.
- Job.JobDocument.ToDict: the source puts the document's own `_metadata`
  object into the dictionary, so changing the dictionary's `metadata` later
  changes the document too. The model returns values, and this sharing is
  not captured.
- Job.FromJson: the source stores the caller's own objects (such as the
  `metadata` dictionary) in the document, so later changes through either
  reference show in both. The model copies values, and this sharing is not
  captured.
- GroupData.AddTestGroupData: `group.update` writes the resolved lists under
  `test_cases` and `sub_groups`. With KernelCI's key names these are the keys
  that held the id lists, so the source replaces the ids with the documents.
  The model keeps the ids (`testCaseIds`, `subGroupIds`) next to the resolved
  documents (`report`). The key constants themselves are not part of this
  model.
- Text is modelled as sequences of Unicode characters. The source runs on
  Python 2, where `str.format` on a byte-string template and `setattr` raise
  `UnicodeEncodeError` for a unicode argument with a non-ASCII character
  (test.py:85-86, 90-92 and 201-202; job.py:172). `Regressions.NewFailure`,
  `Regressions.FailingSince`, `TestReport.Subject` and `Job.FromJson` succeed
  on any text: these encoding errors are not modelled.
- Job data values are strings.
- The field-name constants of `models/__init__.py` are not part of this
  model. The names used (`"_id"`, `"name"`, `"hierarchy"`, ...) are
  KernelCI's.
- GroupData.AddTestGroupData: the source recurses through sub-group ids
  without any guard, so a cycle would recurse until the interpreter's stack
  gives out. The model requires the sub-group tree to have a finite height
  (`Bounded`, and `TreesBounded` for `CreateTestReport`) and does not model a
  cyclic store.
- GroupData.AddTestGroupData: the source updates the group and test-case
  dictionaries in place. The model returns the updated group as a new value,
  so aliasing between two references to one document is not modelled.
- GroupData.AddSubGroupTotals: the source iterates over each sub-group's
  `total` dictionary. The model adds tallies status by status, which is the
  same because a `total` only ever has the keys PASS, FAIL and SKIP.
