/**
 * The records the publisher works on: a collected test result, the entry
 * sent to TestRail for it, the session settings, the run/plan registry
 * entry, the POST requests issued and the transport replies received.
 */
module Records {
  import opened Wrappers

  /**
   * One executed test, as `add_result` builds it.  `comment` is `str` of the
   * failure representation (`None` is modelled as the empty text: both are
   * falsy and neither is ever printed); `testParametrize` is `None` for a
   * falsy value and `Some(text)` for a truthy one whose `str` is `text`.
   */
  datatype ResultEntry = ResultEntry(
    caseId: int,
    statusId: int,
    comment: string,
    duration: real,
    defects: Option<string>,
    testParametrize: Option<string>,
    suiteId: int,
    testComments: seq<string>)

  /** The TestRail-shaped entry sent for one result; `version` and `elapsed` are optional keys. */
  datatype WireEntry = WireEntry(
    statusId: int,
    caseId: int,
    defects: Option<string>,
    version: Option<string>,
    comment: string,
    elapsed: Option<string>)

  /**
   * The read-only session settings the actions consult.  Text settings that
   * may be `None` are modelled as text with `""` for `None` (both falsy);
   * `publishBlocked` keeps all three values because only `False` filters.
   */
  datatype Session = Session(
    testrunId: Option<int>,
    includeAll: Option<bool>,
    version: string,
    closeOnComplete: bool,
    publishBlocked: Option<bool>,
    customComment: string,
    diffCaseIds: seq<int>)

  /** Python truthiness of an optional id: `None` and `0` are falsy. */
  predicate IdSet(id: Option<int>) {
    id.Some? && id.value != 0
  }

  /** A value of `plan_entry_storage`: where one suite's results go. */
  datatype PlanEntry = PlanEntry(testplanEntryId: Option<int>, testrunId: int, caseIds: seq<int>)

  /** A test of a run, as `get_tests` lists it. */
  datatype TestRecord = TestRecord(caseId: int, statusId: int)

  /** The POST requests the core issues, with the payload fields it fills. */
  datatype Request =
    | AddResultsReq(runId: int, results: seq<WireEntry>)
    | AddRunReq(projectId: int, suiteId: int, name: string, description: string,
                assignedTo: Option<int>, includeAll: Option<bool>, caseIds: seq<int>,
                milestoneId: Option<int>)
    | AddPlanEntryReq(planId: int, suiteId: int, name: string, description: string,
                      assignedTo: Option<int>, includeAll: Option<bool>, caseIds: seq<int>)
    | AddPlanReq(projectId: int, name: string, description: string, milestoneId: Option<int>)
    | UpdateRunReq(runId: int, caseIds: seq<int>, includeAll: Option<bool>)
    | UpdatePlanEntryReq(planId: int, entryId: int, caseIds: seq<int>, includeAll: Option<bool>)
    | CloseRunReq(runId: int)
    | ClosePlanReq(planId: int)

  /**
   * Transport replies, as the client's `get_error` and the fields read from
   * the response see them.  `error == ""` means `get_error` found nothing.
   */
  datatype Reply<T> = Reply(error: string, body: T)
  datatype CreateReply = CreateReply(error: string, id: int)
  datatype PlanEntryReply = PlanEntryReply(error: string, id: int, runIds: seq<int>)
  datatype RunReply = RunReply(error: string, isCompleted: Option<bool>)
  datatype RunInfo = RunInfo(id: int, isCompleted: Option<bool>)
  datatype EntryInfo = EntryInfo(id: int, runs: seq<RunInfo>)
  /** `entries == None` stands for a response without an `entries` key. */
  datatype PlanReply = PlanReply(error: string, isCompleted: Option<bool>, entries: Option<seq<EntryInfo>>)

  /**
   * `add_result`: the record of one test outcome.  The defaults are those of
   * the source; a missing or empty list of test comments becomes `[]`.
   */
  function AddResult(testId: int, status: int, comment: string := "", defects: Option<string> := None,
                     duration: real := 0.0, testParametrize: Option<string> := None, suiteId: int := 0,
                     testComments: Option<seq<string>> := None): (r: ResultEntry)
    ensures r.caseId == testId && r.statusId == status && r.comment == comment
    ensures r.duration == duration && r.defects == defects
    ensures r.testParametrize == testParametrize && r.suiteId == suiteId
    ensures testComments.Some? ==> r.testComments == testComments.value
    ensures testComments.None? ==> r.testComments == []
  {
    ResultEntry(testId, status, comment, duration, defects, testParametrize, suiteId,
                if testComments.Some? then testComments.value else [])
  }
}
