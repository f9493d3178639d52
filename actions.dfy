/**
 * `TestrailActions`: the registry of runs and plan entries per suite, the
 * plan and plan-entry ids, and the POSTs sent to TestRail.  The transport is
 * an oracle: each method receives the replies it would read, and `posted`
 * records every POST in order.
 */
module Actions {
  import opened Wrappers
  import opened Seqs
  import opened PyText
  import opened Records
  import opened Ordering
  import opened Chunking
  import opened Routing
  import opened Queries
  import opened Publishing

  /**
   * The suites of the registry in the order `plan_entry_storage` iterates
   * them: a new key goes last and re-storing a key keeps its place.
   */
  function InsertKey(order: seq<int>, k: int): (r: seq<int>)
    ensures forall x :: x in r <==> x in order || x == k
    ensures NoDups(order) ==> NoDups(r)
    ensures k in order ==> r == order
    ensures k !in order ==> r == order + [k]
    ensures order != [] ==> |r| >= 1 && r[0] == order[0]
    ensures order == [] ==> r == [k]
  {
    if k in order then order else order + [k]
  }

  /**
   * `list(set(tr_keys + current_tests))`: every case of either list, each
   * once.  Python leaves the order to the set; this model keeps first
   * occurrences.
   */
  function MergedCases(trKeys: seq<int>, current: seq<int>): (r: seq<int>)
    ensures forall c :: c in r <==> c in trKeys || c in current
    ensures NoDups(r)
  {
    var r := Dedup(trKeys + current);
    assert forall c :: c in r <==> c in ToSet(r);
    assert forall c :: c in trKeys + current <==> c in ToSet(trKeys + current);
    r
  }

  /**
   * The cases currently in a run, as the update operations read them: the
   * case list of `get_tests` when `savePrevious`, else none.  `caseList`
   * stands for `get_case_list`, a helper outside this model.
   */
  function CurrentCases(savePrevious: bool, tests: Reply<seq<TestRecord>>,
                        caseList: seq<TestRecord> -> seq<int>): (r: seq<int>)
    ensures !savePrevious ==> r == []
    ensures savePrevious ==> r == caseList(ListOrEmpty(tests))
  {
    if savePrevious then caseList(ListOrEmpty(tests)) else []
  }

  class TestrailActions {
    /** The session settings of `testrail_data` that the actions only read. */
    const session: Session
    /** `COMMENT_SIZE_LIMIT`. */
    const commentLimit: nat
    /** `TESTRAIL_TEST_STATUS["blocked"]`. */
    const blockedStatus: int

    /** `plan_entry_storage`: where the results of each suite go. */
    var storage: map<int, PlanEntry>
    /** The keys of `storage` in insertion order. */
    var suiteOrder: seq<int>
    var testplanId: Option<int>
    var testplanEntryId: Option<int>
    /** Every POST issued so far, in order. */
    var posted: seq<Request>

    /** `suiteOrder` lists the keys of `storage`, each once. */
    ghost predicate Valid()
      reads this
    {
      NoDups(suiteOrder) && forall k :: k in storage <==> k in suiteOrder
    }

    /**
     * `TestrailActions(testrail_data)`: adopts the session's registry (with
     * the order of its keys), plan id and plan-entry id; nothing is posted yet.
     */
    constructor (session: Session, commentLimit: nat, blockedStatus: int,
                 storage: map<int, PlanEntry>, suiteOrder: seq<int>,
                 testplanId: Option<int>, testplanEntryId: Option<int>)
      requires NoDups(suiteOrder) && forall k :: k in storage <==> k in suiteOrder
      ensures Valid()
      ensures this.session == session && this.commentLimit == commentLimit && this.blockedStatus == blockedStatus
      ensures this.storage == storage && this.suiteOrder == suiteOrder && posted == []
      ensures this.testplanId == testplanId && this.testplanEntryId == testplanEntryId
    {
      this.session := session;
      this.commentLimit := commentLimit;
      this.blockedStatus := blockedStatus;
      this.storage := storage;
      this.suiteOrder := suiteOrder;
      this.testplanId := testplanId;
      this.testplanEntryId := testplanEntryId;
      posted := [];
    }

    /** `plan_entry_storage[suite] = entry`. */
    method Store(suite: int, entry: PlanEntry)
      requires Valid()
      modifies this`storage, this`suiteOrder
      ensures Valid()
      ensures storage == old(storage)[suite := entry]
      ensures suiteOrder == InsertKey(old(suiteOrder), suite)
    {
      suiteOrder := InsertKey(suiteOrder, suite);
      storage := storage[suite := entry];
    }

    /**
     * The first half of `_add_results`: the results sorted by case id, less
     * the cases `tests` (the `get_tests` reply) reports as blocked when
     * `publish_blocked` is `False`.
     */
    method SelectSent(results: seq<ResultEntry>, tests: Reply<seq<TestRecord>>) returns (sent: seq<ResultEntry>)
      ensures sent == SentResults(results, session, ListOrEmpty(tests), blockedStatus)
    {
      sent := SortByCase(results);
      if session.publishBlocked == Some(false) {
        var blockedCases := BlockedCases(ListOrEmpty(tests), blockedStatus);
        sent := DropBlocked(sent, blockedCases);
      }
    }

    /** The second loop of `_add_results`: one POST per chunk; a POST error is only reported. */
    method PostChunks(runId: int, chunks: seq<seq<WireEntry>>)
      modifies this`posted
      ensures posted == old(posted) + ResultPosts(runId, chunks)
    {
      for i := 0 to |chunks|
        invariant posted == old(posted) + ResultPosts(runId, chunks[..i])
      {
        assert chunks[..i + 1][..i] == chunks[..i];
        posted := posted + [AddResultsReq(runId, chunks[i])];
      }
      assert chunks[..|chunks|] == chunks;
    }

    /**
     * `_add_results(runId, results)`: selects the results to send, packs
     * their entries into chunks and posts every chunk.
     */
    method AddResults(runId: int, results: seq<ResultEntry>, tests: Reply<seq<TestRecord>>, size: Measure)
      modifies this`posted
      ensures posted == old(posted) +
        RunRequests(runId, results, session, ListOrEmpty(tests), blockedStatus, commentLimit, size)
    {
      var sent := SelectSent(results, tests);
      var chunks := PackChunks(sent, session, commentLimit, size);
      PostChunks(runId, chunks);
    }

    /** `close_test_run`: posts the close; a reply error is only reported. */
    method CloseTestRun(runId: int)
      modifies this`posted
      ensures posted == old(posted) + [CloseRunReq(runId)]
    {
      posted := posted + [CloseRunReq(runId)];
    }

    /** `close_test_plan`: posts the close; a reply error is only reported. */
    method CloseTestPlan(planId: int)
      modifies this`posted
      ensures posted == old(posted) + [ClosePlanReq(planId)]
    {
      posted := posted + [ClosePlanReq(planId)];
    }

    /**
     * The routing half of `publish_results`: no batch for an empty result
     * list, else the filtered results (`filter` stands for
     * `filter_publish_results`) for the configured run or grouped by stored
     * run.
     */
    method PlanBatches(results: seq<ResultEntry>, filter: Filter) returns (plan: Ret<seq<Batch>>)
      requires Valid()
      ensures plan == PublishPlan(results, session, filter, storage, suiteOrder)
    {
      if results == [] {
        return Returned([]);
      }
      var kept := filter(results, session.diffCaseIds);
      if IdSet(session.testrunId) {
        if suiteOrder == [] {
          return Raised(IndexError);
        }
        var buckets := BucketFixed(kept.0, kept.1, storage, suiteOrder[0]);
        var run := session.testrunId.value;
        if run !in buckets {
          return Raised(AttributeError);
        }
        return Returned([Batch(run, buckets[run])]);
      }
      plan := GroupByRun(kept.0, kept.1, storage);
    }

    /** The posting half: one `_add_results` call per batch, in order. */
    method PostBatches(batches: seq<Batch>, testsOf: int -> Reply<seq<TestRecord>>, size: Measure)
      modifies this`posted
      ensures posted == old(posted) + BatchRequests(batches, session, testsOf, blockedStatus, commentLimit, size)
    {
      for j := 0 to |batches|
        invariant posted == old(posted) + BatchRequests(batches[..j], session, testsOf, blockedStatus, commentLimit, size)
      {
        var b := batches[j];
        ghost var done := BatchRequests(batches[..j], session, testsOf, blockedStatus, commentLimit, size);
        ghost var step := RunRequests(b.runId, b.results, session, ListOrEmpty(testsOf(b.runId)),
                                      blockedStatus, commentLimit, size);
        AddResults(b.runId, b.results, testsOf(b.runId), size);
        assert posted == old(posted) + done + step;
        BatchRequestsSnoc(batches[..j], b, session, testsOf, blockedStatus, commentLimit, size);
        assert batches[..j + 1] == batches[..j] + [b];
        assert BatchRequests(batches[..j + 1], session, testsOf, blockedStatus, commentLimit, size) == done + step;
        ConcatAssoc(old(posted), done, step);
      }
      assert batches[..|batches|] == batches;
    }

    /**
     * `publish_results`: routes the results, calls `_add_results` per batch
     * (`testsOf` gives the `get_tests` reply of each run), then closes the
     * run or the plan.  A routing exception propagates before anything is
     * posted.
     */
    method PublishResults(results: seq<ResultEntry>, filter: Filter,
                          testsOf: int -> Reply<seq<TestRecord>>, size: Measure) returns (o: Outcome)
      requires Valid()
      modifies this`posted
      ensures var plan := PublishPlan(results, session, filter, storage, suiteOrder);
        plan.Raised? ==> o == Threw(plan.error) && posted == old(posted)
      ensures var plan := PublishPlan(results, session, filter, storage, suiteOrder);
        plan.Returned? ==> (o == Done && posted == old(posted) +
          BatchRequests(plan.value, session, testsOf, blockedStatus, commentLimit, size) +
          CloseRequests(session, testplanId))
    {
      var plan := PlanBatches(results, filter);
      if plan.Raised? {
        return Threw(plan.error);
      }
      PostBatches(plan.value, testsOf, size);
      if session.closeOnComplete && IdSet(session.testrunId) {
        CloseTestRun(session.testrunId.value);
      } else if session.closeOnComplete && IdSet(testplanId) {
        CloseTestPlan(testplanId.value);
      }
      return Done;
    }

    /**
     * `create_test_run`: posts the new run; on a reply error returns 0 and
     * leaves the registry alone, else stores the new run for the suite and
     * returns the configured `testrun_id` (not the new id).
     */
    method CreateTestRun(assignUserId: Option<int>, projectId: int, suiteId: int, includeAll: Option<bool>,
                         name: string, trKeys: seq<int>, milestoneId: Option<int>, description: string := "",
                         reply: CreateReply) returns (r: Option<int>)
      requires Valid()
      modifies this`posted, this`storage, this`suiteOrder
      ensures Valid()
      ensures posted == old(posted) +
        [AddRunReq(projectId, suiteId, name, description, assignUserId, includeAll, trKeys, milestoneId)]
      ensures reply.error != "" ==> r == Some(0) && storage == old(storage) && suiteOrder == old(suiteOrder)
      ensures reply.error == "" ==> (r == session.testrunId &&
        storage == old(storage)[suiteId := PlanEntry(None, reply.id, trKeys)] &&
        suiteOrder == InsertKey(old(suiteOrder), suiteId))
    {
      posted := posted + [AddRunReq(projectId, suiteId, name, description, assignUserId, includeAll, trKeys, milestoneId)];
      if reply.error != "" {
        return Some(0);
      }
      Store(suiteId, PlanEntry(None, reply.id, trKeys));
      return session.testrunId;
    }

    /**
     * `create_plan_entry`: posts the new entry; on a reply error returns 0
     * and leaves the registry alone, else stores the entry id and its first
     * run for the suite and returns that run.  A reply without runs raises.
     */
    method CreatePlanEntry(suiteId: int, name: string, assignUserId: Option<int>, planId: int,
                           includeAll: Option<bool>, trKeys: seq<int>, description: string := "",
                           reply: PlanEntryReply) returns (r: Ret<int>)
      requires Valid()
      modifies this`posted, this`storage, this`suiteOrder
      ensures Valid()
      ensures posted == old(posted) +
        [AddPlanEntryReq(planId, suiteId, name, description, assignUserId, includeAll, trKeys)]
      ensures reply.error != "" ==> r == Returned(0) && storage == old(storage) && suiteOrder == old(suiteOrder)
      ensures reply.error == "" && reply.runIds == [] ==>
        r == Raised(IndexError) && storage == old(storage) && suiteOrder == old(suiteOrder)
      ensures reply.error == "" && reply.runIds != [] ==> (r == Returned(reply.runIds[0]) &&
        storage == old(storage)[suiteId := PlanEntry(Some(reply.id), reply.runIds[0], trKeys)] &&
        suiteOrder == InsertKey(old(suiteOrder), suiteId))
    {
      posted := posted + [AddPlanEntryReq(planId, suiteId, name, description, assignUserId, includeAll, trKeys)];
      if reply.error != "" {
        return Returned(0);
      }
      if reply.runIds == [] {
        return Raised(IndexError);
      }
      Store(suiteId, PlanEntry(Some(reply.id), reply.runIds[0], trKeys));
      return Returned(reply.runIds[0]);
    }

    /**
     * `create_plan`: posts the new plan; on a reply error returns 0 and keeps
     * `testplan_id`, else records and returns the new plan id.
     */
    method CreatePlan(projectId: int, name: string, milestoneId: Option<int>, description: string := "",
                      reply: CreateReply) returns (r: int)
      modifies this`posted, this`testplanId
      ensures posted == old(posted) + [AddPlanReq(projectId, name, description, milestoneId)]
      ensures reply.error != "" ==> r == 0 && testplanId == old(testplanId)
      ensures reply.error == "" ==> r == reply.id && testplanId == Some(reply.id)
    {
      posted := posted + [AddPlanReq(projectId, name, description, milestoneId)];
      if reply.error != "" {
        return 0;
      }
      testplanId := Some(reply.id);
      return reply.id;
    }

    /**
     * `update_testrun`: posts the union of `trKeys` and the run's current
     * cases, and stores that same union for the suite whatever the reply.
     */
    method UpdateTestrun(testrunId: int, trKeys: seq<int>, suiteId: int, savePrevious: bool := true,
                         tests: Reply<seq<TestRecord>>, caseList: seq<TestRecord> -> seq<int>)
      requires Valid()
      modifies this`posted, this`storage, this`suiteOrder
      ensures Valid()
      ensures var keys := MergedCases(trKeys, CurrentCases(savePrevious, tests, caseList));
        posted == old(posted) + [UpdateRunReq(testrunId, keys, session.includeAll)] &&
        storage == old(storage)[suiteId := PlanEntry(None, testrunId, keys)]
      ensures suiteOrder == InsertKey(old(suiteOrder), suiteId)
    {
      var current := CurrentCases(savePrevious, tests, caseList);
      var keys := MergedCases(trKeys, current);
      posted := posted + [UpdateRunReq(testrunId, keys, session.includeAll)];
      Store(suiteId, PlanEntry(None, testrunId, keys));
    }

    /**
     * `update_testplan_entry`: the same for a run of a plan entry; the entry
     * id is stored with it.
     */
    method UpdateTestplanEntry(planId: int, entryId: int, runId: int, trKeys: seq<int>, suiteId: int,
                               savePrevious: bool := true, tests: Reply<seq<TestRecord>>,
                               caseList: seq<TestRecord> -> seq<int>)
      requires Valid()
      modifies this`posted, this`storage, this`suiteOrder
      ensures Valid()
      ensures var keys := MergedCases(trKeys, CurrentCases(savePrevious, tests, caseList));
        posted == old(posted) + [UpdatePlanEntryReq(planId, entryId, keys, session.includeAll)] &&
        storage == old(storage)[suiteId := PlanEntry(Some(entryId), runId, keys)]
      ensures suiteOrder == InsertKey(old(suiteOrder), suiteId)
    {
      var current := CurrentCases(savePrevious, tests, caseList);
      var keys := MergedCases(trKeys, current);
      posted := posted + [UpdatePlanEntryReq(planId, entryId, keys, session.includeAll)];
      Store(suiteId, PlanEntry(Some(entryId), runId, keys));
    }

    /**
     * `get_testplan_entry_id`: scans the plan's entries and their runs for a
     * run whose id reads as `runId`; the first hit is recorded and returned.
     * A plan reply without entries raises.
     */
    method GetTestplanEntryId(runId: string, reply: PlanReply) returns (r: Ret<Option<int>>)
      modifies this`testplanEntryId
      ensures reply.entries.None? ==> r == Raised(KeyError) && testplanEntryId == old(testplanEntryId)
      ensures reply.entries.Some? ==> r == Returned(FindEntry(reply.entries.value, runId))
      ensures r.Returned? && r.value.Some? ==> testplanEntryId == r.value
      ensures r.Returned? && r.value.None? ==> testplanEntryId == old(testplanEntryId)
    {
      if reply.entries.None? {
        return Raised(KeyError);
      }
      var es := reply.entries.value;
      for i := 0 to |es|
        invariant forall k :: 0 <= k < i ==> !HasRun(es[k], runId)
        invariant testplanEntryId == old(testplanEntryId)
      {
        var runs := es[i].runs;
        for j := 0 to |runs|
          invariant forall m :: 0 <= m < j ==> IntStr(runs[m].id) != runId
        {
          if IntStr(runs[j].id) == runId {
            FindEntryAt(es, runId, i);
            testplanEntryId := Some(es[i].id);
            return Returned(testplanEntryId);
          }
        }
      }
      FindEntryFirst(es, runId);
      return Returned(None);
    }
  }
}
