/**
 * The POST trace `publish_results` produces: one `add_results` request per
 * chunk of each batch, then at most one close request.  Every request of a
 * publish is a function of the registry, the settings and the replies, so
 * the properties of a publish are stated here on that trace.
 */
module Publishing {
  import opened Wrappers
  import opened Records
  import opened Comment
  import opened Ordering
  import opened Chunking
  import opened Routing
  import opened Queries

  /** The POSTs of the second loop of `_add_results`: one per chunk, in order. */
  function ResultPosts(runId: int, chunks: seq<seq<WireEntry>>): (r: seq<Request>)
    ensures |r| == |chunks|
    ensures forall i :: 0 <= i < |chunks| ==> r[i] == AddResultsReq(runId, chunks[i])
    decreases |chunks|
  {
    if chunks == [] then []
    else ResultPosts(runId, chunks[..|chunks| - 1]) + [AddResultsReq(runId, chunks[|chunks| - 1])]
  }

  /** The POSTs `_add_results` issues once it has settled on the results `sent`. */
  function PostsOf(runId: int, sent: seq<ResultEntry>, s: Session, limit: nat, size: Measure): seq<Request> {
    ResultPosts(runId, Chunks(WireEntries(sent, s, limit), size))
  }

  /** All POSTs of one `_add_results(runId, results)` call. */
  function RunRequests(runId: int, results: seq<ResultEntry>, s: Session, tests: seq<TestRecord>,
                       blocked: int, limit: nat, size: Measure): seq<Request>
  {
    PostsOf(runId, SentResults(results, s, tests, blocked), s, limit, size)
  }

  /** The POSTs of `_add_results` for one batch; `testsOf` is the `get_tests` reply per run. */
  function BatchPosts(b: Batch, s: Session, testsOf: int -> Reply<seq<TestRecord>>,
                      blocked: int, limit: nat, size: Measure): seq<Request>
  {
    RunRequests(b.runId, b.results, s, ListOrEmpty(testsOf(b.runId)), blocked, limit, size)
  }

  /** The requests of one call per batch, the calls one after the other. */
  function Trace(bs: seq<Batch>, posts: Batch -> seq<Request>): seq<Request>
    decreases |bs|
  {
    if bs == [] then [] else Trace(bs[..|bs| - 1], posts) + posts(bs[|bs| - 1])
  }

  /** The POSTs of `_add_results` for each batch in turn. */
  function BatchRequests(bs: seq<Batch>, s: Session, testsOf: int -> Reply<seq<TestRecord>>,
                         blocked: int, limit: nat, size: Measure): seq<Request>
  {
    Trace(bs, b => BatchPosts(b, s, testsOf, blocked, limit, size))
  }

  /**
   * The close at the end of `publish_results`: the configured run when
   * `close_on_complete` and a run is set, else the plan when one is set.
   */
  function CloseRequests(s: Session, testplanId: Option<int>): (r: seq<Request>)
    ensures |r| <= 1
    ensures r == [] <==> !s.closeOnComplete || (!IdSet(s.testrunId) && !IdSet(testplanId))
    ensures s.closeOnComplete && IdSet(s.testrunId) ==> r == [CloseRunReq(s.testrunId.value)]
    ensures s.closeOnComplete && !IdSet(s.testrunId) && IdSet(testplanId) ==> r == [ClosePlanReq(testplanId.value)]
    ensures r != [] && r[0].ClosePlanReq? ==> !IdSet(s.testrunId) && testplanId == Some(r[0].planId)
  {
    if s.closeOnComplete && IdSet(s.testrunId) then [CloseRunReq(s.testrunId.value)]
    else if s.closeOnComplete && IdSet(testplanId) then [ClosePlanReq(testplanId.value)]
    else []
  }

  /**
   * `filter_publish_results`, a helper outside this model: the results kept
   * and the case ids (as text) that may be published.
   */
  type Filter = (seq<ResultEntry>, seq<int>) -> (seq<ResultEntry>, seq<string>)

  /** The batches of a publish: none for an empty result list, else the routing of the filtered results. */
  function PublishPlan(results: seq<ResultEntry>, s: Session, filter: Filter,
                       storage: map<int, PlanEntry>, suiteOrder: seq<int>): Ret<seq<Batch>>
    requires forall k :: k in suiteOrder ==> k in storage
  {
    if results == [] then Returned([])
    else
      var kept := filter(results, s.diffCaseIds);
      Route(s.testrunId, kept.0, kept.1, storage, suiteOrder)
  }

  /**
   * One `_add_results` call posts at least once, always to its run; every
   * POST but the last is over the chunk limit and the last never reached it.
   */
  lemma PostsShape(runId: int, sent: seq<ResultEntry>, s: Session, limit: nat, size: Measure)
    ensures var reqs := PostsOf(runId, sent, s, limit, size);
      |reqs| >= 1 &&
      (forall i :: 0 <= i < |reqs| ==> reqs[i].AddResultsReq? && reqs[i].runId == runId) &&
      (forall i :: 0 <= i < |reqs| - 1 ==> size(reqs[i].results) > ChunkLimit) &&
      FitsAll(reqs[|reqs| - 1].results, size)
  {
    ChunksAreChunking(WireEntries(sent, s, limit), size);
  }

  /** An entry is posted exactly when it is the wire entry of one of the results sent. */
  lemma PostsCarry(runId: int, sent: seq<ResultEntry>, s: Session, limit: nat, size: Measure, e: WireEntry)
    ensures var reqs := PostsOf(runId, sent, s, limit, size);
      (exists i :: 0 <= i < |reqs| && e in reqs[i].results) <==>
      (exists x :: x in sent && e == WireEntryOf(x, s, limit))
  {
    var entries := WireEntries(sent, s, limit);
    var cs := Chunks(entries, size);
    var reqs := PostsOf(runId, sent, s, limit, size);
    ChunksAreChunking(entries, size);
    ConcatMembers(cs, e);
    assert (exists i :: 0 <= i < |reqs| && e in reqs[i].results) <==> e in entries by {
      assert forall i :: 0 <= i < |reqs| ==> reqs[i].results == cs[i];
    }
    if e in entries {
      var j :| 0 <= j < |entries| && entries[j] == e;
      assert sent[j] in sent;
    }
    if x :| x in sent && e == WireEntryOf(x, s, limit) {
      var j :| 0 <= j < |sent| && sent[j] == x;
      assert entries[j] == e;
    }
  }

  /**
   * With `publish_blocked` set to `False`, no entry of a case that the run's
   * tests report as blocked is ever posted.
   */
  lemma BlockedNeverPosted(runId: int, results: seq<ResultEntry>, s: Session, tests: seq<TestRecord>,
                           blocked: int, limit: nat, size: Measure, i: int, e: WireEntry)
    requires s.publishBlocked == Some(false)
    requires var reqs := RunRequests(runId, results, s, tests, blocked, limit, size);
      0 <= i < |reqs| && reqs[i].AddResultsReq? && e in reqs[i].results
    ensures forall t :: t in tests && t.statusId == blocked ==> t.caseId != e.caseId
  {
    var sent := SentResults(results, s, tests, blocked);
    PostsCarry(runId, sent, s, limit, size, e);
    var x :| x in sent && e == WireEntryOf(x, s, limit);
    SentMembers(results, s, tests, blocked, x);
  }

  /** Every result sent is posted, in one of the POSTs. */
  lemma PostsOfMember(runId: int, sent: seq<ResultEntry>, s: Session, limit: nat, size: Measure, x: ResultEntry)
    requires x in sent
    ensures var reqs := PostsOf(runId, sent, s, limit, size);
      exists i :: 0 <= i < |reqs| && WireEntryOf(x, s, limit) in reqs[i].results
  {
    PostsCarry(runId, sent, s, limit, size, WireEntryOf(x, s, limit));
  }

  /**
   * A result is posted by `_add_results` unless `publish_blocked` is `False`
   * and its case is blocked in the run.
   */
  lemma ResultPosted(runId: int, results: seq<ResultEntry>, s: Session, tests: seq<TestRecord>,
                     blocked: int, limit: nat, size: Measure, x: ResultEntry)
    requires x in results
    requires s.publishBlocked == Some(false) ==>
      forall t :: t in tests && t.statusId == blocked ==> t.caseId != x.caseId
    ensures var reqs := RunRequests(runId, results, s, tests, blocked, limit, size);
      exists i :: 0 <= i < |reqs| && WireEntryOf(x, s, limit) in reqs[i].results
  {
    var reqs := PostsOf(runId, SentResults(results, s, tests, blocked), s, limit, size);
    assert RunRequests(runId, results, s, tests, blocked, limit, size) == reqs;
    SentMembers(results, s, tests, blocked, x);
    PostsOfMember(runId, SentResults(results, s, tests, blocked), s, limit, size, x);
    var i :| 0 <= i < |reqs| && WireEntryOf(x, s, limit) in reqs[i].results;
  }

  /** Every result `_add_results` posts is one of the results it was given. */
  lemma PostedFromResults(runId: int, results: seq<ResultEntry>, s: Session, tests: seq<TestRecord>,
                          blocked: int, limit: nat, size: Measure, i: int, e: WireEntry)
    requires var reqs := RunRequests(runId, results, s, tests, blocked, limit, size);
      0 <= i < |reqs| && reqs[i].AddResultsReq? && e in reqs[i].results
    ensures exists x :: x in results && e == WireEntryOf(x, s, limit)
  {
    var sent := SentResults(results, s, tests, blocked);
    PostsCarry(runId, sent, s, limit, size, e);
    var x :| x in sent && e == WireEntryOf(x, s, limit);
    SentMembers(results, s, tests, blocked, x);
  }

  /** A request belongs to a trace exactly when it belongs to the requests of one of its batches. */
  lemma {:induction false} TraceMembers(bs: seq<Batch>, posts: Batch -> seq<Request>, req: Request)
    ensures req in Trace(bs, posts) <==> exists j :: 0 <= j < |bs| && req in posts(bs[j])
    decreases |bs|
  {
    if bs != [] {
      var init := bs[..|bs| - 1];
      TraceMembers(init, posts, req);
      assert forall j :: 0 <= j < |init| ==> init[j] == bs[j];
    }
  }

  /** The publish trace of one batch more. */
  lemma BatchRequestsSnoc(bs: seq<Batch>, b: Batch, s: Session, testsOf: int -> Reply<seq<TestRecord>>,
                          blocked: int, limit: nat, size: Measure)
    ensures BatchRequests(bs + [b], s, testsOf, blocked, limit, size)
         == BatchRequests(bs, s, testsOf, blocked, limit, size) +
            RunRequests(b.runId, b.results, s, ListOrEmpty(testsOf(b.runId)), blocked, limit, size)
  {
    assert (bs + [b])[..|bs|] == bs;
  }

  /** A request belongs to the publish trace exactly when it belongs to the POSTs of one batch. */
  lemma BatchRequestsMembers(bs: seq<Batch>, s: Session, testsOf: int -> Reply<seq<TestRecord>>,
                             blocked: int, limit: nat, size: Measure, req: Request)
    ensures req in BatchRequests(bs, s, testsOf, blocked, limit, size) <==>
      exists j :: 0 <= j < |bs| && req in BatchPosts(bs[j], s, testsOf, blocked, limit, size)
  {
    TraceMembers(bs, b => BatchPosts(b, s, testsOf, blocked, limit, size), req);
  }

  /**
   * Each result of a batch is posted to the batch's run, unless
   * `publish_blocked` is `False` and its case is blocked there.
   */
  lemma BatchDelivers(bs: seq<Batch>, s: Session, testsOf: int -> Reply<seq<TestRecord>>,
                      blocked: int, limit: nat, size: Measure, j: int, x: ResultEntry)
    requires 0 <= j < |bs| && x in bs[j].results
    requires s.publishBlocked == Some(false) ==>
      forall t :: t in ListOrEmpty(testsOf(bs[j].runId)) && t.statusId == blocked ==> t.caseId != x.caseId
    ensures exists req :: (req in BatchRequests(bs, s, testsOf, blocked, limit, size) &&
      req.AddResultsReq? && req.runId == bs[j].runId && WireEntryOf(x, s, limit) in req.results)
  {
    var tests := ListOrEmpty(testsOf(bs[j].runId));
    var reqs := RunRequests(bs[j].runId, bs[j].results, s, tests, blocked, limit, size);
    ResultPosted(bs[j].runId, bs[j].results, s, tests, blocked, limit, size, x);
    PostsShape(bs[j].runId, SentResults(bs[j].results, s, tests, blocked), s, limit, size);
    var i :| 0 <= i < |reqs| && WireEntryOf(x, s, limit) in reqs[i].results;
    BatchRequestsMembers(bs, s, testsOf, blocked, limit, size, reqs[i]);
  }

  /** Every request of a batch trace posts results of one batch to that batch's run. */
  lemma BatchSendsOnly(bs: seq<Batch>, s: Session, testsOf: int -> Reply<seq<TestRecord>>,
                       blocked: int, limit: nat, size: Measure, req: Request, e: WireEntry)
    requires req in BatchRequests(bs, s, testsOf, blocked, limit, size)
    ensures req.AddResultsReq?
    ensures exists j :: 0 <= j < |bs| && req.runId == bs[j].runId
    ensures e in req.results ==>
      exists j, x :: 0 <= j < |bs| && x in bs[j].results && req.runId == bs[j].runId && e == WireEntryOf(x, s, limit)
  {
    BatchRequestsMembers(bs, s, testsOf, blocked, limit, size, req);
    var j :| 0 <= j < |bs| && req in BatchPosts(bs[j], s, testsOf, blocked, limit, size);
    var tests := ListOrEmpty(testsOf(bs[j].runId));
    var reqs := RunRequests(bs[j].runId, bs[j].results, s, tests, blocked, limit, size);
    PostsShape(bs[j].runId, SentResults(bs[j].results, s, tests, blocked), s, limit, size);
    var i :| 0 <= i < |reqs| && reqs[i] == req;
    assert req.runId == bs[j].runId;
    if e in req.results {
      PostedFromResults(bs[j].runId, bs[j].results, s, tests, blocked, limit, size, i, e);
    }
  }

  /**
   * Without a configured run, every listed result whose case is not blocked
   * in its run is posted to the run the registry records for its suite.
   */
  lemma PublishDelivers(results: seq<ResultEntry>, s: Session, filter: Filter,
                        storage: map<int, PlanEntry>, suiteOrder: seq<int>,
                        testsOf: int -> Reply<seq<TestRecord>>, blocked: int, limit: nat, size: Measure,
                        x: ResultEntry)
    requires forall k :: k in suiteOrder ==> k in storage
    requires !IdSet(s.testrunId) && results != []
    requires PublishPlan(results, s, filter, storage, suiteOrder).Returned?
    requires var kept := filter(results, s.diffCaseIds); x in kept.0 && Listed(x, kept.1)
    requires x.suiteId in storage
    requires s.publishBlocked == Some(false) ==>
      forall t :: t in ListOrEmpty(testsOf(StoredRun(x, storage))) && t.statusId == blocked ==> t.caseId != x.caseId
    ensures var bs := PublishPlan(results, s, filter, storage, suiteOrder).value;
      exists req :: req in BatchRequests(bs, s, testsOf, blocked, limit, size) &&
        req.AddResultsReq? && req.runId == StoredRun(x, storage) && WireEntryOf(x, s, limit) in req.results
  {
    var kept := filter(results, s.diffCaseIds);
    var bs := PublishPlan(results, s, filter, storage, suiteOrder).value;
    assert bs == Batches(kept.0, kept.1, storage);
    GroupComplete(kept.0, kept.1, storage, x);
    var j :| 0 <= j < |bs| && bs[j].runId == StoredRun(x, storage) && x in bs[j].results;
    BatchDelivers(bs, s, testsOf, blocked, limit, size, j, x);
  }

  /** With a configured run, a batch of a publish holds listed results of the first stored suite. */
  lemma FixedBatchFrom(results: seq<ResultEntry>, s: Session, filter: Filter,
                       storage: map<int, PlanEntry>, suiteOrder: seq<int>, j: int, x: ResultEntry)
    requires forall k :: k in suiteOrder ==> k in storage
    requires IdSet(s.testrunId) && results != []
    requires PublishPlan(results, s, filter, storage, suiteOrder).Returned?
    requires var bs := PublishPlan(results, s, filter, storage, suiteOrder).value;
      0 <= j < |bs| && x in bs[j].results
    ensures var kept := filter(results, s.diffCaseIds);
      x in kept.0 && Listed(x, kept.1) && x.suiteId == suiteOrder[0]
  {
    var kept := filter(results, s.diffCaseIds);
    FixedRoutes(kept.0, kept.1, storage, suiteOrder, s.testrunId.value);
  }

  /** With a configured run, the one batch of a publish goes to that run. */
  lemma FixedBatchRun(results: seq<ResultEntry>, s: Session, filter: Filter,
                      storage: map<int, PlanEntry>, suiteOrder: seq<int>)
    requires forall k :: k in suiteOrder ==> k in storage
    requires IdSet(s.testrunId) && results != []
    requires PublishPlan(results, s, filter, storage, suiteOrder).Returned?
    ensures var bs := PublishPlan(results, s, filter, storage, suiteOrder).value;
      |bs| == 1 && bs[0].runId == s.testrunId.value
  {
    var kept := filter(results, s.diffCaseIds);
    FixedRoutes(kept.0, kept.1, storage, suiteOrder, s.testrunId.value);
  }

  /** With a configured run, any batch of a publish goes to that run. */
  lemma FixedBatchesRun(results: seq<ResultEntry>, s: Session, filter: Filter,
                        storage: map<int, PlanEntry>, suiteOrder: seq<int>, j: int)
    requires forall k :: k in suiteOrder ==> k in storage
    requires IdSet(s.testrunId) && results != []
    requires PublishPlan(results, s, filter, storage, suiteOrder).Returned?
    requires 0 <= j < |PublishPlan(results, s, filter, storage, suiteOrder).value|
    ensures PublishPlan(results, s, filter, storage, suiteOrder).value[j].runId == s.testrunId.value
  {
    FixedBatchRun(results, s, filter, storage, suiteOrder);
  }

  /** Without a configured run, a batch of a publish holds listed results stored for its run. */
  lemma GroupBatchFrom(results: seq<ResultEntry>, s: Session, filter: Filter,
                       storage: map<int, PlanEntry>, suiteOrder: seq<int>, j: int, x: ResultEntry)
    requires forall k :: k in suiteOrder ==> k in storage
    requires !IdSet(s.testrunId) && results != []
    requires PublishPlan(results, s, filter, storage, suiteOrder).Returned?
    requires var bs := PublishPlan(results, s, filter, storage, suiteOrder).value;
      0 <= j < |bs| && x in bs[j].results
    ensures var kept := filter(results, s.diffCaseIds);
      x in kept.0 && Listed(x, kept.1) && x.suiteId in storage &&
      PublishPlan(results, s, filter, storage, suiteOrder).value[j].runId == StoredRun(x, storage)
  {
    var kept := filter(results, s.diffCaseIds);
    GroupSound(kept.0, kept.1, storage);
  }

  /**
   * With a configured run, every entry a publish posts goes to that run and
   * belongs to a listed result of the first stored suite.
   */
  lemma PublishFixedSendsOnly(results: seq<ResultEntry>, s: Session, filter: Filter,
                              storage: map<int, PlanEntry>, suiteOrder: seq<int>,
                              testsOf: int -> Reply<seq<TestRecord>>, blocked: int, limit: nat, size: Measure,
                              req: Request, e: WireEntry)
    requires forall k :: k in suiteOrder ==> k in storage
    requires IdSet(s.testrunId) && results != []
    requires PublishPlan(results, s, filter, storage, suiteOrder).Returned?
    requires req in BatchRequests(PublishPlan(results, s, filter, storage, suiteOrder).value,
                                  s, testsOf, blocked, limit, size)
    ensures req.AddResultsReq? && req.runId == s.testrunId.value
    ensures e in req.results ==>
      var kept := filter(results, s.diffCaseIds);
      exists x :: x in kept.0 && Listed(x, kept.1) && x.suiteId == suiteOrder[0] && e == WireEntryOf(x, s, limit)
  {
    var bs := PublishPlan(results, s, filter, storage, suiteOrder).value;
    BatchSendsOnly(bs, s, testsOf, blocked, limit, size, req, e);
    var j :| 0 <= j < |bs| && req.runId == bs[j].runId;
    FixedBatchesRun(results, s, filter, storage, suiteOrder, j);
    if e in req.results {
      var i, x :| 0 <= i < |bs| && x in bs[i].results && req.runId == bs[i].runId && e == WireEntryOf(x, s, limit);
      FixedBatchFrom(results, s, filter, storage, suiteOrder, i, x);
    }
  }

  /**
   * Without a configured run, every entry a publish posts belongs to a listed
   * result and goes to the run the registry records for its suite.
   */
  lemma PublishGroupSendsOnly(results: seq<ResultEntry>, s: Session, filter: Filter,
                              storage: map<int, PlanEntry>, suiteOrder: seq<int>,
                              testsOf: int -> Reply<seq<TestRecord>>, blocked: int, limit: nat, size: Measure,
                              req: Request, e: WireEntry)
    requires forall k :: k in suiteOrder ==> k in storage
    requires !IdSet(s.testrunId) && results != []
    requires PublishPlan(results, s, filter, storage, suiteOrder).Returned?
    requires req in BatchRequests(PublishPlan(results, s, filter, storage, suiteOrder).value,
                                  s, testsOf, blocked, limit, size)
    ensures req.AddResultsReq?
    ensures e in req.results ==>
      var kept := filter(results, s.diffCaseIds);
      exists x :: x in kept.0 && Listed(x, kept.1) && x.suiteId in storage && e == WireEntryOf(x, s, limit) &&
        req.runId == StoredRun(x, storage)
  {
    var bs := PublishPlan(results, s, filter, storage, suiteOrder).value;
    BatchSendsOnly(bs, s, testsOf, blocked, limit, size, req, e);
    if e in req.results {
      var j, x :| 0 <= j < |bs| && x in bs[j].results && req.runId == bs[j].runId && e == WireEntryOf(x, s, limit);
      GroupBatchFrom(results, s, filter, storage, suiteOrder, j, x);
    }
  }
}
