/**
 * Where `publish_results` sends each result (`results_by_run`).  With a
 * configured run, only results of the first suite in the registry are
 * bucketed; otherwise results are grouped by the run the registry records
 * for their suite, runs in order of first appearance.
 */
module Routing {
  import opened Wrappers
  import opened Seqs
  import opened PyText
  import opened Records

  /** The results destined for one `_add_results` call. */
  datatype Batch = Batch(runId: int, results: seq<ResultEntry>)

  /** `str(result['case_id']) in tests_list`. */
  predicate Listed(x: ResultEntry, testsList: seq<string>) {
    IntStr(x.caseId) in testsList
  }

  /** The listed results, in order. */
  function Routed(rs: seq<ResultEntry>, tl: seq<string>): (r: seq<ResultEntry>)
    ensures forall x :: x in r <==> x in rs && Listed(x, tl)
    decreases |rs|
  {
    if rs == [] then []
    else
      var init, last := rs[..|rs| - 1], rs[|rs| - 1];
      assert rs == init + [last];
      Routed(init, tl) + (if Listed(last, tl) then [last] else [])
  }

  /** The listed results of suite `suite`, in order. */
  function SuiteRouted(rs: seq<ResultEntry>, tl: seq<string>, suite: int): (r: seq<ResultEntry>)
    ensures forall x :: x in r <==> x in rs && Listed(x, tl) && x.suiteId == suite
    decreases |rs|
  {
    if rs == [] then []
    else
      var init, last := rs[..|rs| - 1], rs[|rs| - 1];
      assert rs == init + [last];
      SuiteRouted(init, tl, suite) + (if Listed(last, tl) && last.suiteId == suite then [last] else [])
  }

  /** Every listed result has its suite in the registry (else the lookup raises `KeyError`). */
  predicate AllStored(rs: seq<ResultEntry>, tl: seq<string>, storage: map<int, PlanEntry>) {
    forall x :: x in rs && Listed(x, tl) ==> x.suiteId in storage
  }

  /** `plan_entry_storage[result['suite_id']]['testrun_id']`. */
  function StoredRun(x: ResultEntry, storage: map<int, PlanEntry>): int
    requires x.suiteId in storage
  {
    storage[x.suiteId].testrunId
  }

  /** The stored run of each result, in order. */
  function RunsOf(rs: seq<ResultEntry>, storage: map<int, PlanEntry>): (r: seq<int>)
    requires forall x :: x in rs ==> x.suiteId in storage
    ensures |r| == |rs|
    ensures forall i :: 0 <= i < |rs| ==> r[i] == StoredRun(rs[i], storage)
    decreases |rs|
  {
    if rs == [] then []
    else
      var init, last := rs[..|rs| - 1], rs[|rs| - 1];
      assert rs == init + [last];
      RunsOf(init, storage) + [StoredRun(last, storage)]
  }

  /** The keys of `results_by_run`, in insertion order. */
  function RunOrder(rs: seq<ResultEntry>, tl: seq<string>, storage: map<int, PlanEntry>): seq<int>
    requires AllStored(rs, tl, storage)
  {
    Dedup(RunsOf(Routed(rs, tl), storage))
  }

  /** `results_by_run[k]`: the listed results whose stored run is `k`, in order. */
  function Bucket(rs: seq<ResultEntry>, tl: seq<string>, storage: map<int, PlanEntry>, k: int)
    : seq<ResultEntry>
    requires AllStored(rs, tl, storage)
    decreases |rs|
  {
    if rs == [] then []
    else
      var init, last := rs[..|rs| - 1], rs[|rs| - 1];
      assert rs == init + [last];
      Bucket(init, tl, storage, k) + (if Listed(last, tl) && StoredRun(last, storage) == k then [last] else [])
  }

  /** One batch per key of `results_by_run`, in insertion order. */
  function Batches(rs: seq<ResultEntry>, tl: seq<string>, storage: map<int, PlanEntry>): seq<Batch>
    requires AllStored(rs, tl, storage)
  {
    var order := RunOrder(rs, tl, storage);
    seq(|order|, i requires 0 <= i < |order| => Batch(order[i], Bucket(rs, tl, storage, order[i])))
  }

  /** The else-branch of `publish_results`: one batch per stored run, or `KeyError`. */
  function GroupSpec(rs: seq<ResultEntry>, tl: seq<string>, storage: map<int, PlanEntry>): Ret<seq<Batch>> {
    if !AllStored(rs, tl, storage) then Raised(KeyError)
    else Returned(Batches(rs, tl, storage))
  }

  /**
   * The fixed-run branch: results of the first stored suite are bucketed
   * under that suite's stored run but read back under the configured run;
   * when that bucket is missing `_add_results` receives `None` and raises
   * `AttributeError` at the sort.  An empty registry raises `IndexError`.
   */
  function FixedSpec(rs: seq<ResultEntry>, tl: seq<string>, storage: map<int, PlanEntry>,
                     suiteOrder: seq<int>, testrunId: int): Ret<seq<Batch>>
    requires forall k :: k in suiteOrder ==> k in storage
  {
    if suiteOrder == [] then Raised(IndexError)
    else
      var suite := suiteOrder[0];
      var selected := SuiteRouted(rs, tl, suite);
      if selected != [] && storage[suite].testrunId == testrunId then Returned([Batch(testrunId, selected)])
      else Raised(AttributeError)
  }

  /** The batches `publish_results` hands to `_add_results`, by the configured run id. */
  function Route(testrunId: Option<int>, rs: seq<ResultEntry>, tl: seq<string>,
                 storage: map<int, PlanEntry>, suiteOrder: seq<int>): Ret<seq<Batch>>
    requires forall k :: k in suiteOrder ==> k in storage
  {
    if IdSet(testrunId) then FixedSpec(rs, tl, storage, suiteOrder, testrunId.value)
    else GroupSpec(rs, tl, storage)
  }

  lemma RoutedSnoc(rs: seq<ResultEntry>, x: ResultEntry, tl: seq<string>)
    ensures Routed(rs + [x], tl) == Routed(rs, tl) + (if Listed(x, tl) then [x] else [])
  {
    assert (rs + [x])[..|rs|] == rs;
  }

  lemma SuiteRoutedSnoc(rs: seq<ResultEntry>, x: ResultEntry, tl: seq<string>, suite: int)
    ensures SuiteRouted(rs + [x], tl, suite) ==
            SuiteRouted(rs, tl, suite) + (if Listed(x, tl) && x.suiteId == suite then [x] else [])
  {
    assert (rs + [x])[..|rs|] == rs;
  }

  lemma RunsOfSnoc(rs: seq<ResultEntry>, x: ResultEntry, storage: map<int, PlanEntry>)
    requires forall y :: y in rs + [x] ==> y.suiteId in storage
    ensures RunsOf(rs + [x], storage) == RunsOf(rs, storage) + [StoredRun(x, storage)]
  {
    assert (rs + [x])[..|rs|] == rs;
  }

  lemma BucketSnoc(rs: seq<ResultEntry>, x: ResultEntry, tl: seq<string>, storage: map<int, PlanEntry>, k: int)
    requires AllStored(rs + [x], tl, storage)
    ensures AllStored(rs, tl, storage)
    ensures Bucket(rs + [x], tl, storage, k) ==
            Bucket(rs, tl, storage, k) + (if Listed(x, tl) && StoredRun(x, storage) == k then [x] else [])
  {
    assert (rs + [x])[..|rs|] == rs;
  }

  /** One result more: how the run order grows. */
  lemma OrderStep(rs: seq<ResultEntry>, x: ResultEntry, tl: seq<string>, storage: map<int, PlanEntry>)
    requires AllStored(rs, tl, storage)
    requires Listed(x, tl) ==> x.suiteId in storage
    ensures AllStored(rs + [x], tl, storage)
    ensures RunOrder(rs + [x], tl, storage) ==
      if !Listed(x, tl) then RunOrder(rs, tl, storage)
      else if StoredRun(x, storage) in RunOrder(rs, tl, storage) then RunOrder(rs, tl, storage)
      else RunOrder(rs, tl, storage) + [StoredRun(x, storage)]
  {
    RoutedSnoc(rs, x, tl);
    if Listed(x, tl) {
      var before := RunsOf(Routed(rs, tl), storage);
      var run := StoredRun(x, storage);
      RunsOfSnoc(Routed(rs, tl), x, storage);
      assert RunsOf(Routed(rs + [x], tl), storage) == before + [run];
      DedupExtend(before, run);
      assert RunOrder(rs + [x], tl, storage) == Dedup(before + [run]);
      assert run in before <==> run in ToSet(before);
      assert ToSet(before) == ToSet(RunOrder(rs, tl, storage));
      assert run in RunOrder(rs, tl, storage) <==> run in ToSet(RunOrder(rs, tl, storage));
    } else {
      assert Routed(rs + [x], tl) == Routed(rs, tl);
    }
  }

  /** The members of a bucket: listed results of `rs` whose stored run is `k`. */
  lemma {:induction false} BucketMembers(rs: seq<ResultEntry>, tl: seq<string>, storage: map<int, PlanEntry>, k: int)
    requires AllStored(rs, tl, storage)
    ensures forall x :: x in Bucket(rs, tl, storage, k) <==> x in rs && Listed(x, tl) && StoredRun(x, storage) == k
    decreases |rs|
  {
    if rs != [] {
      var init, last := rs[..|rs| - 1], rs[|rs| - 1];
      assert rs == init + [last];
      BucketMembers(init, tl, storage, k);
    }
  }

  /** The state of the grouping loop after the results `rs`. */
  ghost predicate Grouped(rs: seq<ResultEntry>, tl: seq<string>, storage: map<int, PlanEntry>,
                    order: seq<int>, buckets: map<int, seq<ResultEntry>>) {
    AllStored(rs, tl, storage) &&
    order == RunOrder(rs, tl, storage) &&
    (forall k :: k in buckets <==> k in order) &&
    BucketsMatch(rs, tl, storage, buckets)
  }

  /** Every bucket built so far is the specified bucket of its run. */
  ghost predicate BucketsMatch(rs: seq<ResultEntry>, tl: seq<string>, storage: map<int, PlanEntry>,
                         buckets: map<int, seq<ResultEntry>>)
    requires AllStored(rs, tl, storage)
  {
    forall k :: k in buckets ==> buckets[k] == Bucket(rs, tl, storage, k)
  }

  /** Appending a listed result to the bucket of its run keeps the buckets matching. */
  lemma BucketsAppend(rs: seq<ResultEntry>, x: ResultEntry, tl: seq<string>, storage: map<int, PlanEntry>,
                      buckets: map<int, seq<ResultEntry>>, prior: seq<ResultEntry>)
    requires AllStored(rs + [x], tl, storage)
    requires Listed(x, tl) && x.suiteId in storage
    requires AllStored(rs, tl, storage) && BucketsMatch(rs, tl, storage, buckets)
    requires prior == Bucket(rs, tl, storage, StoredRun(x, storage))
    ensures BucketsMatch(rs + [x], tl, storage, buckets[StoredRun(x, storage) := prior + [x]])
  {
    var next := buckets[StoredRun(x, storage) := prior + [x]];
    forall k | k in next ensures next[k] == Bucket(rs + [x], tl, storage, k) {
      BucketSnoc(rs, x, tl, storage, k);
    }
  }

  /** A run with a non-empty bucket is already among the keys of `results_by_run`. */
  lemma BucketRunKnown(rs: seq<ResultEntry>, tl: seq<string>, storage: map<int, PlanEntry>, run: int)
    requires AllStored(rs, tl, storage)
    ensures Bucket(rs, tl, storage, run) != [] ==> run in RunOrder(rs, tl, storage)
  {
    var b := Bucket(rs, tl, storage, run);
    if b != [] {
      BucketMembers(rs, tl, storage, run);
      var x := b[0];
      assert x in b;
      var routed := Routed(rs, tl);
      var runs := RunsOf(routed, storage);
      assert x in routed;
      var j :| 0 <= j < |routed| && routed[j] == x;
      assert runs[j] == run;
      assert run in ToSet(runs);
      assert run in ToSet(RunOrder(rs, tl, storage));
    }
  }

  /** A result not listed leaves the grouping loop's state as it is. */
  lemma GroupedSkip(rs: seq<ResultEntry>, x: ResultEntry, tl: seq<string>, storage: map<int, PlanEntry>,
                    order: seq<int>, buckets: map<int, seq<ResultEntry>>)
    requires Grouped(rs, tl, storage, order, buckets)
    requires !Listed(x, tl)
    ensures Grouped(rs + [x], tl, storage, order, buckets)
  {
    OrderStep(rs, x, tl, storage);
    forall k | k in buckets ensures buckets[k] == Bucket(rs + [x], tl, storage, k) {
      BucketSnoc(rs, x, tl, storage, k);
    }
  }

  /** A listed result whose run already has a bucket is appended to it. */
  lemma GroupedAppend(rs: seq<ResultEntry>, x: ResultEntry, tl: seq<string>, storage: map<int, PlanEntry>,
                      order: seq<int>, buckets: map<int, seq<ResultEntry>>)
    requires Grouped(rs, tl, storage, order, buckets)
    requires Listed(x, tl) && x.suiteId in storage && StoredRun(x, storage) in buckets
    ensures var run := StoredRun(x, storage);
      Grouped(rs + [x], tl, storage, order, buckets[run := buckets[run] + [x]])
  {
    OrderStep(rs, x, tl, storage);
    var run := StoredRun(x, storage);
    BucketsAppend(rs, x, tl, storage, buckets, buckets[run]);
  }

  /** A listed result of a new run opens that run's bucket, last in the order. */
  lemma GroupedOpen(rs: seq<ResultEntry>, x: ResultEntry, tl: seq<string>, storage: map<int, PlanEntry>,
                    order: seq<int>, buckets: map<int, seq<ResultEntry>>)
    requires Grouped(rs, tl, storage, order, buckets)
    requires Listed(x, tl) && x.suiteId in storage && StoredRun(x, storage) !in buckets
    ensures var run := StoredRun(x, storage);
      Grouped(rs + [x], tl, storage, order + [run], buckets[run := [x]])
  {
    OrderStep(rs, x, tl, storage);
    var run := StoredRun(x, storage);
    assert RunOrder(rs + [x], tl, storage) == order + [run];
    BucketsOpen(rs, x, tl, storage, order, buckets);
  }

  /** Opening the bucket of a run not yet seen keeps the buckets matching. */
  lemma BucketsOpen(rs: seq<ResultEntry>, x: ResultEntry, tl: seq<string>, storage: map<int, PlanEntry>,
                    order: seq<int>, buckets: map<int, seq<ResultEntry>>)
    requires AllStored(rs, tl, storage) && BucketsMatch(rs, tl, storage, buckets)
    requires order == RunOrder(rs, tl, storage)
    requires Listed(x, tl) && x.suiteId in storage && StoredRun(x, storage) !in order
    ensures AllStored(rs + [x], tl, storage)
    ensures BucketsMatch(rs + [x], tl, storage, buckets[StoredRun(x, storage) := [x]])
  {
    var run := StoredRun(x, storage);
    BucketRunKnown(rs, tl, storage, run);
    assert [] + [x] == [x];
    BucketsAppend(rs, x, tl, storage, buckets, []);
  }

  /** After the last result, every key's bucket is the batch of that run. */
  lemma GroupedDone(rs: seq<ResultEntry>, tl: seq<string>, storage: map<int, PlanEntry>,
                    order: seq<int>, buckets: map<int, seq<ResultEntry>>)
    requires Grouped(rs, tl, storage, order, buckets)
    ensures AllStored(rs, tl, storage)
    ensures |Batches(rs, tl, storage)| == |order|
    ensures forall j :: 0 <= j < |order| ==>
      order[j] in buckets && Batches(rs, tl, storage)[j] == Batch(order[j], buckets[order[j]])
  {
    forall j | 0 <= j < |order|
      ensures order[j] in buckets && Batches(rs, tl, storage)[j] == Batch(order[j], buckets[order[j]])
    {
      var k := order[j];
      assert k in order;
      assert k in buckets;
      assert buckets[k] == Bucket(rs, tl, storage, k);
    }
  }

  /**
   * The grouping loop of `publish_results` (else-branch): a `defaultdict`
   * filled result by result, then handed on bucket by bucket.
   */
  method GroupByRun(rs: seq<ResultEntry>, tl: seq<string>, storage: map<int, PlanEntry>)
    returns (r: Ret<seq<Batch>>)
    ensures r == GroupSpec(rs, tl, storage)
  {
    var order: seq<int> := [];
    var buckets: map<int, seq<ResultEntry>> := map[];
    for i := 0 to |rs|
      invariant Grouped(rs[..i], tl, storage, order, buckets)
    {
      var x := rs[i];
      assert rs[..i + 1] == rs[..i] + [x];
      if Listed(x, tl) && x.suiteId !in storage {
        assert x in rs;
        return Raised(KeyError);
      }
      if Listed(x, tl) {
        var run := storage[x.suiteId].testrunId;
        if run in buckets {
          GroupedAppend(rs[..i], x, tl, storage, order, buckets);
          buckets := buckets[run := buckets[run] + [x]];
        } else {
          GroupedOpen(rs[..i], x, tl, storage, order, buckets);
          order := order + [run];
          buckets := buckets[run := [x]];
        }
      } else {
        GroupedSkip(rs[..i], x, tl, storage, order, buckets);
      }
    }
    assert rs[..|rs|] == rs;
    GroupedDone(rs, tl, storage, order, buckets);
    var batches := BatchesOf(order, buckets);
    assert batches == Batches(rs, tl, storage);
    return Returned(batches);
  }

  /** `results_by_run.items()`: one batch per key, in key order. */
  method BatchesOf(order: seq<int>, buckets: map<int, seq<ResultEntry>>) returns (batches: seq<Batch>)
    requires forall j :: 0 <= j < |order| ==> order[j] in buckets
    ensures |batches| == |order|
    ensures forall j :: 0 <= j < |order| ==> batches[j] == Batch(order[j], buckets[order[j]])
  {
    batches := [];
    for j := 0 to |order|
      invariant |batches| == j
      invariant forall m :: 0 <= m < j ==> batches[m] == Batch(order[m], buckets[order[m]])
    {
      batches := batches + [Batch(order[j], buckets[order[j]])];
    }
  }

  /**
   * The bucketing loop of the fixed-run branch: the listed results of the
   * first stored suite, under that suite's stored run.
   */
  method BucketFixed(rs: seq<ResultEntry>, tl: seq<string>, storage: map<int, PlanEntry>, suite: int)
    returns (buckets: map<int, seq<ResultEntry>>)
    requires suite in storage
    ensures buckets == if SuiteRouted(rs, tl, suite) == [] then map[]
                       else map[storage[suite].testrunId := SuiteRouted(rs, tl, suite)]
  {
    ghost var run := storage[suite].testrunId;
    buckets := map[];
    for i := 0 to |rs|
      invariant SuiteRouted(rs[..i], tl, suite) == [] ==> buckets == map[]
      invariant SuiteRouted(rs[..i], tl, suite) != [] ==> buckets == map[run := SuiteRouted(rs[..i], tl, suite)]
    {
      var x := rs[i];
      ghost var before := SuiteRouted(rs[..i], tl, suite);
      assert rs[..i + 1] == rs[..i] + [x];
      SuiteRoutedSnoc(rs[..i], x, tl, suite);
      if Listed(x, tl) && x.suiteId == suite {
        var key := storage[x.suiteId].testrunId;
        assert key == run;
        assert SuiteRouted(rs[..i + 1], tl, suite) == before + [x];
        var bucket := if key in buckets then buckets[key] else [];
        SingleBucketAppend(buckets, run, before, x);
        buckets := buckets[key := bucket + [x]];
      } else {
        assert SuiteRouted(rs[..i + 1], tl, suite) == before;
      }
    }
    assert rs[..|rs|] == rs;
  }

  /** Appending to the only bucket of a map with at most one key. */
  lemma SingleBucketAppend(buckets: map<int, seq<ResultEntry>>, run: int, before: seq<ResultEntry>, x: ResultEntry)
    requires before == [] ==> buckets == map[]
    requires before != [] ==> buckets == map[run := before]
    ensures var bucket := if run in buckets then buckets[run] else [];
      buckets[run := bucket + [x]] == map[run := before + [x]]
  {
  }

  /** The grouping sends to each run at most once. */
  lemma GroupRunsDistinct(rs: seq<ResultEntry>, tl: seq<string>, storage: map<int, PlanEntry>)
    requires AllStored(rs, tl, storage)
    ensures var bs := Batches(rs, tl, storage);
      forall i, j :: 0 <= i < j < |bs| ==> bs[i].runId != bs[j].runId
  {
  }

  /** A batch holds exactly the listed results whose stored run is the batch's run. */
  lemma GroupSound(rs: seq<ResultEntry>, tl: seq<string>, storage: map<int, PlanEntry>)
    requires AllStored(rs, tl, storage)
    ensures var bs := Batches(rs, tl, storage);
      forall i, x :: 0 <= i < |bs| ==>
        (x in bs[i].results <==> x in rs && Listed(x, tl) && StoredRun(x, storage) == bs[i].runId)
  {
    var bs := Batches(rs, tl, storage);
    forall i | 0 <= i < |bs|
      ensures forall x :: x in bs[i].results <==> x in rs && Listed(x, tl) && StoredRun(x, storage) == bs[i].runId
    {
      BucketMembers(rs, tl, storage, bs[i].runId);
    }
  }

  /** No batch is empty: every key of `results_by_run` received a result. */
  lemma GroupNonEmpty(rs: seq<ResultEntry>, tl: seq<string>, storage: map<int, PlanEntry>)
    requires AllStored(rs, tl, storage)
    ensures var bs := Batches(rs, tl, storage);
      forall i :: 0 <= i < |bs| ==> bs[i].results != []
  {
    var bs := Batches(rs, tl, storage);
    var routed := Routed(rs, tl);
    var runs := RunsOf(routed, storage);
    var order := RunOrder(rs, tl, storage);
    forall i | 0 <= i < |bs| ensures bs[i].results != [] {
      assert order[i] in ToSet(order);
      var j :| 0 <= j < |runs| && runs[j] == order[i];
      BucketMembers(rs, tl, storage, order[i]);
      assert routed[j] in bs[i].results;
    }
  }

  /** Every listed result is sent, in the batch of its stored run. */
  lemma GroupComplete(rs: seq<ResultEntry>, tl: seq<string>, storage: map<int, PlanEntry>, x: ResultEntry)
    requires AllStored(rs, tl, storage)
    requires x in rs && Listed(x, tl)
    ensures var bs := Batches(rs, tl, storage);
      exists i :: 0 <= i < |bs| && bs[i].runId == StoredRun(x, storage) && x in bs[i].results
  {
    var bs := Batches(rs, tl, storage);
    var routed := Routed(rs, tl);
    var runs := RunsOf(routed, storage);
    var order := RunOrder(rs, tl, storage);
    var k := StoredRun(x, storage);
    var j :| 0 <= j < |routed| && routed[j] == x;
    assert k in ToSet(runs);
    var i :| 0 <= i < |order| && order[i] == k;
    BucketMembers(rs, tl, storage, k);
    assert x in bs[i].results;
  }

  /**
   * With a configured run, at most one batch is sent, to that run, holding
   * only listed results of the first stored suite.
   */
  lemma FixedRoutes(rs: seq<ResultEntry>, tl: seq<string>, storage: map<int, PlanEntry>,
                    suiteOrder: seq<int>, testrunId: int)
    requires forall k :: k in suiteOrder ==> k in storage
    requires FixedSpec(rs, tl, storage, suiteOrder, testrunId).Returned?
    ensures var bs := FixedSpec(rs, tl, storage, suiteOrder, testrunId).value;
      |bs| == 1 && bs[0].runId == testrunId && bs[0].results != [] &&
      forall x :: x in bs[0].results <==> x in rs && Listed(x, tl) && x.suiteId == suiteOrder[0]
  {
  }

  /**
   * With a configured run, how the branch ends: `IndexError` on an empty
   * registry; otherwise a batch exactly when the first suite's stored run is
   * the configured one and some listed result belongs to that suite, and
   * `AttributeError` in every other case.
   */
  lemma FixedOutcome(rs: seq<ResultEntry>, tl: seq<string>, storage: map<int, PlanEntry>,
                     suiteOrder: seq<int>, testrunId: int)
    requires forall k :: k in suiteOrder ==> k in storage
    ensures suiteOrder == [] ==> FixedSpec(rs, tl, storage, suiteOrder, testrunId) == Raised(IndexError)
    ensures suiteOrder != [] ==>
      (FixedSpec(rs, tl, storage, suiteOrder, testrunId).Returned? <==>
       storage[suiteOrder[0]].testrunId == testrunId &&
       exists x :: x in rs && Listed(x, tl) && x.suiteId == suiteOrder[0])
    ensures suiteOrder != [] && !FixedSpec(rs, tl, storage, suiteOrder, testrunId).Returned? ==>
      FixedSpec(rs, tl, storage, suiteOrder, testrunId) == Raised(AttributeError)
  {
    if suiteOrder != [] {
      var selected := SuiteRouted(rs, tl, suiteOrder[0]);
      if selected != [] { assert selected[0] in selected; }
    }
  }
}
