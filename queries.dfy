/**
 * The read-only queries: the fallback of the list-returning `get_*`
 * wrappers, the availability checks, the open runs of a plan and the plan
 * entry holding a run.  Each takes the transport's reply as input.
 */
module Queries {
  import opened Wrappers
  import opened PyText
  import opened Records

  /**
   * `get_tests`, `get_cases`, `get_suites`: the response body, or `[]` when
   * the transport reports an error.  (`get_plan` and `get_run` return the
   * response in both cases; the functions below take that response as is.)
   */
  function ListOrEmpty<T>(reply: Reply<seq<T>>): (r: seq<T>)
    ensures reply.error != "" ==> r == []
    ensures reply.error == "" ==> r == reply.body
  {
    if reply.error != "" then [] else reply.body
  }

  /** `is_testrun_available`: no transport error and `is_completed` is exactly `False`. */
  function IsTestrunAvailable(reply: RunReply): (b: bool)
    ensures b ==> reply.error == ""
    ensures b <==> reply.error == "" && reply.isCompleted == Some(false)
  {
    if reply.error != "" then false else reply.isCompleted == Some(false)
  }

  /** `is_testplan_available`: the same test on the plan's reply. */
  function IsTestplanAvailable(reply: PlanReply): (b: bool)
    ensures b ==> reply.error == ""
    ensures b <==> reply.error == "" && reply.isCompleted == Some(false)
  {
    if reply.error != "" then false else reply.isCompleted == Some(false)
  }

  /** `run['is_completed']` is truthy (`None` and `False` are not). */
  predicate Completed(r: RunInfo) {
    r.isCompleted == Some(true)
  }

  /** The ids of the runs of one entry that are not completed, in order. */
  function OpenRunsOf(runs: seq<RunInfo>): seq<int>
    decreases |runs|
  {
    if runs == [] then []
    else
      var last := runs[|runs| - 1];
      OpenRunsOf(runs[..|runs| - 1]) + (if !Completed(last) then [last.id] else [])
  }

  /** The ids of all runs of the plan's entries that are not completed, entry by entry. */
  function OpenRuns(es: seq<EntryInfo>): seq<int>
    decreases |es|
  {
    if es == [] then [] else OpenRuns(es[..|es| - 1]) + OpenRunsOf(es[|es| - 1].runs)
  }

  lemma {:induction false} OpenRunsOfMembership(runs: seq<RunInfo>, x: int)
    ensures x in OpenRunsOf(runs) <==>
      exists j :: 0 <= j < |runs| && runs[j].id == x && !Completed(runs[j])
    decreases |runs|
  {
    if runs != [] {
      var init := runs[..|runs| - 1];
      OpenRunsOfMembership(init, x);
      assert forall j :: 0 <= j < |init| ==> init[j] == runs[j];
    }
  }

  /** A run is listed exactly when some entry of the plan holds it and it is not completed. */
  lemma {:induction false} OpenRunsMembership(es: seq<EntryInfo>, x: int)
    ensures x in OpenRuns(es) <==>
      exists i, j :: 0 <= i < |es| && 0 <= j < |es[i].runs| && es[i].runs[j].id == x && !Completed(es[i].runs[j])
    decreases |es|
  {
    if es != [] {
      var init := es[..|es| - 1];
      var last := es[|es| - 1];
      OpenRunsMembership(init, x);
      OpenRunsOfMembership(last.runs, x);
      assert OpenRuns(es) == OpenRuns(init) + OpenRunsOf(last.runs);
      if x in OpenRuns(es) {
        if x in OpenRuns(init) {
          var i, j :| 0 <= i < |init| && 0 <= j < |init[i].runs| && init[i].runs[j].id == x && !Completed(init[i].runs[j]);
          assert es[i] == init[i];
        } else {
          var j :| 0 <= j < |last.runs| && last.runs[j].id == x && !Completed(last.runs[j]);
          assert es[|es| - 1].runs[j] == last.runs[j];
        }
      }
      if exists i, j :: 0 <= i < |es| && 0 <= j < |es[i].runs| && es[i].runs[j].id == x && !Completed(es[i].runs[j]) {
        var i, j :| 0 <= i < |es| && 0 <= j < |es[i].runs| && es[i].runs[j].id == x && !Completed(es[i].runs[j]);
        if i < |init| {
          assert init[i] == es[i];
        } else {
          assert es[i] == last;
        }
      }
    }
  }

  /**
   * `get_available_testruns`: walks every run of every entry and collects
   * the ids of those not completed; a response without `entries` raises.
   */
  method AvailableTestruns(reply: PlanReply) returns (r: Ret<seq<int>>)
    ensures reply.entries.None? ==> r == Raised(KeyError)
    ensures reply.entries.Some? ==> r == Returned(OpenRuns(reply.entries.value))
  {
    if reply.entries.None? {
      return Raised(KeyError);
    }
    var es := reply.entries.value;
    var testruns: seq<int> := [];
    for i := 0 to |es|
      invariant testruns == OpenRuns(es[..i])
    {
      var runs := es[i].runs;
      for j := 0 to |runs|
        invariant testruns == OpenRuns(es[..i]) + OpenRunsOf(runs[..j])
      {
        assert runs[..j + 1][..j] == runs[..j];
        if !Completed(runs[j]) {
          testruns := testruns + [runs[j].id];
        }
      }
      assert runs[..|runs|] == runs;
      assert es[..i + 1][..i] == es[..i];
    }
    assert es[..|es|] == es;
    return Returned(testruns);
  }

  /** Some run of the entry has `str(run['id']) == run_id`. */
  predicate HasRun(e: EntryInfo, runId: string) {
    exists j :: 0 <= j < |e.runs| && IntStr(e.runs[j].id) == runId
  }

  /** The id of the first entry holding the run, or `None`. */
  function FindEntry(es: seq<EntryInfo>, runId: string): Option<int>
    decreases |es|
  {
    if es == [] then None
    else if HasRun(es[0], runId) then Some(es[0].id)
    else FindEntry(es[1..], runId)
  }

  /**
   * FindEntry finds an entry exactly when one holds the run, and then the
   * first such entry.
   */
  lemma {:induction false} FindEntryFirst(es: seq<EntryInfo>, runId: string)
    ensures FindEntry(es, runId).None? <==> forall i :: 0 <= i < |es| ==> !HasRun(es[i], runId)
    ensures FindEntry(es, runId).Some? ==>
      exists i :: 0 <= i < |es| && HasRun(es[i], runId) && FindEntry(es, runId).value == es[i].id &&
        forall k :: 0 <= k < i ==> !HasRun(es[k], runId)
    decreases |es|
  {
    if es != [] && !HasRun(es[0], runId) {
      FindEntryFirst(es[1..], runId);
      assert forall i :: 0 < i < |es| ==> es[i] == es[1..][i - 1];
      if FindEntry(es, runId).Some? {
        var i :| 0 <= i < |es[1..]| && HasRun(es[1..][i], runId) && FindEntry(es, runId).value == es[1..][i].id &&
          forall k :: 0 <= k < i ==> !HasRun(es[1..][k], runId);
        assert HasRun(es[i + 1], runId);
      }
    } else if es != [] {
      assert HasRun(es[0], runId);
    }
  }

  /** The entry found is the first one holding the run. */
  lemma {:induction false} FindEntryAt(es: seq<EntryInfo>, runId: string, i: int)
    requires 0 <= i < |es| && HasRun(es[i], runId)
    requires forall k :: 0 <= k < i ==> !HasRun(es[k], runId)
    ensures FindEntry(es, runId) == Some(es[i].id)
    decreases i
  {
    if i > 0 {
      FindEntryAt(es[1..], runId, i - 1);
    }
  }

  /** A run id given as the decimal text of an integer matches exactly the run with that id. */
  lemma HasRunById(e: EntryInfo, n: int)
    ensures HasRun(e, IntStr(n)) <==> exists j :: 0 <= j < |e.runs| && e.runs[j].id == n
  {
    forall j | 0 <= j < |e.runs| ensures IntStr(e.runs[j].id) == IntStr(n) <==> e.runs[j].id == n {
      IntStrInjective(e.runs[j].id, n);
    }
  }
}
