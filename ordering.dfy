/**
 * The first two steps of `_add_results`: the stable sort by case id and
 * the exclusion of cases TestRail reports as blocked.
 */
module Ordering {
  import opened Wrappers
  import opened Records

  predicate SortedByCase(s: seq<ResultEntry>) {
    forall i, j :: 0 <= i < j < |s| ==> s[i].caseId <= s[j].caseId
  }

  /** The results for case `k`, in their order in `s`. */
  function WithCase(s: seq<ResultEntry>, k: int): seq<ResultEntry>
    decreases |s|
  {
    if s == [] then []
    else (if s[0].caseId == k then [s[0]] else []) + WithCase(s[1..], k)
  }

  /** Inserts `x` in front of the first element whose case id is not smaller. */
  function Insert(x: ResultEntry, s: seq<ResultEntry>): seq<ResultEntry>
    decreases |s|
  {
    if s == [] || x.caseId <= s[0].caseId then [x] + s
    else [s[0]] + Insert(x, s[1..])
  }

  lemma WithCaseCons(a: ResultEntry, t: seq<ResultEntry>, k: int)
    ensures WithCase([a] + t, k) == (if a.caseId == k then [a] else []) + WithCase(t, k)
  {
    assert ([a] + t)[1..] == t;
  }

  lemma {:induction false} InsertSorted(x: ResultEntry, s: seq<ResultEntry>)
    requires SortedByCase(s)
    ensures SortedByCase(Insert(x, s))
    ensures forall y :: y in Insert(x, s) <==> y == x || y in s
    decreases |s|
  {
    if s != [] && x.caseId > s[0].caseId {
      InsertSorted(x, s[1..]);
      assert forall y :: y in s <==> y == s[0] || y in s[1..];
      var rest := Insert(x, s[1..]);
      var r := [s[0]] + rest;
      forall j | 0 <= j < |rest| ensures rest[j].caseId >= s[0].caseId {
        assert rest[j] in rest;
        if rest[j] != x {
          var m :| 1 <= m < |s| && s[m] == rest[j];
        }
      }
      forall i, j | 0 <= i < j < |r| ensures r[i].caseId <= r[j].caseId {
        assert r[j] == rest[j - 1];
        if i > 0 {
          assert r[i] == rest[i - 1];
        }
      }
    }
  }

  lemma {:induction false} InsertMultiset(x: ResultEntry, s: seq<ResultEntry>)
    ensures multiset(Insert(x, s)) == multiset(s) + multiset{x}
    decreases |s|
  {
    if s != [] && x.caseId > s[0].caseId {
      InsertMultiset(x, s[1..]);
      assert s == [s[0]] + s[1..];
    }
  }

  lemma {:induction false} InsertWithCase(x: ResultEntry, s: seq<ResultEntry>, k: int)
    ensures WithCase(Insert(x, s), k) == (if x.caseId == k then [x] else []) + WithCase(s, k)
    decreases |s|
  {
    if s == [] || x.caseId <= s[0].caseId {
      WithCaseCons(x, s, k);
    } else {
      InsertWithCase(x, s[1..], k);
      WithCaseCons(s[0], Insert(x, s[1..]), k);
      WithCaseCons(s[0], s[1..], k);
      assert s == [s[0]] + s[1..];
    }
  }

  /** One insertion step of the sort keeps all three properties of SortByCase. */
  lemma SortStep(s: seq<ResultEntry>, t: seq<ResultEntry>)
    requires s != [] && SortedByCase(t) && multiset(t) == multiset(s[1..])
    requires forall k {:trigger WithCase(t, k)} :: WithCase(t, k) == WithCase(s[1..], k)
    ensures SortedByCase(Insert(s[0], t))
    ensures multiset(Insert(s[0], t)) == multiset(s)
    ensures forall k {:trigger WithCase(s, k)} :: WithCase(Insert(s[0], t), k) == WithCase(s, k)
  {
    InsertSorted(s[0], t);
    InsertMultiset(s[0], t);
    assert s == [s[0]] + s[1..];
    forall k ensures WithCase(Insert(s[0], t), k) == WithCase(s, k) {
      InsertWithCase(s[0], t, k);
      WithCaseCons(s[0], s[1..], k);
    }
  }

  /**
   * `results.sort(key=itemgetter('case_id'))`: ascending by case id, a
   * permutation of the input, and stable (the results of any one case keep
   * their relative order).
   */
  function SortByCase(s: seq<ResultEntry>): (r: seq<ResultEntry>)
    ensures SortedByCase(r)
    ensures multiset(r) == multiset(s)
    ensures forall k {:trigger WithCase(r, k)} :: WithCase(r, k) == WithCase(s, k)
    decreases |s|
  {
    if s == [] then []
    else
      var t := SortByCase(s[1..]);
      SortStep(s, t);
      Insert(s[0], t)
  }

  /** `[t.case_id for t in tests if t.status_id == blocked]`. */
  function BlockedCases(tests: seq<TestRecord>, blocked: int): (r: seq<int>)
    ensures forall c :: c in r <==> exists t :: t in tests && t.statusId == blocked && t.caseId == c
    decreases |tests|
  {
    if tests == [] then []
    else
      var t := tests[0];
      assert forall u :: u in tests <==> u == t || u in tests[1..];
      (if t.statusId == blocked then [t.caseId] else []) + BlockedCases(tests[1..], blocked)
  }

  /**
   * `[r for r in results if r.case_id not in blocked]`: exactly the results of
   * unblocked cases, each case's results in their original order.
   */
  function DropBlocked(s: seq<ResultEntry>, blocked: seq<int>): (r: seq<ResultEntry>)
    ensures forall x :: x in r <==> x in s && x.caseId !in blocked
    ensures forall k {:trigger WithCase(r, k)} :: WithCase(r, k) == if k in blocked then [] else WithCase(s, k)
    ensures SortedByCase(s) ==> SortedByCase(r)
    decreases |s|
  {
    if s == [] then []
    else
      var rest := DropBlocked(s[1..], blocked);
      assert forall u :: u in s <==> u == s[0] || u in s[1..];
      if s[0].caseId in blocked then rest
      else
        var r := [s[0]] + rest;
        assert r[1..] == rest;
        r
  }

  /**
   * The results one `_add_results` call sends, in sending order: sorted by
   * case id; when `publish_blocked is False`, without any case reported
   * blocked in `tests`, and otherwise all of them.
   */
  function SentResults(results: seq<ResultEntry>, s: Session, tests: seq<TestRecord>, blocked: int)
    : (r: seq<ResultEntry>)
    ensures SortedByCase(r)
    ensures s.publishBlocked == Some(false) ==>
      forall x :: x in r <==>
        (x in results && !(exists t :: t in tests && t.statusId == blocked && t.caseId == x.caseId))
    ensures s.publishBlocked != Some(false) ==> multiset(r) == multiset(results)
    ensures forall k {:trigger WithCase(r, k)} ::
      WithCase(r, k) == if s.publishBlocked == Some(false) && k in BlockedCases(tests, blocked) then []
                        else WithCase(results, k)
  {
    var sorted := SortByCase(results);
    assert forall x :: x in sorted <==> x in results by {
      assert forall x :: x in sorted <==> x in multiset(sorted);
    }
    if s.publishBlocked == Some(false) then DropBlocked(sorted, BlockedCases(tests, blocked)) else sorted
  }

  /**
   * The results sent are those given, less (when `publish_blocked` is
   * `False`) those whose case is blocked in `tests`.
   */
  lemma SentMembers(results: seq<ResultEntry>, s: Session, tests: seq<TestRecord>, blocked: int, x: ResultEntry)
    ensures x in SentResults(results, s, tests, blocked) <==>
      x in results &&
      (s.publishBlocked == Some(false) ==> forall t :: t in tests && t.statusId == blocked ==> t.caseId != x.caseId)
  {
    var sent := SentResults(results, s, tests, blocked);
    if s.publishBlocked != Some(false) {
      assert x in sent <==> x in multiset(sent);
      assert x in results <==> x in multiset(results);
    }
  }
}
