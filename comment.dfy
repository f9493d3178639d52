/**
 * Building the TestRail entry for one result: the composed comment, the
 * optional version and the `elapsed` text (`_add_results`, loop body).
 */
module Comment {
  import opened Wrappers
  import opened Seqs
  import opened PyText
  import opened Records

  /** Status id of a passed test; its pytest output is never attached. */
  const Passed := 1

  const ParamHeader := "# Test parametrize: #\n"
  const CommentsHeader := "# Test comments: #\n"
  const ResultHeader := "# Pytest result: #\n"
  const TruncationMark := "Log truncated\n...\n"

  /** `'\n'.join(xs)`. */
  function JoinLines(xs: seq<string>): string
    decreases |xs|
  {
    if xs == [] then ""
    else if |xs| == 1 then xs[0]
    else JoinLines(xs[..|xs| - 1]) + "\n" + xs[|xs| - 1]
  }

  function ParamSection(p: Option<string>): string {
    if p.Some? then ParamHeader + p.value + "\n\n" else ""
  }

  function CommentsSection(cs: seq<string>): string {
    if cs != [] then CommentsHeader + JoinLines(cs) + "\n\n" else ""
  }

  /**
   * The pytest output of a failed test: the header, the truncation mark when
   * the text is longer than `limit`, then the last `limit` characters with
   * every line indented by four spaces.
   */
  function ResultSection(comment: string, status: int, limit: nat): string {
    if comment != "" && status != Passed then
      ResultHeader + (if |comment| > limit then TruncationMark else "")
        + Indent + IndentBreaks(PyTail(comment, limit))
    else ""
  }

  function CustomSection(custom: string): string {
    if custom != "" then custom + "\n" else ""
  }

  /**
   * Reads a pytest-result section back: whether it carries the truncation
   * mark, and the log text it keeps.
   */
  function ReadResultSection(t: string): Option<(bool, string)> {
    if |t| < |ResultHeader| || t[..|ResultHeader|] != ResultHeader then None
    else
      var body := t[|ResultHeader|..];
      var m := |TruncationMark|;
      if |body| >= m + 4 && body[..m] == TruncationMark && body[m..m + 4] == Indent then
        Some((true, DedentBreaks(body[m + 4..])))
      else if |body| >= 4 && body[..4] == Indent then
        Some((false, DedentBreaks(body[4..])))
      else None
  }

  lemma SplitAt(a: string, b: string)
    ensures (a + b)[..|a|] == a && (a + b)[|a|..] == b
  {
  }

  /** A truncated section body reads back as truncated, with its text. */
  lemma ReadTruncatedBody(x: string)
    ensures var body := TruncationMark + Indent + x;
      var m := |TruncationMark|;
      |body| >= m + 4 && body[..m] == TruncationMark && body[m..m + 4] == Indent && body[m + 4..] == x
  {
    var m := |TruncationMark|;
    var body := TruncationMark + Indent + x;
    assert body == TruncationMark + (Indent + x);
    SplitAt(TruncationMark, Indent + x);
    SplitAt(Indent, x);
    assert body[m..] == Indent + x;
    assert body[m..m + 4] == body[m..][..4];
    assert body[m + 4..] == body[m..][4..];
  }

  /** An untruncated section body does not start with the truncation mark. */
  lemma ReadPlainBody(x: string)
    ensures var body := Indent + x;
      var m := |TruncationMark|;
      !(|body| >= m + 4 && body[..m] == TruncationMark) && |body| >= 4 && body[..4] == Indent && body[4..] == x
  {
    var body := Indent + x;
    SplitAt(Indent, x);
    assert body[0] == ' ' && TruncationMark[0] == 'L';
  }

  /** A section built from a log text reads back to the truncation flag and the dedented text. */
  lemma ReadSection(truncated: bool, x: string)
    ensures ReadResultSection(ResultHeader + (if truncated then TruncationMark else "") + Indent + x)
            == Some((truncated, DedentBreaks(x)))
  {
    var mark := if truncated then TruncationMark else "";
    var body := mark + Indent + x;
    ConcatAssoc(ResultHeader, mark, Indent);
    ConcatAssoc(ResultHeader, mark + Indent, x);
    SplitAt(ResultHeader, body);
    if truncated {
      ReadTruncatedBody(x);
    } else {
      assert mark + Indent == Indent;
      ReadPlainBody(x);
    }
  }

  /**
   * The result section of a failed test with output records exactly whether
   * the output was truncated and the tail it kept (by PyTail, its last
   * `limit` characters).
   */
  lemma ResultSectionReadBack(comment: string, status: int, limit: nat)
    requires comment != "" && status != Passed
    ensures ReadResultSection(ResultSection(comment, status, limit))
            == Some((|comment| > limit, PyTail(comment, limit)))
  {
    var kept := PyTail(comment, limit);
    DedentIndent(kept);
    ReadSection(|comment| > limit, IndentBreaks(kept));
  }

  /**
   * The entry comment: the parametrize, test-comments, pytest-result and
   * custom sections, each present only when its input is, in this order.
   */
  function ComposeComment(r: ResultEntry, customComment: string, limit: nat): (c: string)
    ensures c == "" <==>
      r.testParametrize.None? && r.testComments == [] &&
      (r.comment == "" || r.statusId == Passed) && customComment == ""
    ensures r.testParametrize.Some? ==>
      var p := ParamHeader + r.testParametrize.value + "\n\n";
      |p| <= |c| && c[..|p|] == p
    ensures customComment != "" ==>
      var u := customComment + "\n";
      |u| <= |c| && c[|c| - |u|..] == u
  {
    ParamSection(r.testParametrize) + CommentsSection(r.testComments)
      + ResultSection(r.comment, r.statusId, limit) + CustomSection(customComment)
  }

  /**
   * The sections of the entry comment, in their fixed order: the
   * parametrize section; then the test comments under their header, joined
   * by line breaks; then the pytest-result section (its meaning is
   * ResultSectionMeaning); then the custom comment and a line break.
   */
  lemma ComposeSections(r: ResultEntry, customComment: string, limit: nat)
    ensures var p := if r.testParametrize.Some? then ParamHeader + r.testParametrize.value + "\n\n" else "";
      var m := if r.testComments != [] then CommentsHeader + JoinLines(r.testComments) + "\n\n" else "";
      var u := if customComment != "" then customComment + "\n" else "";
      ComposeComment(r, customComment, limit) == p + m + ResultSection(r.comment, r.statusId, limit) + u
  {
  }

  /**
   * The pytest-result section is present exactly for a non-empty comment of
   * a test that did not pass, and then reads back to the truncation flag and
   * the kept log tail.
   */
  lemma ResultSectionMeaning(comment: string, status: int, limit: nat)
    ensures ResultSection(comment, status, limit) == "" <==> comment == "" || status == Passed
    ensures ResultSection(comment, status, limit) != "" ==>
      ReadResultSection(ResultSection(comment, status, limit)) == Some((|comment| > limit, PyTail(comment, limit)))
  {
    if comment != "" && status != Passed {
      ResultSectionReadBack(comment, status, limit);
    }
  }

  /**
   * Python's `round` on a number: the nearest integer, ties going to the
   * even neighbour.
   */
  function RoundHalfEven(x: real): (n: int)
    ensures -0.5 <= x - n as real <= 0.5
    ensures (x - n as real == 0.5 || x - n as real == -0.5) ==> n % 2 == 0
  {
    var f := x.Floor;
    var frac := x - f as real;
    if frac < 0.5 then f
    else if frac > 0.5 then f + 1
    else if f % 2 == 0 then f else f + 1
  }

  /** The two properties of RoundHalfEven pin the integer down. */
  lemma RoundHalfEvenUnique(x: real, n: int)
    requires -0.5 <= x - n as real <= 0.5
    requires (x - n as real == 0.5 || x - n as real == -0.5) ==> n % 2 == 0
    ensures n == RoundHalfEven(x)
  {
  }

  /**
   * The whole seconds reported for a non-zero duration: one below a second
   * (negative durations included), otherwise the duration rounded.
   */
  function ElapsedSeconds(d: real): (n: int)
    requires d != 0.0
    ensures n >= 1
    ensures d < 1.0 ==> n == 1
    ensures d >= 1.0 ==> n == RoundHalfEven(d)
  {
    if d < 1.0 then 1 else RoundHalfEven(d)
  }

  /** The `elapsed` text of a duration: absent for a zero duration, else the seconds and `s`. */
  function Elapsed(d: real): (r: Option<string>)
    ensures r.None? <==> d == 0.0
  {
    if d == 0.0 then None else Some(IntStr(ElapsedSeconds(d)) + "s")
  }

  /** A present `elapsed` reads back as its whole seconds followed by `s`. */
  lemma ElapsedReadBack(d: real)
    requires d != 0.0
    ensures Elapsed(d).Some?
    ensures var e := Elapsed(d).value;
      |e| >= 2 && e[|e| - 1] == 's' && ParseInt(e[..|e| - 1]) == Some(ElapsedSeconds(d))
  {
    var n := ElapsedSeconds(d);
    IntStrRoundTrip(n);
    NatStrDigits(n);
    var e := Elapsed(d).value;
    assert e[..|e| - 1] == IntStr(n);
  }

  /** The examples of the rule: 0.4 s, 2.5 s and 3.5 s (ties to even), and zero. */
  lemma ElapsedExamples()
    ensures Elapsed(0.4) == Some("1s")
    ensures Elapsed(2.5) == Some("2s")
    ensures Elapsed(3.5) == Some("4s")
    ensures Elapsed(0.0) == None
  {
    RoundHalfEvenUnique(2.5, 2);
    RoundHalfEvenUnique(3.5, 4);
    assert ElapsedSeconds(0.4) == 1 && ElapsedSeconds(2.5) == 2 && ElapsedSeconds(3.5) == 4;
    assert IntStr(1) == "1" && IntStr(2) == "2" && IntStr(4) == "4";
    assert IntStr(1) + "s" == "1s" && IntStr(2) + "s" == "2s" && IntStr(4) + "s" == "4s";
  }

  /**
   * The wire entry of one result: status, case and defects are copied, the
   * version key exists exactly when a version is configured, `elapsed`
   * exactly when the duration is non-zero.
   */
  function WireEntryOf(r: ResultEntry, s: Session, limit: nat): (e: WireEntry)
    ensures e.caseId == r.caseId && e.statusId == r.statusId && e.defects == r.defects
    ensures e.version.Some? <==> s.version != ""
    ensures e.version.Some? ==> e.version.value == s.version
    ensures e.elapsed.None? <==> r.duration == 0.0
    ensures e.elapsed == Elapsed(r.duration)
    ensures e.comment == ComposeComment(r, s.customComment, limit)
  {
    WireEntry(r.statusId, r.caseId, r.defects,
              if s.version != "" then Some(s.version) else None,
              ComposeComment(r, s.customComment, limit),
              Elapsed(r.duration))
  }

  /** The wire entries of a list of results, one per result, in the same order. */
  function WireEntries(rs: seq<ResultEntry>, s: Session, limit: nat): (es: seq<WireEntry>)
    ensures |es| == |rs|
    ensures forall i :: 0 <= i < |rs| ==> es[i] == WireEntryOf(rs[i], s, limit)
  {
    seq(|rs|, i requires 0 <= i < |rs| => WireEntryOf(rs[i], s, limit))
  }
}
