/**
 * The few Python string operations the publisher relies on: `str(n)` of an
 * integer, the tail slice `s[-k:]` and `s.replace('\n', '\n    ')`.
 */
module PyText {
  import opened Wrappers

  predicate IsDigit(c: char) {
    '0' <= c <= '9'
  }

  predicate AllDigits(s: string) {
    forall i :: 0 <= i < |s| ==> IsDigit(s[i])
  }

  function DigitChar(d: nat): (c: char)
    requires d < 10
    ensures IsDigit(c) && c as int - '0' as int == d
  {
    ('0' as int + d) as char
  }

  /** `str(n)` for a non-negative integer: its decimal digits, most significant first. */
  function NatStr(n: nat): string
    decreases n
  {
    if n < 10 then [DigitChar(n)] else NatStr(n / 10) + [DigitChar(n % 10)]
  }

  /** `str(n)` for any integer. */
  function IntStr(n: int): string {
    if n < 0 then "-" + NatStr(-n) else NatStr(n)
  }

  /** The value of a string of decimal digits (used only to read `str(n)` back). */
  function DecimalValue(s: string): nat
    requires AllDigits(s)
    decreases |s|
  {
    if s == [] then 0
    else 10 * DecimalValue(s[..|s| - 1]) + (s[|s| - 1] as int - '0' as int)
  }

  /** `int(s)` restricted to what `str` produces: an optional minus sign and digits. */
  function ParseInt(s: string): Option<int> {
    if |s| > 1 && s[0] == '-' && AllDigits(s[1..]) then Some(-(DecimalValue(s[1..]) as int))
    else if |s| > 0 && AllDigits(s) then Some(DecimalValue(s))
    else None
  }

  lemma {:induction false} NatStrDigits(n: nat)
    ensures |NatStr(n)| >= 1 && AllDigits(NatStr(n))
    ensures DecimalValue(NatStr(n)) == n
    decreases n
  {
    if n >= 10 {
      NatStrDigits(n / 10);
      var s := NatStr(n);
      assert s[..|s| - 1] == NatStr(n / 10);
    }
  }

  /** `str` loses nothing: the integer can be read back from its decimal text. */
  lemma IntStrRoundTrip(n: int)
    ensures ParseInt(IntStr(n)) == Some(n)
  {
    if n < 0 {
      NatStrDigits(-n);
      assert IntStr(n)[1..] == NatStr(-n);
    } else {
      NatStrDigits(n);
      assert IntStr(n)[0] != '-';
    }
  }

  /** Two integers have the same `str` exactly when they are equal. */
  lemma IntStrInjective(a: int, b: int)
    ensures IntStr(a) == IntStr(b) <==> a == b
  {
    IntStrRoundTrip(a);
    IntStrRoundTrip(b);
  }

  /**
   * Python's `s[-k:]`: the last `k` characters of `s`, or all of `s` when it
   * is shorter.  For `k == 0` the slice is `s[0:]`, the whole string.
   */
  function PyTail(s: string, k: nat): (r: string)
    ensures |r| <= |s| && r == s[|s| - |r|..]
    ensures k > 0 ==> |r| == if |s| <= k then |s| else k
    ensures k == 0 ==> r == s
  {
    if k == 0 || |s| <= k then s else s[|s| - k..]
  }

  const Indent := "    "

  /** `s.replace('\n', '\n    ')`: every line break is followed by four spaces. */
  function IndentBreaks(s: string): string
    decreases |s|
  {
    if s == [] then []
    else (if s[0] == '\n' then "\n" + Indent else [s[0]]) + IndentBreaks(s[1..])
  }

  /** The inverse of IndentBreaks: drops four spaces after every line break that has them. */
  function DedentBreaks(t: string): string
    decreases |t|
  {
    if t == [] then []
    else if t[0] == '\n' && |t| >= 5 && t[1..5] == Indent then "\n" + DedentBreaks(t[5..])
    else [t[0]] + DedentBreaks(t[1..])
  }

  /** Indentation is reversible, so the indented log still holds exactly the kept text. */
  lemma {:induction false} DedentIndent(s: string)
    ensures DedentBreaks(IndentBreaks(s)) == s
    decreases |s|
  {
    if s != [] {
      DedentIndent(s[1..]);
      var t := IndentBreaks(s);
      if s[0] == '\n' {
        assert t[1..5] == Indent && t[5..] == IndentBreaks(s[1..]);
      } else {
        assert t[0] == s[0] && t[1..] == IndentBreaks(s[1..]);
      }
    }
  }

  /** Every line break in an indented text is followed by the four-space indent. */
  lemma {:induction false} IndentFollowsBreaks(s: string, i: nat)
    requires i < |IndentBreaks(s)| && IndentBreaks(s)[i] == '\n'
    ensures i + 5 <= |IndentBreaks(s)| && IndentBreaks(s)[i + 1..i + 5] == Indent
    decreases |s|
  {
    var t := IndentBreaks(s);
    var head := if s[0] == '\n' then "\n" + Indent else [s[0]];
    assert t == head + IndentBreaks(s[1..]);
    if i >= |head| {
      IndentFollowsBreaks(s[1..], i - |head|);
      assert t[i + 1..i + 5] == IndentBreaks(s[1..])[i - |head| + 1..i - |head| + 5];
    }
  }
}
