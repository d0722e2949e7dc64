/** How JavaScript turns the values this module handles into text when it
    concatenates them with `+`, and how such text can be split again. */
module JsText {
  import opened Wrappers

  predicate IsDigit(c: char) {
    '0' <= c <= '9'
  }

  predicate AllDigits(s: string) {
    forall i :: 0 <= i < |s| ==> IsDigit(s[i])
  }

  function DigitChar(d: nat): (c: char)
    requires d < 10
    ensures IsDigit(c)
  {
    ('0' as int + d) as char
  }

  function DigitValue(c: char): (d: nat)
    requires IsDigit(c)
    ensures d < 10 && DigitChar(d) == c
  {
    c as int - '0' as int
  }

  /** `String(n)` for a non-negative integer: its decimal digits with no
      leading zero ("0" for zero). The source's ports are such numbers. */
  function NumberToString(n: nat): (s: string)
    ensures |s| >= 1 && AllDigits(s)
    ensures (s[0] == '0') == (n == 0)
    ensures n == 0 ==> s == "0"
    decreases n
  {
    if n < 10 then [DigitChar(n)] else NumberToString(n / 10) + [DigitChar(n % 10)]
  }

  /** The number a string of decimal digits denotes (the reference that
      NumberToString is checked against). */
  function DecimalValue(s: string): nat
    requires AllDigits(s)
  {
    if s == [] then 0 else DecimalValue(s[..|s| - 1]) * 10 + DigitValue(s[|s| - 1])
  }

  /** The text of a number reads back as that number. */
  lemma {:induction false} NumberToStringRoundTrip(n: nat)
    ensures DecimalValue(NumberToString(n)) == n
  {
    if n >= 10 {
      var s := NumberToString(n);
      assert s[..|s| - 1] == NumberToString(n / 10);
      NumberToStringRoundTrip(n / 10);
    }
  }

  /** Distinct numbers have distinct texts. */
  lemma NumberToStringInjective(m: nat, n: nat)
    ensures NumberToString(m) == NumberToString(n) <==> m == n
  {
    NumberToStringRoundTrip(m);
    NumberToStringRoundTrip(n);
  }

  /** A property that may be undefined, as string concatenation prints it. */
  function ShowString(v: Option<string>): string {
    match v
    case None => "undefined"
    case Some(s) => s
  }

  /** A numeric property that may be undefined, as string concatenation prints it. */
  function ShowNumber(v: Option<nat>): (s: string)
    ensures v.Some? ==> AllDigits(s)
    ensures v.None? ==> |s| > 0 && !IsDigit(s[0])
  {
    match v
    case None => "undefined"
    case Some(n) => NumberToString(n)
  }

  /** Different numeric properties (including undefined) print differently. */
  lemma ShowNumberInjective(a: Option<nat>, b: Option<nat>)
    ensures ShowNumber(a) == ShowNumber(b) <==> a == b
  {
    if a.Some? && b.Some? {
      NumberToStringInjective(a.value, b.value);
    } else if a.Some? && b.None? {
      assert IsDigit(ShowNumber(a)[0]);
    } else if a.None? && b.Some? {
      assert IsDigit(ShowNumber(b)[0]);
    }
  }

  /** The position of the last occurrence of `c` in `s`, if any. */
  function LastIndexOf(s: string, c: char): (r: Option<nat>)
    ensures r.Some? ==> r.value < |s| && s[r.value] == c
    ensures r.Some? ==> forall j :: r.value < j < |s| ==> s[j] != c
    ensures r.None? ==> forall j :: 0 <= j < |s| ==> s[j] != c
    decreases |s|
  {
    if s == [] then None
    else if s[|s| - 1] == c then Some(|s| - 1)
    else LastIndexOf(s[..|s| - 1], c)
  }

  /** `s` cut at its last `c`: the text before it and the text after it. */
  function SplitAtLast(s: string, c: char): Option<(string, string)> {
    match LastIndexOf(s, c)
    case None => None
    case Some(i) => Some((s[..i], s[i + 1..]))
  }

  /** Cutting `before + [c] + after` at its last `c` gives back both parts
      whenever `after` has no `c`, whatever `before` holds. */
  lemma SplitAtLastJoin(before: string, c: char, after: string)
    requires forall j :: 0 <= j < |after| ==> after[j] != c
    ensures SplitAtLast(before + [c] + after, c) == Some((before, after))
  {
    var s := before + [c] + after;
    assert s[|before|] == c;
    forall j | |before| < j < |s|
      ensures s[j] != c
    {
      assert s[j] == after[j - |before| - 1];
    }
    assert LastIndexOf(s, c) == Some(|before|);
    assert s[..|before|] == before;
    assert s[|before| + 1..] == after;
  }
}
