/** Text helpers shared by the models: Python's `str.strip` and the decimal form of an integer. */
module Text {

  /** The characters `str.strip` removes. */
  predicate IsSpace(c: char) {
    '\t' <= c <= '\r' || '\U{1c}' <= c <= ' ' || c == '\U{85}' || c == '\U{a0}' || c == '\U{1680}' ||
    '\U{2000}' <= c <= '\U{200a}' || c == '\U{2028}' || c == '\U{2029}' || c == '\U{202f}' || c == '\U{205f}' ||
    c == '\U{3000}'
  }

  function StripLeft(s: string): string {
    if s != [] && IsSpace(s[0]) then StripLeft(s[1..]) else s
  }

  function StripRight(s: string): string {
    if s != [] && IsSpace(s[|s| - 1]) then StripRight(s[..|s| - 1]) else s
  }

  function Strip(s: string): string {
    StripRight(StripLeft(s))
  }

  lemma {:induction false} StripRightEnds(s: string)
    ensures StripRight(s) <= s
    ensures StripRight(s) != [] ==> !IsSpace(StripRight(s)[|StripRight(s)| - 1])
  {
    if s != [] && IsSpace(s[|s| - 1]) {
      StripRightEnds(s[..|s| - 1]);
    }
  }

  lemma {:induction false} StripLeftEnds(s: string)
    ensures StripLeft(s) != [] ==> !IsSpace(StripLeft(s)[0])
  {
    if s != [] && IsSpace(s[0]) {
      StripLeftEnds(s[1..]);
    }
  }

  /** Stripping twice is stripping once. */
  lemma StripTwice(s: string)
    ensures Strip(Strip(s)) == Strip(s)
  {
    StripLeftEnds(s);
    StripRightEnds(StripLeft(s));
  }

  /** Stripping changes nothing exactly on a text with no space at either end. */
  lemma StrippedIff(s: string)
    ensures Strip(s) == s <==> s == "" || (!IsSpace(s[0]) && !IsSpace(s[|s| - 1]))
  {
    StripLeftEnds(s);
    StripLeftShortens(s);
    StripRightEnds(StripLeft(s));
    if s != "" && Strip(s) == s {
      assert |StripLeft(s)| == |s|;
    }
  }

  lemma {:induction false} StripLeftShortens(s: string)
    ensures |StripLeft(s)| <= |s| && (|StripLeft(s)| == |s| ==> StripLeft(s) == s)
  {
    if s != [] && IsSpace(s[0]) {
      StripLeftShortens(s[1..]);
    }
  }

  /** Nothing is left exactly of a text of spaces. */
  lemma {:induction false} BlankIff(s: string)
    ensures Strip(s) == "" <==> forall i :: 0 <= i < |s| ==> IsSpace(s[i])
  {
    hide IsSpace;
    StripRightBlank(StripLeft(s));
    StripLeftBlank(s);
    StripLeftEnds(s);
  }

  lemma {:induction false} StripRightBlank(s: string)
    ensures StripRight(s) == "" <==> forall i :: 0 <= i < |s| ==> IsSpace(s[i])
  {
    hide IsSpace;
    if s != [] && IsSpace(s[|s| - 1]) {
      StripRightBlank(s[..|s| - 1]);
    }
  }

  lemma {:induction false} StripLeftBlank(s: string)
    ensures StripLeft(s) == "" <==> forall i :: 0 <= i < |s| ==> IsSpace(s[i])
  {
    hide IsSpace;
    if s != [] && IsSpace(s[0]) {
      StripLeftBlank(s[1..]);
      assert forall i :: 0 < i < |s| ==> s[i] == s[1..][i - 1];
    }
  }

  const DIGITS := "0123456789"

  function Decimal(n: nat): string {
    if n < 10 then [DIGITS[n]] else Decimal(n / 10) + [DIGITS[n % 10]]
  }

  function IntText(i: int): string {
    if i < 0 then "-" + Decimal(-i) else Decimal(i)
  }

  function Value(s: string): nat {
    if s == [] then 0
    else Value(s[..|s| - 1]) * 10 + (if s[|s| - 1] in DIGITS then (s[|s| - 1] as int - '0' as int) else 0)
  }

  /** The decimal form reads back as the number. */
  lemma {:induction false} DecimalReadsBack(n: nat)
    ensures |Decimal(n)| > 0 && Value(Decimal(n)) == n
  {
    hide Value, Decimal;
    if n >= 10 {
      DecimalReadsBack(n / 10);
      ValueOfNext(n);
    } else {
      ValueOfDigit(n);
    }
  }

  lemma DigitIsValue(d: nat)
    requires d < 10
    ensures DIGITS[d] in DIGITS && DIGITS[d] as int - '0' as int == d
  {
    assert |DIGITS| == 10;
  }

  lemma ValueOfDigit(n: nat)
    requires n < 10
    ensures Decimal(n) == [DIGITS[n]] && Value(Decimal(n)) == n
  {
    DigitIsValue(n);
    var s := [DIGITS[n]];
    assert s[..|s| - 1] == [];
  }

  lemma ValueOfNext(n: nat)
    requires n >= 10
    ensures Decimal(n) != [] && Value(Decimal(n)) == Value(Decimal(n / 10)) * 10 + n % 10
  {
    DigitIsValue(n % 10);
    var s := Decimal(n / 10) + [DIGITS[n % 10]];
    assert s[..|s| - 1] == Decimal(n / 10);
  }

  /** A larger number never has a shorter decimal form. */
  lemma {:induction false} DecimalGrows(m: nat, n: nat)
    requires m <= n
    ensures |Decimal(m)| <= |Decimal(n)|
  {
    if m >= 10 {
      DecimalGrows(m / 10, n / 10);
    }
  }
}
