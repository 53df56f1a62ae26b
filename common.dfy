// Small value types and string helpers shared by the storefront scripts.

module Options {
  /** A JavaScript value that may be `undefined` (or a lookup that may fail). */
  datatype Option<T> = None | Some(value: T)
}

module Strings {

  /** The characters JavaScript treats as white space or line terminators:
      what the regular-expression class `\s` matches and what `trim` strips. */
  predicate IsSpace(c: char) {
    c == '\t' || c == '\n' || c == '\U{B}' || c == '\U{C}' || c == '\r' || c == ' '
    || c == '\U{A0}' || c == '\U{1680}' || ('\U{2000}' <= c <= '\U{200A}')
    || c == '\U{2028}' || c == '\U{2029}' || c == '\U{202F}' || c == '\U{205F}'
    || c == '\U{3000}' || c == '\U{FEFF}'
  }

  /** What the regular-expression class `\d` matches. */
  predicate IsDigit(c: char) {
    '0' <= c <= '9'
  }

  predicate AllDigits(s: string) {
    forall i :: 0 <= i < |s| ==> IsDigit(s[i])
  }

  function DigitChar(d: nat): (c: char)
    requires d < 10
    ensures IsDigit(c) && (c as int) - ('0' as int) == d
  {
    ('0' as int + d) as char
  }

  /** Decimal text of a natural number, as JavaScript's template literals print it. */
  function NatToString(n: nat): (r: string)
    ensures |r| >= 1 && AllDigits(r)
    ensures r[0] == '0' ==> r == "0"
  {
    if n < 10 then [DigitChar(n)] else NatToString(n / 10) + [DigitChar(n % 10)]
  }

  /** The number a string of decimal digits denotes. */
  function DigitsValue(s: string): nat
    requires AllDigits(s)
  {
    if s == [] then 0
    else 10 * DigitsValue(s[..|s| - 1]) + ((s[|s| - 1] as int) - ('0' as int))
  }

  /** Reading back the printed digits gives the number printed. */
  lemma {:induction false} NatToStringRoundTrip(n: nat)
    ensures DigitsValue(NatToString(n)) == n
  {
    var r := NatToString(n);
    if n >= 10 {
      NatToStringRoundTrip(n / 10);
      assert r[..|r| - 1] == NatToString(n / 10);
    }
  }

  /** Decimal text of an integer, with a leading '-' for negatives. */
  function IntToString(i: int): string {
    if i < 0 then "-" + NatToString(-i) else NatToString(i)
  }

  /** The sign and the digits of IntToString read back as the integer printed. */
  lemma IntToStringRoundTrip(i: int)
    ensures var r := IntToString(i);
      |r| >= 1 && (r[0] == '-' <==> i < 0)
      && (i < 0 ==> AllDigits(r[1..]) && DigitsValue(r[1..]) == -i)
      && (i >= 0 ==> AllDigits(r) && DigitsValue(r) == i)
  {
    if i < 0 {
      var d := NatToString(-i);
      NatToStringRoundTrip(-i);
      assert ("-" + d)[1..] == d;
    } else {
      NatToStringRoundTrip(i);
    }
  }

  /** JavaScript's `length` of a string: its number of UTF-16 code units, one for
      a character up to U+FFFF and two (a surrogate pair) for one above it. */
  function Utf16Length(s: string): (n: nat)
    ensures |s| <= n <= 2 * |s|
  {
    if s == [] then 0
    else Utf16Length(s[..|s| - 1]) + (if s[|s| - 1] > '\U{FFFF}' then 2 else 1)
  }

  /** On text without characters above U+FFFF, `length` counts characters. */
  lemma {:induction false} Utf16LengthBasic(s: string)
    requires forall i :: 0 <= i < |s| ==> s[i] <= '\U{FFFF}'
    ensures Utf16Length(s) == |s|
  {
    if s != [] {
      Utf16LengthBasic(s[..|s| - 1]);
    }
  }

  /** The first position at or after k that does not hold white space (|s| if none). */
  function SkipSpace(s: string, k: nat): (a: nat)
    requires k <= |s|
    ensures k <= a <= |s|
    ensures forall i :: k <= i < a ==> IsSpace(s[i])
    ensures a < |s| ==> !IsSpace(s[a])
    decreases |s| - k
  {
    if k == |s| || !IsSpace(s[k]) then k else SkipSpace(s, k + 1)
  }

  /** Walking back from k, no further than lo: the position just after the last
      character that is not white space (lo if none). */
  function SkipSpaceBack(s: string, lo: nat, k: nat): (e: nat)
    requires lo <= k <= |s|
    ensures lo <= e <= k
    ensures forall i :: e <= i < k ==> IsSpace(s[i])
    ensures lo < e ==> !IsSpace(s[e - 1])
    decreases k
  {
    if k == lo || !IsSpace(s[k - 1]) then k else SkipSpaceBack(s, lo, k - 1)
  }

  /** JavaScript's `String.prototype.trim`: `s` without its leading and its
      trailing white space. */
  function Trim(s: string): (r: string)
    ensures |r| <= |s|
    ensures r != [] ==> !IsSpace(r[0]) && !IsSpace(r[|r| - 1])
    ensures (forall i :: 0 <= i < |s| ==> IsSpace(s[i])) <==> r == []
  {
    var a := SkipSpace(s, 0);
    s[a..SkipSpaceBack(s, a, |s|)]
  }

  /** Trim keeps one slice of its input; everything before and after that slice
      is white space, and the slice neither starts nor ends with white space. */
  lemma TrimIsSlice(s: string)
    ensures var a := SkipSpace(s, 0); var b := SkipSpaceBack(s, a, |s|);
      a <= b <= |s| && Trim(s) == s[a..b]
      && (forall i :: 0 <= i < a ==> IsSpace(s[i]))
      && (forall i :: b <= i < |s| ==> IsSpace(s[i]))
      && (a < b ==> !IsSpace(s[a]) && !IsSpace(s[b - 1]))
  {
  }

  /** A trimmed string is its own trim. */
  lemma TrimIdempotent(s: string)
    ensures Trim(Trim(s)) == Trim(s)
  {
    TrimIsSlice(s);
    var r := Trim(s);
    if r != [] {
      assert SkipSpace(r, 0) == 0;
      assert SkipSpaceBack(r, 0, |r|) == |r|;
    }
  }
}
