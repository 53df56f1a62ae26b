// formatPhone of scripts/main.js: the first run of eleven digits shown as a
// Brazilian mobile number, two area digits in brackets and a dash before the last four.

module PhoneFormat {
  import opened Strings

  /** Eleven consecutive digits start at position p. */
  predicate RunAt(s: string, p: int) {
    0 <= p && p + 11 <= |s| && forall t :: p <= t < p + 11 ==> IsDigit(s[t])
  }

  /** The leftmost position at or after k where eleven digits start, or -1:
      where a regular expression without the global flag first matches. */
  function FirstRun(s: string, k: nat): (p: int)
    requires k <= |s|
    ensures p == -1 || (k <= p && RunAt(s, p))
    ensures p == -1 ==> forall q :: k <= q ==> !RunAt(s, q)
    ensures p >= 0 ==> forall q :: k <= q < p ==> !RunAt(s, q)
    decreases |s| - k
  {
    if k + 11 > |s| then -1
    else if RunAt(s, k) then k
    else FirstRun(s, k + 1)
  }

  /** formatPhone: the first run of eleven digits rewritten as "(DD) DDDDD-DDDD";
      everything around it is kept. */
  function FormatPhone(phone: string): (r: string)
    ensures FirstRun(phone, 0) == -1 ==> r == phone
    ensures var p := FirstRun(phone, 0);
      p >= 0 ==>
        |r| == |phone| + 4 && r[..p] == phone[..p] && r[p] == '(' && r[p + 1..p + 3] == phone[p..p + 2]
        && r[p + 3] == ')' && r[p + 4] == ' ' && r[p + 5..p + 10] == phone[p + 2..p + 7]
        && r[p + 10] == '-' && r[p + 11..p + 15] == phone[p + 7..p + 11] && r[p + 15..] == phone[p + 11..]
  {
    var p := FirstRun(phone, 0);
    if p == -1 then phone
    else phone[..p] + "(" + phone[p..p + 2] + ") " + phone[p + 2..p + 7] + "-"
         + phone[p + 7..p + 11] + phone[p + 11..]
  }

  /** The digits of a string, in order. */
  function Digits(s: string): (r: string)
    ensures AllDigits(r) && |r| <= |s|
  {
    if s == [] then []
    else Digits(s[..|s| - 1]) + (if IsDigit(s[|s| - 1]) then [s[|s| - 1]] else [])
  }

  lemma {:induction false} DigitsConcat(a: string, b: string)
    ensures Digits(a + b) == Digits(a) + Digits(b)
  {
    if b == [] {
      assert a + b == a;
    } else {
      var c := b[..|b| - 1];
      DigitsConcat(a, c);
      assert (a + b)[..|a + b| - 1] == a + c;
      assert (a + b)[|a + b| - 1] == b[|b| - 1];
    }
  }

  /** A string with no run of eleven digits is returned unchanged. */
  lemma NoRunUnchanged(s: string)
    requires forall q :: !RunAt(s, q)
    ensures FormatPhone(s) == s
  {
    assert FirstRun(s, 0) == -1;
  }

  lemma DigitsOfParts(a: string, b: string, c: string, d: string, e: string)
    ensures Digits(a + b + c + d + e) == Digits(a) + Digits(b) + Digits(c) + Digits(d) + Digits(e)
  {
    DigitsConcat(a, b);
    DigitsConcat(a + b, c);
    DigitsConcat(a + b + c, d);
    DigitsConcat(a + b + c + d, e);
  }

  /** Putting a digit run between two separators adds no digit. */
  lemma DigitsBetween(x: string, c: string, y: string)
    requires Digits(x) == [] && Digits(y) == []
    ensures Digits(x + c + y) == Digits(c)
  {
    DigitsConcat(x, c);
    DigitsConcat(x + c, y);
  }

  /** The punctuation formatPhone inserts holds no digit. */
  lemma SeparatorsHoldNoDigit()
    ensures Digits("(") == [] && Digits(") ") == [] && Digits("-") == [] && Digits("") == []
  {
    assert "("[..0] == "" && ") "[..1] == ")" && ")"[..0] == "" && "-"[..0] == "";
  }

  /** The input cut around the run at p: the text before, the three digit groups,
      the text after. */
  lemma RunSplit(s: string, p: nat)
    requires p + 11 <= |s|
    ensures s == s[..p] + s[p..p + 2] + s[p + 2..p + 7] + s[p + 7..p + 11] + s[p + 11..]
  {
  }

  /** The formatted text cut the same way, with the punctuation joined to its
      neighbouring pieces. */
  lemma FormattedSplit(s: string)
    requires FirstRun(s, 0) >= 0
    ensures var p := FirstRun(s, 0);
      FormatPhone(s) == (s[..p] + "(") + s[p..p + 2] + (") " + s[p + 2..p + 7] + "-")
                        + s[p + 7..p + 11] + s[p + 11..]
  {
  }

  /** Formatting adds four characters, "(", ")", " " and "-", and changes
      nothing else: the digits, read in order, are the same before and after. */
  lemma FormatKeepsDigits(s: string)
    ensures Digits(FormatPhone(s)) == Digits(s)
    ensures |FormatPhone(s)| == if FirstRun(s, 0) == -1 then |s| else |s| + 4
  {
    var p := FirstRun(s, 0);
    if p != -1 {
      var a, b, c, d, e := s[..p], s[p..p + 2], s[p + 2..p + 7], s[p + 7..p + 11], s[p + 11..];
      var a', c' := a + "(", ") " + c + "-";
      assert Digits(s) == Digits(a) + Digits(b) + Digits(c) + Digits(d) + Digits(e) by {
        RunSplit(s, p);
        DigitsOfParts(a, b, c, d, e);
      }
      assert Digits(FormatPhone(s)) == Digits(a') + Digits(b) + Digits(c') + Digits(d) + Digits(e) by {
        FormattedSplit(s);
        DigitsOfParts(a', b, c', d, e);
      }
      assert Digits(a') == Digits(a) by {
        SeparatorsHoldNoDigit();
        DigitsConcat(a, "(");
      }
      assert Digits(c') == Digits(c) by {
        SeparatorsHoldNoDigit();
        DigitsBetween(") ", c, "-");
      }
    }
  }
}
