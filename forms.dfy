// validateForm and isValidEmail of scripts/main.js.

module FormValidation {
  import opened Options
  import opened Strings

  /** The fields validateForm reads; None is a missing (undefined or null) field. */
  datatype FormData = FormData(name: Option<string>, email: Option<string>)

  const NameError: string := "Nome deve ter pelo menos 2 caracteres"
  const EmailError: string := "Email inválido"

  /** A character the class `[^\s@]` accepts. */
  predicate Plain(c: char) {
    !IsSpace(c) && c != '@'
  }

  /** Every character of s[lo..hi] is accepted by `[^\s@]`. */
  predicate PlainRange(s: string, lo: int, hi: int)
    requires 0 <= lo <= hi <= |s|
  {
    forall k :: lo <= k < hi ==> Plain(s[k])
  }

  /** The strings `^[^\s@]+@[^\s@]+\.[^\s@]+$` matches: a non-empty local part,
      '@', a non-empty run, '.', a non-empty run, none of the three runs holding
      white space or '@'. */
  ghost predicate EmailPattern(e: string) {
    exists at, dot :: 0 < at && at + 1 < dot && dot + 1 < |e| && e[at] == '@' && e[dot] == '.'
      && PlainRange(e, 0, at) && PlainRange(e, at + 1, dot) && PlainRange(e, dot + 1, |e|)
  }

  /** The position of the first '@', or |e| when there is none. */
  function FirstAt(e: string, k: nat): (r: nat)
    requires k <= |e|
    ensures k <= r <= |e|
    ensures r < |e| ==> e[r] == '@'
    ensures forall j :: k <= j < r ==> e[j] != '@'
    decreases |e| - k
  {
    if k == |e| || e[k] == '@' then k else FirstAt(e, k + 1)
  }

  /** The test isValidEmail makes once the first '@' is known: that '@' is inside
      the string, every other character is plain, and some '.' lies strictly
      inside the text after the '@'. */
  predicate AtDotShape(e: string, at: nat) {
    0 < at < |e| && (forall k :: 0 <= k < |e| && k != at ==> Plain(e[k]))
    && exists dot :: at + 1 < dot < |e| - 1 && e[dot] == '.'
  }

  /** A string of that shape matches the regular expression. */
  lemma ShapeGivesPattern(e: string, at: nat)
    requires AtDotShape(e, at) && e[at] == '@'
    ensures EmailPattern(e)
  {
    var dot :| at + 1 < dot < |e| - 1 && e[dot] == '.';
    assert PlainRange(e, 0, at) && PlainRange(e, at + 1, dot) && PlainRange(e, dot + 1, |e|);
  }

  /** A string the regular expression matches has that shape around its first '@'. */
  lemma PatternGivesShape(e: string)
    requires EmailPattern(e)
    ensures AtDotShape(e, FirstAt(e, 0))
  {
    var at := FirstAt(e, 0);
    var a, dot :| 0 < a && a + 1 < dot && dot + 1 < |e| && e[a] == '@' && e[dot] == '.'
      && PlainRange(e, 0, a) && PlainRange(e, a + 1, dot) && PlainRange(e, dot + 1, |e|);
    assert at == a by {
      assert !Plain(e[a]);
    }
    assert forall k :: 0 <= k < |e| && k != at ==> Plain(e[k]);
  }

  /** Given the first '@', the shape test decides the regular expression. */
  lemma FirstAtDecidesPattern(e: string)
    ensures AtDotShape(e, FirstAt(e, 0)) <==> EmailPattern(e)
  {
    var at := FirstAt(e, 0);
    if AtDotShape(e, at) {
      ShapeGivesPattern(e, at);
    }
    if EmailPattern(e) {
      PatternGivesShape(e);
    }
  }

  /** isValidEmail: the regular-expression test, decided by locating the only
      '@' and a '.' strictly inside what follows it. */
  function IsValidEmail(email: string): (r: bool)
    ensures r <==> EmailPattern(email)
  {
    FirstAtDecidesPattern(email);
    AtDotShape(email, FirstAt(email, 0))
  }

  /** `!formData.name || formData.name.trim().length < 2`, where `length`
      counts UTF-16 code units. */
  predicate NameInvalid(f: FormData) {
    f.name.None? || Utf16Length(Trim(f.name.value)) < 2
  }

  /** `!formData.email || !isValidEmail(formData.email)`. */
  predicate EmailInvalid(f: FormData) {
    f.email.None? || f.email.value == "" || !IsValidEmail(f.email.value)
  }

  /** validateForm: the name check, then the email check, each pushing its
      message onto `errors`; the form is valid when nothing was pushed. */
  method ValidateForm(formData: FormData) returns (isValid: bool, errors: seq<string>)
    ensures NameError in errors <==> NameInvalid(formData)
    ensures EmailError in errors <==> EmailInvalid(formData)
    ensures errors == (if NameInvalid(formData) then [NameError] else [])
                      + (if EmailInvalid(formData) then [EmailError] else [])
    ensures isValid <==> errors == []
    ensures isValid <==> !NameInvalid(formData) && !EmailInvalid(formData)
  {
    errors := [];
    if formData.name.None? || Utf16Length(Trim(formData.name.value)) < 2 {
      errors := errors + [NameError];
    }
    if formData.email.None? || formData.email.value == "" || !IsValidEmail(formData.email.value) {
      errors := errors + [EmailError];
    }
    isValid := |errors| == 0;
  }

  /** A name of at least two characters with no white space at either end passes. */
  lemma TrimmedNameValid(f: FormData)
    requires f.name.Some? && |f.name.value| >= 2
    requires !IsSpace(f.name.value[0]) && !IsSpace(f.name.value[|f.name.value| - 1])
    ensures !NameInvalid(f)
  {
    var n := f.name.value;
    assert SkipSpace(n, 0) == 0;
    assert SkipSpaceBack(n, 0, |n|) == |n|;
    assert Trim(n) == n[0..|n|];
  }

  /** A name of one character above U+FFFF has a `length` of 2 and passes;
      a name of one other character does not. */
  lemma OneCharacterName(c: char, email: Option<string>)
    requires !IsSpace(c)
    ensures NameInvalid(FormData(Some([c]), email)) <==> c <= '\U{FFFF}'
  {
    assert SkipSpace([c], 0) == 0;
    assert SkipSpaceBack([c], 0, 1) == 1;
    assert Trim([c]) == [c];
    assert [c][..0] == [];
  }
}
