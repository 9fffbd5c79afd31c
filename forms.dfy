/**
 * The browser-side validation rules shared by the two scripts that guard the
 * contact and quote forms: a form is a map from field id to its current value
 * (a field missing from the map has no element on the page).
 */
module Forms {
  import opened Strings

  type Form = map<string, string>

  /** One inline error message shown under a field. */
  datatype FieldError = FieldError(field: string, message: string)

  /**
   * What a validation run ends in: it stops with an exception when it reads a
   * field the page does not have, or it finishes with the errors it showed.
   */
  datatype Validation = Threw | Checked(errors: seq<FieldError>) {
    predicate Accepted() {
      Checked? && errors == []
    }
  }

  /** A character of the class `[^\s@]`. */
  predicate EmailChar(c: char) {
    !IsSpace(c) && c != '@'
  }

  predicate AllEmailChars(t: string) {
    forall k :: 0 <= k < |t| ==> EmailChar(t[k])
  }

  /** `^[^\s@]+@[^\s@]+\.[^\s@]+$`: the ways the pattern can split a string. */
  predicate EmailPattern(s: string) {
    exists i, j :: 0 < i && i + 1 < j < |s| - 1 && s[i] == '@' && s[j] == '.'
      && AllEmailChars(s[..i]) && AllEmailChars(s[i + 1..j]) && AllEmailChars(s[j + 1..])
  }

  function CountChar(s: string, c: char): (n: nat)
    ensures n <= |s|
    ensures n == 0 <==> c !in s
  {
    if s == [] then 0 else (if s[0] == c then 1 else 0) + CountChar(s[1..], c)
  }

  lemma {:induction false} CountCharConcat(a: string, b: string, c: char)
    ensures CountChar(a + b, c) == CountChar(a, c) + CountChar(b, c)
  {
    if a == [] {
      assert a + b == b;
    } else {
      assert (a + b)[1..] == a[1..] + b;
      CountCharConcat(a[1..], b, c);
    }
  }

  /** The domain part has a '.' with text on both sides. */
  predicate HasInnerDot(d: string) {
    exists j :: 1 <= j < |d| - 1 && d[j] == '.'
  }

  /**
   * The rule in plain words: exactly one '@', no white space, something before
   * the '@', and a '.' in the domain that is neither its first nor its last
   * character.
   */
  predicate WellFormedEmail(s: string) {
    CountChar(s, '@') == 1
    && (forall k :: 0 <= k < |s| ==> !IsSpace(s[k]))
    && (forall k :: 0 <= k < |s| && s[k] == '@' ==> 0 < k && HasInnerDot(s[k + 1..]))
  }

  lemma SplitAt(s: string, i: nat)
    requires i < |s|
    ensures s == s[..i] + [s[i]] + s[i + 1..]
  {
  }

  lemma PatternIsWellFormed(s: string, i: int, j: int)
    requires 0 < i && i + 1 < j < |s| - 1 && s[i] == '@' && s[j] == '.'
    requires AllEmailChars(s[..i]) && AllEmailChars(s[i + 1..j]) && AllEmailChars(s[j + 1..])
    ensures WellFormedEmail(s)
  {
    var a, m, b := s[..i], s[i + 1..j], s[j + 1..];
    assert s == a + ['@'] + (m + ['.'] + b);
    CountCharConcat(a + ['@'], m + ['.'] + b, '@');
    CountCharConcat(a, ['@'], '@');
    CountCharConcat(m + ['.'], b, '@');
    CountCharConcat(m, ['.'], '@');
    forall k | 0 <= k < |s|
      ensures !IsSpace(s[k]) && (s[k] == '@' ==> k == i)
    {
      if k < i {
        assert s[k] == a[k];
      } else if i < k < j {
        assert s[k] == m[k - i - 1];
      } else if j < k {
        assert s[k] == b[k - j - 1];
      }
    }
    var d := s[i + 1..];
    assert d[j - i - 1] == '.';
  }

  lemma SliceEmailChars(s: string, lo: int, hi: int)
    requires 0 <= lo <= hi <= |s|
    requires forall k :: lo <= k < hi ==> EmailChar(s[k])
    ensures AllEmailChars(s[lo..hi])
  {
    assert forall k :: 0 <= k < hi - lo ==> s[lo..hi][k] == s[lo + k];
  }

  lemma OnlyOneAt(s: string, i: int)
    requires 0 <= i < |s| && s[i] == '@' && CountChar(s, '@') == 1
    ensures forall k :: 0 <= k < |s| && k != i ==> s[k] != '@'
  {
    SplitAt(s, i);
    CountCharConcat(s[..i] + [s[i]], s[i + 1..], '@');
    CountCharConcat(s[..i], [s[i]], '@');
    assert '@' !in s[..i] && '@' !in s[i + 1..];
    forall k | 0 <= k < |s| && k != i ensures s[k] != '@' {
      if k < i {
        assert s[k] == s[..i][k];
      } else {
        assert s[k] == s[i + 1..][k - i - 1];
      }
    }
  }

  lemma BuildPattern(s: string, i: int, j: int)
    requires 0 < i && i + 1 < j < |s| - 1 && s[i] == '@' && s[j] == '.'
    requires forall k :: 0 <= k < |s| && k != i ==> EmailChar(s[k])
    ensures EmailPattern(s)
  {
    SliceEmailChars(s, 0, i);
    SliceEmailChars(s, i + 1, j);
    SliceEmailChars(s, j + 1, |s|);
    assert s[0..i] == s[..i] && s[j + 1..|s|] == s[j + 1..];
  }

  lemma WellFormedIsPattern(s: string)
    requires WellFormedEmail(s)
    ensures EmailPattern(s)
  {
    assert '@' in s;
    var i :| 0 <= i < |s| && s[i] == '@';
    assert 0 < i && HasInnerDot(s[i + 1..]);
    var jd :| 1 <= jd < |s[i + 1..]| - 1 && s[i + 1..][jd] == '.';
    OnlyOneAt(s, i);
    BuildPattern(s, i, i + 1 + jd);
  }

  /** The pattern accepts exactly the well-formed addresses. */
  lemma EmailPatternIff(s: string)
    ensures EmailPattern(s) <==> WellFormedEmail(s)
  {
    if EmailPattern(s) {
      var i, j :| 0 < i && i + 1 < j < |s| - 1 && s[i] == '@' && s[j] == '.'
        && AllEmailChars(s[..i]) && AllEmailChars(s[i + 1..j]) && AllEmailChars(s[j + 1..]);
      PatternIsWellFormed(s, i, j);
    }
    if WellFormedEmail(s) {
      WellFormedIsPattern(s);
    }
  }

  /** An address the pattern accepts is not blank and contains an '@'. */
  lemma EmailPatternNotBlank(s: string)
    requires EmailPattern(s)
    ensures '@' in s && !IsBlank(s)
  {
    var i, j :| 0 < i && i + 1 < j < |s| - 1 && s[i] == '@' && s[j] == '.'
      && AllEmailChars(s[..i]) && AllEmailChars(s[i + 1..j]) && AllEmailChars(s[j + 1..]);
    assert s[i] in s;
    assert !IsBlank(s) by {
      BlankIffAllSpace(s);
      assert !IsSpace(s[i]);
    }
  }

  /** A phone value is refused when it is not blank but has fewer than ten digits. */
  predicate PhoneRefused(v: string) {
    !IsBlank(v) && DigitCount(v) < 10
  }

  /** The fields of the quote form that must not be blank, in checking order. */
  const REQUIRED_QUOTE_FIELDS: seq<string> :=
    ["name", "job-title", "company", "phone", "email", "product", "timeline"]

  const REQUIRED_MESSAGE := "This field is required"

  /** The errors of the required-field pass over `fields`: one per present, blank field, in order. */
  function RequiredErrors(form: Form, fields: seq<string>): (r: seq<FieldError>)
    ensures |r| <= |fields|
    ensures forall k :: 0 <= k < |r| ==> r[k].message == REQUIRED_MESSAGE && r[k].field in form
  {
    if fields == [] then []
    else
      var f := fields[|fields| - 1];
      RequiredErrors(form, fields[..|fields| - 1])
        + (if f in form && IsBlank(form[f]) then [FieldError(f, REQUIRED_MESSAGE)] else [])
  }

  /** The `forEach` over the required quote fields, the same in both scripts: an error for each present, blank one. */
  method RequiredPass(form: Form) returns (errors: seq<FieldError>)
    ensures errors == RequiredErrors(form, REQUIRED_QUOTE_FIELDS)
  {
    errors := [];
    for i := 0 to |REQUIRED_QUOTE_FIELDS|
      invariant errors == RequiredErrors(form, REQUIRED_QUOTE_FIELDS[..i])
    {
      var id := REQUIRED_QUOTE_FIELDS[i];
      assert REQUIRED_QUOTE_FIELDS[..i + 1][..i] == REQUIRED_QUOTE_FIELDS[..i];
      if id in form && IsBlank(form[id]) {
        errors := errors + [FieldError(id, REQUIRED_MESSAGE)];
      }
    }
    assert REQUIRED_QUOTE_FIELDS[..|REQUIRED_QUOTE_FIELDS|] == REQUIRED_QUOTE_FIELDS;
  }

  /** The pass reports nothing exactly when every present field among `fields` is filled in. */
  lemma {:induction false} NoRequiredErrorsIff(form: Form, fields: seq<string>)
    ensures RequiredErrors(form, fields) == []
      <==> forall k :: 0 <= k < |fields| && fields[k] in form ==> !IsBlank(form[fields[k]])
  {
    if fields != [] {
      var init := fields[..|fields| - 1];
      NoRequiredErrorsIff(form, init);
      assert forall k :: 0 <= k < |init| ==> init[k] == fields[k];
    }
  }

  /** A field named in an error of the pass is a present, blank field among `fields`. */
  lemma {:induction false} RequiredErrorsAreBlank(form: Form, fields: seq<string>, e: FieldError)
    requires e in RequiredErrors(form, fields)
    ensures e.field in fields && e.field in form && IsBlank(form[e.field])
  {
    var init := fields[..|fields| - 1];
    var f := fields[|fields| - 1];
    if e in RequiredErrors(form, init) {
      RequiredErrorsAreBlank(form, init, e);
      assert e.field in fields;
    }
  }

  /**
   * The errors of the contact rules on a form that has all three fields, with
   * the wording of the invalid-address message as a parameter.
   */
  function ContactErrors(form: Form, invalidEmail: string): seq<FieldError>
    requires "name" in form && "email" in form && "message" in form
  {
    (if IsBlank(form["name"]) then [FieldError("name", "Please enter your name")] else [])
    + (if IsBlank(form["email"]) then [FieldError("email", "Please enter your email")]
       else if !EmailPattern(form["email"]) then [FieldError("email", invalidEmail)]
       else [])
    + (if IsBlank(form["message"]) then [FieldError("message", "Please enter a message")] else [])
  }

  /** The contact form is acceptable: name and message filled in, and an address the pattern accepts. */
  predicate ContactAcceptable(form: Form)
    requires "name" in form && "email" in form && "message" in form
  {
    !IsBlank(form["name"]) && !IsBlank(form["message"]) && EmailPattern(form["email"])
  }

  lemma ContactErrorsIff(form: Form, invalidEmail: string)
    requires "name" in form && "email" in form && "message" in form
    ensures ContactErrors(form, invalidEmail) == [] <==> ContactAcceptable(form)
  {
    if EmailPattern(form["email"]) {
      EmailPatternNotBlank(form["email"]);
    }
  }

  /** A blank address and a malformed one are reported with different messages. */
  lemma ContactEmailMessages(form: Form, invalidEmail: string)
    requires "name" in form && "email" in form && "message" in form
    requires invalidEmail != "Please enter your email"
    ensures IsBlank(form["email"]) ==> FieldError("email", "Please enter your email") in ContactErrors(form, invalidEmail)
    ensures !IsBlank(form["email"]) && !EmailPattern(form["email"]) ==>
      (FieldError("email", invalidEmail) in ContactErrors(form, invalidEmail)
       && FieldError("email", "Please enter your email") !in ContactErrors(form, invalidEmail))
  {
  }

  /** The address check after the required-field pass; a page without the field reports nothing. */
  function EmailError(form: Form, invalidEmail: string): seq<FieldError> {
    if "email" in form && !IsBlank(form["email"]) && !EmailPattern(form["email"])
    then [FieldError("email", invalidEmail)] else []
  }

  /** The phone check after the address check; a page without the field reports nothing. */
  function PhoneError(form: Form): seq<FieldError> {
    if "phone" in form && PhoneRefused(form["phone"])
    then [FieldError("phone", "Please enter a valid phone number")] else []
  }

  /** The errors of the quote rules in the order they are shown. */
  function QuoteErrors(form: Form, invalidEmail: string): seq<FieldError> {
    RequiredErrors(form, REQUIRED_QUOTE_FIELDS) + EmailError(form, invalidEmail) + PhoneError(form)
  }

  /**
   * The quote form is acceptable: every present required field is filled in,
   * a filled-in address matches the pattern, and a filled-in phone number has
   * at least ten digits.
   */
  predicate QuoteAcceptable(form: Form) {
    (forall k :: 0 <= k < |REQUIRED_QUOTE_FIELDS| && REQUIRED_QUOTE_FIELDS[k] in form
       ==> !IsBlank(form[REQUIRED_QUOTE_FIELDS[k]]))
    && ("email" in form && !IsBlank(form["email"]) ==> EmailPattern(form["email"]))
    && ("phone" in form ==> !PhoneRefused(form["phone"]))
  }

  lemma QuoteErrorsIff(form: Form, invalidEmail: string)
    ensures QuoteErrors(form, invalidEmail) == [] <==> QuoteAcceptable(form)
  {
    NoRequiredErrorsIff(form, REQUIRED_QUOTE_FIELDS);
  }

  /** A blank phone number is reported only as a missing required field, never as too short. */
  lemma BlankPhoneOnlyRequired(form: Form, invalidEmail: string)
    requires "phone" in form && IsBlank(form["phone"])
    ensures FieldError("phone", REQUIRED_MESSAGE) in QuoteErrors(form, invalidEmail)
    ensures FieldError("phone", "Please enter a valid phone number") !in QuoteErrors(form, invalidEmail)
  {
    var req := RequiredErrors(form, REQUIRED_QUOTE_FIELDS);
    var fs := REQUIRED_QUOTE_FIELDS;
    assert fs[..4][..3] == fs[..3] && fs[..4][3] == "phone";
    assert RequiredErrors(form, fs[..4]) == RequiredErrors(form, fs[..3]) + [FieldError("phone", REQUIRED_MESSAGE)];
    PrefixErrorsKept(form, fs, 4);
    var pre := RequiredErrors(form, fs[..4]);
    assert pre[|pre| - 1] == FieldError("phone", REQUIRED_MESSAGE);
    assert req[|pre| - 1] == pre[|pre| - 1];
    assert QuoteErrors(form, invalidEmail) == req + EmailError(form, invalidEmail) + [];
  }

  lemma {:induction false} PrefixErrorsKept(form: Form, fields: seq<string>, n: nat)
    requires n <= |fields|
    ensures RequiredErrors(form, fields[..n]) <= RequiredErrors(form, fields)
  {
    if n < |fields| {
      PrefixErrorsKept(form, fields[..|fields| - 1], n);
      assert fields[..|fields| - 1][..n] == fields[..n];
    } else {
      assert fields[..n] == fields;
    }
  }
}
