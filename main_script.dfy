/**
 * The site-wide script: the testimonial carousel index and the second copy of
 * the contact-form and quote-form validation, which pops up an alert instead
 * of posting the lead.
 */
module MainScript {
  import opened Wrappers
  import opened Strings
  import opened Forms

  // ---------------------------------------------------------------- carousel

  /**
   * JavaScript's `%` by a positive divisor: the remainder of the division
   * truncated toward zero, so it takes the sign of the dividend, where
   * Dafny's `%` never goes negative.
   */
  function JsRem(a: int, n: int): (r: int)
    requires n > 0
    ensures -n < r < n
    ensures a >= 0 ==> r == a % n
    ensures a < 0 ==> r <= 0
    ensures (a - r) % n == 0
  {
    if a >= 0 then
      ModUnique(a - a % n, n, a / n, 0);
      a % n
    else
      var b := -a;
      var r := -(b % n);
      assert b == n * (b / n) + b % n;
      assert a - r == n * (-(b / n));
      ModUnique(a - r, n, -(b / n), 0);
      r
  }

  lemma {:induction false} MulAtLeast(n: int, d: int)
    requires n > 0 && d >= 1
    ensures n * d >= n
    decreases d
  {
    if d > 1 {
      MulAtLeast(n, d - 1);
      assert n * d == n * (d - 1) + n;
    }
  }

  /** The remainder is determined by any quotient that leaves a remainder in range. */
  lemma ModUnique(a: int, n: int, q: int, r: int)
    requires n > 0 && 0 <= r < n && a == n * q + r
    ensures a % n == r
  {
    var p, m := a / n, a % n;
    assert a == n * p + m;
    var d := q - p;
    assert n * d == n * q - n * p;
    if d >= 1 {
      MulAtLeast(n, d);
    } else if d <= -1 {
      MulAtLeast(n, -d);
    }
  }

  /** On a negative dividend the truncated remainder is zero or the Euclidean one minus the divisor. */
  lemma TruncatedVsEuclidean(a: int, n: int)
    requires n > 0 && a < 0
    ensures JsRem(a, n) == if a % n == 0 then 0 else a % n - n
  {
    var b := -a;
    var q, rr := b / n, b % n;
    assert b == n * q + rr;
    if rr == 0 {
      assert a == n * (-q) + 0;
      ModUnique(a, n, -q, 0);
    } else {
      assert a == n * (-q - 1) + (n - rr);
      ModUnique(a, n, -q - 1, n - rr);
    }
  }

  /** The index the next button and the six-second timer move to. */
  function NextIndex(i: int, n: int): int
    requires n > 0
  {
    JsRem(i + 1, n)
  }

  /** The index the previous button moves to. */
  function PrevIndex(i: int, n: int): int
    requires n > 0
  {
    JsRem(i - 1 + n, n)
  }

  /** On an index in range both steps are the mathematical cyclic steps and stay in range. */
  lemma StepsStayInRange(i: int, n: int)
    requires n > 0 && 0 <= i < n
    ensures NextIndex(i, n) == (if i == n - 1 then 0 else i + 1)
    ensures PrevIndex(i, n) == (if i == 0 then n - 1 else i - 1)
  {
    if i == n - 1 {
      ModUnique(i + 1, n, 1, 0);
    } else {
      ModUnique(i + 1, n, 0, i + 1);
    }
    if i == 0 {
      ModUnique(i - 1 + n, n, 0, n - 1);
    } else {
      ModUnique(i - 1 + n, n, 1, i - 1);
    }
  }

  /** Previous undoes next and next undoes previous. */
  lemma StepsUndoEachOther(i: int, n: int)
    requires n > 0 && 0 <= i < n
    ensures PrevIndex(NextIndex(i, n), n) == i
    ensures NextIndex(PrevIndex(i, n), n) == i
  {
    StepsStayInRange(i, n);
    StepsStayInRange(NextIndex(i, n), n);
    StepsStayInRange(PrevIndex(i, n), n);
  }

  /** The index after `k` next steps. */
  function Advanced(i: int, n: int, k: nat): int
    requires n > 0
  {
    if k == 0 then i else NextIndex(Advanced(i, n, k - 1), n)
  }

  lemma DivModSplit(x: int, n: int)
    requires n > 0
    ensures x == n * (x / n) + x % n && 0 <= x % n < n
  {
  }

  /** A next step from `x mod n` lands on `(x + 1) mod n`. */
  lemma NextOfRemainder(x: int, n: int)
    requires n > 0
    ensures NextIndex(x % n, n) == (x + 1) % n
  {
    var q, j := x / n, x % n;
    DivModSplit(x, n);
    StepsStayInRange(j, n);
    if j == n - 1 {
      assert n * q + n == n * (q + 1);
      ModUnique(x + 1, n, q + 1, 0);
    } else {
      ModUnique(x + 1, n, q, j + 1);
    }
  }

  /** `k` next steps from an index in range land on `(i + k) mod n`. */
  lemma {:induction false} AdvancedIsModular(i: int, n: int, k: nat)
    requires n > 0 && 0 <= i < n
    ensures Advanced(i, n, k) == (i + k) % n
  {
    if k == 0 {
      ModUnique(i, n, 0, i);
    } else {
      AdvancedIsModular(i, n, k - 1);
      NextOfRemainder(i + k - 1, n);
    }
  }

  /**
   * A dot click can put the index outside the slides; a later next
   * step then follows the truncating remainder and can stay negative.
   */
  lemma NegativeIndexStaysNegative()
    ensures JsRem(-5, 3) == -2
    ensures NextIndex(-5, 3) == -1
    ensures PrevIndex(-5, 3) == 0
  {
  }

  /** `updateTestimonials`: dot `k` is active exactly when it is the current index. */
  function ActiveDots(n: nat, current: int): (r: seq<bool>)
    ensures |r| == n
    ensures forall k :: 0 <= k < n ==> (r[k] <==> k == current)
  {
    seq(n, k => k == current)
  }

  /** Exactly one dot is active when the index is in range, and none otherwise. */
  lemma {:induction false} OneActiveDot(n: nat, current: int)
    ensures (exists k :: 0 <= k < n && ActiveDots(n, current)[k]) <==> 0 <= current < n
    ensures forall j, k | 0 <= j < n && 0 <= k < n && ActiveDots(n, current)[j] && ActiveDots(n, current)[k] :: j == k
  {
    if 0 <= current < n {
      assert ActiveDots(n, current)[current];
    }
  }

  /** The carousel's state: the number of slides and the shown index. */
  class Carousel {
    const total: int
    var current: int

    ghost predicate InRange()
      reads this
    {
      0 <= current < total
    }

    constructor(slides: int)
      requires slides > 0
      ensures total == slides && current == 0 && InRange()
    {
      total := slides;
      current := 0;
    }

    /** The next button and the auto-advance timer. */
    method Next()
      requires total > 0
      modifies this`current
      ensures current == NextIndex(old(current), total)
      ensures old(InRange()) ==> InRange()
    {
      var a := current + 1;
      if a >= 0 {
        current := a % total;
      } else {
        current := -((-a) % total);
      }
      if old(InRange()) {
        StepsStayInRange(old(current), total);
      }
    }

    /** The previous button. */
    method Prev()
      requires total > 0
      modifies this`current
      ensures current == PrevIndex(old(current), total)
      ensures old(InRange()) ==> InRange()
    {
      var a := current - 1 + total;
      if a >= 0 {
        current := a % total;
      } else {
        current := -((-a) % total);
      }
      if old(InRange()) {
        StepsStayInRange(old(current), total);
      }
    }

    /** A dot click: the dot's `data-index`, with no bounds check. */
    method ClickDot(index: int)
      modifies this`current
      ensures current == index
      ensures InRange() <==> 0 <= index < total
    {
      current := index;
    }
  }

  // ---------------------------------------------------------------- forms

  /** `validateEmail`: the regex test, which accepts exactly the well-formed addresses. */
  function ValidateEmail(email: string): (ok: bool)
    ensures ok <==> WellFormedEmail(email)
  {
    EmailPatternIff(email);
    EmailPattern(email)
  }

  const INVALID_EMAIL := "Please enter a valid email"
  const CONTACT_ALERT := "Thank you for your message! We will get back to you soon."
  const QUOTE_ALERT := "Thank you for your quote request! A representative will contact you shortly."

  /**
   * The contact form's submit handler: the three checks in order, and the
   * thank-you alert when none failed. Reading a field the page does not have
   * throws before any alert.
   */
  method ContactSubmit(form: Form) returns (result: Validation, alert: Option<string>)
    ensures result == if "name" in form && "email" in form && "message" in form
      then Checked(ContactErrors(form, INVALID_EMAIL)) else Threw
    ensures alert == (if result.Accepted() then Some(CONTACT_ALERT) else None)
    ensures alert.Some? <==> "name" in form && "email" in form && "message" in form && ContactAcceptable(form)
  {
    var isValid := true;
    alert := None;
    if "name" !in form { return Threw, None; }
    var nameErrors: seq<FieldError> := [];
    if IsBlank(form["name"]) {
      nameErrors := [FieldError("name", "Please enter your name")];
      isValid := false;
    }
    if "email" !in form { return Threw, None; }
    var emailErrors: seq<FieldError> := [];
    if IsBlank(form["email"]) {
      emailErrors := [FieldError("email", "Please enter your email")];
      isValid := false;
    } else if !EmailPattern(form["email"]) {
      emailErrors := [FieldError("email", INVALID_EMAIL)];
      isValid := false;
    }
    if "message" !in form { return Threw, None; }
    var messageErrors: seq<FieldError> := [];
    if IsBlank(form["message"]) {
      messageErrors := [FieldError("message", "Please enter a message")];
      isValid := false;
    }
    var errors := nameErrors + emailErrors + messageErrors;
    ContactErrorsIff(form, INVALID_EMAIL);
    result := Checked(errors);
    if isValid {
      alert := Some(CONTACT_ALERT);
    }
  }

  /**
   * The quote form's submit handler: the required-field pass skips fields the
   * page lacks, and the address and phone checks are guarded, so it never
   * throws.
   */
  method QuoteSubmit(form: Form) returns (errors: seq<FieldError>, alert: Option<string>)
    ensures errors == QuoteErrors(form, INVALID_EMAIL)
    ensures alert == (if errors == [] then Some(QUOTE_ALERT) else None)
    ensures alert.Some? <==> QuoteAcceptable(form)
  {
    var required := RequiredPass(form);
    var isValid := required == [];
    var emailErrors: seq<FieldError> := [];
    if "email" in form && !IsBlank(form["email"]) && !EmailPattern(form["email"]) {
      emailErrors := [FieldError("email", INVALID_EMAIL)];
      isValid := false;
    }
    assert emailErrors == EmailError(form, INVALID_EMAIL);
    var phoneErrors: seq<FieldError> := [];
    if "phone" in form && !IsBlank(form["phone"]) && DigitCount(form["phone"]) < 10 {
      phoneErrors := [FieldError("phone", "Please enter a valid phone number")];
      isValid := false;
    }
    assert phoneErrors == PhoneError(form);
    errors := required + emailErrors + phoneErrors;
    QuoteErrorsIff(form, INVALID_EMAIL);
    alert := if isValid then Some(QUOTE_ALERT) else None;
  }
}
