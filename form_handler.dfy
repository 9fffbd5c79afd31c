/**
 * The script that intercepts the contact and quote forms: it validates the
 * fields, assembles the JSON payload with spam-protection metadata and UTM
 * parameters, and picks the message shown after the lead endpoint answers.
 */
module FormHandler {
  import opened Strings
  import opened Forms
  import SubmitLead

  const TOKEN_ALPHABET := "abcdefghijklmnopqrstuvwxyz0123456789"
  const TOKEN_LENGTH := 24

  predicate TokenChar(c: char) {
    'a' <= c <= 'z' || '0' <= c <= '9'
  }

  lemma AlphabetIsTokenChars()
    ensures |TOKEN_ALPHABET| == 36
    ensures forall k :: 0 <= k < |TOKEN_ALPHABET| ==> TokenChar(TOKEN_ALPHABET[k])
  {
  }

  /**
   * `generateToken`; `draws[i]` stands for `Math.floor(Math.random() * 36)` in
   * round `i`, so each draw is below the alphabet's length.
   */
  method GenerateToken(draws: seq<nat>) returns (token: string)
    requires |draws| == TOKEN_LENGTH
    requires forall i :: 0 <= i < |draws| ==> draws[i] < |TOKEN_ALPHABET|
    ensures |token| == TOKEN_LENGTH && |token| >= SubmitLead.MIN_TOKEN_LENGTH
    ensures forall i :: 0 <= i < |token| ==> token[i] == TOKEN_ALPHABET[draws[i]]
    ensures forall i :: 0 <= i < |token| ==> TokenChar(token[i])
  {
    AlphabetIsTokenChars();
    token := "";
    for i := 0 to TOKEN_LENGTH
      invariant |token| == i
      invariant forall k :: 0 <= k < i ==> token[k] == TOKEN_ALPHABET[draws[k]]
    {
      token := token + [TOKEN_ALPHABET[draws[i]]];
    }
  }

  /** A request carrying a generated token, an empty honeypot and an old enough stamp passes every bot check. */
  lemma GeneratedTokenPassesSpamChecks(d: SubmitLead.LeadData, now: int)
    requires |d.token| == TOKEN_LENGTH && d.websiteUrl == ""
    requires !SubmitLead.TooFast(d.loadTime, now)
    ensures !SubmitLead.LooksLikeSpam(d, now)
  {
  }

  const INVALID_EMAIL := "Please enter a valid email address"

  /** The contact branch of `validateForm`. */
  method ValidateContact(form: Form) returns (result: Validation)
    ensures result == if "name" in form && "email" in form && "message" in form
      then Checked(ContactErrors(form, INVALID_EMAIL)) else Threw
    ensures result.Accepted() <==>
      "name" in form && "email" in form && "message" in form && ContactAcceptable(form)
  {
    if "name" !in form { return Threw; }
    var nameErrors: seq<FieldError> := [];
    if IsBlank(form["name"]) {
      nameErrors := [FieldError("name", "Please enter your name")];
    }
    if "email" !in form { return Threw; }
    var emailErrors: seq<FieldError> := [];
    if IsBlank(form["email"]) {
      emailErrors := [FieldError("email", "Please enter your email")];
    } else if !EmailPattern(form["email"]) {
      emailErrors := [FieldError("email", INVALID_EMAIL)];
    }
    if "message" !in form { return Threw; }
    var messageErrors: seq<FieldError> := [];
    if IsBlank(form["message"]) {
      messageErrors := [FieldError("message", "Please enter a message")];
    }
    var errors := nameErrors + emailErrors + messageErrors;
    ContactErrorsIff(form, INVALID_EMAIL);
    return Checked(errors);
  }

  /** The quote branch of `validateForm`: the address and phone fields are read without a null check. */
  method ValidateQuote(form: Form) returns (result: Validation)
    ensures result == if "email" in form && "phone" in form
      then Checked(QuoteErrors(form, INVALID_EMAIL)) else Threw
    ensures result.Accepted() <==> "email" in form && "phone" in form && QuoteAcceptable(form)
  {
    var required := RequiredPass(form);
    if "email" !in form { return Threw; }
    var emailErrors: seq<FieldError> := [];
    if !IsBlank(form["email"]) && !EmailPattern(form["email"]) {
      emailErrors := [FieldError("email", INVALID_EMAIL)];
    }
    if "phone" !in form { return Threw; }
    var phoneErrors: seq<FieldError> := [];
    if PhoneRefused(form["phone"]) {
      phoneErrors := [FieldError("phone", "Please enter a valid phone number")];
    }
    var errors := required + emailErrors + phoneErrors;
    QuoteErrorsIff(form, INVALID_EMAIL);
    return Checked(errors);
  }

  /**
   * `validateForm`: the contact rules or the quote rules by form type; any
   * other form type passes. Reading a field the page does not have ends the
   * run with an exception.
   */
  method ValidateForm(form: Form, formType: string) returns (result: Validation)
    ensures formType == "contact" ==>
      (result.Accepted() <==> "name" in form && "email" in form && "message" in form && ContactAcceptable(form))
    ensures formType == "quote_request" ==>
      (result.Accepted() <==> "email" in form && "phone" in form && QuoteAcceptable(form))
    ensures formType != "contact" && formType != "quote_request" ==> result == Checked([])
  {
    if formType == "contact" {
      result := ValidateContact(form);
    } else if formType == "quote_request" {
      result := ValidateQuote(form);
    } else {
      result := Checked([]);
    }
  }

  // ---------------------------------------------------------------- payload

  /** A payload value: form fields and strings are text, `_loadTime` is a number. */
  datatype Value = Text(s: string) | Number(n: int)

  type Payload = map<string, Value>

  /** The form entries copied into an object: a repeated name keeps its last value. */
  function FromEntries(entries: seq<(string, string)>): Payload {
    if entries == [] then map[]
    else
      var last := entries[|entries| - 1];
      FromEntries(entries[..|entries| - 1])[last.0 := Text(last.1)]
  }

  /** A name is in the object exactly when some entry has it. */
  lemma {:induction false} FromEntriesKeys(entries: seq<(string, string)>, key: string)
    ensures key in FromEntries(entries) <==> exists i :: 0 <= i < |entries| && entries[i].0 == key
  {
    if entries != [] {
      var init := entries[..|entries| - 1];
      FromEntriesKeys(init, key);
      if exists i :: 0 <= i < |init| && init[i].0 == key {
        var i :| 0 <= i < |init| && init[i].0 == key;
        assert entries[i].0 == key;
      }
      if exists i :: 0 <= i < |entries| && entries[i].0 == key {
        var i :| 0 <= i < |entries| && entries[i].0 == key;
        if i < |init| {
          assert init[i].0 == key;
        }
      }
    }
  }

  /** The value kept for a name is the one of its last entry. */
  lemma {:induction false} FromEntriesLastWins(entries: seq<(string, string)>, i: int)
    requires 0 <= i < |entries|
    requires forall j :: i < j < |entries| ==> entries[j].0 != entries[i].0
    ensures entries[i].0 in FromEntries(entries) && FromEntries(entries)[entries[i].0] == Text(entries[i].1)
  {
    if i < |entries| - 1 {
      var init := entries[..|entries| - 1];
      FromEntriesLastWins(init, i);
    }
  }

  const UTM_KEYS: seq<string> := ["utm_source", "utm_medium", "utm_campaign", "utm_term", "utm_content"]

  predicate IsMetadataKey(key: string) {
    key == "formType" || key == "pageUrl" || key == "_loadTime" || key == "_token"
  }

  /** `params.get(key)` is truthy: the query string has the key with a non-empty value. */
  predicate UtmGiven(query: map<string, string>, key: string) {
    key in query && query[key] != ""
  }

  /** No UTM parameter overwrites one of the four metadata fields' name. */
  lemma UtmKeysAreNotMetadata()
    ensures forall key :: key in UTM_KEYS ==> !IsMetadataKey(key)
  {
    forall key | key in UTM_KEYS
      ensures !IsMetadataKey(key)
    {
      assert key[..4] == "utm_";
    }
  }

  /** The four metadata fields the handler sets after copying the form. */
  function WithMetadata(p: Payload, formType: string, pageUrl: string, loadTime: int, token: string): (r: Payload)
    ensures forall key :: key in r <==> key in p || IsMetadataKey(key)
    ensures "formType" in r && r["formType"] == Text(formType)
    ensures "pageUrl" in r && r["pageUrl"] == Text(pageUrl)
    ensures "_loadTime" in r && r["_loadTime"] == Number(loadTime)
    ensures "_token" in r && r["_token"] == Text(token)
    ensures forall key :: key in p && !IsMetadataKey(key) ==> r[key] == p[key]
  {
    p["formType" := Text(formType)]["pageUrl" := Text(pageUrl)]
      ["_loadTime" := Number(loadTime)]["_token" := Text(token)]
  }

  /** The UTM `forEach` over `keys`, in order: a parameter the query string sets overwrites the field. */
  function WithUtm(p: Payload, query: map<string, string>, keys: seq<string>): Payload
  {
    if keys == [] then p
    else
      var key := keys[|keys| - 1];
      var before := WithUtm(p, query, keys[..|keys| - 1]);
      if UtmGiven(query, key) then before[key := Text(query[key])] else before
  }

  /** What `WithUtm` adds and overwrites, and that it leaves every other field alone. */
  lemma {:induction false} WithUtmFields(p: Payload, query: map<string, string>, keys: seq<string>, key: string)
    ensures key in WithUtm(p, query, keys) <==> key in p || (key in keys && UtmGiven(query, key))
    ensures key in keys && UtmGiven(query, key) ==> WithUtm(p, query, keys)[key] == Text(query[key])
    ensures key in p && !(key in keys && UtmGiven(query, key)) ==> WithUtm(p, query, keys)[key] == p[key]
  {
    if keys != [] {
      var init := keys[..|keys| - 1];
      assert keys == init + [keys[|keys| - 1]];
      WithUtmFields(p, query, init, key);
    }
  }

  /** The object the handler posts, as a function of the form entries, the page and the query string. */
  function PayloadOf(entries: seq<(string, string)>, formType: string, pageUrl: string,
                     loadTime: int, token: string, query: map<string, string>): Payload
  {
    WithUtm(WithMetadata(FromEntries(entries), formType, pageUrl, loadTime, token), query, UTM_KEYS)
  }

  /** `formData.forEach(... payload[key] = value)`. */
  method CopyEntries(entries: seq<(string, string)>) returns (payload: Payload)
    ensures payload == FromEntries(entries)
  {
    payload := map[];
    for i := 0 to |entries|
      invariant payload == FromEntries(entries[..i])
    {
      assert entries[..i + 1][..i] == entries[..i];
      payload := payload[entries[i].0 := Text(entries[i].1)];
    }
    assert entries[..|entries|] == entries;
  }

  /** The UTM `forEach`. */
  method MergeUtm(start: Payload, query: map<string, string>) returns (payload: Payload)
    ensures payload == WithUtm(start, query, UTM_KEYS)
  {
    payload := start;
    for j := 0 to |UTM_KEYS|
      invariant payload == WithUtm(start, query, UTM_KEYS[..j])
    {
      var key := UTM_KEYS[j];
      assert UTM_KEYS[..j + 1][..j] == UTM_KEYS[..j];
      if key in query && query[key] != "" {
        payload := payload[key := Text(query[key])];
      }
    }
    assert UTM_KEYS[..|UTM_KEYS|] == UTM_KEYS;
  }

  /**
   * The `submit` handler's payload: the form entries, then the four metadata
   * fields, then each UTM parameter the query string sets.
   */
  method BuildPayload(entries: seq<(string, string)>, formType: string, pageUrl: string,
                      loadTime: int, token: string, query: map<string, string>)
    returns (payload: Payload)
    ensures payload == PayloadOf(entries, formType, pageUrl, loadTime, token, query)
  {
    payload := CopyEntries(entries);
    payload := payload["formType" := Text(formType)];
    payload := payload["pageUrl" := Text(pageUrl)];
    payload := payload["_loadTime" := Number(loadTime)];
    payload := payload["_token" := Text(token)];
    payload := MergeUtm(payload, query);
  }

  /** Which fields the payload has: the form's names, the four metadata names and the UTM keys set. */
  lemma PayloadKeys(entries: seq<(string, string)>, formType: string, pageUrl: string,
                    loadTime: int, token: string, query: map<string, string>, key: string)
    ensures key in PayloadOf(entries, formType, pageUrl, loadTime, token, query) <==>
      (exists i :: 0 <= i < |entries| && entries[i].0 == key) || IsMetadataKey(key)
      || (key in UTM_KEYS && UtmGiven(query, key))
  {
    FromEntriesKeys(entries, key);
    WithUtmFields(WithMetadata(FromEntries(entries), formType, pageUrl, loadTime, token), query, UTM_KEYS, key);
  }

  /** The metadata overrides a form field of the same name, and no UTM key clashes with it. */
  lemma PayloadMetadata(entries: seq<(string, string)>, formType: string, pageUrl: string,
                        loadTime: int, token: string, query: map<string, string>)
    ensures var p := PayloadOf(entries, formType, pageUrl, loadTime, token, query);
      "formType" in p && p["formType"] == Text(formType) && "pageUrl" in p && p["pageUrl"] == Text(pageUrl)
      && "_loadTime" in p && p["_loadTime"] == Number(loadTime) && "_token" in p && p["_token"] == Text(token)
  {
    var meta := WithMetadata(FromEntries(entries), formType, pageUrl, loadTime, token);
    UtmKeysAreNotMetadata();
    WithUtmFields(meta, query, UTM_KEYS, "formType");
    WithUtmFields(meta, query, UTM_KEYS, "pageUrl");
    WithUtmFields(meta, query, UTM_KEYS, "_loadTime");
    WithUtmFields(meta, query, UTM_KEYS, "_token");
  }

  /** A UTM parameter the query string sets wins over a form field of the same name. */
  lemma PayloadUtmWins(entries: seq<(string, string)>, formType: string, pageUrl: string,
                       loadTime: int, token: string, query: map<string, string>, key: string)
    requires key in UTM_KEYS && UtmGiven(query, key)
    ensures var p := PayloadOf(entries, formType, pageUrl, loadTime, token, query);
      key in p && p[key] == Text(query[key])
  {
    WithUtmFields(WithMetadata(FromEntries(entries), formType, pageUrl, loadTime, token), query, UTM_KEYS, key);
  }

  /** Any other form field keeps the value of its last entry. */
  lemma PayloadFormValue(entries: seq<(string, string)>, formType: string, pageUrl: string,
                         loadTime: int, token: string, query: map<string, string>, i: int)
    requires 0 <= i < |entries|
    requires forall j :: i < j < |entries| ==> entries[j].0 != entries[i].0
    requires !IsMetadataKey(entries[i].0) && !(entries[i].0 in UTM_KEYS && UtmGiven(query, entries[i].0))
    ensures var p := PayloadOf(entries, formType, pageUrl, loadTime, token, query);
      entries[i].0 in p && p[entries[i].0] == Text(entries[i].1)
  {
    FromEntriesLastWins(entries, i);
    WithUtmFields(WithMetadata(FromEntries(entries), formType, pageUrl, loadTime, token), query, UTM_KEYS, entries[i].0);
  }

  // ---------------------------------------------------------------- messages

  /** How the request to the lead endpoint ended. */
  datatype Answer =
    | Accepted                     // a 2xx reply with a JSON body
    | Refused(error: string)       // a non-2xx reply; its `error` field, `""` when missing
    | Failed(message: string)      // a network or parse failure with this message

  datatype Notice = Notice(success: bool, text: string)

  const QUOTE_THANKS := "Thank you for your quote request! A Ball Transfer Systems representative will contact you shortly."
  const CONTACT_THANKS := "Thank you for your message! We will get back to you soon."

  function SuccessText(formType: string): (r: string)
    ensures r == QUOTE_THANKS <==> formType == "quote_request"
    ensures r == QUOTE_THANKS || r == CONTACT_THANKS
  {
    if formType == "quote_request" then QUOTE_THANKS else CONTACT_THANKS
  }

  /** The message shown under the form once the request settles; it is never empty. */
  function ShownNotice(formType: string, answer: Answer): (n: Notice)
    ensures n.success <==> answer.Accepted?
    ensures n.text != ""
    ensures answer.Accepted? ==> n.text == SuccessText(formType)
    ensures answer.Refused? ==> n.text == if answer.error != "" then answer.error else "Something went wrong."
    ensures answer.Failed? && answer.message == "" ==> n.text == "Something went wrong. Please try again."
    ensures answer.Failed? && answer.message != "" ==> n.text == answer.message
  {
    match answer
    case Accepted => Notice(true, SuccessText(formType))
    case Refused(error) =>
      var message := if error != "" then error else "Something went wrong.";
      Notice(false, if message != "" then message else "Something went wrong. Please try again.")
    case Failed(message) =>
      Notice(false, if message != "" then message else "Something went wrong. Please try again.")
  }

  /** The reply of the lead endpoint, as the browser sees it. */
  function AnswerOf(reply: SubmitLead.Reply): Answer {
    if reply.status == 200 then Accepted
    else Refused(if reply.body.Error? then reply.body.message else "")
  }

  /** A bot answered with the silent success is shown the same thank-you as a real lead. */
  lemma SpamSeesThanks(req: SubmitLead.Request, now: int, recipients: seq<string>,
                       send: SubmitLead.SendResult, formType: string)
    requires req.verb == "POST" && req.body.Some? && SubmitLead.LooksLikeSpam(req.body.value, now)
    ensures ShownNotice(formType, AnswerOf(SubmitLead.Handle(req, now, recipients, send)))
      == Notice(true, SuccessText(formType))
  {
    SubmitLead.SpamAnsweredSilently(req, now, recipients, send);
  }

  /** A validation refusal by the endpoint is shown with the endpoint's own wording. */
  lemma ServerRefusalShown(req: SubmitLead.Request, now: int, recipients: seq<string>,
                           send: SubmitLead.SendResult, formType: string)
    requires req.verb == "POST" && req.body.Some? && !SubmitLead.LooksLikeSpam(req.body.value, now)
    requires !SubmitLead.EmailAccepted(req.body.value.email)
    ensures ShownNotice(formType, AnswerOf(SubmitLead.Handle(req, now, recipients, send)))
      == Notice(false, "A valid email address is required.")
  {
    SubmitLead.EmailCheckedBeforeName(req, now, recipients, send);
  }
}
