/**
 * The serverless lead endpoint: an ordered chain of early returns that turns a
 * request into a status code and, for a genuine lead, a notification email
 * listing the submitted fields.
 */
module SubmitLead {
  import opened Wrappers
  import opened Strings
  import opened Seqs

  /**
   * `_loadTime` as the handler sees it: falsy (absent, `0`, `""`), a number of
   * milliseconds, or a truthy value that `Number` turns into NaN.
   */
  datatype LoadStamp = NoStamp | Stamp(ms: int) | NotNumeric

  /** The JSON body; a field the client did not send is `""`. */
  datatype LeadData = LeadData(
    websiteUrl: string, loadTime: LoadStamp, token: string,
    email: string, name: string, formType: string,
    phone: string, company: string, jobTitle: string, product: string,
    timeline: string, updates: string, message: string,
    pageUrl: string, utmSource: string, utmMedium: string, utmCampaign: string)

  /** A request; `body` is `None` when the platform parsed no body. */
  datatype Request = Request(verb: string, body: Option<LeadData>)

  datatype ReplyBody = NoBody | Success | Error(message: string)

  datatype Reply = Reply(status: int, headers: map<string, string>, body: ReplyBody)

  const CORS_HEADERS: map<string, string> := map[
    "Access-Control-Allow-Origin" := "*",
    "Access-Control-Allow-Methods" := "POST, OPTIONS",
    "Access-Control-Allow-Headers" := "Content-Type"]

  /** A submission sooner than this many milliseconds after page load counts as a bot. */
  const MIN_FILL_MS := 2000

  /** A spam token shorter than this counts as a bot. */
  const MIN_TOKEN_LENGTH := 10

  const SENDER := "Ball Transfer Systems <leads@organicallyseo.com>"

  function SuccessReply(): Reply {
    Reply(200, CORS_HEADERS, Success)
  }

  function ErrorReply(status: int, message: string): Reply {
    Reply(status, CORS_HEADERS, Error(message))
  }

  // ---------------------------------------------------------------- recipients

  /** `.map(s => s.trim()).filter(Boolean)` over the comma-separated parts. */
  function TrimmedNonEmpty(parts: seq<string>): (r: seq<string>)
    ensures |r| <= |parts|
    ensures forall k :: 0 <= k < |r| ==> r[k] != "" && !IsSpace(r[k][0]) && !IsSpace(r[k][|r[k]| - 1])
  {
    if parts == [] then []
    else
      var t := Trim(parts[0]);
      (if t == "" then [] else [t]) + TrimmedNonEmpty(parts[1..])
  }

  /** `(env || '').split(',').map(trim).filter(Boolean)`, with an unset variable as `""`. */
  function Recipients(env: string): seq<string>
  {
    TrimmedNonEmpty(Split(env, ','))
  }

  /** The kept parts are the trimmed parts, in order, with the empty ones dropped. */
  lemma {:induction false} TrimmedNonEmptyIsFilter(parts: seq<string>)
    ensures TrimmedNonEmpty(parts) == Filter(Map(parts, Trim), (t: string) => t != "")
  {
    if parts != [] {
      TrimmedNonEmptyIsFilter(parts[1..]);
      assert Map(parts, Trim)[1..] == Map(parts[1..], Trim);
    }
  }

  /** A recipient is listed exactly when it is a non-empty part of the variable after trimming. */
  lemma RecipientsMembership(env: string, x: string)
    ensures x in Recipients(env) <==> x != "" && exists p :: p in Split(env, ',') && Trim(p) == x
  {
    var parts := Split(env, ',');
    var trimmed := Map(parts, Trim);
    var nonEmpty := (t: string) => t != "";
    TrimmedNonEmptyIsFilter(parts);
    FilterMembership(trimmed, nonEmpty, x);
    assert Recipients(env) == Filter(trimmed, nonEmpty);
    if x in trimmed {
      var i :| 0 <= i < |trimmed| && trimmed[i] == x;
      assert parts[i] in parts && Trim(parts[i]) == x;
    } else {
      forall p | p in parts ensures Trim(p) != x {
        var i :| 0 <= i < |parts| && parts[i] == p;
        assert trimmed[i] == Trim(p);
      }
    }
  }

  /** Parsing keeps the order of the parts: the kept parts of a concatenation are those of each half. */
  lemma {:induction false} TrimmedNonEmptyConcat(a: seq<string>, b: seq<string>)
    ensures TrimmedNonEmpty(a + b) == TrimmedNonEmpty(a) + TrimmedNonEmpty(b)
  {
    if a == [] {
      assert a + b == b;
    } else {
      assert (a + b)[1..] == a[1..] + b;
      TrimmedNonEmptyConcat(a[1..], b);
    }
  }

  lemma RecipientsUnset()
    ensures Recipients("") == []
  {
    assert Split("", ',') == [""];
  }

  /** Every part is non-empty and has no white space at either end. */
  predicate AllTrimmed(xs: seq<string>) {
    forall k :: 0 <= k < |xs| ==> xs[k] != "" && !IsSpace(xs[k][0]) && !IsSpace(xs[k][|xs[k]| - 1])
  }

  /** Parts that are already trimmed and non-empty all survive, in order. */
  lemma {:induction false} TrimmedNonEmptyKeepsAll(xs: seq<string>)
    requires AllTrimmed(xs)
    ensures TrimmedNonEmpty(xs) == xs
  {
    if xs != [] {
      TrimUnchanged(xs[0]);
      var rest := xs[1..];
      assert AllTrimmed(rest) by {
        forall k | 0 <= k < |rest| ensures rest[k] == xs[k + 1] { }
      }
      TrimmedNonEmptyKeepsAll(rest);
      assert TrimmedNonEmpty(xs) == [xs[0]] + TrimmedNonEmpty(rest);
      assert xs == [xs[0]] + rest;
    }
  }

  /** A comma-joined list of trimmed, non-empty addresses reads back as the same list. */
  lemma RecipientsRoundTrip(xs: seq<string>)
    requires forall k :: 0 <= k < |xs| ==> xs[k] != "" && ',' !in xs[k]
    requires forall k :: 0 <= k < |xs| ==> !IsSpace(xs[k][0]) && !IsSpace(xs[k][|xs[k]| - 1])
    ensures Recipients(Join(xs, ",")) == xs
  {
    if xs == [] {
      assert Join(xs, ",") == "";
      RecipientsUnset();
    } else {
      SplitJoin(xs, ',');
      TrimmedNonEmptyKeepsAll(xs);
    }
  }

  // ---------------------------------------------------------------- escaping

  /** `s.replace(/c/g, r)`. */
  function ReplaceAll(s: string, c: char, r: string): string {
    if s == [] then [] else (if s[0] == c then r else [s[0]]) + ReplaceAll(s[1..], c, r)
  }

  lemma {:induction false} ReplaceAllConcat(a: string, b: string, c: char, r: string)
    ensures ReplaceAll(a + b, c, r) == ReplaceAll(a, c, r) + ReplaceAll(b, c, r)
  {
    if a != [] {
      assert (a + b)[1..] == a[1..] + b;
      ReplaceAllConcat(a[1..], b, c, r);
    } else {
      assert a + b == b;
    }
  }

  lemma {:induction false} ReplaceAllAbsent(s: string, c: char, r: string)
    requires c !in s
    ensures ReplaceAll(s, c, r) == s
  {
    if s != [] {
      ReplaceAllAbsent(s[1..], c, r);
    }
  }

  /** `escapeHtml`: empty for a falsy value, otherwise `&` first, then `<`, `>` and `"`. */
  function EscapeHtml(s: string): string {
    if s == "" then ""
    else ReplaceAll(ReplaceAll(ReplaceAll(ReplaceAll(s, '&', "&amp;"), '<', "&lt;"), '>', "&gt;"), '"', "&quot;")
  }

  /** The entity each character becomes, as a reference for the chain of replacements. */
  function EscapeChar(c: char): string {
    if c == '&' then "&amp;"
    else if c == '<' then "&lt;"
    else if c == '>' then "&gt;"
    else if c == '"' then "&quot;"
    else [c]
  }

  function EscapeEach(s: string): string {
    if s == [] then [] else EscapeChar(s[0]) + EscapeEach(s[1..])
  }

  function Chain(s: string): string {
    ReplaceAll(ReplaceAll(ReplaceAll(ReplaceAll(s, '&', "&amp;"), '<', "&lt;"), '>', "&gt;"), '"', "&quot;")
  }

  lemma ReplaceAllOne(c: char, x: char, r: string)
    ensures ReplaceAll([c], x, r) == if c == x then r else [c]
  {
    assert [c][1..] == [];
  }

  lemma ChainOneChar(c: char)
    ensures Chain([c]) == EscapeChar(c)
  {
    var r1 := ReplaceAll([c], '&', "&amp;");
    ReplaceAllOne(c, '&', "&amp;");
    assert r1 == if c == '&' then "&amp;" else [c];
    var r2 := ReplaceAll(r1, '<', "&lt;");
    if c == '&' { ReplaceAllAbsent(r1, '<', "&lt;"); } else { ReplaceAllOne(c, '<', "&lt;"); }
    assert r2 == if c == '&' then "&amp;" else if c == '<' then "&lt;" else [c];
    var r3 := ReplaceAll(r2, '>', "&gt;");
    if c == '&' || c == '<' { ReplaceAllAbsent(r2, '>', "&gt;"); } else { ReplaceAllOne(c, '>', "&gt;"); }
    assert r3 == if c == '&' then "&amp;" else if c == '<' then "&lt;" else if c == '>' then "&gt;" else [c];
    if c == '&' || c == '<' || c == '>' { ReplaceAllAbsent(r3, '"', "&quot;"); } else { ReplaceAllOne(c, '"', "&quot;"); }
  }

  lemma {:induction false} ChainIsEscapeEach(s: string)
    ensures Chain(s) == EscapeEach(s)
  {
    if s != [] {
      var t := s[1..];
      assert s == [s[0]] + t;
      var r1a, r1b := ReplaceAll([s[0]], '&', "&amp;"), ReplaceAll(t, '&', "&amp;");
      ReplaceAllConcat([s[0]], t, '&', "&amp;");
      var r2a, r2b := ReplaceAll(r1a, '<', "&lt;"), ReplaceAll(r1b, '<', "&lt;");
      ReplaceAllConcat(r1a, r1b, '<', "&lt;");
      var r3a, r3b := ReplaceAll(r2a, '>', "&gt;"), ReplaceAll(r2b, '>', "&gt;");
      ReplaceAllConcat(r2a, r2b, '>', "&gt;");
      ReplaceAllConcat(r3a, r3b, '"', "&quot;");
      ChainOneChar(s[0]);
      ChainIsEscapeEach(t);
    }
  }

  /** Replacing the four characters in turn is escaping each character on its own. */
  lemma EscapeHtmlPerChar(s: string)
    ensures EscapeHtml(s) == EscapeEach(s)
  {
    ChainIsEscapeEach(s);
  }

  predicate IsMarkup(c: char) {
    c == '<' || c == '>' || c == '"'
  }

  lemma {:induction false} EscapeEachNoMarkup(s: string)
    ensures forall k :: 0 <= k < |EscapeEach(s)| ==> !IsMarkup(EscapeEach(s)[k])
  {
    if s != [] {
      EscapeEachNoMarkup(s[1..]);
      var e, rest := EscapeChar(s[0]), EscapeEach(s[1..]);
      assert EscapeEach(s) == e + rest;
      assert forall k :: 0 <= k < |e| ==> !IsMarkup(e[k]);
    }
  }

  /** The escaped text has no raw `<`, `>` or `"`. */
  lemma EscapeHtmlNoMarkup(s: string)
    ensures forall k :: 0 <= k < |EscapeHtml(s)| ==> !IsMarkup(EscapeHtml(s)[k])
  {
    EscapeHtmlPerChar(s);
    EscapeEachNoMarkup(s);
  }

  /** How a browser reads the escaped text back: the four entities and literal characters. */
  function Unescape(t: string): string
    decreases |t|
  {
    if t == [] then []
    else if "&amp;" <= t then "&" + Unescape(t[5..])
    else if "&lt;" <= t then "<" + Unescape(t[4..])
    else if "&gt;" <= t then ">" + Unescape(t[4..])
    else if "&quot;" <= t then "\"" + Unescape(t[6..])
    else [t[0]] + Unescape(t[1..])
  }

  lemma UnescapeOne(c: char, rest: string)
    ensures Unescape(EscapeChar(c) + rest) == [c] + Unescape(rest)
  {
    var t := EscapeChar(c) + rest;
    if c == '&' {
      assert "&amp;" <= t && t[5..] == rest;
    } else if c == '<' {
      assert t[1] == 'l';
      assert !("&amp;" <= t) && "&lt;" <= t && t[4..] == rest;
    } else if c == '>' {
      assert t[1] == 'g';
      assert !("&amp;" <= t) && !("&lt;" <= t) && "&gt;" <= t && t[4..] == rest;
    } else if c == '"' {
      assert t[1] == 'q';
      assert !("&amp;" <= t) && !("&lt;" <= t) && !("&gt;" <= t) && "&quot;" <= t && t[6..] == rest;
    } else {
      assert t[0] == c && t[1..] == rest;
    }
  }

  lemma {:induction false} UnescapeEscapeEach(s: string)
    ensures Unescape(EscapeEach(s)) == s
  {
    if s != [] {
      UnescapeEscapeEach(s[1..]);
      UnescapeOne(s[0], EscapeEach(s[1..]));
      assert s == [s[0]] + s[1..];
    }
  }

  /** Escaping loses nothing: the text reads back as it was. */
  lemma EscapeHtmlRoundTrip(s: string)
    ensures Unescape(EscapeHtml(s)) == s
  {
    EscapeHtmlPerChar(s);
    UnescapeEscapeEach(s);
  }

  // ---------------------------------------------------------------- email body

  datatype Field = Field(caption: string, value: string)

  function OptInText(updates: string): (r: string)
    ensures r == "Yes" <==> updates == "yes"
    ensures r == "Yes" || r == "No"
  {
    if updates == "yes" then "Yes" else "No"
  }

  /** The optional rows, in their fixed order, each with the value that decides whether it is shown. */
  function OptionalFields(d: LeadData): seq<(string, Field)> {
    [ (d.phone, Field("Phone", d.phone)),
      (d.company, Field("Company", d.company)),
      (d.jobTitle, Field("Job Title", d.jobTitle)),
      (d.product, Field("Product Interest", d.product)),
      (d.timeline, Field("Timeline", d.timeline)),
      (d.updates, Field("Marketing Opt-in", OptInText(d.updates))),
      (d.message, Field("Message", d.message)) ]
  }

  const OPTIONAL_LABELS: seq<string> :=
    ["Phone", "Company", "Job Title", "Product Interest", "Timeline", "Marketing Opt-in", "Message"]

  /** The row a conditional push adds: the payload when its guard is set, nothing otherwise. */
  function Row<T>(guard: string, x: T): (r: seq<T>)
    ensures r == [] <==> guard == ""
  {
    if guard != "" then [x] else []
  }

  /** What a run of conditional pushes over guarded candidates leaves, in order. */
  function Kept<T>(cands: seq<(string, T)>): (r: seq<T>)
    ensures |r| <= |cands|
  {
    if cands == [] then []
    else
      var last := cands[|cands| - 1];
      Kept(cands[..|cands| - 1]) + Row(last.0, last.1)
  }

  /** The conditional pushes keep the payloads whose guard is set, in candidate order. */
  lemma {:induction false} KeptIsFilter<T>(cands: seq<(string, T)>)
    ensures Kept(cands) == Map(Filter(cands, (p: (string, T)) => p.0 != ""), (p: (string, T)) => p.1)
  {
    if cands != [] {
      var init, last := cands[..|cands| - 1], cands[|cands| - 1];
      var f := (p: (string, T)) => p.0 != "";
      var g := (p: (string, T)) => p.1;
      KeptIsFilter(init);
      assert cands == init + [last];
      FilterConcat(init, [last], f);
      assert [last][1..] == [];
      assert Filter([last], f) == if last.0 != "" then [last] else [];
      var a, b := Filter(init, f), Filter([last], f);
      assert Map(a + b, g) == Map(a, g) + Map(b, g);
    }
  }

  /** One more conditional push. */
  lemma KeptStep<T>(cands: seq<(string, T)>, i: int)
    requires 0 <= i < |cands|
    ensures Kept(cands[..i + 1]) == Kept(cands[..i]) + Row(cands[i].0, cands[i].1)
  {
    assert cands[..i + 1][..i] == cands[..i];
  }

  /** A payload is kept exactly when some candidate carries it under a set guard. */
  lemma {:induction false} KeptMembership<T>(cands: seq<(string, T)>, x: T)
    ensures x in Kept(cands) <==> exists p :: p in cands && p.0 != "" && p.1 == x
  {
    if cands != [] {
      var init := cands[..|cands| - 1];
      KeptMembership(init, x);
      assert cands == init + [cands[|cands| - 1]];
      if exists p :: p in init && p.0 != "" && p.1 == x {
        var p :| p in init && p.0 != "" && p.1 == x;
        assert p in cands;
      }
    }
  }

  /** With every guard unset nothing is kept. */
  lemma {:induction false} KeptNone<T>(cands: seq<(string, T)>)
    requires forall k :: 0 <= k < |cands| ==> cands[k].0 == ""
    ensures Kept(cands) == []
  {
    if cands != [] {
      KeptNone(cands[..|cands| - 1]);
    }
  }

  /** With every guard set every payload is kept, in order. */
  lemma {:induction false} KeptAll<T>(cands: seq<(string, T)>)
    requires forall k :: 0 <= k < |cands| ==> cands[k].0 != ""
    ensures |Kept(cands)| == |cands|
    ensures forall k :: 0 <= k < |cands| ==> Kept(cands)[k] == cands[k].1
  {
    if cands != [] {
      KeptAll(cands[..|cands| - 1]);
    }
  }

  /**
   * The rows of the notification, in the order `buildEmailHtml` pushes them:
   * Name and Email, then the optional rows whose value is set, in their fixed order.
   */
  function EmailFields(d: LeadData): (r: seq<Field>)
    ensures 2 <= |r| <= 2 + |OPTIONAL_LABELS|
    ensures r[0] == Field("Name", d.name) && r[1] == Field("Email", d.email)
    ensures r[2..] == Map(Filter(OptionalFields(d), (p: (string, Field)) => p.0 != ""), (p: (string, Field)) => p.1)
  {
    KeptIsFilter(OptionalFields(d));
    [Field("Name", d.name), Field("Email", d.email)] + Kept(OptionalFields(d))
  }

  lemma OptionalLabelsDistinct(d: LeadData, k: int, q: (string, Field))
    requires 0 <= k < 7 && q in OptionalFields(d) && q.1.caption == OptionalFields(d)[k].1.caption
    ensures q == OptionalFields(d)[k]
  {
  }

  /** An optional row appears exactly when its value is set. */
  lemma OptionalFieldShownIff(d: LeadData, k: int)
    requires 0 <= k < |OPTIONAL_LABELS|
    ensures OptionalFields(d)[k].1.caption == OPTIONAL_LABELS[k]
    ensures OptionalFields(d)[k].1 in EmailFields(d) <==> OptionalFields(d)[k].0 != ""
  {
    var opt := OptionalFields(d);
    var p := opt[k];
    KeptMembership(opt, p.1);
    if p.1 in EmailFields(d) {
      assert p.1.caption != "Name" && p.1.caption != "Email";
      assert p.1 in Kept(opt);
      var q :| q in opt && q.0 != "" && q.1 == p.1;
      OptionalLabelsDistinct(d, k, q);
    }
    if p.0 != "" {
      assert p in opt;
      assert p.1 in Kept(opt);
    }
  }

  /** With every optional value set, all nine rows appear in the fixed order. */
  lemma AllFieldsInOrder(d: LeadData)
    requires d.phone != "" && d.company != "" && d.jobTitle != "" && d.product != ""
    requires d.timeline != "" && d.updates != "" && d.message != ""
    ensures |EmailFields(d)| == 9
    ensures forall k :: 0 <= k < 7 ==> EmailFields(d)[k + 2].caption == OPTIONAL_LABELS[k]
  {
    KeptAll(OptionalFields(d));
  }

  /** With no optional value set, only Name and Email appear. */
  lemma OnlyNameAndEmail(d: LeadData)
    requires d.phone == "" && d.company == "" && d.jobTitle == "" && d.product == ""
    requires d.timeline == "" && d.updates == "" && d.message == ""
    ensures EmailFields(d) == [Field("Name", d.name), Field("Email", d.email)]
  {
    KeptNone(OptionalFields(d));
  }

  /** `if (guard) list.push(x)`. */
  method PushIf<T>(list: seq<T>, guard: string, x: T) returns (r: seq<T>)
    ensures r == list + Row(guard, x)
  {
    r := list;
    if guard != "" {
      r := r + [x];
    }
  }

  /**
   * `if (guard) list.push(x)` as the `i`-th of a run of conditional pushes
   * over `cands`, which started from `start`.
   */
  method PushNext<T>(list: seq<T>, guard: string, x: T, ghost start: seq<T>, ghost cands: seq<(string, T)>, ghost i: int)
    returns (r: seq<T>)
    requires 0 <= i < |cands| && cands[i] == (guard, x) && list == start + Kept(cands[..i])
    ensures r == list + Row(guard, x) && r == start + Kept(cands[..i + 1])
  {
    r := PushIf(list, guard, x);
    KeptStep(cands, i);
  }

  /** `buildEmailHtml`'s `fields` array, filled by conditional pushes. */
  method BuildFields(d: LeadData) returns (fields: seq<Field>)
    ensures fields == EmailFields(d)
  {
    ghost var o := OptionalFields(d);
    ghost var header := [Field("Name", d.name), Field("Email", d.email)];
    fields := [];
    fields := fields + [Field("Name", d.name)];
    fields := fields + [Field("Email", d.email)];
    assert fields == header + Kept(o[..0]);
    fields := PushNext(fields, d.phone, Field("Phone", d.phone), header, o, 0);
    fields := PushNext(fields, d.company, Field("Company", d.company), header, o, 1);
    fields := PushNext(fields, d.jobTitle, Field("Job Title", d.jobTitle), header, o, 2);
    fields := PushNext(fields, d.product, Field("Product Interest", d.product), header, o, 3);
    fields := PushNext(fields, d.timeline, Field("Timeline", d.timeline), header, o, 4);
    fields := PushNext(fields, d.updates, Field("Marketing Opt-in", OptInText(d.updates)), header, o, 5);
    fields := PushNext(fields, d.message, Field("Message", d.message), header, o, 6);
    assert o[..7] == o;
  }

  /** The footer lines, each with the value that decides whether it is shown. */
  function MetaCandidates(d: LeadData): seq<(string, string)> {
    [ (d.pageUrl, "Page: " + d.pageUrl),
      (d.utmSource, "Source: " + d.utmSource),
      (d.utmMedium, "Medium: " + d.utmMedium),
      (d.utmCampaign, "Campaign: " + d.utmCampaign) ]
  }

  /** The `metaInfo` lines: the page, source, medium and campaign lines whose value is set, in that order. */
  function MetaInfo(d: LeadData): (r: seq<string>)
    ensures |r| <= 4
    ensures r == Map(Filter(MetaCandidates(d), (p: (string, string)) => p.0 != ""), (p: (string, string)) => p.1)
  {
    KeptIsFilter(MetaCandidates(d));
    Kept(MetaCandidates(d))
  }

  /** A footer line appears exactly when its value is set. */
  lemma MetaLineShownIff(d: LeadData, k: int)
    requires 0 <= k < 4
    ensures MetaCandidates(d)[k].1 in MetaInfo(d) <==> MetaCandidates(d)[k].0 != ""
  {
    var cands := MetaCandidates(d);
    KeptMembership(cands, cands[k].1);
    if cands[k].1 in MetaInfo(d) {
      var q :| q in cands && q.0 != "" && q.1 == cands[k].1;
      assert q.1[0] == cands[k].1[0];
      assert q == cands[k];
    }
    if cands[k].0 != "" {
      assert cands[k] in cands;
    }
  }

  /** `buildEmailHtml`'s `metaInfo` array, filled by conditional pushes. */
  method BuildMeta(d: LeadData) returns (meta: seq<string>)
    ensures meta == MetaInfo(d)
  {
    ghost var c := MetaCandidates(d);
    meta := [];
    assert meta == [] + Kept(c[..0]);
    meta := PushNext(meta, d.pageUrl, "Page: " + d.pageUrl, [], c, 0);
    meta := PushNext(meta, d.utmSource, "Source: " + d.utmSource, [], c, 1);
    meta := PushNext(meta, d.utmMedium, "Medium: " + d.utmMedium, [], c, 2);
    meta := PushNext(meta, d.utmCampaign, "Campaign: " + d.utmCampaign, [], c, 3);
    assert c[..4] == c;
  }

  // ---------------------------------------------------------------- handler

  /** The badge text: `Quote Request` for the quote form, `Contact` for anything else. */
  function TypeLabel(formType: string): (r: string)
    ensures r == "Quote Request" <==> formType == "quote_request"
    ensures r == "Quote Request" || r == "Contact"
  {
    if formType == "quote_request" then "Quote Request" else "Contact"
  }

  function Subject(typeLabel: string, name: string): string {
    "New " + typeLabel + ": " + name + " - Ball Transfer Systems"
  }

  /** What the HTML body shows, each piece escaped: badge, field rows and footer lines. */
  datatype EmailHtml = EmailHtml(badge: string, rows: seq<Field>, meta: seq<string>)

  function EscapeField(f: Field): Field {
    Field(EscapeHtml(f.caption), EscapeHtml(f.value))
  }

  function EmailBody(d: LeadData, typeLabel: string): (h: EmailHtml)
    ensures |h.rows| == |EmailFields(d)| && |h.meta| == |MetaInfo(d)|
    ensures h.badge == EscapeHtml(typeLabel)
    ensures forall k :: 0 <= k < |h.rows| ==> h.rows[k] == EscapeField(EmailFields(d)[k])
    ensures forall k :: 0 <= k < |h.meta| ==> h.meta[k] == EscapeHtml(MetaInfo(d)[k])
  {
    var fields, meta := EmailFields(d), MetaInfo(d);
    EmailHtml(EscapeHtml(typeLabel),
      seq(|fields|, k requires 0 <= k < |fields| => EscapeField(fields[k])),
      seq(|meta|, k requires 0 <= k < |meta| => EscapeHtml(meta[k])))
  }

  datatype Notification = Notification(
    sender: string, to: seq<string>, replyTo: string, subject: string, html: EmailHtml)

  /** The result of asking the mail service to send. */
  datatype SendResult = Sent | SendFailed | SendThrew

  /** How far the chain of checks got: a reply without sending, or a notification to send. */
  datatype Decision = Respond(reply: Reply) | Deliver(note: Notification)

  /** The timestamp check: a truthy stamp less than two seconds old. */
  predicate TooFast(stamp: LoadStamp, now: int) {
    stamp.Stamp? && stamp.ms != 0 && now - stamp.ms < MIN_FILL_MS
  }

  /** Any of the three bot signals, which the handler answers with a silent success. */
  predicate LooksLikeSpam(d: LeadData, now: int) {
    d.websiteUrl != "" || TooFast(d.loadTime, now) || |d.token| < MIN_TOKEN_LENGTH
  }

  predicate EmailAccepted(email: string) {
    email != "" && '@' in email
  }

  /** The handler up to the send: every early return, in order, or the notification to send. */
  function Decide(req: Request, now: int, recipients: seq<string>): Decision {
    if req.verb == "OPTIONS" then Respond(Reply(200, CORS_HEADERS, NoBody))
    else if req.verb != "POST" then Respond(ErrorReply(405, "Method not allowed"))
    else if req.body.None? then Respond(ErrorReply(500, "Internal server error."))
    else
      var d := req.body.value;
      if d.websiteUrl != "" then Respond(SuccessReply())
      else if TooFast(d.loadTime, now) then Respond(SuccessReply())
      else if |d.token| < MIN_TOKEN_LENGTH then Respond(SuccessReply())
      else if !EmailAccepted(d.email) then Respond(ErrorReply(400, "A valid email address is required."))
      else if d.name == "" then Respond(ErrorReply(400, "Name is required."))
      else
        var typeLabel := TypeLabel(d.formType);
        Deliver(Notification(SENDER, recipients, d.email, Subject(typeLabel, d.name), EmailBody(d, typeLabel)))
  }

  /** `handler`: the reply for a request, the clock, the recipient list and the mail service's answer. */
  function Handle(req: Request, now: int, recipients: seq<string>, send: SendResult): (r: Reply)
    ensures r.headers == CORS_HEADERS
    ensures r.status in {200, 400, 405, 500}
  {
    match Decide(req, now, recipients)
    case Respond(reply) => reply
    case Deliver(_) =>
      match send
      case Sent => SuccessReply()
      case SendFailed => ErrorReply(500, "Failed to send notification.")
      case SendThrew => ErrorReply(500, "Internal server error.")
  }

  /** A preflight request gets 200 with the CORS headers and no body. */
  lemma PreflightAllowed(req: Request, now: int, recipients: seq<string>, send: SendResult)
    requires req.verb == "OPTIONS"
    ensures Handle(req, now, recipients, send) == Reply(200, CORS_HEADERS, NoBody)
  {
  }

  /** Any method other than OPTIONS and POST gets 405. */
  lemma OtherMethodsRejected(req: Request, now: int, recipients: seq<string>, send: SendResult)
    requires req.verb != "OPTIONS" && req.verb != "POST"
    ensures Handle(req, now, recipients, send) == ErrorReply(405, "Method not allowed")
  {
  }

  /** A bot signal is answered with 200 success and nothing is sent, whatever the other fields hold. */
  lemma SpamAnsweredSilently(req: Request, now: int, recipients: seq<string>, send: SendResult)
    requires req.verb == "POST" && req.body.Some? && LooksLikeSpam(req.body.value, now)
    ensures Decide(req, now, recipients) == Respond(SuccessReply())
    ensures Handle(req, now, recipients, send) == SuccessReply()
  {
  }

  /** The address is checked before the name: a bad address gets its own 400 even when the name is missing. */
  lemma EmailCheckedBeforeName(req: Request, now: int, recipients: seq<string>, send: SendResult)
    requires req.verb == "POST" && req.body.Some? && !LooksLikeSpam(req.body.value, now)
    ensures !EmailAccepted(req.body.value.email)
      ==> Handle(req, now, recipients, send) == ErrorReply(400, "A valid email address is required.")
    ensures EmailAccepted(req.body.value.email) && req.body.value.name == ""
      ==> Handle(req, now, recipients, send) == ErrorReply(400, "Name is required.")
  {
  }

  /** A notification is sent exactly for a POST with a body, no bot signal, an address with '@' and a name. */
  lemma DeliversExactly(req: Request, now: int, recipients: seq<string>)
    ensures Decide(req, now, recipients).Deliver? <==>
      (req.verb == "POST" && req.body.Some? && !LooksLikeSpam(req.body.value, now)
       && EmailAccepted(req.body.value.email) && req.body.value.name != "")
  {
  }

  /** The notification goes to the recipients, replies to the lead, and is titled by form type and name. */
  lemma NotificationContents(req: Request, now: int, recipients: seq<string>)
    requires req.verb == "POST" && req.body.Some? && !LooksLikeSpam(req.body.value, now)
    requires EmailAccepted(req.body.value.email) && req.body.value.name != ""
    ensures Decide(req, now, recipients).Deliver?
    ensures var n := Decide(req, now, recipients).note; var d := req.body.value;
      n.to == recipients && n.replyTo == d.email && n.sender == SENDER
      && n.subject == "New " + TypeLabel(d.formType) + ": " + d.name + " - Ball Transfer Systems"
      && n.html == EmailBody(d, TypeLabel(d.formType))
  {
  }

  /** Once the checks pass, the reply is 200 exactly when the mail service sent the message. */
  lemma SendDecides(req: Request, now: int, recipients: seq<string>, send: SendResult)
    requires req.verb == "POST" && req.body.Some? && !LooksLikeSpam(req.body.value, now)
    requires EmailAccepted(req.body.value.email) && req.body.value.name != ""
    ensures Handle(req, now, recipients, send).status == 200 <==> send == Sent
    ensures send == SendFailed ==> Handle(req, now, recipients, send) == ErrorReply(500, "Failed to send notification.")
    ensures send == SendThrew ==> Handle(req, now, recipients, send) == ErrorReply(500, "Internal server error.")
  {
  }

  /** A 200 reply to a POST is always the success body, sent or not. */
  lemma OkMeansSuccessBody(req: Request, now: int, recipients: seq<string>, send: SendResult)
    requires req.verb == "POST" && Handle(req, now, recipients, send).status == 200
    ensures Handle(req, now, recipients, send).body == Success
  {
  }
}
