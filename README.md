# Ball Transfer Systems website: a verified model of its decision logic

This project models the client and server logic of the Ball Transfer Systems
marketing site in Dafny and proves properties of it. The pieces are:

- **Quick quote** (`quick_quote.dfy`, `quote_json.dfy`). This is the persistent quote
  builder. It keeps an ordered list of quote items, changes it by add, remove,
  quantity change and a confirmed clear, and writes it to browser storage after
  every change. From the list it derives the badge count, the footer, the
  "In Quote" marks on add buttons and the `products` text for the quote form.
  The module state is the class `QuoteBuilder`. Its methods are proved against the
  pure transitions `Added`, `Removed` and `QuantityUpdated`, and lemmas prove what
  those transitions keep.
- **Search** (`search.dfy`). The product search box: a substring filter over the
  twenty-product catalogue, the category filter, the result heading, the keyboard
  highlight and `escapeRegex`. The overlay state (`currentFilter`,
  `highlightedIndex`, the input and the rendered list) is the class `SearchWidget`.
- **Lead endpoint** (`submit_lead.dfy`). The `handler` chain of early returns, the
  recipient list, the subject and form-type label, the rows of the notification
  email and `escapeHtml`.
- **Form handler** (`form_handler.dfy`, with the shared rules in `forms.dfy`). This
  covers `validateForm`, the spam token, the JSON payload and the message shown
  once the endpoint answers.
- **Main script** (`main_script.dfy`). The testimonial carousel index, `validateEmail`
  and the second copy of the contact and quote form checks.

`strings.dfy`, `seqs.dfy` and `wrappers.dfy` hold the ASCII string operations
(`trim`, `toLowerCase`, `includes`, `split`, `join`, number printing), `filter`/`map`
and an `Option` type.

Inputs from the browser, the clock and the network are parameters:
- storage is a `map<string, string>`;
- the `confirm()` answer is a `bool`;
- `Date.now()` is an `int`;
- the random draws of `generateToken` are a sequence of numbers below 36;
- the mail service's answer is a `SendResult`;
- the DOM form is a map from field id to value, where a missing key means the page has no such element;
- absent data attributes and absent body fields are `""`. Every test on them in the code is a truthiness test, which treats the two alike; where the code copies an absent value as it is, "## Left out" says so.

Places where the model follows the code rather than the usual description of it:
- `loadFromStorage` keeps the in-memory list when nothing is saved. It does not reset it. At start-up that list is empty anyway.
- `removeItem` drops every entry with the id, not only the first.
- A blank query in the search box shows the popular products but does not reset the highlight. Only a non-blank search and closing the overlay reset it. `Search.BlankQueryKeepsHighlight` shows the consequence.

## Model

| member | source | states |
|---|---|---|
| QuickQuote.ProductOf | src/js/quick-quote.js:296-301 | the product added by a button has id `data-id`, falling back to `data-name`; its name is `data-name`; its image is `data-image`, or the default image when that is empty; its details are `data-details` |
| QuickQuote.FindIndex | src/js/quick-quote.js:235 | the index found is the first entry with the id; `None` exactly when no entry has it |
| QuickQuote.Added | src/js/quick-quote.js:234-243 | an existing id gets quantity + 1 in place with length and every other entry unchanged; a new id is appended at the end with quantity 1 and the product's fields |
| QuickQuote.Removed | src/js/quick-quote.js:249-250 | an entry survives iff it was there and has another id; the id is gone afterwards; an absent id leaves the list unchanged |
| QuickQuote.QuantityUpdated | src/js/quick-quote.js:255-258 | the first matching entry gets `max(1, q + delta)` and every other entry is unchanged; an unknown id changes nothing; the length never changes |
| QuickQuote.AddedWellFormed | src/js/quick-quote.js:234-243 | adding keeps ids unique and every quantity ≥ 1 |
| QuickQuote.RemovedWellFormed | src/js/quick-quote.js:249-250 | removing keeps ids unique and every quantity ≥ 1 |
| QuickQuote.UpdatedWellFormed | src/js/quick-quote.js:255-258 | a quantity change keeps ids unique and every quantity ≥ 1 |
| QuickQuote.RunKeepsWellFormed | src/js/quick-quote.js:234-270 | any sequence of add, remove, quantity change and clear keeps ids unique and quantities ≥ 1 |
| QuickQuote.OnlyRemoveAndClearDropIds | src/js/quick-quote.js:234-270 | an id in the quote is still there after any action except removing that id or a confirmed clear |
| QuickQuote.AddThenRemove | src/js/quick-quote.js:234-250 | adding a product and then removing its id gives what removing the id alone gives |
| QuickQuote.RemoveKeepsOrder | src/js/quick-quote.js:250 | removal keeps relative order: it distributes over concatenation |
| QuickQuote.TotalAtLeastLength | src/js/quick-quote.js:210 | with quantities ≥ 1 the total is at least the number of entries |
| QuickQuote.TotalAfterAdd | src/js/quick-quote.js:234-243 | each add raises the total quantity by exactly one |
| QuickQuote.TotalAfterUpdate | src/js/quick-quote.js:255-258 | a quantity change moves the total by the change actually applied; an unknown id leaves it |
| QuickQuote.TotalAfterRemove | src/js/quick-quote.js:249-250 | removing an id lowers the total by exactly the quantity held under that id |
| QuickQuote.Badge | src/js/quick-quote.js:229-231 | the badge is blank iff the total is not positive, and otherwise reads back as the total |
| QuickQuote.SummaryLabel | src/js/quick-quote.js:214 | the footer reads `1 item` for a total of one; any other total ends in ` items`, and its number reads back as the total |
| QuickQuote.EmptyViewsAgree | src/js/quick-quote.js:169-231 | for lists with quantities ≥ 1: badge blank, footer hidden, empty state shown and total 0 each hold iff the list is empty |
| QuickQuote.ClickMarksButton | src/js/quick-quote.js:292-311 | after a click on an add button that button is marked "In Quote" |
| QuickQuote.InQuoteIffFound | src/js/quick-quote.js:309-310 | the `some` membership test of the marks agrees with the `find` lookup used by add and update |
| QuickQuote.QuoteDetailsAppend | src/js/quick-quote.js:274-276 | the submit text grows by one `", "`-separated `<name> (Qty: <q>)` entry per item, in list order |
| QuickQuote.SubmitExample | src/js/quick-quote.js:274-276 | the items SMC 1/4 ×2 and FMC ×1 give exactly `SMC 1/4 (Qty: 2), FMC (Qty: 1)` |
| QuickQuote.Loaded | src/js/quick-quote.js:142-152 | a missing key or an empty saved string leaves the list as it was; a saved value that fails to parse empties it; a parsed value replaces it |
| QuickQuote.LoadAfterSave | src/js/quick-quote.js:142-160 | loading right after saving a list gives back that list, whatever was in memory |
| QuickQuote.SavedListSurvivesReload | src/js/quick-quote.js:20-34 | page start-up after a save shows the saved list |
| QuickQuote.AddTwiceThenRemove | src/js/quick-quote.js:234-253 | two adds of one product give one entry of quantity 2; removing it empties the list, hides the footer and blanks the badge |
| QuoteJson.RoundTrip | src/js/quick-quote.js:146-156 | decoding the stored text of a list gives back the same list |
| QuickQuote.QuoteBuilder.constructor | src/js/quick-quote.js:20-34 | start-up: an empty list, then the stored list loaded; the sidebar is closed |
| QuickQuote.QuoteBuilder.LoadFromStorage | src/js/quick-quote.js:142-152 | the list becomes `Loaded` of the old list and storage; a list already persisted is unchanged |
| QuickQuote.QuoteBuilder.SaveToStorage | src/js/quick-quote.js:154-160 | only the quote key is rewritten, and it decodes to the list |
| QuickQuote.QuoteBuilder.AddItem | src/js/quick-quote.js:234-247 | the list becomes `Added(old, p)` and is saved; well-formedness is kept; the total rises by one |
| QuickQuote.QuoteBuilder.ClickAddButton | src/js/quick-quote.js:292-303 | a click adds the button's product, saves, and leaves the button marked |
| QuickQuote.QuoteBuilder.RemoveItem | src/js/quick-quote.js:249-253 | the list becomes `Removed(old, id)` and is saved; well-formedness is kept |
| QuickQuote.QuoteBuilder.UpdateQuantity | src/js/quick-quote.js:255-262 | the list becomes `QuantityUpdated(old, id, delta)`; saved only when the id is found, otherwise list and storage are untouched |
| QuickQuote.QuoteBuilder.ClearAll | src/js/quick-quote.js:264-270 | a confirmed clear empties and saves the list; a declined one leaves list and storage untouched |
| QuickQuote.QuoteBuilder.SubmitQuote | src/js/quick-quote.js:272-282 | the `products` text is `QuoteDetails` of the list, and the list is not modified |
| QuickQuote.QuoteBuilder.GetItems | src/js/quick-quote.js:335 | returns a copy equal to the list |
| QuickQuote.QuoteBuilder.OpenSidebar | src/js/quick-quote.js:130-134 | the sidebar is open |
| QuickQuote.QuoteBuilder.CloseSidebar | src/js/quick-quote.js:136-140 | the sidebar is closed |
| QuickQuote.QuoteBuilder.HandleKey | src/js/quick-quote.js:94-98 | Escape closes an open sidebar; any other key leaves it |
| Search.QueryOf | src/js/search.js:199 | the query is empty iff the input is blank after trimming |
| Search.FilteredExactly | src/js/search.js:206-224 | a product is listed iff it is in the catalogue, its lower-cased `name type material capacity` contains the query, and the category keeps it |
| Search.MatchesKeepCatalogueOrder | src/js/search.js:206-224 | results keep catalogue order: filtering distributes over concatenation |
| Search.CategoryOnlyNarrows | src/js/search.js:211-224 | any category filter yields a sub-list of the `all` results, no longer than it |
| Search.StudFilterExcludesMachined | src/js/search.js:216-219 | `stud` drops the Machined Stud type that `machined` keeps, and keeps Stud Mount |
| Search.Heading | src/js/search.js:252 | the heading reads `1 result` for one item and `N results` otherwise |
| Search.RenderResults | src/js/search.js:237-255 | zero matches give the empty state; otherwise the counted heading and exactly the matches |
| Search.PopularProducts | src/js/search.js:230-234 | the default list is the first six catalogue products, or all of a shorter catalogue |
| Search.SitePopularProducts | src/js/search.js:10-31 | the site's catalogue has twenty products, so the default list is its first six |
| Search.SearchResetsHighlight | src/js/search.js:198-228 | a non-blank query lists exactly its matches and resets the highlight to -1 |
| Search.BlankQueryKeepsHighlight | src/js/search.js:198-204 | a blank query lists the popular products and keeps the old highlight, which may then point past them |
| Search.ArrowDown | src/js/search.js:283-285 | ArrowDown gives min(i + 1, n - 1): at most both, and equal to one of them; it stays in [-1, n-1] from any i ≥ -1 |
| Search.ArrowUp | src/js/search.js:288-290 | ArrowUp gives i - 1 from i ≥ 0 and never goes below -1 |
| Search.ArrowsKeepRange | src/js/search.js:283-291 | both arrows keep a highlight in [-1, n-1] once it is there |
| Search.EnterTarget | src/js/search.js:293-297 | Enter navigates iff 0 ≤ index < number of listed results, to that result's link |
| Search.EscapeRegex | src/js/search.js:322-324 | a text without special characters is returned unchanged |
| Search.EscapeRegexOne | src/js/search.js:323 | one character: a backslash in front of each of `.*+?^${}()\|[]\` and any other character as it is |
| Search.EscapeRegexConcat | src/js/search.js:323 | the replacement is per character: escaping distributes over concatenation |
| Search.EscapeRegexCorrect | src/js/search.js:322-324 | the escaped text has no bare special character and reads back, literally, as the input |
| Search.EscapeRegexExample | src/js/search.js:323 | `4.` becomes `4\.` |
| Search.SearchWidget.constructor | src/js/search.js:43-45 | initial state: filter `all`, highlight -1, overlay closed |
| Search.SearchWidget.Open | src/js/search.js:182-188 | opening shows the popular products |
| Search.SearchWidget.Close | src/js/search.js:190-196 | closing clears the input and resets the highlight to -1 |
| Search.SearchWidget.HandleSearch | src/js/search.js:198-228 | the view and highlight become `AfterSearch` of the input, filter and old highlight |
| Search.SearchWidget.InputChanged | src/js/search.js:149 | an input event stores the text and searches it |
| Search.SearchWidget.ChooseFilter | src/js/search.js:153-160 | a category button becomes the current filter and the search runs again |
| Search.SearchWidget.HandleKeydown | src/js/search.js:279-300 | arrows move the highlight by `ArrowDown`/`ArrowUp`, other keys keep it; Enter yields `EnterTarget` |
| Search.SearchWidget.HandleGlobalKey | src/js/search.js:163-171 | Ctrl/Cmd+K opens with the popular list and keeps input and highlight; Escape closes an open overlay and keeps the view; Escape on a closed overlay and any other key change nothing |
| SubmitLead.RecipientsUnset | api/submit-lead.js:5 | an unset variable gives no recipients |
| SubmitLead.TrimmedNonEmptyIsFilter | api/submit-lead.js:5 | the recipients are the parts mapped through `trim`, with the empty ones filtered out, in order |
| SubmitLead.RecipientsMembership | api/submit-lead.js:5 | an address is a recipient iff it is non-empty and is the trim of some comma-separated part |
| SubmitLead.TrimmedNonEmptyConcat | api/submit-lead.js:5 | parsing keeps the parts' order: it distributes over concatenation |
| SubmitLead.RecipientsRoundTrip | api/submit-lead.js:5 | a comma-joined list of trimmed, non-empty addresses parses back to that list |
| SubmitLead.EscapeHtmlPerChar | api/submit-lead.js:172-179 | replacing `&` first, then `<`, `>` and `"`, is escaping each character on its own |
| SubmitLead.EscapeHtmlNoMarkup | api/submit-lead.js:172-179 | the escaped text contains no raw `<`, `>` or `"` |
| SubmitLead.EscapeHtmlRoundTrip | api/submit-lead.js:172-179 | the escaped text reads back, entity by entity, as the original |
| SubmitLead.OptInText | api/submit-lead.js:98 | the opt-in row shows Yes iff the value is `yes`, and No otherwise |
| SubmitLead.EmailFields | api/submit-lead.js:89-99 | Name and Email are always the first two rows; the rest are exactly the optional rows whose value is set, in the fixed order Phone, Company, Job Title, Product Interest, Timeline, Marketing Opt-in, Message |
| SubmitLead.OptionalFieldShownIff | api/submit-lead.js:93-99 | each optional row (Phone … Message, fixed captions) appears iff its value is set |
| SubmitLead.AllFieldsInOrder | api/submit-lead.js:91-99 | with every value set the nine rows appear in the fixed order |
| SubmitLead.OnlyNameAndEmail | api/submit-lead.js:91-99 | with no optional value set only Name and Email appear |
| SubmitLead.BuildFields | api/submit-lead.js:89-99 | the conditional pushes build exactly `EmailFields` |
| SubmitLead.MetaInfo | api/submit-lead.js:108-112 | the footer lines are exactly the Page, Source, Medium and Campaign lines whose value is set, in that order |
| SubmitLead.MetaLineShownIff | api/submit-lead.js:108-112 | the Page, Source, Medium and Campaign lines each appear iff their value is set |
| SubmitLead.BuildMeta | api/submit-lead.js:108-112 | the conditional pushes build exactly `MetaInfo` |
| SubmitLead.TypeLabel | api/submit-lead.js:61 | `quote_request` maps to Quote Request and anything else to Contact |
| SubmitLead.EmailBody | api/submit-lead.js:101-118 | the badge is the escaped type label; row k is field k with caption and value escaped; footer line k is line k escaped |
| SubmitLead.Handle | api/submit-lead.js:13-86 | every reply carries the CORS headers and has status 200, 400, 405 or 500 |
| SubmitLead.PreflightAllowed | api/submit-lead.js:15-18 | OPTIONS gets 200 with the CORS headers and no body |
| SubmitLead.OtherMethodsRejected | api/submit-lead.js:25-27 | any method other than OPTIONS and POST gets 405 |
| SubmitLead.SpamAnsweredSilently | api/submit-lead.js:34-49 | a set honeypot, a stamp under 2000 ms old or a token shorter than 10 gives 200 success and nothing is sent |
| SubmitLead.EmailCheckedBeforeName | api/submit-lead.js:52-58 | past the spam checks, a missing or `@`-less address gives its 400 first; only then is a missing name a 400 |
| SubmitLead.DeliversExactly | api/submit-lead.js:13-65 | a notification is sent iff POST, a body, no bot signal, an address with `@` and a name |
| SubmitLead.NotificationContents | api/submit-lead.js:61-74 | the mail goes to the recipients, replies to the lead, and is titled `New <type>: <name> - Ball Transfer Systems` |
| SubmitLead.SendDecides | api/submit-lead.js:76-84 | once sending, the reply is 200 iff the send succeeded; a send error gives 500 |
| SubmitLead.OkMeansSuccessBody | api/submit-lead.js:34-81 | every 200 reply to a POST carries the success body |
| FormHandler.GenerateToken | src/js/form-handler.js:21-28 | the token has 24 characters, each the drawn letter of `[a-z0-9]`, so it passes the server's length ≥ 10 check |
| FormHandler.GeneratedTokenPassesSpamChecks | src/js/form-handler.js:21-28 | a generated token, an empty honeypot and an old enough stamp pass every bot check of the endpoint |
| Forms.EmailPatternIff | src/js/form-handler.js:127 | `^[^\s@]+@[^\s@]+\.[^\s@]+$` accepts exactly one `@`, no white space, a non-empty local part and a domain dot with text on both sides |
| Forms.RequiredPass | src/js/form-handler.js:138-145 | the required-field loop reports one error per present, blank field, in order |
| Forms.NoRequiredErrorsIff | src/js/form-handler.js:138-145 | the required pass reports nothing iff every present required field is filled in |
| Forms.RequiredErrorsAreBlank | src/js/form-handler.js:139-144 | every required-field error names a present, blank required field |
| Forms.ContactErrorsIff | src/js/form-handler.js:120-135 | the contact rules report nothing iff name and message are non-blank and the address matches the pattern |
| Forms.ContactEmailMessages | src/js/form-handler.js:128-132 | a blank address and a malformed one produce different messages |
| Forms.QuoteErrorsIff | src/js/form-handler.js:137-159 | the quote rules report nothing iff present required fields are filled, a non-blank address matches and a non-blank phone has ≥ 10 digits |
| Forms.BlankPhoneOnlyRequired | src/js/form-handler.js:138-158 | a blank phone is reported as required and never as too short |
| FormHandler.ValidateContact | src/js/form-handler.js:120-135 | the contact branch accepts iff the contact rules hold, and throws on a missing field |
| FormHandler.ValidateQuote | src/js/form-handler.js:137-159 | the quote branch accepts iff the quote rules hold, and throws when the page has no email or phone field |
| FormHandler.ValidateForm | src/js/form-handler.js:111-162 | contact and quote_request use their rules; any other form type passes |
| FormHandler.CopyEntries | src/js/form-handler.js:60-64 | the form entries become the payload, with the last value winning for a repeated name |
| FormHandler.MergeUtm | src/js/form-handler.js:73-76 | the UTM loop builds `WithUtm` over the five keys |
| FormHandler.BuildPayload | src/js/form-handler.js:59-76 | the payload is the entries, then the four metadata fields, then the UTM parameters that are set |
| FormHandler.WithMetadata | src/js/form-handler.js:66-70 | formType, pageUrl, `_loadTime` and `_token` are set; every other field is unchanged |
| FormHandler.PayloadKeys | src/js/form-handler.js:59-76 | the payload has exactly the form's names, the four metadata names and the UTM keys given |
| FormHandler.PayloadMetadata | src/js/form-handler.js:66-76 | metadata overrides same-named form fields, and no UTM key overwrites it |
| FormHandler.PayloadUtmWins | src/js/form-handler.js:74-76 | a UTM key is copied only when the query parameter is non-empty, and then wins |
| FormHandler.PayloadFormValue | src/js/form-handler.js:62-64 | any other form field keeps the value of its last entry |
| FormHandler.SuccessText | src/js/form-handler.js:94-98 | the success message depends only on the form type |
| FormHandler.ShownNotice | src/js/form-handler.js:84-102 | success iff the endpoint accepted; a refusal shows its error field, or "Something went wrong." without one; a failure shows its message, or "Something went wrong. Please try again." when that is empty |
| FormHandler.SpamSeesThanks | src/js/form-handler.js:84-98 | a submission the endpoint takes for a bot is shown the same thank-you as a real lead |
| FormHandler.ServerRefusalShown | src/js/form-handler.js:84-101 | an address the endpoint refuses is shown with the endpoint's own wording |
| MainScript.JsRem | src/js/main.js:309-314 | JavaScript's `%`: Euclidean on non-negative dividends; on negative ones the remainder in (-n, 0] that differs from the dividend by a multiple of n |
| MainScript.TruncatedVsEuclidean | src/js/main.js:309-314 | on a negative dividend the truncated remainder is 0 when n divides it, and otherwise the Euclidean one minus n |
| MainScript.StepsStayInRange | src/js/main.js:308-316 | from an index in [0, n), next wraps n-1 to 0 and previous wraps 0 to n-1, staying in range |
| MainScript.StepsUndoEachOther | src/js/main.js:308-316 | previous undoes next and next undoes previous |
| MainScript.AdvancedIsModular | src/js/main.js:326-329 | k auto-advance steps from an index in range land on (i + k) mod n |
| MainScript.NegativeIndexStaysNegative | src/js/main.js:314-320 | -5 % 3 is -2 as in JavaScript; after an out-of-range dot index, a next step can stay negative |
| MainScript.ActiveDots | src/js/main.js:301-306 | dot k is active iff it is the current index |
| MainScript.OneActiveDot | src/js/main.js:301-306 | exactly one dot is active iff the index is in range |
| MainScript.Carousel.constructor | src/js/main.js:298-299 | the carousel starts at slide 0 |
| MainScript.Carousel.Next | src/js/main.js:313-316 | the index becomes `(i + 1) % n`; range is kept |
| MainScript.Carousel.Prev | src/js/main.js:308-311 | the index becomes `(i - 1 + n) % n`; range is kept |
| MainScript.Carousel.ClickDot | src/js/main.js:318-323 | the index becomes the dot's number with no bounds check |
| MainScript.ValidateEmail | src/js/main.js:167-169 | accepts exactly one `@`, no white space, a non-empty local part and a domain dot with text on both sides |
| MainScript.ContactSubmit | src/js/main.js:171-190 | the thank-you alert appears iff name, email and message are non-blank and the email passes `validateEmail` |
| MainScript.QuoteSubmit | src/js/main.js:193-224 | blank present required fields reject; phone is rejected only when non-blank with fewer than 10 digits; never throws |

## Left out

- Markup and presentation are not modelled: the sidebar, search and email HTML strings, SVG icons, CSS classes, focus, scroll lock, result-name highlighting with `<mark>`, and the page-links list of the search. The model keeps only abstract views: empty or not, counts, and "added" flags.
- `JSON.stringify`/`JSON.parse` are replaced by a concrete quoted-record codec with the same round trip. A stored text that is valid JSON but was not written by this code is outside the model. Parse failure is `None`.
- QuickQuote.Loaded: does not check decoded lists for unique ids or positive quantities, because the source does not either. It also does not model `localStorage.getItem` throwing (storage disabled), after which the source's catch empties the list; storage is always readable here.
- QuickQuote.ProductOf: a button without `data-name` gives a product whose name is JavaScript's `undefined`, which the submit text then prints as `undefined (Qty: 1)`. The model uses `""` for the absent name, so QuickQuote.QuoteDetails gives ` (Qty: 1)` there.
- QuickQuote.QuoteBuilder.GetItems: `[...quoteItems]` is a shallow copy, so the returned item objects are the module's own and a caller that changes one changes the quote without saving it. The model's items are values, so it returns an independent copy and this aliasing is not captured.
- SubmitLead.LeadData: every body field is a string here. A JSON body may carry other types: a numeric `_token` has no `length` and so passes the token check, and a non-string `email` makes `includes` throw, which the catch turns into a 500 instead of a 400. Neither case is modelled.
- FormHandler.ValidateContact, FormHandler.ValidateQuote and MainScript.ContactSubmit: when a field the code reads without a null check is missing, the result is `Threw`. The error messages shown on the page before the exception are not kept in that result.
- A `localStorage` write failure (quota) is not modelled. The source only logs it and keeps the in-memory list.
- Cross-tab storage races are not modelled, because the model is single-threaded.
- The toast and its 2-second timer, `debounce`, the 8-second message dismissal and the 6-second `setInterval` are not modelled. Only the state step each timer triggers is.
- URL building and query encoding in `submitQuote`, and the navigation itself, are not modelled. The model stops at the `products` text.
- `fetch`, promise chaining and the button loading state are not modelled. The endpoint's answer is the input `Answer`.
- The Resend client is represented only by `SendResult`. Which exception the platform raises for a missing body is represented only by the 500 reply.
- `Math.random` and `Date.now()` are inputs.
- `trim`, `toLowerCase` and `\s` cover ASCII only. Unicode white space and case folding are not modelled.
- `MainScript.Carousel.constructor`: requires at least one slide. With zero slides JavaScript's `% 0` gives NaN, which the integer index does not model.
- `MainScript.Carousel.ClickDot`: takes the already-parsed integer. A `data-index` that `parseInt` turns into NaN is not modelled.
- `Forms.Form` holds one string per field. Non-string `FormData` entries (files) are not modelled.
- Error markers on the page (`showError`, border colours, `clearErrors`) are not modelled as DOM state. They are modelled as the list of `FieldError`s in display order.
- Everything floating-point in `src/js/main.js` is not modelled: scroll progress, parallax, cursor glow, tilt, magnetic buttons and reveal animations. The mobile navigation is left out too.
