# Therapist search front end: a verified model

The page is one script, `static/script.js`, holding a single class, `TherapistSearch`. It reads a free-text query and four filter selects and POSTs a search request to an external API. It then turns each returned provider record into a card. It also switches the page between four sections: a loading spinner, the results, "no results" and an error message.

This project models that class in Dafny in two parts.

- **Pure derivations**:
  - `SearchRequest` models `buildSearchPayload`.
  - `TherapistCard` models the field derivations of `createTherapistCard`.
  - `SearchPage.Render` models the choice `displayResults` makes between "no results" and the cards.
  - `JsText` and `JsValues` model the JavaScript built-ins these rely on:
    - `trim`
    - `includes`
    - `join`
    - truthiness
    - template-literal conversion to text
- **The section state machine** (`SearchPage.TherapistSearch`): this is a class with one boolean field per section plus the search button's disabled flag and label. Its methods `HideAllSections`, `ShowLoading`, `ShowError`, `DisplayResults` and `PerformSearch` change these fields in the same order as the script. The HTTP exchange in `performSearch` is an `Outcome` value passed in by the caller. It is one of three cases:
  - a parsed body;
  - a response with a status outside 200–299;
  - a rejected promise.

  `PerformSearch` returns the payload it would send, or `None` when it sends nothing.

The main proved facts are these:
- **Payload:** it always carries the trimmed query and `max_results = 3`. Each optional key is present if and only if its select is non-empty. The telehealth box never reaches the payload.
- **Blank query:** a blank query yields the error "Please enter a search query", and no request is sent.
- **Section display:** after `ShowLoading`, `ShowError`, `DisplayResults` or `PerformSearch`, exactly one section is visible. The button is disabled exactly while the spinner shows.
- **Results:** the cards match the server's results one for one, in the server's order.
- **Card bounds:** a card shows at most five specialty tags and a description of at most 153 characters.
- **Card fields:** each displayed field has its exact default and fallback rule.

## Model

| member | source | states |
|---|---|---|
| JsText.TrimStart | static/script.js:112 | the result is the longest suffix not starting with JavaScript whitespace, and everything dropped is whitespace |
| JsText.TrimEnd | static/script.js:112 | the result is the longest prefix not ending with whitespace, and everything dropped is whitespace |
| JsText.Trim | static/script.js:112 | the trimmed query is a contiguous piece of the input with only whitespace cut on either side, and it neither starts nor ends with whitespace |
| JsText.TrimEmptyIff | static/script.js:112-113 | the query is rejected as empty exactly when every character of the input is whitespace |
| JsText.TrimIdempotent | static/script.js:112 | trimming an already trimmed query changes nothing |
| JsText.IncludesIff | static/script.js:211 | the left-to-right `includes` scan succeeds exactly when the pattern occurs at some position of the text |
| JsText.IncludesAt | static/script.js:211 | an occurrence at a known position makes `includes` true |
| JsText.Includes | static/script.js:211 | the left-to-right scan: true whenever the text starts with the pattern, and never for a pattern longer than the text |
| JsText.Join | static/script.js:195 | an empty list joins to "", a one-element list to its element, and a non-empty list's joined text starts with its first element |
| JsText.NatToDecimal | static/script.js:200 | a number is rendered as a non-empty string of decimal digits, with no leading zero except for 0 itself |
| JsText.IntToDecimal | static/script.js:200 | an integer is rendered with a leading minus sign exactly when it is negative, followed by decimal digits that read back as its magnitude |
| JsText.DecimalRoundTrip | static/script.js:200 | reading back the rendered digits gives the number |
| JsValues.Truthy | static/script.js:195-212 | a value is falsy exactly when it is `undefined`, `null`, `false`, `0` or `""`; every array is truthy |
| JsValues.ToText | static/script.js:195 | template conversion shows a string as itself, a number as its decimal digits and a one-element array as its element |
| SearchRequest.IfSet | static/script.js:92-106 | a select adds its key exactly when its value is non-empty, and then carries that value |
| SearchRequest.Build | static/script.js:84-109 | the payload has the given query and `max_results` 3, and each of `max_fee`, `state`, `languages` and `provider_type` is present if and only if its select is non-empty. `languages` is the singleton list of the selected language |
| SearchRequest.BuildKeys | static/script.js:86-106 | the payload's key set is exactly `query`, `max_results` and the keys of the non-empty selects, so there is never a telehealth key |
| SearchRequest.TelehealthIgnored | static/script.js:84-109 | the telehealth checkbox does not change the payload |
| TherapistCard.OrDefault | static/script.js:226-230 | a missing or empty text field shows its fallback; otherwise it shows itself |
| TherapistCard.LanguagesText | static/script.js:195 | an array is joined with ", "; another truthy value is shown as text; a missing or falsy value gives "English" |
| TherapistCard.LanguagesListed | static/script.js:195 | every language of a languages array appears in the languages line |
| TherapistCard.JoinOffset | static/script.js:195 | every element of a joined list occurs in the joined text |
| TherapistCard.SpecialtyTags | static/script.js:196-198 | at most five tags; for an array they are its first min(5, n) entries in order; for anything else there are none |
| TherapistCard.FeeText | static/script.js:200 | a truthy fee shows as "$" followed by its text; otherwise "Contact for pricing" |
| TherapistCard.FeeOfNumber | static/script.js:200 | a positive numeric fee shows as "$" and digits that read back as the fee; a zero fee shows "Contact for pricing" |
| TherapistCard.Shorten | static/script.js:205-207 | a description longer than 150 becomes its first 150 characters plus "..." (153 characters); a shorter one is unchanged; the result never exceeds 153 |
| TherapistCard.ShortenIdempotent | static/script.js:205-207 | shortening a shortened description changes nothing |
| TherapistCard.DescriptionText | static/script.js:204-207 | a present, non-empty preview is shortened; a missing or empty one becomes the fixed fallback sentence; the result is at most 153 characters |
| TherapistCard.Telehealth | static/script.js:210-212 | telehealth is shown exactly when `telehealth_available` is truthy or `glance_appointments` contains "online" (a substring of a text, an entry of a list) |
| TherapistCard.ExplanationFor | static/script.js:266-276 | a present, non-empty ranking explanation is shown verbatim; otherwise the generic similarity sentence is shown |
| TherapistCard.BadgeFor | static/script.js:214-220 | the badge is always one of the three table entries: the provider type's own entry when it is in the table, and the therapist entry when the type is missing or unknown |
| TherapistCard.PropertyKey | static/script.js:220 | the property key a provider type is looked up under: the type's own text, or "undefined" when the field is missing |
| TherapistCard.AsWrittenBadge | static/script.js:220 | the lookup as the page does it: it also finds the inherited members of `Object.prototype`, and their badge fields render as "undefined" |
| TherapistCard.AsWrittenBadgeEscapesDefault | static/script.js:220 | the type "constructor" gets a badge outside the table under the page's lookup; the intended lookup gives the therapist badge |
| TherapistCard.CardFor | static/script.js:193-291 | every card has at most five specialties, a description of at most 153 characters, a badge from the table, non-empty name, title and profile link, and the telehealth rule |
| SearchPage.CardsFor | static/script.js:190 | one card per result, the i-th card derived from the i-th result, so the server's order is kept |
| SearchPage.ResultsTitle | static/script.js:187 | the heading is the fixed prefix `Search Results for "`, then the query, then a closing quote |
| SearchPage.ResultsStats | static/script.js:188 | the stats line is "Found ", then the total's decimal text, then " providers" |
| SearchPage.Render | static/script.js:181-190 | "no results" exactly when `results` is missing or empty; otherwise the title, the stats line and one card per result in order |
| SearchPage.RenderMentionsQueryAndTotal | static/script.js:187-188 | the results heading contains the query, and the stats line contains the reported total |
| SearchPage.ThrownMessage | static/script.js:141-158 | for a non-2xx response the message is `Search failed: <status> <statusText> - <body>`, which starts with "Search failed: " and contains the status code and the body; for a rejected request it is the error's own message |
| SearchPage.StatusLineQuoted | static/script.js:141 | the thrown status message contains both the status code's text and the response body |
| SearchPage.FailureText | static/script.js:158 | the error section shows "Search failed: ", then the caught message, then ". Please check browser console for details." |
| SearchPage.FailureTextKeeps | static/script.js:158 | the error section's text contains everything the caught error's message contains |
| SearchPage.HttpFailureReported | static/script.js:138-158 | for a non-2xx response the error text contains both the status code and the response body |
| SearchPage.TherapistSearch.constructor | static/script.js:2-9 | the page starts with the given form values, every section hidden and the button enabled |
| SearchPage.TherapistSearch.HideAllSections | static/script.js:169-174 | all four sections are hidden, and nothing else changes |
| SearchPage.TherapistSearch.ShowLoading | static/script.js:162-167 | only the spinner is visible, and the button is disabled with the "Searching..." label; the error and results texts are untouched |
| SearchPage.TherapistSearch.ShowError | static/script.js:293-299 | only the error section is visible, it shows the message, and the button is re-enabled; the results texts are untouched |
| SearchPage.TherapistSearch.DisplayResults | static/script.js:176-191 | the button is re-enabled and exactly one section is visible: "no results" (old results text untouched), or the results filled from `Render`; the error text is untouched |
| SearchPage.TherapistSearch.PerformSearch | static/script.js:111-160 | nothing is sent exactly when the input is blank, and then the empty-query error is shown. Otherwise the payload for the trimmed query is sent and the outcome is shown: the rendered results, or the error text for a failure. Afterwards exactly one section is visible and the button is enabled. The hidden results heading, stats line and cards keep their old values unless new results are shown, and the error text keeps its old value when a body arrives |

## Left out

- The HTTP calls (`fetch` in `loadStats` and `performSearch`) are network I/O. The search exchange is the `Outcome` parameter. The stats request and the stats display are not modelled at all.
- The console logging in `performSearch` and `loadStats` is diagnostic output only.
- DOM lookup and event wiring are not modelled: `initializeElements`, `attachEventListeners` (including the guard that re-runs a search on a filter change only when the query is non-blank), `loadExampleQuery`, the two `DOMContentLoaded` handlers and the timer-driven placeholder rotation.
- The page's initial section visibility comes from the HTML document, which is not part of this model. The constructor assumes every section starts hidden.
- The HTML markup of a card is not modelled; the card is the list of derived display fields.
- The similarity percentage (`similarity_score * 100` formatted with `toFixed(1)`) is floating-point formatting. The fallback explanation is therefore the abstract `HighSimilarity`, not a sentence with the percentage.
- `parseFloat` on the fee select is floating-point parsing. The payload keeps the select's raw text for `max_fee`. The script has no NaN check, so the model has none either.
- Numbers are integers. A non-integral fee and the exponent forms of `Number.prototype.toString` are not modelled.
- Arrays in a record hold strings only. JavaScript's `join` writes `null` and `undefined` elements as empty text; this is not modelled.
- Record fields are typed:
  - `name`, `job_title`, `city`, `state`, `profile_url`, `ranking_explanation` and `provider_type` are optional strings.
  - `description_preview` is a string, `glance_appointments` is a text or a list, and `results` is a list.
  - The response's `query` is a string and its `total_found` an integer. A response without `total_found`, which the script shows as "Found undefined providers", cannot be expressed.
  - `JsValues.Value` has no object case, so a field holding an object, which the page shows as "[object Object]", cannot be expressed either.
  - Other JSON types behave in three ways in the script, and none of them is modelled:
    - Falsy values behave like a missing field: `glance_appointments` short-circuits to no telehealth, and a falsy `results`, or one whose `length` is 0, shows "no results".
    - Some truthy values throw a TypeError inside `displayResults`, which the `catch` in `performSearch` turns into the error state: a truthy `glance_appointments` value without `includes`, or a truthy `results` value that is not an array and whose `length` is not 0.
    - Others render through string conversion, such as a numeric `description_preview`.
- Lengths and the 150-character cut count sequence elements (Unicode scalar values). JavaScript counts UTF-16 code units and can split a surrogate pair.
- CardFor: builds the badge with the corrected lookup `BadgeFor`, not the page's `AsWrittenBadge`. For a provider type that names an inherited `Object.prototype` member the page shows a badge of "undefined" fields; the card here shows the therapist badge. `AsWrittenBadge` and the finding below record the page's behaviour.
- PerformSearch: its postcondition describes the state after the exchange has settled. The spinner state in between is reached through `ShowLoading` in the body, but it is not part of the contract.
- Races between overlapping searches exist only through asynchronous I/O and are not modelled.
- `main.py` is not part of this model. It serves the static files and a health route.

In these points the model follows the script as written:
- A truthy fee of any sign is shown. A negative fee shows as "$-5"; a zero fee shows "Contact for pricing".
- The fee select is not validated before sending.
- The error text for a failed HTTP status carries the prefix twice: "Search failed: Search failed: 500 … - body. Please check browser console for details."

## Findings

| source | as written | input that shows it | evidently intended | confidence | as-written member | corrected member |
|---|---|---|---|---|---|---|
| static/script.js:220 | `providerTypeInfo[therapist.provider_type] \|\| providerTypeInfo['therapist']` looks the type up in a plain object literal. That also finds the members every object inherits from `Object.prototype`. Such a member is truthy, so the fallback is skipped, and the badge's label, icon and class render as "undefined" | `provider_type` = "constructor" (also "toString", "valueOf", "__proto__", …) | every type outside therapist, life_coach and nutrition_coach gets the therapist badge | high; not executed | TherapistCard.AsWrittenBadgeEscapesDefault | TherapistCard.BadgeFor |
