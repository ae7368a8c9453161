# Contact-form controller: a verified model

`form-validation.js` wires four behaviours to a contact form when the page loads:

- **Name-field character filter.** Every `beforeinput` event hands over just the inserted text. If that text has a character outside ASCII letters, JavaScript whitespace, `'` and `-`, the name field flashes and the error output shows a fixed "Disallowed character…" message. A single timer slot holds the pending clear. Re-triggering cancels the old clear and schedules a new one. When the clear fires, the flash class goes, and the message is cleared only if the output still starts with "Disallowed character".
- **Comments counter.** Every `input` event shows `remaining = maxLength − length`. The counter's wrapper carries exactly one of three tiers: error (`remaining < 0`), warning (`remaining < maxLength·0.1`) or normal.
- **Submit handler.** It clears both outputs. It runs each field's rule chain in a fixed order (first failing rule wins) and sets each field's custom validity to the chosen message or `""`. It collects the `{field, message}` entries in field order and writes them as JSON into a hidden `form-errors` input, which it creates only when the form has none. Then it either renders the messages as list items or shows "Submitting your message..." and sends the request.
- **Submission outcome.** Success shows the success text and resets the counter to the full budget with no tier class. Failure shows the network-failure text.

The model is Dafny:

| file | module | holds |
|---|---|---|
| `wrappers.dfy` | `Wrappers` | `Option` |
| `decimal.dfy` | `Decimal` | decimal rendering of the `${commentsMaxLength}` template slot, with its parser and round trip |
| `name_filter.dfy` | `NameFilter` | the character class `[a-zA-Z\s'-]`, and when a `beforeinput` event triggers the flash |
| `char_budget.dfy` | `CharBudget` | the remaining count and its tier |
| `validation.dfy` | `Validation` | validity flags, the three rule tables, first-failing-rule choice, the error list |
| `error_json.dfy` | `ErrorJson` | the JSON text of the error list, its decoder and the round trip |
| `controller.dfy` | `Controller` | class `FormController`, which owns all state the handlers share and has one method per handler, plus lemmas about the hidden field and the timeout |

`FormController` has these fields:

- `flashing`;
- the error output, either plain text or a list of items;
- the info text;
- the `nameFlashTimeout` slot, as `pendingTimer`;
- the set of timer handles the browser will still fire, as `scheduled`;
- the counter value and the two tier classes;
- the three custom-validity strings;
- the form's fields;
- the number of requests sent and not yet answered, as `inFlight`.

Its invariant `Valid()` says:

- the browser has at most one clear scheduled, and it is the one in the slot;
- the name field flashes exactly while a clear is pending;
- the two tier classes are never both set.

The browser's inputs become parameters:

- the inserted text of a `beforeinput` event, absent for deletions;
- the comments length;
- the constraint-validity flags of each field;
- which scheduled timer fires;
- whether the request succeeded.

The flash warning does not always clear itself. The timeout clears the output only while its text still starts with "Disallowed character" (lines 39-41). A validation list or the failure text rendered in the meantime survives. `Controller.TimeoutKeepsValidationList` and `Controller.TimeoutKeepsFailureMessage` prove this.

## Model

| member | source | states |
|---|---|---|
| NameFilter.AllAllowed | form-validation.js:28 | the scan accepts exactly the texts whose every character is in `[a-zA-Z\s'-]` |
| NameFilter.Triggers | form-validation.js:23-28 | the flash fires exactly when the inserted text is present and has a character outside the allowed class; absent or empty text never fires |
| NameFilter.IsJsWhitespace | form-validation.js:28 | what `\s` matches: ECMAScript WhiteSpace and LineTerminator; its meaning is stated through `NameFilter.AllAllowed` and `NameFilter.Triggers` |
| NameFilter.AllowedConcat | form-validation.js:28 | a concatenation passes the class test exactly when both parts pass |
| NameFilter.InsertionKeepsAllowed | form-validation.js:23-28 | checking only the inserted text is enough: an insertion at any position of an allowed value keeps it allowed exactly when the insertion does not trigger the flash |
| Controller.FormController.constructor | form-validation.js:14-18 | the counter starts at maxLength minus the initial length; nothing flashes, no timer is pending, both outputs are empty, all three custom validities are `""`, no request is in flight |
| Controller.FormController.OnNameBeforeInput | form-validation.js:22-45 | when the insertion triggers, the field flashes, the output shows the fixed message, the slot holds a fresh handle and exactly that one clear is scheduled; otherwise no state changes; at most one clear is ever scheduled and the invariant is kept |
| Controller.FormController.Flash | form-validation.js:29-43 | the cancel of the old clear and the install of the new one: afterwards the new handle is the only scheduled clear |
| Controller.FormController.OnFlashTimeout | form-validation.js:37-43 | only the handle in the slot can fire; afterwards the flash class is off, the slot is null, no clear is scheduled, and the output is `AfterTimeout` of the old output |
| Controller.TextContent | form-validation.js:39 | the output's `textContent`: plain text, or the list items' text run together; stated through `Controller.AfterTimeout` and `Controller.TimeoutKeepsValidationList` |
| Controller.ClearedOnTimeout | form-validation.js:39 | the timeout's test, non-empty and starting with "Disallowed character"; stated through `Controller.AfterTimeout`, `Controller.TimeoutClearsFlashMessage` and `Controller.TimeoutKeepsFailureMessage` |
| Controller.AfterTimeout | form-validation.js:39-41 | the output is either kept or emptied, and it is emptied exactly when its text is non-empty and starts with "Disallowed character" |
| Controller.TimeoutClearsFlashMessage | form-validation.js:31-41 | the timeout clears the flash's own message |
| Controller.TimeoutKeepsFailureMessage | form-validation.js:39-41 | the timeout leaves the network-failure message in place |
| Controller.TimeoutKeepsValidationList | form-validation.js:39-41 | the timeout never clears a rendered validation list |
| Controller.FlashThenFailedSubmit | form-validation.js:37-43 | after a rejected character, a failing submit and then the timeout: nothing is flashing, and the output still shows the submit's list items |
| CharBudget.Remaining | form-validation.js:49-50 | the counter plus the current length equals the maximum |
| CharBudget.TierOf | form-validation.js:56-62 | error exactly when remaining < 0; warning exactly when 0 <= remaining < maxLength·0.1 (real product); normal exactly when remaining >= maxLength·0.1 |
| CharBudget.TierMonotone | form-validation.js:58-62 | a longer comment never lands in a milder tier |
| CharBudget.TierBoundaries | form-validation.js:58-62 | tiers at length = max, max+1, 0.9·max and 0 |
| Controller.FormController.OnCommentsInput | form-validation.js:48-63 | the counter shows the remaining count, the displayed tier is its `TierOf`, and at most one tier class is set |
| Validation.FirstFailing | form-validation.js:74-108 | the first-failing-rule choice over a rule table; its meaning is `Validation.FirstFailingChoice` |
| Validation.FirstFailingChoice | form-validation.js:74-108 | no message exactly when no rule fails; otherwise the message of the first failing rule, whatever later rules say |
| Validation.NameChain | form-validation.js:74-85 | name: valueMissing, then tooShort, then patternMismatch, with their messages; none when all are clear |
| Validation.EmailChain | form-validation.js:87-95 | email: valueMissing, then typeMismatch |
| Validation.CommentsChain | form-validation.js:97-108 | comments: valueMissing, then tooShort, then tooLong with the maximum spliced into the message |
| Decimal.IntToDecimal | form-validation.js:104 | the decimal text of the maximum in the template: non-empty, a leading '-' exactly for negatives, digits after it; its value is `Decimal.IntToDecimalRoundTrip` |
| Decimal.IntToDecimalRoundTrip | form-validation.js:104 | the decimal text spliced into the too-long message reads back as the maximum |
| Validation.CollectErrors | form-validation.js:72-108 | the pushed entries in field order; its meaning is `Validation.CollectErrorsOrdered`, `Validation.CollectErrorsEmpty` and `Validation.ErrorForCollected` |
| Validation.CollectErrorsOrdered | form-validation.js:72-108 | at most three entries, strictly in the order name, email, comments, so at most one per field |
| Validation.CollectErrorsEmpty | form-validation.js:72-108 | the list is empty exactly when every field passes its chain |
| Validation.ErrorForCollected | form-validation.js:72-108 | each field's entry in the list is exactly its chain's message |
| Validation.CustomValidityMirrors | form-validation.js:74-108 | each custom validity is `""` exactly when the list has no entry for that field, and equals the entry's message otherwise |
| Validation.AllEmptySubmit | form-validation.js:74-99 | three empty fields give the three "required" entries, in field order |
| Validation.ShortNameSubmit | form-validation.js:77-78 | a too-short name with the other fields valid gives only the name-too-short entry |
| Validation.MessagesNotDisallowed | form-validation.js:75-105 | no validation message is empty or starts with 'D' |
| Controller.FormController.CheckName | form-validation.js:74-85 | appends the name chain's entry, if any, to the list and sets the name's custom validity |
| Controller.FormController.CheckEmail | form-validation.js:87-95 | the same for email |
| Controller.FormController.CheckComments | form-validation.js:97-108 | the same for comments |
| Controller.FormController.CheckFields | form-validation.js:72-108 | the pushes build exactly `CollectErrors`, and the three custom validities mirror the chains |
| Controller.FindField | form-validation.js:110 | the lookup returns the first field with the name, or nothing when no field has it |
| Controller.WithErrorsField | form-validation.js:110-117 | the first `form-errors` field, appended when missing, gets the new value; its meaning is `Controller.ErrorsFieldWritten`, `Controller.OtherFieldsKept` and `Controller.ErrorsFieldOverwritten` |
| Controller.ErrorsFieldWritten | form-validation.js:110-117 | after a submit the form has exactly one `form-errors` field if it had none (otherwise the same number), it carries the new value, and the form grows by one field only when the field was missing |
| Controller.OtherFieldsKept | form-validation.js:110-117 | a submit leaves every other field unchanged |
| Controller.ErrorsFieldOverwritten | form-validation.js:110-117 | a second submit overwrites the value in place, so only the latest list remains |
| Controller.FormController.WriteErrorsField | form-validation.js:110-117 | the fields become `WithErrorsField` of the old fields and the serialised list |
| ErrorJson.Serialize | form-validation.js:117 | `JSON.stringify` of the list; its meaning is `ErrorJson.SerializeRoundTrip` and `ErrorJson.SerializeEmpty` |
| ErrorJson.SerializeRoundTrip | form-validation.js:117 | the JSON text decodes back to exactly the error list |
| ErrorJson.ItemsRoundTrip | form-validation.js:117 | a non-empty comma-separated object sequence decodes back to its list, leaving the rest of the input |
| ErrorJson.ErrorRoundTrip | form-validation.js:117 | one `{"field":…,"message":…}` object decodes back to its entry |
| ErrorJson.StringRoundTrip | form-validation.js:117 | a quoted, escaped string decodes back to itself |
| ErrorJson.SerializeEmpty | form-validation.js:117 | the empty list is written `[]` |
| Controller.SubmittedErrorsDecode | form-validation.js:110-117 | the value in the `form-errors` field after a submit decodes to that submit's error list |
| Controller.RequestCarriesEmptyList | form-validation.js:117-139 | when the list is empty, which is the only case in which a request is sent, the field reads `[]` |
| Controller.AllPassingSubmit | form-validation.js:74-117 | three passing fields give no entries, and the field reads `[]` |
| Controller.FormController.RenderItems | form-validation.js:123-127 | the loop produces one item per entry, with the entry's message, in order |
| Controller.FormController.ShowOutcome | form-validation.js:120-139 | a request is made exactly when the list is empty; a non-empty list is rendered as list items; an empty one sets the submitting text and adds one request in flight |
| Controller.FormController.OnSubmit | form-validation.js:66-140 | both outputs are cleared first; the custom validities mirror the chains; the hidden field carries the serialised list; then either the list is rendered and nothing is requested, or the submitting text is shown and exactly one request is added |
| Controller.Reset | form-validation.js:162 | `form.reset()`: the same fields, each with its value set back to its default |
| Controller.FindFieldAfterReset | form-validation.js:162 | a reset changes no names, so the field lookup finds the same field |
| Controller.ResetKeepsErrorsField | form-validation.js:110-117 | a reset after a submit keeps the `form-errors` value that submit wrote |
| Controller.ResetIdempotent | form-validation.js:162 | resetting twice is resetting once |
| Controller.FormController.OnSubmitSuccess | form-validation.js:159-165 | the success text is shown, the fields are reset to their defaults, the counter shows the full budget, no tier class is set, and the request is no longer in flight |
| Controller.FormController.OnSubmitFailure | form-validation.js:167-168 | the failure text replaces the error output, and nothing else but the in-flight count changes |

## Left out

- DOM lookup, event registration, element creation and styling (`paddingLeft`) are outside the model. Focusing the first `:invalid` element (lines 130-133) is also left out: it depends on the browser's own validity state.
- How the browser computes the validity flags (email syntax, `pattern`, `minlength`, `maxlength`) is a browser API. The flags are inputs.
- The `namePattern` RegExp (line 20) is built but never used.
- `submitForm`'s `fetch`, `FormData`, `response.json()` and console logging are network and console I/O. Only "one request is sent", and its success or failure arriving later, are modelled.
- `formElement.reset()` (line 162) sets each field back to its default value. The model takes each field's default as given: the `defaultValue` of `FormField`. Only the `form-errors` input changes its default, because setting a hidden input's `value` writes its `value` attribute.
- The 1500 ms delay is not modelled. Expiry is an event that can fire for a scheduled handle at any later point.
- The hidden input's `type = 'hidden'` attribute is modelled only by its effect: writing the value also writes the default. A `form-errors` input that is already in the page is assumed to be hidden as well.
- The model takes `charCountSpan.parentElement` (line 54) to be `charCountWrapper` (line 165).
- `commentsInput.value.length` counts UTF-16 code units. The model takes that length as an input number.
- An absent `maxlength` attribute gives `maxLength = -1`. The model allows any integer.
- Floating point: `TierOf` compares exactly (`10 * remaining < maxLength`) where line 60 compares against the double product `commentsMaxLength * 0.1`. The two decide the same for every value `maxLength` can take, a 32-bit `long` including -1:
  - The double nearest 0.1 exceeds 1/10 by a factor of 1 + 2⁻⁵⁴, which is less than half a unit in the last place. So for a multiple of ten, `10k * 0.1` rounds to exactly `k`.
  - For any other maximum, when the product rounds, no integer lies between the rounded product and the exact tenth.
- ErrorJson.Serialize: escapes only `"` and `\`. `JSON.stringify` also escapes control characters and lone surrogates. Every message in the list is fixed ASCII text without control characters, so the two give the same text for every list the submit handler builds.
- Whether a second submit should be blocked while one is pending is an open design question. The model counts requests in flight (`inFlight`) and, like the source, does not prevent a second submit.
