# Two-step submission flow, modelled in Dafny

The application is a small single-page web app built on React. A visitor goes through two steps:

- **Contact step.** They enter their contact details (full name, email, phone). The details are validated and stored in the browser's local storage under `userInfo`.
- **Entries step.** They type up to five free-text entries. A draft is saved under `draftEntries` one second after the last edit. On submit, the contact details are read back and a fixed-width text message is formatted. The message is posted to a chat webhook, with up to three attempts and waits between them. On success both keys are cleared and the visitor lands on `/thank-you`.

The model covers the logic of that flow:

- **`Validation`**: the email and phone validators. Each is given as a plain condition and as a structural reading of its regular expression, with a proof that the two agree.
- **`Storage`**: the safe local-storage adapter. Its state is the key/value map plus a flag saying whether the browser storage currently fails. Failures are absorbed as "absent" or "write skipped".
- **`Retry`**: the generic `retryOperation` helper, as a loop over an oracle of call outcomes.
- **`Json`**: `JSON.stringify` of the two flat string records, and a decoder for that text, with a round-trip proof.
- **`Records`**: the two records, their field updates and codecs, and the toasts and navigations the pages emit.
- **`DiscordMessage`**: `formatDiscordMessage`. This covers the table width, borders, centred title, padded field rows and the entry lines.
- **`InfoCollection`**: the contact page as a class. It covers field updates and the five ordered checks of `handleSubmit`, followed by the store write.
- **`Submission`**: the entries page as a class. It covers the navigation guard, the draft load, the debounced autosave (as an event-driven state machine), entry updates and `handleSubmit` with its inline retry loop.

`Text` holds the JavaScript string built-ins the code relies on: `trim`, `repeat`, `padEnd`, and the whitespace class shared by `\s` and `trim`. `Base` holds `Option`, `Max`, `Pow2` and `FirstIndex`.

## Inputs treated as parameters

Some inputs are outside the code and become parameters of the model:

- **The webhook URL**, a build-time setting, is an `Option<string>`.
- **Each webhook post's outcome** is `responses[i]`. A non-ok status and a network error are the same failure.
- **Each call of a retried operation** settles as `outcomes[i]`.
- **Whether storage works** is the store's `failing` flag.

Waits are not taken. The model records the delays that would be requested, in milliseconds.

## Where the code decides behaviour

These points describe the code as written:

- **A missing webhook URL costs all three attempts.** When the URL is unset or empty, each attempt throws inside the loop, is counted, and is followed by the usual wait. The failure toast therefore appears after 2000 + 4000 ms, with nothing posted (`UnconfiguredWebhookFails`).
- **`handleSubmit` does not call `retryOperation`.** It has its own loop, which increments the attempt counter before computing the wait. Its waits are `1000 * 2^attempt` = 2000 ms and then 4000 ms. `retryOperation` would wait 1000 ms and then 2000 ms. Both are modelled: `Submission.SubmissionPage.PostAttempts` and `Retry.RetryOperation`.
- **The single-attempt failure text is unreachable.** When the loop ends without success, `attempt` is always 3. So the toast always reads "Failed to submit after 3 attempts…". The "Unable to submit… check your internet connection" text (the `attempt === 1` branch) is never shown. `Records.Notice.SubmissionFailed(n)` keeps both texts, and the page always produces `SubmissionFailed(3)`.
- **Empty entries are not dropped from the message.** An empty entry leaves an empty line (`EmptyEntriesKeepTheirLines`). A whitespace-only entry is truthy and is printed with its caption.
- **The table is not rectangular.** Borders are `w + 4` characters wide, the title row `w + 2` and the field rows `w + 3` (`TableGeometry`).
- **The per-field minima of 20, 20 and 15 never matter.** The overall minimum of 30 exceeds them, so `w` is `max(longest field, 30) + 10`, and it is tight (`TableWidthIsTight`).

## Model

| member | source | states |
|---|---|---|
| Base.Pow2 | src/lib/validation.ts:58 | `Math.pow(2, n)` is at least 1 |
| Base.FirstIndex | src/pages/InfoCollection.tsx:56-99 | the position of the first `true`, or the length when there is none: every earlier entry is `false` and the one found is `true`; the if-chain of checks reports its first failure (also the loop at src/pages/Submission.tsx:170-216 stops at its first accepted post) |
| Text.IsWhitespace | src/pages/InfoCollection.tsx:56 | definition of ECMAScript WhiteSpace plus LineTerminator, the class that `trim()` strips and that `\s` matches in src/lib/validation.ts:5 and :11: U+0009 to U+000D, U+0020, U+00A0, U+1680, U+2000 to U+200A, U+2028, U+2029, U+202F, U+205F, U+3000 and U+FEFF; properties in `Text.BlankIffAllWhitespace` |
| Text.TrimStart | src/pages/InfoCollection.tsx:56 | the result is a suffix of the input, everything cut off is whitespace, and it does not start with whitespace |
| Text.TrimEnd | src/pages/InfoCollection.tsx:56 | the result is a prefix of the input, everything cut off is whitespace, and it does not end with whitespace |
| Text.Trim | src/pages/InfoCollection.tsx:56 | definition of `s.trim()`; the result is no longer than `s` and starts and ends with non-whitespace; properties in `Text.BlankIffAllWhitespace` |
| Text.IsBlank | src/pages/InfoCollection.tsx:56 | definition of the `!x.trim()` test used by every missing check (also src/pages/Submission.tsx:126); properties in `Text.BlankIffAllWhitespace` |
| Text.BlankIffAllWhitespace | src/pages/InfoCollection.tsx:56 | `!s.trim()` holds exactly when every character of `s` is whitespace |
| Text.Repeat | src/pages/Submission.tsx:102 | `x.repeat(n)` has length n and every element is x |
| Text.PadEnd | src/pages/Submission.tsx:109 | `padEnd(n)` keeps the whole string, fills with spaces up to n, and never truncates |
| Validation.EmailMatchesPattern | src/lib/validation.ts:4-7 | the email condition holds exactly when `^[^\s@]+@[^\s@]+\.[^\s@]+$` matches |
| Validation.MatchesEmailPattern | src/lib/validation.ts:5 | definition of a match of `^[^\s@]+@[^\s@]+\.[^\s@]+$`: some `@` and some later `.` split the whole string into three non-empty runs free of whitespace and `@`; properties in `Validation.EmailMatchesPattern` |
| Validation.IsValidEmail | src/lib/validation.ts:4-7 | definition of `isValidEmail`; an accepted email has at least five characters and an `@`; properties in `Validation.EmailMatchesPattern` |
| Validation.EmailFromParts | src/lib/validation.ts:5 | every `local@domain.tld` with non-empty parts free of whitespace and `@` is valid |
| Validation.EmailNeedsAtAndNoWhitespace | src/lib/validation.ts:5 | a string without `@`, or with any whitespace, is rejected |
| Validation.ValidEmailIsNotBlank | src/pages/InfoCollection.tsx:65-81 | a valid email is never blank, so the email's missing check is subsumed by its validity check |
| Validation.ShortestEmail | src/lib/validation.ts:5 | `a@b.c` is accepted |
| Validation.PhoneMatchesPattern | src/lib/validation.ts:10-13 | the phone condition holds exactly when `^\+?[\d\s\-()]{7,}$` matches |
| Validation.MatchesPhonePattern | src/lib/validation.ts:11 | definition of a match of `^\+?[\d\s\-()]{7,}$`: the whole string, or all of it after a leading `+`, is seven or more digits, whitespace, `-`, `(` or `)`; properties in `Validation.PhoneMatchesPattern` |
| Validation.IsValidPhone | src/lib/validation.ts:10-13 | definition of `isValidPhone`; an accepted phone has at least seven characters; properties in `Validation.PhoneMatchesPattern` |
| Validation.ShortPhoneInvalid | src/lib/validation.ts:11 | fewer than seven characters is always rejected |
| Validation.PhoneRejectsLettersAndInnerPlus | src/lib/validation.ts:11 | a letter anywhere, or a `+` that is not first, is rejected |
| Validation.SpacesAreAValidPhone | src/lib/validation.ts:11 | seven spaces pass the phone pattern |
| Storage.Get | src/lib/validation.ts:16-23 | a failing store reads as absent; otherwise the stored value, or absent for an unknown key |
| Storage.Set | src/lib/validation.ts:25-31 | a healthy store afterwards reads the new value for the key and the old value for every other key; a failing store is unchanged |
| Storage.Remove | src/lib/validation.ts:33-39 | the key reads as absent afterwards, every other key as before; a failing store is unchanged |
| Storage.SafeStorage.GetItem | src/lib/validation.ts:16-23 | the in-place store's read agrees with `Get` on its state |
| Storage.SafeStorage.SetItem | src/lib/validation.ts:25-31 | the new state is `Set` of the old state |
| Storage.SafeStorage.RemoveItem | src/lib/validation.ts:33-39 | the new state is `Remove` of the old state |
| Retry.FirstResolved | src/lib/validation.ts:49-51 | the index of the first resolved call (`Base.FirstIndex` of the outcomes): every earlier call rejected |
| Retry.Backoff | src/lib/validation.ts:56-59 | the i-th wait is `baseDelay * 2^i` |
| Retry.BackoffTotal | src/lib/validation.ts:56-59 | m backoff waits add up to `base * (2^m - 1)` |
| Retry.RetryOperation | src/lib/validation.ts:42-64 | calls stop at the first resolved one, and its value is returned after the waits of the failures before it; otherwise the last error is thrown after `maxRetries - 1` waits, totalling `baseDelay * (2^(maxRetries-1) - 1)`, or `undefined` when no call ran |
| Json.EscapeRoundTrip | src/pages/InfoCollection.tsx:104 | reading back an escaped string stops at its closing quote and yields the original characters |
| Json.QuoteRoundTrip | src/pages/InfoCollection.tsx:104 | parsing a stringified string gives the string back and leaves what follows |
| Json.MemberRoundTrip | src/pages/InfoCollection.tsx:104 | a `"key":value` member is read back with its value |
| Json.MembersRoundTrip | src/pages/InfoCollection.tsx:104 | the member list is read back value by value, in order |
| Json.DecodeMembers | src/pages/Submission.tsx:153 | a successful decode yields one value per expected key |
| Json.DecodeObject | src/pages/Submission.tsx:153 | a successful parse yields one value per expected key, and text that is empty or does not open with `{` never parses |
| Json.EncodeObject | src/pages/InfoCollection.tsx:104 | definition of `JSON.stringify` of a flat string record; the text is braced by `{` and `}`; properties in `Json.ObjectRoundTrip` |
| Json.ObjectRoundTrip | src/pages/Submission.tsx:153 | parsing what `JSON.stringify` wrote gives back the same values |
| Records.ContactInfo.Update | src/pages/InfoCollection.tsx:49-51 | the named field takes the value and the other two keep theirs |
| Records.Entries.Update | src/pages/Submission.tsx:90-92 | the named entry takes the value and the other four keep theirs |
| Records.Notice.Title | src/pages/Submission.tsx:48-228 | the title of each toast the two pages show (the contact page's at src/pages/InfoCollection.tsx:56-99); every title is non-empty |
| Records.Notice.Description | src/pages/Submission.tsx:218-221 | definition of each toast's text, with the `attempt === 1` choice between the two failure texts; what the page actually shows is in `Submission.SubmissionPage.SubmitWithRetries` and `Submission.RetryBudget` |
| Records.RoutePathsDistinct | src/pages/Submission.tsx:56-204 | the paths `/info`, `/submission` and `/thank-you` passed to `navigate` (also src/pages/InfoCollection.tsx:110) are distinct, so two navigations go to the same page exactly when they name the same route |
| Records.ContactRoundTrip | src/pages/InfoCollection.tsx:104 | the stored `userInfo` parses back to exactly the details entered, untrimmed |
| Records.EntriesRoundTrip | src/pages/Submission.tsx:76 | a saved draft parses back to exactly the entries saved |
| Records.EncodeContact | src/pages/InfoCollection.tsx:104 | definition of `JSON.stringify(formData)`; never empty, braced; properties in `Records.ContactRoundTrip` |
| Records.DecodeContact | src/pages/Submission.tsx:153 | reads `JSON.parse(userInfo)` for the layout `JSON.stringify` writes, other layouts being under "## Left out"; empty text or text not opening with `{` does not parse; properties in `Records.ContactRoundTrip` |
| Records.EncodeEntries | src/pages/Submission.tsx:76 | definition of `JSON.stringify(entries)`; never empty, braced; properties in `Records.EntriesRoundTrip` |
| Records.DecodeEntries | src/pages/Submission.tsx:65 | reads `JSON.parse(savedEntries)` for the layout `JSON.stringify` writes, other layouts being under "## Left out"; empty text or text not opening with `{` does not parse; properties in `Records.EntriesRoundTrip` |
| DiscordMessage.TableWidth | src/pages/Submission.tsx:96-99 | the width is at least 40, and at least ten more than every contact field |
| DiscordMessage.TableWidthIsTight | src/pages/Submission.tsx:96-99 | the width is 40 or exactly ten more than one of the fields |
| DiscordMessage.Border | src/pages/Submission.tsx:102-103 | a border is `w + 4` characters |
| DiscordMessage.BorderShape | src/pages/Submission.tsx:102-103 | a border is `+`, dashes, `+` |
| DiscordMessage.TitleLine | src/pages/Submission.tsx:107 | the title row is `w + 2` characters |
| DiscordMessage.TitleCentred | src/pages/Submission.tsx:107 | the floor/ceil halves differ by at most one and fill the row around `User Info` |
| DiscordMessage.FieldLine | src/pages/Submission.tsx:109-111 | a field row's length is its caption, the value padded to `w - 7`, and one bar |
| DiscordMessage.FieldLineLayout | src/pages/Submission.tsx:109-111 | a field row is the caption, the whole value, spaces, then `\|` |
| DiscordMessage.FieldRowGeometry | src/pages/Submission.tsx:109-111 | with a nine-character caption and a field within the width, the row is `w + 3` wide and shows the field in full |
| DiscordMessage.EntryLine | src/pages/Submission.tsx:116-120 | an entry line is empty exactly when the entry is, and otherwise is `**Entry N:** text` |
| DiscordMessage.TableLines | src/pages/Submission.tsx:105-113 | the fenced table is nine lines |
| DiscordMessage.EntryLines | src/pages/Submission.tsx:114-120 | the entry block is seven lines |
| DiscordMessage.MessageLines | src/pages/Submission.tsx:105-120 | the message template is sixteen lines |
| DiscordMessage.JoinLines | src/pages/Submission.tsx:105-120 | the template's lines joined by line breaks; the text starts with the first line; properties in `DiscordMessage.MessageBreakCount` |
| DiscordMessage.FormatDiscordMessage | src/pages/Submission.tsx:94-121 | definition of `formatDiscordMessage`; the message opens the code fence and ends with the fifth entry's line; properties in `DiscordMessage.TableGeometry`, `DiscordMessage.EntryLinesInOrder` and `DiscordMessage.MessageBreakCount` |
| DiscordMessage.TableGeometry | src/pages/Submission.tsx:101-113 | the three borders are the same line, `w + 4` wide; the title row is `w + 2`; the name, email and phone rows are `w + 3`, each showing its field in full after its caption |
| DiscordMessage.EntryLinesInOrder | src/pages/Submission.tsx:116-120 | entry N is always at line N + 1 of the entry block: captioned when non-empty (whitespace included), empty otherwise |
| DiscordMessage.MessageBreakCount | src/pages/Submission.tsx:94-121 | with no line break in the inputs the message has exactly fifteen line breaks |
| DiscordMessage.EmptyEntriesKeepTheirLines | src/pages/Submission.tsx:118-120 | empty trailing entries leave their empty lines: the message ends in three line breaks |
| InfoCollection.RejectionIsFirstFailure | src/pages/InfoCollection.tsx:53-99 | the reported notice is that of the first failing check in the fixed order, or none when all pass |
| InfoCollection.Rejection | src/pages/InfoCollection.tsx:56-99 | definition of the five checks of `handleSubmit` in their order; a reported notice is one of the five checks; properties in `InfoCollection.RejectionIsFirstFailure` and `InfoCollection.AcceptedIffValid` |
| InfoCollection.ReportedCheckIsFirstFailure | src/pages/InfoCollection.tsx:56-99 | check i is reported exactly when it fails and every check before it passes |
| InfoCollection.AcceptedIffValid | src/pages/InfoCollection.tsx:56-99 | a form is accepted exactly when the name is not blank, the email valid, and the phone not blank and valid |
| InfoCollection.WhitespaceOnlyIsMissing | src/pages/InfoCollection.tsx:56-90 | a whitespace-only field is reported missing, never invalid, once the earlier checks pass |
| InfoCollection.SpacePhoneReportedMissing | src/pages/InfoCollection.tsx:83-99 | an all-whitespace phone of length at least 7 passes the phone pattern but is reported missing |
| InfoCollection.PaddedEmailReportedInvalid | src/pages/InfoCollection.tsx:65-81 | an email with whitespace anywhere (leading, trailing or inside) that is not all whitespace is proved not blank, so it passes the missing check, and is reported invalid |
| InfoCollection.InfoCollectionPage.constructor | src/pages/InfoCollection.tsx:42-46 | the form starts with three empty fields |
| InfoCollection.InfoCollectionPage.HandleInputChange | src/pages/InfoCollection.tsx:49-51 | the form becomes the old form with one field updated |
| InfoCollection.InfoCollectionPage.SaveContact | src/pages/InfoCollection.tsx:104 | the store becomes `Set` of its old state with the form's JSON under `userInfo` |
| InfoCollection.InfoCollectionPage.HandleSubmit | src/pages/InfoCollection.tsx:53-111 | a rejected form shows exactly the first failure's toast and leaves the store alone; an accepted one stores the form as entered and navigates to `/submission` |
| Submission.GuardEffects | src/pages/Submission.tsx:48-58 | nothing happens exactly when a non-empty `userInfo` is readable; otherwise exactly the session-required toast, then a redirect to `/info` |
| Submission.Present | src/pages/Submission.tsx:50 | the falsy test `!userInfo` (also `if (savedEntries)`, the check on submit and `!webhookUrl`, src/pages/Submission.tsx:63, 141 and 179): an absent or unreadable value and the empty string both fail it |
| Submission.GuardPassesAfterFirstStep | src/pages/Submission.tsx:48-58 | after the contact step has stored a form in a healthy store, the guard lets the visitor through |
| Submission.LoadedEntries | src/pages/Submission.tsx:61-71 | a present draft that parses replaces the entries wholesale; an absent, empty or unparsable one leaves them |
| Submission.DraftRestoresSavedEntries | src/pages/Submission.tsx:61-71 | a draft saved in a healthy store is restored exactly, whatever the entries were |
| Submission.Step | src/pages/Submission.tsx:74-92 | one autosave event; only the timer firing writes a draft, and it writes what was pending; only an edit leaves a save pending; properties in `Submission.StepKeepsCoherent` |
| Submission.Replay | src/pages/Submission.tsx:74-92 | a sequence of autosave events writes at most one draft per event; properties in `Submission.BurstSavedOnce` and `Submission.LeaveCancelsPendingSave` |
| Submission.StepKeepsCoherent | src/pages/Submission.tsx:74-80 | a pending save always holds the current entries, so a save never writes a stale copy |
| Submission.ReplayElapsed | src/pages/Submission.tsx:75-77 | the timer firing writes what it holds, once, and disarms |
| Submission.BurstSavedOnce | src/pages/Submission.tsx:74-80 | a burst of edits writes nothing; the timer that then fires writes the entries after the last edit, exactly once |
| Submission.LeaveCancelsPendingSave | src/pages/Submission.tsx:79 | after leaving the page a later timer writes nothing |
| Submission.Attempts | src/pages/Submission.tsx:167-228 | definition of the retry loop's outcome; exactly one final effect, at most three posts and at most two waits; properties in `Submission.AttemptsClearOnlyOnSuccess`, `Submission.RetryBudget` and `Submission.UnconfiguredWebhookFails` |
| Submission.SubmitSpec | src/pages/Submission.tsx:123-229 | definition of `handleSubmit`'s outcome; something is always shown, and nothing is posted unless the first entry is filled and contact details are stored; properties in `Submission.SubmitPrechecks` and `Submission.FirstStepFeedsSecond` |
| Submission.AttemptsClearOnlyOnSuccess | src/pages/Submission.tsx:199-205 | the run ends on `/thank-you` or the failure toast; only success changes the store, removing exactly `userInfo` and `draftEntries` |
| Submission.AttemptsPostTheMessage | src/pages/Submission.tsx:174-191 | every post is the formatted message, and posts happen only with a configured webhook |
| Submission.RetryBudget | src/pages/Submission.tsx:207-214 | at most three posts and two waits (2000 ms, then 4000 ms); on success the last post is the first accepted one and every earlier one failed |
| Submission.BackoffStep | src/pages/Submission.tsx:211-214 | the inline loop's next wait is `1000 * 2^attempt` with the incremented attempt |
| Submission.BackoffPrefix | src/pages/Submission.tsx:211-214 | the inline loop's waits are 2000 ms then 4000 ms |
| Submission.UnconfiguredWebhookFails | src/pages/Submission.tsx:176-181 | without a webhook URL nothing is posted, both waits are taken, and the failure toast is shown with the store unchanged |
| Submission.SubmitPrechecks | src/pages/Submission.tsx:126-165 | a blank first entry shows exactly the missing-entry toast; missing contact details exactly the session-expired toast then `/info`; unparsable ones exactly the session-error toast then `/info`; each with no post, no wait and the store unchanged; otherwise the loop runs on the parsed details |
| Submission.FirstStepFeedsSecond | src/pages/Submission.tsx:138-205 | contact details stored by the first step are read back unchanged: a first accepted post sends exactly the message built from them, and clears both keys |
| Submission.SubmissionPage.constructor | src/pages/Submission.tsx:38-44 | the page starts with five empty entries and no pending save |
| Submission.SubmissionPage.CheckSession | src/pages/Submission.tsx:48-58 | the guard's effects are `GuardEffects` of the store |
| Submission.SubmissionPage.LoadDraft | src/pages/Submission.tsx:61-71 | the entries become `LoadedEntries` of the old entries and the stored draft |
| Submission.SubmissionPage.ScheduleAutosave | src/pages/Submission.tsx:74-80 | the pending save now holds the current entries |
| Submission.SubmissionPage.Mount | src/pages/Submission.tsx:48-80 | the guard, the draft load and the first arming of the timer, in declaration order |
| Submission.SubmissionPage.HandleEntryChange | src/pages/Submission.tsx:90-92 | the page takes the autosave `Edit` step: one entry changes and the timer is re-armed with the new entries |
| Submission.SubmissionPage.AutosaveElapsed | src/pages/Submission.tsx:75-77 | the page takes the `Elapsed` step, and the store receives exactly the draft it writes |
| Submission.SubmissionPage.Unmount | src/pages/Submission.tsx:79 | the page takes the `Leave` step: the pending save is cancelled |
| Submission.SubmissionPage.HandleSubmit | src/pages/Submission.tsx:123-229 | the run and the new store are `SubmitSpec` of the entries and the old store |
| Submission.SubmissionPage.ClearSession | src/pages/Submission.tsx:199-201 | both keys are removed from the store |
| Submission.SubmissionPage.PostAttempts | src/pages/Submission.tsx:167-216 | the loop stops at the first accepted post, or after three attempts with `attempt` at 3; it posts the message once per configured attempt and waits `Backoff(2000, ·)` |
| Submission.SubmissionPage.SubmitWithRetries | src/pages/Submission.tsx:167-228 | the run and the new store are `Attempts` of the message and the old store |

## Left out

- Rendering, styling, routing glue and the landing, thank-you and not-found pages.
- Browser constraint validation and input sanitisation in the markup (src/pages/InfoCollection.tsx:131-166, src/pages/Submission.tsx:257). The handlers are modelled on whatever state they see. In the browser, the `required` contact inputs and first-entry textarea stop an empty form from being submitted, so `handleSubmit` never runs for it. The `type="email"` input also strips leading and trailing whitespace, so `" a@b.c "` reaches `handleSubmit` as `"a@b.c"` and is accepted. `InfoCollection.PaddedEmailReportedInvalid` describes the handler, not what such a page shows.
- `isSubmitting` only drives the submit button's label ("Processing...", "Sending Your Rants...") and its disabled state. A second submit started while a run is in progress, which the disabled button prevents, is not modelled.
- The simulated one-second wait before the contact page navigates: it changes neither what is stored nor where the page goes.
- Console logging, including the error objects logged on storage failures and parse errors.
- The fetch request's method, headers and `{ content }` envelope, and the response's status text: only whether each post succeeds is modelled.
- Time and asynchrony: the one-second debounce is the `Elapsed` event, and waits are returned as delays rather than taken. React's batching and render order are taken as declared.
- The local copies of the validators and storage helpers in the two page files are the same code as `src/lib/validation.ts` and are modelled once.
- Storage failure is one flag covering every operation. A browser whose reads work while its writes fail is not modelled.
- Json.DecodeObject: reads only the layout `JSON.stringify` produces for these records. Valid JSON in another layout is treated as a parse error: whitespace, another member order, extra members, non-string values, a surrogate-pair escape, or a value that is not an object. What the code does with such text depends on the key; the two lines below say what for each.
- Records.DecodeContact: stored `userInfo` text that `JSON.parse` accepts but the model does not read ends the model's submit with the session-error toast and a redirect to `/info`. The code does something else in each case (src/pages/Submission.tsx:153-174). Another layout of an object with three string fields (whitespace, another member order, extra members) is formatted and posted normally. `null`, a value that is not an object, or an object whose name, email or phone is missing or not a string makes `formatDiscordMessage` throw inside the retry loop's `try`. So all three attempts fail: waits of 2000 and 4000 ms, nothing posted, the "Submission Failed" toast, and no redirect.
- Records.DecodeEntries: a stored `draftEntries` text that `JSON.parse` accepts but the model does not read leaves the entries at their previous value in the model. The code passes whatever was parsed to `setEntries` (src/pages/Submission.tsx:63-66), including objects with missing or extra fields and values that are not objects.
- Lengths count Unicode code points. JavaScript's `length` and `padEnd` count UTF-16 code units, so widths differ for characters outside the Basic Multilingual Plane.
- Submission.SubmissionPage.HandleSubmit: requires at least three post outcomes in `responses`. This is a property of the oracle, not of the code.
- Retry.RetryOperation: requires `maxRetries` outcomes in the oracle, for the same reason. `maxRetries` and `baseDelay` are integers: a fractional `maxRetries`, or a fractional or non-finite `baseDelay` (a JavaScript `number`), is not modelled.
