# Cold outreach generator — a Dafny model

This project models the logic of `ColdOutreachGenerator` in `script.js`. The
generator takes a list of fashion-store URLs or Instagram handles, one per
line, and an operator name. It throttles batches with a rate limiter. It
validates and deduplicates the lines through `isValidUrl`, then handles each
accepted entry in a pausable loop: it extracts the store name, picks a persona
and observations (`analyzeStore`), and fills in a Portuguese outreach message
(`generateMessage`). Finally it exports the records as CSV (`generateCSV`) and
reports counts (`getStats`).

The modules follow the structure of the class:

- `JsText`: the JavaScript string operations the code relies on (`trim`,
  `split`, `join`, `includes`, `startsWith`, `toLowerCase`, `length` in UTF-16
  units, number-to-text).
- `Html`: `sanitizeInput`. This is the text escaping of the HTML fragment
  serialisation algorithm (HTML Living Standard, section 13.3): `&`, U+00A0,
  `<` and `>` become character references. It is proved to be decodable.
- `StoreName`: `extractStoreName`, including the JavaScript regular-expression
  semantics of `.*instagram\.com\/`.
- `Validation`: the parts of `isValidUrl` that do not depend on state, and the
  deduplication key.
- `RateLimit`: `checkRateLimit` and its one-minute decrement, as functions on
  the two counters, with the properties of any sequence of requests and timer
  firings.
- `Analysis`: `analyzeStore` and `generateMessage`.
- `Pipeline`: `processUrl`, the two filter passes of `processUrls` and the
  loop of `_processUrlsInternal`, as functions of their inputs. These are the
  specifications that the methods of the class are proved against.
- `Csv`: `generateCSV`.
- `Generator`: the class `ColdOutreachGenerator` itself. Its fields are updated
  in place by methods with `modifies` clauses. Each method is proved equal to
  the functions above: `processUrl` to `ProcessStep`, the loop to `Run`, each
  filter pass to `Screen`, and the rate check to `Check`.

Inputs the code takes from the environment become parameters:

- the clock: `now`;
- the site lookup `fetchWebsiteData`: `siteData`, a probe per position in
  `allUrls`, giving data or no data; an exception is also allowed, which
  `script.js` never raises (see "## Left out");
- the moment the operator presses pause: `pauseAfter`, the position whose
  turn is under way;
- the WHATWG URL parser: `parse`, giving the `protocol` or nothing when
  `new URL` throws.

What `script.js` does, and the model with it:

- There is no normalisation of the deduplication key. The key is the text
  handed to the URL parser, lower-cased; `www.` and trailing slashes are not
  removed.
- `isValidUrl` has no host-must-contain-a-dot check and no `$` rejection.
- No duplicates count is kept. `getStats` reports processed, ignored and their
  sum.
- Lines are validated and deduplicated by the same `isValidUrl` call.
- A batch of more than ten lines is refused after the rate-limit counters
  have already been updated.
- `processUrls` calls `isValidUrl` on each raw line twice, once per filter
  pass. `processUrl` then calls it once more, on the trim of each line the
  first pass kept, after the first pass has already recorded that line's key.
  As a result, a batch with no padded line produces no record
  (`Pipeline.BatchWithoutPaddingIgnoresAll`).

Where each function of `script.js` is modelled:

- `sanitizeInput` (script.js:20-24): `Html.Escape`.
- `checkRateLimit` (script.js:27-46): `RateLimit.Check`, `RateLimit.Admit` and
  `RateLimit.Expire`; in the class, `CheckRateLimit` and `ExpireOne`.
- `extractStoreName` (script.js:48-65): `StoreName.ExtractStoreName`.
- `isValidUrl` (script.js:67-99): `Validation.UrlToTest`, `Validation.Key`,
  `Validation.Acceptable` and `Validation.ValidUrl`, their conjunction with
  the key check; in the class, `IsValidUrl`.
- `analyzeStore` (script.js:129-185): `Analysis.Seed`, `Analysis.Augment` and
  `Analysis.AnalyzeStore`, with `Analysis.Observations` as the reference
  list of clauses.
- `generateMessage` (script.js:187-203): `Analysis.GenerateMessage`.
- `processUrl` (script.js:205-240): `Pipeline.ProcessStep` and
  `Pipeline.MakeRecord`; in the class, `ProcessUrl`.
- `processUrls` (script.js:242-275): `Pipeline.NonBlankLines`,
  `Pipeline.Screen` for each filter pass; in the class, `BeginBatch`,
  `FilterUrls`, `LoadBatch`, `RunBatch` and `ProcessUrls`.
- `_processUrlsInternal`, `pause`, `resume` (script.js:277-302):
  `Pipeline.Settle` and `Pipeline.Run`; in the class, `HandleEntry`,
  `Advance`, `ProcessUrlsInternal`, `Pause` and `Resume`.
- `generateCSV` (script.js:318-337): `Csv.Cell`, `Csv.MessageCell`, `Csv.Row`
  and `Csv.GenerateCsv`.
- `getStats` (script.js:354-359): `GetStats`.

## Model

| member | source | states |
|---|---|---|
| Html.Escape | script.js:20-24 | decoding the four character references of the sanitized text gives the text back, so sanitizing loses nothing; the sanitized text never holds a raw `<` or `>` |
| Html.EscapeAvoids | script.js:20-24 | a character absent from the input and not used to spell a reference is absent from the sanitized output |
| Html.DecodeChar | script.js:20-24 | decoding the escape of any single character followed by more text yields that character first |
| JsText.TrimStartShape | script.js:206 | trimming the start leaves a suffix that does not start with white space, and removes only white space |
| JsText.TrimEndShape | script.js:206 | trimming the end leaves a prefix that does not end with white space, and removes only white space |
| JsText.TrimShape | script.js:206 | `trim()` gives a piece of the text that neither starts nor ends with white space |
| JsText.TrimFixedPoint | script.js:206 | a text is its own trim exactly when it is empty or neither starts nor ends with white space |
| JsText.TrimIdempotent | script.js:206 | trimming is idempotent |
| JsText.SplitPiecesAvoid | script.js:56-60 | no piece of `split(sep)` holds the separator |
| JsText.SplitHead | script.js:60 | the first piece of `split(sep)` is the prefix before the first separator |
| JsText.JoinSplit | script.js:333-336 | joining the pieces of a split with the same separator gives the text back |
| JsText.SplitJoin | script.js:333-336 | splitting a join of separator-free pieces gives the pieces back |
| JsText.JoinAvoids | script.js:333-336 | a join holds no character that is neither the separator nor in a piece |
| JsText.LowerPointwise | script.js:74 | lower-casing keeps the length and maps each character on its own |
| JsText.Utf16LengthBounds | script.js:89 | the `length` of a text is between its number of characters and twice that |
| JsText.NatToDecimalValue | script.js:159 | the digits of a natural number read back as that number, and only zero is written with a leading `0` |
| JsText.IntToDecimalValue | script.js:159 | the text of an integer is `-` for a negative one, followed by the digits of its magnitude, which read back as it and have no leading zero |
| StoreName.DotRunEndSpec | script.js:56 | the regular-expression `.*` reaches exactly the first line terminator, or the end |
| StoreName.LastOccurrenceSpec | script.js:56 | the greedy match ends at the last `instagram.com/` in reach, and finds none only when there is none |
| StoreName.ExtractStoreName | script.js:48-65 | a store name never holds `/` nor, being sanitized, a raw `<` or `>`; one taken from the host name never holds `.` |
| StoreName.HostNameIsFirstLabel | script.js:60-61 | without `instagram.com/`, the store name is the sanitized start of the cleaned URL up to its first `/` or `.`, or all of it when it has neither |
| StoreName.InstagramHandleFollowsLastOccurrence | script.js:55-58 | on a single line, the handle is the text after the last `instagram.com/`, cut at the first `/`, sanitized |
| Validation.UrlToTestShape | script.js:68 | the text handed to the parser starts with `http` and ends with the entry |
| Validation.Key | script.js:68-74 | the key is the text handed to the parser lowered character by character, so it holds no upper-case ASCII letter |
| Validation.Acceptable | script.js:67-99 | an accepted text has at most 200 characters, whatever its UTF-16 length, and no `<` or `>` |
| Validation.SecondCallRefused | script.js:74-94 | once an entry's key is recorded, the same entry is refused |
| Validation.RefusalIsMonotone | script.js:67-99 | an entry refused under some recorded keys stays refused when more keys are recorded |
| RateLimit.Check | script.js:29-37 | a request is refused as too soon exactly when less than five seconds have passed, refused as too many exactly when they have and the counter exceeds ten, and admitted otherwise |
| RateLimit.Admit | script.js:39-40 | an admission records its time and adds one to the counter, and every request in the following five seconds is refused as too soon |
| RateLimit.Expire | script.js:43-45 | the timer lowers the counter by one, never below zero, and leaves the time alone |
| RateLimit.CountStaysBounded | script.js:35-45 | over any sequence of requests and timer firings, the counter never exceeds eleven |
| RateLimit.AdmissionsAreSpaced | script.js:29-40 | admitted requests are at least five seconds apart, and the recorded time is the last admission |
| RateLimit.BurstIsBounded | script.js:35-40 | without a timer firing, at most eleven minus the current count further requests are admitted |
| Analysis.Seed | script.js:133-153 | the contact is Mariana exactly when the lower-cased name contains `vest`, Carolina exactly when it contains `praia` or `beach` but not `vest`, and `Time da <name>` for any other name |
| Analysis.AnalyzeStore | script.js:129-185 | without site data the seed is returned unchanged; with it, the contact stays the seed's |
| Analysis.Augment | script.js:155-184 | the contact is kept, and the achievement gains the active-blog praise only for a blog that is not stale |
| Analysis.AugmentMatchesObservations | script.js:156-181 | with site data, the opportunity is the seed's followed by the text of the observations that hold, in order |
| Analysis.AnalyzeStoreExtendsSeed | script.js:129-185 | the opportunity starts with the seed's, and the achievement changes exactly for a blog that is not stale |
| Analysis.ObservationsInOrder | script.js:156-181 | observations come in the fixed order of the tests, none twice |
| Analysis.InstagramClausesExclusive | script.js:156-160 | "no Instagram profile" and "few followers" never both apply |
| Analysis.OneBlogOutcome | script.js:170-181 | exactly one of the three blog outcomes applies |
| Analysis.MessageShape | script.js:188-200 | the message opens with the greeting naming the contact; right after it comes the praise citing the store name and the achievement, then the sentence citing the opportunity; it ends with the user name on its own line before the fixed signature line |
| Analysis.GenerateMessage | script.js:187-203 | the message is the five filled-in values plus 433 characters of fixed text |
| Pipeline.OrNotFound | script.js:234-235 | a missing or empty WhatsApp number or blog address becomes `Não encontrado`; a present one is kept |
| Pipeline.ProcessStep | script.js:205-240 | the key of the trimmed entry is recorded exactly when it is non-empty and `isValidUrl` accepts it; the trimmed entry is pushed onto `ignoredUrls` exactly when it is empty, refused or gives an empty store name; an exception escapes only from the site lookup of an admitted entry with a store name; a record is built only for an acceptable entry with a new key, and it is `MakeRecord` of the trimmed entry, its store name and the site data |
| Pipeline.MakeRecord | script.js:222-237 | the record keeps the trimmed entry and the site data, names the seed's contact, extends the seed's opportunity, and keeps a present, non-empty WhatsApp number or blog address, writing `Não encontrado` for a missing or empty one |
| Pipeline.Settle | script.js:280-286 | each turn of the loop adds exactly one element to the two lists and leaves the recorded keys as the step left them |
| Pipeline.RunSplit | script.js:277-290 | a run over a range is the run up to any midpoint followed by the run from it |
| Pipeline.Run | script.js:277-290 | a run over n entries adds exactly n elements to the two lists together |
| Pipeline.RunExtends | script.js:277-290 | a run only appends: what was processed or ignored before stays in place |
| Pipeline.RunKeepsKeys | script.js:277-290 | a run never forgets a recorded key |
| Pipeline.Screen | script.js:263-264 | the accepted and the refused entries of a filter pass together number the entries of the list |
| Pipeline.ScreenPartition | script.js:263-264 | the accepted and the refused entries, merged back with each side in its order, are the list: no entry is lost, repeated or moved |
| Pipeline.ScreenKeys | script.js:263-264 | the keys a filter pass records are those of the entries it accepted |
| Pipeline.ScreenValid | script.js:263 | accepted entries are acceptable, with new and pairwise different keys |
| Pipeline.ScreenKeepsFirst | script.js:263 | entry i is accepted exactly when it is acceptable, its key was not recorded before the pass, and no acceptable entry before it has the same key: the first acceptable occurrence of each key is the one kept |
| Pipeline.ScreenCovers | script.js:263 | after a filter pass, the key of every acceptable entry is recorded |
| Pipeline.ScreenRefusesSeen | script.js:264 | a filter pass over entries whose acceptable ones are all recorded refuses everything |
| Pipeline.SecondPassRefusesAll | script.js:263-264 | the second filter pass refuses every raw line, the kept ones included |
| Pipeline.KeepNonBlankInOrder | script.js:255 | the blank-line filter keeps lines in order, each occurrence on its own: filtering two lists in turn is filtering each, and a single line is kept exactly when its trim is not empty |
| Pipeline.KeepNonBlankExactly | script.js:255 | every kept line is non-blank and a line of the list, every non-blank line is kept, and no more lines come out than go in |
| Pipeline.NonBlankLinesShape | script.js:255 | the lines kept are non-blank and hold no line feed |
| Pipeline.StepOnSeen | script.js:206-210 | an entry that is its own trim and whose key is recorded is pushed onto `ignoredUrls` unchanged |
| Pipeline.RunOverSeen | script.js:277-290 | a run over such entries produces no record and ignores each entry as it stands |
| Pipeline.KeptAreSeen | script.js:263 | without padding, the entries the first pass keeps are their own trims with recorded keys |
| Pipeline.BatchWithoutPaddingIgnoresAll | script.js:242-290 | when no raw line is padded, every raw line lands in `ignoredUrls` and no record is produced |
| Csv.Cell | script.js:325-330 | a plain field is enclosed in quotes, and between them is the sanitized value, which decodes back to the value |
| Csv.MessageCellDecodes | script.js:331 | a message without a backslash reads back from its field once decoded, its quotes halved and its `\n` pairs turned back into line feeds |
| Csv.MessageCell | script.js:331 | the message field is enclosed in quotes, every double quote between them is one of an adjacent pair, and it holds no line feed, whatever the message |
| Csv.OneQuoteBreaksCell | script.js:325-330 | a plain value holding a single double quote gives a field whose quote is not paired |
| Csv.LoneQuoteUrlBreaksCell | script.js:325 | the entry `loja.com/a"b` gives a URL field whose quote is not paired |
| Csv.RowHasNoNewline | script.js:324-333 | a record's line is a single line when its plain fields hold no line feed |
| Csv.CsvLines | script.js:318-337 | splitting the file at line feeds gives the header followed by one line per record, in order |
| Csv.DoubleQuotesRoundTrip | script.js:331 | halving doubled quotes gives the text back |
| Csv.NewlinesRoundTrip | script.js:331 | without a backslash, the spelled-out line feeds read back as line feeds |
| Generator.RefusalMessageIdentifies | script.js:29-37 | two errors `processUrls` can throw with the same message are the same error, so the message tells which check failed |
| Generator.StopIndex | script.js:278-295 | a run stops after the entry during which pause is pressed, or at the end |
| Generator.PauseThenResume | script.js:277-302 | the run up to the pause followed by the run the resume starts is the run without a pause: every entry once, in order |
| Generator.BatchStats | script.js:242-290 | after a batch, processed plus ignored equals the refused lines plus the entries the loop reached |
| Generator.ColdOutreachGenerator.constructor | script.js:3-17 | empty lists and key set, index 0, flags off, counters zero |
| Generator.ColdOutreachGenerator.CheckRateLimit | script.js:27-41 | the verdict is `Check` at `now`; on admission the time is recorded and the counter incremented, otherwise nothing changes |
| Generator.ColdOutreachGenerator.ExpireOne | script.js:43-45 | the timer firing: the counters become `Expire` of the old ones |
| Generator.ColdOutreachGenerator.IsValidUrl | script.js:67-99 | the answer is `ValidUrl` on the old key set; the key is added exactly on acceptance |
| Generator.ColdOutreachGenerator.ProcessUrl | script.js:205-240 | the outcome and the new key set are those of `ProcessStep`; exactly the matching list grows by the record or the trimmed entry |
| Generator.ColdOutreachGenerator.HandleEntry | script.js:279-285 | one loop body, catch included, leaves the lists as `Settle` says |
| Generator.ColdOutreachGenerator.Advance | script.js:279-286 | one iteration extends the run by the entry at the index and advances the index by one |
| Generator.ColdOutreachGenerator.Pause | script.js:292-295 | pause sets `isPaused` and clears `isProcessing` |
| Generator.ColdOutreachGenerator.ProcessUrlsInternal | script.js:277-290 | the loop runs `Run` from the frozen index to the stop index, and stops exactly when pause is pressed or the list ends |
| Generator.ColdOutreachGenerator.Resume | script.js:297-302 | resume continues from the frozen index with the same `Run`, and processing is off afterwards |
| Generator.ColdOutreachGenerator.FilterUrls | script.js:263-264 | one filter pass over the lines equals `Screen` on the old key set |
| Generator.ColdOutreachGenerator.LoadBatch | script.js:263-269 | `allUrls` is the first pass's accepted lines and `ignoredUrls` the second pass's refused lines; the loop state is reset |
| Generator.ColdOutreachGenerator.BeginBatch | script.js:245-260 | the keys are cleared and the rate limit checked first; a rate-limit refusal is reported with its verdict and changes nothing else; otherwise the counters record the admission, and more than ten non-blank lines are refused as too many URLs |
| Generator.ColdOutreachGenerator.RunBatch | script.js:263-273 | after the checks, the lists are the run of the loop over the accepted lines, starting from the second pass's refusals |
| Generator.ColdOutreachGenerator.ProcessUrls | script.js:242-275 | the whole batch: each refusal with the message of its error and what it leaves changed, and on success the lists, index, flags and returned records |
| Generator.ColdOutreachGenerator.GetStats | script.js:354-359 | the counts of the two lists and their sum |

## Left out

- DOM and UI code is not part of this model: `updateProgress` (script.js:304-316), `downloadCSV` (script.js:339-352) and the page wiring (script.js:364-546). `sanitizeInput`'s DOM trick is modelled as the escaping it performs.
- `fetchWebsiteData` (script.js:101-127) is random simulated data behind a delay. It becomes the `siteData` parameter. In `script.js` its `try` covers its whole body and returns `null` on any error, and nothing else in `processUrl` throws, so the loop's `catch` (script.js:282-285) cannot be reached as written. The `Fault` probe over-approximates this: it lets the model state what the `catch` does, and a run whose probes never fault is the run `script.js` performs.
- Floating-point and date arithmetic are inputs: "slow site" (`loadingSpeed > 2.5`), its `toFixed(2)` text, and "blog stale" (more than six months since the last post).
- The URL parser is the `parse` parameter, not the WHATWG algorithm.
- Timers and `await`: the 60-second decrement is the separate `ExpireOne` step. The 100 ms pause between entries and the awaits are sequential steps. Pause is a flag set between turns, with no concurrency.
- `toLowerCase` is modelled on ASCII letters only. Other letters are left as they are.
- The `catch` of `extractStoreName` (script.js:62-64) is not modelled. Nothing in its body throws on a string.
- `Generator.ColdOutreachGenerator.ProcessUrl` models an exception from the site lookup as an outcome (`Threw`), not as a JavaScript exception.
- `Pipeline.MakeRecord` does not state the analysis and message fields beyond the contact and the start of the opportunity. They are stated about `Analysis.AnalyzeStore` and `Analysis.GenerateMessage`.
- `Csv.MessageCellDecodes` requires a message without a backslash. A backslash followed by `n` in the message reads back as a line feed, so the field is not decodable in general.
- Distinctness of the records produced by a batch is not proved.
- Numbers in `FewFollowersText` are JavaScript integers. Non-integer follower counts are not modelled.
- `JsText.IntToDecimal` gives plain decimal digits for every integer. JavaScript writes numbers of magnitude 10^21 and above in exponent notation; the follower counts of `fetchWebsiteData` stay below 10000.
