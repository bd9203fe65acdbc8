# FinClick.AI ingestion and form logic, modelled in Dafny

This project models three pieces of the FinClick.AI web application as pure Dafny functions and proves properties about them.

- **The upload endpoint** (`src/pages/api/process-file.ts`). It accepts a POST request and checks its API key. It parses the multipart form and fills in default options. It then reads, extracts and structures every uploaded file in order. The per-file results are combined into one dataset, which is checked for completeness and then either rejected (400) or stored under a fresh session id (200). A throw anywhere answers 500.
  - `combineFinancialData` sorts the statements into five typed lists, collects the distinct truthy fiscal years newest first, and fixes the metadata.
  - `validateFinancialData` reports every missing piece, in a fixed order.
- **The dashboard page** (`src/pages/dashboard/index.tsx`). It covers:
  - the MIME-type filter on dropped files and the ten-file cap;
  - removing a file by index;
  - the analysis-type checkboxes;
  - the ordered checks before an analysis starts;
  - the progress caption and the choice of view.
- **The sign-up page** (`src/pages/auth/signup.tsx`). It covers the password strength meter (score, caption, bars), the form schema's rules and the two-step navigation.

The endpoint's collaborators are inputs to the model rather than code:
- the API key validator is a boolean;
- the form parser is a `FormParse` (fields and file entries, or the value it threw);
- reading, extraction and structuring are one `Structuring` per file (a statement, or the value thrown);
- the clock, the random number and the two ISO timestamps are parameters.

The handler returns the response, the session store afterwards, and a trace of its side effects: form parsed, file read, temporary file removed, session stored. Properties about what happens before or after which step are stated on that trace.

How the endpoint treats failures, as the code is written:

- **Aborting on a failing file.** A file that fails to read, extract or structure aborts the whole request with a 500; later files are not processed.
- **Temporary files.** A file's temporary copy is removed only after that file was processed successfully. The failing file and every file after it keep their copies, and no session is stored.
- **The year field.** `data.year` is recorded only when truthy, so a year of `0` is never listed.

## Model

| member | source | states |
|---|---|---|
| Handler.Handle | src/pages/api/process-file.ts:23-141 | A method other than POST gets 405 "Method not allowed", and a POST with a rejected key gets 401 "Invalid API key"; both happen before the form is parsed, so nothing is read, removed or stored. A failing parse gets 500 with the thrown message after the parse only. The status is always one of 200, 400, 401, 405, 500. When the form parses and no file throws, the answer is 200 exactly when the combined dataset validates. No answer other than 200 changes the store or stores a session; a 200 stores exactly one, under the generated id. |
| Handler.HandleParsed | src/pages/api/process-file.ts:69-132 | After a successful parse, the answer is 500 exactly when some present file's processing throws, with the first such file's message (or the fallback text for a non-`Error` value). When no file throws, the answer is 200 exactly when the combined dataset validates. A 400 body is the "incomplete data" prefix followed by every validation message joined with ", ". A 200 means every file was processed and the combined dataset validated. The body carries the session id, the number of files, the typed lists and `readyForAnalysis`, and the store holds the record under that id. |
| Handler.HandleParsedEffects | src/pages/api/process-file.ts:73-121 | Every present file up to and including the first one that throws is read, in upload order. Only the files before it have their temporary file removed. A session is stored only on a 200, and then exactly once. |
| Handler.ProcessUploadsOutcome | src/pages/api/process-file.ts:70-101 | Missing entries are skipped. The loop fails exactly when a present file throws, carrying the first such file's error. Otherwise it yields one result per present file in upload order, with filename, data, size and MIME type copied. |
| Handler.ProcessUploadsEffects | src/pages/api/process-file.ts:73-101 | The loop reads the files up to and including the first that throws, removes the temporary files of only those before it, and stores nothing. |
| Handler.ProcessUploads | src/pages/api/process-file.ts:73-101 | The loop yields at most one result per present file, and exactly one per present file when nothing throws; its outcome and trace are characterised by ProcessUploadsOutcome and ProcessUploadsEffects. |
| Handler.ErrorText | src/pages/api/process-file.ts:134-140 | The 500 text is the message of a thrown `Error`, or the fixed fallback text for any other thrown value; its use is stated by Handle and HandleParsed. |
| Handler.ResultsOf | src/pages/api/process-file.ts:92-97 | The per-file list has one entry per processed file, in order, each holding that file's name, structured data, size and type. |
| Handler.Conclude | src/pages/api/process-file.ts:103-132 | The answer is 200 exactly when validation passes, and 400 otherwise. A 400 carries the prefix followed by every validation message joined with ", ", and leaves store and trace unchanged. A 200 stores `{combined, options, processedAt}` under the generated id and appends one store to the trace. |
| Handler.ConcludeTrace | src/pages/api/process-file.ts:115-121 | Combination and validation read and remove nothing; exactly one session is stored, and only when the answer is 200. |
| FormFields.OptionsOf | src/pages/api/process-file.ts:57-67 | Each scalar option is the first value sent under its name when that is a non-empty string. Otherwise companyName, sector, activity and legalEntity default to "", comparisonLevel to "local", yearsCount to 1 and language to "ar". yearsCount is `parseInt` of the chosen text. analysisTypes is the full list sent, or [] when absent; budget is passed through. |
| FormFields.NoFieldsAllDefaults | src/pages/api/process-file.ts:57-67 | A form with no fields yields exactly the default options. |
| Decimal.ParseInt | src/pages/api/process-file.ts:63 | `parseInt` gives a number only when the text holds a decimal digit, and a negative number only when the text, after leading white space, starts with "-". ParseIntToDecimal and ParseIntNoDigits fix its value on printed numerals and on digit-free text. |
| Decimal.ParseIntToDecimal | src/pages/api/process-file.ts:63 | `parseInt` reads every printed natural number back as that number (so the default "1" gives 1). |
| Decimal.ParseIntNoDigits | src/pages/api/process-file.ts:63 | Text with no digits parses as NaN, whatever white space and sign it carries. |
| Decimal.ToDecimal | src/pages/api/process-file.ts:225 | The clock reading prints as a non-empty string of decimal digits with no leading zero. |
| Decimal.ValueOfToDecimal | src/pages/api/process-file.ts:225 | The printed clock reading has the clock reading as its decimal value. |
| Decimal.ToDecimalInjective | src/pages/api/process-file.ts:225 | Different clock readings print differently. |
| Statements.KindOf | src/pages/api/process-file.ts:169-179 | A `type` tag names a kind only when it is exactly that kind's tag; any other tag names none. |
| Statements.KindOfTag | src/pages/api/process-file.ts:169-179 | Each of the five kinds is recognised from its own tag. |
| Combine.Initial | src/pages/api/process-file.ts:144-161 | The dataset before any file: every typed list, the raw list and the year list are empty; company name, sector, activity and legal entity are copied from the options; currency is SAR and the standard IFRS. |
| Combine.Absorb | src/pages/api/process-file.ts:165-187 | One file pushes its statement onto the list of its kind (and onto none for an unrecognised tag), leaving the other lists alone. It appends itself to the raw list and leaves the company fields alone. It adds its truthy year exactly when that year is new, so the year list stays free of repeats. |
| Combine.Accumulate | src/pages/api/process-file.ts:164-187 | The loop adds one raw entry per file; its typed lists and years are characterised by AccumulateLists and AccumulateYears. |
| Combine.OfKind | src/pages/api/process-file.ts:165-179 | The statements of the files tagged with a kind, in upload order; every one of them carries that kind's tag. |
| Combine.AccumulateLists | src/pages/api/process-file.ts:164-187 | Looping over the files appends to each typed list exactly the statements of that kind in upload order. Every file is appended to the raw list, and the company fields are left alone. |
| Combine.AccumulateYears | src/pages/api/process-file.ts:181-184 | The loop adds each truthy year not yet listed, so the year list never holds a repeat and holds exactly the truthy years seen. |
| Combine.CombineFinancialData | src/pages/api/process-file.ts:143-193 | Each of the five lists is exactly the in-order subsequence of statements with the matching tag. rawData is the input, in order. Company name, sector, activity and legal entity are copied from the options; currency is SAR and the standard IFRS. The years are strictly descending and are exactly the truthy years of the inputs. |
| Combine.UnrecognisedDropped | src/pages/api/process-file.ts:169-186 | A file with an unrecognised tag changes no typed list but is still kept in rawData. |
| Combine.SameYearKeptApart | src/pages/api/process-file.ts:169-184 | Two statements of one kind and one year are both kept, in order, while the year is listed once. |
| Years.SortDescending | src/pages/api/process-file.ts:190 | Sorting with comparator `b - a` gives a descending permutation of the years. |
| Years.SortDistinct | src/pages/api/process-file.ts:181-190 | Sorting years without repeats gives a strictly descending list with exactly the same years. |
| Validate.ValidateFinancialData | src/pages/api/process-file.ts:195-222 | isValid holds exactly when there are no errors. It is true exactly when some balance sheet, income statement, cash-flow or trial-balance list is non-empty and the company name and sector are both non-empty. Each message appears exactly when its check fails. The messages come in the order statements, name, sector, so there are at most three. |
| Validate.BudgetsAloneInsufficient | src/pages/api/process-file.ts:199-207 | A dataset with only budgets fails the statements check. |
| Validate.ActivityAndEntityIgnored | src/pages/api/process-file.ts:195-222 | Changing the activity or the legal entity never changes the validation outcome. |
| Session.Substr | src/pages/api/process-file.ts:225 | `substr(start, length)` with a start inside the string returns the characters from `start` up to `start + length`, or to the end of the string when fewer remain. A start at or past the end gives "", and a negative start counts from the end. |
| Session.RandomSuffix | src/pages/api/process-file.ts:225 | The random part of an id is the random text from its third character up to its eleventh, or to its end when it is shorter: at most nine characters, and "" when the text has at most two. |
| Session.GenerateSessionId | src/pages/api/process-file.ts:224-226 | Every id starts with "session_", and its length is bounded by the prefix, the printed clock, the underscore and nine characters. |
| Session.SessionIdRoundTrip | src/pages/api/process-file.ts:224-226 | Every generated id has the shape `session_<decimal clock>_<suffix of at most 9 characters>`, and reading it back gives the clock reading and suffix it was made from. |
| Session.DistinctClockDistinctIds | src/pages/api/process-file.ts:225 | Ids generated at different clock readings are different. |
| Session.StoreProcessedData | src/pages/api/process-file.ts:228-234 | The record is written under its id, replacing any earlier one, and every other session is untouched. |
| Common.Join | src/pages/api/process-file.ts:111 | Joining no messages gives "", one message gives that message, and more than one start with the first message followed by the separator. |
| Common.JoinSnoc | src/pages/api/process-file.ts:111 | Joining is the left-to-right loop: adding a message after the others appends the separator and then that message, so every message appears in order with the separator between neighbours. |
| Dashboard.FilterValid | src/pages/dashboard/index.tsx:64-75 | The kept files are exactly the dropped files whose MIME type is in the seven-entry whitelist. |
| Dashboard.FilterValidCounts | src/pages/dashboard/index.tsx:64-75 | A supported file is kept as many times as it was dropped, and an unsupported one never. |
| Dashboard.FilterValidAppend | src/pages/dashboard/index.tsx:64-75 | Filtering keeps drop order: it distributes over concatenation. |
| Dashboard.FilterValidIdempotent | src/pages/dashboard/index.tsx:64-75 | Filtering an already filtered list changes nothing. |
| Dashboard.KeptAllIff | src/pages/dashboard/index.tsx:64-77 | The filter keeps every file exactly when every file is supported. |
| Dashboard.UnsupportedIff | src/pages/dashboard/index.tsx:77-79 | The "some files are not supported" warning is raised exactly when a dropped file has an unsupported type. |
| Dashboard.OnDrop | src/pages/dashboard/index.tsx:63-88 | The unsupported warning is raised exactly when a dropped file is unsupported. If the current count plus the valid count exceeds ten, the list is unchanged and only the too-many warning follows. Otherwise the list becomes the old list followed by the valid files, and the success notice reports their count. The old list is always a prefix of the new one. |
| Dashboard.OnDropKeepsCap | src/pages/dashboard/index.tsx:81-86 | A drop never takes a list of at most ten files past ten. |
| Dashboard.DropAll | src/pages/dashboard/index.tsx:81-86 | Along any sequence of drops from a list within the cap, the list stays within ten files. |
| Dashboard.RemoveFile | src/pages/dashboard/index.tsx:97-101 | For 0 ≤ i < length, exactly element i is removed and the others keep their order. A negative index counts from the end, and one before the start removes the first file. An index past the end, or an empty list, leaves the list unchanged. |
| Dashboard.RemoveFileInverse | src/pages/dashboard/index.tsx:97-101 | Putting the removed file back at its index restores the list. |
| Dashboard.RemoveFileMultiset | src/pages/dashboard/index.tsx:97-101 | Removing a file takes out one copy of it and nothing else. |
| Dashboard.Without | src/pages/dashboard/index.tsx:452 | Filtering out a type removes every occurrence of it and keeps every other type as often as before. |
| Dashboard.WithoutAppend | src/pages/dashboard/index.tsx:452 | Filtering out a type keeps the order of the rest: it distributes over concatenation. |
| Dashboard.WithoutAbsent | src/pages/dashboard/index.tsx:452 | Filtering out a type that is not selected changes nothing. |
| Dashboard.WithoutCount | src/pages/dashboard/index.tsx:452 | Filtering out a type shortens the list by exactly the number of its occurrences. |
| Dashboard.Toggle | src/pages/dashboard/index.tsx:447-453 | After the change, the box reads checked exactly when it was checked. Checking appends the type after the existing list. Unchecking removes every occurrence. Every other type keeps its count. |
| Dashboard.ToggleRoundTrip | src/pages/dashboard/index.tsx:447-453 | Checking then unchecking a type that was not selected restores the list. |
| Dashboard.StartAnalysis | src/pages/dashboard/index.tsx:117-149 | The checks run in order: no files, then a missing company name, sector or activity, then no analysis type. Each refusal reports the first failing check, shows that check's error toast and changes no state. When all pass, no toast is shown, the financial data is set with every form field and the file list copied verbatim, and the analysis is requested. |
| Dashboard.ToastNamesGuard | src/pages/dashboard/index.tsx:118-131 | The three error toasts differ, so two refused starts showing the same toast were refused by the same check. |
| Dashboard.StartAnalysisAgain | src/pages/dashboard/index.tsx:117-149 | Starting again from the state a successful start leaves succeeds and sets the same data. |
| Dashboard.Captions | src/pages/dashboard/index.tsx:510-514 | A caption is shown exactly when the progress lies in its band: below 20, [20, 40), [40, 60), [60, 90), 90 and above. |
| Dashboard.ExactlyOneCaption | src/pages/dashboard/index.tsx:510-514 | For any progress value exactly one caption is shown. |
| Dashboard.CaptionsMonotone | src/pages/dashboard/index.tsx:510-514 | As progress rises the caption never moves back to an earlier stage. |
| Dashboard.SelectView | src/pages/dashboard/index.tsx:181-579 | The form shows exactly when the page is neither analysing nor holding a result. The progress panel shows exactly when it is analysing. The results show exactly when it is not analysing and holds a result. |
| Dashboard.BlankUnreachable | src/pages/dashboard/index.tsx:579 | The trailing empty branch is never rendered. |
| Password.Matches | src/pages/auth/signup.tsx:83-86 | A pattern for one ASCII character class matches exactly when some character of the password is in that class. |
| Password.Met | src/pages/auth/signup.tsx:81-87 | The criteria a password meets, in the meter's order. |
| Password.PasswordStrength | src/pages/auth/signup.tsx:80-88 | The score lies in [0, 5]. It is 0 for the empty password, and 5 only when every criterion is met. |
| Password.StrengthCountsCriteria | src/pages/auth/signup.tsx:80-88 | The score equals the number of criteria met: length ≥ 8, a lower-case letter, an upper-case letter, a digit, a character outside [a-zA-Z0-9]. |
| Password.MeetsExtend | src/pages/auth/signup.tsx:82-86 | A criterion a password meets stays met when more characters are typed after it. |
| Password.StrengthMonotone | src/pages/auth/signup.tsx:80-88 | Appending characters never lowers the score. |
| Password.LabelOf | src/pages/auth/signup.tsx:305-308 | Scores up to 2 read "weak", 3 reads "medium", and 4 or more reads "strong". |
| Password.ColourOf | src/pages/auth/signup.tsx:293-299 | A filled bar always takes one of the three label colours, never the empty one. |
| Password.Bars | src/pages/auth/signup.tsx:289-302 | There are five bars. Bar i is filled exactly when i is below the score, in the colour of the score's caption. |
| Password.FilledBarsEqualStrength | src/pages/auth/signup.tsx:289-302 | As many bars are filled as the password's score. |
| Password.MeterFor | src/pages/auth/signup.tsx:286-310 | The meter is shown exactly when a password has been typed. It then fills as many bars as the score, and its caption is the score's label, written as that label's text. |
| Signup.Broken | src/pages/auth/signup.tsx:25-39 | A rule is reported exactly when it is one of the rules checked and the data breaks it. |
| Signup.Check | src/pages/auth/signup.tsx:25-39 | The schema reports no rule exactly when it accepts. Accepting means the name has ≥ 3 characters, the address passes, and the password has ≥ 8 characters with an upper-case letter and a digit. It also means the company has ≥ 2 characters, the phone is non-empty over digits, "+", "-" and white space, the terms are accepted, and the confirmation equals the password. A rule is reported exactly when it is broken. |
| Signup.AcceptedPasswordNotWeak | src/pages/auth/signup.tsx:28-31 | Any password the schema accepts scores at least 3 on the meter, so it is never labelled weak. |
| Signup.OnStep | src/pages/auth/signup.tsx:245-380 | "Next" moves to step 2 and "Previous" to step 1, whatever the current step; Navigate states the effect of a run of presses. |
| Signup.Navigate | src/pages/auth/signup.tsx:50-245 | After any run of presses, the step is 2 if the last press was "Next" and 1 if it was "Previous". With no press it stays where it was, so it is always 1 or 2. |
| Signup.NavigationStaysInSteps | src/pages/auth/signup.tsx:155 | From the first step, the form always shows one of its two steps. It shows the personal details exactly when nothing was pressed or the last press was "Previous". |

## Left out

- File system, multipart parsing and storage I/O (`fs.readFile`, `fs.unlink`, `fs.mkdir`, `fs.writeFile`, formidable) are not modelled. The parser's ten-file and 100 MB limits show only as a possible `ParseFailed` outcome. The store is an abstract map from session id to record, and a failing write is not modelled.
- The API key validator, the extractor and the AI structuring service are inputs; `validateApiKey` throwing (which the handler would answer with 500) is not modelled. A structured result is always a well-formed statement; a `null` result, which would make the combiner throw, is not modelled.
- `Date.now()`, `Math.random().toString(36)` and `new Date().toISOString()` are parameters. The random text is any string, not only the base-36 form.
- Logging (`console.error`), the unlink's own `.catch`, and the JSON serialisation of responses and records are not modelled.
- String lengths count Dafny characters (Unicode scalar values) where JavaScript counts UTF-16 code units. The two differ only for characters outside the Basic Multilingual Plane.
- `data.year` is an optional integer. A year given as a string, and the numeric coercion of the sort comparator, are not modelled.
- `parseInt` is modelled for its decimal and `0x` forms without a radix argument; `yearsCount` is `None` for `NaN`. Magnitude limits of JavaScript numbers are not modelled.
- The dashboard's subscription check, router redirects, toasts' wording and display, animations, the export buttons and the generic `handleInputChange` for the text and select fields are not modelled. `startAnalysis` becomes a flag in the next state.
- The dropzone library's own `maxFiles` and 50 MB `maxSize` checks run before `onDrop` and are not modelled. `onDrop` receives whatever the library accepted.
- Dashboard.Captions: progress is a real number; `NaN`, for which no caption would show, is not modelled.
- Dashboard.SelectView: the analysis result is reduced to its truthiness.
- Signup.Check: the e-mail check belongs to the validation library and is the input `emailValid`. Which messages the library shows at once, and when it runs the cross-field confirmation check, are not modelled; only acceptance and the set of broken rules are.
- The sign-in page, the landing page, the market ticker, the animated background, the footer and the application shell hold no logic beyond markup, library calls and floating-point animation, and are not part of this model.
