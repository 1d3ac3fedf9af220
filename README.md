# unical syllabus pipeline — a Dafny model

unical turns an uploaded course syllabus into dated assignments. An upload is checked
(size, media type) and routed: documents have their text extracted and cleaned, images are
passed on as data URLs. The text or image goes to a language model that answers with JSON
(course information, assignments with week numbers or specific dates, parsing metadata).
The answer is validated, retried with exponential back-off when it fails, flagged when its
confidence is low, scored for quality, and finally each week number is turned into a due date
counted from the semester start. A second route asks the Gemini model instead, recovers JSON
from a verbose answer and normalises it. The test suites carry their own reference
validators, modelled here as well.

Modules, in dependency order:

- `Options` — `Option`.
- `JsString` — the JavaScript string built-ins the code relies on: the `\s` class, `trim`,
  the whitespace and line-feed regex rewrites, `split(/\s+/)`, `toLowerCase` (the part that
  decides membership of an ASCII word list), decimal rendering, `parseInt`, and `length`
  counted in UTF-16 code units (a Dafny `string` holds Unicode scalar values, so a
  character above U+FFFF counts twice in JavaScript).
- `JsonValue` — untyped JSON as a datatype, with JavaScript truthiness and property reads
  and writes.
- `Calendar` — proleptic Gregorian dates, `setDate`-style day arithmetic, and ISO
  `YYYY-MM-DD` rendering and reading, with both round trips.
- `SyllabusTypes` — typed assignments and course information.
- `FileProcessor` — `lib/openai/fileProcessor.ts`.
- `ResponseValidation`, `WeekConversion`, `SyllabusParser` — `lib/openai/syllabusParser.ts`
  (reply validation and alias copying; week-to-date conversion; the attempt loops, the
  confidence gate, the quality score and the model choice).
- `GeminiRoute` — `app/api/test/parse-syllabus-gemini/route.ts`.
- `IntegrationHelpers`, `FileValidationHelpers`, `ProcessingHelpers` — the reference helpers
  of `__tests__/openai-integration.test.ts`, `__tests__/file-validation.test.ts` and
  `__tests__/syllabus-processing.test.ts`.

The language-model service, `JSON.parse`, PDF.js, Mammoth, `FileReader` and the clock are
parameters: a service is a function from the attempt number to what the request returned,
`JSON.parse` is a function from text to an optional JSON value, and elapsed time is a number
handed in. The attempt loops are methods whose results are proved equal to recursive
specification functions, and the properties (bounded requests, back-off schedule, which
error type wins, which stamp a returned reply carries) are proved about those functions.

Where the code and its description differ, the model follows the code:

- `convertWeeksToDate` keeps an assignment with neither a specific date nor a week, with the
  semester start text as its due date (`lib/openai/syllabusParser.ts:533-536`); it does not
  drop it.
- The whitespace collapse of `cleanExtractedText` runs before control characters are
  deleted, so `"a \u0001 b"` cleans to `"a  b"` with two spaces
  (`FileProcessor.ControlBetweenSpacesExample`).
- `'error' in result` (`lib/openai/syllabusParser.ts:107`) also holds for an accepted reply
  that happens to carry an `error` member; the model keeps that test as written.
- `validateFile` refuses GIF images, although `getProcessingMethod` routes them to the vision
  model (`FileProcessor.GifRoutedButRefused`).
- A negative `maxFiles` makes `files.slice(0, maxFiles)` drop files from the end
  (`FileProcessor.SliceTo`).

Where the tests disagree with the helpers they exercise, the model states the helper as
written and proves what it does:

- `sanitizeFileName` does not remove inner `..`: `"../../../etc/passwd"` becomes
  `"_.._.._etc_passwd"` (`FileValidationHelpers.SanitizeKeepsInnerDots`), against the
  expectation at `__tests__/file-validation.test.ts:331`.
- The over-limit message of the test batch validator is the whole sentence, so the
  array search for `Maximum ${maxFiles} files allowed` at
  `__tests__/file-validation.test.ts:238` matches no element of `errors`
  (`FileValidationHelpers.TooManyFilesIsFullSentence`).
- `__tests__/openai-integration.test.ts:513` passes an array to the single-assignment
  `convertWeeksToDate` of the test file. An array has neither `week` nor `specific_date`, so
  that helper returns it unchanged. The due dates asserted there are those of the library's
  resolver (`WeekConversion.FallSemesterExamples`) and of the single-item helper on each
  element (`IntegrationHelpers.ConvertOneExamples`).
- The test helpers accept `image/gif`, which the library refuses
  (`FileValidationHelpers.TestChecksVersusLibrary`). The test model chooser uses a threshold
  of 500 and `gpt-3.5-turbo`, where the library uses 200 and `gpt-4o-mini`
  (`IntegrationHelpers.TestModelChoice`).

## Model

| member | source | states |
|---|---|---|
| Calendar.AddDays | lib/openai/syllabusParser.ts:528-530 | the date `k` days on, with month and year carries, is always a real calendar date |
| Calendar.AddDaysShiftsDayNumber | lib/openai/syllabusParser.ts:528-530 | moving by `k` days moves the day number (days since 0000-01-01, defined by closed sums) by exactly `k` |
| Calendar.AddDaysCompose | lib/openai/syllabusParser.ts:528-530 | moving by `j` then by `k` days is moving by `j + k` |
| Calendar.DayNumberInjective | lib/openai/syllabusParser.ts:528-532 | two valid dates with the same day number are the same date |
| Calendar.DaysBetweenAddDays | __tests__/openai-integration.test.ts:889-891 | the day distance from `d` to `d` moved by `k` days is `k` |
| Calendar.ParseIsoDate | lib/openai/syllabusParser.ts:513-516 | a start text reads as a date only when it names a real date of years 0 to 9999 |
| Calendar.ParseFormatRoundTrip | lib/openai/syllabusParser.ts:532 | every date of years 0 to 9999 reads back from its `YYYY-MM-DD` rendering |
| Calendar.FormatParseRoundTrip | lib/openai/syllabusParser.ts:532 | every text that reads as a date is the canonical rendering of that date |
| JsString.TrimStart | lib/openai/fileProcessor.ts:312 | the result is a suffix of the input, everything removed is whitespace, and it starts with no whitespace |
| JsString.TrimEnd | lib/openai/fileProcessor.ts:312 | the result is a prefix of the input, everything removed is whitespace, and it ends with no whitespace |
| JsString.ReplaceChar | lib/openai/fileProcessor.ts:314-316 | same length, each occurrence of the character replaced and every other character kept |
| JsString.SplitOnWhitespace | lib/openai/fileProcessor.ts:329 | splitting always yields at least one piece |
| JsString.CountCharAppend | lib/openai/syllabusParser.ts:697 | the count of a character in a concatenation is the sum of its counts in the two parts |
| JsString.Utf16Length | lib/openai/syllabusParser.ts:697 | `length` counts UTF-16 code units: between the number of characters and twice it, and equal to it exactly when no character lies above U+FFFF |
| JsString.Utf16LengthWithNewlines | lib/openai/syllabusParser.ts:697 | code units plus line feeds are at most two per character |
| JsString.Utf16LengthAppend | lib/openai/syllabusParser.ts:697 | the code-unit length of a concatenation is the sum of the parts' |
| JsString.AstralLength | lib/openai/syllabusParser.ts:697 | text made only of characters above U+FFFF has twice as many code units as characters |
| JsString.ToLowerCase | app/api/test/parse-syllabus-gemini/route.ts:116 | lower-casing keeps the length |
| JsString.ParseInt | app/api/test/parse-syllabus-gemini/route.ts:111-112 | `parseInt` gives `NaN` exactly when no digit follows the leading whitespace and sign |
| JsString.ParseIntOfIntToString | app/api/test/parse-syllabus-gemini/route.ts:111 | `parseInt` reads back every rendered integer |
| FileProcessor.ValidateFile | lib/openai/fileProcessor.ts:118-151 | a file is accepted exactly when it is non-empty, at most 10 MiB and of one of the six supported types |
| FileProcessor.ValidateFileOrder | lib/openai/fileProcessor.ts:123-148 | an empty file is corrupted before anything else, an oversized one too large before its type is looked at, an unsupported type is reported last, and no refusal is a processing error |
| FileProcessor.GetProcessingMethod | lib/openai/fileProcessor.ts:156-159 | the vision model exactly for JPEG, PNG and GIF |
| FileProcessor.GifRoutedButRefused | lib/openai/fileProcessor.ts:156-159 | a GIF is routed to the vision model yet refused by `validateFile` |
| FileProcessor.SizeInMiBRounds | lib/openai/fileProcessor.ts:133 | the tenths that `SizeInMiB` renders are within half a tenth of the exact size in MiB |
| FileProcessor.SizeBoundary | lib/openai/fileProcessor.ts:132-139 | a 10 MiB PDF is accepted; one byte more is too large whatever the type, reported as 10.0 MB |
| FileProcessor.SizeTextJustOverLimit | lib/openai/fileProcessor.ts:133 | a file one byte over the limit is reported as 10.0 MB |
| FileProcessor.RemoveControls | lib/openai/fileProcessor.ts:318 | the result has no deleted control character, never grows, and text without them is unchanged |
| FileProcessor.CollapseWhitespaceSingleSpaced | lib/openai/fileProcessor.ts:308 | after collapsing, every whitespace character is a single space not followed by whitespace |
| FileProcessor.SingleSpacedFixedByNewlineRule | lib/openai/fileProcessor.ts:310 | single-spaced text holds no line feed, so the line-feed rewrite never fires after the collapse |
| FileProcessor.TrimKeepsSingleSpaced | lib/openai/fileProcessor.ts:312 | trimming keeps text single-spaced |
| FileProcessor.CleanedTextHasNoBreaks | lib/openai/fileProcessor.ts:305-319 | cleaned text holds no line feed, carriage return or tab and no deleted control character |
| FileProcessor.CleanupTailFixes | lib/openai/fileProcessor.ts:314-318 | the space, quote and control rewrites change nothing in collapsed text without control characters |
| FileProcessor.CleanedTextIsTrimmedCollapse | lib/openai/fileProcessor.ts:305-319 | without control characters, cleaning is exactly collapse-then-trim |
| FileProcessor.CleanedTextIsTrimmedAndSingleSpaced | lib/openai/fileProcessor.ts:305-319 | without control characters, the output is trimmed and single-spaced |
| FileProcessor.CollapseFixesSingleSpaced | lib/openai/fileProcessor.ts:308 | collapsing single-spaced text changes nothing |
| FileProcessor.CleanFixesCleanText | lib/openai/fileProcessor.ts:305-319 | text that is already clean comes back unchanged |
| FileProcessor.CleanIdempotent | lib/openai/fileProcessor.ts:305-319 | cleaning twice is cleaning once, for text without control characters |
| FileProcessor.ControlBetweenSpacesExample | lib/openai/fileProcessor.ts:308-318 | a control character between two spaces leaves a double space: the output is then not single-spaced |
| FileProcessor.PiecesAreWordRuns | lib/openai/fileProcessor.ts:329-330 | the non-empty pieces of the split are as many as the maximal non-whitespace runs |
| FileProcessor.TrimKeepsWordRuns | lib/openai/fileProcessor.ts:327-328 | trimming does not change the number of word runs |
| FileProcessor.TrimEmptyIff | lib/openai/fileProcessor.ts:325 | text trims to nothing exactly when it is all whitespace |
| FileProcessor.CountWordsCountsRuns | lib/openai/fileProcessor.ts:324-332 | the word count is the number of maximal non-whitespace runs, and 0 exactly for blank text |
| FileProcessor.ProcessFile | lib/openai/fileProcessor.ts:51-113 | a refused file fails with its refusal type and message; any later failure is a processing error naming the file; a processed file carries its method, its content kind and, for text, the word count of the extracted text; an accepted file is processed exactly when its extractor (text) or data URL (image) succeeds; a failure after validation carries the extractor's message, or "Failed to convert file to base64" for an image |
| FileProcessor.SliceTo | lib/openai/fileProcessor.ts:351 | `slice(0, k)` is the prefix of length `k`, clamped, counting from the end for negative `k` |
| FileProcessor.SortFiles | lib/openai/fileProcessor.ts:355-365 | the loop yields the accepted files, the refused files (in order), one message per refusal, and the summed size of the accepted files |
| FileProcessor.ValidateMultipleFiles | lib/openai/fileProcessor.ts:337-373 | beyond `maxFiles` files one leading message, and only the examined prefix is sorted as above |
| FileProcessor.BatchPartition | lib/openai/fileProcessor.ts:355-365 | the accepted and refused files together are a permutation of the examined files |
| FileProcessor.BatchSorted | lib/openai/fileProcessor.ts:355-365 | every accepted file passes `validateFile`, every refused one fails it, with one message per refused file |
| FileProcessor.ExaminedPrefix | lib/openai/fileProcessor.ts:349-352 | at most `maxFiles` files are examined and they are the first ones; a short list is examined whole |
| FileProcessor.RoundDiv | lib/openai/fileProcessor.ts:449-450 | `Math.round(a / b)` is the nearest integer, halves rounded up |
| FileProcessor.GetProcessingStats | lib/openai/fileProcessor.ts:419-453 | the count, summed sizes and words, rounded average (0 for no files), and the per-method and per-type tallies |
| FileProcessor.TallySum | lib/openai/fileProcessor.ts:440-446 | the counts of a tally add up to the number of keys tallied |
| FileProcessor.TallyKeys | lib/openai/fileProcessor.ts:440-446 | a tally has exactly the keys that occur, each with a positive count |
| FileProcessor.StatsCountsSumToTotal | lib/openai/fileProcessor.ts:427-447 | both tallies add up to the number of files |
| ResponseValidation.ResponseViolations | lib/openai/syllabusParser.ts:463-503 | a checked reply is valid exactly when no message was recorded |
| ResponseValidation.CheckAssignments | lib/openai/syllabusParser.ts:477-484 | the loop yields every element's messages in index order, or throws at a `null` element |
| ResponseValidation.ValidateParsingResponse | lib/openai/syllabusParser.ts:463-503 | the method computes the specified verdict, validity meaning no messages |
| ResponseValidation.ItemErrorsEmptyIff | lib/openai/syllabusParser.ts:478-484 | an array draws no message exactly when every element has a title, a week or date, and a type |
| ResponseValidation.ValidIffWellFormed | lib/openai/syllabusParser.ts:463-503 | the check accepts a reply exactly when it is well formed |
| ResponseValidation.AcceptedReplyShape | lib/openai/syllabusParser.ts:489-497 | an accepted reply has object metadata with a numeric confidence, so the later metadata writes succeed |
| ResponseValidation.ThrowsIff | lib/openai/syllabusParser.ts:467-484 | the check throws exactly for a `null` reply or a `null` assignment element |
| ResponseValidation.ItemErrorsLabelled | lib/openai/syllabusParser.ts:479-483 | every per-assignment message starts with "Assignment" |
| ResponseValidation.ItemErrorsReport | lib/openai/syllabusParser.ts:478-484 | each element's messages are among the array's messages |
| ResponseValidation.MissingMetadataIff | lib/openai/syllabusParser.ts:469 | "Missing metadata" is reported exactly when metadata is absent or falsy |
| ResponseValidation.AssignmentViolationsReported | lib/openai/syllabusParser.ts:479-483 | each rule an element breaks adds its own indexed message |
| ResponseValidation.MissingMetadataExample | lib/openai/syllabusParser.ts:463-503 | a reply with an untyped assignment and no metadata gets exactly two messages |
| ResponseValidation.CopyAlias | lib/openai/syllabusParser.ts:184-186 | a falsy canonical field takes a truthy alias; otherwise nothing changes; other members are untouched |
| ResponseValidation.NormalizeAliases | lib/openai/syllabusParser.ts:182-197 | without a truthy `course_info` the reply is unchanged |
| ResponseValidation.CopyAliasesEffect | lib/openai/syllabusParser.ts:182-197 | the effect of the three copies on name, instructor and code, and on every other member |
| ResponseValidation.CopyAliasesIdempotent | lib/openai/syllabusParser.ts:182-197 | copying aliases twice is copying them once |
| ResponseValidation.CopyAliasesNonObject | lib/openai/syllabusParser.ts:182-197 | a non-object `course_info` is unchanged |
| WeekConversion.ConvertWeeksToDate | lib/openai/syllabusParser.ts:508-550 | an unreadable start gives no assignments; otherwise one dated assignment per input, in order, with the resolved due date |
| WeekConversion.ConvertWeeksToDateWithDetails | lib/openai/syllabusParser.ts:555-612 | an unreadable start gives one warning and nothing else; otherwise the dated assignments, the warnings of each assignment in order, and the number resolved from weeks |
| WeekConversion.SpecificDateWins | lib/openai/syllabusParser.ts:523-525 | a truthy specific date is the due date, whatever the week |
| WeekConversion.WeekDueDateOffset | lib/openai/syllabusParser.ts:526-532 | a week `w` is due exactly `7 * (w - 1)` days after the start |
| WeekConversion.WeekOneIsStart | lib/openai/syllabusParser.ts:526-532 | week 1 is due on the start, written as the start text |
| WeekConversion.NoDateFallsBackToStart | lib/openai/syllabusParser.ts:590-594 | an undated assignment is due on the start text and draws the no-date warning |
| WeekConversion.WarningsFor | lib/openai/syllabusParser.ts:583-594 | each assignment draws at most one warning |
| WeekConversion.NextWeekIsSevenDaysLater | lib/openai/syllabusParser.ts:528-532 | consecutive weeks are due seven days apart |
| WeekConversion.DetailWarningsAppend | lib/openai/syllabusParser.ts:571-605 | the warnings of two lists are the warnings of each in order |
| WeekConversion.NoWarningsIff | lib/openai/syllabusParser.ts:583-594 | no warning exactly when every assignment has a specific date or a week in 1 to 20 |
| WeekConversion.WarningCount | lib/openai/syllabusParser.ts:571-605 | at most one warning per assignment, exactly one each when none is well dated |
| WeekConversion.AllConvertedIff | lib/openai/syllabusParser.ts:577-589 | every assignment is counted as converted exactly when none has a specific date and all have a week |
| WeekConversion.FallSemesterExamples | lib/openai/syllabusParser.ts:520-547 | from 2024-09-01 weeks 1, 3, 8 fall on 2024-09-01, 2024-09-15, 2024-10-20; from 2024-09-02 week 2 falls on 2024-09-09; a specific date wins |
| SyllabusParser.SetMetadata | lib/openai/syllabusParser.ts:207 | the metadata gains the member and every other member of the reply is unchanged |
| SyllabusParser.AppendWarning | lib/openai/syllabusParser.ts:320-321 | appending succeeds exactly when the warnings are falsy or an array, and then the warnings end with the note |
| SyllabusParser.AcceptReply | lib/openai/syllabusParser.ts:199-207 | a reply is accepted exactly when validation passes, and is then stamped; a throwing check and a failing one give their errors |
| SyllabusParser.TextAttempt | lib/openai/syllabusParser.ts:143-209 | a successful text attempt returns an accepted reply stamped `'text'` |
| SyllabusParser.VisionAttempt | lib/openai/syllabusParser.ts:272-323 | a successful vision attempt returns an accepted reply stamped `'image'` |
| SyllabusParser.VisionAttemptAppendsNote | lib/openai/syllabusParser.ts:318-321 | a successful vision attempt ends its warnings with the image note |
| SyllabusParser.TextTriesStamped | lib/openai/syllabusParser.ts:142-209 | every successful text attempt carries an accepted reply stamped `'text'` |
| SyllabusParser.VisionTriesStamped | lib/openai/syllabusParser.ts:271-323 | every successful vision attempt carries an accepted reply stamped `'image'` |
| SyllabusParser.ParseWithTextApi | lib/openai/syllabusParser.ts:136-261 | the loop's result, request count and waits are those of the specified text run |
| SyllabusParser.ParseWithVisionApi | lib/openai/syllabusParser.ts:266-349 | the loop's result, request count and waits are those of the specified vision run |
| SyllabusParser.TextRunBounds | lib/openai/syllabusParser.ts:142-260 | at most one request per remaining attempt, and fewer waits than requests; the fallback error only without attempts |
| SyllabusParser.TextCallLimit | lib/openai/syllabusParser.ts:142-260 | no attempts: no request and the fallback `API_ERROR`; otherwise between 1 and `retryAttempts` requests |
| SyllabusParser.TextRunErrors | lib/openai/syllabusParser.ts:214-250 | a failed run ends in a rate-limit, authentication or parsing error, a rate limit carrying `2 ** attempts * 1000` |
| SyllabusParser.AuthFailureEndsRun | lib/openai/syllabusParser.ts:231-238 | a key refusal ends the run at once with `AUTH_ERROR`, without waiting |
| SyllabusParser.RateLimitedThroughout | lib/openai/syllabusParser.ts:216-228 | rate limits on every attempt: every attempt requested, doubling waits, then `RATE_LIMIT` |
| SyllabusParser.RateLimitedTwiceThenAccepted | lib/openai/syllabusParser.ts:216-221 | two rate limits then success: three requests, waits of 2 and 4 seconds, the accepted data |
| SyllabusParser.TextRunStampsText | lib/openai/syllabusParser.ts:206-209 | the text loop returns the data of one of its attempts, stamped `'text'` |
| SyllabusParser.VisionRunBounds | lib/openai/syllabusParser.ts:271-348 | at most one request per attempt, and a wait after every failed attempt but the last |
| SyllabusParser.VisionRunWaits | lib/openai/syllabusParser.ts:338-339 | the waits follow the doubling schedule up to the last request |
| SyllabusParser.VisionRunStampsImage | lib/openai/syllabusParser.ts:318-323 | the vision loop returns the data of one of its attempts, stamped `'image'` |
| SyllabusParser.FinishReply | lib/openai/syllabusParser.ts:107-120 | a returned syllabus carries the processing time in its metadata |
| SyllabusParser.ConfidenceGate | lib/openai/syllabusParser.ts:111-115 | below the threshold the low-confidence warning is appended, at or above it nothing is; non-array warnings make it fail |
| SyllabusParser.ParseSyllabusWithOpenAI | lib/openai/syllabusParser.ts:71-131 | the method computes the specified pipeline outcome; without an API key it fails with the configuration error |
| SyllabusParser.ParseSyllabusOutcome | lib/openai/syllabusParser.ts:95-131 | with a key, a failed run is returned as is; an accepted reply carries 'image' after the vision route and 'text' after the text route, keeps it through the gate, gets the low-confidence warning after its own exactly below the threshold, and otherwise keeps its warnings; the gate fails only on a non-array warnings value below the threshold |
| SyllabusParser.ImageNoteBeforeLowConfidence | lib/openai/syllabusParser.ts:113-114 | an image reply below the threshold ends with its own warnings, the image note, then the low-confidence warning |
| SyllabusParser.CountDatedFullIff | lib/openai/syllabusParser.ts:662-663 | the dated count equals the length exactly when every assignment is dated |
| SyllabusParser.CountTypedFullIff | lib/openai/syllabusParser.ts:670-671 | the typed count equals the length exactly when every assignment is typed |
| SyllabusParser.CheckCourseInfo | lib/openai/syllabusParser.ts:648-655 | the course points, and the strength or the suggestion at 20 points |
| SyllabusParser.CheckAssignments | lib/openai/syllabusParser.ts:657-679 | the assignment points; "Found n assignments" exactly with assignments; the all-dated strength exactly when every assignment has a week or date, the missing-date suggestion exactly when some has neither; the same pair for types; the missing-assignments suggestion exactly without assignments; no other messages |
| SyllabusParser.CheckConfidence | lib/openai/syllabusParser.ts:681-690 | the confidence points and the one message per band |
| SyllabusParser.AnalyzeParsingQuality | lib/openai/syllabusParser.ts:639-693 | the score is the sum of the three parts and at most 100; 100 exactly for an exemplary syllabus; each of the course, found-count, date, type, no-assignment and confidence messages appears exactly in its case |
| SyllabusParser.QualityMessagesDistinct | lib/openai/syllabusParser.ts:649-690 | the assignment messages differ from one another and from the course and confidence ones |
| SyllabusParser.CompleteInfoIff | lib/openai/syllabusParser.ts:648-655 | the completeness strength needs the name and two of code, instructor and semester |
| SyllabusParser.ChooseOptimalModel | lib/openai/syllabusParser.ts:696-699 | the choice is one of the two models |
| SyllabusParser.ModelChoiceBounds | lib/openai/syllabusParser.ts:696-699 | the larger model exactly when UTF-16 length plus line feeds exceeds 200; over 200 characters always the larger model, at most 100 never; appending text never switches back |
| SyllabusParser.AstralTextCountsTwice | lib/openai/syllabusParser.ts:697 | 101 emoji are 202 code units and already get the larger model |
| GeminiRoute.FencedFrom | app/api/test/parse-syllabus-gemini/route.ts:48 | a fenced match lies after an opening fence and before a closing one |
| GeminiRoute.FencedBodyMeaning | app/api/test/parse-syllabus-gemini/route.ts:48 | the fenced body is what the regular expression captures: leftmost opening fence with a close, whitespace skipped, up to the nearest close |
| GeminiRoute.BracedSpan | app/api/test/parse-syllabus-gemini/route.ts:49 | a braced match is a non-empty span of the text |
| GeminiRoute.BracedSpanMeaning | app/api/test/parse-syllabus-gemini/route.ts:49 | the braced part runs from the first `{` to just after the last `}` |
| GeminiRoute.CandidateExamples | app/api/test/parse-syllabus-gemini/route.ts:48-49 | a fenced reply yields its body; a reply without a fence its braced part |
| GeminiRoute.RecoverJson | app/api/test/parse-syllabus-gemini/route.ts:35-69 | blank text fails with no content exactly; a whole-text parse wins; when the whole text fails, a candidate that parses is recovered; "non-JSON content" exactly when the whole text fails and there is no candidate or it fails too |
| GeminiRoute.CoercedType | app/api/test/parse-syllabus-gemini/route.ts:115-120 | the type is always allowed: the lower case of an allowed type, else `'homework'` |
| GeminiRoute.NormalizedFields | app/api/test/parse-syllabus-gemini/route.ts:108-121 | the assignment gets an allowed type and keeps every member other than week and type |
| GeminiRoute.ItemStep | app/api/test/parse-syllabus-gemini/route.ts:107-122 | the callback throws exactly on a truthy string, number or boolean |
| GeminiRoute.MapItems | app/api/test/parse-syllabus-gemini/route.ts:107-122 | the map keeps the number of items |
| GeminiRoute.NormalizeAssignments | app/api/test/parse-syllabus-gemini/route.ts:107-122 | the loop computes the specified map outcome |
| GeminiRoute.CountDatedItems | app/api/test/parse-syllabus-gemini/route.ts:96 | the dated count is at most the number of items |
| GeminiRoute.NormalizeGeminiReply | app/api/test/parse-syllabus-gemini/route.ts:72-125 | the block computes the specified normalised reply |
| GeminiRoute.NormalizedContainers | app/api/test/parse-syllabus-gemini/route.ts:74-88 | the reply becomes an object with object course info (aliases copied), an assignments array with one entry per original entry, and object metadata |
| GeminiRoute.MetadataDefaultsEffect | app/api/test/parse-syllabus-gemini/route.ts:90-101 | each metadata default applies only when its value is missing, with 0.8, the dated count and `'text'` |
| GeminiRoute.MapThrowsIff | app/api/test/parse-syllabus-gemini/route.ts:107-125 | the map stops exactly when some item is a truthy primitive |
| GeminiRoute.MappedItemsTyped | app/api/test/parse-syllabus-gemini/route.ts:107-122 | a completed map gives each object item its callback's result and leaves arrays as they were |
| GeminiRoute.ThrowKeepsPrefix | app/api/test/parse-syllabus-gemini/route.ts:107-125 | on a throw at item `k`, earlier items stand as changed in place and later ones untouched |
| GeminiRoute.ItemFieldRules | app/api/test/parse-syllabus-gemini/route.ts:110-120 | a string week becomes its `parseInt` value when there is one; the type rules |
| GeminiRoute.QuizTypeExample | app/api/test/parse-syllabus-gemini/route.ts:115-117 | `"Quiz"` becomes `"quiz"` |
| GeminiRoute.EssayTypeExample | app/api/test/parse-syllabus-gemini/route.ts:115-117 | `"Essay"` becomes `"homework"` |
| GeminiRoute.StringWeekExample | app/api/test/parse-syllabus-gemini/route.ts:110-113 | week `" 3 "` becomes the number 3 |
| GeminiRoute.LowerCaseIdempotent | app/api/test/parse-syllabus-gemini/route.ts:116 | lower-casing twice is lower-casing once |
| GeminiRoute.LowerCaseOfLowerWord | app/api/test/parse-syllabus-gemini/route.ts:116 | a lower-case ASCII word is its own lower case |
| GeminiRoute.CoercedTypeLowerCase | app/api/test/parse-syllabus-gemini/route.ts:116-117 | a coerced type is non-empty and its own lower case |
| GeminiRoute.WeekNormalizedSettles | app/api/test/parse-syllabus-gemini/route.ts:110-113 | a week left by the first pass is not a string `parseInt` reads |
| GeminiRoute.NormalizedTypeSettles | app/api/test/parse-syllabus-gemini/route.ts:115-120 | the written type lower-cases to itself |
| GeminiRoute.NormalizedFieldsIdempotent | app/api/test/parse-syllabus-gemini/route.ts:108-121 | normalising an assignment twice changes nothing more |
| GeminiRoute.MappedItemsSettle | app/api/test/parse-syllabus-gemini/route.ts:107-122 | mapping the mapped assignments again gives them back unchanged |
| GeminiRoute.PrimitiveMetadataStopsPass | app/api/test/parse-syllabus-gemini/route.ts:91-125 | a truthy primitive metadata aborts the block before the assignments are touched |
| IntegrationHelpers.PresentFields | __tests__/openai-integration.test.ts:805 | the filter keeps exactly the listed fields that are filled |
| IntegrationHelpers.PresentFieldsCount | __tests__/openai-integration.test.ts:804-805 | the filter's length is the number of filled fields among name, code and instructor |
| IntegrationHelpers.ValidateCourseInfo | __tests__/openai-integration.test.ts:803-811 | valid exactly when at least one field is filled; completeness is the filled third, 1 exactly when all are filled |
| IntegrationHelpers.CourseInfoAgreesWithRubric | __tests__/openai-integration.test.ts:803-811 | the quality analysis's completeness strength implies two filled fields here; full completeness here implies that strength |
| IntegrationHelpers.ValidateAssignment | __tests__/openai-integration.test.ts:813-837 | valid exactly without messages and without failed checks (the title length in UTF-16 code units); each message exactly when its check fails; no other messages |
| IntegrationHelpers.AstralTitleLength | __tests__/openai-integration.test.ts:816 | a two-emoji title is four code units long, so it is not too short |
| IntegrationHelpers.MessagesDistinct | __tests__/openai-integration.test.ts:816-831 | the four messages are pairwise different |
| IntegrationHelpers.RetryAgreesWithRubric | __tests__/openai-integration.test.ts:839-841 | retry exactly below 0.7 or without assignments; a retried parse never scores 100; a kept one earns the assignment and confidence points |
| IntegrationHelpers.VerdictOf | __tests__/openai-integration.test.ts:849-861 | only an assignment with a truthy week can be rejected |
| IntegrationHelpers.ValidateWeekNumbers | __tests__/openai-integration.test.ts:843-865 | the loop yields the specified kept, rejected and error lists |
| IntegrationHelpers.WeekPartitionMeaning | __tests__/openai-integration.test.ts:848-862 | kept and rejected are a permutation of the input, kept ones in range and rejected ones not |
| IntegrationHelpers.WeekErrorsDescribeRejected | __tests__/openai-integration.test.ts:850-856 | one error per rejected assignment, in order, naming its week and reason |
| IntegrationHelpers.WeekNumbersExample | __tests__/openai-integration.test.ts:487-500 | weeks 3, 25, -1 against 16: one kept, two rejected with their messages |
| IntegrationHelpers.ConvertOne | __tests__/openai-integration.test.ts:867-880 | the conversion throws exactly for a week with an unreadable start; a specific date wins; an undated assignment is returned as given |
| IntegrationHelpers.ConvertOneAgreesWithResolver | __tests__/openai-integration.test.ts:867-880 | with a readable start the test conversion agrees with the library's due date |
| IntegrationHelpers.ConvertOneExamples | __tests__/openai-integration.test.ts:505-539 | weeks 1, 3, 8 from 2024-09-01 and a specific date, as asserted |
| IntegrationHelpers.ConvertOneSecondStartExample | __tests__/openai-integration.test.ts:520-527 | week 2 from 2024-09-02 falls on 2024-09-09 |
| IntegrationHelpers.ConvertWeeksToDateArray | __tests__/openai-integration.test.ts:882-884 | defined exactly when every element converts, then one result per element in order |
| IntegrationHelpers.ArrayConversionTotal | __tests__/openai-integration.test.ts:882-884 | with a readable start the array conversion never throws |
| IntegrationHelpers.CeilDiv7 | __tests__/openai-integration.test.ts:892 | `Math.ceil(n / 7)` is the least `q` with `n <= 7q` |
| IntegrationHelpers.ValidateWeekAgainstSemester | __tests__/openai-integration.test.ts:886-899 | valid exactly without an adjusted week; no week or an unreadable date is valid; an adjusted week is below the week |
| IntegrationHelpers.WeekWithinSemesterIff | __tests__/openai-integration.test.ts:886-899 | week `w` is valid exactly when its first day falls before the end date, and is otherwise adjusted to the touched week count |
| IntegrationHelpers.FallSemesterLengthExample | __tests__/openai-integration.test.ts:541-550 | week 20 from 2024-09-01 to 2024-12-15 is invalid, adjusted to 15 |
| IntegrationHelpers.OptimizePromptForTokens | __tests__/openai-integration.test.ts:907-912 | never longer than the prompt, single-spaced and trimmed |
| IntegrationHelpers.CollapseShortens | __tests__/openai-integration.test.ts:909 | collapsing never lengthens text |
| IntegrationHelpers.OptimizeMatchesCleanup | __tests__/openai-integration.test.ts:907-912 | compaction is collapse-then-trim, is the file cleanup on control-free text, and is idempotent |
| IntegrationHelpers.ChooseModelInTests | __tests__/openai-integration.test.ts:914-917 | the choice is one of the two models |
| IntegrationHelpers.TestModelChoice | __tests__/openai-integration.test.ts:914-917 | the larger model exactly when UTF-16 length plus line feeds exceeds 500; whenever it is chosen the library chooses it too; over 500 characters always, at most 250 never |
| FileValidationHelpers.ValidateFileType | __tests__/file-validation.test.ts:340-353 | valid exactly for the seven types, with the routing method; otherwise the not-supported message |
| FileValidationHelpers.TypeRefusalWording | __tests__/file-validation.test.ts:344 | the refusal says "not supported" and names the type |
| FileValidationHelpers.ValidateFileSize | __tests__/file-validation.test.ts:355-372 | valid exactly for sizes in 1 to 10 MiB, without an error; the empty and too-large messages |
| FileValidationHelpers.SizeRefusalWording | __tests__/file-validation.test.ts:359-367 | the messages say "empty", and "too large" with "10MB" |
| FileValidationHelpers.TestChecksVersusLibrary | __tests__/file-validation.test.ts:34-42 | both test checks pass exactly when the library accepts the file or it is a GIF of acceptable size |
| FileValidationHelpers.RoutingExamples | __tests__/file-validation.test.ts:374-377 | PDF and text are extracted, JPEG and GIF go to the vision model |
| FileValidationHelpers.FileErrors | __tests__/file-validation.test.ts:399-400 | a file has no message exactly when it passes both checks, and at most two |
| FileValidationHelpers.TestSortFiles | __tests__/file-validation.test.ts:390-402 | the loop yields the passing and failing files, their messages in order, and the passing sizes summed |
| FileValidationHelpers.TestValidateMultipleFiles | __tests__/file-validation.test.ts:379-411 | beyond `maxFiles` files one leading message, then the examined prefix sorted as above |
| FileValidationHelpers.TestBatchPartition | __tests__/file-validation.test.ts:390-402 | valid and invalid files together are a permutation of the examined files |
| FileValidationHelpers.TestBatchSorted | __tests__/file-validation.test.ts:394-401 | every valid file passes both checks, every invalid one fails one |
| FileValidationHelpers.TestBatchErrorCount | __tests__/file-validation.test.ts:397-401 | an invalid file adds one or two messages, a valid one none |
| FileValidationHelpers.TooManyFilesIsFullSentence | __tests__/file-validation.test.ts:229-238 | the over-limit message differs from the bare phrase the test looks for, yet contains it |
| FileValidationHelpers.ReplaceUnsafe | __tests__/file-validation.test.ts:428 | each UTF-16 code unit outside `[a-zA-Z0-9.-]` becomes `_` (two for a character above U+FFFF), the rest are kept; the result is as long as the input's `length` |
| FileValidationHelpers.AstralNameExample | __tests__/file-validation.test.ts:428 | `"😀.pdf"` becomes `"__.pdf"` |
| FileValidationHelpers.StripLeadingDots | __tests__/file-validation.test.ts:429 | a suffix, only dots removed, not starting with a dot |
| FileValidationHelpers.StripTrailingDots | __tests__/file-validation.test.ts:430 | a prefix, only dots removed, not ending with a dot |
| FileValidationHelpers.Truncated | __tests__/file-validation.test.ts:431 | a prefix of at most 255 characters, the whole text when it fits |
| FileValidationHelpers.SanitizedNameShape | __tests__/file-validation.test.ts:426-432 | only safe characters or `_`, so no slash, backslash or NUL; no longer than the input's UTF-16 `length` or 255; no leading dot |
| FileValidationHelpers.SanitizeFixesCleanName | __tests__/file-validation.test.ts:426-432 | a safe, short name without edge dots is unchanged |
| FileValidationHelpers.ReplaceUnsafeAppend | __tests__/file-validation.test.ts:428 | the replacement distributes over concatenation |
| FileValidationHelpers.SanitizeKeepsInnerDots | __tests__/file-validation.test.ts:321-336 | `"../../../etc/passwd"` becomes `"_.._.._etc_passwd"`, which contains `".."` |
| ProcessingHelpers.ValidateFileType | __tests__/syllabus-processing.test.ts:386-397 | the boolean check is the file-validation tests' verdict, and the library's list plus GIF |
| ProcessingHelpers.ValidateFileSize | __tests__/syllabus-processing.test.ts:399-401 | true exactly for positive sizes up to the limit |
| ProcessingHelpers.SizeCheckAgrees | __tests__/syllabus-processing.test.ts:399-401 | with the 10 MiB limit it is the file-validation tests' size verdict |
| ProcessingHelpers.BooleanChecksMatchBatch | __tests__/syllabus-processing.test.ts:386-401 | both boolean checks pass exactly when the test batch validator counts the file valid |
| ProcessingHelpers.SampleFiles | __tests__/syllabus-processing.test.ts:105-122 | 1 MiB passes, 15 MiB and empty fail; PDF, Word, JPEG pass and an executable fails; the routing of each |

## Left out

- Network calls, API keys and timings: the language models are function parameters, the key
  check is a boolean, `Date.now() - startTime` is a number handed in, and the back-off
  waits are recorded rather than slept.
- Prompt texts (`generateSystemPrompt`, `generateUserPrompt`) and `includeSchedule`, which
  only change the prompt: prompts are not modelled.
- PDF.js, Mammoth and `FileReader`: the text items of each PDF page, the raw text of a Word
  document, the text of a plain-text file and the data URL of an image are function
  parameters; joining the items and pages is modelled (`FileProcessor.PagesText`).
- `processMultipleFiles`: concurrent processing with `Promise.allSettled` is not modelled.
- `parseSyllabusWithRetry` and `processFullSyllabus` of the library and of the test file:
  orchestration of the modelled calls over the network, not modelled.
- Cost estimates (`estimateProcessingCost` in the library and the file-validation tests,
  `estimateOpenAICost`, the `estimatedCost` fields): floating-point arithmetic, not modelled.
- `validateFileContent` of the file-validation tests: a placeholder that accepts every file,
  with nothing to model.
- `JSON.parse` is a function parameter; JSON numbers are reals and object key order is not
  modelled.
- `toFixed(1)` and `toFixed(2)`: `toFixed(1)` of the size is modelled as rounding to tenths
  (`FileProcessor.SizeInMiBRounds`); `toFixed(2)` of the confidence is a parameter.
- Dates: only `YYYY-MM-DD` start texts of years 0 to 9999 are read as dates; the other
  texts JavaScript's `Date` accepts are treated as unreadable. `toISOString` is modelled as
  `YYYY-MM-DD` rendering; its range error beyond year 275760 is not modelled. The due-date
  arithmetic is the naive calendar one, which is what `lib/openai/syllabusParser.ts:528-532`
  computes on a host whose time zone is UTC: the start is read as UTC midnight, moved with
  the local-time `setDate` and rendered in UTC, so on a host west of UTC with daylight
  saving the date can come out one day early (start `2024-01-15`, week 9, US Eastern time:
  `2024-03-10` where the model gives `2024-03-11`). Such host time zones are not modelled.
- Week numbers and `retryAttempts` are integers: fractional weeks and attempt counts are not
  modelled.
- Messages of host errors (a `TypeError` from reading a property of `null`) are stood for by
  fixed texts.
- JsString.ToLowerCase: only `A`-`Z` and the Kelvin sign are lowered; other characters are
  kept, which cannot change whether the result is one of the allowed ASCII type names.
- GeminiRoute.RecoverJson: the joining of the candidate parts into one text is not
  modelled; the text is the input.
- `String(type)` in the Gemini type coercion is rendered only for strings, booleans, `null`
  and arrays of at most one element; the texts of numbers, objects and longer arrays never
  lower-case to an allowed type, so they are not spelled out.
- IntegrationHelpers.ValidateAssignment: the assignment's type is always a string, so a
  missing `type` (reported as `Invalid assignment type: undefined`) is not modelled.
- FileValidationHelpers.ValidateFileSize: file sizes are natural numbers, so the negative
  sizes the `<= 0` test also refuses do not arise; the boolean check of the
  syllabus-processing tests takes any integer.
