# jest-spec-reporter in Dafny

A model of `JestSpecReporter`, a Jest reporter that prints a run as "spec"-style
console text. It handles three events from the test engine:

- run start: a blank line, then `Found N test suites`;
- the result of one test file: one line per test case, with a status glyph
  (✔ passed, ✘ failed, ○ pending), the ancestor titles, the title and `(Nms)`;
- run complete: the failure message of each test file, `Ran N tests in S.M s`, then
  one line each for the passing, failing and pending counts that are non-zero.

The console is the append-only field `output` of the class
`SpecReporter.JestSpecReporter`. Each entry of `output` is what one
`console.log` call writes: a `Line`, a sequence of text segments, each tagged with
the chalk formatter that colours it (`Styled.Style`). Text written outside any
formatter is tagged `Plain`. `Styled.Text` removes the styling.

Files:

- `wrappers.dfy`: the `Option` type, used for a failure message that may be absent.
- `decimal.dfy`: the decimal numeral JavaScript interpolates for a non-negative
  integer below 10^21 (`FromNat`), and its inverse (`ToNat`).
- `styled.dfy`: styles, segments, lines and their plain text.
- `reporter.dfy`: the event payloads and the rendering functions. It also holds the
  reference table that maps a status string to a category (`Classify`) and a
  category to its glyph and styles. Then come the lemmas, example scenarios, and
  the reporter class.

How the code behaves in the places where a reader might expect otherwise:

- The status is a string compared with `===` and matched by a `switch`. Any string
  other than "passed" or "pending" renders as failed.
- Passed and failed titles are white; only the ancestor head is green or red. A
  pending test has a bold-yellow head and a bright-yellow title. The `(Nms)`
  segment is gray in every case.
- Each test-file result's `failureMessage` is read, and empty or missing ones are
  skipped.

## Model

| member | source | states |
|---|---|---|
| `Decimal.FromNat` | lib/jest-spec-reporter.js:23 | A number is written as at least one decimal digit with no leading zero; it has one digit exactly when it is below 10. |
| `Decimal.ToNatFromNat` | lib/jest-spec-reporter.js:41 | Reading the printed numeral back gives the same number, so no count is lost in the text. |
| `Decimal.FromNatInjective` | lib/jest-spec-reporter.js:45 | Different counts print as different numerals. |
| `SpecReporter.GetStatus` | lib/jest-spec-reporter.js:103-113 | The glyph is ✔ in the passed style for "passed" and ○ in the pending style for "pending". Every other string gets ✘ in the failed style, because the default arm falls into "failed". The glyph is ✘ exactly when the status is neither "passed" nor "pending". |
| `SpecReporter.Join` | lib/jest-spec-reporter.js:72 | `Array.prototype.join`: no parts give the empty string and one part gives that part. Otherwise the result starts with the first part and ends with the separator followed by the last part. |
| `SpecReporter.JoinMarksEach` | lib/jest-spec-reporter.js:72 | For a non-empty list, a space, the titles joined by " > ", then " >" is the same as every title written as " " + title + " >", in order. |
| `SpecReporter.Head` | lib/jest-spec-reporter.js:72 | The head is the ancestor titles joined by " > " plus one more " >". With no ancestors it is " >" alone. Otherwise every ancestor title is followed by " >". |
| `SpecReporter.ResultLine` | lib/jest-spec-reporter.js:71-98 | A test line has eight segments: indent, glyph, head, title and duration, with single spaces between. For pending, the head is bold yellow and the title yellow. For passed, the head is bold green. For any other status, the head is bold red. Passed and failed titles are white. The duration is always gray "(Nms)". |
| `SpecReporter.ResultLineText` | lib/jest-spec-reporter.js:74-97 | Without styling, a test line is four spaces, glyph, space, head, space, title, space, then "(" + duration + "ms)". |
| `SpecReporter.BranchAgreement` | lib/jest-spec-reporter.js:73-111 | The branch that colours the head and the glyph from _getStatus pick the same category for every status. The title is coloured only for pending, and the duration never. |
| `SpecReporter.FoundLine` | lib/jest-spec-reporter.js:23 | The start line is one segment in the info style, and its plain text is that segment's text. |
| `SpecReporter.FoundLineReadBack` | lib/jest-spec-reporter.js:23 | The start line's text is "Found ", the numeral of the suite count, then " test suites". The suite count reads back from it. |
| `SpecReporter.TruthyIndices` | lib/jest-spec-reporter.js:36-40 | The selected positions are exactly the test files whose failure message is present and non-empty, in ascending order. |
| `SpecReporter.FailureLines` | lib/jest-spec-reporter.js:36-40 | One unstyled line per truthy failure message, verbatim and in input order. Empty and missing messages write nothing. |
| `SpecReporter.FailureLinesExtend` | lib/jest-spec-reporter.js:36-40 | Loop step of `WriteFailureMessages`: one more test file appends its message at the end when the message is truthy, and nothing otherwise. |
| `SpecReporter.DurationText` | lib/jest-spec-reporter.js:61-66 | The inner `testDuration`: the duration text has at least five characters and ends in " s". |
| `SpecReporter.DurationReadBack` | lib/jest-spec-reporter.js:63-65 | The duration text "{seconds}.{millis} s" parses back to both components, so the two plain integers determine the text and the text determines them. |
| `SpecReporter.DurationNotPadded` | lib/jest-spec-reporter.js:65 | The milliseconds are not zero-padded: 2 s 7 ms prints "2.7 s" and 2 s 70 ms prints "2.70 s". |
| `SpecReporter.RanLine` | lib/jest-spec-reporter.js:41 | The "Ran" line is one segment in the info style. |
| `SpecReporter.RanLineReadBack` | lib/jest-spec-reporter.js:41 | The "Ran" line's text is "Ran ", the numeral of the test count, " tests in ", then a duration text. The count and both duration components read back from it. |
| `SpecReporter.TallyLine` | lib/jest-spec-reporter.js:43-58 | A count line is two segments: the glyph of its status, then " {count} {noun}" in the given style. Its plain text is the glyph, then " {count} {noun}". |
| `SpecReporter.PassingLine` | lib/jest-spec-reporter.js:43-46 | The passing line is the ✔ glyph, then the count and "passing", all in the passed style; it reads "✔ {count} passing". |
| `SpecReporter.FailingLine` | lib/jest-spec-reporter.js:48-52 | The failing line is the ✘ glyph, then the count and "failing", all in the failed style; it reads "✘ {count} failing". |
| `SpecReporter.PendingLine` | lib/jest-spec-reporter.js:54-58 | The pending line is the ○ glyph, then the count and "pending", all in the pending style; it reads "○ {count} pending". |
| `SpecReporter.CountLines` | lib/jest-spec-reporter.js:42-59 | The count lines are passing, failing, pending, in that order. There is one line per non-zero count, and each has the count and noun of its category. |
| `SpecReporter.CountLinePresence` | lib/jest-spec-reporter.js:42-59 | Each count line is written exactly when its count is non-zero. |
| `SpecReporter.NoCountLinesWhenAllZero` | lib/jest-spec-reporter.js:42-59 | With all three counts zero, no count line is written. |
| `SpecReporter.SummaryLayout` | lib/jest-spec-reporter.js:26-67 | The summary (`SummaryLines`) is the truthy failure messages, one line each in input order, then the "Ran" line, then the count lines. Its length is the number of truthy messages plus one plus the number of non-zero counts. |
| `SpecReporter.ExampleFoundThreeSuites` | lib/jest-spec-reporter.js:23 | Three suites give "Found 3 test suites". |
| `SpecReporter.ExampleNestedPassedTest` | lib/jest-spec-reporter.js:72-89 | A passed test "adds two numbers" under "Math" and "Addition" taking 12 ms reads "    ✔ Math > Addition > adds two numbers (12ms)". |
| `SpecReporter.ExampleUnknownStatus` | lib/jest-spec-reporter.js:90-109 | An unknown status "skipped" is drawn with the failed glyph and the failed head style. An empty ancestor list gives the head " >". |
| `SpecReporter.ExampleFivePassedTwoPending` | lib/jest-spec-reporter.js:42-59 | Counts 5, 0, 2 give exactly "✔ 5 passing" and "○ 2 pending", and no failing line. |
| `SpecReporter.ExampleOneFailure` | lib/jest-spec-reporter.js:36-53 | One failed test file writes its message, the "Ran 1 tests in" line and one failing line, and nothing else. |
| `SpecReporter.JestSpecReporter.constructor` | lib/jest-spec-reporter.js:16-19 | Stores the two configuration values unchanged; nothing has been written yet. |
| `SpecReporter.JestSpecReporter.OnRunStart` | lib/jest-spec-reporter.js:21-24 | Appends exactly two lines to the output: an empty one, then the info-styled "Found" line. |
| `SpecReporter.JestSpecReporter.OnTestResult` | lib/jest-spec-reporter.js:69-101 | Appends exactly one line per test case, in input order. Line i is the rendering of test case i. Earlier output is kept. |
| `SpecReporter.JestSpecReporter.OnRunComplete` | lib/jest-spec-reporter.js:26-67 | Appends exactly the summary lines: the failure lines, then the "Ran" line, then the non-zero count lines, and nothing else. |
| `SpecReporter.JestSpecReporter.WriteFailureMessages` | lib/jest-spec-reporter.js:36-40 | The loop over the test files appends exactly the failure lines of the files seen so far. |
| `SpecReporter.JestSpecReporter.WriteCounts` | lib/jest-spec-reporter.js:42-59 | The three conditional writes append exactly the count lines. |
| `SpecReporter.RenderSummary` | lib/jest-spec-reporter.js:26-67 | A fresh reporter that receives a run summary writes exactly the summary lines. |
| `SpecReporter.RenderSummaryTwice` | lib/jest-spec-reporter.js:26-67 | Two reporters given the same summary and elapsed time write identical output. Apart from the clock, which the model takes as the seconds and millis parameters, no hidden state changes what is written. |

## Left out

- Console output: `console.log` is modelled by appending to `output`. Other writers to the same stream, and the terminal itself, are not modelled.
- chalk: each formatter is an abstract style tag, not ANSI escape codes. The source defines `titleFmt`, `headFmt` and `infoFmt` as the same white formatter. The model keeps `Title` and `Info` as separate tags. `headFmt` is never used.
- The clock and moment: `OnRunComplete` takes the seconds and milliseconds components of the elapsed time as parameters. Subtracting the start time from the current time is not modelled. Neither is moment's choice of components: its seconds component does not include whole minutes.
- Decimal.FromNat: matches JavaScript's number-to-string only for integers below 10^21. From 10^21 up JavaScript writes exponent form, and above 2^53 a JavaScript number no longer holds every integer exactly. Counts and durations of a test run stay far below both bounds.
- The constructor's `globalConfig` and `options` are kept as opaque values of type parameters. The source stores them and never reads them.
- The first `test` argument of `onRunComplete` and `onTestResult` is ignored by the source and absent from the model. `OnTestResult` takes the `testResults` list of the test-file result, which is the only field the source reads.
- Durations and counts are natural numbers. A missing duration, which JavaScript would print as "null" or "undefined", is not modelled. Neither are non-integer or non-numeric counts.
- A failure message is `Option<string>`. It is truthy exactly when it is present and non-empty, which is JavaScript's truthiness for a string or null.
- The arrays that `Array.prototype.map` returns are discarded by the source and not modelled.
- `WriteFailureMessages` and `WriteCounts` are two steps of `onRunComplete`'s body, written as helper methods of the class. The source has them inline.
