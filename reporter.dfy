/**
 * The spec reporter: a subscriber to a test engine's run-start, per-file result and
 * run-complete events, which writes one styled console line per call of console.log.
 * The console is the append-only field `output`; the rendering of each line is a
 * function, so that what the handlers write can be stated and reasoned about.
 */
module SpecReporter {
  import opened Wrappers
  import opened Decimal
  import opened Styled

  // ---------------------------------------------------------------------------
  // Event payloads (the fields of the engine's objects that the reporter reads)
  // ---------------------------------------------------------------------------

  /** One test case of a test file, as delivered to onTestResult. */
  datatype AssertionResult = AssertionResult(
    ancestorTitles: seq<string>,
    title: string,
    status: string,
    duration: nat)

  /** One test file of the run summary; only its failure message is read. */
  datatype TestResult = TestResult(failureMessage: Option<string>)

  /** The run summary delivered to onRunComplete. */
  datatype AggregatedResult = AggregatedResult(
    numFailedTests: nat,
    numPassedTests: nat,
    numPendingTests: nat,
    testResults: seq<TestResult>,
    numTotalTests: nat)

  // ---------------------------------------------------------------------------
  // The reference table: which category a status renders as, and its styles
  // ---------------------------------------------------------------------------

  datatype Category = PassedTest | FailedTest | PendingTest

  /** The two named statuses keep their category; every other string renders as failed. */
  function Classify(status: string): Category {
    if status == "passed" then PassedTest
    else if status == "pending" then PendingTest
    else FailedTest
  }

  function Glyph(c: Category): Segment {
    match c
    case PassedTest => Segment(Passed, "✔")
    case FailedTest => Segment(Failed, "✘")
    case PendingTest => Segment(Pending, "○")
  }

  function HeadStyle(c: Category): Style {
    match c
    case PassedTest => PassedTitle
    case FailedTest => FailedTitle
    case PendingTest => PendingTitle
  }

  function TitleStyle(c: Category): Style {
    if c == PendingTest then Pending else Title
  }

  /** The category a coloured style belongs to; white, gray and plain belong to none. */
  function StyleCategory(s: Style): Option<Category> {
    match s
    case Passed | PassedTitle => Some(PassedTest)
    case Failed | FailedTitle => Some(FailedTest)
    case Pending | PendingTitle => Some(PendingTest)
    case _ => None
  }

  // ---------------------------------------------------------------------------
  // _getStatus
  // ---------------------------------------------------------------------------

  /** The coloured status glyph; the default arm of the switch falls into "failed". */
  function GetStatus(status: string): (glyph: Segment)
    ensures glyph == Glyph(Classify(status))
    ensures glyph.text == "✘" <==> status != "passed" && status != "pending"
  {
    match status
    case "passed" => Segment(Passed, "✔")
    case "failed" => Segment(Failed, "✘")
    case "pending" => Segment(Pending, "○")
    case _ => Segment(Failed, "✘")
  }

  // ---------------------------------------------------------------------------
  // onTestResult: one line per test case
  // ---------------------------------------------------------------------------

  /** Array.prototype.join on strings: the parts in order, the separator between each two. */
  function Join(parts: seq<string>, separator: string): (joined: string)
    ensures parts == [] ==> joined == ""
    ensures |parts| == 1 ==> joined == parts[0]
    ensures parts != [] ==> |parts[0]| <= |joined| && joined[..|parts[0]|] == parts[0]
    ensures |parts| > 1 ==>
      (|separator| + |parts[|parts| - 1]| <= |joined|
       && joined[|joined| - |separator| - |parts[|parts| - 1]|..] == separator + parts[|parts| - 1])
  {
    if |parts| == 0 then ""
    else if |parts| == 1 then parts[0]
    else
      var init := Join(parts[..|parts| - 1], separator);
      assert parts[..|parts| - 1][0] == parts[0];
      var joined := init + separator + parts[|parts| - 1];
      assert joined[..|parts[0]|] == init[..|parts[0]|];
      joined
  }

  /** Each title written as " " + title + " >", one after the other. */
  function EachMarked(titles: seq<string>): string {
    if titles == [] then ""
    else EachMarked(titles[..|titles| - 1]) + " " + titles[|titles| - 1] + " >"
  }

  /** With a space in front and " >" behind, the titles joined by " > " are each
      title marked with " >". */
  lemma {:induction false} JoinMarksEach(titles: seq<string>)
    requires titles != []
    ensures " " + Join(titles, " > ") + " >" == EachMarked(titles)
  {
    var n := |titles|;
    if n > 1 {
      var init := titles[..n - 1];
      JoinMarksEach(init);
      assert init[..n - 2] == titles[..n - 2];
    }
  }

  /** The ancestor titles joined by " > ", always followed by one more " >": with no
      ancestors the head is " >" alone, otherwise every ancestor title is marked. */
  function Head(ancestorTitles: seq<string>): (head: string)
    ensures ancestorTitles == [] ==> head == " >"
    ensures ancestorTitles != [] ==> " " + head == EachMarked(ancestorTitles)
  {
    if ancestorTitles != [] then JoinMarksEach(ancestorTitles); Join(ancestorTitles, " > ") + " >"
    else Join(ancestorTitles, " > ") + " >"
  }

  const Indent := Segment(Plain, "    ")
  const Space := Segment(Plain, " ")

  function DurationSegment(duration: nat): Segment {
    Segment(Duration, "(" + FromNat(duration) + "ms)")
  }

  /** The line written for one test case. */
  function ResultLine(result: AssertionResult): (line: Line)
    ensures |line| == 8
    ensures line[0] == Indent && line[2] == Space && line[4] == Space && line[6] == Space
    ensures line[1] == Glyph(Classify(result.status))
    ensures line[3] == Segment(HeadStyle(Classify(result.status)), Head(result.ancestorTitles))
    ensures line[5] == Segment(TitleStyle(Classify(result.status)), result.title)
    ensures line[7] == Segment(Duration, "(" + FromNat(result.duration) + "ms)")
  {
    var head := Head(result.ancestorTitles);
    var status := result.status;
    if status == "pending" then
      [Indent, GetStatus(status), Space, Segment(PendingTitle, head), Space,
       Segment(Pending, result.title), Space, DurationSegment(result.duration)]
    else if status == "passed" then
      [Indent, GetStatus(status), Space, Segment(PassedTitle, head), Space,
       Segment(Title, result.title), Space, DurationSegment(result.duration)]
    else
      [Indent, GetStatus(status), Space, Segment(FailedTitle, head), Space,
       Segment(Title, result.title), Space, DurationSegment(result.duration)]
  }

  /** Without styling, the line reads: four spaces, glyph, head, title, "(Nms)". */
  lemma ResultLineText(result: AssertionResult)
    ensures Text(ResultLine(result)) ==
      "    " + GetStatus(result.status).text + " " + Head(result.ancestorTitles) + " "
      + result.title + " (" + FromNat(result.duration) + "ms)"
  {
    var line := ResultLine(result);
    TextOfEight(line);
  }

  /** The glyph and the head share a category, and the title is coloured only in
      that same category: the branch of onTestResult agrees with _getStatus. */
  lemma BranchAgreement(result: AssertionResult)
    ensures var line := ResultLine(result);
      && StyleCategory(line[1].style) == Some(Classify(result.status))
      && StyleCategory(line[3].style) == StyleCategory(line[1].style)
      && (StyleCategory(line[5].style).Some? <==> Classify(result.status) == PendingTest)
      && StyleCategory(line[7].style) == None
  {
  }

  // ---------------------------------------------------------------------------
  // onRunStart
  // ---------------------------------------------------------------------------

  /** The info line of onRunStart: "Found ", the suite count, " test suites". */
  function FoundLine(numTotalTestSuites: nat): (line: Line)
    ensures |line| == 1 && line[0].style == Info && Text(line) == line[0].text
  {
    var line := [Segment(Info, "Found " + FromNat(numTotalTestSuites) + " test suites")];
    assert line[..0] == [];
    assert "" + line[0].text == line[0].text;
    line
  }

  /** The "Found" line holds the numeral of the suite count between its two fixed
      words, so the count reads back from it. */
  lemma {:induction false} FoundLineReadBack(numTotalTestSuites: nat)
    ensures var t := FoundLine(numTotalTestSuites)[0].text;
      && |t| > 18 && t[..6] == "Found " && t[|t| - 12..] == " test suites"
      && t[6..|t| - 12] == FromNat(numTotalTestSuites) && ToNat(t[6..|t| - 12]) == numTotalTestSuites
  {
    var count := FromNat(numTotalTestSuites);
    assert FoundLine(numTotalTestSuites)[0].text == "Found " + count + " test suites";
    FoundTextSlices(count);
    ToNatFromNat(numTotalTestSuites);
  }

  /** The count of a "Found" text sits between its two fixed words. */
  lemma FoundTextSlices(count: string)
    ensures var t := "Found " + count + " test suites";
      && |t| == 18 + |count| && t[..6] == "Found " && t[|t| - 12..] == " test suites"
      && t[6..|t| - 12] == count
  {
    var t := "Found " + count + " test suites";
    assert t[..6 + |count|] == "Found " + count;
  }

  // ---------------------------------------------------------------------------
  // onRunComplete: failure messages, the "Ran" line and the count lines
  // ---------------------------------------------------------------------------

  /** JavaScript truthiness of a failure message: present and non-empty. */
  predicate Truthy(message: Option<string>) {
    message.Some? && message.value != ""
  }

  /** The positions of the test files whose failure message is truthy, ascending. */
  function TruthyIndices(results: seq<TestResult>): (indices: seq<nat>)
    ensures forall k :: 0 <= k < |indices| ==>
      indices[k] < |results| && Truthy(results[indices[k]].failureMessage)
    ensures forall k, l :: 0 <= k < l < |indices| ==> indices[k] < indices[l]
    ensures forall j :: 0 <= j < |results| && Truthy(results[j].failureMessage) ==> j in indices
  {
    if results == [] then []
    else
      var last := |results| - 1;
      var before := TruthyIndices(results[..last]);
      if Truthy(results[last].failureMessage) then before + [last] else before
  }

  /** The lines written for the failure messages of the run's test files. */
  function FailureLines(results: seq<TestResult>): (lines: seq<Line>)
    ensures |lines| == |TruthyIndices(results)|
    ensures forall k :: 0 <= k < |lines| ==>
      lines[k] == [Segment(Plain, results[TruthyIndices(results)[k]].failureMessage.value)]
  {
    if results == [] then []
    else
      var last := |results| - 1;
      var message := results[last].failureMessage;
      FailureLines(results[..last]) + (if Truthy(message) then [[Segment(Plain, message.value)]] else [])
  }

  /** Loop step of WriteFailureMessages: one more test file adds its failure message,
      when truthy, at the end. */
  lemma FailureLinesExtend(results: seq<TestResult>, i: nat)
    requires i < |results|
    ensures FailureLines(results[..i + 1]) == FailureLines(results[..i])
      + (if Truthy(results[i].failureMessage) then [[Segment(Plain, results[i].failureMessage.value)]] else [])
  {
    assert results[..i + 1][..i] == results[..i];
  }

  /** The seconds and the milliseconds of the elapsed time, as plain integers joined
      by "." and followed by " s". */
  function DurationText(seconds: nat, millis: nat): (text: string)
    ensures |text| >= 5 && text[|text| - 2..] == " s"
  {
    FromNat(seconds) + "." + FromNat(millis) + " s"
  }

  /** Both components read back from the duration text, so it determines them. */
  lemma {:induction false} DurationReadBack(seconds: nat, millis: nat)
    ensures ParseDuration(DurationText(seconds, millis)) == Some((seconds, millis))
  {
    var whole, fraction := FromNat(seconds), FromNat(millis);
    var text := DurationText(seconds, millis);
    assert text == whole + "." + fraction + " s";
    var body := text[..|text| - 2];
    assert body == whole + "." + fraction;
    assert body[|whole|] == '.';
    assert forall j :: 0 <= j < |whole| ==> body[j] == whole[j] && IsDigit(body[j]);
    assert IndexOf(body, '.') == Some(|whole|);
    assert body[..|whole|] == whole;
    assert body[|whole| + 1..] == fraction;
    ToNatFromNat(seconds);
    ToNatFromNat(millis);
  }

  /** The first position of c in s. */
  function IndexOf(s: string, c: char): (r: Option<nat>)
    ensures r.Some? ==> r.value < |s| && s[r.value] == c && forall j :: 0 <= j < r.value ==> s[j] != c
    ensures r.None? ==> forall j :: 0 <= j < |s| ==> s[j] != c
  {
    if s == [] then None
    else if s[0] == c then Some(0)
    else match IndexOf(s[1..], c)
      case None => None
      case Some(i) => Some(i + 1)
  }

  /** Reads "{seconds}.{millis} s" back into its two components. */
  function ParseDuration(text: string): Option<(nat, nat)> {
    if |text| < 2 || text[|text| - 2..] != " s" then None
    else
      var body := text[..|text| - 2];
      match IndexOf(body, '.')
      case None => None
      case Some(i) =>
        var whole, fraction := body[..i], body[i + 1..];
        if whole != [] && fraction != [] && IsDigits(whole) && IsDigits(fraction)
        then Some((ToNat(whole), ToNat(fraction)))
        else None
  }

  /** The milliseconds are not padded: 7 ms and 70 ms after 2 s render differently
      from the decimal fractions they read as. */
  lemma DurationNotPadded()
    ensures DurationText(2, 7) == "2.7 s"
    ensures DurationText(2, 70) == "2.70 s"
  {
    assert FromNat(2) == "2" && FromNat(7) == "7";
    assert FromNat(70) == "70" by {
      assert FromNat(70) == FromNat(7) + [DigitChar(0)];
    }
  }

  /** The info line of onRunComplete: "Ran ", the test count, " tests in ", then the
      duration text. Both the count and the duration can be read back from it. */
  function RanLine(numTotalTests: nat, seconds: nat, millis: nat): (line: Line)
    ensures |line| == 1 && line[0].style == Info
  {
    [Segment(Info, "Ran " + FromNat(numTotalTests) + " tests in " + DurationText(seconds, millis))]
  }

  /** The "Ran" line holds the numeral of the test count at a fixed place, so the
      count reads back, and the duration text after it reads back as both components. */
  lemma {:induction false} RanLineReadBack(numTotalTests: nat, seconds: nat, millis: nat)
    ensures var t, k := RanLine(numTotalTests, seconds, millis)[0].text, |FromNat(numTotalTests)|;
      && |t| >= 14 + k && t[4..4 + k] == FromNat(numTotalTests) && ToNat(t[4..4 + k]) == numTotalTests
      && t[..4] == "Ran " && t[4 + k..14 + k] == " tests in "
      && ParseDuration(t[14 + k..]) == Some((seconds, millis))
  {
    RanLineCount(numTotalTests, seconds, millis);
    RanLineDuration(numTotalTests, seconds, millis);
  }

  /** The count half of RanLineReadBack. */
  lemma {:induction false} RanLineCount(numTotalTests: nat, seconds: nat, millis: nat)
    ensures var t, k := RanLine(numTotalTests, seconds, millis)[0].text, |FromNat(numTotalTests)|;
      && |t| >= 14 + k && t[4..4 + k] == FromNat(numTotalTests) && ToNat(t[4..4 + k]) == numTotalTests
      && t[..4] == "Ran " && t[4 + k..14 + k] == " tests in "
  {
    var count, duration := FromNat(numTotalTests), DurationText(seconds, millis);
    assert RanLine(numTotalTests, seconds, millis)[0].text == "Ran " + count + " tests in " + duration;
    RanTextSlices(count, duration);
    ToNatFromNat(numTotalTests);
  }

  /** The duration half of RanLineReadBack. */
  lemma {:induction false} RanLineDuration(numTotalTests: nat, seconds: nat, millis: nat)
    ensures var t, k := RanLine(numTotalTests, seconds, millis)[0].text, |FromNat(numTotalTests)|;
      |t| >= 14 + k && ParseDuration(t[14 + k..]) == Some((seconds, millis))
  {
    var count, duration := FromNat(numTotalTests), DurationText(seconds, millis);
    assert RanLine(numTotalTests, seconds, millis)[0].text == "Ran " + count + " tests in " + duration;
    RanTextSlices(count, duration);
    DurationReadBack(seconds, millis);
  }

  /** The pieces of a "Ran" text sit at fixed offsets from the count's length. */
  lemma RanTextSlices(count: string, duration: string)
    ensures var t, k := "Ran " + count + " tests in " + duration, |count|;
      && |t| == 14 + k + |duration| && t[..4] == "Ran " && t[4..4 + k] == count
      && t[4 + k..14 + k] == " tests in " && t[14 + k..] == duration
  {
    ConcatSlices("Ran ", count, " tests in ", duration);
  }

  /** Each of four concatenated strings is recovered by slicing at the summed lengths. */
  lemma ConcatSlices(a: string, b: string, c: string, d: string)
    ensures var t, i, j, k := a + b + c + d, |a|, |a| + |b|, |a| + |b| + |c|;
      && |t| == k + |d| && t[..i] == a && t[i..j] == b && t[j..k] == c && t[k..] == d
  {
    var t := a + b + c + d;
    assert t == ((a + b) + c) + d;
    assert t[..|a| + |b| + |c|] == (a + b) + c;
    assert (a + b + c)[..|a| + |b|] == a + b;
  }

  /** A count line: the glyph of a status, then " {count} {noun}" in the given style. */
  function TallyLine(status: string, style: Style, count: nat, noun: string): (line: Line)
    ensures |line| == 2 && line[0] == Glyph(Classify(status)) && line[1].style == style
    ensures Text(line) == GetStatus(status).text + " " + FromNat(count) + " " + noun
  {
    var line := [GetStatus(status), Segment(style, " " + FromNat(count) + " " + noun)];
    TextOfTwo(line);
    line
  }

  /** "✔ {count} passing", all in the passed style. */
  function PassingLine(count: nat): (line: Line)
    ensures |line| == 2 && line[0] == Glyph(PassedTest) && line[1].style == Passed
    ensures Text(line) == "✔" + " " + FromNat(count) + " " + "passing"
  {
    TallyLine("passed", Passed, count, "passing")
  }

  /** "✘ {count} failing", all in the failed style. */
  function FailingLine(count: nat): (line: Line)
    ensures |line| == 2 && line[0] == Glyph(FailedTest) && line[1].style == Failed
    ensures Text(line) == "✘" + " " + FromNat(count) + " " + "failing"
  {
    TallyLine("failed", Failed, count, "failing")
  }

  /** "○ {count} pending", all in the pending style. */
  function PendingLine(count: nat): (line: Line)
    ensures |line| == 2 && line[0] == Glyph(PendingTest) && line[1].style == Pending
    ensures Text(line) == "○" + " " + FromNat(count) + " " + "pending"
  {
    TallyLine("pending", Pending, count, "pending")
  }

  function NonZero(n: nat): nat { if n == 0 then 0 else 1 }

  /** The count lines after the "Ran" line: passing, failing, pending in that order,
      each present exactly when its count is non-zero. */
  function CountLines(passed: nat, failed: nat, pending: nat): (lines: seq<Line>)
    ensures |lines| == NonZero(passed) + NonZero(failed) + NonZero(pending)
    ensures passed != 0 ==> lines[0] == PassingLine(passed)
    ensures failed != 0 ==> lines[NonZero(passed)] == FailingLine(failed)
    ensures pending != 0 ==> lines[NonZero(passed) + NonZero(failed)] == PendingLine(pending)
  {
    (if passed != 0 then [PassingLine(passed)] else [])
    + (if failed != 0 then [FailingLine(failed)] else [])
    + (if pending != 0 then [PendingLine(pending)] else [])
  }

  /** Each count line is written exactly when its count is non-zero. */
  lemma CountLinePresence(passed: nat, failed: nat, pending: nat)
    ensures var lines := CountLines(passed, failed, pending);
      && (PassingLine(passed) in lines <==> passed != 0)
      && (FailingLine(failed) in lines <==> failed != 0)
      && (PendingLine(pending) in lines <==> pending != 0)
  {
  }

  /** Concatenation regroups freely; the solver needs this spelled out for the output. */
  lemma AppendAssociates<T>(a: seq<T>, b: seq<T>, c: seq<T>)
    ensures a + b + c == a + (b + c)
  {
  }

  /** Everything onRunComplete writes, in order: one line per truthy failure message,
      the "Ran" line, then the count lines. */
  function SummaryLines(results: AggregatedResult, seconds: nat, millis: nat): seq<Line> {
    FailureLines(results.testResults) + [RanLine(results.numTotalTests, seconds, millis)]
      + CountLines(results.numPassedTests, results.numFailedTests, results.numPendingTests)
  }

  /** Where each part of the summary sits: the messages of the truthy failures first,
      in input order, then the "Ran" line, then the count lines. */
  lemma SummaryLayout(results: AggregatedResult, seconds: nat, millis: nat)
    ensures var lines, failures := SummaryLines(results, seconds, millis), TruthyIndices(results.testResults);
      && |lines| == |failures| + 1
        + NonZero(results.numPassedTests) + NonZero(results.numFailedTests) + NonZero(results.numPendingTests)
      && (forall k :: 0 <= k < |failures| ==>
            lines[k] == [Segment(Plain, results.testResults[failures[k]].failureMessage.value)])
      && lines[|failures|] == RanLine(results.numTotalTests, seconds, millis)
      && lines[|failures| + 1..]
         == CountLines(results.numPassedTests, results.numFailedTests, results.numPendingTests)
  {
    var failures := FailureLines(results.testResults);
    assert SummaryLines(results, seconds, millis)[|failures| + 1..]
      == CountLines(results.numPassedTests, results.numFailedTests, results.numPendingTests);
  }

  /** With every count zero, no count line at all. */
  lemma NoCountLinesWhenAllZero()
    ensures CountLines(0, 0, 0) == []
  {
  }

  // ---------------------------------------------------------------------------
  // Example runs
  // ---------------------------------------------------------------------------

  lemma ExampleFoundThreeSuites()
    ensures Text(FoundLine(3)) == "Found " + "3" + " test suites"
  {
    assert FromNat(3) == "3";
  }

  lemma ExampleNestedPassedTest()
    ensures Text(ResultLine(AssertionResult(["Math", "Addition"], "adds two numbers", "passed", 12)))
      == "    " + "✔" + " " + "Math > Addition >" + " " + "adds two numbers" + " (" + "12" + "ms)"
  {
    var ancestors := ["Math", "Addition"];
    assert ancestors[..1] == ["Math"];
    assert Head(ancestors) == "Math > Addition >";
    assert FromNat(12) == "12" by {
      assert FromNat(12) == FromNat(1) + [DigitChar(2)];
    }
    ResultLineText(AssertionResult(ancestors, "adds two numbers", "passed", 12));
  }

  lemma ExampleUnknownStatus()
    ensures ResultLine(AssertionResult([], "t", "skipped", 0))[1] == Segment(Failed, "✘")
    ensures ResultLine(AssertionResult([], "t", "skipped", 0))[3] == Segment(FailedTitle, " >")
  {
  }

  lemma ExampleFivePassedTwoPending()
    ensures CountLines(5, 0, 2) == [PassingLine(5), PendingLine(2)]
    ensures Text(CountLines(5, 0, 2)[0]) == "✔ 5 passing"
    ensures Text(CountLines(5, 0, 2)[1]) == "○ 2 pending"
  {
    assert CountLines(5, 0, 2) == [PassingLine(5)] + [] + [PendingLine(2)];
    FivePassingText();
    TwoPendingText();
  }

  lemma FivePassingText()
    ensures Text(PassingLine(5)) == "✔ 5 passing"
  {
    assert FromNat(5) == "5";
    assert "✔" + " " + "5" + " " + "passing" == "✔ 5 passing";
  }

  lemma TwoPendingText()
    ensures Text(PendingLine(2)) == "○ 2 pending"
  {
    assert FromNat(2) == "2";
    assert "○" + " " + "2" + " " + "pending" == "○ 2 pending";
  }

  lemma ExampleOneFailure(seconds: nat, millis: nat)
    ensures var summary := AggregatedResult(1, 0, 0, [TestResult(Some("Expected 2 to equal 3"))], 1);
      SummaryLines(summary, seconds, millis) == [[Segment(Plain, "Expected 2 to equal 3")],
          RanLine(1, seconds, millis), FailingLine(1)]
    ensures RanLine(1, seconds, millis) == [Segment(Info, "Ran 1 tests in " + DurationText(seconds, millis))]
  {
    var results := [TestResult(Some("Expected 2 to equal 3"))];
    assert results[..0] == [];
    assert FailureLines(results) == [[Segment(Plain, "Expected 2 to equal 3")]];
    assert FromNat(1) == "1";
    assert "Ran " + "1" + " tests in " == "Ran 1 tests in ";
    assert RanLine(1, seconds, millis) == [Segment(Info, "Ran 1 tests in " + DurationText(seconds, millis))];
    assert CountLines(0, 1, 0) == [FailingLine(1)];
  }

  // ---------------------------------------------------------------------------
  // The reporter
  // ---------------------------------------------------------------------------

  /** The reporter object. Its two configuration values are stored and never read;
      `output` holds, in order, the lines its handlers have written. */
  class JestSpecReporter<G, O> {
    const globalConfig: G
    const options: O
    var output: seq<Line>

    constructor (globalConfig: G, options: O)
      ensures this.globalConfig == globalConfig && this.options == options
      ensures output == []
    {
      this.globalConfig := globalConfig;
      this.options := options;
      output := [];
    }

    /** An empty line, then the number of test suites found. */
    method OnRunStart(numTotalTestSuites: nat)
      modifies this`output
      ensures output == old(output) + [[], FoundLine(numTotalTestSuites)]
    {
      output := output + [[]];
      output := output + [FoundLine(numTotalTestSuites)];
    }

    /** One line per test case of a finished test file, in input order. */
    method OnTestResult(testResults: seq<AssertionResult>)
      modifies this`output
      ensures |output| == |old(output)| + |testResults|
      ensures output[..|old(output)|] == old(output)
      ensures forall i :: 0 <= i < |testResults| ==>
        output[|old(output)| + i] == ResultLine(testResults[i])
    {
      var i := 0;
      while i < |testResults|
        invariant 0 <= i <= |testResults|
        invariant |output| == |old(output)| + i
        invariant output[..|old(output)|] == old(output)
        invariant forall k :: 0 <= k < i ==> output[|old(output)| + k] == ResultLine(testResults[k])
      {
        output := output + [ResultLine(testResults[i])];
        i := i + 1;
      }
    }

    /** The failure messages, the "Ran" line, then the non-zero counts. The elapsed
        time arrives as its seconds and milliseconds components. */
    method OnRunComplete(results: AggregatedResult, seconds: nat, millis: nat)
      modifies this`output
      ensures output == old(output) + SummaryLines(results, seconds, millis)
    {
      WriteFailureMessages(results.testResults);
      output := output + [RanLine(results.numTotalTests, seconds, millis)];
      WriteCounts(results.numPassedTests, results.numFailedTests, results.numPendingTests);
      var failures, ran := FailureLines(results.testResults), [RanLine(results.numTotalTests, seconds, millis)];
      var counts := CountLines(results.numPassedTests, results.numFailedTests, results.numPendingTests);
      AppendAssociates(old(output) + failures, ran, counts);
      AppendAssociates(old(output), failures, ran + counts);
      AppendAssociates(failures, ran, counts);
    }

    /** The failure message of every test file whose message is truthy, in order. */
    method WriteFailureMessages(testResults: seq<TestResult>)
      modifies this`output
      ensures output == old(output) + FailureLines(testResults)
    {
      var i := 0;
      while i < |testResults|
        invariant 0 <= i <= |testResults|
        invariant output == old(output) + FailureLines(testResults[..i])
      {
        var failureMessage := testResults[i].failureMessage;
        if Truthy(failureMessage) {
          output := output + [[Segment(Plain, failureMessage.value)]];
        }
        FailureLinesExtend(testResults, i);
        AppendAssociates(old(output), FailureLines(testResults[..i]),
          if Truthy(failureMessage) then [[Segment(Plain, failureMessage.value)]] else []);
        i := i + 1;
      }
      assert testResults[..i] == testResults;
    }

    /** The count lines of onRunComplete, each written only when its count is non-zero. */
    method WriteCounts(numPassedTests: nat, numFailedTests: nat, numPendingTests: nat)
      modifies this`output
      ensures output == old(output) + CountLines(numPassedTests, numFailedTests, numPendingTests)
    {
      if numPassedTests != 0 {
        output := output + [PassingLine(numPassedTests)];
      }
      if numFailedTests != 0 {
        output := output + [FailingLine(numFailedTests)];
      }
      if numPendingTests != 0 {
        output := output + [PendingLine(numPendingTests)];
      }
    }
  }

  /** What a fresh reporter writes for a run summary: exactly the summary lines. */
  method RenderSummary<G, O>(globalConfig: G, options: O, results: AggregatedResult,
                             seconds: nat, millis: nat)
    returns (lines: seq<Line>)
    ensures lines == SummaryLines(results, seconds, millis)
  {
    var reporter := new JestSpecReporter(globalConfig, options);
    reporter.OnRunComplete(results, seconds, millis);
    lines := reporter.output;
    assert lines == [] + SummaryLines(results, seconds, millis);
  }

  /** Rendering the same summary on two reporters writes the same lines: apart from
      the clock, which arrives as the seconds and millis parameters, no hidden state
      changes what is written. */
  method RenderSummaryTwice<G, O>(globalConfig: G, options: O, results: AggregatedResult,
                                  seconds: nat, millis: nat)
    returns (first: seq<Line>, second: seq<Line>)
    ensures first == second == SummaryLines(results, seconds, millis)
  {
    first := RenderSummary(globalConfig, options, results, seconds, millis);
    second := RenderSummary(globalConfig, options, results, seconds, millis);
  }
}
