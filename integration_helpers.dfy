/**
  The reference helpers of the OpenAI integration tests
  (`__tests__/openai-integration.test.ts`): course-info and assignment validators, the
  retry test, the week-number partition, the single-item week-to-date conversion and its
  array form, the semester-length check, the prompt compaction and the test's own model
  choice. Each is related to the library operation it mirrors.
*/
module IntegrationHelpers {
  import opened Options
  import opened JsString
  import opened Calendar
  import opened SyllabusTypes
  import opened WeekConversion
  import FileProcessor
  import SyllabusParser

  // ---- validateCourseInfo ----

  datatype CourseInfoCheck = CourseInfoCheck(isValid: bool, completeness: real)

  const CheckedFields: seq<string> := ["name", "code", "instructor"]

  /** `courseInfo[field] && courseInfo[field].length > 0`. */
  predicate FieldPresent(info: CourseInfo, field: string) {
    if field == "name" then info.name != ""
    else if field == "code" then Filled(info.code)
    else if field == "instructor" then Filled(info.instructor)
    else false
  }

  /** `fields.filter(field => ...)`. */
  function PresentFields(info: CourseInfo, fields: seq<string>): (r: seq<string>)
    ensures |r| <= |fields|
    ensures forall f :: f in r <==> f in fields && FieldPresent(info, f)
  {
    if fields == [] then []
    else (if FieldPresent(info, fields[0]) then [fields[0]] else []) + PresentFields(info, fields[1..])
  }

  /** The number of filled fields among name, code and instructor. */
  function FilledCount(info: CourseInfo): nat {
    (if info.name != "" then 1 else 0) + (if Filled(info.code) then 1 else 0)
    + (if Filled(info.instructor) then 1 else 0)
  }

  lemma {:induction false} PresentFieldsCount(info: CourseInfo)
    ensures |PresentFields(info, CheckedFields)| == FilledCount(info)
  {
    assert "code" != "name" && "instructor" != "name" && "instructor" != "code" by {
      assert "code"[0] == 'c' && "name"[0] == 'n' && |"instructor"| == 10;
    }
    var last := PresentFields(info, ["instructor"]);
    assert last == (if Filled(info.instructor) then ["instructor"] else []) by {
      assert ["instructor"][1..] == [];
    }
    var two := PresentFields(info, ["code", "instructor"]);
    assert two == (if Filled(info.code) then ["code"] else []) + last by {
      assert ["code", "instructor"][1..] == ["instructor"];
    }
    assert CheckedFields[1..] == ["code", "instructor"];
    assert PresentFields(info, CheckedFields) == (if info.name != "" then ["name"] else []) + two;
  }

  /** Valid when at least one of name, code and instructor is filled; the completeness is
      the filled fraction of the three. */
  function ValidateCourseInfo(info: CourseInfo): (r: CourseInfoCheck)
    ensures r.isValid <==> info.name != "" || Filled(info.code) || Filled(info.instructor)
    ensures r.completeness * 3.0 == FilledCount(info) as real
    ensures 0.0 <= r.completeness <= 1.0
    ensures r.completeness == 1.0 <==> info.name != "" && Filled(info.code) && Filled(info.instructor)
    ensures r.completeness == 0.0 <==> !r.isValid
  {
    PresentFieldsCount(info);
    var present := |PresentFields(info, CheckedFields)|;
    CourseInfoCheck(present >= 1, present as real / 3.0)
  }

  /** A course info that earns the quality analysis's completeness strength has at least
      two checked fields and so is valid here; a fully complete one earns at least 20
      points there. */
  lemma {:induction false} CourseInfoAgreesWithRubric(info: CourseInfo)
    ensures SyllabusParser.CourseInfoPoints(info) >= 20 ==> ValidateCourseInfo(info).completeness >= 2.0 / 3.0
    ensures ValidateCourseInfo(info).completeness == 1.0 ==> SyllabusParser.CourseInfoPoints(info) >= 20
  {
  }

  // ---- validateAssignment ----

  const ValidTypes: set<string> := {"homework", "exam", "project", "quiz", "reading", "lab"}

  const TitleTooShort := "Assignment title is too short"
  const NoWeekOrDate := "Assignment must have either " + "week number or specific date"
  const WeekOutOfRange := "Week number must be between 1 and 20"

  function InvalidType(kind: string): string {
    "Invalid assignment type: " + kind
  }

  /** `title.length < 3`, with the length in UTF-16 code units. */
  predicate ShortTitle(a: Assignment) {
    Utf16Length(a.title) < 3
  }

  predicate Undated(a: Assignment) {
    !HasWeek(a) && !HasSpecificDate(a)
  }

  /** A truthy week outside 1 to 20 (a week 0 is falsy and not checked). */
  predicate WeekOffRange(a: Assignment) {
    HasWeek(a) && (a.week.value < 1 || a.week.value > 20)
  }

  predicate UnknownType(a: Assignment) {
    a.kind !in ValidTypes
  }

  /** Two emoji are four code units, so a two-emoji title is long enough. */
  lemma {:induction false} AstralTitleLength(a: Assignment)
    requires a.title == "\U{1F600}\U{1F600}"
    ensures !ShortTitle(a)
  {
    AstralLength(a.title);
  }

  function Flag(b: bool): nat {
    if b then 1 else 0
  }

  /** The four checks in turn, one message per failed check. */
  method ValidateAssignment(a: Assignment) returns (isValid: bool, errors: seq<string>)
    ensures isValid <==> errors == []
    ensures isValid <==> !ShortTitle(a) && !Undated(a) && !WeekOffRange(a) && !UnknownType(a)
    ensures TitleTooShort in errors <==> ShortTitle(a)
    ensures NoWeekOrDate in errors <==> Undated(a)
    ensures WeekOutOfRange in errors <==> WeekOffRange(a)
    ensures InvalidType(a.kind) in errors <==> UnknownType(a)
    ensures |errors| == Flag(ShortTitle(a)) + Flag(Undated(a)) + Flag(WeekOffRange(a)) + Flag(UnknownType(a))
    ensures forall e :: e in errors ==>
      e == TitleTooShort || e == NoWeekOrDate || e == WeekOutOfRange || e == InvalidType(a.kind)
  {
    MessagesDistinct(a.kind);
    errors := [];
    if a.title == "" || Utf16Length(a.title) < 3 {
      errors := errors + [TitleTooShort];
    }
    if !HasWeek(a) && !HasSpecificDate(a) {
      errors := errors + [NoWeekOrDate];
    }
    if HasWeek(a) && (a.week.value < 1 || a.week.value > 20) {
      errors := errors + [WeekOutOfRange];
    }
    if a.kind !in ValidTypes {
      errors := errors + [InvalidType(a.kind)];
    }
    isValid := |errors| == 0;
  }

  lemma {:induction false} MessagesDistinct(kind: string)
    ensures TitleTooShort != NoWeekOrDate && TitleTooShort != WeekOutOfRange && NoWeekOrDate != WeekOutOfRange
    ensures InvalidType(kind) != TitleTooShort && InvalidType(kind) != NoWeekOrDate
    ensures InvalidType(kind) != WeekOutOfRange
  {
    assert |TitleTooShort| == 29 && |NoWeekOrDate| == 56 && |WeekOutOfRange| == 36;
    assert NoWeekOrDate[0] == "Assignment must have either "[0];
    assert InvalidType(kind)[0] == 'I';
    assert TitleTooShort[0] == 'A';
    assert NoWeekOrDate[0] == 'A';
    assert WeekOutOfRange[0] == 'W';
  }

  // ---- shouldRetryParsing ----

  predicate ShouldRetryParsing(data: SyllabusData) {
    data.parsingConfidence < 0.7 || |data.assignments| == 0
  }

  /** A parse the test would retry never scores full marks in the quality analysis, and a
      parse it keeps has the moderate confidence points and the assignment points; the
      retry threshold is the parser's default low-confidence threshold. */
  lemma {:induction false} RetryAgreesWithRubric(data: SyllabusData)
    ensures ShouldRetryParsing(data) <==>
      data.parsingConfidence < SyllabusParser.DefaultConfidenceThreshold || data.assignments == []
    ensures ShouldRetryParsing(data) ==> !SyllabusParser.Exemplary(data)
    ensures !ShouldRetryParsing(data) ==>
      SyllabusParser.ConfidencePoints(data.parsingConfidence) >= 15
      && SyllabusParser.AssignmentPoints(data.assignments) >= 20
  {
  }

  // ---- validateWeekNumbers ----

  datatype WeekVerdict = InRange | BelowOne | BeyondLength

  /** A truthy week below 1 or beyond the semester length is rejected; an assignment
      without a truthy week is kept. */
  function VerdictOf(a: Assignment, semesterLength: int): (v: WeekVerdict)
    ensures v != InRange ==> HasWeek(a)
  {
    if !HasWeek(a) then InRange
    else if a.week.value < 1 then BelowOne
    else if a.week.value > semesterLength then BeyondLength
    else InRange
  }

  function WeekError(a: Assignment, v: WeekVerdict): string
    requires v != InRange ==> HasWeek(a)
  {
    match v
    case BelowOne => "Week " + IntToString(a.week.value) + " is invalid"
    case BeyondLength => "Week " + IntToString(a.week.value) + " exceeds semester length"
    case InRange => ""
  }

  function KeptByWeek(assignments: seq<Assignment>, semesterLength: int): seq<Assignment> {
    if assignments == [] then []
    else
      var last := assignments[|assignments| - 1];
      KeptByWeek(assignments[..|assignments| - 1], semesterLength)
      + (if VerdictOf(last, semesterLength) == InRange then [last] else [])
  }

  function RejectedByWeek(assignments: seq<Assignment>, semesterLength: int): seq<Assignment> {
    if assignments == [] then []
    else
      var last := assignments[|assignments| - 1];
      RejectedByWeek(assignments[..|assignments| - 1], semesterLength)
      + (if VerdictOf(last, semesterLength) != InRange then [last] else [])
  }

  function WeekErrors(assignments: seq<Assignment>, semesterLength: int): seq<string> {
    if assignments == [] then []
    else
      var last := assignments[|assignments| - 1];
      var v := VerdictOf(last, semesterLength);
      WeekErrors(assignments[..|assignments| - 1], semesterLength)
      + (if v != InRange then [WeekError(last, v)] else [])
  }

  /** Appending one assignment extends each of the three lists by that assignment's share. */
  lemma {:induction false} WeekSnoc(s: seq<Assignment>, a: Assignment, semesterLength: int)
    ensures KeptByWeek(s + [a], semesterLength)
            == KeptByWeek(s, semesterLength) + (if VerdictOf(a, semesterLength) == InRange then [a] else [])
    ensures RejectedByWeek(s + [a], semesterLength)
            == RejectedByWeek(s, semesterLength) + (if VerdictOf(a, semesterLength) != InRange then [a] else [])
    ensures WeekErrors(s + [a], semesterLength)
            == WeekErrors(s, semesterLength)
               + (if VerdictOf(a, semesterLength) != InRange then [WeekError(a, VerdictOf(a, semesterLength))] else [])
  {
    assert (s + [a])[..|s|] == s;
  }

  datatype WeekPartition = WeekPartition(valid: seq<Assignment>, invalid: seq<Assignment>, errors: seq<string>)

  /** `validateWeekNumbers`: one pass pushing each assignment to the valid or the
      invalid list, with an error for each invalid one. */
  method ValidateWeekNumbers(assignments: seq<Assignment>, semesterLength: int) returns (r: WeekPartition)
    ensures r == WeekPartition(KeptByWeek(assignments, semesterLength), RejectedByWeek(assignments, semesterLength),
                               WeekErrors(assignments, semesterLength))
  {
    var valid: seq<Assignment> := [];
    var invalid: seq<Assignment> := [];
    var errors: seq<string> := [];
    var i := 0;
    while i < |assignments|
      invariant 0 <= i <= |assignments|
      invariant valid == KeptByWeek(assignments[..i], semesterLength)
      invariant invalid == RejectedByWeek(assignments[..i], semesterLength)
      invariant errors == WeekErrors(assignments[..i], semesterLength)
    {
      var a := assignments[i];
      assert assignments[..i + 1] == assignments[..i] + [a];
      WeekSnoc(assignments[..i], a, semesterLength);
      if HasWeek(a) {
        if a.week.value < 1 {
          invalid := invalid + [a];
          errors := errors + ["Week " + IntToString(a.week.value) + " is invalid"];
        } else if a.week.value > semesterLength {
          invalid := invalid + [a];
          errors := errors + ["Week " + IntToString(a.week.value) + " exceeds semester length"];
        } else {
          valid := valid + [a];
        }
      } else {
        valid := valid + [a];
      }
      i := i + 1;
    }
    assert assignments[..i] == assignments;
    r := WeekPartition(valid, invalid, errors);
  }

  /** The two lists partition the input; the kept ones are in range and the rejected
      ones are not. */
  lemma {:induction false} WeekPartitionMeaning(assignments: seq<Assignment>, semesterLength: int)
    ensures var kept := KeptByWeek(assignments, semesterLength);
      var rejected := RejectedByWeek(assignments, semesterLength);
      && multiset(kept) + multiset(rejected) == multiset(assignments)
      && (forall a :: a in kept ==> VerdictOf(a, semesterLength) == InRange)
      && (forall a :: a in rejected ==> VerdictOf(a, semesterLength) != InRange)
  {
    WeekPartitionCounts(assignments, semesterLength);
    WeekPartitionVerdicts(assignments, semesterLength);
  }

  lemma {:induction false} WeekPartitionCounts(assignments: seq<Assignment>, semesterLength: int)
    ensures multiset(KeptByWeek(assignments, semesterLength)) + multiset(RejectedByWeek(assignments, semesterLength))
            == multiset(assignments)
  {
    if assignments != [] {
      var init := assignments[..|assignments| - 1];
      var last := assignments[|assignments| - 1];
      assert assignments == init + [last];
      WeekPartitionCounts(init, semesterLength);
      WeekSnoc(init, last, semesterLength);
    }
  }

  lemma {:induction false} WeekPartitionVerdicts(assignments: seq<Assignment>, semesterLength: int)
    ensures forall a :: a in KeptByWeek(assignments, semesterLength) ==> VerdictOf(a, semesterLength) == InRange
    ensures forall a :: a in RejectedByWeek(assignments, semesterLength) ==> VerdictOf(a, semesterLength) != InRange
  {
    if assignments != [] {
      WeekPartitionVerdicts(assignments[..|assignments| - 1], semesterLength);
    }
  }

  /** There is one error per rejected assignment, in the same order, describing it. */
  lemma {:induction false} WeekErrorsDescribeRejected(assignments: seq<Assignment>, semesterLength: int)
    ensures var rejected := RejectedByWeek(assignments, semesterLength);
      var errors := WeekErrors(assignments, semesterLength);
      && |errors| == |rejected|
      && (forall i :: 0 <= i < |errors| ==> errors[i] == WeekError(rejected[i], VerdictOf(rejected[i], semesterLength)))
  {
    if assignments != [] {
      WeekErrorsDescribeRejected(assignments[..|assignments| - 1], semesterLength);
    }
  }

  /** The two rejection messages for weeks 25 and -1, spelled out. */
  lemma {:induction false} RejectionTexts()
    ensures "Week " + IntToString(25) + " exceeds semester length" == "Week 25 exceeds semester length"
    ensures "Week " + IntToString(-1) + " is invalid" == "Week -1 is invalid"
  {
    TensSplit(25, 2, 5);
    assert NatToString(25) == NatToString(2) + [DigitChar(5)];
    assert NatToString(25) == "25";
    assert NatToString(1) == "1";
    assert IntToString(25) == "25" && IntToString(-1) == "-1";
  }

  /** How weeks 3, 25 and -1 are sorted against a 16-week semester. */
  lemma {:induction false} WeekVerdictsExample(a3: Assignment, a25: Assignment, aMinus: Assignment)
    requires a3.week == Some(3) && a25.week == Some(25) && aMinus.week == Some(-1)
    ensures KeptByWeek([a3, a25, aMinus], 16) == [a3]
    ensures RejectedByWeek([a3, a25, aMinus], 16) == [a25, aMinus]
    ensures WeekErrors([a3, a25, aMinus], 16) == [WeekError(a25, BeyondLength), WeekError(aMinus, BelowOne)]
  {
    assert VerdictOf(a3, 16) == InRange && VerdictOf(a25, 16) == BeyondLength && VerdictOf(aMinus, 16) == BelowOne;
    WeekSnoc([], a3, 16);
    assert [] + [a3] == [a3];
    WeekSnoc([a3], a25, 16);
    assert [a3] + [a25] == [a3, a25];
    WeekSnoc([a3, a25], aMinus, 16);
    assert [a3, a25] + [aMinus] == [a3, a25, aMinus];
  }

  /** Weeks 3, 25 and -1 against a 16-week semester: week 3 is kept, and the other two are
      rejected with their messages. */
  lemma {:induction false} WeekNumbersExample()
    ensures var a3 := Assignment("A3", Some(3), None, "homework", None, None, None);
      var a25 := Assignment("A25", Some(25), None, "homework", None, None, None);
      var aMinus := Assignment("A-1", Some(-1), None, "homework", None, None, None);
      && KeptByWeek([a3, a25, aMinus], 16) == [a3]
      && RejectedByWeek([a3, a25, aMinus], 16) == [a25, aMinus]
      && WeekErrors([a3, a25, aMinus], 16) == ["Week 25 exceeds semester length", "Week -1 is invalid"]
  {
    var a3 := Assignment("A3", Some(3), None, "homework", None, None, None);
    var a25 := Assignment("A25", Some(25), None, "homework", None, None, None);
    var aMinus := Assignment("A-1", Some(-1), None, "homework", None, None, None);
    WeekVerdictsExample(a3, a25, aMinus);
    RejectionTexts();
  }

  // ---- convertWeeksToDate (one assignment) and convertWeeksToDateArray ----

  /** The assignment with a `due_date`, or as it was. */
  datatype Converted = WithDueDate(assignment: Assignment, dueDate: string) | AsGiven(assignment: Assignment)

  /** The test's single-item conversion. `None` stands for the `RangeError` that
      `toISOString` throws when the start text does not read as a date. */
  function ConvertOne(a: Assignment, semesterStart: string): (r: Option<Converted>)
    ensures r.Some? ==> r.value.assignment == a
    ensures r.None? <==> !HasSpecificDate(a) && HasWeek(a) && ParseIsoDate(semesterStart).None?
    ensures r.Some? && HasSpecificDate(a) ==> r.value == WithDueDate(a, a.specificDate.value)
    ensures r.Some? ==> (r.value.AsGiven? <==> !HasSpecificDate(a) && !HasWeek(a))
  {
    if HasSpecificDate(a) then Some(WithDueDate(a, a.specificDate.value))
    else if HasWeek(a) then
      match ParseIsoDate(semesterStart)
      case None => None
      case Some(start) => Some(WithDueDate(a, FormatIsoDate(AddDays(start, (a.week.value - 1) * 7))))
    else Some(AsGiven(a))
  }

  /** Against a readable start, the test's conversion gives the library resolver's due
      date whenever it gives one; where it leaves the assignment as it was, the library
      falls back to the start text. */
  lemma {:induction false} ConvertOneAgreesWithResolver(a: Assignment, semesterStart: string)
    requires ParseIsoDate(semesterStart).Some?
    ensures ConvertOne(a, semesterStart).Some?
    ensures var c := ConvertOne(a, semesterStart).value;
      var due := DueDate(a, ParseIsoDate(semesterStart).value, semesterStart);
      (c.WithDueDate? ==> c.dueDate == due) && (c.AsGiven? ==> due == semesterStart)
  {
  }

  /** The asserted examples: from 2024-09-01 weeks 1, 3 and 8 fall on 2024-09-01,
      2024-09-15 and 2024-10-20; from 2024-09-02 week 2 falls on 2024-09-09; a specific
      date wins. */
  lemma {:induction false} ConvertOneExamples()
    ensures ConvertOne(Assignment("Homework 1", Some(1), None, "homework", None, None, None), "2024-09-01")
            == Some(WithDueDate(Assignment("Homework 1", Some(1), None, "homework", None, None, None), "2024-09-01"))
    ensures ConvertOne(Assignment("Homework 3", Some(3), None, "homework", None, None, None), "2024-09-01").value.dueDate
            == "2024-09-15"
    ensures ConvertOne(Assignment("Midterm", Some(8), None, "exam", None, None, None), "2024-09-01").value.dueDate
            == "2024-10-20"
    ensures ConvertOne(Assignment("Project", Some(5), Some("2024-10-15"), "project", None, None, None), "2024-09-01").value.dueDate
            == "2024-10-15"
  {
    FallSemesterExamples();
    ConvertOneAgreesWithResolver(Assignment("Homework 1", Some(1), None, "homework", None, None, None), "2024-09-01");
    ConvertOneAgreesWithResolver(Assignment("Homework 3", Some(3), None, "homework", None, None, None), "2024-09-01");
    ConvertOneAgreesWithResolver(Assignment("Midterm", Some(8), None, "exam", None, None, None), "2024-09-01");
  }

  /** Week 2 from 2024-09-02 falls on 2024-09-09. */
  lemma {:induction false} ConvertOneSecondStartExample()
    ensures ConvertOne(Assignment("Quiz", Some(2), None, "quiz", None, None, None), "2024-09-02").value.dueDate
            == "2024-09-09"
  {
    FallSemesterExamples();
    FormatIsoDateDigits(Date(2024, 9, 2), 2, 0, 2, 4, 0, 9, 0, 2);
    ReadsAsDate(Date(2024, 9, 2), "2024-09-02");
    ConvertOneAgreesWithResolver(Assignment("Quiz", Some(2), None, "quiz", None, None, None), "2024-09-02");
  }

  /** A text that is some date's rendering reads back as that date. */
  lemma {:induction false} ReadsAsDate(d: Date, text: string)
    requires Valid(d) && 0 <= d.year <= 9999 && FormatIsoDate(d) == text
    ensures ParseIsoDate(text) == Some(d)
  {
    ParseFormatRoundTrip(d);
  }

  /** `assignments.map(...)`: one result per assignment in order, or `None` when any
      conversion throws. */
  function ConvertWeeksToDateArray(assignments: seq<Assignment>, semesterStart: string): (r: Option<seq<Converted>>)
    ensures r.Some? <==> forall i :: 0 <= i < |assignments| ==> ConvertOne(assignments[i], semesterStart).Some?
    ensures r.Some? ==> |r.value| == |assignments|
    ensures r.Some? ==> forall i :: 0 <= i < |assignments| ==> r.value[i] == ConvertOne(assignments[i], semesterStart).value
  {
    if assignments == [] then Some([])
    else
      match ConvertOne(assignments[0], semesterStart)
      case None => None
      case Some(c) =>
        match ConvertWeeksToDateArray(assignments[1..], semesterStart)
        case None =>
          assert exists i :: 0 <= i < |assignments| && ConvertOne(assignments[i], semesterStart).None? by {
            var j :| 0 <= j < |assignments[1..]| && ConvertOne(assignments[1..][j], semesterStart).None?;
            assert assignments[j + 1] == assignments[1..][j];
          }
          None
        case Some(rest) =>
          assert forall i :: 1 <= i < |assignments| ==> assignments[i] == assignments[1..][i - 1];
          Some([c] + rest)
  }

  /** Against a readable start the array conversion never throws. */
  lemma {:induction false} ArrayConversionTotal(assignments: seq<Assignment>, semesterStart: string)
    requires ParseIsoDate(semesterStart).Some?
    ensures ConvertWeeksToDateArray(assignments, semesterStart).Some?
  {
  }

  // ---- validateWeekAgainstSemester ----

  datatype SemesterCheck = SemesterCheck(isValid: bool, adjustedWeek: Option<int>)

  /** `Math.ceil(n / 7)` for an integer `n`. */
  function CeilDiv7(n: int): (q: int)
    ensures 7 * (q - 1) < n <= 7 * q
  {
    -((-n) / 7)
  }

  /** A truthy week beyond the number of (partly) covered weeks is invalid, with that
      number as the adjusted week. A start or end text that does not read as a date makes
      the comparison with `NaN` false, so the week passes. */
  function ValidateWeekAgainstSemester(a: Assignment, semesterStart: string, semesterEnd: string): (r: SemesterCheck)
    ensures r.isValid <==> r.adjustedWeek.None?
    ensures !HasWeek(a) || ParseIsoDate(semesterStart).None? || ParseIsoDate(semesterEnd).None? ==>
      r == SemesterCheck(true, None)
    ensures r.adjustedWeek.Some? ==> HasWeek(a) && a.week.value > r.adjustedWeek.value
  {
    if !HasWeek(a) then SemesterCheck(true, None)
    else
      match (ParseIsoDate(semesterStart), ParseIsoDate(semesterEnd))
      case (Some(start), Some(end)) =>
        var maxWeeks := CeilDiv7(DaysBetween(start, end));
        if a.week.value > maxWeeks then SemesterCheck(false, Some(maxWeeks)) else SemesterCheck(true, None)
      case _ => SemesterCheck(true, None)
  }

  /** With both dates readable, week `w` is valid exactly when its first day, `w - 1`
      weeks after the start, comes before the end date; an invalid week is adjusted to
      the number of weeks the semester touches. */
  lemma {:induction false} WeekWithinSemesterIff(a: Assignment, semesterStart: string, semesterEnd: string)
    requires HasWeek(a) && ParseIsoDate(semesterStart).Some? && ParseIsoDate(semesterEnd).Some?
    ensures var start := ParseIsoDate(semesterStart).value;
      var end := ParseIsoDate(semesterEnd).value;
      var r := ValidateWeekAgainstSemester(a, semesterStart, semesterEnd);
      && (r.isValid <==> DayNumber(AddDays(start, 7 * (a.week.value - 1))) < DayNumber(end))
      && (!r.isValid ==> r.adjustedWeek == Some(CeilDiv7(DaysBetween(start, end))))
  {
    var start := ParseIsoDate(semesterStart).value;
    AddDaysShiftsDayNumber(start, 7 * (a.week.value - 1));
  }

  /** 2024-09-01 to 2024-12-15 spans 105 days, so 15 weeks: week 20 is invalid and
      adjusted to 15. */
  lemma {:induction false} FallSemesterLengthExample()
    ensures ValidateWeekAgainstSemester(Assignment("Final", Some(20), None, "exam", None, None, None),
                                        "2024-09-01", "2024-12-15") == SemesterCheck(false, Some(15))
  {
    var start, end := Date(2024, 9, 1), Date(2024, 12, 15);
    FallRenderings();
    ReadsAsDate(start, "2024-09-01");
    FormatIsoDateDigits(end, 2, 0, 2, 4, 1, 2, 1, 5);
    assert FormatIsoDate(end) == "2024-12-15";
    ReadsAsDate(end, "2024-12-15");
    FallSemesterSpan();
    DaysBetweenAddDays(start, 105);
    assert CeilDiv7(105) == 15;
    SemesterCheckOfSpan(Assignment("Final", Some(20), None, "exam", None, None, None),
                        "2024-09-01", "2024-12-15", start, end, 105);
  }

  /** Against readable start and end dates the check compares the week with the number of
      weeks the span covers, rounded up. */
  lemma {:induction false} SemesterCheckOfSpan(a: Assignment, semesterStart: string, semesterEnd: string,
                                               start: Date, end: Date, span: int)
    requires HasWeek(a) && Valid(start) && Valid(end)
    requires ParseIsoDate(semesterStart) == Some(start) && ParseIsoDate(semesterEnd) == Some(end)
    requires DaysBetween(start, end) == span
    ensures ValidateWeekAgainstSemester(a, semesterStart, semesterEnd)
            == if a.week.value > CeilDiv7(span) then SemesterCheck(false, Some(CeilDiv7(span)))
               else SemesterCheck(true, None)
  {
  }

  /** 2024-12-15 is 105 days after 2024-09-01, month by month. */
  lemma {:induction false} FallSemesterSpan()
    ensures AddDays(Date(2024, 9, 1), 105) == Date(2024, 12, 15)
  {
    assert AddDays(Date(2024, 12, 1), 14) == Date(2024, 12, 15);
    assert AddDays(Date(2024, 11, 1), 44) == AddDays(Date(2024, 12, 1), 14);
    assert AddDays(Date(2024, 10, 1), 75) == AddDays(Date(2024, 11, 1), 44);
    assert AddDays(Date(2024, 9, 1), 105) == AddDays(Date(2024, 10, 1), 75);
  }

  // ---- optimizePromptForTokens ----

  /** Whitespace runs to one space, line-feed runs of three or more to two, trim. */
  function OptimizePromptForTokens(prompt: string): (r: string)
    ensures |r| <= |prompt|
    ensures FileProcessor.SingleSpaced(r)
    ensures r == [] || (!IsWhitespace(r[0]) && !IsWhitespace(r[|r| - 1]))
  {
    var collapsed := CollapseWhitespace(prompt);
    CollapseShortens(prompt);
    FileProcessor.CollapseWhitespaceSingleSpaced(prompt);
    FileProcessor.SingleSpacedFixedByNewlineRule(collapsed);
    FileProcessor.TrimKeepsSingleSpaced(collapsed);
    var r := Trim(CollapseNewlineRuns(collapsed));
    assert r == [] || r[0] == TrimStart(collapsed)[0];
    r
  }

  lemma {:induction false} CollapseShortens(s: string)
    ensures |CollapseWhitespace(s)| <= |s|
    decreases |s|
  {
    if s != [] {
      if IsWhitespace(s[0]) {
        var t := TrimStart(s);
        assert |t| == |s| ==> t == s;
        CollapseShortens(t);
      } else {
        CollapseShortens(s[1..]);
      }
    }
  }

  /** The compaction is the text cleanup of the file processor on text without deleted
      control characters, and compacting twice is compacting once. */
  lemma {:induction false} OptimizeMatchesCleanup(prompt: string)
    ensures OptimizePromptForTokens(prompt) == Trim(CollapseWhitespace(prompt))
    ensures FileProcessor.NoControls(prompt) ==>
      FileProcessor.CleanExtractedText(prompt) == OptimizePromptForTokens(prompt)
    ensures OptimizePromptForTokens(OptimizePromptForTokens(prompt)) == OptimizePromptForTokens(prompt)
  {
    var once := OptimizePromptForTokens(prompt);
    FileProcessor.CollapseWhitespaceSingleSpaced(prompt);
    FileProcessor.SingleSpacedFixedByNewlineRule(CollapseWhitespace(prompt));
    if FileProcessor.NoControls(prompt) {
      FileProcessor.CleanedTextIsTrimmedCollapse(prompt);
    }
    FileProcessor.CollapseFixesSingleSpaced(once);
    FileProcessor.SingleSpacedFixedByNewlineRule(once);
    assert TrimStart(once) == once;
    assert TrimEnd(once) == once;
  }

  // ---- chooseOptimalModel (test version) ----

  /** The test's own model choice: `'gpt-4'` when length (in UTF-16 code units) plus
      line-feed count exceeds 500. */
  function ChooseModelInTests(text: string): (model: string)
    ensures model == "gpt-4" || model == "gpt-3.5-turbo"
  {
    if Utf16Length(text) + CountChar(text, '\n') > 500 then "gpt-4" else "gpt-3.5-turbo"
  }

  /** The test's choice takes the larger model exactly when the complexity exceeds 500; it
      is stricter than the library's, so whenever it picks the larger model the library
      does too; texts over 500 characters always get it. */
  lemma {:induction false} TestModelChoice(text: string)
    ensures ChooseModelInTests(text) == "gpt-4" <==> Utf16Length(text) + CountChar(text, '\n') > 500
    ensures ChooseModelInTests(text) == "gpt-4" ==> SyllabusParser.ChooseOptimalModel(text) == "gpt-4"
    ensures |text| > 500 ==> ChooseModelInTests(text) == "gpt-4"
    ensures |text| <= 250 ==> ChooseModelInTests(text) == "gpt-3.5-turbo"
  {
    assert "gpt-4"[4] == '4' && "gpt-3.5-turbo"[4] == '3';
    Utf16LengthWithNewlines(text);
  }
}
