/**
  The week-to-date resolver of the syllabus parser (`convertWeeksToDate` and
  `convertWeeksToDateWithDetails`): every parsed assignment gets a due date taken from its
  specific date, from its week number counted from the semester start, or from the
  semester start itself.

  The semester start is the text `semesterStart`; it is usable when it reads as an ISO
  calendar date (`Calendar.ParseIsoDate`).
*/
module WeekConversion {
  import opened Options
  import opened JsString
  import opened Calendar
  import opened SyllabusTypes

  /** The due date the resolver gives `a`: a truthy specific date verbatim, else for a
      truthy week `w` the date `7 * (w - 1)` days after the start, else the start text. */
  function DueDate(a: Assignment, start: Date, semesterStart: string): string
    requires Valid(start)
  {
    if HasSpecificDate(a) then a.specificDate.value
    else if HasWeek(a) then FormatIsoDate(AddDays(start, (a.week.value - 1) * 7))
    else semesterStart
  }

  /** `out` is `assignments` converted one for one and in order: each output copies its
      input's title, type, description and points, records its week and specific date as
      the originals, and carries `DueDate` as its due date. */
  predicate ConvertedFrom(out: seq<DatedAssignment>, assignments: seq<Assignment>,
                          start: Date, semesterStart: string)
    requires Valid(start)
  {
    |out| == |assignments| &&
    forall i :: 0 <= i < |out| ==>
      var a := assignments[i];
      out[i] == DatedAssignment(a.title, DueDate(a, start, semesterStart), a.week,
                                a.specificDate, a.kind, a.description, a.points)
  }

  /** `convertWeeksToDate`: the empty list for an unusable start, otherwise one dated
      assignment per input. */
  method ConvertWeeksToDate(assignments: seq<Assignment>, semesterStart: string)
    returns (converted: seq<DatedAssignment>)
    ensures ParseIsoDate(semesterStart).None? ==> converted == []
    ensures ParseIsoDate(semesterStart).Some? ==>
      ConvertedFrom(converted, assignments, ParseIsoDate(semesterStart).value, semesterStart)
  {
    var parsed := ParseIsoDate(semesterStart);
    if parsed.None? {
      return [];
    }
    var start := parsed.value;
    converted := [];
    var i := 0;
    while i < |assignments|
      invariant 0 <= i <= |assignments|
      invariant ConvertedFrom(converted, assignments[..i], start, semesterStart)
    {
      var a := assignments[i];
      var dueDate: string;
      if a.specificDate.Some? && a.specificDate.value != "" {
        dueDate := a.specificDate.value;
      } else if a.week.Some? && a.week.value != 0 {
        var weekStart := AddDays(start, (a.week.value - 1) * 7);
        dueDate := FormatIsoDate(weekStart);
      } else {
        dueDate := semesterStart;
      }
      assert dueDate == DueDate(a, start, semesterStart);
      ConvertedFromStep(converted, assignments, i, start, semesterStart);
      converted := converted + [DatedAssignment(a.title, dueDate, a.week, a.specificDate,
                                                a.kind, a.description, a.points)];
      i := i + 1;
    }
    assert assignments[..i] == assignments;
  }

  /** The warning for a week number outside 1 to 20. */
  function UnusualWeekWarning(a: Assignment): string
    requires a.week.Some?
  {
    "Assignment \"" + a.title + "\": Week " + IntToString(a.week.value) + " seems unusual"
  }

  /** The warning for an assignment with neither a specific date nor a week. */
  function NoDateWarning(a: Assignment): string {
    "Assignment \"" + a.title + "\": No date information available"
  }

  /** The assignment takes the week branch: no truthy specific date, a truthy week. */
  predicate TakesWeekBranch(a: Assignment) {
    !HasSpecificDate(a) && HasWeek(a)
  }

  /** The warnings the detailed resolver emits for one assignment. */
  function WarningsFor(a: Assignment): (w: seq<string>)
    ensures |w| <= 1
  {
    if HasSpecificDate(a) then []
    else if HasWeek(a) then
      (if a.week.value < 1 || a.week.value > 20 then [UnusualWeekWarning(a)] else [])
    else [NoDateWarning(a)]
  }

  /** The warnings for a list, in list order. */
  function DetailWarnings(assignments: seq<Assignment>): seq<string> {
    if assignments == [] then []
    else DetailWarnings(assignments[..|assignments| - 1]) + WarningsFor(assignments[|assignments| - 1])
  }

  /** The number of assignments that take the week branch. */
  function CountWeekBranch(assignments: seq<Assignment>): (n: nat)
    ensures n <= |assignments|
  {
    if assignments == [] then 0
    else CountWeekBranch(assignments[..|assignments| - 1])
         + (if TakesWeekBranch(assignments[|assignments| - 1]) then 1 else 0)
  }

  /** `convertWeeksToDateWithDetails`: one warning and nothing converted for an unusable
      start; otherwise the same dated assignments as `ConvertWeeksToDate`, the warnings of
      every assignment in order, and the number converted from a week. */
  method ConvertWeeksToDateWithDetails(assignments: seq<Assignment>, semesterStart: string)
    returns (r: WeekConversionResult)
    ensures ParseIsoDate(semesterStart).None? ==>
      r == WeekConversionResult([], ["Invalid semester start date provided"], 0)
    ensures ParseIsoDate(semesterStart).Some? ==>
      && ConvertedFrom(r.assignments, assignments, ParseIsoDate(semesterStart).value, semesterStart)
      && r.warnings == DetailWarnings(assignments)
      && r.totalConverted == CountWeekBranch(assignments)
  {
    var parsed := ParseIsoDate(semesterStart);
    if parsed.None? {
      return WeekConversionResult([], ["Invalid semester start date provided"], 0);
    }
    var start := parsed.value;
    var converted: seq<DatedAssignment> := [];
    var warnings: seq<string> := [];
    var totalConverted: nat := 0;
    var i := 0;
    while i < |assignments|
      invariant 0 <= i <= |assignments|
      invariant ConvertedFrom(converted, assignments[..i], start, semesterStart)
      invariant warnings == DetailWarnings(assignments[..i])
      invariant totalConverted == CountWeekBranch(assignments[..i])
    {
      var dated, found, counted := ConvertWithDetails(assignments[i], start, semesterStart);
      ConvertedFromStep(converted, assignments, i, start, semesterStart);
      PrefixStep(assignments, i);
      converted := converted + [dated];
      warnings := warnings + found;
      totalConverted := totalConverted + counted;
      i := i + 1;
    }
    assert assignments[..i] == assignments;
    r := WeekConversionResult(converted, warnings, totalConverted);
  }

  /** One step of the detailed resolver: the dated assignment, its warnings, and whether
      it was converted from a week. */
  method ConvertWithDetails(a: Assignment, start: Date, semesterStart: string)
    returns (dated: DatedAssignment, warnings: seq<string>, counted: nat)
    requires Valid(start)
    ensures dated == DatedAssignment(a.title, DueDate(a, start, semesterStart), a.week,
                                     a.specificDate, a.kind, a.description, a.points)
    ensures warnings == WarningsFor(a)
    ensures counted == if TakesWeekBranch(a) then 1 else 0
  {
    var dueDate: string;
    warnings := [];
    counted := 0;
    if a.specificDate.Some? && a.specificDate.value != "" {
      dueDate := a.specificDate.value;
    } else if a.week.Some? && a.week.value != 0 {
      var weekStart := AddDays(start, (a.week.value - 1) * 7);
      if a.week.value < 1 || a.week.value > 20 {
        warnings := [UnusualWeekWarning(a)];
      }
      dueDate := FormatIsoDate(weekStart);
      counted := 1;
    } else {
      warnings := [NoDateWarning(a)];
      dueDate := semesterStart;
    }
    dated := DatedAssignment(a.title, dueDate, a.week, a.specificDate,
                             a.kind, a.description, a.points);
  }

  lemma {:induction false} ConvertedFromStep(out: seq<DatedAssignment>, assignments: seq<Assignment>, i: nat,
                          start: Date, semesterStart: string)
    requires Valid(start) && i < |assignments|
    requires ConvertedFrom(out, assignments[..i], start, semesterStart)
    ensures var a := assignments[i];
      ConvertedFrom(out + [DatedAssignment(a.title, DueDate(a, start, semesterStart), a.week,
                                           a.specificDate, a.kind, a.description, a.points)],
                    assignments[..i + 1], start, semesterStart)
  {
  }

  lemma {:induction false} PrefixStep(assignments: seq<Assignment>, i: nat)
    requires i < |assignments|
    ensures DetailWarnings(assignments[..i + 1])
            == DetailWarnings(assignments[..i]) + WarningsFor(assignments[i])
    ensures CountWeekBranch(assignments[..i + 1])
            == CountWeekBranch(assignments[..i]) + if TakesWeekBranch(assignments[i]) then 1 else 0
  {
    assert assignments[..i + 1][..i] == assignments[..i];
  }

  // ---- Properties of the due-date rule ----

  /** A truthy specific date wins over any week number. */
  lemma {:induction false} SpecificDateWins(a: Assignment, start: Date, semesterStart: string)
    requires Valid(start) && HasSpecificDate(a)
    ensures DueDate(a, start, semesterStart) == a.specificDate.value
  {
  }

  /** A week `w` lands exactly `7 * (w - 1)` days after the start: its due date reads back
      as the date that many days on (years 0 to 9999). */
  lemma {:induction false} WeekDueDateOffset(a: Assignment, start: Date, semesterStart: string)
    requires Valid(start) && TakesWeekBranch(a)
    requires 0 <= AddDays(start, (a.week.value - 1) * 7).year <= 9999
    ensures ParseIsoDate(DueDate(a, start, semesterStart)).Some?
    ensures DaysBetween(start, ParseIsoDate(DueDate(a, start, semesterStart)).value)
            == 7 * (a.week.value - 1)
  {
    var k := (a.week.value - 1) * 7;
    var d := AddDays(start, k);
    assert DueDate(a, start, semesterStart) == FormatIsoDate(d);
    ParseFormatRoundTrip(d);
    DaysBetweenAddDays(start, k);
  }

  /** Week 1 is due on the semester start, written exactly as the start text. */
  lemma {:induction false} WeekOneIsStart(a: Assignment, semesterStart: string)
    requires ParseIsoDate(semesterStart).Some?
    requires !HasSpecificDate(a) && a.week == Some(1)
    ensures DueDate(a, ParseIsoDate(semesterStart).value, semesterStart) == semesterStart
  {
    FormatParseRoundTrip(semesterStart);
  }

  /** An assignment with no date information falls back to the start text. */
  lemma {:induction false} NoDateFallsBackToStart(a: Assignment, start: Date, semesterStart: string)
    requires Valid(start) && !HasSpecificDate(a) && !HasWeek(a)
    ensures DueDate(a, start, semesterStart) == semesterStart
    ensures WarningsFor(a) == [NoDateWarning(a)]
  {
  }

  /** Consecutive weeks are due seven days apart. */
  lemma {:induction false} NextWeekIsSevenDaysLater(a: Assignment, start: Date, semesterStart: string)
    requires Valid(start) && TakesWeekBranch(a) && a.week.value != -1
    ensures var b := a.(week := Some(a.week.value + 1));
      DueDate(b, start, semesterStart)
        == FormatIsoDate(AddDays(AddDays(start, (a.week.value - 1) * 7), 7))
  {
    var w := a.week.value;
    var b := a.(week := Some(w + 1));
    assert TakesWeekBranch(b) && b.week.value - 1 == w;
    AddDaysCompose(start, (w - 1) * 7, 7);
    assert (w - 1) * 7 + 7 == w * 7;
  }

  // ---- Properties of the detailed resolver ----

  lemma {:induction false} DetailWarningsAppend(xs: seq<Assignment>, ys: seq<Assignment>)
    ensures DetailWarnings(xs + ys) == DetailWarnings(xs) + DetailWarnings(ys)
    decreases |ys|
  {
    if ys == [] {
      assert xs + ys == xs;
    } else {
      var last := ys[|ys| - 1];
      assert (xs + ys)[..|xs + ys| - 1] == xs + ys[..|ys| - 1];
      DetailWarningsAppend(xs, ys[..|ys| - 1]);
    }
  }

  /** The assignment draws no warning: it has a specific date, or a week in 1 to 20. */
  predicate WellDated(a: Assignment) {
    HasSpecificDate(a) || (HasWeek(a) && 1 <= a.week.value <= 20)
  }

  /** The detailed resolver is silent exactly when every assignment is well dated. */
  lemma {:induction false} NoWarningsIff(assignments: seq<Assignment>)
    ensures DetailWarnings(assignments) == [] <==>
            forall i :: 0 <= i < |assignments| ==> WellDated(assignments[i])
  {
    if assignments != [] {
      var init := assignments[..|assignments| - 1];
      NoWarningsIff(init);
      assert forall i :: 0 <= i < |init| ==> init[i] == assignments[i];
    }
  }

  /** There is at most one warning per assignment, and exactly one per assignment when
      none of them is well dated. */
  lemma {:induction false} WarningCount(assignments: seq<Assignment>)
    ensures |DetailWarnings(assignments)| <= |assignments|
    ensures (forall i :: 0 <= i < |assignments| ==> !WellDated(assignments[i])) ==>
            |DetailWarnings(assignments)| == |assignments|
  {
    if assignments != [] {
      var init := assignments[..|assignments| - 1];
      WarningCount(init);
      assert forall i :: 0 <= i < |init| ==> init[i] == assignments[i];
    }
  }

  /** Every assignment is converted from its week exactly when none has a specific date
      and all have a truthy week. */
  lemma {:induction false} AllConvertedIff(assignments: seq<Assignment>)
    ensures CountWeekBranch(assignments) == |assignments| <==>
            forall i :: 0 <= i < |assignments| ==> TakesWeekBranch(assignments[i])
  {
    if assignments != [] {
      var init := assignments[..|assignments| - 1];
      AllConvertedIff(init);
      assert forall i :: 0 <= i < |init| ==> init[i] == assignments[i];
    }
  }

  // ---- The asserted examples ----

  /** Start 2024-09-01: weeks 1, 3 and 8 fall on 2024-09-01, 2024-09-15 and 2024-10-20;
      start 2024-09-02 with week 2 falls on 2024-09-09, and a specific date wins. */
  lemma {:induction false} FallSemesterExamples()
    ensures ParseIsoDate("2024-09-01") == Some(Date(2024, 9, 1))
    ensures
      var a := Assignment("Homework 1", Some(1), None, "homework", None, None, None);
      DueDate(a, Date(2024, 9, 1), "2024-09-01") == "2024-09-01"
    ensures
      var a := Assignment("Homework 3", Some(3), None, "homework", None, None, None);
      DueDate(a, Date(2024, 9, 1), "2024-09-01") == "2024-09-15"
    ensures
      var a := Assignment("Midterm", Some(8), None, "exam", None, None, None);
      DueDate(a, Date(2024, 9, 1), "2024-09-01") == "2024-10-20"
    ensures
      var a := Assignment("Quiz", Some(2), None, "quiz", None, None, None);
      DueDate(a, Date(2024, 9, 2), "2024-09-02") == "2024-09-09"
    ensures
      var a := Assignment("Project", Some(5), Some("2024-10-15"), "project", None, None, None);
      DueDate(a, Date(2024, 9, 1), "2024-09-01") == "2024-10-15"
  {
    FallOffsets();
    FallRenderings();
    ParseFormatRoundTrip(Date(2024, 9, 1));
  }

  lemma {:induction false} FallOffsets()
    ensures AddDays(Date(2024, 9, 1), 0) == Date(2024, 9, 1)
    ensures AddDays(Date(2024, 9, 1), 14) == Date(2024, 9, 15)
    ensures AddDays(Date(2024, 9, 1), 49) == Date(2024, 10, 20)
    ensures AddDays(Date(2024, 9, 2), 7) == Date(2024, 9, 9)
  {
    assert AddDays(Date(2024, 10, 1), 19) == Date(2024, 10, 20);
  }

  lemma {:induction false} FallRenderings()
    ensures FormatIsoDate(Date(2024, 9, 1)) == "2024-09-01"
    ensures FormatIsoDate(Date(2024, 9, 15)) == "2024-09-15"
    ensures FormatIsoDate(Date(2024, 10, 20)) == "2024-10-20"
    ensures FormatIsoDate(Date(2024, 9, 9)) == "2024-09-09"
  {
    FormatIsoDateDigits(Date(2024, 9, 1), 2, 0, 2, 4, 0, 9, 0, 1);
    FormatIsoDateDigits(Date(2024, 9, 15), 2, 0, 2, 4, 0, 9, 1, 5);
    FormatIsoDateDigits(Date(2024, 10, 20), 2, 0, 2, 4, 1, 0, 2, 0);
    FormatIsoDateDigits(Date(2024, 9, 9), 2, 0, 2, 4, 0, 9, 0, 9);
  }
}
