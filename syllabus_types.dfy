/**
  The typed records of the syllabus parser: a parsed assignment, an assignment with a
  resolved due date, and the typed view of a parsed syllabus that the quality analysis
  reads. Optional TypeScript fields (`week?: number`) are `Option`s, where `None` is
  `undefined`.
*/
module SyllabusTypes {
  import opened Options

  /** A `ParsedAssignment`: `type` is `kind` here, since `type` is a Dafny keyword. */
  datatype Assignment = Assignment(
    title: string,
    week: Option<int>,
    specificDate: Option<string>,
    kind: string,
    description: Option<string>,
    points: Option<real>,
    percentage: Option<real>)

  /** An `AssignmentWithDate`. */
  datatype DatedAssignment = DatedAssignment(
    title: string,
    dueDate: string,
    originalWeek: Option<int>,
    originalSpecificDate: Option<string>,
    kind: string,
    description: Option<string>,
    points: Option<real>)

  /** A `WeekConversionResult`. */
  datatype WeekConversionResult = WeekConversionResult(
    assignments: seq<DatedAssignment>,
    warnings: seq<string>,
    totalConverted: nat)

  /** The `course_info` fields that the quality analysis reads. */
  datatype CourseInfo = CourseInfo(
    name: string,
    code: Option<string>,
    instructor: Option<string>,
    semester: Option<string>)

  /** A `ParsedSyllabusData` as the quality analysis reads it. */
  datatype SyllabusData = SyllabusData(
    courseInfo: CourseInfo,
    assignments: seq<Assignment>,
    parsingConfidence: real)

  /** `assignment.week` is truthy: present and not 0. */
  predicate HasWeek(a: Assignment) {
    a.week.Some? && a.week.value != 0
  }

  /** `assignment.specific_date` is truthy: present and not the empty string. */
  predicate HasSpecificDate(a: Assignment) {
    a.specificDate.Some? && a.specificDate.value != ""
  }

  /** A truthy optional string: present and not empty. */
  predicate Filled(s: Option<string>) {
    s.Some? && s.value != ""
  }
}
