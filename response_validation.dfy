/**
  The structural check the syllabus parser runs on a language model's JSON reply
  (`validateParsingResponse`), and the copying of alias fields into the canonical
  `course_info` fields that precedes it on the text path.

  The check reads the reply with JavaScript semantics: a missing member is `undefined`,
  "present" means truthy, and reading a member of `null` throws a `TypeError`; that is
  what `Threw` records.
*/
module ResponseValidation {
  import opened Options
  import opened JsString
  import opened JsonValue

  /** Either the check threw, or it finished with its verdict and its messages. */
  datatype Validation = Threw | Checked(isValid: bool, errors: seq<string>)

  /** The missing-member messages for the three top-level members, in source order. */
  function TopLevelErrors(data: Json): seq<string> {
    (if !Present(Get(data, "course_info")) then ["Missing course_info"] else [])
    + (if !Present(Get(data, "assignments")) then ["Missing assignments"] else [])
    + (if !Present(Get(data, "metadata")) then ["Missing metadata"] else [])
  }

  function CourseNameErrors(data: Json): seq<string> {
    var info := Get(data, "course_info");
    if Present(info) && !Present(Get(info.value, "name")) then ["Missing course name"] else []
  }

  /** The messages for the assignment at `index`, which is not `null`. */
  function AssignmentErrors(index: nat, a: Json): seq<string>
    requires !a.Null?
  {
    var prefix := "Assignment " + NatToString(index);
    (if !Present(Get(a, "title")) then [prefix + ": missing title"] else [])
    + (if !Present(Get(a, "week")) && !Present(Get(a, "specific_date"))
       then [prefix + ": missing week or specific_date"] else [])
    + (if !Present(Get(a, "type")) then [prefix + ": missing type"] else [])
  }

  /** Some assignment element is `null`; reading its `title` throws. */
  predicate HasNull(items: seq<Json>) {
    exists i :: 0 <= i < |items| && items[i].Null?
  }

  /** The messages for all assignments, in index order. */
  function ItemErrors(items: seq<Json>): seq<string>
    requires !HasNull(items)
  {
    if items == [] then []
    else
      var init := items[..|items| - 1];
      assert forall i :: 0 <= i < |init| ==> init[i] == items[i];
      ItemErrors(init) + AssignmentErrors(|items| - 1, items[|items| - 1])
  }

  lemma {:induction false} ItemErrorsSnoc(items: seq<Json>, i: nat)
    requires i < |items| && !HasNull(items[..i]) && !items[i].Null?
    ensures !HasNull(items[..i + 1])
    ensures ItemErrors(items[..i + 1]) == ItemErrors(items[..i]) + AssignmentErrors(i, items[i])
  {
    assert items[..i + 1][..i] == items[..i];
    assert forall j :: 0 <= j < i ==> items[..i + 1][j] == items[..i][j];
  }

  function AssignmentsErrors(data: Json): Option<seq<string>> {
    var list := Get(data, "assignments");
    if Present(list) && list.value.Arr? then
      (if HasNull(list.value.items) then None else Some(ItemErrors(list.value.items)))
    else if Present(list) then Some(["Assignments must be an array"])
    else Some([])
  }

  function MetadataErrors(data: Json): seq<string> {
    var meta := Get(data, "metadata");
    if Present(meta) then
      (if !IsNumber(Get(meta.value, "parsing_confidence")) then ["parsing_confidence must be a number"] else [])
      + (if !IsNumber(Get(meta.value, "weeks_detected")) then ["weeks_detected must be a number"] else [])
    else []
  }

  /** What `validateParsingResponse(data)` returns or throws. */
  function ResponseViolations(data: Json): (v: Validation)
    ensures v.Checked? ==> (v.isValid <==> v.errors == [])
  {
    if data.Null? then Threw
    else
      var assignmentErrors := AssignmentsErrors(data);
      if assignmentErrors.None? then Threw
      else
        var errors := TopLevelErrors(data) + CourseNameErrors(data) + assignmentErrors.value
                      + MetadataErrors(data);
        Checked(errors == [], errors)
  }

  /** The body of the `forEach` for the element at `index`. */
  method CheckAssignment(index: nat, a: Json) returns (messages: seq<string>)
    requires !a.Null?
    ensures messages == AssignmentErrors(index, a)
  {
    var prefix := "Assignment " + NatToString(index);
    messages := [];
    if !Present(Get(a, "title")) { messages := messages + [prefix + ": missing title"]; }
    if !Present(Get(a, "week")) && !Present(Get(a, "specific_date")) {
      messages := messages + [prefix + ": missing week or specific_date"];
    }
    if !Present(Get(a, "type")) { messages := messages + [prefix + ": missing type"]; }
  }

  /** The `forEach` over the assignment array: the messages of every element in index
      order, or `None` when an element is `null`. */
  method CheckAssignments(items: seq<Json>) returns (r: Option<seq<string>>)
    ensures r == if HasNull(items) then None else Some(ItemErrors(items))
  {
    var itemErrors: seq<string> := [];
    var i := 0;
    while i < |items|
      invariant 0 <= i <= |items|
      invariant !HasNull(items[..i])
      invariant itemErrors == ItemErrors(items[..i])
    {
      var a := items[i];
      if a.Null? {
        assert HasNull(items);
        return None;
      }
      ItemErrorsSnoc(items, i);
      var messages := CheckAssignment(i, a);
      itemErrors := itemErrors + messages;
      i := i + 1;
    }
    assert items[..i] == items;
    return Some(itemErrors);
  }

  /** The missing-member checks and the course-name check, the first section of
      `validateParsingResponse`. */
  method CheckTopLevel(data: Json) returns (errors: seq<string>)
    ensures errors == TopLevelErrors(data) + CourseNameErrors(data)
  {
    errors := [];
    if !Present(Get(data, "course_info")) { errors := errors + ["Missing course_info"]; }
    if !Present(Get(data, "assignments")) { errors := errors + ["Missing assignments"]; }
    if !Present(Get(data, "metadata")) { errors := errors + ["Missing metadata"]; }
    assert errors == TopLevelErrors(data);
    var info := Get(data, "course_info");
    if Present(info) && !Present(Get(info.value, "name")) {
      errors := errors + ["Missing course name"];
    }
  }

  /** The metadata section of `validateParsingResponse`. */
  method CheckMetadata(data: Json) returns (errors: seq<string>)
    ensures errors == MetadataErrors(data)
  {
    errors := [];
    var meta := Get(data, "metadata");
    if Present(meta) {
      if !IsNumber(Get(meta.value, "parsing_confidence")) {
        errors := errors + ["parsing_confidence must be a number"];
      }
      if !IsNumber(Get(meta.value, "weeks_detected")) {
        errors := errors + ["weeks_detected must be a number"];
      }
    }
  }

  /** The assignments section of `validateParsingResponse`: the array's messages, one
      message when `assignments` is truthy but not an array, nothing when it is falsy, and
      `None` when an element is `null`. */
  method CheckAssignmentsMember(data: Json) returns (r: Option<seq<string>>)
    ensures r == AssignmentsErrors(data)
  {
    var list := Get(data, "assignments");
    if Present(list) && list.value.Arr? {
      r := CheckAssignments(list.value.items);
    } else if Present(list) {
      r := Some(["Assignments must be an array"]);
    } else {
      r := Some([]);
    }
  }

  /** `validateParsingResponse`: every rule is checked and every violation recorded, with
      no early exit. */
  method ValidateParsingResponse(data: Json) returns (r: Validation)
    ensures r == ResponseViolations(data)
    ensures r.Checked? ==> (r.isValid <==> r.errors == [])
  {
    if data.Null? {
      return Threw;
    }
    var errors := CheckTopLevel(data);
    var itemErrors := CheckAssignmentsMember(data);
    if itemErrors.None? {
      return Threw;
    }
    var metaErrors := CheckMetadata(data);
    errors := errors + itemErrors.value + metaErrors;
    r := Checked(|errors| == 0, errors);
  }

  // ---- An independent description of a well-formed reply ----

  /** An assignment element every per-item rule accepts. */
  predicate WellFormedAssignment(a: Json) {
    && !a.Null?
    && Present(Get(a, "title"))
    && (Present(Get(a, "week")) || Present(Get(a, "specific_date")))
    && Present(Get(a, "type"))
  }

  /** A reply with a named course, an array of well-formed assignments, and metadata whose
      confidence and week count are numbers. */
  predicate WellFormedReply(data: Json) {
    && !data.Null?
    && Present(Get(data, "course_info"))
    && Present(Get(Get(data, "course_info").value, "name"))
    && Get(data, "assignments").Some? && Get(data, "assignments").value.Arr?
    && (forall i :: 0 <= i < |Get(data, "assignments").value.items| ==>
          WellFormedAssignment(Get(data, "assignments").value.items[i]))
    && Present(Get(data, "metadata"))
    && IsNumber(Get(Get(data, "metadata").value, "parsing_confidence"))
    && IsNumber(Get(Get(data, "metadata").value, "weeks_detected"))
  }

  lemma {:induction false} ItemErrorsEmptyIff(items: seq<Json>)
    ensures !HasNull(items) && ItemErrors(items) == [] <==>
            forall i :: 0 <= i < |items| ==> WellFormedAssignment(items[i])
  {
    if items != [] {
      var init := items[..|items| - 1];
      assert forall i :: 0 <= i < |init| ==> init[i] == items[i];
      ItemErrorsEmptyIff(init);
      if !HasNull(items) && ItemErrors(items) == [] {
        assert ItemErrors(init) == [];
      }
    }
  }

  /** The check accepts a reply exactly when the reply is well formed. */
  lemma {:induction false} ValidIffWellFormed(data: Json)
    ensures ResponseViolations(data) == Checked(true, []) <==> WellFormedReply(data)
  {
    if !data.Null? {
      var list := Get(data, "assignments");
      if list.Some? && list.value.Arr? {
        ItemErrorsEmptyIff(list.value.items);
        if WellFormedReply(data) {
          assert !HasNull(list.value.items);
        }
      }
    }
  }

  /** A reply the check accepts is an object whose `metadata` is an object, so the
      parser's writes into `metadata` succeed. */
  lemma {:induction false} AcceptedReplyShape(data: Json)
    requires ResponseViolations(data) == Checked(true, [])
    ensures data.Obj? && "metadata" in data.fields && data.fields["metadata"].Obj?
    ensures "parsing_confidence" in data.fields["metadata"].fields
    ensures data.fields["metadata"].fields["parsing_confidence"].Num?
  {
    ValidIffWellFormed(data);
  }

  /** The check throws exactly for a `null` reply and for an assignment array holding a
      `null` element. */
  lemma {:induction false} ThrowsIff(data: Json)
    ensures ResponseViolations(data).Threw? <==>
      data.Null? ||
      (Get(data, "assignments").Some? && Get(data, "assignments").value.Arr? &&
       HasNull(Get(data, "assignments").value.items))
  {
  }

  lemma {:induction false} AssignmentErrorsLabelled(index: nat, a: Json)
    requires !a.Null?
    ensures forall e :: e in AssignmentErrors(index, a) ==> |e| > 0 && e[0] == 'A'
  {
    var prefix := "Assignment " + NatToString(index);
    assert prefix[0] == 'A';
  }

  /** Every message starts with `A`, as the per-assignment messages do. */
  predicate Labelled(errors: seq<string>) {
    forall e :: e in errors ==> |e| > 0 && e[0] == 'A'
  }

  lemma {:induction false} LabelledAppend(a: seq<string>, b: seq<string>)
    requires Labelled(a) && Labelled(b)
    ensures Labelled(a + b)
  {
    forall e | e in a + b
      ensures |e| > 0 && e[0] == 'A'
    {
      if e !in a {
        assert e in b;
      }
    }
  }

  lemma {:induction false} ItemErrorsLabelled(items: seq<Json>)
    requires !HasNull(items)
    ensures forall e :: e in ItemErrors(items) ==> |e| > 0 && e[0] == 'A'
  {
    ItemErrorsAreLabelled(items);
  }

  lemma {:induction false} ItemErrorsAreLabelled(items: seq<Json>)
    requires !HasNull(items)
    ensures Labelled(ItemErrors(items))
  {
    if items != [] {
      var init := items[..|items| - 1];
      var last := items[|items| - 1];
      assert forall i :: 0 <= i < |init| ==> init[i] == items[i];
      assert ItemErrors(items) == ItemErrors(init) + AssignmentErrors(|items| - 1, last);
      ItemErrorsAreLabelled(init);
      AssignmentErrorsLabelled(|items| - 1, last);
      LabelledAppend(ItemErrors(init), AssignmentErrors(|items| - 1, last));
    }
  }

  lemma {:induction false} ItemErrorsReport(items: seq<Json>, i: nat)
    requires !HasNull(items) && i < |items|
    ensures forall e :: e in AssignmentErrors(i, items[i]) ==> e in ItemErrors(items)
  {
    var init := items[..|items| - 1];
    assert forall j :: 0 <= j < |init| ==> init[j] == items[j];
    if i < |items| - 1 {
      ItemErrorsReport(init, i);
    }
  }

  /** "Missing metadata" is reported exactly when `metadata` is absent or falsy. */
  lemma {:induction false} MissingMetadataIff(data: Json)
    requires ResponseViolations(data).Checked?
    ensures "Missing metadata" in ResponseViolations(data).errors <==> !Present(Get(data, "metadata"))
  {
    var errors := ResponseViolations(data).errors;
    assert errors == TopLevelErrors(data) + CourseNameErrors(data) + AssignmentsErrors(data).value
                     + MetadataErrors(data);
    MissingMetadataOnlyAtTop(data);
    TopLevelMissingMetadata(data);
  }

  /** Among the top-level messages, "Missing metadata" is the one about `metadata`. */
  lemma {:induction false} TopLevelMissingMetadata(data: Json)
    ensures "Missing metadata" in TopLevelErrors(data) <==> !Present(Get(data, "metadata"))
  {
    assert "Missing course_info"[8] != "Missing metadata"[8];
    assert "Missing assignments"[8] != "Missing metadata"[8];
  }

  /** No message after the top-level ones reads "Missing metadata". */
  lemma {:induction false} MissingMetadataOnlyAtTop(data: Json)
    requires AssignmentsErrors(data).Some?
    ensures "Missing metadata" !in CourseNameErrors(data)
    ensures "Missing metadata" !in AssignmentsErrors(data).value
    ensures "Missing metadata" !in MetadataErrors(data)
  {
    assert "Missing course name"[8] != "Missing metadata"[8];
    MissingMetadataNotAboutItems(data);
    MissingMetadataNotAboutFields(data);
  }

  lemma {:induction false} MissingMetadataNotAboutItems(data: Json)
    requires AssignmentsErrors(data).Some?
    ensures "Missing metadata" !in AssignmentsErrors(data).value
  {
    assert "Missing metadata"[0] == 'M';
    var list := Get(data, "assignments");
    if Present(list) && list.value.Arr? {
      var items := list.value.items;
      assert AssignmentsErrors(data).value == ItemErrors(items);
      ItemErrorsAreLabelled(items);
    }
  }

  lemma {:induction false} MissingMetadataNotAboutFields(data: Json)
    ensures "Missing metadata" !in MetadataErrors(data)
  {
    assert "Missing metadata"[0] == 'M';
  }

  /** Every per-assignment rule an element breaks adds its own message naming the index. */
  lemma {:induction false} AssignmentViolationsReported(data: Json, i: nat)
    requires ResponseViolations(data).Checked?
    requires Get(data, "assignments").Some? && Get(data, "assignments").value.Arr?
    requires Truthy(Get(data, "assignments").value)
    requires i < |Get(data, "assignments").value.items|
    ensures var a := Get(data, "assignments").value.items[i];
      && !a.Null?
      && (!Present(Get(a, "title")) ==>
            "Assignment " + NatToString(i) + ": missing title" in ResponseViolations(data).errors)
      && (!Present(Get(a, "week")) && !Present(Get(a, "specific_date")) ==>
            "Assignment " + NatToString(i) + ": missing week or specific_date" in ResponseViolations(data).errors)
      && (!Present(Get(a, "type")) ==>
            "Assignment " + NatToString(i) + ": missing type" in ResponseViolations(data).errors)
  {
    var items := Get(data, "assignments").value.items;
    ItemsReported(data);
    ItemErrorsReport(items, i);
    AssignmentErrorsNamed(i, items[i]);
  }

  /** Every message about the assignments is among the check's messages. */
  lemma {:induction false} ItemsReported(data: Json)
    requires ResponseViolations(data).Checked?
    requires Get(data, "assignments").Some? && Get(data, "assignments").value.Arr?
    requires Truthy(Get(data, "assignments").value)
    ensures !HasNull(Get(data, "assignments").value.items)
    ensures forall e :: e in ItemErrors(Get(data, "assignments").value.items) ==>
              e in ResponseViolations(data).errors
  {
    var items := Get(data, "assignments").value.items;
    assert AssignmentsErrors(data) == Some(ItemErrors(items));
    var front := TopLevelErrors(data) + CourseNameErrors(data);
    assert ResponseViolations(data).errors == front + ItemErrors(items) + MetadataErrors(data);
  }

  /** Each per-assignment rule the element breaks has its message among the element's. */
  lemma {:induction false} AssignmentErrorsNamed(index: nat, a: Json)
    requires !a.Null?
    ensures !Present(Get(a, "title")) ==>
              "Assignment " + NatToString(index) + ": missing title" in AssignmentErrors(index, a)
    ensures !Present(Get(a, "week")) && !Present(Get(a, "specific_date")) ==>
              "Assignment " + NatToString(index) + ": missing week or specific_date" in AssignmentErrors(index, a)
    ensures !Present(Get(a, "type")) ==>
              "Assignment " + NatToString(index) + ": missing type" in AssignmentErrors(index, a)
  {
  }

  /** A reply with a named course and one dated but untyped assignment and no metadata is
      rejected with exactly two messages. */
  lemma {:induction false} MissingMetadataExample()
    ensures
      var data := Obj(map[
        "course_info" := Obj(map["name" := Str("Intro to Programming")]),
        "assignments" := Arr([Obj(map["title" := Str("Homework 1"), "week" := Num(1.0)])])]);
      ResponseViolations(data) == Checked(false, ["Missing metadata", "Assignment 0: missing type"])
  {
    var a := Obj(map["title" := Str("Homework 1"), "week" := Num(1.0)]);
    var data := Obj(map[
      "course_info" := Obj(map["name" := Str("Intro to Programming")]),
      "assignments" := Arr([a])]);
    ExampleItemErrors(a);
    assert Get(data, "assignments") == Some(Arr([a]));
    assert AssignmentsErrors(data) == Some(["Assignment 0: missing type"]);
    assert TopLevelErrors(data) == ["Missing metadata"];
    assert CourseNameErrors(data) == [];
    assert MetadataErrors(data) == [];
  }

  /** The dated but untyped assignment at index 0 draws only the missing-type message. */
  lemma {:induction false} ExampleItemErrors(a: Json)
    requires a == Obj(map["title" := Str("Homework 1"), "week" := Num(1.0)])
    ensures !HasNull([a])
    ensures ItemErrors([a]) == ["Assignment 0: missing type"]
  {
    assert [a][..0] == [];
    assert NatToString(0) == "0";
    assert Get(a, "title") == Some(Str("Homework 1")) && Get(a, "type") == None;
    assert Get(a, "week") == Some(Num(1.0));
    assert "Assignment " + "0" + ": missing type" == "Assignment 0: missing type";
    assert AssignmentErrors(0, a) == ["Assignment 0: missing type"];
  }

  // ---- Alias fields ----

  /** `if (info[alias] && !info[canonical]) info[canonical] = info[alias]`. */
  function CopyAlias(info: Json, alias: string, canonical: string): (r: Json)
    ensures Present(Get(info, canonical)) || !Present(Get(info, alias)) ==> r == info
    ensures !Present(Get(info, canonical)) && Present(Get(info, alias)) ==>
            Get(r, canonical) == Get(info, alias)
    ensures forall k :: k != canonical ==> Get(r, k) == Get(info, k)
  {
    if Present(Get(info, alias)) && !Present(Get(info, canonical))
    then Set(info, canonical, info.fields[alias])
    else info
  }

  /** The three alias copies `course_name` to `name`, `instructor_name` to `instructor`
      and `course_code` to `code`. */
  function CopyAliases(info: Json): Json {
    CopyAlias(CopyAlias(CopyAlias(info, "course_name", "name"),
                        "instructor_name", "instructor"),
              "course_code", "code")
  }

  /** The alias step of the text path: applied when `course_info` is truthy. */
  function NormalizeAliases(data: Json): (r: Json)
    ensures !Present(Get(data, "course_info")) ==> r == data
  {
    var info := Get(data, "course_info");
    if Present(info) then Set(data, "course_info", CopyAliases(info.value)) else data
  }

  /** A canonical field that is already truthy keeps its value; a falsy one takes its
      alias when the alias is truthy; every other member is untouched. */
  lemma {:induction false} CopyAliasesEffect(info: Json)
    ensures Present(Get(info, "name")) ==> Get(CopyAliases(info), "name") == Get(info, "name")
    ensures Present(Get(info, "instructor")) ==>
            Get(CopyAliases(info), "instructor") == Get(info, "instructor")
    ensures Present(Get(info, "code")) ==> Get(CopyAliases(info), "code") == Get(info, "code")
    ensures !Present(Get(info, "name")) && Present(Get(info, "course_name")) ==>
            Get(CopyAliases(info), "name") == Get(info, "course_name")
    ensures !Present(Get(info, "instructor")) && Present(Get(info, "instructor_name")) ==>
            Get(CopyAliases(info), "instructor") == Get(info, "instructor_name")
    ensures !Present(Get(info, "code")) && Present(Get(info, "course_code")) ==>
            Get(CopyAliases(info), "code") == Get(info, "course_code")
    ensures forall k :: k != "name" && k != "instructor" && k != "code" ==>
            Get(CopyAliases(info), k) == Get(info, k)
  {
  }

  /** Copying aliases twice is copying them once. */
  lemma {:induction false} CopyAliasesIdempotent(info: Json)
    ensures CopyAliases(CopyAliases(info)) == CopyAliases(info)
  {
    var once := CopyAliases(info);
    CopyAliasesEffect(info);
    CopyAliasesEffect(once);
    assert Present(Get(info, "name")) || Present(Get(info, "course_name")) ==> Present(Get(once, "name"));
    assert Present(Get(info, "instructor")) || Present(Get(info, "instructor_name")) ==> Present(Get(once, "instructor"));
    assert Present(Get(info, "code")) || Present(Get(info, "course_code")) ==> Present(Get(once, "code"));
  }

  /** A course_info that is not an object has nothing to copy. */
  lemma {:induction false} CopyAliasesNonObject(info: Json)
    requires !info.Obj?
    ensures CopyAliases(info) == info
  {
  }
}
