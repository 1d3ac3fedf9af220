/**
  The two pieces of logic inside the Gemini test route (`POST` in
  `app/api/test/parse-syllabus-gemini/route.ts`): recovering a JSON reply from the model's
  text, and the normalisation pass that reshapes the parsed reply into the schema the
  OpenAI path produces.

  The model call, the request body and the response envelope are not modelled: the
  model's text is the input, and `JSON.parse` is the function `parse` (`None` standing
  for a `SyntaxError`).

  The pass runs inside `try { ... } catch {}` and writes into the parsed value in place. A
  write that throws a `TypeError` (a property write on a string, number or boolean) ends
  the pass, and the writes made before it stay. A property write on an array succeeds,
  but the serialised reply does not carry it, so the model leaves the array unchanged.
*/
module GeminiRoute {
  import opened Options
  import opened JsString
  import opened JsonValue
  import opened ResponseValidation

  // ---- Recovering JSON from the model's text ----

  /** The route's answer: parsed data to normalise, or a failure message. */
  datatype Recovery = Recovered(data: Json) | Unrecovered(error: string)

  const NoContent := "No content received from Gemini"
  const NonJson := "Gemini returned non-JSON content"

  /** A part `s[start..end]` of a text. */
  datatype Span = Span(start: nat, end: nat)

  /** `c` is the lower-case ASCII letter `l` or its upper case, as `/i` compares them. */
  predicate LetterIgnoringCase(c: char, l: char) {
    c == l || c as int + 32 == l as int
  }

  /** The opening fence "```json" (any case of `json`) starts at `i`. */
  predicate FenceOpensAt(s: string, i: nat) {
    i + 7 <= |s| && s[i] == '`' && s[i + 1] == '`' && s[i + 2] == '`'
    && LetterIgnoringCase(s[i + 3], 'j') && LetterIgnoringCase(s[i + 4], 's')
    && LetterIgnoringCase(s[i + 5], 'o') && LetterIgnoringCase(s[i + 6], 'n')
  }

  /** A closing fence "```" starts at `i`. */
  predicate FenceClosesAt(s: string, i: nat) {
    i + 3 <= |s| && s[i] == '`' && s[i + 1] == '`' && s[i + 2] == '`'
  }

  /** The end of the whitespace run starting at `i` (the greedy `\s*`). */
  function SkipWhitespace(s: string, i: nat): (j: nat)
    requires i <= |s|
    ensures i <= j <= |s| && (forall k :: i <= k < j ==> IsWhitespace(s[k]))
    ensures j < |s| ==> !IsWhitespace(s[j])
    decreases |s| - i
  {
    if i < |s| && IsWhitespace(s[i]) then SkipWhitespace(s, i + 1) else i
  }

  /** The first closing fence at or after `i` (where the lazy `([\s\S]*?)` stops). */
  function FirstClose(s: string, i: nat): (r: Option<nat>)
    requires i <= |s|
    ensures r.Some? ==> i <= r.value && FenceClosesAt(s, r.value)
                        && forall k :: i <= k < r.value ==> !FenceClosesAt(s, k)
    ensures r.None? ==> forall k :: i <= k <= |s| ==> !FenceClosesAt(s, k)
    decreases |s| - i
  {
    if i + 3 > |s| then None
    else if FenceClosesAt(s, i) then Some(i)
    else FirstClose(s, i + 1)
  }

  /** The capture group of the leftmost match of /```json\s*([\s\S]*?)```/i at or after
      position `i`. */
  function FencedFrom(s: string, i: nat): (r: Option<Span>)
    requires i <= |s|
    ensures r.Some? ==> i + 7 <= r.value.start <= r.value.end && r.value.end + 3 <= |s|
    decreases |s| - i
  {
    if i + 7 > |s| then None
    else if FenceOpensAt(s, i) && FirstClose(s, SkipWhitespace(s, i + 7)).Some? then
      Some(Span(SkipWhitespace(s, i + 7), FirstClose(s, SkipWhitespace(s, i + 7)).value))
    else FencedFrom(s, i + 1)
  }

  /** The body of the first ```` ```json ```` fenced block, after its leading whitespace
      and up to the next ```` ``` ````. */
  function FencedBody(s: string): Option<Span> {
    FencedFrom(s, 0)
  }

  /** The first position of `c` in `s`. */
  function FirstIndex(s: string, c: char): (r: Option<nat>)
    ensures r.Some? ==> r.value < |s| && s[r.value] == c && forall k :: 0 <= k < r.value ==> s[k] != c
    ensures r.None? ==> forall k :: 0 <= k < |s| ==> s[k] != c
  {
    if s == [] then None
    else if s[0] == c then Some(0)
    else match FirstIndex(s[1..], c)
      case None => None
      case Some(k) => Some(k + 1)
  }

  /** The last position of `c` in `s`. */
  function LastIndex(s: string, c: char): (r: Option<nat>)
    ensures r.Some? ==> r.value < |s| && s[r.value] == c && forall k :: r.value < k < |s| ==> s[k] != c
    ensures r.None? ==> forall k :: 0 <= k < |s| ==> s[k] != c
  {
    if s == [] then None
    else if s[|s| - 1] == c then Some(|s| - 1)
    else LastIndex(s[..|s| - 1], c)
  }

  /** The match of /\{[\s\S]*\}/: from the first `{` to the last `}` after it. */
  function BracedSpan(s: string): (r: Option<Span>)
    ensures r.Some? ==> r.value.start < r.value.end <= |s|
  {
    match (FirstIndex(s, '{'), LastIndex(s, '}'))
    case (Some(b), Some(e)) => if b < e then Some(Span(b, e + 1)) else None
    case _ => None
  }

  /** The braced span's text, when there is one. */
  function BracedText(s: string): Option<string> {
    match BracedSpan(s)
    case Some(b) => Some(s[b.start..b.end])
    case None => None
  }

  /** `fenced?.[1] || braced?.[0]`: a non-empty fenced body, else the braced span. */
  function Candidate(s: string): Option<string> {
    match FencedBody(s)
    case Some(sp) => if sp.start < sp.end then Some(s[sp.start..sp.end]) else BracedText(s)
    case None => BracedText(s)
  }

  /** The route's reading of the model text: blank text fails first; then the whole text
      is parsed, and only when that fails the candidate part. */
  function RecoverJson(text: string, parse: string -> Option<Json>): (r: Recovery)
    ensures r == Unrecovered(NoContent) <==> Trim(text) == ""
    ensures Trim(text) != "" && parse(text).Some? ==> r == Recovered(parse(text).value)
    ensures r.Recovered? ==>
      parse(text) == Some(r.data) || (Candidate(text).Some? && parse(Candidate(text).value) == Some(r.data))
    ensures r.Unrecovered? ==> r.error == NoContent || r.error == NonJson
    ensures Trim(text) != "" && parse(text).None? && Candidate(text).Some?
            && parse(Candidate(text).value).Some? ==>
      r == Recovered(parse(Candidate(text).value).value)
    ensures r == Unrecovered(NonJson) <==>
      Trim(text) != "" && parse(text).None?
      && (Candidate(text).None? || parse(Candidate(text).value).None?)
  {
    if text == "" || Trim(text) == "" then Unrecovered(NoContent)
    else
      match parse(text)
      case Some(data) => Recovered(data)
      case None =>
        match Candidate(text)
        case None => Unrecovered(NonJson)
        case Some(part) =>
          match parse(part)
          case None => Unrecovered(NonJson)
          case Some(data) => Recovered(data)
  }

  /** No match of the fence expression starts at `o`: either no opening fence is there or
      no closing fence follows it. */
  predicate NoMatchAt(s: string, o: nat) {
    FenceOpensAt(s, o) ==> FirstClose(s, SkipWhitespace(s, o + 7)).None?
  }

  /** A match of the fence expression starts at `o` and captures `sp`: an opening fence at
      `o`, the capture starting after the whitespace that follows it and ending at a
      closing fence, with no closing fence inside. */
  predicate MatchAt(s: string, o: nat, sp: Span) {
    && FenceOpensAt(s, o) && sp.start == SkipWhitespace(s, o + 7)
    && FenceClosesAt(s, sp.end)
    && (forall k :: sp.start <= k < sp.end ==> !FenceClosesAt(s, k))
  }

  /** The fenced body is what the regular expression captures: an opening fence, only
      whitespace up to the body, then the body up to its nearest closing fence, and no
      earlier opening fence with a closing fence after it. */
  lemma {:induction false} FencedBodyMeaning(s: string, i: nat)
    requires i <= |s|
    ensures match FencedFrom(s, i)
      case None => forall o :: i <= o ==> NoMatchAt(s, o)
      case Some(sp) =>
        exists o :: i <= o && MatchAt(s, o, sp) && (forall p :: i <= p < o ==> NoMatchAt(s, p))
  {
    if FencedFrom(s, i).None? {
      FencedNoneMeaning(s, i);
    } else {
      FencedSomeMeaning(s, i);
    }
  }

  lemma {:induction false} FencedNoneMeaning(s: string, i: nat)
    requires i <= |s| && FencedFrom(s, i).None?
    ensures forall o :: i <= o ==> NoMatchAt(s, o)
    decreases |s| - i
  {
    if i + 7 <= |s| {
      FencedNoneMeaning(s, i + 1);
      assert NoMatchAt(s, i);
      forall o | i <= o
        ensures NoMatchAt(s, o)
      {
        if o > i {
          assert i + 1 <= o;
        }
      }
    }
  }

  lemma {:induction false} FencedSomeMeaning(s: string, i: nat)
    requires i <= |s| && FencedFrom(s, i).Some?
    ensures var sp := FencedFrom(s, i).value;
      exists o :: i <= o && MatchAt(s, o, sp) && (forall p :: i <= p < o ==> NoMatchAt(s, p))
    decreases |s| - i
  {
    var sp := FencedFrom(s, i).value;
    if FenceOpensAt(s, i) && FirstClose(s, SkipWhitespace(s, i + 7)).Some? {
      assert MatchAt(s, i, sp);
    } else {
      assert NoMatchAt(s, i);
      assert FencedFrom(s, i + 1) == FencedFrom(s, i);
      FencedSomeMeaning(s, i + 1);
      var o :| i + 1 <= o && MatchAt(s, o, sp) && (forall p :: i + 1 <= p < o ==> NoMatchAt(s, p));
      assert forall p :: i <= p < o ==> NoMatchAt(s, p);
    }
  }

  /** The braced candidate starts at the first `{` of the text and ends just after the
      last `}`. */
  lemma {:induction false} BracedSpanMeaning(s: string)
    ensures match BracedSpan(s)
      case None => forall b, e :: 0 <= b < e < |s| ==> !(s[b] == '{' && s[e] == '}')
      case Some(sp) =>
        s[sp.start] == '{' && s[sp.end - 1] == '}'
        && (forall k :: 0 <= k < sp.start ==> s[k] != '{')
        && (forall k :: sp.end <= k < |s| ==> s[k] != '}')
  {
  }

  /** A fenced reply yields its body; a reply without a fence yields its braced part. */
  lemma {:induction false} CandidateExamples()
    ensures Candidate("```json\n{}\n```") == Some("{}\n")
    ensures Candidate("x{}y") == Some("{}")
  {
    var s := "```json\n{}\n```";
    assert FenceOpensAt(s, 0);
    assert SkipWhitespace(s, 7) == 8 by {
      assert IsWhitespace(s[7]) && !IsWhitespace(s[8]);
      assert SkipWhitespace(s, 8) == 8;
    }
    assert FirstClose(s, 8) == Some(11) by {
      assert !FenceClosesAt(s, 8) && !FenceClosesAt(s, 9) && !FenceClosesAt(s, 10) && FenceClosesAt(s, 11);
    }
    assert FencedBody(s) == Some(Span(8, 11));
    assert s[8..11] == "{}\n";
    var t := "x{}y";
    assert FencedBody(t) == None;
    assert FirstIndex(t, '{') == Some(1) by {
      assert t[1..] == "{}y";
    }
    assert LastIndex(t, '}') == Some(2) by {
      assert t[..3] == "x{}";
    }
    assert t[1..3] == "{}";
  }

  // ---- The normalisation pass ----

  const AllowedTypes: set<string> :=
    {"homework", "exam", "project", "quiz", "reading", "lab", "discussion", "deadline"}

  /** `x || {}` for a property read. */
  function OrEmpty(o: Option<Json>): Json {
    if Present(o) then o.value else EmptyObject
  }

  /** `Array.isArray(x) ? x : []` for a property read. */
  function ArrayItems(o: Option<Json>): seq<Json> {
    if o.Some? && o.value.Arr? then o.value.items else []
  }

  /** `String(v)` where the text can matter: strings, booleans, `null`, and arrays of at
      most one element (joined as `Array.prototype.join` does, `null` giving ""). `None`
      stands for the other texts, the numerals, "[object Object]" and joins containing a
      comma, none of which lower-cases to an allowed type. */
  function TypeText(v: Json): Option<string> {
    match v
    case Str(s) => Some(s)
    case Bool(b) => Some(if b then "true" else "false")
    case Null => Some("null")
    case Arr(items) =>
      if items == [] then Some("")
      else if |items| == 1 then (if items[0].Null? then Some("") else TypeText(items[0]))
      else None
    case Num(_) => None
    case Obj(_) => None
  }

  /** `allowedTypes.has(t) ? t : 'homework'` with `t = String(type).toLowerCase()`. */
  function CoercedType(v: Json): (t: string)
    ensures t in AllowedTypes
    ensures TypeText(v).Some? && ToLowerCase(TypeText(v).value) in AllowedTypes ==> t == ToLowerCase(TypeText(v).value)
    ensures !(TypeText(v).Some? && ToLowerCase(TypeText(v).value) in AllowedTypes) ==> t == "homework"
  {
    var text := TypeText(v);
    if text.Some? && ToLowerCase(text.value) in AllowedTypes then ToLowerCase(text.value) else "homework"
  }

  /** The string week turned into its `parseInt` value when that is a number. */
  function WeekNormalized(fields: map<string, Json>): map<string, Json> {
    if "week" in fields && fields["week"].Str? && ParseInt(fields["week"].s).Some?
    then fields["week" := Num(ParseInt(fields["week"].s).value as real)]
    else fields
  }

  /** The callback's effect on an assignment object's members. */
  function NormalizedFields(fields: map<string, Json>): (r: map<string, Json>)
    ensures "type" in r && r["type"].Str? && r["type"].s in AllowedTypes
    ensures forall k :: k in fields && k != "week" && k != "type" ==> k in r && r[k] == fields[k]
    ensures forall k :: k in r ==> k in fields || k == "type"
  {
    var withWeek := WeekNormalized(fields);
    var kind := Get(Obj(withWeek), "type");
    withWeek["type" := Str(if Present(kind) then CoercedType(kind.value) else "homework")]
  }

  /** A string, number or boolean that is truthy: the callback's write of `type` on it
      throws. */
  predicate TruthyPrimitive(a: Json) {
    Truthy(a) && !a.Obj? && !a.Arr?
  }

  /** The `map` callback on one assignment: `None` when it throws. A falsy item becomes a
      new object; an array takes its writes as properties the reply does not carry. */
  function ItemStep(a: Json): (r: Option<Json>)
    ensures r.None? <==> TruthyPrimitive(a)
  {
    if !Truthy(a) then Some(Obj(NormalizedFields(map[])))
    else if a.Obj? then Some(Obj(NormalizedFields(a.fields)))
    else if a.Arr? then Some(a)
    else None
  }

  /** The item as it stands in the original array once its callback ran: objects are
      changed in place, a falsy item is only replaced in the new array. */
  function InPlace(a: Json): Json {
    if a.Obj? then Obj(NormalizedFields(a.fields)) else a
  }

  /** The assignments after the `map`: the new array, or, when a callback throws, the old
      array as the earlier callbacks left it. */
  datatype MapOutcome = Mapped(items: seq<Json>) | Stopped(items: seq<Json>)

  function MapItems(items: seq<Json>): (r: MapOutcome)
    ensures |r.items| == |items|
  {
    if items == [] then Mapped([])
    else
      match ItemStep(items[0])
      case None => Stopped(items)
      case Some(x) =>
        match MapItems(items[1..])
        case Mapped(rest) => Mapped([x] + rest)
        case Stopped(rest) => Stopped([InPlace(items[0])] + rest)
  }

  /** `mapped` and `kept` are what the callbacks so far produced and left in place, ahead
      of the outcome of the rest. */
  function Prefixed(mapped: seq<Json>, kept: seq<Json>, rest: MapOutcome): MapOutcome {
    match rest
    case Mapped(xs) => Mapped(mapped + xs)
    case Stopped(xs) => Stopped(kept + xs)
  }

  /** The assignment normalisation: runs the callback on each item in order and stops at
      the first one that throws. */
  method NormalizeAssignments(items: seq<Json>) returns (r: MapOutcome)
    ensures r == MapItems(items)
  {
    var mapped: seq<Json> := [];
    var kept: seq<Json> := [];
    var i := 0;
    while i < |items|
      invariant 0 <= i <= |items| && |mapped| == i && |kept| == i
      invariant MapItems(items) == Prefixed(mapped, kept, MapItems(items[i..]))
      invariant forall j :: 0 <= j < i ==> kept[j] == InPlace(items[j])
    {
      var step := ItemStep(items[i]);
      assert items[i..][0] == items[i] && items[i..][1..] == items[i + 1..];
      if step.None? {
        return Stopped(kept + items[i..]);
      }
      PrefixedStep(mapped, kept, step.value, InPlace(items[i]), MapItems(items[i + 1..]));
      mapped := mapped + [step.value];
      kept := kept + [InPlace(items[i])];
      i := i + 1;
    }
    assert items[i..] == [];
    assert mapped + [] == mapped;
    r := Mapped(mapped);
  }

  lemma {:induction false} PrefixedStep(mapped: seq<Json>, kept: seq<Json>, x: Json, y: Json, rest: MapOutcome)
    ensures Prefixed(mapped, kept, Prefixed([x], [y], rest)) == Prefixed(mapped + [x], kept + [y], rest)
  {
    match rest
    case Mapped(xs) => assert mapped + ([x] + xs) == (mapped + [x]) + xs;
    case Stopped(xs) => assert kept + ([y] + xs) == (kept + [y]) + xs;
  }

  /** `a && (a.week != null || a.specific_date)`. */
  predicate IsDatedItem(a: Json) {
    a.Obj? && (("week" in a.fields && !a.fields["week"].Null?) || Present(Get(a, "specific_date")))
  }

  function CountDatedItems(items: seq<Json>): (n: nat)
    ensures n <= |items|
  {
    if items == [] then 0 else CountDatedItems(items[..|items| - 1]) + (if IsDatedItem(items[|items| - 1]) then 1 else 0)
  }

  /** The metadata defaults on an object metadata, counting over the assignments `items`. */
  function MetadataDefaults(m: map<string, Json>, items: seq<Json>): map<string, Json> {
    var m1 := if IsNumber(Get(Obj(m), "parsing_confidence")) then m else m["parsing_confidence" := Num(0.8)];
    var m2 := if IsNumber(Get(Obj(m1), "weeks_detected")) then m1
              else m1["weeks_detected" := Num(CountDatedItems(items) as real)];
    if Present(Get(Obj(m2), "original_format")) then m2 else m2["original_format" := Str("text")]
  }

  /** The normalisation pass as a function of the parsed reply. */
  function NormalizedReply(data: Json): Json {
    var d := if Truthy(data) then data else EmptyObject;
    if !d.Obj? then d
    else
      var info := OrEmpty(Get(d, "course_info"));
      var items := ArrayItems(Get(d, "assignments"));
      var meta := OrEmpty(Get(d, "metadata"));
      var staged := Set(Set(Set(d, "course_info", CopyAliases(info)), "assignments", Arr(items)), "metadata", meta);
      if meta.Obj? then
        Set(Set(staged, "metadata", Obj(MetadataDefaults(meta.fields, items))), "assignments", Arr(MapItems(items).items))
      else if meta.Arr? then Set(staged, "assignments", Arr(MapItems(items).items))
      else staged
  }

  /** The normalisation block of the route, step by step. */
  method NormalizeGeminiReply(data: Json) returns (r: Json)
    ensures r == NormalizedReply(data)
  {
    r := if Truthy(data) then data else EmptyObject;
    if !r.Obj? {
      return;
    }
    var info := OrEmpty(Get(r, "course_info"));
    var items := ArrayItems(Get(r, "assignments"));
    var meta := OrEmpty(Get(r, "metadata"));
    r := Set(r, "course_info", CopyAliases(info));
    r := Set(r, "assignments", Arr(items));
    r := Set(r, "metadata", meta);
    if meta.Obj? {
      r := Set(r, "metadata", Obj(MetadataDefaults(meta.fields, items)));
    } else if !meta.Arr? {
      return;
    }
    var outcome := NormalizeAssignments(items);
    r := Set(r, "assignments", Arr(outcome.items));
  }

  // ---- What the pass guarantees ----

  /** For an object (or falsy) reply, the result is an object whose `assignments` is an
      array with one entry per original array entry (none when it was not an array),
      whose `course_info` is the original (or `{}`) with aliases copied, and whose
      `metadata` is an object or array exactly when the original was falsy, an object or
      an array. */
  lemma {:induction false} NormalizedContainers(data: Json)
    requires !Truthy(data) || data.Obj?
    ensures var d := if Truthy(data) then data else EmptyObject;
      var r := NormalizedReply(data);
      && r.Obj?
      && "assignments" in r.fields && r.fields["assignments"].Arr?
      && |r.fields["assignments"].items| == |ArrayItems(Get(d, "assignments"))|
      && "course_info" in r.fields && r.fields["course_info"] == CopyAliases(OrEmpty(Get(d, "course_info")))
      && (r.fields["course_info"].Obj? <==> OrEmpty(Get(d, "course_info")).Obj?)
      && "metadata" in r.fields
      && (r.fields["metadata"].Obj? <==> OrEmpty(Get(d, "metadata")).Obj?)
      && (forall k :: k in d.fields && k != "course_info" && k != "assignments" && k != "metadata" ==>
            k in r.fields && r.fields[k] == d.fields[k])
  {
    NormalizedAssignmentsArray(data);
    NormalizedCourseInfo(data);
    NormalizedMetadataKind(data);
    NormalizedKeepsOtherMembers(data);
  }

  lemma {:induction false} NormalizedAssignmentsArray(data: Json)
    requires !Truthy(data) || data.Obj?
    ensures var d := if Truthy(data) then data else EmptyObject;
      var r := NormalizedReply(data);
      && r.Obj?
      && "assignments" in r.fields && r.fields["assignments"].Arr?
      && |r.fields["assignments"].items| == |ArrayItems(Get(d, "assignments"))|
  {
  }

  lemma {:induction false} NormalizedCourseInfo(data: Json)
    requires !Truthy(data) || data.Obj?
    ensures var d := if Truthy(data) then data else EmptyObject;
      var r := NormalizedReply(data);
      && r.Obj?
      && "course_info" in r.fields && r.fields["course_info"] == CopyAliases(OrEmpty(Get(d, "course_info")))
      && (r.fields["course_info"].Obj? <==> OrEmpty(Get(d, "course_info")).Obj?)
  {
    var d := if Truthy(data) then data else EmptyObject;
    var info := OrEmpty(Get(d, "course_info"));
    if info.Obj? {
      assert CopyAliases(info).Obj?;
    } else {
      CopyAliasesNonObject(info);
    }
  }

  lemma {:induction false} NormalizedMetadataKind(data: Json)
    requires !Truthy(data) || data.Obj?
    ensures var d := if Truthy(data) then data else EmptyObject;
      var r := NormalizedReply(data);
      && r.Obj?
      && "metadata" in r.fields
      && (r.fields["metadata"].Obj? <==> OrEmpty(Get(d, "metadata")).Obj?)
  {
  }

  lemma {:induction false} NormalizedKeepsOtherMembers(data: Json)
    requires !Truthy(data) || data.Obj?
    ensures var d := if Truthy(data) then data else EmptyObject;
      var r := NormalizedReply(data);
      && r.Obj?
      && (forall k :: k in d.fields && k != "course_info" && k != "assignments" && k != "metadata" ==>
            k in r.fields && r.fields[k] == d.fields[k])
  {
  }

  /** Each metadata default applies only when its value is missing: a non-number
      confidence becomes 0.8, a non-number week count becomes the number of dated
      assignments, a falsy format becomes `'text'`; every other member is kept. */
  lemma {:induction false} MetadataDefaultsEffect(m: map<string, Json>, items: seq<Json>)
    ensures var r := MetadataDefaults(m, items);
      && "parsing_confidence" in r && "weeks_detected" in r && "original_format" in r
      && r["parsing_confidence"] == (if IsNumber(Get(Obj(m), "parsing_confidence")) then m["parsing_confidence"] else Num(0.8))
      && r["weeks_detected"] == (if IsNumber(Get(Obj(m), "weeks_detected")) then m["weeks_detected"]
                                   else Num(CountDatedItems(items) as real))
      && r["original_format"] == (if Present(Get(Obj(m), "original_format")) then m["original_format"] else Str("text"))
      && r["parsing_confidence"].Num? && r["weeks_detected"].Num? && Truthy(r["original_format"])
      && (forall k :: k in m && k != "parsing_confidence" && k != "weeks_detected" && k != "original_format" ==>
            k in r && r[k] == m[k])
  {
  }

  /** The map throws exactly when some item is a truthy string, number or boolean. */
  lemma {:induction false} MapThrowsIff(items: seq<Json>)
    ensures MapItems(items).Stopped? <==> exists i :: 0 <= i < |items| && TruthyPrimitive(items[i])
  {
    if items != [] {
      MapThrowsIff(items[1..]);
      if ItemStep(items[0]).Some? {
        assert forall i :: 1 <= i < |items| ==> items[i] == items[1..][i - 1];
        if exists i :: 0 <= i < |items| && TruthyPrimitive(items[i]) {
          var i :| 0 <= i < |items| && TruthyPrimitive(items[i]);
          assert i != 0 && TruthyPrimitive(items[1..][i - 1]);
        }
      }
    }
  }

  /** When the map completes, the items keep their count and order, every item is an
      object with an allowed `type` or an array left as it was, and each object item is
      its callback's result. */
  lemma {:induction false} MappedItemsTyped(items: seq<Json>)
    requires MapItems(items).Mapped?
    ensures forall i :: 0 <= i < |items| ==> ItemStep(items[i]).Some? && MapItems(items).items[i] == ItemStep(items[i]).value
    ensures forall i :: 0 <= i < |items| ==>
      var x := MapItems(items).items[i];
      (x.Obj? && "type" in x.fields && x.fields["type"].Str? && x.fields["type"].s in AllowedTypes)
      || (x.Arr? && x == items[i])
  {
    if items != [] {
      MappedItemsTyped(items[1..]);
      assert forall i :: 1 <= i < |items| ==> items[i] == items[1..][i - 1];
    }
  }

  /** When item `k` is the first whose callback throws, the items before it stand as
      their callbacks left them in place and the items from `k` on are untouched. */
  lemma {:induction false} ThrowKeepsPrefix(items: seq<Json>, k: nat)
    requires k < |items| && TruthyPrimitive(items[k])
    requires forall j :: 0 <= j < k ==> !TruthyPrimitive(items[j])
    ensures MapItems(items) == Stopped(seq(k, j requires 0 <= j < k => InPlace(items[j])) + items[k..])
  {
    if k == 0 {
      assert items[0..] == items;
    } else {
      var tail := items[1..];
      assert forall j :: 0 <= j < k - 1 ==> tail[j] == items[j + 1];
      ThrowKeepsPrefix(tail, k - 1);
      assert [InPlace(items[0])] + (seq(k - 1, j requires 0 <= j < k - 1 => InPlace(tail[j])) + tail[k - 1..])
             == seq(k, j requires 0 <= j < k => InPlace(items[j])) + items[k..];
    }
  }

  /** A string week is replaced by its `parseInt` value when there is one and kept
      otherwise; a type that lower-cases to an allowed type becomes that lower case,
      any other truthy type and a missing one become `'homework'`. */
  lemma {:induction false} ItemFieldRules(fields: map<string, Json>)
    ensures var r := NormalizedFields(fields);
      && ("week" in fields && fields["week"].Str? && ParseInt(fields["week"].s).Some? ==>
            r["week"] == Num(ParseInt(fields["week"].s).value as real))
      && ("week" in fields && !(fields["week"].Str? && ParseInt(fields["week"].s).Some?) ==> r["week"] == fields["week"])
      && ("week" !in fields ==> "week" !in r)
      && (Present(Get(Obj(fields), "type")) && TypeText(fields["type"]).Some?
          && ToLowerCase(TypeText(fields["type"]).value) in AllowedTypes ==>
            r["type"] == Str(ToLowerCase(TypeText(fields["type"]).value)))
      && (!Present(Get(Obj(fields), "type")) ==> r["type"] == Str("homework"))
  {
  }

  /** `"Quiz"` is kept as `"quiz"`. */
  lemma {:induction false} QuizTypeExample()
    ensures NormalizedFields(map["type" := Str("Quiz")])["type"] == Str("quiz")
  {
    var f := map["type" := Str("Quiz")];
    assert WeekNormalized(f) == f;
    assert ToLowerCase("Quiz") == "quiz";
    assert "quiz" in AllowedTypes;
  }

  /** `"Essay"` is not an allowed type and becomes `"homework"`. */
  lemma {:induction false} EssayTypeExample()
    ensures NormalizedFields(map["type" := Str("Essay")])["type"] == Str("homework")
  {
    var f := map["type" := Str("Essay")];
    assert WeekNormalized(f) == f;
    assert ToLowerCase("Essay") == "essay";
    assert "essay" !in AllowedTypes by {
      assert "essay"[0] == 'e' && "exam"[1] == 'x';
    }
  }

  /** `parseInt(" 3 ")` is 3. */
  lemma {:induction false} ParseIntPaddedThree()
    ensures ParseInt(" 3 ") == Some(3)
  {
    var w := " 3 ";
    assert TrimStart(w) == w[1..] by {
      assert IsWhitespace(w[0]) && !IsWhitespace(w[1]);
    }
    assert DigitPrefix(w[1..]) == "3" by {
      DigitPrefixOfDigits("3", " ");
      assert w[1..] == "3" + " ";
    }
    assert DigitsValue("3") == 3 by {
      assert "3"[..0] == [];
    }
    assert SignStripped(w[1..]) == w[1..];
  }

  /** A week written `" 3 "` becomes the number 3. */
  lemma {:induction false} StringWeekExample()
    ensures NormalizedFields(map["week" := Str(" 3 ")])["week"] == Num(3.0)
  {
    ParseIntPaddedThree();
    ItemFieldRules(map["week" := Str(" 3 ")]);
  }

  /** Lower-casing twice is lower-casing once. */
  lemma {:induction false} LowerCaseIdempotent(t: string)
    ensures ToLowerCase(ToLowerCase(t)) == ToLowerCase(t)
  {
    if t != [] {
      LowerCaseIdempotent(t[1..]);
      assert ToLowerCase(t)[1..] == ToLowerCase(t[1..]);
    }
  }

  /** Lower-casing a word of lower-case ASCII letters keeps it. */
  lemma {:induction false} LowerCaseOfLowerWord(t: string)
    requires forall i :: 0 <= i < |t| ==> 'a' <= t[i] <= 'z'
    ensures ToLowerCase(t) == t
  {
    if t != [] {
      LowerCaseOfLowerWord(t[1..]);
    }
  }

  /** The fallback type is its own lower case. */
  lemma {:induction false} HomeworkIsLower()
    ensures ToLowerCase("homework") == "homework"
  {
    LowerCaseOfLowerWord("homework");
  }

  /** A coerced type lower-cases to itself. */
  lemma {:induction false} CoercedTypeLowerCase(v: Json)
    ensures CoercedType(v) != "" && ToLowerCase(CoercedType(v)) == CoercedType(v)
  {
    var text := TypeText(v);
    if text.Some? && ToLowerCase(text.value) in AllowedTypes {
      assert CoercedType(v) == ToLowerCase(text.value);
      assert "" !in AllowedTypes;
      LowerCaseIdempotent(text.value);
    } else {
      assert CoercedType(v) == "homework";
      HomeworkIsLower();
    }
  }

  /** A week the first pass left is not a string `parseInt` can read. */
  lemma {:induction false} WeekNormalizedSettles(fields: map<string, Json>)
    ensures var w := WeekNormalized(fields);
      "week" in w ==> !(w["week"].Str? && ParseInt(w["week"].s).Some?)
  {
  }

  /** The type the first pass wrote lower-cases to itself. */
  lemma {:induction false} NormalizedTypeSettles(fields: map<string, Json>)
    ensures var t := NormalizedFields(fields)["type"].s; t != "" && ToLowerCase(t) == t
  {
    var kind := Get(Obj(WeekNormalized(fields)), "type");
    if Present(kind) {
      CoercedTypeLowerCase(kind.value);
    } else {
      HomeworkIsLower();
    }
  }

  /** The week step leaves a normalised assignment as it is. */
  lemma {:induction false} WeekStepSettles(fields: map<string, Json>)
    ensures WeekNormalized(NormalizedFields(fields)) == NormalizedFields(fields)
  {
    var w := WeekNormalized(fields);
    var once := NormalizedFields(fields);
    WeekNormalizedSettles(fields);
    assert "week" in once ==> once["week"] == w["week"];
  }

  /** Writing a member's own value back changes nothing. */
  lemma {:induction false} UpdateWithSame(m: map<string, Json>, k: string)
    requires k in m
    ensures m[k := m[k]] == m
  {
  }

  /** The type step leaves a normalised assignment as it is. */
  lemma {:induction false} TypeStepSettles(fields: map<string, Json>)
    ensures var once := NormalizedFields(fields);
      once["type" := Str(CoercedType(once["type"]))] == once
  {
    var once := NormalizedFields(fields);
    NormalizedTypeSettles(fields);
    var t := once["type"].s;
    assert once["type"] == Str(t);
    assert TypeText(Str(t)) == Some(t);
    assert ToLowerCase(t) == t && t in AllowedTypes;
    assert CoercedType(Str(t)) == t;
    UpdateWithSame(once, "type");
  }

  /** Normalising an assignment object a second time changes nothing. */
  lemma {:induction false} NormalizedFieldsIdempotent(fields: map<string, Json>)
    ensures NormalizedFields(NormalizedFields(fields)) == NormalizedFields(fields)
  {
    var once := NormalizedFields(fields);
    WeekStepSettles(fields);
    TypeStepSettles(fields);
    NormalizedTypeSettles(fields);
    var kind := Get(Obj(once), "type");
    assert kind == Some(once["type"]);
    assert Present(kind);
    assert NormalizedFields(once) == once["type" := Str(CoercedType(once["type"]))];
  }

  /** Mapping the mapped assignments again gives them back unchanged. */
  lemma {:induction false} MappedItemsSettle(items: seq<Json>)
    requires MapItems(items).Mapped?
    ensures MapItems(MapItems(items).items) == MapItems(items)
  {
    if items != [] {
      var x := ItemStep(items[0]).value;
      MappedItemsSettle(items[1..]);
      var out := MapItems(items).items;
      assert out[0] == x && out[1..] == MapItems(items[1..]).items;
      if x.Obj? {
        if items[0].Obj? {
          NormalizedFieldsIdempotent(items[0].fields);
        } else {
          NormalizedFieldsIdempotent(map[]);
        }
      }
      assert ItemStep(x) == Some(x);
    }
  }

  /** A metadata that is a truthy string, number or boolean ends the pass before the
      assignments are touched: they are the original array entries, untyped. */
  lemma {:induction false} PrimitiveMetadataStopsPass(data: Json)
    requires data.Obj?
    requires TruthyPrimitive(OrEmpty(Get(data, "metadata")))
    ensures NormalizedReply(data).fields["assignments"] == Arr(ArrayItems(Get(data, "assignments")))
    ensures NormalizedReply(data).fields["metadata"] == data.fields["metadata"]
  {
  }
}
