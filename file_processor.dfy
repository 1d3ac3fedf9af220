/**
  The upload side of the pipeline (`lib/openai/fileProcessor.ts`): checking a file's
  size and media type, routing it to text extraction or to the vision model, cleaning
  extracted text, counting its words, and the batch helpers that validate a list of files
  and summarise a list of processed files.

  The PDF, Word and plain-text readers and the data-URL reader are libraries outside the
  model; they enter as the `Extractors` oracle.
*/
module FileProcessor {
  import opened Options
  import opened JsString

  /** The largest accepted file: 10 MiB. */
  const MaxFileSize: nat := 10 * 1024 * 1024

  /** The media types `validateFile` accepts. */
  const SupportedTypes: seq<string> := [
    "application/pdf",
    "application/msword",
    "application/vnd.openxmlformats-officedocument.wordprocessingml.document",
    "image/jpeg",
    "image/png",
    "text/plain"
  ]

  /** The media types routed to the vision model. */
  const ImageTypes: seq<string> := ["image/jpeg", "image/png", "image/gif"]

  /** A browser `File` as far as the pipeline reads it. */
  datatype File = File(name: string, mimeType: string, size: nat)

  datatype ProcessingMethod = TextExtraction | VisionApi

  datatype ContentType = Text | Base64

  datatype ErrorType = UnsupportedFile | CorruptedFile | ProcessingFailure | FileTooLarge

  datatype FileMetadata = FileMetadata(
    originalName: string,
    mimeType: string,
    size: nat,
    pageCount: Option<nat>,
    wordCount: nat)

  datatype ProcessedFile = ProcessedFile(
    content: string,
    contentType: ContentType,
    processingMethod: ProcessingMethod,
    metadata: FileMetadata)

  datatype ProcessingError = ProcessingError(errorType: ErrorType, message: string, fileName: string)

  /** The verdict of `validateFile`: accepted, or the first failed check with its message. */
  datatype FileCheck = Accepted | Refused(error: string, errorType: ErrorType)

  // ---- Validation and routing ----

  /** The size in tenths of a MiB, rounded to the nearest tenth with halves upwards. */
  function Tenths(size: nat): nat {
    (10 * size + 524288) / 1048576
  }

  /** `(size / 2^20).toFixed(1)`: the size in MiB rounded to one decimal. */
  function SizeInMiB(size: nat): string {
    NatToString(Tenths(size) / 10) + "." + [DigitChar(Tenths(size) % 10)]
  }

  predicate IsSupportedType(mimeType: string) {
    mimeType in SupportedTypes
  }

  function TooLargeMessage(size: nat): string {
    "File is too large (" + SizeInMiB(size) + "MB). Maximum size is 10MB."
  }

  function UnsupportedMessage(mimeType: string): string {
    "File type " + mimeType + " is not supported. Please use PDF, Word documents, or images."
  }

  /** `validateFile`: a file is accepted exactly when it is non-empty, at most 10 MiB and
      of a supported media type. */
  function ValidateFile(file: File): (r: FileCheck)
    ensures r.Accepted? <==> 0 < file.size <= MaxFileSize && IsSupportedType(file.mimeType)
  {
    if file.size == 0 then
      Refused("File appears to be empty", CorruptedFile)
    else if file.size > MaxFileSize then
      Refused(TooLargeMessage(file.size), FileTooLarge)
    else if !IsSupportedType(file.mimeType) then
      Refused(UnsupportedMessage(file.mimeType), UnsupportedFile)
    else Accepted
  }

  /** The checks of `validateFile` come in order: an empty file is reported as corrupted
      whatever its type, then an oversized one as too large, and only a file of acceptable
      size as unsupported; no refusal is a processing error. */
  lemma {:induction false} ValidateFileOrder(file: File)
    ensures ValidateFile(file).Refused? && ValidateFile(file).errorType == CorruptedFile
            <==> file.size == 0
    ensures ValidateFile(file).Refused? && ValidateFile(file).errorType == FileTooLarge
            <==> file.size > MaxFileSize
    ensures ValidateFile(file).Refused? && ValidateFile(file).errorType == UnsupportedFile
            <==> 0 < file.size <= MaxFileSize && !IsSupportedType(file.mimeType)
    ensures ValidateFile(file).Refused? ==> ValidateFile(file).errorType != ProcessingFailure
  {
  }

  /** `getProcessingMethod`: images go to the vision model, everything else to text
      extraction. */
  function GetProcessingMethod(mimeType: string): (m: ProcessingMethod)
    ensures m == VisionApi <==>
            mimeType == "image/jpeg" || mimeType == "image/png" || mimeType == "image/gif"
  {
    if mimeType in ImageTypes then VisionApi else TextExtraction
  }

  /** GIF images are routed to the vision model, yet `validateFile` refuses every GIF. */
  lemma {:induction false} GifRoutedButRefused(file: File)
    requires file.mimeType == "image/gif"
    ensures GetProcessingMethod(file.mimeType) == VisionApi
    ensures ValidateFile(file).Refused?
  {
    assert file.mimeType != SupportedTypes[3] && file.mimeType != SupportedTypes[4];
  }

  /** One byte over the limit reads as 10.0 MiB. */
  lemma {:induction false} SizeTextJustOverLimit()
    ensures SizeInMiB(MaxFileSize + 1) == "10.0"
  {
    assert Tenths(MaxFileSize + 1) == 100;
    assert NatToString(1) == "1";
    assert NatToString(10) == NatToString(1) + [DigitChar(0)] == "10";
  }

  /** A PDF of exactly 10 MiB passes the checks; one byte more is too large, whatever its
      type, and the message gives the size as 10.0. */
  lemma {:induction false} SizeBoundary(name: string, mimeType: string)
    ensures ValidateFile(File(name, "application/pdf", MaxFileSize)) == Accepted
    ensures ValidateFile(File(name, mimeType, MaxFileSize + 1))
            == Refused(TooLargeMessage(MaxFileSize + 1), FileTooLarge)
    ensures SizeInMiB(MaxFileSize + 1) == "10.0"
  {
    assert IsSupportedType(SupportedTypes[0]);
    SizeTextJustOverLimit();
  }

  /** The rounded size text is within half a tenth of the exact size:
      `|tenths / 10 - size / 2^20| <= 1/20`. */
  lemma {:induction false} SizeInMiBRounds(size: nat)
    ensures 2 * (Tenths(size) * 1048576) <= 20 * size + 1048576
    ensures 20 * size < 2 * (Tenths(size) * 1048576) + 1048576
  {
  }

  // ---- Text cleanup ----

  /** The characters the last rewrite of `cleanExtractedText` deletes:
      U+0000-U+0008, U+000B, U+000C, U+000E-U+001F and U+007F. */
  predicate IsStrippedControl(c: char) {
    ('\U{0000}' <= c <= '\U{0008}') || c == '\U{000B}' || c == '\U{000C}'
    || ('\U{000E}' <= c <= '\U{001F}') || c == '\U{007F}'
  }

  /** No character of `s` is one the control-character rewrite deletes. */
  predicate NoControls(s: string) {
    s == [] || (!IsStrippedControl(s[0]) && NoControls(s[1..]))
  }

  /** No line feed, carriage return or tab in `s`. */
  predicate NoLineBreaks(s: string) {
    s == [] || (s[0] != '\n' && s[0] != '\r' && s[0] != '\t' && NoLineBreaks(s[1..]))
  }

  /** Every whitespace character of `s` is a plain space followed by a character that is
      not whitespace (or by nothing). */
  predicate SingleSpaced(s: string) {
    s == [] ||
    ((IsWhitespace(s[0]) ==> s[0] == ' ' && (|s| == 1 || !IsWhitespace(s[1]))) && SingleSpaced(s[1..]))
  }

  /** `s.replace(/[\x00-\x08\x0B\x0C\x0E-\x1F\x7F]/g, '')`. */
  function RemoveControls(s: string): (r: string)
    ensures |r| <= |s|
    ensures NoControls(r)
    ensures NoControls(s) ==> r == s
    ensures NoLineBreaks(s) ==> NoLineBreaks(r)
  {
    if s == [] then []
    else if IsStrippedControl(s[0]) then RemoveControls(s[1..])
    else
      var rest := RemoveControls(s[1..]);
      assert ([s[0]] + rest)[1..] == rest;
      [s[0]] + rest
  }

  /** `cleanExtractedText`, step by step: whitespace runs to one space, runs of three or
      more line feeds to two, trim, no-break spaces to spaces, the two quote rewrites
      (whose classes hold only the ASCII quote itself, so they change nothing), and the
      control-character deletion. */
  function CleanExtractedText(text: string): string {
    var collapsed := CollapseWhitespace(text);
    var newlines := CollapseNewlineRuns(collapsed);
    var trimmed := Trim(newlines);
    var spaces := ReplaceChar(trimmed, '\U{00A0}', ' ');
    var quotes := ReplaceChar(spaces, '"', '"');
    var apostrophes := ReplaceChar(quotes, '\'', '\'');
    RemoveControls(apostrophes)
  }

  lemma {:induction false} CollapseWhitespaceSingleSpaced(s: string)
    ensures SingleSpaced(CollapseWhitespace(s))
    ensures CollapseWhitespace(s) == [] <==> s == []
    ensures s != [] ==> CollapseWhitespace(s)[0] == if IsWhitespace(s[0]) then ' ' else s[0]
    decreases |s|
  {
    if s != [] {
      if IsWhitespace(s[0]) {
        var t := TrimStart(s);
        CollapseWhitespaceSingleSpaced(t);
        var r := CollapseWhitespace(t);
        assert CollapseWhitespace(s) == " " + r;
        assert (" " + r)[1..] == r;
      } else {
        var r := CollapseWhitespace(s[1..]);
        CollapseWhitespaceSingleSpaced(s[1..]);
        assert CollapseWhitespace(s) == [s[0]] + r;
        assert ([s[0]] + r)[1..] == r;
      }
    }
  }

  lemma {:induction false} NoControlsSuffix(s: string, k: nat)
    requires NoControls(s) && k <= |s|
    ensures NoControls(s[k..])
    decreases k
  {
    if k > 0 {
      NoControlsSuffix(s[1..], k - 1);
      assert s[1..][k - 1..] == s[k..];
    }
  }

  lemma {:induction false} NoControlsPrefix(s: string, k: nat)
    requires NoControls(s) && k <= |s|
    ensures NoControls(s[..k])
    decreases k
  {
    if k > 0 {
      NoControlsPrefix(s[1..], k - 1);
      assert s[..k][1..] == s[1..][..k - 1];
    }
  }

  lemma {:induction false} SingleSpacedSuffix(s: string, k: nat)
    requires SingleSpaced(s) && k <= |s|
    ensures SingleSpaced(s[k..])
    decreases k
  {
    if k > 0 {
      SingleSpacedSuffix(s[1..], k - 1);
      assert s[1..][k - 1..] == s[k..];
    }
  }

  lemma {:induction false} SingleSpacedPrefix(s: string, k: nat)
    requires SingleSpaced(s) && k <= |s|
    ensures SingleSpaced(s[..k])
    decreases k
  {
    if k > 0 {
      SingleSpacedPrefix(s[1..], k - 1);
      assert s[..k][1..] == s[1..][..k - 1];
    }
  }

  lemma {:induction false} CollapseWhitespaceKeepsNoControls(s: string)
    requires NoControls(s)
    ensures NoControls(CollapseWhitespace(s))
    decreases |s|
  {
    if s != [] {
      if IsWhitespace(s[0]) {
        var t := TrimStart(s);
        NoControlsSuffix(s, |s| - |t|);
        CollapseWhitespaceKeepsNoControls(t);
        assert (" " + CollapseWhitespace(t))[1..] == CollapseWhitespace(t);
      } else {
        CollapseWhitespaceKeepsNoControls(s[1..]);
        assert ([s[0]] + CollapseWhitespace(s[1..]))[1..] == CollapseWhitespace(s[1..]);
      }
    }
  }

  lemma {:induction false} SingleSpacedFixedByNewlineRule(s: string)
    requires SingleSpaced(s)
    ensures CollapseNewlineRuns(s) == s
    ensures NoLineBreaks(s)
    decreases |s|
  {
    if s != [] {
      SingleSpacedFixedByNewlineRule(s[1..]);
    }
  }

  lemma {:induction false} SingleSpacedHasNoNbsp(s: string)
    requires SingleSpaced(s)
    ensures ReplaceChar(s, '\U{00A0}', ' ') == s
    decreases |s|
  {
    if s != [] {
      SingleSpacedHasNoNbsp(s[1..]);
    }
  }

  lemma {:induction false} ReplaceCharIdentity(s: string, c: char)
    ensures ReplaceChar(s, c, c) == s
  {
  }

  /** `Trim` keeps a single-spaced string single-spaced. */
  lemma {:induction false} TrimKeepsSingleSpaced(s: string)
    requires SingleSpaced(s)
    ensures SingleSpaced(Trim(s))
  {
    var start := TrimStart(s);
    SingleSpacedSuffix(s, |s| - |start|);
    SingleSpacedPrefix(start, |TrimEnd(start)|);
  }

  /** The output of `cleanExtractedText` holds no line feed, tab, carriage return or other
      deleted control character: the first rewrite turns every whitespace run into a
      space, so the line-feed rewrite never fires. */
  lemma {:induction false} CleanedTextHasNoBreaks(text: string)
    ensures NoLineBreaks(CleanExtractedText(text))
    ensures NoControls(CleanExtractedText(text))
  {
    var collapsed := CollapseWhitespace(text);
    CollapseWhitespaceSingleSpaced(text);
    SingleSpacedFixedByNewlineRule(collapsed);
    var trimmed := Trim(collapsed);
    TrimKeepsSingleSpaced(collapsed);
    SingleSpacedHasNoNbsp(trimmed);
    ReplaceCharIdentity(trimmed, '"');
    ReplaceCharIdentity(trimmed, '\'');
    SingleSpacedFixedByNewlineRule(trimmed);
  }

  /** The last four rewrites change nothing in single-spaced text without deleted control
      characters. */
  lemma {:induction false} CleanupTailFixes(t: string)
    requires SingleSpaced(t) && NoControls(t)
    ensures RemoveControls(ReplaceChar(ReplaceChar(ReplaceChar(t, '\U{00A0}', ' '), '"', '"'), '\'', '\'')) == t
  {
    SingleSpacedHasNoNbsp(t);
    ReplaceCharIdentity(t, '"');
    ReplaceCharIdentity(t, '\'');
  }

  lemma {:induction false} TrimKeepsNoControls(s: string)
    requires NoControls(s)
    ensures NoControls(Trim(s))
  {
    var start := TrimStart(s);
    NoControlsSuffix(s, |s| - |start|);
    NoControlsPrefix(start, |TrimEnd(start)|);
  }

  /** Without deleted control characters in the input, cleaning is
      `text.replace(/\s+/g, ' ').trim()`. */
  lemma {:induction false} CleanedTextIsTrimmedCollapse(text: string)
    requires NoControls(text)
    ensures CleanExtractedText(text) == Trim(CollapseWhitespace(text))
  {
    var collapsed := CollapseWhitespace(text);
    CollapseWhitespaceSingleSpaced(text);
    CollapseWhitespaceKeepsNoControls(text);
    SingleSpacedFixedByNewlineRule(collapsed);
    TrimKeepsSingleSpaced(collapsed);
    TrimKeepsNoControls(collapsed);
    CleanupTailFixes(Trim(collapsed));
  }

  /** Without deleted control characters in the input, the output is trimmed and
      single-spaced. */
  lemma {:induction false} CleanedTextIsTrimmedAndSingleSpaced(text: string)
    requires NoControls(text)
    ensures var r := CleanExtractedText(text);
      && SingleSpaced(r)
      && (r == [] || (!IsWhitespace(r[0]) && !IsWhitespace(r[|r| - 1])))
  {
    CleanedTextIsTrimmedCollapse(text);
    var collapsed := CollapseWhitespace(text);
    CollapseWhitespaceSingleSpaced(text);
    TrimKeepsSingleSpaced(collapsed);
    var start := TrimStart(collapsed);
    var trimmed := TrimEnd(start);
    if trimmed != [] {
      assert trimmed[0] == start[0];
    }
  }

  lemma {:induction false} CollapseFixesSingleSpaced(s: string)
    requires SingleSpaced(s)
    ensures CollapseWhitespace(s) == s
    decreases |s|
  {
    if s != [] {
      CollapseFixesSingleSpaced(s[1..]);
      if IsWhitespace(s[0]) {
        assert TrimStart(s[1..]) == s[1..];
        assert TrimStart(s) == s[1..];
      }
    }
  }

  /** Text that is already trimmed, single-spaced and free of deleted control characters
      comes back unchanged. */
  lemma {:induction false} CleanFixesCleanText(text: string)
    requires SingleSpaced(text) && NoControls(text)
    requires text == [] || (!IsWhitespace(text[0]) && !IsWhitespace(text[|text| - 1]))
    ensures CleanExtractedText(text) == text
  {
    CleanOfTrimmedSingleSpaced(text);
  }

  /** On trimmed, single-spaced text only the control-character deletion does anything. */
  lemma {:induction false} CleanOfTrimmedSingleSpaced(text: string)
    requires SingleSpaced(text)
    requires text == [] || (!IsWhitespace(text[0]) && !IsWhitespace(text[|text| - 1]))
    ensures CleanExtractedText(text) == RemoveControls(text)
  {
    CollapseFixesSingleSpaced(text);
    SingleSpacedFixedByNewlineRule(text);
    TrimStartOfNonBlank(text);
    assert TrimEnd(text) == text;
    SingleSpacedHasNoNbsp(text);
    ReplaceCharIdentity(text, '"');
    ReplaceCharIdentity(text, '\'');
  }

  /** Cleaning is idempotent on text without deleted control characters. */
  lemma {:induction false} CleanIdempotent(text: string)
    requires NoControls(text)
    ensures CleanExtractedText(CleanExtractedText(text)) == CleanExtractedText(text)
  {
    CleanedTextIsTrimmedAndSingleSpaced(text);
    CleanedTextHasNoBreaks(text);
    CleanFixesCleanText(CleanExtractedText(text));
  }

  /** A control character between two spaces leaves two adjacent spaces behind:
      "a \u0001 b" cleans to "a  b", which is not single-spaced. */
  lemma {:induction false} ControlBetweenSpacesExample()
    ensures CleanExtractedText("a \U{0001} b") == "a  b"
    ensures !SingleSpaced(CleanExtractedText("a \U{0001} b"))
  {
    var s := "a \U{0001} b";
    ControlExampleSingleSpaced();
    assert !IsWhitespace(s[0]) && !IsWhitespace(s[|s| - 1]);
    CleanOfTrimmedSingleSpaced(s);
    ControlExampleRemoved();
    DoubleSpaceExample();
  }

  lemma {:induction false} ControlExampleSingleSpaced()
    ensures SingleSpaced("a \U{0001} b")
  {
    var s := "a \U{0001} b";
    assert SingleSpaced(s[4..]);
    assert SingleSpaced(s[3..]);
    assert SingleSpaced(s[2..]);
    assert SingleSpaced(s[1..]);
  }

  lemma {:induction false} ControlExampleRemoved()
    ensures RemoveControls("a \U{0001} b") == "a  b"
  {
    var s := "a \U{0001} b";
    assert RemoveControls(s[4..]) == "b";
    assert RemoveControls(s[3..]) == " b";
    assert RemoveControls(s[2..]) == " b";
    assert RemoveControls(s[1..]) == "  b";
  }

  lemma {:induction false} DoubleSpaceExample()
    ensures !SingleSpaced("a  b")
  {
    var r := "a  b";
    assert r[1..][0] == ' ' && r[1..][1] == ' ';
    assert !SingleSpaced(r[1..]);
  }

  // ---- Word count ----

  /** `countWords`. */
  function CountWords(text: string): nat {
    if text == "" || |Trim(text)| == 0 then 0
    else |NonEmptyPieces(SplitOnWhitespace(Trim(text)))|
  }

  /** The number of maximal runs of non-whitespace characters in `s`, where `afterSpace`
      says whether the character before `s` is whitespace (or there is none). */
  function WordRuns(s: string, afterSpace: bool): nat {
    if s == [] then 0
    else (if afterSpace && !IsWhitespace(s[0]) then 1 else 0) + WordRuns(s[1..], IsWhitespace(s[0]))
  }

  lemma {:induction false} WordRunsAppend(x: string, y: string, afterSpace: bool)
    ensures WordRuns(x + y, afterSpace)
            == WordRuns(x, afterSpace) + WordRuns(y, if x == [] then afterSpace else IsWhitespace(x[|x| - 1]))
    decreases |x|
  {
    if x == [] {
      assert x + y == y;
    } else {
      assert (x + y)[1..] == x[1..] + y;
      WordRunsAppend(x[1..], y, IsWhitespace(x[0]));
    }
  }

  lemma {:induction false} WordRunsOfWhitespace(s: string, afterSpace: bool)
    requires AllWhitespace(s)
    ensures WordRuns(s, afterSpace) == 0
    decreases |s|
  {
    if s != [] {
      WordRunsOfWhitespace(s[1..], true);
    }
  }

  lemma {:induction false} WordRunsOfWord(s: string, afterSpace: bool)
    requires s != [] && NoWhitespace(s)
    ensures WordRuns(s, afterSpace) == if afterSpace then 1 else 0
    decreases |s|
  {
    if |s| > 1 {
      WordRunsOfWord(s[1..], false);
    }
  }

  lemma {:induction false} PiecesStep(s: string)
    requires |TakeNonWhitespace(s)| < |s|
    ensures var w := TakeNonWhitespace(s);
      NonEmptyPieces(SplitOnWhitespace(s))
      == (if w != [] then [w] else []) + NonEmptyPieces(SplitOnWhitespace(TrimStart(s[|w|..])))
  {
    var w := TakeNonWhitespace(s);
    var pieces := SplitOnWhitespace(s);
    assert pieces == [w] + SplitOnWhitespace(TrimStart(s[|w|..]));
    assert pieces[1..] == SplitOnWhitespace(TrimStart(s[|w|..]));
  }

  lemma {:induction false} SplitAt(s: string, k: nat)
    requires k <= |s|
    ensures s == s[..k] + s[k..]
  {
  }

  /** The word runs of a text split at `k` are those of the two parts. */
  lemma {:induction false} WordRunsSplit(s: string, k: nat, afterSpace: bool)
    requires k <= |s|
    ensures WordRuns(s, afterSpace)
            == WordRuns(s[..k], afterSpace) + WordRuns(s[k..], if k == 0 then afterSpace else IsWhitespace(s[k - 1]))
  {
    SplitAt(s, k);
    WordRunsAppend(s[..k], s[k..], afterSpace);
  }

  /** A text that starts with whitespace has the word runs of what follows that
      whitespace, which is shorter. */
  lemma {:induction false} BlankStartWordRuns(gap: string, afterSpace: bool)
    requires gap != [] && IsWhitespace(gap[0])
    ensures |TrimStart(gap)| < |gap|
    ensures WordRuns(gap, afterSpace) == WordRuns(TrimStart(gap), true)
    decreases |gap|
  {
    var tail := gap[1..];
    assert TrimStart(gap) == TrimStart(tail);
    if tail != [] && IsWhitespace(tail[0]) {
      BlankStartWordRuns(tail, true);
    } else {
      TrimStartOfNonBlank(tail);
    }
  }

  /** A text without whitespace is one piece, kept when it is not empty. */
  lemma {:induction false} OneWordPieces(s: string)
    requires |TakeNonWhitespace(s)| == |s|
    ensures |NonEmptyPieces(SplitOnWhitespace(s))| == WordRuns(s, true)
  {
    var w := TakeNonWhitespace(s);
    assert w == s && SplitOnWhitespace(s) == [s];
    assert NonEmptyPieces([s]) == (if s != [] then [s] else []) + NonEmptyPieces([]);
    if s != [] {
      WordRunsOfWord(s, true);
    }
  }

  /** The non-empty pieces of `split(/\s+/)` are the maximal non-whitespace runs. */
  lemma {:induction false} PiecesAreWordRuns(s: string)
    ensures |NonEmptyPieces(SplitOnWhitespace(s))| == WordRuns(s, true)
    decreases |s|
  {
    var w := TakeNonWhitespace(s);
    if |w| == |s| {
      OneWordPieces(s);
    } else {
      var gap := s[|w|..];
      WordRunsSplit(s, |w|, true);
      BlankStartWordRuns(gap, if |w| == 0 then true else IsWhitespace(s[|w| - 1]));
      if w != [] {
        WordRunsOfWord(w, true);
      }
      PiecesAreWordRuns(TrimStart(gap));
      PiecesStep(s);
    }
  }

  /** Leading whitespace adds no word run. */
  lemma {:induction false} LeadingBlanksKeepWordRuns(lead: string, s: string)
    requires AllWhitespace(lead)
    ensures WordRuns(lead + s, true) == WordRuns(s, true)
  {
    WordRunsAppend(lead, s, true);
    WordRunsOfWhitespace(lead, true);
  }

  /** Trailing whitespace adds no word run. */
  lemma {:induction false} TrailingBlanksKeepWordRuns(s: string, trail: string)
    requires AllWhitespace(trail)
    ensures WordRuns(s + trail, true) == WordRuns(s, true)
  {
    WordRunsAppend(s, trail, true);
    WordRunsOfWhitespace(trail, if s == [] then true else IsWhitespace(s[|s| - 1]));
  }

  /** Trimming does not change the number of word runs. */
  lemma {:induction false} TrimKeepsWordRuns(text: string)
    ensures WordRuns(Trim(text), true) == WordRuns(text, true)
  {
    var start := TrimStart(text);
    var trimmed := TrimEnd(start);
    var lead := text[..|text| - |start|];
    var trail := start[|trimmed|..];
    SplitAt(text, |text| - |start|);
    SplitAt(start, |trimmed|);
    LeadingBlanksKeepWordRuns(lead, start);
    TrailingBlanksKeepWordRuns(trimmed, trail);
  }

  /** Text trims to nothing exactly when it is all whitespace. */
  lemma {:induction false} TrimEmptyIff(text: string)
    ensures Trim(text) == [] <==> AllWhitespace(text)
  {
    var start := TrimStart(text);
    var lead := text[..|text| - |start|];
    assert text == lead + start;
    if TrimEnd(start) == [] {
      assert start == start[0..];
      assert forall i :: 0 <= i < |text| ==> text[i] == (lead + start)[i];
    } else {
      assert text[|lead|] == start[0];
    }
  }

  /** `countWords` counts the maximal runs of non-whitespace characters, and is 0 exactly
      for text that is empty or all whitespace. */
  lemma {:induction false} CountWordsCountsRuns(text: string)
    ensures CountWords(text) == WordRuns(text, true)
    ensures CountWords(text) == 0 <==> AllWhitespace(text)
  {
    TrimKeepsWordRuns(text);
    TrimEmptyIff(text);
    var trimmed := Trim(text);
    if trimmed != [] {
      PiecesAreWordRuns(trimmed);
      WordRunsOfNonWhitespaceStart(trimmed);
    } else {
      assert WordRuns(trimmed, true) == 0;
    }
  }

  lemma {:induction false} WordRunsOfNonWhitespaceStart(s: string)
    requires s != [] && !IsWhitespace(s[0])
    ensures WordRuns(s, true) >= 1
  {
  }

  // ---- Extraction and processing of one file ----

  /** What a library call produces: a value, or a thrown value that is an `Error` with
      its message (`Some`) or something else (`None`). */
  datatype Outcome<T> = Ok(value: T) | Fault(message: Option<string>)

  /** The libraries `processFile` relies on, given per file: the text items of every PDF
      page (PDF.js), the raw text of a Word document (mammoth), the text of a plain-text
      file, and the data URL of an image (`FileReader.readAsDataURL`). */
  datatype Extractors = Extractors(
    pdfPages: File -> Outcome<seq<seq<string>>>,
    wordText: File -> Outcome<string>,
    plainText: File -> Outcome<string>,
    dataUrl: File -> Outcome<string>)

  /** The text extracted from a file, with the page count a PDF adds to the metadata. */
  datatype Extracted = Extracted(text: string, pageCount: Option<nat>)

  function FailureText(message: Option<string>): string {
    if message.Some? then message.value else "Unknown error"
  }

  /** The PDF text before cleanup: each page's items joined by spaces, each page followed
      by a line feed. */
  function PagesText(pages: seq<seq<string>>): string {
    if pages == [] then ""
    else PagesText(pages[..|pages| - 1]) + Join(pages[|pages| - 1], " ") + "\n"
  }

  /** `extractText` and the three readers it dispatches to; a failure carries the message
      of the `Error` that `processFile` catches. */
  function ExtractText(file: File, ex: Extractors): Outcome<Extracted> {
    if file.mimeType == "application/pdf" then
      match ex.pdfPages(file)
      case Ok(pages) => Ok(Extracted(CleanExtractedText(PagesText(pages)), Some(|pages|)))
      case Fault(m) => Fault(Some("Failed to extract text from PDF: " + FailureText(m)))
    else if file.mimeType == "application/msword"
         || file.mimeType == "application/vnd.openxmlformats-officedocument.wordprocessingml.document" then
      match ex.wordText(file)
      case Ok(t) => Ok(Extracted(CleanExtractedText(t), None))
      case Fault(m) => Fault(Some("Failed to extract text from Word document: " + FailureText(m)))
    else if file.mimeType == "text/plain" then
      match ex.plainText(file)
      case Ok(t) => Ok(Extracted(CleanExtractedText(t), None))
      case Fault(m) => Fault(Some("Failed to read text file: " + FailureText(m)))
    else Fault(Some("Text extraction not implemented for " + file.mimeType))
  }

  /** `convertToBase64`: the data URL, or the one rejection message. */
  function ConvertToBase64(file: File, ex: Extractors): Outcome<string> {
    match ex.dataUrl(file)
    case Ok(url) => Ok(url)
    case Fault(_) => Fault(Some("Failed to convert file to base64"))
  }

  datatype ProcessOutcome = Processed(file: ProcessedFile) | Failed(error: ProcessingError)

  /** `processFile`: validate first; then extract text or read the image as a data URL;
      count the words of extracted text; any failure becomes a `PROCESSING_ERROR`. */
  method ProcessFile(file: File, ex: Extractors) returns (r: ProcessOutcome)
    ensures ValidateFile(file).Refused? ==>
      r == Failed(ProcessingError(ValidateFile(file).errorType, ValidateFile(file).error, file.name))
    ensures r.Failed? ==> r.error.fileName == file.name
    ensures r.Failed? && ValidateFile(file).Accepted? ==> r.error.errorType == ProcessingFailure
    ensures r.Processed? ==>
      && ValidateFile(file).Accepted?
      && r.file.processingMethod == GetProcessingMethod(file.mimeType)
      && (r.file.contentType == Text <==> r.file.processingMethod == TextExtraction)
      && r.file.metadata.originalName == file.name
      && r.file.metadata.mimeType == file.mimeType
      && r.file.metadata.size == file.size
    ensures r.Processed? && r.file.processingMethod == TextExtraction ==>
      && ExtractText(file, ex).Ok?
      && r.file.content == ExtractText(file, ex).value.text
      && r.file.metadata.pageCount == ExtractText(file, ex).value.pageCount
      && r.file.metadata.wordCount == CountWords(r.file.content)
    ensures r.Processed? && r.file.processingMethod == VisionApi ==>
      && ex.dataUrl(file).Ok?
      && r.file.content == ex.dataUrl(file).value
      && r.file.metadata.pageCount == None
      && r.file.metadata.wordCount == 0
    ensures ValidateFile(file).Accepted? && GetProcessingMethod(file.mimeType) == TextExtraction ==>
      (r.Processed? <==> ExtractText(file, ex).Ok?)
    ensures ValidateFile(file).Accepted? && GetProcessingMethod(file.mimeType) == VisionApi ==>
      (r.Processed? <==> ex.dataUrl(file).Ok?)
    ensures r.Failed? && ValidateFile(file).Accepted? && GetProcessingMethod(file.mimeType) == TextExtraction ==>
      ExtractText(file, ex).message == Some(r.error.message)
    ensures r.Failed? && ValidateFile(file).Accepted? && GetProcessingMethod(file.mimeType) == VisionApi ==>
      r.error.message == "Failed to convert file to base64"
  {
    var validation := ValidateFile(file);
    if validation.Refused? {
      return Failed(ProcessingError(validation.errorType, validation.error, file.name));
    }
    var processingMethod := GetProcessingMethod(file.mimeType);
    var content: string;
    var metadata := FileMetadata(file.name, file.mimeType, file.size, None, 0);
    match processingMethod {
      case TextExtraction =>
        var textResult := ExtractText(file, ex);
        if textResult.Fault? {
          return Failed(ProcessingError(ProcessingFailure, textResult.message.value, file.name));
        }
        content := textResult.value.text;
        metadata := metadata.(pageCount := textResult.value.pageCount);
      case VisionApi =>
        var url := ConvertToBase64(file, ex);
        if url.Fault? {
          return Failed(ProcessingError(ProcessingFailure, url.message.value, file.name));
        }
        content := url.value;
    }
    if processingMethod == TextExtraction {
      metadata := metadata.(wordCount := CountWords(content));
    }
    var contentType := if processingMethod == TextExtraction then Text else Base64;
    r := Processed(ProcessedFile(content, contentType, processingMethod, metadata));
  }

  // ---- Validating a batch ----

  /** `files.slice(0, k)`: a negative `k` counts from the end. */
  function SliceTo<T>(files: seq<T>, k: int): (r: seq<T>)
    ensures |r| == if k >= 0 then (if k <= |files| then k else |files|)
                   else (if |files| + k >= 0 then |files| + k else 0)
    ensures r == files[..|r|]
  {
    var end := if k >= 0 then (if k <= |files| then k else |files|)
               else (if |files| + k >= 0 then |files| + k else 0);
    files[..end]
  }

  /** The files `validateMultipleFiles` examines. */
  function Examined(files: seq<File>, maxFiles: int): seq<File> {
    if |files| > maxFiles then SliceTo(files, maxFiles) else files
  }

  function AcceptedFiles(files: seq<File>): seq<File> {
    if files == [] then []
    else AcceptedFiles(files[..|files| - 1])
         + (if ValidateFile(files[|files| - 1]).Accepted? then [files[|files| - 1]] else [])
  }

  function RefusedFiles(files: seq<File>): seq<File> {
    if files == [] then []
    else RefusedFiles(files[..|files| - 1])
         + (if ValidateFile(files[|files| - 1]).Refused? then [files[|files| - 1]] else [])
  }

  /** The per-file messages, `name: error`, of the refused files in order. */
  function RefusalMessages(files: seq<File>): seq<string> {
    if files == [] then []
    else
      var f := files[|files| - 1];
      RefusalMessages(files[..|files| - 1])
      + (if ValidateFile(f).Refused? then [f.name + ": " + ValidateFile(f).error] else [])
  }

  function TotalSize(files: seq<File>): nat {
    if files == [] then 0 else TotalSize(files[..|files| - 1]) + files[|files| - 1].size
  }

  datatype BatchCheck = BatchCheck(
    validFiles: seq<File>,
    invalidFiles: seq<File>,
    errors: seq<string>,
    totalSize: nat)

  /** One more file sorted: the three lists grow by that file's share. */
  lemma {:induction false} SortStep(batch: seq<File>, i: nat)
    requires i < |batch|
    ensures AcceptedFiles(batch[..i + 1])
            == AcceptedFiles(batch[..i]) + (if ValidateFile(batch[i]).Accepted? then [batch[i]] else [])
    ensures RefusedFiles(batch[..i + 1])
            == RefusedFiles(batch[..i]) + (if ValidateFile(batch[i]).Refused? then [batch[i]] else [])
    ensures RefusalMessages(batch[..i + 1]) == RefusalMessages(batch[..i])
            + (if ValidateFile(batch[i]).Refused? then [batch[i].name + ": " + ValidateFile(batch[i]).error] else [])
  {
    assert batch[..i + 1][..i] == batch[..i];
  }

  /** The loop of `validateMultipleFiles` over the examined files. */
  method SortFiles(batch: seq<File>) returns (r: BatchCheck)
    ensures r.validFiles == AcceptedFiles(batch)
    ensures r.invalidFiles == RefusedFiles(batch)
    ensures r.errors == RefusalMessages(batch)
    ensures r.totalSize == TotalSize(r.validFiles)
  {
    var validFiles: seq<File> := [];
    var invalidFiles: seq<File> := [];
    var errors: seq<string> := [];
    var totalSize: nat := 0;
    var i := 0;
    while i < |batch|
      invariant 0 <= i <= |batch|
      invariant validFiles == AcceptedFiles(batch[..i])
      invariant invalidFiles == RefusedFiles(batch[..i])
      invariant errors == RefusalMessages(batch[..i])
      invariant totalSize == TotalSize(validFiles)
    {
      var file := batch[i];
      SortStep(batch, i);
      var validation := ValidateFile(file);
      if validation.Accepted? {
        validFiles := validFiles + [file];
        totalSize := totalSize + file.size;
      } else {
        invalidFiles := invalidFiles + [file];
        errors := errors + [file.name + ": " + validation.error];
      }
      i := i + 1;
    }
    assert batch[..i] == batch;
    r := BatchCheck(validFiles, invalidFiles, errors, totalSize);
  }

  /** The leading message when more than `maxFiles` files are given. */
  function TooManyFilesMessage(maxFiles: int): string {
    "Maximum " + IntToString(maxFiles) + " files allowed. Only the first "
    + IntToString(maxFiles) + " files will be processed."
  }

  /** `validateMultipleFiles`: beyond `maxFiles` files only the first `maxFiles` are
      examined, after one leading message; the examined files are split into accepted and
      refused in order, each refusal adds one message, and the sizes of the accepted
      files are summed. */
  method ValidateMultipleFiles(files: seq<File>, maxFiles: int) returns (r: BatchCheck)
    ensures r.validFiles == AcceptedFiles(Examined(files, maxFiles))
    ensures r.invalidFiles == RefusedFiles(Examined(files, maxFiles))
    ensures r.totalSize == TotalSize(r.validFiles)
    ensures r.errors ==
      (if |files| > maxFiles then [TooManyFilesMessage(maxFiles)] else [])
      + RefusalMessages(Examined(files, maxFiles))
  {
    var errors: seq<string> := [];
    var batch := files;
    if |batch| > maxFiles {
      errors := errors + [TooManyFilesMessage(maxFiles)];
      batch := SliceTo(batch, maxFiles);
    }
    assert batch == Examined(files, maxFiles);
    assert errors == if |files| > maxFiles then [TooManyFilesMessage(maxFiles)] else [];
    var sorted := SortFiles(batch);
    r := sorted.(errors := errors + sorted.errors);
  }

  /** The accepted and refused files together are the examined files. */
  lemma {:induction false} BatchPartition(files: seq<File>)
    ensures multiset(AcceptedFiles(files)) + multiset(RefusedFiles(files)) == multiset(files)
  {
    if files != [] {
      var init := files[..|files| - 1];
      BatchPartition(init);
      assert files == init + [files[|files| - 1]];
    }
  }

  /** Every accepted file passes `validateFile`, every refused one fails it, and there is
      one message per refused file. */
  lemma {:induction false} BatchSorted(files: seq<File>)
    ensures forall f :: f in AcceptedFiles(files) ==> ValidateFile(f).Accepted?
    ensures forall f :: f in RefusedFiles(files) ==> ValidateFile(f).Refused?
    ensures |RefusalMessages(files)| == |RefusedFiles(files)|
  {
    if files != [] {
      BatchSorted(files[..|files| - 1]);
    }
  }

  /** At most `maxFiles` files are examined, and they are the first ones. */
  lemma {:induction false} ExaminedPrefix(files: seq<File>, maxFiles: int)
    ensures |Examined(files, maxFiles)| <= |files|
    ensures maxFiles >= 0 ==> |Examined(files, maxFiles)| <= maxFiles
    ensures Examined(files, maxFiles) == files[..|Examined(files, maxFiles)|]
    ensures |files| <= maxFiles ==> Examined(files, maxFiles) == files
  {
  }

  // ---- Statistics over processed files ----

  /** The key `getProcessingStats` counts a processing method under. */
  function MethodName(m: ProcessingMethod): string {
    match m
    case TextExtraction => "text_extraction"
    case VisionApi => "vision_api"
  }

  /** `counts[key] = (counts[key] || 0) + 1`. */
  function Bump(counts: map<string, nat>, key: string): map<string, nat> {
    counts[key := (if key in counts then counts[key] else 0) + 1]
  }

  /** The per-key counts of `keys`, built in order. */
  function Tally(keys: seq<string>): map<string, nat> {
    if keys == [] then map[] else Bump(Tally(keys[..|keys| - 1]), keys[|keys| - 1])
  }

  function MethodKeys(results: seq<ProcessedFile>): (keys: seq<string>)
    ensures |keys| == |results|
  {
    if results == [] then []
    else MethodKeys(results[..|results| - 1]) + [MethodName(results[|results| - 1].processingMethod)]
  }

  function TypeKeys(results: seq<ProcessedFile>): (keys: seq<string>)
    ensures |keys| == |results|
  {
    if results == [] then []
    else TypeKeys(results[..|results| - 1]) + [results[|results| - 1].metadata.mimeType]
  }

  /** The tallied method keys are the results' method names, in order. */
  lemma {:induction false} MethodKeysInOrder(results: seq<ProcessedFile>)
    ensures forall i :: 0 <= i < |results| ==>
      MethodKeys(results)[i] == MethodName(results[i].processingMethod)
  {
    if results != [] {
      var init := results[..|results| - 1];
      MethodKeysInOrder(init);
      var keys := MethodKeys(results);
      assert keys == MethodKeys(init) + [MethodName(results[|results| - 1].processingMethod)];
      forall i | 0 <= i < |results|
        ensures keys[i] == MethodName(results[i].processingMethod)
      {
        if i < |init| {
          assert init[i] == results[i];
        }
      }
    }
  }

  /** The tallied type keys are the results' media types, in order. */
  lemma {:induction false} TypeKeysInOrder(results: seq<ProcessedFile>)
    ensures forall i :: 0 <= i < |results| ==> TypeKeys(results)[i] == results[i].metadata.mimeType
  {
    if results != [] {
      var init := results[..|results| - 1];
      TypeKeysInOrder(init);
      var keys := TypeKeys(results);
      assert keys == TypeKeys(init) + [results[|results| - 1].metadata.mimeType];
      forall i | 0 <= i < |results|
        ensures keys[i] == results[i].metadata.mimeType
      {
        if i < |init| {
          assert init[i] == results[i];
        }
      }
    }
  }

  function SumSizes(results: seq<ProcessedFile>): nat {
    if results == [] then 0
    else SumSizes(results[..|results| - 1]) + results[|results| - 1].metadata.size
  }

  function SumWords(results: seq<ProcessedFile>): nat {
    if results == [] then 0
    else SumWords(results[..|results| - 1]) + results[|results| - 1].metadata.wordCount
  }

  /** `Math.round(a / b)` for `b > 0`: the nearest integer, halves upwards. */
  function RoundDiv(a: nat, b: nat): (q: nat)
    requires b > 0
    ensures 2 * q * b <= 2 * a + b < 2 * q * b + 2 * b
  {
    (2 * a + b) / (2 * b)
  }

  datatype ProcessingStats = ProcessingStats(
    totalFiles: nat,
    totalSize: nat,
    totalWords: nat,
    averageWordsPerFile: nat,
    processingMethods: map<string, nat>,
    fileTypes: map<string, nat>)

  /** `getProcessingStats`: the file count, the summed sizes and word counts, the rounded
      average, and the number of files per processing method and per media type. */
  method GetProcessingStats(results: seq<ProcessedFile>) returns (stats: ProcessingStats)
    ensures stats.totalFiles == |results|
    ensures stats.totalSize == SumSizes(results)
    ensures stats.totalWords == SumWords(results)
    ensures stats.averageWordsPerFile ==
            if |results| > 0 then RoundDiv(SumWords(results), |results|) else 0
    ensures stats.processingMethods == Tally(MethodKeys(results))
    ensures stats.fileTypes == Tally(TypeKeys(results))
  {
    var totalSize, totalWords, processingMethods, fileTypes := Totals(results);
    var average := if |results| > 0 then RoundDiv(totalWords, |results|) else 0;
    stats := ProcessingStats(|results|, totalSize, totalWords, average, processingMethods, fileTypes);
  }

  /** The pass of `getProcessingStats` over the results: the two sums and the two tallies. */
  method Totals(results: seq<ProcessedFile>)
    returns (totalSize: nat, totalWords: nat, processingMethods: map<string, nat>,
             fileTypes: map<string, nat>)
    ensures totalSize == SumSizes(results)
    ensures totalWords == SumWords(results)
    ensures processingMethods == Tally(MethodKeys(results))
    ensures fileTypes == Tally(TypeKeys(results))
  {
    totalSize, totalWords := 0, 0;
    processingMethods, fileTypes := map[], map[];
    var i := 0;
    while i < |results|
      invariant 0 <= i <= |results|
      invariant totalSize == SumSizes(results[..i])
      invariant totalWords == SumWords(results[..i])
      invariant processingMethods == Tally(MethodKeys(results[..i]))
      invariant fileTypes == Tally(TypeKeys(results[..i]))
    {
      var result := results[i];
      StatsStep(results, i);
      totalSize := totalSize + result.metadata.size;
      totalWords := totalWords + result.metadata.wordCount;
      var methodKey := MethodName(result.processingMethod);
      processingMethods := Bump(processingMethods, methodKey);
      fileTypes := Bump(fileTypes, result.metadata.mimeType);
      i := i + 1;
    }
    assert results[..i] == results;
  }

  /** What one more result adds to each total of `getProcessingStats`. */
  lemma {:induction false} StatsStep(results: seq<ProcessedFile>, i: nat)
    requires i < |results|
    ensures SumSizes(results[..i + 1]) == SumSizes(results[..i]) + results[i].metadata.size
    ensures SumWords(results[..i + 1]) == SumWords(results[..i]) + results[i].metadata.wordCount
    ensures Tally(MethodKeys(results[..i + 1]))
            == Bump(Tally(MethodKeys(results[..i])), MethodName(results[i].processingMethod))
    ensures Tally(TypeKeys(results[..i + 1]))
            == Bump(Tally(TypeKeys(results[..i])), results[i].metadata.mimeType)
  {
    var p := results[..i + 1];
    assert p[..i] == results[..i] && p[i] == results[i];
    TallySnoc(MethodKeys(results[..i]), MethodName(results[i].processingMethod));
    TallySnoc(TypeKeys(results[..i]), results[i].metadata.mimeType);
  }

  lemma {:induction false} TallySnoc(keys: seq<string>, key: string)
    ensures Tally(keys + [key]) == Bump(Tally(keys), key)
  {
    assert (keys + [key])[..|keys|] == keys;
  }

  /** The sum of a map's counts. */
  ghost function MapSum(m: map<string, nat>): nat
    decreases |m|
  {
    if m == map[] then 0
    else
      var k :| k in m;
      m[k] + MapSum(m - {k})
  }

  lemma {:induction false} MapSumRemove(m: map<string, nat>, k: string)
    requires k in m
    ensures MapSum(m) == m[k] + MapSum(m - {k})
    decreases |m|
  {
    var j :| j in m && MapSum(m) == m[j] + MapSum(m - {j});
    if j != k {
      MapSumRemove(m - {j}, k);
      MapSumRemove(m - {k}, j);
      assert m - {j} - {k} == m - {k} - {j};
    }
  }

  lemma {:induction false} MapSumBump(m: map<string, nat>, key: string)
    ensures MapSum(Bump(m, key)) == MapSum(m) + 1
  {
    var b := Bump(m, key);
    MapSumRemove(b, key);
    assert b - {key} == m - {key};
    if key in m {
      MapSumRemove(m, key);
    } else {
      assert m - {key} == m;
    }
  }

  /** The counts of a tally add up to the number of keys tallied. */
  lemma {:induction false} TallySum(keys: seq<string>)
    ensures MapSum(Tally(keys)) == |keys|
  {
    if keys != [] {
      TallySum(keys[..|keys| - 1]);
      MapSumBump(Tally(keys[..|keys| - 1]), keys[|keys| - 1]);
    }
  }

  /** A tally has exactly the keys that occur, each with a positive count. */
  lemma {:induction false} TallyKeys(keys: seq<string>)
    ensures forall k :: k in Tally(keys) <==> k in keys
    ensures forall k :: k in Tally(keys) ==> Tally(keys)[k] >= 1
  {
    if keys != [] {
      TallyKeys(keys[..|keys| - 1]);
      assert keys == keys[..|keys| - 1] + [keys[|keys| - 1]];
    }
  }

  /** Both tallies of `getProcessingStats` add up to the number of files. */
  lemma {:induction false} StatsCountsSumToTotal(results: seq<ProcessedFile>)
    ensures MapSum(Tally(MethodKeys(results))) == |results|
    ensures MapSum(Tally(TypeKeys(results))) == |results|
  {
    TallySum(MethodKeys(results));
    TallySum(TypeKeys(results));
  }
}
