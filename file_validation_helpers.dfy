/**
  The reference validators of the file-validation tests
  (`__tests__/file-validation.test.ts`): a media-type check that also accepts GIF, a size
  check that refuses empty files, the batch validator built on both, and the file-name
  sanitiser. Routing uses the library's `getProcessingMethod`, which the tests copy
  unchanged.
*/
module FileValidationHelpers {
  import opened Options
  import opened JsString
  import opened FileProcessor

  /** The seven media types the tests accept: the library's six and `image/gif`. */
  const TestSupportedTypes: seq<string> := [
    "application/pdf",
    "application/msword",
    "application/vnd.openxmlformats-officedocument.wordprocessingml.document",
    "image/jpeg",
    "image/png",
    "image/gif",
    "text/plain"
  ]

  /** A `FileValidationResult`; the constant cost estimate is not modelled. */
  datatype FileValidationResult = FileValidationResult(
    isValid: bool,
    error: Option<string>,
    processingMethod: Option<ProcessingMethod>)

  function TypeNotSupported(mimeType: string): string {
    "File type " + mimeType + " is " + "not supported" + ". Please use PDF, Word, or image files."
  }

  const EmptyFileMessage := "File appears to be " + "empty" + ". Please select a valid file."

  function FileTooLargeMessage(size: nat): string {
    "File is " + "too large" + " (" + SizeInMiB(size) + "MB). Maximum file size is " + "10MB" + "."
  }

  /** `part` occurs in `x + part + y`. */
  lemma {:induction false} ContainsInfix(x: string, part: string, y: string)
    ensures Contains(x + part + y, part)
    decreases |x|
  {
    if x == [] {
      assert (x + part + y)[..|part|] == part;
    } else {
      assert (x + part + y)[1..] == x[1..] + part + y;
      ContainsInfix(x[1..], part, y);
    }
  }

  /** `validateFileType`: a listed type is valid and carries its processing method; any
      other type is refused with the "not supported" message naming it. */
  function ValidateFileType(mimeType: string): (r: FileValidationResult)
    ensures r.isValid <==> mimeType in TestSupportedTypes
    ensures r.isValid ==> r.error.None? && r.processingMethod == Some(GetProcessingMethod(mimeType))
    ensures !r.isValid ==> r.error == Some(TypeNotSupported(mimeType)) && r.processingMethod.None?
  {
    if mimeType !in TestSupportedTypes then FileValidationResult(false, Some(TypeNotSupported(mimeType)), None)
    else FileValidationResult(true, None, Some(GetProcessingMethod(mimeType)))
  }

  /** The type refusal says "not supported" and names the type. */
  lemma {:induction false} TypeRefusalWording(mimeType: string)
    ensures Contains(TypeNotSupported(mimeType), "not supported")
    ensures Contains(TypeNotSupported(mimeType), mimeType)
  {
    ContainsInfix("File type " + mimeType + " is ", "not supported", ". Please use PDF, Word, or image files.");
    var tail := " is " + "not supported" + ". Please use PDF, Word, or image files.";
    ContainsInfix("File type ", mimeType, tail);
    assert "File type " + mimeType + tail == TypeNotSupported(mimeType);
  }

  /** `validateFileSize`: an empty file and a file over 10 MiB are refused, each with its
      message; every other size passes without an error. */
  function ValidateFileSize(file: File): (r: FileValidationResult)
    ensures r.isValid <==> 0 < file.size <= MaxFileSize
    ensures r.isValid <==> r.error.None?
    ensures file.size == 0 ==> r.error == Some(EmptyFileMessage)
    ensures file.size > MaxFileSize ==> r.error == Some(FileTooLargeMessage(file.size))
    ensures r.processingMethod.None?
  {
    if file.size <= 0 then FileValidationResult(false, Some(EmptyFileMessage), None)
    else if file.size > MaxFileSize then FileValidationResult(false, Some(FileTooLargeMessage(file.size)), None)
    else FileValidationResult(true, None, None)
  }

  /** The size refusals say "empty", and "too large" with the "10MB" limit. */
  lemma {:induction false} SizeRefusalWording(size: nat)
    ensures Contains(EmptyFileMessage, "empty")
    ensures Contains(FileTooLargeMessage(size), "too large") && Contains(FileTooLargeMessage(size), "10MB")
  {
    ContainsInfix("File appears to be ", "empty", ". Please select a valid file.");
    var tail := " (" + SizeInMiB(size) + "MB). Maximum file size is " + "10MB" + ".";
    ContainsInfix("File is ", "too large", tail);
    assert "File is " + "too large" + tail == FileTooLargeMessage(size);
    ContainsInfix("File is " + "too large" + " (" + SizeInMiB(size) + "MB). Maximum file size is ", "10MB", ".");
  }

  /** A file passes both test checks exactly when the library's `validateFile` accepts it
      or it is a GIF of acceptable size: the test validators differ from the library only
      in accepting GIF. */
  lemma {:induction false} TestChecksVersusLibrary(file: File)
    ensures ValidateFileType(file.mimeType).isValid && ValidateFileSize(file).isValid
            <==> ValidateFile(file).Accepted? || (file.mimeType == "image/gif" && 0 < file.size <= MaxFileSize)
  {
    assert TestSupportedTypes == SupportedTypes[..5] + ["image/gif"] + SupportedTypes[5..];
  }

  /** Documents go to text extraction and images, GIF included, to the vision model. */
  lemma {:induction false} RoutingExamples()
    ensures GetProcessingMethod("application/pdf") == TextExtraction
    ensures GetProcessingMethod("text/plain") == TextExtraction
    ensures GetProcessingMethod("image/jpeg") == VisionApi
    ensures GetProcessingMethod("image/gif") == VisionApi
  {
  }

  // ---- validateMultipleFiles ----

  const DefaultMaxFiles := 5

  /** `Maximum ${maxFiles} files allowed`. */
  function LimitPhrase(maxFiles: int): string {
    "Maximum " + IntToString(maxFiles) + " files allowed"
  }

  function TooManyFiles(maxFiles: int): string {
    LimitPhrase(maxFiles) + ". Please select fewer files."
  }

  /** Both checks pass. */
  predicate Passes(file: File) {
    file.mimeType in TestSupportedTypes && 0 < file.size <= MaxFileSize
  }

  /** The messages of a failing file: its type error, then its size error, each prefixed
      with the file name. */
  function FileErrors(file: File): (errors: seq<string>)
    ensures Passes(file) <==> errors == []
    ensures |errors| <= 2
  {
    var t := ValidateFileType(file.mimeType);
    var s := ValidateFileSize(file);
    (if t.error.Some? then [file.name + ": " + t.error.value] else [])
    + (if s.error.Some? then [file.name + ": " + s.error.value] else [])
  }

  function PassingFiles(files: seq<File>): seq<File> {
    if files == [] then []
    else PassingFiles(files[..|files| - 1]) + (if Passes(files[|files| - 1]) then [files[|files| - 1]] else [])
  }

  function FailingFiles(files: seq<File>): seq<File> {
    if files == [] then []
    else FailingFiles(files[..|files| - 1]) + (if Passes(files[|files| - 1]) then [] else [files[|files| - 1]])
  }

  function BatchErrors(files: seq<File>): seq<string> {
    if files == [] then [] else BatchErrors(files[..|files| - 1]) + FileErrors(files[|files| - 1])
  }

  /** The pushes for a file that fails: its type error, then its size error. */
  method FileMessages(file: File, typeResult: FileValidationResult, sizeResult: FileValidationResult)
    returns (messages: seq<string>)
    requires typeResult == ValidateFileType(file.mimeType) && sizeResult == ValidateFileSize(file)
    ensures messages == FileErrors(file)
  {
    messages := [];
    if typeResult.error.Some? {
      messages := messages + [file.name + ": " + typeResult.error.value];
    }
    if sizeResult.error.Some? {
      messages := messages + [file.name + ": " + sizeResult.error.value];
    }
  }

  /** One more file sorted: the three lists grow by that file's share. */
  lemma {:induction false} TestSortStep(batch: seq<File>, i: nat)
    requires i < |batch|
    ensures PassingFiles(batch[..i + 1]) == PassingFiles(batch[..i]) + (if Passes(batch[i]) then [batch[i]] else [])
    ensures FailingFiles(batch[..i + 1]) == FailingFiles(batch[..i]) + (if Passes(batch[i]) then [] else [batch[i]])
    ensures BatchErrors(batch[..i + 1]) == BatchErrors(batch[..i]) + FileErrors(batch[i])
  {
    assert batch[..i + 1][..i] == batch[..i];
  }

  /** The loop of the test's `validateMultipleFiles`: each file is valid or invalid by
      both checks, an invalid one adds its messages, and valid sizes are summed. */
  method TestSortFiles(batch: seq<File>) returns (r: BatchCheck)
    ensures r.validFiles == PassingFiles(batch)
    ensures r.invalidFiles == FailingFiles(batch)
    ensures r.errors == BatchErrors(batch)
    ensures r.totalSize == TotalSize(r.validFiles)
  {
    var validFiles: seq<File> := [];
    var invalidFiles: seq<File> := [];
    var errors: seq<string> := [];
    var totalSize: nat := 0;
    var i := 0;
    while i < |batch|
      invariant 0 <= i <= |batch|
      invariant validFiles == PassingFiles(batch[..i])
      invariant invalidFiles == FailingFiles(batch[..i])
      invariant errors == BatchErrors(batch[..i])
      invariant totalSize == TotalSize(validFiles)
    {
      var file := batch[i];
      TestSortStep(batch, i);
      var typeResult := ValidateFileType(file.mimeType);
      var sizeResult := ValidateFileSize(file);
      if typeResult.isValid && sizeResult.isValid {
        validFiles := validFiles + [file];
        totalSize := totalSize + file.size;
      } else {
        invalidFiles := invalidFiles + [file];
        var messages := FileMessages(file, typeResult, sizeResult);
        errors := errors + messages;
      }
      i := i + 1;
    }
    assert batch[..i] == batch;
    r := BatchCheck(validFiles, invalidFiles, errors, totalSize);
  }

  /** The test's `validateMultipleFiles`: beyond `maxFiles` files one message is pushed
      and only the first `maxFiles` are examined, then sorted as above. */
  method TestValidateMultipleFiles(files: seq<File>, maxFiles: int) returns (r: BatchCheck)
    ensures r.validFiles == PassingFiles(Examined(files, maxFiles))
    ensures r.invalidFiles == FailingFiles(Examined(files, maxFiles))
    ensures r.errors == (if |files| > maxFiles then [TooManyFiles(maxFiles)] else [])
                        + BatchErrors(Examined(files, maxFiles))
    ensures r.totalSize == TotalSize(r.validFiles)
  {
    var errors: seq<string> := [];
    var batch := files;
    if |batch| > maxFiles {
      errors := errors + [TooManyFiles(maxFiles)];
      batch := SliceTo(batch, maxFiles);
    }
    assert batch == Examined(files, maxFiles);
    assert errors == if |files| > maxFiles then [TooManyFiles(maxFiles)] else [];
    var sorted := TestSortFiles(batch);
    r := sorted.(errors := errors + sorted.errors);
  }

  /** The valid and invalid files together are the examined files. */
  lemma {:induction false} TestBatchPartition(files: seq<File>)
    ensures multiset(PassingFiles(files)) + multiset(FailingFiles(files)) == multiset(files)
  {
    if files != [] {
      var init := files[..|files| - 1];
      TestBatchPartition(init);
      assert files == init + [files[|files| - 1]];
    }
  }

  /** Every valid file passes both checks and every invalid one fails at least one. */
  lemma {:induction false} TestBatchSorted(files: seq<File>)
    ensures forall f :: f in PassingFiles(files) ==> Passes(f)
    ensures forall f :: f in FailingFiles(files) ==> !Passes(f)
  {
    if files != [] {
      TestBatchSorted(files[..|files| - 1]);
    }
  }

  /** Each invalid file contributes one or two messages, a valid one none. */
  lemma {:induction false} TestBatchErrorCount(files: seq<File>)
    ensures |FailingFiles(files)| <= |BatchErrors(files)| <= 2 * |FailingFiles(files)|
  {
    if files != [] {
      TestBatchErrorCount(files[..|files| - 1]);
    }
  }

  /** The over-limit message is the whole sentence, so an array search for the bare
      phrase `Maximum ${maxFiles} files allowed` finds no element equal to it, although
      the message contains the phrase. */
  lemma {:induction false} TooManyFilesIsFullSentence(maxFiles: int)
    ensures TooManyFiles(maxFiles) != LimitPhrase(maxFiles)
    ensures Contains(TooManyFiles(maxFiles), LimitPhrase(maxFiles))
  {
    ExtendedContains(LimitPhrase(maxFiles), ". Please select fewer files.");
  }

  /** A string followed by a non-empty tail is a different, longer string containing it. */
  lemma {:induction false} ExtendedContains(p: string, tail: string)
    requires tail != []
    ensures p + tail != p
    ensures Contains(p + tail, p)
  {
    assert |p + tail| > |p|;
    ContainsInfix([], p, tail);
    assert [] + p + tail == p + tail;
  }

  // ---- sanitizeFileName ----

  /** The characters `[a-zA-Z0-9.-]` keeps. */
  predicate IsSafeChar(c: char) {
    ('a' <= c <= 'z') || ('A' <= c <= 'Z') || ('0' <= c <= '9') || c == '.' || c == '-'
  }

  /** What the replacement writes for one character. The regular expression has no `u`
      flag, so it matches each UTF-16 code unit on its own: a character above U+FFFF is
      two surrogates and becomes two underscores. */
  function Replacement(c: char): (r: string)
    ensures |r| == Utf16Units(c)
  {
    if IsSafeChar(c) then [c] else if IsAstral(c) then "__" else "_"
  }

  /** `replace(/[^a-zA-Z0-9.-]/g, '_')`. */
  function ReplaceUnsafe(s: string): (r: string)
    ensures |r| == Utf16Length(s)
    ensures forall i :: 0 <= i < |r| ==> IsSafeChar(r[i]) || r[i] == '_'
    ensures (forall i :: 0 <= i < |s| ==> !IsAstral(s[i])) ==>
      forall i :: 0 <= i < |s| ==> r[i] == if IsSafeChar(s[i]) then s[i] else '_'
  {
    if s == [] then [] else Replacement(s[0]) + ReplaceUnsafe(s[1..])
  }

  /** `replace(/^\.+/, '')`. */
  function StripLeadingDots(s: string): (r: string)
    ensures |r| <= |s| && r == s[|s| - |r|..]
    ensures forall i :: 0 <= i < |s| - |r| ==> s[i] == '.'
    ensures r == [] || r[0] != '.'
  {
    if s != [] && s[0] == '.' then StripLeadingDots(s[1..]) else s
  }

  /** `replace(/\.+$/, '')`. */
  function StripTrailingDots(s: string): (r: string)
    ensures |r| <= |s| && r == s[..|r|]
    ensures forall i :: |r| <= i < |s| ==> s[i] == '.'
    ensures r == [] || r[|r| - 1] != '.'
  {
    if s != [] && s[|s| - 1] == '.' then StripTrailingDots(s[..|s| - 1]) else s
  }

  const MaxNameLength := 255

  /** `substring(0, 255)`. */
  function Truncated(s: string): (r: string)
    ensures |r| <= |s| && |r| <= MaxNameLength && r == s[..|r|]
    ensures |s| <= MaxNameLength ==> r == s
  {
    if |s| <= MaxNameLength then s else s[..MaxNameLength]
  }

  function SanitizeFileName(fileName: string): string {
    Truncated(StripTrailingDots(StripLeadingDots(ReplaceUnsafe(fileName))))
  }

  /** Every character is one `[a-zA-Z0-9.-]` keeps, or `_`. */
  predicate SafeName(s: string) {
    forall i :: 0 <= i < |s| ==> IsSafeChar(s[i]) || s[i] == '_'
  }

  /** A part of a safe name is safe. */
  lemma {:induction false} SafeSlice(s: string, i: nat, j: nat)
    requires SafeName(s) && i <= j <= |s|
    ensures SafeName(s[i..j])
  {
    assert forall k :: 0 <= k < j - i ==> s[i..j][k] == s[i + k];
  }

  /** The sanitised name holds only letters, digits, `.`, `-` and `_`, so never a slash,
      a backslash or a NUL; it is never longer than the input (in UTF-16 code units, as
      `length` counts) nor than 255 characters, and never starts with a dot. */
  lemma {:induction false} SanitizedNameShape(fileName: string)
    ensures var r := SanitizeFileName(fileName);
      && SafeName(r)
      && (forall i :: 0 <= i < |r| ==> r[i] != '/' && r[i] != '\\' && r[i] != '\0')
      && |r| <= Utf16Length(fileName) && |r| <= MaxNameLength
      && (r == [] || r[0] != '.')
  {
    var r := SanitizeFileName(fileName);
    SanitizedNameSafe(fileName);
    SafeNameHasNoSeparator(r);
    SanitizedNameStart(fileName);
  }

  /** Each stage after the replacement keeps a part of a safe string. */
  lemma {:induction false} SanitizedNameSafe(fileName: string)
    ensures SafeName(SanitizeFileName(fileName))
  {
    var replaced := ReplaceUnsafe(fileName);
    var lead := StripLeadingDots(replaced);
    var trail := StripTrailingDots(lead);
    assert SafeName(replaced);
    SafeSlice(replaced, |replaced| - |lead|, |replaced|);
    SafeSlice(lead, 0, |trail|);
    SafeSlice(trail, 0, |Truncated(trail)|);
  }

  /** A safe name holds no slash, backslash or NUL. */
  lemma {:induction false} SafeNameHasNoSeparator(s: string)
    requires SafeName(s)
    ensures forall i :: 0 <= i < |s| ==> s[i] != '/' && s[i] != '\\' && s[i] != '\0'
  {
    forall i | 0 <= i < |s|
      ensures s[i] != '/' && s[i] != '\\' && s[i] != '\0'
    {
      assert IsSafeChar(s[i]) || s[i] == '_';
    }
  }

  /** Truncation keeps the first character, which the leading-dot stage made a non-dot. */
  lemma {:induction false} SanitizedNameStart(fileName: string)
    ensures var r := SanitizeFileName(fileName);
      |r| <= Utf16Length(fileName) && |r| <= MaxNameLength && (r == [] || r[0] != '.')
  {
    var lead := StripLeadingDots(ReplaceUnsafe(fileName));
    var trail := StripTrailingDots(lead);
    var r := Truncated(trail);
    if r != [] {
      assert r[0] == trail[0] == lead[0];
    }
  }

  /** Sanitising a safe name of at most 255 characters that neither starts nor ends with
      a dot changes nothing. */
  lemma {:induction false} SanitizeFixesCleanName(fileName: string)
    requires SafeName(fileName)
    requires fileName == [] || (fileName[0] != '.' && fileName[|fileName| - 1] != '.')
    requires |fileName| <= MaxNameLength
    ensures SanitizeFileName(fileName) == fileName
  {
    assert ReplaceUnsafe(fileName) == fileName;
  }

  /** The replacement works character by character, so it distributes over `+`. */
  lemma {:induction false} ReplaceUnsafeAppend(a: string, b: string)
    ensures ReplaceUnsafe(a + b) == ReplaceUnsafe(a) + ReplaceUnsafe(b)
  {
    if a == [] {
      assert a + b == b;
    } else {
      assert (a + b)[1..] == a[1..] + b;
      ReplaceUnsafeAppend(a[1..], b);
    }
  }

  /** An emoji is two code units, so `"😀.pdf"` becomes `"__.pdf"`. */
  lemma {:induction false} AstralNameExample()
    ensures ReplaceUnsafe("\U{1F600}.pdf") == "__.pdf"
  {
    assert ReplaceUnsafe("pdf") == "pdf";
    assert ReplaceUnsafe(".pdf") == ".pdf";
  }

  lemma {:induction false} TraversalPieces()
    ensures "../../../etc/passwd" == "../" + "../" + "../" + "etc/" + "passwd"
    ensures ".._" + ".._" + ".._" + "etc_" + "passwd" == "." + ("." + "_.._.._etc_passwd")
  {
  }

  lemma {:induction false} ReplacedTraversal()
    ensures ReplaceUnsafe("../../../etc/passwd") == ".._" + ".._" + ".._" + "etc_" + "passwd"
  {
    var up := "../";
    assert ReplaceUnsafe(up) == ".._";
    assert ReplaceUnsafe("etc/") == "etc_";
    assert ReplaceUnsafe("passwd") == "passwd";
    TraversalPieces();
    ReplaceUnsafeAppend(up + up + up + "etc/", "passwd");
    ReplaceUnsafeAppend(up + up + up, "etc/");
    ReplaceUnsafeAppend(up + up, up);
    ReplaceUnsafeAppend(up, up);
  }

  lemma {:induction false} StrippedTraversal()
    ensures StripTrailingDots(StripLeadingDots("." + ("." + "_.._.._etc_passwd"))) == "_.._.._etc_passwd"
  {
    var r := "_.._.._etc_passwd";
    assert StripLeadingDots("." + ("." + r)) == StripLeadingDots("." + r) == StripLeadingDots(r) == r;
  }

  lemma {:induction false} SanitizedTraversalHoldsDots()
    ensures Contains("_.._.._etc_passwd", "..")
  {
    var r := "_.._.._etc_passwd";
    assert r[1..][..2] == "..";
    assert Contains(r[1..], "..");
  }

  /** Inner dot pairs survive: `"../../../etc/passwd"` becomes `"_.._.._etc_passwd"`,
      which still holds `".."`. */
  lemma {:induction false} SanitizeKeepsInnerDots()
    ensures SanitizeFileName("../../../etc/passwd") == "_.._.._etc_passwd"
    ensures Contains(SanitizeFileName("../../../etc/passwd"), "..")
  {
    ReplacedTraversal();
    TraversalPieces();
    StrippedTraversal();
    SanitizedTraversalHoldsDots();
  }
}
