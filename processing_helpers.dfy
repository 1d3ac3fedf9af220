/**
  The boolean validators of the syllabus-processing tests
  (`__tests__/syllabus-processing.test.ts`): a media-type check over the same seven types
  as the file-validation tests, a size check against a caller-given limit, and the routing
  rule, which is the library's.
*/
module ProcessingHelpers {
  import opened FileProcessor
  import FileValidationHelpers

  /** The seven media types the check accepts, in the order the tests list them. */
  const AllowedTypes: seq<string> := [
    "application/pdf",
    "application/msword",
    "application/vnd.openxmlformats-officedocument.wordprocessingml.document",
    "image/jpeg",
    "image/png",
    "image/gif",
    "text/plain"
  ]

  /** `validateFileType`: the type is one of the seven; this is the file-validation
      tests' check reduced to its verdict, and the library's list with GIF added. */
  function ValidateFileType(mimeType: string): (ok: bool)
    ensures ok <==> FileValidationHelpers.ValidateFileType(mimeType).isValid
    ensures ok <==> IsSupportedType(mimeType) || mimeType == "image/gif"
  {
    assert AllowedTypes == SupportedTypes[..5] + ["image/gif"] + SupportedTypes[5..];
    mimeType in AllowedTypes
  }

  /** `validateFileSize(size, maxSize)`: the size is positive and at most the limit. Sizes
      are JavaScript numbers, so a negative size is possible and refused. */
  function ValidateFileSize(size: int, maxSize: int): (ok: bool)
    ensures ok <==> 0 < size <= maxSize
  {
    size > 0 && size <= maxSize
  }

  /** With the 10 MiB limit the boolean size check is the file-validation tests' size check
      reduced to its verdict. */
  lemma {:induction false} SizeCheckAgrees(file: File)
    ensures ValidateFileSize(file.size, MaxFileSize) == FileValidationHelpers.ValidateFileSize(file).isValid
  {
  }

  /** A file passes both boolean checks exactly when the file-validation tests' batch
      validator files it as valid. */
  lemma {:induction false} BooleanChecksMatchBatch(file: File)
    ensures ValidateFileType(file.mimeType) && ValidateFileSize(file.size, MaxFileSize)
            <==> FileValidationHelpers.Passes(file)
  {
  }

  /** The sample files: 1 MiB passes, 15 MiB and an empty file are refused; PDF, Word and
      JPEG types pass and an executable does not; documents are read as text and the JPEG
      by the vision model. */
  lemma {:induction false} SampleFiles()
    ensures ValidateFileSize(1024 * 1024, 10 * 1024 * 1024)
    ensures !ValidateFileSize(15 * 1024 * 1024, 10 * 1024 * 1024)
    ensures !ValidateFileSize(0, 10 * 1024 * 1024)
    ensures ValidateFileType("application/pdf")
    ensures ValidateFileType("application/vnd.openxmlformats-officedocument.wordprocessingml.document")
    ensures ValidateFileType("image/jpeg")
    ensures !ValidateFileType("application/x-executable")
    ensures GetProcessingMethod("application/pdf") == TextExtraction
    ensures GetProcessingMethod("application/vnd.openxmlformats-officedocument.wordprocessingml.document")
            == TextExtraction
    ensures GetProcessingMethod("image/jpeg") == VisionApi
  {
  }
}
