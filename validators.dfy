/**
 * Input validation (utils/validators.py): the guard order of
 * `validate_video_file` over what the file system reports about a path, the
 * case-insensitive extension whitelist, and the size limit.
 */
module Validators {
  import opened Text
  import opened Wrappers
  import Paths

  /** `SUPPORTED_VIDEO_FORMATS`, in declaration order. */
  const SupportedVideoFormats: seq<string> := [".mp4", ".avi", ".mkv", ".mov", ".flv", ".wmv", ".webm"]

  /** `', '.join(SUPPORTED_VIDEO_FORMATS)`. */
  const SupportedFormatsText: string := ".mp4, .avi, .mkv, .mov, .flv, .wmv, .webm"

  /** Bytes in one megabyte, `1024 * 1024`. */
  const BytesPerMb: nat := 1048576

  /**
   * What the file system reports about a path: `exists()`, `is_file()`,
   * `os.access(path, os.R_OK)` and `os.path.getsize`.
   */
  datatype FileFacts = FileFacts(present: bool, isFile: bool, readable: bool, sizeBytes: nat)

  /** The exceptions the validators raise, with their messages. */
  datatype ValidationError =
    | FileNotFound(message: string)
    | InvalidPath(message: string)
    | UnsupportedFormat(message: string)
    | PermissionDenied(message: string)
    /** The size message renders `size_mb` with two decimals; the model keeps the exact number. */
    | TooLarge(sizeMb: real, maxSizeMb: int)

  /** The Python exception class of each error. */
  function ExceptionClass(e: ValidationError): string {
    match e
    case FileNotFound(_) => "FileNotFoundError"
    case InvalidPath(_) => "ValueError"
    case UnsupportedFormat(_) => "ValueError"
    case PermissionDenied(_) => "PermissionError"
    case TooLarge(_, _) => "ValueError"
  }

  /** `Path(file_path).suffix.lower()`. */
  function Extension(filePath: string): string {
    Lower(Paths.PathSuffix(filePath))
  }

  /**
   * `validate_video_file`: existence, then being a regular file, then the
   * extension, then readability; `True` when all four pass.
   */
  function ValidateVideoFile(filePath: string, facts: FileFacts): (r: Result<bool, ValidationError>)
    ensures r.Ok? ==> r.value
    ensures r.Ok? <==> facts.present && facts.isFile && Extension(filePath) in SupportedVideoFormats && facts.readable
  {
    if !facts.present then Err(FileNotFound("File not found: " + filePath))
    else if !facts.isFile then Err(InvalidPath("Invalid file path: " + filePath))
    else if Extension(filePath) !in SupportedVideoFormats then
      Err(UnsupportedFormat("Unsupported video format: " + Extension(filePath)
        + "\nSupported formats: " + SupportedFormatsText))
    else if !facts.readable then Err(PermissionDenied("Cannot read file: " + filePath))
    else Ok(true)
  }

  /** A missing path is reported as missing whatever else holds of it. */
  lemma MissingComesFirst(filePath: string, facts: FileFacts, other: FileFacts)
    requires !facts.present && !other.present
    ensures ValidateVideoFile(filePath, facts) == ValidateVideoFile(filePath, other)
    ensures ExceptionClass(ValidateVideoFile(filePath, facts).error) == "FileNotFoundError"
  {
  }

  /** An existing path that is not a regular file is a ValueError, whatever its extension or permissions. */
  lemma NotAFileIsValueError(filePath: string, facts: FileFacts)
    requires facts.present && !facts.isFile
    ensures ValidateVideoFile(filePath, facts).Err?
    ensures ValidateVideoFile(filePath, facts).error == InvalidPath("Invalid file path: " + filePath)
    ensures ExceptionClass(ValidateVideoFile(filePath, facts).error) == "ValueError"
  {
  }

  /** An unsupported extension is reported before readability is looked at. */
  lemma FormatBeforePermission(filePath: string, facts: FileFacts, readable: bool)
    requires facts.present && facts.isFile && Extension(filePath) !in SupportedVideoFormats
    ensures ValidateVideoFile(filePath, facts) == ValidateVideoFile(filePath, facts.(readable := readable))
    ensures ValidateVideoFile(filePath, facts).Err? && ValidateVideoFile(filePath, facts).error.UnsupportedFormat?
  {
  }

  /** An unreadable file of a supported format raises PermissionError. */
  lemma UnreadableIsPermissionError(filePath: string, facts: FileFacts)
    requires facts.present && facts.isFile && Extension(filePath) in SupportedVideoFormats && !facts.readable
    ensures ValidateVideoFile(filePath, facts).Err?
    ensures ExceptionClass(ValidateVideoFile(filePath, facts).error) == "PermissionError"
  {
  }

  /**
   * The verdict depends on the extension only through its lower-case form:
   * two paths whose extensions agree up to ASCII case get the same verdict.
   */
  lemma ExtensionCaseInsensitive(p: string, q: string, facts: FileFacts)
    requires Lower(Paths.PathSuffix(p)) == Lower(Paths.PathSuffix(q))
    ensures ValidateVideoFile(p, facts).Ok? == ValidateVideoFile(q, facts).Ok?
  {
  }

  /** A file with an upper-case `.MP4` suffix that exists and can be read is accepted. */
  lemma UpperCaseMp4Accepted(filePath: string, facts: FileFacts)
    requires Paths.PathSuffix(filePath) == ".MP4"
    requires facts.present && facts.isFile && facts.readable
    ensures ValidateVideoFile(filePath, facts) == Ok(true)
  {
    var ext := Extension(filePath);
    assert ext == ".mp4" by {
      assert Lower(".MP4") == ".mp4";
    }
    assert ext in SupportedVideoFormats by {
      assert SupportedVideoFormats[0] == ".mp4";
    }
  }

  /**
   * `validate_file_size`: fails exactly when the size in megabytes,
   * `bytes / 1048576`, exceeds the limit, which defaults to 2000.
   */
  function ValidateFileSize(sizeBytes: nat, maxSizeMb: int := 2000): (r: Result<bool, ValidationError>)
    ensures r.Ok? ==> r.value
    ensures r.Err? ==> r.error == TooLarge(sizeBytes as real / BytesPerMb as real, maxSizeMb)
  {
    var sizeMb := sizeBytes as real / BytesPerMb as real;
    if sizeMb > maxSizeMb as real then Err(TooLarge(sizeMb, maxSizeMb)) else Ok(true)
  }

  /** The limit is a whole number of megabytes and inclusive: the check is an integer comparison of bytes. */
  lemma SizeLimitInBytes(sizeBytes: nat, maxSizeMb: int)
    ensures ValidateFileSize(sizeBytes, maxSizeMb).Err? <==> sizeBytes > maxSizeMb * BytesPerMb
  {
    var b, m := sizeBytes as real, BytesPerMb as real;
    if sizeBytes > maxSizeMb * BytesPerMb {
      assert b > (maxSizeMb * BytesPerMb) as real;
      assert b / m > maxSizeMb as real;
    } else {
      assert b <= (maxSizeMb * BytesPerMb) as real;
      assert b / m <= maxSizeMb as real;
    }
  }

  /** A file of exactly 2000 MB passes the default limit; one byte more fails it. */
  lemma DefaultLimitBoundary()
    ensures ValidateFileSize(2000 * BytesPerMb).Ok?
    ensures ValidateFileSize(2000 * BytesPerMb + 1).Err?
  {
    SizeLimitInBytes(2000 * BytesPerMb, 2000);
    SizeLimitInBytes(2000 * BytesPerMb + 1, 2000);
  }
}
