/**
 * middleware/upload.js: `uploadSingleImage`, an in-memory multipart upload that takes
 * one file from the field "file", accepts only JPEG, PNG and WEBP images, and refuses
 * files over 5 MB. Its errors go to the global error handler.
 */
module Upload {
  import opened Wrappers
  import ErrorHandler

  const AllowedMimeTypes: seq<string> := ["image/jpeg", "image/png", "image/webp"]
  const RejectedTypeMessage := "Only JPEG, PNG, or WEBP images allowed"
  const FieldName := "file"

  /** `limits: { fileSize: 5 * 1024 * 1024 }`, in bytes. */
  const MaxFileSize: nat := 5 * 1024 * 1024

  /** One file part of the multipart body, in arrival order. */
  datatype FilePart = FilePart(fieldName: string, mimetype: string, size: nat)

  datatype FilterVerdict = Accept | Reject(message: string)

  /** `fileFilter`: `allowed.includes(file.mimetype)`. */
  function FileFilter(mimetype: string): (v: FilterVerdict)
    ensures v.Accept? <==> mimetype == "image/jpeg" || mimetype == "image/png" || mimetype == "image/webp"
    ensures v.Reject? ==> v.message == RejectedTypeMessage
  {
    if mimetype in AllowedMimeTypes then Accept else Reject(RejectedTypeMessage)
  }

  /** A `MulterError` with its code and message, as the error handler receives it. */
  function MulterError(code: string, message: string): ErrorHandler.ErrorRecord {
    ErrorHandler.ErrorRecord("MulterError", ErrorHandler.TextCode(code), 0, "", message, None, None, "", "")
  }

  /** The plain `Error` the file filter reports. */
  function FilterError(message: string): ErrorHandler.ErrorRecord {
    ErrorHandler.ErrorRecord("Error", ErrorHandler.NoCode, 0, "", message, None, None, "", "")
  }

  /**
   * Multer's handling of each file part in turn: a part under another field name, or a
   * second part under "file", is LIMIT_UNEXPECTED_FILE; then the filter runs; then a part
   * longer than the limit is LIMIT_FILE_SIZE. The first error ends the upload.
   */
  function Accepting(parts: seq<FilePart>, stored: Option<FilePart>): (r: Result<Option<FilePart>, ErrorHandler.ErrorRecord>)
    requires stored.Some? ==> IsAcceptable(stored.value)
    ensures r.Success? && r.value.Some? ==> IsAcceptable(r.value.value)
    ensures r.Success? <==>
      |parts| <= (if stored.Some? then 0 else 1) && forall i :: 0 <= i < |parts| ==> IsAcceptable(parts[i])
    ensures r.Success? ==> r.value == (if |parts| == 0 then stored else Some(parts[0]))
    decreases |parts|
  {
    if |parts| == 0 then Success(stored)
    else
      var part := parts[0];
      if part.fieldName != FieldName || stored.Some? then Failure(MulterError("LIMIT_UNEXPECTED_FILE", "Unexpected field"))
      else match FileFilter(part.mimetype)
        case Reject(message) => Failure(FilterError(message))
        case Accept =>
          if part.size > MaxFileSize then Failure(MulterError("LIMIT_FILE_SIZE", "File too large"))
          else
            var r := Accepting(parts[1..], Some(part));
            assert forall i :: 1 <= i < |parts| ==> parts[i] == parts[1..][i - 1];
            r
  }

  /** A file the upload keeps: the field "file", an allowed type, at most 5 MB. */
  predicate IsAcceptable(f: FilePart) {
    f.fieldName == FieldName && FileFilter(f.mimetype).Accept? && f.size <= MaxFileSize
  }

  /** `uploadSingleImage`: the stored file (`req.file`), none, or the error passed to `next`. */
  function UploadSingleImage(parts: seq<FilePart>): (r: Result<Option<FilePart>, ErrorHandler.ErrorRecord>)
    ensures r.Success? && r.value.Some? ==> IsAcceptable(r.value.value)
    ensures r.Success? <==> |parts| <= 1 && forall i :: 0 <= i < |parts| ==> IsAcceptable(parts[i])
    ensures r.Success? ==> r.value == (if |parts| == 1 then Some(parts[0]) else None)
  {
    Accepting(parts, None)
  }

  /** A single allowed image of at most 5 MB under "file" is stored. */
  lemma OneImageStored(f: FilePart)
    requires IsAcceptable(f)
    ensures UploadSingleImage([f]) == Success(Some(f))
  {
  }

  /** An allowed image over the limit is answered 400, "fail", with the 5 MB message. */
  lemma OversizeAnswer(f: FilePart, nodeEnv: string)
    requires f.fieldName == FieldName && FileFilter(f.mimetype).Accept? && f.size > MaxFileSize
    ensures UploadSingleImage([f]).Failure?
    ensures ErrorHandler.Classify(UploadSingleImage([f]).error, nodeEnv)
      == ErrorHandler.Respond(400, ErrorHandler.ErrorBody(false, "fail", ErrorHandler.FileTooLargeMessage, nodeEnv == "development"))
  {
  }

  /**
   * A file of another type is not a MulterError: the handler answers it 500, status
   * "error", with the filter's message.
   */
  lemma WrongTypeAnswer(f: FilePart, nodeEnv: string)
    requires f.fieldName == FieldName && FileFilter(f.mimetype).Reject?
    ensures UploadSingleImage([f]).Failure?
    ensures ErrorHandler.Classify(UploadSingleImage([f]).error, nodeEnv)
      == ErrorHandler.Respond(500, ErrorHandler.ErrorBody(false, "error", RejectedTypeMessage, nodeEnv == "development"))
  {
  }

  /** A file under another field name is answered 400, "fail", "Unexpected field". */
  lemma UnexpectedFieldAnswer(f: FilePart, nodeEnv: string)
    requires f.fieldName != FieldName
    ensures UploadSingleImage([f]).Failure?
    ensures ErrorHandler.Classify(UploadSingleImage([f]).error, nodeEnv)
      == ErrorHandler.Respond(400, ErrorHandler.ErrorBody(false, "fail", "Unexpected field", nodeEnv == "development"))
  {
  }
}
