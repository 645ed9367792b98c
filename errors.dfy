/** How S3Client turns store failures into HTTP answers: `display_exception`
    (s3_api/files/service.py:41-57) and the `error_handler` decorator around
    every client operation (service.py:59-79). Exceptions become values: an
    operation yields a `Result<T, Exc>`, and `ErrorHandler` is the decorator
    applied to that result. */
module Errors {
  import opened Base

  /** The store's error messages: the ones its own rules produce, and any
      other text a store may send. */
  datatype Message =
    | BucketOwned
    | UploadMissing
    | PartNumberRange
    | ListMalformed
    | PartsOutOfOrder
    | PartMissing
    | PartTooSmall
    | KeyMissing
    | HeadNotFound
    | Text(text: string)

  function MessageText(m: Message): string {
    match m
    case BucketOwned => "Your previous request to create the named bucket succeeded and you already own it."
    case UploadMissing => "The specified upload does not exist."
    case PartNumberRange => "Part number must be an integer between 1 and 10000, inclusive"
    case ListMalformed => "The XML you provided was not well-formed or did not validate against our published schema."
    case PartsOutOfOrder => "The list of parts was not in ascending order."
    case PartMissing => "One or more of the specified parts could not be found."
    case PartTooSmall => "Your proposed upload is smaller than the minimum allowed object size."
    case KeyMissing => "The specified key does not exist."
    case HeadNotFound => "Not Found"
    case Text(text) => text
  }

  /** What botocore's `ClientError` carries: the store's error code, the
      operation that failed, and the store's message. */
  datatype StoreError = StoreError(code: string, operation: string, message: Message)

  /** botocore's `str(ClientError)`. */
  function ErrorText(e: StoreError): string {
    "An error occurred (" + e.code + ") when calling the " + e.operation + " operation: " + MessageText(e.message)
  }

  /** Exceptions other than `ClientError` that the modelled code can raise. */
  datatype OtherKind =
    | ConnectionLost           // the connection to the store failed (not a ClientError)
    | MissingContentTypeHeader // `resp['ResponseMetadata']['HTTPHeaders']['content-type']` raised KeyError
    | UnboundUploadId          // `upload_id` read before it was assigned (UnboundLocalError)
    | NoContentTypeAttribute   // `file.content_type` on a value that is not an UploadFile
    | InvalidKeyParameter      // an object key that is not a string
    | ContentTypeMissing       // `ContentType=None` refused by the client's parameter validation (ParamValidationError)
    | StreamEndedEarly         // `anext` on a stream that ended before its first item
    | NotAnAsyncIterator       // `anext` on a coroutine raised TypeError
    | ResponseValidation       // a response body its response model refuses

  datatype Exc = ClientError(error: StoreError) | OtherException(kind: OtherKind)

  /** The Python values that can sit in an operation's arguments. */
  datatype PyValue = PyStr(s: string) | PyUploadFile | PyNone

  datatype HttpError = HttpError(status: int, detail: string)

  /** What `display_exception` does: return quietly, or raise an HTTPException. */
  datatype Handling = Swallow | Raise(error: HttpError)

  /** `kwargs.get('filename', args[0] if args else None)`. */
  function FilenameArgument(args: seq<PyValue>, kwargs: map<string, PyValue>): (v: PyValue)
    ensures "filename" in kwargs ==> v == kwargs["filename"]
    ensures "filename" !in kwargs && |args| > 0 ==> v == args[0]
    ensures "filename" !in kwargs && args == [] ==> v == PyNone
  {
    if "filename" in kwargs then kwargs["filename"] else if |args| > 0 then args[0] else PyNone
  }

  const NOT_FOUND_PREFIX := "File not found: "

  /** service.py `display_exception`: a decision on the store's error code. */
  function DisplayException(e: StoreError, args: seq<PyValue>, kwargs: map<string, PyValue>): (h: Handling)
    ensures h.Raise? ==> h.error.status == 404 || h.error.status == 500
    ensures (h.Raise? && h.error.status == 404)
      <==> (e.code == "NoSuchKey" && FilenameArgument(args, kwargs).PyStr?)
    ensures h.Raise? && h.error.status == 404
      ==> h.error.detail == NOT_FOUND_PREFIX + FilenameArgument(args, kwargs).s
    ensures h.Swallow? <==> e.code == "BucketAlreadyOwnedByYou"
    ensures h.Raise? && h.error.status == 500 ==> h.error.detail == ErrorText(e)
  {
    var filename := FilenameArgument(args, kwargs);
    if e.code == "NoSuchKey" && filename.PyStr? then Raise(HttpError(404, NOT_FOUND_PREFIX + filename.s))
    else if e.code == "BucketAlreadyOwnedByYou" then Swallow
    else Raise(HttpError(500, ErrorText(e)))
  }

  /** What a decorated operation hands to its caller: a return value (`None`
      when a swallowed error cut the operation short), an HTTPException, or an
      exception the decorator lets through. */
  datatype Handled<T> = Returned(value: Option<T>) | HttpException(error: HttpError) | Unhandled(kind: OtherKind)

  /** service.py `error_handler`: only `ClientError` is translated, through
      `display_exception`; every other exception passes through untouched. */
  function ErrorHandler<T>(r: Result<T, Exc>, args: seq<PyValue>, kwargs: map<string, PyValue>): (h: Handled<T>)
    ensures r.Success? ==> h == Returned(Some(r.value))
    ensures h.Unhandled? <==> r.Failure? && r.error.OtherException?
    ensures h.Unhandled? ==> h.kind == r.error.kind
    ensures h == Returned(None) <==> r.Failure? && r.error.ClientError? && r.error.error.code == "BucketAlreadyOwnedByYou"
    ensures h.HttpException? ==> r.Failure? && r.error.ClientError? && DisplayException(r.error.error, args, kwargs) == Raise(h.error)
  {
    match r
    case Success(v) => Returned(Some(v))
    case Failure(OtherException(kind)) => Unhandled(kind)
    case Failure(ClientError(e)) =>
      match DisplayException(e, args, kwargs)
      case Swallow => Returned(None)
      case Raise(err) => HttpException(err)
  }

  /** Without a `filename` argument of type `str` a missing key is never a 404:
      it is reported as a 500 carrying the store's own text. */
  lemma MissingKeyWithoutNameIs500(e: StoreError, args: seq<PyValue>)
    requires e.code == "NoSuchKey"
    requires args == [] || !args[0].PyStr?
    ensures ErrorHandler<()>(Failure(ClientError(e)), args, map[]) == HttpException(HttpError(500, ErrorText(e)))
  {
  }
}
