/** The routes of s3_api/files/router.py: download, upload, delete and find,
    each calling one `S3Client` operation through the `error_handler`
    decorator (`Errors.ErrorHandler`) and turning the outcome into a response.
    An exception that reaches FastAPI becomes its HTTP answer: an
    HTTPException its own status and detail, anything else a 500. */
module Router {
  import opened Base
  import opened Errors
  import opened Streams
  import opened Store
  import opened Utils
  import opened Schemas
  import opened Service
  import opened Chunking

  /** What a route hands back to the HTTP layer. */
  datatype Response =
    | FileStream(mediaType: string, headers: map<string, string>, body: Bytes) // 200, streamed
    | Created(filename: string)        // 201, `UploadResponse` or `UploadUniqueFileNameResponse`
    | Deleted(details: string)         // 200, `{'details': ...}`
    | Listing(files: seq<FileEntry>)   // 200, `ListResponse`
    | Refused(error: HttpError)        // an HTTPException
    | InternalError(kind: OtherKind)   // any other exception: 500

  function StatusCode(resp: Response): int {
    match resp
    case FileStream(_, _, _) => 200
    case Created(_) => 201
    case Deleted(_) => 200
    case Listing(_) => 200
    case Refused(e) => e.status
    case InternalError(_) => 500
  }

  /** The response when the decorated operation returned (`ok`), or the
      exception it let out. */
  function Respond<T>(h: Handled<T>, ok: Response): (resp: Response)
    ensures h.Returned? ==> resp == ok
    ensures h.HttpException? ==> resp == Refused(h.error)
    ensures h.Unhandled? ==> resp == InternalError(h.kind)
  {
    match h
    case Returned(_) => ok
    case HttpException(e) => Refused(e)
    case Unhandled(k) => InternalError(k)
  }

  // ---------------------------------------------------------------------
  // download

  const CONTENT_DISPOSITION := "Content-Disposition"

  /** The headers `download` sets on its streaming response: an attachment
      disposition unless the media type mentions `image`. */
  function DownloadHeaders(mediaType: string, filename: string): (headers: map<string, string>)
    ensures CONTENT_DISPOSITION in headers <==> !Contains(mediaType, "image")
    ensures forall h | h in headers :: h == CONTENT_DISPOSITION
    ensures CONTENT_DISPOSITION in headers ==> headers[CONTENT_DISPOSITION] == "attachment; filename=" + filename
  {
    if Contains(mediaType, "image") then map[]
    else map[CONTENT_DISPOSITION := "attachment; filename=" + filename]
  }

  /** Any `image/...` type is shown inline: no disposition header is set. */
  lemma ImagesShownInline(mediaType: string, filename: string)
    requires IsPrefix("image/", mediaType)
    ensures DownloadHeaders(mediaType, filename) == map[]
  {
    assert "image/"[..5] == "image";
    assert IsPrefix("image", mediaType);
    ContainsPrefix("image", mediaType);
  }

  /** What the route holds after calling the decorated generator function:
      the decorator's `async def wrapper` hands back a coroutine, and only
      awaiting it gives the generator. */
  datatype Handle = Coroutine | Generator(items: seq<StreamItem>, ended: Result<(), Exc>)

  /** `media_type = await anext(stream)`, then a streaming response over the
      remaining items. A generator that ends before its first item makes
      `anext` raise; an error raised inside it goes through the decorator
      with the file name as its only argument. */
  function DownloadResponse(filename: string, stream: Handle): Response {
    match stream
    case Coroutine => InternalError(NotAnAsyncIterator)
    case Generator(items, ended) =>
      if items != [] && items[0].MediaType? then
        FileStream(items[0].contentType, DownloadHeaders(items[0].contentType, filename), Payload(items[1..]))
      else Respond(ErrorHandler(ended, [PyStr(filename)], map[]), InternalError(StreamEndedEarly))
  }

  /** The download route as written: the wrapper's coroutine is handed to
      `anext` unawaited, so no request reaches the store and every download
      fails. */
  method DownloadAsWritten(client: S3Client, filename: string) returns (resp: Response)
    ensures resp == DownloadResponse(filename, Coroutine)
    ensures resp == InternalError(NotAnAsyncIterator)
  {
    resp := DownloadResponse(filename, Coroutine);
  }

  /** The download route, with the wrapper's coroutine awaited. */
  method Download(client: S3Client, filename: string) returns (resp: Response)
    modifies client.store
    ensures var (items, ended) := StreamOn(old(client.store.state), old(client.store.faults), old(client.store.bodyCaps), filename);
      resp == DownloadResponse(filename, Generator(items, ended))
    ensures client.store.log == old(client.store.log) + [GetObjectCall(filename)]
    ensures client.store.faults == Rest(old(client.store.faults))
    ensures client.store.state == old(client.store.state) && client.store.bodyCaps == old(client.store.bodyCaps)
  {
    var items, ended := client.YieldMediaTypeThenStreamFile(filename);
    resp := DownloadResponse(filename, Generator(items, ended));
  }

  lemma PayloadSkipsMediaType(items: seq<StreamItem>)
    requires items != [] && items[0].MediaType?
    ensures Payload(items[1..]) == Payload(items)
  {
    assert Payload(items) == [] + Payload(items[1..]);
  }

  /** A stored object with a content type is served whole: the media type is
      the stored one, the body is the stored bytes, and the disposition
      follows the media type. */
  lemma DownloadServesObject(st: StoreState, faults: seq<Fault>, caps: seq<nat>, key: string)
    requires NextFault(faults) == Pass && key in st.objects && st.objects[key].contentType.Some?
    ensures var (items, ended) := StreamOn(st, faults, caps, key);
      var ct := st.objects[key].contentType.value;
      DownloadResponse(key, Generator(items, ended)) == FileStream(ct, DownloadHeaders(ct, key), st.objects[key].body)
  {
    var (items, ended) := StreamOn(st, faults, caps, key);
    StreamOnBody(st, faults, caps, key);
    PayloadSkipsMediaType(items);
  }

  /** A missing file is a 404 naming it; a stored file without a content
      type makes the route fail with a 500. */
  lemma DownloadFailures(st: StoreState, faults: seq<Fault>, caps: seq<nat>, key: string)
    requires NextFault(faults) == Pass
    ensures var (items, ended) := StreamOn(st, faults, caps, key);
      && (key !in st.objects ==>
            DownloadResponse(key, Generator(items, ended)) == Refused(HttpError(404, NOT_FOUND_PREFIX + key)))
      && (key in st.objects && st.objects[key].contentType.None? ==>
            DownloadResponse(key, Generator(items, ended)) == InternalError(MissingContentTypeHeader))
  {
    if key !in st.objects {
      StreamOnMissingKey(st, faults, caps, key);
    }
  }

  // ---------------------------------------------------------------------
  // upload

  /** `filename = new_filename if new_filename else file.filename`, then the
      unique prefix when `set_unique_name` is set. The UUID text is a
      parameter: drawing it is `uuid.uuid4()`'s business. */
  function ChooseFilename(newFilename: string, uploadedName: string, setUniqueName: bool, uuid: string): string {
    var name := if newFilename != "" then newFilename else uploadedName;
    if setUniqueName then GetUniqueFilename(uuid, name) else name
  }

  /** Without a unique name the key is the requested name, or the uploaded
      file's own name when none was requested. With one, the key is a fresh
      UUID, `_`, then that name; it splits back into the two and passes the
      unique-name validator unchanged. */
  lemma ChosenFilename(newFilename: string, uploadedName: string, setUniqueName: bool, uuid: string)
    requires setUniqueName ==> IsUuid4Text(uuid)
    ensures var base := if newFilename != "" then newFilename else uploadedName;
      var name := ChooseFilename(newFilename, uploadedName, setUniqueName, uuid);
      && (!setUniqueName ==> name == base)
      && (setUniqueName ==>
            && |name| == 37 + |base|
            && SplitFirst(name, '_') == Some((uuid, base))
            && ValidateUniqueFilename(name) == Success(name))
  {
    var base := if newFilename != "" then newFilename else uploadedName;
    if setUniqueName {
      UniqueFilenameShape(uuid, base);
      UniqueFilenameSplit(uuid, base);
      UniqueFilenameAccepted(uuid, base);
    }
  }

  /** The arguments `upload` passes to `upload_file`, as written: the form
      file first, then the chosen name. */
  function UploadCallArgsAsWritten(filename: string): seq<PyValue> {
    [PyUploadFile, PyStr(filename)]
  }

  /** The arguments in the order `upload_file(self, filename, file)` declares. */
  function UploadCallArgs(filename: string): seq<PyValue> {
    [PyStr(filename), PyUploadFile]
  }

  /** Python binds the two positional arguments in order, the first to
      `filename` and the second to `file`. `upload_file` reads
      `file.content_type` while building its first request, which raises
      AttributeError unless `file` is an UploadFile; and the store takes only
      a string key. The bound key, or the exception. */
  function BindUploadFile(args: seq<PyValue>): (r: Result<string, Exc>)
    requires |args| == 2
    ensures r.Success? <==> args[1] == PyUploadFile && args[0].PyStr?
    ensures r.Success? ==> r.value == args[0].s
  {
    if args[1] != PyUploadFile then Failure(OtherException(NoContentTypeAttribute))
    else if !args[0].PyStr? then Failure(OtherException(InvalidKeyParameter))
    else Success(args[0].s)
  }

  /** As written, every call fails before a request is sent, and the
      decorator lets the AttributeError through. */
  lemma UploadArgsAsWrittenRefused(filename: string)
    ensures BindUploadFile(UploadCallArgsAsWritten(filename)) == Failure(OtherException(NoContentTypeAttribute))
    ensures ErrorHandler<()>(Failure(OtherException(NoContentTypeAttribute)), UploadCallArgsAsWritten(filename), map[])
         == Unhandled(NoContentTypeAttribute)
  {
  }

  /** In the declared order the chosen name is the key, and a missing key is
      reported as a 404 naming it. */
  lemma UploadArgsBind(filename: string, e: StoreError)
    requires e.code == "NoSuchKey"
    ensures BindUploadFile(UploadCallArgs(filename)) == Success(filename)
    ensures ErrorHandler<()>(Failure(ClientError(e)), UploadCallArgs(filename), map[])
         == HttpException(HttpError(404, NOT_FOUND_PREFIX + filename))
  {
  }

  /** After `upload_file` returned, the route answers 201 with the name it
      uploaded under; the unique-name response runs its validator first. */
  function UploadAnswer(name: string, setUniqueName: bool, h: Handled<()>): Response {
    var ok :=
      if !setUniqueName then Created(name)
      else match ValidateUniqueFilename(name)
        case Success(v) => Created(v)
        case Failure(_) => InternalError(ResponseValidation);
    Respond(h, ok)
  }

  /** The name returned to the client is the name uploaded under, and a
      finished upload is answered 201 with it. A store error the decorator
      swallows still gets the 201. */
  lemma UploadAnswersName(name: string, setUniqueName: bool, r: Result<(), Exc>)
    requires setUniqueName ==> ValidateUniqueFilename(name).Success?
    ensures var resp := UploadAnswer(name, setUniqueName, ErrorHandler(r, UploadCallArgs(name), map[]));
      && (resp.Created? ==> resp.filename == name)
      && (r.Success? ==> resp == Created(name) && StatusCode(resp) == 201)
      && (r.Failure? && r.error.ClientError? && r.error.error.code == "BucketAlreadyOwnedByYou" ==> resp == Created(name))
  {
  }

  /** The upload route as written: the arguments are swapped, so the upload
      fails before any request is sent and the route answers 500. */
  method UploadAsWritten(client: S3Client, file: UploadFile, newFilename: string, setUniqueName: bool, uuid: string)
    returns (resp: Response)
    ensures resp == InternalError(NoContentTypeAttribute)
  {
    var name := ChooseFilename(newFilename, file.filename, setUniqueName, uuid);
    var args := UploadCallArgsAsWritten(name);
    var bound := BindUploadFile(args);
    var r: Result<(), Exc> := Failure(bound.error);
    resp := UploadAnswer(name, setUniqueName, ErrorHandler(r, args, map[]));
  }

  /** The upload route with the arguments in their declared order. A form
      file without a declared content type is answered 500 before any
      request is sent. */
  method Upload(client: S3Client, file: UploadFile, newFilename: string, setUniqueName: bool, uuid: string)
    returns (resp: Response, ghost t: UploadTrace)
    modifies client.store, file.file
    ensures file.contentType.None? ==>
      && resp == InternalError(ContentTypeMissing)
      && client.store.state == old(client.store.state) && client.store.log == old(client.store.log)
    ensures file.contentType.Some? ==>
      var name := ChooseFilename(newFilename, file.filename, setUniqueName, uuid);
      var run := UploadOn(old(client.store.state), old(client.store.faults), name, file.contentType.value, t.parts, t.failedPart);
      && run.1 == t && client.store.state == run.2
      && resp == UploadAnswer(name, setUniqueName, ErrorHandler(run.0, UploadCallArgs(name), map[]))
    ensures file.contentType.Some? ==>
      var name := ChooseFilename(newFilename, file.filename, setUniqueName, uuid);
      client.store.log == old(client.store.log)
                          + UploadCalls(name, file.contentType.value, old(client.store.state.nextUploadId), old(client.store.state.nextTag), t)
    ensures client.store.bodyCaps == old(client.store.bodyCaps)
    ensures t.initiated ==> Concat(t.parts) + t.failedPart.GetOr([]) + file.file.remaining == old(file.file.remaining)
    ensures !t.initiated ==> file.file.remaining == old(file.file.remaining)
    ensures t.initiated && t.failedPart.None? ==> file.file.remaining == []
    ensures Bounded(t.parts) && (t.failedPart.Some? ==> 0 < |t.failedPart.value| <= UPLOAD_CHUNK_SIZE)
    ensures && file.contentType.Some? && AllPass(old(client.store.faults)) && old(file.file.caps) == []
            && |old(file.file.remaining)| <= MAX_PART_NUMBER * UPLOAD_CHUNK_SIZE
            ==> t.initiated && t.failedPart.None? && t.parts == FixedChunks(old(file.file.remaining), UPLOAD_CHUNK_SIZE)
  {
    var name := ChooseFilename(newFilename, file.filename, setUniqueName, uuid);
    var args := UploadCallArgs(name);
    var bound := BindUploadFile(args);
    var r;
    r, t := client.UploadFile(bound.value, file);
    resp := UploadAnswer(name, setUniqueName, ErrorHandler(r, args, map[]));
  }

  /** Upload, then download: with no fault in the way, a non-empty body of
      at most 10000 pieces sent to the upload route under `key` with the
      declared type `ct` is answered 201 with the key, and the download
      route then serves exactly that body, with `ct` as the media type and
      the disposition that type calls for. */
  lemma UploadThenDownload(st: StoreState, f1: seq<Fault>, f2: seq<Fault>, caps: seq<nat>,
                           key: string, ct: string, data: Bytes)
    requires AllPass(f1) && NextFault(f2) == Pass
    requires data != [] && |data| <= MAX_PART_NUMBER * UPLOAD_CHUNK_SIZE
    ensures var up := UploadOn(st, f1, key, ct, FixedChunks(data, UPLOAD_CHUNK_SIZE), None);
      var down := StreamOn(up.2, f2, caps, key);
      && UploadAnswer(key, false, ErrorHandler(up.0, UploadCallArgs(key), map[])) == Created(key)
      && DownloadResponse(key, Generator(down.0, down.1)) == FileStream(ct, DownloadHeaders(ct, key), data)
  {
    var up := UploadOn(st, f1, key, ct, FixedChunks(data, UPLOAD_CHUNK_SIZE), None);
    UploadOnStoresBody(st, f1, key, ct, data);
    assert up.2.objects[key] == StoredObject(data, Some(ct));
    DownloadServesObject(up.2, f2, caps, key);
  }

  // ---------------------------------------------------------------------
  // delete

  const DELETED_PREFIX := "Deleted file if it existed: "

  function DeleteResponse(filename: string, h: Handled<()>): Response {
    Respond(h, Deleted(DELETED_PREFIX + filename))
  }

  method Delete(client: S3Client, filename: string) returns (resp: Response)
    modifies client.store
    ensures var (r, next) := Answer(NextFault(old(client.store.faults)), DeleteObjectOp(old(client.store.state), filename), old(client.store.state));
      && client.store.state == next
      && resp == DeleteResponse(filename, ErrorHandler(r, [PyStr(filename)], map[]))
    ensures client.store.log == old(client.store.log) + [DeleteObjectCall(filename)]
    ensures client.store.faults == Rest(old(client.store.faults)) && client.store.bodyCaps == old(client.store.bodyCaps)
  {
    var r := client.RemoveFile(filename);
    resp := DeleteResponse(filename, ErrorHandler(r, [PyStr(filename)], map[]));
  }

  /** Whether or not the file existed, the route answers with the same
      details and the file is gone afterwards; a failure other than a store
      error is a 500, whether the request was lost on the way (nothing
      changes) or its reply was lost after the store deleted the file. */
  lemma DeleteAnswersDetails(st: StoreState, faults: seq<Fault>, key: string)
    ensures var (r, next) := Answer(NextFault(faults), DeleteObjectOp(st, key), st);
      var resp := DeleteResponse(key, ErrorHandler(r, [PyStr(key)], map[]));
      && (NextFault(faults) == Pass ==> resp == Deleted(DELETED_PREFIX + key) && key !in next.objects)
      && (NextFault(faults) == Lost ==> resp == InternalError(ConnectionLost) && next == st)
      && (NextFault(faults) == ReplyLost ==> resp == InternalError(ConnectionLost) && key !in next.objects)
  {
    if NextFault(faults) == Pass {
      RemoveFileOutcome(st, faults, key);
    }
  }

  // ---------------------------------------------------------------------
  // find

  /** The listing, or the exception. A swallowed store error leaves
      `find_files` returning `None`, which the response model refuses. */
  function FindResponse(h: Handled<ListResponse>): Response {
    match h
    case Returned(Some(v)) => Listing(v.files)
    case Returned(None) => InternalError(ResponseValidation)
    case HttpException(e) => Refused(e)
    case Unhandled(k) => InternalError(k)
  }

  function FindOutcome(run: (Result<seq<FileEntry>, Exc>, seq<Call>)): Result<ListResponse, Exc> {
    if run.0.Success? then Success(ListResponse(run.0.value)) else Failure(run.0.error)
  }

  method Find(client: S3Client, request: ListRequest) returns (resp: Response)
    modifies client.store
    ensures var run := FindOn(old(client.store.state), old(client.store.faults), request.pattern, 0);
      && resp == FindResponse(ErrorHandler(FindOutcome(run), [PyStr(request.pattern)], map[]))
      && client.store.log == old(client.store.log) + run.1
    ensures client.store.state == old(client.store.state) && client.store.bodyCaps == old(client.store.bodyCaps)
  {
    var r, calls := client.FindFiles(request.pattern);
    resp := FindResponse(ErrorHandler(r, [PyStr(request.pattern)], map[]));
  }

  /** In a well-formed store with no request stopped, the route lists the
      matching keys in listing order with their types; the default request
      lists every key. */
  lemma FindListsMatching(st: StoreState, faults: seq<Fault>, request: ListRequest)
    requires AllPass(faults) && WellFormed(st)
    ensures var resp := FindResponse(ErrorHandler(FindOutcome(FindOn(st, faults, request.pattern, 0)), [PyStr(request.pattern)], map[]));
      && resp == Listing(Entries(st, Matching(st.order, request.pattern)))
      && (request == DefaultListRequest() ==> resp == Listing(Entries(st, st.order)))
  {
    FindFilesListing(st, faults, request.pattern);
  }
}
