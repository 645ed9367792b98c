# S3 file gateway: a verified model

This project models the core of a small HTTP file gateway in front of an
S3-compatible object store. The gateway's `S3Client` (s3_api/files/service.py)
uploads a form file as a multipart upload in 5 MiB parts. It streams a stored
object back in 1 MiB chunks, lists the stored keys that contain a pattern, and
deletes objects. At start-up it creates its bucket. It turns the store's errors
into HTTP answers.

Around the client sit some small rules: the naming helpers (s3_api/files/utils.py),
the unique-filename validator and the listing defaults (s3_api/files/schemas.py),
and the four routes (s3_api/files/router.py).

## How the model is built

**The store** (`store.dfy`) is an abstract state machine. It holds the objects
(key ↦ bytes and content type), their listing order, and the open multipart
sessions (upload id ↦ key, content type and parts). Each S3 operation the
client calls is a pure transition.

**`ObjectStore`** holds the current store state. Each call:
- takes the next entry of a fault oracle. The call either goes through, is refused with a store error (a `ClientError`), or loses the connection. The connection can be lost before the store sees the request, which then changes nothing. It can also be lost after the store acted on the request, and then only the reply is missing. A lost connection is any other exception;
- is appended to a request log.

So any sequence of refusals and lost connections, each before or after the
store acts on its request, is one oracle. Contracts can say which requests
went out, and in which order.

**Byte sources** (`streams.dfy`) are classes whose `Read(n)` hands back a
non-empty prefix of at most `n` bytes while bytes remain. A second oracle,
`caps`, says how short each read comes back.

**The client** (`service.dfy`) is the class `S3Client`. Each of its loops is a
method with invariants, proved equal to a value-level specification function:

| method | specification function |
|---|---|
| `UploadFile` | `UploadOn` |
| `YieldMediaTypeThenStreamFile` | `StreamOn` |
| `FindFiles` | `FindOn` |

The source's promises are lemmas about those functions:
- the parts concatenate to the body;
- part numbers run 1..n;
- the abort goes to the same upload id;
- the listing is exactly the matching keys, in listing order;
- and so on.

**The `error_handler` decorator** is the function `Errors.ErrorHandler`. It is
applied to an operation's result where a route calls it, with the route's
actual arguments.

**Exceptions** become values: `Result<T, Exc>` inside the client, and
`Handled<T>` after the decorator.

Three behaviours of `upload_file` that a reader might not expect, modelled as the code has them:
- **An abort that fails replaces the original error.** Inside the `except ClientError` block, a failing `abort_multipart_upload` raises its own error, and that error is raised instead of the original one (`Service.Raised`). A more careful handler would keep the original error.
- **Only a `ClientError` triggers the abort** (service.py:146). Any other exception raised after initiation leaves the session open (`Service.RecoveryFor`). A more careful handler would abort after any failure.
- **An empty body fails the upload.** With no bytes, no part is sent and an empty part list is committed. The store refuses that commit, the session is aborted, and the refusal reaches the client (`Service.UploadOnEmptyBody`).

## Model

| member | source | states |
|---|---|---|
| Errors.FilenameArgument | s3_api/files/service.py:43 | the `filename` keyword wins; otherwise the first positional argument; otherwise none |
| Errors.DisplayException | s3_api/files/service.py:41-57 | 404 with `File not found: <name>` iff the code is `NoSuchKey` and the filename argument is a string; silent iff `BucketAlreadyOwnedByYou`; 500 carrying `str(e)` otherwise |
| Errors.ErrorHandler | s3_api/files/service.py:59-79 | a result passes unchanged; only a `ClientError` is translated (to an HTTP error, or a quiet `None` return when swallowed); any other exception passes through |
| Errors.MissingKeyWithoutNameIs500 | s3_api/files/service.py:43-57 | `NoSuchKey` without a string filename argument is a 500 with the store's text, never a 404 |
| Store.BucketCreationIdempotent | s3_api/files/service.py:192-204 | creating the bucket again is refused with `BucketAlreadyOwnedByYou`; the decorator swallows it, and the bucket exists either way |
| Store.DeleteObjectIdempotent | s3_api/files/service.py:161-162 | deleting succeeds whether or not the key exists; the key is gone; other objects are kept; a second delete changes nothing |
| Store.CompleteAccepted | s3_api/files/service.py:139-144 | a commit that goes through had an open session and an ascending list naming uploaded parts; it stores their bodies in list order and closes the session |
| Store.CompleteRefused | s3_api/files/service.py:139-144 | a refused commit changes nothing |
| Store.CallKeepsWellFormed | s3_api/files/service.py:115-162 | no request breaks the store invariant: the listing order names each stored key once, and upload ids stay fresh |
| Store.ObjectStore.GetObject | s3_api/files/service.py:87-92 | one logged request; on success, a fresh body stream holding exactly the stored bytes, plus the content-type header if the object has one |
| Streams.ReadSize | s3_api/files/service.py:96-100 | a read returns at most `n` bytes and no more than remain; it is empty iff nothing remains; without a cap it is full |
| Streams.ReadsConcat | s3_api/files/service.py:96-100 | the chunks successive reads return concatenate to the whole source |
| Streams.ReadsBounded | s3_api/files/service.py:96-100 | every chunk read before the first empty read is non-empty and at most `n` bytes |
| Chunking.FixedChunksConcat | s3_api/files/service.py:123-127 | with full reads, the pieces concatenate to the source |
| Chunking.FixedChunksCount | s3_api/files/service.py:123-127 | with full reads of `UPLOAD_CHUNK_SIZE` (service.py:13) there are ceil(S / 5 MiB) pieces |
| Chunking.FixedChunksSizes | s3_api/files/service.py:123-127 | every piece is non-empty and at most the chunk size; all but the last are exactly the chunk size |
| Chunking.CommitListNumbers | s3_api/files/service.py:122-138 | the committed part numbers run 1, 2, …, n in ascending order, with no gap and no repeat |
| Chunking.AssembleCommitList | s3_api/files/service.py:135-144 | each committed entry names the uploaded part under its own ETag, and the list assembles exactly the chunks in order |
| Chunking.CommitListSizes | s3_api/files/service.py:139-144 | 5 MiB parts satisfy the store's minimum part size |
| Utils.UniqueFilenameShape | s3_api/files/utils.py:6-7 | the key is 37 characters longer than the name: a canonical 36-character UUID, `_`, then the name |
| Utils.UniqueFilenameSplit | s3_api/files/utils.py:7 | splitting the key on its first `_` gives back the UUID and exactly the name, underscores in the name included |
| Utils.ValidateImg | s3_api/files/utils.py:10-15 | passes iff the content type starts with `image/`; otherwise a 415 with the fixed detail |
| Utils.ValidateImgExamples | s3_api/files/utils.py:10-15 | `image/jpeg` passes; `application/x-image`, `image` and `Image/png` are refused |
| Schemas.ValidateUniqueFilename | s3_api/files/schemas.py:27-37 | an accepted value is returned unchanged; a refused one gets the fixed message; a value without `_` is refused |
| Schemas.ValidatorJudgesFirstSegment | s3_api/files/schemas.py:30-31 | acceptance depends only on the text before the first `_`, which must parse as a UUID; later underscores do not matter |
| Schemas.CanonicalUuidParses | s3_api/files/schemas.py:31 | any canonical UUID text parses, whatever its version digit (`version=4` is not checked) |
| Schemas.UniqueFilenameAccepted | s3_api/files/schemas.py:27-37 | every key `get_unique_filename` (utils.py:6-7) can produce passes the validator unchanged |
| Schemas.NonUuidPrefixRejected | s3_api/files/schemas.py:30-36 | for any first segment (without `_`) that does not parse as a UUID, the value is refused with the fixed message, even when a canonical UUID follows the `_` |
| Service.RecoveryAsWritten | s3_api/files/service.py:146-152 | as written, every `ClientError` leads to an abort with `upload_id`, which is unbound when initiation failed |
| Service.RecoveryFor | s3_api/files/service.py:146-152 | corrected: abort iff a `ClientError` arrives after the session was opened, using that session's id |
| Service.RecoveryDiffers | s3_api/files/service.py:114-152 | the two differ exactly when the initiating call itself was refused |
| Service.Raised | s3_api/files/service.py:146-152 | the error re-raised is the original one, unless the abort failed, whose error then replaces it |
| Service.InitiateRefusedAsWritten | s3_api/files/service.py:115-151 | as written, a refused initiation surfaces as an unhandled `UnboundLocalError` (500) |
| Service.InitiateRefusedCorrected | s3_api/files/service.py:115-152 | with the guard, the store's refusal reaches the decorator unchanged |
| Service.RecoverOnEffect | s3_api/files/service.py:146-152 | the abort goes out iff a `ClientError` follows an opened session; it leaves stored objects alone; a successful abort closes the session; the raised error is `Raised` |
| Service.CommitStores | s3_api/files/service.py:139-144 | a commit that goes through stores the chunks' concatenation under the key with the declared content type, and closes the session |
| Service.CommitEmptyRefused | s3_api/files/service.py:123-144 | a body that gave no chunk commits an empty list, which the store refuses as `MalformedXML` |
| Service.CommitAccepted | s3_api/files/service.py:123-144 | a non-empty list of full-size parts (the last may be short) is accepted |
| Service.UploadPartStep | s3_api/files/service.py:128-138 | a part that goes through gets the next ETag and is added to the session under the next number; a failed one leaves the stored objects alone, and leaves the store as it was unless only the reply was lost; with no fault, a number up to 10000 is accepted |
| Service.PartAnswerEffect | s3_api/files/service.py:128-134 | a part request leaves the stored objects alone and keeps the store invariant, whether it went through, was refused, or lost its reply |
| Service.EndOnOutcome | s3_api/files/service.py:139-152 | after the loop, the upload fails iff something was raised, with `Raised(...)` of it; the commit goes out iff no part failed; the abort follows a `ClientError` only and, when it goes through, closes the session |
| Service.EndOnState | s3_api/files/service.py:139-152 | after the loop, a success leaves exactly the commit's state; a failure leaves the stored objects alone unless the store acted on the commit and its reply was lost, and then no abort was sent |
| Service.EndOnWellFormed | s3_api/files/service.py:139-152 | whatever the faults, the commit and the handler keep the store invariant |
| Service.AfterCreateEffect | s3_api/files/service.py:120-152 | once the session is open, every chunk read was sent and no commit follows a failed part; a success stores the concatenated chunks and closes the session; a failure changes no stored object unless the commit's reply was lost; the store invariant is kept |
| Service.UploadOnSuccess | s3_api/files/service.py:114-144 | a successful upload opened a session, sent every chunk and committed, with no abort; the key now holds the concatenated chunks with the declared type; the session is closed; no other object changed |
| Service.UploadOnFailure | s3_api/files/service.py:114-152 | an upload fails iff something raised inside the `try`, and it raises `Raised(...)` of that cause |
| Service.UploadOnFailureObjects | s3_api/files/service.py:114-152 | a failed upload changes no stored object, with one exception: the store acted on the commit and its reply was lost. Then the key holds the body, the caller sees the lost connection, and no abort is sent |
| Service.UploadOnAbort | s3_api/files/service.py:121-152 | the abort happens iff a session was opened and a `ClientError` was raised; a successful abort closes the session; a commit never follows a failed part; before initiation nothing is sent |
| Service.UploadOnWellFormed | s3_api/files/service.py:114-152 | whatever the faults, an upload keeps the store invariant |
| Service.UploadOnStoresBody | s3_api/files/service.py:114-144 | with no fault, a non-empty body of at most 10000 × 5 MiB, read in full pieces, makes at most 10000 parts and is stored whole under the key with the declared type |
| Service.UploadOnTooLarge | s3_api/files/service.py:121-152 | with no fault, a body of more than 10000 pieces has part 10001 refused by the store; the session is aborted, no commit is sent, no object is stored, and the refusal is raised |
| Service.UploadOnEmptyBody | s3_api/files/service.py:121-152 | with no fault, an empty body ends in a refused commit, an abort, and the refusal raised; no object is stored |
| Service.UploadCallsOrder | s3_api/files/service.py:115-151 | requests go out as: initiate; parts 1..n carrying the chunks in order; the failed part, if any; the commit with the full list, if sent, at the position right after the parts; the abort for the same key and upload id, if sent, last (so a refused commit is followed by the abort); nothing else |
| Service.S3Client.Recover | s3_api/files/service.py:146-152 | the handler block on the live store: abort iff needed, then the error, the state and the log as `RecoverOn` says |
| Service.S3Client.SendParts | s3_api/files/service.py:121-138 | the read-and-upload loop: one part per non-empty read, numbered from 1, each ETag recorded; it stops at the first empty read or the first failed part; the sent chunks (and the failed one) concatenate to what was read; with full reads and no fault, the parts are the fixed 5 MiB pieces |
| Service.S3Client.Conclude | s3_api/files/service.py:139-152 | the commit, or the handler after a failed part, as `EndOn` says |
| Service.S3Client.UploadFile | s3_api/files/service.py:102-152 | a form file without a declared content type is refused (`ContentType=None`) before any request, with the store untouched and no abort; otherwise the whole upload equals `UploadOn`: the log is exactly `UploadCalls` and the new state is `UploadOn`'s; the file is read only as far as the parts sent; with full reads and no fault, every 5 MiB piece is sent |
| Service.S3Client.UploadTyped | s3_api/files/service.py:113-152 | the upload once the content type is known: the outcome and new state are `UploadOn`'s, the log is exactly `UploadCalls`, the file is read only as far as the parts sent, and with full reads and no fault every 5 MiB piece is sent |
| Service.PayloadChunkItems | s3_api/files/service.py:96-100 | the bytes of the yielded chunks are the chunks' concatenation |
| Service.StreamOnBody | s3_api/files/service.py:82-100 | the stream succeeds iff the object exists with a content type and the call goes through; then the media type comes first, every later chunk is 1 byte to 1 MiB, and the chunks make up the stored body; otherwise nothing is yielded |
| Service.StreamOnFullReads | s3_api/files/service.py:96-100 | with full reads, the chunks are the body cut into 1 MiB pieces |
| Service.StreamOnMissingKey | s3_api/files/service.py:63-89 | a missing key yields nothing and reaches the decorator as a 404 naming the file |
| Service.S3Client.YieldMediaTypeThenStreamFile | s3_api/files/service.py:81-100 | the generator's loop yields exactly what `StreamOn` says, with one `get_object` request |
| Service.ContentTypeOr | s3_api/files/service.py:181-183 | the stored type, or `application/octet-stream` when there is none |
| Service.Matching | s3_api/files/service.py:175-177 | the kept keys are exactly those containing the pattern as a substring |
| Service.MatchingEmptyPattern | s3_api/files/service.py:176 | the empty pattern, `ListRequest`'s default (schemas.py:8), keeps every key |
| Service.MatchingAppend | s3_api/files/service.py:174-177 | filtering page by page equals filtering the whole listing |
| Service.ScanOnEntries | s3_api/files/service.py:175-189 | a successful scan of a page lists exactly its matching keys, in page order, each with its stored type, after exactly one HEAD request per match |
| Service.ScanOnLive | s3_api/files/service.py:175-189 | with no request stopped and every key of the page stored, the scan succeeds |
| Service.FindOnEntries | s3_api/files/service.py:172-190 | a successful run over the pages from a position on lists exactly the matching stored keys from that position, in listing order |
| Service.FindOnLive | s3_api/files/service.py:172-190 | with no request stopped in a well-formed store, every page is listed and scanned without error |
| Service.FindFilesListing | s3_api/files/service.py:165-190 | the whole listing: exactly the stored keys containing the pattern, in listing order, each with its stored or default type; the empty pattern lists every key |
| Service.S3Client.ScanPage | s3_api/files/service.py:175-189 | the inner loop yields exactly `ScanOn`'s entries and requests |
| Service.S3Client.FindFiles | s3_api/files/service.py:165-190 | the nested page loop yields exactly `FindOn`'s outcome and requests, and changes no state |
| Service.RemoveFileOutcome | s3_api/files/service.py:154-162 | with no fault, removing succeeds whether or not the key existed; the key is gone; other objects are kept; removing again changes nothing |
| Service.S3Client.RemoveFile | s3_api/files/service.py:154-162 | one delete request, with the store's answer |
| Service.S3Client.CreateDefaultBucket | s3_api/files/service.py:192-204 | one create-bucket request, with the store's answer |
| Router.DownloadHeaders | s3_api/files/router.py:30-33 | `Content-Disposition: attachment; filename=<name>` iff `image` is not a substring of the media type; no other header |
| Router.ImagesShownInline | s3_api/files/router.py:30-33 | an `image/...` media type gets no disposition header |
| Router.DownloadAsWritten | s3_api/files/router.py:26-27 | as written, `anext` receives the coroutine of the decorator's `async def wrapper` (service.py:62-72), not the generator: every download is a 500 |
| Router.Download | s3_api/files/router.py:21-35 | corrected: the first item is the media type, and the remaining chunks form the streamed body |
| Router.DownloadServesObject | s3_api/files/router.py:26-35 | a stored object with a type is served whole: its type, its body, and the disposition rule |
| Router.DownloadFailures | s3_api/files/router.py:26-27 | a missing file is a 404 naming it; a stored file without a content type is a 500 |
| Router.ChosenFilename | s3_api/files/router.py:45-48 | the key is `new_filename` when non-empty, otherwise the uploaded file's name; with `set_unique_name`, it is `<uuid>_<name>`, which splits back and passes the validator unchanged |
| Router.BindUploadFile | s3_api/files/service.py:103-119 | the first positional argument becomes `filename` and the second `file`; the call starts only with a string key and an UploadFile |
| Router.UploadArgsAsWrittenRefused | s3_api/files/router.py:49 | as written, the swapped arguments raise an AttributeError that the decorator lets through |
| Router.UploadArgsBind | s3_api/files/service.py:103-107 | in declared order, the chosen name is the key, and a missing key is a 404 naming it |
| Router.UploadAnswersName | s3_api/files/router.py:49-53 | the name returned is the name uploaded under; a finished upload gets 201; so does one whose store error the decorator swallowed |
| Router.UploadAsWritten | s3_api/files/router.py:38-53 | as written, every upload answers 500 before any request is sent |
| Router.Upload | s3_api/files/router.py:38-53 | corrected: a form file without a content type is a 500 with the store untouched; otherwise uploads under the chosen name: the outcome and new state are `UploadOn`'s, the log is exactly `UploadCalls`, and the response follows the decorator. The form file is read only as far as the parts sent, and those parts together with the failed one are the bytes read. With full reads and no fault, the parts are the file's fixed 5 MiB pieces |
| Router.UploadThenDownload | s3_api/files/router.py:21-53 | with no fault, a non-empty body of at most 10000 × 5 MiB uploaded under a key with a declared type is answered 201 with the key, and downloading the key then serves exactly that body with that type as the media type and the disposition the type calls for |
| Router.Delete | s3_api/files/router.py:56-63 | one delete request; the fixed details once `remove_file` returns |
| Router.DeleteAnswersDetails | s3_api/files/router.py:61-63 | with no fault, always `Deleted file if it existed: <name>`, and the file is gone, whether it existed or not; a request lost on the way is a 500 that changes nothing; a reply lost after the store deleted the file is a 500 with the file gone |
| Router.Find | s3_api/files/router.py:66-70 | the listing of `find_files` for the request's pattern, through the decorator |
| Router.FindListsMatching | s3_api/files/router.py:66-70 | with no fault in a well-formed store, the matching keys in listing order with their types; the default request lists every key |

## Left out

- The aiobotocore session, `get_client` and the HTTP transport. The store is the abstract `ObjectStore`, and each call's success or failure is the fault oracle.
- Async scheduling, concurrent requests and request cancellation. Calls are sequential. Two uploads racing for one key are not modelled.
- Logging and the `success_message`/`error_message` fields. They are log text with no effect on behaviour.
- Configuration (s3_api/config.py), app wiring, CORS and the lifespan hook (s3_api/main.py). The start-up call is modelled as `Service.S3Client.CreateDefaultBucket`.
- The randomness of `uuid.uuid4()`. Its text is a parameter satisfying `Utils.IsUuid4Text`.
- The store beyond the rules the client's behaviour depends on:
  - bucket names, permissions and versioning;
  - ETags are a counter;
  - listing continuation tokens are positions in a fixed listing order.
- Errors while a body is being read. A read never fails, so an error cannot cut a download or an upload short after its first chunk.
- Schemas.ParsesAsUuid: Python's `int(hex, 16)` also accepts surrounding whitespace, a sign, a `0x` prefix and non-ASCII digits. The predicate accepts exactly 32 ASCII hex digits after the clean-up, so those rare texts are refused here.
- The listing's `File` items are rebuilt by the response model. Only the key and content type are kept, as in `Schemas.FileEntry`.
- The import in s3_api/files/router.py:13-16 names `get_unique_filename` from service.py, which does not define it. The model uses the definition in s3_api/files/utils.py:6-7.
- Service.S3Client.UploadFile: the guarantee that every 5 MiB piece is sent is stated only for bodies of at most 10000 × 5 MiB. A larger body reaches part 10001, which the store refuses, and the upload is aborted; `Service.UploadOnTooLarge` states that outcome on `Service.UploadOn`, but the method's contract does not tie a larger body's reads to it.
- Requests that the store carries out only in part. Each request is atomic: the store either acts on it in full or not at all, and a lost connection is lost either before or after that.
- Service.UploadOnFailure: it does not promise that a failed upload leaves every stored object alone. That is false when the commit's reply is lost after the store acted on it. `Service.UploadOnFailureObjects` states what does hold.
- Utils.ValidateImg: takes the content type as text. For a form file without one, `validate_img` would raise AttributeError on `None.startswith`; that path is not modelled, and no route calls the function.

## Findings

| source | as written | input that shows it | evidently intended | confidence | as-written member | corrected member |
|---|---|---|---|---|---|---|
| s3_api/files/service.py:146-151 | the handler aborts with `upload_id` for every `ClientError` | `create_multipart_upload` refused (for example `AccessDenied`): `upload_id` is unbound, and an `UnboundLocalError` replaces the store error, giving an unhandled 500 | abort only a session that was opened; otherwise re-raise the store error | high, not executed | Service.RecoveryAsWritten, Service.InitiateRefusedAsWritten | Service.RecoveryFor, Service.InitiateRefusedCorrected |
| s3_api/files/router.py:49 | `client.upload_file(file, filename)` against the declared `upload_file(self, filename, file)` | any upload: `file` is bound to the name string, and `file.content_type` raises AttributeError before the first request, giving a 500 | pass the name first, then the file | high, not executed | Router.UploadArgsAsWrittenRefused, Router.UploadAsWritten | Router.UploadArgsBind, Router.Upload |
| s3_api/files/router.py:26-27 | `anext(client.yield_media_type_then_stream_file(filename))` on a method wrapped by the `async def wrapper` of service.py:62 | any download: the call returns a coroutine, which has no `__anext__`, so `anext` raises TypeError, giving a 500 | await the wrapper first, then take the first item of the generator it returns | high, not executed | Router.DownloadAsWritten | Router.Download, Router.DownloadServesObject |
