/** The `S3Client` class of s3_api/files/service.py: the multipart upload
    orchestrator, the download streamer, the lister, delete and bucket
    creation, each talking to the store through `ObjectStore`.

    Each operation returns what the undecorated Python coroutine returns or
    raises, as a `Result<T, Exc>`; the `error_handler` decorator is
    `Errors.ErrorHandler`, applied where the router calls the operation with
    its actual arguments. The async generator `yield_media_type_then_stream_file`
    becomes the whole sequence of items it yields. */
module Service {
  import opened Base
  import opened Errors
  import opened Streams
  import opened Store
  import opened Chunking
  import opened Schemas

  /** Upload parts are read 5 MiB at a time, the store's minimum part size. */
  const UPLOAD_CHUNK_SIZE: nat := 5 * 1024 * 1024

  /** Downloads are streamed 1 MiB at a time. */
  const CHUNK_SIZE: nat := 1024 * 1024

  /** The listing's content type when the store reports none. */
  const DEFAULT_CONTENT_TYPE := "application/octet-stream"

  /** What the `except ClientError` block of `upload_file` does about a failure. */
  datatype Recovery =
    | AbortThenRaise(uploadId: nat) // abort the session, then raise
    | Reraise                       // raise the failure as it is
    | RaiseUnbound                  // `upload_id` is read before assignment

  /** The handler as written: every `ClientError` leads to an abort with
      `upload_id`, which is unbound when `create_multipart_upload` itself
      failed. Other exceptions pass the handler by. */
  function RecoveryAsWritten(uploadId: Option<nat>, cause: Exc): (a: Recovery)
    ensures a == RaiseUnbound <==> cause.ClientError? && uploadId.None?
    ensures a.AbortThenRaise? <==> cause.ClientError? && uploadId.Some?
  {
    if !cause.ClientError? then Reraise
    else if uploadId.None? then RaiseUnbound
    else AbortThenRaise(uploadId.value)
  }

  /** The handler as intended: abort only a session that was opened. */
  function RecoveryFor(uploadId: Option<nat>, cause: Exc): (a: Recovery)
    ensures a.AbortThenRaise? <==> cause.ClientError? && uploadId.Some?
    ensures a.AbortThenRaise? ==> a.uploadId == uploadId.value
    ensures a != RaiseUnbound
  {
    if cause.ClientError? && uploadId.Some? then AbortThenRaise(uploadId.value) else Reraise
  }

  /** The two handlers differ exactly when the initiating call itself was
      refused by the store. */
  lemma RecoveryDiffers(uploadId: Option<nat>, cause: Exc)
    ensures RecoveryFor(uploadId, cause) != RecoveryAsWritten(uploadId, cause)
        <==> cause.ClientError? && uploadId.None?
  {
  }

  /** The exception `upload_file` ends with. An abort that itself fails raises
      its own error out of the handler, so it replaces the original one. */
  function Raised(a: Recovery, cause: Exc, abortReply: Result<(), Exc>): (e: Exc)
    ensures a.AbortThenRaise? && abortReply.Success? ==> e == cause
    ensures a.AbortThenRaise? && abortReply.Failure? ==> e == abortReply.error
    ensures a.Reraise? ==> e == cause
    ensures a.RaiseUnbound? ==> e == OtherException(UnboundUploadId)
  {
    match a
    case AbortThenRaise(_) => if abortReply.Failure? then abortReply.error else cause
    case Reraise => cause
    case RaiseUnbound => OtherException(UnboundUploadId)
  }

  /** As written, a store refusal of the initiating call surfaces as an
      `UnboundLocalError`, which the error handler does not translate: the
      client gets an unhandled 500 instead of the store's answer. */
  lemma InitiateRefusedAsWritten(e: StoreError, args: seq<PyValue>)
    ensures var raised := Raised(RecoveryAsWritten(None, ClientError(e)), ClientError(e), Success(()));
      ErrorHandler<()>(Failure(raised), args, map[]) == Unhandled(UnboundUploadId)
  {
  }

  /** With the guard, the store's refusal reaches the error handler, which
      answers it like any other store error. */
  lemma InitiateRefusedCorrected(e: StoreError, args: seq<PyValue>)
    ensures var raised := Raised(RecoveryFor(None, ClientError(e)), ClientError(e), Success(()));
      && raised == ClientError(e)
      && ErrorHandler<()>(Failure(raised), args, map[]) == ErrorHandler<()>(Failure(ClientError(e)), args, map[])
      && !ErrorHandler<()>(Failure(raised), args, map[]).Unhandled?
  {
  }

  /** What one `upload_file` call did: whether a session was opened, the parts
      uploaded, the part whose upload failed, whether the commit was sent, the
      exception raised inside the `try`, and whether (and how) the abort went. */
  datatype UploadTrace = UploadTrace(
    initiated: bool,
    parts: seq<Bytes>,
    failedPart: Option<Bytes>,
    committed: bool,
    cause: Option<Exc>,
    aborted: bool,
    abortReply: Result<(), Exc>)

  /** The `upload_part` requests of the loop: one per chunk sent, numbered
      from 1, then the one that failed, if any. */
  function SentCalls(key: string, uploadId: nat, chunks: seq<Bytes>, failed: Option<Bytes>): (calls: seq<Call>)
    ensures |calls| == |chunks| + (if failed.Some? then 1 else 0)
  {
    if failed.None? then PartCalls(key, uploadId, chunks)
    else PartCalls(key, uploadId, chunks) + [UploadPartCall(key, uploadId, |chunks| + 1, failed.value)]
  }

  /** The requests after the loop: the commit, then the abort. */
  function EndCalls(key: string, uploadId: nat, parts: seq<PartRef>, committed: bool, aborted: bool): seq<Call> {
    (if committed then [CompleteMultipartUploadCall(key, uploadId, parts)] else [])
    + (if aborted then [AbortMultipartUploadCall(key, uploadId)] else [])
  }

  /** The requests `upload_file` sends once a session is open, in order: one
      `upload_part` per chunk, the failed one if any, the commit, the abort. */
  function SessionCalls(key: string, uploadId: nat, firstTag: nat, t: UploadTrace): seq<Call> {
    SentCalls(key, uploadId, t.parts, t.failedPart)
    + EndCalls(key, uploadId, CommitList(firstTag, |t.parts|), t.committed, t.aborted)
  }

  /** The requests `upload_file` sends, in order, for a given trace. */
  function UploadCalls(key: string, contentType: string, uploadId: nat, firstTag: nat, t: UploadTrace): seq<Call> {
    [CreateMultipartUploadCall(key, contentType)] + SessionCalls(key, uploadId, firstTag, t)
  }

  lemma AllPassNext(faults: seq<Fault>)
    requires AllPass(faults)
    ensures NextFault(faults) == Pass
  {
  }

  /** Few enough bytes make few enough parts. */
  lemma {:induction false} FixedChunksAtMost(s: Bytes, size: nat, n: nat)
    requires size > 0 && |s| <= n * size
    ensures |FixedChunks(s, size)| <= n
    decreases n
  {
    if s != [] {
      assert n != 0;
      assert (n - 1) * size == n * size - size;
      FixedChunksAtMost(s[Min(size, |s|)..], size, n - 1);
    }
  }

  /** The store while `upload_file` has sent `chunks`: the session holds
      them as parts 1, 2, ..., and the ETag counter moved past them. */
  function Uploading(st: StoreState, key: string, contentType: string, uploadId: nat, chunks: seq<Bytes>): StoreState {
    st.(sessions := st.sessions[uploadId := Session(key, contentType, PartsMap(st.nextTag, chunks))],
        nextTag := st.nextTag + |chunks|)
  }

  /** While parts go up, the session holds exactly them and the objects and
      their listing order are untouched. */
  lemma UploadingSession(st: StoreState, key: string, contentType: string, uploadId: nat, chunks: seq<Bytes>)
    ensures var during := Uploading(st, key, contentType, uploadId, chunks);
      && uploadId in during.sessions
      && during.sessions[uploadId] == Session(key, contentType, PartsMap(st.nextTag, chunks))
      && during.objects == st.objects && during.order == st.order
  {
  }

  lemma UploadingInitially(st: StoreState, key: string, contentType: string, uploadId: nat)
    requires uploadId in st.sessions && st.sessions[uploadId] == Session(key, contentType, map[])
    ensures Uploading(st, key, contentType, uploadId, []) == st
  {
    assert st.sessions[uploadId := Session(key, contentType, PartsMap(st.nextTag, []))] == st.sessions;
  }

  /** One `upload_part` call during the loop: on success it is the next part
      under the next ETag; on failure the stored objects are untouched, and
      nothing changes at all unless the store acted before the reply was
      lost; with no fault in the way it fails only past part 10000. */
  lemma UploadPartStep(st: StoreState, key: string, contentType: string, uploadId: nat,
                       chunks: seq<Bytes>, chunk: Bytes, f: Fault)
    ensures var before := Uploading(st, key, contentType, uploadId, chunks);
      var answer := Answer(f, UploadPartOp(before, key, uploadId, |chunks| + 1, chunk), before);
      && (answer.0.Success? ==> answer.0.value == st.nextTag + |chunks|
                                && answer.1 == Uploading(st, key, contentType, uploadId, chunks + [chunk]))
      && (answer.0.Failure? ==> answer.1.objects == st.objects && (f != ReplyLost ==> answer.1 == before))
      && (f == Pass && |chunks| + 1 <= MAX_PART_NUMBER ==> answer.0.Success?)
  {
    var before := Uploading(st, key, contentType, uploadId, chunks);
    PartsMapSnoc(st.nextTag, chunks, chunk);
    assert before.sessions[uploadId].parts == PartsMap(st.nextTag, chunks);
  }

  /** The reply to the `upload_part` request for `chunk`, and the store after it. */
  function PartAnswer(st: StoreState, faults: seq<Fault>, key: string, uploadId: nat, partNumber: nat, chunk: Bytes)
    : (Result<nat, Exc>, StoreState)
  {
    Answer(NextFault(faults), UploadPartOp(st, key, uploadId, partNumber, chunk), st)
  }

  /** What the read-and-upload loop starts from: the store right after the
      session was opened, the request log and fault oracle at that point, and
      the whole body to send. */
  datatype LoopStart = LoopStart(st: StoreState, key: string, contentType: string, uploadId: nat,
                                 log0: seq<Call>, f0: seq<Fault>, data: Bytes)

  /** The store, request log, fault oracle and part list once `chunks` went
      up: the session holds them as parts 1, 2, ..., the log names one
      `upload_part` request per chunk, one fault was used per request, and the
      part list pairs each part number with the ETag the store handed out. */
  function Expected(c: LoopStart, chunks: seq<Bytes>): (StoreState, seq<Call>, seq<Fault>, seq<PartRef>) {
    (Uploading(c.st, c.key, c.contentType, c.uploadId, chunks),
     c.log0 + PartCalls(c.key, c.uploadId, chunks),
     Skip(c.f0, |chunks|),
     CommitList(c.st.nextTag, |chunks|))
  }

  /** The same, when the request for the part after `chunks` failed: that
      request and its fault are used up, and the store is as that request
      left it (unchanged, unless the store acted on it before the reply was
      lost). */
  function Sent(c: LoopStart, chunks: seq<Bytes>, failed: Option<Bytes>): (StoreState, seq<Call>, seq<Fault>, seq<PartRef>) {
    var calls := SentCalls(c.key, c.uploadId, chunks, failed);
    var during := Uploading(c.st, c.key, c.contentType, c.uploadId, chunks);
    (if failed.Some? then PartAnswer(during, Skip(c.f0, |chunks|), c.key, c.uploadId, |chunks| + 1, failed.value).1 else during,
     c.log0 + calls, Skip(c.f0, |calls|),
     CommitList(c.st.nextTag, |chunks|))
  }

  /** The account after one more part went up. */
  lemma ExpectedSnoc(c: LoopStart, chunks: seq<Bytes>, chunk: Bytes)
    ensures var e := Expected(c, chunks);
      Expected(c, chunks + [chunk])
      == (Uploading(c.st, c.key, c.contentType, c.uploadId, chunks + [chunk]),
          e.1 + [UploadPartCall(c.key, c.uploadId, |chunks| + 1, chunk)],
          Rest(e.2),
          e.3 + [PartRef(c.st.nextTag + |chunks|, |chunks| + 1)])
  {
    var call := UploadPartCall(c.key, c.uploadId, |chunks| + 1, chunk);
    PartCallsSnoc(c.key, c.uploadId, chunks, chunk);
    assert c.log0 + (PartCalls(c.key, c.uploadId, chunks) + [call]) == (c.log0 + PartCalls(c.key, c.uploadId, chunks)) + [call];
    CommitListSnoc(c.st.nextTag, |chunks|);
    SkipOneMore(c.f0, |chunks|);
  }

  /** Every chunk is non-empty and at most 5 MiB. */
  predicate Bounded(chunks: seq<Bytes>) {
    forall i | 0 <= i < |chunks| :: 0 < |chunks[i]| <= UPLOAD_CHUNK_SIZE
  }

  /** A non-empty read takes `chunk` off the front and keeps the account of
      the body: what was read, then what is left, is the whole body. */
  lemma ReadStep(data: Bytes, chunks: seq<Bytes>, before: Bytes, chunk: Bytes, rest: Bytes)
    requires Concat(chunks) + before == data && Bounded(chunks)
    requires before == chunk + rest && 0 < |chunk| <= UPLOAD_CHUNK_SIZE
    ensures Concat(chunks + [chunk]) + rest == data && Bounded(chunks + [chunk])
  {
    ConcatSnoc(chunks, chunk);
    assert Concat(chunks) + before == (Concat(chunks) + chunk) + rest;
  }

  /** When every read is full, the chunk read is the body's next piece. */
  lemma FullReadStep(data: Bytes, chunks: seq<Bytes>, before: Bytes, chunk: Bytes, rest: Bytes)
    requires chunk == before[..Min(UPLOAD_CHUNK_SIZE, |before|)] && rest == before[|chunk|..] && chunk != []
    requires |FixedChunks(data, UPLOAD_CHUNK_SIZE)| <= MAX_PART_NUMBER
    requires FixedChunks(data, UPLOAD_CHUNK_SIZE) == chunks + FixedChunks(before, UPLOAD_CHUNK_SIZE)
    ensures |chunks| + 1 <= MAX_PART_NUMBER
    ensures FixedChunks(data, UPLOAD_CHUNK_SIZE) == (chunks + [chunk]) + FixedChunks(rest, UPLOAD_CHUNK_SIZE)
  {
    var tail := FixedChunks(rest, UPLOAD_CHUNK_SIZE);
    assert FixedChunks(before, UPLOAD_CHUNK_SIZE) == [chunk] + tail;
    assert chunks + ([chunk] + tail) == (chunks + [chunk]) + tail;
    assert |chunks| + 1 <= |chunks + ([chunk] + tail)|;
  }

  /** Faults left after `n` requests, when none stops a request. */
  lemma {:induction false} SkipAllPass(faults: seq<Fault>, n: nat)
    requires AllPass(faults)
    ensures AllPass(Skip(faults, n)) && NextFault(Skip(faults, n)) == Pass
    decreases n
  {
    if n > 0 {
      SkipAllPass(Rest(faults), n - 1);
    }
  }

  /** After `a` requests and then `b` more, `a + b` faults are used up. */
  lemma {:induction false} SkipAdd(faults: seq<Fault>, a: nat, b: nat)
    ensures Skip(Skip(faults, a), b) == Skip(faults, a + b)
    decreases a
  {
    if a > 0 {
      SkipAdd(Rest(faults), a - 1, b);
    }
  }

  /** The oracle after `a` requests and then `b` more. */
  lemma FaultsAdd(faults: seq<Fault>, mid: seq<Fault>, last: seq<Fault>, a: nat, b: nat, n: nat)
    requires mid == Skip(faults, a) && last == Skip(mid, b) && n == a + b
    ensures last == Skip(faults, n)
  {
    SkipAdd(faults, a, b);
  }

  /** While parts go up, the store keeps its invariant. */
  lemma UploadingWellFormed(st: StoreState, key: string, contentType: string, uploadId: nat, chunks: seq<Bytes>)
    requires WellFormed(st) && uploadId in st.sessions
    ensures WellFormed(Uploading(st, key, contentType, uploadId, chunks))
  {
    SameObjectsWellFormed(st, Uploading(st, key, contentType, uploadId, chunks));
  }

  /** A commit `upload_file` sends once `chunks` went up, when it goes
      through, stores their concatenation under the key with the session's
      content type and closes the session. */
  lemma CommitStores(st: StoreState, key: string, contentType: string, uploadId: nat, chunks: seq<Bytes>)
    requires CompleteMultipartUploadOp(Uploading(st, key, contentType, uploadId, chunks),
                                       key, uploadId, CommitList(st.nextTag, |chunks|)).reply.Success?
    ensures var next := CompleteMultipartUploadOp(Uploading(st, key, contentType, uploadId, chunks),
                                                  key, uploadId, CommitList(st.nextTag, |chunks|)).next;
      && next.objects == st.objects[key := StoredObject(Concat(chunks), Some(contentType))]
      && uploadId !in next.sessions
  {
    var before := Uploading(st, key, contentType, uploadId, chunks);
    var parts := CommitList(st.nextTag, |chunks|);
    UploadingSession(st, key, contentType, uploadId, chunks);
    CompleteAccepted(before, key, uploadId, parts);
    AssembledBody(st.nextTag, Session(key, contentType, PartsMap(st.nextTag, chunks)), chunks);
  }

  /** The commit list assembles exactly the chunks, in order. */
  lemma AssembledBody(firstTag: nat, s: Session, chunks: seq<Bytes>)
    requires s.parts == PartsMap(firstTag, chunks)
    ensures PartsMatch(s, CommitList(firstTag, |chunks|))
    ensures Assemble(s, CommitList(firstTag, |chunks|)) == Concat(chunks)
  {
    AssembleCommitList(s, firstTag, chunks, |chunks|);
    assert chunks[..|chunks|] == chunks;
  }

  /** A body that gave no chunk at all commits an empty list, which the store
      refuses as malformed. */
  lemma CommitEmptyRefused(st: StoreState, key: string, contentType: string, uploadId: nat)
    ensures var before := Uploading(st, key, contentType, uploadId, []);
      CompleteMultipartUploadOp(before, key, uploadId, CommitList(st.nextTag, 0)).reply
      == Failure(StoreError("MalformedXML", "CompleteMultipartUpload", ListMalformed))
  {
    assert CommitList(st.nextTag, 0) == [];
  }

  /** A list whose every part but the last holds at least the minimum part
      size goes through. */
  lemma CommitAccepted(st: StoreState, key: string, contentType: string, uploadId: nat, chunks: seq<Bytes>)
    requires chunks != [] && forall i | 0 <= i < |chunks| - 1 :: |chunks[i]| >= MIN_PART_SIZE
    ensures var before := Uploading(st, key, contentType, uploadId, chunks);
      CompleteMultipartUploadOp(before, key, uploadId, CommitList(st.nextTag, |chunks|)).reply.Success?
  {
    var before := Uploading(st, key, contentType, uploadId, chunks);
    var s := before.sessions[uploadId];
    assert s.parts == PartsMap(st.nextTag, chunks);
    CommitListNumbers(st.nextTag, |chunks|);
    CommitListSizes(s, st.nextTag, chunks);
  }

  /** What the `except ClientError` block leaves behind: the exception
      `upload_file` ends with, whether the abort went out and its reply, and
      the store afterwards. */
  datatype Recovered = Recovered(error: Exc, aborted: bool, abortReply: Result<(), Exc>, state: StoreState)

  /** The `except ClientError` block on values, with the guard that aborts
      only a session that was opened. */
  function RecoverOn(st: StoreState, faults: seq<Fault>, key: string, uploadId: Option<nat>, cause: Exc): Recovered {
    var a := RecoveryFor(uploadId, cause);
    if a.AbortThenRaise? then
      var answer := Answer(NextFault(faults), AbortMultipartUploadOp(st, key, a.uploadId), st);
      Recovered(Raised(a, cause, answer.0), true, answer.0, answer.1)
    else Recovered(Raised(a, cause, Success(())), false, Success(()), st)
  }

  /** The handler never touches the stored objects; an abort that goes
      through closes the session; with no fault in the way the abort of an
      open session goes through; and the store keeps its invariant. */
  lemma RecoverOnEffect(st: StoreState, faults: seq<Fault>, key: string, uploadId: Option<nat>, cause: Exc)
    ensures var rec := RecoverOn(st, faults, key, uploadId, cause);
      && (rec.aborted <==> cause.ClientError? && uploadId.Some?)
      && rec.error == Raised(RecoveryFor(uploadId, cause), cause, rec.abortReply)
      && rec.state.objects == st.objects
      && (rec.aborted && rec.abortReply.Success? ==> uploadId.value !in rec.state.sessions)
      && (rec.aborted && NextFault(faults) == Pass && SessionFor(st, key, uploadId.value) ==> rec.abortReply.Success?)
      && (!rec.aborted ==> rec.state == st)
      && (WellFormed(st) ==> WellFormed(rec.state))
  {
    if WellFormed(st) && cause.ClientError? && uploadId.Some? {
      SameObjectsWellFormed(st, AbortMultipartUploadOp(st, key, uploadId.value).next);
    }
  }

  /** How `upload_file` ends once the loop is over: the reply, whether the
      commit was sent, the exception raised inside the `try`, the abort, and
      the store afterwards. */
  datatype Ending = Ending(r: Result<(), Exc>, committed: bool, cause: Option<Exc>,
                           aborted: bool, abortReply: Result<(), Exc>, state: StoreState)

  /** The end of `upload_file` on values: after a failed part upload, the
      handler; otherwise the commit of `parts`, and the handler when the
      commit fails. */
  function EndOn(st: StoreState, faults: seq<Fault>, key: string, uploadId: nat, parts: seq<PartRef>, partError: Option<Exc>): Ending {
    if partError.Some? then
      var rec := RecoverOn(st, faults, key, Some(uploadId), partError.value);
      Ending(Failure(rec.error), false, partError, rec.aborted, rec.abortReply, rec.state)
    else
      var answer := Answer(NextFault(faults), CompleteMultipartUploadOp(st, key, uploadId, parts), st);
      if answer.0.Success? then Ending(Success(()), true, None, false, Success(()), answer.1)
      else
        var rec := RecoverOn(answer.1, Rest(faults), key, Some(uploadId), answer.0.error);
        Ending(Failure(rec.error), true, Some(answer.0.error), rec.aborted, rec.abortReply, rec.state)
  }

  /** The error of the `upload_part` request for `chunk`, if the store or the
      connection failed it. */
  function PartFailure(st: StoreState, faults: seq<Fault>, key: string, uploadId: nat, partNumber: nat, chunk: Bytes): Option<Exc> {
    var reply := PartAnswer(st, faults, key, uploadId, partNumber, chunk).0;
    if reply.Failure? then Some(reply.error) else None
  }

  /** `upload_file` on values once the session `uploadId` is open in `st`,
      given the chunks its loop read and sent and the chunk whose upload
      failed, if any: the reply, the trace, and the store afterwards. */
  function AfterCreate(st: StoreState, faults: seq<Fault>, key: string, contentType: string, uploadId: nat,
                       chunks: seq<Bytes>, failed: Option<Bytes>): (Result<(), Exc>, UploadTrace, StoreState)
  {
    var during := Uploading(st, key, contentType, uploadId, chunks);
    var rest := Skip(faults, |chunks|);
    var partError := if failed.Some? then PartFailure(during, rest, key, uploadId, |chunks| + 1, failed.value) else None;
    var afterPart := if partError.Some? then PartAnswer(during, rest, key, uploadId, |chunks| + 1, failed.value).1 else during;
    var end := EndOn(afterPart, if partError.Some? then Rest(rest) else rest, key, uploadId,
                     CommitList(st.nextTag, |chunks|), partError);
    (end.r,
     UploadTrace(true, chunks, if partError.Some? then failed else None, end.committed, end.cause, end.aborted, end.abortReply),
     end.state)
  }

  /** `upload_file` on values: open the session, then as `AfterCreate`; when
      the opening request itself fails, the handler. */
  function UploadOn(st: StoreState, faults: seq<Fault>, key: string, contentType: string,
                    chunks: seq<Bytes>, failed: Option<Bytes>): (Result<(), Exc>, UploadTrace, StoreState)
  {
    var created := Answer(NextFault(faults), CreateMultipartUploadOp(st, key, contentType), st);
    if created.0.Success? then AfterCreate(created.1, Rest(faults), key, contentType, created.0.value, chunks, failed)
    else
      var rec := RecoverOn(created.1, Rest(faults), key, None, created.0.error);
      (Failure(rec.error), UploadTrace(false, [], None, false, Some(created.0.error), rec.aborted, rec.abortReply), rec.state)
  }

  /** An upload that succeeds opened a session, sent every chunk, committed,
      and stored the chunks' concatenation under the key with the declared
      content type; its session is closed and no other object changed. */
  lemma UploadOnSuccess(st: StoreState, faults: seq<Fault>, key: string, contentType: string,
                        chunks: seq<Bytes>, failed: Option<Bytes>)
    ensures var (r, t, next) := UploadOn(st, faults, key, contentType, chunks, failed);
      r.Success? ==> && t.initiated && t.committed && t.parts == chunks && t.failedPart.None?
                     && t.cause.None? && !t.aborted
                     && next.objects == st.objects[key := StoredObject(Concat(chunks), Some(contentType))]
                     && st.nextUploadId !in next.sessions
  {
    var created := Answer(NextFault(faults), CreateMultipartUploadOp(st, key, contentType), st);
    if created.0.Success? {
      AfterCreateEffect(created.1, Rest(faults), key, contentType, created.0.value, chunks, failed);
    }
  }

  /** A failed `upload_part` request leaves the stored objects alone and
      keeps the store's invariant, whether or not the store acted on it. */
  lemma PartAnswerEffect(st: StoreState, faults: seq<Fault>, key: string, uploadId: nat, partNumber: nat, chunk: Bytes)
    ensures var after := PartAnswer(st, faults, key, uploadId, partNumber, chunk).1;
      && after.objects == st.objects
      && (WellFormed(st) ==> WellFormed(after))
  {
    if WellFormed(st) {
      CallKeepsWellFormed(st, UploadPartCall(key, uploadId, partNumber, chunk));
    }
  }

  /** The end of an upload fails exactly when something was raised, with the
      error the handler settles on; the commit goes out exactly when no part
      failed; and the abort follows a store error only, closing the session
      when it goes through. */
  lemma EndOnOutcome(st: StoreState, faults: seq<Fault>, key: string, uploadId: nat, parts: seq<PartRef>, partError: Option<Exc>)
    ensures var end := EndOn(st, faults, key, uploadId, parts, partError);
      && (end.r.Success? <==> end.cause.None?)
      && (end.r.Failure? ==> end.r.error == Raised(RecoveryFor(Some(uploadId), end.cause.value), end.cause.value, end.abortReply))
      && (end.committed <==> partError.None?)
      && (partError.Some? ==> end.cause == partError)
      && (end.aborted <==> end.cause.Some? && end.cause.value.ClientError?)
      && (end.aborted && end.abortReply.Success? ==> uploadId !in end.state.sessions)
  {
    if partError.Some? {
      RecoverOnEffect(st, faults, key, Some(uploadId), partError.value);
    } else {
      var answer := Answer(NextFault(faults), CompleteMultipartUploadOp(st, key, uploadId, parts), st);
      if answer.0.Failure? {
        RecoverOnEffect(answer.1, Rest(faults), key, Some(uploadId), answer.0.error);
      }
    }
  }

  /** The store after the end of an upload: a success is the commit's own
      effect; a failure leaves the stored objects alone unless the store
      acted on the commit and its reply was lost, and then nothing was
      aborted. */
  lemma EndOnState(st: StoreState, faults: seq<Fault>, key: string, uploadId: nat, parts: seq<PartRef>, partError: Option<Exc>)
    ensures var end := EndOn(st, faults, key, uploadId, parts, partError);
      var step := CompleteMultipartUploadOp(st, key, uploadId, parts);
      && (end.r.Success? ==> step.reply.Success? && end.state == step.next)
      && (end.r.Failure? ==>
            || end.state.objects == st.objects
            || (&& end.committed && end.cause == Some(OtherException(ConnectionLost)) && !end.aborted
                && step.reply.Success? && end.state.objects == step.next.objects))
  {
    if partError.Some? {
      RecoverOnEffect(st, faults, key, Some(uploadId), partError.value);
    } else {
      var step := CompleteMultipartUploadOp(st, key, uploadId, parts);
      var answer := Answer(NextFault(faults), step, st);
      if step.reply.Failure? {
        CompleteRefused(st, key, uploadId, parts);
      }
      if answer.0.Failure? {
        RecoverOnEffect(answer.1, Rest(faults), key, Some(uploadId), answer.0.error);
      }
    }
  }

  /** Whatever the faults, the end of an upload keeps the store's invariant. */
  lemma EndOnWellFormed(st: StoreState, faults: seq<Fault>, key: string, uploadId: nat, parts: seq<PartRef>, partError: Option<Exc>)
    requires WellFormed(st)
    ensures WellFormed(EndOn(st, faults, key, uploadId, parts, partError).state)
  {
    if partError.Some? {
      RecoverOnEffect(st, faults, key, Some(uploadId), partError.value);
    } else {
      var answer := Answer(NextFault(faults), CompleteMultipartUploadOp(st, key, uploadId, parts), st);
      CompleteKeepsWellFormed(st, key, uploadId, parts);
      if answer.0.Failure? {
        RecoverOnEffect(answer.1, Rest(faults), key, Some(uploadId), answer.0.error);
      }
    }
  }

  /** Once the session is open, the upload sent every chunk it read and no
      commit follows a failed part; it fails exactly when something was
      raised; a success stores the chunks' concatenation and closes the
      session; a failure leaves the stored objects alone unless the commit's
      reply was lost after the store acted on it; and the store keeps its
      invariant. */
  lemma AfterCreateEffect(st: StoreState, faults: seq<Fault>, key: string, contentType: string, uploadId: nat,
                          chunks: seq<Bytes>, failed: Option<Bytes>)
    ensures var (r, t, next) := AfterCreate(st, faults, key, contentType, uploadId, chunks, failed);
      var stored := st.objects[key := StoredObject(Concat(chunks), Some(contentType))];
      && t.initiated && t.parts == chunks && (t.failedPart.Some? ==> t.failedPart == failed)
      && (t.committed <==> t.failedPart.None?)
      && (r.Success? <==> t.cause.None?)
      && (r.Failure? ==> r.error == Raised(RecoveryFor(Some(uploadId), t.cause.value), t.cause.value, t.abortReply))
      && (t.aborted <==> t.cause.Some? && t.cause.value.ClientError?)
      && (t.aborted && t.abortReply.Success? ==> uploadId !in next.sessions)
      && (r.Success? ==> next.objects == stored && uploadId !in next.sessions)
      && (r.Failure? ==>
            || next.objects == st.objects
            || (t.committed && t.cause == Some(OtherException(ConnectionLost)) && !t.aborted && next.objects == stored))
      && (WellFormed(st) && uploadId in st.sessions ==> WellFormed(next))
  {
    var during := Uploading(st, key, contentType, uploadId, chunks);
    var rest := Skip(faults, |chunks|);
    var parts := CommitList(st.nextTag, |chunks|);
    UploadingSession(st, key, contentType, uploadId, chunks);
    if WellFormed(st) && uploadId in st.sessions {
      UploadingWellFormed(st, key, contentType, uploadId, chunks);
    }
    var partError := if failed.Some? then PartFailure(during, rest, key, uploadId, |chunks| + 1, failed.value) else None;
    if partError.Some? {
      var afterPart := PartAnswer(during, rest, key, uploadId, |chunks| + 1, failed.value).1;
      PartAnswerEffect(during, rest, key, uploadId, |chunks| + 1, failed.value);
      EndOnOutcome(afterPart, Rest(rest), key, uploadId, parts, partError);
      EndOnState(afterPart, Rest(rest), key, uploadId, parts, partError);
      if WellFormed(afterPart) {
        EndOnWellFormed(afterPart, Rest(rest), key, uploadId, parts, partError);
      }
    } else {
      EndOnOutcome(during, rest, key, uploadId, parts, None);
      EndOnState(during, rest, key, uploadId, parts, None);
      if WellFormed(during) {
        EndOnWellFormed(during, rest, key, uploadId, parts, None);
      }
      if CompleteMultipartUploadOp(during, key, uploadId, parts).reply.Success? {
        CommitStores(st, key, contentType, uploadId, chunks);
      }
    }
  }

  /** An upload fails exactly when something was raised inside the `try`,
      and it raises the error the handler settles on: the original one, or
      the abort's own error when the abort failed too. */
  lemma UploadOnFailure(st: StoreState, faults: seq<Fault>, key: string, contentType: string,
                        chunks: seq<Bytes>, failed: Option<Bytes>)
    ensures var (r, t, next) := UploadOn(st, faults, key, contentType, chunks, failed);
      && (r.Success? <==> t.cause.None?)
      && (r.Failure? ==> r.error == Raised(RecoveryFor(if t.initiated then Some(st.nextUploadId) else None, t.cause.value),
                                           t.cause.value, t.abortReply))
  {
    var created := Answer(NextFault(faults), CreateMultipartUploadOp(st, key, contentType), st);
    if created.0.Success? {
      AfterCreateEffect(created.1, Rest(faults), key, contentType, created.0.value, chunks, failed);
    } else {
      RecoverOnEffect(created.1, Rest(faults), key, None, created.0.error);
    }
  }

  /** A failed upload leaves every stored object as it was, with one
      exception: the store accepted the commit and the connection failed
      before its reply arrived. Then the key holds the body, while the
      caller sees the lost connection and no abort is sent. */
  lemma UploadOnFailureObjects(st: StoreState, faults: seq<Fault>, key: string, contentType: string,
                               chunks: seq<Bytes>, failed: Option<Bytes>)
    ensures var (r, t, next) := UploadOn(st, faults, key, contentType, chunks, failed);
      r.Failure? ==>
        || next.objects == st.objects
        || (&& t.committed && t.cause == Some(OtherException(ConnectionLost)) && !t.aborted
            && next.objects == st.objects[key := StoredObject(Concat(chunks), Some(contentType))])
  {
    var created := Answer(NextFault(faults), CreateMultipartUploadOp(st, key, contentType), st);
    if created.0.Success? {
      AfterCreateEffect(created.1, Rest(faults), key, contentType, created.0.value, chunks, failed);
    } else {
      RecoverOnEffect(created.1, Rest(faults), key, None, created.0.error);
    }
  }

  /** The abort goes out exactly when a session was opened and a store error
      (a `ClientError`) was raised inside the `try`; an abort that goes
      through closes that session. No commit follows a failed part. */
  lemma UploadOnAbort(st: StoreState, faults: seq<Fault>, key: string, contentType: string,
                      chunks: seq<Bytes>, failed: Option<Bytes>)
    ensures var (r, t, next) := UploadOn(st, faults, key, contentType, chunks, failed);
      && (t.aborted <==> t.initiated && t.cause.Some? && t.cause.value.ClientError?)
      && (t.aborted && t.abortReply.Success? ==> st.nextUploadId !in next.sessions)
      && (t.committed ==> t.initiated && t.failedPart.None?)
      && (!t.initiated ==> t.parts == [] && t.failedPart.None? && !t.committed)
      && (t.initiated ==> t.parts == chunks && (t.failedPart.Some? ==> t.failedPart == failed))
  {
    var created := Answer(NextFault(faults), CreateMultipartUploadOp(st, key, contentType), st);
    if created.0.Success? {
      AfterCreateEffect(created.1, Rest(faults), key, contentType, created.0.value, chunks, failed);
    } else {
      RecoverOnEffect(created.1, Rest(faults), key, None, created.0.error);
    }
  }

  /** Whatever the faults, an upload keeps the store's invariant. */
  lemma UploadOnWellFormed(st: StoreState, faults: seq<Fault>, key: string, contentType: string,
                           chunks: seq<Bytes>, failed: Option<Bytes>)
    requires WellFormed(st)
    ensures WellFormed(UploadOn(st, faults, key, contentType, chunks, failed).2)
  {
    var created := Answer(NextFault(faults), CreateMultipartUploadOp(st, key, contentType), st);
    SameObjectsWellFormed(st, created.1);
    if created.0.Success? {
      AfterCreateEffect(created.1, Rest(faults), key, contentType, created.0.value, chunks, failed);
    } else {
      RecoverOnEffect(created.1, Rest(faults), key, None, created.0.error);
    }
  }

  /** With no fault in the way, a non-empty body of at most 10000 full
      5 MiB pieces, read in full pieces, is stored whole under the key with
      the declared content type. */
  lemma UploadOnStoresBody(st: StoreState, faults: seq<Fault>, key: string, contentType: string, data: Bytes)
    requires AllPass(faults) && data != [] && |data| <= MAX_PART_NUMBER * UPLOAD_CHUNK_SIZE
    ensures |FixedChunks(data, UPLOAD_CHUNK_SIZE)| <= MAX_PART_NUMBER
    ensures var (r, t, next) := UploadOn(st, faults, key, contentType, FixedChunks(data, UPLOAD_CHUNK_SIZE), None);
      && r.Success?
      && next.objects == st.objects[key := StoredObject(data, Some(contentType))]
  {
    var chunks := FixedChunks(data, UPLOAD_CHUNK_SIZE);
    FixedChunksAtMost(data, UPLOAD_CHUNK_SIZE, MAX_PART_NUMBER);
    var created := Answer(NextFault(faults), CreateMultipartUploadOp(st, key, contentType), st);
    var st1, id := created.1, created.0.value;
    FixedChunksSizes(data, UPLOAD_CHUNK_SIZE);
    FixedChunksConcat(data, UPLOAD_CHUNK_SIZE);
    SkipAllPass(Rest(faults), |chunks|);
    CommitAccepted(st1, key, contentType, id, chunks);
    UploadOnSuccess(st, faults, key, contentType, chunks, None);
  }

  /** A body of more than 10000 pieces, with no fault in the way: parts
      1..10000 go up, the store refuses part 10001, the session is aborted,
      no commit is sent, no object is stored, and the refusal is raised. */
  lemma UploadOnTooLarge(st: StoreState, faults: seq<Fault>, key: string, contentType: string, data: Bytes)
    requires AllPass(faults) && |FixedChunks(data, UPLOAD_CHUNK_SIZE)| > MAX_PART_NUMBER
    ensures var pieces := FixedChunks(data, UPLOAD_CHUNK_SIZE);
      var (r, t, next) := UploadOn(st, faults, key, contentType, pieces[..MAX_PART_NUMBER], Some(pieces[MAX_PART_NUMBER]));
      && r == Failure(ClientError(StoreError("InvalidArgument", "UploadPart", PartNumberRange)))
      && t.failedPart == Some(pieces[MAX_PART_NUMBER]) && !t.committed && t.aborted && t.abortReply.Success?
      && next.objects == st.objects
  {
    var pieces := FixedChunks(data, UPLOAD_CHUNK_SIZE);
    var sent := pieces[..MAX_PART_NUMBER];
    var created := Answer(NextFault(faults), CreateMultipartUploadOp(st, key, contentType), st);
    var st1, id := created.1, created.0.value;
    var during := Uploading(st1, key, contentType, id, sent);
    UploadingSession(st1, key, contentType, id, sent);
    SkipAllPass(Rest(faults), |sent|);
    var rest := Skip(Rest(faults), |sent|);
    var refusal := ClientError(StoreError("InvalidArgument", "UploadPart", PartNumberRange));
    assert PartFailure(during, rest, key, id, |sent| + 1, pieces[MAX_PART_NUMBER]) == Some(refusal);
    AllPassNext(Rest(rest));
    RecoverOnEffect(during, Rest(rest), key, Some(id), refusal);
  }

  /** With no fault in the way, an empty body gives no part; the store
      refuses the empty commit, the session is aborted, and the refusal is
      raised. No object is stored. */
  lemma UploadOnEmptyBody(st: StoreState, faults: seq<Fault>, key: string, contentType: string)
    requires AllPass(faults)
    ensures var (r, t, next) := UploadOn(st, faults, key, contentType, [], None);
      && r == Failure(ClientError(StoreError("MalformedXML", "CompleteMultipartUpload", ListMalformed)))
      && t.committed && t.aborted && t.abortReply.Success?
      && next.objects == st.objects && st.nextUploadId !in next.sessions
  {
    var created := Answer(NextFault(faults), CreateMultipartUploadOp(st, key, contentType), st);
    var st1, id := created.1, created.0.value;
    AllPassNext(faults);
    SkipAllPass(Rest(faults), 1);
    assert Skip(Rest(faults), 0) == Rest(faults);
    AllPassNext(Rest(faults));
    CommitEmptyRefused(st1, key, contentType, id);
    UploadingInitially(st1, key, contentType, id);
    RecoverOnEffect(st1, Rest(Rest(faults)), key, Some(id),
                    ClientError(StoreError("MalformedXML", "CompleteMultipartUpload", ListMalformed)));
  }

  /** The requests go out in the source's order: the initiation, then parts
      1, 2, ... carrying the chunks in order, then the part whose upload
      failed, if any; then the commit with the full part list, if it was
      sent; then the abort for the same key and upload id, if any, which
      comes last. So a refused commit is followed by the abort, and nothing
      follows the abort. */
  lemma UploadCallsOrder(key: string, contentType: string, uploadId: nat, firstTag: nat, t: UploadTrace)
    ensures var calls := UploadCalls(key, contentType, uploadId, firstTag, t);
      var sent := 1 + |t.parts| + (if t.failedPart.Some? then 1 else 0);
      && |calls| == sent + (if t.committed then 1 else 0) + (if t.aborted then 1 else 0)
      && calls[0] == CreateMultipartUploadCall(key, contentType)
      && (forall i | 0 <= i < |t.parts| :: calls[i + 1] == UploadPartCall(key, uploadId, i + 1, t.parts[i]))
      && (t.failedPart.Some? ==> calls[|t.parts| + 1] == UploadPartCall(key, uploadId, |t.parts| + 1, t.failedPart.value))
      && (t.committed ==> calls[sent] == CompleteMultipartUploadCall(key, uploadId, CommitList(firstTag, |t.parts|)))
      && (t.aborted ==> calls[|calls| - 1] == AbortMultipartUploadCall(key, uploadId))
  {
    var calls := UploadCalls(key, contentType, uploadId, firstTag, t);
    var partCalls := PartCalls(key, uploadId, t.parts);
    var sentCalls := SentCalls(key, uploadId, t.parts, t.failedPart);
    var ended := EndCalls(key, uploadId, CommitList(firstTag, |t.parts|), t.committed, t.aborted);
    var head := [CreateMultipartUploadCall(key, contentType)] + sentCalls;
    assert calls == head + ended;
    assert |ended| == (if t.committed then 1 else 0) + (if t.aborted then 1 else 0);
    forall i | 0 <= i < |t.parts| ensures calls[i + 1] == UploadPartCall(key, uploadId, i + 1, t.parts[i]) {
      assert calls[i + 1] == head[i + 1] == sentCalls[i] == partCalls[i];
    }
    if t.failedPart.Some? {
      assert calls[|t.parts| + 1] == head[|t.parts| + 1] == sentCalls[|t.parts|];
    }
    if t.committed {
      assert calls[|head|] == ended[0];
    }
    if t.aborted {
      assert calls[|calls| - 1] == ended[|ended| - 1];
    }
  }

  // ---------------------------------------------------------------------
  // Download: `yield_media_type_then_stream_file`

  /** What the download generator yields: the media type first, then the
      body's chunks. */
  datatype StreamItem = MediaType(contentType: string) | Chunk(bytes: Bytes)

  function ChunkItems(chunks: seq<Bytes>): (items: seq<StreamItem>)
    ensures |items| == |chunks|
  {
    seq(|chunks|, i requires 0 <= i < |chunks| => Chunk(chunks[i]))
  }

  /** The bytes a client receives: the chunks' bytes, in order. */
  function Payload(items: seq<StreamItem>): Bytes
    decreases |items|
  {
    if items == [] then []
    else (if items[0].Chunk? then items[0].bytes else []) + Payload(items[1..])
  }

  lemma {:induction false} PayloadChunkItems(chunks: seq<Bytes>)
    ensures Payload(ChunkItems(chunks)) == Concat(chunks)
    decreases |chunks|
  {
    if chunks != [] {
      assert ChunkItems(chunks)[1..] == ChunkItems(chunks[1..]);
      PayloadChunkItems(chunks[1..]);
      ConcatCons(chunks[0], chunks[1..]);
      assert [chunks[0]] + chunks[1..] == chunks;
    }
  }

  /** The generator on values: what it yields and how it ends, given the
      store, the fault oracle and how short the body's reads come back. A
      failed `get_object` ends it before anything is yielded; so does a reply
      without a content-type header. */
  function StreamOn(st: StoreState, faults: seq<Fault>, caps: seq<nat>, key: string)
    : (seq<StreamItem>, Result<(), Exc>)
  {
    var got := Answer(NextFault(faults), GetObjectOp(st, key), st).0;
    if got.Failure? then ([], Failure(got.error))
    else if got.value.contentType.None? then ([], Failure(OtherException(MissingContentTypeHeader)))
    else ([MediaType(got.value.contentType.value)] + ChunkItems(Reads(got.value.body, caps, CHUNK_SIZE)), Success(()))
  }

  /** A stored object with a content type streams completely: the media type
      comes first, every chunk after it holds 1 byte to 1 MiB, and the chunks
      put together are the stored body. Any other outcome yields nothing. */
  lemma StreamOnBody(st: StoreState, faults: seq<Fault>, caps: seq<nat>, key: string)
    ensures var (items, ended) := StreamOn(st, faults, caps, key);
      && (ended.Success? <==> NextFault(faults).Pass? && key in st.objects && st.objects[key].contentType.Some?)
      && (ended.Failure? ==> items == [])
      && (ended.Success? ==>
            && items[0] == MediaType(st.objects[key].contentType.value)
            && (forall i | 1 <= i < |items| :: items[i].Chunk? && 0 < |items[i].bytes| <= CHUNK_SIZE)
            && Payload(items) == st.objects[key].body)
  {
    var (items, ended) := StreamOn(st, faults, caps, key);
    if ended.Success? {
      var body := st.objects[key].body;
      var chunks := Reads(body, caps, CHUNK_SIZE);
      ReadsBounded(body, caps, CHUNK_SIZE);
      ReadsConcat(body, caps, CHUNK_SIZE);
      PayloadChunkItems(chunks);
      assert items == [items[0]] + ChunkItems(chunks);
      assert items[1..] == ChunkItems(chunks);
      forall i | 1 <= i < |items| ensures items[i].Chunk? && 0 < |items[i].bytes| <= CHUNK_SIZE {
        assert items[i] == ChunkItems(chunks)[i - 1];
      }
    }
  }

  /** With every read full, the chunks are the body cut into 1 MiB pieces. */
  lemma {:induction false} ReadsFull(data: Bytes, n: nat)
    requires n > 0
    ensures Reads(data, [], n) == FixedChunks(data, n)
    decreases |data|
  {
    if data != [] {
      ReadsFull(data[Min(n, |data|)..], n);
    }
  }

  lemma StreamOnFullReads(st: StoreState, faults: seq<Fault>, key: string)
    ensures var (items, ended) := StreamOn(st, faults, [], key);
      ended.Success? ==> items[1..] == ChunkItems(FixedChunks(st.objects[key].body, CHUNK_SIZE))
  {
    if key in st.objects {
      var body := st.objects[key].body;
      ReadsFull(body, CHUNK_SIZE);
      var (items, ended) := StreamOn(st, faults, [], key);
      if ended.Success? {
        assert items[1..] == ChunkItems(Reads(body, [], CHUNK_SIZE));
      }
    }
  }

  /** A missing key ends the stream with `NoSuchKey`, which the decorator,
      called with the file name as its only argument, turns into a 404
      naming the file. */
  lemma StreamOnMissingKey(st: StoreState, faults: seq<Fault>, caps: seq<nat>, key: string)
    requires NextFault(faults) == Pass && key !in st.objects
    ensures StreamOn(st, faults, caps, key).0 == []
    ensures ErrorHandler(StreamOn(st, faults, caps, key).1, [PyStr(key)], map[])
         == HttpException(HttpError(404, NOT_FOUND_PREFIX + key))
  {
  }

  // ---------------------------------------------------------------------
  // Listing: `find_files`

  /** `head_object(...).get('ContentType', 'application/octet-stream')`. */
  function ContentTypeOr(contentType: Option<string>): (ct: string)
    ensures contentType.Some? ==> ct == contentType.value
    ensures contentType.None? ==> ct == DEFAULT_CONTENT_TYPE
  {
    contentType.GetOr(DEFAULT_CONTENT_TYPE)
  }

  /** The keys among `keys` that contain `pattern`, in their order. */
  function Matching(keys: seq<string>, pattern: string): (r: seq<string>)
    ensures forall k :: k in r <==> k in keys && Contains(k, pattern)
    decreases |keys|
  {
    if keys == [] then []
    else
      assert keys == [keys[0]] + keys[1..];
      (if Contains(keys[0], pattern) then [keys[0]] else []) + Matching(keys[1..], pattern)
  }

  lemma {:induction false} MatchingAppend(a: seq<string>, b: seq<string>, pattern: string)
    ensures Matching(a + b, pattern) == Matching(a, pattern) + Matching(b, pattern)
    decreases |a|
  {
    if a != [] {
      assert (a + b)[0] == a[0] && (a + b)[1..] == a[1..] + b;
      MatchingAppend(a[1..], b, pattern);
      var head := if Contains(a[0], pattern) then [a[0]] else [];
      assert Matching(a + b, pattern) == head + Matching((a + b)[1..], pattern);
      assert Matching(a, pattern) == head + Matching(a[1..], pattern);
      AppendAssoc(head, Matching(a[1..], pattern), Matching(b, pattern));
    } else {
      assert a + b == b;
    }
  }

  /** Every key contains the empty pattern, so the default request lists
      every key. */
  lemma {:induction false} MatchingEmptyPattern(keys: seq<string>)
    ensures Matching(keys, "") == keys
    decreases |keys|
  {
    if keys != [] {
      ContainsEmpty(keys[0]);
      MatchingEmptyPattern(keys[1..]);
      assert [keys[0]] + keys[1..] == keys;
    }
  }

  /** The listing entry for `key`, with the type the store holds for it. */
  function EntryFor(st: StoreState, key: string): FileEntry {
    FileEntry(key, ContentTypeOr(if key in st.objects then st.objects[key].contentType else None))
  }

  function Entries(st: StoreState, keys: seq<string>): (r: seq<FileEntry>)
    ensures |r| == |keys|
  {
    seq(|keys|, i requires 0 <= i < |keys| => EntryFor(st, keys[i]))
  }

  function HeadCalls(keys: seq<string>): (calls: seq<Call>)
    ensures |calls| == |keys|
  {
    seq(|keys|, i requires 0 <= i < |keys| => HeadObjectCall(keys[i]))
  }

  /** `found` put in front of a run's entries; a failed run stays failed. */
  function Extend(found: seq<FileEntry>, r: Result<seq<FileEntry>, Exc>): Result<seq<FileEntry>, Exc> {
    if r.Success? then Success(found + r.value) else r
  }

  /** A run's outcome and requests, after `found` and `calls` came first. */
  function Joined(found: seq<FileEntry>, calls: seq<Call>, run: (Result<seq<FileEntry>, Exc>, seq<Call>))
    : (Result<seq<FileEntry>, Exc>, seq<Call>)
  {
    (Extend(found, run.0), calls + run.1)
  }

  lemma JoinedNothing(run: (Result<seq<FileEntry>, Exc>, seq<Call>))
    ensures Joined([], [], run) == run
  {
    assert [] + run.1 == run.1;
    if run.0.Success? {
      assert [] + run.0.value == run.0.value;
    }
  }

  lemma JoinedTwice(a: seq<FileEntry>, ca: seq<Call>, b: seq<FileEntry>, cb: seq<Call>,
                    run: (Result<seq<FileEntry>, Exc>, seq<Call>))
    ensures Joined(a, ca, Joined(b, cb, run)) == Joined(a + b, ca + cb, run)
  {
    AppendAssoc(ca, cb, run.1);
    if run.0.Success? {
      AppendAssoc(a, b, run.0.value);
    }
  }

  /** The inner loop of `find_files` on values: a HEAD request for each key of
      the page that contains the pattern, and an entry for it; the first
      failed request ends the scan with its error. Also the requests sent. */
  function ScanOn(st: StoreState, faults: seq<Fault>, pattern: string, keys: seq<string>)
    : (Result<seq<FileEntry>, Exc>, seq<Call>)
    decreases |keys|
  {
    if keys == [] then (Success([]), [])
    else if !Contains(keys[0], pattern) then ScanOn(st, faults, pattern, keys[1..])
    else
      var head := Answer(NextFault(faults), HeadObjectOp(st, keys[0]), st).0;
      if head.Failure? then (Failure(head.error), [HeadObjectCall(keys[0])])
      else Joined([FileEntry(keys[0], ContentTypeOr(head.value))], [HeadObjectCall(keys[0])],
                  ScanOn(st, Rest(faults), pattern, keys[1..]))
  }

  /** A successful scan sent one HEAD request per matching key and lists
      exactly the matching keys, in page order, each with its stored type. */
  lemma {:induction false} ScanOnEntries(st: StoreState, faults: seq<Fault>, pattern: string, keys: seq<string>)
    ensures var (r, calls) := ScanOn(st, faults, pattern, keys);
      r.Success? ==> r.value == Entries(st, Matching(keys, pattern)) && calls == HeadCalls(Matching(keys, pattern))
    decreases |keys|
  {
    if keys != [] {
      var rest := keys[1..];
      if !Contains(keys[0], pattern) {
        ScanOnEntries(st, faults, pattern, rest);
        assert Matching(keys, pattern) == [] + Matching(rest, pattern);
      } else {
        var head := Answer(NextFault(faults), HeadObjectOp(st, keys[0]), st).0;
        if head.Success? {
          ScanOnEntries(st, Rest(faults), pattern, rest);
          var m := Matching(rest, pattern);
          assert keys[0] in st.objects;
          assert Matching(keys, pattern) == [keys[0]] + m;
          assert Entries(st, [keys[0]] + m) == [EntryFor(st, keys[0])] + Entries(st, m);
          assert HeadCalls([keys[0]] + m) == [HeadObjectCall(keys[0])] + HeadCalls(m);
        }
      }
    }
  }

  /** When no request is stopped and every key of the page is stored, the
      scan succeeds. */
  lemma {:induction false} ScanOnLive(st: StoreState, faults: seq<Fault>, pattern: string, keys: seq<string>)
    requires AllPass(faults) && forall k | k in keys :: k in st.objects
    ensures ScanOn(st, faults, pattern, keys).0.Success?
    decreases |keys|
  {
    if keys != [] {
      assert keys[0] in keys;
      assert forall k | k in keys[1..] :: k in keys;
      if Contains(keys[0], pattern) {
        ScanOnLive(st, Rest(faults), pattern, keys[1..]);
      } else {
        ScanOnLive(st, faults, pattern, keys[1..]);
      }
    }
  }

  /** `find_files` on values: page after page from `start`, each page scanned
      in turn, entries accumulated across pages; the first failure ends the
      run with its error. Also the requests sent. */
  function FindOn(st: StoreState, faults: seq<Fault>, pattern: string, start: nat)
    : (Result<seq<FileEntry>, Exc>, seq<Call>)
    decreases |st.order| - start
  {
    var listed := Answer(NextFault(faults), ListObjectsOp(st, start), st).0;
    if listed.Failure? then (Failure(listed.error), [ListObjectsCall(start)])
    else
      var page := listed.value;
      var scan := ScanOn(st, Rest(faults), pattern, page.keys);
      if scan.0.Failure? || page.next.None? then Joined([], [ListObjectsCall(start)], scan)
      else
        Joined(scan.0.value, [ListObjectsCall(start)] + scan.1,
               FindOn(st, Skip(Rest(faults), |scan.1|), pattern, page.next.value))
  }

  lemma EntriesAppend(st: StoreState, a: seq<string>, b: seq<string>)
    ensures Entries(st, a + b) == Entries(st, a) + Entries(st, b)
  {
  }

  /** A successful run lists exactly the stored keys from position `start`
      on that contain the pattern, in listing order, each with its stored
      content type or the default. */
  lemma {:induction false} FindOnEntries(st: StoreState, faults: seq<Fault>, pattern: string, start: nat)
    ensures var r := FindOn(st, faults, pattern, start).0;
      r.Success? ==> r.value == Entries(st, Matching(st.order[Min(start, |st.order|)..], pattern))
    decreases |st.order| - start
  {
    var listed := Answer(NextFault(faults), ListObjectsOp(st, start), st).0;
    if listed.Success? {
      var page := listed.value;
      var from, to := Min(start, |st.order|), Min(start + PAGE_SIZE, |st.order|);
      assert page.keys == st.order[from..to];
      var scan := ScanOn(st, Rest(faults), pattern, page.keys);
      if scan.0.Success? {
        ScanOnEntries(st, Rest(faults), pattern, page.keys);
        assert st.order[from..] == page.keys + st.order[to..];
        MatchingAppend(page.keys, st.order[to..], pattern);
        EntriesAppend(st, Matching(page.keys, pattern), Matching(st.order[to..], pattern));
        if page.next.None? {
          assert st.order[to..] == [];
        } else {
          FindOnEntries(st, Skip(Rest(faults), |scan.1|), pattern, page.next.value);
        }
      }
    }
  }

  /** In a well-formed store with no request stopped, every page is listed
      and scanned without error. */
  lemma {:induction false} FindOnLive(st: StoreState, faults: seq<Fault>, pattern: string, start: nat)
    requires AllPass(faults) && WellFormed(st)
    ensures FindOn(st, faults, pattern, start).0.Success?
    decreases |st.order| - start
  {
    var listed := Answer(NextFault(faults), ListObjectsOp(st, start), st).0;
    var page := listed.value;
    var from, to := Min(start, |st.order|), Min(start + PAGE_SIZE, |st.order|);
    assert page.keys == st.order[from..to];
    forall k | k in page.keys ensures k in st.objects {
      assert k in st.order;
    }
    ScanOnLive(st, Rest(faults), pattern, page.keys);
    var scan := ScanOn(st, Rest(faults), pattern, page.keys);
    if page.next.Some? {
      SkipAllPass(Rest(faults), |scan.1|);
      FindOnLive(st, Skip(Rest(faults), |scan.1|), pattern, page.next.value);
    }
  }

  /** `find_files` lists, in listing order, exactly the stored keys that
      contain the pattern; the default empty pattern lists every key. */
  lemma FindFilesListing(st: StoreState, faults: seq<Fault>, pattern: string)
    ensures var r := FindOn(st, faults, pattern, 0).0;
      && (r.Success? ==> r.value == Entries(st, Matching(st.order, pattern)))
      && (r.Success? && pattern == "" ==> r.value == Entries(st, st.order))
      && (AllPass(faults) && WellFormed(st) ==> r.Success?)
  {
    FindOnEntries(st, faults, pattern, 0);
    if AllPass(faults) && WellFormed(st) {
      FindOnLive(st, faults, pattern, 0);
    }
    assert st.order[0..] == st.order;
    MatchingEmptyPattern(st.order);
  }

  /** What one page of `find_files` contributes to the whole run: a failed
      page, or the last one, ends it; otherwise the run goes on from a later
      position. */
  lemma FindOnUnfold(st: StoreState, faults: seq<Fault>, pattern: string, start: nat,
                     r: Result<seq<FileEntry>, Exc>, next: Option<nat>, calls: seq<Call>)
    requires PageRun(st, faults, pattern, start, r, next, calls)
    ensures r.Failure? || next.None? ==> FindOn(st, faults, pattern, start) == (r, calls)
    ensures r.Success? && next.Some? ==>
      && start < next.value
      && FindOn(st, faults, pattern, start) == Joined(r.value, calls, FindOn(st, Skip(faults, |calls|), pattern, next.value))
  {
    var listed := Answer(NextFault(faults), ListObjectsOp(st, start), st).0;
    if listed.Success? {
      var scan := ScanOn(st, Rest(faults), pattern, listed.value.keys);
      if scan.0.Success? {
        assert [] + scan.0.value == scan.0.value;
      }
      SkipOneMore(faults, 0);
      SkipAdd(faults, 1, |scan.1|);
    }
  }

  /** One page of `find_files`: the page at `start` is listed and its keys
      scanned, with outcome `r`, the next page's position and the requests. */
  ghost predicate PageRun(st: StoreState, faults: seq<Fault>, pattern: string, start: nat,
                          r: Result<seq<FileEntry>, Exc>, next: Option<nat>, calls: seq<Call>)
  {
    var listed := Answer(NextFault(faults), ListObjectsOp(st, start), st).0;
    && (listed.Failure? ==> r == Failure(listed.error) && calls == [ListObjectsCall(start)])
    && (listed.Success? ==>
          var scan := ScanOn(st, Rest(faults), pattern, listed.value.keys);
          r == scan.0 && calls == [ListObjectsCall(start)] + scan.1 && next == listed.value.next)
  }

  // ---------------------------------------------------------------------
  // Delete and bucket creation

  /** `remove_file` with no request stopped: it succeeds whether or not the
      key existed, the key is gone, every other object stays, and removing
      it again changes nothing. */
  lemma RemoveFileOutcome(st: StoreState, faults: seq<Fault>, key: string)
    requires NextFault(faults) == Pass
    ensures var (r, next) := Answer(NextFault(faults), DeleteObjectOp(st, key), st);
      && r.Success? && key !in next.objects
      && (forall k | k in st.objects && k != key :: k in next.objects && next.objects[k] == st.objects[k])
      && Answer(Pass, DeleteObjectOp(next, key), next) == (Success(()), next)
  {
    DeleteObjectIdempotent(st, key);
  }

  class S3Client {
    const store: ObjectStore

    constructor (store: ObjectStore)
      ensures this.store == store
    {
      this.store := store;
    }

    /** The `except ClientError` block of `upload_file`, with the guard that
        aborts only a session that was opened. */
    method Recover(key: string, uploadId: Option<nat>, cause: Exc)
      returns (e: Exc, ghost aborted: bool, ghost abortReply: Result<(), Exc>)
      modifies store
      ensures aborted <==> cause.ClientError? && uploadId.Some?
      ensures Recovered(e, aborted, abortReply, store.state) == RecoverOn(old(store.state), old(store.faults), key, uploadId, cause)
      ensures store.log == old(store.log) + (if aborted then [AbortMultipartUploadCall(key, uploadId.value)] else [])
      ensures store.faults == (if aborted then Rest(old(store.faults)) else old(store.faults))
      ensures store.bodyCaps == old(store.bodyCaps)
    {
      var recovery := RecoveryFor(uploadId, cause);
      if recovery.AbortThenRaise? {
        var reply := store.AbortMultipartUpload(key, recovery.uploadId);
        aborted, abortReply := true, reply;
        e := Raised(recovery, cause, reply);
      } else {
        aborted, abortReply := false, Success(());
        e := cause;
      }
    }

    /** One `upload_part` call of the loop, for the part after `chunks`. */
    method SendPart(key: string, contentType: string, uploadId: nat, partNumber: nat, chunk: Bytes,
                    ghost st: StoreState, ghost chunks: seq<Bytes>)
      returns (reply: Result<nat, Exc>)
      requires store.state == Uploading(st, key, contentType, uploadId, chunks) && partNumber == |chunks| + 1
      modifies store
      ensures store.log == old(store.log) + [UploadPartCall(key, uploadId, |chunks| + 1, chunk)]
      ensures store.faults == Rest(old(store.faults)) && store.bodyCaps == old(store.bodyCaps)
      ensures (reply, store.state) == PartAnswer(old(store.state), old(store.faults), key, uploadId, partNumber, chunk)
      ensures reply.Success? ==> && reply.value == st.nextTag + |chunks|
                                 && store.state == Uploading(st, key, contentType, uploadId, chunks + [chunk])
      ensures NextFault(old(store.faults)) == Pass && |chunks| + 1 <= MAX_PART_NUMBER ==> reply.Success?
    {
      UploadPartStep(st, key, contentType, uploadId, chunks, chunk, NextFault(store.faults));
      reply := store.UploadPart(key, uploadId, partNumber, chunk);
    }

    /** The upload half of a round: send the chunk just read as the part
        after `chunks`, keeping the loop's account of the store. */
    method SendRead(key: string, contentType: string, uploadId: nat, partNumber: nat, chunk: Bytes,
                    ghost c: LoopStart, ghost chunks: seq<Bytes>, ghost parts: seq<PartRef>, ghost pass: bool)
      returns (reply: Result<nat, Exc>)
      requires c.key == key && c.contentType == contentType && c.uploadId == uploadId
      requires (store.state, store.log, store.faults, parts) == Expected(c, chunks)
      requires partNumber == |chunks| + 1
      requires pass ==> AllPass(c.f0) && |chunks| + 1 <= MAX_PART_NUMBER
      modifies store
      ensures store.bodyCaps == old(store.bodyCaps)
      ensures reply.Failure? ==>
        && (store.state, store.log, store.faults, parts) == Sent(c, chunks, Some(chunk)) && !pass
        && PartFailure(old(store.state), old(store.faults), key, uploadId, partNumber, chunk) == Some(reply.error)
      ensures reply.Success? ==>
        (store.state, store.log, store.faults, parts + [PartRef(reply.value, partNumber)]) == Expected(c, chunks + [chunk])
    {
      if pass {
        SkipAllPass(c.f0, |chunks|);
      }
      ExpectedSnoc(c, chunks, chunk);
      AppendAssoc(c.log0, PartCalls(key, uploadId, chunks), [UploadPartCall(key, uploadId, partNumber, chunk)]);
      SkipOneMore(c.f0, |chunks|);
      reply := SendPart(key, contentType, uploadId, partNumber, chunk, c.st, chunks);
    }

    /** One round of the read-and-upload loop: read up to 5 MiB and, unless
        the read came back empty, upload it as the part after `chunks`. */
    method Round(key: string, contentType: string, uploadId: nat, partNumber: nat, file: UploadFile,
                 ghost c: LoopStart, ghost chunks: seq<Bytes>, ghost parts: seq<PartRef>, ghost full: bool)
      returns (chunk: Bytes, reply: Option<Result<nat, Exc>>)
      requires c.key == key && c.contentType == contentType && c.uploadId == uploadId
      requires (store.state, store.log, store.faults, parts) == Expected(c, chunks)
      requires partNumber == |chunks| + 1
      requires Concat(chunks) + file.file.remaining == c.data && Bounded(chunks)
      requires full ==> && file.file.caps == [] && |FixedChunks(c.data, UPLOAD_CHUNK_SIZE)| <= MAX_PART_NUMBER
                        && FixedChunks(c.data, UPLOAD_CHUNK_SIZE) == chunks + FixedChunks(file.file.remaining, UPLOAD_CHUNK_SIZE)
      requires full ==> AllPass(c.f0)
      modifies store, file.file
      ensures store.bodyCaps == old(store.bodyCaps)
      ensures reply.None? ==> && chunk == [] && file.file.remaining == old(file.file.remaining) == []
                              && (store.state, store.log, store.faults) == old((store.state, store.log, store.faults))
      ensures reply.Some? ==> && Concat(chunks) + chunk + file.file.remaining == c.data && 0 < |chunk| <= UPLOAD_CHUNK_SIZE
                              && c.data != [] && |file.file.remaining| < old(|file.file.remaining|)
      ensures reply.Some? && reply.value.Failure? ==>
        && (store.state, store.log, store.faults, parts) == Sent(c, chunks, Some(chunk)) && !full
        && PartFailure(old(store.state), old(store.faults), key, uploadId, partNumber, chunk) == Some(reply.value.error)
      ensures reply.Some? && reply.value.Success? ==>
        && (store.state, store.log, store.faults, parts + [PartRef(reply.value.value, partNumber)]) == Expected(c, chunks + [chunk])
        && Concat(chunks + [chunk]) + file.file.remaining == c.data && Bounded(chunks + [chunk])
        && (full ==> && file.file.caps == [] && |FixedChunks(c.data, UPLOAD_CHUNK_SIZE)| <= MAX_PART_NUMBER
                     && FixedChunks(c.data, UPLOAD_CHUNK_SIZE) == (chunks + [chunk]) + FixedChunks(file.file.remaining, UPLOAD_CHUNK_SIZE))
    {
      ghost var before, caps := file.file.remaining, file.file.caps;
      chunk := file.Read(UPLOAD_CHUNK_SIZE);
      if chunk == [] {
        return chunk, None;
      }
      assert before == chunk + file.file.remaining;
      ReadStep(c.data, chunks, before, chunk, file.file.remaining);
      if full {
        FullReadStep(c.data, chunks, before, chunk, file.file.remaining);
      }
      var r := SendRead(key, contentType, uploadId, partNumber, chunk, c, chunks, parts, full);
      reply := Some(r);
    }

    /** The read-and-upload loop of `upload_file`: read up to 5 MiB, stop at
        the first empty read, upload each chunk under the next part number and
        record its ETag. A failed part upload ends the loop with its error. */
    method SendParts(key: string, contentType: string, uploadId: nat, file: UploadFile)
      returns (parts: seq<PartRef>, failure: Option<Exc>,
               ghost c: LoopStart, ghost chunks: seq<Bytes>, ghost failed: Option<Bytes>)
      requires uploadId in store.state.sessions && store.state.sessions[uploadId] == Session(key, contentType, map[])
      modifies store, file.file
      ensures c == LoopStart(old(store.state), key, contentType, uploadId, old(store.log), old(store.faults), old(file.file.remaining))
      ensures (store.state, store.log, store.faults, parts) == Sent(c, chunks, failed)
      ensures failure == if failed.Some? then PartFailure(Uploading(c.st, key, contentType, uploadId, chunks), Skip(c.f0, |chunks|),
                                                          key, uploadId, |chunks| + 1, failed.value)
                         else None
      ensures failure.Some? <==> failed.Some?
      ensures store.bodyCaps == old(store.bodyCaps)
      ensures Concat(chunks) + failed.GetOr([]) + file.file.remaining == c.data
      ensures Bounded(chunks)
      ensures failed.Some? ==> 0 < |failed.value| <= UPLOAD_CHUNK_SIZE
      ensures failure.None? ==> file.file.remaining == []
      ensures AllPass(c.f0) && old(file.file.caps) == [] && |c.data| <= MAX_PART_NUMBER * UPLOAD_CHUNK_SIZE
              ==> failure.None? && chunks == FixedChunks(c.data, UPLOAD_CHUNK_SIZE)
    {
      c := LoopStart(store.state, key, contentType, uploadId, store.log, store.faults, file.file.remaining);
      ghost var full := AllPass(c.f0) && file.file.caps == [] && |c.data| <= MAX_PART_NUMBER * UPLOAD_CHUNK_SIZE;
      if full {
        FixedChunksAtMost(c.data, UPLOAD_CHUNK_SIZE, MAX_PART_NUMBER);
      }
      UploadingInitially(store.state, key, contentType, uploadId);
      parts, failure, chunks, failed := [], None, [], None;
      assert c.log0 + PartCalls(key, uploadId, []) == c.log0;
      var partNumber := 1;
      while true
        invariant (store.state, store.log, store.faults, parts) == Expected(c, chunks)
        invariant partNumber == |chunks| + 1
        invariant store.bodyCaps == old(store.bodyCaps)
        invariant Concat(chunks) + file.file.remaining == c.data && Bounded(chunks)
        invariant full ==> && file.file.caps == [] && |FixedChunks(c.data, UPLOAD_CHUNK_SIZE)| <= MAX_PART_NUMBER
                           && FixedChunks(c.data, UPLOAD_CHUNK_SIZE) == chunks + FixedChunks(file.file.remaining, UPLOAD_CHUNK_SIZE)
        decreases |file.file.remaining|
      {
        var chunk, reply := Round(key, contentType, uploadId, partNumber, file, c, chunks, parts, full);
        if reply.None? {
          break;
        }
        if reply.value.Failure? {
          failure, failed := Some(reply.value.error), Some(chunk);
          assert failed.GetOr([]) == chunk;
          return;
        }
        parts := parts + [PartRef(reply.value.value, partNumber)];
        chunks := chunks + [chunk];
        partNumber := partNumber + 1;
      }
      assert chunks + FixedChunks(file.file.remaining, UPLOAD_CHUNK_SIZE) == chunks;
      assert Concat(chunks) + file.file.remaining == Concat(chunks);
    }

    /** The end of `upload_file` once the loop is over: after a failed part,
        the handler; otherwise the commit with the recorded part list, and
        the handler when the commit fails. */
    method Conclude(key: string, uploadId: nat, parts: seq<PartRef>, partError: Option<Exc>)
      returns (r: Result<(), Exc>, ghost end: Ending)
      modifies store
      ensures end == EndOn(old(store.state), old(store.faults), key, uploadId, parts, partError)
      ensures r == end.r && store.state == end.state
      ensures store.log == old(store.log) + EndCalls(key, uploadId, parts, end.committed, end.aborted)
      ensures store.faults == Skip(old(store.faults), |EndCalls(key, uploadId, parts, end.committed, end.aborted)|)
      ensures store.bodyCaps == old(store.bodyCaps)
    {
      SkipOneMore(store.faults, 0);
      SkipOneMore(store.faults, 1);
      var cause: Exc;
      ghost var committed := false;
      if partError.Some? {
        cause := partError.value;
      } else {
        var reply := store.CompleteMultipartUpload(key, uploadId, parts);
        committed := true;
        if reply.Success? {
          r, end := Success(()), Ending(Success(()), true, None, false, Success(()), store.state);
          return;
        }
        cause := reply.error;
      }
      var e, aborted, abortReply := Recover(key, Some(uploadId), cause);
      r := Failure(e);
      end := Ending(r, committed, Some(cause), aborted, abortReply, store.state);
    }

    /** What follows the loop once it stopped after `chunks` (and `failed`):
        the commit or the handler, with the trace of the whole session. */
    method Finish(key: string, contentType: string, uploadId: nat, parts: seq<PartRef>, failure: Option<Exc>,
                  ghost c: LoopStart, ghost chunks: seq<Bytes>, ghost failed: Option<Bytes>)
      returns (r: Result<(), Exc>, ghost t: UploadTrace)
      requires c.key == key && c.contentType == contentType && c.uploadId == uploadId
      requires (store.state, store.log, store.faults, parts) == Sent(c, chunks, failed)
      requires failure == if failed.Some? then PartFailure(Uploading(c.st, key, contentType, uploadId, chunks), Skip(c.f0, |chunks|),
                                                           key, uploadId, |chunks| + 1, failed.value)
                          else None
      requires failure.Some? <==> failed.Some?
      modifies store
      ensures t.parts == chunks && t.failedPart == failed
      ensures (r, t, store.state) == AfterCreate(c.st, c.f0, key, contentType, uploadId, chunks, failed)
      ensures store.log == c.log0 + SessionCalls(key, uploadId, c.st.nextTag, t)
      ensures store.faults == Skip(c.f0, |SessionCalls(key, uploadId, c.st.nextTag, t)|)
      ensures store.bodyCaps == old(store.bodyCaps)
    {
      ghost var sent := SentCalls(key, uploadId, chunks, failed);
      ghost var mid := store.faults;
      SkipOneMore(c.f0, |chunks|);
      ghost var end;
      r, end := Conclude(key, uploadId, parts, failure);
      t := UploadTrace(true, chunks, failed, end.committed, end.cause, end.aborted, end.abortReply);
      assert end == EndOn(Sent(c, chunks, failed).0, Skip(c.f0, |sent|), key, uploadId,
                          CommitList(c.st.nextTag, |chunks|), failure);
      ghost var ended := EndCalls(key, uploadId, parts, end.committed, end.aborted);
      assert SessionCalls(key, uploadId, c.st.nextTag, t) == sent + ended;
      AppendAssoc(c.log0, sent, ended);
      FaultsAdd(c.f0, mid, store.faults, |sent|, |ended|, |SessionCalls(key, uploadId, c.st.nextTag, t)|);
    }

    /** `upload_file` once the session is open: send the parts, then commit;
        on a store error, abort the session and raise. */
    method SendAndCommit(key: string, contentType: string, uploadId: nat, file: UploadFile)
      returns (r: Result<(), Exc>, ghost t: UploadTrace)
      requires uploadId in store.state.sessions && store.state.sessions[uploadId] == Session(key, contentType, map[])
      modifies store, file.file
      ensures (r, t, store.state) == AfterCreate(old(store.state), old(store.faults), key, contentType, uploadId, t.parts, t.failedPart)
      ensures store.log == old(store.log) + SessionCalls(key, uploadId, old(store.state.nextTag), t)
      ensures store.faults == Skip(old(store.faults), |SessionCalls(key, uploadId, old(store.state.nextTag), t)|)
      ensures store.bodyCaps == old(store.bodyCaps)
      ensures Concat(t.parts) + t.failedPart.GetOr([]) + file.file.remaining == old(file.file.remaining)
      ensures t.failedPart.None? ==> file.file.remaining == []
      ensures Bounded(t.parts) && (t.failedPart.Some? ==> 0 < |t.failedPart.value| <= UPLOAD_CHUNK_SIZE)
      ensures AllPass(old(store.faults)) && old(file.file.caps) == [] && |old(file.file.remaining)| <= MAX_PART_NUMBER * UPLOAD_CHUNK_SIZE
              ==> t.failedPart.None? && t.parts == FixedChunks(old(file.file.remaining), UPLOAD_CHUNK_SIZE)
    {
      var parts, failure, c, chunks, failed := SendParts(key, contentType, uploadId, file);
      r, t := Finish(key, contentType, uploadId, parts, failure, c, chunks, failed);
    }

    /** `upload_file`: open a multipart session for `filename` under the
        file's declared content type, send the body in parts of at most
        5 MiB, commit the part list, and on a store error abort the session
        (when one was opened) and raise. A form file without a declared type
        passes `ContentType=None`, which the client library refuses before
        any request goes out; that error is not a `ClientError`, so no abort
        follows. */
    method UploadFile(filename: string, file: UploadFile) returns (r: Result<(), Exc>, ghost t: UploadTrace)
      modifies store, file.file
      ensures file.contentType.None? ==>
        && r == Failure(OtherException(ContentTypeMissing)) && !t.initiated && t.parts == [] && t.failedPart.None?
        && store.state == old(store.state) && store.log == old(store.log) && store.faults == old(store.faults)
      ensures file.contentType.Some? ==>
        (r, t, store.state) == UploadOn(old(store.state), old(store.faults), filename, file.contentType.value, t.parts, t.failedPart)
      ensures file.contentType.Some? ==>
        store.log == old(store.log) + UploadCalls(filename, file.contentType.value, old(store.state.nextUploadId), old(store.state.nextTag), t)
      ensures file.contentType.Some? ==>
        store.faults == Skip(old(store.faults), |UploadCalls(filename, file.contentType.value, old(store.state.nextUploadId), old(store.state.nextTag), t)|)
      ensures store.bodyCaps == old(store.bodyCaps)
      ensures t.initiated ==> Concat(t.parts) + t.failedPart.GetOr([]) + file.file.remaining == old(file.file.remaining)
      ensures !t.initiated ==> file.file.remaining == old(file.file.remaining)
      ensures t.initiated && t.failedPart.None? ==> file.file.remaining == []
      ensures Bounded(t.parts) && (t.failedPart.Some? ==> 0 < |t.failedPart.value| <= UPLOAD_CHUNK_SIZE)
      ensures && file.contentType.Some? && AllPass(old(store.faults)) && old(file.file.caps) == []
              && |old(file.file.remaining)| <= MAX_PART_NUMBER * UPLOAD_CHUNK_SIZE
              ==> t.initiated && t.failedPart.None? && t.parts == FixedChunks(old(file.file.remaining), UPLOAD_CHUNK_SIZE)
    {
      if file.contentType.None? {
        var e := OtherException(ContentTypeMissing);
        r, t := Failure(e), UploadTrace(false, [], None, false, Some(e), false, Success(()));
        return;
      }
      r, t := UploadTyped(filename, file.contentType.value, file);
    }

    /** `upload_file` once the declared content type is known: open the
        session, send and commit the chunks, and recover from what was
        raised. */
    method UploadTyped(filename: string, contentType: string, file: UploadFile) returns (r: Result<(), Exc>, ghost t: UploadTrace)
      modifies store, file.file
      ensures (r, t, store.state) == UploadOn(old(store.state), old(store.faults), filename, contentType, t.parts, t.failedPart)
      ensures store.log == old(store.log) + UploadCalls(filename, contentType, old(store.state.nextUploadId), old(store.state.nextTag), t)
      ensures store.faults == Skip(old(store.faults), |UploadCalls(filename, contentType, old(store.state.nextUploadId), old(store.state.nextTag), t)|)
      ensures store.bodyCaps == old(store.bodyCaps)
      ensures t.initiated ==> Concat(t.parts) + t.failedPart.GetOr([]) + file.file.remaining == old(file.file.remaining)
      ensures !t.initiated ==> file.file.remaining == old(file.file.remaining)
      ensures t.initiated && t.failedPart.None? ==> file.file.remaining == []
      ensures Bounded(t.parts) && (t.failedPart.Some? ==> 0 < |t.failedPart.value| <= UPLOAD_CHUNK_SIZE)
      ensures && AllPass(old(store.faults)) && old(file.file.caps) == []
              && |old(file.file.remaining)| <= MAX_PART_NUMBER * UPLOAD_CHUNK_SIZE
              ==> t.initiated && t.failedPart.None? && t.parts == FixedChunks(old(file.file.remaining), UPLOAD_CHUNK_SIZE)
    {
      var created := store.CreateMultipartUpload(filename, contentType);
      if created.Failure? {
        var e, aborted, abortReply := Recover(filename, None, created.error);
        r, t := Failure(e), UploadTrace(false, [], None, false, Some(created.error), aborted, abortReply);
        assert SessionCalls(filename, old(store.state.nextUploadId), old(store.state.nextTag), t) == [];
        return;
      }
      r, t := SendAndCommit(filename, contentType, created.value, file);
      AppendAssoc(old(store.log), [CreateMultipartUploadCall(filename, contentType)],
                  SessionCalls(filename, created.value, old(store.state.nextTag), t));
    }

    /** `yield_media_type_then_stream_file`: fetch the object, yield its
        content type, then read the body 1 MiB at a time and yield each chunk
        until a read comes back empty. `items` is everything yielded; `ended`
        is how the generator stops. */
    method YieldMediaTypeThenStreamFile(filename: string) returns (items: seq<StreamItem>, ended: Result<(), Exc>)
      modifies store
      ensures (items, ended) == StreamOn(old(store.state), old(store.faults), old(store.bodyCaps), filename)
      ensures store.log == old(store.log) + [GetObjectCall(filename)] && store.faults == Rest(old(store.faults))
      ensures store.state == old(store.state) && store.bodyCaps == old(store.bodyCaps)
    {
      var got := store.GetObject(filename);
      if got.Failure? {
        return [], Failure(got.error);
      }
      if got.value.contentType.None? {
        return [], Failure(OtherException(MissingContentTypeHeader));
      }
      items := [MediaType(got.value.contentType.value)];
      var body := got.value.body;
      ghost var data, caps := body.remaining, body.caps;
      ghost var chunks: seq<Bytes> := [];
      while true
        invariant Reads(data, caps, CHUNK_SIZE) == chunks + Reads(body.remaining, body.caps, CHUNK_SIZE)
        invariant items == [MediaType(got.value.contentType.value)] + ChunkItems(chunks)
        modifies body
        decreases |body.remaining|
      {
        ghost var before, beforeCaps := body.remaining, body.caps;
        var chunk := body.Read(CHUNK_SIZE);
        if chunk == [] {
          break;
        }
        assert Reads(before, beforeCaps, CHUNK_SIZE) == [chunk] + Reads(body.remaining, body.caps, CHUNK_SIZE);
        AppendAssoc(chunks, [chunk], Reads(body.remaining, body.caps, CHUNK_SIZE));
        items := items + [Chunk(chunk)];
        chunks := chunks + [chunk];
      }
      assert chunks + [] == chunks;
      ended := Success(());
    }

    /** The inner loop of `find_files` over one page's keys. */
    method ScanPage(pattern: string, keys: seq<string>) returns (r: Result<seq<FileEntry>, Exc>, ghost calls: seq<Call>)
      modifies store
      ensures (r, calls) == ScanOn(old(store.state), old(store.faults), pattern, keys)
      ensures store.log == old(store.log) + calls && store.faults == Skip(old(store.faults), |calls|)
      ensures store.state == old(store.state) && store.bodyCaps == old(store.bodyCaps)
    {
      ghost var st, f0, log0 := store.state, store.faults, store.log;
      var found: seq<FileEntry> := [];
      calls := [];
      var i := 0;
      JoinedNothing(ScanOn(st, f0, pattern, keys));
      while i < |keys|
        invariant 0 <= i <= |keys|
        invariant store.state == st && store.bodyCaps == old(store.bodyCaps)
        invariant store.log == log0 + calls && store.faults == Skip(f0, |calls|)
        invariant ScanOn(st, f0, pattern, keys) == Joined(found, calls, ScanOn(st, store.faults, pattern, keys[i..]))
      {
        assert keys[i..][0] == keys[i] && keys[i..][1..] == keys[i + 1..];
        if Contains(keys[i], pattern) {
          ghost var f := store.faults;
          var head := store.HeadObject(keys[i]);
          SkipOneMore(f0, |calls|);
          AppendAssoc(log0, calls, [HeadObjectCall(keys[i])]);
          if head.Failure? {
            return Failure(head.error), calls + [HeadObjectCall(keys[i])];
          }
          var entry := FileEntry(keys[i], ContentTypeOr(head.value));
          JoinedTwice(found, calls, [entry], [HeadObjectCall(keys[i])], ScanOn(st, store.faults, pattern, keys[i + 1..]));
          found := found + [entry];
          calls := calls + [HeadObjectCall(keys[i])];
        }
        i := i + 1;
      }
      assert keys[i..] == [];
      assert found + [] == found && calls + [] == calls;
      r := Success(found);
    }

    /** One page of `find_files`: list the page at `start` and scan its keys. */
    method FindPage(pattern: string, start: nat) returns (r: Result<seq<FileEntry>, Exc>, next: Option<nat>, ghost calls: seq<Call>)
      modifies store
      ensures PageRun(old(store.state), old(store.faults), pattern, start, r, next, calls)
      ensures store.log == old(store.log) + calls && store.faults == Skip(old(store.faults), |calls|)
      ensures store.state == old(store.state) && store.bodyCaps == old(store.bodyCaps)
    {
      var listed := store.ListObjects(start);
      if listed.Failure? {
        SkipOneMore(old(store.faults), 0);
        return Failure(listed.error), None, [ListObjectsCall(start)];
      }
      ghost var f := store.faults;
      ghost var scanCalls;
      r, scanCalls := ScanPage(pattern, listed.value.keys);
      next, calls := listed.value.next, [ListObjectsCall(start)] + scanCalls;
      AppendAssoc(old(store.log), [ListObjectsCall(start)], scanCalls);
      SkipOneMore(old(store.faults), 0);
      FaultsAdd(old(store.faults), f, store.faults, 1, |scanCalls|, |calls|);
    }

    /** `find_files`: page through the bucket's listing, and for every key
        containing `pattern` ask the store for its content type. */
    method FindFiles(pattern: string) returns (r: Result<ListResponse, Exc>, ghost calls: seq<Call>)
      modifies store
      ensures var run := FindOn(old(store.state), old(store.faults), pattern, 0);
        && calls == run.1
        && r == (if run.0.Success? then Success(ListResponse(run.0.value)) else Failure(run.0.error))
      ensures store.log == old(store.log) + calls && store.faults == Skip(old(store.faults), |calls|)
      ensures store.state == old(store.state) && store.bodyCaps == old(store.bodyCaps)
    {
      ghost var st, f0, log0 := store.state, store.faults, store.log;
      var found: seq<FileEntry> := [];
      calls := [];
      var start: nat := 0;
      JoinedNothing(FindOn(st, f0, pattern, 0));
      while true
        invariant store.state == st && store.bodyCaps == old(store.bodyCaps)
        invariant store.log == log0 + calls && store.faults == Skip(f0, |calls|)
        invariant FindOn(st, f0, pattern, 0) == Joined(found, calls, FindOn(st, store.faults, pattern, start))
        decreases |st.order| - start
      {
        ghost var f := store.faults;
        var page, next;
        ghost var pageCalls;
        page, next, pageCalls := FindPage(pattern, start);
        FindOnUnfold(st, f, pattern, start, page, next, pageCalls);
        AppendAssoc(log0, calls, pageCalls);
        FaultsAdd(f0, f, store.faults, |calls|, |pageCalls|, |calls + pageCalls|);
        if page.Failure? {
          return Failure(page.error), calls + pageCalls;
        }
        if next.None? {
          return Success(ListResponse(found + page.value)), calls + pageCalls;
        }
        JoinedTwice(found, calls, page.value, pageCalls, FindOn(st, store.faults, pattern, next.value));
        found := found + page.value;
        calls := calls + pageCalls;
        start := next.value;
      }
    }

    /** `remove_file`: delete the object; a missing key is not an error. */
    method RemoveFile(filename: string) returns (r: Result<(), Exc>)
      modifies store
      ensures (r, store.state) == Answer(NextFault(old(store.faults)), DeleteObjectOp(old(store.state), filename), old(store.state))
      ensures store.log == old(store.log) + [DeleteObjectCall(filename)]
      ensures store.faults == Rest(old(store.faults)) && store.bodyCaps == old(store.bodyCaps)
      ensures WellFormed(old(store.state)) ==> WellFormed(store.state)
    {
      r := store.DeleteObject(filename);
    }

    /** `create_default_bucket`, run at start-up. */
    method CreateDefaultBucket() returns (r: Result<(), Exc>)
      modifies store
      ensures (r, store.state) == Answer(NextFault(old(store.faults)), CreateBucketOp(old(store.state)), old(store.state))
      ensures store.log == old(store.log) + [CreateBucketCall]
      ensures store.faults == Rest(old(store.faults)) && store.bodyCaps == old(store.bodyCaps)
      ensures WellFormed(old(store.state)) ==> WellFormed(store.state)
    {
      r := store.CreateBucket();
    }
  }
}
