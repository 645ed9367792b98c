/** The S3-compatible object store the client talks to, as an abstract state
    machine. It is not part of the repository: its rules follow the S3 API
    operations the client calls (CreateBucket, CreateMultipartUpload,
    UploadPart, CompleteMultipartUpload, AbortMultipartUpload, GetObject,
    HeadObject, DeleteObject, ListObjectsV2), reduced to what the client's
    behaviour depends on.

    Each operation is a pure transition `...Op(st, ...)` on `StoreState`. The
    class `ObjectStore` holds the current state and answers each call through
    a fault oracle: the next entry of `faults` lets the call through, rejects
    it with a store error (botocore's `ClientError`), or loses the connection
    (an exception that is not a `ClientError`). Every call is appended to
    `log`, so callers can state which requests they made, in which order. */
module Store {
  import opened Base
  import opened Errors
  import opened Streams

  /** S3 numbers parts 1 to 10000. */
  const MAX_PART_NUMBER: nat := 10000

  /** S3 refuses a commit whose parts, all but the last, are under 5 MiB. */
  const MIN_PART_SIZE: nat := 5 * 1024 * 1024

  /** ListObjectsV2 returns at most 1000 keys per page. */
  const PAGE_SIZE: nat := 1000

  datatype StoredObject = StoredObject(body: Bytes, contentType: Option<string>)

  /** One `{'ETag': ..., 'PartNumber': ...}` entry of a commit request. */
  datatype PartRef = PartRef(etag: nat, partNumber: nat)

  datatype UploadedPart = UploadedPart(etag: nat, body: Bytes)

  /** An open multipart upload: target key, content type and the parts so far. */
  datatype Session = Session(key: string, contentType: string, parts: map<nat, UploadedPart>)

  /** One listing page and the continuation token for the next, if any. */
  datatype Page = Page(keys: seq<string>, next: Option<nat>)

  datatype StoreState = StoreState(
    bucketExists: bool,
    objects: map<string, StoredObject>,
    order: seq<string>,           // the store's native listing order of the keys
    sessions: map<nat, Session>,  // open multipart uploads by upload id
    nextUploadId: nat,
    nextTag: nat)                 // the ETag the next uploaded part receives

  ghost predicate NoDuplicates(keys: seq<string>) {
    forall i, j | 0 <= i < j < |keys| :: keys[i] != keys[j]
  }

  /** The listing order names every stored key exactly once, and upload ids
      are handed out above every open one. */
  ghost predicate WellFormed(st: StoreState) {
    && NoDuplicates(st.order)
    && (forall k :: k in st.order <==> k in st.objects)
    && (forall id | id in st.sessions :: id < st.nextUploadId)
  }

  datatype Step<T> = Step(reply: Result<T, StoreError>, next: StoreState)

  function Refuse<T>(st: StoreState, code: string, operation: string, message: Message): Step<T> {
    Step(Failure(StoreError(code, operation, message)), st)
  }

  /** `order` without `key`. */
  function RemoveKey(order: seq<string>, key: string): (r: seq<string>)
    ensures forall k :: k in r <==> k in order && k != key
  {
    if order == [] then []
    else if order[0] == key then RemoveKey(order[1..], key)
    else [order[0]] + RemoveKey(order[1..], key)
  }

  lemma {:induction false} RemoveKeyNoDuplicates(order: seq<string>, key: string)
    requires NoDuplicates(order)
    ensures NoDuplicates(RemoveKey(order, key))
  {
    if order != [] {
      assert NoDuplicates(order[1..]) by {
        forall i, j | 0 <= i < j < |order[1..]| ensures order[1..][i] != order[1..][j] {
          assert order[1..][i] == order[i + 1] && order[1..][j] == order[j + 1];
        }
      }
      RemoveKeyNoDuplicates(order[1..], key);
      if order[0] != key {
        var r := [order[0]] + RemoveKey(order[1..], key);
        assert order[0] !in order[1..];
        forall i, j | 0 <= i < j < |r| ensures r[i] != r[j] {
          if i == 0 {
            assert r[j] in RemoveKey(order[1..], key);
          } else {
            assert r[i] == RemoveKey(order[1..], key)[i - 1] && r[j] == RemoveKey(order[1..], key)[j - 1];
          }
        }
      }
    }
  }

  /** Stores `obj` under `key`; a new key goes to the end of the listing. */
  function PutObject(st: StoreState, key: string, obj: StoredObject): StoreState {
    st.(objects := st.objects[key := obj],
        order := if key in st.objects then st.order else st.order + [key])
  }

  function CreateBucketOp(st: StoreState): Step<()> {
    if st.bucketExists then
      Refuse(st, "BucketAlreadyOwnedByYou", "CreateBucket", BucketOwned)
    else Step(Success(()), st.(bucketExists := true))
  }

  function CreateMultipartUploadOp(st: StoreState, key: string, contentType: string): Step<nat> {
    var id := st.nextUploadId;
    Step(Success(id), st.(sessions := st.sessions[id := Session(key, contentType, map[])],
                          nextUploadId := id + 1))
  }

  predicate SessionFor(st: StoreState, key: string, id: nat) {
    id in st.sessions && st.sessions[id].key == key
  }

  function UploadPartOp(st: StoreState, key: string, id: nat, partNumber: nat, body: Bytes): Step<nat> {
    if !SessionFor(st, key, id) then
      Refuse(st, "NoSuchUpload", "UploadPart", UploadMissing)
    else if !(1 <= partNumber <= MAX_PART_NUMBER) then
      Refuse(st, "InvalidArgument", "UploadPart", PartNumberRange)
    else
      var s := st.sessions[id];
      var part := UploadedPart(st.nextTag, body);
      Step(Success(st.nextTag), st.(sessions := st.sessions[id := s.(parts := s.parts[partNumber := part])],
                                   nextTag := st.nextTag + 1))
  }

  predicate Ascending(parts: seq<PartRef>) {
    forall i | 0 < i < |parts| :: parts[i - 1].partNumber < parts[i].partNumber
  }

  /** Every listed part was uploaded to the session, under the listed ETag. */
  predicate PartsMatch(s: Session, parts: seq<PartRef>) {
    forall p | p in parts :: p.partNumber in s.parts && s.parts[p.partNumber].etag == p.etag
  }

  predicate SizesAllowed(s: Session, parts: seq<PartRef>)
    requires PartsMatch(s, parts)
  {
    forall i | 0 <= i < |parts| - 1 :: |s.parts[parts[i].partNumber].body| >= MIN_PART_SIZE
  }

  /** The object a commit produces: the listed parts' bodies, in list order. */
  function Assemble(s: Session, parts: seq<PartRef>): Bytes
    requires PartsMatch(s, parts)
  {
    if parts == [] then []
    else Assemble(s, parts[..|parts| - 1]) + s.parts[parts[|parts| - 1].partNumber].body
  }

  function CompleteMultipartUploadOp(st: StoreState, key: string, id: nat, parts: seq<PartRef>): Step<()> {
    if !SessionFor(st, key, id) then
      Refuse(st, "NoSuchUpload", "CompleteMultipartUpload", UploadMissing)
    else if parts == [] then
      Refuse(st, "MalformedXML", "CompleteMultipartUpload", ListMalformed)
    else if !Ascending(parts) then
      Refuse(st, "InvalidPartOrder", "CompleteMultipartUpload", PartsOutOfOrder)
    else if !PartsMatch(st.sessions[id], parts) then
      Refuse(st, "InvalidPart", "CompleteMultipartUpload", PartMissing)
    else if !SizesAllowed(st.sessions[id], parts) then
      Refuse(st, "EntityTooSmall", "CompleteMultipartUpload", PartTooSmall)
    else
      var s := st.sessions[id];
      var obj := StoredObject(Assemble(s, parts), Some(s.contentType));
      Step(Success(()), PutObject(st, key, obj).(sessions := st.sessions - {id}))
  }

  /** A commit that goes through had an open session for the key and a list
      naming its uploaded parts; it stores their bodies, in list order, under
      the key with the session's content type, and closes the session. */
  lemma CompleteAccepted(st: StoreState, key: string, id: nat, parts: seq<PartRef>)
    requires CompleteMultipartUploadOp(st, key, id, parts).reply.Success?
    ensures SessionFor(st, key, id) && parts != [] && Ascending(parts) && PartsMatch(st.sessions[id], parts)
    ensures CompleteMultipartUploadOp(st, key, id, parts).next
         == PutObject(st, key, StoredObject(Assemble(st.sessions[id], parts), Some(st.sessions[id].contentType)))
              .(sessions := st.sessions - {id})
  {
  }

  /** A refused commit changes nothing. */
  lemma CompleteRefused(st: StoreState, key: string, id: nat, parts: seq<PartRef>)
    requires CompleteMultipartUploadOp(st, key, id, parts).reply.Failure?
    ensures CompleteMultipartUploadOp(st, key, id, parts).next == st
  {
  }

  function AbortMultipartUploadOp(st: StoreState, key: string, id: nat): Step<()> {
    if !SessionFor(st, key, id) then
      Refuse(st, "NoSuchUpload", "AbortMultipartUpload", UploadMissing)
    else Step(Success(()), st.(sessions := st.sessions - {id}))
  }

  function GetObjectOp(st: StoreState, key: string): Step<StoredObject> {
    if key !in st.objects then Refuse(st, "NoSuchKey", "GetObject", KeyMissing)
    else Step(Success(st.objects[key]), st)
  }

  /** A HEAD response has no body, so a missing key surfaces with code `404`. */
  function HeadObjectOp(st: StoreState, key: string): Step<Option<string>> {
    if key !in st.objects then Refuse(st, "404", "HeadObject", HeadNotFound)
    else Step(Success(st.objects[key].contentType), st)
  }

  /** Deleting is idempotent: a missing key is not an error. */
  function DeleteObjectOp(st: StoreState, key: string): Step<()> {
    Step(Success(()), st.(objects := st.objects - {key}, order := RemoveKey(st.order, key)))
  }

  function ListObjectsOp(st: StoreState, start: nat): Step<Page> {
    var from := Min(start, |st.order|);
    var to := Min(start + PAGE_SIZE, |st.order|);
    Step(Success(Page(st.order[from..to], if to < |st.order| then Some(to) else None)), st)
  }

  /** The requests the client sends. */
  datatype Call =
    | CreateBucketCall
    | CreateMultipartUploadCall(key: string, contentType: string)
    | UploadPartCall(key: string, uploadId: nat, partNumber: nat, body: Bytes)
    | CompleteMultipartUploadCall(key: string, uploadId: nat, parts: seq<PartRef>)
    | AbortMultipartUploadCall(key: string, uploadId: nat)
    | GetObjectCall(key: string)
    | HeadObjectCall(key: string)
    | DeleteObjectCall(key: string)
    | ListObjectsCall(start: nat)

  /** What happens to one request: it goes through; the store refuses it
      with an error of its own choosing; the connection fails before the
      store sees it; or the store acts on it and the connection fails before
      the reply arrives. */
  datatype Fault = Pass | Reject(error: StoreError) | Lost | ReplyLost

  function NextFault(faults: seq<Fault>): Fault {
    if faults == [] then Pass else faults[0]
  }

  /** No call is stopped: the store answers every request by its rules. */
  predicate AllPass(faults: seq<Fault>) {
    forall i | 0 <= i < |faults| :: faults[i] == Pass
  }

  function Rest(faults: seq<Fault>): (r: seq<Fault>)
    ensures |r| == if faults == [] then 0 else |faults| - 1
    ensures AllPass(faults) ==> AllPass(r)
  {
    if faults == [] then [] else faults[1..]
  }

  /** The oracle after `n` calls. */
  function Skip(faults: seq<Fault>, n: nat): seq<Fault> {
    if n == 0 then faults else Skip(Rest(faults), n - 1)
  }

  lemma {:induction false} SkipOneMore(faults: seq<Fault>, n: nat)
    ensures Skip(faults, n + 1) == Rest(Skip(faults, n))
    decreases n
  {
    if n > 0 {
      SkipOneMore(Rest(faults), n - 1);
    }
  }

  /** The state a call leads to when the store answers it by its rules. */
  function NextState(st: StoreState, call: Call): StoreState {
    match call
    case CreateBucketCall => CreateBucketOp(st).next
    case CreateMultipartUploadCall(key, contentType) => CreateMultipartUploadOp(st, key, contentType).next
    case UploadPartCall(key, id, partNumber, body) => UploadPartOp(st, key, id, partNumber, body).next
    case CompleteMultipartUploadCall(key, id, parts) => CompleteMultipartUploadOp(st, key, id, parts).next
    case AbortMultipartUploadCall(key, id) => AbortMultipartUploadOp(st, key, id).next
    case GetObjectCall(key) => GetObjectOp(st, key).next
    case HeadObjectCall(key) => HeadObjectOp(st, key).next
    case DeleteObjectCall(key) => DeleteObjectOp(st, key).next
    case ListObjectsCall(start) => ListObjectsOp(st, start).next
  }

  /** No request breaks the store's invariant: the listing order keeps naming
      every stored key exactly once, and upload ids stay fresh. */
  lemma CallKeepsWellFormed(st: StoreState, call: Call)
    requires WellFormed(st)
    ensures WellFormed(NextState(st, call))
  {
    match call
    case CreateBucketCall =>
      SameObjectsWellFormed(st, CreateBucketOp(st).next);
    case CreateMultipartUploadCall(key, contentType) =>
      SameObjectsWellFormed(st, CreateMultipartUploadOp(st, key, contentType).next);
    case UploadPartCall(key, id, partNumber, body) =>
      SameObjectsWellFormed(st, UploadPartOp(st, key, id, partNumber, body).next);
    case CompleteMultipartUploadCall(key, id, parts) =>
      CompleteKeepsWellFormed(st, key, id, parts);
    case AbortMultipartUploadCall(key, id) =>
      SameObjectsWellFormed(st, AbortMultipartUploadOp(st, key, id).next);
    case DeleteObjectCall(key) =>
      RemoveKeyNoDuplicates(st.order, key);
    case _ =>
  }

  /** A step that leaves the objects alone and opens no session under a used
      id keeps the invariant. */
  lemma SameObjectsWellFormed(st: StoreState, next: StoreState)
    requires WellFormed(st)
    requires next.objects == st.objects && next.order == st.order && next.nextUploadId >= st.nextUploadId
    requires forall id | id in next.sessions :: id in st.sessions || id < next.nextUploadId
    ensures WellFormed(next)
  {
  }

  lemma CompleteKeepsWellFormed(st: StoreState, key: string, id: nat, parts: seq<PartRef>)
    requires WellFormed(st)
    ensures WellFormed(CompleteMultipartUploadOp(st, key, id, parts).next)
  {
    var step := CompleteMultipartUploadOp(st, key, id, parts);
    if step.reply.Success? {
      var s := st.sessions[id];
      var obj := StoredObject(Assemble(s, parts), Some(s.contentType));
      PutObjectWellFormed(st, key, obj);
      assert step.next == PutObject(st, key, obj).(sessions := st.sessions - {id});
    }
  }

  /** The reply a call receives, and the state after it, under fault `f`. */
  function Answer<T>(f: Fault, step: Step<T>, st: StoreState): (Result<T, Exc>, StoreState) {
    match f
    case Pass =>
      (match step.reply
       case Success(v) => Success(v)
       case Failure(e) => Failure(ClientError(e)), step.next)
    case Reject(e) => (Failure(ClientError(e)), st)
    case Lost => (Failure(OtherException(ConnectionLost)), st)
    case ReplyLost => (Failure(OtherException(ConnectionLost)), step.next)
  }

  /** `get_object`'s reply: the content-type header, if sent, and the body stream. */
  datatype ObjectResponse = ObjectResponse(contentType: Option<string>, body: ByteStream)

  lemma PutObjectWellFormed(st: StoreState, key: string, obj: StoredObject)
    requires WellFormed(st)
    ensures WellFormed(PutObject(st, key, obj))
  {
    var order := PutObject(st, key, obj).order;
    if key !in st.objects {
      forall i, j | 0 <= i < j < |order| ensures order[i] != order[j] {
        if j == |order| - 1 {
          assert order[i] in st.order;
        }
      }
    }
  }

  /** Deleting always succeeds, the key is gone afterwards, every other object
      is kept, and deleting again changes nothing. */
  lemma DeleteObjectIdempotent(st: StoreState, key: string)
    ensures DeleteObjectOp(st, key).reply.Success?
    ensures key !in DeleteObjectOp(st, key).next.objects
    ensures forall k | k in st.objects && k != key ::
              k in DeleteObjectOp(st, key).next.objects && DeleteObjectOp(st, key).next.objects[k] == st.objects[k]
    ensures DeleteObjectOp(DeleteObjectOp(st, key).next, key) == DeleteObjectOp(st, key)
  {
    var once := DeleteObjectOp(st, key).next;
    RemoveKeyAbsent(once.order, key);
  }

  lemma {:induction false} RemoveKeyAbsent(order: seq<string>, key: string)
    requires key !in order
    ensures RemoveKey(order, key) == order
  {
    if order != [] {
      RemoveKeyAbsent(order[1..], key);
      assert [order[0]] + order[1..] == order;
    }
  }

  /** Creating the bucket twice is harmless: the second request is refused
      with `BucketAlreadyOwnedByYou`, which the error handler swallows, and the
      bucket exists either way. */
  lemma BucketCreationIdempotent(st: StoreState)
    ensures var (reply, next) := Answer(Pass, CreateBucketOp(st), st);
      && next.bucketExists
      && ErrorHandler(reply, [], map[]).Returned?
      && (st.bucketExists ==> next == st)
  {
  }

  class ObjectStore {
    var state: StoreState
    var faults: seq<Fault>
    var log: seq<Call>
    var bodyCaps: seq<nat>   // how short the reads of a downloaded body come back

    constructor (state: StoreState, faults: seq<Fault>, bodyCaps: seq<nat>)
      ensures this.state == state && this.faults == faults && this.bodyCaps == bodyCaps && log == []
    {
      this.state := state;
      this.faults := faults;
      this.bodyCaps := bodyCaps;
      log := [];
    }

    /** Sends one request: logs it, takes the next fault, and applies `step`
        unless the fault stops it. */
    method Exchange<T>(call: Call, step: Step<T>) returns (r: Result<T, Exc>)
      modifies this
      ensures log == old(log) + [call] && faults == Rest(old(faults)) && bodyCaps == old(bodyCaps)
      ensures (r, state) == Answer(NextFault(old(faults)), step, old(state))
    {
      log := log + [call];
      var answer := Answer(NextFault(faults), step, state);
      faults := Rest(faults);
      r, state := answer.0, answer.1;
    }

    method CreateBucket() returns (r: Result<(), Exc>)
      modifies this
      ensures log == old(log) + [CreateBucketCall] && faults == Rest(old(faults)) && bodyCaps == old(bodyCaps)
      ensures (r, state) == Answer(NextFault(old(faults)), CreateBucketOp(old(state)), old(state))
      ensures WellFormed(old(state)) ==> WellFormed(state)
    {
      if WellFormed(state) {
        CallKeepsWellFormed(state, CreateBucketCall);
      }
      r := Exchange(CreateBucketCall, CreateBucketOp(state));
    }

    method CreateMultipartUpload(key: string, contentType: string) returns (r: Result<nat, Exc>)
      modifies this
      ensures log == old(log) + [CreateMultipartUploadCall(key, contentType)]
      ensures faults == Rest(old(faults)) && bodyCaps == old(bodyCaps)
      ensures (r, state) == Answer(NextFault(old(faults)), CreateMultipartUploadOp(old(state), key, contentType), old(state))
      ensures WellFormed(old(state)) ==> WellFormed(state)
    {
      if WellFormed(state) {
        CallKeepsWellFormed(state, CreateMultipartUploadCall(key, contentType));
      }
      r := Exchange(CreateMultipartUploadCall(key, contentType), CreateMultipartUploadOp(state, key, contentType));
    }

    method UploadPart(key: string, uploadId: nat, partNumber: nat, body: Bytes) returns (r: Result<nat, Exc>)
      modifies this
      ensures log == old(log) + [UploadPartCall(key, uploadId, partNumber, body)]
      ensures faults == Rest(old(faults)) && bodyCaps == old(bodyCaps)
      ensures (r, state) == Answer(NextFault(old(faults)), UploadPartOp(old(state), key, uploadId, partNumber, body), old(state))
      ensures WellFormed(old(state)) ==> WellFormed(state)
    {
      if WellFormed(state) {
        CallKeepsWellFormed(state, UploadPartCall(key, uploadId, partNumber, body));
      }
      r := Exchange(UploadPartCall(key, uploadId, partNumber, body), UploadPartOp(state, key, uploadId, partNumber, body));
    }

    method CompleteMultipartUpload(key: string, uploadId: nat, parts: seq<PartRef>) returns (r: Result<(), Exc>)
      modifies this
      ensures log == old(log) + [CompleteMultipartUploadCall(key, uploadId, parts)]
      ensures faults == Rest(old(faults)) && bodyCaps == old(bodyCaps)
      ensures (r, state) == Answer(NextFault(old(faults)), CompleteMultipartUploadOp(old(state), key, uploadId, parts), old(state))
      ensures WellFormed(old(state)) ==> WellFormed(state)
    {
      if WellFormed(state) {
        CallKeepsWellFormed(state, CompleteMultipartUploadCall(key, uploadId, parts));
      }
      r := Exchange(CompleteMultipartUploadCall(key, uploadId, parts), CompleteMultipartUploadOp(state, key, uploadId, parts));
    }

    method AbortMultipartUpload(key: string, uploadId: nat) returns (r: Result<(), Exc>)
      modifies this
      ensures log == old(log) + [AbortMultipartUploadCall(key, uploadId)]
      ensures faults == Rest(old(faults)) && bodyCaps == old(bodyCaps)
      ensures (r, state) == Answer(NextFault(old(faults)), AbortMultipartUploadOp(old(state), key, uploadId), old(state))
      ensures WellFormed(old(state)) ==> WellFormed(state)
    {
      if WellFormed(state) {
        CallKeepsWellFormed(state, AbortMultipartUploadCall(key, uploadId));
      }
      r := Exchange(AbortMultipartUploadCall(key, uploadId), AbortMultipartUploadOp(state, key, uploadId));
    }

    /** The object's body comes back as a fresh stream whose reads follow `bodyCaps`. */
    method GetObject(key: string) returns (r: Result<ObjectResponse, Exc>)
      modifies this
      ensures log == old(log) + [GetObjectCall(key)]
      ensures faults == Rest(old(faults)) && bodyCaps == old(bodyCaps)
      ensures var answer := Answer(NextFault(old(faults)), GetObjectOp(old(state), key), old(state));
        && state == answer.1
        && r.Success? == answer.0.Success?
        && (r.Failure? ==> r.error == answer.0.error)
        && (r.Success? ==> && r.value.contentType == answer.0.value.contentType
                           && fresh(r.value.body)
                           && r.value.body.remaining == answer.0.value.body
                           && r.value.body.caps == bodyCaps)
    {
      var reply := Exchange(GetObjectCall(key), GetObjectOp(state, key));
      match reply
      case Failure(e) =>
        r := Failure(e);
      case Success(obj) =>
        var body := new ByteStream(obj.body, bodyCaps);
        r := Success(ObjectResponse(obj.contentType, body));
    }

    method HeadObject(key: string) returns (r: Result<Option<string>, Exc>)
      modifies this
      ensures log == old(log) + [HeadObjectCall(key)]
      ensures faults == Rest(old(faults)) && bodyCaps == old(bodyCaps)
      ensures (r, state) == Answer(NextFault(old(faults)), HeadObjectOp(old(state), key), old(state))
    {
      r := Exchange(HeadObjectCall(key), HeadObjectOp(state, key));
    }

    method DeleteObject(key: string) returns (r: Result<(), Exc>)
      modifies this
      ensures log == old(log) + [DeleteObjectCall(key)]
      ensures faults == Rest(old(faults)) && bodyCaps == old(bodyCaps)
      ensures (r, state) == Answer(NextFault(old(faults)), DeleteObjectOp(old(state), key), old(state))
      ensures WellFormed(old(state)) ==> WellFormed(state)
    {
      if WellFormed(state) {
        CallKeepsWellFormed(state, DeleteObjectCall(key));
      }
      r := Exchange(DeleteObjectCall(key), DeleteObjectOp(state, key));
    }

    method ListObjects(start: nat) returns (r: Result<Page, Exc>)
      modifies this
      ensures log == old(log) + [ListObjectsCall(start)]
      ensures faults == Rest(old(faults)) && bodyCaps == old(bodyCaps)
      ensures (r, state) == Answer(NextFault(old(faults)), ListObjectsOp(old(state), start), old(state))
    {
      r := Exchange(ListObjectsCall(start), ListObjectsOp(state, start));
    }
  }
}
