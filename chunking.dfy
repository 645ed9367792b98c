/** The arithmetic of a multipart upload: how a body splits into parts when
    every read comes back full, the part list the upload commits, and the
    session the store holds once every part is in. */
module Chunking {
  import opened Base
  import opened Store

  /** `s` cut into consecutive pieces of `size` bytes; the last may be shorter. */
  function FixedChunks<T>(s: seq<T>, size: nat): (r: seq<seq<T>>)
    requires size > 0
    decreases |s|
  {
    if s == [] then [] else [s[..Min(size, |s|)]] + FixedChunks(s[Min(size, |s|)..], size)
  }

  /** Glued back together, the pieces give the whole sequence. */
  lemma {:induction false} FixedChunksConcat<T>(s: seq<T>, size: nat)
    requires size > 0
    ensures Concat(FixedChunks(s, size)) == s
    decreases |s|
  {
    if s != [] {
      var k := Min(size, |s|);
      FixedChunksConcat(s[k..], size);
      ConcatCons(s[..k], FixedChunks(s[k..], size));
      assert s[..k] + s[k..] == s;
    }
  }

  /** There are `ceil(|s| / size)` pieces. */
  lemma {:induction false} FixedChunksCount<T>(s: seq<T>, size: nat)
    requires size > 0
    ensures |FixedChunks(s, size)| == (|s| + size - 1) / size
    decreases |s|
  {
    if s == [] {
      assert (size - 1) / size == 0;
    } else if |s| <= size {
      assert (|s| + size - 1) / size == 1;
    } else {
      FixedChunksCount(s[size..], size);
      DivStep(|s| - 1, size);
    }
  }

  lemma DivStep(m: nat, size: nat)
    requires size > 0
    ensures (m + size) / size == m / size + 1
  {
    var q, r := m / size, m % size;
    assert m == q * size + r;
    assert m + size == (q + 1) * size + r;
    DivUnique(m + size, q + 1, r, size);
  }

  lemma DivUnique(x: nat, q: nat, r: nat, size: nat)
    requires size > 0 && r < size && x == q * size + r
    ensures x / size == q
  {
    var q', r' := x / size, x % size;
    assert q' * size + r' == q * size + r;
    if q' < q {
      MulMono(q' + 1, q, size);
    } else if q < q' {
      MulMono(q + 1, q', size);
    }
  }

  lemma MulMono(a: nat, b: nat, c: nat)
    requires a <= b
    ensures a * c <= b * c
  {
  }

  /** Every piece is non-empty and at most `size` long; all but the last are
      exactly `size` long. */
  lemma {:induction false} FixedChunksSizes<T>(s: seq<T>, size: nat)
    requires size > 0
    ensures forall i | 0 <= i < |FixedChunks(s, size)| :: 0 < |FixedChunks(s, size)[i]| <= size
    ensures forall i | 0 <= i < |FixedChunks(s, size)| - 1 :: |FixedChunks(s, size)[i]| == size
    decreases |s|
  {
    if s != [] {
      var k := Min(size, |s|);
      var rest := FixedChunks(s[k..], size);
      FixedChunksSizes(s[k..], size);
      assert FixedChunks(s, size) == [s[..k]] + rest;
      if k < size {
        assert s[k..] == [];
      }
    }
  }

  /** The list `upload_file` commits after `n` parts whose tags were handed
      out consecutively from `firstTag`: part `i` carries the `i`-th tag. */
  function CommitList(firstTag: nat, n: nat): (parts: seq<PartRef>)
    ensures |parts| == n
  {
    seq(n, i requires 0 <= i => PartRef(firstTag + i, i + 1))
  }

  /** Part numbers run 1, 2, ..., n: they start at 1, end at n, and each is
      one more than the one before, so there is no gap and no repeat. */
  lemma CommitListNumbers(firstTag: nat, n: nat)
    ensures Ascending(CommitList(firstTag, n))
    ensures n > 0 ==> CommitList(firstTag, n)[0].partNumber == 1 && CommitList(firstTag, n)[n - 1].partNumber == n
    ensures forall i | 0 < i < n :: CommitList(firstTag, n)[i].partNumber == CommitList(firstTag, n)[i - 1].partNumber + 1
  {
  }

  lemma CommitListSnoc(firstTag: nat, n: nat)
    ensures CommitList(firstTag, n + 1) == CommitList(firstTag, n) + [PartRef(firstTag + n, n + 1)]
  {
  }

  /** The parts a session holds once `chunks` went up in order with tags
      handed out from `firstTag`. */
  function PartsMap(firstTag: nat, chunks: seq<Bytes>): (m: map<nat, UploadedPart>)
    ensures forall k :: k in m <==> 1 <= k <= |chunks|
    ensures forall k | k in m :: m[k] == UploadedPart(firstTag + k - 1, chunks[k - 1])
  {
    if chunks == [] then map[]
    else
      var n := |chunks|;
      PartsMap(firstTag, chunks[..n - 1])[n := UploadedPart(firstTag + n - 1, chunks[n - 1])]
  }

  lemma PartsMapSnoc(firstTag: nat, chunks: seq<Bytes>, c: Bytes)
    ensures PartsMap(firstTag, chunks + [c])
         == PartsMap(firstTag, chunks)[|chunks| + 1 := UploadedPart(firstTag + |chunks|, c)]
  {
    assert (chunks + [c])[..|chunks|] == chunks;
  }

  /** Committing the list assembles exactly the chunks, in order. */
  lemma {:induction false} AssembleCommitList(s: Session, firstTag: nat, chunks: seq<Bytes>, m: nat)
    requires s.parts == PartsMap(firstTag, chunks)
    requires m <= |chunks|
    ensures PartsMatch(s, CommitList(firstTag, m))
    ensures Assemble(s, CommitList(firstTag, m)) == Concat(chunks[..m])
    decreases m
  {
    var parts := CommitList(firstTag, m);
    assert PartsMatch(s, parts) by {
      forall p | p in parts ensures p.partNumber in s.parts && s.parts[p.partNumber].etag == p.etag {
        var i :| 0 <= i < |parts| && parts[i] == p;
      }
    }
    if m > 0 {
      assert parts[..m - 1] == CommitList(firstTag, m - 1);
      AssembleCommitList(s, firstTag, chunks, m - 1);
      assert chunks[..m][..m - 1] == chunks[..m - 1];
    }
  }

  /** The commit passes the store's size rule when every part but the last is
      at least the minimum part size. */
  lemma CommitListSizes(s: Session, firstTag: nat, chunks: seq<Bytes>)
    requires s.parts == PartsMap(firstTag, chunks)
    requires forall i | 0 <= i < |chunks| - 1 :: |chunks[i]| >= MIN_PART_SIZE
    ensures PartsMatch(s, CommitList(firstTag, |chunks|))
    ensures SizesAllowed(s, CommitList(firstTag, |chunks|))
  {
    AssembleCommitList(s, firstTag, chunks, |chunks|);
  }

  /** The `UploadPart` requests for `chunks`, numbered from 1. */
  function PartCalls(key: string, uploadId: nat, chunks: seq<Bytes>): (calls: seq<Call>)
    ensures |calls| == |chunks|
  {
    seq(|chunks|, i requires 0 <= i < |chunks| => UploadPartCall(key, uploadId, i + 1, chunks[i]))
  }

  lemma PartCallsSnoc(key: string, uploadId: nat, chunks: seq<Bytes>, c: Bytes)
    ensures PartCalls(key, uploadId, chunks + [c])
         == PartCalls(key, uploadId, chunks) + [UploadPartCall(key, uploadId, |chunks| + 1, c)]
  {
  }
}
