/** Byte sources the client pulls from: the body of an uploaded form file
    (Starlette's `UploadFile.read(n)`) and the body of a stored object
    (`stream.content.read(n)` on the store's HTTP response). A read hands back
    a prefix of what is left, at most `n` bytes, and at least one byte while
    anything is left. How short a read comes back is the transport's choice;
    here it is the oracle `caps`: the next read is cut at `caps[0]` bytes when
    that is positive and smaller. Every read pattern that obeys those rules is
    one of these oracles, and with `caps == []` every read is full. */
module Streams {
  import opened Base

  /** How many bytes `read(n)` hands back when `available` bytes are left. */
  function ReadSize(n: nat, caps: seq<nat>, available: nat): (k: nat)
    ensures k <= n && k <= available
    ensures k == 0 <==> n == 0 || available == 0
    ensures caps == [] ==> k == Min(n, available)
  {
    var limit := if caps == [] || caps[0] == 0 then n else Min(n, caps[0]);
    Min(limit, available)
  }

  /** The chunks successive `read(n)` calls hand back from `data`, up to the
      first empty read, when the reads are cut by `caps`. */
  function Reads(data: Bytes, caps: seq<nat>, n: nat): (chunks: seq<Bytes>)
    requires n > 0
    decreases |data|
  {
    if data == [] then []
    else
      var k := ReadSize(n, caps, |data|);
      [data[..k]] + Reads(data[k..], if caps == [] then [] else caps[1..], n)
  }

  /** Glued back together, the chunks read give the whole of `data`. */
  lemma {:induction false} ReadsConcat(data: Bytes, caps: seq<nat>, n: nat)
    requires n > 0
    ensures Concat(Reads(data, caps, n)) == data
    decreases |data|
  {
    if data != [] {
      var k := ReadSize(n, caps, |data|);
      ReadsConcat(data[k..], if caps == [] then [] else caps[1..], n);
      ConcatCons(data[..k], Reads(data[k..], if caps == [] then [] else caps[1..], n));
      assert data[..k] + data[k..] == data;
    }
  }

  /** Every chunk read is non-empty and at most `n` bytes long. */
  lemma {:induction false} ReadsBounded(data: Bytes, caps: seq<nat>, n: nat)
    requires n > 0
    ensures forall i | 0 <= i < |Reads(data, caps, n)| :: 0 < |Reads(data, caps, n)[i]| <= n
    decreases |data|
  {
    if data != [] {
      var k := ReadSize(n, caps, |data|);
      var rest := Reads(data[k..], if caps == [] then [] else caps[1..], n);
      ReadsBounded(data[k..], if caps == [] then [] else caps[1..], n);
      assert Reads(data, caps, n) == [data[..k]] + rest;
    }
  }

  class ByteStream {
    var remaining: Bytes
    var caps: seq<nat>

    constructor (data: Bytes, caps: seq<nat>)
      ensures remaining == data && this.caps == caps
    {
      remaining := data;
      this.caps := caps;
    }

    method Read(n: nat) returns (chunk: Bytes)
      modifies this
      ensures chunk == old(remaining)[..ReadSize(n, old(caps), |old(remaining)|)]
      ensures remaining == old(remaining)[|chunk|..]
      ensures caps == if old(caps) == [] then [] else old(caps)[1..]
    {
      var k := ReadSize(n, caps, |remaining|);
      chunk := remaining[..k];
      remaining := remaining[k..];
      caps := if caps == [] then [] else caps[1..];
    }
  }

  /** FastAPI's `UploadFile`: the client's file name, the declared content
      type (`None` when the form part carries no Content-Type header), and
      the spooled file the bytes are read from. */
  class UploadFile {
    const filename: string
    const contentType: Option<string>
    const file: ByteStream

    constructor (filename: string, contentType: Option<string>, file: ByteStream)
      ensures this.filename == filename && this.contentType == contentType && this.file == file
    {
      this.filename := filename;
      this.contentType := contentType;
      this.file := file;
    }

    method Read(n: nat) returns (chunk: Bytes)
      modifies file
      ensures chunk == old(file.remaining)[..ReadSize(n, old(file.caps), |old(file.remaining)|)]
      ensures file.remaining == old(file.remaining)[|chunk|..]
      ensures file.caps == if old(file.caps) == [] then [] else old(file.caps)[1..]
    {
      chunk := file.Read(n);
    }
  }
}
