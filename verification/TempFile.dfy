/** Streaming an upload into its temp file, and the names that are accepted. */
module TempFile {
  import opened Types
  import opened Etags
  import opened Keys
  import opened Sequences

  /** What one `read` returns, or a write that fails; an empty chunk or the end of the script ends the stream. */
  datatype Read = Chunk(data: bytes) | Broken | Unwritable

  /** Which calls on the file succeed. */
  datatype Disk = Disk(creates: bool, flushes: bool, syncs: bool, tags: bool, renames: bool, durable: bool)

  /** The bytes up to end of file, unless a read or a write fails first. */
  function BodyOf(stream: seq<Read>): Option<bytes> {
    if stream == [] || stream[0] == Chunk([]) then Some([])
    else if !stream[0].Chunk? then None
    else Prepend(stream[0].data, BodyOf(stream[1..]))
  }

  function Prepend(a: bytes, rest: Option<bytes>): Option<bytes> {
    match rest
    case None => None
    case Some(b) => Some(a + b)
  }

  lemma PrependTwice(a: bytes, b: bytes, rest: Option<bytes>)
    ensures Prepend(a, Prepend(b, rest)) == Prepend(a + b, rest)
    ensures Prepend([], rest) == rest
  {
    if rest.Some? {
      assert a + (b + rest.value) == (a + b) + rest.value;
      assert [] + rest.value == rest.value;
    }
  }

  /** The first `n` reads bring bytes. */
  predicate AllBring(stream: seq<Read>, n: nat)
    requires n <= |stream|
  {
    forall i :: 0 <= i < n ==> stream[i].Chunk? && stream[i].data != []
  }

  function Chunks(stream: seq<Read>, n: nat): seq<bytes>
    requires n <= |stream| && AllBring(stream, n)
  {
    seq(n, i requires 0 <= i < n => stream[i].data)
  }

  /**
   * The body is what the reads bring up to the first that does not: joined in order if that one is the
   * end of the stream, lost if it is a failure.
   */
  lemma {:induction false} BodyIsJoined(stream: seq<Read>, n: nat)
    requires n <= |stream| && AllBring(stream, n)
    requires n < |stream| ==> !stream[n].Chunk? || stream[n].data == []
    ensures BodyOf(stream) == if n == |stream| || stream[n].Chunk? then Some(Flatten(Chunks(stream, n))) else None
  {
    if n > 0 {
      var rest := stream[1..];
      assert AllBring(rest, n - 1);
      BodyIsJoined(rest, n - 1);
      assert Chunks(stream, n) == [stream[0].data] + Chunks(rest, n - 1);
      FlattenFirst(stream[0].data, Chunks(rest, n - 1));
    }
  }

  datatype Streamed = Streamed(etag: string, size: nat, file: bytes)

  method StreamToTemp(md5: Digest, stream: seq<Read>, disk: Disk) returns (r: Result<Streamed, StorageError>)
    ensures r.Ok? <==> disk.creates && disk.flushes && BodyOf(stream).Some?
    ensures r.Ok? ==> var body := BodyOf(stream).value; r.value == Streamed(EtagOf(md5, body), |body|, body)
    ensures r.Err? ==> r.error == IoError
  {
    if !disk.creates {
      return Err(IoError);
    }
    var file: bytes := [];
    var hashed: bytes := [];
    var total := 0;
    var i := 0;
    assert stream[0..] == stream;
    PrependTwice([], [], BodyOf(stream));
    while i < |stream|
      invariant i <= |stream| && hashed == file && total == |file|
      invariant BodyOf(stream) == Prepend(file, BodyOf(stream[i..]))
    {
      assert stream[i..][1..] == stream[i + 1..];
      if !stream[i].Chunk? {
        return Err(IoError);
      }
      var chunk := stream[i].data;
      if |chunk| == 0 {
        break;
      }
      PrependTwice(file, chunk, BodyOf(stream[i + 1..]));
      total := total + |chunk|;
      hashed := hashed + chunk;
      file := file + chunk;
      i := i + 1;
    }
    assert BodyOf(stream) == Some(file) by { assert file + [] == file; }
    if !disk.flushes {
      return Err(IoError);
    }
    return Ok(Streamed(Quote(HexEncode(md5(hashed))), total, file));
  }

  predicate ValidKey(key: string) {
    Acceptable(key, '/', '\0', '.')
  }

  predicate ValidBucketName(name: string) {
    name != "" && name[0] != '.' && '/' !in name && '\0' !in name
  }
}
