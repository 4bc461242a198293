/** Updater.download_zip (lib/updater/updater.py): copy the body of the
    HTTP response to the output file in chunks of at most BufSize bytes,
    until a read returns nothing. The response and the file are objects
    whose state each read and write changes; opening them, the URL, the
    headers and the save path are not modelled. */
module ZipDownload {

  /** 2 * 16 * 16 * 1024 bytes, the most one read asks for. */
  const BufSize: nat := 2 * 16 * 16 * 1024

  /** The chunks written, joined in order. */
  function Flatten(chunks: seq<seq<bv8>>): seq<bv8> {
    if chunks == [] then [] else Flatten(chunks[..|chunks| - 1]) + chunks[|chunks| - 1]
  }

  /** Every chunk is a successful read: not empty, and no larger than asked. */
  predicate ChunksFit(chunks: seq<seq<bv8>>) {
    forall k :: 0 <= k < |chunks| ==> 1 <= |chunks[k]| <= BufSize
  }

  /** A download of n bytes takes at least n / BufSize reads (rounded up),
      and one read per byte at worst. */
  lemma {:induction false} ReadsNeeded(chunks: seq<seq<bv8>>)
    requires ChunksFit(chunks)
    ensures |chunks| <= |Flatten(chunks)| <= |chunks| * BufSize
    decreases |chunks|
  {
    if chunks != [] {
      var init := chunks[..|chunks| - 1];
      assert ChunksFit(init) by {
        forall k | 0 <= k < |init|
          ensures 1 <= |init[k]| <= BufSize
        {
          assert init[k] == chunks[k];
        }
      }
      ReadsNeeded(init);
    }
  }

  /** The response body still to be read. */
  class HttpBody {
    var remaining: seq<bv8>

    constructor (body: seq<bv8>)
      ensures remaining == body
    {
      remaining := body;
    }

    /** resp.read(n): up to n bytes from the front of the body, possibly
        fewer, and nothing only at the end of the body or when n is 0. */
    method Read(n: nat) returns (chunk: seq<bv8>)
      modifies this
      ensures n == 0 || old(remaining) == [] ==> chunk == []
      ensures n > 0 && old(remaining) != [] ==> 1 <= |chunk| <= n
      ensures old(remaining) == chunk + remaining
    {
      if n == 0 || remaining == [] {
        return [];
      }
      var k :| 1 <= k <= n && k <= |remaining|;
      chunk := remaining[..k];
      remaining := remaining[k..];
    }
  }

  /** The file opened with 'wb'. */
  class OutFile {
    var data: seq<bv8>

    constructor ()
      ensures data == []
    {
      data := [];
    }

    method Write(chunk: seq<bv8>)
      modifies this
      ensures data == old(data) + chunk
    {
      data := data + chunk;
    }
  }

  /** The copy loop: afterwards the file holds exactly the whole body, and the
      body was consumed in non-empty reads of at most BufSize bytes each. */
  method DownloadZip(resp: HttpBody, outFile: OutFile) returns (ghost chunks: seq<seq<bv8>>)
    modifies resp, outFile
    ensures outFile.data == old(outFile.data) + old(resp.remaining)
    ensures resp.remaining == []
    ensures Flatten(chunks) == old(resp.remaining) && ChunksFit(chunks)
  {
    chunks := [];
    while true
      invariant outFile.data == old(outFile.data) + Flatten(chunks)
      invariant Flatten(chunks) + resp.remaining == old(resp.remaining)
      invariant ChunksFit(chunks)
      decreases |resp.remaining|
    {
      var chunk := resp.Read(BufSize);
      if chunk == [] {
        break;
      }
      outFile.Write(chunk);
      chunks := chunks + [chunk];
    }
  }
}
