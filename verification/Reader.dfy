/** Reading from the connection: the bytes come in pieces of any size. */
module Reader {
  import opened Bytes

  class Conn {
    /** What the coming reads find, piece by piece. */
    var chunks: seq<bytes>

    constructor (chunks: seq<bytes>)
      ensures this.chunks == chunks
    {
      this.chunks := chunks;
    }

    ghost function Pending(): bytes
      reads this
    {
      Flatten(chunks)
    }

    /** One read: some of the next piece. At the end of the stream it fails. */
    method Read(max: nat) returns (b: bytes, ok: bool)
      modifies this
      ensures |b| <= max && old(Pending()) == b + Pending()
      ensures ok <==> old(chunks) != []
      ensures !ok ==> old(Pending()) == []
      ensures ok && max > 0 ==>
                |chunks| < |old(chunks)| || (chunks != [] && |chunks| == |old(chunks)| && |chunks[0]| < |old(chunks[0])|)
    {
      if chunks == [] {
        return [], false;
      }
      ghost var was := chunks;
      if |chunks[0]| <= max {
        b := chunks[0];
        chunks := chunks[1..];
      } else {
        b := chunks[0][..max];
        chunks := [chunks[0][max..]] + chunks[1..];
        assert was[0] == b + chunks[0] && chunks[1..] == was[1..];
      }
      return b, true;
    }

    /** `io.ReadFull`: exactly `n` bytes, or failure at the end of the stream. */
    method ReadFull(n: nat) returns (b: bytes, ok: bool)
      modifies this
      ensures ok <==> n <= |old(Pending())|
      ensures old(Pending()) == b + Pending()
      ensures ok ==> |b| == n
    {
      b := [];
      while |b| < n
        invariant |b| <= n && old(Pending()) == b + Pending()
        decreases |chunks|, if chunks == [] then 0 else |chunks[0]|
      {
        var more, read := Read(n - |b|);
        if !read {
          return b, false;
        }
        b := b + more;
      }
      return b, true;
    }
  }
}
