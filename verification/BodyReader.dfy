/** The transport's body loop: decoded chunks are kept up to a ceiling and no further. */
module BodyReader {

  type Byte = b: int | 0 <= b < 256

  /** `Broken`: the stream failed before the ceiling was passed, so the request failed. */
  datatype Read = Kept(body: seq<Byte>, decodedBytes: nat, truncated: bool) | Broken

  function Joined(chunks: seq<seq<Byte>>): seq<Byte> {
    if chunks == [] then [] else chunks[0] + Joined(chunks[1..])
  }

  /** What is kept of a whole stream, with no mention of chunks: the first bytes of it up to the
      ceiling, truncated exactly when there were more; a failure that comes later is not seen. */
  function BodyOf(stream: seq<Byte>, fails: bool, most: nat): Read {
    if |stream| > most then Kept(stream[..most], most, true)
    else if fails then Broken
    else Kept(stream, |stream|, false)
  }

  lemma {:induction false} JoinedAppend(a: seq<seq<Byte>>, b: seq<seq<Byte>>)
    ensures Joined(a + b) == Joined(a) + Joined(b)
  {
    if a == [] {
      assert a + b == b;
    } else {
      assert (a + b)[1..] == a[1..] + b;
      JoinedAppend(a[1..], b);
    }
  }

  /** However the stream is cut into chunks, empty ones included, what is kept is the same. */
  method ReadBody(arriving: seq<seq<Byte>>, fails: bool, maxDecodedBytes: nat) returns (read: Read)
    ensures read == BodyOf(Joined(arriving), fails, maxDecodedBytes)
  {
    var chunks: seq<seq<Byte>> := [];
    var decodedBytes, truncated, next := 0, false, 0;
    while next < |arriving|
      invariant 0 <= next <= |arriving|
      invariant Joined(chunks) == Joined(arriving[..next])
      invariant decodedBytes == |Joined(chunks)| <= maxDecodedBytes
      invariant !truncated
    {
      var buffer := arriving[next];
      var remaining := maxDecodedBytes - decodedBytes;
      assert arriving == arriving[..next] + [buffer] + arriving[next + 1..];
      JoinedAppend(arriving[..next] + [buffer], arriving[next + 1..]);
      JoinedAppend(arriving[..next], [buffer]);
      assert Joined([buffer]) == buffer;
      if |buffer| > remaining {
        JoinedAppend(chunks, [buffer[..remaining]]);
        assert Joined([buffer[..remaining]]) == buffer[..remaining];
        if remaining > 0 { chunks := chunks + [buffer[..remaining]]; }
        decodedBytes := decodedBytes + remaining;
        truncated := true;
        break;
      }
      JoinedAppend(chunks, [buffer]);
      assert arriving[..next + 1] == arriving[..next] + [buffer];
      chunks := chunks + [buffer];
      decodedBytes := decodedBytes + |buffer|;
      next := next + 1;
    }
    assert !truncated ==> arriving[..next] == arriving;
    if !truncated && fails {
      return Broken;
    }
    read := Kept(Joined(chunks), decodedBytes, truncated);
  }
}
