/**
 The WebSocket handshake of the screen proxy: the response head is buffered until the end of
 the header section (CRLF CRLF, section 2.1 of RFC 9112) has arrived, searching each chunk
 together with the last three bytes before it.
 */
module Handshake {
  import opened Common

  type byte = b: int | 0 <= b < 256

  const BOUNDARY: seq<byte> := [13, 10, 13, 10]
  const LIMIT := 64 * 1024

  predicate OccursAt(data: seq<byte>, i: nat) {
    i + 4 <= |data| && data[i..i + 4] == BOUNDARY
  }

  predicate Contains(data: seq<byte>) {
    exists i :: 0 <= i <= |data| && OccursAt(data, i)
  }

  // subarray(-3)
  function Tail(data: seq<byte>): seq<byte> {
    if |data| <= 3 then data else data[|data| - 3..]
  }

  function Flat(chunks: seq<seq<byte>>): seq<byte> {
    if chunks == [] then [] else Flat(chunks[..|chunks| - 1]) + chunks[|chunks| - 1]
  }

  // Released carries the bytes handed to the header filter.
  datatype Verdict = Buffering | Released(head: seq<byte>) | Destroyed

  /** What one look at the whole stream would say after these chunks; `safe` is whether the header filter accepts. */
  function Whole(chunks: seq<seq<byte>>, safe: seq<byte> -> bool): Verdict {
    if chunks == [] then Buffering
    else
      var earlier := Whole(chunks[..|chunks| - 1], safe);
      var all := Flat(chunks);
      if !earlier.Buffering? then earlier
      else if |all| > LIMIT then Destroyed
      else if Contains(all) then if safe(all) then Released(all) else Destroyed
      else Buffering
  }

  // A boundary in seen + chunk that is not in seen lies within the last three bytes of seen and the chunk.
  lemma {:induction false} TailSuffices(seen: seq<byte>, tail: seq<byte>, chunk: seq<byte>)
    requires !Contains(seen) && tail == Tail(seen)
    ensures Contains(seen + chunk) <==> Contains(tail + chunk)
    ensures Tail(seen + chunk) == Tail(tail + chunk)
  {
    var all, window := seen + chunk, tail + chunk;
    var skip := |seen| - |tail|;
    assert all[skip..] == window;
    if Contains(all) {
      var i :| 0 <= i <= |all| && OccursAt(all, i);
      if i + 4 <= |seen| {
        assert seen[i..i + 4] == all[i..i + 4];
        assert OccursAt(seen, i);
      }
      assert window[i - skip..i - skip + 4] == all[i..i + 4];
      assert OccursAt(window, i - skip);
    }
    if Contains(window) {
      var i :| 0 <= i <= |window| && OccursAt(window, i);
      assert all[skip + i..skip + i + 4] == window[i..i + 4];
      assert OccursAt(all, skip + i);
    }
  }

  class Forwarder {
    var responseChunks: seq<seq<byte>>
    var responseSize: nat
    var responseTail: seq<byte>
    var verdict: Verdict
    ghost var received: seq<seq<byte>>
    ghost const safe: seq<byte> -> bool

    // received is every chunk seen so far; the buffers agree with it while buffering.
    ghost predicate Valid()
      reads this
    {
      && verdict == Whole(received, safe)
      && (verdict.Buffering? ==>
            && responseChunks == received
            && responseSize == |Flat(received)|
            && responseTail == Tail(Flat(received))
            && !Contains(Flat(received)))
    }

    constructor (ghost safe: seq<byte> -> bool)
      ensures Valid() && received == [] && this.safe == safe
    {
      responseChunks, responseSize, responseTail, verdict := [], 0, [], Buffering;
      received := [];
      this.safe := safe;
    }

    /** forwardHandshake; `accepted` is stripSensitiveHandshakeHeaders on the buffered head. */
    method ForwardHandshake(chunk: seq<byte>, accepted: bool)
      requires Valid() && accepted == safe(Flat(received + [chunk]))
      modifies this
      ensures Valid() && received == old(received) + [chunk]
      ensures verdict == Whole(received, safe)
    {
      received := received + [chunk];
      assert received[..|received| - 1] == old(received);
      if !verdict.Buffering? {
        // the listener is off, or both sockets are destroyed
        return;
      }
      TailSuffices(Flat(old(received)), responseTail, chunk);
      responseChunks := responseChunks + [chunk];
      responseSize := responseSize + |chunk|;
      if responseSize > LIMIT {
        verdict := Destroyed;
        return;
      }
      var boundarySearch := responseTail + chunk;
      if !Contains(boundarySearch) {
        responseTail := Tail(boundarySearch);
        return;
      }
      var responseHead := Flat(responseChunks);
      verdict := if accepted then Released(responseHead) else Destroyed;
    }
  }

  lemma {:induction false} ContainsGrows(chunks: seq<seq<byte>>, n: nat, k: nat)
    requires n <= k <= |chunks| && Contains(Flat(chunks[..n]))
    ensures Contains(Flat(chunks[..k]))
  {
    if n < k {
      ContainsGrows(chunks, n, k - 1);
      assert chunks[..k][..k - 1] == chunks[..k - 1];
      var before := Flat(chunks[..k - 1]);
      var i :| 0 <= i <= |before| && OccursAt(before, i);
      assert Flat(chunks[..k])[i..i + 4] == before[i..i + 4];
      assert OccursAt(Flat(chunks[..k]), i);
    }
  }

  /**
   The head is released exactly at the first chunk by which the boundary has arrived, with all
   bytes up to and including that chunk, and only within the limit and if the filter accepts.
   */
  lemma {:induction false} ReleasedAtFirstBoundary(chunks: seq<seq<byte>>, safe: seq<byte> -> bool, n: nat)
    requires 0 < n <= |chunks| && Contains(Flat(chunks[..n])) && !Contains(Flat(chunks[..n - 1]))
    ensures Whole(chunks, safe) ==
            if |Flat(chunks[..n])| <= LIMIT && safe(Flat(chunks[..n])) then Released(Flat(chunks[..n])) else Destroyed
  {
    if |chunks| == n {
      assert chunks[..n] == chunks;
      WithoutBoundary(chunks[..n - 1], safe);
      if |Flat(chunks[..n - 1])| > LIMIT {
        assert chunks[..n][..n - 1] == chunks[..n - 1];
      }
    } else {
      var front := chunks[..|chunks| - 1];
      assert front[..n] == chunks[..n] && front[..n - 1] == chunks[..n - 1];
      ReleasedAtFirstBoundary(front, safe, n);
    }
  }

  /** Without the boundary the proxy buffers up to the limit and destroys both sockets beyond it. */
  lemma {:induction false} WithoutBoundary(chunks: seq<seq<byte>>, safe: seq<byte> -> bool)
    requires !Contains(Flat(chunks))
    ensures Whole(chunks, safe) == if |Flat(chunks)| <= LIMIT then Buffering else Destroyed
  {
    if chunks != [] {
      var front := chunks[..|chunks| - 1];
      if Contains(Flat(front)) {
        assert chunks[..|chunks|] == chunks;
        ContainsGrows(chunks, |chunks| - 1, |chunks|);
      }
      WithoutBoundary(front, safe);
    }
  }
}
