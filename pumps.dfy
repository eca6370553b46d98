/**
 * The two byte pumps of `handle_cgi_req` and the request handling around them.
 *
 * Each pump reads from a source that answers every read with a chunk of
 * bytes, possibly empty. The model takes the answers as a finite script of
 * read results, consumed in order. The source code waits (sleeping between
 * polls) for as long as its exit condition does not hold; when the script
 * runs out first, the model stops and reports `Waiting`.
 */
module Pumps {
  import opened Wrappers

  type Byte = b: int | 0 <= b < 256
  type Bytes = seq<Byte>

  /** All chunks joined in order. */
  function Concat(chunks: seq<Bytes>): Bytes {
    if chunks == [] then [] else Concat(chunks[..|chunks| - 1]) + chunks[|chunks| - 1]
  }

  /** The non-empty chunks, in order. */
  function NonEmpty(chunks: seq<Bytes>): seq<Bytes> {
    if chunks == [] then []
    else
      var last := chunks[|chunks| - 1];
      NonEmpty(chunks[..|chunks| - 1]) + (if last == [] then [] else [last])
  }

  lemma ConcatSnoc(chunks: seq<Bytes>, c: Bytes)
    ensures Concat(chunks + [c]) == Concat(chunks) + c
  {
    assert (chunks + [c])[..|chunks|] == chunks;
  }

  lemma NonEmptySnoc(chunks: seq<Bytes>, c: Bytes)
    ensures NonEmpty(chunks + [c]) == NonEmpty(chunks) + (if c == [] then [] else [c])
  {
    assert (chunks + [c])[..|chunks|] == chunks;
  }

  /** Dropping the empty chunks loses no byte and reorders nothing. */
  lemma {:induction false} ConcatNonEmpty(chunks: seq<Bytes>)
    ensures Concat(NonEmpty(chunks)) == Concat(chunks)
  {
    if chunks != [] {
      var init, last := chunks[..|chunks| - 1], chunks[|chunks| - 1];
      ConcatNonEmpty(init);
      if last == [] {
        assert NonEmpty(chunks) == NonEmpty(init);
      } else {
        ConcatSnoc(NonEmpty(init), last);
      }
    }
  }

  /** The bytes of the first `k` chunks are a prefix of the bytes of all of them. */
  lemma {:induction false} ConcatPrefix(chunks: seq<Bytes>, k: nat)
    requires k <= |chunks|
    ensures Concat(chunks[..k]) <= Concat(chunks)
    decreases |chunks| - k
  {
    if k < |chunks| {
      ConcatPrefix(chunks, k + 1);
      assert chunks[..k + 1] == chunks[..k] + [chunks[k]];
      ConcatSnoc(chunks[..k], chunks[k]);
    } else {
      assert chunks[..k] == chunks;
    }
  }

  /** How a pump stopped: its exit condition held, or the read script ran out first. */
  datatype PumpEnd = Done | Waiting

  // ---------------------------------------------------------------------
  // Inbound: request body -> the script's stdin
  // ---------------------------------------------------------------------

  /**
   * The script's stdin pipe: the chunks the script can read, in order, and
   * whether the writing end has been closed. A write on a closing pipe is
   * dropped without an error.
   */
  class StdinPipe {
    var received: seq<Bytes>
    var closed: bool

    constructor Open()
      ensures received == [] && !closed
    {
      received, closed := [], false;
    }

    /** `stdin.write(chunk)` and `await stdin.drain()`: delivered while open, dropped once closed. */
    method Write(chunk: Bytes)
      modifies this
      ensures received == if old(closed) || chunk == [] then old(received) else old(received) + [chunk]
      ensures closed == old(closed)
    {
      if !closed && chunk != [] {
        received := received + [chunk];
      }
    }

    /** `stdin.close()` */
    method Close()
      modifies this
      ensures received == old(received) && closed
    {
      closed := true;
    }

    /** `Process._feed_stdin(chunk)`: write the chunk, drain, then close stdin. */
    method FeedStdin(chunk: Bytes)
      modifies this
      ensures received == if old(closed) || chunk == [] then old(received) else old(received) + [chunk]
      ensures closed
    {
      Write(chunk);
      Close();
    }
  }

  /** The first of a list of chunks, as a list of at most one. */
  function FirstChunk(chunks: seq<Bytes>): (first: seq<Bytes>)
    ensures |first| == if chunks == [] then 0 else 1
    ensures first != [] ==> first[0] == chunks[0]
  {
    if chunks == [] then [] else [chunks[0]]
  }

  /**
   * What a pipe holding `received` (closed or not) holds after `_feed_stdin`
   * was called with each of `feeds` in turn: the first non-empty one is
   * delivered and closes the pipe.
   */
  function AfterFeeds(received: seq<Bytes>, closed: bool, feeds: seq<Bytes>): seq<Bytes> {
    received + (if closed then [] else FirstChunk(feeds))
  }

  lemma AfterFeedsSnoc(received: seq<Bytes>, closed: bool, feeds: seq<Bytes>, chunk: Bytes)
    requires chunk != []
    ensures AfterFeeds(received, closed, feeds + [chunk]) ==
      if closed || feeds != [] then AfterFeeds(received, closed, feeds) else AfterFeeds(received, closed, feeds) + [chunk]
  {
    if feeds != [] {
      assert (feeds + [chunk])[0] == feeds[0];
    }
  }

  /**
   * The inbound pump's bookkeeping after consuming the first `used` read
   * results: the non-empty ones were handed on in order (`feeds`), their bytes
   * counted, and every one was read while fewer than `contentLength` bytes had
   * arrived.
   */
  ghost predicate ReadSoFar(results: seq<Bytes>, contentLength: int, feeds: seq<Bytes>, readBytes: int, used: nat)
  {
    && used <= |results|
    && feeds == NonEmpty(results[..used])
    && readBytes == |Concat(results[..used])|
    && (forall j :: 0 <= j < used ==> |Concat(results[..j])| < contentLength)
  }

  /** Reading one more result while short of `contentLength` bytes keeps the bookkeeping. */
  lemma ReadStep(results: seq<Bytes>, contentLength: int, feeds: seq<Bytes>, readBytes: int, used: nat)
    requires ReadSoFar(results, contentLength, feeds, readBytes, used)
    requires used < |results| && readBytes < contentLength
    ensures var chunk := results[used];
      ReadSoFar(results, contentLength, if chunk == [] then feeds else feeds + [chunk], readBytes + |chunk|, used + 1)
  {
    var chunk := results[used];
    assert results[..used + 1] == results[..used] + [chunk];
    ConcatSnoc(results[..used], chunk);
    NonEmptySnoc(results[..used], chunk);
  }

  /** What was handed on is, byte for byte, what was read, and a prefix of the whole body. */
  lemma ReadSoFarPrefix(results: seq<Bytes>, contentLength: int, feeds: seq<Bytes>, readBytes: int, used: nat)
    requires ReadSoFar(results, contentLength, feeds, readBytes, used)
    ensures Concat(feeds) == Concat(results[..used]) && Concat(feeds) <= Concat(results)
  {
    ConcatNonEmpty(results[..used]);
    ConcatPrefix(results, used);
  }

  /**
   * What the inbound pump does with `results` and the declared `contentLength`:
   * it consumed the first `used` results, handed the non-empty ones on in order
   * (`feeds`) and counted their bytes; it kept reading while fewer than
   * `contentLength` bytes had arrived and stopped as soon as that many had.
   */
  ghost predicate InboundPumped(results: seq<Bytes>, contentLength: int,
                                feeds: seq<Bytes>, readBytes: int, used: nat, end: PumpEnd)
  {
    && ReadSoFar(results, contentLength, feeds, readBytes, used)
    && (end == Done <==> readBytes >= contentLength)
    && (end == Waiting ==> used == |results|)
  }

  /**
   * The `while read_bytes < content_length` loop as written: every non-empty
   * chunk read from the request body is counted and passed to `_feed_stdin`
   * (`feeds`). The first call closes stdin, so the script receives the first
   * non-empty chunk and nothing after it. An empty read changes nothing (the
   * source sleeps and polls again).
   */
  method PumpRequestBody(results: seq<Bytes>, contentLength: int, stdin: StdinPipe)
    returns (feeds: seq<Bytes>, readBytes: int, used: nat, end: PumpEnd)
    modifies stdin
    ensures InboundPumped(results, contentLength, feeds, readBytes, used, end)
    ensures Concat(feeds) == Concat(results[..used]) && Concat(feeds) <= Concat(results)
    ensures stdin.received == AfterFeeds(old(stdin.received), old(stdin.closed), feeds)
    ensures stdin.closed == (old(stdin.closed) || feeds != [])
  {
    ghost var received0, closed0 := stdin.received, stdin.closed;
    feeds, readBytes, used := [], 0, 0;
    while readBytes < contentLength
      invariant ReadSoFar(results, contentLength, feeds, readBytes, used)
      invariant stdin.received == AfterFeeds(received0, closed0, feeds)
      invariant stdin.closed == (closed0 || feeds != [])
      decreases |results| - used
    {
      if used == |results| {
        end := Waiting;
        ReadSoFarPrefix(results, contentLength, feeds, readBytes, used);
        return;
      }
      var chunk := results[used];
      ReadStep(results, contentLength, feeds, readBytes, used);
      used := used + 1;
      if chunk == [] {
        continue;
      }
      readBytes := readBytes + |chunk|;
      AfterFeedsSnoc(received0, closed0, feeds, chunk);
      stdin.FeedStdin(chunk);
      feeds := feeds + [chunk];
    }
    end := Done;
    ReadSoFarPrefix(results, contentLength, feeds, readBytes, used);
  }

  /**
   * The loop as evidently intended: each non-empty chunk is written to stdin
   * and drained, and stdin stays open for the next one.
   */
  method PumpRequestBodyIntended(results: seq<Bytes>, contentLength: int, stdin: StdinPipe)
    returns (feeds: seq<Bytes>, readBytes: int, used: nat, end: PumpEnd)
    modifies stdin
    ensures InboundPumped(results, contentLength, feeds, readBytes, used, end)
    ensures stdin.received == old(stdin.received) + (if old(stdin.closed) then [] else feeds)
    ensures stdin.closed == old(stdin.closed)
  {
    ghost var received0, closed0 := stdin.received, stdin.closed;
    feeds, readBytes, used := [], 0, 0;
    while readBytes < contentLength
      invariant ReadSoFar(results, contentLength, feeds, readBytes, used)
      invariant stdin.received == received0 + (if closed0 then [] else feeds)
      invariant stdin.closed == closed0
      decreases |results| - used
    {
      if used == |results| {
        end := Waiting;
        return;
      }
      var chunk := results[used];
      ReadStep(results, contentLength, feeds, readBytes, used);
      used := used + 1;
      if chunk == [] {
        continue;
      }
      readBytes := readBytes + |chunk|;
      stdin.Write(chunk);
      feeds := feeds + [chunk];
    }
    end := Done;
  }

  /**
   * A body that arrives in any chunking, with any empty reads in between, and
   * whose bytes number exactly the declared length, is read whole and in
   * order, and the pump finishes: every byte is handed on. With the intended
   * write-and-drain pump, an open stdin therefore receives the whole body.
   */
  lemma {:induction false} InboundForwardsWholeBody(results: seq<Bytes>, feeds: seq<Bytes>, readBytes: int, used: nat, end: PumpEnd)
    requires InboundPumped(results, |Concat(results)|, feeds, readBytes, used, end)
    ensures end == Done
    ensures Concat(feeds) == Concat(results)
  {
    ConcatNonEmpty(results[..used]);
    ConcatPrefix(results, used);
    if used == |results| {
      assert results[..used] == results;
    }
    var p, whole := Concat(results[..used]), Concat(results);
    assert p == whole[..|p|];
  }

  /** A body of 300 bytes read as 256 bytes and then 44. */
  function TwoReadBody(): (results: seq<Bytes>)
    ensures |results| == 2 && |results[0]| == 256 && |results[1]| == 44
  {
    [seq(256, _ => 0), seq(44, _ => 1)]
  }

  /**
   * As written, that body is read whole and both chunks go to `_feed_stdin`,
   * but the script's stdin, closed by the first call, receives only the
   * first 256 bytes of the 300.
   */
  lemma TwoReadBodyTruncated(feeds: seq<Bytes>, readBytes: int, used: nat, end: PumpEnd)
    requires InboundPumped(TwoReadBody(), 300, feeds, readBytes, used, end)
    ensures end == Done && feeds == TwoReadBody()
    ensures Concat(FirstChunk(feeds)) == TwoReadBody()[0]
    ensures |Concat(FirstChunk(feeds))| == 256 < 300 == |Concat(TwoReadBody())|
  {
    var results := TwoReadBody();
    var a, b := results[0], results[1];
    assert results[..0] == [] && results[..1] == [a] && results[..2] == results;
    var single: seq<Bytes> := [a];
    assert single[..0] == [];
    assert Concat([a]) == a;
    assert Concat(results) == a + b;
    assert NonEmpty([a]) == [a];
    assert NonEmpty(results) == [a, b];
    InboundForwardsWholeBody(results, feeds, readBytes, used, end);
    assert feeds == [a, b];
    assert FirstChunk(feeds) == [a];
  }

  /** The pump never reads past the first point where the declared length is reached. */
  lemma InboundStopsAtFirstSufficientPrefix(results: seq<Bytes>, contentLength: int,
                                            feeds: seq<Bytes>, readBytes: int, used: nat, end: PumpEnd)
    requires InboundPumped(results, contentLength, feeds, readBytes, used, end)
    requires end == Done
    ensures |Concat(results[..used])| >= contentLength
    ensures forall k :: 0 <= k < used ==> |Concat(results[..k])| < contentLength
  {
  }

  // ---------------------------------------------------------------------
  // Outbound: the script's stdout -> the response body
  // ---------------------------------------------------------------------

  /** One read of the script's stdout and the process's `returncode` as the source then checks it. */
  datatype StdoutRead = StdoutRead(chunk: Bytes, returncode: Option<int>)

  /** The read that ends the outbound pump: nothing read, and the process has exited. */
  predicate IsExitSignal(r: StdoutRead) {
    r.chunk == [] && r.returncode.Some?
  }

  function Chunks(results: seq<StdoutRead>): (chunks: seq<Bytes>)
    ensures |chunks| == |results|
    ensures forall i :: 0 <= i < |results| ==> chunks[i] == results[i].chunk
  {
    seq(|results|, i requires 0 <= i < |results| => results[i].chunk)
  }

  /**
   * What the outbound pump does with `results`: it consumed the first `used`
   * reads and wrote the non-empty chunks among them to the response in order;
   * it stopped at the first exit signal, or ran out of reads without meeting one.
   */
  ghost predicate OutboundPumped(results: seq<StdoutRead>, written: seq<Bytes>, used: nat, end: PumpEnd)
  {
    && used <= |results|
    && written == NonEmpty(Chunks(results[..used]))
    && (end == Done <==> used > 0 && IsExitSignal(results[used - 1]))
    && (forall j :: 0 <= j < used - 1 ==> !IsExitSignal(results[j]))
    && (end == Waiting ==> used == |results| && forall j :: 0 <= j < |results| ==> !IsExitSignal(results[j]))
  }

  /**
   * The `while True` loop: every non-empty chunk read from stdout is written
   * to the response; an empty read ends the loop once the process has an exit
   * code and is retried (after a sleep) while it has none.
   */
  method PumpResponseBody(results: seq<StdoutRead>) returns (written: seq<Bytes>, used: nat, end: PumpEnd)
    ensures OutboundPumped(results, written, used, end)
    ensures Concat(written) == Concat(Chunks(results[..used]))
  {
    written, used := [], 0;
    while true
      invariant used <= |results|
      invariant written == NonEmpty(Chunks(results[..used]))
      invariant forall j :: 0 <= j < used ==> !IsExitSignal(results[j])
      decreases |results| - used
    {
      if used == |results| {
        end := Waiting;
        ConcatNonEmpty(Chunks(results[..used]));
        return;
      }
      var r := results[used];
      assert Chunks(results[..used + 1]) == Chunks(results[..used]) + [r.chunk];
      NonEmptySnoc(Chunks(results[..used]), r.chunk);
      used := used + 1;
      if r.chunk == [] {
        if r.returncode == None {
          continue;
        } else {
          break;
        }
      }
      written := written + [r.chunk];
    }
    end := Done;
    ConcatNonEmpty(Chunks(results[..used]));
  }

  /**
   * When the script's output arrives in any chunking, with empty reads while it
   * runs, and the first empty read after its exit comes last, the response
   * body is its whole output in order and the pump finishes.
   */
  lemma OutboundDeliversWholeOutput(results: seq<StdoutRead>, written: seq<Bytes>, used: nat, end: PumpEnd)
    requires OutboundPumped(results, written, used, end)
    requires |results| > 0 && IsExitSignal(results[|results| - 1])
    requires forall j :: 0 <= j < |results| - 1 ==> !IsExitSignal(results[j])
    ensures end == Done && used == |results|
    ensures Concat(written) == Concat(Chunks(results))
  {
    assert results[..used] == results;
    ConcatNonEmpty(Chunks(results));
  }

  /** The pump finishes only after the process has exited and a read found nothing more. */
  lemma OutboundEndsOnlyAfterExit(results: seq<StdoutRead>, written: seq<Bytes>, used: nat, end: PumpEnd)
    requires OutboundPumped(results, written, used, end)
    requires end == Done
    ensures results[used - 1].returncode.Some? && results[used - 1].chunk == []
  {
  }
}
