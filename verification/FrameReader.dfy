/** The newline-delimited frame reader of the daemon socket (`_read_json_frame`). */
module FrameReader {

  newtype Byte = b: int | 0 <= b < 256

  const NEWLINE: Byte := 10

  datatype Frame = Frame(bytes: seq<Byte>) | TooLarge | DeadlineExceeded | ReceiveFailed

  // ----- What a frame is, on the whole byte stream -----

  /** The bytes before the first newline, or all of them. */
  function BeforeNewline(stream: seq<Byte>): (head: seq<Byte>) {
    if stream == [] || stream[0] == NEWLINE then [] else [stream[0]] + BeforeNewline(stream[1..])
  }

  /** That is the longest part of the stream from its start that has no newline. */
  lemma {:induction false} HeadIsLongest(stream: seq<Byte>)
    ensures var head := BeforeNewline(stream);
            head <= stream && NEWLINE !in head && (head == stream || (|head| < |stream| && stream[|head|] == NEWLINE))
  {
    if stream != [] && stream[0] != NEWLINE { HeadIsLongest(stream[1..]); }
  }

  function FrameOf(stream: seq<Byte>, limit: nat): Frame {
    if |BeforeNewline(stream)| > limit then TooLarge else Frame(BeforeNewline(stream))
  }

  function Joined(chunks: seq<seq<Byte>>): seq<Byte> {
    if chunks == [] then [] else Joined(chunks[..|chunks| - 1]) + chunks[|chunks| - 1]
  }

  lemma {:induction false} JoinedPrefix(chunks: seq<seq<Byte>>, n: nat)
    requires n <= |chunks|
    ensures Joined(chunks[..n]) <= Joined(chunks)
    decreases |chunks| - n
  {
    if n == |chunks| { assert chunks[..n] == chunks; }
    else {
      JoinedPrefix(chunks, n + 1);
      assert chunks[..n + 1][..n] == chunks[..n];
    }
  }

  lemma {:induction false} NewlineStops(head: seq<Byte>, rest: seq<Byte>)
    requires NEWLINE !in head
    ensures BeforeNewline(head + rest) == head + BeforeNewline(rest)
    decreases |head|
  {
    if head == [] { assert head + rest == rest; }
    else {
      NewlineStops(head[1..], rest);
      assert (head + rest)[1..] == head[1..] + rest;
      assert head + BeforeNewline(rest) == [head[0]] + (head[1..] + BeforeNewline(rest));
    }
  }

  lemma {:induction false} NoNewline(stream: seq<Byte>)
    requires NEWLINE !in stream
    ensures BeforeNewline(stream) == stream
  {
    if stream != [] { NoNewline(stream[1..]); }
  }

  /** These bytes settle the frame, whatever follows them. */
  predicate Decided(read: seq<Byte>, limit: nat) {
    NEWLINE in read || |read| > limit
  }

  lemma {:induction false} DecidedForGood(read: seq<Byte>, rest: seq<Byte>, limit: nat)
    requires Decided(read, limit)
    ensures Decided(read + rest, limit) && FrameOf(read + rest, limit) == FrameOf(read, limit)
  {
    if NEWLINE in read {
      HeadOfChunk([], read, rest);
      assert [] + (read + rest) == read + rest && [] + BeforeNewline(read) == BeforeNewline(read);
    } else {
      NewlineStops(read, rest);
      NoNewline(read);
    }
  }

  lemma {:induction false} HeadOfChunk(collected: seq<Byte>, chunk: seq<Byte>, rest: seq<Byte>)
    requires NEWLINE !in collected && NEWLINE in chunk
    ensures BeforeNewline(collected + (chunk + rest)) == collected + BeforeNewline(chunk)
  {
    NewlineStops(collected, chunk + rest);
    var head := BeforeNewline(chunk);
    HeadIsLongest(chunk);
    assert chunk + rest == head + (chunk[|head|..] + rest);
    NewlineStops(head, chunk[|head|..] + rest);
  }

  // ----- The reader -----

  /** What is delivered before the deadline: `patience` receives start before it. */
  function InTime(chunks: seq<seq<Byte>>, patience: nat): seq<Byte> {
    Joined(if patience < |chunks| then chunks[..patience] else chunks)
  }

  /** What reading comes to. It depends on the bytes delivered, not on how they were split: bytes that
      settle the frame in time do so; otherwise the deadline, the end of the stream or a failed receive,
      whichever is first. */
  function ReadOutcome(chunks: seq<seq<Byte>>, ends: bool, limit: nat, patience: nat): Frame {
    if Decided(InTime(chunks, patience), limit) then FrameOf(Joined(chunks), limit)
    else if patience <= |chunks| then DeadlineExceeded
    else if ends then FrameOf(Joined(chunks), limit)
    else ReceiveFailed
  }

  /** A newline among the bytes `got`, with at most `limit` bytes before it. */
  predicate HasFrame(got: seq<Byte>, limit: nat) {
    exists i :: 0 <= i < |got| && i <= limit && got[i] == NEWLINE
  }

  /** More than `limit` bytes, and no newline within the first ones. */
  predicate HasTooMuch(got: seq<Byte>, limit: nat) {
    |got| > limit && forall i :: 0 <= i <= limit ==> got[i] != NEWLINE
  }

  /** What a reader must return who was delivered the bytes `got` in time: the four results, each exactly when
      it is due, and a frame's bytes. `late` says that the deadline came before the end of the stream was
      seen, `ends` that the stream ended instead of failing. */
  predicate IsDue(frame: Frame, got: seq<Byte>, late: bool, ends: bool, limit: nat) {
    && (frame.TooLarge? <==> HasTooMuch(got, limit))
    && (frame.DeadlineExceeded? <==> |got| <= limit && NEWLINE !in got && late)
    && (frame.ReceiveFailed? <==> |got| <= limit && NEWLINE !in got && !late && !ends)
    && (frame.Frame? <==> HasFrame(got, limit) || (|got| <= limit && NEWLINE !in got && !late && ends))
    && (frame.Frame? ==> NEWLINE !in frame.bytes
                         && (if NEWLINE in got then frame.bytes < got && got[|frame.bytes|] == NEWLINE else frame.bytes == got))
  }

  lemma {:induction false} OutcomeIsDue(chunks: seq<seq<Byte>>, ends: bool, limit: nat, patience: nat)
    ensures IsDue(ReadOutcome(chunks, ends, limit, patience), InTime(chunks, patience), patience <= |chunks|, ends, limit)
  {
    var got := InTime(chunks, patience);
    if patience < |chunks| {
      JoinedPrefix(chunks, patience);
      if Decided(got, limit) {
        DecidedForGood(got, Joined(chunks)[|got|..], limit);
        assert got + Joined(chunks)[|got|..] == Joined(chunks);
      }
    }
    FrameIsDue(got, limit);
  }

  lemma {:induction false} FrameIsDue(got: seq<Byte>, limit: nat)
    ensures var head := BeforeNewline(got);
            && (|head| > limit <==> HasTooMuch(got, limit)) && (NEWLINE in got ==> (|head| <= limit <==> HasFrame(got, limit)))
            && NEWLINE !in head && (if NEWLINE in got then head < got && got[|head|] == NEWLINE else head == got)
  {
    HeadIsLongest(got);
    var head := BeforeNewline(got);
    if head != got { assert got[|head|] == NEWLINE; }
    forall i | 0 <= i < |head| ensures got[i] != NEWLINE { assert got[i] == head[i]; }
  }

  /** The bytes of the first n chunks settle the frame. */
  lemma {:induction false} SettledBy(chunks: seq<seq<Byte>>, n: nat, ends: bool, limit: nat, patience: nat)
    requires n <= |chunks| && n <= patience && Decided(Joined(chunks[..n]), limit)
    ensures ReadOutcome(chunks, ends, limit, patience) == FrameOf(Joined(chunks[..n]), limit)
  {
    var read, seen := Joined(chunks[..n]), if patience < |chunks| then chunks[..patience] else chunks;
    JoinedPrefix(seen, n);
    assert seen[..n] == chunks[..n];
    DecidedForGood(read, Joined(seen)[|read|..], limit);
    assert read + Joined(seen)[|read|..] == Joined(seen);
    JoinedPrefix(chunks, n);
    DecidedForGood(read, Joined(chunks)[|read|..], limit);
    assert read + Joined(chunks)[|read|..] == Joined(chunks);
  }

  /** One frame from a connection that delivers `chunks` and then either ends or fails. */
  method ReadFrame(chunks: seq<seq<Byte>>, ends: bool, limit: nat, patience: nat) returns (frame: Frame)
    requires forall i :: 0 <= i < |chunks| ==> chunks[i] != []
    ensures frame == ReadOutcome(chunks, ends, limit, patience)
    ensures IsDue(frame, Joined(if patience < |chunks| then chunks[..patience] else chunks), patience <= |chunks|, ends, limit)
  {
    OutcomeIsDue(chunks, ends, limit, patience);
    var collected: seq<Byte> := [];
    var total := 0;
    var received := 0;
    while true
      invariant received <= |chunks| && received <= patience
      invariant collected == Joined(chunks[..received]) && !Decided(collected, limit) && total == |collected|
      decreases |chunks| - received
    {
      assert received == |chunks| ==> chunks[..received] == chunks;
      if received == patience { return DeadlineExceeded; }
      if received == |chunks| {
        // An empty receive is the end of the stream.
        if !ends { return ReceiveFailed; }
        break;
      }
      var chunk := chunks[received];
      assert chunks[..received + 1][..received] == chunks[..received];
      assert Joined(chunks[..received + 1]) == collected + chunk;
      if Decided(collected + chunk, limit) { SettledBy(chunks, received + 1, ends, limit, patience); }
      if NEWLINE in chunk {
        var head := BeforeNewline(chunk);
        HeadOfChunk(collected, chunk, []);
        assert collected + (chunk + []) == collected + chunk;
        collected := collected + head;
        total := total + |head|;
        if total > limit { return TooLarge; }
        return Frame(collected);
      }
      collected := collected + chunk;
      total := total + |chunk|;
      if total > limit {
        NoNewline(collected);
        return TooLarge;
      }
      received := received + 1;
    }
    NoNewline(collected);
    return Frame(collected);
  }

  /** Two splits of one stream, received in time and to its end, are read alike: the frame is the bytes before
      the first newline, or the size error if and only if they exceed the limit. */
  method ReadTwice(one: seq<seq<Byte>>, other: seq<seq<Byte>>, limit: nat) returns (first: Frame, second: Frame)
    requires forall i :: 0 <= i < |one| ==> one[i] != []
    requires forall i :: 0 <= i < |other| ==> other[i] != []
    requires Joined(one) == Joined(other)
    ensures first == second == FrameOf(Joined(one), limit)
    ensures first.TooLarge? <==> |BeforeNewline(Joined(one))| > limit
  {
    first := ReadFrame(one, true, limit, |one| + 1);
    second := ReadFrame(other, true, limit, |other| + 1);
  }
}
