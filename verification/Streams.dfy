/**
 Byte streams as Go's io.Reader and io.Writer allow them to behave: reads may
 return any number of bytes and an error together with bytes, writes may be
 short. Bytes are numbers below 256.
 */
module Streams {
  import opened Foundations

  type Byte = b: nat | b < 256

  datatype IoError = Eof | UnexpectedEof | NoProgress | OtherError(code: nat)

  // What one read call gives at most; a larger request gets all of it, and only
  // then the error.
  datatype Chunk = Chunk(data: seq<Byte>, err: Option<IoError>)

  function Bytes(chunks: seq<Chunk>): seq<Byte> {
    if chunks == [] then [] else chunks[0].data + Bytes(chunks[1..])
  }

  // No error before the end.
  predicate Quiet(chunks: seq<Chunk>) {
    forall i | 0 <= i < |chunks| :: chunks[i].err.None?
  }

  lemma {:induction false} BytesAppend(a: seq<Chunk>, b: seq<Chunk>)
    ensures Bytes(a + b) == Bytes(a) + Bytes(b)
  {
    if a == [] {
      assert a + b == b;
    } else {
      assert (a + b)[1..] == a[1..] + b;
      BytesAppend(a[1..], b);
    }
  }

  // ---------- one read, and reads until enough ----------

  // What one read call of a given size yields.
  datatype Taken = Taken(data: seq<Byte>, err: Option<IoError>, rest: seq<Chunk>)

  function TakeOne(chunks: seq<Chunk>, size: nat): Taken {
    if chunks == [] then Taken([], Some(Eof), [])
    else
      var c := chunks[0];
      if |c.data| <= size then Taken(c.data, c.err, chunks[1..])
      else Taken(c.data[..size], None, [Chunk(c.data[size..], c.err)] + chunks[1..])
  }

  lemma TakeOneBytes(chunks: seq<Chunk>, size: nat)
    ensures var t := TakeOne(chunks, size);
            && Bytes(chunks) == t.data + Bytes(t.rest) && |t.data| <= size
            && (Quiet(chunks) ==> Quiet(t.rest) && (t.err.Some? ==> t.err == Some(Eof) && t.data == [] && t.rest == []))
  {
    if chunks != [] && |chunks[0].data| > size {
      assert chunks[0].data == chunks[0].data[..size] + chunks[0].data[size..];
    }
  }

  // The bytes that reads for a given number of bytes bring in, what they leave,
  // and the error that stopped them, be it with the last wanted byte.
  datatype Gathered = Gathered(data: seq<Byte>, stop: Option<IoError>, rest: seq<Chunk>) {
    function After(data: seq<Byte>): Gathered {
      this.(data := data + this.data)
    }
  }

  function Gather(chunks: seq<Chunk>, need: nat): (g: Gathered)
    ensures |g.data| <= need && (|g.data| < need ==> g.stop.Some?)
    decreases |chunks|
  {
    if need == 0 then Gathered([], None, chunks)
    else
      var t := TakeOne(chunks, need);
      if t.err.Some? || |t.data| == need then Gathered(t.data, t.err, t.rest)
      else Gather(t.rest, need - |t.data|).After(t.data)
  }

  lemma {:induction false} GatherJoins(chunks: seq<Chunk>, need: nat)
    ensures Bytes(chunks) == Gather(chunks, need).data + Bytes(Gather(chunks, need).rest)
    decreases |chunks|
  {
    var t := TakeOne(chunks, need);
    if need == 0 {
    } else if t.err.Some? || |t.data| == need {
      TakeOneBytes(chunks, need);
    } else {
      TakeOneBytes(chunks, need);
      GatherJoins(t.rest, need - |t.data|);
      Regroup(t.data, Gather(t.rest, need - |t.data|).data, Bytes(Gather(t.rest, need - |t.data|).rest));
    }
  }

  lemma Regroup(a: seq<Byte>, b: seq<Byte>, c: seq<Byte>)
    ensures a + (b + c) == (a + b) + c
  {
  }

  lemma {:induction false} GatherQuiet(chunks: seq<Chunk>, need: nat)
    requires Quiet(chunks)
    ensures var g := Gather(chunks, need); Quiet(g.rest) && (|g.data| < need ==> g.stop == Some(Eof) && g.rest == [])
    decreases |chunks|
  {
    TakeOneBytes(chunks, need);
    var t := TakeOne(chunks, need);
    if need > 0 && t.err.None? && |t.data| < need {
      GatherQuiet(t.rest, need - |t.data|);
    }
  }

  lemma GatherBytes(chunks: seq<Chunk>, need: nat)
    ensures var g := Gather(chunks, need);
            && Bytes(chunks) == g.data + Bytes(g.rest)
            && (Quiet(chunks) ==> Quiet(g.rest) && (|g.data| < need ==> g.stop == Some(Eof) && g.rest == []))
  {
    GatherJoins(chunks, need);
    if Quiet(chunks) {
      GatherQuiet(chunks, need);
    }
  }

  // The byte that completes the wanted ones is the last of a chunk with an
  // error, and no chunk before it had one.
  ghost predicate CompletesWith(chunks: seq<Chunk>, need: nat, k: nat, err: IoError) {
    && k < |chunks| && Quiet(chunks[..k]) && chunks[k].err == Some(err)
    && |Bytes(chunks[..k])| < need == |Bytes(chunks[..k + 1])|
  }

  lemma CompletesNext(chunks: seq<Chunk>, need: nat, k: nat, err: IoError)
    requires chunks != [] && chunks[0].err.None? && |chunks[0].data| < need
    ensures CompletesWith(chunks, need, k + 1, err) <==> CompletesWith(chunks[1..], need - |chunks[0].data|, k, err)
  {
    if k + 1 < |chunks| {
      assert chunks[..k + 1] == [chunks[0]] + chunks[1..][..k];
      assert chunks[..k + 2] == [chunks[0]] + chunks[1..][..k + 1];
      BytesAppend([chunks[0]], chunks[1..][..k]);
      BytesAppend([chunks[0]], chunks[1..][..k + 1]);
      QuietNext(chunks[0], chunks[1..][..k]);
    }
  }

  lemma QuietNext(c: Chunk, rest: seq<Chunk>)
    requires c.err.None?
    ensures Quiet([c] + rest) <==> Quiet(rest)
  {
    if Quiet([c] + rest) {
      assert forall i | 0 <= i < |rest| :: rest[i] == ([c] + rest)[i + 1];
    }
  }

  lemma CompletesFirst(chunks: seq<Chunk>, need: nat, err: IoError)
    requires chunks != []
    ensures CompletesWith(chunks, need, 0, err) <==> need > 0 && |chunks[0].data| == need && chunks[0].err == Some(err)
    ensures chunks[0].err.Some? || |chunks[0].data| >= need ==> forall k | k > 0 :: !CompletesWith(chunks, need, k, err)
  {
    assert chunks[..0] == [] && chunks[..1] == [chunks[0]] && Bytes([chunks[0]]) == chunks[0].data + Bytes([]);
    forall k | 0 < k < |chunks|
      ensures Quiet(chunks[..k]) ==> chunks[0].err.None?
      ensures |Bytes(chunks[..k])| >= |chunks[0].data|
    {
      assert chunks[..k][0] == chunks[0];
    }
  }

  ghost predicate Completes(chunks: seq<Chunk>, need: nat, err: IoError) {
    exists k :: CompletesWith(chunks, need, k, err)
  }

  // An error comes with the last wanted byte exactly when such a chunk exists.
  lemma {:induction false} ErrorWithLastByte(chunks: seq<Chunk>, need: nat, err: IoError)
    ensures (|Gather(chunks, need).data| == need && Gather(chunks, need).stop == Some(err)) <==>
              Completes(chunks, need, err)
    decreases |chunks|
  {
    if need > 0 && chunks != [] {
      CompletesFirst(chunks, need, err);
      if chunks[0].err.None? && |chunks[0].data| < need {
        var fewer := need - |chunks[0].data|;
        ErrorWithLastByte(chunks[1..], fewer, err);
        if k: nat :| CompletesWith(chunks[1..], fewer, k, err) {
          CompletesNext(chunks, need, k, err);
          assert CompletesWith(chunks, need, k + 1, err);
        }
        if k: nat :| CompletesWith(chunks, need, k, err) {
          CompletesNext(chunks, need, k - 1, err);
        }
      }
    }
  }

  // How far a gathering has come: what is in, the error of the last read, and
  // what is left to read.
  ghost predicate Underway(start: seq<Chunk>, size: nat, got: seq<Byte>, err: Option<IoError>, now: seq<Chunk>) {
    && |got| <= size
    && Gather(start, size) == if err.None? then Gather(now, size - |got|).After(got) else Gathered(got, err, now)
  }

  lemma GatherStarts(start: seq<Chunk>, size: nat)
    ensures Underway(start, size, [], None, start)
  {
    assert [] + Gather(start, size).data == Gather(start, size).data;
  }

  lemma GatherContinues(start: seq<Chunk>, size: nat, got: seq<Byte>, now: seq<Chunk>, t: Taken)
    requires Underway(start, size, got, None, now) && |got| < size && t == TakeOne(now, size - |got|)
    ensures Underway(start, size, got + t.data, t.err, t.rest)
  {
    TakeOneBytes(now, size - |got|);
    if t.err.None? && |got + t.data| < size {
      assert got + (t.data + Gather(t.rest, size - |got| - |t.data|).data) == (got + t.data) + Gather(t.rest,
              size - |got| - |t.data|).data;
    } else {
      assert got + t.data + [] == got + t.data;
    }
  }

  lemma GatherEnds(start: seq<Chunk>, size: nat, got: seq<Byte>, err: Option<IoError>, now: seq<Chunk>)
    requires Underway(start, size, got, err, now) && (|got| == size || err.Some?)
    ensures Gather(start, size) == Gathered(got, err, now)
  {
    assert got + [] == got;
  }

  class Source {
    var chunks: seq<Chunk>

    constructor (chunks: seq<Chunk>)
      ensures this.chunks == chunks
    {
      this.chunks := chunks;
    }

    method Read(p: array<Byte>, lo: nat, hi: nat) returns (n: nat, err: Option<IoError>)
      requires lo <= hi <= p.Length
      modifies this, p
      ensures n <= hi - lo && Taken(p[lo..lo + n], err, chunks) == TakeOne(old(chunks), hi - lo)
      ensures forall i | 0 <= i < lo || lo + n <= i < p.Length :: p[i] == old(p[i])
    {
      if chunks == [] {
        return 0, Some(Eof);
      }
      var head := chunks[0];
      n := if |head.data| <= hi - lo then |head.data| else hi - lo;
      forall i | 0 <= i < n {
        p[lo + i] := head.data[i];
      }
      assert p[lo..lo + n] == head.data[..n];
      if |head.data| <= hi - lo {
        err := head.err;
        chunks := chunks[1..];
      } else {
        err := None;
        chunks := [Chunk(head.data[n..], head.err)] + chunks[1..];
      }
    }
  }

  // The error of a read that came short.
  function Shortfall(g: Gathered, need: nat): Option<IoError>
    requires |g.data| < need ==> g.stop.Some?
  {
    if |g.data| >= need then None
    else if g.data != [] && g.stop == Some(Eof) then Some(UnexpectedEof)
    else g.stop
  }

  // The loop of io.ReadFull.
  method ReadUntil(src: Source, p: array<Byte>, size: nat) returns (n: nat, err: Option<IoError>)
    requires size <= p.Length
    modifies src, p
    ensures n <= size && Gathered(p[..n], err, src.chunks) == Gather(old(src.chunks), size)
    ensures forall i | n <= i < p.Length :: p[i] == old(p[i])
  {
    n, err := 0, None;
    ghost var start := src.chunks;
    GatherStarts(start, size);
    while n < size && err.None?
      invariant n <= size && Underway(start, size, p[..n], err, src.chunks)
      invariant forall i | n <= i < p.Length :: p[i] == old(p[i])
      decreases err.None?, |src.chunks| + (size - n)
    {
      ghost var now, got := src.chunks, p[..n];
      var more;
      more, err := src.Read(p, n, size);
      GatherContinues(start, size, got, now, Taken(p[n..n + more], err, src.chunks));
      assert p[..n + more] == got + p[n..n + more];
      n := n + more;
    }
    GatherEnds(start, size, p[..n], err, src.chunks);
  }

  // io.ReadFull: an error that comes with the last wanted byte is dropped.
  method ReadFull(src: Source, p: array<Byte>, size: nat) returns (n: nat, err: Option<IoError>)
    requires size <= p.Length
    modifies src, p
    ensures var g := Gather(old(src.chunks), size);
            n == |g.data| && p[..n] == g.data && src.chunks == g.rest && err == Shortfall(g, size)
    ensures forall i | n <= i < p.Length :: p[i] == old(p[i])
    ensures old(Bytes(src.chunks)) == p[..n] + Bytes(src.chunks)
    ensures Quiet(old(src.chunks)) ==> Quiet(src.chunks) && (err.Some? ==> src.chunks == [])
  {
    n, err := ReadUntil(src, p, size);
    GatherBytes(old(src.chunks), size);
    if n == size {
      err := None;
    } else if n > 0 && err == Some(Eof) {
      err := Some(UnexpectedEof);
    }
  }

  // One write call: how many bytes it takes at most, and its error.
  datatype Reply = Reply(limit: nat, err: Option<IoError>)

  class Sink {
    var written: seq<Byte>
    var replies: seq<Reply>

    constructor (replies: seq<Reply>)
      ensures written == [] && this.replies == replies
    {
      this.written, this.replies := [], replies;
    }

    method Write(p: array<Byte>, lo: nat, hi: nat) returns (n: nat, err: Option<IoError>)
      requires lo <= hi <= p.Length
      modifies this
      ensures n <= hi - lo && written == old(written) + p[lo..lo + n]
      ensures replies == if old(replies) == [] then [] else old(replies)[1..]
      ensures old(replies) == [] ==> n == hi - lo && err.None?
      ensures old(replies) != [] ==>
                err == old(replies)[0].err && n == if old(replies)[0].limit < hi - lo then old(replies)[0].limit
                    else hi - lo
    {
      n, err := hi - lo, None;
      if replies != [] {
        n, err := if replies[0].limit < hi - lo then replies[0].limit else hi - lo, replies[0].err;
        replies := replies[1..];
      }
      written := written + p[lo..lo + n];
    }
  }

  // A sink that makes progress without errors, however little at a time.
  predicate Willing(replies: seq<Reply>) {
    forall i | 0 <= i < |replies| :: replies[i].limit > 0 && replies[i].err.None?
  }

  // Like the program's writeFull: an error ends it even if the call took bytes.
  method WriteFull(sink: Sink, p: array<Byte>, length: nat) returns (err: Option<IoError>)
    requires length <= p.Length
    modifies sink
    ensures err.None? ==> sink.written == old(sink.written) + p[..length]
    ensures err.Some? ==> exists k :: 0 <= k <= length && sink.written == old(sink.written) + p[..k]
    ensures Willing(old(sink.replies)) ==> err.None? && Willing(sink.replies)
  {
    var at := 0;
    while at < length
      invariant 0 <= at <= length && sink.written == old(sink.written) + p[..at]
      invariant Willing(old(sink.replies)) ==> Willing(sink.replies)
    {
      var n;
      n, err := sink.Write(p, at, length);
      assert p[..at + n] == p[..at] + p[at..at + n];
      at := at + n;
      if err.Some? {
        return;
      }
      if n == 0 {
        return Some(NoProgress);
      }
    }
    return None;
  }
}
