/**
 The acknowledgement reader under arbitrary fragmentation and deferred errors
 (internal/kuaifan/wifiin/tcp.go), and the decrypting reader on top of it.
 */
module Handshake {
  import opened Foundations
  import opened Streams

  const IV_SIZE: nat := 16
  const FILL_SIZE: nat := 32 * 1024

  datatype HandshakeError = TruncatedAck | InvalidAck | ReadFailed(cause: IoError)

  // ---------- what is still to come ----------

  datatype Event = Data(b: Byte) | Failure(err: IoError)

  function DataEvents(b: seq<Byte>): seq<Event> {
    seq(|b|, i requires 0 <= i < |b| => Data(b[i]))
  }

  function FailureEvent(err: Option<IoError>): seq<Event> {
    if err.Some? then [Failure(err.value)] else []
  }

  function Events(chunks: seq<Chunk>): seq<Event> {
    if chunks == [] then [] else DataEvents(chunks[0].data) + FailureEvent(chunks[0].err) + Events(chunks[1..])
  }

  lemma DataEventsAppend(a: seq<Byte>, b: seq<Byte>)
    ensures DataEvents(a + b) == DataEvents(a) + DataEvents(b)
  {
  }

  // What one read took from a stream: bytes, then possibly an error. At the very
  // end of the stream the end-of-file error comes without an event.
  predicate Took(before: seq<Event>, data: seq<Byte>, err: Option<IoError>, after: seq<Event>) {
    || before == DataEvents(data) + FailureEvent(err) + after
    || (before == after == [] && data == [] && err == Some(Eof))
  }

  lemma TakeOneTook(chunks: seq<Chunk>, size: nat)
    ensures var t := TakeOne(chunks, size); Took(Events(chunks), t.data, t.err, Events(t.rest))
  {
    if chunks != [] && |chunks[0].data| > size {
      var head := chunks[0];
      assert head.data == head.data[..size] + head.data[size..];
      DataEventsAppend(head.data[..size], head.data[size..]);
    }
  }

  // Bytes and an error that arrived with the last of them.
  ghost predicate IvTaken(before: seq<Event>, iv: seq<Byte>, dropped: Option<IoError>, after: seq<Event>) {
    before == DataEvents(iv) + FailureEvent(dropped) + after
  }

  // Fewer bytes than an IV, then an error or the end of the stream.
  ghost predicate CutShort(before: seq<Event>, err: HandshakeError, after: seq<Event>) {
    exists got: seq<Byte>, cause ::
      |got| < IV_SIZE && StopsAt(before, got, cause, after)
          && err == ReadFailed(if got != [] && cause == Eof then UnexpectedEof else cause)
  }

  ghost predicate CutShortBehind(before: seq<Event>, ack: seq<Event>, err: HandshakeError, after: seq<Event>) {
    exists rest :: before == ack + rest && CutShort(rest, err, after)
  }

  ghost predicate StopsAt(before: seq<Event>, got: seq<Byte>, cause: IoError, after: seq<Event>) {
    IvTaken(before, got, Some(cause), after) || (cause == Eof && before == DataEvents(got) && after == [])
  }

  ghost predicate IvBehind(before: seq<Event>, ack: seq<Event>, iv: seq<Byte>, dropped: Option<IoError>,
                           after: seq<Event>) {
    before == ack + DataEvents(iv) + FailureEvent(dropped) + after
  }

  ghost predicate IvBehindSome(before: seq<Event>, ack: seq<Event>, iv: seq<Byte>, after: seq<Event>) {
    exists dropped :: IvBehind(before, ack, iv, dropped, after)
  }

  lemma IvBehindAck(before: seq<Event>, ack: seq<Event>, start: seq<Event>, iv: seq<Byte>, dropped: Option<IoError>,
                    after: seq<Event>)
    requires before == ack + start && IvTaken(start, iv, dropped, after)
    ensures IvBehind(before, ack, iv, dropped, after)
  {
  }

  lemma FillAppends(pending: seq<Byte>, before: seq<Event>, data: seq<Byte>, err: Option<IoError>, after: seq<Event>)
    requires Took(before, data, err, after) && data != []
    ensures DataEvents(pending) + (FailureEvent(None) + before) ==
            DataEvents(pending + data) + (FailureEvent(err) + after)
  {
    DataEventsAppend(pending, data);
  }

  lemma PendingSplit(pending: seq<Byte>, n: nat, rest: seq<Event>)
    requires n <= |pending|
    ensures DataEvents(pending) + rest == DataEvents(pending[..n]) + (DataEvents(pending[n..]) + rest)
  {
    assert pending == pending[..n] + pending[n..];
    DataEventsAppend(pending[..n], pending[n..]);
  }

  // A read call that yielded no byte: its error, or the lack of progress after
  // an idle read of the upstream.
  ghost predicate Stalled(before: seq<Event>, cause: IoError, after: seq<Event>, idle: bool) {
    Took(before, [], Some(cause), after) || (cause == NoProgress && before == after && idle)
  }

  // The error of an acknowledgement that stays incomplete behind its first bytes.
  ghost predicate AckFails(before: seq<Event>, pending: seq<Byte>, err: HandshakeError, after: seq<Event>, idle: bool) {
    exists behind, cause ::
      before == DataEvents(pending) + behind && Stalled(behind, cause, after, idle) && err == AckError(cause)
  }

  lemma AckFailure(before: seq<Event>, pending: seq<Byte>, behind: seq<Event>, cause: IoError, after: seq<Event>,
                   idle: bool)
    requires before == DataEvents(pending) + behind && Stalled(behind, cause, after, idle)
    ensures AckFails(before, pending, AckError(cause), after, idle)
  {
  }

  lemma AckFailsLater(before: seq<Event>, pending: seq<Byte>, err: HandshakeError, after: seq<Event>, idle: bool,
                      later: bool)
    requires AckFails(before, pending, err, after, idle) && (idle ==> later)
    ensures AckFails(before, pending, err, after, later)
  {
    var behind, cause :|
      before == DataEvents(pending) + behind && Stalled(behind, cause, after, idle) && err == AckError(cause);
    AckFailure(before, pending, behind, cause, after, later);
  }

  // Three bytes that are not all zero.
  ghost predicate WrongAck(before: seq<Event>) {
    exists a: Byte, b: Byte, c: Byte, rest :: (a, b, c) != (0, 0, 0) && before == DataEvents([a, b, c]) + rest
  }

  lemma NoFailure(data: seq<Event>, rest: seq<Event>)
    ensures data + FailureEvent(None) + rest == data + rest
  {
  }

  lemma TookNothing(rest: seq<Event>)
    ensures Took(rest, [], None, rest)
  {
    assert DataEvents([]) + FailureEvent(None) + rest == rest;
  }

  lemma NothingPending(rest: seq<Event>)
    ensures DataEvents([]) + rest == rest
  {
  }

  // ---------- the reader ----------

  // A chunk to come before others, if there is anything to it.
  function Ahead(c: Chunk, chunks: seq<Chunk>): seq<Chunk> {
    if c.data == [] && c.err.None? then chunks else [c] + chunks
  }

  lemma AheadEvents(c: Chunk, chunks: seq<Chunk>)
    ensures Events(Ahead(c, chunks)) == DataEvents(c.data) + FailureEvent(c.err) + Events(chunks)
  {
    assert DataEvents([]) == [];
  }

  // The fields of the reader: what it holds is like an upstream of its own, the
  // pending bytes first, then the deferred error, then the rest.
  datatype Inbound = Inbound(pending: seq<Byte>, readErr: Option<IoError>, chunks: seq<Chunk>) {
    function Stream(): seq<Chunk> {
      Ahead(Chunk(pending, None), Ahead(Chunk([], readErr), chunks))
    }

    // What lies behind the pending bytes.
    function Behind(): seq<Event> {
      FailureEvent(readErr) + Events(chunks)
    }
  }

  lemma StreamEvents(s: Inbound)
    ensures Events(s.Stream()) == DataEvents(s.pending) + s.Behind()
  {
    var behind := Ahead(Chunk([], s.readErr), s.chunks);
    AheadEvents(Chunk(s.pending, None), behind);
    AheadEvents(Chunk([], s.readErr), s.chunks);
    NothingPending(FailureEvent(s.readErr));
    NoFailure(DataEvents(s.pending), Events(behind));
  }

  // One attempt to have more bytes pending.
  function FillStep(s: Inbound): (Inbound, Option<IoError>) {
    if s.readErr.Some? then (s.(readErr := None), s.readErr)
    else
      var t := TakeOne(s.chunks, FILL_SIZE);
      if t.data != [] then (Inbound(s.pending + t.data, t.err, t.rest), None)
      else (s.(chunks := t.rest), if t.err.Some? then t.err else Some(NoProgress))
  }

  function AckError(cause: IoError): HandshakeError {
    if cause == Eof then TruncatedAck else ReadFailed(cause)
  }

  // Attempts until three bytes are pending or an error ends them.
  function Filled(s: Inbound): (Inbound, Option<IoError>)
    decreases 3 - |s.pending|
  {
    if |s.pending| >= 3 then (s, None)
    else
      var (more, err) := FillStep(s);
      if err.Some? then (more, err) else Filled(more)
  }

  // What reading the acknowledgement makes of the reader.
  function Acknowledged(s: Inbound): (Inbound, Option<HandshakeError>) {
    var (t, err) := Filled(s);
    if err.Some? then (t, Some(AckError(err.value)))
    else if |t.pending| < 3 || t.pending[..3] != [0, 0, 0] then (t, Some(InvalidAck))
    else (t.(pending := t.pending[3..]), None)
  }

  // The bytes of the server's IV and what comes with them.
  function IvOf(s: Inbound): Gathered {
    Gather(s.Stream(), IV_SIZE)
  }

  lemma TakenBefore(before: seq<Event>, data: seq<Byte>, mid: seq<Event>, more: seq<Byte>, after: seq<Event>)
    requires IvTaken(before, data, None, mid)
    ensures forall stop :: IvTaken(mid, more, stop, after) ==> IvTaken(before, data + more, stop, after)
    ensures forall cause :: StopsAt(mid, more, cause, after) ==> StopsAt(before, data + more, cause, after)
  {
    DataEventsAppend(data, more);
    assert before == DataEvents(data) + mid;
  }

  lemma {:induction false} GatherEvents(chunks: seq<Chunk>, need: nat)
    ensures var g := Gather(chunks, need);
            && (|g.data| == need ==> IvTaken(Events(chunks), g.data, g.stop, Events(g.rest)))
            && (|g.data| < need ==> StopsAt(Events(chunks), g.data, g.stop.value, Events(g.rest)))
    decreases |chunks|
  {
    if need == 0 {
      assert DataEvents([]) == [];
    } else {
      TakeOneTook(chunks, need);
      var t := TakeOne(chunks, need);
      if t.err.None? && |t.data| < need {
        var more := Gather(t.rest, need - |t.data|);
        GatherEvents(t.rest, need - |t.data|);
        TakenBefore(Events(chunks), t.data, Events(t.rest), more.data, Events(more.rest));
      }
    }
  }

  lemma IvOfPending(s: Inbound)
    requires |s.pending| < IV_SIZE
    ensures s.readErr.Some? ==> IvOf(s).data == s.pending
    ensures s.readErr.None? ==> IvOf(s) == Gather(s.chunks, IV_SIZE - |s.pending|).After(s.pending)
  {
    var behind := Ahead(Chunk([], s.readErr), s.chunks);
    assert s.readErr.Some? ==> Gather(behind, IV_SIZE - |s.pending|) == Gathered([], s.readErr, behind[1..]);
    if s.pending == [] {
      assert s.Stream() == behind;
      assert [] + Gather(behind, IV_SIZE).data == Gather(behind, IV_SIZE).data;
    } else {
      assert s.Stream()[1..] == behind && s.pending + [] == s.pending;
    }
  }

  lemma IvAllPending(s: Inbound)
    requires |s.pending| >= IV_SIZE
    ensures IvOf(s).data == s.pending[..IV_SIZE] && IvOf(s).stop.None?
  {
    assert s.Stream()[0] == Chunk(s.pending, None);
  }

  // Reading the IV drops an error exactly when fewer bytes are pending than it
  // has, no deferred error waits behind them, and the upstream chunk that
  // completes it ends there and carries the error.
  lemma IvErrorDropped(s: Inbound, err: IoError)
    ensures (|IvOf(s).data| == IV_SIZE && IvOf(s).stop == Some(err))
            <==> |s.pending| < IV_SIZE && s.readErr.None? && Completes(s.chunks, IV_SIZE - |s.pending|, err)
  {
    if |s.pending| < IV_SIZE {
      IvOfPending(s);
      ErrorWithLastByte(s.chunks, IV_SIZE - |s.pending|, err);
    } else {
      IvAllPending(s);
    }
  }

  // An input on which one is lost: the acknowledgement alone, then the IV with
  // an error. What is left to read afterwards is a plain end of the stream.
  lemma IvErrorLost(iv: seq<Byte>, err: IoError, size: nat)
    requires |iv| == IV_SIZE
    ensures var (s, refused) := Acknowledged(Inbound([], None, [Chunk([0, 0, 0], None), Chunk(iv, Some(err))]));
            && refused.None? && IvOf(s) == Gathered(iv, Some(err), [])
                && TakeOne(IvOf(s).rest, size) == Taken([], Some(Eof), [])
  {
    var zeros: seq<Byte> := [0, 0, 0];
    var start := Inbound([], None, [Chunk(zeros, None), Chunk(iv, Some(err))]);
    var filled := Inbound(zeros, None, [Chunk(iv, Some(err))]);
    assert FillStep(start) == (filled, None) by {
      assert start.chunks[1..] == filled.chunks && [] + zeros == zeros;
    }
    assert Filled(start) == (filled, None);
    var s := Inbound([], None, filled.chunks);
    assert Acknowledged(start) == (s, None) by {
      assert zeros[..3] == zeros && zeros[3..] == [];
    }
    assert s.Stream() == filled.chunks;
  }

  // ---------- the acknowledgement in terms of what is to come ----------

  lemma FillDeferred(s: Inbound)
    requires s.readErr.Some?
    ensures Stalled(s.Behind(), s.readErr.value, s.(readErr := None).Behind(), false)
  {
    NothingPending(FailureEvent(s.readErr));
    assert s.(readErr := None).Behind() == Events(s.chunks);
  }

  lemma FillGains(s: Inbound)
    requires s.readErr.None? && TakeOne(s.chunks, FILL_SIZE).data != []
    ensures Events(FillStep(s).0.Stream()) == Events(s.Stream())
  {
    var t := TakeOne(s.chunks, FILL_SIZE);
    StreamEvents(s);
    StreamEvents(FillStep(s).0);
    TakeOneTook(s.chunks, FILL_SIZE);
    FillAppends(s.pending, Events(s.chunks), t.data, t.err, Events(t.rest));
  }

  lemma FillStalls(s: Inbound)
    requires s.readErr.None? && TakeOne(s.chunks, FILL_SIZE).data == []
    ensures var t := TakeOne(s.chunks, FILL_SIZE);
            Stalled(s.Behind(), if t.err.Some? then t.err.value
                    else NoProgress, s.(chunks := t.rest).Behind(), |t.rest| < |s.chunks|)
  {
    var t := TakeOne(s.chunks, FILL_SIZE);
    TakeOneTook(s.chunks, FILL_SIZE);
    assert s.Behind() == Events(s.chunks) && s.(chunks := t.rest).Behind() == Events(t.rest);
    if t.err.None? {
      NoFailure([], Events(t.rest));
      assert DataEvents([]) == [];
    }
  }

  lemma FillEvents(s: Inbound)
    ensures var (t, err) := FillStep(s);
            && |t.chunks| <= |s.chunks|
            && (err.None? ==> Events(t.Stream()) == Events(s.Stream()) && |s.pending| < |t.pending|)
            && (err.Some? ==>
                  && t.pending == s.pending
                  && Stalled(s.Behind(), err.value, t.Behind(), |t.chunks| < |s.chunks|))
  {
    if s.readErr.Some? {
      FillDeferred(s);
    } else if TakeOne(s.chunks, FILL_SIZE).data != [] {
      FillGains(s);
    } else {
      FillStalls(s);
    }
  }

  lemma {:induction false} FilledEvents(s: Inbound)
    ensures var (t, err) := Filled(s);
            && |t.chunks| <= |s.chunks|
            && (err.None? ==> Events(t.Stream()) == Events(s.Stream()) && |t.pending| >= 3)
            && (err.Some? ==>
                  && |t.pending| < 3
                  && AckFails(Events(s.Stream()), t.pending, AckError(err.value), t.Behind(), |t.chunks| < |s.chunks|))
    decreases 3 - |s.pending|
  {
    if |s.pending| < 3 {
      FillEvents(s);
      var (more, err) := FillStep(s);
      if err.None? {
        FilledEvents(more);
        var (t, failure) := Filled(more);
        if failure.Some? {
          AckFailsLater(Events(s.Stream()), t.pending, AckError(failure.value), t.Behind(), |t.chunks| < |more.chunks|,
                        |t.chunks| < |s.chunks|);
        }
      } else {
        StreamEvents(s);
        AckFailure(Events(s.Stream()), s.pending, s.Behind(), err.value, more.Behind(), |more.chunks| < |s.chunks|);
      }
    }
  }

  // An accepted acknowledgement is three zero bytes and nothing else is consumed;
  // a wrong one stays where it is; an error overtakes fewer than three bytes.
  lemma AcknowledgedEvents(s: Inbound)
    ensures var (t, err) := Acknowledged(s);
            match err
            case None => Events(s.Stream()) == DataEvents([0, 0, 0]) + Events(t.Stream())
            case Some(InvalidAck) =>
              Events(t.Stream()) == Events(s.Stream())
              && WrongAck(Events(s.Stream()))
            case Some(e) =>
              && |t.pending| < 3
              && AckFails(Events(s.Stream()), t.pending, e, t.Behind(), |t.chunks| < |s.chunks|)
  {
    FilledEvents(s);
    var (t, err) := Filled(s);
    if err.None? {
      StreamEvents(t);
      PendingSplit(t.pending, 3, t.Behind());
      var front := t.pending[..3];
      assert front == [front[0], front[1], front[2]];
      StreamEvents(t.(pending := t.pending[3..]));
      assert Events(s.Stream()) == DataEvents([front[0], front[1],
                                               front[2]]) + Events(t.(pending := t.pending[3..]).Stream());
    }
  }

  class HandshakeReader {
    const source: Source
    var pending: seq<Byte>
    var readErr: Option<IoError>
    var ackConsumed: bool

    constructor (source: Source)
      ensures this.source == source && !ackConsumed && Here() == Inbound([], None, source.chunks)
    {
      this.source := source;
      pending, readErr, ackConsumed := [], None, false;
    }

    ghost function Here(): Inbound
      reads this, source
    {
      Inbound(pending, readErr, source.chunks)
    }

    // Everything this reader has yet to hand out, in order.
    ghost function Future(): seq<Event>
      reads this, source
    {
      Events(Here().Stream())
    }

    // Get more bytes behind the pending ones, or an error.
    method Fill() returns (err: Option<IoError>)
      modifies this, source
      ensures ackConsumed == old(ackConsumed) && (Here(), err) == FillStep(old(Here()))
    {
      if readErr.Some? {
        err := readErr;
        readErr := None;
        return;
      }
      var buf := new Byte[FILL_SIZE](_ => 0);
      var n, failure := source.Read(buf, 0, FILL_SIZE);
      assert buf[0..n] == buf[..n];
      if n > 0 {
        pending := pending + buf[..n];
        if failure.Some? {
          readErr := failure;
        }
        return None;
      }
      return if failure.Some? then failure else Some(NoProgress);
    }

    // Consume exactly three zero bytes, leaving what came with them.
    method ReadAck() returns (err: Option<HandshakeError>)
      modifies this, source
      ensures old(ackConsumed) ==> err.None? && ackConsumed && Here() == old(Here())
      ensures !old(ackConsumed) ==> (Here(), err) == Acknowledged(old(Here())) && (ackConsumed <==> err.None?)
      ensures !old(ackConsumed) && err.None? ==> old(Future()) == DataEvents([0, 0, 0]) + Future()
      ensures err == Some(InvalidAck) ==> Future() == old(Future()) && WrongAck(Future())
      // Fewer than three bytes before the error, which overtakes them.
      ensures err.Some? && err != Some(InvalidAck) ==>
                |pending| < 3 && AckFails(old(Future()), pending, err.value, Here().Behind(),
                                          |source.chunks| < |old(source.chunks)|)
    {
      AcknowledgedEvents(Here());
      if ackConsumed {
        return None;
      }
      var failure := FillThree();
      if failure.Some? {
        return if failure.value == Eof then Some(TruncatedAck) else Some(ReadFailed(failure.value));
      }
      assert pending[..3] == [pending[0], pending[1], pending[2]];
      if pending[0] != 0 || pending[1] != 0 || pending[2] != 0 {
        return Some(InvalidAck);
      }
      pending := pending[3..];
      ackConsumed := true;
      return None;
    }

    method FillThree() returns (failure: Option<IoError>)
      modifies this, source
      ensures ackConsumed == old(ackConsumed) && (Here(), failure) == Filled(old(Here()))
      ensures failure.None? ==> |pending| >= 3
    {
      while |pending| < 3
        invariant ackConsumed == old(ackConsumed) && Filled(Here()) == Filled(old(Here()))
        decreases 3 - |pending|
      {
        failure := Fill();
        if failure.Some? {
          return;
        }
      }
      return None;
    }

    // Bytes that came with the acknowledgement first, then the deferred error,
    // then the upstream.
    method Read(p: array<Byte>, lo: nat, hi: nat) returns (n: nat, err: Option<IoError>)
      requires lo <= hi <= p.Length
      modifies this, source, p
      ensures n <= hi - lo && forall i | 0 <= i < lo || lo + n <= i < p.Length :: p[i] == old(p[i])
      ensures ackConsumed == old(ackConsumed)
      ensures lo == hi ==> n == 0 && err.None? && Here() == old(Here())
      ensures lo < hi ==> Taken(p[lo..lo + n], err, Here().Stream()) == TakeOne(old(Here().Stream()), hi - lo)
      ensures n > 0 && err.Some? ==> pending == [] && readErr.None?
    {
      if lo == hi {
        return 0, None;
      }
      if pending != [] {
        n := TakePending(p, lo, hi);
        return n, None;
      }
      if readErr.Some? {
        err := readErr;
        readErr := None;
        assert Here().Stream() == source.chunks && p[lo..lo] == [];
        return 0, err;
      }
      assert Here().Stream() == source.chunks;
      n, err := source.Read(p, lo, hi);
      assert Here().Stream() == source.chunks;
    }

    method TakePending(p: array<Byte>, lo: nat, hi: nat) returns (n: nat)
      requires lo < hi <= p.Length && pending != []
      modifies `pending, p
      ensures 0 < n <= hi - lo && forall i | 0 <= i < lo || lo + n <= i < p.Length :: p[i] == old(p[i])
      ensures Taken(p[lo..lo + n], None, Here().Stream()) == TakeOne(old(Here().Stream()), hi - lo)
    {
      ghost var behind := Here().(pending := []).Stream();
      assert Here().Stream() == [Chunk(pending, None)] + behind;
      n := if |pending| <= hi - lo then |pending| else hi - lo;
      forall i | 0 <= i < n {
        p[lo + i] := pending[i];
      }
      assert p[lo..lo + n] == pending[..n];
      pending := pending[n..];
      assert Here().Stream() == (if pending == [] then [] else [Chunk(pending, None)]) + behind;
    }

    // The first sixteen bytes after the acknowledgement. Like io.ReadFull, an
    // error that arrives together with the last of them is dropped.
    method ReadServerIv() returns (iv: seq<Byte>, err: Option<HandshakeError>)
      modifies this, source
      ensures var (s, refused) := if old(ackConsumed) then (old(Here()), None) else Acknowledged(old(Here()));
              if refused.Some? then err == refused && Here() == s && iv == []
              else
                && ackConsumed && Here().Stream() == IvOf(s).rest
                && if |IvOf(s).data| == IV_SIZE then err.None? && iv == IvOf(s).data
                   else iv == [] && err == Some(ReadFailed(Shortfall(IvOf(s), IV_SIZE).value))
      ensures err.None? ==>
                && |iv| == IV_SIZE && ackConsumed
                && IvBehindSome(old(Future()), if old(ackConsumed) then [] else DataEvents([0, 0, 0]), iv, Future())
      // Behind a consumed acknowledgement there was less than an IV.
      ensures err.Some? && ackConsumed ==>
                CutShortBehind(old(Future()), if old(ackConsumed) then []
                               else DataEvents([0, 0, 0]), err.value, Future())
    {
      iv, err := [], None;
      err := ReadAck();
      if err.Some? {
        return;
      }
      ghost var start := Future();
      ghost var ack := if old(ackConsumed) then [] else DataEvents([0, 0, 0]);
      assert old(Future()) == ack + start;
      GatherEvents(Here().Stream(), IV_SIZE);
      ghost var g := IvOf(Here());
      iv, err := ReadIv();
      if err.None? {
        IvBehindAck(old(Future()), ack, start, iv, g.stop, Future());
      } else {
        assert CutShort(start, err.value, Future());
      }
    }

    // io.ReadFull on this reader.
    method ReadIv() returns (iv: seq<Byte>, err: Option<HandshakeError>)
      modifies this, source
      ensures ackConsumed == old(ackConsumed)
      ensures var g := IvOf(old(Here()));
              && Here().Stream() == g.rest
              && if |g.data| == IV_SIZE then err.None? && iv == g.data
                  else iv == [] && err == Some(ReadFailed(Shortfall(g, IV_SIZE).value))
    {
      var buf := new Byte[IV_SIZE](_ => 0);
      var n, failure := ReadUntil(buf);
      if n < IV_SIZE {
        return [], Some(ReadFailed(if n > 0 && failure == Some(Eof) then UnexpectedEof else failure.value));
      }
      return buf[..n], None;
    }

    method ReadUntil(buf: array<Byte>) returns (n: nat, failure: Option<IoError>)
      requires buf.Length == IV_SIZE
      modifies this, source, buf
      ensures ackConsumed == old(ackConsumed)
      ensures n <= IV_SIZE && Gathered(buf[..n], failure, Here().Stream()) == IvOf(old(Here()))
    {
      ghost var start := Here().Stream();
      ghost var now := start;
      n, failure := 0, None;
      GatherStarts(start, IV_SIZE);
      while n < IV_SIZE && failure.None?
        invariant n <= IV_SIZE && ackConsumed == old(ackConsumed) && now == Here().Stream()
        invariant Underway(start, IV_SIZE, buf[..n], failure, now)
        decreases failure.None?, IV_SIZE - n + |now|
      {
        n, failure, now := ReadMore(buf, n, start, now);
      }
      GatherEnds(start, IV_SIZE, buf[..n], failure, now);
    }

    method ReadMore(buf: array<Byte>, n: nat, ghost start: seq<Chunk>, ghost now: seq<Chunk>)
      returns (m: nat, failure: Option<IoError>, ghost later: seq<Chunk>)
      requires n < IV_SIZE == buf.Length && now == Here().Stream()
      requires Underway(start, IV_SIZE, buf[..n], None, now)
      modifies this, source, buf
      ensures ackConsumed == old(ackConsumed) && later == Here().Stream()
      ensures n <= m <= IV_SIZE && Underway(start, IV_SIZE, buf[..m], failure, later)
      ensures failure.None? ==> |later| - m < |now| - n
    {
      ghost var got := buf[..n];
      var more;
      more, failure := Read(buf, n, IV_SIZE);
      m := n + more;
      ghost var t := Taken(buf[n..m], failure, Here().Stream());
      later := t.rest;
      GatherContinues(start, IV_SIZE, got, now, t);
      assert buf[..m] == got + t.data;
    }
  }

  // ---------- decryption ----------

  // A stream cipher as a byte-wise machine; the block cipher inside is unknown.
  datatype Cipher = Cipher(next: (nat, Byte) -> nat, turn: (nat, Byte) -> Byte)

  function Turn(c: Cipher, st: nat, data: seq<Byte>): seq<Byte>
    decreases |data|
  {
    if data == [] then [] else [c.turn(st, data[0])] + Turn(c, c.next(st, data[0]), data[1..])
  }

  function After(c: Cipher, st: nat, data: seq<Byte>): nat
    decreases |data|
  {
    if data == [] then st else After(c, c.next(st, data[0]), data[1..])
  }

  // Decrypting piece by piece is decrypting the whole.
  lemma {:induction false} TurnAppend(c: Cipher, st: nat, a: seq<Byte>, b: seq<Byte>)
    ensures Turn(c, st, a + b) == Turn(c, st, a) + Turn(c, After(c, st, a), b)
    ensures After(c, st, a + b) == After(c, After(c, st, a), b)
    decreases |a|
  {
    if a == [] {
      assert a + b == b;
    } else {
      assert (a + b)[1..] == a[1..] + b;
      TurnAppend(c, c.next(st, a[0]), a[1..], b);
    }
  }

  // ---------- whole conversations ----------

  // One read after the other: what was taken and what was left each time.
  datatype Reading = Reading(data: seq<Byte>, err: Option<IoError>, left: seq<Event>)

  predicate Reads(start: seq<Event>, rs: seq<Reading>)
    decreases |rs|
  {
    rs == [] || (Took(start, rs[0].data, rs[0].err, rs[0].left) && Reads(rs[0].left, rs[1..]))
  }

  // What reads hand out of a stream; once it has run dry there is nothing more.
  function HandedOut(start: seq<Event>, rs: seq<Reading>): seq<Event>
    decreases |rs|
  {
    if rs == [] || start == [] then []
        else DataEvents(rs[0].data) + FailureEvent(rs[0].err) + HandedOut(rs[0].left, rs[1..])
  }

  function Left(start: seq<Event>, rs: seq<Reading>): seq<Event>
    decreases |rs|
  {
    if rs == [] then start else Left(rs[0].left, rs[1..])
  }

  // In every run of reads, what they hand out followed by what is left is what
  // was to come: nothing lost, nothing twice, and every deferred error behind
  // its bytes and before the next.
  lemma {:induction false} ReadsPartition(start: seq<Event>, rs: seq<Reading>)
    requires Reads(start, rs)
    ensures start == HandedOut(start, rs) + Left(start, rs)
    decreases |rs|
  {
    if rs != [] {
      ReadsPartition(rs[0].left, rs[1..]);
      if start == [] {
        assert rs[0].left == [];
      }
    }
  }

  // The bytes among the events.
  function DataOf(events: seq<Event>): seq<Byte> {
    if events == [] then [] else (if events[0].Data? then [events[0].b] else []) + DataOf(events[1..])
  }

  lemma {:induction false} DataOfAppend(a: seq<Event>, b: seq<Event>)
    ensures DataOf(a + b) == DataOf(a) + DataOf(b)
  {
    if a == [] {
      assert a + b == b;
    } else {
      DataOfAppend(a[1..], b);
      assert (a + b)[0] == a[0] && (a + b)[1..] == a[1..] + b;
      var head := if a[0].Data? then [a[0].b] else [];
      assert head + (DataOf(a[1..]) + DataOf(b)) == (head + DataOf(a[1..])) + DataOf(b);
    }
  }

  lemma {:induction false} DataOfData(data: seq<Byte>)
    ensures DataOf(DataEvents(data)) == data
  {
    if data != [] {
      assert DataEvents(data)[1..] == DataEvents(data[1..]);
      DataOfData(data[1..]);
    }
  }

  // A quiet upstream is its bytes, however they are cut.
  lemma {:induction false} QuietEvents(chunks: seq<Chunk>)
    requires Quiet(chunks)
    ensures Events(chunks) == DataEvents(Bytes(chunks))
  {
    if chunks != [] {
      QuietEvents(chunks[1..]);
      DataEventsAppend(chunks[0].data, Bytes(chunks[1..]));
    }
  }

  function Joined(pieces: seq<seq<Byte>>): seq<Byte> {
    if pieces == [] then [] else Joined(pieces[..|pieces| - 1]) + pieces[|pieces| - 1]
  }

  // Pieces decrypted with the state threaded through are the decryption of the
  // stream: boundaries between reads do not show.
  lemma {:induction false} PiecewiseDecryption(c: Cipher, states: seq<nat>, taken: seq<seq<Byte>>,
                                               plain: seq<seq<Byte>>)
    requires |taken| == |plain| && |states| == |taken| + 1
    requires forall i | 0 <= i < |taken| ::
               plain[i] == Turn(c, states[i], taken[i]) && states[i + 1] == After(c, states[i], taken[i])
    ensures Joined(plain) == Turn(c, states[0], Joined(taken)) && states[|taken|] == After(c, states[0], Joined(taken))
    decreases |taken|
  {
    if taken != [] {
      var n := |taken| - 1;
      PiecewiseDecryption(c, states[..n + 1], taken[..n], plain[..n]);
      TurnAppend(c, states[0], Joined(taken[..n]), taken[n]);
    }
  }

  lemma {:induction false} JoinedFront(first: seq<Byte>, pieces: seq<seq<Byte>>)
    ensures Joined([first] + pieces) == first + Joined(pieces)
    decreases |pieces|
  {
    var all := [first] + pieces;
    if pieces == [] {
      assert all[..0] == [];
    } else {
      var n := |pieces| - 1;
      assert all[..|all| - 1] == [first] + pieces[..n];
      JoinedFront(first, pieces[..n]);
    }
  }

  function Datas(rs: seq<Reading>): seq<seq<Byte>> {
    seq(|rs|, i requires 0 <= i < |rs| => rs[i].data)
  }

  lemma ReadingData(data: seq<Byte>, err: Option<IoError>)
    ensures DataOf(DataEvents(data) + FailureEvent(err)) == data
  {
    DataOfData(data);
    DataOfAppend(DataEvents(data), FailureEvent(err));
    assert data + [] == data;
  }

  // The bytes handed out are those of the readings, in order.
  lemma {:induction false} HandedOutData(start: seq<Event>, rs: seq<Reading>)
    requires Reads(start, rs)
    ensures DataOf(HandedOut(start, rs)) == Joined(Datas(rs))
    decreases |rs|
  {
    if rs != [] {
      HandedOutData(rs[0].left, rs[1..]);
      assert Datas(rs) == [rs[0].data] + Datas(rs[1..]);
      JoinedFront(rs[0].data, Datas(rs[1..]));
      if start == [] {
        assert rs[0].data == [] && rs[0].left == [];
      } else {
        ReadingData(rs[0].data, rs[0].err);
        DataOfAppend(DataEvents(rs[0].data) + FailureEvent(rs[0].err), HandedOut(rs[0].left, rs[1..]));
      }
    }
  }

  // A run of decrypting reads: the state of the cipher before and after each.
  ghost predicate Conversation(c: Cipher, start: seq<Event>, rs: seq<Reading>, states: seq<nat>,
                               plain: seq<seq<Byte>>) {
    && Reads(start, rs) && |plain| == |rs| && |states| == |rs| + 1
    && forall i | 0 <= i < |rs| ::
      plain[i] == Turn(c, states[i], rs[i].data) && states[i + 1] == After(c, states[i], rs[i].data)
  }

  // Whatever the sizes of the reads, the cuts of the upstream and its errors:
  // what the reads delivered is the decryption of the bytes handed out, and
  // followed by the decryption of the bytes that are left it is the decryption
  // of all that was to come.
  lemma ConversationDecrypts(c: Cipher, start: seq<Event>, rs: seq<Reading>, states: seq<nat>, plain: seq<seq<Byte>>)
    requires Conversation(c, start, rs, states, plain)
    ensures start == HandedOut(start, rs) + Left(start, rs)
    ensures Joined(plain) == Turn(c, states[0], DataOf(HandedOut(start, rs)))
    ensures Turn(c, states[0], DataOf(start)) == Joined(plain) + Turn(c, states[|rs|], DataOf(Left(start, rs)))
  {
    ReadsPartition(start, rs);
    PiecewiseDecryption(c, states, Datas(rs), plain);
    HandedOutData(start, rs);
    DataOfAppend(HandedOut(start, rs), Left(start, rs));
    TurnAppend(c, states[0], DataOf(HandedOut(start, rs)), DataOf(Left(start, rs)));
  }

  lemma {:induction false} ReadsAppend(start: seq<Event>, rs: seq<Reading>, r: Reading)
    requires Reads(start, rs) && Took(Left(start, rs), r.data, r.err, r.left)
    ensures Reads(start, rs + [r]) && Left(start, rs + [r]) == r.left
    decreases |rs|
  {
    if rs == [] {
      assert rs + [r] == [r] && [r][1..] == [];
    } else {
      assert (rs + [r])[1..] == rs[1..] + [r];
      ReadsAppend(rs[0].left, rs[1..], r);
    }
  }

  lemma ConversationGrows(c: Cipher, start: seq<Event>, rs: seq<Reading>, states: seq<nat>, plain: seq<seq<Byte>>,
                          r: Reading, st: nat, piece: seq<Byte>)
    requires Conversation(c, start, rs, states, plain) && Took(Left(start, rs), r.data, r.err, r.left)
    requires piece == Turn(c, states[|rs|], r.data) && st == After(c, states[|rs|], r.data)
    ensures Conversation(c, start, rs + [r], states + [st], plain + [piece]) && Left(start, rs + [r]) == r.left
  {
    ReadsAppend(start, rs, r);
  }

  class StreamReader {
    const inbound: HandshakeReader
    const cipher: Cipher
    var st: nat
    // What was to come at first, and the reads since.
    ghost var start: seq<Event>
    ghost var readings: seq<Reading>
    ghost var states: seq<nat>
    ghost var plain: seq<seq<Byte>>

    constructor (inbound: HandshakeReader, cipher: Cipher, st: nat)
      ensures this.inbound == inbound && this.cipher == cipher && this.st == st
      ensures Told() && start == inbound.Future() && readings == []
    {
      this.inbound, this.cipher, this.st := inbound, cipher, st;
      this.start, this.readings, this.states, this.plain := inbound.Future(), [], [st], [];
    }

    // The reads so far make a conversation that leads to the present state.
    ghost predicate Told()
      reads this, inbound, inbound.source
    {
      Conversation(cipher, start, readings, states, plain) && Left(start, readings) == inbound.Future()
          && states[|readings|] == st
    }

    // At any time: what was delivered, followed by the decryption of what is left
    // for the inbound reader, is the decryption of all that was to come.
    lemma Delivered()
      requires Told()
      ensures start == HandedOut(start, readings) + inbound.Future()
      ensures Joined(plain) == Turn(cipher, states[0], DataOf(HandedOut(start, readings)))
      ensures Turn(cipher, states[0], DataOf(start)) == Joined(plain) + Turn(cipher, st, DataOf(inbound.Future()))
    {
      ConversationDecrypts(cipher, start, readings, states, plain);
    }

    // Read ciphertext and decrypt it in place.
    method Read(p: array<Byte>, hi: nat) returns (n: nat, err: Option<IoError>, ghost taken: seq<Byte>)
      requires hi <= p.Length && Told()
      modifies this, inbound, inbound.source, p
      ensures n == |taken| <= hi && forall i | n <= i < p.Length :: p[i] == old(p[i])
      ensures Took(old(inbound.Future()), taken, err, inbound.Future())
      ensures p[..n] == Turn(cipher, old(st), taken) && st == After(cipher, old(st), taken)
      ensures Told() && start == old(start) && readings == old(readings) + [Reading(taken, err, inbound.Future())]
              && plain == old(plain) + [p[..n]]
      ensures states[0] == old(states[0])
    {
      n, err, taken := Fetch(p, hi);
      DecryptInPlace(p, n);
      ConversationGrows(cipher, start, readings, states, plain, Reading(taken, err, inbound.Future()), st, p[..n]);
      readings, states, plain := readings + [Reading(taken, err, inbound.Future())], states + [st], plain + [p[..n]];
    }

    method Fetch(p: array<Byte>, hi: nat) returns (n: nat, err: Option<IoError>, ghost taken: seq<Byte>)
      requires hi <= p.Length
      modifies inbound, inbound.source, p
      ensures n == |taken| <= hi && p[..n] == taken && forall i | n <= i < p.Length :: p[i] == old(p[i])
      ensures Took(old(inbound.Future()), taken, err, inbound.Future())
    {
      ghost var stream := inbound.Here().Stream();
      n, err := inbound.Read(p, 0, hi);
      taken := p[..n];
      assert p[0..n] == taken;
      if hi == 0 {
        TookNothing(inbound.Future());
      } else {
        TakeOneTook(stream, hi);
      }
    }

    method DecryptInPlace(p: array<Byte>, n: nat)
      requires n <= p.Length
      modifies `st, p
      ensures p[..n] == Turn(cipher, old(st), old(p[..n])) && st == After(cipher, old(st), old(p[..n]))
      ensures forall j | n <= j < p.Length :: p[j] == old(p[j])
    {
      ghost var taken := p[..n];
      for i := 0 to n
        invariant p[i..n] == taken[i..]
        invariant p[..i] == Turn(cipher, old(st), taken[..i]) && st == After(cipher, old(st), taken[..i])
        invariant forall j | n <= j < p.Length :: p[j] == old(p[j])
      {
        TurnAppend(cipher, old(st), taken[..i], [taken[i]]);
        assert taken[..i + 1] == taken[..i] + [taken[i]];
        assert p[i] == p[i..n][0];
        ghost var done, rest := p[..i], p[i..n];
        var b := p[i];
        p[i] := cipher.turn(st, b);
        st := cipher.next(st, b);
        assert p[..i + 1] == done + [p[i]];
        assert p[i + 1..n] == rest[1..];
      }
      assert taken[..n] == taken;
    }
  }
}
