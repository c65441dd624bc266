/**
 UDP over TCP: framing of SOCKS datagrams with reused buffers
 (internal/kuaifan/wifiin/udp.go). The datagram header is that of section 7 of
 RFC 1928.
 */
module Uot {
  import opened Foundations
  import opened Streams

  const MAX_BODY: nat := 65535
  const INITIAL_BUFFER: nat := 2048

  datatype UotError =
    | InvalidDatagram | FragmentedDatagram | UnsupportedAddress | InvalidFrame | ShortBuffer
    | Stream(cause: IoError)

  // ---------- numbers and addresses ----------

  function High(n: nat): Byte
    requires n < 65536
  {
    n / 256
  }

  function U16(n: nat): seq<Byte>
    requires n < 65536
  {
    [High(n), n % 256]
  }

  function Number(b: seq<Byte>): nat
    requires |b| >= 2
  {
    (b[0] as int) * 256 + b[1] as int
  }

  // Length of type, address and port at the start of a packet.
  function AddressLength(packet: seq<Byte>, maskType: bool): (r: Option<nat>)
    ensures r.Some? ==> 4 < r.value <= |packet|
  {
    if packet == [] then None
    else
      var kind := if maskType then packet[0] % 16 else packet[0];
      if kind == 1 then (if |packet| < 7 then None else Some(7))
      else if kind == 4 then (if |packet| < 19 then None else Some(19))
      else if kind == 3 then
        (if |packet| < 2 || packet[1] == 0 then None
         else
           var length := 4 + packet[1] as int;
           if |packet| < length then None else Some(length))
      else None
  }

  // Type 1 is IPv4, type 4 is IPv6, and type 3 is a name behind its length; the
  // port comes after each. A response may have other bits in its type.
  lemma AddressExactly(packet: seq<Byte>, maskType: bool, length: nat)
    ensures AddressLength(packet, maskType) == Some(length) <==>
              && length <= |packet| && |packet| > 1
              && var kind := if maskType then packet[0] % 16 else packet[0];
              || (kind == 1 && length == 1 + 4 + 2)
              || (kind == 4 && length == 1 + 16 + 2)
              || (kind == 3 && packet[1] > 0 && length == 1 + 1 + packet[1] as nat + 2)
  {
  }

  method AddressLengthOf(packet: seq<Byte>, maskType: bool) returns (r: Option<nat>)
    ensures r == AddressLength(packet, maskType)
  {
    if |packet| == 0 {
      return None;
    }
    var kind: nat := packet[0];
    if maskType {
      kind := kind % 16;
    }
    var length := 0;
    if kind == 1 {
      length := 7;
    } else if kind == 4 {
      length := 19;
    } else if kind == 3 {
      if |packet| < 2 || packet[1] == 0 {
        return None;
      }
      length := 4 + packet[1] as nat;
    } else {
      return None;
    }
    return if |packet| < length then None else Some(length);
  }

  // ---------- frames ----------

  function WriteProblem(d: seq<Byte>): Option<UotError> {
    if |d| < 3 || d[0] != 0 || d[1] != 0 then Some(InvalidDatagram)
    else if d[2] != 0 then Some(FragmentedDatagram)
    else if AddressLength(d[3..], false).None? then Some(InvalidDatagram)
    else if d[3] != 1 then Some(UnsupportedAddress)
    else if |d| - 3 + 2 > MAX_BODY then Some(InvalidDatagram)
    else None
  }

  // The flow identifier goes between address and payload.
  function FrameOf(flow: nat, d: seq<Byte>): seq<Byte>
    requires flow < 65536 && WriteProblem(d).None?
  {
    U16(|d| - 1) + d[3..10] + U16(flow) + d[10..]
  }

  // Byte by byte: the length of what follows, most significant byte first; type,
  // address and port as in the datagram; the flow identifier; the payload.
  lemma FrameLayout(flow: nat, d: seq<Byte>, i: nat)
    requires flow < 65536 && WriteProblem(d).None? && i < |FrameOf(flow, d)|
    ensures |FrameOf(flow, d)| == |d| + 1
    ensures var frame := FrameOf(flow, d);
            && (frame[0] as nat) * 256 + frame[1] as nat == |d| - 1
            && (frame[9] as nat) * 256 + frame[10] as nat == flow
            && (2 <= i < 9 ==> frame[i] == d[i + 1]) && (i >= 11 ==> frame[i] == d[i - 1])
  {
  }

  // One frame's worth of a stream, keepalives skipped.
  datatype Decoded = Got(flow: nat, datagram: seq<Byte>, rest: seq<Byte>) | Broken(rest: seq<Byte>) | Incomplete

  function Unframe(body: seq<Byte>, rest: seq<Byte>): Decoded {
    var a := AddressLength(body, true);
    if a.None? || a.value + 2 > |body| then Broken(rest)
    else Got(Number(body[a.value..]), [0, 0, 0, body[0] % 16] + body[1..a.value] + body[a.value + 2..], rest)
  }

  function NextDatagram(s: seq<Byte>): Decoded {
    if |s| < 2 then Incomplete
    else if Number(s) == 0 then NextDatagram(s[2..])
    else if |s| < 2 + Number(s) then Incomplete
    else Unframe(s[2..2 + Number(s)], s[2 + Number(s)..])
  }

  // Section 7 of RFC 1928: reserved bytes, fragment number, address, data.
  predicate SocksDatagram(d: seq<Byte>) {
    |d| > 3 && d[0] == 0 && d[1] == 0 && d[2] == 0 && AddressLength(d[3..], false).Some?
  }

  // Whatever frame is accepted, the result is a datagram of that form with an
  // address of known type.
  lemma UnframedIsSocks(body: seq<Byte>, rest: seq<Byte>)
    requires Unframe(body, rest).Got?
    ensures var r := Unframe(body, rest);
            && SocksDatagram(r.datagram) && r.flow < 65536 && |r.datagram| == |body| + 1
            && AddressLength(r.datagram[3..], false) == AddressLength(body, true)
  {
    var r := Unframe(body, rest);
    assert r.datagram[3..] == [body[0] % 16] + body[1..AddressLength(body, true).value] + body[AddressLength(body,
            true).value + 2..];
  }

  lemma {:induction false} DecodedIsSocks(s: seq<Byte>)
    requires NextDatagram(s).Got?
    ensures SocksDatagram(NextDatagram(s).datagram) && |NextDatagram(s).datagram| <= MAX_BODY + 1
    ensures NextDatagram(s).flow < 65536
  {
    if Number(s) == 0 {
      DecodedIsSocks(s[2..]);
    } else {
      UnframedIsSocks(s[2..2 + Number(s)], s[2 + Number(s)..]);
    }
  }

  // ---------- round trip ----------

  lemma FrameDecodes(flow: nat, d: seq<Byte>, rest: seq<Byte>)
    requires flow < 65536 && WriteProblem(d).None?
    ensures NextDatagram(FrameOf(flow, d) + rest) == Got(flow, d, rest)
  {
    var s := FrameOf(flow, d) + rest;
    var body := d[3..10] + U16(flow) + d[10..];
    assert Number(s) == |d| - 1 == |body|;
    assert s[2..2 + Number(s)] == body && s[2 + Number(s)..] == rest;
    assert AddressLength(body, true) == Some(7);
    assert Number(body[7..]) == flow;
    assert d == [0, 0, 0, 1] + d[4..10] + d[10..];
    assert body[1..7] == d[4..10] && body[9..] == d[10..];
  }

  function Keepalives(n: nat): seq<Byte> {
    seq(2 * n, i => 0)
  }

  lemma {:induction false} KeepalivesSkipped(n: nat, s: seq<Byte>)
    ensures NextDatagram(Keepalives(n) + s) == NextDatagram(s)
  {
    if n == 0 {
      assert Keepalives(0) + s == s;
    } else {
      var t := Keepalives(n) + s;
      assert t[2..] == Keepalives(n - 1) + s;
      KeepalivesSkipped(n - 1, s);
    }
  }

  // One datagram of a conversation, with the keepalives sent before it.
  datatype Sending = Sending(keepalives: nat, flow: nat, datagram: seq<Byte>) {
    predicate Accepted() {
      flow < 65536 && WriteProblem(datagram).None?
    }
  }

  predicate Sendable(ss: seq<Sending>) {
    forall i | 0 <= i < |ss| :: ss[i].Accepted()
  }

  function Transmission(ss: seq<Sending>): seq<Byte>
    requires Sendable(ss)
  {
    if ss == [] then []
    else Keepalives(ss[0].keepalives) + FrameOf(ss[0].flow, ss[0].datagram) + Transmission(ss[1..])
  }

  function Payloads(ss: seq<Sending>): seq<(nat, seq<Byte>)> {
    if ss == [] then [] else [(ss[0].flow, ss[0].datagram)] + Payloads(ss[1..])
  }

  // Reading on and on until the stream has no further complete frame.
  function DecodeAll(s: seq<Byte>): seq<(nat, seq<Byte>)>
    decreases |s|
  {
    match NextDatagram(s)
    case Got(flow, datagram, rest) => if |rest| < |s| then [(flow, datagram)] + DecodeAll(rest) else []
    case _ => []
  }

  // Every sequence of accepted datagrams, with keepalives anywhere, comes out as
  // it went in.
  lemma {:induction false} TransmissionDecodes(ss: seq<Sending>, trailing: nat)
    requires Sendable(ss)
    ensures DecodeAll(Transmission(ss) + Keepalives(trailing)) == Payloads(ss)
    decreases |ss|
  {
    var stream := Transmission(ss) + Keepalives(trailing);
    if ss == [] {
      KeepalivesSkipped(trailing, []);
      assert stream == Keepalives(trailing) + [];
    } else {
      var rest := Transmission(ss[1..]) + Keepalives(trailing);
      var frame := FrameOf(ss[0].flow, ss[0].datagram);
      assert ss[0].Accepted();
      assert stream == Keepalives(ss[0].keepalives) + (frame + rest);
      KeepalivesSkipped(ss[0].keepalives, frame + rest);
      FrameDecodes(ss[0].flow, ss[0].datagram, rest);
      TransmissionDecodes(ss[1..], trailing);
    }
  }

  // The longest accepted datagram is one byte longer than the largest buffer a
  // 16-bit size can describe; anything up to 65535 bytes fits such a buffer.
  lemma AcceptedSizes(d: seq<Byte>)
    requires WriteProblem(d).None?
    ensures 10 <= |d| <= MAX_BODY + 1
    ensures var longest: seq<Byte> := [0, 0, 0, 1] + seq(MAX_BODY - 3, i => 0);
            WriteProblem(longest).None? && |longest| == MAX_BODY + 1
  {
    var longest: seq<Byte> := [0, 0, 0, 1] + seq(MAX_BODY - 3, i => 0);
    assert longest[3..][0] == 1;
  }

  // ---------- the writer ----------

  class UotWriter {
    const sink: Sink
    var frame: array<Byte>

    constructor (sink: Sink)
      ensures this.sink == sink && frame.Length == INITIAL_BUFFER && fresh(frame)
    {
      this.sink := sink;
      this.frame := new Byte[INITIAL_BUFFER](_ => 0);
    }

    method WriteSocksDatagram(flow: nat, d: seq<Byte>) returns (err: Option<UotError>)
      requires flow < 65536
      modifies this, frame, sink
      ensures frame == old(frame) || fresh(frame)
      ensures WriteProblem(d).Some? ==>
                err == WriteProblem(d) && sink.written == old(sink.written) && sink.replies == old(sink.replies)
      ensures WriteProblem(d).None? && err.None? ==> sink.written == old(sink.written) + FrameOf(flow, d)
      ensures WriteProblem(d).None? && err.Some? ==>
                err.value.Stream? && exists k ::
                  0 <= k <= |FrameOf(flow, d)| && sink.written == old(sink.written) + FrameOf(flow, d)[..k]
      ensures Willing(old(sink.replies)) ==> Willing(sink.replies) && err == WriteProblem(d)
    {
      if |d| < 3 || d[0] != 0 || d[1] != 0 {
        return Some(InvalidDatagram);
      }
      if d[2] != 0 {
        return Some(FragmentedDatagram);
      }
      var inner := d[3..];
      var a := AddressLengthOf(inner, false);
      if a.None? {
        return Some(InvalidDatagram);
      }
      if inner[0] != 1 {
        return Some(UnsupportedAddress);
      }
      var bodyLength := |inner| + 2;
      if bodyLength > MAX_BODY {
        return Some(InvalidDatagram);
      }
      var frameLength := 2 + bodyLength;
      if frame.Length < frameLength {
        frame := new Byte[frameLength](_ => 0);
      }
      FillFrame(flow, d, a.value);
      var failure := WriteFull(sink, frame, frameLength);
      assert forall k | 0 <= k <= frameLength :: frame[..k] == FrameOf(flow, d)[..k];
      return if failure.Some? then Some(Stream(failure.value)) else None;
    }

    // Length, address, flow, payload.
    method FillFrame(flow: nat, d: seq<Byte>, addressLength: nat)
      requires flow < 65536 && WriteProblem(d).None? && Some(addressLength) == AddressLength(d[3..], false)
      requires |d| + 1 <= frame.Length
      modifies frame
      ensures frame[..|d| + 1] == FrameOf(flow, d)
    {
      var inner := d[3..];
      var size := |inner| + 2;
      Put(0, [size / 256, size % 256]);
      Put(2, inner[..addressLength]);
      Put(2 + addressLength, [flow / 256, flow % 256]);
      Put(2 + addressLength + 2, inner[addressLength..]);
      assert inner[..addressLength] == d[3..10] && inner[addressLength..] == d[10..];
    }

    // copy(frame[at:], data)
    method Put(at: nat, data: seq<Byte>)
      requires at + |data| <= frame.Length
      modifies frame
      ensures frame[..at + |data|] == old(frame[..at]) + data
    {
      forall i | 0 <= i < |data| {
        frame[at + i] := data[i];
      }
    }
  }

  // ---------- the reader ----------

  // The next frame of an upstream that can fail: its body and what is left, or
  // the error that came before its last byte.
  datatype Arrival = Arrived(body: seq<Byte>, rest: seq<Chunk>) | Failed(cause: IoError, rest: seq<Chunk>)

  function Remaining(chunks: seq<Chunk>): nat {
    |Bytes(chunks)|
  }

  function NextBody(chunks: seq<Chunk>): Arrival
    decreases Remaining(chunks)
  {
    var prefix := Gather(chunks, 2);
    GatherBytes(chunks, 2);
    if |prefix.data| < 2 then Failed(Shortfall(prefix, 2).value, prefix.rest)
    else if Number(prefix.data) == 0 then NextBody(prefix.rest)
    else BodyOf(Number(prefix.data), prefix.rest)
  }

  function BodyOf(length: nat, chunks: seq<Chunk>): Arrival {
    var body := Gather(chunks, length);
    if |body.data| < length then Failed(Shortfall(body, length).value, body.rest) else Arrived(body.data, body.rest)
  }

  lemma BodyDecodes(s: seq<Byte>, chunks: seq<Chunk>)
    requires |s| >= 2 && Number(s) > 0 && s[2..] == Bytes(chunks)
    ensures match BodyOf(Number(s), chunks)
            case Arrived(body, rest) => NextDatagram(s) == Unframe(body, Bytes(rest)) && |body| == Number(s)
                && (Quiet(chunks) ==> Quiet(rest))
            case Failed(_, rest) => Quiet(chunks) ==> NextDatagram(s) == Incomplete && Quiet(rest)
  {
    var g := Gather(chunks, Number(s));
    GatherBytes(chunks, Number(s));
    BodyAndRest(s, g.data, Bytes(g.rest));
  }

  // An arrived body is the next frame of the bytes, errors or not; without
  // errors a frame that is all there arrives.
  lemma {:induction false} ArrivalDecodes(chunks: seq<Chunk>)
    ensures NextBody(chunks).Arrived? ==>
              NextDatagram(Bytes(chunks)) == Unframe(NextBody(chunks).body, Bytes(NextBody(chunks).rest))
                  && 0 < |NextBody(chunks).body| < 65536
    ensures Quiet(chunks) ==> Quiet(NextBody(chunks).rest)
    ensures Quiet(chunks) && NextBody(chunks).Failed? ==> NextDatagram(Bytes(chunks)) == Incomplete
    decreases Remaining(chunks)
  {
    var prefix := Gather(chunks, 2);
    GatherBytes(chunks, 2);
    if |prefix.data| == 2 {
      assert Bytes(chunks)[2..] == Bytes(prefix.rest) && Number(Bytes(chunks)) == Number(prefix.data);
      if Number(prefix.data) == 0 {
        ArrivalDecodes(prefix.rest);
      } else {
        BodyDecodes(Bytes(chunks), prefix.rest);
      }
    }
  }

  lemma BodyAndRest(s: seq<Byte>, body: seq<Byte>, rest: seq<Byte>)
    requires |s| >= 2 && s[2..] == body + rest
    ensures s[2..2 + |body|] == body && s[2 + |body|..] == rest
  {
    assert s[2..2 + |body|] == s[2..][..|body|] && s[2 + |body|..] == s[2..][|body|..];
  }

  class UotReader {
    const source: Source
    var body: array<Byte>

    constructor (source: Source)
      ensures this.source == source && body.Length == INITIAL_BUFFER && fresh(body)
    {
      this.source := source;
      this.body := new Byte[INITIAL_BUFFER](_ => 0);
    }

    // The destination is the caller's; nothing is left in it unless a datagram
    // came through.
    method ReadSocksDatagram(dst: array<Byte>) returns (n: nat, flow: nat, err: Option<UotError>)
      requires dst != body
      modifies this, body, source, dst
      ensures body == old(body) || fresh(body)
      ensures source.chunks == NextBody(old(source.chunks)).rest
      ensures match NextBody(old(source.chunks))
              case Failed(cause, _) => err == Some(Stream(cause))
              case Arrived(body, _) => err.None? || err.value.InvalidFrame? || err.value.ShortBuffer?
      ensures var r := NextDatagram(old(Bytes(source.chunks)));
              match err
              case None => n <= dst.Length && r == Got(flow, dst[..n], Bytes(source.chunks))
                  && dst[n..] == old(dst[n..])
              case Some(InvalidFrame) => r == Broken(Bytes(source.chunks))
              case Some(ShortBuffer) => r.Got? && |r.datagram| > dst.Length && r.rest == Bytes(source.chunks)
              case Some(Stream(_)) => r == Incomplete || !Quiet(old(source.chunks))
              case _ => false
      // Whatever comes through is a datagram of the promised form.
      ensures err.None? ==> SocksDatagram(dst[..n]) && n <= MAX_BODY + 1 && flow < 65536
      ensures err.Some? ==> dst[..] == old(dst[..]) && n == 0 && flow == 0
      ensures Quiet(old(source.chunks)) ==> Quiet(source.chunks)
    {
      ghost var start, before := source.chunks, dst[..];
      ArrivalDecodes(start);
      if NextDatagram(Bytes(start)).Got? {
        DecodedIsSocks(Bytes(start));
      }
      var prefix := new Byte[2](_ => 0);
      while true
        invariant fresh(prefix) && prefix.Length == 2
        invariant NextBody(start) == NextBody(source.chunks)
        invariant body == old(body) && dst[..] == before
        decreases Remaining(source.chunks)
      {
        GatherBytes(source.chunks, 2);
        var got, failure := ReadFull(source, prefix, 2);
        if failure.Some? {
          return 0, 0, Some(Stream(failure.value));
        }
        assert prefix[..] == prefix[..2];
        var bodyLength := (prefix[0] as nat) * 256 + prefix[1] as nat;
        assert bodyLength == Number(prefix[..]);
        if bodyLength == 0 {
          continue;
        }
        n, flow, err := ReadBody(dst, bodyLength);
        return;
      }
    }

    method ReadBody(dst: array<Byte>, bodyLength: nat) returns (n: nat, flow: nat, err: Option<UotError>)
      requires dst != body && 0 < bodyLength < 65536
      modifies this, body, source, dst
      ensures body == old(body) || fresh(body)
      ensures source.chunks == BodyOf(bodyLength, old(source.chunks)).rest
      ensures match BodyOf(bodyLength, old(source.chunks))
              case Failed(cause, _) => err == Some(Stream(cause))
              case Arrived(b, rest) =>
                match err
                case None => n <= dst.Length && Unframe(b, Bytes(rest)) == Got(flow, dst[..n], Bytes(rest))
                    && dst[n..] == old(dst[n..])
                case Some(InvalidFrame) => Unframe(b, Bytes(rest)) == Broken(Bytes(rest))
                case Some(ShortBuffer) => Unframe(b, Bytes(rest)).Got?
                    && |Unframe(b, Bytes(rest)).datagram| > dst.Length
                case _ => false
      ensures err.Some? ==> dst[..] == old(dst[..]) && n == 0 && flow == 0
    {
      if body.Length < bodyLength {
        body := new Byte[bodyLength](_ => 0);
      }
      var got, failure := ReadFull(source, body, bodyLength);
      if failure.Some? {
        return 0, 0, Some(Stream(failure.value));
      }
      n, flow, err := Deliver(dst, body[..bodyLength], Bytes(source.chunks));
    }

    method Deliver(dst: array<Byte>, b: seq<Byte>, ghost rest: seq<Byte>)
      returns (n: nat, flow: nat, err: Option<UotError>)
      requires 0 < |b| < 65536
      modifies dst
      ensures match err
              case None => n <= dst.Length && Unframe(b, rest) == Got(flow, dst[..n], rest) && dst[n..] == old(dst[n..])
              case Some(InvalidFrame) => Unframe(b, rest) == Broken(rest)
              case Some(ShortBuffer) => Unframe(b, rest).Got? && |Unframe(b, rest).datagram| > dst.Length
              case _ => false
      ensures err.Some? ==> dst[..] == old(dst[..]) && n == 0 && flow == 0
    {
      var a := AddressLengthOf(b, true);
      if a.None? || a.value + 2 > |b| {
        return 0, 0, Some(InvalidFrame);
      }
      var outputLength := 3 + |b| - 2;
      if dst.Length < outputLength {
        return 0, 0, Some(ShortBuffer);
      }
      flow := (b[a.value] as nat) * 256 + b[a.value + 1] as nat;
      Fill(dst, b, a.value, outputLength);
      return outputLength, flow, None;
    }

    // Restore the prefix, mask the address type, and leave the flow out.
    method Fill(dst: array<Byte>, b: seq<Byte>, addressLength: nat, outputLength: nat)
      requires 1 <= addressLength && addressLength + 2 <= |b| && outputLength == |b| + 1 <= dst.Length
      modifies dst
      ensures dst[..outputLength] == [0, 0, 0, b[0] % 16] + b[1..addressLength] + b[addressLength + 2..]
      ensures dst[outputLength..] == old(dst[outputLength..])
    {
      dst[0], dst[1], dst[2] := 0, 0, 0;
      forall i | 0 <= i < addressLength {
        dst[3 + i] := b[i];
      }
      dst[3] := dst[3] % 16;
      forall i | 0 <= i < outputLength - 3 - addressLength {
        dst[3 + addressLength + i] := b[addressLength + 2 + i];
      }
    }
  }
}
