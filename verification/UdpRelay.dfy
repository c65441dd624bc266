/**
 The two directions of a UDP association (internal/socks/udp.go): datagrams of
 the client go out as frames, frames come back as datagrams. Each direction is
 a loop of its own; the packets the client's socket yields, and when the other
 direction learns where the client is, are arguments.
 */
module UdpRelay {
  import opened Foundations
  import opened Streams
  import opened Uot

  // The buffer for one datagram, in either direction.
  const MAX_PACKET: nat := 65535

  // ---------- from the client ----------

  // A datagram as the socket yields it: cut to the buffer or not, from the host
  // of the control connection or not, and its source port.
  datatype Packet = Packet(data: seq<Byte>, truncated: bool, ownHost: bool, port: nat) {
    predicate WellSourced() {
      ownHost && 1 <= port <= 65535
    }
  }

  predicate Welcome(endpoint: Option<nat>, pk: Packet) {
    !pk.truncated && pk.WellSourced() && (endpoint.None? || endpoint == Some(pk.port))
  }

  // The first well-sourced datagram settles the port of the client.
  function Next(endpoint: Option<nat>, pk: Packet): Option<nat> {
    if Welcome(endpoint, pk) then Some(pk.port) else endpoint
  }

  function Heard(endpoint: Option<nat>, packets: seq<Packet>): Option<nat>
    decreases |packets|
  {
    if packets == [] then endpoint else Heard(Next(endpoint, packets[0]), packets[1..])
  }

  predicate Passes(endpoint: Option<nat>, pk: Packet) {
    Welcome(endpoint, pk) && WriteProblem(pk.data).None?
  }

  // The packets that pass, in order.
  function Passed(endpoint: Option<nat>, packets: seq<Packet>): seq<Packet>
    decreases |packets|
  {
    if packets == [] then []
    else
      var rest := Passed(Next(endpoint, packets[0]), packets[1..]);
      if Passes(endpoint, packets[0]) then [packets[0]] + rest else rest
  }

  // As the frames they are sent in.
  function Framed(flow: nat, packets: seq<Packet>): seq<Sending> {
    seq(|packets|, i requires 0 <= i < |packets| => Sending(0, flow, packets[i].data))
  }

  lemma {:induction false} PassedAccepted(endpoint: Option<nat>, packets: seq<Packet>)
    ensures forall pk | pk in Passed(endpoint, packets) :: WriteProblem(pk.data).None?
    decreases |packets|
  {
    if packets != [] {
      PassedAccepted(Next(endpoint, packets[0]), packets[1..]);
    }
  }

  // The bytes that go out for the packets of the client.
  function Outbound(flow: nat, endpoint: Option<nat>, packets: seq<Packet>): seq<Byte>
    requires flow < 65536
  {
    PassedAccepted(endpoint, packets);
    Transmission(Framed(flow, Passed(endpoint, packets)))
  }

  lemma OutboundStep(flow: nat, endpoint: Option<nat>, packets: seq<Packet>)
    requires flow < 65536 && packets != []
    ensures Outbound(flow, endpoint, packets) ==
            (if Passes(endpoint, packets[0]) then FrameOf(flow, packets[0].data) else [])
            + Outbound(flow, Next(endpoint, packets[0]), packets[1..])
  {
    PassedAccepted(endpoint, packets);
    var (all, rest) := (Passed(endpoint, packets), Passed(Next(endpoint, packets[0]), packets[1..]));
    if Passes(endpoint, packets[0]) {
      assert Framed(flow, all)[1..] == Framed(flow, rest);
      assert Keepalives(0) == [];
    }
  }

  // A port that is settled stays, and whatever passes comes from the client's
  // host and from that one port.
  lemma {:induction false} OneSource(endpoint: Option<nat>, packets: seq<Packet>)
    ensures endpoint.Some? ==> Heard(endpoint, packets) == endpoint
    ensures forall pk | pk in Passed(endpoint, packets) ::
              pk in packets && pk.ownHost && Heard(endpoint, packets) == Some(pk.port)
    decreases |packets|
  {
    if packets != [] {
      OneSource(Next(endpoint, packets[0]), packets[1..]);
    }
  }

  // ---------- to the client ----------

  // The datagrams that reads into the buffer bring in until one fails.
  function Arrivals(chunks: seq<Chunk>): seq<(nat, seq<Byte>)>
    decreases Remaining(chunks)
  {
    ArrivalDecodes(chunks);
    match NextBody(chunks)
    case Failed(_, _) => []
    case Arrived(body, rest) =>
      BodyShrinks(chunks);
      match Unframe(body, [])
      case Got(flow, datagram, _) => if |datagram| > MAX_PACKET then [] else [(flow, datagram)] + Arrivals(rest)
      case _ => []
  }

  lemma {:induction false} BodyShrinks(chunks: seq<Chunk>)
    requires NextBody(chunks).Arrived?
    ensures Remaining(NextBody(chunks).rest) < Remaining(chunks)
    decreases Remaining(chunks)
  {
    var prefix := Gather(chunks, 2);
    GatherBytes(chunks, 2);
    if Number(prefix.data) == 0 {
      BodyShrinks(prefix.rest);
    } else {
      GatherBytes(prefix.rest, Number(prefix.data));
    }
  }

  // The first datagrams of a list, as long as they fit the buffer.
  function Fitting(datagrams: seq<(nat, seq<Byte>)>): seq<(nat, seq<Byte>)> {
    if datagrams == [] || |datagrams[0].1| > MAX_PACKET then [] else [datagrams[0]] + Fitting(datagrams[1..])
  }

  // Those of the flow of the association; none is passed on before the client's
  // port is known, which the first ones may come too early for.
  function Returned(arrivals: seq<(nat, seq<Byte>)>, flow: nat, unheard: nat): seq<seq<Byte>> {
    if arrivals == [] then []
    else
      var rest := Returned(arrivals[1..], flow, if unheard > 0 then unheard - 1 else 0);
      if arrivals[0].0 == flow && unheard == 0 then [arrivals[0].1] + rest else rest
  }

  // ---------- the main facts ----------

  // Without read errors the reads bring in what the bytes decode to, however the
  // bytes are cut, up to the first datagram that is too long for the buffer.
  lemma {:induction false} ArrivalsDecode(chunks: seq<Chunk>)
    requires Quiet(chunks)
    ensures Arrivals(chunks) == Fitting(DecodeAll(Bytes(chunks)))
    decreases Remaining(chunks)
  {
    ArrivalDecodes(chunks);
    if NextBody(chunks).Arrived? {
      var (body, rest) := (NextBody(chunks).body, NextBody(chunks).rest);
      var read := Unframe(body, []);
      BodyShrinks(chunks);
      assert read.Got? ==> Unframe(body, Bytes(rest)) == read.(rest := Bytes(rest));
      if read.Got? {
        ArrivalsDecode(rest);
        assert DecodeAll(Bytes(chunks)) == [(read.flow, read.datagram)] + DecodeAll(Bytes(rest));
      }
    }
  }

  // Accepted datagrams sent with keepalives anywhere, over bytes cut anywhere,
  // arrive as they were sent, up to the first that is too long for the buffer.
  lemma SentArrives(ss: seq<Sending>, trailing: nat, chunks: seq<Chunk>)
    requires Sendable(ss) && Quiet(chunks) && Bytes(chunks) == Transmission(ss) + Keepalives(trailing)
    ensures Arrivals(chunks) == Fitting(Payloads(ss))
  {
    TransmissionDecodes(ss, trailing);
    ArrivalsDecode(chunks);
  }

  function Contents(packets: seq<Packet>): seq<seq<Byte>> {
    seq(|packets|, i requires 0 <= i < |packets| => packets[i].data)
  }

  lemma {:induction false} FramedReturns(packets: seq<Packet>, flow: nat)
    requires forall pk | pk in packets :: |pk.data| <= MAX_PACKET
    ensures Returned(Fitting(Payloads(Framed(flow, packets))), flow, 0) == Contents(packets)
  {
    if packets != [] {
      assert packets[0] in packets;
      assert Framed(flow, packets)[1..] == Framed(flow, packets[1..]);
      FramedReturns(packets[1..], flow);
      assert Contents(packets) == [packets[0].data] + Contents(packets[1..]);
    }
  }

  // An upstream that sends back what it got returns to the client exactly the
  // datagrams that passed, in order, whole and once.
  lemma EchoReturns(endpoint: Option<nat>, packets: seq<Packet>, flow: nat, trailing: nat, chunks: seq<Chunk>)
    requires flow < 65536 && forall pk | pk in packets :: |pk.data| <= MAX_PACKET
    requires Quiet(chunks) && Bytes(chunks) == Outbound(flow, endpoint, packets) + Keepalives(trailing)
    ensures Returned(Arrivals(chunks), flow, 0) == Contents(Passed(endpoint, packets))
  {
    PassedAccepted(endpoint, packets);
    OneSource(endpoint, packets);
    SentArrives(Framed(flow, Passed(endpoint, packets)), trailing, chunks);
    FramedReturns(Passed(endpoint, packets), flow);
  }

  // ---------- the program ----------

  // One read, as the arrivals see it.
  lemma NextArrival(chunks: seq<Chunk>)
    ensures match NextBody(chunks)
            case Failed(_, _) => Arrivals(chunks) == []
            case Arrived(_, rest) =>
              && Remaining(rest) < Remaining(chunks)
              && match NextDatagram(Bytes(chunks))
                 case Got(flow, datagram, _) =>
                   Arrivals(chunks) == if |datagram| > MAX_PACKET then [] else [(flow, datagram)] + Arrivals(rest)
                 case _ => Arrivals(chunks) == []
  {
    ArrivalDecodes(chunks);
    if NextBody(chunks).Arrived? {
      BodyShrinks(chunks);
    }
  }

  class UdpAssociation {
    const flow: nat
    var endpoint: Option<nat>

    constructor (flow: nat, requested: nat)
      requires flow < 65536
      ensures this.flow == flow && endpoint == if requested != 0 then Some(requested) else None
    {
      this.flow := flow;
      this.endpoint := if requested != 0 then Some(requested) else None;
    }

    method AcceptSource(pk: Packet) returns (ok: bool)
      modifies this
      ensures ok <==> pk.WellSourced() && (old(endpoint).None? || old(endpoint) == Some(pk.port))
      ensures endpoint == if ok then Some(pk.port) else old(endpoint)
    {
      if pk.port < 1 || pk.port > 65535 {
        return false;
      }
      if !pk.ownHost {
        return false;
      }
      if endpoint.Some? {
        return pk.port == endpoint.value;
      }
      endpoint := Some(pk.port);
      return true;
    }

    // Ends when the socket yields no more, or a frame cannot be written.
    method ClientToUot(writer: UotWriter, packets: seq<Packet>) returns (err: Option<UotError>)
      requires flow < 65536
      modifies this, writer, writer.frame, writer.sink
      ensures var bytes := old(writer.sink.written) + Outbound(flow, old(endpoint), packets);
              if err.None? then endpoint == Heard(old(endpoint), packets) && writer.sink.written == bytes
              else err.value.Stream? && old(writer.sink.written) <= writer.sink.written <= bytes
      ensures Willing(old(writer.sink.replies)) ==> err.None? && Willing(writer.sink.replies)
    {
      for i := 0 to |packets|
        invariant writer.frame == old(writer.frame) || fresh(writer.frame)
        invariant Heard(endpoint, packets[i..]) == Heard(old(endpoint), packets)
        invariant writer.sink.written + Outbound(flow, endpoint, packets[i..])
                  == old(writer.sink.written) + Outbound(flow, old(endpoint), packets)
        invariant old(writer.sink.written) <= writer.sink.written
        invariant Willing(old(writer.sink.replies)) ==> Willing(writer.sink.replies)
      {
        OutboundStep(flow, endpoint, packets[i..]);
        assert packets[i..][1..] == packets[i + 1..];
        ghost var frame := if Passes(endpoint, packets[i]) then FrameOf(flow, packets[i].data) else [];
        Regroup(writer.sink.written, frame, Outbound(flow, Next(endpoint, packets[i]), packets[i + 1..]));
        err := Forward(writer, packets[i]);
        if err.Some? {
          return;
        }
      }
      assert packets[|packets|..] == [];
      err := None;
    }

    // One packet: a datagram that cannot be framed is dropped like a stray one.
    method Forward(writer: UotWriter, pk: Packet) returns (err: Option<UotError>)
      requires flow < 65536
      modifies this, writer, writer.frame, writer.sink
      ensures writer.frame == old(writer.frame) || fresh(writer.frame)
      ensures endpoint == Next(old(endpoint), pk)
      ensures !Passes(old(endpoint), pk) ==> err.None? && writer.sink.written == old(writer.sink.written)
      ensures Passes(old(endpoint), pk) && err.None? ==>
                writer.sink.written == old(writer.sink.written) + FrameOf(flow, pk.data)
      ensures err.Some? ==>
                && err.value.Stream? && Passes(old(endpoint), pk)
                && old(writer.sink.written) <= writer.sink.written
                && writer.sink.written <= old(writer.sink.written) + FrameOf(flow, pk.data)
      ensures Willing(old(writer.sink.replies)) ==> err.None? && Willing(writer.sink.replies)
    {
      if pk.truncated {
        return None;
      }
      var ok := AcceptSource(pk);
      if !ok {
        return None;
      }
      err := writer.WriteSocksDatagram(flow, pk.data);
      if err.Some? && (err.value.InvalidDatagram? || err.value.FragmentedDatagram? || err.value.UnsupportedAddress?) {
        return None;
      }
    }

    // Reads until one fails. The client's socket takes all datagrams, or fails
    // after a number of them; the first arrivals may come before its port is known.
    method UotToClient(reader: UotReader, unheard: nat, breaks: Option<nat>)
      returns (sent: seq<seq<Byte>>, ending: Ending)
      modifies reader, reader.body, reader.source
      ensures var all := Returned(Arrivals(old(reader.source.chunks)), flow, unheard);
              if breaks.Some? && breaks.value < |all|
              then ending == WriteFailed && sent == all[..breaks.value]
              else ending.ReadFailed? && sent == all
    {
      var packet := new Byte[MAX_PACKET](_ => 0);
      var early := unheard;
      sent := [];
      ghost var all := Returned(Arrivals(reader.source.chunks), flow, unheard);
      while true
        invariant reader.body == old(reader.body) || fresh(reader.body)
        invariant packet != reader.body
        invariant all == sent + Returned(Arrivals(reader.source.chunks), flow, early)
        invariant breaks.Some? ==> |sent| <= breaks.value
        decreases Remaining(reader.source.chunks)
      {
        var n, got, err := Receive(reader, packet);
        if err.Some? {
          return sent, ReadFailed(err.value);
        }
        ReturnedStep(sent, (got, packet[..n]), Arrivals(reader.source.chunks), flow, early);
        var known := early == 0;
        early := if early > 0 then early - 1 else 0;
        if got != flow || !known {
          continue;
        }
        if breaks.Some? && breaks.value == |sent| {
          return sent, WriteFailed;
        }
        sent := sent + [packet[..n]];
      }
    }
  }

  // One read into a buffer of the given size.
  method Receive(reader: UotReader, packet: array<Byte>) returns (n: nat, flow: nat, err: Option<UotError>)
    requires packet != reader.body && packet.Length == MAX_PACKET
    modifies reader, reader.body, reader.source, packet
    ensures reader.body != packet && (reader.body == old(reader.body) || fresh(reader.body))
    ensures err.None? ==>
              && n <= packet.Length && Remaining(reader.source.chunks) < Remaining(old(reader.source.chunks))
              && Arrivals(old(reader.source.chunks)) == [(flow, packet[..n])] + Arrivals(reader.source.chunks)
    ensures err.Some? ==> Arrivals(old(reader.source.chunks)) == []
  {
    NextArrival(reader.source.chunks);
    n, flow, err := reader.ReadSocksDatagram(packet);
  }

  // What one more arrival adds to what has been sent.
  lemma ReturnedStep(sent: seq<seq<Byte>>, first: (nat, seq<Byte>), rest: seq<(nat, seq<Byte>)>, flow: nat,
                     unheard: nat)
    ensures sent + Returned([first] + rest, flow, unheard) ==
            (if first.0 == flow && unheard == 0 then sent + [first.1] else sent)
            + Returned(rest, flow, if unheard > 0 then unheard - 1 else 0)
  {
    assert ([first] + rest)[1..] == rest;
  }

  // Why the way back ends: a read that fails, or a write to the client.
  datatype Ending = ReadFailed(cause: UotError) | WriteFailed
}
