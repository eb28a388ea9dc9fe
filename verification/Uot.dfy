/** UDP-over-stream framing: the one-shot reader (src/protocol/uot.rs) and the reader that may be cancelled
    at any await and started again (src/vector/udp_flow.rs). */
module Uot {
  import opened Wrappers

  const HEADER_LEN := 2
  const PACKET_MAX := 0xFFFF

  function Encode(payload: Bytes): Option<Bytes> {
    if |payload| > PACKET_MAX then None else Some(U16Bytes(|payload|) + payload)
  }

  datatype End = Eof | ShortLength | ShortPayload

  /** The first packet of a stream and what follows it, or why there is none. */
  datatype One = Packet(payload: Bytes, rest: Bytes) | Stop(end: End)

  function ReadOne(stream: Bytes): One {
    if stream == [] then Stop(Eof)
    else if |stream| < HEADER_LEN then Stop(ShortLength)
    else
      var n := U16(stream[0], stream[1]);
      if |stream| - HEADER_LEN < n then Stop(ShortPayload)
      else Packet(stream[HEADER_LEN..HEADER_LEN + n], stream[HEADER_LEN + n..])
  }

  /** All packets of a stream and how it ends. */
  function ReadAll(stream: Bytes): (seq<Bytes>, End)
    decreases |stream|
  {
    match ReadOne(stream)
    case Stop(end) => ([], end)
    case Packet(payload, rest) =>
      var (more, end) := ReadAll(rest);
      ([payload] + more, end)
  }

  function Stream(packets: seq<Bytes>): Bytes
    requires forall i :: 0 <= i < |packets| ==> |packets[i]| <= PACKET_MAX
  {
    if packets == [] then [] else Encode(packets[0]).value + Stream(packets[1..])
  }

  /** Reading inverts writing: concatenated packets come back one by one, then a clean end. */
  lemma {:induction false} ReadAllInvertsStream(packets: seq<Bytes>)
    requires forall i :: 0 <= i < |packets| ==> |packets[i]| <= PACKET_MAX
    ensures ReadAll(Stream(packets)) == (packets, Eof)
  {
    if packets != [] {
      var first, rest := packets[0], Stream(packets[1..]);
      ReadAllInvertsStream(packets[1..]);
      OneAhead(first, rest);
      assert packets == [first] + packets[1..];
    }
  }

  lemma OneAhead(payload: Bytes, rest: Bytes)
    requires |payload| <= PACKET_MAX
    ensures ReadOne(U16Bytes(|payload|) + payload + rest) == Packet(payload, rest)
  {
    var s := U16Bytes(|payload|) + payload + rest;
    assert s[0] == U16Bytes(|payload|)[0] && s[1] == U16Bytes(|payload|)[1];
    assert s[HEADER_LEN..HEADER_LEN + |payload|] == payload;
    assert s[HEADER_LEN + |payload|..] == rest;
  }

  /** Writing inverts reading: what was read, framed again, is the stream up to where reading stopped. */
  lemma OneBehind(stream: Bytes)
    requires ReadOne(stream).Packet?
    ensures var r := ReadOne(stream);
            |r.payload| <= PACKET_MAX && stream == U16Bytes(|r.payload|) + r.payload + r.rest
  {
    U16Injective(stream[0], stream[1]);
    assert stream == stream[..HEADER_LEN] + stream[HEADER_LEN..];
    assert stream[..HEADER_LEN] == [stream[0], stream[1]];
  }

  // ---------------------------------------------------------------------------------------------
  // The transport.

  /** What one read does: give at most `n` more bytes than one, or be cancelled while it waits. */
  datatype Move = Chunk(n: nat) | Cancel

  /** Nobody interrupts. */
  predicate Steady(moves: seq<Move>) {
    forall i :: 0 <= i < |moves| ==> moves[i].Chunk?
  }

  /** A byte stream still to come, and how it is going to be cut and interrupted. */
  class Source {
    var left: Bytes
    var moves: seq<Move>

    /** A read into `room` bytes: some bytes from the front, none only at the end of the stream. */
    method Read(room: nat) returns (got: Option<Bytes>)
      requires room > 0
      modifies this
      ensures got.None? ==> left == old(left) && |moves| < |old(moves)|
      ensures got.Some? ==> got.value + left == old(left) && |got.value| <= room && |moves| <= |old(moves)|
      ensures got.Some? ==> (got.value == [] <==> old(left) == [])
      ensures Steady(old(moves)) ==> got.Some? && Steady(moves)
    {
      var n := room;
      if moves != [] {
        var move := moves[0];
        moves := moves[1..];
        match move {
          case Cancel => return None;
          case Chunk(m) =>
            if m + 1 < n {
              n := m + 1;
            }
        }
      }
      if |left| < n {
        n := |left|;
      }
      got := Some(left[..n]);
      left := left[n..];
    }
  }

  /** A buffer that keeps its contents between calls. */
  class Buffer {
    var data: Bytes

    method Resize(n: nat)
      modifies this
      ensures |data| == n
      ensures forall i :: 0 <= i < n && i < |old(data)| ==> data[i] == old(data)[i]
    {
      data := if n <= |data| then data[..n] else data + seq(n - |data|, _ => 0);
    }

    method Write(at: nat, bytes: Bytes)
      requires at + |bytes| <= |data|
      modifies this
      ensures data == old(data)[..at] + bytes + old(data)[at + |bytes|..]
    {
      data := data[..at] + bytes + data[at + |bytes|..];
    }
  }

  // ---------------------------------------------------------------------------------------------
  // The one-shot reader.

  /** `read_exact`: `n` bytes, or all that is left when there are fewer. */
  method ReadExact(source: Source, n: nat) returns (got: Bytes)
    requires Steady(source.moves)
    modifies source
    ensures Steady(source.moves) && got + source.left == old(source.left)
    ensures |got| <= n && (|got| < n ==> source.left == [])
  {
    got := [];
    while |got| < n
      invariant Steady(source.moves) && got + source.left == old(source.left) && |got| <= n
      decreases n - |got|
    {
      ghost var left := source.left;
      var more := source.Read(n - |got|);
      if more.value == [] {
        return;
      }
      assert got + (more.value + source.left) == got + more.value + source.left;
      got := got + more.value;
    }
  }

  /** `read_udp_packet_into` is the function the specification reads streams with. */
  method ReadUdpPacketInto(source: Source, buffer: Buffer) returns (r: One)
    requires Steady(source.moves)
    modifies source, buffer
    ensures r == ReadOne(old(source.left))
    ensures r.Packet? ==> buffer.data == r.payload && source.left == r.rest
    ensures r == Stop(Eof) ==> buffer.data == []
  {
    ghost var stream := source.left;
    var first := source.Read(1);
    if first.value == [] {
      buffer.data := [];
      return Stop(Eof);
    }
    var second := ReadExact(source, 1);
    assert stream == first.value + second + source.left;
    if |second| < 1 {
      return Stop(ShortLength);
    }
    var n := U16(first.value[0], second[0]);
    assert stream[0] == first.value[0] && stream[1] == second[0];
    buffer.Resize(n);
    var payload := ReadExact(source, n);
    assert stream == (first.value + second) + (payload + source.left);
    assert stream[HEADER_LEN..] == payload + source.left;
    if |payload| < n {
      return Stop(ShortPayload);
    }
    buffer.Write(0, payload);
    assert buffer.data == payload;
    assert stream[HEADER_LEN + n..] == source.left;
    return Packet(payload, source.left);
  }

  // ---------------------------------------------------------------------------------------------
  // The reader that may be cancelled.

  datatype Result = Got(len: nat) | Ended(end: End) | Cancelled

  class UotReadState {
    var header: Bytes
    var headerRead: nat
    var payloadLen: Option<nat>
    var payloadRead: nat

    constructor ()
      ensures Fresh()
    {
      header, headerRead, payloadLen, payloadRead := [0, 0], 0, None, 0;
    }

    predicate Fresh()
      reads this
    {
      |header| == HEADER_LEN && headerRead == 0 && payloadLen == None && payloadRead == 0
    }

    /** Partly read packets are kept in the state and in the buffer. */
    predicate Valid(buffer: Buffer)
      reads this, buffer
    {
      && |header| == HEADER_LEN && headerRead <= HEADER_LEN
      && (payloadLen.None? ==> payloadRead == 0)
      && (payloadLen.Some? ==>
            && headerRead == HEADER_LEN && payloadLen.value == U16(header[0], header[1])
            && |buffer.data| == payloadLen.value && payloadRead <= payloadLen.value)
    }

    /** The bytes taken from the source and not delivered yet. */
    function Held(buffer: Buffer): Bytes
      requires Valid(buffer)
      reads this, buffer
    {
      header[..headerRead] + if payloadLen.Some? then buffer.data[..payloadRead] else []
    }

    method ReadHeader(source: Source, buffer: Buffer) returns (stopped: Option<Result>)
      requires Valid(buffer)
      modifies this, source
      ensures Valid(buffer) && |source.moves| <= old(|source.moves|)
      ensures payloadLen == old(payloadLen) && payloadRead == old(payloadRead)
      ensures stopped.None? ==> headerRead == HEADER_LEN
      ensures Held(buffer) + source.left == old(Held(buffer) + source.left)
      ensures stopped == Some(Cancelled) ==> |source.moves| < old(|source.moves|)
      ensures stopped.Some? && stopped != Some(Cancelled) ==>
                stopped == Some(Ended(if headerRead == 0 then Eof else ShortLength)) && headerRead < HEADER_LEN
                  && source.left == []
    {
      while headerRead != HEADER_LEN
        invariant Valid(buffer) && |source.moves| <= old(|source.moves|)
        invariant payloadLen == old(payloadLen) && payloadRead == old(payloadRead)
        invariant Held(buffer) + source.left == old(Held(buffer) + source.left)
        decreases HEADER_LEN - headerRead
      {
        ghost var held, left := Held(buffer), source.left;
        var got := source.Read(HEADER_LEN - headerRead);
        if got.None? {
          return Some(Cancelled);
        }
        if got.value == [] {
          return Some(Ended(if headerRead == 0 then Eof else ShortLength));
        }
        header := header[..headerRead] + got.value + header[headerRead + |got.value|..];
        headerRead := headerRead + |got.value|;
        assert header[..headerRead] == held + got.value;
        assert held + got.value + source.left == held + (got.value + source.left);
      }
      return None;
    }

    method ReadPayload(source: Source, buffer: Buffer) returns (stopped: Option<Result>)
      requires Valid(buffer) && payloadLen.Some?
      modifies this, source, buffer
      ensures Valid(buffer) && |source.moves| <= old(|source.moves|)
      ensures payloadLen == old(payloadLen) && header == old(header) && headerRead == old(headerRead)
      ensures stopped.None? ==> payloadRead == payloadLen.value
      ensures Held(buffer) + source.left == old(Held(buffer) + source.left)
      ensures stopped == Some(Cancelled) ==> |source.moves| < old(|source.moves|)
      ensures stopped.Some? && stopped != Some(Cancelled) ==>
                stopped == Some(Ended(ShortPayload)) && payloadRead < payloadLen.value && source.left == []
    {
      while payloadRead != payloadLen.value
        invariant Valid(buffer) && |source.moves| <= old(|source.moves|)
        invariant payloadLen == old(payloadLen) && header == old(header) && headerRead == old(headerRead)
        invariant Held(buffer) + source.left == old(Held(buffer) + source.left)
        decreases payloadLen.value - payloadRead
      {
        ghost var held, left := Held(buffer), source.left;
        var got := source.Read(payloadLen.value - payloadRead);
        if got.None? {
          return Some(Cancelled);
        }
        if got.value == [] {
          return Some(Ended(ShortPayload));
        }
        buffer.Write(payloadRead, got.value);
        payloadRead := payloadRead + |got.value|;
        assert Held(buffer) == held + got.value;
        assert held + got.value + source.left == held + (got.value + source.left);
      }
      return None;
    }

    /** `read_packet`, called again with the same buffer after every cancellation: nothing is lost by a
        cancelled call, and any other outcome is the one-shot reader's on everything not delivered yet. */
    method ReadPacket(source: Source, buffer: Buffer) returns (result: Result)
      requires Valid(buffer)
      modifies this, source, buffer
      ensures |source.moves| <= old(|source.moves|)
      ensures result.Cancelled? ==>
                Valid(buffer) && Held(buffer) + source.left == old(Held(buffer) + source.left)
                && |source.moves| < old(|source.moves|)
      ensures result.Got? ==>
                Fresh() && ReadOne(old(Held(buffer) + source.left)) == Packet(buffer.data, source.left)
                && result.len == |buffer.data|
      ensures result.Ended? ==> ReadOne(old(Held(buffer) + source.left)) == Stop(result.end)
    {
      ghost var stream := Held(buffer) + source.left;
      var stopped := ReadHeader(source, buffer);
      if stopped.Some? {
        if stopped.value == Ended(Eof) {
          buffer.data := [];
        }
        return stopped.value;
      }
      assert stream[0] == header[0] && stream[1] == header[1];
      if payloadLen.None? {
        payloadLen := Some(U16(header[0], header[1]));
      }
      buffer.Resize(payloadLen.value);
      assert Held(buffer) + source.left == stream;
      stopped := ReadPayload(source, buffer);
      assert Held(buffer) == header + buffer.data[..payloadRead];
      if stopped.Some? {
        return stopped.value;
      }
      assert buffer.data[..payloadRead] == buffer.data;
      assert stream[HEADER_LEN..HEADER_LEN + payloadRead] == buffer.data
             && stream[HEADER_LEN + payloadRead..] == source.left;
      var n := payloadLen.value;
      headerRead, payloadLen, payloadRead := 0, None, 0;
      return Got(n);
    }
  }

  lemma ReadAllStep(stream: Bytes)
    ensures match ReadOne(stream)
            case Stop(end) => ReadAll(stream) == ([], end)
            case Packet(payload, rest) =>
              ReadAll(stream) == ([payload] + ReadAll(rest).0, ReadAll(rest).1) && |rest| < |stream|
  {
  }

  /** The downlink loop: a cancelled read is simply tried again. For every stream, chunking and set of
      cancellation points it sees exactly the packets and the end of the one-shot reader. */
  method ReadEverything(state: UotReadState, source: Source, buffer: Buffer) returns (packets: seq<Bytes>, end: End)
    requires state.Valid(buffer)
    modifies state, source, buffer
    ensures (packets, end) == ReadAll(old(state.Held(buffer) + source.left))
  {
    hide ReadAll, ReadOne;
    packets := [];
    ghost var stream := state.Held(buffer) + source.left;
    assert [] + ReadAll(stream).0 == ReadAll(stream).0;
    while true
      invariant state.Valid(buffer)
      invariant ReadAll(stream) == (packets + ReadAll(state.Held(buffer) + source.left).0,
                                    ReadAll(state.Held(buffer) + source.left).1)
      decreases |state.Held(buffer) + source.left|, |source.moves|
    {
      ghost var now := state.Held(buffer) + source.left;
      var result := state.ReadPacket(source, buffer);
      ReadAllStep(now);
      match result {
        case Got(_) =>
          ghost var more := ReadAll(source.left).0;
          assert state.Held(buffer) + source.left == source.left;
          assert packets + ([buffer.data] + more) == packets + [buffer.data] + more;
          packets := packets + [buffer.data];
        case Ended(e) =>
          assert packets + [] == packets;
          return packets, e;
        case Cancelled =>
      }
    }
  }
}
