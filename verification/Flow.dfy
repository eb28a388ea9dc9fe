/** Logical-flow metadata: roles, carriers, header rules and the header codec (src/protocol/flow.rs). */
module Flow {
  import opened Wrappers

  const FLOW_HEADER_LEN := 5

  datatype FlowRole = Duplex | Open | Attach
  datatype FlowKind = Tcp | Udp
  datatype Carrier = TlsTcp | Quic

  /** Setup failures delivered on the selected downlink (src/protocol/result.rs). */
  datatype FlowErrorCode =
    | InvalidRequest
    | MetadataConflict
    | PairTimeout
    | FlowLimit
    | DialFailed
    | SessionReplaced
    | InternalError

  datatype FlowHeader = FlowHeader(role: FlowRole, flowId: nat, kind: FlowKind, uplink: Carrier, downlink: Carrier)
  {
    predicate Valid() {
      && 0 < flowId < 0x1_0000_0000
      && (role.Duplex? <==> uplink == downlink)
    }

    /** The carrier the lane of this header must arrive on. */
    function Lane(): Carrier {
      if role.Attach? then downlink else uplink
    }
  }

  function RoleBits(r: FlowRole): nat {
    match r case Duplex => 0 case Open => 1 case Attach => 2
  }

  function CarrierBit(c: Carrier): nat {
    if c.Quic? then 1 else 0
  }

  /** Role in bits 0..1, kind in bit 2, uplink in bit 3, downlink in bit 4. */
  function Flags(h: FlowHeader): (flags: byte)
    ensures flags < 32
  {
    RoleBits(h.role) + (if h.kind.Udp? then 4 else 0) + 8 * CarrierBit(h.uplink) + 16 * CarrierBit(h.downlink)
  }

  /** The metadata bits of an accepted flags byte, with flow id `id`; reserved bits and role 3 are refused. */
  function Unflag(flags: byte, id: nat): Option<FlowHeader> {
    if flags / 32 != 0 || flags % 4 == 3 then None
    else
      var role := if flags % 4 == 0 then Duplex else if flags % 4 == 1 then Open else Attach;
      var kind := if flags / 4 % 2 == 0 then Tcp else Udp;
      var uplink := if flags / 8 % 2 == 0 then TlsTcp else Quic;
      var downlink := if flags / 16 % 2 == 0 then TlsTcp else Quic;
      Some(FlowHeader(role, id, kind, uplink, downlink))
  }

  function Encode(h: FlowHeader): Bytes
    requires h.Valid()
  {
    [Flags(h)] + U32Bytes(h.flowId)
  }

  /** A zero id and a role that disagrees with the carriers are refused too. */
  function Decode(b: Bytes): Option<FlowHeader> {
    if |b| != FLOW_HEADER_LEN then None
    else
      var h := Unflag(b[0], U32(b[1..]));
      if h.Some? && h.value.Valid() then h else None
  }

  lemma FlagBits(x: nat)
    requires x < 32
    ensures x == x % 4 + 4 * (x / 4 % 2) + 8 * (x / 8 % 2) + 16 * (x / 16 % 2)
  {
    assert x / 8 == x / 4 / 2 && x / 16 == x / 8 / 2;
  }

  lemma UnflagInvertsFlags(h: FlowHeader)
    ensures Unflag(Flags(h), h.flowId) == Some(h)
  {
  }

  lemma FlagsInvertsUnflag(flags: byte, id: nat)
    requires Unflag(flags, id).Some?
    ensures Flags(Unflag(flags, id).value) == flags
  {
    FlagBits(flags);
  }

  lemma DecodeInvertsEncode(h: FlowHeader)
    requires h.Valid()
    ensures Decode(Encode(h)) == Some(h)
  {
    UnflagInvertsFlags(h);
    assert Encode(h)[1..] == U32Bytes(h.flowId);
  }

  /** Every accepted header is valid and is the only encoding of its value. */
  lemma EncodeInvertsDecode(b: Bytes)
    requires Decode(b).Some?
    ensures Decode(b).value.Valid() && Encode(Decode(b).value) == b
  {
    U32Injective(b[1..]);
    FlagsInvertsUnflag(b[0], U32(b[1..]));
    assert b == [b[0]] + b[1..];
  }
}
