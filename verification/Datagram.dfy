/** QUIC DATAGRAM frames and the fragment planner (src/protocol/datagram.rs). */
module Datagram {
  import opened Wrappers

  const DATA := 0
  const FRAGMENT := 1
  const CLOSE := 2
  const HEADER_LEN := 5
  const FRAGMENT_HEADER_LEN := 13
  const PACKET_MAX := 0xFFFF

  /** A `u32` identifier of a flow or a packet; zero is refused. */
  predicate IdOk(id: nat) {
    0 < id < 0x1_0000_0000
  }

  datatype Fragment = Fragment(packetId: nat, index: nat, count: nat, totalLen: nat, payload: Bytes)
  {
    /** `validate_fragment_metadata`. */
    predicate MetadataOk() {
      2 <= count <= 255 && index < count && count <= totalLen <= PACKET_MAX
    }

    /** Every other fragment has at least one byte, so this one leaves room for them. */
    predicate Valid() {
      IdOk(packetId) && MetadataOk() && payload != [] && |payload| + count - 1 <= totalLen
    }
  }

  datatype Frame = Data(flow: nat, payload: Bytes) | Piece(flow: nat, fragment: Fragment) | Close(flow: nat)
  {
    predicate Valid() {
      && IdOk(flow)
      && (Data? ==> |payload| <= PACKET_MAX)
      && (Piece? ==> fragment.Valid())
    }
  }

  function BaseHeader(kind: byte, flow: nat): (b: Bytes)
    requires IdOk(flow)
    ensures |b| == HEADER_LEN
  {
    [kind] + U32Bytes(flow)
  }

  function FragmentHeader(flow: nat, f: Fragment): (b: Bytes)
    requires IdOk(flow) && IdOk(f.packetId) && f.MetadataOk()
    ensures |b| == FRAGMENT_HEADER_LEN
  {
    BaseHeader(FRAGMENT, flow) + U32Bytes(f.packetId) + [f.index, f.count] + U16Bytes(f.totalLen)
  }

  function Encode(frame: Frame): Bytes
    requires frame.Valid()
  {
    match frame
    case Data(flow, payload) => BaseHeader(DATA, flow) + payload
    case Piece(flow, fragment) => FragmentHeader(flow, fragment) + fragment.payload
    case Close(flow) => BaseHeader(CLOSE, flow)
  }

  function DecodeFragment(b: Bytes, flow: nat): Option<Frame> {
    if |b| < FRAGMENT_HEADER_LEN then None
    else
      var f := Fragment(U32(b[5..9]), b[9], b[10], U16(b[11], b[12]), b[FRAGMENT_HEADER_LEN..]);
      if IdOk(f.packetId) && f.MetadataOk() && f.payload != [] && |f.payload| + f.count - 1 <= f.totalLen
      then Some(Piece(flow, f)) else None
  }

  function Decode(b: Bytes): Option<Frame> {
    if |b| < HEADER_LEN || b[0] / 4 != 0 then None
    else
      var flow := U32(b[1..5]);
      if flow == 0 then None
      else if b[0] == DATA then
        if |b| - HEADER_LEN > PACKET_MAX then None else Some(Data(flow, b[HEADER_LEN..]))
      else if b[0] == FRAGMENT then DecodeFragment(b, flow)
      else if b[0] == CLOSE then
        if |b| != HEADER_LEN then None else Some(Close(flow))
      else None
  }

  lemma DecodeInvertsEncode(frame: Frame)
    requires frame.Valid()
    ensures Decode(Encode(frame)) == Some(frame)
  {
    var b := Encode(frame);
    assert b[1..5] == U32Bytes(frame.flow);
    match frame
    case Data(flow, payload) => assert b[HEADER_LEN..] == payload;
    case Piece(flow, f) =>
      assert b[5..9] == U32Bytes(f.packetId);
      assert b[9] == f.index && b[10] == f.count;
      assert b[11..13] == U16Bytes(f.totalLen);
      assert b[11] == U16Bytes(f.totalLen)[0] && b[12] == U16Bytes(f.totalLen)[1];
      assert b[FRAGMENT_HEADER_LEN..] == f.payload;
    case Close(_) =>
  }

  lemma EncodeInvertsDecode(b: Bytes)
    requires Decode(b).Some?
    ensures Decode(b).value.Valid() && Encode(Decode(b).value) == b
  {
    var frame := Decode(b).value;
    U32Injective(b[1..5]);
    assert b[..HEADER_LEN] == [b[0]] + b[1..5];
    if frame.Piece? {
      U32Injective(b[5..9]);
      U16Injective(b[11], b[12]);
      assert b == b[..HEADER_LEN] + b[5..9] + [b[9], b[10]] + [b[11], b[12]] + b[FRAGMENT_HEADER_LEN..];
    } else if frame.Data? {
      assert b == b[..HEADER_LEN] + b[HEADER_LEN..];
    }
  }

  // ---------------------------------------------------------------------------------------------
  // Fragment plans.

  /** A packet cut into `count` pieces of at most `cap` bytes. */
  datatype Plan = Plan(flow: nat, packetId: nat, payload: Bytes, cap: nat, count: nat)
  {
    predicate Valid() {
      && IdOk(flow) && IdOk(packetId) && cap > 0 && 2 <= count <= 255
      && (count - 1) * cap < |payload| <= count * cap && |payload| <= PACKET_MAX
    }

    function Start(i: nat): (n: nat)
      ensures n <= |payload|
    {
      if i * cap <= |payload| then i * cap else |payload|
    }

    function Piece(i: nat): (f: Fragment)
      requires i < count
    {
      Fragment(packetId, i, count, |payload|, payload[Start(i)..Max(Start(i), Start(i + 1))])
    }
  }

  function Max(a: nat, b: nat): nat {
    if a <= b then b else a
  }

  function CeilDiv(n: nat, d: nat): nat
    requires d > 0
  {
    if n % d == 0 then n / d else n / d + 1
  }

  lemma CeilDivBounds(n: nat, d: nat, k: nat)
    requires d > 0
    ensures CeilDiv(n, d) <= k <==> n <= k * d
    ensures n > 0 ==> (CeilDiv(n, d) - 1) * d < n
  {
    var q, r := n / d, n % d;
    assert n == q * d + r;
    Times(q, d, k);
    Times(q - 1, d, k);
  }

  lemma Times(q: int, d: nat, k: nat)
    requires d > 0
    ensures (q + 1) * d == q * d + d
    ensures if q < k then q * d + d <= k * d else k * d <= q * d
  {
    if q < k {
      assert (k - q - 1) * d >= 0;
    } else {
      assert (q - k) * d >= 0;
    }
  }

  /** `encode_udp_fragments` up to the iterator it returns. */
  function MakePlan(flow: nat, packetId: nat, payload: Bytes, limit: nat): Option<Plan> {
    if !IdOk(flow) || !IdOk(packetId) || |payload| > PACKET_MAX then None
    else if limit >= HEADER_LEN && |payload| <= limit - HEADER_LEN then None
    else if limit <= FRAGMENT_HEADER_LEN then None
    else
      var cap := limit - FRAGMENT_HEADER_LEN;
      var count := CeilDiv(|payload|, cap);
      if 2 <= count <= 255 then Some(Plan(flow, packetId, payload, cap, count)) else None
  }

  /** Exactly the packets too long for one frame and short enough for 255 have a plan; a count below two
      cannot arise. */
  lemma PlanExists(flow: nat, packetId: nat, payload: Bytes, limit: nat)
    ensures MakePlan(flow, packetId, payload, limit).Some? <==>
              && IdOk(flow) && IdOk(packetId) && limit > FRAGMENT_HEADER_LEN
              && limit - HEADER_LEN < |payload| <= PACKET_MAX
              && |payload| <= 255 * (limit - FRAGMENT_HEADER_LEN)
    ensures MakePlan(flow, packetId, payload, limit).Some? ==>
              var p := MakePlan(flow, packetId, payload, limit).value;
              p.Valid() && p.flow == flow && p.packetId == packetId && p.payload == payload
              && p.cap == limit - FRAGMENT_HEADER_LEN
  {
    if limit > FRAGMENT_HEADER_LEN {
      var cap := limit - FRAGMENT_HEADER_LEN;
      CeilDivBounds(|payload|, cap, 255);
      CeilDivBounds(|payload|, cap, 1);
      CeilDivBounds(|payload|, cap, CeilDiv(|payload|, cap));
    }
  }

  lemma PieceBounds(p: Plan, i: nat)
    requires p.Valid() && i < p.count
    ensures p.Start(i) == i * p.cap < |p.payload|
    ensures p.Start(i + 1) == if i + 1 == p.count then |p.payload| else i * p.cap + p.cap
    ensures 0 < p.Start(i + 1) - p.Start(i) <= p.cap
    ensures |p.Piece(i).payload| == p.Start(i + 1) - p.Start(i)
  {
    assert i * p.cap <= (p.count - 1) * p.cap by {
      MulMonotone(i, p.count - 1, p.cap);
    }
    assert (i + 1) * p.cap == i * p.cap + p.cap;
    if i + 1 < p.count {
      MulMonotone(i + 1, p.count - 1, p.cap);
    }
  }

  lemma MulMonotone(a: nat, b: nat, c: nat)
    requires a <= b
    ensures a * c <= b * c
  {
  }

  lemma CapRoom(n: nat, cap: nat)
    requires n >= 2 && cap >= 1
    ensures cap + (n - 2) <= (n - 1) * cap
  {
    Times(n - 2, cap, 0);
    MulMonotone(1, cap, n - 2);
  }

  /** Every piece leaves one byte for each of the others. */
  lemma PieceValid(p: Plan, i: nat)
    requires p.Valid() && i < p.count
    ensures p.Piece(i).Valid()
  {
    PieceBounds(p, i);
    CapRoom(p.count, p.cap);
    if i + 1 == p.count {
      assert i * p.cap == (p.count - 1) * p.cap;
    }
  }

  function FrameAt(p: Plan, i: nat): Bytes
    requires p.Valid() && i < p.count
  {
    PieceValid(p, i);
    Encode(Frame.Piece(p.flow, p.Piece(i)))
  }

  /** Every frame of a plan fits the limit it was made for and decodes to its piece. */
  lemma FramesFitAndDecode(flow: nat, packetId: nat, payload: Bytes, limit: nat, i: nat)
    requires MakePlan(flow, packetId, payload, limit).Some?
    requires i < MakePlan(flow, packetId, payload, limit).value.count
    ensures var p := MakePlan(flow, packetId, payload, limit).value;
            && p.Valid() && |FrameAt(p, i)| <= limit
            && Decode(FrameAt(p, i)) == Some(Frame.Piece(flow, p.Piece(i)))
  {
    PlanExists(flow, packetId, payload, limit);
    var p := MakePlan(flow, packetId, payload, limit).value;
    PieceBounds(p, i);
    PieceValid(p, i);
    DecodeInvertsEncode(Frame.Piece(flow, p.Piece(i)));
  }

  function Joined(parts: seq<Bytes>): Bytes {
    if parts == [] then [] else Joined(parts[..|parts| - 1]) + parts[|parts| - 1]
  }

  function Pieces(p: Plan, n: nat): seq<Bytes>
    requires n <= p.count
  {
    seq(n, i requires 0 <= i < n => p.Piece(i).payload)
  }

  lemma PieceSlice(p: Plan, i: nat)
    requires p.Valid() && i < p.count
    ensures p.Start(i) <= p.Start(i + 1) && p.Piece(i).payload == p.payload[p.Start(i)..p.Start(i + 1)]
  {
    PieceBounds(p, i);
  }

  lemma Slices(s: Bytes, a: nat, b: nat)
    requires a <= b <= |s|
    ensures s[..a] + s[a..b] == s[..b]
  {
  }

  lemma {:induction false} PiecesAreTheStart(p: Plan, n: nat)
    requires p.Valid() && n <= p.count
    ensures Joined(Pieces(p, n)) == p.payload[..p.Start(n)]
  {
    hide Plan.Valid;
    if n > 0 {
      PiecesAreTheStart(p, n - 1);
      PieceSlice(p, n - 1);
      assert Pieces(p, n)[..n - 1] == Pieces(p, n - 1);
      Slices(p.payload, p.Start(n - 1), p.Start(n));
    }
  }

  /** The pieces of a plan, in index order, are the packet. */
  lemma PiecesMakeThePacket(p: Plan)
    requires p.Valid()
    ensures Joined(Pieces(p, p.count)) == p.payload
  {
    PiecesAreTheStart(p, p.count);
    PieceBounds(p, p.count - 1);
  }

  /** The lazy sequence of frames of one plan. */
  class UdpFragments {
    const plan: Plan
    var next: nat

    ghost predicate Valid()
      reads this
    {
      plan.Valid() && next <= plan.count
    }

    constructor (plan: Plan)
      requires plan.Valid()
      ensures Valid() && this.plan == plan && next == 0
    {
      this.plan := plan;
      next := 0;
    }

    method Next() returns (frame: Option<Bytes>)
      requires Valid()
      modifies this
      ensures Valid()
      ensures if old(next) < plan.count then next == old(next) + 1 && frame == Some(FrameAt(plan, old(next)))
              else next == old(next) && frame == None
    {
      if next >= plan.count {
        return None;
      }
      var index := next;
      next := next + 1;
      var start := index * plan.cap;
      var end := if |plan.payload| <= start + plan.cap then |plan.payload| else start + plan.cap;
      PieceBounds(plan, index);
      PieceValid(plan, index);
      assert (index + 1) * plan.cap == index * plan.cap + plan.cap;
      assert end == plan.Start(index + 1) by {
        if index + 1 < plan.count {
          MulMonotone(index + 1, plan.count - 1, plan.cap);
        }
      }
      var piece := plan.payload[start..end];
      var header := FragmentHeader(plan.flow, Fragment(plan.packetId, index, plan.count, |plan.payload|, piece));
      return Some(header + piece);
    }
  }

  /** `encode_udp_data_fragments`: one DATA frame when it fits, otherwise the frames of a plan; all
      of them fit the limit and decode. */
  method EncodePacket(flow: nat, packetId: nat, payload: Bytes, limit: nat) returns (frames: Option<seq<Bytes>>)
    requires flow < 0x1_0000_0000 && packetId < 0x1_0000_0000
    ensures frames.Some? <==>
              && IdOk(flow) && |payload| <= PACKET_MAX && limit >= HEADER_LEN
              && (|payload| <= limit - HEADER_LEN || MakePlan(flow, packetId, payload, limit).Some?)
    ensures frames.Some? ==> forall i :: 0 <= i < |frames.value| ==> |frames.value[i]| <= limit
    ensures frames.Some? && |payload| <= limit - HEADER_LEN ==>
              |frames.value| == 1 && Decode(frames.value[0]) == Some(Data(flow, payload))
    ensures frames.Some? && |payload| > limit - HEADER_LEN ==>
              var p := MakePlan(flow, packetId, payload, limit).value;
              && |frames.value| == p.count
              && forall i :: 0 <= i < p.count ==> Decode(frames.value[i]) == Some(Frame.Piece(flow, p.Piece(i)))
  {
    if flow == 0 || |payload| > PACKET_MAX || limit < HEADER_LEN {
      return None;
    }
    if |payload| <= limit - HEADER_LEN {
      DecodeInvertsEncode(Data(flow, payload));
      return Some([BaseHeader(DATA, flow) + payload]);
    }
    var plan := MakePlan(flow, packetId, payload, limit);
    if plan.None? {
      return None;
    }
    PlanExists(flow, packetId, payload, limit);
    var fragments := new UdpFragments(plan.value);
    var out: seq<Bytes> := [];
    var frame := fragments.Next();
    while frame.Some?
      invariant fragments.Valid() && fragments.plan == plan.value && fresh(fragments)
      invariant |out| + (if frame.Some? then 1 else 0) == fragments.next
      invariant frame.Some? ==> frame.value == FrameAt(plan.value, |out|)
      invariant frame.None? ==> |out| == plan.value.count
      invariant forall i :: 0 <= i < |out| ==> out[i] == FrameAt(plan.value, i)
      decreases plan.value.count - |out|
    {
      out := out + [frame.value];
      frame := fragments.Next();
    }
    forall i | 0 <= i < |out|
      ensures |out[i]| <= limit && Decode(out[i]) == Some(Frame.Piece(flow, plan.value.Piece(i)))
    {
      FramesFitAndDecode(flow, packetId, payload, limit, i);
    }
    return Some(out);
  }
}
