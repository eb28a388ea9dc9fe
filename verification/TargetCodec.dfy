/** Destination addresses and their SOCKS5-compatible codec
    (src/protocol/request.rs, src/protocol/util.rs; address types as in section 5 of RFC 1928). */
module TargetCodec {
  import opened Wrappers

  const ATYP_IPV4: byte := 1
  const ATYP_DOMAIN: byte := 3
  const ATYP_IPV6: byte := 4
  const DOMAIN_LEN_MAX := 253
  const LABEL_LEN_MAX := 63
  const DOT: byte := 46
  const HYPHEN: byte := 45

  datatype Target =
    | V4(octets: Bytes, port: nat)
    | V6(octets: Bytes, port: nat)
    | Domain(host: Bytes, port: nat)

  predicate LetterDigit(b: byte) {
    48 <= b <= 57 || 65 <= b <= 90 || 97 <= b <= 122
  }

  /** The dot-separated labels of a name: one more than it has dots. */
  function Labels(name: Bytes): (labels: seq<Bytes>)
    ensures labels != []
  {
    if name == [] then [[]]
    else
      var rest := Labels(name[1..]);
      if name[0] == DOT then [[]] + rest else [[name[0]] + rest[0]] + rest[1..]
  }

  predicate ValidLabel(part: Bytes) {
    && 0 < |part| <= LABEL_LEN_MAX
    && part[0] != HYPHEN && part[|part| - 1] != HYPHEN
    && forall i :: 0 <= i < |part| ==> LetterDigit(part[i]) || part[i] == HYPHEN
  }

  predicate ValidLabels(name: Bytes) {
    forall i :: 0 <= i < |Labels(name)| ==> ValidLabel(Labels(name)[i])
  }

  predicate ValidDomain(name: Bytes) {
    && 0 < |name| <= DOMAIN_LEN_MAX
    && (forall i :: 0 <= i < |name| ==> name[i] < 128)
    && ValidLabels(name)
  }

  predicate Valid(t: Target) {
    && 0 < t.port < 0x1_0000
    && match t
       case V4(octets, _) => |octets| == 4
       case V6(octets, _) => |octets| == 16
       case Domain(host, _) => ValidDomain(host)
  }

  function Encode(t: Target): Bytes
    requires Valid(t)
  {
    match t
    case V4(octets, port) => [ATYP_IPV4] + octets + U16Bytes(port)
    case V6(octets, port) => [ATYP_IPV6] + octets + U16Bytes(port)
    case Domain(host, port) => [ATYP_DOMAIN, |host|] + host + U16Bytes(port)
  }

  /** A refused target carries no value; the source's messages are not modelled. */
  datatype Decoded = Refused | Accepted(target: Target, consumed: nat)

  function Checked(t: Target, consumed: nat): Decoded {
    if Valid(t) then Accepted(t, consumed) else Refused
  }

  /** Reads one target prefix of `input` and reports how many bytes it used. */
  function Decode(input: Bytes): Decoded {
    if input == [] then Refused
    else if input[0] == ATYP_IPV4 then
      if |input| < 7 then Refused else Checked(V4(input[1..5], U16(input[5], input[6])), 7)
    else if input[0] == ATYP_IPV6 then
      if |input| < 19 then Refused else Checked(V6(input[1..17], U16(input[17], input[18])), 19)
    else if input[0] == ATYP_DOMAIN then
      if |input| < 2 || |input| < 2 + input[1] as int then Refused
      else
        var n := input[1] as int;
        if !ValidDomain(input[2..2 + n]) || |input| < 4 + n then Refused
        else Checked(Domain(input[2..2 + n], U16(input[2 + n], input[3 + n])), 4 + n)
    else Refused
  }

  /** Decoding inverts encoding whatever follows it on the wire. */
  lemma DecodeInvertsEncode(t: Target, rest: Bytes)
    requires Valid(t)
    ensures Decode(Encode(t) + rest) == Accepted(t, |Encode(t)|)
  {
    var e := Encode(t);
    var input := e + rest;
    match t
    case V4(octets, port) =>
      assert input[1..5] == octets && [input[5], input[6]] == U16Bytes(port);
    case V6(octets, port) =>
      assert input[1..17] == octets && [input[17], input[18]] == U16Bytes(port);
    case Domain(host, port) =>
      assert input[2..2 + |host|] == host;
      assert [input[2 + |host|], input[3 + |host|]] == U16Bytes(port);
  }

  lemma ThreeParts(s: Bytes, a: nat, b: nat, n: nat)
    requires a <= b <= n <= |s|
    ensures s[..n] == s[..a] + s[a..b] + s[b..n]
  {
  }

  /** An accepted prefix is the one canonical encoding of its target. */
  lemma EncodeInvertsDecode(input: Bytes)
    requires Decode(input).Accepted?
    ensures var Accepted(t, n) := Decode(input);
            Valid(t) && n <= |input| && Encode(t) == input[..n]
  {
    var Accepted(t, n) := Decode(input);
    U16Injective(input[n - 2], input[n - 1]);
    assert input[n - 2..n] == [input[n - 2], input[n - 1]];
    match t
    case V4(octets, port) =>
    case V6(octets, port) =>
    case Domain(host, port) =>
      ThreeParts(input, 2, n - 2, n);
  }

  /** No encoding is a proper prefix of another: a stream of targets parses one way only. */
  lemma PrefixFree(a: Target, b: Target, rest: Bytes)
    requires Valid(a) && Valid(b)
    requires Encode(a) == Encode(b) + rest
    ensures a == b && rest == []
  {
    DecodeInvertsEncode(b, rest);
    DecodeInvertsEncode(a, []);
    assert Encode(a) + [] == Encode(b) + rest;
  }

  /** Takes exactly `n` bytes off a stream, as `read_exact` does. */
  function ReadExact(stream: Bytes, n: nat): Option<(Bytes, Bytes)> {
    if |stream| < n then None else Some((stream[..n], stream[n..]))
  }

  /** The streaming reader: each field is read only once its length is known. */
  datatype ReadResult = ReadRefused | ReadTarget(target: Target, rest: Bytes)

  function DecodeWhole(encoded: Bytes, rest: Bytes): ReadResult {
    match Decode(encoded)
    case Refused => ReadRefused
    case Accepted(t, _) => ReadTarget(t, rest)
  }

  function ReadRequest(stream: Bytes): ReadResult {
    match ReadExact(stream, 1)
    case None => ReadRefused
    case Some((kind, s1)) =>
      if kind[0] == ATYP_IPV4 then ReadFixed(kind, s1, 6)
      else if kind[0] == ATYP_IPV6 then ReadFixed(kind, s1, 18)
      else if kind[0] == ATYP_DOMAIN then
        match ReadExact(s1, 1)
        case None => ReadRefused
        case Some((len, s2)) =>
          if len[0] == 0 || len[0] > DOMAIN_LEN_MAX then ReadRefused else ReadFixed(kind + len, s2, len[0] as int + 2)
      else ReadRefused
  }

  function ReadFixed(head: Bytes, stream: Bytes, n: nat): ReadResult {
    match ReadExact(stream, n)
    case None => ReadRefused
    case Some((tail, rest)) => DecodeWhole(head + tail, rest)
  }

  /** Bytes after an accepted target never influence how it was read. */
  lemma DecodeIgnoresTail(input: Bytes, n: nat)
    requires n <= |input|
    requires Decode(input[..n]).Accepted?
    ensures Decode(input) == Decode(input[..n])
  {
    EncodeInvertsDecode(input[..n]);
    var Accepted(t, m) := Decode(input[..n]);
    DecodeInvertsEncode(t, input[m..]);
    assert input[..n][..m] + input[m..] == input;
  }

  /** Length of the target that the first bytes of a stream announce. */
  function AnnouncedLength(stream: Bytes): Option<nat> {
    if stream == [] then None
    else if stream[0] == ATYP_IPV4 then Some(7)
    else if stream[0] == ATYP_IPV6 then Some(19)
    else if stream[0] == ATYP_DOMAIN && |stream| > 1 && 0 < stream[1] <= DOMAIN_LEN_MAX then Some(4 + stream[1] as int)
    else None
  }

  /** The slice decoder looks at the announced bytes and no others. */
  lemma DecodeUsesAnnounced(stream: Bytes)
    ensures match AnnouncedLength(stream)
            case None => Decode(stream).Refused?
            case Some(n) => if n <= |stream| then Decode(stream) == Decode(stream[..n]) else Decode(stream).Refused?
    ensures Decode(stream).Accepted? ==> AnnouncedLength(stream) == Some(Decode(stream).consumed)
  {
    var announced := AnnouncedLength(stream);
    if announced.Some? && announced.value <= |stream| {
      var n := announced.value;
      if Decode(stream).Accepted? {
        EncodeInvertsDecode(stream);
        DecodeInvertsEncode(Decode(stream).target, []);
        assert stream[..n] + [] == stream[..n];
      }
      if Decode(stream[..n]).Accepted? {
        DecodeIgnoresTail(stream, n);
      }
    }
  }

  /** The streaming reader gathers the announced bytes and leaves the rest. */
  lemma ReadGathersAnnounced(stream: Bytes)
    ensures ReadRequest(stream) ==
            match AnnouncedLength(stream)
            case None => ReadRefused
            case Some(n) => if n <= |stream| then DecodeWhole(stream[..n], stream[n..]) else ReadRefused
  {
    var announced := AnnouncedLength(stream);
    if announced.Some? && announced.value <= |stream| {
      var n := announced.value;
      assert stream[..1] + stream[1..][..n - 1] == stream[..n];
      assert stream[1..][n - 1..] == stream[n..];
      if stream[0] == ATYP_DOMAIN {
        assert stream[1..][1..][..n - 2] == stream[2..n];
        assert stream[..1] + stream[1..][..1] + stream[2..n] == stream[..n];
        assert stream[1..][1..][n - 2..] == stream[n..];
      }
    }
  }

  /** The streaming reader accepts exactly what the slice decoder accepts, yields the same target and
      leaves exactly the bytes after it on the stream. */
  lemma StreamAgreesWithSlice(stream: Bytes)
    ensures Decode(stream).Accepted? ==> Decode(stream).consumed <= |stream|
    ensures ReadRequest(stream) ==
            match Decode(stream)
            case Refused => ReadRefused
            case Accepted(t, n) => ReadTarget(t, stream[n..])
  {
    DecodeUsesAnnounced(stream);
    ReadGathersAnnounced(stream);
  }

  /** `copy_from_slice` at offset `at`. */
  method CopyAt(output: array<byte>, at: nat, source: Bytes)
    requires at + |source| <= output.Length
    modifies output
    ensures output[..] == old(output[..at]) + source + old(output[at + |source|..])
  {
    forall i | 0 <= i < |source| {
      output[at + i] := source[i];
    }
  }

  /** Writes a target field by field into caller-owned memory, touching nothing past its end. */
  method EncodeInto(t: Target, output: array<byte>) returns (written: Option<nat>)
    modifies output
    ensures written == if Valid(t) && |Encode(t)| <= output.Length then Some(|Encode(t)|) else None
    ensures output[..] == if written.Some? then Encode(t) + old(output[written.value..]) else old(output[..])
  {
    if !Valid(t) || output.Length < |Encode(t)| {
      return None;
    }
    var n := |Encode(t)|;
    var address := if t.Domain? then t.host else t.octets;
    var head := if t.Domain? then 2 else 1;
    output[0] := if t.V4? then ATYP_IPV4 else if t.V6? then ATYP_IPV6 else ATYP_DOMAIN;
    if t.Domain? {
      output[1] := |t.host|;
    }
    ghost var headed := output[..];
    CopyAt(output, head, address);
    CopyAt(output, head + |address|, U16Bytes(t.port));
    assert output[..] == headed[..head] + address + U16Bytes(t.port) + old(output[n..]);
    assert headed[..head] + address + U16Bytes(t.port) == Encode(t);
    written := Some(n);
  }

  // ---------------------------------------------------------------------------------------------
  // Host names: splitting into labels against a rule on neighbouring bytes.

  predicate NoDot(name: Bytes) {
    forall i :: 0 <= i < |name| ==> name[i] != DOT
  }

  predicate LongRun(name: Bytes, i: int)
    requires 0 <= i && i + LABEL_LEN_MAX < |name|
  {
    NoDot(name[i..i + LABEL_LEN_MAX + 1])
  }

  predicate Flanked(name: Bytes, i: int)
    requires 0 < i < |name| - 1
  {
    name[i] == DOT ==> LetterDigit(name[i - 1]) && LetterDigit(name[i + 1])
  }

  /** The same names without any splitting: letters, digits, hyphens and dots, a letter or digit at both
      ends and on both sides of each dot, and no 64 bytes in a row without a dot. */
  predicate WellFormedName(name: Bytes) {
    && name != []
    && (forall i :: 0 <= i < |name| ==> LetterDigit(name[i]) || name[i] == HYPHEN || name[i] == DOT)
    && LetterDigit(name[0]) && LetterDigit(name[|name| - 1])
    && (forall i :: 0 < i < |name| - 1 ==> Flanked(name, i))
    && (forall i :: 0 <= i < |name| - LABEL_LEN_MAX ==> !LongRun(name, i))
  }

  lemma {:induction false} LabelsOfPlain(name: Bytes)
    requires NoDot(name)
    ensures Labels(name) == [name]
  {
    if name != [] {
      LabelsOfPlain(name[1..]);
      assert name == [name[0]] + name[1..];
    }
  }

  lemma {:induction false} LabelsOfDotted(first: Bytes, rest: Bytes)
    requires NoDot(first)
    ensures Labels(first + [DOT] + rest) == [first] + Labels(rest)
  {
    var name := first + [DOT] + rest;
    if first == [] {
      assert name[1..] == rest;
    } else {
      assert name[1..] == first[1..] + [DOT] + rest;
      LabelsOfDotted(first[1..], rest);
      assert first == [first[0]] + first[1..];
    }
  }

  lemma PlainNameRule(name: Bytes)
    requires NoDot(name)
    ensures WellFormedName(name) <==> ValidLabel(name)
  {
    if |name| > LABEL_LEN_MAX {
      assert LongRun(name, 0);
    }
  }

  lemma DottedRuns(first: Bytes, rest: Bytes, i: nat)
    requires i + LABEL_LEN_MAX < |rest|
    ensures LongRun(rest, i) <==> LongRun(first + [DOT] + rest, |first| + 1 + i)
  {
    var name, k := first + [DOT] + rest, |first|;
    assert rest[i..i + LABEL_LEN_MAX + 1] == name[k + 1 + i..k + 1 + i + LABEL_LEN_MAX + 1];
  }

  lemma DottedFlanks(first: Bytes, rest: Bytes, i: nat)
    requires 0 < i < |rest| - 1
    ensures Flanked(rest, i) <==> Flanked(first + [DOT] + rest, |first| + 1 + i)
  {
  }

  lemma PlainFlanks(first: Bytes, rest: Bytes, i: nat)
    requires NoDot(first) && 0 < i < |first| && rest != []
    ensures Flanked(first + [DOT] + rest, i)
  {
  }

  lemma LongFirst(first: Bytes, rest: Bytes)
    requires NoDot(first) && |first| > LABEL_LEN_MAX
    ensures LongRun(first + [DOT] + rest, 0)
  {
    assert (first + [DOT] + rest)[0..LABEL_LEN_MAX + 1] == first[..LABEL_LEN_MAX + 1];
  }

  lemma DottedParts(first: Bytes, rest: Bytes)
    requires NoDot(first) && WellFormedName(first + [DOT] + rest)
    ensures ValidLabel(first) && WellFormedName(rest)
  {
    var name, k := first + [DOT] + rest, |first|;
    assert k > 0 && rest != [] by {
      assert name[0] != DOT && name[|name| - 1] != DOT;
    }
    assert Flanked(name, k);
    if k > LABEL_LEN_MAX {
      LongFirst(first, rest);
    }
    assert forall i :: 0 <= i < k ==> first[i] == name[i];
    assert forall i :: 0 <= i < |rest| ==> rest[i] == name[k + 1 + i];
    hide LongRun, Flanked;
    forall i | 0 <= i < |rest| - LABEL_LEN_MAX
      ensures !LongRun(rest, i)
    {
      DottedRuns(first, rest, i);
    }
    forall i | 0 < i < |rest| - 1
      ensures Flanked(rest, i)
    {
      DottedFlanks(first, rest, i);
    }
  }

  lemma DottedWhole(first: Bytes, rest: Bytes)
    requires NoDot(first) && ValidLabel(first) && WellFormedName(rest)
    ensures WellFormedName(first + [DOT] + rest)
  {
    var name, k := first + [DOT] + rest, |first|;
    assert Flanked(name, k);
    hide LongRun, Flanked;
    forall i | 0 < i < |name| - 1
      ensures Flanked(name, i)
    {
      if i < k {
        PlainFlanks(first, rest, i);
      } else if k + 1 < i {
        DottedFlanks(first, rest, i - k - 1);
      } else if i == k + 1 {
        AfterDot(first, rest);
      }
    }
    forall i | 0 <= i < |name| - LABEL_LEN_MAX
      ensures !LongRun(name, i)
    {
      if i <= k {
        AcrossDot(first, rest, i);
      } else {
        DottedRuns(first, rest, i - k - 1);
      }
    }
  }

  lemma AfterDot(first: Bytes, rest: Bytes)
    requires |rest| > 1 && rest[0] != DOT
    ensures Flanked(first + [DOT] + rest, |first| + 1)
  {
  }

  lemma AcrossDot(first: Bytes, rest: Bytes, i: nat)
    requires i <= |first| <= i + LABEL_LEN_MAX < |first| + 1 + |rest|
    ensures !LongRun(first + [DOT] + rest, i)
  {
    var name, k := first + [DOT] + rest, |first|;
    assert name[i..i + LABEL_LEN_MAX + 1][k - i] == DOT;
  }

  /** One label in front of a dot adds exactly the conditions on that label. */
  lemma DottedNameRule(first: Bytes, rest: Bytes)
    requires NoDot(first)
    ensures WellFormedName(first + [DOT] + rest) <==> ValidLabel(first) && WellFormedName(rest)
  {
    hide WellFormedName, ValidLabel;
    if WellFormedName(first + [DOT] + rest) {
      DottedParts(first, rest);
    }
    if ValidLabel(first) && WellFormedName(rest) {
      DottedWhole(first, rest);
    }
  }

  /** Splitting into labels and checking each one decides the rule on neighbouring bytes. */
  lemma {:induction false} LabelsDecideNameRule(name: Bytes)
    ensures ValidLabels(name) <==> WellFormedName(name)
    decreases |name|
  {
    if NoDot(name) {
      LabelsOfPlain(name);
      PlainNameRule(name);
      assert Labels(name)[0] == name;
    } else {
      var k := FirstDot(name);
      var first, rest := name[..k], name[k + 1..];
      assert name == first + [DOT] + rest;
      LabelsOfDotted(first, rest);
      LabelsDecideNameRule(rest);
      DottedNameRule(first, rest);
      var labels := Labels(name);
      assert labels[0] == first && labels[1..] == Labels(rest);
      assert forall i :: 0 <= i < |Labels(rest)| ==> Labels(rest)[i] == labels[i + 1];
      assert forall i :: 0 < i < |labels| ==> labels[i] == Labels(rest)[i - 1];
    }
  }

  function FirstDot(name: Bytes): (k: nat)
    requires !NoDot(name)
    ensures k < |name| && name[k] == DOT && NoDot(name[..k])
  {
    if name[0] == DOT then 0
    else
      assert exists i :: 0 <= i < |name| && name[i] == DOT;
      assert forall i :: 0 < i < |name| ==> name[i] == name[1..][i - 1];
      1 + FirstDot(name[1..])
  }
}
