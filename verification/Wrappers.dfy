/** Small value types shared by every module. */
module Wrappers {

  datatype Option<+T> = None | Some(value: T)

  lemma Snoc<T>(s: seq<T>)
    requires s != []
    ensures s == s[..|s| - 1] + [s[|s| - 1]]
  {
  }

  lemma TakeTake<T>(s: seq<T>, n: nat, m: nat)
    requires m <= n <= |s|
    ensures s[..n][..m] == s[..m]
  {
  }

  lemma TakeNext<T>(s: seq<T>, n: nat)
    requires n < |s|
    ensures s[..n] + [s[n]] == s[..n + 1]
  {
  }

  /** One octet of a wire format. */
  type byte = x: int | 0 <= x < 256

  type Bytes = seq<byte>

  /** Value of a big-endian `u16`. */
  function U16(hi: byte, lo: byte): (n: nat)
    ensures n < 0x1_0000
  {
    hi * 256 + lo
  }

  /** Network byte order of a `u16`. */
  function U16Bytes(n: nat): (b: Bytes)
    requires n < 0x1_0000
    ensures |b| == 2 && U16(b[0], b[1]) == n
  {
    [n / 256, n % 256]
  }

  lemma U16Injective(hi: byte, lo: byte)
    ensures U16Bytes(U16(hi, lo)) == [hi, lo]
  {
  }

  /** Value of a big-endian `u32`. */
  function U32(b: Bytes): (n: nat)
    requires |b| == 4
    ensures n < 0x1_0000_0000
  {
    U16(b[0], b[1]) * 0x1_0000 + U16(b[2], b[3])
  }

  /** Network byte order of a `u32`. */
  function U32Bytes(n: nat): (b: Bytes)
    requires n < 0x1_0000_0000
    ensures |b| == 4 && U32(b) == n
  {
    U16Bytes(n / 0x1_0000) + U16Bytes(n % 0x1_0000)
  }

  lemma U32Injective(b: Bytes)
    requires |b| == 4
    ensures U32Bytes(U32(b)) == b
  {
    var n := U32(b);
    assert n / 0x1_0000 == U16(b[0], b[1]);
    assert n % 0x1_0000 == U16(b[2], b[3]);
  }
}
