/** Byte-level helpers behind the binary 2DFX stream: unsigned bytes,
    `int.to_bytes(4, byteorder='little')`, `bytearray.ljust` and the UTF-8
    encoding of ASCII text. */
module Bytes {

  /** A value `struct.pack("B", ...)` accepts. */
  type byte = b: int | 0 <= b < 256

  predicate IsByte(v: int) {
    0 <= v < 256
  }

  /** `to_bytes(4, ...)` raises OverflowError from this value on. */
  const U32_LIMIT: nat := 0x1_0000_0000

  /** The value of a little-endian byte string. */
  function LEValue(bs: seq<byte>): nat {
    if bs == [] then 0 else bs[0] + 256 * LEValue(bs[1..])
  }

  /** `n.to_bytes(4, byteorder='little')`. */
  function U32LE(n: nat): (r: seq<byte>)
    requires n < U32_LIMIT
    ensures |r| == 4
    ensures LEValue(r) == n
  {
    var b0, q0 := n % 256, n / 256;
    var b1, q1 := q0 % 256, q0 / 256;
    var b2, q2 := q1 % 256, q1 / 256;
    assert q2 < 256;
    var r := [b0, b1, b2, q2];
    assert LEValue(r[3..]) == q2;
    assert LEValue(r[2..]) == q1;
    assert LEValue(r[1..]) == q0;
    r
  }

  /** `n` zero bytes. */
  function Zeros(n: nat): (r: seq<byte>)
    ensures |r| == n
    ensures forall i :: 0 <= i < n ==> r[i] == 0
  {
    if n == 0 then [] else [0] + Zeros(n - 1)
  }

  /** `bytearray(s).ljust(width, b'\0')`: pads on the right with zero bytes
      up to `width`, and never truncates. */
  function Ljust(s: seq<byte>, width: nat): (r: seq<byte>)
    ensures |r| == if |s| < width then width else |s|
    ensures r[..|s|] == s
    ensures forall i :: |s| <= i < |r| ==> r[i] == 0
  {
    if |s| < width then s + Zeros(width - |s|) else s
  }

  predicate IsAscii(s: string) {
    forall i :: 0 <= i < |s| ==> s[i] as int < 128
  }

  /** Text the model encodes: Python strings restricted to ASCII, where
      `str.encode('utf-8')` is one byte per character. */
  type AsciiString = s: string | IsAscii(s)

  /** `s.encode('utf-8')` for an ASCII string. */
  function Encode(s: AsciiString): (r: seq<byte>)
    ensures |r| == |s|
    ensures forall i :: 0 <= i < |s| ==> r[i] == s[i] as int
  {
    if s == [] then [] else [s[0] as int] + Encode(s[1..])
  }

  lemma AsciiConcat(a: AsciiString, b: AsciiString)
    ensures IsAscii(a + b)
  {
    assert forall i :: 0 <= i < |a + b| ==> (a + b)[i] == if i < |a| then a[i] else b[i - |a|];
  }

  lemma EncodeConcat(a: AsciiString, b: AsciiString)
    ensures IsAscii(a + b)
    ensures Encode(a + b) == Encode(a) + Encode(b)
  {
  }
}
