/** Bytes of the RCH wire format: control codes, digits, the XOR block check character and the frame builder. */
module RchBytes {

  type byte = i: int | 0 <= i < 256

  const STX: byte := 0x02
  const ETX: byte := 0x03
  const ACK: byte := 0x06

  /** Bytes of a frame other than its data field. */
  const FRAME_OVERHEAD: nat := 11

  predicate IsControl(b: byte) {
    b == STX || b == ACK
  }

  predicate IsDigit(b: byte) {
    48 <= b <= 57
  }

  function DigitValue(b: byte): (d: nat)
    requires IsDigit(b)
    ensures d <= 9
  {
    b - 48
  }

  function DigitChar(d: nat): (b: byte)
    requires d <= 9
    ensures IsDigit(b) && DigitValue(b) == d
  {
    d + 48
  }

  predicate IsHexDigit(b: byte) {
    IsDigit(b) || 97 <= b <= 102 || 65 <= b <= 70
  }

  function UpperHex(b: byte): byte {
    if 97 <= b <= 102 then b - 32 else b
  }

  function HexChar(n: byte): (b: byte)
    requires n < 16
    ensures IsHexDigit(b) && UpperHex(b) == b
  {
    if n < 10 then n + 48 else n + 55
  }

  /** The two uppercase hexadecimal characters of a byte. */
  function HexPair(v: byte): (s: seq<byte>)
    ensures |s| == 2 && forall i | 0 <= i < 2 :: IsHexDigit(s[i]) && UpperHex(s[i]) == s[i]
  {
    [HexChar(v / 16), HexChar(v % 16)]
  }

  /** Bitwise exclusive or of two bytes. */
  function Xor2(a: byte, b: byte): byte {
    ((a as bv8) ^ (b as bv8)) as byte
  }

  /** XOR of all bytes. */
  function Xor(s: seq<byte>): byte {
    if s == [] then 0 else Xor2(Xor(s[..|s| - 1]), s[|s| - 1])
  }

  method CalculateBcc(prefixThroughSequence: seq<byte>) returns (value: byte)
    ensures value == Xor(prefixThroughSequence)
  {
    value := 0;
    for i := 0 to |prefixThroughSequence|
      invariant value == Xor(prefixThroughSequence[..i])
    {
      assert prefixThroughSequence[..i + 1][..i] == prefixThroughSequence[..i];
      value := Xor2(value, prefixThroughSequence[i]);
    }
    assert prefixThroughSequence[..|prefixThroughSequence|] == prefixThroughSequence;
  }
}
