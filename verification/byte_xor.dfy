/** What the exclusive or of byte strings does: two strings of one length have the same XOR exactly if their differences
    cancel out, and one changed byte always changes it. The laws are proved on bit vectors, where they are laws of
    the machine operation, and carried over to bytes by the two conversions, which undo each other on their
    common range. */
module ByteXor {
  import opened RchBytes

  lemma BitsOfByte(x: bv8)
    ensures ((x as byte) as bv8) == x
  {
  }

  lemma {:induction false} ByteOfBits(b: byte)
    ensures ((b as bv8) as byte) == b
  {
    if b > 0 {
      ByteOfBits(b - 1);
      var x := (b - 1) as bv8;
      assert x as int == b - 1;
      assert (x + 1) as int == b;
    }
  }

  lemma BitsLaws(a: bv8, b: bv8, c: bv8, d: bv8)
    ensures (a ^ b) ^ (c ^ d) == (a ^ c) ^ (b ^ d)
    ensures a ^ b == 0 <==> a == b
  {
  }

  /** Xor2 on the bits. */
  lemma Xor2Bits(a: byte, b: byte)
    ensures Xor2(a, b) as bv8 == (a as bv8) ^ (b as bv8)
  {
    BitsOfByte((a as bv8) ^ (b as bv8));
  }

  lemma SameBits(a: byte, b: byte)
    requires a as bv8 == b as bv8
    ensures a == b
  {
    ByteOfBits(a);
    ByteOfBits(b);
  }

  lemma Xor2OfFour(a: byte, b: byte, c: byte, d: byte)
    ensures Xor2(Xor2(a, b), Xor2(c, d)) as bv8 == ((a as bv8) ^ (b as bv8)) ^ ((c as bv8) ^ (d as bv8))
  {
    hide Xor2;
    Xor2Bits(a, b);
    Xor2Bits(c, d);
    Xor2Bits(Xor2(a, b), Xor2(c, d));
  }

  lemma Xor2Exchange(a: byte, b: byte, c: byte, d: byte)
    ensures Xor2(Xor2(a, b), Xor2(c, d)) == Xor2(Xor2(a, c), Xor2(b, d))
  {
    hide Xor2;
    Xor2OfFour(a, b, c, d);
    Xor2OfFour(a, c, b, d);
    BitsLaws(a as bv8, b as bv8, c as bv8, d as bv8);
    SameBits(Xor2(Xor2(a, b), Xor2(c, d)), Xor2(Xor2(a, c), Xor2(b, d)));
  }

  lemma Xor2Zero(a: byte, b: byte)
    ensures Xor2(a, b) == 0 <==> a == b
  {
    Xor2Bits(a, b);
    BitsLaws(a as bv8, b as bv8, 0, 0);
    if a == b {
      SameBits(Xor2(a, b), 0);
    } else if Xor2(a, b) == 0 {
      SameBits(a, b);
    }
  }

  /** The positions where two byte strings of one length differ, and how. */
  function Difference(a: seq<byte>, b: seq<byte>): (r: seq<byte>)
    requires |a| == |b|
    ensures |r| == |a| && forall i | 0 <= i < |a| :: r[i] == Xor2(a[i], b[i])
  {
    seq(|a|, i requires 0 <= i < |a| => Xor2(a[i], b[i]))
  }

  lemma {:induction false} XorOfDifference(a: seq<byte>, b: seq<byte>)
    requires |a| == |b|
    ensures Xor(Difference(a, b)) == Xor2(Xor(a), Xor(b))
  {
    hide Xor2;
    if a == [] {
      Xor2Zero(0, 0);
    } else {
      var n := |a| - 1;
      XorOfDifference(a[..n], b[..n]);
      assert Difference(a, b)[..n] == Difference(a[..n], b[..n]);
      Xor2Exchange(Xor(a[..n]), Xor(b[..n]), a[n], b[n]);
    }
  }

  /** Two byte strings of one length have the same XOR exactly if their differences cancel out. */
  lemma XorMisses(a: seq<byte>, b: seq<byte>)
    requires |a| == |b|
    ensures Xor(a) == Xor(b) <==> Xor(Difference(a, b)) == 0
  {
    XorOfDifference(a, b);
    Xor2Zero(Xor(a), Xor(b));
  }

  lemma Xor2Moves(x: byte, a: byte, b: byte)
    ensures Xor2(x, a) == Xor2(x, b) <==> a == b
    ensures Xor2(a, x) == Xor2(b, x) <==> a == b
  {
    hide Xor2;
    Xor2Bits(x, a);
    Xor2Bits(x, b);
    Xor2Bits(a, x);
    Xor2Bits(b, x);
    if a as bv8 == b as bv8 {
      SameBits(a, b);
    }
  }

  /** One changed byte changes the XOR. */
  lemma {:induction false} OneByteChangesXor(a: seq<byte>, b: seq<byte>, k: nat)
    requires k < |a| == |b| && a[k] != b[k] && forall i | 0 <= i < |a| && i != k :: a[i] == b[i]
    ensures Xor(a) != Xor(b)
  {
    hide Xor2;
    var n := |a| - 1;
    if k < n {
      OneByteChangesXor(a[..n], b[..n], k);
      Xor2Moves(a[n], Xor(a[..n]), Xor(b[..n]));
    } else {
      assert a[..n] == b[..n];
      Xor2Moves(Xor(a[..n]), a[n], b[n]);
    }
  }
}
