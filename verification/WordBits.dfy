/** The facts about 32-bit words that DES rests on. */
module WordBits {

  /** The bits of l under the mask are replaced by those of r. */
  function Left(l: bv32, r: bv32, m: bv32): bv32 { ((l ^ r) & m) ^ l }

  function Right(l: bv32, r: bv32, m: bv32): bv32 { r ^ ((l ^ r) & m) }

  lemma SwapTwice(l: bv32, r: bv32, m: bv32)
    ensures Left(Left(l, r, m), Right(l, r, m), m) == l && Right(Left(l, r, m), Right(l, r, m), m) == r
  {
  }

  lemma Turn1(x: bv32)
    ensures x.RotateLeft(1).RotateRight(1) == x && x.RotateRight(1).RotateLeft(1) == x
  {
  }

  lemma Turn4(x: bv32)
    ensures x.RotateLeft(4).RotateRight(4) == x && x.RotateRight(4).RotateLeft(4) == x
  {
  }

  lemma Turn6(x: bv32)
    ensures x.RotateLeft(6).RotateRight(6) == x && x.RotateRight(6).RotateLeft(6) == x
  {
  }

  lemma Turn7(x: bv32)
    ensures x.RotateLeft(7).RotateRight(7) == x && x.RotateRight(7).RotateLeft(7) == x
  {
  }

  lemma Turn12(x: bv32)
    ensures x.RotateLeft(12).RotateRight(12) == x && x.RotateRight(12).RotateLeft(12) == x
  {
  }

  lemma Turn14(x: bv32)
    ensures x.RotateLeft(14).RotateRight(14) == x && x.RotateRight(14).RotateLeft(14) == x
  {
  }

  lemma XorBack(x: bv32, f: bv32)
    ensures (x ^ f) ^ f == x
  {
  }

  /** The test of des3_ede_setkey on two neighbouring pairs of words. */
  predicate Clash(a0: bv32, a1: bv32, b0: bv32, b1: bv32) { (a0 ^ b0) | (a1 ^ b1) == 0 }

  lemma XorZero(x: bv32, y: bv32)
    ensures x ^ y == 0 <==> x == y
  {
  }

  lemma OrZero(x: bv32, y: bv32)
    ensures x | y == 0 <==> x == 0 && y == 0
  {
  }

  lemma ClashIsEquality(a0: bv32, a1: bv32, b0: bv32, b1: bv32)
    ensures Clash(a0, a1, b0, b1) <==> a0 == b0 && a1 == b1
  {
    XorZero(a0, b0);
    XorZero(a1, b1);
    OrZero(a0 ^ b0, a1 ^ b1);
  }

  /** Four bytes in memory read as a word, least significant first. */
  function Word(b0: bv8, b1: bv8, b2: bv8, b3: bv8): bv32 {
    (b0 as bv32) | ((b1 as bv32) << 8) | ((b2 as bv32) << 16) | ((b3 as bv32) << 24)
  }

  lemma Byte0(b0: bv8, b1: bv8, b2: bv8, b3: bv8)
    ensures Word(b0, b1, b2, b3) & 0xff == b0 as bv32
  {
  }

  lemma Byte1(b0: bv8, b1: bv8, b2: bv8, b3: bv8)
    ensures (Word(b0, b1, b2, b3) >> 8) & 0xff == b1 as bv32
  {
  }

  lemma Byte2(b0: bv8, b1: bv8, b2: bv8, b3: bv8)
    ensures (Word(b0, b1, b2, b3) >> 16) & 0xff == b2 as bv32
  {
  }

  lemma Byte3(b0: bv8, b1: bv8, b2: bv8, b3: bv8)
    ensures Word(b0, b1, b2, b3) >> 24 == b3 as bv32
  {
  }

  lemma Widened(a: bv8, b: bv8)
    ensures a as bv32 == b as bv32 ==> a == b
  {
  }

  /** Words are equal exactly when their bytes are. */
  lemma WordsApart(a: seq<bv8>, b: seq<bv8>)
    requires |a| == 4 && |b| == 4
    ensures Word(a[0], a[1], a[2], a[3]) == Word(b[0], b[1], b[2], b[3]) <==> a == b
  {
    if Word(a[0], a[1], a[2], a[3]) == Word(b[0], b[1], b[2], b[3]) {
      Byte0(a[0], a[1], a[2], a[3]);
      Byte0(b[0], b[1], b[2], b[3]);
      Widened(a[0], b[0]);
      Byte1(a[0], a[1], a[2], a[3]);
      Byte1(b[0], b[1], b[2], b[3]);
      Widened(a[1], b[1]);
      Byte2(a[0], a[1], a[2], a[3]);
      Byte2(b[0], b[1], b[2], b[3]);
      Widened(a[2], b[2]);
      Byte3(a[0], a[1], a[2], a[3]);
      Byte3(b[0], b[1], b[2], b[3]);
      Widened(a[3], b[3]);
    }
  }

  /** The i-th word of some bytes. */
  function WordAt(a: seq<bv8>, i: nat): bv32
    requires 4 * i + 4 <= |a|
  {
    Word(a[4 * i], a[4 * i + 1], a[4 * i + 2], a[4 * i + 3])
  }

  /** The test of des3_ede_setkey compares eight bytes with eight bytes. */
  lemma ClashIsSameKey(a: seq<bv8>, b: seq<bv8>)
    requires |a| == 8 && |b| == 8
    ensures Clash(WordAt(a, 0), WordAt(a, 1), WordAt(b, 0), WordAt(b, 1)) <==> a == b
  {
    Halves(a);
    Halves(b);
    WordsApart(a[..4], b[..4]);
    WordsApart(a[4..], b[4..]);
    ClashIsEquality(WordAt(a, 0), WordAt(a, 1), WordAt(b, 0), WordAt(b, 1));
  }

  lemma Halves(a: seq<bv8>)
    requires |a| == 8
    ensures a == a[..4] + a[4..]
  {
  }
}
