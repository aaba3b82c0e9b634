/**
  The modes of operation on a flat buffer: what the scatterlist code has to agree with, and the laws
  of the modes themselves (section 6.2 of NIST SP 800-38A for CBC).
 */
module CipherModes {

  type Byte = bv8
  type Bytes = seq<bv8>

  datatype Mode = Ecb | CbcEncrypt | CbcDecrypt

  type Pos = n: nat | n > 0 witness 1

  /** A block function of a fixed size under a mode; the key is part of the function. */
  datatype Cipher = Cipher(mode: Mode, bsize: Pos, fn: Bytes -> Bytes)

  ghost predicate Sized(c: Cipher) {
    forall x: Bytes :: |x| == c.bsize ==> |c.fn(x)| == c.bsize
  }

  function Xor(a: Bytes, b: Bytes): Bytes
    requires |a| == |b|
  {
    seq(|a|, i requires 0 <= i < |a| => a[i] ^ b[i])
  }

  /** One block: what is written, and the next initialisation vector. */
  function Step(c: Cipher, iv: Bytes, x: Bytes): (r: (Bytes, Bytes))
    requires Sized(c) && |iv| == c.bsize && |x| == c.bsize
    ensures |r.0| == c.bsize && |r.1| == c.bsize
  {
    match c.mode
    case Ecb => (c.fn(x), iv)
    case CbcEncrypt => var y := c.fn(Xor(iv, x)); (y, y)
    case CbcDecrypt => (Xor(c.fn(x), iv), x)
  }

  /** All whole blocks of a flat buffer. */
  function Flat(c: Cipher, iv: Bytes, s: Bytes): (r: (Bytes, Bytes))
    requires Sized(c) && |iv| == c.bsize
    ensures |r.1| == c.bsize && |r.0| <= |s| < |r.0| + c.bsize
    decreases |s|
  {
    if |s| < c.bsize then ([], iv)
    else
      var (y, iv1) := Step(c, iv, s[..c.bsize]);
      var (ys, iv2) := Flat(c, iv1, s[c.bsize..]);
      (y + ys, iv2)
  }

  /** k blocks of bytes. */
  ghost predicate Blocks(c: Cipher, n: nat, k: nat) { n == k * c.bsize }

  lemma {:induction false} FlatLength(c: Cipher, iv: Bytes, s: Bytes, k: nat)
    requires Sized(c) && |iv| == c.bsize && Blocks(c, |s|, k)
    ensures |Flat(c, iv, s).0| == |s|
    decreases k
  {
    if k > 0 {
      assert |s| - c.bsize == (k - 1) * c.bsize;
      FlatLength(c, Step(c, iv, s[..c.bsize]).1, s[c.bsize..], k - 1);
    } else {
      assert |s| == 0;
    }
  }

  /** Cutting a message at a block boundary and carrying the vector over changes nothing. */
  lemma {:induction false} FlatSplit(c: Cipher, iv: Bytes, s: Bytes, t: Bytes, k: nat)
    requires Sized(c) && |iv| == c.bsize && Blocks(c, |s|, k)
    ensures Flat(c, iv, s + t) ==
      (Flat(c, iv, s).0 + Flat(c, Flat(c, iv, s).1, t).0, Flat(c, Flat(c, iv, s).1, t).1)
    decreases k
  {
    if k == 0 {
      assert s == [] && s + t == t && [] + Flat(c, iv, t).0 == Flat(c, iv, t).0;
    } else {
      assert |s| - c.bsize == (k - 1) * c.bsize && |s| >= c.bsize;
      var b := c.bsize;
      var (y, iv1) := Step(c, iv, s[..b]);
      assert (s + t)[..b] == s[..b] && (s + t)[b..] == s[b..] + t;
      FlatSplit(c, iv1, s[b..], t, k - 1);
      var u := Flat(c, iv1, s[b..]);
      assert y + (u.0 + Flat(c, u.1, t).0) == (y + u.0) + Flat(c, u.1, t).0;
    }
  }

  /** One block at the front. */
  lemma FlatHead(c: Cipher, iv: Bytes, x: Bytes, t: Bytes)
    requires Sized(c) && |iv| == c.bsize && |x| == c.bsize
    ensures var (y, iv1) := Step(c, iv, x); Flat(c, iv, x + t) == (y + Flat(c, iv1, t).0, Flat(c, iv1, t).1)
  {
    assert (x + t)[..c.bsize] == x && (x + t)[c.bsize..] == t;
  }

  // ---------------------------------------------------------------- CBC

  /** g undoes f on blocks of the size. */
  ghost predicate Inverts(f: Bytes -> Bytes, g: Bytes -> Bytes, n: nat) {
    forall x: Bytes :: |x| == n ==> g(f(x)) == x
  }

  lemma XorTwice(a: Bytes, b: Bytes)
    requires |a| == |b|
    ensures Xor(Xor(a, b), a) == b
  {
    forall i | 0 <= i < |a| ensures Xor(Xor(a, b), a)[i] == b[i] {
      XorBits(a[i], b[i]);
    }
  }

  lemma XorBits(x: Byte, y: Byte)
    ensures (x ^ y) ^ x == y
  {
  }

  /** CBC decryption undoes CBC encryption for any invertible block function, and leaves the same vector. */
  lemma {:induction false} CbcRoundTrip(e: Cipher, d: Cipher, iv: Bytes, s: Bytes, k: nat)
    requires Sized(e) && Sized(d) && e.mode.CbcEncrypt? && d.mode.CbcDecrypt? && e.bsize == d.bsize
    requires Inverts(e.fn, d.fn, e.bsize) && |iv| == e.bsize && Blocks(e, |s|, k)
    ensures Flat(d, iv, Flat(e, iv, s).0) == (s, Flat(e, iv, s).1)
    decreases k
  {
    if k == 0 {
      assert s == [];
    } else {
      assert |s| - e.bsize == (k - 1) * e.bsize && |s| >= e.bsize;
      var x, rest := s[..e.bsize], s[e.bsize..];
      assert s == x + rest;
      var y := Step(e, iv, x).0;
      CbcRoundTrip(e, d, y, rest, k - 1);
      FlatHead(e, iv, x, rest);
      FlatHead(d, iv, y, Flat(e, y, rest).0);
      XorTwice(iv, x);
    }
  }

  /** So does ECB. */
  lemma {:induction false} EcbRoundTrip(e: Cipher, d: Cipher, iv: Bytes, s: Bytes, k: nat)
    requires Sized(e) && Sized(d) && e.mode.Ecb? && d.mode.Ecb? && e.bsize == d.bsize
    requires Inverts(e.fn, d.fn, e.bsize) && |iv| == e.bsize && Blocks(e, |s|, k)
    ensures Flat(d, iv, Flat(e, iv, s).0).0 == s
    decreases k
  {
    if k == 0 {
      assert s == [];
    } else {
      assert |s| - e.bsize == (k - 1) * e.bsize && |s| >= e.bsize;
      var x, rest := s[..e.bsize], s[e.bsize..];
      assert s == x + rest;
      EcbRoundTrip(e, d, iv, rest, k - 1);
      FlatHead(e, iv, x, rest);
      FlatHead(d, iv, e.fn(x), Flat(e, iv, rest).0);
    }
  }
}
