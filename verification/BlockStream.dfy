/**
  What SHA-1, SHA-256 and MD5 share: a compression function folded over the 64-byte blocks of a
  message, the bytes that do not fill a block, and the padding with a 64-bit length (section 5.1.1
  of FIPS 180-2, sections 3.1 and 3.2 of RFC 1321).
 */
module BlockStream {
  const BLOCK := 64
  const TWO32 := 0x1_0000_0000
  const TWO64 := 0x1_0000_0000_0000_0000

  type Byte = x: int | 0 <= x < 256

  type Compression<!S> = (S, seq<Byte>) -> S

  /** The compression function run over the full blocks of m. */
  function Fold<S>(f: Compression<S>, s: S, m: seq<Byte>): S
    decreases |m|
  {
    if |m| < BLOCK then s else Fold(f, f(s, m[..BLOCK]), m[BLOCK..])
  }

  /** The bytes of m after its last full block. */
  function Rest(m: seq<Byte>): (r: seq<Byte>)
    ensures |r| == |m| % BLOCK
  {
    m[|m| - |m| % BLOCK..]
  }

  lemma RestOfTail(m: seq<Byte>, k: nat)
    requires k <= |m| && k % BLOCK == 0
    ensures Rest(m[k..]) == Rest(m)
  {
  }

  lemma {:induction false} FoldConcat<S>(f: Compression<S>, s: S, a: seq<Byte>, b: seq<Byte>)
    requires |a| % BLOCK == 0
    ensures Fold(f, s, a + b) == Fold(f, Fold(f, s, a), b)
    decreases |a|
  {
    if |a| < BLOCK {
      assert a + b == b;
    } else {
      assert (a + b)[..BLOCK] == a[..BLOCK] && (a + b)[BLOCK..] == a[BLOCK..] + b;
      FoldConcat(f, f(s, a[..BLOCK]), a[BLOCK..], b);
    }
  }

  /** A full block at the front can be taken at once. */
  lemma FoldBlock<S>(f: Compression<S>, s: S, m: seq<Byte>, k: nat)
    requires k + BLOCK <= |m|
    ensures Fold(f, s, m[k..]) == Fold(f, f(s, m[k..k + BLOCK]), m[k + BLOCK..])
    ensures Rest(m[k..]) == Rest(m[k + BLOCK..])
  {
    assert m[k..][..BLOCK] == m[k..k + BLOCK] && m[k..][BLOCK..] == m[k + BLOCK..];
    RestOfTail(m[k..], BLOCK);
  }

  lemma FoldOne<S>(f: Compression<S>, s: S, block: seq<Byte>)
    requires |block| == BLOCK
    ensures Fold(f, s, block) == f(s, block)
  {
    assert block[..BLOCK] == block;
  }

  lemma {:induction false} FoldIgnoresRest<S>(f: Compression<S>, s: S, m: seq<Byte>)
    ensures Fold(f, s, m) == Fold(f, s, m[..|m| - |m| % BLOCK])
    decreases |m|
  {
    var n := |m| - |m| % BLOCK;
    if |m| >= BLOCK {
      assert m[..n][..BLOCK] == m[..BLOCK] && m[..n][BLOCK..] == m[BLOCK..][..n - BLOCK];
      FoldIgnoresRest(f, f(s, m[..BLOCK]), m[BLOCK..]);
    }
  }

  /** Absorbing d after m needs only the state after m and the bytes that were left over. */
  lemma Continue<S>(f: Compression<S>, s: S, m: seq<Byte>, d: seq<Byte>)
    ensures Fold(f, s, m + d) == Fold(f, Fold(f, s, m), Rest(m) + d)
    ensures Rest(m + d) == Rest(Rest(m) + d)
  {
    var n := |m| - |m| % BLOCK;
    assert m + d == m[..n] + (Rest(m) + d);
    FoldConcat(f, s, m[..n], Rest(m) + d);
    FoldIgnoresRest(f, s, m);
    assert (m + d)[n..] == Rest(m) + d;
    RestOfTail(m + d, n);
  }

  // ---------------------------------------------------------------- padding

  /** The least number of zero bytes after which the message, a byte 0x80, and a length fill blocks. */
  function ZeroBytes(n: nat): nat { (119 - n % BLOCK) % BLOCK }

  lemma ZeroBytesLeast(n: nat, k: nat)
    ensures (n + 1 + k + 8) % BLOCK == 0 <==> k % BLOCK == ZeroBytes(n)
    ensures (n + 1 + k + 8) % BLOCK == 0 ==> ZeroBytes(n) <= k
  {
    var a, b := n % BLOCK, k % BLOCK;
    var s := a + b + 9;
    assert n + 1 + k + 8 == (n / BLOCK + k / BLOCK) * BLOCK + s;
    DivBlock(n + 1 + k + 8, n / BLOCK + k / BLOCK + s / BLOCK, s % BLOCK);
  }

  function Zeros(k: nat): seq<Byte> { seq(k, _ => 0) }

  function Pad(n: nat): seq<Byte> { [0x80] + Zeros(ZeroBytes(n)) }

  /** The message padded, `length` being the eight bytes at the end. */
  function Padded(m: seq<Byte>, length: seq<Byte>): seq<Byte> { m + Pad(|m|) + length }

  /** x as four bytes, most significant first. */
  function Big32(x: nat): (b: seq<Byte>)
    requires x < TWO32
    ensures |b| == 4
  {
    [x / 0x100_0000, x / 0x1_0000 % 256, x / 256 % 256, x % 256]
  }

  function Big64(x: nat): (b: seq<Byte>)
    requires x < TWO64
    ensures |b| == 8
  {
    Big32(x / TWO32) + Big32(x % TWO32)
  }

  /** x as four bytes, least significant first. */
  function Little32(x: nat): (b: seq<Byte>)
    requires x < TWO32
    ensures |b| == 4
  {
    [x % 256, x / 256 % 256, x / 0x1_0000 % 256, x / 0x100_0000]
  }

  function Little64(x: nat): (b: seq<Byte>)
    requires x < TWO64
    ensures |b| == 8
  {
    Little32(x % TWO32) + Little32(x / TWO32)
  }

  /** The length in bits, as far as 64 bits hold it. */
  function Bits(m: seq<Byte>): (x: nat)
    ensures x < TWO64
  {
    8 * |m| % TWO64
  }

  /** The hash of a message whose length is written most significant byte first. */
  function BigDigest<S>(f: Compression<S>, init: S, m: seq<Byte>): S { Fold(f, init, Padded(m, Big64(Bits(m)))) }

  /** The hash of a message whose length is written least significant byte first. */
  function LittleDigest<S>(f: Compression<S>, init: S, m: seq<Byte>): S { Fold(f, init, Padded(m, Little64(Bits(m)))) }

  // ---------------------------------------------------------------- what the three programs do alike

  /** memcpy into a buffer. */
  method Copy(dst: array<Byte>, at: nat, src: seq<Byte>)
    requires at + |src| <= dst.Length
    modifies dst
    ensures dst[..] == old(dst[..at]) + src + old(dst[at + |src|..])
  {
    forall i | 0 <= i < |src| {
      dst[at + i] := src[i];
    }
  }

  /** How much of the static padding sha1_final and sha256_final use. */
  function PadLength(index: nat): nat
    requires index < BLOCK
  {
    if index < 56 then 56 - index else 120 - index
  }

  /** The prefix of the static padding that is used is the padding of the standard. */
  lemma PaddingUsed(n: nat)
    ensures PadLength(n % BLOCK) <= 64 && ([0x80] + Zeros(63))[..PadLength(n % BLOCK)] == Pad(n)
  {
    var z := ZeroBytes(n);
    assert PadLength(n % BLOCK) == 1 + z;
    assert Zeros(63)[..z] == Zeros(z);
  }

  // ---------------------------------------------------------------- words

  lemma DivBlock(x: nat, q: nat, r: nat)
    requires r < BLOCK && x == q * BLOCK + r
    ensures x / BLOCK == q && x % BLOCK == r
  {
  }

  lemma Div32(x: nat, q: nat, r: nat)
    requires r < TWO32 && x == q * TWO32 + r
    ensures x / TWO32 == q && x % TWO32 == r
  {
  }

  lemma Div64(x: nat, q: nat, r: nat)
    requires r < TWO64 && x == q * TWO64 + r
    ensures x / TWO64 == q && x % TWO64 == r
  {
  }

  lemma WrapBlock(n: nat)
    ensures n % TWO64 % BLOCK == n % BLOCK
  {
    var r := n % TWO64;
    DivBlock(n, n / TWO64 * (TWO64 / BLOCK) + r / BLOCK, r % BLOCK);
  }

  lemma WrapSum(n: nat, len: nat)
    ensures (n % TWO64 + len) % TWO64 == (n + len) % TWO64
  {
    var s := n % TWO64 + len;
    Div64(n + len, n / TWO64 + s / TWO64, s % TWO64);
  }

  lemma WrapBits(n: nat)
    ensures 8 * (n % TWO64) % TWO64 == 8 * n % TWO64
  {
    var s := 8 * (n % TWO64);
    Div64(8 * n, 8 * (n / TWO64) + s / TWO64, s % TWO64);
  }

  /** A counter modulo 2^64 still knows the length modulo a block and the length in bits modulo 2^64. */
  lemma CountModulo(n: nat, len: nat)
    ensures n % TWO64 % BLOCK == n % BLOCK
    ensures (n % TWO64 + len) % TWO64 == (n + len) % TWO64
    ensures 8 * (n % TWO64) % TWO64 == 8 * n % TWO64
  {
    WrapBlock(n);
    WrapSum(n, len);
    WrapBits(n);
  }

  /** In a loop over blocks that began `partial` bytes before the data, no 32-bit sum wraps. */
  lemma WrappedStep(partial: nat, done: nat, len: nat)
    requires partial < BLOCK && done <= len && partial + len < TWO32 && (done + partial) % BLOCK == 0
    ensures (done + 63) % TWO32 < len <==> done + BLOCK <= len
    ensures done + BLOCK <= len ==> (done + BLOCK) % TWO32 == done + BLOCK
    ensures (done + BLOCK + partial) % BLOCK == 0
  {
    var q := (done + partial) / BLOCK;
    assert done + partial == q * BLOCK;
    DivBlock(done + BLOCK + partial, q + 1, 0);
  }

  lemma ShortRest(m: seq<Byte>)
    requires |m| < BLOCK
    ensures Rest(m) == m
  {
  }
}
