/** MD5 as a stream: md5_update and md5_final, the transform on sixteen words being a parameter. */
module Md5 {
  import opened BlockStream

  type Word = x: int | 0 <= x < TWO32

  function WordAt(b: seq<Byte>, i: nat): Word
    requires 4 * i + 4 <= |b|
  {
    var b0: int, b1: int, b2: int, b3: int := b[4 * i], b[4 * i + 1], b[4 * i + 2], b[4 * i + 3];
    b0 + 0x100 * b1 + 0x1_0000 * b2 + 0x100_0000 * b3
  }

  /** le32_to_cpu_array: bytes read as words, least significant byte first. */
  function Words(b: seq<Byte>): (w: seq<Word>)
    ensures |w| == |b| / 4
  {
    seq(|b| / 4, i requires 0 <= i < |b| / 4 => WordAt(b, i))
  }

  type Transform<!S> = (S, seq<Word>) -> S

  /** The transform as a compression function on bytes. */
  function OnBytes<S>(f: Transform<S>): Compression<S> { (s, b) => f(s, Words(b)) }

  lemma WordsConcat(a: seq<Byte>, b: seq<Byte>)
    requires |a| % 4 == 0
    ensures Words(a + b) == Words(a) + Words(b)
  {
    var n := |a| / 4;
    forall i | 0 <= i < |Words(a + b)| ensures Words(a + b)[i] == (Words(a) + Words(b))[i] {
      if i >= n {
        assert WordAt(a + b, i) == WordAt(b, i - n);
      }
    }
  }

  lemma WordOf(x: nat)
    requires x < TWO32
    ensures Words(Little32(x)) == [x]
  {
    assert WordAt(Little32(x), 0) == x;
  }

  /** The two length words that md5_final stores are the eight bytes of the length. */
  lemma LengthWords(count: nat)
    requires count < TWO64
    ensures Words(Little64(8 * count % TWO64)) == [8 * count % TWO64 % TWO32, count / 0x2000_0000 % TWO32]
  {
    var bits := 8 * count % TWO64;
    assert bits / TWO32 == count / 0x2000_0000 % TWO32;
    WordOf(bits % TWO32);
    WordOf(bits / TWO32);
    WordsConcat(Little32(bits % TWO32), Little32(bits / TWO32));
  }

  class Context<!S> {
    const f: Transform<S>
    const init: S
    var hash: S
    const block: array<Byte>
    var byteCount: nat

    constructor (f: Transform<S>, init: S)
      ensures Holds([]) && this.f == f && this.init == init && fresh(block)
    {
      this.f := f;
      this.init := init;
      hash := init;
      byteCount := 0;
      block := new Byte[BLOCK](_ => 0);
    }

    /** The context has absorbed m. */
    ghost predicate Holds(m: seq<Byte>)
      reads this, block
    {
      && block.Length == BLOCK
      && byteCount == |m| % TWO64
      && hash == Fold(OnBytes(f), init, m)
      && block[..|m| % BLOCK] == Rest(m)
    }

    /** md5_transform_helper. */
    method TransformHelper()
      requires block.Length == BLOCK
      modifies this`hash
      ensures hash == OnBytes(f)(old(hash), block[..])
    {
      hash := f(hash, Words(block[..]));
    }

    /** The loop over the blocks of the data, and the copy of what is left. */
    method Blocks(data: seq<Byte>)
      requires block.Length == BLOCK
      modifies this`hash, block
      ensures hash == Fold(OnBytes(f), old(hash), data) && block[..|data| % BLOCK] == Rest(data)
    {
      var d := data;
      while |d| >= BLOCK
        invariant Fold(OnBytes(f), hash, d) == Fold(OnBytes(f), old(hash), data) && Rest(d) == Rest(data)
      {
        Copy(block, 0, d[..BLOCK]);
        assert block[..] == d[..BLOCK];
        TransformHelper();
        RestOfTail(d, BLOCK);
        d := d[BLOCK..];
      }
      Copy(block, 0, d);
      ShortRest(d);
      assert d == block[..|d|];
    }

    /** The block that the buffered bytes begin. */
    method FirstBlock(data: seq<Byte>, partial: nat, ghost pending: seq<Byte>)
      requires block.Length == BLOCK && partial < BLOCK && block[..partial] == pending
      requires |data| >= BLOCK - partial
      modifies this`hash, block
      ensures hash == OnBytes(f)(old(hash), pending + data[..BLOCK - partial])
    {
      Copy(block, partial, data[..BLOCK - partial]);
      assert block[..] == pending + data[..BLOCK - partial];
      TransformHelper();
    }

    /** The work of md5_update on the hash and the block. */
    method Absorb(data: seq<Byte>, partial: nat, ghost pending: seq<Byte>)
      requires block.Length == BLOCK && partial < BLOCK && block[..partial] == pending
      modifies this`hash, block
      ensures hash == Fold(OnBytes(f), old(hash), pending + data)
      ensures block[..(partial + |data|) % BLOCK] == Rest(pending + data)
    {
      var avail := BLOCK - partial;
      if avail > |data| {
        Copy(block, partial, data);
        assert block[..partial + |data|] == pending + data;
        ShortRest(pending + data);
        return;
      }
      ghost var all := pending + data;
      FoldBlock(OnBytes(f), hash, all, 0);
      assert all[0..] == all && all[0..BLOCK] == pending + data[..avail] && all[BLOCK..] == data[avail..];
      FirstBlock(data, partial, pending);
      Blocks(data[avail..]);
      assert |data[avail..]| % BLOCK == (partial + |data|) % BLOCK;
    }

    /** md5_update. */
    method Update(ghost m: seq<Byte>, data: seq<Byte>)
      requires Holds(m)
      modifies this`hash, this`byteCount, block
      ensures Holds(m + data)
    {
      Continue(OnBytes(f), init, m, data);
      CountModulo(|m|, |data|);
      var partial := byteCount % BLOCK;
      byteCount := (byteCount + |data|) % TWO64;
      Absorb(data, partial, Rest(m));
    }

    /** The byte 0x80 and the zeros up to the length, in a block of their own when this one is too full. */
    method PadBlock(offset: nat, ghost pending: seq<Byte>)
      requires block.Length == BLOCK && offset < BLOCK && block[..offset] == pending
      modifies this`hash, block
      ensures forall length: seq<Byte> | |length| == 8 ::
        OnBytes(f)(hash, block[..56] + length) == Fold(OnBytes(f), old(hash), pending + Pad(offset) + length)
    {
      block[offset] := 0x80;
      var padding := 56 - (offset + 1);
      if padding < 0 {
        Copy(block, offset + 1, Zeros(padding + 8));
        assert block[..] == pending + [0x80] + Zeros(63 - offset);
        TransformHelper();
        Copy(block, 0, Zeros(56));
        assert block[..56] == Zeros(56);
        TwoBlocks(f, old(hash), offset, pending);
      } else {
        Copy(block, offset + 1, Zeros(padding));
        assert block[..56] == pending + Pad(offset);
        OneBlock(f, old(hash), offset, pending);
      }
    }

    /** The last transform, on the padded block and the two length words. */
    method LastBlock()
      requires block.Length == BLOCK && byteCount < TWO64
      modifies this`hash
      ensures hash == OnBytes(f)(old(hash), block[..56] + Little64(8 * byteCount % TWO64))
    {
      LengthWords(byteCount);
      WordsConcat(block[..56], Little64(8 * byteCount % TWO64));
      hash := f(hash, Words(block[..56]) + [8 * byteCount % TWO64 % TWO32, byteCount / 0x2000_0000 % TWO32]);
    }

    /** md5_final: the digest is that of the whole padded message. */
    method Final(ghost m: seq<Byte>) returns (digest: S)
      requires Holds(m)
      modifies this`hash, block
      ensures digest == LittleDigest(OnBytes(f), init, m)
    {
      CountModulo(|m|, 0);
      PaddedRest(OnBytes(f), init, m, Little64(Bits(m)));
      PadBlock(byteCount % BLOCK, Rest(m));
      LastBlock();
      digest := hash;
    }
  }

  /** Hashing the padded message from where the full blocks of m end. */
  lemma PaddedRest<S>(f: Compression<S>, init: S, m: seq<Byte>, length: seq<Byte>)
    ensures Fold(f, init, Padded(m, length)) == Fold(f, Fold(f, init, m), Rest(m) + Pad(|m| % BLOCK) + length)
  {
    var p := Pad(|m|);
    Continue(f, init, m, p + length);
    Grouped(m, p, length);
    Grouped(Rest(m), p, length);
  }

  lemma Grouped(a: seq<Byte>, b: seq<Byte>, c: seq<Byte>)
    ensures a + (b + c) == a + b + c
  {
  }

  lemma OneBlock<S>(f: Transform<S>, s: S, offset: nat, pending: seq<Byte>)
    requires |pending| == offset < 56
    ensures forall length: seq<Byte> | |length| == 8 ::
      OnBytes(f)(s, pending + Pad(offset) + length) == Fold(OnBytes(f), s, pending + Pad(offset) + length)
  {
    forall length: seq<Byte> | |length| == 8
      ensures OnBytes(f)(s, pending + Pad(offset) + length) == Fold(OnBytes(f), s, pending + Pad(offset) + length)
    {
      FoldOne(OnBytes(f), s, pending + Pad(offset) + length);
    }
  }

  lemma TwoBlocks<S>(f: Transform<S>, s: S, offset: nat, pending: seq<Byte>)
    requires |pending| == offset && 56 <= offset < BLOCK
    ensures forall length: seq<Byte> | |length| == 8 ::
      OnBytes(f)(OnBytes(f)(s, pending + [0x80] + Zeros(63 - offset)), Zeros(56) + length)
      == Fold(OnBytes(f), s, pending + Pad(offset) + length)
  {
    forall length: seq<Byte> | |length| == 8
      ensures OnBytes(f)(OnBytes(f)(s, pending + [0x80] + Zeros(63 - offset)), Zeros(56) + length)
        == Fold(OnBytes(f), s, pending + Pad(offset) + length)
    {
      var all := pending + Pad(offset) + length;
      var first, second := pending + [0x80] + Zeros(63 - offset), Zeros(56) + length;
      assert all == first + second;
      FoldConcat(OnBytes(f), s, first, second);
      FoldOne(OnBytes(f), s, first);
      FoldOne(OnBytes(f), OnBytes(f)(s, first), second);
    }
  }
}
