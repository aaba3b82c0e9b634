/** SHA-256 as a stream: sha256_update and sha256_final, the compression function being a parameter. */
module Sha256 {
  import opened BlockStream

  const TWO29 := 0x2000_0000

  // ---------------------------------------------------------------- the two-word bit counter

  /** len << 3 in 32 bits. */
  function Low(len: nat): nat { 8 * len % TWO32 }

  predicate Carries(c0: nat, len: nat) { (c0 + Low(len)) % TWO32 < Low(len) }

  function High(c0: nat, c1: nat, len: nat): nat {
    if Carries(c0, len) then (c1 + 1 + len / TWO29) % TWO32 else c1
  }

  lemma LowBits(n: nat)
    ensures 8 * n % TWO32 == 8 * (n % TWO29) && 8 * n / TWO32 == n / TWO29
  {
    Div32(8 * n, n / TWO29, 8 * (n % TWO29));
  }

  /** The low word is always right. */
  lemma LowWord(n: nat, len: nat)
    ensures (8 * n % TWO32 + Low(len)) % TWO32 == 8 * (n + len) % TWO32
    ensures 8 * n % TWO32 / 8 % BLOCK == n % BLOCK
  {
    var s := 8 * n % TWO32 + Low(len);
    Div32(8 * (n + len), 8 * n / TWO32 + 8 * len / TWO32 + s / TWO32, s % TWO32);
    var r := n % TWO29;
    LowBits(n);
    DivBlock(n, n / TWO29 * (TWO29 / BLOCK) + r / BLOCK, r % BLOCK);
  }

  lemma CarryIsOverflow(c0: nat, len: nat)
    requires c0 < TWO32
    ensures Carries(c0, len) <==> c0 + Low(len) >= TWO32
  {
  }

  lemma WrapAdd(a: nat, d: nat)
    ensures (a % TWO32 + d) % TWO32 == (a + d) % TWO32
    ensures 0 < d < TWO32 ==> (a + d) % TWO32 != a % TWO32
  {
    var s := a % TWO32 + d;
    Div32(a + d, a / TWO32 + s / TWO32, s % TWO32);
  }

  /** The high part of the sum: the high parts, and one more when the low words carry. */
  lemma HighSum(n: nat, len: nat)
    ensures 8 * (n + len) / TWO32 == 8 * n / TWO32 + len / TWO29 + if Carries(8 * n % TWO32, len) then 1 else 0
  {
    var s := 8 * n % TWO32 + Low(len);
    CarryIsOverflow(8 * n % TWO32, len);
    LowBits(len);
    var c := if s >= TWO32 then 1 else 0;
    Div32(8 * (n + len), 8 * n / TWO32 + 8 * len / TWO32 + c, s - c * TWO32);
  }

  /** The high word stays right exactly when the update is shorter than 2^29 bytes or the low word carries. */
  lemma HighWordIff(n: nat, len: nat)
    requires len < TWO32
    ensures High(8 * n % TWO32, 8 * n / TWO32 % TWO32, len) == 8 * (n + len) / TWO32 % TWO32
            <==> len < TWO29 || Carries(8 * n % TWO32, len)
  {
    HighSum(n, len);
    WrapAdd(8 * n / TWO32, if Carries(8 * n % TWO32, len) then 1 + len / TWO29 else len / TWO29);
  }

  /** After an empty message, an update of 2^29 bytes leaves the high word at zero. */
  lemma LongUpdateMiscounted()
    ensures High(0, 0, TWO29) == 0 && 8 * TWO29 / TWO32 % TWO32 == 1
  {
  }

  class Context<!S> {
    const f: Compression<S>
    const init: S
    var count0: nat
    var count1: nat
    var state: S
    const buf: array<Byte>

    constructor (f: Compression<S>, init: S)
      ensures Holds([]) && Exact([]) && this.f == f && this.init == init && fresh(buf)
    {
      this.f := f;
      this.init := init;
      count0, count1 := 0, 0;
      state := init;
      buf := new Byte[128](_ => 0);
    }

    /** The context has absorbed m; nothing is said about the high word of the counter. */
    ghost predicate Holds(m: seq<Byte>)
      reads this, buf
    {
      && buf.Length == 128
      && count0 == 8 * |m| % TWO32 && count1 < TWO32
      && state == Fold(f, init, m)
      && buf[..|m| % BLOCK] == Rest(m)
    }

    /** The high word of the counter is right. */
    ghost predicate Exact(m: seq<Byte>)
      reads this
    {
      count1 == 8 * |m| / TWO32 % TWO32
    }

    /** The block that the buffered bytes begin. */
    method FirstBlock(data: seq<Byte>, index: nat, ghost pending: seq<Byte>)
      requires buf.Length == 128 && index < BLOCK && buf[..index] == pending && |data| >= BLOCK - index
      modifies this`state, buf
      ensures state == f(old(state), pending + data[..BLOCK - index])
    {
      Copy(buf, index, data[..BLOCK - index]);
      assert buf[..BLOCK] == pending + data[..BLOCK - index];
      state := f(state, buf[..BLOCK]);
    }

    /** The loop over the blocks of the data. */
    method MoreBlocks(data: seq<Byte>, index: nat, start: nat) returns (i: nat)
      requires index < BLOCK && start == BLOCK - index <= |data| && index + |data| < TWO32
      modifies this`state
      ensures start <= i <= |data| && |data| - i < BLOCK
      ensures state == Fold(f, old(state), data[start..]) && data[i..] == Rest(data[start..])
    {
      i := start;
      while (i + 63) % TWO32 < |data|
        invariant start <= i <= |data| && (i + index) % BLOCK == 0
        invariant Fold(f, state, data[i..]) == Fold(f, old(state), data[start..])
        invariant Rest(data[i..]) == Rest(data[start..])
        decreases |data| - i
      {
        WrappedStep(index, i, |data|);
        FoldBlock(f, state, data, i);
        state := f(state, data[i..i + BLOCK]);
        i := (i + BLOCK) % TWO32;
      }
      WrappedStep(index, i, |data|);
      ShortRest(data[i..]);
    }

    /** All the blocks that the buffered bytes and the data fill. */
    method Blocks(data: seq<Byte>, index: nat, ghost pending: seq<Byte>) returns (i: nat)
      requires buf.Length == 128 && index < BLOCK && buf[..index] == pending
      requires |data| >= BLOCK - index && index + |data| < TWO32
      modifies this`state, buf
      ensures i <= |data| && |data| - i < BLOCK
      ensures state == Fold(f, old(state), pending + data) && data[i..] == Rest(pending + data)
    {
      ghost var all := pending + data;
      FoldBlock(f, state, all, 0);
      assert all[0..] == all && all[0..BLOCK] == pending + data[..BLOCK - index] && all[BLOCK..] == data[BLOCK - index..];
      FirstBlock(data, index, pending);
      i := MoreBlocks(data, index, BLOCK - index);
    }

    /** What does not fill a block stays in the buffer. */
    method Keep(index: nat, data: seq<Byte>)
      requires buf.Length == 128 && index + |data| < BLOCK
      modifies buf
      ensures buf[..index + |data|] == old(buf[..index]) + data
    {
      Copy(buf, index, data);
    }

    /** The work of sha256_update on the state and the buffer. */
    method Absorb(data: seq<Byte>, index: nat, ghost pending: seq<Byte>)
      requires buf.Length == 128 && index < BLOCK && buf[..index] == pending && index + |data| < TWO32
      modifies this`state, buf
      ensures state == Fold(f, old(state), pending + data)
      ensures buf[..(index + |data|) % BLOCK] == Rest(pending + data)
    {
      if |data| >= BLOCK - index {
        var i := Blocks(data, index, pending);
        Keep(0, data[i..]);
      } else {
        ShortRest(pending + data);
        Keep(index, data);
      }
    }

    /** sha256_update. */
    method Update(ghost m: seq<Byte>, data: seq<Byte>)
      requires Holds(m) && |m| % BLOCK + |data| < TWO32
      modifies this`count0, this`count1, this`state, buf
      ensures Holds(m + data)
      ensures old(Exact(m)) ==> (Exact(m + data) <==> |data| < TWO29 || Carries(8 * |m| % TWO32, |data|))
    {
      Continue(f, init, m, data);
      LowWord(|m|, |data|);
      HighWordIff(|m|, |data|);
      var index := count0 / 8 % BLOCK;
      Count(|data|);
      Absorb(data, index, Rest(m));
    }

    method Count(len: nat)
      requires count0 < TWO32 && count1 < TWO32
      modifies this`count0, this`count1
      ensures count0 == (old(count0) + Low(len)) % TWO32
      ensures count1 == High(old(count0), old(count1), len)
    {
      count0 := (count0 + 8 * len % TWO32) % TWO32;
      if count0 < 8 * len % TWO32 {
        count1 := (count1 + 1) % TWO32;
        count1 := (count1 + len / TWO29) % TWO32;
      }
    }

    /** sha256_final: the padded message is hashed with the counter as its length. */
    method Final(ghost m: seq<Byte>) returns (digest: S)
      requires Holds(m)
      modifies this`count0, this`count1, this`state, buf
      ensures digest == Fold(f, init, Padded(m, Big32(old(count1)) + Big32(8 * |m| % TWO32)))
      ensures old(Exact(m)) ==> digest == BigDigest(f, init, m)
    {
      var bits := Big32(count1) + Big32(count0);
      LowWord(|m|, 0);
      PaddingUsed(|m|);
      LengthBytes(|m|);
      var padLen := PadLength(count0 / 8 % BLOCK);
      Update(m, ([0x80] + Zeros(63))[..padLen]);
      Update(m + Pad(|m|), bits);
      digest := state;
    }
  }

  lemma LengthBytes(n: nat)
    ensures Big64(8 * n % TWO64) == Big32(8 * n / TWO32 % TWO32) + Big32(8 * n % TWO32)
  {
    assert 8 * n % TWO64 / TWO32 == 8 * n / TWO32 % TWO32;
    assert 8 * n % TWO64 % TWO32 == 8 * n % TWO32;
  }
}
