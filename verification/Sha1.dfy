/** SHA-1 as a stream: sha1_update and sha1_final, the compression function being a parameter. */
module Sha1 {
  import opened BlockStream

  /** 32-bit negation. */
  function Negated(x: nat): nat
    requires x < TWO32
  {
    (TWO32 - x) % TWO32
  }

  /** The sum in the guard of sha1_update says what it means exactly when it does not wrap. */
  lemma GuardIsRight(partial: nat, len: nat)
    requires partial < BLOCK && len < TWO32
    ensures ((partial + len) % TWO32 > 63 <==> partial + len > 63) <==> partial + len < TWO32
  {
  }

  class Context<!S> {
    const f: Compression<S>
    const init: S
    var count: nat
    var state: S
    const buffer: array<Byte>

    constructor (f: Compression<S>, init: S)
      ensures Holds([]) && this.f == f && this.init == init && fresh(buffer)
    {
      this.f := f;
      this.init := init;
      count := 0;
      state := init;
      buffer := new Byte[BLOCK](_ => 0);
    }

    /** The context has absorbed m. */
    ghost predicate Holds(m: seq<Byte>)
      reads this, buffer
    {
      && buffer.Length == BLOCK
      && count == |m| % TWO64
      && state == Fold(f, init, m)
      && buffer[..|m| % BLOCK] == Rest(m)
    }

    /** The block that the buffered bytes begin, or the first one of the data. */
    method FirstBlock(data: seq<Byte>, partial: nat, ghost pending: seq<Byte>) returns (done: nat)
      requires buffer.Length == BLOCK && partial < BLOCK && buffer[..partial] == pending
      requires partial + |data| > 63
      modifies this`state, buffer
      ensures done == BLOCK - partial
      ensures state == f(old(state), pending + data[..done])
    {
      done := 0;
      var block := data[..0];
      if partial != 0 {
        done := Negated(partial);
        WrappedOffset(partial);
        Copy(buffer, partial, data[..(done + BLOCK) % TWO32]);
        block := buffer[..];
        assert block == pending + data[..BLOCK - partial];
      } else {
        block := data[..BLOCK];
        assert block == pending + data[..BLOCK];
      }
      state := f(state, block);
      done := (done + BLOCK) % TWO32;
    }

    /** The do-while loop after its first round. */
    method MoreBlocks(data: seq<Byte>, partial: nat, start: nat) returns (done: nat)
      requires partial < BLOCK && start == BLOCK - partial <= |data| && partial + |data| < TWO32
      modifies this`state
      ensures start <= done <= |data| && |data| - done < BLOCK
      ensures state == Fold(f, old(state), data[start..]) && data[done..] == Rest(data[start..])
    {
      done := start;
      while (done + 63) % TWO32 < |data|
        invariant start <= done <= |data| && (done + partial) % BLOCK == 0
        invariant Fold(f, state, data[done..]) == Fold(f, old(state), data[start..])
        invariant Rest(data[done..]) == Rest(data[start..])
        decreases |data| - done
      {
        WrappedStep(partial, done, |data|);
        FoldBlock(f, state, data, done);
        state := f(state, data[done..done + BLOCK]);
        done := (done + BLOCK) % TWO32;
      }
      WrappedStep(partial, done, |data|);
      ShortRest(data[done..]);
    }

    /** All the blocks that the buffered bytes and the data fill. */
    method Blocks(data: seq<Byte>, partial: nat, ghost pending: seq<Byte>) returns (done: nat)
      requires buffer.Length == BLOCK && partial < BLOCK && buffer[..partial] == pending
      requires partial + |data| > 63 && partial + |data| < TWO32
      modifies this`state, buffer
      ensures done <= |data| && |data| - done < BLOCK
      ensures state == Fold(f, old(state), pending + data) && data[done..] == Rest(pending + data)
    {
      ghost var all := pending + data;
      FoldBlock(f, state, all, 0);
      assert all[0..] == all && all[0..BLOCK] == pending + data[..BLOCK - partial] && all[BLOCK..] == data[BLOCK - partial..];
      done := FirstBlock(data, partial, pending);
      done := MoreBlocks(data, partial, done);
    }

    /** sha1_update. */
    method Update(ghost m: seq<Byte>, data: seq<Byte>)
      requires Holds(m) && |m| % BLOCK + |data| < TWO32
      modifies this`count, this`state, buffer
      ensures Holds(m + data)
    {
      ghost var pending := Rest(m);
      Continue(f, init, m, data);
      CountModulo(|m|, |data|);
      var partial := count % BLOCK;
      count := (count + |data|) % TWO64;
      Absorb(data, partial, pending);
    }

    /** The work of sha1_update on the state and the buffer. */
    method Absorb(data: seq<Byte>, partial: nat, ghost pending: seq<Byte>)
      requires buffer.Length == BLOCK && partial < BLOCK && buffer[..partial] == pending
      requires partial + |data| < TWO32
      modifies this`state, buffer
      ensures state == Fold(f, old(state), pending + data)
      ensures buffer[..(partial + |data|) % BLOCK] == Rest(pending + data)
    {
      if (partial + |data|) % TWO32 > 63 {
        var done := Blocks(data, partial, pending);
        Copy(buffer, 0, data[done..]);
        assert buffer[..|data| - done] == data[done..];
      } else {
        ShortRest(pending + data);
        Copy(buffer, partial, data);
        assert buffer[..partial + |data|] == pending + data;
      }
    }

    /** sha1_final: the digest is that of the whole padded message. */
    method Final(ghost m: seq<Byte>) returns (digest: S)
      requires Holds(m)
      modifies this`count, this`state, buffer
      ensures digest == BigDigest(f, init, m)
    {
      CountModulo(|m|, 0);
      var bits := 8 * count % TWO64;
      var padlen := PadLength(count % BLOCK);
      PaddingUsed(|m|);
      Update(m, ([0x80] + Zeros(63))[..padlen]);
      Update(m + Pad(|m|), Big64(bits));
      digest := state;
    }
  }

  /** The wrapped offset plus a block is what is missing from the buffered block. */
  lemma WrappedOffset(partial: nat)
    requires 0 < partial < BLOCK
    ensures (Negated(partial) + BLOCK) % TWO32 == BLOCK - partial
  {
  }
}
