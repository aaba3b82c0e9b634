/**
  The generic cipher code: the mode functions on contiguous buffers, copying through a walk, and
  crypt(), which must agree with the flat buffer whatever the two scatterlists look like.
 */
module CipherWalk {
  import opened CipherModes
  import opened ScatterWalk

  // ---------------------------------------------------------------- memory as a sequence of bytes

  predicate InMemory(m: Bytes, a: seq<nat>) { forall i | 0 <= i < |a| :: a[i] < |m| }

  function Read(m: Bytes, a: seq<nat>): Bytes
    requires InMemory(m, a)
  {
    seq(|a|, i requires 0 <= i < |a| => m[a[i]])
  }

  /** The bytes y stored at the addresses a, one after the other. */
  function Write(m: Bytes, a: seq<nat>, y: Bytes): (r: Bytes)
    requires InMemory(m, a) && |a| == |y|
    ensures |r| == |m|
    decreases |a|
  {
    if a == [] then m
    else Write(m, a[..|a| - 1], y[..|y| - 1])[a[|a| - 1] := y[|y| - 1]]
  }

  /** y stored at one place. */
  function Put(m: Bytes, off: nat, y: Bytes): Bytes
    requires off + |y| <= |m|
  {
    m[..off] + y + m[off + |y|..]
  }

  lemma {:induction false} WriteSplit(m: Bytes, a: seq<nat>, b: seq<nat>, x: Bytes, y: Bytes)
    requires InMemory(m, a) && InMemory(m, b) && |a| == |x| && |b| == |y|
    ensures InMemory(m, a + b) && Write(m, a + b, x + y) == Write(Write(m, a, x), b, y)
    decreases |b|
  {
    if b == [] {
      assert a + b == a && x + y == x;
    } else {
      var n := |b| - 1;
      assert (a + b)[..|a| + n] == a + b[..n] && (x + y)[..|x| + n] == x + y[..n];
      WriteSplit(m, a, b[..n], x, y[..n]);
    }
  }

  lemma {:induction false} WriteRange(m: Bytes, off: nat, y: Bytes)
    requires off + |y| <= |m|
    ensures InMemory(m, Range(off, |y|)) && Write(m, Range(off, |y|), y) == Put(m, off, y)
    decreases |y|
  {
    if y == [] {
      assert Put(m, off, y) == m;
    } else {
      var n := |y| - 1;
      assert Range(off, |y|)[..n] == Range(off, n);
      WriteRange(m, off, y[..n]);
      assert Put(m, off, y[..n])[off + n := y[n]] == Put(m, off, y);
    }
  }

  lemma ReadRange(m: Bytes, off: nat, n: nat)
    requires off + n <= |m|
    ensures InMemory(m, Range(off, n)) && Read(m, Range(off, n)) == m[off..off + n]
  {
  }

  /** No address twice. */
  ghost predicate Injective(a: seq<nat>) { forall i, j | 0 <= i < j < |a| :: a[i] != a[j] }

  ghost predicate Apart(a: seq<nat>, b: seq<nat>) {
    forall i, j | 0 <= i < |a| && 0 <= j < |b| :: a[i] != b[j]
  }

  lemma {:induction false} WriteElsewhere(m: Bytes, a: seq<nat>, y: Bytes, b: seq<nat>)
    requires InMemory(m, a) && |a| == |y| && InMemory(m, b) && Apart(b, a)
    ensures Read(Write(m, a, y), b) == Read(m, b)
    decreases |a|
  {
    if a != [] {
      var n := |a| - 1;
      WriteElsewhere(m, a[..n], y[..n], b);
      forall i | 0 <= i < |b| ensures Read(Write(m, a, y), b)[i] == Read(m, b)[i] {
        assert Read(Write(m, a[..n], y[..n]), b)[i] == Read(m, b)[i];
      }
    }
  }

  /** What was written is what is read back. */
  lemma {:induction false} WriteRead(m: Bytes, a: seq<nat>, y: Bytes)
    requires InMemory(m, a) && |a| == |y| && Injective(a)
    ensures Read(Write(m, a, y), a) == y
    decreases |a|
  {
    if a != [] {
      var n := |a| - 1;
      WriteRead(m, a[..n], y[..n]);
      forall i | 0 <= i < |a| ensures Read(Write(m, a, y), a)[i] == y[i] {
        if i < n {
          assert Read(Write(m, a[..n], y[..n]), a[..n])[i] == y[i];
        }
      }
    }
  }

  // ---------------------------------------------------------------- buffers

  method Store(a: array<bv8>, off: nat, y: Bytes)
    requires off + |y| <= a.Length
    modifies a
    ensures a[..] == Put(old(a[..]), off, y)
  {
    forall i | 0 <= i < |y| { a[off + i] := y[i]; }
    assert a[..] == Put(old(a[..]), off, y);
  }

  /** The source and the target are the same buffer or do not overlap. */
  predicate Compatible(dst: array<bv8>, d: nat, src: array<bv8>, s: nat, n: nat) {
    dst == src ==> d == s || d + n <= s || s + n <= d
  }

  /** memcpy over a whole array. */
  method Fill(a: array<bv8>, y: Bytes)
    requires |y| == a.Length
    modifies a
    ensures a[..] == y
  {
    Store(a, 0, y);
    assert Put(old(a[..]), 0, y) == y;
  }

  lemma PutKeeps(m: Bytes, off: nat, z: Bytes, lo: nat, hi: nat)
    requires off + |z| <= |m| && lo <= hi <= |m| && (off + |z| <= lo || hi <= off)
    ensures Put(m, off, z)[lo..hi] == m[lo..hi]
  {
  }

  /** Writing one block leaves the part of the source that is still to be read. */
  lemma TailKept(dst: array<bv8>, src: array<bv8>, m: Bytes, off: nat, z: Bytes, lo: nat, hi: nat)
    requires |m| == src.Length && lo <= hi <= |m|
    requires if dst == src then off + |z| <= |m| && src[..] == Put(m, off, z) && (off + |z| <= lo || hi <= off) else src[..] == m
    ensures src[lo..hi] == m[lo..hi]
  {
    if dst == src { PutKeeps(m, off, z, lo, hi); }
    assert src[lo..hi] == src[..][lo..hi];
  }

  /** xor, in place: the n bytes at off are combined with y. */
  method XorInto(a: array<bv8>, off: nat, y: Bytes, ghost x: Bytes, ghost a0: Bytes)
    requires off + |y| <= a.Length && |x| == |y| && |a0| == a.Length && a[..] == Put(a0, off, x)
    modifies a
    ensures a[..] == Put(a0, off, Xor(x, y))
  {
    assert a[off..off + |y|] == x;
    Store(a, off, Xor(a[off..off + |y|], y));
  }

  method EncryptBlock(c: Cipher, iv: array<bv8>, dst: array<bv8>, d: nat, src: array<bv8>, s: nat)
    requires Sized(c) && iv.Length == c.bsize && iv != dst && iv != src
    requires d + c.bsize <= dst.Length && s + c.bsize <= src.Length
    modifies iv, dst
    ensures var y := c.fn(Xor(old(iv[..]), old(src[s..s + c.bsize]))); dst[..] == Put(old(dst[..]), d, y) && iv[..] == y
  {
    Fill(iv, Xor(iv[..], src[s..s + c.bsize]));
    var y := c.fn(iv[..]);
    Store(dst, d, y);
    assert dst[d..d + c.bsize] == y;
    Fill(iv, dst[d..d + c.bsize]);
  }

  /** Source and target coincide: a private buffer takes the block, so that the vector can be read from the source. */
  method DecryptInPlace(c: Cipher, iv: array<bv8>, dst: array<bv8>, d: nat)
    requires Sized(c) && iv.Length == c.bsize && iv != dst && d + c.bsize <= dst.Length
    modifies iv, dst
    ensures dst[..] == Put(old(dst[..]), d, Xor(c.fn(old(dst[d..d + c.bsize])), old(iv[..])))
    ensures iv[..] == old(dst[d..d + c.bsize])
  {
    var buf := new bv8[c.bsize];
    Fill(buf, c.fn(dst[d..d + c.bsize]));
    Fill(buf, Xor(buf[..], iv[..]));
    Fill(iv, dst[d..d + c.bsize]);
    Store(dst, d, buf[..]);
  }

  /** Otherwise the block is made in the target, and the source is still there for the vector. */
  method DecryptAcross(c: Cipher, iv: array<bv8>, dst: array<bv8>, d: nat, src: array<bv8>, s: nat)
    requires Sized(c) && iv.Length == c.bsize && iv != dst && iv != src
    requires d + c.bsize <= dst.Length && s + c.bsize <= src.Length
    requires dst == src ==> d + c.bsize <= s || s + c.bsize <= d
    modifies iv, dst
    ensures dst[..] == Put(old(dst[..]), d, Xor(c.fn(old(src[s..s + c.bsize])), old(iv[..])))
    ensures iv[..] == old(src[s..s + c.bsize])
  {
    ghost var m, x, v, d0 := src[..], src[s..s + c.bsize], iv[..], dst[..];
    Store(dst, d, c.fn(src[s..s + c.bsize]));
    XorInto(dst, d, iv[..], c.fn(x), d0);
    TailKept(dst, src, m, d, Xor(c.fn(x), v), s, s + c.bsize);
    Fill(iv, src[s..s + c.bsize]);
  }

  method DecryptBlock(c: Cipher, iv: array<bv8>, dst: array<bv8>, d: nat, src: array<bv8>, s: nat)
    requires Sized(c) && iv.Length == c.bsize && iv != dst && iv != src
    requires d + c.bsize <= dst.Length && s + c.bsize <= src.Length && Compatible(dst, d, src, s, c.bsize)
    modifies iv, dst
    ensures dst[..] == Put(old(dst[..]), d, Xor(c.fn(old(src[s..s + c.bsize])), old(iv[..])))
    ensures iv[..] == old(src[s..s + c.bsize])
  {
    if dst == src && d == s {
      DecryptInPlace(c, iv, dst, d);
    } else {
      DecryptAcross(c, iv, dst, d, src, s);
    }
  }

  /** One block of a mode function. */
  method OneBlock(c: Cipher, iv: array<bv8>, dst: array<bv8>, d: nat, src: array<bv8>, s: nat)
    requires Sized(c) && iv.Length == c.bsize && iv != dst && iv != src
    requires d + c.bsize <= dst.Length && s + c.bsize <= src.Length && Compatible(dst, d, src, s, c.bsize)
    modifies iv, dst
    ensures dst[..] == Put(old(dst[..]), d, Step(c, old(iv[..]), old(src[s..s + c.bsize])).0)
    ensures iv[..] == Step(c, old(iv[..]), old(src[s..s + c.bsize])).1
  {
    match c.mode
    case Ecb => Store(dst, d, c.fn(src[s..s + c.bsize]));
    case CbcEncrypt => EncryptBlock(c, iv, dst, d, src, s);
    case CbcDecrypt => DecryptBlock(c, iv, dst, d, src, s);
  }

  lemma PutMore(m: Bytes, off: nat, y: Bytes, z: Bytes)
    requires off + |y| + |z| <= |m|
    ensures Put(Put(m, off, y), off + |y|, z) == Put(m, off, y + z)
  {
  }

  /** `out` has been produced; the rest of the source, under the present vector, yields the rest of the result. */
  ghost predicate Going(c: Cipher, result: (Bytes, Bytes), out: Bytes, iv: Bytes, rest: Bytes) {
    && Sized(c) && |iv| == c.bsize
    && result.0 == out + Flat(c, iv, rest).0 && result.1 == Flat(c, iv, rest).1
  }

  lemma GoesOn(c: Cipher, result: (Bytes, Bytes), out: Bytes, iv: Bytes, rest: Bytes)
    requires Going(c, result, out, iv, rest) && |rest| >= c.bsize
    ensures var r := Step(c, iv, rest[..c.bsize]); Going(c, result, out + r.0, r.1, rest[c.bsize..])
  {
    var r := Step(c, iv, rest[..c.bsize]);
    var f := Flat(c, r.1, rest[c.bsize..]);
    assert out + (r.0 + f.0) == (out + r.0) + f.0;
  }

  /** One turn of the loop of a mode function. */
  method NextOne(c: Cipher, iv: array<bv8>, dst: array<bv8>, d: nat, src: array<bv8>, s: nat, n: nat, done: nat,
                 ghost dst0: Bytes, ghost iv0: Bytes, ghost rest0: Bytes)
    requires Sized(c) && iv.Length == c.bsize && iv != dst && iv != src
    requires done + c.bsize <= n && d + n <= dst.Length && s + n <= src.Length && Compatible(dst, d, src, s, n)
    requires dst[..] == dst0 && iv[..] == iv0 && src[s + done..s + n] == rest0
    modifies iv, dst
    ensures var r := Step(c, iv0, rest0[..c.bsize]); dst[..] == Put(dst0, d + done, r.0) && iv[..] == r.1
    ensures src[s + done + c.bsize..s + n] == rest0[c.bsize..]
  {
    ghost var m, z := src[..], Step(c, iv0, rest0[..c.bsize]).0;
    assert src[s + done..s + done + c.bsize] == rest0[..c.bsize];
    assert m[s + done + c.bsize..s + n] == rest0[c.bsize..];
    OneBlock(c, iv, dst, d + done, src, s + done);
    TailKept(dst, src, m, d + done, z, s + done + c.bsize, s + n);
  }

  /** One round of the loop over the blocks. */
  method Iterate(c: Cipher, iv: array<bv8>, dst: array<bv8>, d: nat, src: array<bv8>, s: nat, n: nat, done: nat,
                 ghost d0: Bytes, ghost result: (Bytes, Bytes), ghost out: Bytes, ghost iv1: Bytes, ghost rest1: Bytes)
    returns (ghost out2: Bytes, ghost iv2: Bytes, ghost rest2: Bytes)
    requires Sized(c) && iv.Length == c.bsize && iv != dst && iv != src
    requires done + c.bsize <= n && d + n <= dst.Length && s + n <= src.Length && Compatible(dst, d, src, s, n)
    requires |out| == done && |rest1| == n - done && Going(c, result, out, iv1, rest1) && |d0| == dst.Length
    requires dst[..] == Put(d0, d, out) && iv[..] == iv1 && src[s + done..s + n] == rest1
    modifies iv, dst
    ensures |out2| == done + c.bsize && |rest2| == n - done - c.bsize && Going(c, result, out2, iv2, rest2)
    ensures dst[..] == Put(d0, d, out2) && iv[..] == iv2 && src[s + done + c.bsize..s + n] == rest2
  {
    GoesOn(c, result, out, iv1, rest1);
    ghost var r := Step(c, iv1, rest1[..c.bsize]);
    PutMore(d0, d, out, r.0);
    NextOne(c, iv, dst, d, src, s, n, done, Put(d0, d, out), iv1, rest1);
    out2, iv2, rest2 := out + r.0, r.1, rest1[c.bsize..];
  }

  /** ecb_process, cbc_process_encrypt or cbc_process_decrypt: all whole blocks of n bytes. */
  method Process(c: Cipher, iv: array<bv8>, dst: array<bv8>, d: nat, src: array<bv8>, s: nat, n: nat)
    returns (done: nat, ghost k: nat)
    requires Sized(c) && iv.Length == c.bsize && iv != dst && iv != src
    requires c.bsize <= n && d + n <= dst.Length && s + n <= src.Length && Compatible(dst, d, src, s, n)
    modifies iv, dst
    ensures done <= n < done + c.bsize && Blocks(c, done, k) && 0 < done
    ensures var r := Flat(c, old(iv[..]), old(src[s..s + n]));
            |r.0| == done && dst[..] == Put(old(dst[..]), d, r.0) && iv[..] == r.1
  {
    ghost var d0, result := dst[..], Flat(c, iv[..], src[s..s + n]);
    ghost var out, iv1, rest1 := [], iv[..], src[s..s + n];
    done, k := 0, 0;
    assert Put(d0, d, []) == d0;
    while done + c.bsize <= n
      invariant 0 <= done <= n && done == |out| && (done == 0 || c.bsize <= done) && Blocks(c, done, k)
      invariant Going(c, result, out, iv1, rest1) && |rest1| == n - done
      invariant dst[..] == Put(d0, d, out) && iv[..] == iv1 && src[s + done..s + n] == rest1
      decreases n - done
    {
      out, iv1, rest1 := Iterate(c, iv, dst, d, src, s, n, done, d0, result, out, iv1, rest1);
      done, k := done + c.bsize, k + 1;
    }
    assert out + [] == out;
  }

  // ---------------------------------------------------------------- copying through a walk

  /** The next n bytes of the walk lie in memory one after the other. */
  lemma Straight(m: Bytes, w: Walk, pos: nat, n: nat)
    requires w.At(pos) && n <= w.lenPage && InMemory(m, Addrs(w.list))
    ensures pos + n <= |Addrs(w.list)| && w.Data() + n <= |m|
    ensures InMemory(m, Addrs(w.list)[pos..pos + n]) && Addrs(w.list)[pos..pos + n] == Range(w.Data(), n)
    ensures Read(m, Addrs(w.list)[pos..pos + n]) == m[w.Data()..w.Data() + n]
  {
    w.Contiguous(pos, n);
    var a := Addrs(w.list)[pos..pos + n];
    if n > 0 { assert a[n - 1] == w.Data() + n - 1 && a[n - 1] == Addrs(w.list)[pos + n - 1]; }
    else { StartsInside(m, w, pos); }
  }

  lemma StartsInside(m: Bytes, w: Walk, pos: nat)
    requires w.At(pos) && InMemory(m, Addrs(w.list))
    ensures w.Data() <= |m|
  {
    BeginNext(w.list, w.sg);
    assert w.list[w.sg] in w.list;
    var e := w.list[w.sg];
    var r := Range(e.Base(), e.length);
    assert r[e.length - 1] == Addrs(w.list)[Begin(w.list, w.sg) + e.length - 1];
  }

  lemma Halves<T>(s: seq<T>, n: nat)
    requires n <= |s|
    ensures s == s[..n] + s[n..]
  {
  }

  /** The first len bytes, which lie straight at off, are written; the others are still to be. */
  lemma WriteChunk(m: Bytes, off: nat, a: seq<nat>, x: Bytes, len: nat)
    requires InMemory(m, a) && |a| == |x| && len <= |a| && off + len <= |m| && a[..len] == Range(off, len)
    ensures InMemory(m, a[len..]) && Write(m, a, x) == Write(Put(m, off, x[..len]), a[len..], x[len..])
  {
    Halves(a, len);
    Halves(x, len);
    WriteSplit(m, a[..len], a[len..], x[..len], x[len..]);
    WriteRange(m, off, x[..len]);
  }

  lemma ReadChunk(m: Bytes, off: nat, a: seq<nat>, len: nat)
    requires InMemory(m, a) && len <= |a| && off + len <= |m| && a[..len] == Range(off, len)
    ensures InMemory(m, a[len..]) && Read(m, a) == m[off..off + len] + Read(m, a[len..])
  {
    ReadRange(m, off, len);
    assert Read(m, a)[..len] == Read(m, a[..len]);
  }

  lemma ChunkAhead(m: Bytes, w: Walk, pos: nat, a: seq<nat>, len: nat)
    requires w.At(pos) && len <= w.lenPage && InMemory(m, Addrs(w.list)) && len <= |a|
    requires pos + |a| <= |Addrs(w.list)| && a == Addrs(w.list)[pos..pos + |a|]
    ensures w.Data() + len <= |m| && InMemory(m, a) && a[..len] == Range(w.Data(), len)
    ensures a[len..] == Addrs(w.list)[pos + len..pos + |a|]
  {
    Straight(m, w, pos, len);
    assert a[..len] == Addrs(w.list)[pos..pos + len];
  }

  method Fetch(mem: array<bv8>, at: nat, buf: array<bv8>, off: nat, len: nat, ghost m: Bytes, ghost got: Bytes)
    requires buf != mem && at + len <= mem.Length && off + len <= buf.Length && mem[..] == m && buf[..off] == got
    modifies buf
    ensures buf[..off + len] == got + m[at..at + len]
  {
    Store(buf, off, mem[at..at + len]);
    assert buf[..off + len] == Put(old(buf[..]), off, m[at..at + len])[..off + len];
  }

  lemma Glue(got: Bytes, x: Bytes, y: Bytes)
    ensures (got + x) + y == got + (x + y)
  {
  }

  /** A stretch within the page, copied behind what the buffer has got. */
  method FetchChunk(mem: array<bv8>, buf: array<bv8>, w: Walk, off: nat, len: nat, ghost m: Bytes, ghost got: Bytes,
                    ghost a: seq<nat>, ghost pos: nat)
    returns (ghost more: Bytes)
    requires w.At(pos) && len <= w.lenPage && len <= |a| && InMemory(m, Addrs(w.list))
    requires pos + |a| <= |Addrs(w.list)| && a == Addrs(w.list)[pos..pos + |a|] && InMemory(m, a)
    requires buf != mem && off + len <= buf.Length && mem[..] == m && buf[..off] == got
    modifies buf
    ensures InMemory(m, a[len..]) && a[len..] == Addrs(w.list)[pos + len..pos + |a|]
    ensures buf[..off + len] == more && |more| == off + len && more + Read(m, a[len..]) == got + Read(m, a)
  {
    var at := w.Data();
    ChunkAhead(m, w, pos, a, len);
    ReadChunk(m, at, a, len);
    Fetch(mem, at, buf, off, len, m, got);
    more := got + m[at..at + len];
    Glue(got, m[at..at + len], Read(m, a[len..]));
  }

  /** scatterwalk_copychunks out of the list; `last` is what the caller still has to advance by. */
  method CopyIn(mem: array<bv8>, buf: array<bv8>, w: Walk, n: nat, ghost pos: nat) returns (last: nat)
    requires w.At(pos) && w.lenPage > 0 && n <= buf.Length && buf != mem
    requires pos + n <= |Addrs(w.list)| && InMemory(mem[..], Addrs(w.list))
    modifies w, buf
    ensures last <= w.lenPage && last <= n && w.At(pos + n - last)
    ensures InMemory(mem[..], Addrs(w.list)[pos..pos + n]) && buf[..n] == Read(mem[..], Addrs(w.list)[pos..pos + n])
  {
    ghost var m, a := mem[..], Addrs(w.list)[pos..pos + n];
    ghost var goal, got := Read(m, a), [];
    var off := 0;
    last := n;
    while last > w.lenPage
      invariant off + last == n && w.At(pos + off) && w.lenPage > 0
      invariant |a| == last && a == Addrs(w.list)[pos + off..pos + n] && InMemory(m, a)
      invariant |got| == off && buf[..off] == got && goal == got + Read(m, a)
      decreases last
    {
      var len := w.lenPage;
      got := FetchChunk(mem, buf, w, off, len, m, got, a, pos + off);
      a := a[len..];
      w.PageDone(pos + off);
      off, last := off + len, last - len;
    }
    got := FetchChunk(mem, buf, w, off, last, m, got, a, pos + off);
    assert got + Read(m, a[last..]) == got;
  }

  /** One memcpy of the loop below: y[..len] goes to the next len bytes of the walk. */
  method Spill(mem: array<bv8>, w: Walk, part: Bytes, ghost pos: nat, ghost a: seq<nat>, ghost y: Bytes, ghost goal: Bytes)
    requires w.At(pos) && |part| <= w.lenPage && |part| <= |a| == |y| && part == y[..|part|]
    requires pos + |a| <= |Addrs(w.list)| && a == Addrs(w.list)[pos..pos + |a|]
    requires InMemory(mem[..], Addrs(w.list)) && InMemory(mem[..], a) && goal == Write(mem[..], a, y)
    modifies mem
    ensures InMemory(mem[..], a[|part|..]) && goal == Write(mem[..], a[|part|..], y[|part|..])
    ensures a[|part|..] == Addrs(w.list)[pos + |part|..pos + |a|]
  {
    ChunkAhead(mem[..], w, pos, a, |part|);
    WriteChunk(mem[..], w.Data(), a, y, |part|);
    Store(mem, w.Data(), part);
  }

  /** A whole page, and on to the next. */
  method SpillPage(mem: array<bv8>, w: Walk, y: Bytes, ghost pos: nat, ghost a: seq<nat>, ghost goal: Bytes) returns (rest: Bytes)
    requires w.At(pos) && w.lenPage < |a| == |y|
    requires pos + |a| <= |Addrs(w.list)| && a == Addrs(w.list)[pos..pos + |a|]
    requires InMemory(mem[..], Addrs(w.list)) && InMemory(mem[..], a) && goal == Write(mem[..], a, y)
    modifies w, mem
    ensures var n := old(w.lenPage);
            && rest == y[n..] && w.At(pos + n) && w.lenPage > 0
            && InMemory(mem[..], a[n..]) && goal == Write(mem[..], a[n..], rest)
            && a[n..] == Addrs(w.list)[pos + n..pos + |a|]
  {
    rest := y[w.lenPage..];
    Spill(mem, w, y[..w.lenPage], pos, a, y, goal);
    w.PageDone(pos);
  }

  /** scatterwalk_copychunks into the list. */
  method CopyOut(mem: array<bv8>, x: Bytes, w: Walk, ghost pos: nat) returns (last: nat)
    requires w.At(pos) && w.lenPage > 0
    requires pos + |x| <= |Addrs(w.list)| && InMemory(mem[..], Addrs(w.list))
    modifies w, mem
    ensures last <= w.lenPage && last <= |x| && w.At(pos + |x| - last)
    ensures InMemory(old(mem[..]), Addrs(w.list)[pos..pos + |x|])
    ensures mem[..] == Write(old(mem[..]), Addrs(w.list)[pos..pos + |x|], x)
  {
    ghost var at, end, all := pos, pos + |x|, Addrs(w.list);
    ghost var a := all[at..end];
    ghost var goal := Write(mem[..], a, x);
    var y := x;
    while |y| > w.lenPage
      invariant at + |y| == end && |y| <= |x| && w.At(at) && w.lenPage > 0
      invariant |a| == |y| && a == all[at..end]
      invariant InMemory(mem[..], a) && goal == Write(mem[..], a, y)
      decreases |y|
    {
      ghost var len := w.lenPage;
      y := SpillPage(mem, w, y, at, a, goal);
      at, a := at + len, a[len..];
    }
    last := |y|;
    Spill(mem, w, y, at, a, y, goal);
  }

  // ---------------------------------------------------------------- one step of crypt()

  lemma FlatRemainder(c: Cipher, iv: Bytes, s: Bytes, done: nat, k: nat)
    requires Sized(c) && |iv| == c.bsize && Blocks(c, done, k) && done <= |s| < done + c.bsize
    ensures Flat(c, iv, s) == Flat(c, iv, s[..done])
  {
    assert s == s[..done] + s[done..];
    FlatSplit(c, iv, s[..done], s[done..], k);
    assert Flat(c, iv, s[..done]).0 + [] == Flat(c, iv, s[..done]).0;
  }

  /** In place, or with nothing in common. */
  ghost predicate Separate(src: seq<nat>, dst: seq<nat>) {
    (src == dst && Injective(src)) || Apart(src, dst)
  }

  /** What crypt() leaves in memory and in the vector when the bytes at src are still to go to dst. */
  ghost function Crypted(c: Cipher, m: Bytes, iv: Bytes, src: seq<nat>, dst: seq<nat>, k: nat): (r: (Bytes, Bytes))
    requires Sized(c) && |iv| == c.bsize && InMemory(m, src) && InMemory(m, dst) && |src| == |dst| && Blocks(c, |src|, k)
  {
    FlatLength(c, iv, Read(m, src), k);
    var f := Flat(c, iv, Read(m, src));
    (Write(m, dst, f.0), f.1)
  }

  lemma SeparateParts(src: seq<nat>, dst: seq<nat>, n: nat)
    requires Separate(src, dst) && |src| == |dst| && n <= |src|
    ensures Separate(src[n..], dst[n..]) && Apart(src[n..], dst[..n])
  {
  }

  lemma BlocksRest(c: Cipher, total: nat, n: nat, j: nat, k: nat)
    requires Blocks(c, total, j + k) && Blocks(c, n, j) && n <= total
    ensures Blocks(c, total - n, k)
  {
    assert (j + k) * c.bsize == j * c.bsize + k * c.bsize;
  }

  lemma ReadParts(m: Bytes, a: seq<nat>, n: nat)
    requires InMemory(m, a) && n <= |a|
    ensures InMemory(m, a[..n]) && InMemory(m, a[n..]) && Read(m, a) == Read(m, a[..n]) + Read(m, a[n..])
    ensures a == a[..n] + a[n..]
  {
  }

  /** Processing j blocks and then the rest is processing all of it. */
  lemma CryptedSplit(c: Cipher, m: Bytes, iv: Bytes, src: seq<nat>, dst: seq<nat>, n: nat, j: nat, k: nat)
    requires Sized(c) && |iv| == c.bsize && InMemory(m, src) && InMemory(m, dst) && |src| == |dst|
    requires Blocks(c, |src|, j + k) && Blocks(c, n, j) && n <= |src| && Separate(src, dst)
    ensures InMemory(m, src[..n]) && InMemory(m, dst[..n]) && Blocks(c, |src| - n, k)
    ensures var (m1, iv1) := Crypted(c, m, iv, src[..n], dst[..n], j);
            && |m1| == |m| && |iv1| == c.bsize && InMemory(m1, src[n..]) && InMemory(m1, dst[n..])
            && Crypted(c, m, iv, src, dst, j + k) == Crypted(c, m1, iv1, src[n..], dst[n..], k)
  {
    BlocksRest(c, |src|, n, j, k);
    ReadParts(m, src, n);
    ReadParts(m, dst, n);
    var x, y := Read(m, src[..n]), Read(m, src[n..]);
    var f := Flat(c, iv, x);
    FlatSplit(c, iv, x, y, j);
    FlatLength(c, iv, x, j);
    FlatLength(c, f.1, y, k);
    SeparateParts(src, dst, n);
    WriteElsewhere(m, dst[..n], f.0, src[n..]);
    WriteSplit(m, dst[..n], dst[n..], f.0, Flat(c, f.1, y).0);
  }

  lemma RangesMeet(a: nat, b: nat, n: nat)
    requires a < b + n && b < a + n
    ensures !Apart(Range(a, n), Range(b, n))
  {
    if a <= b {
      assert Range(a, n)[b - a] == Range(b, n)[0];
    } else {
      assert Range(a, n)[0] == Range(b, n)[a - b];
    }
  }

  lemma RangesApart(a: nat, b: nat, n: nat)
    requires Apart(Range(a, n), Range(b, n)) && n > 0
    ensures a + n <= b || b + n <= a
  {
    if a < b + n && b < a + n { RangesMeet(a, b, n); }
  }

  // ---------------------------------------------------------------- crypt()

  predicate Inside(a: seq<nat>, size: nat) { forall i | 0 <= i < |a| :: a[i] < size }

  /** A walk over a list that lies in memory, with n more bytes to come. */
  ghost predicate Standing(w: Walk, pos: nat, n: nat, size: nat)
    reads w
  {
    w.At(pos) && w.lenPage > 0 && pos + n <= |Addrs(w.list)| && Inside(Addrs(w.list), size)
  }

  function Ahead(w: Walk, pos: nat, n: nat): seq<nat>
    requires pos + n <= |Addrs(w.list)|
  {
    Addrs(w.list)[pos..pos + n]
  }

  /** Source and target of a fast step are compatible buffers. */
  lemma FastCompatible(mem: array<bv8>, win: Walk, wout: Walk, pos: nat, n: nat)
    requires Standing(win, pos, n, mem.Length) && Standing(wout, pos, n, mem.Length) && 0 < n
    requires n <= win.lenPage && n <= wout.lenPage && Separate(Ahead(win, pos, n), Ahead(wout, pos, n))
    ensures win.Data() + n <= mem.Length && wout.Data() + n <= mem.Length
    ensures Compatible(mem, wout.Data(), mem, win.Data(), n)
  {
    Straight(mem[..], win, pos, n);
    Straight(mem[..], wout, pos, n);
    if Apart(Ahead(win, pos, n), Ahead(wout, pos, n)) {
      RangesApart(win.Data(), wout.Data(), n);
    } else {
      assert Range(win.Data(), n)[0] == Range(wout.Data(), n)[0];
    }
  }

  /** Between two straight buffers the result is what the mode function puts there. */
  lemma CryptedStraight(c: Cipher, m: Bytes, iv: Bytes, a: nat, b: nat, n: nat, done: nat, k: nat)
    requires Sized(c) && |iv| == c.bsize && Blocks(c, done, k) && done <= n < done + c.bsize && a + n <= |m| && b + n <= |m|
    ensures InMemory(m, Range(a, done)) && InMemory(m, Range(b, done))
    ensures var f := Flat(c, iv, m[a..a + n]);
            |f.0| == done && Crypted(c, m, iv, Range(a, done), Range(b, done), k) == (Put(m, b, f.0), f.1)
  {
    var x := m[a..a + n];
    FlatRemainder(c, iv, x, done, k);
    ReadRange(m, a, done);
    assert x[..done] == m[a..a + done];
    FlatLength(c, iv, x[..done], k);
    WriteRange(m, b, Flat(c, iv, x).0);
  }

  /** What a fast step does, in terms of the two lists. */
  lemma CryptedAt(c: Cipher, m: Bytes, iv: Bytes, src: seq<nat>, dst: seq<nat>, a: nat, b: nat, n: nat, done: nat, k: nat,
                  m1: Bytes, iv1: Bytes)
    requires Sized(c) && |iv| == c.bsize && Blocks(c, done, k) && done <= n < done + c.bsize && a + n <= |m| && b + n <= |m|
    requires src == Range(a, done) && dst == Range(b, done)
    requires var f := Flat(c, iv, m[a..a + n]); |f.0| == done && m1 == Put(m, b, f.0) && iv1 == f.1
    ensures InMemory(m, src) && InMemory(m, dst) && (m1, iv1) == Crypted(c, m, iv, src, dst, k)
  {
    CryptedStraight(c, m, iv, a, b, n, done, k);
  }

  /** Within a page the list is a range of addresses. */
  lemma FastAhead(m: Bytes, w: Walk, pos: nat, n: nat, done: nat)
    requires Standing(w, pos, n, |m|) && done <= n <= w.lenPage
    ensures w.Data() + n <= |m| && Ahead(w, pos, done) == Range(w.Data(), done)
  {
    Straight(m, w, pos, n);
    Straight(m, w, pos, done);
  }

  /** The mode function through the bounce page. */
  method Bounce(c: Cipher, iv: array<bv8>, mem: array<bv8>, dst: nat, src: nat, n: nat, tmp: array<bv8>)
    returns (done: nat, ghost k: nat)
    requires Sized(c) && iv.Length == c.bsize && iv != mem && tmp != iv && tmp != mem && n <= tmp.Length
    requires c.bsize <= n && dst + n <= mem.Length && src + n <= mem.Length
    modifies iv, mem, tmp
    ensures done <= n < done + c.bsize && Blocks(c, done, k) && 0 < done
    ensures var r := Flat(c, old(iv[..]), old(mem[src..src + n]));
            |r.0| == done && mem[..] == Put(old(mem[..]), dst, r.0) && iv[..] == r.1
  {
    ghost var x := mem[src..src + n];
    Store(tmp, 0, mem[src..src + n]);
    assert tmp[0..n] == x;
    ghost var t := tmp[..];
    done, k := Process(c, iv, tmp, 0, tmp, 0, n);
    assert tmp[..done] == tmp[..][..done] == Put(t, 0, Flat(c, old(iv[..]), x).0)[..done] == Flat(c, old(iv[..]), x).0;
    Store(mem, dst, tmp[..done]);
  }

  /** The bytes of crypt_fast: straight from source to target, or through the bounce page. */
  method FastBytes(c: Cipher, iv: array<bv8>, mem: array<bv8>, dst: nat, src: nat, n: nat, tmp: array?<bv8>,
                   ghost m: Bytes, ghost v: Bytes)
    returns (done: nat, ghost k: nat)
    requires mem[..] == m && iv[..] == v
    requires Sized(c) && iv.Length == c.bsize && iv != mem && tmp != iv && tmp != mem && (tmp != null ==> n <= tmp.Length)
    requires c.bsize <= n && dst + n <= mem.Length && src + n <= mem.Length && Compatible(mem, dst, mem, src, n)
    modifies iv, mem, tmp
    ensures done <= n < done + c.bsize && Blocks(c, done, k) && 0 < done
    ensures var r := Flat(c, v, m[src..src + n]); |r.0| == done && mem[..] == Put(m, dst, r.0) && iv[..] == r.1
  {
    assert m[src..src + n] == mem[src..src + n];
    if tmp != null {
      done, k := Bounce(c, iv, mem, dst, src, n, tmp);
    } else {
      done, k := Process(c, iv, mem, dst, mem, src, n);
    }
  }

  /** crypt_fast up to the advance of the walks. */
  method FastCore(c: Cipher, iv: array<bv8>, mem: array<bv8>, win: Walk, wout: Walk, n: nat, tmp: array?<bv8>, ghost pos: nat)
    returns (done: nat, ghost k: nat)
    requires Sized(c) && iv.Length == c.bsize && iv != mem && tmp != iv && tmp != mem && (tmp != null ==> n <= tmp.Length)
    requires Standing(win, pos, n, mem.Length) && Standing(wout, pos, n, mem.Length)
    requires c.bsize <= n <= win.lenPage && n <= wout.lenPage
    requires win.Data() + n <= mem.Length && wout.Data() + n <= mem.Length && Compatible(mem, wout.Data(), mem, win.Data(), n)
    modifies iv, mem, tmp
    ensures 0 < done <= n && Blocks(c, done, k)
    ensures InMemory(old(mem[..]), Ahead(win, pos, done)) && InMemory(old(mem[..]), Ahead(wout, pos, done))
    ensures (mem[..], iv[..]) == Crypted(c, old(mem[..]), old(iv[..]), Ahead(win, pos, done), Ahead(wout, pos, done), k)
  {
    ghost var m, v := mem[..], iv[..];
    var src := win.Data();
    var dst := if win.page == wout.page && win.offset == wout.offset then src else wout.Data();
    done, k := FastBytes(c, iv, mem, dst, src, n, tmp, m, v);
    FastAhead(m, win, pos, n, done);
    FastAhead(m, wout, pos, n, done);
    assert wout.Data() == dst;
    CryptedAt(c, m, v, Ahead(win, pos, done), Ahead(wout, pos, done), src, dst, n, done, k, mem[..], iv[..]);
  }

  /** crypt_fast, with a bounce page when a buffer is not aligned. */
  method CryptFast(c: Cipher, iv: array<bv8>, mem: array<bv8>, win: Walk, wout: Walk, n: nat, tmp: array?<bv8>, ghost pos: nat)
    returns (done: nat, ghost k: nat)
    requires Sized(c) && iv.Length == c.bsize && iv != mem && tmp != iv && tmp != mem && (tmp != null ==> n <= tmp.Length)
    requires Standing(win, pos, n, mem.Length) && Standing(wout, pos, n, mem.Length) && win != wout
    requires c.bsize <= n <= win.lenPage && n <= wout.lenPage
    requires win.Data() + n <= mem.Length && wout.Data() + n <= mem.Length && Compatible(mem, wout.Data(), mem, win.Data(), n)
    modifies iv, mem, tmp, win, wout
    ensures 0 < done <= n && Blocks(c, done, k) && win.At(pos + done) && wout.At(pos + done)
    ensures InMemory(old(mem[..]), Ahead(win, pos, done)) && InMemory(old(mem[..]), Ahead(wout, pos, done))
    ensures (mem[..], iv[..]) == Crypted(c, old(mem[..]), old(iv[..]), Ahead(win, pos, done), Ahead(wout, pos, done), k)
  {
    done, k := FastCore(c, iv, mem, win, wout, n, tmp, pos);
    win.Advance(done, pos);
    wout.Advance(done, pos);
  }

  lemma OneBlockFlat(c: Cipher, iv: Bytes, x: Bytes)
    requires Sized(c) && |iv| == c.bsize && |x| == c.bsize
    ensures Blocks(c, |x|, 1) && |Flat(c, iv, x).0| == c.bsize
  {
    FlatLength(c, iv, x, 1);
  }

  /** One block through a private buffer. */
  method BlockOf(c: Cipher, iv: array<bv8>, x: Bytes) returns (y: Bytes)
    requires Sized(c) && iv.Length == c.bsize && |x| == c.bsize
    modifies iv
    ensures y == Flat(c, old(iv[..]), x).0 && iv[..] == Flat(c, old(iv[..]), x).1 && |y| == c.bsize
  {
    var b := c.bsize;
    var src, dst := new bv8[b], new bv8[b];
    Store(src, 0, x);
    assert src[0..b] == x;
    OneBlockFlat(c, iv[..], x);
    var done, k := Process(c, iv, dst, 0, src, 0, b);
    y := dst[..];
  }

  /** The first half of crypt_slow: a block is collected from however many pages it lies on. */
  method SlowIn(mem: array<bv8>, win: Walk, b: nat, ghost pos: nat) returns (x: Bytes)
    requires Standing(win, pos, b, mem.Length)
    modifies win
    ensures win.At(pos + b) && InMemory(mem[..], Ahead(win, pos, b)) && x == Read(mem[..], Ahead(win, pos, b))
  {
    var buf := new bv8[b];
    var last := CopyIn(mem, buf, win, b, pos);
    win.Advance(last, pos + b - last);
    x := buf[..b];
  }

  /** The second half: it is spread over the pages of the target. */
  method SlowOut(mem: array<bv8>, wout: Walk, y: Bytes, ghost pos: nat)
    requires Standing(wout, pos, |y|, mem.Length)
    modifies wout, mem
    ensures wout.At(pos + |y|) && InMemory(old(mem[..]), Ahead(wout, pos, |y|))
    ensures mem[..] == Write(old(mem[..]), Ahead(wout, pos, |y|), y)
  {
    var last := CopyOut(mem, y, wout, pos);
    wout.Advance(last, pos + |y| - last);
  }

  method CryptSlow(c: Cipher, iv: array<bv8>, mem: array<bv8>, win: Walk, wout: Walk, ghost pos: nat)
    requires Sized(c) && iv.Length == c.bsize && iv != mem && win != wout
    requires Standing(win, pos, c.bsize, mem.Length) && Standing(wout, pos, c.bsize, mem.Length)
    modifies iv, mem, win, wout
    ensures win.At(pos + c.bsize) && wout.At(pos + c.bsize) && Blocks(c, c.bsize, 1)
    ensures InMemory(old(mem[..]), Ahead(win, pos, c.bsize)) && InMemory(old(mem[..]), Ahead(wout, pos, c.bsize))
    ensures (mem[..], iv[..]) == Crypted(c, old(mem[..]), old(iv[..]), Ahead(win, pos, c.bsize), Ahead(wout, pos, c.bsize), 1)
  {
    var x := SlowIn(mem, win, c.bsize, pos);
    var y := BlockOf(c, iv, x);
    SlowOut(mem, wout, y, pos);
  }

  lemma MoreIsMore(j: nat, k: nat, b: Pos)
    requires j > k
    ensures j * b > k * b
  {
    assert j * b - k * b == (j - k) * b;
  }

  lemma FewerBlocks(c: Cipher, n: nat, j: nat, rest: nat, k: nat)
    requires Blocks(c, n, j) && Blocks(c, rest, k) && n <= rest
    ensures j <= k && Blocks(c, rest - n, k - j)
  {
    if j > k { MoreIsMore(j, k, c.bsize); }
    assert (k - j) * c.bsize == k * c.bsize - j * c.bsize;
  }

  lemma AtLeastOne(c: Cipher, rest: nat, k: nat)
    requires Blocks(c, rest, k) && rest > 0
    ensures k >= 1 && rest >= c.bsize
  {
    assert k >= 1;
    assert k * c.bsize == (k - 1) * c.bsize + c.bsize;
  }

  /** Two walks that have `rest` bytes, k blocks, to go. */
  ghost predicate Ready(win: Walk, wout: Walk, pos: nat, rest: nat, size: nat)
    reads win, wout
  {
    Standing(win, pos, rest, size) && Standing(wout, pos, rest, size)
  }

  lemma AheadParts(win: Walk, wout: Walk, pos: nat, rest: nat, n: nat)
    requires pos + rest <= |Addrs(win.list)| && pos + rest <= |Addrs(wout.list)| && n <= rest
    requires Separate(Ahead(win, pos, rest), Ahead(wout, pos, rest))
    ensures Ahead(win, pos, rest)[..n] == Ahead(win, pos, n) && Ahead(win, pos, rest)[n..] == Ahead(win, pos + n, rest - n)
    ensures Ahead(wout, pos, rest)[..n] == Ahead(wout, pos, n) && Ahead(wout, pos, rest)[n..] == Ahead(wout, pos + n, rest - n)
    ensures Separate(Ahead(win, pos, n), Ahead(wout, pos, n))
    ensures Separate(Ahead(win, pos + n, rest - n), Ahead(wout, pos + n, rest - n))
  {
    SeparateParts(Ahead(win, pos, rest), Ahead(wout, pos, rest), n);
  }

  /** The step of the loop that does the work: fast if a block lies on one page of both lists, slow otherwise. */
  method CryptStep(c: Cipher, iv: array<bv8>, mem: array<bv8>, win: Walk, wout: Walk, most: nat, tmp: array?<bv8>,
                   ghost pos: nat, rest: nat, ghost k: nat, ghost m: Bytes, ghost v: Bytes, ghost src: seq<nat>, ghost dst: seq<nat>)
    returns (n: nat, ghost j: nat)
    requires mem[..] == m && iv[..] == v && Blocks(c, rest, k)
    requires Sized(c) && iv.Length == c.bsize && iv != mem && win != wout && tmp != iv && tmp != mem
    requires (tmp != null ==> tmp.Length == PAGE) && 0 < rest && most <= rest && Ready(win, wout, pos, rest, mem.Length)
    requires src == Ahead(win, pos, rest) && dst == Ahead(wout, pos, rest) && Separate(src, dst)
    modifies iv, mem, tmp, win, wout
    ensures 0 < n <= rest && Blocks(c, n, j) && win.At(pos + n) && wout.At(pos + n)
    ensures InMemory(m, src[..n]) && InMemory(m, dst[..n])
    ensures (mem[..], iv[..]) == Crypted(c, m, v, src[..n], dst[..n], j)
  {
    AtLeastOne(c, rest, k);
    n := if most > win.lenPage then win.lenPage else most;
    n := if n > wout.lenPage then wout.lenPage else n;
    if n >= c.bsize {
      AheadParts(win, wout, pos, rest, n);
      FastCompatible(mem, win, wout, pos, n);
      n, j := CryptFast(c, iv, mem, win, wout, n, tmp, pos);
    } else {
      CryptSlow(c, iv, mem, win, wout, pos);
      n, j := c.bsize, 1;
    }
    AheadParts(win, wout, pos, rest, n);
  }

  datatype Status = Done | BadBlockLen

  lemma WholeBlocks(c: Cipher, n: nat)
    ensures n % c.bsize == 0 ==> Blocks(c, n, n / c.bsize)
  {
  }

  /** What is left to do, from the memory and the vector now, ends at the goal. */
  ghost predicate LeadsTo(c: Cipher, src: seq<nat>, dst: seq<nat>, k: nat, m: Bytes, iv: Bytes, goal: (Bytes, Bytes)) {
    && Sized(c) && |iv| == c.bsize && |src| == |dst| && Blocks(c, |src|, k)
    && InMemory(m, src) && InMemory(m, dst) && goal == Crypted(c, m, iv, src, dst, k)
  }

  lemma StillLeads(c: Cipher, src: seq<nat>, dst: seq<nat>, k: nat, m: Bytes, iv: Bytes, goal: (Bytes, Bytes),
                   n: nat, j: nat, m1: Bytes, iv1: Bytes)
    requires LeadsTo(c, src, dst, k, m, iv, goal) && Separate(src, dst) && Blocks(c, n, j) && n <= |src|
    requires InMemory(m, src[..n]) && InMemory(m, dst[..n]) && (m1, iv1) == Crypted(c, m, iv, src[..n], dst[..n], j)
    ensures j <= k && LeadsTo(c, src[n..], dst[n..], k - j, m1, iv1, goal)
  {
    FewerBlocks(c, n, j, |src|, k);
    CryptedSplit(c, m, iv, src, dst, n, j, k - j);
  }

  method CryptMove(c: Cipher, iv: array<bv8>, mem: array<bv8>, win: Walk, wout: Walk, most: nat, tmp: array?<bv8>,
                   ghost pos: nat, rest: nat, ghost k: nat, ghost goal: (Bytes, Bytes), ghost src: seq<nat>, ghost dst: seq<nat>)
    returns (n: nat, ghost k1: nat)
    requires Sized(c) && iv.Length == c.bsize && iv != mem && win != wout && tmp != iv && tmp != mem
    requires (tmp != null ==> tmp.Length == PAGE) && 0 < rest && most <= rest && Ready(win, wout, pos, rest, mem.Length)
    requires src == Ahead(win, pos, rest) && dst == Ahead(wout, pos, rest) && Separate(src, dst)
    requires LeadsTo(c, src, dst, k, mem[..], iv[..], goal)
    modifies iv, mem, tmp, win, wout
    ensures 0 < n <= rest && win.At(pos + n) && wout.At(pos + n)
    ensures LeadsTo(c, src[n..], dst[n..], k1, mem[..], iv[..], goal) && Separate(src[n..], dst[n..])
  {
    ghost var m, v := mem[..], iv[..];
    ghost var j: nat;
    n, j := CryptStep(c, iv, mem, win, wout, most, tmp, pos, rest, k, m, v, src, dst);
    StillLeads(c, src, dst, k, m, v, goal, n, j, mem[..], iv[..]);
    SeparateParts(src, dst, n);
    k1 := k - j;
  }

  lemma AheadRest(w: Walk, pos: nat, rest: nat, n: nat, a: seq<nat>, pos1: nat, rest1: nat)
    requires pos + rest <= |Addrs(w.list)| && a == Ahead(w, pos, rest) && n <= rest && pos1 == pos + n && rest1 == rest - n
    ensures a[n..] == Ahead(w, pos1, rest1)
  {
  }

  /** Both walks move to the next page if theirs is used up and there is more to do. */
  method BothDone(win: Walk, wout: Walk, rest: nat, ghost pos: nat, ghost size: nat)
    requires win != wout && win.At(pos) && wout.At(pos)
    requires pos + rest <= |Addrs(win.list)| && pos + rest <= |Addrs(wout.list)|
    requires Inside(Addrs(win.list), size) && Inside(Addrs(wout.list), size)
    modifies win, wout
    ensures rest > 0 ==> Ready(win, wout, pos, rest, size)
  {
    win.Done(rest > 0, pos);
    wout.Done(rest > 0, pos);
  }

  /** One turn of the loop of crypt(), the walks moved on to the next page if need be. */
  method CryptNext(c: Cipher, iv: array<bv8>, mem: array<bv8>, win: Walk, wout: Walk, most: nat, tmp: array?<bv8>,
                   ghost pos: nat, rest: nat, ghost k: nat, ghost goal: (Bytes, Bytes), ghost src: seq<nat>, ghost dst: seq<nat>)
    returns (rest1: nat, ghost pos1: nat, ghost k1: nat, ghost src1: seq<nat>, ghost dst1: seq<nat>)
    requires Sized(c) && iv.Length == c.bsize && iv != mem && win != wout && tmp != iv && tmp != mem
    requires (tmp != null ==> tmp.Length == PAGE) && 0 < rest && most <= rest && Ready(win, wout, pos, rest, mem.Length)
    requires src == Ahead(win, pos, rest) && dst == Ahead(wout, pos, rest) && Separate(src, dst)
    requires LeadsTo(c, src, dst, k, mem[..], iv[..], goal)
    modifies iv, mem, tmp, win, wout
    ensures rest1 < rest && (rest1 > 0 ==> Ready(win, wout, pos1, rest1, mem.Length))
    ensures pos1 + rest1 <= |Addrs(win.list)| && pos1 + rest1 <= |Addrs(wout.list)|
    ensures src1 == Ahead(win, pos1, rest1) && dst1 == Ahead(wout, pos1, rest1)
    ensures LeadsTo(c, src1, dst1, k1, mem[..], iv[..], goal) && Separate(src1, dst1)
  {
    var n: nat;
    n, k1 := CryptMove(c, iv, mem, win, wout, most, tmp, pos, rest, k, goal, src, dst);
    rest1, pos1, src1, dst1 := rest - n, pos + n, src[n..], dst[n..];
    AheadRest(win, pos, rest, n, src, pos1, rest1);
    AheadRest(wout, pos, rest, n, dst, pos1, rest1);
    BothDone(win, wout, rest1, pos1, mem.Length);
  }

  /**
    crypt(): for every way of cutting source and target into segments and pages, and whatever mix of
    fast, bounced and slow steps results, the target holds exactly the flat result and nothing else
    changes.  A length that is no multiple of the block size is refused and changes nothing.
   */
  method Crypt(c: Cipher, iv: array<bv8>, mem: array<bv8>, dst: seq<Sg>, src: seq<Sg>, nbytes: nat, align: Pos)
    returns (st: Status)
    requires Sized(c) && iv.Length == c.bsize && iv != mem && Good(src) && Good(dst)
    requires nbytes <= |Addrs(src)| && nbytes <= |Addrs(dst)|
    requires InMemory(mem[..], Addrs(src)) && InMemory(mem[..], Addrs(dst)) && Separate(Addrs(src)[..nbytes], Addrs(dst)[..nbytes])
    modifies iv, mem
    ensures st.Done? <==> nbytes % c.bsize == 0
    ensures st.BadBlockLen? ==> mem[..] == old(mem[..]) && iv[..] == old(iv[..])
    ensures st.Done? ==>
      && Blocks(c, nbytes, nbytes / c.bsize)
      && InMemory(old(mem[..]), Addrs(src)[..nbytes]) && InMemory(old(mem[..]), Addrs(dst)[..nbytes])
      && (mem[..], iv[..]) == Crypted(c, old(mem[..]), old(iv[..]), Addrs(src)[..nbytes], Addrs(dst)[..nbytes], nbytes / c.bsize)
  {
    WholeBlocks(c, nbytes);
    if nbytes == 0 { return Done; }
    if nbytes % c.bsize != 0 { return BadBlockLen; }
    var win := new Walk(src);
    var wout := new Walk(dst);
    ghost var all, into := Addrs(src)[..nbytes], Addrs(dst)[..nbytes];
    assert all == Ahead(win, 0, nbytes) && into == Ahead(wout, 0, nbytes);
    CryptLoop(c, iv, mem, win, wout, nbytes, align, all, into, mem[..], iv[..]);
    return Done;
  }

  lemma NothingLeft(c: Cipher, m: Bytes, iv: Bytes, k: nat)
    requires Sized(c) && |iv| == c.bsize && Blocks(c, 0, k)
    ensures Crypted(c, m, iv, [], [], k) == (m, iv)
  {
    assert Read(m, []) == [];
  }

  /** The bounce page for two buffers of which one is not aligned; it may not be had. */
  method PageFor(win: Walk, wout: Walk, align: Pos, page0: array?<bv8>) returns (page: array?<bv8>, tmp: array?<bv8>, slow: bool)
    requires page0 != null ==> page0.Length == PAGE
    ensures page == page0 || fresh(page)
    ensures (page != null ==> page.Length == PAGE) && (tmp == null || tmp == page)
  {
    page, tmp, slow := page0, null, false;
    if win.offset % align != 0 || wout.offset % align != 0 {
      if page == null {
        var got: bool := *;
        if got { page := new bv8[PAGE]; } else { slow := true; }
      }
      tmp := page;
    }
  }

  lemma Arrived(c: Cipher, k: nat, m: Bytes, iv: Bytes, goal: (Bytes, Bytes))
    requires LeadsTo(c, [], [], k, m, iv, goal)
    ensures goal == (m, iv)
  {
    NothingLeft(c, m, iv, k);
  }

  method CryptLoop(c: Cipher, iv: array<bv8>, mem: array<bv8>, win: Walk, wout: Walk, nbytes: nat, align: Pos,
                   ghost all: seq<nat>, ghost into: seq<nat>, ghost m: Bytes, ghost v: Bytes)
    requires mem[..] == m && iv[..] == v
    requires Sized(c) && iv.Length == c.bsize && iv != mem && win != wout && nbytes > 0
    requires Ready(win, wout, 0, nbytes, mem.Length) && Blocks(c, nbytes, nbytes / c.bsize)
    requires all == Ahead(win, 0, nbytes) && into == Ahead(wout, 0, nbytes) && Separate(all, into)
    modifies iv, mem, win, wout
    ensures InMemory(m, all) && InMemory(m, into) && (mem[..], iv[..]) == Crypted(c, m, v, all, into, nbytes / c.bsize)
  {
    ghost var pos: nat, k: nat := 0, nbytes / c.bsize;
    ghost var src, dst := all, into;
    ghost var goal := Crypted(c, m, v, src, dst, k);
    var rest := nbytes;
    var page: array?<bv8> := null;
    while rest > 0
      invariant page != null ==> fresh(page) && page.Length == PAGE
      invariant rest > 0 ==> Ready(win, wout, pos, rest, mem.Length)
      invariant pos + rest <= |Addrs(win.list)| && pos + rest <= |Addrs(wout.list)|
      invariant src == Ahead(win, pos, rest) && dst == Ahead(wout, pos, rest)
      invariant LeadsTo(c, src, dst, k, mem[..], iv[..], goal) && Separate(src, dst)
      decreases rest
    {
      var tmp, slow;
      page, tmp, slow := PageFor(win, wout, align, page);
      rest, pos, k, src, dst := CryptNext(c, iv, mem, win, wout, if slow then 0 else rest, tmp, pos, rest, k, goal, src, dst);
    }
    assert src == [] && dst == [];
    Arrived(c, k, mem[..], iv[..], goal);
  }

  // ---------------------------------------------------------------- what crypt() means for memory

  /** The target reads as the flat result, and every other byte is as before. */
  lemma CryptedReads(c: Cipher, m: Bytes, iv: Bytes, src: seq<nat>, dst: seq<nat>, k: nat, other: seq<nat>)
    requires Sized(c) && |iv| == c.bsize && InMemory(m, src) && InMemory(m, dst) && |src| == |dst| && Blocks(c, |src|, k)
    requires Injective(dst) && InMemory(m, other) && Apart(other, dst)
    ensures var m1 := Crypted(c, m, iv, src, dst, k).0;
            && |m1| == |m| && Read(m1, dst) == Flat(c, iv, Read(m, src)).0 && Read(m1, other) == Read(m, other)
  {
    FlatLength(c, iv, Read(m, src), k);
    WriteRead(m, dst, Flat(c, iv, Read(m, src)).0);
    WriteElsewhere(m, dst, Flat(c, iv, Read(m, src)).0, other);
  }

  /** Encrypting from one scatterlist to another and decrypting to a third gives the message back. */
  lemma EncryptDecrypt(e: Cipher, d: Cipher, m: Bytes, iv: Bytes, a: seq<nat>, b: seq<nat>, z: seq<nat>, k: nat)
    requires Sized(e) && Sized(d) && e.mode.CbcEncrypt? && d.mode.CbcDecrypt? && e.bsize == d.bsize
    requires Inverts(e.fn, d.fn, e.bsize) && |iv| == e.bsize
    requires InMemory(m, a) && InMemory(m, b) && InMemory(m, z) && |a| == |b| == |z| && Blocks(e, |a|, k)
    requires Injective(b) && Injective(z)
    ensures Blocks(d, |a|, k)
    ensures var m1 := Crypted(e, m, iv, a, b, k).0;
            && |m1| == |m|
            && var m2 := Crypted(d, m1, iv, b, z, k).0; |m2| == |m| && Read(m2, z) == Read(m, a)
  {
    var x := Read(m, a);
    CryptedReads(e, m, iv, a, b, k, []);
    var m1 := Crypted(e, m, iv, a, b, k).0;
    CryptedReads(d, m1, iv, b, z, k, []);
    CbcRoundTrip(e, d, iv, x, k);
  }
}
