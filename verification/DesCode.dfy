/** DES as the kernel runs it: key arrays filled in place, rounds in loops, one pass for triple DES. */
module DesCode {
  import opened Des
  import WordBits

  // ---------------------------------------------------------------- the key schedule

  /** The tables of the key schedule, the bit selection in front of pc1, and the final exchange of each pair of words. */
  datatype Schedule = Schedule(
    pick: (bool, bv32, bv32) -> bv32,
    pc1: bv32 -> bv32,
    pc2: (bool, bv32, bv32, bv32, bv32) -> bv32,
    rs: bv32 -> bv32,
    fix: (bv32, bv32) -> RoundKey)

  function Pick(second: bool, hi: bv32, lo: bv32): bv32 {
    if second then (((lo & 0xe0) >> 4) | (hi & 0xf0)) + 1 else ((hi & 0x0e) << 4) | (lo & 0x1e)
  }

  function Fix(a: bv32, b: bv32): RoundKey {
    var c := (a ^ b) & 0xffff0000;
    RoundKey(a ^ c, (b ^ c).RotateLeft(18))
  }

  /** The schedule of des.c, given its tables. */
  function KernelSchedule(pc1: bv32 -> bv32, pc2: (bool, bv32, bv32, bv32, bv32) -> bv32, rs: bv32 -> bv32): Schedule {
    Schedule((s, h, l) => Pick(s, h, l), pc1, pc2, rs, (a, b) => Fix(a, b))
  }

  datatype Regs = Regs(a: bv32, b: bv32, c: bv32, d: bv32)

  /** The registers as loaded from the key bytes. */
  function Load(s: Schedule, second: bool, k: seq<bv32>): Regs
    requires |k| == 8
  {
    Regs(s.pc1(s.pick(second, k[7], k[3])), s.pc1(s.pick(second, k[6], k[2])),
         s.pc1(s.pick(second, k[5], k[1])), s.pc1(s.pick(second, k[4], k[0])))
  }

  /** Four values of a schedule and the registers after them. */
  datatype Quad = Quad(w: seq<bv32>, r: Regs)

  function First(s: Schedule, h: bool, r0: Regs): (q: Quad)
    ensures |q.w| == 4
  {
    var r1 := r0.(d := s.rs(r0.d));
    var r2 := r1.(c := s.rs(r1.c), b := s.rs(r1.b));
    var r3 := r2.(a := s.rs(r2.a), d := s.rs(r2.d));
    var r4 := r3.(c := s.rs(r3.c), b := s.rs(r3.b));
    Quad([s.pc2(h, r0.a, r0.b, r0.c, r0.d), s.pc2(h, r1.d, r1.a, r1.b, r1.c),
          s.pc2(h, r2.b, r2.c, r2.d, r2.a), s.pc2(h, r3.d, r3.a, r3.b, r3.c)], r4)
  }

  function Second(s: Schedule, h: bool, r0: Regs): (q: Quad)
    ensures |q.w| == 4
  {
    var r1 := r0.(a := s.rs(r0.a), d := s.rs(r0.d));
    var r2 := r1.(c := s.rs(r1.c), b := s.rs(r1.b));
    var r3 := r2.(a := s.rs(r2.a), d := s.rs(r2.d));
    var r4 := r3.(c := s.rs(r3.c));
    Quad([s.pc2(h, r0.b, r0.c, r0.d, r0.a), s.pc2(h, r1.d, r1.a, r1.b, r1.c),
          s.pc2(h, r2.b, r2.c, r2.d, r2.a), s.pc2(h, r3.d, r3.a, r3.b, r3.c)], r4)
  }

  function Third(s: Schedule, h: bool, r0: Regs): (q: Quad)
    ensures |q.w| == 4
  {
    var r1 := r0.(b := s.rs(r0.b), a := s.rs(r0.a));
    var r2 := r1.(d := s.rs(r1.d), c := s.rs(r1.c));
    var r3 := r2.(b := s.rs(r2.b), a := s.rs(r2.a));
    var r4 := r3.(d := s.rs(r3.d), c := s.rs(r3.c));
    Quad([s.pc2(h, r0.c, r0.d, r0.a, r0.b), s.pc2(h, r1.a, r1.b, r1.c, r1.d),
          s.pc2(h, r2.c, r2.d, r2.a, r2.b), s.pc2(h, r3.a, r3.b, r3.c, r3.d)], r4)
  }

  function Fourth(s: Schedule, h: bool, r0: Regs): (q: Quad)
    ensures |q.w| == 4
  {
    var r1 := r0.(b := s.rs(r0.b), a := s.rs(r0.a));
    var r2 := r1.(d := s.rs(r1.d), c := s.rs(r1.c));
    var r3 := r2.(b := s.rs(r2.b));
    Quad([s.pc2(h, r0.c, r0.d, r0.a, r0.b), s.pc2(h, r1.a, r1.b, r1.c, r1.d),
          s.pc2(h, r2.c, r2.d, r2.a, r2.b), s.pc2(h, r3.b, r3.c, r3.d, r3.a)], r3)
  }

  /** The sixteen values of one half of a schedule: what the registers select as they are shifted on. */
  function Expand(s: Schedule, h: bool, r0: Regs): (v: seq<bv32>)
    ensures |v| == ROUNDS
  {
    var q1 := First(s, h, r0);
    var q2 := Second(s, h, q1.r);
    var q3 := Third(s, h, q2.r);
    q1.w + q2.w + q3.w + Fourth(s, h, q3.r).w
  }

  /** The round keys of a key, in the order in which encryption uses them: last computed, first used. */
  function EncryptionKeys(s: Schedule, k: seq<bv32>): (e: seq<RoundKey>)
    requires |k| == 8
    ensures |e| == ROUNDS
  {
    KeysOf(s, Expand(s, false, Load(s, false, k)), Expand(s, true, Load(s, true, k)))
  }

  function KeysOf(s: Schedule, v0: seq<bv32>, v1: seq<bv32>): (ks: seq<RoundKey>)
    requires |v0| == ROUNDS && |v1| == ROUNDS
    ensures |ks| == ROUNDS
  {
    seq(ROUNDS, i requires 0 <= i < ROUNDS => s.fix(v0[ROUNDS - 1 - i], v1[ROUNDS - 1 - i]))
  }

  /** The sixteen round keys in a key array from word `at` on. */
  function Keys(pe: seq<bv32>, at: nat): (ks: seq<RoundKey>)
    requires at + WORDS <= |pe|
    ensures |ks| == ROUNDS
  {
    seq(ROUNDS, i requires 0 <= i < ROUNDS => RoundKey(pe[at + 2 * i], pe[at + 2 * i + 1]))
  }

  method FixPair(s: Schedule, pe: array<bv32>, at: nat, ghost p: seq<bv32>)
    requires at + 2 <= pe.Length && pe[..] == p
    modifies pe
    ensures var k := s.fix(p[at], p[at + 1]); pe[..] == p[at := k.k0][at + 1 := k.k1]
  {
    var k := s.fix(pe[at], pe[at + 1]);
    pe[at] := k.k0;
    pe[at + 1] := k.k1;
  }

  /** The loop that ends both expansions. */
  method Fixup(s: Schedule, pe: array<bv32>, at: nat)
    requires at + WORDS <= pe.Length
    modifies pe
    ensures forall i | 0 <= i < ROUNDS ::
      Keys(pe[..], at)[i] == s.fix(old(pe[..])[at + 2 * i], old(pe[..])[at + 2 * i + 1])
    ensures pe[..at] == old(pe[..at]) && pe[at + WORDS..] == old(pe[at + WORDS..])
  {
    ghost var p0 := pe[..];
    var d := 0;
    while d < ROUNDS
      invariant 0 <= d <= ROUNDS
      invariant forall i | 0 <= i < d :: RoundKey(pe[at + 2 * i], pe[at + 2 * i + 1]) == s.fix(p0[at + 2 * i], p0[at + 2 * i + 1])
      invariant forall j | 0 <= j < pe.Length && !(at <= j < at + 2 * d) :: pe[j] == p0[j]
    {
      FixPair(s, pe, at + 2 * d, pe[..]);
      d := d + 1;
    }
  }

  function Half(h: bool): nat { if h then 1 else 0 }

  /** The values of v at i, i - 2, i - 4, ... */
  function Down(p: seq<bv32>, i: nat, v: seq<bv32>): (q: seq<bv32>)
    requires i < |p| && (v != [] ==> 2 * (|v| - 1) <= i)
    ensures |q| == |p|
    decreases |v|
  {
    if v == [] then p else Down(p, i, v[..|v| - 1])[i - 2 * (|v| - 1) := v[|v| - 1]]
  }

  lemma {:induction false} DownAt(p: seq<bv32>, i: nat, v: seq<bv32>, k: nat)
    requires i < |p| && 2 * (|v| - 1) <= i && k < |v|
    ensures Down(p, i, v)[i - 2 * k] == v[k]
    decreases |v|
  {
    if k < |v| - 1 { DownAt(p, i, v[..|v| - 1], k); }
  }

  lemma {:induction false} DownElse(p: seq<bv32>, i: nat, v: seq<bv32>, j: nat)
    requires i < |p| && (v != [] ==> 2 * (|v| - 1) <= i)
    requires j < |p| && (j > i || j <= i - 2 * |v| || (i + j) % 2 == 1)
    ensures Down(p, i, v)[j] == p[j]
    decreases |v|
  {
    if v != [] { DownElse(p, i, v[..|v| - 1], j); }
  }

  lemma {:induction false} DownConcat(p: seq<bv32>, i: nat, a: seq<bv32>, b: seq<bv32>)
    requires i < |p| && (a + b != [] ==> 2 * (|a| + |b| - 1) <= i) && 2 * |a| <= i
    ensures Down(p, i, a + b) == Down(Down(p, i, a), i - 2 * |a|, b)
    decreases |b|
  {
    if b == [] {
      assert a + b == a;
    } else {
      assert (a + b)[..|a| + |b| - 1] == a + b[..|b| - 1];
      DownConcat(p, i, a, b[..|b| - 1]);
    }
  }

  lemma DownFour(p: seq<bv32>, i: nat, w: seq<bv32>)
    requires 6 <= i < |p| && |w| == 4
    ensures Down(p, i, w) == p[i := w[0]][i - 2 := w[1]][i - 4 := w[2]][i - 6 := w[3]]
  {
    var w3, w2, w1 := w[..3], w[..2], w[..1];
    assert w3[..2] == w2 && w2[..1] == w1 && w1[..0] == [];
    assert Down(p, i, w1) == p[i := w[0]];
    assert Down(p, i, w2) == p[i := w[0]][i - 2 := w[1]];
    assert Down(p, i, w3) == p[i := w[0]][i - 2 := w[1]][i - 4 := w[2]];
  }

  lemma DownInFours(p: seq<bv32>, i: nat, a: seq<bv32>, b: seq<bv32>, c: seq<bv32>, d: seq<bv32>)
    requires |a| == 4 && |b| == 4 && |c| == 4 && |d| == 4 && 30 <= i < |p|
    ensures Down(p, i, a + b + c + d) == Down(Down(Down(Down(p, i, a), i - 8, b), i - 16, c), i - 24, d)
  {
    DownConcat(p, i, a, b);
    DownConcat(p, i, a + b, c);
    DownConcat(p, i, a + b + c, d);
  }

  /** The values of v at i, i + 2, i + 4, ... */
  function Up(p: seq<bv32>, i: nat, v: seq<bv32>): (q: seq<bv32>)
    requires v != [] ==> i + 2 * (|v| - 1) < |p|
    ensures |q| == |p|
    decreases |v|
  {
    if v == [] then p else Up(p, i, v[..|v| - 1])[i + 2 * (|v| - 1) := v[|v| - 1]]
  }

  lemma {:induction false} UpAt(p: seq<bv32>, i: nat, v: seq<bv32>, k: nat)
    requires i + 2 * (|v| - 1) < |p| && k < |v|
    ensures Up(p, i, v)[i + 2 * k] == v[k]
    decreases |v|
  {
    if k < |v| - 1 { UpAt(p, i, v[..|v| - 1], k); }
  }

  lemma {:induction false} UpElse(p: seq<bv32>, i: nat, v: seq<bv32>, j: nat)
    requires v != [] ==> i + 2 * (|v| - 1) < |p|
    requires j < |p| && (j < i || i + 2 * |v| <= j || (i + j) % 2 == 1)
    ensures Up(p, i, v)[j] == p[j]
    decreases |v|
  {
    if v != [] { UpElse(p, i, v[..|v| - 1], j); }
  }

  lemma {:induction false} UpConcat(p: seq<bv32>, i: nat, a: seq<bv32>, b: seq<bv32>)
    requires a + b != [] ==> i + 2 * (|a| + |b| - 1) < |p|
    ensures Up(p, i, a + b) == Up(Up(p, i, a), i + 2 * |a|, b)
    decreases |b|
  {
    if b == [] {
      assert a + b == a;
    } else {
      assert (a + b)[..|a| + |b| - 1] == a + b[..|b| - 1];
      UpConcat(p, i, a, b[..|b| - 1]);
    }
  }

  lemma UpFour(p: seq<bv32>, i: nat, w: seq<bv32>)
    requires i + 6 < |p| && |w| == 4
    ensures Up(p, i, w) == p[i := w[0]][i + 2 := w[1]][i + 4 := w[2]][i + 6 := w[3]]
  {
    var w3, w2, w1 := w[..3], w[..2], w[..1];
    assert w3[..2] == w2 && w2[..1] == w1 && w1[..0] == [];
    assert Up(p, i, w1) == p[i := w[0]];
    assert Up(p, i, w2) == p[i := w[0]][i + 2 := w[1]];
    assert Up(p, i, w3) == p[i := w[0]][i + 2 := w[1]][i + 4 := w[2]];
  }

  lemma UpInFours(p: seq<bv32>, i: nat, a: seq<bv32>, b: seq<bv32>, c: seq<bv32>, d: seq<bv32>)
    requires |a| == 4 && |b| == 4 && |c| == 4 && |d| == 4 && i + 30 < |p|
    ensures Up(p, i, a + b + c + d) == Up(Up(Up(Up(p, i, a), i + 8, b), i + 16, c), i + 24, d)
  {
    UpConcat(p, i, a, b);
    UpConcat(p, i, a + b, c);
    UpConcat(p, i, a + b + c, d);
  }

  lemma DownExpand(s: Schedule, h: bool, r: Regs, p: seq<bv32>, i: nat)
    requires 30 <= i < |p|
    ensures var q1 := First(s, h, r);
            var q2 := Second(s, h, q1.r);
            var q3 := Third(s, h, q2.r);
            Down(p, i, Expand(s, h, r)) == Down(Down(Down(Down(p, i, q1.w), i - 8, q2.w), i - 16, q3.w), i - 24, Fourth(s, h, q3.r).w)
  {
    var q1 := First(s, h, r);
    var q2 := Second(s, h, q1.r);
    var q3 := Third(s, h, q2.r);
    DownInFours(p, i, q1.w, q2.w, q3.w, Fourth(s, h, q3.r).w);
  }

  method EFirst(s: Schedule, h: bool, r: Regs, pe: array<bv32>, at: nat, ghost p: seq<bv32>, ghost i: nat) returns (r1: Regs)
    requires at + WORDS <= pe.Length && pe[..] == p && i == at + 15 * 2 + Half(h)
    modifies pe
    ensures var q := First(s, h, r);
            r1 == q.r && pe[..] == Down(p, i, q.w)
  {
    DownFour(p, i, First(s, h, r).w);
    var a, b, c, d := r.a, r.b, r.c, r.d;
    pe[at + 15 * 2 + Half(h)] := s.pc2(h, a, b, c, d); d := s.rs(d);
    pe[at + 14 * 2 + Half(h)] := s.pc2(h, d, a, b, c); c := s.rs(c); b := s.rs(b);
    pe[at + 13 * 2 + Half(h)] := s.pc2(h, b, c, d, a); a := s.rs(a); d := s.rs(d);
    pe[at + 12 * 2 + Half(h)] := s.pc2(h, d, a, b, c); c := s.rs(c); b := s.rs(b);
    r1 := Regs(a, b, c, d);
  }

  method ESecond(s: Schedule, h: bool, r: Regs, pe: array<bv32>, at: nat, ghost p: seq<bv32>, ghost i: nat) returns (r1: Regs)
    requires at + WORDS <= pe.Length && pe[..] == p && i == at + 11 * 2 + Half(h)
    modifies pe
    ensures var q := Second(s, h, r);
            r1 == q.r && pe[..] == Down(p, i, q.w)
  {
    DownFour(p, i, Second(s, h, r).w);
    var a, b, c, d := r.a, r.b, r.c, r.d;
    pe[at + 11 * 2 + Half(h)] := s.pc2(h, b, c, d, a); a := s.rs(a); d := s.rs(d);
    pe[at + 10 * 2 + Half(h)] := s.pc2(h, d, a, b, c); c := s.rs(c); b := s.rs(b);
    pe[at + 9 * 2 + Half(h)] := s.pc2(h, b, c, d, a); a := s.rs(a); d := s.rs(d);
    pe[at + 8 * 2 + Half(h)] := s.pc2(h, d, a, b, c); c := s.rs(c);
    r1 := Regs(a, b, c, d);
  }

  method EThird(s: Schedule, h: bool, r: Regs, pe: array<bv32>, at: nat, ghost p: seq<bv32>, ghost i: nat) returns (r1: Regs)
    requires at + WORDS <= pe.Length && pe[..] == p && i == at + 7 * 2 + Half(h)
    modifies pe
    ensures var q := Third(s, h, r);
            r1 == q.r && pe[..] == Down(p, i, q.w)
  {
    DownFour(p, i, Third(s, h, r).w);
    var a, b, c, d := r.a, r.b, r.c, r.d;
    pe[at + 7 * 2 + Half(h)] := s.pc2(h, c, d, a, b); b := s.rs(b); a := s.rs(a);
    pe[at + 6 * 2 + Half(h)] := s.pc2(h, a, b, c, d); d := s.rs(d); c := s.rs(c);
    pe[at + 5 * 2 + Half(h)] := s.pc2(h, c, d, a, b); b := s.rs(b); a := s.rs(a);
    pe[at + 4 * 2 + Half(h)] := s.pc2(h, a, b, c, d); d := s.rs(d); c := s.rs(c);
    r1 := Regs(a, b, c, d);
  }

  method EFourth(s: Schedule, h: bool, r: Regs, pe: array<bv32>, at: nat, ghost p: seq<bv32>, ghost i: nat) returns (r1: Regs)
    requires at + WORDS <= pe.Length && pe[..] == p && i == at + 3 * 2 + Half(h)
    modifies pe
    ensures var q := Fourth(s, h, r);
            r1 == q.r && pe[..] == Down(p, i, q.w)
  {
    DownFour(p, i, Fourth(s, h, r).w);
    var a, b, c, d := r.a, r.b, r.c, r.d;
    pe[at + 3 * 2 + Half(h)] := s.pc2(h, c, d, a, b); b := s.rs(b); a := s.rs(a);
    pe[at + 2 * 2 + Half(h)] := s.pc2(h, a, b, c, d); d := s.rs(d); c := s.rs(c);
    pe[at + 1 * 2 + Half(h)] := s.pc2(h, c, d, a, b); b := s.rs(b);
    pe[at + 0 * 2 + Half(h)] := s.pc2(h, b, c, d, a);
    r1 := Regs(a, b, c, d);
  }

  method EQuads(s: Schedule, h: bool, r0: Regs, pe: array<bv32>, at: nat, ghost p: seq<bv32>, ghost i: nat)
    requires at + WORDS <= pe.Length && pe[..] == p && i == at + 15 * 2 + Half(h)
    modifies pe
    ensures var q1 := First(s, h, r0);
            var q2 := Second(s, h, q1.r);
            var q3 := Third(s, h, q2.r);
            pe[..] == Down(Down(Down(Down(p, i, q1.w), i - 8, q2.w), i - 16, q3.w), i - 24, Fourth(s, h, q3.r).w)
  {
    ghost var q1 := First(s, h, r0);
    ghost var q2 := Second(s, h, q1.r);
    ghost var p1 := Down(p, i, q1.w);
    ghost var p2 := Down(p1, i - 8, q2.w);
    var r := EFirst(s, h, r0, pe, at, p, i);
    r := ESecond(s, h, r, pe, at, p1, i - 8);
    r := EThird(s, h, r, pe, at, p2, i - 16);
    r := EFourth(s, h, r, pe, at, Down(p2, i - 16, Third(s, h, q2.r).w), i - 24);
  }

  /** One half of ekey: the first value goes to the last pair. */
  method EHalf(s: Schedule, h: bool, k: seq<bv32>, pe: array<bv32>, at: nat, ghost p: seq<bv32>)
    requires |k| == 8 && at + WORDS <= pe.Length && pe[..] == p
    modifies pe
    ensures pe[..] == Down(p, at + 15 * 2 + Half(h), Expand(s, h, Load(s, h, k)))
  {
    var d := s.pc1(s.pick(h, k[4], k[0]));
    var c := s.pc1(s.pick(h, k[5], k[1]));
    var b := s.pc1(s.pick(h, k[6], k[2]));
    var a := s.pc1(s.pick(h, k[7], k[3]));
    ghost var i, r0 := at + 15 * 2 + Half(h), Load(s, h, k);
    DownExpand(s, h, r0, p, i);
    var r := Regs(a, b, c, d);
    EQuads(s, h, r, pe, at, p, i);
  }

  lemma UpExpand(s: Schedule, h: bool, r: Regs, p: seq<bv32>, i: nat)
    requires i + 30 < |p|
    ensures var q1 := First(s, h, r);
            var q2 := Second(s, h, q1.r);
            var q3 := Third(s, h, q2.r);
            Up(p, i, Expand(s, h, r)) == Up(Up(Up(Up(p, i, q1.w), i + 8, q2.w), i + 16, q3.w), i + 24, Fourth(s, h, q3.r).w)
  {
    var q1 := First(s, h, r);
    var q2 := Second(s, h, q1.r);
    var q3 := Third(s, h, q2.r);
    UpInFours(p, i, q1.w, q2.w, q3.w, Fourth(s, h, q3.r).w);
  }

  method DFirst(s: Schedule, h: bool, r: Regs, pe: array<bv32>, at: nat, ghost p: seq<bv32>, ghost i: nat) returns (r1: Regs)
    requires at + WORDS <= pe.Length && pe[..] == p && i == at + 0 * 2 + Half(h)
    modifies pe
    ensures var q := First(s, h, r);
            r1 == q.r && pe[..] == Up(p, i, q.w)
  {
    UpFour(p, i, First(s, h, r).w);
    var a, b, c, d := r.a, r.b, r.c, r.d;
    pe[at + 0 * 2 + Half(h)] := s.pc2(h, a, b, c, d); d := s.rs(d);
    pe[at + 1 * 2 + Half(h)] := s.pc2(h, d, a, b, c); c := s.rs(c); b := s.rs(b);
    pe[at + 2 * 2 + Half(h)] := s.pc2(h, b, c, d, a); a := s.rs(a); d := s.rs(d);
    pe[at + 3 * 2 + Half(h)] := s.pc2(h, d, a, b, c); c := s.rs(c); b := s.rs(b);
    r1 := Regs(a, b, c, d);
  }

  method DSecond(s: Schedule, h: bool, r: Regs, pe: array<bv32>, at: nat, ghost p: seq<bv32>, ghost i: nat) returns (r1: Regs)
    requires at + WORDS <= pe.Length && pe[..] == p && i == at + 4 * 2 + Half(h)
    modifies pe
    ensures var q := Second(s, h, r);
            r1 == q.r && pe[..] == Up(p, i, q.w)
  {
    UpFour(p, i, Second(s, h, r).w);
    var a, b, c, d := r.a, r.b, r.c, r.d;
    pe[at + 4 * 2 + Half(h)] := s.pc2(h, b, c, d, a); a := s.rs(a); d := s.rs(d);
    pe[at + 5 * 2 + Half(h)] := s.pc2(h, d, a, b, c); c := s.rs(c); b := s.rs(b);
    pe[at + 6 * 2 + Half(h)] := s.pc2(h, b, c, d, a); a := s.rs(a); d := s.rs(d);
    pe[at + 7 * 2 + Half(h)] := s.pc2(h, d, a, b, c); c := s.rs(c);
    r1 := Regs(a, b, c, d);
  }

  method DThird(s: Schedule, h: bool, r: Regs, pe: array<bv32>, at: nat, ghost p: seq<bv32>, ghost i: nat) returns (r1: Regs)
    requires at + WORDS <= pe.Length && pe[..] == p && i == at + 8 * 2 + Half(h)
    modifies pe
    ensures var q := Third(s, h, r);
            r1 == q.r && pe[..] == Up(p, i, q.w)
  {
    UpFour(p, i, Third(s, h, r).w);
    var a, b, c, d := r.a, r.b, r.c, r.d;
    pe[at + 8 * 2 + Half(h)] := s.pc2(h, c, d, a, b); b := s.rs(b); a := s.rs(a);
    pe[at + 9 * 2 + Half(h)] := s.pc2(h, a, b, c, d); d := s.rs(d); c := s.rs(c);
    pe[at + 10 * 2 + Half(h)] := s.pc2(h, c, d, a, b); b := s.rs(b); a := s.rs(a);
    pe[at + 11 * 2 + Half(h)] := s.pc2(h, a, b, c, d); d := s.rs(d); c := s.rs(c);
    r1 := Regs(a, b, c, d);
  }

  method DFourth(s: Schedule, h: bool, r: Regs, pe: array<bv32>, at: nat, ghost p: seq<bv32>, ghost i: nat) returns (r1: Regs)
    requires at + WORDS <= pe.Length && pe[..] == p && i == at + 12 * 2 + Half(h)
    modifies pe
    ensures var q := Fourth(s, h, r);
            r1 == q.r && pe[..] == Up(p, i, q.w)
  {
    UpFour(p, i, Fourth(s, h, r).w);
    var a, b, c, d := r.a, r.b, r.c, r.d;
    pe[at + 12 * 2 + Half(h)] := s.pc2(h, c, d, a, b); b := s.rs(b); a := s.rs(a);
    pe[at + 13 * 2 + Half(h)] := s.pc2(h, a, b, c, d); d := s.rs(d); c := s.rs(c);
    pe[at + 14 * 2 + Half(h)] := s.pc2(h, c, d, a, b); b := s.rs(b);
    pe[at + 15 * 2 + Half(h)] := s.pc2(h, b, c, d, a);
    r1 := Regs(a, b, c, d);
  }

  method DQuads(s: Schedule, h: bool, r0: Regs, pe: array<bv32>, at: nat, ghost p: seq<bv32>, ghost i: nat)
    requires at + WORDS <= pe.Length && pe[..] == p && i == at + 0 * 2 + Half(h)
    modifies pe
    ensures var q1 := First(s, h, r0);
            var q2 := Second(s, h, q1.r);
            var q3 := Third(s, h, q2.r);
            pe[..] == Up(Up(Up(Up(p, i, q1.w), i + 8, q2.w), i + 16, q3.w), i + 24, Fourth(s, h, q3.r).w)
  {
    ghost var q1 := First(s, h, r0);
    ghost var q2 := Second(s, h, q1.r);
    ghost var p1 := Up(p, i, q1.w);
    ghost var p2 := Up(p1, i + 8, q2.w);
    var r := DFirst(s, h, r0, pe, at, p, i);
    r := DSecond(s, h, r, pe, at, p1, i + 8);
    r := DThird(s, h, r, pe, at, p2, i + 16);
    r := DFourth(s, h, r, pe, at, Up(p2, i + 16, Third(s, h, q2.r).w), i + 24);
  }

  /** One half of dkey: the first value goes to the first pair. */
  method DHalf(s: Schedule, h: bool, k: seq<bv32>, pe: array<bv32>, at: nat, ghost p: seq<bv32>)
    requires |k| == 8 && at + WORDS <= pe.Length && pe[..] == p
    modifies pe
    ensures pe[..] == Up(p, at + 0 * 2 + Half(h), Expand(s, h, Load(s, h, k)))
  {
    var d := s.pc1(s.pick(h, k[4], k[0]));
    var c := s.pc1(s.pick(h, k[5], k[1]));
    var b := s.pc1(s.pick(h, k[6], k[2]));
    var a := s.pc1(s.pick(h, k[7], k[3]));
    ghost var i, r0 := at + 0 * 2 + Half(h), Load(s, h, k);
    UpExpand(s, h, r0, p, i);
    var r := Regs(a, b, c, d);
    DQuads(s, h, r, pe, at, p, i);
  }

  /** What ekey leaves: the value computed last comes first. */
  lemma WrittenDown(s: Schedule, p: seq<bv32>, at: nat, v0: seq<bv32>, v1: seq<bv32>, ks: seq<RoundKey>)
    requires |v0| == ROUNDS && |v1| == ROUNDS && at + WORDS <= |p| && |ks| == ROUNDS
    requires var q := Down(Down(p, at + 30, v0), at + 31, v1);
             forall i | 0 <= i < ROUNDS :: ks[i] == s.fix(q[at + 2 * i], q[at + 2 * i + 1])
    ensures ks == KeysOf(s, v0, v1)
  {
    var p1 := Down(p, at + 30, v0);
    forall i | 0 <= i < ROUNDS ensures ks[i] == KeysOf(s, v0, v1)[i] {
      DownAt(p, at + 30, v0, ROUNDS - 1 - i);
      DownElse(p1, at + 31, v1, at + 2 * i);
      DownAt(p1, at + 31, v1, ROUNDS - 1 - i);
    }
  }

  /** What dkey leaves: the value computed first comes first, so the schedule is the other way round. */
  lemma WrittenUp(s: Schedule, p: seq<bv32>, at: nat, v0: seq<bv32>, v1: seq<bv32>, ks: seq<RoundKey>)
    requires |v0| == ROUNDS && |v1| == ROUNDS && at + WORDS <= |p| && |ks| == ROUNDS
    requires var q := Up(Up(p, at, v0), at + 1, v1);
             forall i | 0 <= i < ROUNDS :: ks[i] == s.fix(q[at + 2 * i], q[at + 2 * i + 1])
    ensures ks == Reversed(KeysOf(s, v0, v1))
  {
    var p1, e := Up(p, at, v0), KeysOf(s, v0, v1);
    forall i | 0 <= i < ROUNDS ensures ks[i] == e[ROUNDS - 1 - i] {
      UpAt(p, at, v0, i);
      UpElse(p1, at + 1, v1, at + 2 * i);
      UpAt(p1, at + 1, v1, i);
    }
  }

  lemma DownFrame(p: seq<bv32>, at: nat, i: nat, v: seq<bv32>)
    requires |v| == ROUNDS && at + 30 <= i < at + WORDS <= |p|
    ensures Down(p, i, v)[..at] == p[..at] && Down(p, i, v)[at + WORDS..] == p[at + WORDS..]
  {
    forall j | 0 <= j < |p| && !(at <= j < at + WORDS) ensures Down(p, i, v)[j] == p[j] { DownElse(p, i, v, j); }
  }

  lemma UpFrame(p: seq<bv32>, at: nat, i: nat, v: seq<bv32>)
    requires |v| == ROUNDS && at <= i < at + 2 && at + WORDS <= |p|
    ensures Up(p, i, v)[..at] == p[..at] && Up(p, i, v)[at + WORDS..] == p[at + WORDS..]
  {
    forall j | 0 <= j < |p| && !(at <= j < at + WORDS) ensures Up(p, i, v)[j] == p[j] { UpElse(p, i, v, j); }
  }

  lemma DownFrames(p: seq<bv32>, at: nat, v0: seq<bv32>, v1: seq<bv32>)
    requires |v0| == ROUNDS && |v1| == ROUNDS && at + WORDS <= |p|
    ensures var q := Down(Down(p, at + 30, v0), at + 31, v1); q[..at] == p[..at] && q[at + WORDS..] == p[at + WORDS..]
  {
    DownFrame(p, at, at + 30, v0);
    DownFrame(Down(p, at + 30, v0), at, at + 31, v1);
  }

  lemma UpFrames(p: seq<bv32>, at: nat, v0: seq<bv32>, v1: seq<bv32>)
    requires |v0| == ROUNDS && |v1| == ROUNDS && at + WORDS <= |p|
    ensures var q := Up(Up(p, at, v0), at + 1, v1); q[..at] == p[..at] && q[at + WORDS..] == p[at + WORDS..]
  {
    UpFrame(p, at, at, v0);
    UpFrame(Up(p, at, v0), at, at + 1, v1);
  }

  /** ekey. */
  method EKey(s: Schedule, k: seq<bv32>, pe: array<bv32>, at: nat)
    requires |k| == 8 && at + WORDS <= pe.Length
    modifies pe
    ensures Keys(pe[..], at) == EncryptionKeys(s, k)
    ensures pe[..at] == old(pe[..at]) && pe[at + WORDS..] == old(pe[at + WORDS..])
  {
    ghost var p, v0, v1 := pe[..], Expand(s, false, Load(s, false, k)), Expand(s, true, Load(s, true, k));
    DownFrames(p, at, v0, v1);
    EHalf(s, false, k, pe, at, p);
    EHalf(s, true, k, pe, at, pe[..]);
    Fixup(s, pe, at);
    WrittenDown(s, p, at, v0, v1, Keys(pe[..], at));
  }

  /** dkey: its own thirty-two assignments leave the schedule of ekey in the opposite order. */
  method DKey(s: Schedule, k: seq<bv32>, pe: array<bv32>, at: nat)
    requires |k| == 8 && at + WORDS <= pe.Length
    modifies pe
    ensures Keys(pe[..], at) == Reversed(EncryptionKeys(s, k))
    ensures pe[..at] == old(pe[..at]) && pe[at + WORDS..] == old(pe[at + WORDS..])
  {
    ghost var p, v0, v1 := pe[..], Expand(s, false, Load(s, false, k)), Expand(s, true, Load(s, true, k));
    UpFrames(p, at, v0, v1);
    DHalf(s, false, k, pe, at, p);
    DHalf(s, true, k, pe, at, pe[..]);
    Fixup(s, pe, at);
    WrittenUp(s, p, at, v0, v1, Keys(pe[..], at));
  }

  // ---------------------------------------------------------------- encryption and decryption

  /** Eight times ROUND(L, R), ROUND(R, L) over the keys that the pointer meets. */
  method EightTimes(m: Machine, ks: seq<RoundKey>, l0: bv32, r0: bv32) returns (l: bv32, r: bv32)
    requires |ks| == ROUNDS
    ensures Pair(l, r) == Pass(m, ks, Pair(l0, r0))
  {
    l, r := l0, r0;
    var i := 0;
    assert ks[0..] == ks;
    while i < 8
      invariant 0 <= i <= 8
      invariant Pass(m, ks[2 * i..], Pair(l, r)) == Pass(m, ks, Pair(l0, r0))
    {
      assert ks[2 * i..][1..] == ks[2 * i + 1..] && ks[2 * i + 1..][1..] == ks[2 * i + 2..];
      l := m.xor(l, m.f(r, ks[2 * i]));
      r := m.xor(r, m.f(l, ks[2 * i + 1]));
      i := i + 1;
    }
  }

  method DesEncrypt(m: Machine, expkey: array<bv32>, x: Pair) returns (y: Pair)
    requires expkey.Length == WORDS
    ensures y == Encrypt(m, Keys(expkey[..], 0), x)
  {
    var p := IP(m, x);
    var l, r := EightTimes(m, Keys(expkey[..], 0), p.l, p.r);
    y := FP(m, Pair(r, l));
  }

  method DesDecrypt(m: Machine, expkey: array<bv32>, x: Pair) returns (y: Pair)
    requires expkey.Length == WORDS
    ensures y == Decrypt(m, Keys(expkey[..], 0), x)
  {
    var p := IP(m, x);
    var l, r := EightTimes(m, Reversed(Keys(expkey[..], 0)), p.l, p.r);
    y := FP(m, Pair(r, l));
  }

  /** The three schedules of triple DES: k1, k2 turned round, k3. */
  method SetKeys(s: Schedule, k1: seq<bv32>, k2: seq<bv32>, k3: seq<bv32>, expkey: array<bv32>)
    requires |k1| == 8 && |k2| == 8 && |k3| == 8 && expkey.Length == 3 * WORDS
    modifies expkey
    ensures Keys(expkey[..], 0) == EncryptionKeys(s, k1)
    ensures Keys(expkey[..], WORDS) == Reversed(EncryptionKeys(s, k2))
    ensures Keys(expkey[..], 2 * WORDS) == EncryptionKeys(s, k3)
  {
    EKey(s, k1, expkey, 0);
    ghost var p0 := expkey[..];
    DKey(s, k2, expkey, WORDS);
    ghost var p1 := expkey[..];
    KeysFrom(p0, p1, 0, WORDS);
    EKey(s, k3, expkey, 2 * WORDS);
    ghost var p2 := expkey[..];
    KeysFrom(p1, p2, 0, 2 * WORDS);
    KeysFrom(p1, p2, WORDS, 2 * WORDS);
  }

  function Wide(b: bv8): bv32 { b as bv32 }

  /** Eight bytes of the key, each widened to a word as the table lookups use them. */
  function Octets(key: seq<bv8>, at: nat): (k: seq<bv32>)
    requires at + 8 <= |key|
    ensures |k| == 8
  {
    [Wide(key[at]), Wide(key[at + 1]), Wide(key[at + 2]), Wide(key[at + 3]),
     Wide(key[at + 4]), Wide(key[at + 5]), Wide(key[at + 6]), Wide(key[at + 7])]
  }

  /** des3_ede_setkey: refuses exactly the keys of which two neighbours are equal, and then leaves the context alone. */
  method Des3SetKey(s: Schedule, key: seq<bv8>, expkey: array<bv32>) returns (ok: bool)
    requires |key| == 24 && expkey.Length == 3 * WORDS
    modifies expkey
    ensures ok <==> key[..8] != key[8..16] && key[8..16] != key[16..]
    ensures !ok ==> expkey[..] == old(expkey[..])
    ensures ok ==>
      && Keys(expkey[..], 0) == EncryptionKeys(s, Octets(key, 0))
      && Keys(expkey[..], WORDS) == Reversed(EncryptionKeys(s, Octets(key, 8)))
      && Keys(expkey[..], 2 * WORDS) == EncryptionKeys(s, Octets(key, 16))
  {
    var k1, k2, k3 := key[..8], key[8..16], key[16..];
    WordBits.ClashIsSameKey(k1, k2);
    WordBits.ClashIsSameKey(k2, k3);
    ok := !(WordBits.Clash(WordBits.WordAt(k1, 0), WordBits.WordAt(k1, 1), WordBits.WordAt(k2, 0), WordBits.WordAt(k2, 1))
            || WordBits.Clash(WordBits.WordAt(k2, 0), WordBits.WordAt(k2, 1), WordBits.WordAt(k3, 0), WordBits.WordAt(k3, 1)));
    if ok {
      SetKeys(s, Octets(key, 0), Octets(key, 8), Octets(key, 16), expkey);
    }
  }

  lemma KeysFrom(p: seq<bv32>, q: seq<bv32>, at: nat, end: nat)
    requires at + WORDS <= end <= |p| && end <= |q| && p[..end] == q[..end]
    ensures Keys(p, at) == Keys(q, at)
  {
    forall i | 0 <= i < ROUNDS ensures Keys(p, at)[i] == Keys(q, at)[i] {
      assert p[..end][at + 2 * i] == q[..end][at + 2 * i];
      assert p[..end][at + 2 * i + 1] == q[..end][at + 2 * i + 1];
    }
  }

  method Des3Encrypt(m: Machine, expkey: array<bv32>, x: Pair) returns (y: Pair)
    requires expkey.Length == 3 * WORDS
    ensures y == Encrypt3(m, Keys(expkey[..], 0), Keys(expkey[..], WORDS), Keys(expkey[..], 2 * WORDS), x)
  {
    var p := IP(m, x);
    var l, r := EightTimes(m, Keys(expkey[..], 0), p.l, p.r);
    r, l := EightTimes(m, Keys(expkey[..], WORDS), r, l);
    l, r := EightTimes(m, Keys(expkey[..], 2 * WORDS), l, r);
    y := FP(m, Pair(r, l));
  }

  method Des3Decrypt(m: Machine, expkey: array<bv32>, x: Pair) returns (y: Pair)
    requires expkey.Length == 3 * WORDS
    ensures y == Decrypt3(m, Keys(expkey[..], 0), Keys(expkey[..], WORDS), Keys(expkey[..], 2 * WORDS), x)
  {
    var p := IP(m, x);
    var l, r := EightTimes(m, Reversed(Keys(expkey[..], 2 * WORDS)), p.l, p.r);
    r, l := EightTimes(m, Reversed(Keys(expkey[..], WORDS)), r, l);
    l, r := EightTimes(m, Reversed(Keys(expkey[..], 0)), l, r);
    y := FP(m, Pair(r, l));
  }

  /** With the schedules des3_ede_setkey makes, one pass is E(k3) after D(k2) after E(k1). */
  lemma TripleDes(m: Machine, s: Schedule, k1: seq<bv32>, k2: seq<bv32>, k3: seq<bv32>, x: Pair)
    requires Lawful(m) && |k1| == 8 && |k2| == 8 && |k3| == 8
    ensures var e1, e2, e3 := EncryptionKeys(s, k1), EncryptionKeys(s, k2), EncryptionKeys(s, k3);
            && Encrypt3(m, e1, Reversed(e2), e3, x) == Encrypt(m, e3, Decrypt(m, e2, Encrypt(m, e1, x)))
            && Decrypt3(m, e1, Reversed(e2), e3, Encrypt3(m, e1, Reversed(e2), e3, x)) == x
  {
    var e1, e2, e3 := EncryptionKeys(s, k1), EncryptionKeys(s, k2), EncryptionKeys(s, k3);
    FusedEncryption(m, e1, e2, e3, x);
    Decrypt3UndoesEncrypt3(m, e1, Reversed(e2), e3, x);
  }

  /** The same for the word operations and the key schedule of des.c, whatever its tables hold. */
  lemma KernelTripleDes(sbox: (nat, bv32) -> bv32, pc1: bv32 -> bv32, pc2: (bool, bv32, bv32, bv32, bv32) -> bv32,
                        rs: bv32 -> bv32, key: seq<bv8>, x: Pair)
    requires |key| == 24
    ensures var m, s := Kernel(sbox), KernelSchedule(pc1, pc2, rs);
            var e1, e2, e3 := EncryptionKeys(s, Octets(key, 0)), EncryptionKeys(s, Octets(key, 8)), EncryptionKeys(s, Octets(key, 16));
            && Encrypt3(m, e1, Reversed(e2), e3, x) == Encrypt(m, e3, Decrypt(m, e2, Encrypt(m, e1, x)))
            && Decrypt3(m, e1, Reversed(e2), e3, Encrypt3(m, e1, Reversed(e2), e3, x)) == x
  {
    KernelIsLawful(sbox);
    TripleDes(Kernel(sbox), KernelSchedule(pc1, pc2, rs), Octets(key, 0), Octets(key, 8), Octets(key, 16), x);
  }
}
