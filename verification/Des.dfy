/**
  DES and triple DES on pairs of 32-bit words.  The S-boxes and the tables of the key schedule are
  parameters: nothing below depends on their entries.
 */
module Des {
  import WordBits

  datatype Pair = Pair(l: bv32, r: bv32) {
    function Flip(): Pair { Pair(r, l) }
  }

  /** One round's two key words. */
  datatype RoundKey = RoundKey(k0: bv32, k1: bv32)

  const ROUNDS: nat := 16
  const WORDS: nat := 32           // DES_EXPKEY_WORDS

  // ---------------------------------------------------------------- word operations

  datatype Amount = One | Four | Six | Seven | Twelve | Fourteen

  function Rol(x: bv32, n: Amount): bv32 {
    match n
    case One => x.RotateLeft(1)
    case Four => x.RotateLeft(4)
    case Six => x.RotateLeft(6)
    case Seven => x.RotateLeft(7)
    case Twelve => x.RotateLeft(12)
    case Fourteen => x.RotateLeft(14)
  }

  function Ror(x: bv32, n: Amount): bv32 {
    match n
    case One => x.RotateRight(1)
    case Four => x.RotateRight(4)
    case Six => x.RotateRight(6)
    case Seven => x.RotateRight(7)
    case Twelve => x.RotateRight(12)
    case Fourteen => x.RotateRight(14)
  }

  lemma TurnOneBack(x: bv32)
    ensures Ror(Rol(x, One), One) == x && Rol(Ror(x, One), One) == x
  {
    WordBits.Turn1(x);
  }

  lemma TurnFourBack(x: bv32)
    ensures Ror(Rol(x, Four), Four) == x && Rol(Ror(x, Four), Four) == x
  {
    WordBits.Turn4(x);
  }

  lemma TurnSixBack(x: bv32)
    ensures Ror(Rol(x, Six), Six) == x && Rol(Ror(x, Six), Six) == x
  {
    WordBits.Turn6(x);
  }

  lemma TurnSevenBack(x: bv32)
    ensures Ror(Rol(x, Seven), Seven) == x && Rol(Ror(x, Seven), Seven) == x
  {
    WordBits.Turn7(x);
  }

  lemma TurnTwelveBack(x: bv32)
    ensures Ror(Rol(x, Twelve), Twelve) == x && Rol(Ror(x, Twelve), Twelve) == x
  {
    WordBits.Turn12(x);
  }

  lemma TurnFourteenBack(x: bv32)
    ensures Ror(Rol(x, Fourteen), Fourteen) == x && Rol(Ror(x, Fourteen), Fourteen) == x
  {
    WordBits.Turn14(x);
  }

  lemma TurnBack(x: bv32, n: Amount)
    ensures Ror(Rol(x, n), n) == x && Rol(Ror(x, n), n) == x
  {
    match n
    case One => TurnOneBack(x);
    case Four => TurnFourBack(x);
    case Six => TurnSixBack(x);
    case Seven => TurnSevenBack(x);
    case Twelve => TurnTwelveBack(x);
    case Fourteen => TurnFourteenBack(x);
  }

  /** The word operations and the round function a DES is built from. */
  datatype Machine = Machine(
    left: (bv32, bv32, bv32) -> bv32,
    right: (bv32, bv32, bv32) -> bv32,
    rol: (bv32, Amount) -> bv32,
    ror: (bv32, Amount) -> bv32,
    xor: (bv32, bv32) -> bv32,
    f: (bv32, RoundKey) -> bv32)

  ghost predicate Lawful(m: Machine) {
    && (forall l, r, k :: m.left(m.left(l, r, k), m.right(l, r, k), k) == l)
    && (forall l, r, k :: m.right(m.left(l, r, k), m.right(l, r, k), k) == r)
    && (forall x, n :: m.ror(m.rol(x, n), n) == x && m.rol(m.ror(x, n), n) == x)
    && (forall x, y :: m.xor(m.xor(x, y), y) == x)
  }

  /** What the macro ROUND folds into the other half, given the S-boxes. */
  function F(sbox: (nat, bv32) -> bv32, r: bv32, k: RoundKey): bv32 {
    var b := (k.k0 ^ r) & 0x3f3f3f3f;
    var a := (k.k1 ^ r).RotateRight(4) & 0x3f3f3f3f;
    sbox(8, 0xff & b) ^ sbox(6, 0xff & (b >> 8)) ^ sbox(7, 0xff & a) ^ sbox(5, 0xff & (a >> 8))
    ^ sbox(4, 0xff & (b >> 16)) ^ sbox(2, 0xff & (b >> 24)) ^ sbox(3, 0xff & (a >> 16)) ^ sbox(1, 0xff & (a >> 24))
  }

  /** The machine of des.c. */
  function Kernel(sbox: (nat, bv32) -> bv32): Machine {
    Machine((l, r, k) => WordBits.Left(l, r, k), (l, r, k) => WordBits.Right(l, r, k),
            (x, n) => Rol(x, n), (x, n) => Ror(x, n), (x, y) => x ^ y, (r, k) => F(sbox, r, k))
  }

  lemma KernelIsLawful(sbox: (nat, bv32) -> bv32)
    ensures Lawful(Kernel(sbox))
  {
    var m := Kernel(sbox);
    forall l, r, k ensures m.left(m.left(l, r, k), m.right(l, r, k), k) == l && m.right(m.left(l, r, k), m.right(l, r, k), k) == r {
      WordBits.SwapTwice(l, r, k);
    }
    forall x, n ensures m.ror(m.rol(x, n), n) == x && m.rol(m.ror(x, n), n) == x { TurnBack(x, n); }
    forall x, y ensures m.xor(m.xor(x, y), y) == x { WordBits.XorBack(x, y); }
  }

  // ---------------------------------------------------------------- the permutations

  function Swap(m: Machine, p: Pair, k: bv32): Pair { Pair(m.left(p.l, p.r, k), m.right(p.l, p.r, k)) }

  function RolR(m: Machine, p: Pair, n: Amount): Pair { Pair(p.l, m.rol(p.r, n)) }

  function RorR(m: Machine, p: Pair, n: Amount): Pair { Pair(p.l, m.ror(p.r, n)) }

  /** The macro IP. */
  function IP(m: Machine, p: Pair): Pair {
    var p1 := Swap(m, RolR(m, p, Four), 0xf0f0f0f0);
    var p2 := Swap(m, RolR(m, p1, Twelve), 0xffff0000);
    var p3 := Swap(m, RorR(m, p2, Fourteen), 0xcccccccc);
    var p4 := Swap(m, RolR(m, p3, Six), 0xff00ff00);
    var p5 := Swap(m, RorR(m, p4, Seven), 0xaaaaaaaa);
    Pair(m.rol(p5.l, One), p5.r)
  }

  /** The macro FP. */
  function FP(m: Machine, p: Pair): Pair {
    var p5 := Swap(m, Pair(m.ror(p.l, One), p.r), 0xaaaaaaaa);
    var p4 := Swap(m, RolR(m, p5, Seven), 0xff00ff00);
    var p3 := Swap(m, RorR(m, p4, Six), 0xcccccccc);
    var p2 := Swap(m, RolR(m, p3, Fourteen), 0xffff0000);
    var p1 := Swap(m, RorR(m, p2, Twelve), 0xf0f0f0f0);
    RorR(m, p1, Four)
  }

  lemma SwapBack(m: Machine, p: Pair, k: bv32)
    requires Lawful(m)
    ensures Swap(m, Swap(m, p, k), k) == p
  {
  }

  lemma RollBack(m: Machine, p: Pair, n: Amount)
    requires Lawful(m)
    ensures RorR(m, RolR(m, p, n), n) == p && RolR(m, RorR(m, p, n), n) == p
  {
  }

  /** The final permutation undoes the initial one. */
  lemma FinalUndoesInitial(m: Machine, p: Pair)
    requires Lawful(m)
    ensures FP(m, IP(m, p)) == p
  {
    var p1 := Swap(m, RolR(m, p, Four), 0xf0f0f0f0);
    var p2 := Swap(m, RolR(m, p1, Twelve), 0xffff0000);
    var p3 := Swap(m, RorR(m, p2, Fourteen), 0xcccccccc);
    var p4 := Swap(m, RolR(m, p3, Six), 0xff00ff00);
    SwapBack(m, RolR(m, p, Four), 0xf0f0f0f0);
    SwapBack(m, RolR(m, p1, Twelve), 0xffff0000);
    SwapBack(m, RorR(m, p2, Fourteen), 0xcccccccc);
    SwapBack(m, RolR(m, p3, Six), 0xff00ff00);
    SwapBack(m, RorR(m, p4, Seven), 0xaaaaaaaa);
    RollBack(m, p, Four);
    RollBack(m, p1, Twelve);
    RollBack(m, p2, Fourteen);
    RollBack(m, p3, Six);
    RollBack(m, p4, Seven);
  }

  /** And the initial permutation undoes the final one. */
  lemma InitialUndoesFinal(m: Machine, p: Pair)
    requires Lawful(m)
    ensures IP(m, FP(m, p)) == p
  {
    var p0 := Pair(m.ror(p.l, One), p.r);
    var p5 := Swap(m, p0, 0xaaaaaaaa);
    var p4 := Swap(m, RolR(m, p5, Seven), 0xff00ff00);
    var p3 := Swap(m, RorR(m, p4, Six), 0xcccccccc);
    var p2 := Swap(m, RolR(m, p3, Fourteen), 0xffff0000);
    var p1 := Swap(m, RorR(m, p2, Twelve), 0xf0f0f0f0);
    RollBack(m, p1, Four);
    SwapBack(m, RorR(m, p2, Twelve), 0xf0f0f0f0);
    RollBack(m, p2, Twelve);
    SwapBack(m, RolR(m, p3, Fourteen), 0xffff0000);
    RollBack(m, p3, Fourteen);
    SwapBack(m, RorR(m, p4, Six), 0xcccccccc);
    RollBack(m, p4, Six);
    SwapBack(m, RolR(m, p5, Seven), 0xff00ff00);
    RollBack(m, p5, Seven);
    SwapBack(m, p0, 0xaaaaaaaa);
  }

  // ---------------------------------------------------------------- rounds

  /** The macro ROUND, the halves changing roles. */
  function Round(m: Machine, k: RoundKey, p: Pair): Pair { Pair(p.r, m.xor(p.l, m.f(p.r, k))) }

  /** Rounds that take turns with the halves; p.l is the half the next round changes. */
  function Pass(m: Machine, ks: seq<RoundKey>, p: Pair): Pair
    decreases |ks|
  {
    if ks == [] then p else Pass(m, ks[1..], Round(m, ks[0], p))
  }

  function Reversed(ks: seq<RoundKey>): (r: seq<RoundKey>)
    ensures |r| == |ks|
    ensures forall i | 0 <= i < |ks| :: r[i] == ks[|ks| - 1 - i]
  {
    if ks == [] then [] else Reversed(ks[1..]) + [ks[0]]
  }

  lemma ReverseTwice(ks: seq<RoundKey>)
    ensures Reversed(Reversed(ks)) == ks
  {
  }

  lemma {:induction false} PassConcat(m: Machine, a: seq<RoundKey>, b: seq<RoundKey>, p: Pair)
    ensures Pass(m, a + b, p) == Pass(m, b, Pass(m, a, p))
    decreases |a|
  {
    if a == [] {
      assert a + b == b;
    } else {
      assert (a + b)[1..] == a[1..] + b;
      PassConcat(m, a[1..], b, Round(m, a[0], p));
    }
  }

  lemma RoundBack(m: Machine, k: RoundKey, p: Pair)
    requires Lawful(m)
    ensures Round(m, k, Round(m, k, p).Flip()) == p.Flip()
  {
    var g := m.f(p.r, k);
    assert m.xor(m.xor(p.l, g), g) == p.l;
  }

  /** The same rounds in reverse order, on the halves exchanged, lead back. */
  lemma {:induction false} PassBack(m: Machine, ks: seq<RoundKey>, p: Pair)
    requires Lawful(m)
    ensures Pass(m, Reversed(ks), Pass(m, ks, p).Flip()) == p.Flip()
    decreases |ks|
  {
    if ks != [] {
      var q := Round(m, ks[0], p);
      PassBack(m, ks[1..], q);
      PassConcat(m, Reversed(ks[1..]), [ks[0]], Pass(m, ks[1..], q).Flip());
      assert Reversed(ks) == Reversed(ks[1..]) + [ks[0]];
      assert Pass(m, [ks[0]], q.Flip()) == Round(m, ks[0], q.Flip()) by { assert [ks[0]][1..] == []; }
      RoundBack(m, ks[0], p);
    }
  }

  // ---------------------------------------------------------------- DES

  /** des_encrypt. */
  function Encrypt(m: Machine, ks: seq<RoundKey>, x: Pair): Pair { FP(m, Pass(m, ks, IP(m, x)).Flip()) }

  /** des_decrypt: the same with the round keys taken from the end. */
  function Decrypt(m: Machine, ks: seq<RoundKey>, x: Pair): Pair { Encrypt(m, Reversed(ks), x) }

  lemma DecryptUndoesEncrypt(m: Machine, ks: seq<RoundKey>, x: Pair)
    requires Lawful(m)
    ensures Decrypt(m, ks, Encrypt(m, ks, x)) == x
  {
    InitialUndoesFinal(m, Pass(m, ks, IP(m, x)).Flip());
    PassBack(m, ks, IP(m, x));
    FinalUndoesInitial(m, x);
  }

  lemma EncryptUndoesDecrypt(m: Machine, ks: seq<RoundKey>, x: Pair)
    requires Lawful(m)
    ensures Encrypt(m, ks, Decrypt(m, ks, x)) == x
  {
    ReverseTwice(ks);
    DecryptUndoesEncrypt(m, Reversed(ks), x);
  }

  // ---------------------------------------------------------------- triple DES

  /** des3_ede_encrypt: one initial and one final permutation around three runs of rounds, the middle one on the halves exchanged. */
  function Encrypt3(m: Machine, k1: seq<RoundKey>, k2: seq<RoundKey>, k3: seq<RoundKey>, x: Pair): Pair {
    var p1 := Pass(m, k1, IP(m, x));
    var p2 := Pass(m, k2, p1.Flip()).Flip();
    FP(m, Pass(m, k3, p2).Flip())
  }

  /** des3_ede_decrypt: the same code with the whole schedule taken from the end. */
  function Decrypt3(m: Machine, k1: seq<RoundKey>, k2: seq<RoundKey>, k3: seq<RoundKey>, x: Pair): Pair {
    Encrypt3(m, Reversed(k3), Reversed(k2), Reversed(k1), x)
  }

  lemma FusedRuns(m: Machine, k1: seq<RoundKey>, k2: seq<RoundKey>, k3: seq<RoundKey>, x: Pair)
    requires Lawful(m)
    ensures Encrypt3(m, k1, k2, k3, x) == Encrypt(m, k3, Encrypt(m, k2, Encrypt(m, k1, x)))
  {
    var p1 := Pass(m, k1, IP(m, x));
    InitialUndoesFinal(m, p1.Flip());
    var p2 := Pass(m, k2, p1.Flip());
    InitialUndoesFinal(m, p2.Flip());
  }

  /** The fused pass equals encryption under k1, decryption under k2 and encryption under k3. */
  lemma FusedEncryption(m: Machine, k1: seq<RoundKey>, k2: seq<RoundKey>, k3: seq<RoundKey>, x: Pair)
    requires Lawful(m)
    ensures Encrypt3(m, k1, Reversed(k2), k3, x) == Encrypt(m, k3, Decrypt(m, k2, Encrypt(m, k1, x)))
  {
    FusedRuns(m, k1, Reversed(k2), k3, x);
  }

  lemma FusedDecryption(m: Machine, k1: seq<RoundKey>, k2: seq<RoundKey>, k3: seq<RoundKey>, x: Pair)
    requires Lawful(m)
    ensures Decrypt3(m, k1, Reversed(k2), k3, x) == Decrypt(m, k1, Encrypt(m, k2, Decrypt(m, k3, x)))
  {
    ReverseTwice(k2);
    FusedRuns(m, Reversed(k3), k2, Reversed(k1), x);
  }

  /** Triple DES decryption undoes triple DES encryption. */
  lemma Decrypt3UndoesEncrypt3(m: Machine, k1: seq<RoundKey>, k2: seq<RoundKey>, k3: seq<RoundKey>, x: Pair)
    requires Lawful(m)
    ensures Decrypt3(m, k1, k2, k3, Encrypt3(m, k1, k2, k3, x)) == x
  {
    var y1 := Encrypt(m, k1, x);
    var y2 := Encrypt(m, k2, y1);
    FusedRuns(m, k1, k2, k3, x);
    FusedRuns(m, Reversed(k3), Reversed(k2), Reversed(k1), Encrypt(m, k3, y2));
    DecryptUndoesEncrypt(m, k3, y2);
    DecryptUndoesEncrypt(m, k2, y1);
    DecryptUndoesEncrypt(m, k1, x);
  }
}
