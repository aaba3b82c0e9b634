/**
  How the anticipatory scheduler ranks the requests of one direction, and why looking at the two
  tree neighbours of a request is enough to find the best of all the others.
 */
module AsChoice {
  import opened Wrappers
  import opened SortTree

  const MAXBACK: nat := 1024 * 1024
  const BACK_PENALTY: nat := 2

  predicate Wraps(last: nat, s: nat) { s < last && s + MAXBACK < last }

  function Distance(last: nat, s: nat): nat {
    if s >= last then s - last else (last - s) * BACK_PENALTY
  }

  /** as_choose_req on two requests of the same direction. */
  function Choose(last: nat, a: Rq, b: Rq): Rq {
    var wrapA, wrapB := Wraps(last, a.sector), Wraps(last, b.sector);
    var dA, dB := Distance(last, a.sector), Distance(last, b.sector);
    if a == b then b
    else if !wrapA && wrapB then a
    else if !wrapB && wrapA then b
    else if wrapA && wrapB then if a.sector <= b.sector then a else b
    else if dA < dB then a
    else if dB < dA then b
    else if a.sector >= b.sector then a else b
  }

  /** as_choose_req on pointers that may be null. */
  function ChooseReq(last: nat, a: Option<Rq>, b: Option<Rq>): Option<Rq> {
    if a.None? then b else if b.None? then a else Some(Choose(last, a.value, b.value))
  }

  /** On requests at different sectors the choice is a total order: symmetric, and transitive. */
  lemma ChoiceIsTotalOrder(last: nat, a: Rq, b: Rq, c: Rq)
    requires a.sector != b.sector && b.sector != c.sector && a.sector != c.sector
    ensures Choose(last, a, b) == Choose(last, b, a)
    ensures Choose(last, a, b) == a || Choose(last, a, b) == b
    ensures Choose(last, a, b) == a && Choose(last, b, c) == b ==> Choose(last, a, c) == a
    ensures Choose(last, Choose(last, a, b), c) == Choose(last, a, Choose(last, b, c))
  {
  }

  // ---------------------------------------------------------------- the sort tree

  ghost predicate Disjoint(tree: seq<Rq>) {
    forall i, j | 0 <= i < j < |tree| :: tree[i].End() <= tree[j].sector
  }

  ghost predicate IsBest(last: nat, s: seq<Rq>, r: Rq) {
    r in s && forall x | x in s :: Choose(last, r, x) == r && Choose(last, x, r) == r
  }

  /** The cache names the best request of the tree, or nothing when the tree is empty. */
  ghost predicate NextIsBest(last: nat, tree: seq<Rq>, next: Option<Rq>) {
    if tree == [] then next.None? else next.Some? && IsBest(last, tree, next.value)
  }

  lemma BestIsUnique(last: nat, s: seq<Rq>, a: Rq, b: Rq)
    requires IsBest(last, s, a) && IsBest(last, s, b)
    ensures a == b
  {
    assert Choose(last, a, b) == a && Choose(last, a, b) == b;
  }

  /** as_find_next_arq: the right neighbour, or the first node, against the left neighbour. */
  function FindNext(last: nat, tree: seq<Rq>, i: nat): Option<Rq>
    requires i < |tree|
  {
    ChooseReq(last, NextNode(tree, i), PrevNode(tree, i))
  }

  /** Whatever the sectors, the request found is another one of the tree, and one is found if there is another. */
  lemma FindNextOther(last: nat, tree: seq<Rq>, i: nat)
    requires i < |tree| && Sorted(tree)
    ensures FindNext(last, tree, i).Some? <==> |tree| > 1
    ensures FindNext(last, tree, i).Some? ==> FindNext(last, tree, i).value in Without(tree, i)
    ensures FindNext(last, tree, i) != Some(tree[i])
  {
    NeighboursStay(tree, i);
  }

  /** Behind the head, the nearer of two requests within reach wins, and of two out of reach the lower. */
  lemma BehindHead(last: nat, a: Rq, b: Rq)
    requires a.sector < b.sector < last
    ensures !Wraps(last, b.sector) ==> Choose(last, a, b) == b && Choose(last, b, a) == b
    ensures Wraps(last, b.sector) ==> Choose(last, a, b) == a && Choose(last, b, a) == a
  {
  }

  /** At or beyond the head, the nearer wins; and it wins against everything out of reach. */
  lemma AheadOfHead(last: nat, a: Rq, b: Rq)
    requires last <= a.sector && (a.sector < b.sector || Wraps(last, b.sector))
    ensures Choose(last, a, b) == a && Choose(last, b, a) == a
  {
  }

  /** The candidates as_find_next_arq compares: the best of those ahead, or of all when none is ahead, and the left neighbour. */
  lemma NeighboursBeat(tree: seq<Rq>, i: nat, k: nat)
    requires i < |tree| && k < |tree| && k != i && Sorted(tree) && Disjoint(tree)
    ensures var last, x := tree[i].End(), FindNext(tree[i].End(), tree, i);
            x.Some? && Choose(last, x.value, tree[k]) == x.value && Choose(last, tree[k], x.value) == x.value
  {
    var last := tree[i].End();
    var r := tree[k];
    if k > i {
      assert tree[i].End() <= tree[i + 1].sector;
      if k > i + 1 { AheadOfHead(last, tree[i + 1], r); }
      if i > 0 { Against(last, tree[i + 1], tree[i - 1], r); }
    } else if i + 1 < |tree| {
      assert tree[i].End() <= tree[i + 1].sector && tree[i - 1].sector < tree[i].sector;
      if k < i - 1 { BehindHead(last, r, tree[i - 1]); }
      if Wraps(last, r.sector) { AheadOfHead(last, tree[i + 1], r); }
      Against(last, tree[i + 1], tree[i - 1], r);
    } else {
      assert tree[i - 1].sector < tree[i].sector && tree[0].sector < tree[i].sector;
      if k < i - 1 { BehindHead(last, r, tree[i - 1]); }
      if 0 < k { BehindHead(last, tree[0], r); }
      if 0 < i - 1 { BehindHead(last, tree[0], tree[i - 1]); }
    }
  }

  lemma Against(last: nat, a: Rq, b: Rq, r: Rq)
    requires last <= a.sector && b.sector < last
    requires || (Choose(last, a, r) == a && Choose(last, r, a) == a)
             || (Choose(last, b, r) == b && Choose(last, r, b) == b && !Wraps(last, b.sector))
    ensures var x := Choose(last, a, b); Choose(last, x, r) == x && Choose(last, r, x) == x
  {
  }

  /** The request that the cache is given when tree[i] goes to the driver is the best of all that stay. */
  lemma FindNextIsBest(tree: seq<Rq>, i: nat)
    requires i < |tree| && Sorted(tree) && Disjoint(tree)
    ensures NextIsBest(tree[i].End(), Without(tree, i), FindNext(tree[i].End(), tree, i))
  {
    var last, t := tree[i].End(), Without(tree, i);
    FindNextOther(last, tree, i);
    if |tree| > 1 {
      var x := FindNext(last, tree, i).value;
      forall y | y in t ensures Choose(last, x, y) == x && Choose(last, y, x) == x {
        var k :| 0 <= k < |t| && t[k] == y;
        NeighboursBeat(tree, i, if k < i then k else k + 1);
      }
    }
  }

  /** Disjointness is needed: a request inside the one dispatched is taken for the nearest ahead. */
  lemma OverlapMisleads()
    ensures var a, x, y := Rq(0, true, 0, 100, None, 0), Rq(1, true, 10, 1, None, 0), Rq(2, true, 150, 1, None, 0);
            Sorted([a, x, y]) && !NextIsBest(a.End(), Without([a, x, y], 0), FindNext(a.End(), [a, x, y], 0))
  {
    var a, x, y := Rq(0, true, 0, 100, None, 0), Rq(1, true, 10, 1, None, 0), Rq(2, true, 150, 1, None, 0);
    assert Without([a, x, y], 0) == [x, y];
    assert y in [x, y] && Choose(100, x, y) == y;
  }
}
