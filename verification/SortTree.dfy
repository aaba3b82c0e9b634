/**
  What the I/O schedulers share: a sort tree of requests keyed by start sector, kept here as a
  strictly ascending sequence, and a FIFO over the same requests.
 */
module SortTree {
  import opened Wrappers

  /** A scheduler's view of a request.  `time` is its deadline (AS, deadline) or its start time (CFQ). */
  datatype Rq = Rq(id: nat, sync: bool, sector: nat, nr: nat, ioc: Option<nat>, time: int) {
    function End(): nat { sector + nr }
  }

  ghost predicate Sorted(tree: seq<Rq>) {
    forall i, j | 0 <= i < j < |tree| :: tree[i].sector < tree[j].sector
  }

  ghost predicate Distinct(s: seq<Rq>) {
    forall i, j | 0 <= i < j < |s| :: s[i] != s[j]
  }

  /** The FIFO and the tree hold the same requests. */
  ghost predicate Agree(tree: seq<Rq>, fifo: seq<Rq>) {
    && Sorted(tree) && Distinct(fifo)
    && (forall r | r in tree :: r in fifo)
    && (forall r | r in fifo :: r in tree)
  }

  function Without(s: seq<Rq>, i: nat): seq<Rq>
    requires i < |s|
  {
    s[..i] + s[i + 1..]
  }

  function Place(s: seq<Rq>, r: Rq): (i: nat)
    requires r in s
    ensures i < |s| && s[i] == r
    ensures forall j | 0 <= j < i :: s[j] != r
  {
    if s[0] == r then 0 else 1 + Place(s[1..], r)
  }

  function Slot(tree: seq<Rq>, s: nat): (p: nat)
    ensures p <= |tree|
    ensures forall i | 0 <= i < p :: tree[i].sector < s
    ensures p < |tree| ==> s <= tree[p].sector
  {
    if tree == [] || s <= tree[0].sector then 0 else 1 + Slot(tree[1..], s)
  }

  function Insert(tree: seq<Rq>, r: Rq): seq<Rq> {
    var p := Slot(tree, r.sector);
    tree[..p] + [r] + tree[p..]
  }

  /** The request already queued at the sector, if any. */
  function Alias(tree: seq<Rq>, s: nat): Option<Rq> {
    var p := Slot(tree, s);
    if p < |tree| && tree[p].sector == s then Some(tree[p]) else None
  }

  /** rb_next, or the first node when there is none; nothing if that is the node itself. */
  function NextNode(tree: seq<Rq>, i: nat): Option<Rq>
    requires i < |tree|
  {
    if i + 1 < |tree| then Some(tree[i + 1])
    else if tree[0] != tree[i] then Some(tree[0])
    else None
  }

  /** rb_prev. */
  function PrevNode(tree: seq<Rq>, i: nat): Option<Rq>
    requires i < |tree|
  {
    if i > 0 then Some(tree[i - 1]) else None
  }

  lemma NeighboursStay(tree: seq<Rq>, i: nat)
    requires i < |tree| && Sorted(tree)
    ensures NextNode(tree, i).Some? <==> |tree| > 1
    ensures NextNode(tree, i).Some? ==> NextNode(tree, i).value in Without(tree, i) && NextNode(tree, i).value != tree[i]
    ensures PrevNode(tree, i).Some? ==> PrevNode(tree, i).value in Without(tree, i) && PrevNode(tree, i).value != tree[i]
    ensures PrevNode(tree, i).Some? ==> |tree| > 1
  {
    var t := Without(tree, i);
    assert i + 1 < |tree| ==> t[i] == tree[i + 1];
    assert i > 0 ==> t[0] == tree[0] && t[i - 1] == tree[i - 1];
    assert i > 0 ==> tree[0].sector < tree[i].sector && tree[i - 1].sector < tree[i].sector;
    assert i + 1 < |tree| ==> tree[i].sector < tree[i + 1].sector;
  }

  lemma WithoutMembers(s: seq<Rq>, p: nat)
    requires p < |s| && Distinct(s)
    ensures forall x :: x in Without(s, p) <==> x in s && x != s[p]
  {
    var t := Without(s, p);
    forall x | x in s && x != s[p] ensures x in t {
      var k :| 0 <= k < |s| && s[k] == x;
      assert t[if k < p then k else k - 1] == x;
    }
    forall x | x in t ensures x in s && x != s[p] {
      var k :| 0 <= k < |t| && t[k] == x;
      assert s[if k < p then k else k + 1] == x;
    }
  }

  lemma WithoutDistinct(s: seq<Rq>, p: nat)
    requires p < |s| && Distinct(s)
    ensures Distinct(Without(s, p))
  {
    var t := Without(s, p);
    forall i, j | 0 <= i < j < |t| ensures t[i] != t[j] {
      assert t[i] == s[if i < p then i else i + 1] && t[j] == s[if j < p then j else j + 1];
    }
  }

  lemma PlaceUnique(s: seq<Rq>, r: Rq)
    requires r in s && Distinct(s)
    ensures forall x :: x in Without(s, Place(s, r)) <==> x in s && x != r
    ensures Distinct(Without(s, Place(s, r)))
  {
    WithoutMembers(s, Place(s, r));
    WithoutDistinct(s, Place(s, r));
  }

  lemma WithoutOne(s: seq<Rq>, i: nat)
    requires i < |s|
    ensures multiset(Without(s, i)) + multiset{s[i]} == multiset(s)
  {
    assert s == s[..i] + [s[i]] + s[i + 1..];
  }

  lemma SortedDistinct(tree: seq<Rq>)
    requires Sorted(tree)
    ensures Distinct(tree)
  {
    forall i, j | 0 <= i < j < |tree| ensures tree[i] != tree[j] {
      assert tree[i].sector < tree[j].sector;
    }
  }

  lemma WithoutSorted(tree: seq<Rq>, p: nat)
    requires Sorted(tree) && p < |tree|
    ensures Sorted(Without(tree, p))
  {
    var t := Without(tree, p);
    assert forall i | 0 <= i < |t| :: t[i] == tree[if i < p then i else i + 1];
  }

  lemma SortedApart(tree: seq<Rq>, a: Rq, b: Rq)
    requires Sorted(tree) && a in tree && b in tree && a != b
    ensures a.sector != b.sector
  {
    var i :| 0 <= i < |tree| && tree[i] == a;
    var j :| 0 <= j < |tree| && tree[j] == b;
    assert if i < j then tree[i].sector < tree[j].sector else tree[j].sector < tree[i].sector;
  }

  lemma InsertOrder(tree: seq<Rq>, r: Rq)
    requires Sorted(tree) && forall x | x in tree :: x.sector != r.sector
    ensures Sorted(Insert(tree, r))
  {
    var p, t := Slot(tree, r.sector), Insert(tree, r);
    assert p < |tree| ==> tree[p] in tree;
    forall i, j | 0 <= i < j < |t| ensures t[i].sector < t[j].sector {
      var i', j' := if i < p then i else i - 1, if j < p then j else j - 1;
      assert j != p ==> t[j] == tree[j'];
      if i == p { assert tree[p].sector <= tree[j'].sector; } else { assert t[i] == tree[i']; }
    }
  }

  lemma InsertSorted(tree: seq<Rq>, r: Rq)
    requires Sorted(tree) && forall x | x in tree :: x.sector != r.sector
    ensures Sorted(Insert(tree, r))
    ensures forall x :: x in Insert(tree, r) <==> x == r || x in tree
    ensures multiset(Insert(tree, r)) == multiset(tree) + multiset{r}
  {
    var p := Slot(tree, r.sector);
    assert tree == tree[..p] + tree[p..];
    InsertOrder(tree, r);
  }

  lemma SlotAt(tree: seq<Rq>, s: nat, k: nat)
    requires Sorted(tree) && k < |tree| && tree[k].sector == s
    ensures Slot(tree, s) == k
  {
  }

  lemma AliasFound(tree: seq<Rq>, s: nat)
    requires Sorted(tree)
    ensures Alias(tree, s).None? <==> forall x | x in tree :: x.sector != s
    ensures Alias(tree, s).Some? ==> Alias(tree, s).value in tree && Alias(tree, s).value.sector == s
  {
    var p := Slot(tree, s);
    forall x | x in tree && x.sector == s ensures p < |tree| && tree[p].sector == s {
      var k :| 0 <= k < |tree| && tree[k] == x;
      SlotAt(tree, s, k);
    }
    if Alias(tree, s).Some? { assert tree[p] in tree; }
  }

  /** A request leaves both indexes. */
  lemma AgreeWithout(tree: seq<Rq>, fifo: seq<Rq>, r: Rq)
    requires Agree(tree, fifo) && r in tree
    ensures Agree(Without(tree, Place(tree, r)), Without(fifo, Place(fifo, r)))
    ensures forall x :: x in Without(tree, Place(tree, r)) <==> x in tree && x != r
  {
    SortedDistinct(tree);
    PlaceUnique(tree, r);
    PlaceUnique(fifo, r);
    WithoutSorted(tree, Place(tree, r));
  }

  /** A request at a free sector enters both indexes. */
  lemma AgreeWith(tree: seq<Rq>, fifo: seq<Rq>, r: Rq)
    requires Agree(tree, fifo) && forall x | x in tree :: x.sector != r.sector
    ensures Agree(Insert(tree, r), fifo + [r])
  {
    InsertSorted(tree, r);
    assert r !in fifo;
  }

  // ---------------------------------------------------------------- requests with an identity

  ghost predicate IdsDistinct(s: seq<Rq>) {
    forall i, j | 0 <= i < j < |s| :: s[i].id != s[j].id
  }

  lemma IdsAreDistinct(s: seq<Rq>)
    requires IdsDistinct(s)
    ensures Distinct(s)
  {
  }

  lemma IdsWithout(s: seq<Rq>, p: nat)
    requires IdsDistinct(s) && p < |s|
    ensures IdsDistinct(Without(s, p))
  {
    var t := Without(s, p);
    forall i, j | 0 <= i < j < |t| ensures t[i].id != t[j].id {
      assert s[if i < p then i else i + 1].id != s[if j < p then j else j + 1].id;
    }
  }

  lemma ReplacedIn(s: seq<Rq>, r: Rq, g: Rq)
    requires r in s && Distinct(s)
    ensures forall x :: x in s[Place(s, r) := g] <==> x == g || (x in s && x != r)
  {
    var p, t := Place(s, r), s[Place(s, r) := g];
    assert t[p] == g;
    forall x | x in s && x != r ensures x in t {
      var k :| 0 <= k < |s| && s[k] == x;
      assert t[k] == x;
    }
    forall x | x in t && x != g ensures x in s && x != r {
      var k :| 0 <= k < |t| && t[k] == x;
      assert s[k] == x && k != p;
      assert s[k] != s[p];
    }
  }

  /** list_move: r moves right behind n. */
  function MoveBehind(fifo: seq<Rq>, r: Rq, n: Rq): seq<Rq>
    requires r in fifo && n in fifo && r != n
  {
    StillIn(fifo, r, n);
    var t := Without(fifo, Place(fifo, r));
    var p := Place(t, n);
    t[..p + 1] + [r] + t[p + 1..]
  }

  lemma StillIn(s: seq<Rq>, r: Rq, n: Rq)
    requires r in s && n in s && r != n
    ensures n in Without(s, Place(s, r))
  {
    var k :| 0 <= k < |s| && s[k] == n;
    var p := Place(s, r);
    assert Without(s, p)[if k < p then k else k - 1] == n;
  }

  /** The others have other ids. */
  lemma OtherIds(fifo: seq<Rq>, m: nat)
    requires IdsDistinct(fifo) && m < |fifo|
    ensures forall x | x in Without(fifo, m) :: x.id != fifo[m].id
  {
    var t := Without(fifo, m);
    forall k | 0 <= k < |t| ensures t[k].id != fifo[m].id {
      assert t[k] == if k < m then fifo[k] else fifo[k + 1];
    }
  }

  lemma IdsWith(t: seq<Rq>, p: nat, r: Rq)
    requires IdsDistinct(t) && p <= |t| && forall x | x in t :: x.id != r.id
    ensures IdsDistinct(t[..p] + [r] + t[p..])
  {
    var f := t[..p] + [r] + t[p..];
    forall i, j | 0 <= i < j < |f| ensures f[i].id != f[j].id {
      var i', j' := if i < p then i else i - 1, if j < p then j else j - 1;
      assert i != p ==> f[i] == t[i'] && t[i'] in t;
      assert j != p ==> f[j] == t[j'] && t[j'] in t;
    }
  }

  lemma MoveBehindIn(fifo: seq<Rq>, r: Rq, n: Rq)
    requires r in fifo && n in fifo && r != n && IdsDistinct(fifo)
    ensures IdsDistinct(MoveBehind(fifo, r, n))
    ensures forall x :: x in MoveBehind(fifo, r, n) <==> x in fifo
  {
    IdsAreDistinct(fifo);
    StillIn(fifo, r, n);
    PlaceUnique(fifo, r);
    var m := Place(fifo, r);
    IdsWithout(fifo, m);
    OtherIds(fifo, m);
    var t := Without(fifo, m);
    var p := Place(t, n) + 1;
    assert t == t[..p] + t[p..];
    IdsWith(t, p, r);
  }

  lemma ReplacedSorted(tree: seq<Rq>, r: Rq, g: Rq)
    requires Sorted(tree) && r in tree && g.sector == r.sector
    ensures Sorted(tree[Place(tree, r) := g])
  {
    var t := tree[Place(tree, r) := g];
    assert forall k | 0 <= k < |tree| :: t[k].sector == tree[k].sector;
  }

  lemma ReplacedIds(fifo: seq<Rq>, r: Rq, g: Rq)
    requires IdsDistinct(fifo) && r in fifo && g.id == r.id
    ensures IdsDistinct(fifo[Place(fifo, r) := g])
  {
    var f := fifo[Place(fifo, r) := g];
    assert forall k | 0 <= k < |fifo| :: f[k].id == fifo[k].id;
  }

}
