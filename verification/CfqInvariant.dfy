/** Every step of CFQ keeps the queues, the service lists and the counters in agreement. */
module CfqInvariant {
  import opened Wrappers
  import opened SortTree
  import opened CfqLists
  import opened CfqRotation
  import opened CfqQueues

  // ---------------------------------------------------------------- lists

  lemma LinkIn(ls: seq<seq<nat>>, k: nat, pos: nat, i: nat, j: nat, m: nat)
    requires k < |ls| && pos <= |ls[k]| && m < |ls|
    ensures j in Link(ls, k, pos, i)[m] <==> j in ls[m] || (m == k && j == i)
  {
    assert ls[k] == ls[k][..pos] + ls[k][pos..];
  }

  lemma RelinkedIn(ls: seq<seq<nat>>, i: nat, k: nat, pos: nat, j: nat, m: nat)
    requires k < |ls| && |Unlink(ls, i)| == |ls| && pos <= |Unlink(ls, i)[k]| && m < |ls|
    ensures j in Link(Unlink(ls, i), k, pos, i)[m] <==> if j == i then m == k else j in ls[m]
  {
    UnlinkCount(ls, i, i);
    InDrop(ls[m], i, j);
    LinkIn(Unlink(ls, i), k, pos, i, j, m);
  }

  lemma Relinked(ls: seq<seq<nat>>, i: nat, k: nat, pos: nat)
    requires k < |ls| && |Unlink(ls, i)| == |ls| && pos <= |Unlink(ls, i)[k]|
    ensures var l := Link(Unlink(ls, i), k, pos, i);
            && |l| == |ls|
            && (forall j: nat :: Total(l, j) == if j == i then 1 else Total(ls, j))
            && (forall j: nat, m: nat | m < |ls| :: j in l[m] <==> if j == i then m == k else j in ls[m])
  {
    var u := Unlink(ls, i);
    forall j: nat ensures Total(Link(u, k, pos, i), j) == if j == i then 1 else Total(ls, j) {
      UnlinkCount(ls, i, j);
      LinkCount(u, k, pos, i, j);
    }
    forall j: nat, m: nat | m < |ls| ensures j in Link(u, k, pos, i)[m] <==> if j == i then m == k else j in ls[m] {
      RelinkedIn(ls, i, k, pos, j, m);
    }
  }

  lemma {:induction false} BusyUpdate(queues: seq<Cfqq>, i: nat, q: Cfqq)
    requires i < |queues|
    ensures Busy(queues[i := q]) == Busy(queues) - (if queues[i].onRr then 1 else 0) + (if q.onRr then 1 else 0)
  {
    if i == 0 {
      assert queues[i := q][1..] == queues[1..];
    } else {
      assert queues[i := q][1..] == queues[1..][i - 1 := q];
      BusyUpdate(queues[1..], i - 1, q);
    }
  }

  /** The lists and counters are right except that queue i may be on the wrong list. */
  ghost predicate ListedBut(c: Cfqd, i: nat) {
    && |c.lists| == LISTS
    && (forall j: nat :: Total(c.lists, j) == if j < |c.queues| then 1 else 0)
    && (forall j: nat | j < |c.queues| && j != i :: j in c.lists[EMPTY] <==> !c.queues[j].onRr)
    && c.busyQueues == Busy(c.queues)
    && c.turn.Valid()
    && (c.active.Some? ==> c.active.value < |c.queues|)
  }

  lemma ButBounded(c: Cfqd, i: nat)
    requires ListedBut(c, i)
    ensures Bounded(c)
  {
    forall k, x | 0 <= k < LISTS && x in c.lists[k] ensures x < |c.queues| { OnSome(c.lists, x); }
  }

  lemma PutListed(c: Cfqd, i: nat, q: Cfqq)
    requires Listed(c) && i < |c.queues| && q.onRr == c.queues[i].onRr
    ensures Listed(Put(c, i, q))
  {
    BusyUpdate(c.queues, i, q);
  }

  lemma ResortListed(c: Cfqd, i: nat, preempted: bool)
    requires ListedBut(c, i) && i < |c.queues| && c.queues[i].onRr
    ensures Bounded(c) && Listed(Resort(c, i, preempted))
    ensures Resort(c, i, preempted) == c.(lists := Resort(c, i, preempted).lists)
  {
    ButBounded(c, i);
    UnlinkBounded(c.lists, i, |c.queues|);
    var ls, home := Unlink(c.lists, i), Home(c.queues[i]);
    assert forall k | 0 <= k < |ls[home]| :: ls[home][k] in ls[home];
    Relinked(c.lists, i, home, Spot(c.queues, ls[home], home, c.queues[i].serviceLast, preempted));
  }

  lemma AddRrListed(c: Cfqd, i: nat)
    requires Listed(c) && i < |c.queues| && !c.queues[i].onRr
    ensures Bounded(c) && Listed(AddRr(c, i))
    ensures AddRr(c, i) == c.(queues := c.queues[i := c.queues[i].(onRr := true)], busyQueues := c.busyQueues + 1,
                              lists := AddRr(c, i).lists)
  {
    ListedBounded(c);
    BusyUpdate(c.queues, i, c.queues[i].(onRr := true));
    ResortListed(Put(c, i, c.queues[i].(onRr := true)).(busyQueues := c.busyQueues + 1), i, false);
  }

  lemma DelRrListed(c: Cfqd, i: nat)
    requires Listed(c) && i < |c.queues| && c.queues[i].onRr
    ensures Listed(DelRr(c, i))
  {
    UnlinkCount(c.lists, i, i);
    Relinked(c.lists, i, EMPTY, 0);
    BusyUpdate(c.queues, i, c.queues[i].(onRr := false));
  }

  // ---------------------------------------------------------------- one queue

  lemma {:induction false} CountWithout(s: seq<Rq>, i: nat, sync: bool)
    requires i < |s|
    ensures CountSync(s, sync) == CountSync(Without(s, i), sync) + if s[i].sync == sync then 1 else 0
  {
    if i == 0 {
      assert Without(s, 0) == s[1..];
    } else {
      assert Without(s, i)[1..] == Without(s[1..], i - 1);
      CountWithout(s[1..], i - 1, sync);
    }
  }

  lemma CountInsert(tree: seq<Rq>, r: Rq, sync: bool)
    ensures CountSync(Insert(tree, r), sync) == CountSync(tree, sync) + if r.sync == sync then 1 else 0
  {
    var p := Slot(tree, r.sector);
    assert Without(Insert(tree, r), p) == tree;
    CountWithout(Insert(tree, r), p, sync);
  }

  lemma FoundNext(pol: Policy, tree: seq<Rq>, r: Rq)
    requires Sorted(tree) && r in tree
    ensures var t := Without(tree, Place(tree, r));
            && (FindNext(pol, tree, r).Some? <==> t != [])
            && (FindNext(pol, tree, r).Some? ==> FindNext(pol, tree, r).value in t)
            && FindNext(pol, tree, r) != Some(r)
  {
    NeighboursStay(tree, Place(tree, r));
  }

  /** The queue after r has been sent. */
  function Sent(pol: Policy, q: Cfqq, r: Rq): Cfqq
    requires r in q.tree && r in q.fifo
  {
    var t := Without(q.tree, Place(q.tree, r));
    Issued(Queued(q, r.sync, -1), r.sync, 1).(
      next := FindNext(pol, q.tree, r), tree := t, fifo := Without(q.fifo, Place(q.fifo, r)), onRr := q.onRr && t != [])
  }

  lemma SentCounts(pol: Policy, q: Cfqq, r: Rq)
    requires r in q.tree && r in q.fifo
    ensures forall s :: Excess(Sent(pol, q, r), s) == Excess(q, s)
  {
    CountWithout(q.tree, Place(q.tree, r), true);
    CountWithout(q.tree, Place(q.tree, r), false);
  }

  lemma SentLoose(pol: Policy, q: Cfqq, r: Rq)
    requires Loose(q) && r in q.tree
    ensures Loose(Sent(pol, q, r))
    ensures forall x :: x in Sent(pol, q, r).tree <==> x in q.tree && x != r
    ensures forall x :: x in Sent(pol, q, r).fifo <==> x in q.fifo && x != r
  {
    FoundNext(pol, q.tree, r);
    SortedDistinct(q.tree);
    PlaceUnique(q.tree, r);
    WithoutSorted(q.tree, Place(q.tree, r));
    IdsAreDistinct(q.fifo);
    PlaceUnique(q.fifo, r);
    IdsWithout(q.fifo, Place(q.fifo, r));
  }

  lemma SentSane(pol: Policy, q: Cfqq, r: Rq)
    requires Sane(q) && r in q.tree
    ensures Sane(Sent(pol, q, r))
  {
    SentLoose(pol, q, r);
    SentCounts(pol, q, r);
  }

  lemma SentForm(pol: Policy, q: Cfqq, r: Rq)
    requires Loose(q) && r in q.tree
    ensures var e := Erased(pol, Unlisted(pol, q, r), r);
            Sent(pol, q, r) == Issued(e, r.sync, 1).(onRr := q.onRr && e.tree != []) && e.onRr == q.onRr
  {
    FoundNext(pol, q.tree, r);
    SentStructure(pol, q, r);
  }

  lemma SentStructure(pol: Policy, q: Cfqq, r: Rq)
    requires r in q.tree && r in q.fifo && FindNext(pol, q.tree, r) != Some(r)
    ensures var e := Erased(pol, Unlisted(pol, q, r), r);
            Sent(pol, q, r) == Issued(e, r.sync, 1).(onRr := q.onRr && e.tree != []) && e.onRr == q.onRr
  {
  }

  lemma DelRbListed(c: Cfqd, i: nat, r: Rq)
    requires Listed(c) && Bounded(c) && i < |c.queues| && r in c.queues[i].tree
    ensures var e, d := Erased(c.pol, c.queues[i], r), DelRb(c, i, r);
            && Listed(d)
            && d == c.(queues := c.queues[i := e.(onRr := e.onRr && e.tree != [])],
                       lists := d.lists, busyQueues := d.busyQueues)
  {
    var e := Erased(c.pol, c.queues[i], r);
    PutListed(c, i, e);
    if c.queues[i].onRr && e.tree == [] { DelRrListed(Put(c, i, e), i); }
  }

  lemma DispatchForm(c: Cfqd, i: nat, r: Rq)
    requires Listed(c) && i < |c.queues| && Loose(c.queues[i]) && r in c.queues[i].tree
    ensures Bounded(c) && r in c.queues[i].fifo
    ensures Listed(DelRb(Put(c, i, Unlisted(c.pol, c.queues[i], r)), i, r))
    ensures var d := DelRb(Put(c, i, Unlisted(c.pol, c.queues[i], r)), i, r);
            && d.queues == c.queues[i := Erased(c.pol, Unlisted(c.pol, c.queues[i], r), r).(onRr := Sent(c.pol, c.queues[i], r).onRr)]
            && d.sent == c.sent && d.pol == c.pol && d.active == c.active
  {
    ListedBounded(c);
    var u := Unlisted(c.pol, c.queues[i], r);
    PutListed(c, i, u);
    DelRbListed(Put(c, i, u), i, r);
  }

  lemma SentTail(d: Cfqd, i: nat, r: Rq)
    requires Listed(d) && i < |d.queues|
    ensures Listed(Put(d, i, Issued(d.queues[i], r.sync, 1)).(sent := d.sent + [r]))
  {
    PutListed(d, i, Issued(d.queues[i], r.sync, 1));
  }

  lemma DispatchListed(c: Cfqd, i: nat, r: Rq)
    requires Listed(c) && i < |c.queues| && Loose(c.queues[i]) && r in c.queues[i].tree
    ensures Bounded(c) && r in c.queues[i].fifo && Listed(DispatchInsert(c, i, r))
  {
    DispatchForm(c, i, r);
    SentTail(DelRb(Put(c, i, Unlisted(c.pol, c.queues[i], r)), i, r), i, r);
  }

  lemma DispatchSends(c: Cfqd, i: nat, r: Rq)
    requires Listed(c) && i < |c.queues| && Loose(c.queues[i]) && r in c.queues[i].tree
    ensures Bounded(c) && r in c.queues[i].fifo
    ensures var d := DispatchInsert(c, i, r);
            && d.queues == c.queues[i := Sent(c.pol, c.queues[i], r)]
            && d.sent == c.sent + [r] && d.pol == c.pol && d.active == c.active
  {
    DispatchForm(c, i, r);
    IssuedForm(c.pol, c.queues[i], r);
  }

  lemma IssuedForm(pol: Policy, q: Cfqq, r: Rq)
    requires Loose(q) && r in q.tree
    ensures Issued(Erased(pol, Unlisted(pol, q, r), r).(onRr := Sent(pol, q, r).onRr), r.sync, 1) == Sent(pol, q, r)
  {
    SentForm(pol, q, r);
  }

  // ---------------------------------------------------------------- adding to a tree

  /** The queue after the loop of cfq_add_crq_rb. */
  function Evicted(pol: Policy, q: Cfqq, s: nat): Cfqq
    requires Backed(q) && Sorted(q.tree)
  {
    AliasFound(q.tree, s);
    var x := Alias(q.tree, s);
    if x.Some? then Sent(pol, q, x.value) else q
  }

  function AddedQueue(pol: Policy, q: Cfqq, r: Rq): Cfqq
    requires Backed(q) && Sorted(q.tree)
  {
    var e := Evicted(pol, Queued(q, r.sync, 1), r.sector);
    e.(tree := Insert(e.tree, r), onRr := true, next := ChooseReq(pol, e.next, Some(r)))
  }

  lemma EvictedLoose(pol: Policy, q: Cfqq, s: nat)
    requires Loose(q)
    ensures var e := Evicted(pol, q, s);
            && Loose(e)
            && (forall x :: x in e.tree <==> x in q.tree && x.sector != s)
            && (forall x :: x in e.fifo <==> x in q.fifo && (x.sector != s || x !in q.tree))
  {
    AliasFound(q.tree, s);
    var a := Alias(q.tree, s);
    if a.Some? {
      SentLoose(pol, q, a.value);
      forall x | x in q.tree && x.sector == s ensures x == a.value {
        if x != a.value { SortedApart(q.tree, x, a.value); }
      }
    }
  }

  lemma QueuedLoose(q: Cfqq, sync: bool, d: int)
    requires Loose(q)
    ensures Loose(Queued(q, sync, d))
    ensures forall s :: Excess(Queued(q, sync, d), s) == Excess(q, s) + if s == sync then d else 0
  {
  }

  lemma EvictedCounts(pol: Policy, q: Cfqq, s: nat)
    requires Loose(q)
    ensures forall k :: Excess(Evicted(pol, q, s), k) == Excess(q, k)
  {
    AliasFound(q.tree, s);
    var a := Alias(q.tree, s);
    if a.Some? { SentCounts(pol, q, a.value); }
  }

  lemma AddedCounts(pol: Policy, q: Cfqq, r: Rq)
    requires Loose(q)
    ensures forall s :: Excess(AddedQueue(pol, q, r), s) == Excess(q, s)
  {
    QueuedLoose(q, r.sync, 1);
    var q1 := Queued(q, r.sync, 1);
    EvictedCounts(pol, q1, r.sector);
    var e := Evicted(pol, q1, r.sector);
    CountInsert(e.tree, r, true);
    CountInsert(e.tree, r, false);
  }

  lemma AddedTree(pol: Policy, q: Cfqq, r: Rq)
    requires Loose(q)
    ensures var a := AddedQueue(pol, q, r);
            && Sorted(a.tree) && IdsDistinct(a.fifo) && a.onRr && a.next.Some? && a.next.value in a.tree
            && (forall x :: x in a.tree <==> x == r || (x in q.tree && x.sector != r.sector))
            && (forall x :: x in a.fifo <==> x in q.fifo && (x.sector != r.sector || x !in q.tree))
  {
    QueuedLoose(q, r.sync, 1);
    var q1 := Queued(q, r.sync, 1);
    EvictedLoose(pol, q1, r.sector);
    InsertSorted(Evicted(pol, q1, r.sector).tree, r);
  }

  lemma EvictForm(c: Cfqd, i: nat, s: nat)
    requires Listed(c) && i < |c.queues| && Loose(c.queues[i])
    ensures Bounded(c) && Listed(Evict(c, i, s))
    ensures var d := Evict(c, i, s);
            && d.queues == c.queues[i := Evicted(c.pol, c.queues[i], s)] && d.pol == c.pol && d.active == c.active
            && d.sent == c.sent + (if Alias(c.queues[i].tree, s).Some? then [Alias(c.queues[i].tree, s).value] else [])
  {
    ListedBounded(c);
    AliasFound(c.queues[i].tree, s);
    var x := Alias(c.queues[i].tree, s);
    if x.Some? {
      DispatchListed(c, i, x.value);
      DispatchSends(c, i, x.value);
    }
  }

  lemma EnteredListed(c: Cfqd, i: nat, r: Rq)
    requires Listed(c) && i < |c.queues|
    ensures Bounded(c) && Listed(Entered(c, i, r))
    ensures var d, q := Entered(c, i, r), c.queues[i];
            && d.queues == c.queues[i := q.(tree := Insert(q.tree, r), onRr := true, next := ChooseReq(c.pol, q.next, Some(r)))]
            && d.sent == c.sent && d.pol == c.pol && d.active == c.active
  {
    ListedBounded(c);
    var c2 := Put(c, i, c.queues[i].(tree := Insert(c.queues[i].tree, r)));
    PutListed(c, i, c2.queues[i]);
    if !c2.queues[i].onRr { AddRrListed(c2, i); }
    var c3 := if c2.queues[i].onRr then c2 else AddRr(c2, i);
    PutListed(c3, i, c3.queues[i].(next := ChooseReq(c.pol, c3.queues[i].next, Some(r))));
  }

  lemma AddForm(c: Cfqd, i: nat, r: Rq)
    requires Listed(c) && i < |c.queues| && Loose(c.queues[i])
    ensures Bounded(c) && Listed(AddRb(c, i, r))
    ensures var d := AddRb(c, i, r);
            && d.queues == c.queues[i := AddedQueue(c.pol, c.queues[i], r)] && d.pol == c.pol && d.active == c.active
  {
    ListedBounded(c);
    var q1 := Queued(c.queues[i], r.sync, 1);
    QueuedLoose(c.queues[i], r.sync, 1);
    PutListed(c, i, q1);
    EvictForm(Put(c, i, q1), i, r.sector);
    AddedForm(c, i, r, Evict(Put(c, i, q1), i, r.sector));
  }

  lemma AddedForm(c: Cfqd, i: nat, r: Rq, e: Cfqd)
    requires i < |c.queues| && Backed(c.queues[i]) && Sorted(c.queues[i].tree) && Listed(e)
    requires e.queues == c.queues[i := Evicted(c.pol, Queued(c.queues[i], r.sync, 1), r.sector)]
    requires e.pol == c.pol && e.active == c.active
    ensures Bounded(e) && Listed(Entered(e, i, r))
    ensures var d := Entered(e, i, r);
            && d.queues == c.queues[i := AddedQueue(c.pol, c.queues[i], r)] && d.pol == c.pol && d.active == c.active
  {
    EnteredListed(e, i, r);
  }

  // ---------------------------------------------------------------- the steps

  lemma PutInv(c: Cfqd, d: Cfqd, i: nat, q: Cfqq)
    requires Inv(c) && i < |c.queues| && Listed(d) && d.queues == c.queues[i := q] && Sane(q)
    ensures Inv(d)
  {
  }

  ghost predicate FreshId(q: Cfqq, id: nat) { forall x | x in q.fifo :: x.id != id }

  lemma InsertSane(pol: Policy, q: Cfqq, r: Rq)
    requires Sane(q) && FreshId(q, r.id)
    ensures var a := AddedQueue(pol, q, r); Sane(a.(fifo := a.fifo + [r]))
  {
    AddedTree(pol, q, r);
    AddedCounts(pol, q, r);
    var a := AddedQueue(pol, q, r);
    assert forall x | x in a.fifo :: x.id != r.id;
    IdsAppend(a.fifo, r);
  }

  lemma IdsAppend(fifo: seq<Rq>, r: Rq)
    requires IdsDistinct(fifo) && forall x | x in fifo :: x.id != r.id
    ensures IdsDistinct(fifo + [r])
  {
    IdsWith(fifo, |fifo|, r);
    assert fifo[..|fifo|] + [r] + fifo[|fifo|..] == fifo + [r];
  }

  lemma InsertInv(c: Cfqd, i: nat, r: Rq)
    requires Inv(c) && i < |c.queues| && FreshId(c.queues[i], r.id)
    ensures Inv(InsertRequest(c, i, r))
  {
    AddForm(c, i, r);
    InsertSane(c.pol, c.queues[i], r);
    var d, a := AddRb(c, i, r), AddedQueue(c.pol, c.queues[i], r);
    PutListed(d, i, a.(fifo := a.fifo + [r]));
    PutInv(c, InsertRequest(c, i, r), i, a.(fifo := a.fifo + [r]));
  }

  lemma {:induction false} CountReplaced(s: seq<Rq>, i: nat, g: Rq, sync: bool)
    requires i < |s| && g.sync == s[i].sync
    ensures CountSync(s[i := g], sync) == CountSync(s, sync)
  {
    if i == 0 {
      assert s[i := g][1..] == s[1..];
    } else {
      assert s[i := g][1..] == s[1..][i - 1 := g];
      CountReplaced(s[1..], i - 1, g, sync);
    }
  }

  lemma ReplacedSane(q: Cfqq, r: Rq, g: Rq)
    requires Sane(q) && r in q.tree && g.id == r.id && g.sync == r.sync && g.sector == r.sector
    ensures Sane(Replaced(q, r, g))
  {
    SortedDistinct(q.tree);
    IdsAreDistinct(q.fifo);
    ReplacedIn(q.tree, r, g);
    ReplacedIn(q.fifo, r, g);
    ReplacedSorted(q.tree, r, g);
    ReplacedIds(q.fifo, r, g);
    CountReplaced(q.tree, Place(q.tree, r), g, true);
    CountReplaced(q.tree, Place(q.tree, r), g, false);
    var t, f := q.tree[Place(q.tree, r) := g], q.fifo[Place(q.fifo, r) := g];
    assert t[Place(q.tree, r)] == g;
    forall x ensures x in t <==> x in f {
      assert x in q.tree <==> x in q.fifo;
    }
    assert Replaced(q, r, g).tree == t && Replaced(q, r, g).fifo == f;
  }

  lemma LiftedLoose(pol: Policy, q: Cfqq, r: Rq, g: Rq)
    requires Sane(q) && r in q.tree && g.id == r.id && g.sync == r.sync
    ensures var l := Lifted(pol, q, r, g);
            && Loose(l) && l.onRr
            && (forall x :: x in l.tree <==> x in q.tree && x != r)
            && (forall x :: x in l.fifo <==> x == g || (x in q.fifo && x != r))
            && (forall x | x in l.tree :: x.id != g.id)
  {
    LiftedBacked(pol, q, r, g);
    FoundNext(pol, q.tree, r);
    SortedDistinct(q.tree);
    IdsAreDistinct(q.fifo);
    PlaceUnique(q.tree, r);
    ReplacedIn(q.fifo, r, g);
    OthersDiffer(q.fifo, r);
  }

  lemma OthersDiffer(fifo: seq<Rq>, r: Rq)
    requires IdsDistinct(fifo) && r in fifo
    ensures forall x | x in fifo && x != r :: x.id != r.id
  {
    var p := Place(fifo, r);
    forall k | 0 <= k < |fifo| && fifo[k] != r ensures fifo[k].id != r.id {
    }
  }

  lemma LiftedCounts(pol: Policy, q: Cfqq, r: Rq, g: Rq)
    requires Sane(q) && r in q.tree && r in q.fifo
    ensures Excess(Lifted(pol, q, r, g), true) == 0 && Excess(Lifted(pol, q, r, g), false) == 0
  {
    CountWithout(q.tree, Place(q.tree, r), true);
    CountWithout(q.tree, Place(q.tree, r), false);
  }

  /** Once its one loose request is back in the tree, the queue is in order. */
  lemma AddedSane(pol: Policy, l: Cfqq, g: Rq)
    requires Loose(l) && Excess(l, true) == 0 && Excess(l, false) == 0
    requires g in l.fifo && g !in l.tree && forall x | x in l.fifo :: x == g || x in l.tree
    ensures Sane(AddedQueue(pol, l, g))
  {
    AddedTree(pol, l, g);
    AddedCounts(pol, l, g);
  }

  /** A front merge, even one that evicts an alias and for a moment empties the tree, leaves the queue in order. */
  lemma LiftedSane(pol: Policy, q: Cfqq, r: Rq, g: Rq)
    requires Sane(q) && r in q.tree && g.id == r.id && g.sync == r.sync && g.sector != r.sector
    ensures Loose(Lifted(pol, q, r, g)) && Lifted(pol, q, r, g).onRr && Sane(AddedQueue(pol, Lifted(pol, q, r, g), g))
  {
    LiftedLoose(pol, q, r, g);
    LiftedCounts(pol, q, r, g);
    AddedSane(pol, Lifted(pol, q, r, g), g);
  }

  lemma FrontMergedInv(c: Cfqd, i: nat, r: Rq, g: Rq)
    requires Inv(c) && i < |c.queues| && r in c.queues[i].tree && g.id == r.id && g.sync == r.sync && g.sector != r.sector
    ensures Inv(MergedRequest(c, i, r, g))
  {
    var q := c.queues[i];
    LiftedSane(c.pol, q, r, g);
    var l := Lifted(c.pol, q, r, g);
    PutListed(c, i, l);
    AddForm(Put(c, i, l), i, g);
    assert Put(c, i, l).queues[i := AddedQueue(c.pol, l, g)] == c.queues[i := AddedQueue(c.pol, l, g)];
    PutInv(c, AddRb(Put(c, i, l), i, g), i, AddedQueue(c.pol, l, g));
  }

  lemma MergedInv(c: Cfqd, i: nat, r: Rq, g: Rq)
    requires Inv(c) && i < |c.queues| && r in c.queues[i].tree && g.id == r.id && g.sync == r.sync
    ensures Inv(MergedRequest(c, i, r, g))
  {
    if g.sector == r.sector {
      ReplacedSane(c.queues[i], r, g);
      PutListed(c, i, Replaced(c.queues[i], r, g));
      PutInv(c, Put(c, i, Replaced(c.queues[i], r, g)), i, Replaced(c.queues[i], r, g));
    } else {
      FrontMergedInv(c, i, r, g);
    }
  }

  lemma RemoveInv(c: Cfqd, i: nat, r: Rq)
    requires Inv(c) && i < |c.queues| && r in c.queues[i].tree
    ensures Inv(RemoveRequest(c, i, r))
  {
    ListedBounded(c);
    var q := c.queues[i];
    var u := q.(fifo := Without(q.fifo, Place(q.fifo, r)));
    PutListed(c, i, u);
    DelRbListed(Put(c, i, u), i, r);
    var e := Erased(c.pol, u, r);
    RemovedSane(c.pol, q, r);
    assert Put(c, i, u).queues[i := e.(onRr := e.onRr && e.tree != [])] == c.queues[i := e.(onRr := e.onRr && e.tree != [])];
    PutInv(c, RemoveRequest(c, i, r), i, e.(onRr := e.onRr && e.tree != []));
  }

  lemma RemovedForm(pol: Policy, q: Cfqq, r: Rq)
    requires r in q.tree && r in q.fifo
    ensures var e := Erased(pol, q.(fifo := Without(q.fifo, Place(q.fifo, r))), r);
            e.(onRr := e.onRr && e.tree != []) ==
            Sent(pol, q, r).(outSync := q.outSync, outAsync := q.outAsync,
                             next := if q.next == Some(r) then FindNext(pol, q.tree, r) else q.next)
  {
    var f := Without(q.fifo, Place(q.fifo, r));
    var e := Erased(pol, q.(fifo := f), r);
    if r.sync {
      assert e == q.(queuedSync := q.queuedSync - 1, next := e.next, tree := e.tree, fifo := f);
    } else {
      assert e == q.(queuedAsync := q.queuedAsync - 1, next := e.next, tree := e.tree, fifo := f);
    }
  }

  lemma OtherNext(a: Cfqq, b: Cfqq)
    requires Sane(a) && b == a.(outSync := b.outSync, outAsync := b.outAsync, next := b.next)
    requires (b.next.Some? <==> a.tree != []) && (b.next.Some? ==> b.next.value in a.tree)
    ensures Sane(b)
  {
  }

  lemma RemovedSane(pol: Policy, q: Cfqq, r: Rq)
    requires Sane(q) && r in q.tree
    ensures var e := Erased(pol, q.(fifo := Without(q.fifo, Place(q.fifo, r))), r); Sane(e.(onRr := e.onRr && e.tree != []))
  {
    RemovedForm(pol, q, r);
    SentSane(pol, q, r);
    SentLoose(pol, q, r);
    FoundNext(pol, q.tree, r);
    var e := Erased(pol, q.(fifo := Without(q.fifo, Place(q.fifo, r))), r);
    OtherNext(Sent(pol, q, r), e.(onRr := e.onRr && e.tree != []));
  }

  lemma RepositionInv(c: Cfqd, i: nat, r: Rq, n: Rq)
    requires Inv(c) && i < |c.queues| && r in c.queues[i].fifo && n in c.queues[i].fifo && r != n
    ensures Inv(Reposition(c, i, r, n))
  {
    MoveBehindIn(c.queues[i].fifo, r, n);
    var q := c.queues[i].(fifo := MoveBehind(c.queues[i].fifo, r, n));
    PutListed(c, i, q);
    PutInv(c, Put(c, i, q), i, q);
  }

  lemma DispatchInv(c: Cfqd, i: nat, r: Rq)
    requires Inv(c) && i < |c.queues| && r in c.queues[i].tree
    ensures Bounded(c) && r in c.queues[i].fifo && Inv(DispatchInsert(c, i, r))
  {
    DispatchListed(c, i, r);
    DispatchSends(c, i, r);
    SentSane(c.pol, c.queues[i], r);
    PutInv(c, DispatchInsert(c, i, r), i, Sent(c.pol, c.queues[i], r));
  }

  lemma ListedIsBut(c: Cfqd, i: nat)
    requires Listed(c)
    ensures ListedBut(c, i)
  {
  }

  lemma ResortInv(c: Cfqd, i: nat, q: Cfqq, preempted: bool)
    requires Inv(c) && i < |c.queues| && c.queues[i].onRr && Sane(q) && q.onRr
    ensures Bounded(Put(c, i, q)) && Inv(Resort(Put(c, i, q), i, preempted))
    ensures var d := Resort(Put(c, i, q), i, preempted); d == Put(c, i, q).(lists := d.lists)
  {
    PutListed(c, i, q);
    ListedIsBut(Put(c, i, q), i);
    ResortListed(Put(c, i, q), i, preempted);
    PutInv(c, Resort(Put(c, i, q), i, preempted), i, q);
  }

  lemma SetPrioInv(c: Cfqd, i: nat, cls: Class, prio: Prio)
    requires Inv(c) && i < |c.queues|
    ensures Inv(SetPrio(c, i, cls, prio))
  {
    var q := c.queues[i].(cls := cls, prio := prio);
    if q.onRr {
      ResortInv(c, i, q, false);
    } else {
      PutListed(c, i, q);
      PutInv(c, Put(c, i, q), i, q);
    }
  }

  lemma CompletedInv(c: Cfqd, i: nat, sync: bool, now: int)
    requires Inv(c) && i < |c.queues|
    ensures Inv(Completed(c, i, sync, now))
  {
    ListedBounded(c);
    var q := Issued(c.queues[i], sync, -1);
    if q.Out() == 0 && q.onRr {
      ResortInv(c, i, q.(serviceLast := now), false);
      assert Put(Put(c, i, q), i, q.(serviceLast := now)) == Put(c, i, q.(serviceLast := now));
    } else {
      PutListed(c, i, q);
      PutInv(c, Put(c, i, q), i, q);
    }
  }

  lemma ActiveInv(c: Cfqd, x: Option<nat>)
    requires Inv(c) && (x.Some? ==> x.value < |c.queues|)
    ensures Inv(c.(active := x))
  {
  }

  lemma TakeOverInv(c: Cfqd, i: nat)
    requires Inv(c) && i < |c.queues|
    ensures Bounded(c) && Inv(TakeOver(c, i))
  {
    ListedBounded(c);
    var q := c.queues[i].(checked := false);
    assert Sane(c.queues[i]);
    if q.onRr {
      ResortInv(c, i, q, true);
      ActiveInv(Resort(Put(c, i, q), i, true), Some(i));
    } else {
      PutListed(c, i, q);
      PutInv(c, Put(c, i, q), i, q);
      ActiveInv(Put(c, i, q), Some(i));
    }
  }

  lemma SliceInv(c: Cfqd, preempted: bool, now: int)
    requires Inv(c)
    ensures Inv(SliceExpired(c, preempted, now)) && SliceExpired(c, preempted, now).active.None?
  {
    if c.active.Some? {
      ListedBounded(c);
      var i := c.active.value;
      var q := if !preempted && c.queues[i].Out() == 0 then c.queues[i].(serviceLast := now) else c.queues[i];
      assert Put(c, i, c.queues[i]) == c;
      if q.onRr {
        ResortInv(c, i, q, preempted);
        ActiveInv(Resort(Put(c, i, q), i, preempted), None);
      } else {
        PutListed(c, i, q);
        PutInv(c, Put(c, i, q), i, q);
        ActiveInv(Put(c, i, q), None);
      }
    }
  }

  lemma NewQueueInv(c: Cfqd, cls: Class, prio: Prio, own: bool)
    requires Inv(c)
    ensures Inv(NewQueue(c, cls, prio, own))
  {
    var n, d := |c.queues|, NewQueue(c, cls, prio, own);
    forall j: nat ensures Total(d.lists, j) == if j < |d.queues| then 1 else 0 {
      LinkCount(c.lists, EMPTY, 0, n, j);
    }
    forall j: nat | j < |d.queues| ensures j in d.lists[EMPTY] <==> !d.queues[j].onRr {
      LinkIn(c.lists, EMPTY, 0, n, j, EMPTY);
    }
    BusyAppend(c.queues, FreshQueue(cls, prio, own));
  }

  lemma {:induction false} BusyAppend(queues: seq<Cfqq>, q: Cfqq)
    ensures Busy(queues + [q]) == Busy(queues) + if q.onRr then 1 else 0
  {
    if queues == [] {
      assert queues + [q] == [q];
    } else {
      assert (queues + [q])[1..] == queues[1..] + [q];
      BusyAppend(queues[1..], q);
    }
  }

  lemma NextPrioInv(c: Cfqd)
    requires Inv(c)
    ensures Inv(NextPrioLevel(c)) && NextPrioLevel(c).queues == c.queues && NextPrioLevel(c).active == c.active
  {
    var (t, level) := NextLevel(c.turn, WaitingLevels(c));
    if level != -1 {
      forall j: nat ensures Total(Splice(c.lists, level, CUR), j) == Total(c.lists, j) {
        SpliceCount(c.lists, level, CUR, j);
      }
    }
  }
}
