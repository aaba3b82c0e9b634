/**
  CFQ's queues, service lists and lock-held steps.

  A queue is named by its index in `queues`; `lists` holds the eight rr_lists, busy_rr, cur_rr,
  idle_rr and empty_list, in that order.  Whether a slice is over, whether the scheduler idles for
  its owner, and whether the idle class has waited long enough are inputs of the steps, so that the
  invariants hold for every policy of the slice timers.  `sent` lists what went to the dispatch queue.
 */
module CfqQueues {
  import opened Wrappers
  import opened SortTree
  import opened CfqLists
  import opened CfqRotation

  datatype Class = RealTime | BestEffort | IdleClass

  type Prio = n: nat | n < LEVELS

  datatype Cfqq = Cfqq(
    tree: seq<Rq>,
    fifo: seq<Rq>,
    next: Option<Rq>,          // next_crq
    queuedAsync: int,
    queuedSync: int,
    outAsync: int,             // on_dispatch
    outSync: int,
    onRr: bool,
    cls: Class,
    prio: Prio,
    serviceLast: int,
    checked: bool,             // the fifo_expire flag
    own: bool)                 // the queue of one process, not the shared one for async writes
  {
    function Out(): int { outAsync + outSync }
  }

  datatype Policy = Policy(lastSector: nat, backMax: nat, backPenalty: nat, fifoAsync: nat, fifoSync: nat)

  datatype Cfqd = Cfqd(
    queues: seq<Cfqq>,
    lists: seq<seq<nat>>,
    busyQueues: int,
    turn: Turn,
    active: Option<nat>,
    sent: seq<Rq>,
    pol: Policy)

  const BUSY: nat := 8
  const CUR: nat := 9
  const IDLE: nat := 10
  const EMPTY: nat := 11
  const LISTS: nat := 12

  function FreshQueue(cls: Class, prio: Prio, own: bool): Cfqq {
    Cfqq([], [], None, 0, 0, 0, 0, false, cls, prio, 0, false, own)
  }

  function Fresh(pol: Policy): Cfqd {
    Cfqd([], [[], [], [], [], [], [], [], [], [], [], [], []], 0, Turn(0, 0), None, [], pol)
  }

  // ---------------------------------------------------------------- choosing a request

  predicate Wraps(pol: Policy, s: nat) { s < pol.lastSector && s + pol.backMax * 2 < pol.lastSector }

  function Distance(pol: Policy, s: nat): nat {
    if s >= pol.lastSector then s - pol.lastSector else (pol.lastSector - s) * pol.backPenalty
  }

  function Choose(pol: Policy, a: Rq, b: Rq): (r: Rq)
    ensures r == a || r == b
  {
    var w1, w2, d1, d2 := Wraps(pol, a.sector), Wraps(pol, b.sector), Distance(pol, a.sector), Distance(pol, b.sector);
    if a == b then b
    else if a.sync != b.sync then if a.sync then a else b
    else if !w1 && !w2 then if d1 < d2 then a else if d2 < d1 then b else if a.sector >= b.sector then a else b
    else if !w1 then a
    else if !w2 then b
    else if a.sector <= b.sector then a else b
  }

  /** cfq_choose_req. */
  function ChooseReq(pol: Policy, a: Option<Rq>, b: Option<Rq>): (r: Option<Rq>)
    ensures r.Some? <==> a.Some? || b.Some?
    ensures r == a || r == b
  {
    if a.None? then b else if b.None? then a else Some(Choose(pol, a.value, b.value))
  }

  /** cfq_find_next_crq. */
  function FindNext(pol: Policy, tree: seq<Rq>, r: Rq): Option<Rq>
    requires r in tree
  {
    ChooseReq(pol, NextNode(tree, Place(tree, r)), PrevNode(tree, Place(tree, r)))
  }

  // ---------------------------------------------------------------- the service lists

  function Put(c: Cfqd, i: nat, q: Cfqq): Cfqd
    requires i < |c.queues|
  {
    c.(queues := c.queues[i := q])
  }

  /** The lists name only queues that exist. */
  ghost predicate Bounded(c: Cfqd) {
    |c.lists| == LISTS && forall k, x | 0 <= k < LISTS && x in c.lists[k] :: x < |c.queues|
  }

  /** The list cfq_resort_rr_list picks. */
  function Home(q: Cfqq): (k: nat)
    ensures k < EMPTY
  {
    match q.cls
    case RealTime => CUR
    case IdleClass => IDLE
    case BestEffort => if q.Out() != 0 then BUSY else q.prio
  }

  /** The scan from the tail: behind the last queue that was never served or was served earlier. */
  function SortSpot(queues: seq<Cfqq>, list: seq<nat>, t: int): (p: nat)
    requires forall k | 0 <= k < |list| :: list[k] < |queues|
    ensures p <= |list|
  {
    if list == [] then 0
    else
      var last := queues[list[|list| - 1]].serviceLast;
      if last == 0 || last < t then |list| else SortSpot(queues, list[..|list| - 1], t)
  }

  /** A preempted queue is put before the last one of the list, whatever the comment there says. */
  function Spot(queues: seq<Cfqq>, list: seq<nat>, home: nat, t: int, preempted: bool): (p: nat)
    requires forall k | 0 <= k < |list| :: list[k] < |queues|
    ensures p <= |list|
  {
    if preempted then if list == [] then 0 else |list| - 1
    else if home == BUSY then |list|
    else SortSpot(queues, list, t)
  }

  /** cfq_resort_rr_list. */
  function Resort(c: Cfqd, i: nat, preempted: bool): Cfqd
    requires Bounded(c) && i < |c.queues|
  {
    UnlinkBounded(c.lists, i, |c.queues|);
    var ls, home := Unlink(c.lists, i), Home(c.queues[i]);
    assert forall k | 0 <= k < |ls[home]| :: ls[home][k] in ls[home];
    c.(lists := Link(ls, home, Spot(c.queues, ls[home], home, c.queues[i].serviceLast, preempted), i))
  }

  lemma UnlinkBounded(ls: seq<seq<nat>>, i: nat, n: nat)
    requires forall k, x | 0 <= k < |ls| && x in ls[k] :: x < n
    ensures |Unlink(ls, i)| == |ls| && forall k, x | 0 <= k < |ls| && x in Unlink(ls, i)[k] :: x < n
  {
    UnlinkCount(ls, i, i);
    forall k, x | 0 <= k < |ls| && x in Unlink(ls, i)[k] ensures x < n { InDrop(ls[k], i, x); }
  }

  /** cfq_add_cfqq_rr. */
  function AddRr(c: Cfqd, i: nat): Cfqd
    requires Bounded(c) && i < |c.queues|
  {
    Resort(Put(c, i, c.queues[i].(onRr := true)).(busyQueues := c.busyQueues + 1), i, false)
  }

  /** cfq_del_cfqq_rr. */
  function DelRr(c: Cfqd, i: nat): Cfqd
    requires |c.lists| == LISTS && i < |c.queues|
  {
    UnlinkCount(c.lists, i, i);
    Put(c, i, c.queues[i].(onRr := false)).(lists := Link(Unlink(c.lists, i), EMPTY, 0, i), busyQueues := c.busyQueues - 1)
  }

  // ---------------------------------------------------------------- the tree and the FIFO of a queue

  function Queued(q: Cfqq, sync: bool, d: int): Cfqq {
    if sync then q.(queuedSync := q.queuedSync + d) else q.(queuedAsync := q.queuedAsync + d)
  }

  function Issued(q: Cfqq, sync: bool, d: int): Cfqq {
    if sync then q.(outSync := q.outSync + d) else q.(outAsync := q.outAsync + d)
  }

  /** cfq_del_crq_rb as far as the queue is concerned. */
  function Erased(pol: Policy, q: Cfqq, r: Rq): Cfqq
    requires r in q.tree
  {
    Queued(q, r.sync, -1).(next := if q.next == Some(r) then FindNext(pol, q.tree, r) else q.next,
                           tree := Without(q.tree, Place(q.tree, r)))
  }

  /** cfq_del_crq_rb. */
  function DelRb(c: Cfqd, i: nat, r: Rq): Cfqd
    requires Bounded(c) && i < |c.queues| && r in c.queues[i].tree
  {
    var c1 := Put(c, i, Erased(c.pol, c.queues[i], r));
    if c.queues[i].onRr && c1.queues[i].tree == [] then DelRr(c1, i) else c1
  }

  /** The queue after the first two lines of cfq_dispatch_insert. */
  function Unlisted(pol: Policy, q: Cfqq, r: Rq): Cfqq
    requires r in q.tree && r in q.fifo
  {
    q.(next := FindNext(pol, q.tree, r), fifo := Without(q.fifo, Place(q.fifo, r)))
  }

  /** cfq_dispatch_insert. */
  function DispatchInsert(c: Cfqd, i: nat, r: Rq): Cfqd
    requires Bounded(c) && i < |c.queues| && r in c.queues[i].tree && r in c.queues[i].fifo
  {
    var c1 := DelRb(Put(c, i, Unlisted(c.pol, c.queues[i], r)), i, r);
    Put(c1, i, Issued(c1.queues[i], r.sync, 1)).(sent := c1.sent + [r])
  }

  /** The queue's tree holds only requests of its FIFO. */
  predicate Backed(q: Cfqq) { forall r | r in q.tree :: r in q.fifo }

  /** The loop of cfq_add_crq_rb: a request at the sector is sent first. */
  function Evict(c: Cfqd, i: nat, s: nat): Cfqd
    requires Bounded(c) && i < |c.queues| && Backed(c.queues[i]) && Sorted(c.queues[i].tree)
  {
    var x := Alias(c.queues[i].tree, s);
    AliasFound(c.queues[i].tree, s);
    if x.Some? then DispatchInsert(c, i, x.value) else c
  }

  /** The second half of cfq_add_crq_rb, the sector being free. */
  function Entered(c: Cfqd, i: nat, r: Rq): Cfqd
    requires Bounded(c) && i < |c.queues|
  {
    var c2 := Put(c, i, c.queues[i].(tree := Insert(c.queues[i].tree, r)));
    var c3 := if c2.queues[i].onRr then c2 else AddRr(c2, i);
    Put(c3, i, c3.queues[i].(next := ChooseReq(c.pol, c3.queues[i].next, Some(r))))
  }

  /** cfq_add_crq_rb. */
  function AddRb(c: Cfqd, i: nat, r: Rq): Cfqd
    requires Bounded(c) && i < |c.queues| && Backed(c.queues[i]) && Sorted(c.queues[i].tree)
  {
    EvictBounded(Put(c, i, Queued(c.queues[i], r.sync, 1)), i, r.sector);
    Entered(Evict(Put(c, i, Queued(c.queues[i], r.sync, 1)), i, r.sector), i, r)
  }

  lemma LinkBounded(ls: seq<seq<nat>>, m: nat, pos: nat, i: nat, n: nat)
    requires m < |ls| && pos <= |ls[m]| && i < n && forall k, x | 0 <= k < |ls| && x in ls[k] :: x < n
    ensures |Link(ls, m, pos, i)| == |ls| && forall k, x | 0 <= k < |ls| && x in Link(ls, m, pos, i)[k] :: x < n
  {
    forall k, x | 0 <= k < |ls| && x in Link(ls, m, pos, i)[k] ensures x < n {
      assert x == i || x in ls[k];
    }
  }

  lemma EvictBounded(c: Cfqd, i: nat, s: nat)
    requires Bounded(c) && i < |c.queues| && Backed(c.queues[i]) && Sorted(c.queues[i].tree)
    ensures Bounded(Evict(c, i, s)) && |Evict(c, i, s).queues| == |c.queues|
  {
    AliasFound(c.queues[i].tree, s);
    var x := Alias(c.queues[i].tree, s);
    if x.Some? { DispatchBounded(c, i, x.value); }
  }

  lemma DispatchBounded(c: Cfqd, i: nat, r: Rq)
    requires Bounded(c) && i < |c.queues| && r in c.queues[i].tree && r in c.queues[i].fifo
    ensures Bounded(DispatchInsert(c, i, r)) && |DispatchInsert(c, i, r).queues| == |c.queues|
  {
    UnlinkBounded(c.lists, i, |c.queues|);
    LinkBounded(Unlink(c.lists, i), EMPTY, 0, i, |c.queues|);
  }

  // ---------------------------------------------------------------- what holds between steps

  function CountSync(s: seq<Rq>, sync: bool): nat {
    if s == [] then 0 else (if s[0].sync == sync then 1 else 0) + CountSync(s[1..], sync)
  }

  /** What holds of a queue even while a request is on its way from one place of the tree to another. */
  ghost predicate Loose(q: Cfqq) {
    && Sorted(q.tree) && IdsDistinct(q.fifo) && Backed(q)
    && (q.next.Some? <==> q.tree != [])
    && (q.next.Some? ==> q.next.value in q.tree)
    && (q.tree != [] ==> q.onRr)
  }

  /** How far the queued counter of a kind is ahead of the tree. */
  function Excess(q: Cfqq, sync: bool): int {
    (if sync then q.queuedSync else q.queuedAsync) - CountSync(q.tree, sync)
  }

  ghost predicate Sane(q: Cfqq) {
    && Loose(q) && (q.onRr ==> q.tree != []) && (forall r | r in q.fifo :: r in q.tree)
    && Excess(q, true) == 0 && Excess(q, false) == 0
  }

  function Busy(queues: seq<Cfqq>): nat {
    if queues == [] then 0 else (if queues[0].onRr then 1 else 0) + Busy(queues[1..])
  }

  /** Every queue is on exactly one list, on the empty list iff it has nothing to be served. */
  ghost predicate Listed(c: Cfqd) {
    && |c.lists| == LISTS
    && (forall i: nat :: Total(c.lists, i) == if i < |c.queues| then 1 else 0)
    && (forall i: nat | i < |c.queues| :: i in c.lists[EMPTY] <==> !c.queues[i].onRr)
    && c.busyQueues == Busy(c.queues)
    && c.turn.Valid()
    && (c.active.Some? ==> c.active.value < |c.queues|)
  }

  ghost predicate Inv(c: Cfqd) {
    Listed(c) && forall i | 0 <= i < |c.queues| :: Sane(c.queues[i])
  }

  lemma ListedBounded(c: Cfqd)
    requires Listed(c)
    ensures Bounded(c)
  {
    forall k, x | 0 <= k < LISTS && x in c.lists[k] ensures x < |c.queues| { OnSome(c.lists, x); }
  }

  // ---------------------------------------------------------------- the steps

  function NewQueue(c: Cfqd, cls: Class, prio: Prio, own: bool): Cfqd
    requires |c.lists| == LISTS
  {
    c.(queues := c.queues + [FreshQueue(cls, prio, own)], lists := Link(c.lists, EMPTY, 0, |c.queues|))
  }

  /** cfq_init_prio_data. */
  function SetPrio(c: Cfqd, i: nat, cls: Class, prio: Prio): Cfqd
    requires Listed(c) && i < |c.queues|
  {
    ListedBounded(c);
    var c1 := Put(c, i, c.queues[i].(cls := cls, prio := prio));
    if c.queues[i].onRr then Resort(c1, i, false) else c1
  }

  /** cfq_insert_request. */
  function InsertRequest(c: Cfqd, i: nat, r: Rq): Cfqd
    requires Inv(c) && i < |c.queues|
  {
    ListedBounded(c);
    var c1 := AddRb(c, i, r);
    AddBounded(c, i, r);
    Put(c1, i, c1.queues[i].(fifo := c1.queues[i].fifo + [r]))
  }

  lemma AddBounded(c: Cfqd, i: nat, r: Rq)
    requires Bounded(c) && i < |c.queues| && Backed(c.queues[i]) && Sorted(c.queues[i].tree)
    ensures |AddRb(c, i, r).queues| == |c.queues|
  {
    EvictBounded(Put(c, i, Queued(c.queues[i], r.sync, 1)), i, r.sector);
  }

  /** The request grew in place: its node stays where it is. */
  function Replaced(q: Cfqq, r: Rq, g: Rq): Cfqq
    requires r in q.tree && r in q.fifo
  {
    q.(tree := q.tree[Place(q.tree, r) := g], fifo := q.fifo[Place(q.fifo, r) := g],
       next := if q.next == Some(r) then Some(g) else q.next)
  }

  /** The request grew at its front: it is taken out of the tree, to be put back at its new sector. */
  function Lifted(pol: Policy, q: Cfqq, r: Rq, g: Rq): Cfqq
    requires r in q.tree && r in q.fifo
  {
    Queued(q, r.sync, -1).(next := if q.next == Some(r) then FindNext(pol, q.tree, r) else q.next,
                           tree := Without(q.tree, Place(q.tree, r)),
                           fifo := q.fifo[Place(q.fifo, r) := g])
  }

  lemma LiftedBacked(pol: Policy, q: Cfqq, r: Rq, g: Rq)
    requires Sane(q) && r in q.tree
    ensures Backed(Lifted(pol, q, r, g)) && Sorted(Lifted(pol, q, r, g).tree)
  {
    SortedDistinct(q.tree);
    PlaceUnique(q.tree, r);
    WithoutSorted(q.tree, Place(q.tree, r));
    forall x | x in q.fifo && x != r ensures x in q.fifo[Place(q.fifo, r) := g] {
      var k :| 0 <= k < |q.fifo| && q.fifo[k] == x;
      assert q.fifo[Place(q.fifo, r) := g][k] == x;
    }
  }

  /** cfq_merged_request: request r of queue i has become g. */
  function MergedRequest(c: Cfqd, i: nat, r: Rq, g: Rq): Cfqd
    requires Inv(c) && i < |c.queues| && r in c.queues[i].tree
  {
    ListedBounded(c);
    if g.sector == r.sector then Put(c, i, Replaced(c.queues[i], r, g))
    else
      LiftedBacked(c.pol, c.queues[i], r, g);
      AddRb(Put(c, i, Lifted(c.pol, c.queues[i], r, g)), i, g)
  }

  /** cfq_completed_request. */
  function Completed(c: Cfqd, i: nat, sync: bool, now: int): Cfqd
    requires Inv(c) && i < |c.queues|
  {
    ListedBounded(c);
    var c1 := Put(c, i, Issued(c.queues[i], sync, -1));
    if c1.queues[i].Out() == 0 && c1.queues[i].onRr then
      Resort(Put(c1, i, c1.queues[i].(serviceLast := now)), i, false)
    else c1
  }

  /** cfq_slice_expired. */
  function SliceExpired(c: Cfqd, preempted: bool, now: int): Cfqd
    requires Inv(c)
  {
    if c.active.None? then c
    else
      ListedBounded(c);
      var i := c.active.value;
      var c1 := if !preempted && c.queues[i].Out() == 0 then Put(c, i, c.queues[i].(serviceLast := now)) else c;
      (if c.queues[i].onRr then Resort(c1, i, preempted) else c1).(active := None)
  }

  function WaitingLevels(c: Cfqd): Waiting
    requires |c.lists| == LISTS
  {
    seq(LEVELS, k requires 0 <= k < LEVELS => c.lists[k] != [])
  }

  /** cfq_get_next_prio_level with its splice. */
  function NextPrioLevel(c: Cfqd): Cfqd
    requires |c.lists| == LISTS && c.turn.Valid()
  {
    var (t, level) := NextLevel(c.turn, WaitingLevels(c));
    if level == -1 then c.(turn := t) else c.(turn := t, lists := Splice(c.lists, level, CUR))
  }

  /** The queue cfq_set_active_queue picks; `grace` says that the idle class has waited long enough. */
  function Pick(c: Cfqd, grace: bool): Option<nat>
    requires |c.lists| == LISTS
  {
    if c.lists[CUR] != [] then Some(c.lists[CUR][0])
    else if c.lists[BUSY] != [] then Some(c.lists[BUSY][0])
    else if c.lists[IDLE] != [] && grace then Some(c.lists[IDLE][0])
    else None
  }

  /** cfq_set_active_queue. */
  function SetActive(c: Cfqd, grace: bool): Cfqd
    requires Listed(c)
  {
    var c1 := if c.lists[CUR] != [] then c else NextPrioLevel(c);
    var x := Pick(c1, grace);
    if x.None? || x.value >= |c1.queues| then c1.(active := None)
    else Put(c1, x.value, c1.queues[x.value].(checked := false)).(active := x)
  }

  /** The end of cfq_preempt_queue: queue i is resorted and becomes the active one. */
  function TakeOver(c: Cfqd, i: nat): Cfqd
    requires Bounded(c) && i < |c.queues|
  {
    var d := Put(c, i, c.queues[i].(checked := false));
    (if d.queues[i].onRr then Resort(d, i, true) else d).(active := Some(i))
  }

  /** cfq_remove_request, for a request absorbed by its neighbour. */
  function RemoveRequest(c: Cfqd, i: nat, r: Rq): Cfqd
    requires Inv(c) && i < |c.queues| && r in c.queues[i].tree
  {
    ListedBounded(c);
    var q := c.queues[i];
    DelRb(Put(c, i, q.(fifo := Without(q.fifo, Place(q.fifo, r)))), i, r)
  }

  function Reposition(c: Cfqd, i: nat, r: Rq, n: Rq): Cfqd
    requires i < |c.queues| && r in c.queues[i].fifo && n in c.queues[i].fifo && r != n
  {
    Put(c, i, c.queues[i].(fifo := MoveBehind(c.queues[i].fifo, r, n)))
  }
}
