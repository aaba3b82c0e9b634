/** CFQ over every run: service lists, counters and next pointers agree, and a busy scheduler finds a queue. */
module CfqTheorems {
  import opened Wrappers
  import opened SortTree
  import opened CfqLists
  import opened CfqRotation
  import opened CfqQueues
  import opened CfqInvariant

  // ---------------------------------------------------------------- choosing a queue

  /** A queue found on a service list has something to dispatch. */
  lemma ServedHasRequests(c: Cfqd, k: nat, i: nat)
    requires Inv(c) && k < EMPTY && i in c.lists[k]
    ensures i < |c.queues| && c.queues[i].tree != [] && c.queues[i].next.Some? && c.queues[i].next.value in c.queues[i].tree
  {
    OnSome(c.lists, i);
    assert i !in c.lists[EMPTY] by {
      if i in c.lists[EMPTY] { OnOne(c.lists, i, k, EMPTY); }
    }
    assert Sane(c.queues[i]);
  }

  lemma {:induction false} BusySome(queues: seq<Cfqq>)
    ensures Busy(queues) > 0 <==> exists i :: 0 <= i < |queues| && queues[i].onRr
  {
    if queues != [] {
      BusySome(queues[1..]);
      if i :| 0 <= i < |queues| && queues[i].onRr { assert i > 0 ==> queues[1..][i - 1].onRr; }
      if i :| 0 <= i < |queues[1..]| && queues[1..][i].onRr { assert queues[i + 1].onRr; }
    }
  }

  /** busy_queues is positive exactly when some service list is not empty. */
  lemma BusyMeansListed(c: Cfqd)
    requires Inv(c)
    ensures c.busyQueues > 0 <==> exists k :: 0 <= k < EMPTY && c.lists[k] != []
  {
    BusySome(c.queues);
    if i :| 0 <= i < |c.queues| && c.queues[i].onRr {
      OnSome(c.lists, i);
      var k :| 0 <= k < |c.lists| && i in c.lists[k];
      assert k != EMPTY;
    }
    if k :| 0 <= k < EMPTY && c.lists[k] != [] {
      ServedHasRequests(c, k, c.lists[k][0]);
      assert Sane(c.queues[c.lists[k][0]]);
    }
  }

  /** The rotation comes back with a level exactly when a level is waiting, and then cur_rr is filled. */
  lemma LevelFound(c: Cfqd)
    requires Inv(c) && c.lists[CUR] == []
    ensures NextPrioLevel(c).lists[CUR] != [] <==> exists k :: 0 <= k < LEVELS && c.lists[k] != []
    ensures NextPrioLevel(c).lists[BUSY] == c.lists[BUSY] && NextPrioLevel(c).lists[IDLE] == c.lists[IDLE]
  {
    var w := WaitingLevels(c);
    var (t, level) := NextLevel(c.turn, w);
    RotatedIsNextLevel(c.turn, w, t, level);
    if level == -1 {
      forall k | 0 <= k < LEVELS ensures c.lists[k] == [] { assert !w[k]; }
    } else {
      assert w[level];
    }
  }

  lemma PickedServed(c: Cfqd, grace: bool)
    requires Inv(c)
    ensures Pick(c, grace).Some? ==>
      Pick(c, grace).value < |c.queues| && c.queues[Pick(c, grace).value].tree != []
  {
    if c.lists[CUR] != [] { ServedHasRequests(c, CUR, c.lists[CUR][0]); }
    else if c.lists[BUSY] != [] { ServedHasRequests(c, BUSY, c.lists[BUSY][0]); }
    else if c.lists[IDLE] != [] { ServedHasRequests(c, IDLE, c.lists[IDLE][0]); }
  }

  lemma ActivateInv(c: Cfqd, grace: bool)
    requires Inv(c)
    ensures Inv(SetActive(c, grace))
    ensures var d := SetActive(c, grace); d.active.Some? ==> d.active.value < |d.queues| && d.queues[d.active.value].tree != []
  {
    if c.lists[CUR] == [] { NextPrioInv(c); }
    var c1 := if c.lists[CUR] != [] then c else NextPrioLevel(c);
    PickedServed(c1, grace);
    var x := Pick(c1, grace);
    if x.Some? {
      var q := c1.queues[x.value].(checked := false);
      assert Sane(c1.queues[x.value]);
      PutListed(c1, x.value, q);
      PutInv(c1, Put(c1, x.value, q), x.value, q);
      ActiveInv(Put(c1, x.value, q), x);
    } else {
      ActiveInv(c1, None);
    }
  }

  /** Somebody is chosen unless only idle-class queues wait and their grace period is not over. */
  lemma ActivateFinds(c: Cfqd, grace: bool)
    requires Inv(c)
    ensures SetActive(c, grace).active.Some? <==>
      (exists k :: 0 <= k < IDLE && c.lists[k] != []) || (grace && c.lists[IDLE] != [])
  {
    if c.lists[CUR] == [] {
      NextPrioInv(c);
      LevelFound(c);
    }
    var c1 := if c.lists[CUR] != [] then c else NextPrioLevel(c);
    PickedServed(c1, grace);
    if k :| 0 <= k < IDLE && c.lists[k] != [] {
      assert k < LEVELS || k == BUSY || k == CUR;
    }
  }

  lemma CurServed(c: Cfqd, i: nat)
    requires Inv(c) && i in c.lists[CUR]
    ensures Bounded(c) && i < |c.queues| && c.queues[i].onRr
  {
    ListedBounded(c);
    if !c.queues[i].onRr { OnOne(c.lists, i, CUR, EMPTY); }
  }

  lemma PutBackInv(c: Cfqd, i: nat)
    requires Inv(c) && i in c.lists[CUR]
    ensures Bounded(c) && i < |c.queues| && Inv(Resort(c, i, true))
    ensures Resort(c, i, true) == c.(lists := Resort(c, i, true).lists)
  {
    CurServed(c, i);
    assert Put(c, i, c.queues[i]) == c;
    assert Sane(c.queues[i]);
    ResortInv(c, i, c.queues[i], true);
  }

  // ---------------------------------------------------------------- runs

  /** `PutBack` is one round of the loop of cfq_preempt_queue, `Preempt` what follows the loop. */
  datatype Step =
    | New(cls: Class, prio: Prio, own: bool)
    | Reprioritise(i: nat, cls: Class, prio: Prio)
    | Insert(i: nat, r: Rq)
    | Merge(i: nat, r: Rq, g: Rq)
    | Reorder(i: nat, r: Rq, n: Rq)
    | Absorb(i: nat, r: Rq)
    | Complete(i: nat, sync: bool, now: int)
    | Expire(preempted: bool, now: int)
    | Activate(grace: bool)
    | PutBack(i: nat)
    | Preempt(i: nat)
    | Send(i: nat, r: Rq)

  /** What the callers of the scheduler keep to. */
  ghost predicate Permitted(c: Cfqd, s: Step) {
    match s
    case New(_, _, _) => true
    case Reprioritise(i, _, _) => i < |c.queues|
    case Insert(i, r) => i < |c.queues| && FreshId(c.queues[i], r.id)
    case Merge(i, r, g) => i < |c.queues| && r in c.queues[i].tree && g.id == r.id && g.sync == r.sync
    case Reorder(i, r, n) => i < |c.queues| && r in c.queues[i].fifo && n in c.queues[i].fifo && r != n
    case Absorb(i, r) => i < |c.queues| && r in c.queues[i].tree
    case Complete(i, sync, _) => i < |c.queues|
    case Expire(_, _) => true
    case Activate(_) => true
    case PutBack(i) => |c.lists| == LISTS && i in c.lists[CUR]
    case Preempt(i) => i < |c.queues|
    case Send(i, r) => i < |c.queues| && r in c.queues[i].tree
  }

  ghost function Apply(c: Cfqd, s: Step): Cfqd
    requires Inv(c) && Permitted(c, s)
  {
    match s
    case New(cls, prio, own) => NewQueue(c, cls, prio, own)
    case Reprioritise(i, cls, prio) => SetPrio(c, i, cls, prio)
    case Insert(i, r) => InsertRequest(c, i, r)
    case Merge(i, r, g) => MergedRequest(c, i, r, g)
    case Reorder(i, r, n) => Reposition(c, i, r, n)
    case Absorb(i, r) => RemoveRequest(c, i, r)
    case Complete(i, sync, now) => Completed(c, i, sync, now)
    case Expire(preempted, now) => SliceExpired(c, preempted, now)
    case Activate(grace) => SetActive(c, grace)
    case PutBack(i) =>
      ListedBounded(c);
      Resort(c, i, true)
    case Preempt(i) =>
      ListedBounded(c);
      TakeOver(c, i)
    case Send(i, r) =>
      ListedBounded(c);
      assert Sane(c.queues[i]);
      DispatchInsert(c, i, r)
  }

  lemma StepInv(c: Cfqd, s: Step)
    requires Inv(c) && Permitted(c, s)
    ensures Inv(Apply(c, s))
  {
    match s
    case New(cls, prio, own) => NewQueueInv(c, cls, prio, own);
    case Reprioritise(i, cls, prio) => SetPrioInv(c, i, cls, prio);
    case Insert(i, r) => InsertInv(c, i, r);
    case Merge(i, r, g) => MergedInv(c, i, r, g);
    case Reorder(i, r, n) => RepositionInv(c, i, r, n);
    case Absorb(i, r) => RemoveInv(c, i, r);
    case Complete(i, sync, now) => CompletedInv(c, i, sync, now);
    case Expire(preempted, now) => SliceInv(c, preempted, now);
    case Activate(grace) => ActivateInv(c, grace);
    case PutBack(i) => PutBackInv(c, i);
    case Preempt(i) => TakeOverInv(c, i);
    case Send(i, r) => DispatchInv(c, i, r);
  }

  /** A run of permitted steps.  It would stop where the invariant is lost; that it never does is `RunInv`. */
  ghost predicate Runs(c: Cfqd, steps: seq<Step>)
    decreases |steps|
  {
    steps == [] || (Permitted(c, steps[0]) && (Inv(c) ==> Runs(Apply(c, steps[0]), steps[1..])))
  }

  /** The last state of a run, or the first one in which the invariant is lost. */
  ghost function After(c: Cfqd, steps: seq<Step>): Cfqd
    requires Runs(c, steps)
    decreases |steps|
  {
    if steps == [] || !Inv(c) then c else After(Apply(c, steps[0]), steps[1..])
  }

  lemma {:induction false} RunInv(c: Cfqd, steps: seq<Step>)
    requires Inv(c) && Runs(c, steps)
    ensures Inv(After(c, steps))
    decreases |steps|
  {
    if steps != [] {
      StepInv(c, steps[0]);
      RunInv(Apply(c, steps[0]), steps[1..]);
    }
  }

  lemma {:induction false} NoneListed(ls: seq<seq<nat>>, j: nat)
    requires forall k | 0 <= k < |ls| :: ls[k] == []
    ensures Total(ls, j) == 0
  {
    if ls != [] { NoneListed(ls[1..], j); }
  }

  lemma FreshInv(pol: Policy)
    ensures Inv(Fresh(pol))
  {
    forall j: nat ensures Total(Fresh(pol).lists, j) == 0 { NoneListed(Fresh(pol).lists, j); }
  }

  /** In every run a queue is on exactly one service list if it has requests and on none otherwise. */
  lemma OnOneServiceList(pol: Policy, steps: seq<Step>, i: nat, k: nat, m: nat)
    requires Runs(Fresh(pol), steps)
    requires i < |After(Fresh(pol), steps).queues| && k < EMPTY && m < EMPTY
    ensures var c := After(Fresh(pol), steps);
            && |c.lists| == LISTS
            && (c.queues[i].tree != [] <==> exists l :: 0 <= l < EMPTY && i in c.lists[l])
            && (i in c.lists[k] && i in c.lists[m] ==> k == m)
  {
    FreshInv(pol);
    RunInv(Fresh(pol), steps);
    var c := After(Fresh(pol), steps);
    OnSome(c.lists, i);
    assert Sane(c.queues[i]);
    if i in c.lists[k] && i in c.lists[m] { OnOne(c.lists, i, k, m); }
    if l :| 0 <= l < EMPTY && i in c.lists[l] { ServedHasRequests(c, l, i); }
    if c.queues[i].tree != [] {
      var l :| 0 <= l < |c.lists| && i in c.lists[l];
      assert l != EMPTY;
    }
  }

  /** In every run the indexes of a queue hold the same requests and its next pointer is one of them. */
  lemma QueueIndexesAgree(pol: Policy, steps: seq<Step>, i: nat)
    requires Runs(Fresh(pol), steps) && i < |After(Fresh(pol), steps).queues|
    ensures var q := After(Fresh(pol), steps).queues[i];
            && (forall r :: r in q.tree <==> r in q.fifo)
            && (q.next.None? <==> q.tree == []) && (q.next.Some? ==> q.next.value in q.tree)
            && q.queuedSync == CountSync(q.tree, true) && q.queuedAsync == CountSync(q.tree, false)
            && (q.onRr <==> q.tree != [])
    ensures var c := After(Fresh(pol), steps); c.busyQueues == Busy(c.queues)
  {
    FreshInv(pol);
    RunInv(Fresh(pol), steps);
    assert Sane(After(Fresh(pol), steps).queues[i]);
  }

  /** A preempted queue comes first on its list, as the comment beside the code has it, exactly if at most one other is there. */
  lemma PreemptedGoesFirst(c: Cfqd, i: nat)
    requires Bounded(c) && i < |c.queues|
    ensures var home, lists := Home(c.queues[i]), Resort(c, i, true).lists;
            && |lists| == LISTS && lists[home] != []
            && (lists[home][0] == i <==> |Drop(c.lists[home], i)| <= 1)
  {
    var home := Home(c.queues[i]);
    UnlinkCount(c.lists, i, i);
    UnlinkBounded(c.lists, i, |c.queues|);
    var others := Unlink(c.lists, i)[home];
    if others != [] { InDrop(c.lists[home], i, others[0]); }
  }
}
