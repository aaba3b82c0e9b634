/**
  The loop of cfq_preempt_queue: it walks the current list, remembering the next queue before it
  resorts the one at hand.  A queue of the real time class goes back to the same list, in front of the
  last one, so the walk may meet it again.
 */
module CfqPreempt {
  import opened Wrappers
  import opened CfqLists
  import opened CfqQueues
  import opened CfqTheorems

  // ---------------------------------------------------------------- one list

  /** The queue behind i, or none when i is the last. */
  function Behind(list: seq<nat>, i: nat): Option<nat> {
    if list == [] then None
    else if list[0] == i then if |list| == 1 then None else Some(list[1])
    else Behind(list[1..], i)
  }

  /** The list after i has been resorted: a queue that stays goes in front of the last one. */
  function Moved(list: seq<nat>, i: nat, stays: bool): seq<nat> {
    var rest := Drop(list, i);
    if !stays then rest
    else if rest == [] then [i]
    else rest[..|rest| - 1] + [i] + rest[|rest| - 1..]
  }

  /** Where the walk is after n rounds: the list, and the queue to be resorted next. */
  function Walk(list: seq<nat>, cur: Option<nat>, stays: set<nat>, n: nat): (seq<nat>, Option<nat>)
    decreases n
  {
    if n == 0 || cur.None? then (list, cur)
    else Walk(Moved(list, cur.value, cur.value in stays), Behind(list, cur.value), stays, n - 1)
  }

  lemma WalkOn(list: seq<nat>, i: nat, stays: set<nat>, n: nat)
    requires Walk(list, Some(i), stays, n).1.None?
    ensures n > 0 && Walk(Moved(list, i, i in stays), Behind(list, i), stays, n - 1).1.None?
  {
  }

  function First(list: seq<nat>): Option<nat> { if list == [] then None else Some(list[0]) }

  ghost predicate Ends(list: seq<nat>, stays: set<nat>) {
    exists n :: Walk(list, First(list), stays, n).1.None?
  }

  function Stayers(list: seq<nat>, stays: set<nat>): nat {
    if list == [] then 0 else (if list[0] in stays then 1 else 0) + Stayers(list[1..], stays)
  }

  ghost predicate Distinct(list: seq<nat>) { forall i, j | 0 <= i < j < |list| :: list[i] != list[j] }

  lemma {:induction false} DropAbsent(list: seq<nat>, i: nat)
    requires i !in list
    ensures Drop(list, i) == list
  {
    if list != [] { DropAbsent(list[1..], i); }
  }

  lemma DropFirst(list: seq<nat>)
    requires list != [] && Distinct(list)
    ensures Drop(list, list[0]) == list[1..]
  {
    DropAbsent(list[1..], list[0]);
  }

  lemma {:induction false} StayersConcat(a: seq<nat>, b: seq<nat>, stays: set<nat>)
    ensures Stayers(a + b, stays) == Stayers(a, stays) + Stayers(b, stays)
  {
    if a == [] {
      assert a + b == b;
    } else {
      assert (a + b)[1..] == a[1..] + b;
      StayersConcat(a[1..], b, stays);
    }
  }

  lemma MovedFirst(list: seq<nat>, stays: bool)
    requires |list| >= 3 && Distinct(list)
    ensures Moved(list, list[0], stays)
            == (if stays then list[1..|list| - 1] + [list[0]] + [list[|list| - 1]] else list[1..])
  {
    DropFirst(list);
    var rest := list[1..];
    assert rest[..|rest| - 1] == list[1..|list| - 1] && rest[|rest| - 1..] == [list[|list| - 1]];
  }

  lemma RotatedDistinct(list: seq<nat>)
    requires |list| >= 2 && Distinct(list)
    ensures Distinct(list[1..]) && Distinct(list[1..|list| - 1] + [list[0]] + [list[|list| - 1]])
  {
    var l := list[1..|list| - 1] + [list[0]] + [list[|list| - 1]];
    forall i, j | 0 <= i < j < |l| ensures l[i] != l[j] {
      assert l[i] == if i < |l| - 2 then list[i + 1] else list[0];
      assert l[j] == if j < |l| - 2 then list[j + 1] else if j == |l| - 2 then list[0] else list[|l| - 1];
    }
  }

  /** With three queues or more the walk is at the front after every round. */
  lemma Round(list: seq<nat>, stays: set<nat>)
    requires |list| >= 3 && Distinct(list)
    ensures var l, front := Moved(list, list[0], list[0] in stays), list[..|list| - 1];
            && l != [] && Behind(list, list[0]) == First(l) && Distinct(l)
            && l[..|l| - 1] == (if list[0] in stays then front[1..] + [list[0]] else front[1..])
  {
    MovedFirst(list, list[0] in stays);
    RotatedDistinct(list);
  }

  lemma RoundStayers(list: seq<nat>, stays: set<nat>)
    requires |list| >= 3 && Distinct(list)
    ensures var l := Moved(list, list[0], list[0] in stays);
            l != [] && Stayers(l[..|l| - 1], stays) == Stayers(list[..|list| - 1], stays)
  {
    Round(list, stays);
    var front := list[..|list| - 1];
    assert front == [list[0]] + front[1..];
    StayersConcat(front[1..], [list[0]], stays);
  }

  lemma {:induction false} FewStayers(list: seq<nat>, stays: set<nat>)
    ensures Stayers(list, stays) <= |list|
  {
    if list != [] { FewStayers(list[1..], stays); }
  }

  /** With two queues that stay in front of the last one the walk goes on for ever. */
  lemma {:induction false} NeverEnds(list: seq<nat>, stays: set<nat>, n: nat)
    requires Distinct(list) && list != [] && Stayers(list[..|list| - 1], stays) >= 2
    ensures Walk(list, First(list), stays, n).1.Some?
    decreases n
  {
    FewStayers(list[..|list| - 1], stays);
    if n > 0 {
      Round(list, stays);
      RoundStayers(list, stays);
      NeverEnds(Moved(list, list[0], list[0] in stays), stays, n - 1);
    }
  }

  lemma ShortEnds(list: seq<nat>, stays: set<nat>)
    requires Distinct(list) && |list| <= 2
    ensures Walk(list, First(list), stays, |list|).1.None?
  {
    if |list| == 2 {
      DropFirst(list);
      var l := Moved(list, list[0], list[0] in stays);
      assert Behind(list, list[0]) == Some(list[1]);
      assert l == (if list[0] in stays then list else list[1..]);
      assert Behind(l, list[1]) == None;
      assert Walk(list, First(list), stays, 2) == Walk(l, Some(list[1]), stays, 1);
    }
  }

  lemma SecondLeaves(front: seq<nat>, stays: set<nat>)
    requires |front| >= 2 && front[0] in stays && Stayers(front, stays) <= 1
    ensures front[1] !in stays
  {
    assert Stayers(front[1..], stays) == 0;
  }

  function Left(list: seq<nat>, stays: set<nat>): nat {
    2 * |list| + if list != [] && list[0] in stays then 1 else 0
  }

  /** With at most one it ends: every second round at the latest takes a queue off the list. */
  lemma {:induction false} EndsSoon(list: seq<nat>, stays: set<nat>) returns (n: nat)
    requires Distinct(list) && (list != [] ==> Stayers(list[..|list| - 1], stays) <= 1)
    ensures Walk(list, First(list), stays, n).1.None?
    decreases Left(list, stays)
  {
    if |list| <= 2 {
      ShortEnds(list, stays);
      n := |list|;
    } else {
      Round(list, stays);
      RoundStayers(list, stays);
      var l, front := Moved(list, list[0], list[0] in stays), list[..|list| - 1];
      if list[0] in stays {
        assert l[0] == front[1];
        SecondLeaves(front, stays);
      }
      var m := EndsSoon(l, stays);
      n := m + 1;
    }
  }

  /** The walk ends exactly when at most one queue that stays is in front of the last one. */
  lemma EndsExactly(list: seq<nat>, stays: set<nat>)
    requires Distinct(list)
    ensures Ends(list, stays) <==> list == [] || Stayers(list[..|list| - 1], stays) <= 1
  {
    if list == [] || Stayers(list[..|list| - 1], stays) <= 1 {
      var n := EndsSoon(list, stays);
    } else if Ends(list, stays) {
      var n :| Walk(list, First(list), stays, n).1.None?;
      NeverEnds(list, stays, n);
    }
  }

  // ---------------------------------------------------------------- the queues

  /** The queues that cfq_resort_rr_list puts back on the current list: those of the real time class. */
  function Staying(c: Cfqd): set<nat> { set i | 0 <= i < |c.queues| && Home(c.queues[i]) == CUR }

  lemma ListDistinct(c: Cfqd, k: nat)
    requires Listed(c) && k < LISTS
    ensures Distinct(c.lists[k])
  {
    forall i, j | 0 <= i < j < |c.lists[k]| ensures c.lists[k][i] != c.lists[k][j] {
      if c.lists[k][i] == c.lists[k][j] { TwiceCounts(c.lists, k, i, j); }
    }
  }

  lemma TwiceCounts(ls: seq<seq<nat>>, k: nat, i: nat, j: nat)
    requires k < |ls| && i < j < |ls[k]| && ls[k][i] == ls[k][j]
    ensures Total(ls, ls[k][i]) >= 2
  {
    var s, x := ls[k], ls[k][i];
    assert s == s[..j] + [x] + s[j + 1..];
    assert x in s[..j];
    assert multiset(s)[x] == multiset(s[..j])[x] + 1 + multiset(s[j + 1..])[x];
    UpdateCount(ls, k, [], x);
  }

  /** The current list after a resort. */
  lemma CurAfter(c: Cfqd, i: nat, preempted: bool) returns (p: nat)
    requires Bounded(c) && i < |c.queues|
    ensures var d, rest := Resort(c, i, preempted), Drop(c.lists[CUR], i);
            && |d.lists| == LISTS && d == c.(lists := d.lists) && p <= |rest|
            && (preempted && Home(c.queues[i]) == CUR ==> p == if rest == [] then 0 else |rest| - 1)
            && d.lists[CUR] == if Home(c.queues[i]) == CUR then rest[..p] + [i] + rest[p..] else rest
  {
    UnlinkCount(c.lists, i, i);
    UnlinkBounded(c.lists, i, |c.queues|);
    var home, rest := Home(c.queues[i]), Drop(c.lists[CUR], i);
    var ls := Unlink(c.lists, i);
    assert ls[CUR] == rest;
    assert forall k | 0 <= k < |ls[home]| :: ls[home][k] in ls[home];
    p := if home == CUR then Spot(c.queues, rest, home, c.queues[i].serviceLast, preempted) else 0;
  }

  lemma StaysInFront(list: seq<nat>, rest: seq<nat>, i: nat, p: nat)
    requires rest == Drop(list, i) && p == (if rest == [] then 0 else |rest| - 1)
    ensures Moved(list, i, true) == rest[..p] + [i] + rest[p..]
  {
  }

  /** One round on the queues is one round on the current list. */
  lemma ResortIsMoved(c: Cfqd, i: nat)
    requires Inv(c) && i in c.lists[CUR]
    ensures Bounded(c) && i < |c.queues| && Inv(Resort(c, i, true))
    ensures var d := Resort(c, i, true);
            && d.queues == c.queues && d.active == c.active && d.busyQueues == c.busyQueues && |d.lists| == LISTS
            && d.lists[CUR] == Moved(c.lists[CUR], i, i in Staying(c))
  {
    PutBackInv(c, i);
    var p := CurAfter(c, i, true);
    if i in Staying(c) { StaysInFront(c.lists[CUR], Drop(c.lists[CUR], i), i, p); }
  }

  lemma {:induction false} BehindIn(list: seq<nat>, i: nat)
    requires i in list && Distinct(list)
    ensures Behind(list, i).Some? ==> Behind(list, i).value in list && Behind(list, i).value != i
  {
    if list[0] != i { BehindIn(list[1..], i); }
  }

  lemma MovedHolds(list: seq<nat>, i: nat, j: nat, stays: bool)
    requires j in list && j != i
    ensures j in Moved(list, i, stays)
  {
    InDrop(list, i, j);
    var rest := Drop(list, i);
    assert rest == rest[..|rest| - 1] + rest[|rest| - 1..];
  }

  lemma RoundOn(c: Cfqd, i: nat)
    requires Inv(c) && i in c.lists[CUR]
    ensures Bounded(c) && i < |c.queues| && Inv(Resort(c, i, true))
    ensures var next := Behind(c.lists[CUR], i); next.Some? ==> next.value in Resort(c, i, true).lists[CUR]
  {
    ResortIsMoved(c, i);
    ListDistinct(c, CUR);
    BehindIn(c.lists[CUR], i);
    var next := Behind(c.lists[CUR], i);
    if next.Some? { MovedHolds(c.lists[CUR], i, next.value, i in Staying(c)); }
  }

  /** The state of the scheduler after n rounds of the loop. */
  ghost function PreemptWalk(c: Cfqd, cur: Option<nat>, n: nat): (Cfqd, Option<nat>)
    requires Inv(c) && (cur.Some? ==> cur.value in c.lists[CUR])
    decreases n
  {
    if n == 0 || cur.None? then (c, cur)
    else
      RoundOn(c, cur.value);
      PreemptWalk(Resort(c, cur.value, true), Behind(c.lists[CUR], cur.value), n - 1)
  }

  lemma {:induction false} WalkAgrees(c: Cfqd, cur: Option<nat>, n: nat)
    requires Inv(c) && (cur.Some? ==> cur.value in c.lists[CUR])
    ensures var (d, next) := PreemptWalk(c, cur, n);
            Inv(d) && (d.lists[CUR], next) == Walk(c.lists[CUR], cur, Staying(c), n)
    decreases n
  {
    if n > 0 && cur.Some? {
      RoundOn(c, cur.value);
      ResortIsMoved(c, cur.value);
      WalkAgrees(Resort(c, cur.value, true), Behind(c.lists[CUR], cur.value), n - 1);
    }
  }

  function RealTimeBeforeLast(c: Cfqd): nat
    requires |c.lists| == LISTS
  {
    var list := c.lists[CUR];
    if list == [] then 0 else Stayers(list[..|list| - 1], Staying(c))
  }

  ghost predicate LoopEnds(c: Cfqd)
    requires Inv(c)
  {
    exists n :: PreemptWalk(c, First(c.lists[CUR]), n).1.None?
  }

  /** The loop of cfq_preempt_queue ends exactly when at most one real time queue stands on the current list in front of its last queue. */
  lemma PreemptEndsExactly(c: Cfqd)
    requires Inv(c)
    ensures LoopEnds(c) <==> RealTimeBeforeLast(c) <= 1
  {
    var list := c.lists[CUR];
    ListDistinct(c, CUR);
    EndsExactly(list, Staying(c));
    forall n: nat ensures PreemptWalk(c, First(list), n).1 == Walk(list, First(list), Staying(c), n).1 {
      WalkAgrees(c, First(list), n);
    }
    if Ends(list, Staying(c)) {
      var n :| Walk(list, First(list), Staying(c), n).1.None?;
      assert PreemptWalk(c, First(list), n).1.None?;
    }
  }
}
