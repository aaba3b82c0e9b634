/**
  A run from the fresh scheduler to a state in which the loop of cfq_preempt_queue goes on for ever:
  three processes of the real time class wait while no queue is active, and a fourth one asks for a
  request.
 */
module CfqReach {
  import opened Wrappers
  import opened SortTree
  import opened CfqLists
  import opened CfqQueues
  import opened CfqInvariant
  import opened CfqTheorems
  import opened CfqPreempt

  lemma Chain(c: Cfqd, s: Step, d: Cfqd, rest: seq<Step>)
    requires Inv(c) && Permitted(c, s) && Apply(c, s) == d && Runs(d, rest)
    ensures Runs(c, [s] + rest) && After(c, [s] + rest) == After(d, rest)
  {
    assert ([s] + rest)[1..] == rest;
  }

  /** The current list holds m queues or more, all of the real time class. */
  ghost predicate Waiting(c: Cfqd, m: nat) {
    && Inv(c) && |c.lists[CUR]| >= m
    && forall x | x in c.lists[CUR] :: x < |c.queues| && c.queues[x].cls.RealTime?
  }

  lemma {:induction false} DropLength(s: seq<nat>, i: nat)
    requires CfqPreempt.Distinct(s)
    ensures |Drop(s, i)| == if i in s then |s| - 1 else |s|
  {
    if s != [] {
      DropLength(s[1..], i);
      assert i in s <==> s[0] == i || i in s[1..];
    }
  }

  lemma Spliced(list: seq<nat>, rest: seq<nat>, p: nat, i: nat)
    requires rest == Drop(list, i) && p <= |rest| && CfqPreempt.Distinct(list)
    ensures |rest| == if i in list then |list| - 1 else |list|
    ensures forall x | x in rest :: x in list
    ensures forall x | x in rest[..p] + [i] + rest[p..] :: x in list || x == i
    ensures |rest[..p] + [i] + rest[p..]| == |rest| + 1 && i in rest[..p] + [i] + rest[p..]
  {
    DropLength(list, i);
    forall x | x in rest ensures x in list { InDrop(list, i, x); }
  }

  lemma ResortMembers(c: Cfqd, i: nat, preempted: bool)
    requires Bounded(c) && i < |c.queues| && CfqPreempt.Distinct(c.lists[CUR])
    ensures var d, back := Resort(c, i, preempted), Home(c.queues[i]) == CUR;
            && |d.lists| == LISTS && d == c.(lists := d.lists) && (back ==> i in d.lists[CUR])
            && (forall x | x in d.lists[CUR] :: x in c.lists[CUR] || (x == i && back))
            && |d.lists[CUR]| == |c.lists[CUR]| - (if i in c.lists[CUR] then 1 else 0) + (if back then 1 else 0)
  {
    var p := CurAfter(c, i, preempted);
    Spliced(c.lists[CUR], Drop(c.lists[CUR], i), p, i);
  }

  /** A queue that is being served by turns is not on the empty list, and the other way round. */
  lemma NotOnCur(c: Cfqd, i: nat)
    requires Inv(c) && i < |c.queues| && !c.queues[i].onRr
    ensures i !in c.lists[CUR]
  {
    if i in c.lists[CUR] { OnOne(c.lists, i, CUR, EMPTY); }
  }

  // ---------------------------------------------------------------- the steps

  predicate SameClasses(c: Cfqd, d: Cfqd) {
    |c.queues| <= |d.queues| && forall j | 0 <= j < |c.queues| :: d.queues[j].cls == c.queues[j].cls
  }

  lemma NewWaits(c: Cfqd, cls: Class, m: nat)
    requires Waiting(c, m)
    ensures var d := Apply(c, New(cls, 0, true));
            && Waiting(d, m) && |d.queues| == |c.queues| + 1 && d.active == c.active && SameClasses(c, d)
            && d.queues[|c.queues|] == FreshQueue(cls, 0, true)
  {
    StepInv(c, New(cls, 0, true));
  }

  /** The queue just before it is sorted into its list. */
  function Started(c: Cfqd, i: nat, r: Rq): Cfqd
    requires i < |c.queues|
  {
    c.(queues := c.queues[i := Queued(c.queues[i], r.sync, 1).(tree := [r], onRr := true)], busyQueues := c.busyQueues + 1)
  }

  predicate Untouched(q: Cfqq) { q.tree == [] && q.fifo == [] && !q.onRr }

  lemma EnteredForm(c: Cfqd, i: nat, r: Rq)
    requires Bounded(c) && i < |c.queues| && Untouched(c.queues[i])
    ensures var e := Put(c, i, Queued(c.queues[i], r.sync, 1));
            Bounded(Started(c, i, r)) && Entered(e, i, r).lists == Resort(Started(c, i, r), i, false).lists
  {
    var e := Put(c, i, Queued(c.queues[i], r.sync, 1));
    assert SortTree.Insert([], r) == [r];
    var c2 := Put(e, i, e.queues[i].(tree := [r]));
    assert Put(c2, i, c2.queues[i].(onRr := true)).(busyQueues := c2.busyQueues + 1) == Started(c, i, r);
    assert AddRr(c2, i) == Resort(Started(c, i, r), i, false);
  }

  lemma FirstLists(c: Cfqd, i: nat, r: Rq)
    requires Inv(c) && i < |c.queues| && Untouched(c.queues[i])
    ensures Bounded(Started(c, i, r)) && InsertRequest(c, i, r).lists == Resort(Started(c, i, r), i, false).lists
  {
    ListedBounded(c);
    EnteredForm(c, i, r);
    var e := Put(c, i, Queued(c.queues[i], r.sync, 1));
    assert Alias(e.queues[i].tree, r.sector) == None;
    assert Evict(e, i, r.sector) == e;
  }

  lemma FirstQueues(c: Cfqd, i: nat, r: Rq)
    requires Inv(c) && i < |c.queues| && Untouched(c.queues[i])
    ensures var d := InsertRequest(c, i, r);
            |d.queues| == |c.queues| && d.active == c.active && SameClasses(c, d)
  {
    AddForm(c, i, r);
  }

  /** The first request of a queue puts it on the current list if it is of the real time class, and on another one otherwise. */
  lemma FirstCur(c: Cfqd, i: nat, r: Rq)
    requires Inv(c) && i < |c.queues| && Untouched(c.queues[i])
    ensures var d, rt := InsertRequest(c, i, r), Home(c.queues[i]) == CUR;
            && |d.lists| == LISTS && |d.lists[CUR]| == |c.lists[CUR]| + (if rt then 1 else 0)
            && (rt ==> i in d.lists[CUR])
            && forall x | x in d.lists[CUR] :: x in c.lists[CUR] || (x == i && rt)
  {
    FirstLists(c, i, r);
    NotOnCur(c, i);
    ListDistinct(c, CUR);
    var e := Started(c, i, r);
    ResortMembers(e, i, false);
  }

  lemma FirstWaits(c: Cfqd, i: nat, r: Rq, m: nat)
    requires Waiting(c, m) && i < |c.queues| && Untouched(c.queues[i])
    ensures Permitted(c, Insert(i, r))
    ensures var d := Apply(c, Insert(i, r));
            && Waiting(d, if c.queues[i].cls.RealTime? then m + 1 else m)
            && d.active == c.active && |d.queues| == |c.queues| && SameClasses(c, d)
            && (c.queues[i].cls.RealTime? ==> i in d.lists[CUR])
  {
    InsertInv(c, i, r);
    FirstQueues(c, i, r);
    FirstCur(c, i, r);
    assert c.queues[i].cls.RealTime? <==> Home(c.queues[i]) == CUR;
  }

  lemma PutBackWaits(c: Cfqd, i: nat, m: nat)
    requires Waiting(c, m) && i in c.lists[CUR]
    ensures var d := Apply(c, PutBack(i)); Waiting(d, m) && d.queues == c.queues && i in d.lists[CUR]
  {
    StepInv(c, PutBack(i));
    ListedBounded(c);
    ListDistinct(c, CUR);
    ResortMembers(c, i, true);
  }

  lemma PreemptWaits(c: Cfqd, i: nat, m: nat)
    requires Waiting(c, m) && i in c.lists[CUR]
    ensures Permitted(c, Preempt(i))
    ensures var d := Apply(c, Preempt(i));
            Waiting(d, m) && d.active == Some(i) && |d.queues| == |c.queues| && SameClasses(c, d)
  {
    CurServed(c, i);
    StepInv(c, Preempt(i));
    ListDistinct(c, CUR);
    ResortMembers(Put(c, i, c.queues[i].(checked := false)), i, true);
  }

  lemma ExpireWaits(c: Cfqd, now: int, m: nat)
    requires Waiting(c, m) && c.active.Some? && c.active.value < |c.queues| && c.queues[c.active.value].cls.RealTime?
    ensures var d := Apply(c, Expire(false, now)); Waiting(d, m) && d.active.None? && SameClasses(c, d)
  {
    StepInv(c, Expire(false, now));
    SliceInv(c, false, now);
    ListedBounded(c);
    ListDistinct(c, CUR);
    var i := c.active.value;
    var e := if c.queues[i].Out() == 0 then Put(c, i, c.queues[i].(serviceLast := now)) else c;
    ResortMembers(e, i, false);
  }

  /** A process begins and asks for its first request. */
  lemma Begins(c: Cfqd, cls: Class, r: Rq, m: nat) returns (b: Cfqd, d: Cfqd)
    requires Waiting(c, m)
    ensures Inv(b) && Apply(c, New(cls, 0, true)) == b
    ensures Permitted(b, Insert(|c.queues|, r)) && Apply(b, Insert(|c.queues|, r)) == d
    ensures Waiting(d, if cls.RealTime? then m + 1 else m) && d.active == c.active && SameClasses(c, d)
    ensures |d.queues| == |c.queues| + 1 && (cls.RealTime? ==> |c.queues| in d.lists[CUR])
  {
    NewWaits(c, cls, m);
    b := Apply(c, New(cls, 0, true));
    FirstWaits(b, |c.queues|, r, m);
    d := Apply(b, Insert(|c.queues|, r));
  }

  lemma BeginsRun(c: Cfqd, b: Cfqd, d: Cfqd, cls: Class, i: nat, r: Rq, rest: seq<Step>)
    requires Inv(c) && Inv(b) && Apply(c, New(cls, 0, true)) == b
    requires Permitted(b, Insert(i, r)) && Apply(b, Insert(i, r)) == d && Runs(d, rest)
    ensures var steps := [New(cls, 0, true)] + ([Insert(i, r)] + rest);
            Runs(c, steps) && After(c, steps) == After(d, rest)
  {
    Chain(b, Insert(i, r), d, rest);
    Chain(c, New(cls, 0, true), b, [Insert(i, r)] + rest);
  }

  function Ask(i: nat): Rq { Rq(i, true, 64 * i, 8, None, 0) }

  /** The first process is made active at once; its slice then ends. */
  function FirstSteps(rest: seq<Step>): seq<Step> {
    [New(RealTime, 0, true)] + ([Insert(0, Ask(0))] + ([PutBack(0)] + ([Preempt(0)] + rest)))
  }

  lemma FirstProcess(pol: Policy) returns (b: Cfqd, e: Cfqd, f: Cfqd, d: Cfqd)
    ensures Waiting(d, 1) && d.active == Some(0) && |d.queues| == 1 && d.queues[0].cls.RealTime?
    ensures Inv(Fresh(pol)) && Inv(b) && Inv(e) && Inv(f) && Apply(Fresh(pol), New(RealTime, 0, true)) == b
    ensures Permitted(b, Insert(0, Ask(0))) && Apply(b, Insert(0, Ask(0))) == e
    ensures Permitted(e, PutBack(0)) && Apply(e, PutBack(0)) == f
    ensures Permitted(f, Preempt(0)) && Apply(f, Preempt(0)) == d
  {
    FreshInv(pol);
    b, e := Begins(Fresh(pol), RealTime, Ask(0), 0);
    PutBackWaits(e, 0, 1);
    f := Apply(e, PutBack(0));
    PreemptWaits(f, 0, 1);
    d := Apply(f, Preempt(0));
  }

  lemma FirstRun(c: Cfqd, b: Cfqd, e: Cfqd, f: Cfqd, d: Cfqd, rest: seq<Step>, steps: seq<Step>)
    requires Inv(c) && Inv(b) && Inv(e) && Inv(f) && Apply(c, New(RealTime, 0, true)) == b
    requires Permitted(b, Insert(0, Ask(0))) && Apply(b, Insert(0, Ask(0))) == e
    requires Permitted(e, PutBack(0)) && Apply(e, PutBack(0)) == f
    requires Permitted(f, Preempt(0)) && Apply(f, Preempt(0)) == d
    requires Runs(d, rest) && steps == FirstSteps(rest)
    ensures Runs(c, steps) && After(c, steps) == After(d, rest)
  {
    Chain(f, Preempt(0), d, rest);
    Chain(e, PutBack(0), f, [Preempt(0)] + rest);
    BeginsRun(c, b, e, RealTime, 0, Ask(0), [PutBack(0)] + ([Preempt(0)] + rest));
  }

  /** Two more processes come, the slice of the first ends, as it does when a process exits, and a fourth process comes. */
  function LaterSteps(now: int): seq<Step> {
    [New(RealTime, 0, true)] + ([Insert(1, Ask(1))] + ([New(RealTime, 0, true)] + ([Insert(2, Ask(2))]
    + ([Expire(false, now)] + ([New(BestEffort, 0, true)] + ([Insert(3, Ask(3))] + []))))))
  }

  lemma LastProcess(c: Cfqd, now: int, steps: seq<Step>) returns (z: Cfqd)
    requires Waiting(c, 3) && c.active == Some(0) && |c.queues| == 3 && c.queues[0].cls.RealTime?
    requires steps == [Expire(false, now)] + ([New(BestEffort, 0, true)] + ([Insert(3, Ask(3))] + []))
    ensures Runs(c, steps) && After(c, steps) == z && Waiting(z, 3) && z.active.None?
  {
    ExpireWaits(c, now, 3);
    var d := Apply(c, Expire(false, now));
    var b, e := Begins(d, BestEffort, Ask(3), 3);
    BeginsRun(d, b, e, BestEffort, 3, Ask(3), []);
    Chain(c, Expire(false, now), d, [New(BestEffort, 0, true)] + ([Insert(3, Ask(3))] + []));
    z := e;
  }

  lemma LaterProcesses(c: Cfqd, now: int, steps: seq<Step>) returns (z: Cfqd)
    requires Waiting(c, 1) && c.active == Some(0) && |c.queues| == 1 && c.queues[0].cls.RealTime?
    requires steps == LaterSteps(now)
    ensures Runs(c, steps) && After(c, steps) == z && Waiting(z, 3) && z.active.None?
  {
    var b1, c1 := Begins(c, RealTime, Ask(1), 1);
    var b2, c2 := Begins(c1, RealTime, Ask(2), 2);
    var rest := [Expire(false, now)] + ([New(BestEffort, 0, true)] + ([Insert(3, Ask(3))] + []));
    z := LastProcess(c2, now, rest);
    BeginsRun(c1, b2, c2, RealTime, 2, Ask(2), rest);
    BeginsRun(c, b1, c1, RealTime, 1, Ask(1), [New(RealTime, 0, true)] + ([Insert(2, Ask(2))] + rest));
  }

  lemma {:induction false} AllStay(list: seq<nat>, stays: set<nat>)
    requires forall x | x in list :: x in stays
    ensures Stayers(list, stays) == |list|
  {
    if list != [] { AllStay(list[1..], stays); }
  }

  lemma ThreeNeverEnd(c: Cfqd)
    requires Waiting(c, 3)
    ensures !LoopEnds(c)
  {
    var list := c.lists[CUR];
    forall x | x in list[..|list| - 1] ensures x in Staying(c) { assert x in list; }
    AllStay(list[..|list| - 1], Staying(c));
    PreemptEndsExactly(c);
  }

  lemma WholeRun(pol: Policy, now: int, steps: seq<Step>) returns (z: Cfqd)
    requires steps == FirstSteps(LaterSteps(now))
    ensures Runs(Fresh(pol), steps) && After(Fresh(pol), steps) == z && Waiting(z, 3) && z.active.None?
  {
    var b, e, f, d := FirstProcess(pol);
    z := LaterProcesses(d, now, LaterSteps(now));
    FirstRun(Fresh(pol), b, e, f, d, LaterSteps(now), steps);
  }

  /** No queue is active, so the request of the fourth process preempts, and the loop it starts never ends. */
  lemma EndlessLoopReached(pol: Policy, now: int) returns (steps: seq<Step>)
    ensures Runs(Fresh(pol), steps)
    ensures var c := After(Fresh(pol), steps); Inv(c) && c.active.None? && !LoopEnds(c)
  {
    steps := FirstSteps(LaterSteps(now));
    var z := WholeRun(pol, now, steps);
    ThreeNeverEnd(z);
  }
}
