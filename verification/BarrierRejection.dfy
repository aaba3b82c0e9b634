/**
  Turning a barrier down while a file system request is in flight is never safe: whatever the state,
  the run can go on so that the queue is taken for drained before a later barrier although a request
  from before that barrier is still queued.  The request that was in flight carries the other colour,
  so when the driver requeues it, it goes behind a barrier it was submitted before.
 */
module BarrierRejection {
  import opened Wrappers
  import opened RequestQueue
  import opened BarrierInvariant
  import opened BarrierSubmission
  import opened BarrierLimits

  /** No sequence is running and the queue does not do ordered writes. */
  ghost predicate Unordered(q: Queue) {
    && q.ordseq == IDLE && q.orig.None? && q.nextOrdered.OrderedNone?
    && (forall r | r in q.head :: r.id.Normal? && (r.fs && r.hard ==> !r.started))
    && (forall r | r in q.sched :: r.id.Normal? && !r.hard)
    && (forall r | r in q.driver :: r.id.Normal? && r.started)
    && q.inFlight == CountFs(q.driver)
  }

  lemma RejectingIsUnordered(q: Queue)
    requires Inv(q) && Rejects(q)
    ensures Unordered(q) && forall r | r in q.driver && r.Work() :: r.stamp <= q.barriers
  {
    forall r | r in q.head ensures r.id.Normal? {
      if !r.id.Normal? { ProxyHere(q, r.id); }
    }
    forall r | r in q.driver ensures r.id.Normal? {
      if !r.id.Normal? { ProxyHere(q, r.id); }
    }
  }

  function Waiting(q: Queue): nat { |q.head| + |q.sched| }

  /** What stays as it is. */
  predicate SameDriver(q: Queue, q': Queue) {
    q'.driver == q.driver && q'.ordcolor == q.ordcolor && q'.epochOf == q.epochOf && q'.barriers == q.barriers
  }

  lemma RejectUnordered(q: Queue)
    requires Unordered(q) && Rejects(q)
    ensures Unordered(RejectBarrier(q)) && SameDriver(q, RejectBarrier(q)) && Waiting(RejectBarrier(q)) < Waiting(q)
  {
    assert q.head[0] in q.head;
  }

  lemma DispatchUnordered(q: Queue)
    requires Unordered(q) && q.sched != []
    ensures var d := NoopDispatch(q);
            Unordered(d) && SameDriver(q, d) && Waiting(d) == Waiting(q) && |d.sched| < |q.sched|
  {
    DispatchMembers(q);
  }

  /** Such a queue hands out its head, unless nothing is left but barriers to turn down. */
  lemma {:induction false} NextHeadUnordered(q: Queue)
    requires Unordered(q)
    ensures var (q', rid) := NextHead(q);
            && Unordered(q') && SameDriver(q, q') && Waiting(q') <= Waiting(q)
            && (if rid.Some? then q'.head != [] && !(q'.head[0].fs && q'.head[0].hard) else Waiting(q') == 0)
    decreases Waiting(q), |q.sched|
  {
    if q.head != [] {
      if Rejects(q) {
        RejectUnordered(q);
        NextHeadUnordered(RejectBarrier(q));
      }
    } else if q.sched != [] {
      DispatchUnordered(q);
      NextHeadUnordered(NoopDispatch(q));
    }
  }

  lemma StartUnordered(q: Queue)
    requires Unordered(q) && q.head != [] && !(q.head[0].fs && q.head[0].hard)
    ensures var s := MarkStarted(q);
            Unordered(s) && SameDriver(q, s) && Waiting(s) == Waiting(q) && s.head != [] && s.head[0].started
  {
    assert q.head[0] in q.head;
    forall r | r in MarkStarted(q).head ensures r.id.Normal? && (r.fs && r.hard ==> !r.started) {
      assert r == q.head[0].(started := true) || r in q.head;
    }
  }

  lemma TakeUnordered(q: Queue)
    requires Unordered(q) && q.head != [] && q.head[0].started
    ensures var t := Take(q, 0);
            && Unordered(t) && t.driver == q.driver + [q.head[0]] && Waiting(t) < Waiting(q)
            && t.ordcolor == q.ordcolor && t.epochOf == q.epochOf && t.barriers == q.barriers
  {
    assert q.head[0] in q.head;
    Concat(q.driver, [q.head[0]]);
    Singleton(q.head[0]);
  }

  lemma Fetched(q: Queue)
    requires Unordered(q)
    ensures var (f, rid) := Fetch(q);
            && Unordered(f) && SameDriver(q, f) && Waiting(f) <= Waiting(q)
            && (if rid.Some? then f.head != [] && f.head[0].started else Waiting(f) == 0)
  {
    NextHeadUnordered(q);
    var (q1, rid) := NextHead(q);
    if rid.Some? { StartUnordered(q1); }
  }

  lemma EndUnordered(q: Queue, i: nat)
    requires Unordered(q) && i < |q.driver|
    ensures var e := EndRequest(q, i);
            && Unordered(e) && e.driver == RemoveAt(q.driver, i) && Waiting(e) == Waiting(q)
            && e.ordcolor == q.ordcolor && e.epochOf == q.epochOf && e.barriers == q.barriers
  {
    Removed(q.driver, i);
    assert q.driver[i] in q.driver;
    assert forall r | r in RemoveAt(q.driver, i) :: r in q.driver;
  }

  /** All that is left is the request x, still with the driver. */
  ghost predicate Alone(q: Queue, x: Req) {
    Unordered(q) && q.head == [] && q.sched == [] && q.driver == [x]
  }

  // ---------------------------------------------------------------- the requeued request

  lemma {:induction false} AboveAll(s: set<nat>) returns (b: nat)
    ensures forall x | x in s :: x < b
    decreases |s|
  {
    if s == {} {
      b := 0;
    } else {
      var x :| x in s;
      var c := AboveAll(s - {x});
      b := c + x + 1;
      assert forall y | y in s :: y == x || y in s - {x};
    }
  }

  lemma SubmitAlone(q: Queue, id: nat, bio: nat)
    requires q.head == [] && q.sched == [] && q.orig.None?
    ensures var s := SubmitRequest(q, id, bio, 0, 1, true, true, true);
            && |s.head| == 1 && s.head[0].Barrier() && !s.head[0].started && s.head[0].color == q.ordcolor
            && s.driver == q.driver && s.inFlight == q.inFlight && s.ordseq == q.ordseq && s.sched == []
            && s.nextOrdered == q.nextOrdered && s.orig == None && s.ordcolor == !q.ordcolor
            && s.epochOf == q.epochOf[bio := q.barriers]
            && s.barriers == q.barriers + 1 && s.head[0].stamp == q.barriers
  {
  }

  function WithMode(q: Queue, mode: Ordered): Queue { q.(ordered := mode, nextOrdered := mode) }

  /** A barrier that is accepted and then turned down changes the colour: the mode changes in between. */
  function Flipped(q: Queue, id: nat, bio: nat): Queue {
    WithMode(SubmitRequest(WithMode(q, Drain), id, bio, 0, 1, true, true, true), OrderedNone)
  }

  lemma FlipColour(q: Queue, x: Req, id: nat, bio: nat)
    requires Alone(q, x) && bio !in q.epochOf
    ensures var s := Flipped(q, id, bio);
            var f := Fetch(s).0;
            && s.ordseq == IDLE && Alone(f, x) && f.ordcolor == !q.ordcolor
            && f.epochOf == q.epochOf[bio := q.barriers] && f.barriers == q.barriers + 1
  {
    SubmitAlone(WithMode(q, Drain), id, bio);
    var s := Flipped(q, id, bio);
    assert s.head == [s.head[0]];
    assert Unordered(s);
    RejectUnordered(s);
    var f := RejectBarrier(s);
    assert f.head == [];
    assert NextHead(f) == (f, None);
    assert Fetch(s) == (f, None);
  }

  /** x has the other colour: requeued while a barrier drains, it goes behind that barrier. */
  lemma OvertakenBehind(q: Queue, x: Req, id: nat, bio: nat) returns (steps: seq<Step>)
    requires Alone(q, x) && x.Work() && x.color != q.ordcolor && x.stamp <= q.barriers && bio !in q.epochOf
    ensures Runs(q, steps) && Overtaken(After(q, steps))
  {
    assert x in q.driver;
    assert CountFs(q.driver) == 1 by { assert q.driver[1..] == []; }
    var submit := Submit(id, bio, 0, 1, true, true, true);
    var m := q.(ordered := Drain, nextOrdered := Drain);
    SubmitAlone(m, id, bio);
    var s := SubmitRequest(m, id, bio, 0, 1, true, true, true);
    FetchStartsDrain(s);
    StartedDrain(s);
    var d := StartOrdered(s).0;
    RequeueBehind(d, RequeueRequest(d, 0));
    var b := HiddenIsDoomed(RequeueRequest(d, 0));
    Chain(d, Requeue(0), b);
    Chain(s, FetchNext, [Requeue(0)] + b);
    Chain(m, submit, [FetchNext] + ([Requeue(0)] + b));
    steps := [SetOrdered(Drain)] + ([submit] + ([FetchNext] + ([Requeue(0)] + b)));
    Chain(q, SetOrdered(Drain), [submit] + ([FetchNext] + ([Requeue(0)] + b)));
  }

  lemma FlipRun(q: Queue, id: nat, bio: nat, f: Queue, rest: seq<Step>) returns (steps: seq<Step>)
    requires bio !in q.epochOf && Flipped(q, id, bio).ordseq == IDLE
    requires f == Fetch(Flipped(q, id, bio)).0 && Runs(f, rest)
    ensures Runs(q, steps) && After(q, steps) == After(f, rest)
  {
    var submit := Submit(id, bio, 0, 1, true, true, true);
    var m := WithMode(q, Drain);
    var s := SubmitRequest(m, id, bio, 0, 1, true, true, true);
    Chain(WithMode(s, OrderedNone), FetchNext, rest);
    Chain(s, SetOrdered(OrderedNone), [FetchNext] + rest);
    Chain(m, submit, [SetOrdered(OrderedNone)] + ([FetchNext] + rest));
    Chain(q, SetOrdered(Drain), [submit] + ([SetOrdered(OrderedNone)] + ([FetchNext] + rest)));
    steps := [SetOrdered(Drain)] + ([submit] + ([SetOrdered(OrderedNone)] + ([FetchNext] + rest)));
  }

  lemma AloneOvertaken(q: Queue, x: Req) returns (steps: seq<Step>)
    requires Alone(q, x) && x.Work() && x.stamp <= q.barriers
    ensures Runs(q, steps) && Overtaken(After(q, steps))
  {
    var id := match x.id { case Normal(n) => n + 1 case _ => 0 };
    var bio := AboveAll(q.epochOf.Keys);
    if x.color != q.ordcolor {
      steps := OvertakenBehind(q, x, id, bio);
    } else {
      FlipColour(q, x, id, bio);
      var f := Fetch(Flipped(q, id, bio)).0;
      assert bio + 1 !in f.epochOf;
      var b := OvertakenBehind(f, x, id, bio + 1);
      steps := FlipRun(q, id, bio, f, b);
    }
  }

  /** Everything but x can be made to end, and then a barrier made to overtake x. */
  lemma {:induction false} Doomed(q: Queue, x: Req) returns (steps: seq<Step>)
    requires Unordered(q) && x in q.driver && x.Work() && x.stamp <= q.barriers
    ensures Runs(q, steps) && Overtaken(After(q, steps))
    ensures Waiting(q) > 0 ==> steps != [] && steps[0] == FetchNext
    decreases Waiting(q), |q.driver|
  {
    if Waiting(q) > 0 {
      Fetched(q);
      var (f, rid) := Fetch(q);
      if rid.Some? {
        TakeUnordered(f);
        var b := Doomed(Take(f, 0), x);
        Chain(f, TakeOff(0), b);
        Chain(q, FetchNext, [TakeOff(0)] + b);
        steps := [FetchNext] + ([TakeOff(0)] + b);
      } else {
        var b := Doomed(f, x);
        Chain(q, FetchNext, b);
        steps := [FetchNext] + b;
      }
    } else if |q.driver| > 1 {
      var i := OtherThan(q.driver, x);
      EndUnordered(q, i);
      var b := Doomed(EndRequest(q, i), x);
      Chain(q, End(i), b);
      steps := [End(i)] + b;
    } else {
      steps := AloneOvertaken(q, x);
    }
  }

  lemma OtherThan(s: seq<Req>, x: Req) returns (i: nat)
    requires x in s && |s| > 1
    ensures i < |s| && x in RemoveAt(s, i)
  {
    var j :| 0 <= j < |s| && s[j] == x;
    i := if j == 0 then 1 else 0;
    assert x == RemoveAt(s, i)[if i < j then j - 1 else j];
  }

  /** The converse of the first clause of `Careful`. */
  lemma RejectionUnsafe(q: Queue) returns (steps: seq<Step>)
    requires Inv(q) && Rejects(q) && q.inFlight > 0
    ensures steps != [] && steps[0] == FetchNext && Runs(q, steps) && Overtaken(After(q, steps))
  {
    RejectingIsUnordered(q);
    CountFsIn(q.driver);
    var x :| x in q.driver && x.fs;
    steps := Doomed(q, x);
  }
}
