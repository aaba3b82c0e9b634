/**
  What ordered writes promise, over every run of the request queue.  An `After(EMPTY, steps)` is the
  state reached by an arbitrary interleaving of submissions, merges, commands, fetches, completions
  and requeues.
 */
module BarrierTheorems {
  import opened Wrappers
  import opened RequestQueue
  import opened BarrierInvariant
  import opened BarrierSubmission
  import opened BarrierCompletion
  import opened BarrierFetch

  lemma StepInv(q: Queue, s: Step)
    requires Inv(q) && Enabled(q, s) && Careful(q, s)
    ensures Inv(Apply(q, s))
  {
    match s
    case Submit(id, bio, sector, nr, write, barrier, elvpriv) =>
      if barrier { BarrierSubmit(q, id, bio, sector, nr, write, elvpriv); }
      else { PlainSubmit(q, id, bio, sector, nr, write, elvpriv); }
    case Command(id, front) => CommandInv(q, id, front);
    case Merge(i, bio, sector, nr, write, allow, allowJoin) => MergeInv(q, i, bio, sector, nr, write, allow, allowJoin);
    case Prefers(i) => FavouredInv(q, i);
    case Sends(i) => SendsInv(q, i);
    case FetchNext => FetchInv(q);
    case TakeOff(i) => TakeInv(q, i);
    case End(i) => if q.driver[i].id.Normal? { EndNormalInv(q, i); } else { EndProxyInv(q, i); }
    case Requeue(i) =>
      if q.driver[i].Work() { RequeueWork(q, i); }
      else if q.driver[i].id.Normal? { RequeueSpecial(q, i); }
      else { RequeueProxy(q, i); }
    case SetOrdered(mode) => ModeInv(q, mode);
  }

  lemma ModeInv(q: Queue, mode: Ordered)
    requires Inv(q)
    ensures Inv(q.(ordered := mode, nextOrdered := mode))
  {
  }

  ghost predicate CarefulRun(q: Queue, steps: seq<Step>)
    requires Runs(q, steps)
    decreases |steps|
  {
    steps == [] || (Careful(q, steps[0]) && CarefulRun(Apply(q, steps[0]), steps[1..]))
  }

  lemma {:induction false} RunInv(q: Queue, steps: seq<Step>)
    requires Inv(q) && Runs(q, steps) && CarefulRun(q, steps)
    ensures Inv(After(q, steps))
    decreases |steps|
  {
    if steps != [] {
      StepInv(q, steps[0]);
      RunInv(Apply(q, steps[0]), steps[1..]);
    }
  }

  // ---------------------------------------------------------------- isolation

  /** The driver has been given r: it holds it, or it has seen it at the head of the queue. */
  ghost predicate Issued(q: Queue, r: Req) {
    r in q.driver || (r in q.head && r.started)
  }

  lemma {:induction false} HeldBio(s: seq<Req>, b: nat)
    requires b in Bios(s)
    ensures exists r :: r in s && b in r.bios
  {
    if b in s[0].bios {
      assert s[0] in s;
    } else {
      assert b in multiset(s[0].bios) || b in Bios(s[1..]);
      HeldBio(s[1..], b);
      var r :| r in s[1..] && b in r.bios;
      assert r in s;
    }
  }

  /** A submitted bio that no live request of its epoch holds has ended. */
  lemma NotHeldMeansEnded(q: Queue, b: nat)
    requires Inv(q) && b in q.epochOf
    requires forall r | r in q.head && r.Work() :: r.stamp > q.epochOf[b]
    requires forall r | r in q.driver && r.Work() :: r.stamp > q.epochOf[b]
    requires q.epochOf[b] < q.barriers
    requires Active(q) ==> b !in q.orig.value.bios
    ensures b in q.ended
  {
    assert b in multiset(q.epochOf.Keys);
    if b in Bios(q.head) { HeldBio(q.head, b); }
    if b in Bios(q.sched) { HeldBio(q.sched, b); }
    if b in Bios(q.driver) { HeldBio(q.driver, b); }
    assert Active(q) ==> b !in multiset(q.orig.value.bios);
  }

  /** bar_rq is with the driver only when the queue has drained for its own barrier and the pre-flush is over. */
  lemma BarrierAfterDrain(steps: seq<Step>, r: Req)
    requires Runs(EMPTY, steps) && CarefulRun(EMPTY, steps)
    requires Issued(After(EMPTY, steps), r) && r.id.BarRq?
    ensures var q := After(EMPTY, steps);
            && Active(q) && q.orig.value.stamp == q.finished && q.ordseq.drain && q.ordseq.preflush && !q.ordseq.bar
            && (forall x | (x in q.head || x in q.driver) && x.Work() :: x.stamp > q.finished)
  {
    InitialState();
    RunInv(EMPTY, steps);
    var q := After(EMPTY, steps);
    ProxyHere(q, BarRq);
    CountIdIn(q.driver, BarRq);
  }

  /** bar_rq is with the driver only when every bio submitted before the barrier has ended. */
  lemma BarrierWaitsForEarlier(steps: seq<Step>, r: Req, b: nat)
    requires Runs(EMPTY, steps) && CarefulRun(EMPTY, steps)
    requires var q := After(EMPTY, steps);
             && Issued(q, r) && r.id.BarRq?
             && b in q.epochOf && q.epochOf[b] <= q.finished && (Active(q) ==> b !in q.orig.value.bios)
    ensures b in After(EMPTY, steps).ended
  {
    InitialState();
    RunInv(EMPTY, steps);
    BarrierAfterDrain(steps, r);
    NotHeldMeansEnded(After(EMPTY, steps), b);
  }

  /** A file system request is with the driver only when every barrier submitted before it, and every bio before those, has ended. */
  lemma LaterWaitsForBarrier(steps: seq<Step>, r: Req, b: nat)
    requires Runs(EMPTY, steps) && CarefulRun(EMPTY, steps)
    requires var q := After(EMPTY, steps);
             Issued(q, r) && r.Work() && b in q.epochOf && q.epochOf[b] < r.stamp
    ensures b in After(EMPTY, steps).ended
  {
    InitialState();
    RunInv(EMPTY, steps);
    var q := After(EMPTY, steps);
    NotHeldMeansEnded(q, b);
  }

  /** On the dispatch queue a barrier separates what was submitted before it from what came after. */
  lemma BarrierSplitsQueue(steps: seq<Step>, m: nat, i: nat)
    requires Runs(EMPTY, steps) && CarefulRun(EMPTY, steps)
    requires var q := After(EMPTY, steps);
             m < |q.head| && q.head[m].Barrier() && i < |q.head| && i != m && q.head[i].Work()
    ensures var q := After(EMPTY, steps);
            && (i < m <==> q.head[i].stamp <= q.head[m].stamp)
            && (forall r | r in q.sched :: r.stamp > q.head[m].stamp)
            && (forall r | r in q.driver && r.Work() :: r.stamp <= q.head[m].stamp)
  {
    InitialState();
    RunInv(EMPTY, steps);
    var q := After(EMPTY, steps);
    assert q.head[m] in q.head && q.head[i] in q.head;
    if i < m { assert InOrder(q.head[i], q.head[m], q.finished); }
    else { assert InOrder(q.head[m], q.head[i], q.finished); }
  }

  /** Every submitted bio is held once or has ended once; requests hold only bios of their own epoch. */
  lemma ExactlyOnce(steps: seq<Step>, b: nat)
    requires Runs(EMPTY, steps) && CarefulRun(EMPTY, steps)
    ensures var q := After(EMPTY, steps);
            && Bios(q.head)[b] + Bios(q.sched)[b] + Bios(q.driver)[b]
               + (if Active(q) then multiset(q.orig.value.bios)[b] else 0) + q.ended[b]
               == (if b in q.epochOf then 1 else 0)
    ensures var q := After(EMPTY, steps);
            forall r | (r in q.head || r in q.sched || r in q.driver) && b in r.bios ::
              b in q.epochOf && q.epochOf[b] == r.stamp
  {
    InitialState();
    RunInv(EMPTY, steps);
    var q := After(EMPTY, steps);
    assert multiset(q.epochOf.Keys)[b] == if b in q.epochOf then 1 else 0;
  }

  /** The counters and the merge cache agree with the lists they summarise. */
  lemma CountersAgree(steps: seq<Step>)
    requires Runs(EMPTY, steps) && CarefulRun(EMPTY, steps)
    ensures var q := After(EMPTY, steps);
            && q.nrSorted == |q.sched|
            && q.inFlight == CountFs(q.driver)
            && (q.lastMerge.Some? ==> exists r :: r in q.sched && r.id == q.lastMerge.value)
  {
    InitialState();
    RunInv(EMPTY, steps);
  }

  /** The embedded requests are prepared only when none of them is live, and each stage bit is set once. */
  lemma ProxiesLiveOnce(steps: seq<Step>)
    requires Runs(EMPTY, steps) && CarefulRun(EMPTY, steps)
    ensures var q := After(EMPTY, steps);
            && (q.ordseq == IDLE ==>
                  (forall r | r in q.head :: r.id.Normal?) && (forall r | r in q.driver :: r.id.Normal?))
            && (forall i | 0 <= i < |q.driver| && !q.driver[i].id.Normal? ::
                  q.orig.Some? && !Has(q.ordseq, StageOf(q.driver[i].id)) && CountId(q.driver, q.driver[i].id) == 1)
            && (q.orig.Some? <==> q.ordseq != IDLE)
  {
    InitialState();
    RunInv(EMPTY, steps);
    var q := After(EMPTY, steps);
    forall i | 0 <= i < |q.driver| && !q.driver[i].id.Normal?
      ensures q.orig.Some? && !Has(q.ordseq, StageOf(q.driver[i].id)) && CountId(q.driver, q.driver[i].id) == 1
    {
      ProxyIssued(q, i);
    }
    if q.ordseq == IDLE {
      forall r | r in q.head || r in q.driver ensures r.id.Normal? {
        if !r.id.Normal? { ProxyHere(q, r.id); }
      }
    }
  }

  /** The driver may ask for a request after every careful run: blk_do_ordered finds the barrier of a running sequence. */
  lemma FetchAlwaysEnabled(steps: seq<Step>)
    requires Runs(EMPTY, steps) && CarefulRun(EMPTY, steps)
    ensures Enabled(After(EMPTY, steps), FetchNext)
  {
    InitialState();
    RunInv(EMPTY, steps);
  }

  // ---------------------------------------------------------------- schedulers

  /** Whatever request the scheduler sends into an empty dispatch queue is the one the driver is given. */
  lemma ChoiceIsFetched(q: Queue, i: nat)
    requires Inv(q) && !Active(q) && q.head == [] && i < |q.sched|
    ensures Fetch(Apply(q, Sends(i))).1 == Some(q.sched[i].id)
  {
    var r := q.sched[i];
    assert r in q.sched;
    var d := NoopDispatch(Favoured(q, i));
    assert d.head == [r];
    assert NextHead(d) == (d, Some(r.id));
  }

  // ---------------------------------------------------------------- progress

  lemma PendingAtHead(q: Queue, id: Rid)
    requires Inv(q) && Active(q) && q.ordseq.drain && !id.Normal?
    requires Pending(q, id) && CurSeq(q.ordseq) == ReqSeq(q.orig.value, FlushRq(id)) && CountId(q.driver, id) == 0
    ensures q.head != [] && (q.head[0].Special() || q.head[0].id == id)
  {
    ProxyHere(q, id);
    var x :| x in q.head && x.id == id;
    var m :| 0 <= m < |q.head| && q.head[m] == x;
    var h := q.head[0];
    assert h in q.head;
    if m > 0 && !h.Special() {
      assert InOrder(q.head[0], q.head[m], q.finished);
      if !h.id.Normal? { ProxyHere(q, h.id); }
    }
  }

  /** A running sequence never hangs: the driver holds something, or it is given something. */
  lemma SequenceNeverHangs(steps: seq<Step>)
    requires Runs(EMPTY, steps) && CarefulRun(EMPTY, steps)
    requires Active(After(EMPTY, steps)) && After(EMPTY, steps).driver == []
    ensures Fetch(After(EMPTY, steps)).1.Some?
  {
    InitialState();
    RunInv(EMPTY, steps);
    HeadCanMove(After(EMPTY, steps));
  }

  lemma HeadCanMove(q: Queue)
    requires Inv(q) && Active(q) && q.driver == []
    ensures q.head != [] && DoOrdered(q) == (q, Give(Some(q.head[0].id)))
  {
    if Draining(q) {
      assert Movable(q.head, q.orig.value);
    } else if !q.ordseq.preflush {
      PendingAtHead(q, PreFlushRq);
    } else if !q.ordseq.bar {
      PendingAtHead(q, BarRq);
    } else {
      PendingAtHead(q, PostFlushRq);
    }
  }
}
