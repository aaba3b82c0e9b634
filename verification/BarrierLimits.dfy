/**
  Where ordered writes do not hold: something past the drain stage at the head of the queue hides a
  request that a barrier waits for, and the queue is taken for drained too early.  A command of the
  wrong colour comes to stand there; the other case that `Careful` leaves out is in `BarrierRejection`.
 */
module BarrierLimits {
  import opened Wrappers
  import opened RequestQueue
  import opened BarrierInvariant
  import opened BarrierSubmission
  import opened BarrierCompletion
  import opened BarrierTheorems

  /** The queue counts as drained although a request from before the barrier is still queued. */
  ghost predicate Overtaken(q: Queue) {
    Active(q) && q.ordseq.drain && exists r :: r in q.head && r.Work() && r.stamp <= q.orig.value.stamp
  }

  /** No careful run gets there. */
  lemma NeverOvertaken(steps: seq<Step>)
    requires Runs(EMPTY, steps) && CarefulRun(EMPTY, steps)
    ensures !Overtaken(After(EMPTY, steps))
  {
    InitialState();
    RunInv(EMPTY, steps);
  }

  // ---------------------------------------------------------------- commands at the head

  /** What stands at the head is past the drain stage and hides a request that the sequence waits for. */
  ghost predicate Hidden(q: Queue) {
    && Draining(q) && q.ordseq.started && !q.ordseq.bar
    && q.head != [] && ReqSeq(q.orig.value, q.head[0]) > ORDSEQ_DRAIN
    && (exists r :: r in q.head && r.Work() && r.stamp <= q.orig.value.stamp)
    && (forall r | r in q.driver :: r.id.Normal? && r.started)
    && q.inFlight == CountFs(q.driver)
  }

  lemma Chain(q: Queue, a: Step, rest: seq<Step>)
    requires Enabled(q, a) && Runs(Apply(q, a), rest)
    ensures Runs(q, [a] + rest) && After(q, [a] + rest) == After(Apply(q, a), rest)
  {
    assert ([a] + rest)[1..] == rest;
  }

  /** With a hidden request, the check of elv_completed_request fires as soon as nothing is in flight. */
  lemma HiddenDrainFires(q: Queue)
    requires Hidden(q.(driver := [], inFlight := 0)) && q.inFlight == 0
    ensures Overtaken(DrainCheck(q))
  {
    var d := DrainCheck(q);
    assert d == q.(ordseq := q.ordseq.(drain := true));
    var r :| r in q.head && r.Work() && r.stamp <= q.orig.value.stamp;
    assert r in d.head;
  }

  lemma HiddenStays(q: Queue)
    requires Hidden(q)
    ensures Hidden(q.(driver := [], inFlight := 0))
  {
  }

  function Fewer(q: Queue): Queue
    requires q.driver != []
  {
    q.(driver := q.driver[1..], inFlight := CountFs(q.driver[1..]))
  }

  lemma EndForm(q: Queue, r: Req)
    requires q.driver != [] && r == q.driver[0] && r.id.Normal? && r.started && q.inFlight == CountFs(q.driver)
    ensures var d := DrainCheck(Fewer(q)); EndRequest(q, 0) == d.(ended := d.ended + multiset(r.bios))
  {
    assert RemoveAt(q.driver, 0) == q.driver[1..];
  }

  lemma HiddenFewer(q: Queue)
    requires Hidden(q) && q.driver != []
    ensures Hidden(Fewer(q))
  {
    assert forall x | x in q.driver[1..] :: x in q.driver;
  }

  lemma OvertakenEnded(q: Queue, e: multiset<nat>)
    requires Overtaken(q)
    ensures Overtaken(q.(ended := e))
  {
  }

  lemma HiddenEnded(q: Queue, e: multiset<nat>)
    requires Hidden(q) && q.inFlight != 0
    ensures DrainCheck(q) == q && Hidden(q.(ended := e))
  {
  }

  lemma EndWhileHidden(q: Queue)
    requires Hidden(q) && q.driver != []
    ensures var q' := EndRequest(q, 0);
            if q'.inFlight == 0 then Overtaken(q') else Hidden(q') && |q'.driver| < |q.driver|
  {
    var r := q.driver[0];
    assert r in q.driver;
    EndForm(q, r);
    HiddenFewer(q);
    var f := Fewer(q);
    if f.inFlight == 0 {
      HiddenStays(f);
      HiddenDrainFires(f);
      OvertakenEnded(DrainCheck(f), DrainCheck(f).ended + multiset(r.bios));
    } else {
      HiddenEnded(f, f.ended + multiset(r.bios));
    }
  }

  function HeadCommand(q: Queue, id: nat): Req {
    Req(Normal(id), false, false, false, true, false, false, q.ordcolor, true, 0, 0, [], q.barriers)
  }

  lemma FetchCommand(q: Queue, s: Req)
    requires Active(q) && q.ordseq.started && s.Special()
    ensures var q1 := q.(head := [s] + q.head);
            var q2 := Fetch(q1).0;
            q2 == q.(head := [s.(started := true)] + q.head, endSector := q2.endSector, boundary := q2.boundary)
  {
    var q1 := q.(head := [s] + q.head);
    assert NextHead(q1) == (q1, Some(s.id));
    assert q1.head[1..] == q.head;
  }

  lemma TakeCommand(q: Queue, s: Req)
    requires q.driver == [] && s.Special() && s.started
    ensures Take(q.(head := [s] + q.head), 0) == q.(driver := [s])
  {
    assert RemoveAt([s] + q.head, 0) == q.head;
  }

  /** The command is taken off the queue and ends. */
  lemma CommandPasses(q: Queue, s: Req, e: nat, b: Option<Rid>)
    requires Hidden(q) && q.driver == [] && s.Special() && s.bios == [] && s.started
    ensures var q2 := q.(head := [s] + q.head, endSector := e, boundary := b);
            var q3 := Take(q2, 0);
            q3.driver == [s] && Overtaken(EndRequest(q3, 0))
  {
    var q4 := q.(endSector := e, boundary := b);
    TakeCommand(q4, s);
    assert Hidden(q4);
    HiddenStays(q4);
    HiddenDrainFires(q4);
    EndOnly(q4, s);
  }

  lemma EndOnly(q: Queue, s: Req)
    requires q.driver == [] && s.Special() && s.bios == []
    ensures EndRequest(q.(driver := [s]), 0) == DrainCheck(q)
  {
    assert RemoveAt([s], 0) == [];
  }

  lemma RunOfFour(q: Queue, a: Step, b: Step, c: Step, d: Step)
    requires Enabled(q, a) && Enabled(Apply(q, a), b) && Enabled(Apply(Apply(q, a), b), c)
    requires Enabled(Apply(Apply(Apply(q, a), b), c), d)
    ensures var steps := [a] + ([b] + ([c] + [d]));
            Runs(q, steps) && After(q, steps) == Apply(Apply(Apply(Apply(q, a), b), c), d)
  {
    var q1 := Apply(q, a);
    var q2 := Apply(q1, b);
    assert [d] == [d] + [];
    Chain(Apply(q2, c), d, []);
    Chain(q2, c, [d]);
    Chain(q1, b, [c] + [d]);
    Chain(q, a, [b] + ([c] + [d]));
  }

  /** Any completion while nothing is in flight then declares the queue drained. */
  lemma CommandWhileHidden(q: Queue, id: nat)
    requires Hidden(q) && q.driver == []
    ensures var steps := [Command(id, true)] + ([FetchNext] + ([TakeOff(0)] + [End(0)]));
            Runs(q, steps) && Overtaken(After(q, steps))
  {
    var s := HeadCommand(q, id);
    var q1 := SubmitSpecial(q, id, true);
    assert q1 == q.(head := [s] + q.head);
    var q2 := Fetch(q1).0;
    FetchCommand(q, s);
    CommandPasses(q, s.(started := true), q2.endSector, q2.boundary);
    RunOfFour(q, Command(id, true), FetchNext, TakeOff(0), End(0));
  }

  lemma {:induction false} HiddenIsDoomed(q: Queue) returns (steps: seq<Step>)
    requires Hidden(q)
    ensures Runs(q, steps) && Overtaken(After(q, steps))
    decreases |q.driver|
  {
    if q.driver == [] {
      CommandWhileHidden(q, 0);
      steps := [Command(0, true)] + ([FetchNext] + ([TakeOff(0)] + [End(0)]));
    } else {
      EndWhileHidden(q);
      var q' := Apply(q, End(0));
      var rest: seq<Step> := [];
      if q'.inFlight != 0 { rest := HiddenIsDoomed(q'); }
      steps := [End(0)] + rest;
      Chain(q, End(0), rest);
    }
  }

  /**
    The converse of the second clause of `Careful`: put a command of the wrong colour in front of a
    request that a sequence waits for, and some continuation takes the queue for drained too early.
   */
  lemma FrontCommandUnsafe(q: Queue, id: nat) returns (steps: seq<Step>)
    requires Inv(q) && WrongColor(q) && WorkAheadOfBar(q.head)
    ensures steps != [] && steps[0] == Command(id, true) && Runs(q, steps) && Overtaken(After(q, steps))
  {
    var q1 := Apply(q, Command(id, true));
    BecomesHidden(q, id);
    var rest := HiddenIsDoomed(q1);
    steps := [Command(id, true)] + rest;
    Chain(q, Command(id, true), rest);
  }

  lemma DrainingDriver(q: Queue, r: Req)
    requires Inv(q) && Draining(q) && r in q.driver
    ensures r.id.Normal? && r.started
  {
    if !r.id.Normal? { CountIdIn(q.driver, r.id); }
  }

  lemma BecomesHidden(q: Queue, id: nat)
    requires Inv(q) && WrongColor(q) && WorkAheadOfBar(q.head)
    ensures Hidden(SubmitSpecial(q, id, true))
  {
    var q1 := SubmitSpecial(q, id, true);
    assert q1 == q.(head := [HeadCommand(q, id)] + q.head);
    var i, j :| 0 <= i < j < |q.head| && q.head[i].Work() && q.head[j].id.BarRq?;
    AheadOfBar(q, i);
    var r := q.head[i];
    assert r in q1.head && r.Work() && r.stamp <= q.orig.value.stamp;
    forall x | x in q.driver ensures x.id.Normal? && x.started { DrainingDriver(q, x); }
  }

  // ---------------------------------------------------------------- turned-down barriers

  lemma FetchStartsDrain(q: Queue)
    requires q.ordseq == IDLE && |q.head| == 1 && q.head[0].Barrier() && q.nextOrdered == Drain && q.inFlight > 0
    requires q.sched == []
    ensures Fetch(q) == (StartOrdered(q).0, None)
  {
    assert NextHead(q) == (StartOrdered(q).0, None);
  }

  lemma StartedDrain(q: Queue)
    requires |q.head| == 1 && q.head[0].Barrier() && q.nextOrdered == Drain && q.orig.None? && q.ordseq == IDLE
    requires q.inFlight > 0 && !q.head[0].started
    ensures var q' := StartOrdered(q).0;
            && Active(q') && |q'.head| == 1 && q'.head[0].id.BarRq? && q'.head[0].fs && q'.driver == q.driver
            && q'.orig.value.color == q.head[0].color && q'.sched == q.sched
            && q'.ordseq == OrdSeq(true, false, true, false, true) && q'.inFlight == q.inFlight
            && q'.orig.value.stamp == q.head[0].stamp
  {
    assert q.head[1..] == [];
  }

  lemma RequeueBehind(q4: Queue, q5: Queue)
    requires Active(q4) && |q4.head| == 1 && q4.head[0].id.BarRq? && q4.head[0].fs && q4.inFlight == 1
    requires |q4.driver| == 1 && q4.driver[0].Work() && q4.driver[0].started
    requires q4.driver[0].color != q4.orig.value.color && q4.driver[0].stamp <= q4.orig.value.stamp
    requires q4.ordseq == OrdSeq(true, false, true, false, true)
    requires q5 == RequeueRequest(q4, 0)
    ensures Hidden(q5)
  {
    assert q4.head[1..] == [];
    assert q5.head[0] == q4.head[0];
    assert q5.head[1].Work() && q5.head[1].stamp <= q5.orig.value.stamp;
    assert q5.head[1] in q5.head;
  }
}
