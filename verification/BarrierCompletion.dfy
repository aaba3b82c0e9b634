/** Commands, requeueing and completion keep the invariant. */
module BarrierCompletion {
  import opened RequestQueue
  import opened BarrierInvariant
  import opened BarrierSubmission

  // ---------------------------------------------------------------- commands

  function WithInserted(q: Queue, p: nat, r: Req): Queue
    requires p <= |q.head|
  {
    q.(head := InsertAt(q.head, p, r))
  }

  predicate Inserting(q: Queue, p: nat, r: Req) {
    p <= |q.head| && r.soft && r.bios == [] && !r.started
  }

  lemma BarriersStay(h: seq<Req>, p: nat, r: Req, k: nat)
    requires p <= |h| && HasBarrier(h, k)
    ensures HasBarrier(InsertAt(h, p, r), k)
  {
    var b :| b in h && b.Barrier() && b.stamp == k;
    assert b in InsertAt(h, p, r);
  }

  lemma InsertConserved(q: Queue, p: nat, r: Req)
    requires Conserved(q) && Inserting(q, p, r) && !r.Work()
    ensures Conserved(WithInserted(q, p, r))
  {
    Inserted(q.head, p, r);
  }

  lemma InsertCounted(q: Queue, p: nat, r: Req)
    requires Counted(q) && p <= |q.head|
    ensures Counted(WithInserted(q, p, r))
  {
    var q' := WithInserted(q, p, r);
    forall k | q'.finished <= k < q'.barriers && !(Active(q') && k == q'.finished)
      ensures HasBarrier(q'.head, k)
    {
      BarriersStay(q.head, p, r, k);
    }
  }

  lemma SpecialExposed(q: Queue, p: nat, r: Req)
    requires p <= |q.head| && r.Special() && Draining(q) && Exposed(q.head, q.orig.value, q.finished)
    requires || ReqSeq(q.orig.value, r) == ORDSEQ_DRAIN
             || forall j | p <= j < |q.head| :: q.head[j].Work() ==> q.head[j].stamp != q.finished
    ensures Exposed(InsertAt(q.head, p, r), q.orig.value, q.finished)
  {
    var h := InsertAt(q.head, p, r);
    forall i, j | 0 <= i < j < |h| && h[j].Work() && h[j].stamp == q.finished
      ensures ReqSeq(q.orig.value, h[i]) == ORDSEQ_DRAIN
    {
      var j' := if j < p then j else j - 1;
      assert h[j] == q.head[j'];
      if i != p {
        var i' := if i < p then i else i - 1;
        assert h[i] == q.head[i'];
      }
    }
  }

  lemma SpecialPlaced(q: Queue, p: nat, r: Req)
    requires Core(q) && Inserting(q, p, r) && r.Special() && !r.hard
    ensures Placed(WithInserted(q, p, r))
  {
    InsertOrdered(q.head, p, r, q.finished);
    InsertMembers(q.head, p, r);
  }

  lemma SpecialSequenced(q: Queue, p: nat, r: Req)
    requires Sequenced(q) && p <= |q.head| && r.id.Normal?
    ensures Sequenced(WithInserted(q, p, r))
  {
    Inserted(q.head, p, r);
  }

  lemma SpecialCore(q: Queue, p: nat, r: Req)
    requires Core(q) && Inserting(q, p, r) && r.Special() && !r.hard
    requires Draining(q) ==>
               || ReqSeq(q.orig.value, r) == ORDSEQ_DRAIN
               || forall j | p <= j < |q.head| :: q.head[j].Work() ==> q.head[j].stamp != q.finished
    ensures Core(WithInserted(q, p, r))
  {
    InsertConserved(q, p, r);
    InsertCounted(q, p, r);
    SpecialPlaced(q, p, r);
    SpecialSequenced(q, p, r);
    InsertMembers(q.head, p, r);
    if Draining(q) { SpecialExposed(q, p, r); }
  }

  lemma SpecialMovable(h: seq<Req>, p: nat, r: Req, orig: Req)
    requires p <= |h| && r.Special() && Movable(h, orig)
    ensures Movable(InsertAt(h, p, r), orig)
  {
    var i :| 0 <= i < |h| && h[i].id.Normal? && ReqSeq(orig, h[i]) == ORDSEQ_DRAIN
             && forall j | 0 <= j < i :: h[j].Special();
    var h' := InsertAt(h, p, r);
    var i' := if i < p then i else i + 1;
    assert h'[i'] == h[i];
    forall j | 0 <= j < i' ensures h'[j].Special() {
      if j < p { assert h'[j] == h[j]; } else if j > p { assert h'[j] == h[j - 1]; }
    }
  }

  lemma SpecialInv(q: Queue, p: nat, r: Req)
    requires Inv(q) && Inserting(q, p, r) && r.Special() && !r.hard
    requires Draining(q) ==>
               || ReqSeq(q.orig.value, r) == ORDSEQ_DRAIN
               || forall j | p <= j < |q.head| :: q.head[j].Work() ==> q.head[j].stamp != q.finished
    ensures Inv(WithInserted(q, p, r))
  {
    SpecialCore(q, p, r);
    if Draining(q) && q.inFlight == 0 && Movable(q.head, q.orig.value) {
      SpecialMovable(q.head, p, r, q.orig.value);
    }
  }

  /** While a queue drains, what stands before bar_rq is exactly what the sequence waits for. */
  lemma AheadOfBar(q: Queue, i: nat)
    requires Core(q) && Draining(q) && i < |q.head| && q.head[i].Work()
    ensures q.head[i].stamp == q.finished <==> exists j :: i < j < |q.head| && q.head[j].id.BarRq?
  {
    ProxyHere(q, BarRq);
    var b :| b in q.head && b.id == BarRq;
    var m :| 0 <= m < |q.head| && q.head[m] == b;
    assert q.head[i] in q.head;
    if i < m { assert InOrder(q.head[i], q.head[m], q.finished); }
    if m < i { assert InOrder(q.head[m], q.head[i], q.finished); }
    if j :| i < j < |q.head| && q.head[j].id.BarRq? {
      assert InOrder(q.head[i], q.head[j], q.finished);
    }
  }

  lemma FrontCommandInv(q: Queue, r: Req)
    requires Inv(q) && r.Special() && !r.hard && !r.started && r.soft && r.bios == [] && r.color == q.ordcolor
    requires WrongColor(q) ==> !WorkAheadOfBar(q.head)
    ensures Inv(WithInserted(q, 0, r))
  {
    if WrongColor(q) {
      forall j | 0 <= j < |q.head| && q.head[j].Work() ensures q.head[j].stamp != q.finished {
        AheadOfBar(q, j);
      }
    }
    SpecialInv(q, 0, r);
  }

  lemma BackCommandInv(q: Queue, r: Req)
    requires Inv(q) && r.Special() && !r.hard && !r.started && r.soft && r.bios == [] && r.color == q.ordcolor
    ensures Inv(WithInserted(DrainElevator(q), |DrainElevator(q).head|, r))
  {
    DrainInv(q);
    var d := DrainElevator(q);
    SpecialInv(d, |d.head|, r);
  }

  lemma CommandInv(q: Queue, id: nat, front: bool)
    requires Inv(q) && Careful(q, Command(id, front))
    ensures Inv(SubmitSpecial(q, id, front))
  {
    var r := Req(Normal(id), false, false, false, true, false, false, q.ordcolor, true, 0, 0, [], q.barriers);
    if front {
      assert InsertAt(q.head, 0, r) == [r] + q.head;
      FrontCommandInv(q, r);
    } else {
      var d := DrainElevator(q);
      assert InsertAt(d.head, |d.head|, r) == d.head + [r];
      BackCommandInv(q, r);
    }
  }

  // ---------------------------------------------------------------- drained?

  /** When the check fires, everything submitted before the barrier has ended. */
  lemma DrainCheckFires(q: Queue)
    requires Core(q) && Draining(q) && q.inFlight == 0 && q.head != []
    requires ReqSeq(q.orig.value, q.head[0]) > ORDSEQ_DRAIN
    ensures forall r | r in q.head && r.Work() :: r.stamp > q.finished
    ensures forall r | r in q.driver :: !r.Work()
  {
    CountFsIn(q.driver);
    forall r | r in q.head && r.Work() ensures r.stamp > q.finished {
      var j :| 0 <= j < |q.head| && q.head[j] == r;
    }
  }

  lemma DrainedCore(q: Queue)
    requires Core(q) && Draining(q) && q.inFlight == 0 && q.head != []
    requires ReqSeq(q.orig.value, q.head[0]) > ORDSEQ_DRAIN
    ensures Core(q.(ordseq := q.ordseq.(drain := true)))
  {
    DrainCheckFires(q);
    var q' := q.(ordseq := q.ordseq.(drain := true));
    assert Placed(q') && Counted(q');
    assert Sequenced(q');
    assert StagesKept(q');
  }

  lemma NotDrained(q: Queue)
    requires Core(q) && Draining(q) && q.inFlight == 0
    ensures q.head != []
    ensures ReqSeq(q.orig.value, q.head[0]) <= ORDSEQ_DRAIN ==> Movable(q.head, q.orig.value)
  {
    ProxyHere(q, BarRq);
    if ReqSeq(q.orig.value, q.head[0]) <= ORDSEQ_DRAIN {
      PrefixMovable(q.head, q.head, 0, q.orig.value);
    }
  }

  /** The check at the end of elv_completed_request never loses the wakeup. */
  lemma DrainCheckInv(q: Queue)
    requires Core(q)
    ensures Inv(DrainCheck(q))
  {
    if Draining(q) && q.inFlight == 0 {
      NotDrained(q);
      if ReqSeq(q.orig.value, q.head[0]) > ORDSEQ_DRAIN { DrainedCore(q); }
    }
  }

  // ---------------------------------------------------------------- what the driver gives back

  function Without(q: Queue, i: nat): Queue
    requires i < |q.driver|
  {
    q.(driver := RemoveAt(q.driver, i),
       inFlight := if q.driver[i].Account() then q.inFlight - 1 else q.inFlight)
  }

  lemma WithoutMembers(q: Queue, i: nat)
    requires i < |q.driver|
    ensures q.driver[i] in q.driver && forall x | x in Without(q, i).driver :: x in q.driver
  {
  }

  lemma WithoutPlaced(q: Queue, i: nat)
    requires Placed(q) && i < |q.driver|
    ensures Placed(Without(q, i))
  {
    WithoutMembers(q, i);
  }

  lemma WithoutCounted(q: Queue, i: nat)
    requires Counted(q) && i < |q.driver| && q.driver[i].started
    ensures Counted(Without(q, i))
  {
    Removed(q.driver, i);
  }

  lemma WithoutSequenced(q: Queue, i: nat)
    requires Sequenced(q) && i < |q.driver| && q.driver[i].id.Normal?
    ensures Sequenced(Without(q, i))
  {
    Removed(q.driver, i);
  }

  lemma WithoutStages(q: Queue, i: nat)
    requires StagesKept(q) && i < |q.driver|
    ensures StagesKept(Without(q, i))
  {
    Removed(q.driver, i);
    WithoutMembers(q, i);
  }

  lemma WithoutConserved(q: Queue, i: nat)
    requires Conserved(q) && i < |q.driver|
    ensures Conserved(Without(q, i).(ended := q.ended + multiset(q.driver[i].bios)))
  {
    Removed(q.driver, i);
    WithoutMembers(q, i);
    SumMoves(Bios(q.head) + Bios(q.sched), Bios(RemoveAt(q.driver, i)), multiset(q.driver[i].bios),
             if Active(q) then multiset(q.orig.value.bios) else multiset{}, q.ended);
  }

  lemma SumMoves(a: multiset<nat>, b: multiset<nat>, x: multiset<nat>, c: multiset<nat>, e: multiset<nat>)
    ensures a + (b + x) + c + e == a + b + c + (e + x)
  {
  }

  lemma WithoutNormal(q: Queue, i: nat)
    requires Core(q) && i < |q.driver| && q.driver[i].id.Normal?
    ensures var q1 := Without(q, i);
            Placed(q1) && Counted(q1) && Sequenced(q1) && StagesKept(q1)
    ensures Core(Without(q, i).(ended := q.ended + multiset(q.driver[i].bios)))
  {
    WithoutMembers(q, i);
    WithoutPlaced(q, i);
    WithoutCounted(q, i);
    WithoutSequenced(q, i);
    WithoutStages(q, i);
    WithoutConserved(q, i);
    EndedOnly(Without(q, i), q.ended + multiset(q.driver[i].bios));
  }

  lemma EndedOnly(q: Queue, ended: multiset<nat>)
    requires Placed(q) && Counted(q) && Sequenced(q) && StagesKept(q)
    ensures var q1 := q.(ended := ended);
            Placed(q1) && Counted(q1) && Sequenced(q1) && StagesKept(q1)
  {
  }

  lemma DrainCheckEnded(q: Queue, e: multiset<nat>)
    requires Draining(q) ==> !q.ordseq.bar
    ensures DrainCheck(q).(ended := DrainCheck(q).ended + e) == DrainCheck(q.(ended := q.ended + e))
  {
  }

  lemma EndNormalInv(q: Queue, i: nat)
    requires Inv(q) && i < |q.driver| && q.driver[i].id.Normal?
    ensures Inv(EndRequest(q, i))
  {
    var r := q.driver[i];
    WithoutNormal(q, i);
    DrainCheckInv(Without(q, i).(ended := q.ended + multiset(r.bios)));
    DrainCheckEnded(Without(q, i), multiset(r.bios));
  }

  // ---------------------------------------------------------------- a proxy ends

  /** A proxy reaches the driver only when the stages before it are over. */
  lemma ProxyIssued(q: Queue, i: nat)
    requires Core(q) && i < |q.driver| && !q.driver[i].id.Normal?
    ensures var id := q.driver[i].id;
            && Pending(q, id) && q.ordseq.drain
            && CountId(q.head, id) == 0 && CountId(q.driver, id) == 1
            && CurSeq(q.ordseq) == ReqSeq(q.orig.value, q.driver[i])
  {
    var id := q.driver[i].id;
    assert q.driver[i] in q.driver;
    ProxyHere(q, id);
    CountIdIn(q.driver, id);
  }

  function StageEnded(q: Queue, i: nat): Queue
    requires i < |q.driver| && !q.driver[i].id.Normal?
  {
    Without(q, i).(ordseq := SetBit(q.ordseq, StageOf(q.driver[i].id)))
  }

  lemma StageEndedPlaced(q: Queue, i: nat)
    requires Core(q) && i < |q.driver| && !q.driver[i].id.Normal?
    ensures var q1 := StageEnded(q, i); Placed(q1) && Counted(q1) && Conserved(q1)
  {
    var q1 := StageEnded(q, i);
    Removed(q.driver, i);
    assert q.driver[i] in q.driver;
    assert forall x | x in q1.driver :: x in q.driver;
  }

  lemma StageEndedCore(q: Queue, i: nat)
    requires Core(q) && i < |q.driver| && !q.driver[i].id.Normal?
    requires CurSeq(StageEnded(q, i).ordseq) != ORDSEQ_DONE
    ensures Core(StageEnded(q, i))
  {
    var q1 := StageEnded(q, i);
    ProxyIssued(q, i);
    StageEndedPlaced(q, i);
    Removed(q.driver, i);
    assert forall x | x in q1.driver :: x in q.driver;
    assert Sequenced(q1);
    assert StagesKept(q1);
  }

  lemma SequenceOver(q: Queue, i: nat)
    requires Core(q) && i < |q.driver| && !q.driver[i].id.Normal?
    requires CurSeq(StageEnded(q, i).ordseq) == ORDSEQ_DONE
    ensures Inv(FinishSequence(StageEnded(q, i)))
  {
    var q1 := StageEnded(q, i);
    var q' := FinishSequence(q1);
    ProxyIssued(q, i);
    StageEndedPlaced(q, i);
    Removed(q.driver, i);
    NoProxiesLeft(q, i);
    assert forall x | x in q1.driver :: x in q.driver;
    assert Sequenced(q');
    FinishPlaced(q1);
  }

  lemma NoProxiesLeft(q: Queue, i: nat)
    requires Core(q) && i < |q.driver| && !q.driver[i].id.Normal?
    requires CurSeq(StageEnded(q, i).ordseq) == ORDSEQ_DONE
    ensures forall r | r in q.head :: r.id.Normal?
    ensures forall r | r in RemoveAt(q.driver, i) :: r.id.Normal?
    ensures forall id: Rid | !id.Normal? :: CountId(q.head, id) == 0 && CountId(RemoveAt(q.driver, i), id) == 0
  {
    ProxyIssued(q, i);
    Removed(q.driver, i);
    var d := RemoveAt(q.driver, i);
    forall id: Rid | !id.Normal? ensures CountId(q.head, id) == 0 && CountId(d, id) == 0 {
    }
    forall r | r in q.head ensures r.id.Normal? { CountIdIn(q.head, r.id); }
    forall r | r in d ensures r.id.Normal? { CountIdIn(d, r.id); }
  }

  lemma FinishPlaced(q: Queue)
    requires Active(q) && Placed(q) && Counted(q) && Conserved(q) && q.finished < q.barriers
    requires forall r | r in q.head :: r.id.Normal? && (r.Work() ==> r.stamp > q.finished)
    requires forall r | r in q.driver :: r.id.Normal? && !r.Work()
    ensures var q' := FinishSequence(q); Placed(q') && Counted(q') && Conserved(q')
  {
    var q' := FinishSequence(q);
    forall i, j | 0 <= i < j < |q'.head| ensures InOrder(q'.head[i], q'.head[j], q'.finished) {
      assert InOrder(q.head[i], q.head[j], q.finished);
      assert q.head[i] in q.head && q.head[j] in q.head;
    }
  }

  lemma EndProxyInv(q: Queue, i: nat)
    requires Inv(q) && i < |q.driver| && !q.driver[i].id.Normal?
    ensures Inv(EndRequest(q, i))
  {
    ProxyIssued(q, i);
    EndProxyForm(q, i);
    if CurSeq(StageEnded(q, i).ordseq) != ORDSEQ_DONE {
      StageEndedCore(q, i);
    } else {
      SequenceOver(q, i);
    }
  }

  lemma EndProxyForm(q: Queue, i: nat)
    requires i < |q.driver| && !q.driver[i].id.Normal? && Active(q)
    requires CurSeq(q.ordseq) == ReqSeq(q.orig.value, q.driver[i])
    ensures var e := StageEnded(q, i);
            EndRequest(q, i) == if CurSeq(e.ordseq) != ORDSEQ_DONE then e else FinishSequence(e)
  {
    assert CurSeq(q.ordseq) != ORDSEQ_DRAIN;
    assert DrainCheck(Without(q, i)) == Without(q, i);
    assert EndRequest(q, i) == CompleteSeq(Without(q, i), StageOf(q.driver[i].id));
  }

  // ---------------------------------------------------------------- requeueing

  function RequeuePlace(q: Queue, r: Req): (p: nat)
    ensures p <= |q.head|
  {
    if Active(q) then RequeuePos(q.head, q.orig.value, ReqSeq(q.orig.value, r)) else 0
  }

  lemma RequeueAt(q: Queue, i: nat)
    requires i < |q.driver|
    ensures var r1 := q.driver[i].(started := false, soft := true);
            RequeueRequest(q, i) == WithInserted(Without(q, i), RequeuePlace(q, r1), r1)
  {
    var r1 := q.driver[i].(started := false, soft := true);
    assert InsertAt(q.head, 0, r1) == [r1] + q.head;
  }

  lemma WithoutSpecial(q: Queue, i: nat)
    requires Core(q) && i < |q.driver| && q.driver[i].Special()
    ensures Core(Without(q, i))
  {
    WithoutNormal(q, i);
    assert q.driver[i] in q.driver;
    assert q.ended + multiset(q.driver[i].bios) == q.ended;
  }

  lemma RequeueSpecial(q: Queue, i: nat)
    requires Inv(q) && i < |q.driver| && q.driver[i].Special()
    ensures Inv(RequeueRequest(q, i))
  {
    var q1 := Without(q, i);
    var r1 := q.driver[i].(started := false, soft := true);
    var p := RequeuePlace(q, r1);
    assert q.driver[i] in q.driver;
    WithoutSpecial(q, i);
    RequeueAt(q, i);
    RequeueSpecialSafe(q1, p, r1);
    SpecialCore(q1, p, r1);
    RequeueSpecialLive(q, i, p, r1);
  }

  lemma RequeueSpecialSafe(q: Queue, p: nat, r: Req)
    requires Core(q) && r.Special()
    requires p == RequeuePlace(q, r)
    ensures Draining(q) ==>
              || ReqSeq(q.orig.value, r) == ORDSEQ_DRAIN
              || forall j | p <= j < |q.head| :: q.head[j].Work() ==> q.head[j].stamp != q.finished
  {
    if Draining(q) && ReqSeq(q.orig.value, r) != ORDSEQ_DRAIN {
      forall j | p <= j < |q.head| && q.head[j].Work() ensures q.head[j].stamp != q.finished {
        assert q.head[j] in q.head;
      }
    }
  }

  lemma RequeueSpecialLive(q: Queue, i: nat, p: nat, r: Req)
    requires Inv(q) && i < |q.driver| && q.driver[i].Special() && r.Special() && r.color == q.driver[i].color
    requires p == RequeuePlace(q, r)
    ensures Live(WithInserted(Without(q, i), p, r))
  {
    var q' := WithInserted(Without(q, i), p, r);
    if Draining(q) && q'.inFlight == 0 {
      if ReqSeq(q.orig.value, r) == ORDSEQ_DRAIN {
        assert p == 0;
        PrefixMovable(q'.head, q'.head, 0, q.orig.value);
      } else if Movable(q.head, q.orig.value) {
        SpecialMovable(q.head, p, r, q.orig.value);
      } else {
        var x :| x in q.driver && x.Special() && ReqSeq(q.orig.value, x) == ORDSEQ_DRAIN;
        assert x in q'.driver;
      }
    }
  }

  /** A request that goes back while a sequence drains becomes the first to leave again. */
  lemma RequeueWork(q: Queue, i: nat)
    requires Inv(q) && i < |q.driver| && q.driver[i].Work()
    ensures Inv(RequeueRequest(q, i))
  {
    var r1 := q.driver[i].(started := false, soft := true);
    RequeueAt(q, i);
    assert q.driver[i] in q.driver;
    WorkGoesFirst(q, r1);
    RequeueWorkPlaced(q, i, r1);
    RequeueWorkCounted(q, i, r1);
    RequeueWorkConserved(q, i, r1);
    RequeueWorkStages(q, i, r1);
  }

  lemma WorkGoesFirst(q: Queue, r: Req)
    requires Active(q) ==> ReqSeq(q.orig.value, r) == ORDSEQ_DRAIN
    ensures RequeuePlace(q, r) == 0
  {
  }

  lemma RequeueWorkCounted(q: Queue, i: nat, r1: Req)
    requires Core(q) && i < |q.driver| && q.driver[i].Work() && r1 == q.driver[i].(started := false, soft := true)
    ensures Counted(WithInserted(Without(q, i), 0, r1)) && Sequenced(WithInserted(Without(q, i), 0, r1))
  {
    WithoutNormal(q, i);
    InsertCounted(Without(q, i), 0, r1);
    Inserted(q.head, 0, r1);
  }

  lemma RequeueWorkPlaced(q: Queue, i: nat, r1: Req)
    requires Core(q) && i < |q.driver| && q.driver[i].Work() && r1 == q.driver[i].(started := false, soft := true)
    ensures Placed(WithInserted(Without(q, i), 0, r1))
  {
    var q1 := Without(q, i);
    assert q.driver[i] in q.driver;
    WithoutNormal(q, i);
    forall j | 0 <= j < |q1.head| ensures InOrder(r1, q1.head[j], q1.finished) {
      assert q1.head[j] in q1.head;
    }
    InsertOrdered(q1.head, 0, r1, q1.finished);
  }

  lemma RequeueWorkConserved(q: Queue, i: nat, r1: Req)
    requires Core(q) && i < |q.driver| && q.driver[i].Work() && r1 == q.driver[i].(started := false, soft := true)
    ensures Conserved(WithInserted(Without(q, i), 0, r1))
  {
    var q' := WithInserted(Without(q, i), 0, r1);
    Removed(q.driver, i);
    Inserted(q.head, 0, r1);
    assert q.driver[i] in q.driver;
    assert forall x | x in q'.driver :: x in q.driver;
  }

  lemma FrontExposed(head: seq<Req>, r: Req, orig: Req, low: nat)
    requires Exposed(head, orig, low) && ReqSeq(orig, r) == ORDSEQ_DRAIN
    ensures Exposed(InsertAt(head, 0, r), orig, low)
  {
    var h := InsertAt(head, 0, r);
    assert h == [r] + head;
    forall a, b | 0 <= a < b < |h| && h[b].Work() && h[b].stamp == low ensures ReqSeq(orig, h[a]) == ORDSEQ_DRAIN {
      if a > 0 { assert h[a] == head[a - 1] && h[b] == head[b - 1]; }
    }
  }

  lemma FrontMembers(head: seq<Req>, r: Req)
    ensures forall x | x in InsertAt(head, 0, r) :: x == r || x in head
  {
  }

  /** A request that the sequence waits for can go back to the front. */
  lemma FrontStages(q: Queue, r: Req)
    requires StagesKept(q) && r.id.Normal? && r.Work()
    requires Active(q) ==> !q.ordseq.drain && ReqSeq(q.orig.value, r) == ORDSEQ_DRAIN
    ensures StagesKept(WithInserted(q, 0, r))
  {
    FrontMembers(q.head, r);
    if Draining(q) { FrontExposed(q.head, r, q.orig.value, q.finished); }
  }

  lemma RequeueWorkStages(q: Queue, i: nat, r1: Req)
    requires Core(q) && i < |q.driver| && q.driver[i].Work() && r1 == q.driver[i].(started := false, soft := true)
    ensures StagesKept(WithInserted(Without(q, i), 0, r1)) && Live(WithInserted(Without(q, i), 0, r1))
  {
    assert q.driver[i] in q.driver;
    assert GoodTaken(q.driver[i], q.finished);
    WithoutStages(q, i);
    FrontStages(Without(q, i), r1);
    if Draining(q) {
      var h := WithInserted(Without(q, i), 0, r1).head;
      assert h[0] == r1;
      PrefixMovable(h, h, 0, q.orig.value);
    }
  }


  /** Requests of the barrier's own colour that come after it stand behind the next barrier. */
  lemma NextBarrierFirst(q: Queue, j: nat) returns (m: nat)
    requires Core(q) && Active(q) && q.ordseq.drain && j < |q.head|
    requires q.head[j].Work() && ReqSeq(q.orig.value, q.head[j]) == ORDSEQ_DRAIN
    ensures m < j && ReqSeq(q.orig.value, q.head[m]) == ORDSEQ_DONE
  {
    assert q.head[j] in q.head;
    LaterColour(q.orig.value, q.head[j], q.finished, q.barriers);
    assert HasBarrier(q.head, q.finished + 1);
    var b :| b in q.head && b.Barrier() && b.stamp == q.finished + 1;
    m :| 0 <= m < |q.head| && q.head[m] == b;
    NextBarrierDone(q.orig.value, b, q.finished, q.barriers);
    EarlierFirst(q.head, j, m, q.finished);
  }

  lemma EarlierFirst(head: seq<Req>, j: nat, m: nat, low: nat)
    requires HeadOrdered(head, low) && j < |head| && m < |head|
    requires head[j].Work() && head[m].Barrier() && head[m].stamp < head[j].stamp
    ensures m < j
  {
  }

  lemma LaterColour(orig: Req, h: Req, low: nat, cur: nat)
    requires h.Work() && ColorOk(orig) && ColorOk(h) && orig.stamp == low < h.stamp && ReqSeq(orig, h) == ORDSEQ_DRAIN
    ensures h.stamp >= low + 2
  {
  }

  lemma NextBarrierDone(orig: Req, b: Req, low: nat, cur: nat)
    requires b.Barrier() && GoodQueued(b, low, cur, true) && ColorOk(orig) && orig.stamp == low && b.stamp == low + 1
    ensures ReqSeq(orig, b) == ORDSEQ_DONE
  {
  }

  lemma ProxyKey(q: Queue, i: nat, j: nat)
    requires Core(q) && i < |q.driver| && !q.driver[i].id.Normal? && j < |q.head| && Active(q)
    ensures InOrder(q.driver[i], q.head[j], q.finished)
    ensures !q.head[j].id.Normal? ==> ReqSeq(q.orig.value, q.driver[i]) < ReqSeq(q.orig.value, q.head[j])
  {
    ProxyIssued(q, i);
    assert q.head[j] in q.head;
    if !q.head[j].id.Normal? { ProxyHere(q, q.head[j].id); }
  }

  /** A requeued proxy goes back in front of everything but commands. */
  lemma RequeueProxyPlace(q: Queue, i: nat, j: nat)
    requires Core(q) && i < |q.driver| && !q.driver[i].id.Normal? && Active(q)
    requires j < RequeuePos(q.head, q.orig.value, ReqSeq(q.orig.value, q.driver[i]))
    ensures q.head[j].Special()
  {
    ProxyIssued(q, i);
    ProxyKey(q, i, j);
    if q.head[j].Work() && ReqSeq(q.orig.value, q.head[j]) == ORDSEQ_DRAIN {
      var m := NextBarrierFirst(q, j);
    }
  }

  lemma WithoutProxy(q: Queue, i: nat)
    requires Core(q) && i < |q.driver| && !q.driver[i].id.Normal?
    ensures Placed(Without(q, i)) && Counted(Without(q, i)) && Conserved(Without(q, i))
  {
    WithoutMembers(q, i);
    assert GoodTaken(q.driver[i], q.finished);
    WithoutPlaced(q, i);
    WithoutCounted(q, i);
    WithoutConserved(q, i);
    assert q.ended + multiset(q.driver[i].bios) == q.ended;
    assert Without(q, i).(ended := q.ended) == Without(q, i);
  }

  lemma RequeueProxyOrdered(q: Queue, i: nat, r1: Req)
    requires Core(q) && i < |q.driver| && !q.driver[i].id.Normal? && Active(q)
    requires r1 == q.driver[i].(started := false, soft := true)
    ensures HeadOrdered(InsertAt(q.head, RequeuePlace(q, r1), r1), q.finished)
  {
    var p := RequeuePlace(q, r1);
    forall j | 0 <= j < |q.head|
      ensures j < p ==> InOrder(q.head[j], r1, q.finished)
      ensures p <= j ==> InOrder(r1, q.head[j], q.finished)
    {
      ProxyKey(q, i, j);
      if j < p { RequeueProxyPlace(q, i, j); }
    }
    InsertOrdered(q.head, p, r1, q.finished);
  }

  lemma RequeueProxyCore(q: Queue, i: nat, r1: Req)
    requires Core(q) && i < |q.driver| && !q.driver[i].id.Normal? && Active(q)
    requires r1 == q.driver[i].(started := false, soft := true)
    ensures var q' := WithInserted(Without(q, i), RequeuePlace(q, r1), r1); Placed(q') && Counted(q') && Conserved(q')
  {
    var q1, p := Without(q, i), RequeuePlace(q, r1);
    assert q.driver[i] in q.driver;
    assert GoodTaken(q.driver[i], q.finished);
    WithoutProxy(q, i);
    RequeueProxyOrdered(q, i, r1);
    InsertMembers(q.head, p, r1);
    InsertCounted(q1, p, r1);
    InsertConserved(q1, p, r1);
  }

  lemma RequeueProxySequenced(q: Queue, i: nat, p: nat, r1: Req)
    requires Sequenced(q) && i < |q.driver| && r1.id == q.driver[i].id && p <= |q.head|
    ensures Sequenced(WithInserted(Without(q, i), p, r1))
  {
    Removed(q.driver, i);
    Inserted(q.head, p, r1);
  }

  lemma RequeueProxyStages(q: Queue, i: nat, p: nat, r1: Req)
    requires Core(q) && i < |q.driver| && !q.driver[i].id.Normal? && r1 == q.driver[i].(started := false, soft := true)
    requires p <= |q.head|
    ensures var q' := WithInserted(Without(q, i), p, r1); Sequenced(q') && StagesKept(q')
  {
    ProxyIssued(q, i);
    RequeueProxySequenced(q, i, p, r1);
    Removed(q.driver, i);
    WithoutMembers(q, i);
    InsertMembers(q.head, p, r1);
  }

  lemma RequeueProxy(q: Queue, i: nat)
    requires Inv(q) && i < |q.driver| && !q.driver[i].id.Normal?
    ensures Inv(RequeueRequest(q, i))
  {
    var r1 := q.driver[i].(started := false, soft := true);
    ProxyIssued(q, i);
    RequeueAt(q, i);
    RequeueProxyCore(q, i, r1);
    RequeueProxyStages(q, i, RequeuePlace(q, r1), r1);
  }

  // ---------------------------------------------------------------- taking a request off the queue

  lemma RemovedMovable(q: Queue, i: nat)
    requires Draining(q) && i < |q.head| && Movable(q.head, q.orig.value)
    ensures || Movable(RemoveAt(q.head, i), q.orig.value)
            || q.head[i].fs
            || (q.head[i].Special() && ReqSeq(q.orig.value, q.head[i]) == ORDSEQ_DRAIN)
  {
    var k :| 0 <= k < |q.head| && q.head[k].id.Normal? && ReqSeq(q.orig.value, q.head[k]) == ORDSEQ_DRAIN
             && forall j | 0 <= j < k :: q.head[j].Special();
    if k != i {
      var h := RemoveAt(q.head, i);
      var k' := if k < i then k else k - 1;
      assert h[k'] == q.head[k];
      forall j | 0 <= j < k' ensures h[j].Special() {
        assert h[j] == q.head[if j < i then j else j + 1];
      }
    }
  }

  lemma TakePlaced(q: Queue, i: nat)
    requires Core(q) && i < |q.head| && q.head[i].started
    ensures Placed(Take(q, i))
  {
    var q' := Take(q, i);
    assert q.head[i] in q.head;
    RemoveOrdered(q.head, i, q.finished);
    assert forall x | x in q'.head :: x in q.head;
  }

  lemma RemoveKeepsBarrier(head: seq<Req>, i: nat, k: nat)
    requires i < |head| && HasBarrier(head, k) && !head[i].Barrier()
    ensures HasBarrier(RemoveAt(head, i), k)
  {
    var b :| b in head && b.Barrier() && b.stamp == k;
    var m :| 0 <= m < |head| && head[m] == b;
    assert RemoveAt(head, i)[if m < i then m else m - 1] == b;
  }

  lemma TakeCounted(q: Queue, i: nat)
    requires Core(q) && i < |q.head| && q.head[i].started
    ensures Counted(Take(q, i))
  {
    var q' := Take(q, i);
    assert q.head[i] in q.head;
    Concat(q.driver, [q.head[i]]);
    Singleton(q.head[i]);
    assert !q.head[i].Barrier();
    forall k | q'.finished <= k < q'.barriers && !(Active(q') && k == q'.finished)
      ensures HasBarrier(q'.head, k)
    {
      RemoveKeepsBarrier(q.head, i, k);
    }
  }

  lemma TakeSequenced(q: Queue, i: nat)
    requires Sequenced(q) && i < |q.head|
    ensures Sequenced(Take(q, i))
  {
    Removed(q.head, i);
    Concat(q.driver, [q.head[i]]);
    Singleton(q.head[i]);
  }

  lemma TakeExposed(head: seq<Req>, i: nat, orig: Req, low: nat)
    requires i < |head| && Exposed(head, orig, low)
    ensures Exposed(RemoveAt(head, i), orig, low)
  {
    var h := RemoveAt(head, i);
    forall a, b | 0 <= a < b < |h| && h[b].Work() && h[b].stamp == low
      ensures ReqSeq(orig, h[a]) == ORDSEQ_DRAIN
    {
      assert h[a] == head[if a < i then a else a + 1];
      assert h[b] == head[if b < i then b else b + 1];
    }
  }

  lemma TakeStages(q: Queue, i: nat)
    requires Core(q) && i < |q.head| && q.head[i].started
    ensures StagesKept(Take(q, i))
  {
    var r, q' := q.head[i], Take(q, i);
    assert r in q.head;
    Concat(q.driver, [r]);
    Singleton(r);
    assert forall x | x in q'.head :: x in q.head;
    if Draining(q) { TakeExposed(q.head, i, q.orig.value, q.finished); }
  }

  lemma TakeConserved(q: Queue, i: nat)
    requires Conserved(q) && i < |q.head|
    ensures Conserved(Take(q, i))
  {
    var r, q' := q.head[i], Take(q, i);
    Removed(q.head, i);
    Concat(q.driver, [r]);
    Singleton(r);
    assert r in q.head;
    assert forall x | x in q'.head :: x in q.head;
  }

  lemma TakeInv(q: Queue, i: nat)
    requires Inv(q) && i < |q.head| && q.head[i].started
    ensures Inv(Take(q, i))
  {
    var q' := Take(q, i);
    TakePlaced(q, i);
    TakeCounted(q, i);
    TakeSequenced(q, i);
    TakeStages(q, i);
    TakeConserved(q, i);
    if Draining(q) && q'.inFlight == 0 {
      assert q.head[i] in q'.driver;
      if Movable(q.head, q.orig.value) {
        RemovedMovable(q, i);
      } else {
        var x :| x in q.driver && x.Special() && ReqSeq(q.orig.value, x) == ORDSEQ_DRAIN;
        assert x in q'.driver;
      }
    }
  }
}
