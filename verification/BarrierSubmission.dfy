/** Sorted dispatch and submission keep the invariant. */
module BarrierSubmission {
  import opened Wrappers
  import opened RequestQueue
  import opened BarrierInvariant

  // ---------------------------------------------------------------- the dispatch queue as a list

  lemma InsertOrdered(head: seq<Req>, p: nat, x: Req, low: nat)
    requires p <= |head| && HeadOrdered(head, low)
    requires forall i | 0 <= i < p :: InOrder(head[i], x, low)
    requires forall j | p <= j < |head| :: InOrder(x, head[j], low)
    ensures HeadOrdered(InsertAt(head, p, x), low)
  {
    var h := InsertAt(head, p, x);
    forall i, j | 0 <= i < j < |h| ensures InOrder(h[i], h[j], low) {
      if j < p { assert InOrder(head[i], head[j], low); }
      else if p < i { assert InOrder(head[i - 1], head[j - 1], low); }
      else if i < p < j { assert InOrder(head[i], head[j - 1], low); }
    }
  }

  lemma RemoveOrdered(head: seq<Req>, p: nat, low: nat)
    requires p < |head| && HeadOrdered(head, low)
    ensures HeadOrdered(RemoveAt(head, p), low)
  {
    var h := RemoveAt(head, p);
    forall i, j | 0 <= i < j < |h| ensures InOrder(h[i], h[j], low) {
      assert InOrder(head[if i < p then i else i + 1], head[if j < p then j else j + 1], low);
    }
  }

  lemma ProxyHere(q: Queue, id: Rid)
    requires Sequenced(q) && !id.Normal?
    ensures (exists r :: r in q.head && r.id == id) ==> Pending(q, id) && CountId(q.driver, id) == 0
    ensures (exists r :: r in q.driver && r.id == id) ==> Pending(q, id) && CountId(q.head, id) == 0
    ensures Pending(q, id) && CountId(q.driver, id) == 0 ==> exists r :: r in q.head && r.id == id
  {
    CountIdIn(q.head, id);
    CountIdIn(q.driver, id);
  }

  lemma KeyBound(q: Queue, r: Req)
    requires Placed(q) && Counted(q) && Sequenced(q) && r in q.head && !r.Special()
    ensures Key(r, q.finished) <= 10 * q.barriers
    ensures Firm(r) ==> Key(r, q.finished) < 10 * q.barriers
  {
    if !r.id.Normal? { ProxyHere(q, r.id); }
  }

  // ---------------------------------------------------------------- sorted dispatch

  /** Whatever sorted insertion may pass was submitted after the last barrier. */
  lemma UnflaggedIsCurrent(q: Queue, p: nat, j: nat)
    requires Inv(q) && p <= j < |q.head|
    requires forall i | p <= i < |q.head| :: !q.head[i].Stops()
    ensures q.head[j].Work() && q.head[j].stamp == q.barriers
  {
    var r := q.head[j];
    assert r in q.head;
    assert r.stamp < q.barriers && !(Active(q) && r.stamp == q.finished) ==> HasBarrier(q.head, r.stamp);
  }

  lemma DispatchOrdered(q: Queue)
    requires Inv(q) && q.sched != []
    ensures HeadOrdered(NoopDispatch(q).head, q.finished)
  {
    var r := q.sched[0];
    var p := SortPos(q.head, r, q.endSector);
    assert r in q.sched;
    forall i | 0 <= i < p ensures InOrder(q.head[i], r, q.finished) {
      if !q.head[i].Special() { KeyBound(q, q.head[i]); }
    }
    forall j | p <= j < |q.head| ensures InOrder(r, q.head[j], q.finished) {
      UnflaggedIsCurrent(q, p, j);
    }
    InsertOrdered(q.head, p, r, q.finished);
  }

  lemma InsertMembers(s: seq<Req>, p: nat, r: Req)
    requires p <= |s|
    ensures forall x | x in InsertAt(s, p, r) :: x == r || x in s
  {
  }

  lemma DispatchMembers(q: Queue)
    requires q.sched != []
    ensures q.sched[0] in q.sched
    ensures forall x | x in NoopDispatch(q).head :: x == q.sched[0] || x in q.head
    ensures forall x | x in NoopDispatch(q).sched :: x in q.sched
  {
    InsertMembers(q.head, SortPos(q.head, q.sched[0], q.endSector), q.sched[0]);
  }

  lemma DispatchPlaced(q: Queue)
    requires Inv(q) && q.sched != []
    ensures Placed(NoopDispatch(q))
  {
    DispatchOrdered(q);
    DispatchMembers(q);
    assert GoodScheduled(q.sched[0], q.barriers);
  }

  lemma DispatchCounted(q: Queue)
    requires Inv(q) && q.sched != []
    ensures Counted(NoopDispatch(q))
  {
    var r := q.sched[0];
    var q' := NoopDispatch(q);
    assert q.sched == [r] + q.sched[1..];
    if q'.lastMerge.Some? {
      var x :| x in q.sched && x.id == q.lastMerge.value;
      assert x in q'.sched;
    }
    forall k | q'.finished <= k < q'.barriers && !(Active(q') && k == q'.finished)
      ensures HasBarrier(q'.head, k)
    {
      assert HasBarrier(q.head, k);
      var b :| b in q.head && b.Barrier() && b.stamp == k;
      assert b in q'.head;
    }
  }

  lemma DispatchSequenced(q: Queue)
    requires Inv(q) && q.sched != []
    ensures Sequenced(NoopDispatch(q))
  {
    var r := q.sched[0];
    assert r in q.sched;
    Inserted(q.head, SortPos(q.head, r, q.endSector), r);
  }

  /** Sorted insertion lands behind every proxy and every request still to be drained. */
  lemma DispatchBehind(q: Queue, i: nat)
    requires Inv(q) && q.sched != [] && i < |q.head|
    requires !q.head[i].Work() || (Active(q) && q.head[i].stamp == q.finished)
    ensures i < SortPos(q.head, q.sched[0], q.endSector)
  {
    assert q.head[i] in q.head;
  }

  /** An insertion behind all that is still to be drained uncovers nothing. */
  lemma InsertExposed(head: seq<Req>, p: nat, r: Req, orig: Req, low: nat)
    requires p <= |head| && Exposed(head, orig, low) && !(r.Work() && r.stamp == low)
    requires forall k | 0 <= k < |head| && head[k].Work() && head[k].stamp == low :: k < p
    ensures Exposed(InsertAt(head, p, r), orig, low)
  {
    var h := InsertAt(head, p, r);
    assert forall k | p < k < |h| :: h[k] == head[k - 1];
    forall i, j | 0 <= i < j < |h| && h[j].Work() && h[j].stamp == low ensures ReqSeq(orig, h[i]) == ORDSEQ_DRAIN {
      assert j < p;
      assert h[j] == head[j] && h[i] == head[i];
    }
  }

  lemma DispatchExposed(q: Queue)
    requires Inv(q) && q.sched != [] && Draining(q)
    ensures Exposed(NoopDispatch(q).head, q.orig.value, q.finished)
  {
    var p := SortPos(q.head, q.sched[0], q.endSector);
    assert q.sched[0] in q.sched;
    forall k | 0 <= k < |q.head| && q.head[k].Work() && q.head[k].stamp == q.finished ensures k < p {
      DispatchBehind(q, k);
    }
    InsertExposed(q.head, p, q.sched[0], q.orig.value, q.finished);
  }

  lemma DispatchStages(q: Queue)
    requires Inv(q) && q.sched != []
    ensures StagesKept(NoopDispatch(q))
  {
    DispatchMembers(q);
    assert GoodScheduled(q.sched[0], q.barriers);
    if Draining(q) { DispatchExposed(q); }
  }

  predicate Movers(head: seq<Req>, i: nat)
    requires i < |head|
  {
    head[i].id.Normal? && forall j | 0 <= j < i :: head[j].Special()
  }

  /** An insertion behind whatever can move leaves it able to move. */
  lemma InsertMovable(head: seq<Req>, p: nat, r: Req, orig: Req)
    requires p <= |head| && Movable(head, orig) && forall i | 0 <= i < |head| && Movers(head, i) :: i < p
    ensures Movable(InsertAt(head, p, r), orig)
  {
    var i :| 0 <= i < |head| && head[i].id.Normal? && ReqSeq(orig, head[i]) == ORDSEQ_DRAIN
             && forall j | 0 <= j < i :: head[j].Special();
    assert Movers(head, i);
    PrefixMovable(head, InsertAt(head, p, r), i, orig);
  }

  lemma DispatchLive(q: Queue)
    requires Inv(q) && q.sched != []
    ensures Live(NoopDispatch(q))
  {
    if Draining(q) && q.inFlight == 0 && Movable(q.head, q.orig.value) {
      var p := SortPos(q.head, q.sched[0], q.endSector);
      forall i | 0 <= i < |q.head| && Movers(q.head, i) ensures i < p {
        MovableBeforeBar(q, i);
      }
      InsertMovable(q.head, p, q.sched[0], q.orig.value);
    }
  }

  lemma MovableBeforeBar(q: Queue, i: nat)
    requires Inv(q) && q.sched != [] && Draining(q) && i < |q.head|
    requires q.head[i].id.Normal? && forall j | 0 <= j < i :: q.head[j].Special()
    ensures i < SortPos(q.head, q.sched[0], q.endSector)
  {
    ProxyHere(q, BarRq);
    var b :| b in q.head && b.id == BarRq;
    var m :| 0 <= m < |q.head| && q.head[m] == b;
    DispatchBehind(q, m);
  }

  lemma PrefixMovable(h: seq<Req>, h': seq<Req>, i: nat, orig: Req)
    requires i < |h| && i < |h'| && forall j | 0 <= j <= i :: h'[j] == h[j]
    requires h[i].id.Normal? && ReqSeq(orig, h[i]) == ORDSEQ_DRAIN
    requires forall j | 0 <= j < i :: h[j].Special()
    ensures Movable(h', orig)
  {
  }

  lemma DispatchConserved(q: Queue)
    requires Inv(q) && q.sched != []
    ensures Conserved(NoopDispatch(q))
  {
    var r := q.sched[0];
    Inserted(q.head, SortPos(q.head, r, q.endSector), r);
    assert q.sched == [r] + q.sched[1..];
  }

  lemma DispatchInv(q: Queue)
    requires Inv(q) && q.sched != []
    ensures Inv(NoopDispatch(q))
  {
    DispatchPlaced(q);
    DispatchCounted(q);
    DispatchSequenced(q);
    DispatchStages(q);
    DispatchLive(q);
    DispatchConserved(q);
  }

  lemma FavouredMembers(q: Queue, i: nat)
    requires i < |q.sched|
    ensures |Favoured(q, i).sched| == |q.sched| && Bios(Favoured(q, i).sched) == Bios(q.sched)
    ensures forall x :: x in Favoured(q, i).sched <==> x in q.sched
  {
    Removed(q.sched, i);
    var s := Favoured(q, i).sched;
    assert s[1..] == RemoveAt(q.sched, i);
    forall x | x in q.sched ensures x in s {
      var k :| 0 <= k < |q.sched| && q.sched[k] == x;
      assert x == s[if k < i then k + 1 else if k == i then 0 else k];
    }
  }

  lemma FavouredCounted(q: Queue, i: nat)
    requires Counted(q) && i < |q.sched|
    ensures Counted(Favoured(q, i))
  {
    FavouredMembers(q, i);
    if q.lastMerge.Some? {
      var r :| r in q.sched && r.id == q.lastMerge.value;
      assert r in Favoured(q, i).sched;
    }
  }

  lemma FavouredConserved(q: Queue, i: nat)
    requires Placed(q) && Conserved(q) && i < |q.sched|
    ensures Placed(Favoured(q, i)) && Conserved(Favoured(q, i))
  {
    FavouredMembers(q, i);
  }

  lemma FavouredStages(q: Queue, i: nat)
    requires Sequenced(q) && StagesKept(q) && Live(q) && i < |q.sched|
    ensures Sequenced(Favoured(q, i)) && StagesKept(Favoured(q, i)) && Live(Favoured(q, i))
  {
  }

  lemma FavouredInv(q: Queue, i: nat)
    requires Inv(q) && i < |q.sched|
    ensures Inv(Favoured(q, i))
  {
    FavouredCounted(q, i);
    FavouredConserved(q, i);
    FavouredStages(q, i);
  }

  /** Whichever request the scheduler sends. */
  lemma SendsInv(q: Queue, i: nat)
    requires Inv(q) && i < |q.sched|
    ensures Inv(NoopDispatch(Favoured(q, i)))
  {
    FavouredInv(q, i);
    DispatchInv(Favoured(q, i));
  }

  lemma {:induction false} DrainInv(q: Queue)
    requires Inv(q)
    ensures var d := DrainElevator(q);
            && Inv(d) && d.sched == [] && d.lastMerge == None
            && d == q.(head := d.head, sched := [], lastMerge := None, nrSorted := 0)
            && d.driver == q.driver && d.orig == q.orig && d.ordseq == q.ordseq
    decreases |q.sched|
  {
    if q.sched != [] {
      DispatchInv(q);
      DrainInv(NoopDispatch(q));
    }
  }

  // ---------------------------------------------------------------- submission

  lemma {:induction false} DrainKeepsColor(q: Queue, c: bool)
    ensures DrainElevator(q.(ordcolor := c)) == DrainElevator(q).(ordcolor := c)
    decreases |q.sched|
  {
    if q.sched != [] {
      assert NoopDispatch(q.(ordcolor := c)) == NoopDispatch(q).(ordcolor := c);
      DrainKeepsColor(NoopDispatch(q), c);
    }
  }

  predicate NewWork(q: Queue, r: Req, bio: nat) {
    && r.Work() && !r.started && r.stamp == q.barriers && ColorOk(r) && r.bios == [bio]
    && bio !in q.epochOf
  }

  function WithEpoch(q: Queue, bio: nat): Queue {
    q.(epochOf := q.epochOf[bio := q.barriers])
  }

  lemma EpochKeys(m: map<nat, nat>, bio: nat, e: nat)
    requires bio !in m
    ensures multiset(m[bio := e].Keys) == multiset(m.Keys) + multiset{bio}
  {
    assert m[bio := e].Keys == m.Keys + {bio};
  }

  lemma OldBiosStayGood(r: Req, m: map<nat, nat>, bio: nat, e: nat)
    requires bio !in m && GoodBios(r, m)
    ensures GoodBios(r, m[bio := e])
  {
  }

  lemma ConservedWith(q: Queue, q': Queue, bio: nat)
    requires Conserved(q) && bio !in q.epochOf
    requires q'.epochOf == q.epochOf[bio := q.barriers] && q'.barriers >= q.barriers
    requires q'.orig == q.orig && q'.ended == q.ended && q'.driver == q.driver
    requires Bios(q'.head) + Bios(q'.sched) == Bios(q.head) + Bios(q.sched) + multiset{bio}
    requires forall x | x in q'.head || x in q'.sched :: x in q.head || x in q.sched || GoodBios(x, q'.epochOf)
    ensures Conserved(q')
  {
    EpochKeys(q.epochOf, bio, q.barriers);
    forall x | x in q.head || x in q.sched || x in q.driver ensures GoodBios(x, q'.epochOf) {
      OldBiosStayGood(x, q.epochOf, bio, q.barriers);
    }
    if Active(q) { OldBiosStayGood(q.orig.value, q.epochOf, bio, q.barriers); }
  }

  /** Only the scheduler's list changed. */
  lemma SchedulerOnly(q: Queue, q': Queue)
    requires Inv(q) && Conserved(q')
    requires q'.head == q.head && q'.driver == q.driver && q'.orig == q.orig && q'.ordseq == q.ordseq
    requires q'.finished == q.finished && q'.barriers == q.barriers && q'.inFlight == q.inFlight
    requires q'.ordcolor == q.ordcolor && q'.nrSorted == |q'.sched|
    requires forall r | r in q'.sched :: GoodScheduled(r, q'.barriers)
    requires q'.lastMerge.Some? ==> exists r :: r in q'.sched && r.id == q'.lastMerge.value
    ensures Inv(q')
  {
    assert Placed(q') && Counted(q');
    assert Sequenced(q');
    assert StagesKept(q');
  }

  function Scheduled(q: Queue, r: Req, bio: nat): Queue {
    WithEpoch(q.(nrSorted := q.nrSorted + 1, sched := q.sched + [r],
                 lastMerge := if q.lastMerge.None? && r.Mergeable() then Some(r.id) else q.lastMerge), bio)
  }

  lemma ScheduleInv(q: Queue, r: Req, bio: nat)
    requires Inv(q) && NewWork(q, r, bio) && !r.hard && !r.soft && r.sorted
    ensures Inv(Scheduled(q, r, bio))
  {
    var q' := Scheduled(q, r, bio);
    Concat(q.sched, [r]);
    Singleton(r);
    assert r in q'.sched;
    if q.lastMerge.Some? {
      var x :| x in q.sched && x.id == q.lastMerge.value;
      assert x in q'.sched;
    }
    ConservedWith(q, q', bio);
    SchedulerOnly(q, q');
  }

  function Appended(q: Queue, r: Req, bio: nat): Queue {
    WithEpoch(q.(head := q.head + [r]), bio).(
      barriers := if r.hard then q.barriers + 1 else q.barriers,
      ordcolor := if r.hard then !q.ordcolor else q.ordcolor)
  }

  lemma AppendPlaced(q: Queue, r: Req, bio: nat)
    requires Inv(q) && q.sched == [] && NewWork(q, r, bio) && r.soft
    ensures Placed(Appended(q, r, bio))
  {
    forall i | 0 <= i < |q.head| ensures InOrder(q.head[i], r, q.finished) {
      if !q.head[i].Special() { KeyBound(q, q.head[i]); }
    }
    assert q.head + [r] == InsertAt(q.head, |q.head|, r);
    InsertOrdered(q.head, |q.head|, r, q.finished);
  }

  lemma AppendCounted(q: Queue, r: Req, bio: nat)
    requires Inv(q) && q.sched == [] && NewWork(q, r, bio) && r.soft
    ensures Counted(Appended(q, r, bio))
  {
    var q' := Appended(q, r, bio);
    forall k | q'.finished <= k < q'.barriers && !(Active(q') && k == q'.finished)
      ensures HasBarrier(q'.head, k)
    {
      if k == q.barriers {
        assert r in q'.head;
      } else {
        assert HasBarrier(q.head, k);
        var b :| b in q.head && b.Barrier() && b.stamp == k;
        assert b in q'.head;
      }
    }
  }

  lemma AppendSequenced(q: Queue, r: Req, bio: nat)
    requires Sequenced(q) && r.id.Normal?
    ensures Sequenced(Appended(q, r, bio))
  {
    Concat(q.head, [r]);
    Singleton(r);
  }

  lemma AppendStages(q: Queue, r: Req, bio: nat)
    requires StagesKept(q) && r.Work() && !r.started && (Active(q) ==> r.stamp > q.finished)
    ensures StagesKept(Appended(q, r, bio))
  {
    var h := q.head + [r];
    assert h == InsertAt(q.head, |q.head|, r);
    InsertMembers(q.head, |q.head|, r);
    if Draining(q) { InsertExposed(q.head, |q.head|, r, q.orig.value, q.finished); }
  }

  lemma AppendLive(q: Queue, r: Req, bio: nat)
    requires Inv(q)
    ensures Live(Appended(q, r, bio))
  {
    if Draining(q) && q.inFlight == 0 && Movable(q.head, q.orig.value) {
      var i :| 0 <= i < |q.head| && q.head[i].id.Normal? && ReqSeq(q.orig.value, q.head[i]) == ORDSEQ_DRAIN
               && forall j | 0 <= j < i :: q.head[j].Special();
      PrefixMovable(q.head, q.head + [r], i, q.orig.value);
    }
  }

  lemma AppendConserved(q: Queue, r: Req, bio: nat)
    requires Conserved(q) && NewWork(q, r, bio)
    ensures Conserved(Appended(q, r, bio))
  {
    Concat(q.head, [r]);
    Singleton(r);
    ConservedWith(q, Appended(q, r, bio), bio);
  }

  lemma AppendInv(q: Queue, r: Req, bio: nat)
    requires Inv(q) && q.sched == [] && NewWork(q, r, bio) && r.soft
    ensures Inv(Appended(q, r, bio))
  {
    AppendPlaced(q, r, bio);
    AppendCounted(q, r, bio);
    AppendSequenced(q, r, bio);
    AppendStages(q, r, bio);
    AppendLive(q, r, bio);
    AppendConserved(q, r, bio);
  }

  function Fresh(q: Queue, id: nat, bio: nat, sector: nat, nr: nat, write: bool, barrier: bool): Req {
    Req(Normal(id), true, write, barrier, false, false, false, q.ordcolor, barrier, sector, nr, [bio], q.barriers)
  }

  lemma BoundaryMoves(q: Queue, e: nat, b: Option<Rid>)
    requires Inv(q)
    ensures Inv(q.(endSector := e, boundary := b))
  {
  }

  lemma BarrierSubmitIsAppend(q: Queue, id: nat, bio: nat, sector: nat, nr: nat, write: bool, elvpriv: bool)
    ensures var r := Fresh(q, id, bio, sector, nr, write, true);
            var d := DrainElevator(q.(endSector := r.End(), boundary := Some(r.id)));
            d.ordcolor == q.ordcolor && d.barriers == q.barriers && d.epochOf == q.epochOf ==>
            SubmitRequest(q, id, bio, sector, nr, write, true, elvpriv) == Appended(d, r.(soft := true), bio)
  {
    var r := Fresh(q, id, bio, sector, nr, write, true);
    DrainKeepsColor(q.(endSector := r.End(), boundary := Some(r.id)), !q.ordcolor);
  }

  lemma BarrierSubmit(q: Queue, id: nat, bio: nat, sector: nat, nr: nat, write: bool, elvpriv: bool)
    requires Inv(q) && bio !in q.epochOf
    ensures Inv(SubmitRequest(q, id, bio, sector, nr, write, true, elvpriv))
  {
    var r := Fresh(q, id, bio, sector, nr, write, true);
    BoundaryMoves(q, r.End(), Some(r.id));
    var q1 := q.(endSector := r.End(), boundary := Some(r.id));
    DrainInv(q1);
    AppendInv(DrainElevator(q1), r.(soft := true), bio);
    BarrierSubmitIsAppend(q, id, bio, sector, nr, write, elvpriv);
  }

  lemma PlainSubmit(q: Queue, id: nat, bio: nat, sector: nat, nr: nat, write: bool, elvpriv: bool)
    requires Inv(q) && bio !in q.epochOf
    ensures Inv(SubmitRequest(q, id, bio, sector, nr, write, false, elvpriv))
  {
    var r := Fresh(q, id, bio, sector, nr, write, false);
    var q' := SubmitRequest(q, id, bio, sector, nr, write, false, elvpriv);
    if elvpriv {
      ScheduleInv(q, r.(sorted := true), bio);
      assert q' == Scheduled(q, r.(sorted := true), bio);
    } else {
      DrainInv(q);
      AppendInv(DrainElevator(q), r.(soft := true), bio);
      assert q' == Appended(DrainElevator(q), r.(soft := true), bio);
    }
  }
}
