/**
  The dispatch queue is a one-way elevator: behind the last request that may not be passed it runs
  upwards from end_sector and then upwards again from the start of the disk, and it keeps doing so
  while end_sector follows the requests handed to the driver.
 */
module ElevatorOrder {
  import opened Wrappers
  import opened RequestQueue
  import opened BarrierInvariant
  import opened BarrierSubmission
  import opened BarrierCompletion
  import opened BarrierFetch
  import opened BarrierTheorems

  /** a is served before b by a head that starts at e, sweeps up and then starts over. */
  predicate Before(a: Req, b: Req, e: nat) {
    if (a.sector >= e) == (b.sector >= e) then a.sector <= b.sector else a.sector >= e
  }

  predicate Free(head: seq<Req>, i: nat) {
    forall k | i <= k < |head| :: !head[k].Stops()
  }

  ghost predicate Elevator(head: seq<Req>, e: nat) {
    forall i, j | 0 <= i < j < |head| && Free(head, i) :: Before(head[i], head[j], e)
  }

  predicate Apart(a: Req, b: Req) {
    a.End() <= b.sector || b.End() <= a.sector
  }

  ghost predicate ApartIn(s: seq<Req>) {
    forall i, j | 0 <= i < j < |s| && s[i].Work() && s[j].Work() :: Apart(s[i], s[j])
  }

  /** No two requests that wait, in the scheduler or on the queue, touch the same sector. */
  ghost predicate Spread(head: seq<Req>, sched: seq<Req>) {
    && ApartIn(head) && ApartIn(sched)
    && (forall r | r in head && r.Work() :: r.nr > 0)
    && (forall r | r in sched && r.Work() :: r.nr > 0)
    && (forall a, b | a in head && b in sched && a.Work() && b.Work() :: Apart(a, b))
  }

  /** boundary_rq is the barrier submitted last, as long as that barrier lives. */
  ghost predicate LastBarrier(q: Queue) {
    && q.boundary.Some?
    && ((exists b :: b in q.head && b.Barrier() && b.stamp == q.barriers - 1 && q.boundary == Some(b.id))
        || (Active(q) && q.orig.value.stamp == q.barriers - 1 && q.boundary == Some(q.orig.value.id)))
    && (forall r | r in q.head && r.Work() && !r.hard :: Some(r.id) != q.boundary)
    && (forall r | r in q.sched :: Some(r.id) != q.boundary)
  }

  /** Only file system requests, in no hurry: no commands, no requeued requests. */
  ghost predicate PlainHead(head: seq<Req>) {
    && (forall r | r in head :: !r.Special() && (r.soft ==> Firm(r)))
    && (forall i | 1 <= i < |head| :: !head[i].started)
  }

  ghost predicate Swept(q: Queue) {
    && PlainHead(q.head)
    && Elevator(q.head, q.endSector)
    && Spread(q.head, q.sched)
    && (q.finished < q.barriers ==> LastBarrier(q))
    && (q.head != [] && q.head[0].started ==>
          q.boundary != Some(q.head[0].id) && (q.boundary.None? ==> q.endSector == q.head[0].End()))
  }

  ghost predicate OrderInv(q: Queue) { Inv(q) && Swept(q) }

  predicate Clear(q: Queue, sector: nat, nr: nat) {
    && nr > 0
    && (forall r | r in q.head && r.Work() :: sector + nr <= r.sector || r.End() <= sector)
    && (forall r | r in q.sched && r.Work() :: sector + nr <= r.sector || r.End() <= sector)
  }

  predicate Unused(q: Queue, id: Rid) {
    && (forall r | r in q.head :: r.id != id)
    && (forall r | r in q.sched :: r.id != id)
    && (q.orig.Some? ==> q.orig.value.id != id)
  }

  /** A step of a run of non-overlapping file system requests that are never requeued. */
  predicate Plain(q: Queue, s: Step) {
    match s
    case Submit(id, _, sector, nr, _, _, elvpriv) => elvpriv && Clear(q, sector, nr) && Unused(q, Normal(id))
    case Merge(_, _, sector, nr, _, _, _) => Clear(q, sector, nr)
    case Command(_, _) => false
    case Requeue(_) => false
    case _ => true
  }

  // ---------------------------------------------------------------- sorted insertion

  lemma InsertFree(head: seq<Req>, p: nat, r: Req, i: nat)
    requires p <= |head| && i <= |head| && Free(InsertAt(head, p, r), i)
    ensures Free(head, if i <= p then i else i - 1)
  {
    var h := InsertAt(head, p, r);
    forall k | (if i <= p then i else i - 1) <= k < |head| ensures !head[k].Stops() {
      assert h[if k < p then k else k + 1] == head[k];
    }
  }

  /** What stands in front of the place found is served before the new request and what it is put in front of. */
  lemma BeforeInserted(head: seq<Req>, r: Req, e: nat, i: nat)
    requires Elevator(head, e) && i < SortPos(head, r, e) && Free(head, i)
    ensures Before(head[i], r, e)
  {
    var p := SortPos(head, r, e);
    assert !Passes(head[p - 1], r, e) && Before(head[p - 1], r, e);
    assert i < p - 1 ==> Before(head[i], head[p - 1], e);
  }

  lemma InsertKeepsElevator(head: seq<Req>, r: Req, e: nat)
    requires Elevator(head, e) && !r.Stops()
    ensures Elevator(InsertAt(head, SortPos(head, r, e), r), e)
  {
    var p := SortPos(head, r, e);
    var h := InsertAt(head, p, r);
    forall i, j | 0 <= i < j < |h| && Free(h, i) ensures Before(h[i], h[j], e) {
      InsertFree(head, p, r, i);
      var j' := if j < p then j else j - 1;
      assert j != p ==> h[j] == head[j'];
      if i < p {
        assert h[i] == head[i];
        BeforeInserted(head, r, e, i);
      } else if i > p {
        assert h[i] == head[i - 1];
      } else {
        assert Passes(head[j - 1], r, e);
      }
    }
  }

  lemma InsertSpread(head: seq<Req>, sched: seq<Req>, p: nat)
    requires Spread(head, sched) && p <= |head| && sched != []
    ensures Spread(InsertAt(head, p, sched[0]), sched[1..])
  {
    var r, h := sched[0], InsertAt(head, p, sched[0]);
    assert r in sched;
    forall i, j | 0 <= i < j < |h| && h[i].Work() && h[j].Work() ensures Apart(h[i], h[j]) {
      if i == p { assert h[j] == head[j - 1] && h[j] in head; }
      else if j == p { assert h[i] == head[i] && h[i] in head; }
      else { assert h[i] == head[if i < p then i else i - 1] && h[j] == head[if j < p then j else j - 1]; }
    }
    forall a, b | a in h && b in sched[1..] && a.Work() && b.Work() ensures Apart(a, b) {
      assert b in sched;
      if a !in head {
        var k :| 0 <= k < |sched[1..]| && sched[1..][k] == b;
        assert Apart(sched[0], sched[k + 1]);
      }
    }
  }

  lemma InsertPlain(head: seq<Req>, r: Req, e: nat)
    requires PlainHead(head) && r.Work() && !r.Stops()
    ensures PlainHead(InsertAt(head, SortPos(head, r, e), r))
    ensures head != [] && head[0].started ==> SortPos(head, r, e) > 0
  {
    var p := SortPos(head, r, e);
    var h := InsertAt(head, p, r);
    forall i | 1 <= i < |h| ensures !h[i].started {
      if i < p { assert h[i] == head[i]; } else if i > p { assert h[i] == head[i - 1]; }
    }
  }

  /** Everything of OrderInv but the order itself. */
  ghost predicate Calm(q: Queue) {
    Inv(q) && PlainHead(q.head) && Spread(q.head, q.sched)
  }

  lemma DispatchCalm(q: Queue)
    requires Calm(q) && q.sched != []
    ensures Calm(NoopDispatch(q))
  {
    assert q.sched[0] in q.sched;
    DispatchInv(q);
    InsertPlain(q.head, q.sched[0], q.endSector);
    InsertSpread(q.head, q.sched, SortPos(q.head, q.sched[0], q.endSector));
  }

  lemma DispatchLast(q: Queue)
    requires Calm(q) && q.sched != [] && LastBarrier(q)
    ensures LastBarrier(NoopDispatch(q))
  {
    var q' := NoopDispatch(q);
    DispatchMembers(q);
    if b :| b in q.head && b.Barrier() && b.stamp == q.barriers - 1 && q.boundary == Some(b.id) {
      assert b in q'.head;
    }
  }

  lemma DispatchOrder(q: Queue)
    requires OrderInv(q) && q.sched != []
    ensures OrderInv(NoopDispatch(q))
  {
    assert q.sched[0] in q.sched;
    DispatchCalm(q);
    InsertKeepsElevator(q.head, q.sched[0], q.endSector);
    InsertPlain(q.head, q.sched[0], q.endSector);
    if q.finished < q.barriers { DispatchLast(q); }
  }

  lemma ApartFavoured(s: seq<Req>, t: seq<Req>, i: nat)
    requires ApartIn(s) && i < |s| && t == [s[i]] + RemoveAt(s, i)
    ensures ApartIn(t)
  {
    forall j, k | 0 <= j < k < |t| && t[j].Work() && t[k].Work() ensures Apart(t[j], t[k]) {
      assert t[k] == s[if k <= i then k - 1 else k];
      assert t[j] == s[if j == 0 then i else if j <= i then j - 1 else j];
    }
  }

  lemma SpreadFavoured(head: seq<Req>, s: seq<Req>, t: seq<Req>)
    requires Spread(head, s) && ApartIn(t) && forall x | x in t :: x in s
    ensures Spread(head, t)
  {
  }

  lemma FavouredSwept(q: Queue, i: nat)
    requires Swept(q) && i < |q.sched|
    ensures Swept(Favoured(q, i))
  {
    FavouredMembers(q, i);
    ApartFavoured(q.sched, Favoured(q, i).sched, i);
    SpreadFavoured(q.head, q.sched, Favoured(q, i).sched);
  }

  /** Whichever request the scheduler sends, it finds its place in the sweep. */
  lemma SendsOrder(q: Queue, i: nat)
    requires OrderInv(q) && i < |q.sched|
    ensures OrderInv(NoopDispatch(Favoured(q, i)))
  {
    FavouredInv(q, i);
    FavouredSwept(q, i);
    DispatchOrder(Favoured(q, i));
  }

  lemma {:induction false} DrainCalm(q: Queue)
    requires Calm(q)
    ensures Calm(DrainElevator(q))
    decreases |q.sched|
  {
    if q.sched != [] {
      DispatchCalm(q);
      DrainCalm(NoopDispatch(q));
    }
  }

  lemma {:induction false} DrainMoves(q: Queue, r: Req)
    requires r in DrainElevator(q).head
    ensures r in q.head || r in q.sched
    decreases |q.sched|
  {
    if q.sched != [] {
      DrainMoves(NoopDispatch(q), r);
      assert q.sched[0] in q.sched;
    }
  }

  // ---------------------------------------------------------------- submission and merging

  lemma StopAtEnd(head: seq<Req>, r: Req, e: nat)
    requires r.Stops()
    ensures Elevator(head + [r], e)
  {
    var h := head + [r];
    assert h[|h| - 1] == r;
    assert forall i | 0 <= i < |h| :: !Free(h, i);
  }

  lemma AppendSpread(head: seq<Req>, r: Req)
    requires Spread(head, []) && r.nr > 0 && forall x | x in head && x.Work() :: Apart(x, r)
    ensures Spread(head + [r], [])
  {
    var h := head + [r];
    forall i, j | 0 <= i < j < |h| && h[i].Work() && h[j].Work() ensures Apart(h[i], h[j]) {
      assert h[i] in head;
      if j < |head| { assert Apart(head[i], head[j]); }
    }
  }

  lemma AppendSwept(d: Queue, r: Req, bio: nat)
    requires PlainHead(d.head) && Spread(d.head, []) && d.sched == [] && d.boundary == Some(r.id)
    requires r.Barrier() && r.soft && !r.started && r.nr > 0 && r.stamp == d.barriers
    requires forall x | x in d.head :: x.id != r.id && (x.Work() ==> Apart(x, r))
    ensures Swept(Appended(d, r, bio))
  {
    var q' := Appended(d, r, bio);
    StopAtEnd(d.head, r, q'.endSector);
    AppendSpread(d.head, r);
    assert r in q'.head;
  }

  lemma DrainedClear(q: Queue, r: Req, x: Req)
    requires Clear(q, r.sector, r.nr) && Unused(q, r.id)
    requires x in DrainElevator(q.(endSector := r.End(), boundary := Some(r.id))).head
    ensures x.id != r.id && (x.Work() ==> Apart(x, r))
  {
    DrainMoves(q.(endSector := r.End(), boundary := Some(r.id)), x);
  }

  lemma BarrierDrained(q: Queue, r: Req) returns (d: Queue)
    requires Inv(q) && PlainHead(q.head) && Spread(q.head, q.sched)
    ensures d == DrainElevator(q.(endSector := r.End(), boundary := Some(r.id)))
    ensures PlainHead(d.head) && Spread(d.head, []) && d.sched == [] && d.boundary == Some(r.id)
    ensures d.ordcolor == q.ordcolor && d.barriers == q.barriers && d.epochOf == q.epochOf
  {
    var q1 := q.(endSector := r.End(), boundary := Some(r.id));
    BoundaryMoves(q, r.End(), Some(r.id));
    DrainInv(q1);
    DrainCalm(q1);
    d := DrainElevator(q1);
  }

  lemma DrainedApart(q: Queue, r: Req)
    requires Clear(q, r.sector, r.nr) && Unused(q, r.id)
    ensures forall x | x in DrainElevator(q.(endSector := r.End(), boundary := Some(r.id))).head ::
              x.id != r.id && (x.Work() ==> Apart(x, r))
  {
    forall x | x in DrainElevator(q.(endSector := r.End(), boundary := Some(r.id))).head
      ensures x.id != r.id && (x.Work() ==> Apart(x, r))
    {
      DrainedClear(q, r, x);
    }
  }

  lemma BarrierAppended(q: Queue, r: Req, bio: nat)
    requires Inv(q) && PlainHead(q.head) && Spread(q.head, q.sched) && Clear(q, r.sector, r.nr) && Unused(q, r.id)
    requires r.Barrier() && !r.started && r.stamp == q.barriers
    ensures var d := DrainElevator(q.(endSector := r.End(), boundary := Some(r.id)));
            && d.ordcolor == q.ordcolor && d.barriers == q.barriers && d.epochOf == q.epochOf
            && Swept(Appended(d, r.(soft := true), bio))
  {
    var d := BarrierDrained(q, r);
    DrainedApart(q, r);
    AppendSwept(d, r.(soft := true), bio);
  }

  lemma SubmitBarrierSwept(q: Queue, id: nat, bio: nat, sector: nat, nr: nat, write: bool)
    requires OrderInv(q) && Clear(q, sector, nr) && Unused(q, Normal(id))
    ensures Swept(SubmitRequest(q, id, bio, sector, nr, write, true, true))
  {
    BarrierAppended(q, Fresh(q, id, bio, sector, nr, write, true), bio);
    BarrierSubmitIsAppend(q, id, bio, sector, nr, write, true);
  }

  lemma BoundaryIsUsed(q: Queue, id: Rid)
    requires LastBarrier(q) && Unused(q, id)
    ensures q.boundary != Some(id)
  {
  }

  lemma ScheduleSwept(q: Queue, r: Req, bio: nat)
    requires Swept(q) && Clear(q, r.sector, r.nr) && Unused(q, r.id) && r.Work()
    ensures Swept(Scheduled(q, r, bio))
  {
    var s := q.sched + [r];
    forall i, j | 0 <= i < j < |s| && s[i].Work() && s[j].Work() ensures Apart(s[i], s[j]) {
      assert s[i] in q.sched;
      if j < |q.sched| { assert Apart(q.sched[i], q.sched[j]); }
    }
    assert Spread(q.head, s);
    if q.finished < q.barriers { BoundaryIsUsed(q, r.id); }
  }

  lemma SubmitPlainSwept(q: Queue, id: nat, bio: nat, sector: nat, nr: nat, write: bool)
    requires Swept(q) && Clear(q, sector, nr) && Unused(q, Normal(id))
    ensures Swept(SubmitRequest(q, id, bio, sector, nr, write, false, true))
  {
    ScheduleSwept(q, Fresh(q, id, bio, sector, nr, write, false).(sorted := true), bio);
  }

  lemma SubmitOrder(q: Queue, id: nat, bio: nat, sector: nat, nr: nat, write: bool, barrier: bool)
    requires OrderInv(q) && bio !in q.epochOf && Clear(q, sector, nr) && Unused(q, Normal(id))
    ensures OrderInv(SubmitRequest(q, id, bio, sector, nr, write, barrier, true))
  {
    if barrier {
      BarrierSubmit(q, id, bio, sector, nr, write, true);
      SubmitBarrierSwept(q, id, bio, sector, nr, write);
    } else {
      PlainSubmit(q, id, bio, sector, nr, write, true);
      SubmitPlainSwept(q, id, bio, sector, nr, write);
    }
  }

  /** Only the scheduler's list and the stage bits changed. */
  lemma SweptElsewhere(q: Queue, q': Queue)
    requires Swept(q) && Spread(q.head, q'.sched)
    requires q'.head == q.head && q'.endSector == q.endSector && q'.boundary == q.boundary
    requires q'.barriers == q.barriers && q'.finished == q.finished && q'.orig == q.orig
    requires forall r | r in q'.sched :: exists x :: x in q.sched && x.id == r.id
    ensures Swept(q')
  {
  }

  // ---------------------------------------------------------------- merging

  lemma GrowSpread(head: seq<Req>, sched: seq<Req>, i: nat, g: Req)
    requires Spread(head, sched) && i < |sched| && g.nr > 0
    requires forall x | x in head && x.Work() :: Apart(x, g)
    requires forall k | 0 <= k < |sched| && k != i && sched[k].Work() :: Apart(sched[k], g)
    ensures Spread(head, sched[i := g])
  {
    var s := sched[i := g];
    forall j, k | 0 <= j < k < |s| && s[j].Work() && s[k].Work() ensures Apart(s[j], s[k]) {
      if j != i && k != i { assert Apart(sched[j], sched[k]); }
    }
  }

  lemma JoinApart(sched: seq<Req>, i: nat, k: nat)
    requires ApartIn(sched) && i + 1 < |sched| && sched[i].Work() && sched[i + 1].Work()
    requires sched[i].End() == sched[i + 1].sector && k < |sched| && k != i && k != i + 1
    requires sched[k].Work() && sched[k].nr > 0
    ensures Apart(sched[k], Join(sched[i], sched[i + 1]))
  {
    if k < i { assert Apart(sched[k], sched[i]) && Apart(sched[k], sched[i + 1]); }
    else { assert Apart(sched[i], sched[k]) && Apart(sched[i + 1], sched[k]); }
  }

  lemma JoinApartIn(sched: seq<Req>, i: nat)
    requires ApartIn(sched) && i + 1 < |sched| && sched[i].Work() && sched[i + 1].Work()
    requires sched[i].End() == sched[i + 1].sector && forall r | r in sched && r.Work() :: r.nr > 0
    ensures ApartIn(JoinedList(sched, i))
  {
    var s := JoinedList(sched, i);
    assert forall k | 0 <= k < |s| && k != i :: s[k] == if k < i then sched[k] else sched[k + 1];
    forall j, k | 0 <= j < k < |s| && s[j].Work() && s[k].Work() ensures Apart(s[j], s[k]) {
      var j', k' := if j < i then j else j + 1, if k < i then k else k + 1;
      if j == i { JoinApart(sched, i, k'); }
      else if k == i { JoinApart(sched, i, j'); }
      else { assert Apart(sched[j'], sched[k']); }
    }
  }

  lemma JoinSpread(head: seq<Req>, sched: seq<Req>, i: nat)
    requires Spread(head, sched) && i + 1 < |sched| && sched[i].Work() && sched[i + 1].Work()
    requires sched[i].End() == sched[i + 1].sector
    ensures Spread(head, JoinedList(sched, i))
  {
    var s := JoinedList(sched, i);
    assert sched[i] in sched && sched[i + 1] in sched;
    assert forall y | y in s :: y == Join(sched[i], sched[i + 1]) || y in sched;
    JoinApartIn(sched, i);
    forall x, y | x in head && y in s && x.Work() && y.Work() ensures Apart(x, y) {
      assert Apart(x, sched[i]) && Apart(x, sched[i + 1]);
    }
  }

  lemma AdjacentApart(x: Req, r: Req, g: Req, sector: nat, nr: nat)
    requires x.nr > 0 && Apart(x, r) && (sector + nr <= x.sector || x.End() <= sector)
    requires (r.End() == sector && g.sector == r.sector && g.nr == r.nr + nr)
          || (r.sector == sector + nr && g.sector == sector && g.nr == r.nr + nr)
    ensures Apart(x, g) && Apart(g, x)
  {
  }

  lemma GrownSwept(q: Queue, i: nat, kind: MergeKind, bio: nat, sector: nat, nr: nat)
    requires Swept(q) && Clear(q, sector, nr) && i < |q.sched| && q.sched[i].Work()
    requires if kind.BackMerge? then q.sched[i].End() == sector else q.sched[i].sector == sector + nr
    ensures Swept(Grown(q, i, Grow(q.sched[i], kind, bio, sector, nr), bio))
  {
    var r := q.sched[i];
    var g := Grow(r, kind, bio, sector, nr);
    assert r in q.sched;
    forall x | x in q.head && x.Work() ensures Apart(x, g) {
      AdjacentApart(x, r, g, sector, nr);
    }
    forall k | 0 <= k < |q.sched| && k != i && q.sched[k].Work() ensures Apart(q.sched[k], g) {
      assert q.sched[k] in q.sched;
      assert if k < i then Apart(q.sched[k], q.sched[i]) else Apart(q.sched[i], q.sched[k]);
      AdjacentApart(q.sched[k], r, g, sector, nr);
    }
    GrowSpread(q.head, q.sched, i, g);
    SweptElsewhere(q, Grown(q, i, g, bio));
  }

  lemma RefusedSwept(q: Queue, i: nat)
    requires Swept(q) && i < |q.sched|
    ensures Swept(Refused(q, i))
  {
    var r := q.sched[i].(nomerge := true);
    assert q.sched[i] in q.sched;
    var s := q.sched[i := r];
    assert forall j, k | 0 <= j < k < |s| && s[j].Work() && s[k].Work() :: Apart(q.sched[j], q.sched[k]);
    forall a, b | a in q.head && b in s && a.Work() && b.Work() ensures Apart(a, b) {
      assert b == r || b in q.sched;
      assert r.Work() ==> Apart(a, q.sched[i]);
    }
    assert Spread(q.head, s);
    SweptElsewhere(q, Refused(q, i));
  }

  lemma JoinSwept(q: Queue, i: nat)
    requires Swept(q) && i + 1 < |q.sched| && q.sched[i].Work() && q.sched[i + 1].Work()
    requires q.sched[i].End() == q.sched[i + 1].sector
    requires q.orig.Some? && CurSeq(q.ordseq) == ORDSEQ_DRAIN ==> CurSeq(SetBit(q.ordseq, StageDrain)) != ORDSEQ_DONE
    ensures Swept(JoinRequests(q, i))
  {
    JoinSpread(q.head, q.sched, i);
    var q' := JoinRequests(q, i);
    assert q.sched[i] in q.sched;
    assert q' == q.(sched := JoinedList(q.sched, i), nrSorted := q'.nrSorted, lastMerge := q'.lastMerge, ordseq := q'.ordseq);
    forall r | r in q'.sched ensures exists x :: x in q.sched && x.id == r.id {
      if r == Join(q.sched[i], q.sched[i + 1]) { assert r.id == q.sched[i].id; } else { assert r in q.sched; }
    }
    SweptElsewhere(q, q');
  }

  /** While the queue drains, the barrier itself is still to come. */
  lemma DrainNeverLast(q: Queue)
    requires Inv(q)
    ensures q.orig.Some? && CurSeq(q.ordseq) == ORDSEQ_DRAIN ==> CurSeq(SetBit(q.ordseq, StageDrain)) != ORDSEQ_DONE
  {
  }

  lemma SchedulerWork(q: Queue)
    requires Inv(q)
    ensures forall i | 0 <= i < |q.sched| :: q.sched[i].Work()
  {
    forall i | 0 <= i < |q.sched| ensures q.sched[i].Work() {
      assert q.sched[i] in q.sched;
    }
  }

  lemma AllowedMergeSwept(q: Queue, i: nat, kind: MergeKind, g: Req, bio: nat, allowJoin: bool)
    requires i < |q.sched| && Swept(Grown(q, i, g, bio))
    requires forall i | 0 <= i < |q.sched| :: q.sched[i].Work()
    requires g.Work()
    requires q.orig.Some? && CurSeq(q.ordseq) == ORDSEQ_DRAIN ==> CurSeq(SetBit(q.ordseq, StageDrain)) != ORDSEQ_DONE
    ensures var q1 := Grown(q, i, g, bio);
            Swept(if kind.BackMerge? && i + 1 < |q.sched| && MayJoin(g, q.sched[i + 1], allowJoin) then JoinRequests(q1, i)
                  else if kind.FrontMerge? && i > 0 && MayJoin(q.sched[i - 1], g, allowJoin) then JoinRequests(q1, i - 1)
                  else q1.(lastMerge := Some(g.id)))
  {
    var q1 := Grown(q, i, g, bio);
    if kind.BackMerge? && i + 1 < |q.sched| && MayJoin(g, q.sched[i + 1], allowJoin) {
      JoinSwept(q1, i);
    } else if kind.FrontMerge? && i > 0 && MayJoin(q.sched[i - 1], g, allowJoin) {
      JoinSwept(q1, i - 1);
    } else {
      SweptElsewhere(q1, q1.(lastMerge := Some(g.id)));
    }
  }

  lemma MergeSwept(q: Queue, i: nat, bio: nat, sector: nat, nr: nat, write: bool, allow: bool, allowJoin: bool)
    requires Swept(q) && CanMerge(q, i, sector, nr, write) && Clear(q, sector, nr)
    requires forall i | 0 <= i < |q.sched| :: q.sched[i].Work()
    requires q.orig.Some? && CurSeq(q.ordseq) == ORDSEQ_DRAIN ==> CurSeq(SetBit(q.ordseq, StageDrain)) != ORDSEQ_DONE
    ensures Swept(MergeBio(q, i, bio, sector, nr, write, allow, allowJoin))
  {
    var kind := TryMerge(q.sched[i], sector, nr, write);
    if !allow {
      RefusedSwept(q, i);
    } else {
      GrownSwept(q, i, kind, bio, sector, nr);
      AllowedMergeSwept(q, i, kind, Grow(q.sched[i], kind, bio, sector, nr), bio, allowJoin);
    }
  }

  // ---------------------------------------------------------------- fetching

  /** Handing out the first request of a sweep leaves the rest a sweep from where that request ends. */
  lemma SweepGoesOn(head: seq<Req>, e: nat)
    requires head != [] && Free(head, 0) && Elevator(head, e) && ApartIn(head)
    requires forall r | r in head :: r.Work() && r.nr > 0
    ensures Elevator(head[1..], head[0].End())
  {
    var t, r := head[1..], head[0];
    forall i, j | 0 <= i < j < |t| && Free(t, i) ensures Before(t[i], t[j], r.End()) {
      assert Free(head, i + 1);
      assert Before(head[i + 1], head[j + 1], e);
      assert Before(r, head[i + 1], e) && Before(r, head[j + 1], e);
      assert Apart(r, head[i + 1]) && Apart(r, head[j + 1]);
      assert head[i + 1] in head && head[j + 1] in head;
    }
  }

  lemma ElevatorTail(head: seq<Req>, e: nat)
    requires head != [] && Elevator(head, e)
    ensures Elevator(head[1..], e)
  {
    var t := head[1..];
    forall i, j | 0 <= i < j < |t| && Free(t, i) ensures Before(t[i], t[j], e) {
      assert Free(head, i + 1);
      assert Before(head[i + 1], head[j + 1], e);
    }
  }

  lemma StopInFront(r: Req, t: seq<Req>, e: nat)
    requires r.Stops() && Elevator(t, e)
    ensures Elevator([r] + t, e)
  {
    var h := [r] + t;
    assert h[0].Stops();
    forall i, j | 0 < i < j < |h| && Free(h, i) ensures Before(h[i], h[j], e) {
      assert forall k | i - 1 <= k < |t| :: t[k] == h[k + 1];
      assert Free(t, i - 1);
      assert Before(t[i - 1], t[j - 1], e);
    }
  }

  lemma TailSpread(head: seq<Req>, sched: seq<Req>)
    requires head != [] && Spread(head, sched)
    ensures Spread(head[1..], sched)
  {
    var t := head[1..];
    forall i, j | 0 <= i < j < |t| && t[i].Work() && t[j].Work() ensures Apart(t[i], t[j]) {
      assert Apart(head[i + 1], head[j + 1]);
    }
  }

  /** The head may start and no barrier is left: nothing on the queue stops sorted insertion. */
  lemma AllFree(q: Queue)
    requires Inv(q) && PlainHead(q.head) && q.finished == q.barriers && q.head != [] && !q.head[0].started
    ensures Free(q.head, 0)
    ensures forall r | r in q.head :: r.Work()
  {
    forall r | r in q.head ensures r.Work() && !r.hard && !r.soft {
      if !r.id.Normal? { ProxyHere(q, r.id); }
    }
    assert forall k | 0 <= k < |q.head| :: q.head[k] in q.head;
  }

  lemma BoundaryPassed(q: Queue)
    requires Inv(q) && Swept(q) && MayStart(q) && (q.boundary.None? || q.boundary == Some(q.head[0].id))
    ensures q.finished == q.barriers
  {
    assert q.head[0] in q.head;
  }

  lemma MarkStartedElevator(q: Queue)
    requires Inv(q) && Swept(q) && MayStart(q)
    ensures Elevator(MarkStarted(q).head, MarkStarted(q).endSector)
  {
    var q', r := MarkStarted(q), q.head[0];
    if !r.started && (q.boundary.None? || q.boundary == Some(r.id)) {
      BoundaryPassed(q);
      AllFree(q);
      SweepGoesOn(q.head, q.endSector);
    } else {
      ElevatorTail(q.head, q.endSector);
    }
    StopInFront(r.(started := true), q.head[1..], q'.endSector);
  }

  lemma MarkStartedSpread(head: seq<Req>, sched: seq<Req>)
    requires head != [] && Spread(head, sched)
    ensures Spread([head[0].(started := true)] + head[1..], sched)
  {
    var h := [head[0].(started := true)] + head[1..];
    assert head[0] in head;
    forall i, j | 0 <= i < j < |h| && h[i].Work() && h[j].Work() ensures Apart(h[i], h[j]) {
      assert Apart(head[i], head[j]);
    }
    forall a, b | a in h && b in sched && a.Work() && b.Work() ensures Apart(a, b) {
      if a == h[0] { assert Apart(head[0], b); } else { assert a in head; }
    }
  }

  lemma StartedPlain(head: seq<Req>)
    requires head != [] && PlainHead(head)
    ensures PlainHead([head[0].(started := true)] + head[1..])
  {
    var h := [head[0].(started := true)] + head[1..];
    assert head[0] in head;
    forall x | x in h ensures !x.Special() && (x.soft ==> Firm(x)) {
      assert x == h[0] || x in head;
    }
  }

  lemma MarkStartedSwept(q: Queue)
    requires Inv(q) && Swept(q) && MayStart(q)
    ensures Swept(MarkStarted(q))
  {
    MarkStartedElevator(q);
    MarkStartedSpread(q.head, q.sched);
    StartedPlain(q.head);
    if q.finished < q.barriers {
      MarkStartedLast(q);
      if q.boundary == Some(q.head[0].id) { BoundaryPassed(q); }
    }
  }

  lemma StartedLast(q: Queue)
    requires LastBarrier(q) && q.head != [] && q.boundary != Some(q.head[0].id)
    ensures LastBarrier(MarkStarted(q))
  {
    var q' := MarkStarted(q);
    if b :| b in q.head && b.Barrier() && b.stamp == q.barriers - 1 && q.boundary == Some(b.id) {
      assert b in q.head[1..];
      assert b in q'.head;
    }
    forall x | x in q'.head && x.Work() && !x.hard ensures Some(x.id) != q.boundary {
      assert x == q'.head[0] || x in q.head;
    }
  }

  lemma MarkStartedLast(q: Queue)
    requires Inv(q) && Swept(q) && MayStart(q) && q.finished < q.barriers
    ensures LastBarrier(MarkStarted(q))
  {
    if q.boundary == Some(q.head[0].id) { BoundaryPassed(q); }
    StartedLast(q);
  }

  lemma RejectSwept(q: Queue)
    requires Inv(q) && Swept(q) && Rejects(q)
    ensures Swept(RejectBarrier(q))
  {
    var q' := RejectBarrier(q);
    assert q.head[0] in q.head && q'.head == q.head[1..];
    IdleHead(q);
    ElevatorTail(q.head, q.endSector);
    TailSpread(q.head, q.sched);
    if q'.finished < q'.barriers {
      var b :| b in q.head && b.Barrier() && b.stamp == q.barriers - 1 && q.boundary == Some(b.id);
      assert b in q'.head;
    }
  }

  lemma SequenceSwept(q: Queue)
    requires Inv(q) && Swept(q) && Startable(q)
    ensures Swept(SequenceStarted(q))
  {
    var q', x, t := SequenceStarted(q), Proxies(q.nextOrdered, q.head[0]), q.head[1..];
    IdleHead(q);
    assert q.head[0] in q.head;
    ProxiesGood(q.nextOrdered, q.head[0], q.finished);
    ElevatorTail(q.head, q.endSector);
    TailSpread(q.head, q.sched);
    ProxiesElevator(x, t, q.endSector);
    ProxiesInFront(x, t, q.sched);
    assert forall r | r in q'.head :: r in x || r in t;
    SequenceLast(q);
  }

  lemma SequenceLast(q: Queue)
    requires Inv(q) && Startable(q) && (q.finished < q.barriers ==> LastBarrier(q))
    ensures LastBarrier(SequenceStarted(q))
  {
    var q', x, t := SequenceStarted(q), Proxies(q.nextOrdered, q.head[0]), q.head[1..];
    IdleHead(q);
    assert q.head[0] in q.head;
    assert q.finished < q.barriers;
    LastMoves(q, q', x, t);
  }

  lemma LastMoves(q: Queue, q': Queue, x: seq<Req>, t: seq<Req>)
    requires LastBarrier(q) && !Active(q) && q.head != [] && q.head == [q.head[0]] + t && q'.head == x + t
    requires q' == q.(head := q'.head, ordered := q'.ordered, ordseq := q'.ordseq, orig := Some(q.head[0]))
    requires forall r | r in x :: !r.id.Normal?
    ensures LastBarrier(q')
  {
    var b :| b in q.head && b.Barrier() && b.stamp == q.barriers - 1 && q.boundary == Some(b.id);
    assert b != q.head[0] ==> b in t && b in q'.head;
    assert forall r | r in q'.head :: r in x || r in t;
    assert forall r | r in t :: r in q.head;
  }

  lemma {:induction false} ProxiesElevator(x: seq<Req>, t: seq<Req>, e: nat)
    requires (forall r | r in x :: r.soft) && Elevator(t, e)
    ensures Elevator(x + t, e)
  {
    if x == [] {
      assert x + t == t;
    } else {
      assert x + t == [x[0]] + (x[1..] + t);
      ProxiesElevator(x[1..], t, e);
      StopInFront(x[0], x[1..] + t, e);
    }
  }

  lemma {:induction false} ProxiesInFront(x: seq<Req>, t: seq<Req>, sched: seq<Req>)
    requires forall r | r in x :: !r.id.Normal? && r.soft && !r.started
    requires Spread(t, sched) && PlainHead(t) && (t != [] ==> !t[0].started)
    ensures Spread(x + t, sched) && PlainHead(x + t)
    ensures x + t != [] ==> !(x + t)[0].started
  {
    if x == [] {
      assert x + t == t;
    } else {
      assert x + t == [x[0]] + (x[1..] + t);
      ProxiesInFront(x[1..], t, sched);
      ProxyInFront(x[0], x[1..] + t, sched);
    }
  }

  lemma ProxyInFront(r: Req, t: seq<Req>, sched: seq<Req>)
    requires !r.id.Normal? && !r.started && Spread(t, sched) && PlainHead(t) && (t != [] ==> !t[0].started)
    ensures Spread([r] + t, sched) && PlainHead([r] + t)
  {
    var h := [r] + t;
    forall i, j | 0 <= i < j < |h| && h[i].Work() && h[j].Work() ensures Apart(h[i], h[j]) {
      assert Apart(t[i - 1], t[j - 1]);
    }
  }

  lemma NextHeadCases(q: Queue)
    requires q.ordseq == IDLE <==> !Active(q)
    ensures Rejects(q) ==> NextHead(q) == NextHead(RejectBarrier(q))
    ensures Startable(q) && !Rejects(q) ==> NextHead(q).0 == StartOrdered(q).0
    ensures q.head != [] && !Startable(q) ==> NextHead(q).0 == q
    ensures q.head == [] && q.sched == [] ==> NextHead(q).0 == q
    ensures q.head == [] && q.sched != [] ==> NextHead(q) == NextHead(NoopDispatch(q))
  {
  }

  lemma SequenceModes(q: Queue)
    requires Inv(q)
    ensures q.ordseq == IDLE <==> !Active(q)
    ensures q.head != [] && q.head[0].hard ==> !q.head[0].started || !q.head[0].Work()
    ensures q.head != [] && !Active(q) ==> q.head[0].id.Normal?
  {
    if q.head != [] {
      assert q.head[0] in q.head;
      if !Active(q) { IdleHead(q); }
    }
  }

  lemma {:induction false} NextHeadSwept(q: Queue)
    requires Inv(q) && Swept(q) && (Rejects(q) ==> q.inFlight == 0)
    ensures Swept(NextHead(q).0)
    decreases |q.sched| + |q.head|, |q.sched|
  {
    SequenceModes(q);
    NextHeadCases(q);
    if Rejects(q) {
      RejectInv(q);
      RejectSwept(q);
      NextHeadSwept(RejectBarrier(q));
    } else if Startable(q) {
      StartForm(q);
      SequenceSwept(q);
    } else if q.head == [] && q.sched != [] {
      DispatchOrder(q);
      SchedulerPlain(q);
      NextHeadSwept(NoopDispatch(q));
    }
  }

  lemma SchedulerPlain(q: Queue)
    requires Inv(q) && q.sched != [] && q.head == []
    ensures !Rejects(NoopDispatch(q))
  {
    assert q.sched[0] in q.sched;
  }

  lemma FetchSwept(q: Queue)
    requires Inv(q) && Swept(q) && (Rejects(q) ==> q.inFlight == 0)
    ensures Swept(Fetch(q).0)
  {
    NextHeadInv(q);
    NextHeadSwept(q);
    var (q1, rid) := NextHead(q);
    if rid.Some? { MarkStartedSwept(q1); }
  }

  // ---------------------------------------------------------------- the driver's side

  lemma TailLast(q: Queue, q': Queue)
    requires LastBarrier(q) && q.head != [] && !q.head[0].Barrier()
    requires q'.head == q.head[1..] && q'.sched == q.sched && q'.boundary == q.boundary
    requires q'.barriers == q.barriers && q'.orig == q.orig
    ensures LastBarrier(q')
  {
    if b :| b in q.head && b.Barrier() && b.stamp == q.barriers - 1 && q.boundary == Some(b.id) {
      assert b in q'.head;
    }
  }

  lemma TakeSwept(q: Queue, i: nat)
    requires Inv(q) && Swept(q) && i < |q.head| && q.head[i].started
    ensures Swept(Take(q, i))
  {
    var q' := Take(q, i);
    assert i == 0 && q'.head == q.head[1..] && q.head[0] in q.head;
    ElevatorTail(q.head, q.endSector);
    TailSpread(q.head, q.sched);
    if q.finished < q.barriers { TailLast(q, q'); }
  }

  lemma CompletedForm(q: Queue, r: Req)
    requires q.orig.Some? && CurSeq(q.ordseq) == ORDSEQ_DRAIN ==> CurSeq(SetBit(q.ordseq, StageDrain)) != ORDSEQ_DONE
    ensures var q' := CompletedRequest(q, r); q' == q.(inFlight := q'.inFlight, ordseq := q'.ordseq)
  {
  }

  lemma CompleteForm(q: Queue, s: Stage)
    requires Active(q)
    ensures var q' := CompleteSeq(q, s);
            || q' == q.(ordseq := q'.ordseq)
            || q' == q.(ordseq := q'.ordseq, orig := None, finished := q.finished + 1, ended := q'.ended)
  {
  }

  predicate ListsKept(q: Queue, q': Queue) {
    && q'.head == q.head && q'.sched == q.sched && q'.endSector == q.endSector && q'.boundary == q.boundary
    && q'.barriers == q.barriers
    && (|| (q'.orig == q.orig && q'.finished == q.finished)
        || (q'.orig.None? && Active(q) && q'.finished == q.finished + 1))
  }

  /** Ending a request changes neither list; at most it ends the running sequence. */
  lemma EndForm(q: Queue, i: nat)
    requires i < |q.driver|
    requires q.orig.Some? && CurSeq(q.ordseq) == ORDSEQ_DRAIN ==> CurSeq(SetBit(q.ordseq, StageDrain)) != ORDSEQ_DONE
    ensures ListsKept(q, EndRequest(q, i))
  {
    var r, q0 := q.driver[i], q.(driver := RemoveAt(q.driver, i));
    CompletedForm(q0, r);
    var q1 := CompletedRequest(q0, r);
    if !r.id.Normal? && q1.orig.Some? { CompleteForm(q1, StageOf(r.id)); }
  }

  lemma ActiveIsFirst(q: Queue)
    requires Inv(q)
    ensures Active(q) ==> q.orig.value.stamp == q.finished
  {
  }

  lemma EndSwept(q: Queue, i: nat)
    requires Inv(q) && Swept(q) && i < |q.driver|
    ensures Swept(EndRequest(q, i))
  {
    DrainNeverLast(q);
    ActiveIsFirst(q);
    EndForm(q, i);
    EndedSwept(q, EndRequest(q, i));
  }

  lemma EndedSwept(q: Queue, q': Queue)
    requires Swept(q) && (Active(q) ==> q.orig.value.stamp == q.finished)
    requires ListsKept(q, q')
    ensures Swept(q')
  {
  }

  // ---------------------------------------------------------------- every run

  ghost predicate PlainRun(q: Queue, steps: seq<Step>)
    requires Runs(q, steps)
    decreases |steps|
  {
    steps == [] || (Plain(q, steps[0]) && PlainRun(Apply(q, steps[0]), steps[1..]))
  }

  lemma StepSwept(q: Queue, s: Step)
    requires Inv(q) && Swept(q) && Enabled(q, s) && Careful(q, s) && Plain(q, s)
    ensures Swept(Apply(q, s))
  {
    match s
    case Submit(id, bio, sector, nr, write, barrier, _) => SubmitOrder(q, id, bio, sector, nr, write, barrier);
    case Merge(i, bio, sector, nr, write, allow, allowJoin) =>
      SchedulerWork(q);
      DrainNeverLast(q);
      MergeSwept(q, i, bio, sector, nr, write, allow, allowJoin);
    case Prefers(i) => FavouredSwept(q, i);
    case Sends(i) => SendsOrder(q, i);
    case FetchNext => FetchSwept(q);
    case TakeOff(i) => TakeSwept(q, i);
    case End(i) => EndSwept(q, i);
    case SetOrdered(_) =>
  }

  lemma StepOrder(q: Queue, s: Step)
    requires Inv(q) && Swept(q) && Enabled(q, s) && Careful(q, s) && Plain(q, s)
    ensures Inv(Apply(q, s)) && Swept(Apply(q, s))
  {
    StepInv(q, s);
    StepSwept(q, s);
  }

  lemma {:induction false} RunSwept(q: Queue, steps: seq<Step>)
    requires Inv(q) && Swept(q) && Runs(q, steps) && CarefulRun(q, steps) && PlainRun(q, steps)
    ensures Swept(After(q, steps))
    decreases |steps|
  {
    if steps != [] {
      StepOrder(q, steps[0]);
      RunSwept(Apply(q, steps[0]), steps[1..]);
    }
  }

  /**
    After any run of file system requests that never overlap and are never requeued, the part of the
    dispatch queue behind its last fixed request is one sweep of the disk from end_sector.
   */
  lemma DispatchQueueIsElevator(steps: seq<Step>)
    requires Runs(EMPTY, steps) && CarefulRun(EMPTY, steps) && PlainRun(EMPTY, steps)
    ensures Elevator(After(EMPTY, steps).head, After(EMPTY, steps).endSector)
  {
    InitialState();
    RunSwept(EMPTY, steps);
  }
}
