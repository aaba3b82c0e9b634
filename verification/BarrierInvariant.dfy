/**
  What every step of the request queue keeps, as long as no barrier is turned down while file
  system requests are in flight and no command is put in front of a request that a running
  sequence still waits for (`Careful`).
 */
module BarrierInvariant {
  import opened Wrappers
  import opened RequestQueue

  // ---------------------------------------------------------------- counting over lists

  function CountFs(s: seq<Req>): nat {
    if s == [] then 0 else (if s[0].fs then 1 else 0) + CountFs(s[1..])
  }

  function CountId(s: seq<Req>, id: Rid): nat {
    if s == [] then 0 else (if s[0].id == id then 1 else 0) + CountId(s[1..], id)
  }

  function Bios(s: seq<Req>): multiset<nat> {
    if s == [] then multiset{} else multiset(s[0].bios) + Bios(s[1..])
  }

  lemma {:induction false} Concat(a: seq<Req>, b: seq<Req>)
    ensures CountFs(a + b) == CountFs(a) + CountFs(b)
    ensures Bios(a + b) == Bios(a) + Bios(b)
    ensures forall id :: CountId(a + b, id) == CountId(a, id) + CountId(b, id)
  {
    if a == [] {
      assert a + b == b;
    } else {
      assert (a + b)[1..] == a[1..] + b;
      Concat(a[1..], b);
    }
  }

  lemma Inserted(s: seq<Req>, p: nat, r: Req)
    requires p <= |s|
    ensures CountFs(InsertAt(s, p, r)) == CountFs(s) + (if r.fs then 1 else 0)
    ensures Bios(InsertAt(s, p, r)) == Bios(s) + multiset(r.bios)
    ensures forall id :: CountId(InsertAt(s, p, r), id) == CountId(s, id) + (if r.id == id then 1 else 0)
  {
    var a, b := s[..p], s[p..];
    assert s == a + b;
    Concat(a, b);
    Concat([r], b);
    Concat(a, [r] + b);
    assert InsertAt(s, p, r) == a + ([r] + b);
    Singleton(r);
  }

  lemma Singleton(r: Req)
    ensures CountFs([r]) == (if r.fs then 1 else 0)
    ensures Bios([r]) == multiset(r.bios)
    ensures forall id :: CountId([r], id) == if r.id == id then 1 else 0
  {
    assert [r][1..] == [];
  }

  lemma Removed(s: seq<Req>, i: nat)
    requires i < |s|
    ensures CountFs(s) == CountFs(RemoveAt(s, i)) + (if s[i].fs then 1 else 0)
    ensures Bios(s) == Bios(RemoveAt(s, i)) + multiset(s[i].bios)
    ensures forall id :: CountId(s, id) == CountId(RemoveAt(s, i), id) + (if s[i].id == id then 1 else 0)
  {
    var t := RemoveAt(s, i);
    assert s == InsertAt(t, i, s[i]);
    Inserted(t, i, s[i]);
  }

  lemma {:induction false} CountIdIn(s: seq<Req>, id: Rid)
    ensures CountId(s, id) > 0 <==> exists r :: r in s && r.id == id
  {
    if s != [] {
      CountIdIn(s[1..], id);
      assert s == [s[0]] + s[1..];
      if r :| r in s && r.id == id {
        assert r == s[0] || r in s[1..];
      }
    }
  }

  lemma {:induction false} CountFsIn(s: seq<Req>)
    ensures CountFs(s) == 0 <==> forall r :: r in s ==> !r.fs
  {
    if s != [] {
      CountFsIn(s[1..]);
      assert s == [s[0]] + s[1..];
    }
  }

  // ---------------------------------------------------------------- the invariant

  predicate Active(q: Queue) { q.orig.Some? }

  predicate Draining(q: Queue) { Active(q) && !q.ordseq.drain }

  predicate ColorOk(r: Req) { r.color == (r.stamp % 2 == 1) }

  /** The place of a request in submission order; proxies stand where their barrier stood. */
  function Key(r: Req, low: nat): nat {
    match r.id
    case PreFlushRq => 10 * low + 6
    case BarRq => 10 * low + 7
    case PostFlushRq => 10 * low + 8
    case Normal(_) => if r.hard then 10 * r.stamp + 5 else 10 * r.stamp
  }

  predicate Firm(r: Req) { r.Barrier() || !r.id.Normal? }

  predicate InOrder(a: Req, b: Req, low: nat) {
    a.Special() || b.Special() || (Key(a, low) <= Key(b, low) && (Firm(a) ==> Key(a, low) < Key(b, low)))
  }

  ghost predicate HeadOrdered(head: seq<Req>, low: nat) {
    forall i, j | 0 <= i < j < |head| :: InOrder(head[i], head[j], low)
  }

  predicate GoodProxy(r: Req) {
    !r.id.Normal? ==> r.hard && (r.fs <==> r.id.BarRq?) && r.bios == []
  }

  predicate GoodBios(r: Req, epochOf: map<nat, nat>) {
    if r.Work() then forall b | b in r.bios :: b in epochOf && epochOf[b] == r.stamp else r.bios == []
  }

  /** A request on the dispatch queue, `low` barriers having ended and `cur` having been submitted. */
  predicate GoodQueued(r: Req, low: nat, cur: nat, active: bool) {
    && GoodProxy(r)
    && (!r.Work() ==> r.soft)
    && (r.Special() ==> !r.hard)
    && (r.Work() ==>
        && low <= r.stamp <= cur && ColorOk(r)
        && (r.hard ==> r.stamp < cur && !r.started)
        && (r.started ==> r.stamp == low)
        && (active && r.stamp == low ==> r.soft && !r.hard))
  }

  predicate GoodTaken(r: Req, low: nat) {
    && GoodProxy(r)
    && r.started
    && (r.Special() ==> !r.hard)
    && (r.Work() ==> r.stamp == low && ColorOk(r) && !r.hard)
  }

  predicate GoodScheduled(r: Req, cur: nat) {
    r.Work() && !r.hard && !r.soft && !r.started && r.sorted && r.stamp == cur && ColorOk(r)
  }

  ghost predicate HasBarrier(head: seq<Req>, k: nat) {
    exists r :: r in head && r.Barrier() && r.stamp == k
  }

  ghost predicate Placed(q: Queue) {
    && (forall r | r in q.head :: GoodQueued(r, q.finished, q.barriers, Active(q)))
    && (forall r | r in q.driver :: GoodTaken(r, q.finished))
    && (forall r | r in q.sched :: GoodScheduled(r, q.barriers))
    && HeadOrdered(q.head, q.finished)
  }

  ghost predicate Counted(q: Queue) {
    && q.finished <= q.barriers
    && q.ordcolor == (q.barriers % 2 == 1)
    && q.nrSorted == |q.sched|
    && q.inFlight == CountFs(q.driver)
    && (q.lastMerge.Some? ==> exists r :: r in q.sched && r.id == q.lastMerge.value)
    && (forall k | q.finished <= k < q.barriers && !(Active(q) && k == q.finished) :: HasBarrier(q.head, k))
  }

  predicate Pending(q: Queue, id: Rid)
    requires !id.Normal?
  {
    Active(q) && !Has(q.ordseq, StageOf(id))
  }

  /** The proxy has not been handed to the driver. */
  ghost predicate NotIssued(q: Queue, id: Rid) {
    CountId(q.driver, id) == 0 && forall r | r in q.head && r.id == id :: !r.started
  }

  ghost predicate Sequenced(q: Queue) {
    && (q.ordseq.started <==> Active(q))
    && (!Active(q) ==> q.ordseq == IDLE)
    && (Active(q) ==>
        && q.finished < q.barriers
        && q.orig.value.Barrier() && q.orig.value.stamp == q.finished && ColorOk(q.orig.value)
        && CurSeq(q.ordseq) != ORDSEQ_DONE)
    && (forall id: Rid | !id.Normal? ::
          CountId(q.head, id) + CountId(q.driver, id) == if Pending(q, id) then 1 else 0)
  }

  ghost predicate StagesKept(q: Queue) {
    && (Draining(q) ==> NotIssued(q, PreFlushRq) && NotIssued(q, BarRq) && NotIssued(q, PostFlushRq) && !q.ordseq.bar)
    && (Active(q) && !q.ordseq.preflush ==> NotIssued(q, BarRq) && NotIssued(q, PostFlushRq) && !q.ordseq.bar)
    && (Active(q) && !q.ordseq.bar ==> NotIssued(q, PostFlushRq))
    && (Active(q) && q.ordseq.drain ==>
        && (forall r | r in q.head && r.Work() :: r.stamp > q.finished)
        && (forall r | r in q.driver :: !r.Work()))
    && (Draining(q) ==> Exposed(q.head, q.orig.value, q.finished))
  }

  /** Nothing that a drained queue would let through stands before a request still to be drained. */
  ghost predicate Exposed(head: seq<Req>, orig: Req, low: nat) {
    forall i, j | 0 <= i < j < |head| && head[j].Work() && head[j].stamp == low ::
      ReqSeq(orig, head[i]) == ORDSEQ_DRAIN
  }

  ghost predicate Conserved(q: Queue) {
    && multiset(q.epochOf.Keys) ==
       Bios(q.head) + Bios(q.sched) + Bios(q.driver)
       + (if Active(q) then multiset(q.orig.value.bios) else multiset{}) + q.ended
    && (forall r | r in q.head :: GoodBios(r, q.epochOf))
    && (forall r | r in q.sched :: GoodBios(r, q.epochOf))
    && (forall r | r in q.driver :: GoodBios(r, q.epochOf))
    && (Active(q) ==> GoodBios(q.orig.value, q.epochOf))
    && (forall b | b in q.epochOf :: q.epochOf[b] <= q.barriers)
  }

  /** While draining with nothing in flight, something can still move. */
  ghost predicate Movable(head: seq<Req>, orig: Req) {
    exists i :: 0 <= i < |head| && head[i].id.Normal? && ReqSeq(orig, head[i]) == ORDSEQ_DRAIN
                && forall j | 0 <= j < i :: head[j].Special()
  }

  ghost predicate Live(q: Queue) {
    Draining(q) && q.inFlight == 0 ==>
      || Movable(q.head, q.orig.value)
      || exists r :: r in q.driver && r.Special() && ReqSeq(q.orig.value, r) == ORDSEQ_DRAIN
  }

  ghost predicate Core(q: Queue) {
    Placed(q) && Counted(q) && Sequenced(q) && StagesKept(q) && Conserved(q)
  }

  ghost predicate Inv(q: Queue) { Core(q) && Live(q) }

  /** A file system request that the running sequence waits for stands on the queue, in front of bar_rq. */
  ghost predicate WorkAheadOfBar(head: seq<Req>) {
    exists i, j :: 0 <= i < j < |head| && head[i].Work() && head[j].id.BarRq?
  }

  /** A command put at the head now would not carry the colour of the running sequence. */
  predicate WrongColor(q: Queue) { Draining(q) && q.ordcolor != q.orig.value.color }

  /** The two things a caller must not do; `RejectionUnsafe` and `FrontCommandUnsafe` show why. */
  ghost predicate Careful(q: Queue, s: Step) {
    && (s.FetchNext? && Rejects(q) ==> q.inFlight == 0)
    && (s.Command? && s.front && WrongColor(q) ==> !WorkAheadOfBar(q.head))
  }

  lemma InitialState()
    ensures Inv(EMPTY)
  {
    assert multiset(EMPTY.epochOf.Keys) == multiset{};
  }
}
