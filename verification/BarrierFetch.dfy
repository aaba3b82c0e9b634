/** Merging and fetching keep the invariant. */
module BarrierFetch {
  import opened Wrappers
  import opened RequestQueue
  import opened BarrierInvariant
  import opened BarrierSubmission
  import opened BarrierCompletion

  // ---------------------------------------------------------------- merging

  lemma Updated(s: seq<Req>, i: nat, r: Req, more: multiset<nat>)
    requires i < |s| && multiset(r.bios) == multiset(s[i].bios) + more
    ensures Bios(s[i := r]) == Bios(s) + more
  {
    assert s == s[..i] + ([s[i]] + s[i + 1..]);
    assert s[i := r] == s[..i] + ([r] + s[i + 1..]);
    Concat(s[..i], [s[i]] + s[i + 1..]);
    Concat([s[i]], s[i + 1..]);
    Concat(s[..i], [r] + s[i + 1..]);
    Concat([r], s[i + 1..]);
    Singleton(s[i]);
    Singleton(r);
  }

  lemma SchedulerConserved(q: Queue, q': Queue)
    requires Conserved(q)
    requires q' == q.(sched := q'.sched, nrSorted := q'.nrSorted, lastMerge := q'.lastMerge)
    requires Bios(q'.sched) == Bios(q.sched) && forall r | r in q'.sched :: GoodBios(r, q.epochOf)
    ensures Conserved(q')
  {
  }

  lemma StillThere(q: Queue, i: nat, r: Req)
    requires Counted(q) && i < |q.sched| && q.lastMerge.Some? && r.id == q.sched[i].id
    ensures exists x :: x in q.sched[i := r] && x.id == q.lastMerge.value
  {
    var x :| x in q.sched && x.id == q.lastMerge.value;
    var k :| 0 <= k < |q.sched| && q.sched[k] == x;
    assert q.sched[i := r][k].id == x.id && q.sched[i := r][k] in q.sched[i := r];
  }

  lemma RefusedMerge(q: Queue, i: nat)
    requires Inv(q) && i < |q.sched|
    ensures Inv(Refused(q, i))
  {
    var r := q.sched[i].(nomerge := true);
    var q' := Refused(q, i);
    assert q.sched[i] in q.sched;
    Updated(q.sched, i, r, multiset{});
    assert forall x | x in q'.sched :: x == r || x in q.sched;
    if q'.lastMerge.Some? { StillThere(q, i, r); }
    SchedulerConserved(q, q');
    SchedulerOnly(q, q');
  }

  function Grown(q: Queue, i: nat, g: Req, bio: nat): Queue
    requires i < |q.sched|
  {
    q.(sched := q.sched[i := g], epochOf := q.epochOf[bio := q.barriers])
  }

  predicate GrowsBy(r: Req, g: Req, bio: nat) {
    && g == r.(sector := g.sector, nr := g.nr, bios := g.bios)
    && multiset(g.bios) == multiset(r.bios) + multiset{bio}
  }

  /** A bio joins only a request that is still in the scheduler, so of its own epoch. */
  lemma GrownInv(q: Queue, i: nat, g: Req, bio: nat)
    requires Inv(q) && i < |q.sched| && bio !in q.epochOf && GrowsBy(q.sched[i], g, bio)
    ensures Inv(Grown(q, i, g, bio).(lastMerge := Some(g.id)))
  {
    var r := q.sched[i];
    var q' := Grown(q, i, g, bio).(lastMerge := Some(g.id));
    assert r in q.sched;
    Updated(q.sched, i, g, multiset{bio});
    assert forall x | x in q'.sched :: x == g || x in q.sched;
    assert q'.sched[i] == g;
    GrownBios(r, g, bio, q.epochOf, q.barriers);
    ConservedWith(q, q', bio);
    SchedulerOnly(q, q');
  }

  lemma GrownBios(r: Req, g: Req, bio: nat, m: map<nat, nat>, e: nat)
    requires GoodBios(r, m) && GrowsBy(r, g, bio) && r.Work() && r.stamp == e && bio !in m
    ensures GoodBios(g, m[bio := e])
  {
    forall b | b in g.bios ensures b in m[bio := e] && m[bio := e][b] == g.stamp {
      assert b in multiset(g.bios);
      assert b in multiset(r.bios) || b == bio;
    }
  }

  lemma JoinedBios(q: Queue, i: nat)
    requires i + 1 < |q.sched|
    ensures Bios(JoinedList(q.sched, i)) == Bios(q.sched)
  {
    var a, b := q.sched[i], q.sched[i + 1];
    var s, t, j := q.sched[..i], q.sched[i + 2..], Join(a, b);
    assert q.sched == s + ([a] + ([b] + t));
    assert s + [j] + t == s + ([j] + t);
    Concat(s, [a] + ([b] + t));
    Concat([a], [b] + t);
    Concat([b], t);
    Concat(s, [j] + t);
    Concat([j], t);
    Singleton(a);
    Singleton(b);
    Singleton(j);
    assert multiset(j.bios) == multiset(a.bios) + multiset(b.bios);
  }

  function JoinedList(s: seq<Req>, i: nat): seq<Req>
    requires i + 1 < |s|
  {
    s[..i] + [Join(s[i], s[i + 1])] + s[i + 2..]
  }

  lemma JoinedGood(s: seq<Req>, i: nat, cur: nat, m: map<nat, nat>)
    requires i + 1 < |s| && forall r | r in s :: GoodScheduled(r, cur) && GoodBios(r, m)
    ensures forall r | r in JoinedList(s, i) :: GoodScheduled(r, cur) && GoodBios(r, m)
    ensures Join(s[i], s[i + 1]) in JoinedList(s, i)
  {
    var a := Join(s[i], s[i + 1]);
    assert s[i] in s && s[i + 1] in s;
    assert JoinedList(s, i)[i] == a;
    forall r | r in JoinedList(s, i) ensures GoodScheduled(r, cur) && GoodBios(r, m) {
      if r != a { assert r in s; }
    }
  }

  function Joined(q: Queue, i: nat): Queue
    requires i + 1 < |q.sched|
  {
    q.(sched := JoinedList(q.sched, i), nrSorted := q.nrSorted - 1, lastMerge := Some(q.sched[i].id))
  }

  lemma JoinedInv(q: Queue, i: nat)
    requires Inv(q) && i + 1 < |q.sched|
    ensures Inv(Joined(q, i))
  {
    JoinedGood(q.sched, i, q.barriers, q.epochOf);
    JoinedBios(q, i);
    SchedulerConserved(q, Joined(q, i));
    SchedulerOnly(q, Joined(q, i));
  }

  lemma JoinInv(q: Queue, i: nat)
    requires Inv(q) && i + 1 < |q.sched|
    ensures Inv(JoinRequests(q, i))
  {
    JoinedInv(q, i);
    DrainCheckInv(Joined(q, i));
    JoinForm(q, i);
  }

  lemma JoinForm(q: Queue, i: nat)
    requires i + 1 < |q.sched|
    ensures JoinRequests(q, i) == DrainCheck(Joined(q, i))
  {
  }

  lemma GrowGrows(r: Req, kind: MergeKind, bio: nat, sector: nat, nr: nat)
    ensures GrowsBy(r, Grow(r, kind, bio, sector, nr), bio)
  {
  }

  lemma JoinForgetsLastMerge(q: Queue, i: nat, l: Option<Rid>)
    requires i + 1 < |q.sched|
    ensures JoinRequests(q.(lastMerge := l), i) == JoinRequests(q, i)
  {
  }

  lemma GrownJoinInv(q: Queue, i: nat, g: Req, bio: nat, k: nat)
    requires Inv(q) && i < |q.sched| && bio !in q.epochOf && GrowsBy(q.sched[i], g, bio) && k + 1 < |q.sched|
    ensures Inv(JoinRequests(Grown(q, i, g, bio), k))
  {
    GrownInv(q, i, g, bio);
    JoinForgetsLastMerge(Grown(q, i, g, bio), k, Some(g.id));
    JoinInv(Grown(q, i, g, bio).(lastMerge := Some(g.id)), k);
  }

  /** A merge that the queue's limits allow: the request grows, and may join a neighbour. */
  lemma AllowedMergeInv(q: Queue, i: nat, kind: MergeKind, g: Req, bio: nat, allowJoin: bool)
    requires Inv(q) && i < |q.sched| && bio !in q.epochOf && GrowsBy(q.sched[i], g, bio)
    ensures var q1 := Grown(q, i, g, bio);
            Inv(if kind.BackMerge? && i + 1 < |q.sched| && MayJoin(g, q.sched[i + 1], allowJoin) then JoinRequests(q1, i)
                else if kind.FrontMerge? && i > 0 && MayJoin(q.sched[i - 1], g, allowJoin) then JoinRequests(q1, i - 1)
                else q1.(lastMerge := Some(g.id)))
  {
    if kind.BackMerge? && i + 1 < |q.sched| && MayJoin(g, q.sched[i + 1], allowJoin) {
      GrownJoinInv(q, i, g, bio, i);
    } else if kind.FrontMerge? && i > 0 && MayJoin(q.sched[i - 1], g, allowJoin) {
      GrownJoinInv(q, i, g, bio, i - 1);
    } else {
      GrownInv(q, i, g, bio);
    }
  }

  lemma MergeInv(q: Queue, i: nat, bio: nat, sector: nat, nr: nat, write: bool, allow: bool, allowJoin: bool)
    requires Inv(q) && bio !in q.epochOf && CanMerge(q, i, sector, nr, write)
    ensures Inv(MergeBio(q, i, bio, sector, nr, write, allow, allowJoin))
  {
    var r := q.sched[i];
    var kind := TryMerge(r, sector, nr, write);
    if !allow {
      RefusedMerge(q, i);
    } else {
      GrowGrows(r, kind, bio, sector, nr);
      AllowedMergeInv(q, i, kind, Grow(r, kind, bio, sector, nr), bio, allowJoin);
    }
  }

  // ---------------------------------------------------------------- starting a request

  /** The request at the head may go to the driver. */
  predicate MayStart(q: Queue) {
    && q.head != []
    && (q.head[0].Work() ==> q.head[0].stamp == q.finished && !q.head[0].hard)
    && (!q.head[0].id.Normal? ==> Active(q) && q.ordseq.drain && CurSeq(q.ordseq) == ReqSeq(q.orig.value, q.head[0]))
  }

  function Starting(q: Queue): Queue
    requires q.head != []
  {
    q.(head := [q.head[0].(started := true)] + q.head[1..])
  }

  lemma StartedSame(s: seq<Req>, i: nat, r: Req)
    requires i < |s| && r.fs == s[i].fs && r.id == s[i].id && r.bios == s[i].bios
    ensures CountFs(s[i := r]) == CountFs(s) && Bios(s[i := r]) == Bios(s)
    ensures forall id :: CountId(s[i := r], id) == CountId(s, id)
  {
    assert s == s[..i] + ([s[i]] + s[i + 1..]);
    assert s[i := r] == s[..i] + ([r] + s[i + 1..]);
    Concat(s[..i], [s[i]] + s[i + 1..]);
    Concat([s[i]], s[i + 1..]);
    Concat(s[..i], [r] + s[i + 1..]);
    Concat([r], s[i + 1..]);
    Singleton(s[i]);
    Singleton(r);
  }

  lemma StartingPlaced(q: Queue)
    requires Core(q) && MayStart(q)
    ensures Placed(Starting(q))
  {
    var q' := Starting(q);
    assert q.head[0] in q.head;
    forall i, j | 0 <= i < j < |q'.head| ensures InOrder(q'.head[i], q'.head[j], q'.finished) {
      assert InOrder(q.head[i], q.head[j], q.finished);
    }
    forall x | x in q'.head ensures x == q'.head[0] || x in q.head {
    }
  }

  lemma StartingMembers(q: Queue)
    requires q.head != []
    ensures Starting(q).head == q.head[0 := q.head[0].(started := true)]
    ensures forall x | x in Starting(q).head :: x == q.head[0].(started := true) || x in q.head
  {
  }

  lemma StartingBarriers(h: seq<Req>, k: nat)
    requires h != [] && HasBarrier(h, k)
    ensures HasBarrier(h[0 := h[0].(started := true)], k)
  {
    var b :| b in h && b.Barrier() && b.stamp == k;
    var m :| 0 <= m < |h| && h[m] == b;
    var h' := h[0 := h[0].(started := true)];
    assert h'[m].Barrier() && h'[m].stamp == k && h'[m] in h';
  }

  lemma StartingCounted(q: Queue)
    requires Counted(q) && q.head != []
    ensures Counted(Starting(q))
  {
    var q' := Starting(q);
    StartingMembers(q);
    forall k | q'.finished <= k < q'.barriers && !(Active(q') && k == q'.finished)
      ensures HasBarrier(q'.head, k)
    {
      StartingBarriers(q.head, k);
    }
  }

  lemma StartingConserved(q: Queue)
    requires Conserved(q) && q.head != []
    ensures Conserved(Starting(q))
  {
    StartingMembers(q);
    StartedSame(q.head, 0, q.head[0].(started := true));
    assert GoodBios(q.head[0], q.epochOf);
  }

  lemma StartingSequenced(q: Queue)
    requires Sequenced(q) && q.head != []
    ensures Sequenced(Starting(q))
  {
    StartingMembers(q);
    StartedSame(q.head, 0, q.head[0].(started := true));
  }

  lemma StartingExposed(h: seq<Req>, orig: Req, low: nat)
    requires h != [] && Exposed(h, orig, low)
    ensures Exposed(h[0 := h[0].(started := true)], orig, low)
  {
    var h' := h[0 := h[0].(started := true)];
    forall i, j | 0 <= i < j < |h'| && h'[j].Work() && h'[j].stamp == low
      ensures ReqSeq(orig, h'[i]) == ORDSEQ_DRAIN
    {
      assert h'[j] == h[j] && ReqSeq(orig, h[i]) == ORDSEQ_DRAIN;
    }
  }

  lemma StartingStages(q: Queue)
    requires Core(q) && MayStart(q)
    ensures StagesKept(Starting(q))
  {
    StartingMembers(q);
    assert q.head[0] in q.head;
    if Draining(q) {
      StartingExposed(q.head, q.orig.value, q.finished);
    }
  }

  lemma StartingMovable(h: seq<Req>, orig: Req)
    requires h != [] && Movable(h, orig)
    ensures Movable(h[0 := h[0].(started := true)], orig)
  {
    var h' := h[0 := h[0].(started := true)];
    var i :| 0 <= i < |h| && h[i].id.Normal? && ReqSeq(orig, h[i]) == ORDSEQ_DRAIN
             && forall j | 0 <= j < i :: h[j].Special();
    assert h'[i].id.Normal? && ReqSeq(orig, h'[i]) == ORDSEQ_DRAIN;
    assert forall j | 0 <= j < i :: h'[j].Special();
  }

  lemma StartingLive(q: Queue)
    requires Live(q) && q.head != []
    ensures Live(Starting(q))
  {
    StartingMembers(q);
    if Draining(q) && q.inFlight == 0 && Movable(q.head, q.orig.value) {
      StartingMovable(q.head, q.orig.value);
    }
  }

  lemma StartingInv(q: Queue)
    requires Inv(q) && MayStart(q)
    ensures Inv(Starting(q))
  {
    StartingPlaced(q);
    StartingCounted(q);
    StartingConserved(q);
    StartingSequenced(q);
    StartingStages(q);
    StartingLive(q);
  }

  lemma MarkStartedInv(q: Queue)
    requires Inv(q) && MayStart(q)
    ensures Inv(MarkStarted(q))
  {
    StartingInv(q);
    if q.boundary.None? || q.boundary == Some(q.head[0].id) {
      BoundaryMoves(Starting(q), q.head[0].End(), None);
    }
  }

  // ---------------------------------------------------------------- deciding about the head

  /** With no sequence running, the head of the queue belongs to the oldest open epoch. */
  lemma IdleHead(q: Queue)
    requires Core(q) && !Active(q) && q.head != []
    ensures q.head[0].Work() ==> q.head[0].stamp == q.finished
    ensures q.head[0].id.Normal?
  {
    var r := q.head[0];
    assert r in q.head;
    if !r.id.Normal? { ProxyHere(q, r.id); }
    if r.Work() {
      assert q.finished < q.barriers ==> HasBarrier(q.head, q.finished);
      if q.finished < q.barriers {
        var b :| b in q.head && b.Barrier() && b.stamp == q.finished;
        var m :| 0 <= m < |q.head| && q.head[m] == b;
        assert m > 0 ==> InOrder(q.head[0], q.head[m], q.finished);
      }
    }
  }

  /** The WARN_ON of blk_do_ordered: a file system request at the head is never behind its turn. */
  lemma ActiveHead(q: Queue)
    requires Core(q) && Active(q) && q.head != [] && !q.head[0].Special()
    ensures ReqSeq(q.orig.value, q.head[0]) >= CurSeq(q.ordseq)
    ensures ReqSeq(q.orig.value, q.head[0]) <= CurSeq(q.ordseq) ==> MayStart(q)
  {
    var r := q.head[0];
    assert r in q.head;
    if !r.id.Normal? {
      ProxyHere(q, r.id);
    } else if Draining(q) {
      ProxyHere(q, BarRq);
      var b :| b in q.head && b.id == BarRq;
      var m :| 0 <= m < |q.head| && q.head[m] == b;
      assert InOrder(q.head[0], q.head[m], q.finished);
    } else if ReqSeq(q.orig.value, r) == ORDSEQ_DRAIN {
      var m := NextBarrierFirst(q, 0);
    }
  }

  // ---------------------------------------------------------------- turning a barrier down

  lemma RejectInv(q: Queue)
    requires Inv(q) && Rejects(q) && q.inFlight == 0
    ensures Inv(RejectBarrier(q)) && RejectBarrier(q).inFlight == 0 && |RejectBarrier(q).head| < |q.head|
  {
    var q' := RejectBarrier(q);
    IdleHead(q);
    CountFsIn(q.driver);
    Removed(q.head, 0);
    assert q.head[0] in q.head;
    assert q'.head == q.head[1..];
    RejectPlaced(q);
    RejectCounted(q);
  }

  lemma BehindBarrier(q: Queue, i: nat)
    requires Core(q) && !Active(q) && 0 < i < |q.head| && q.head[0].fs && q.head[0].hard
    ensures q.head[i].id.Normal? && (q.head[i].Work() ==> q.head[i].stamp > q.finished)
  {
    IdleHead(q);
    assert q.head[i] in q.head && q.head[0] in q.head;
    assert InOrder(q.head[0], q.head[i], q.finished);
    if !q.head[i].id.Normal? { ProxyHere(q, q.head[i].id); }
  }

  lemma TailOrdered(q: Queue, low: nat)
    requires Core(q) && !Active(q) && q.head != [] && q.head[0].fs && q.head[0].hard
    ensures HeadOrdered(q.head[1..], low)
  {
    var h := q.head[1..];
    forall i, j | 0 <= i < j < |h| ensures InOrder(h[i], h[j], low) {
      assert InOrder(q.head[i + 1], q.head[j + 1], q.finished);
      BehindBarrier(q, i + 1);
      BehindBarrier(q, j + 1);
    }
  }

  lemma RejectPlaced(q: Queue)
    requires Core(q) && Rejects(q) && q.inFlight == 0
    ensures Placed(RejectBarrier(q))
  {
    var q' := RejectBarrier(q);
    CountFsIn(q.driver);
    assert q'.head == q.head[1..];
    TailOrdered(q, q'.finished);
    forall r | r in q'.head ensures GoodQueued(r, q'.finished, q'.barriers, Active(q')) {
      var i :| 0 <= i < |q'.head| && q'.head[i] == r;
      BehindBarrier(q, i + 1);
      assert q.head[i + 1] in q.head;
    }
  }

  lemma RejectCounted(q: Queue)
    requires Core(q) && Rejects(q) && q.inFlight == 0
    ensures Counted(RejectBarrier(q))
  {
    var q' := RejectBarrier(q);
    IdleHead(q);
    assert q.head[0] in q.head;
    assert q'.head == q.head[1..];
    forall k | q'.finished <= k < q'.barriers && !(Active(q') && k == q'.finished)
      ensures HasBarrier(q'.head, k)
    {
      assert HasBarrier(q.head, k);
      var b :| b in q.head && b.Barrier() && b.stamp == k;
      assert b in q'.head;
    }
  }

  // ---------------------------------------------------------------- starting a sequence

  function SequenceStarted(q: Queue): Queue
    requires q.head != []
  {
    q.(head := Proxies(q.nextOrdered, q.head[0]) + q.head[1..],
       ordered := q.nextOrdered,
       ordseq := OrdSeq(true, q.inFlight == 0, !q.nextOrdered.PreFlush(), false, !q.nextOrdered.PostFlush()),
       orig := Some(q.head[0]))
  }

  lemma StartForm(q: Queue)
    requires q.head != [] && q.ordseq == IDLE && !q.head[0].started
    ensures StartOrdered(q).0 == SequenceStarted(q)
    ensures StartOrdered(q).1 ==
      if q.inFlight == 0 then Some(if q.nextOrdered.PreFlush() then PreFlushRq else BarRq) else None
  {
    assert RemoveAt(q.head, 0) == q.head[1..];
  }

  lemma ProxyCounts(mode: Ordered, b: Req)
    ensures forall id: Rid | !id.Normal? :: CountId(Proxies(mode, b), id) ==
              if id.PreFlushRq? then (if mode.PreFlush() then 1 else 0)
              else if id.BarRq? then 1
              else if mode.PostFlush() then 1 else 0
    ensures forall id: Rid | id.Normal? :: CountId(Proxies(mode, b), id) == 0
    ensures Bios(Proxies(mode, b)) == multiset{}
  {
    var pre := if mode.PreFlush() then [FlushRq(PreFlushRq).(soft := true)] else [];
    var bar := [ProxyOf(b).(soft := true)];
    var post := if mode.PostFlush() then [FlushRq(PostFlushRq).(soft := true)] else [];
    Concat(pre, bar);
    Concat(pre + bar, post);
    Singleton(FlushRq(PreFlushRq).(soft := true));
    Singleton(FlushRq(PostFlushRq).(soft := true));
    Singleton(bar[0]);
  }

  predicate Startable(q: Queue) {
    !Active(q) && q.head != [] && q.head[0].fs && q.head[0].hard
  }

  lemma ProxiesMembers(mode: Ordered, b: Req)
    ensures forall r | r in Proxies(mode, b) :: !r.id.Normal? && GoodProxy(r) && r.soft && !r.started
  {
  }

  lemma ProxiesOrdered(mode: Ordered, b: Req, low: nat)
    ensures HeadOrdered(Proxies(mode, b), low)
  {
    match mode
    case OrderedNone =>
    case Drain =>
    case DrainFlush =>
    case DrainFua =>
  }

  lemma ProxiesGood(mode: Ordered, b: Req, low: nat)
    ensures forall r | r in Proxies(mode, b) :: !r.id.Normal? && GoodProxy(r) && r.soft && !r.started
    ensures HeadOrdered(Proxies(mode, b), low)
  {
    ProxiesMembers(mode, b);
    ProxiesOrdered(mode, b, low);
  }

  lemma ConcatOrdered(x: seq<Req>, t: seq<Req>, low: nat)
    requires HeadOrdered(x, low) && HeadOrdered(t, low)
    requires forall i, j | 0 <= i < |x| && 0 <= j < |t| :: InOrder(x[i], t[j], low)
    ensures HeadOrdered(x + t, low)
  {
    var h := x + t;
    forall i, j | 0 <= i < j < |h| ensures InOrder(h[i], h[j], low) {
      if i >= |x| { assert InOrder(t[i - |x|], t[j - |x|], low); }
      else if j < |x| { assert InOrder(x[i], x[j], low); }
      else { assert InOrder(x[i], t[j - |x|], low); }
    }
  }

  lemma BehindBarrierAll(q: Queue)
    requires Core(q) && Startable(q)
    ensures forall r | r in q.head[1..] :: r in q.head && r.id.Normal? && (r.Work() ==> r.stamp > q.finished)
  {
    forall r | r in q.head[1..] ensures r in q.head && r.id.Normal? && (r.Work() ==> r.stamp > q.finished) {
      var i :| 0 <= i < |q.head[1..]| && q.head[1..][i] == r;
      BehindBarrier(q, i + 1);
    }
  }

  lemma SequenceOrdered(q: Queue)
    requires Core(q) && Startable(q)
    ensures HeadOrdered(SequenceStarted(q).head, q.finished)
  {
    var x, t := Proxies(q.nextOrdered, q.head[0]), q.head[1..];
    TailOrdered(q, q.finished);
    ProxiesGood(q.nextOrdered, q.head[0], q.finished);
    BehindBarrierAll(q);
    forall i, j | 0 <= i < |x| && 0 <= j < |t| ensures InOrder(x[i], t[j], q.finished) {
      assert x[i] in x && t[j] in t;
    }
    ConcatOrdered(x, t, q.finished);
  }

  lemma SequencePlaced(q: Queue)
    requires Core(q) && Startable(q)
    ensures Placed(SequenceStarted(q))
  {
    var q' := SequenceStarted(q);
    SequenceOrdered(q);
    ProxiesGood(q.nextOrdered, q.head[0], q.finished);
    BehindBarrierAll(q);
    forall r | r in q'.head ensures GoodQueued(r, q'.finished, q'.barriers, Active(q')) {
      assert r in Proxies(q.nextOrdered, q.head[0]) || r in q.head[1..];
    }
  }

  lemma SequenceCounted(q: Queue)
    requires Core(q) && Startable(q)
    ensures Counted(SequenceStarted(q))
  {
    var q' := SequenceStarted(q);
    IdleHead(q);
    assert q.head[0] in q.head;
    forall k | q'.finished <= k < q'.barriers && !(Active(q') && k == q'.finished)
      ensures HasBarrier(q'.head, k)
    {
      assert HasBarrier(q.head, k);
      var b :| b in q.head && b.Barrier() && b.stamp == k;
      assert b in q.head[1..];
      assert b in q'.head;
    }
  }

  lemma SequenceSplit(q: Queue)
    requires q.head != []
    ensures var q' := SequenceStarted(q);
            && (forall id: Rid | !id.Normal? && q.head[0].id.Normal? ::
                  CountId(q'.head, id) == CountId(q.head, id) + CountId(Proxies(q.nextOrdered, q.head[0]), id))
            && Bios(q'.head) + multiset(q.head[0].bios) == Bios(q.head)
  {
    var b, t := q.head[0], q.head[1..];
    assert q.head == [b] + t;
    Concat([b], t);
    Singleton(b);
    Concat(Proxies(q.nextOrdered, b), t);
    ProxyCounts(q.nextOrdered, b);
  }

  lemma SequenceProxies(q: Queue)
    requires Sequenced(q) && Startable(q) && q.head[0].id.Normal?
    ensures var q' := SequenceStarted(q);
            forall id: Rid | !id.Normal? ::
              CountId(q'.head, id) + CountId(q'.driver, id) == if Pending(q', id) then 1 else 0
  {
    SequenceSplit(q);
    ProxyCounts(q.nextOrdered, q.head[0]);
  }

  lemma SequenceSequenced(q: Queue)
    requires Core(q) && Startable(q)
    ensures Sequenced(SequenceStarted(q))
  {
    IdleHead(q);
    assert q.head[0] in q.head;
    SequenceProxies(q);
  }

  lemma SequenceConserved(q: Queue)
    requires Core(q) && Startable(q)
    ensures Conserved(SequenceStarted(q))
  {
    var q' := SequenceStarted(q);
    IdleHead(q);
    assert q.head[0] in q.head;
    SequenceSplit(q);
    ProxiesGood(q.nextOrdered, q.head[0], q.finished);
    forall r | r in q'.head ensures GoodBios(r, q'.epochOf) {
      assert r in Proxies(q.nextOrdered, q.head[0]) || r in q.head;
    }
  }

  lemma SequenceStages(q: Queue)
    requires Core(q) && Startable(q)
    ensures StagesKept(SequenceStarted(q))
  {
    var q' := SequenceStarted(q);
    CountFsIn(q.driver);
    ProxiesGood(q.nextOrdered, q.head[0], q.finished);
    BehindBarrierAll(q);
    forall r | r in q'.head
      ensures if r.id.Normal? then r.Work() ==> r.stamp > q.finished else !r.started
    {
      assert r in Proxies(q.nextOrdered, q.head[0]) || r in q.head[1..];
    }
  }

  lemma SequenceInv(q: Queue)
    requires Inv(q) && Startable(q)
    ensures Inv(SequenceStarted(q))
    ensures q.inFlight == 0 ==> MayStart(SequenceStarted(q))
  {
    SequencePlaced(q);
    SequenceCounted(q);
    SequenceSequenced(q);
    SequenceConserved(q);
    SequenceStages(q);
  }

  // ---------------------------------------------------------------- fetching

  /** What blk_do_ordered leaves when it does not turn a barrier down. */
  lemma DecidedInv(q: Queue)
    requires Inv(q) && q.head != [] && !Rejects(q)
    ensures var (q', v) := DoOrdered(q);
            v.Give? && Inv(q') && (v.rq.Some? ==> MayStart(q') && q'.head[0].id == v.rq.value)
  {
    assert q.head[0] in q.head;
    if !Active(q) {
      IdleHead(q);
      if q.head[0].hard && q.head[0].fs {
        StartForm(q);
        SequenceInv(q);
      }
    } else if !q.head[0].Special() {
      ActiveHead(q);
    }
  }

  lemma {:induction false} NextHeadInv(q: Queue)
    requires Inv(q) && (Rejects(q) ==> q.inFlight == 0)
    ensures var (q', rid) := NextHead(q);
            Inv(q') && (rid.Some? ==> MayStart(q') && q'.head[0].id == rid.value)
    decreases |q.sched| + |q.head|, |q.sched|
  {
    if q.head != [] {
      if Rejects(q) {
        IdleHead(q);
        RejectInv(q);
        NextHeadInv(RejectBarrier(q));
      } else {
        DecidedInv(q);
      }
    } else if q.sched != [] {
      DispatchInv(q);
      assert q.sched[0] in q.sched;
      NextHeadInv(NoopDispatch(q));
    }
  }

  lemma FetchInv(q: Queue)
    requires Inv(q) && (Rejects(q) ==> q.inFlight == 0)
    ensures Inv(Fetch(q).0)
  {
    NextHeadInv(q);
    var (q1, rid) := NextHead(q);
    if rid.Some? { MarkStartedInv(q1); }
  }
}
