/** The deadline scheduler over every run: agreeing indexes, exact merge lookups, and no starving writes. */
module DeadlineTheorems {
  import opened Wrappers
  import opened SortTree
  import opened DeadlineScheduler
  import opened DeadlineInvariant

  ghost predicate Sound(dd: Dl, now: int) { Inv(dd) && HashOk(dd) && Timely(dd, now) }

  // ---------------------------------------------------------------- looking up a back merge

  lemma {:induction false} ScanFinds(dd: Dl, chain: seq<Rq>, s: nat)
    ensures var (rest, found) := Scan(dd, chain, s);
            && (found.Some? ==> found.value in chain && dd.Mergeable(found.value) && found.value.End() == s)
            && (found.None? ==> forall x | x in chain :: !dd.Mergeable(x) || x.End() != s)
            && (forall x | x in rest :: x in chain)
            && (forall x | x in chain && dd.Mergeable(x) :: x in rest)
  {
    if chain != [] {
      ScanFinds(dd, chain[1..], s);
      assert chain == [chain[0]] + chain[1..];
    }
  }

  /** The hash answers exactly as a scan of all queued requests would, and cleaning its chains loses nothing. */
  lemma LookupIsScan(dd: Dl, s: nat)
    requires HashOk(dd)
    ensures var (d, found) := FindHash(dd, s);
            && (found.Some? <==> exists r :: dd.Holds(r) && dd.Mergeable(r) && r.End() == s)
            && (found.Some? ==> dd.Holds(found.value) && dd.Mergeable(found.value) && found.value.End() == s)
            && HashOk(d)
  {
    var b := Bucket(dd.tun, s);
    ScanFinds(dd, dd.hash[b], s);
    var (d, found) := FindHash(dd, s);
    forall r | dd.Holds(r) && dd.Mergeable(r) && r.End() == s ensures found.Some? {
      assert r in dd.hash[b];
    }
    forall k, x | 0 <= k < BUCKETS && x in d.hash[k] ensures d.Holds(x) && Bucket(d.tun, x.End()) == k {
      assert x in dd.hash[k] && dd.Holds(x);
    }
    forall x | d.Holds(x) && d.Mergeable(x) ensures x in d.hash[Bucket(d.tun, x.End())] {
      assert dd.Holds(x) && dd.Mergeable(x) && x in dd.hash[Bucket(dd.tun, x.End())];
    }
  }

  /** Looking at the head of a FIFO tells whether anything on it has expired. */
  lemma HeadSpeaksForAll(fifo: seq<Rq>, now: int)
    requires ByDeadline(fifo) && fifo != []
    ensures now > fifo[0].time <==> exists r :: r in fifo && now > r.time
  {
    assert fifo[0] in fifo;
    if r :| r in fifo && now > r.time {
      var k :| 0 <= k < |fifo| && fifo[k] == r;
      assert k > 0 ==> fifo[0].time <= fifo[k].time;
    }
  }

  // ---------------------------------------------------------------- dispatch

  /** A state that differs only in the counters. */
  lemma CountersElsewhere(dd: Dl, d: Dl, now: int)
    requires d == dd.(batching := d.batching, starved := d.starved) && Sound(dd, now)
    ensures Sound(d, now)
  {
    HashSame(dd, d);
  }

  /** A dispatch sends one queued request unless nothing is queued, and keeps every index in agreement. */
  lemma DispatchKeeps(dd: Dl, now: int)
    requires Sound(dd, now)
    ensures var (d, x) := Dispatch(dd, now);
            && Sound(d, now)
            && (x.None? <==> dd.rd.fifo == [] && dd.wr.fifo == [])
            && (x.Some? ==> dd.Holds(x.value) && d.sent == dd.sent + [x.value]
                            && forall y :: d.Holds(y) <==> dd.Holds(y) && y != x.value)
            && (x.None? ==> d.sent == dd.sent)
  {
    if dd.rd.fifo != [] || dd.wr.fifo != [] {
      var (a, r) := Selected(dd, now);
      CountersElsewhere(dd, a, now);
      MoveKeeps(a, r, now);
    } else {
      NothingNext(dd);
    }
  }

  lemma NothingNext(dd: Dl)
    requires Inv(dd) && dd.rd.fifo == [] && dd.wr.fifo == []
    ensures NextDrq(dd).None?
  {
  }

  // ---------------------------------------------------------------- two requests become one

  /** The state in which the absorbed request is removed. */
  function Absorbing(d: Dl, g: Rq, n: Rq): Dl
    requires |d.hash| == BUCKETS && g in d.Of(g.sync).tree && g in d.Of(g.sync).fifo && n in d.Of(g.sync).fifo && g.id != n.id
  {
    if n.time < g.time then TakeOver(d, g, n) else d
  }

  ghost predicate MayAbsorb(dd: Dl, r: Rq, g: Rq, n: Rq) {
    && r in dd.Of(r.sync).tree && Grown(r, g)
    && n in dd.Of(r.sync).tree && n != r && n.sector != g.sector
  }

  /** What deadline_merged_requests relies on when it follows its two pointers. */
  ghost predicate Absorbable(d: Dl, g: Rq, n: Rq) {
    && |d.hash| == BUCKETS && g in d.Of(g.sync).tree && g in d.Of(g.sync).fifo && g.id != n.id && n.sync == g.sync
    && n in d.Of(g.sync).fifo && n in d.Of(g.sync).tree
    && n in TakeOver(d, g, n).Of(g.sync).tree && n in TakeOver(d, g, n).Of(g.sync).fifo
  }

  lemma QueuedBoth(dd: Dl, r: Rq)
    requires Inv(dd) && (r in dd.rd.tree || r in dd.wr.tree)
    ensures r in dd.Of(r.sync).tree && r in dd.Of(r.sync).fifo
  {
    assert Linked(dd.rd, true) && Linked(dd.wr, false);
  }

  lemma AbsorbingKeeps(d: Dl, g: Rq, n: Rq, now: int)
    requires Sound(d, now) && g in d.Of(g.sync).tree && n in d.Of(g.sync).tree && g.id != n.id && n.sync == g.sync
    ensures Absorbable(d, g, n)
    ensures Sound(Absorbing(d, g, n), now) && n in Absorbing(d, g, n).Of(n.sync).tree
  {
    QueuedBoth(d, g);
    QueuedBoth(d, n);
    TakeOverKeeps(d, g, n, now);
    QueuedBoth(TakeOver(d, g, n), n);
  }

  lemma RemoveKeeps(dd: Dl, n: Rq, now: int)
    requires Sound(dd, now) && n in dd.Of(n.sync).tree
    ensures n in dd.Of(n.sync).fifo && Sound(Remove(dd, n), now)
  {
    RemoveReady(dd, n);
    RemoveHash(dd, n);
    RemoveTimely(dd, n, now);
  }

  lemma AbsorbKeeps(dd: Dl, r: Rq, g: Rq, n: Rq, now: int)
    requires Sound(dd, now) && MayAbsorb(dd, r, g, n)
    ensures r in dd.Of(r.sync).fifo && Absorbable(MergedRequest(dd, r, g), g, n)
    ensures Sound(MergedRequests(dd, r, g, n), now)
  {
    QueuedBoth(dd, r);
    QueuedBoth(dd, n);
    MergeKeeps(dd, r, g, now);
    MergedStay(dd, r, g, n);
    var d := MergedRequest(dd, r, g);
    AbsorbingKeeps(d, g, n, now);
    RemoveKeeps(Absorbing(d, g, n), n, now);
  }

  // ---------------------------------------------------------------- runs

  datatype Step =
    | Add(r: Rq, now: int)
    | Merge(r: Rq, g: Rq)
    | Absorb(r: Rq, g: Rq, n: Rq)
    | Lookup(s: nat)
    | Forbid(id: nat)
    | Serve(now: int)

  function Time(s: Step, t: int): int {
    match s
    case Add(_, now) => now
    case Serve(now) => now
    case _ => t
  }

  /** What the callers of the scheduler keep to; time does not run backwards. */
  ghost predicate Permitted(dd: Dl, t: int, s: Step) {
    && t <= Time(s, t)
    && match s
       case Add(r, _) => FreshId(dd, r.id)
       case Merge(r, g) => r in dd.Of(r.sync).tree && Grown(r, g)
       case Absorb(r, g, n) => MayAbsorb(dd, r, g, n)
       case _ => true
  }

  ghost function Apply(dd: Dl, t: int, s: Step): Dl
    requires Sound(dd, t) && Permitted(dd, t, s)
  {
    match s
    case Add(r, now) => AddRequest(dd, r, now)
    case Merge(r, g) => MergedRequest(dd, r, g)
    case Absorb(r, g, n) => AbsorbKeeps(dd, r, g, n, t); MergedRequests(dd, r, g, n)
    case Lookup(s) => FindHash(dd, s).0
    case Forbid(id) => dd.(nomerge := dd.nomerge + {id})
    case Serve(now) => Dispatch(dd, now).0
  }

  lemma ForbidKeeps(dd: Dl, id: nat)
    requires HashOk(dd)
    ensures HashOk(dd.(nomerge := dd.nomerge + {id}))
  {
    var d := dd.(nomerge := dd.nomerge + {id});
    forall k, x | 0 <= k < BUCKETS && x in d.hash[k] ensures d.Holds(x) && Bucket(d.tun, x.End()) == k {
      assert x in dd.hash[k] && dd.Holds(x);
    }
    forall x | d.Holds(x) && d.Mergeable(x) ensures x in d.hash[Bucket(d.tun, x.End())] {
      assert dd.Holds(x) && dd.Mergeable(x);
    }
  }

  lemma LaterTimely(dd: Dl, t: int, now: int)
    requires Sound(dd, t) && t <= now
    ensures Sound(dd, now)
  {
  }

  lemma LookupKeeps(dd: Dl, s: nat, t: int)
    requires Sound(dd, t)
    ensures Sound(FindHash(dd, s).0, t)
  {
    LookupIsScan(dd, s);
  }

  lemma StepKeeps(dd: Dl, t: int, s: Step)
    requires Sound(dd, t) && Permitted(dd, t, s)
    ensures Sound(Apply(dd, t, s), Time(s, t))
  {
    match s
    case Add(r, now) => AddKeeps(dd, r, t, now);
    case Merge(r, g) => MergeKeeps(dd, r, g, t);
    case Absorb(r, g, n) => AbsorbKeeps(dd, r, g, n, t);
    case Lookup(k) => LookupKeeps(dd, k, t);
    case Forbid(id) => ForbidKeeps(dd, id);
    case Serve(now) => LaterTimely(dd, t, now); DispatchKeeps(dd, now);
  }

  /** A run of permitted steps.  It would stop where the indexes disagree; that they never do is `RunKeeps`. */
  ghost predicate Runs(dd: Dl, t: int, steps: seq<Step>)
    decreases |steps|
  {
    steps == [] ||
    (Permitted(dd, t, steps[0]) && (Sound(dd, t) ==> Runs(Apply(dd, t, steps[0]), Time(steps[0], t), steps[1..])))
  }

  /** The last state of a run, or the first one in which the indexes disagree. */
  ghost function After(dd: Dl, t: int, steps: seq<Step>): Dl
    requires Runs(dd, t, steps)
    decreases |steps|
  {
    if steps == [] || !Sound(dd, t) then dd else After(Apply(dd, t, steps[0]), Time(steps[0], t), steps[1..])
  }

  function Last(t: int, steps: seq<Step>): int
    decreases |steps|
  {
    if steps == [] then t else Last(Time(steps[0], t), steps[1..])
  }

  lemma {:induction false} RunKeeps(dd: Dl, t: int, steps: seq<Step>)
    requires Sound(dd, t) && Runs(dd, t, steps)
    ensures Sound(After(dd, t, steps), Last(t, steps))
    decreases |steps|
  {
    if steps != [] {
      StepKeeps(dd, t, steps[0]);
      RunKeeps(Apply(dd, t, steps[0]), Time(steps[0], t), steps[1..]);
    }
  }

  lemma FreshSound(tun: Tunables, t: int)
    ensures Sound(Fresh(tun), t)
  {
  }

  /**
    After every run: the FIFO and the tree of a direction hold the same requests, the FIFO is sorted
    by deadline, the next pointer leads into its tree, at most one direction has one, and the hash
    answers as a scan of all queued requests would.
   */
  lemma IndexesAgree(tun: Tunables, t: int, steps: seq<Step>, read: bool, s: nat)
    requires Runs(Fresh(tun), t, steps)
    ensures var dd := After(Fresh(tun), t, steps);
            var side := dd.Of(read);
            && (forall r :: r in side.tree <==> r in side.fifo)
            && ByDeadline(side.fifo)
            && (side.next.Some? ==> side.next.value in side.tree) && !(dd.rd.next.Some? && dd.wr.next.Some?)
            && |dd.hash| == BUCKETS
            && (FindHash(dd, s).1.Some? <==> exists r :: dd.Holds(r) && dd.Mergeable(r) && r.End() == s)
  {
    FreshSound(tun, t);
    RunKeeps(Fresh(tun), t, steps);
    var dd := After(Fresh(tun), t, steps);
    assert Linked(dd.Of(read), read);
    LookupIsScan(dd, s);
  }

  lemma ReachableSound(tun: Tunables, t: int, steps: seq<Step>)
    requires Runs(Fresh(tun), t, steps)
    ensures Sound(After(Fresh(tun), t, steps), Last(t, steps))
  {
    FreshSound(tun, t);
    RunKeeps(Fresh(tun), t, steps);
  }
}
