/** The anticipatory scheduler over every run: the cached choice, the batches, and the anticipation. */
module AsTheorems {
  import opened Wrappers
  import opened SortTree
  import opened AsChoice
  import opened AsScheduler
  import opened AsInvariant

  // ---------------------------------------------------------------- the invariants

  /** Holds in every run whatsoever. */
  ghost predicate Sound(ad: As) {
    Indexed(ad) && (ad.newBatch ==> ad.dir && !ad.changed)
  }

  ghost predicate CacheBest(ad: As) {
    && Disjoint(ad.sync.tree) && NextIsBest(ad.sync.last, ad.sync.tree, ad.sync.next)
    && Disjoint(ad.async.tree) && NextIsBest(ad.async.last, ad.async.tree, ad.async.next)
  }

  /** Everything at the driver has one direction: the batch's, or the other one while the batch turns round. */
  ghost predicate OneDirection(ad: As) {
    && ad.nrDispatched == |ad.inflight|
    && (ad.changed ==> ad.inflight != [])
    && forall r | r in ad.inflight :: r.sync == (ad.dir != ad.changed)
  }

  /** The request that anticipation waits for is still at the driver. */
  ghost predicate Awaited(ad: As) {
    ad.ioc.Some? && !ad.iocFinished ==> exists r :: r in ad.inflight && r.ioc == ad.ioc
  }

  ghost predicate Anticipates(ad: As) {
    && (ad.Waiting() ==> ad.ioc.Some?)
    && (ad.antic.WaitNext? ==> ad.timer || ad.firing > 0)
    && (ad.antic.WaitReq? ==> !ad.iocFinished)
    && Awaited(ad)
  }

  ghost predicate Contexts(ad: As) {
    (forall r | r in ad.sync.tree :: r.ioc.Some?) && (forall r | r in ad.async.tree :: r.ioc.Some?)
  }

  // ---------------------------------------------------------------- sending a request to the dispatch queue

  lemma RetargetedForm(ad: As, r: Rq)
    ensures var b := Retargeted(ad, r);
            && b.sync == ad.sync && b.async == ad.async
            && b.dir == ad.dir && b.changed == ad.changed && b.newBatch == ad.newBatch
            && b.inflight == ad.inflight && b.nrDispatched == ad.nrDispatched
            && b.antic.Off? && !b.iocFinished
            && b.ioc == (if !r.sync then None else if r.ioc.Some? then r.ioc else ad.ioc)
  {
  }

  lemma MoveSides(ad: As, r: Rq)
    requires r in ad.Of(r.sync).tree && r in ad.Of(r.sync).fifo
    ensures var b := MoveToDispatch(ad, r);
            && b.Of(r.sync) == Moved(ad.Of(r.sync), r) && b.Of(!r.sync) == ad.Of(!r.sync)
            && b.dir == ad.dir && b.changed == ad.changed && b.newBatch == ad.newBatch
            && b.inflight == ad.inflight + [r] && b.nrDispatched == ad.nrDispatched + 1
            && b.antic.Off? && !b.iocFinished
            && b.ioc == (if !r.sync then None else if r.ioc.Some? then r.ioc else ad.ioc)
  {
    RetargetedForm(ad, r);
  }

  lemma MoveSound(ad: As, r: Rq)
    requires Sound(ad) && r in ad.Of(r.sync).tree && r in ad.Of(r.sync).fifo
    ensures Sound(MoveToDispatch(ad, r))
  {
    MoveSides(ad, r);
    assert Linked(ad.Of(r.sync), r.sync) && Linked(ad.Of(!r.sync), !r.sync);
    MovedLinked(ad.Of(r.sync), r.sync, r);
  }

  lemma MoveCache(ad: As, r: Rq)
    requires Indexed(ad) && CacheBest(ad) && r in ad.Of(r.sync).tree && r in ad.Of(r.sync).fifo
    ensures CacheBest(MoveToDispatch(ad, r))
  {
    MoveSides(ad, r);
    assert Linked(ad.Of(r.sync), r.sync);
    MovedBest(ad.Of(r.sync), r.sync, r);
  }

  lemma MoveContexts(ad: As, r: Rq)
    requires Indexed(ad) && Contexts(ad) && r in ad.Of(r.sync).tree && r in ad.Of(r.sync).fifo
    ensures Contexts(MoveToDispatch(ad, r))
  {
    MoveSides(ad, r);
    assert Linked(ad.Of(r.sync), r.sync);
    MovedForm(ad.Of(r.sync), r.sync, r);
  }

  /** Sending r keeps the directions apart exactly when r has the direction that is already out. */
  lemma MoveDirection(ad: As, r: Rq)
    requires OneDirection(ad) && r in ad.Of(r.sync).tree && r in ad.Of(r.sync).fifo
    ensures OneDirection(MoveToDispatch(ad, r)) <==> r.sync == (ad.dir != ad.changed)
  {
    MoveSides(ad, r);
    assert r in ad.inflight + [r];
  }

  /**
    Anticipation stays anchored to a request at the driver exactly when the request sent names its
    process.  If the context of a read could not be allocated, the previous one is kept, and unless
    that process has another request out, a later wait for its completion has nothing to wait for.
   */
  lemma MoveAnchored(ad: As, r: Rq)
    requires r in ad.Of(r.sync).tree && r in ad.Of(r.sync).fifo
    ensures Anticipates(MoveToDispatch(ad, r)) <==>
      !(r.sync && r.ioc.None? && ad.ioc.Some? && forall x | x in ad.inflight :: x.ioc != ad.ioc)
  {
    MoveSides(ad, r);
    var b := MoveToDispatch(ad, r);
    assert r in b.inflight;
    if r.sync && r.ioc.None? && ad.ioc.Some? {
      if x :| x in ad.inflight && x.ioc == ad.ioc { assert x in b.inflight; }
    }
  }

  // ---------------------------------------------------------------- dispatch

  lemma RebatchedSides(ad: As, b: As)
    requires Rebatched(ad, b)
    ensures Indexed(ad) ==> Indexed(b)
    ensures CacheBest(ad) ==> CacheBest(b)
    ensures Contexts(ad) ==> Contexts(b)
    ensures Anticipates(ad) ==> Anticipates(b)
  {
  }

  lemma DispatchKeeps(ad: As, now: int, hint: bool)
    requires Sound(ad)
    ensures var b := Dispatch(ad, now, hint).0;
            && Sound(b)
            && (CacheBest(ad) ==> CacheBest(b))
            && (Contexts(ad) ==> Contexts(b))
            && (OneDirection(ad) ==> OneDirection(b))
            && (Contexts(ad) && Anticipates(ad) ==> Anticipates(b))
  {
    var (b, ok) := Dispatch(ad, now, hint);
    var a, x := DispatchOutcome(ad, now, hint);
    if ok {
      RebatchedSides(ad, a);
      SentKeeps(ad, a, x);
    } else if Held(ad, b) {
      HeldKeeps(ad, b);
    } else {
      RebatchedSides(ad, b);
    }
  }

  lemma SentKeeps(ad: As, a: As, x: Rq)
    requires Sound(ad) && Indexed(a) && Ready(ad, a, x) && x in a.Of(x.sync).fifo
    ensures var b := MoveToDispatch(a, x);
            && Sound(b)
            && (CacheBest(a) ==> CacheBest(b))
            && (Contexts(a) ==> Contexts(b))
            && (OneDirection(ad) ==> OneDirection(b))
            && (Contexts(a) ==> Anticipates(b))
  {
    MoveSound(a, x);
    if CacheBest(a) { MoveCache(a, x); }
    if Contexts(a) {
      MoveContexts(a, x);
      MoveAnchored(a, x);
    }
    if OneDirection(ad) {
      assert OneDirection(a);
      MoveDirection(a, x);
    }
  }

  lemma WaitKeeps(a: As)
    requires a.ioc.Some? && a.antic.Off?
    ensures var b := AnticWaitReq(a);
            && b.sync == a.sync && b.async == a.async && b.dir == a.dir && b.changed == a.changed && b.newBatch == a.newBatch
            && b.inflight == a.inflight && b.nrDispatched == a.nrDispatched && b.Waiting()
            && (Anticipates(a) ==> Anticipates(b))
  {
  }

  lemma HeldKeeps(ad: As, b: As)
    requires Sound(ad) && Held(ad, b)
    ensures Sound(b)
    ensures CacheBest(ad) ==> CacheBest(b)
    ensures Contexts(ad) ==> Contexts(b)
    ensures OneDirection(ad) ==> OneDirection(b)
    ensures Anticipates(ad) ==> Anticipates(b)
  {
    if Anticipating(ad, b) {
      var a := b.(antic := ad.antic, timer := ad.timer);
      RebatchedSides(ad, a);
      WaitKeeps(a);
    } else {
      RebatchedSides(ad, b);
    }
  }

  // ---------------------------------------------------------------- adding

  lemma StopKeeps(ad: As)
    ensures var b := AnticStop(ad);
            b == ad.(antic := b.antic, timer := b.timer, work := b.work) && !b.Waiting()
            && (Anticipates(ad) ==> Anticipates(b))
  {
  }

  lemma EnqueueKeeps(ad: As, r: Rq)
    requires Sound(ad) && Unaliased(ad.Of(r.sync), r)
    ensures var b := Enqueue(ad, r);
            && Sound(b)
            && (Anticipates(ad) <==> Anticipates(b))
            && (OneDirection(ad) <==> OneDirection(b))
            && (Contexts(ad) && r.ioc.Some? ==> Contexts(b))
  {
    assert Linked(ad.Of(r.sync), r.sync);
    QueuedLinked(ad.Of(r.sync), r.sync, r);
    InsertSorted(ad.Of(r.sync).tree, r);
  }

  lemma NoticedKeeps(ad: As, r: Rq, now: int, hint: bool)
    ensures var b := Noticed(ad, r, now, hint);
            && b.sync == ad.sync && b.async == ad.async && b.dir == ad.dir && b.changed == ad.changed
            && b.newBatch == ad.newBatch && b.inflight == ad.inflight && b.nrDispatched == ad.nrDispatched
            && (Anticipates(ad) ==> Anticipates(b))
  {
    StopKeeps(ad);
  }

  /** r touches no sector of a queued request of its direction. */
  ghost predicate Apart(ad: As, r: Rq) {
    && r.nr > 0
    && forall x | x in ad.Of(r.sync).tree :: x.nr > 0 && (x.End() <= r.sector || r.End() <= x.sector)
  }

  lemma QueuedCache(ad: As, r: Rq)
    requires Indexed(ad) && CacheBest(ad) && Apart(ad, r)
    ensures Unaliased(ad.Of(r.sync), r)
    ensures CacheBest(Enqueue(ad, r))
  {
    assert Linked(ad.Of(r.sync), r.sync);
    InsertDisjoint(ad.Of(r.sync).tree, r);
    QueuedBest(ad.Of(r.sync), r.sync, r);
  }

  lemma EvictUnaliased(ad: As, r: Rq)
    requires Sound(ad)
    ensures Sound(Evict(ad, r)) && Unaliased(Evict(ad, r).Of(r.sync), r)
    ensures Unaliased(ad.Of(r.sync), r) ==> Evict(ad, r) == ad
  {
    var s := ad.Of(r.sync);
    assert Linked(s, r.sync);
    AliasFound(s.tree, r.sector);
    var x := Alias(s.tree, r.sector);
    if x.Some? {
      MoveSound(ad, x.value);
      MoveSides(ad, x.value);
      MovedForm(s, r.sync, x.value);
      SortedDistinct(s.tree);
      PlaceUnique(s.tree, x.value);
      forall y | y in s.tree && y != x.value ensures y.sector != r.sector { SortedApart(s.tree, y, x.value); }
    }
  }

  /** A request at the sector of r is queued in r's direction, which is not the direction the batch now sends. */
  predicate AliasMixes(ad: As, r: Rq) {
    Alias(ad.Of(r.sync).tree, r.sector).Some? && r.sync != (ad.dir != ad.changed)
  }

  lemma EvictKeeps(ad: As, r: Rq)
    requires Sound(ad)
    ensures OneDirection(ad) ==> (OneDirection(Evict(ad, r)) <==> !AliasMixes(ad, r))
    ensures Contexts(ad) ==> Contexts(Evict(ad, r))
    ensures Contexts(ad) && Anticipates(ad) ==> Anticipates(Evict(ad, r))
  {
    var s := ad.Of(r.sync);
    assert Linked(s, r.sync);
    AliasFound(s.tree, r.sector);
    var x := Alias(s.tree, r.sector);
    if x.Some? {
      if OneDirection(ad) { MoveDirection(ad, x.value); }
      if Contexts(ad) {
        MoveContexts(ad, x.value);
        MoveAnchored(ad, x.value);
      }
    }
  }

  lemma AddKeeps(ad: As, r: Rq, now: int, hint: bool)
    requires Sound(ad)
    ensures var b := Add(ad, r, now, hint);
            && Sound(b)
            && (Contexts(ad) && r.ioc.Some? ==> Contexts(b))
            && (OneDirection(ad) ==> (OneDirection(b) <==> !AliasMixes(ad, r)))
            && (Contexts(ad) && r.ioc.Some? && Anticipates(ad) ==> Anticipates(b))
  {
    var r1 := Stamped(ad, r, now);
    EvictUnaliased(ad, r1);
    EvictKeeps(ad, r1);
    var ad1 := Evict(ad, r1);
    EnqueueKeeps(ad1, r1);
    var ad2 := Enqueue(ad1, r1);
    NoticedKeeps(ad2, r1, now, hint);
    assert AliasMixes(ad, r) == AliasMixes(ad, r1);
    AddedSame(ad2, Noticed(ad2, r1, now, hint));
  }

  lemma AddedSame(a: As, b: As)
    requires b.sync == a.sync && b.async == a.async && b.dir == a.dir && b.changed == a.changed
    requires b.newBatch == a.newBatch && b.inflight == a.inflight && b.nrDispatched == a.nrDispatched
    ensures Sound(a) <==> Sound(b)
    ensures Contexts(a) <==> Contexts(b)
    ensures OneDirection(a) <==> OneDirection(b)
    ensures CacheBest(a) <==> CacheBest(b)
  {
  }

  lemma AddCache(ad: As, r: Rq, now: int, hint: bool)
    requires Sound(ad) && CacheBest(ad) && Apart(ad, r)
    ensures CacheBest(Add(ad, r, now, hint))
  {
    var r1 := Stamped(ad, r, now);
    assert Apart(ad, r1);
    QueuedCache(ad, r1);
    EvictUnaliased(ad, r1);
    NoticedKeeps(Enqueue(ad, r1), r1, now, hint);
    AddedSame(Enqueue(ad, r1), Noticed(Enqueue(ad, r1), r1, now, hint));
  }

  // ---------------------------------------------------------------- completions and the timer

  lemma ContextDoneKeeps(ad: As, r: Rq, now: int)
    ensures var b := ContextDone(ad, r, now);
            && b.sync == ad.sync && b.async == ad.async && b.dir == ad.dir && b.changed == ad.changed
            && b.newBatch == ad.newBatch && b.inflight == ad.inflight && b.nrDispatched == ad.nrDispatched
            && b.ioc == ad.ioc && b.iocFinished == (ad.iocFinished || (ad.ioc.Some? && ad.ioc == r.ioc))
            && (if ad.ioc.Some? && ad.ioc == r.ioc && ad.antic.WaitReq? then b.antic.WaitNext? && b.timer
                else b.antic == ad.antic && b.timer == ad.timer)
            && b.firing == ad.firing
  {
  }

  lemma BatchTimedForm(ad: As, r: Rq, now: int)
    ensures var b := BatchTimed(ad, r, now);
            b == ad.(writeBatchCount := b.writeBatchCount, batchExpires := b.batchExpires, newBatch := b.newBatch)
            && (b.newBatch ==> ad.newBatch)
  {
  }

  lemma BatchPartKeeps(ad: As, i: nat, now: int)
    requires i < |ad.inflight|
    ensures var b := BatchTimed(BatchDone(ad.(inflight := Without(ad.inflight, i))), ad.inflight[i], now);
            && b.ioc == ad.ioc && b.iocFinished == ad.iocFinished && b.antic == ad.antic && b.timer == ad.timer
            && b.firing == ad.firing && b.inflight == Without(ad.inflight, i)
            && (Sound(ad) ==> Sound(b))
            && (CacheBest(ad) ==> CacheBest(b))
            && (Contexts(ad) ==> Contexts(b))
            && (OneDirection(ad) ==> OneDirection(b))
  {
    var a := BatchDone(ad.(inflight := Without(ad.inflight, i)));
    BatchTimedForm(a, ad.inflight[i], now);
    assert forall x | x in a.inflight :: x in ad.inflight;
  }

  lemma StillAwaited(ad: As, i: nat)
    requires Awaited(ad) && i < |ad.inflight| && ad.ioc.Some? && !ad.iocFinished && ad.inflight[i].ioc != ad.ioc
    ensures exists r :: r in Without(ad.inflight, i) && r.ioc == ad.ioc
  {
    var x :| x in ad.inflight && x.ioc == ad.ioc;
    var k :| 0 <= k < |ad.inflight| && ad.inflight[k] == x;
    assert Without(ad.inflight, i)[if k < i then k else k - 1] == x;
  }

  lemma CompleteKeeps(ad: As, i: nat, now: int)
    requires Sound(ad) && i < |ad.inflight|
    ensures var b := Complete(ad, i, now);
            && Sound(b)
            && (CacheBest(ad) ==> CacheBest(b))
            && (Contexts(ad) ==> Contexts(b))
            && (OneDirection(ad) ==> OneDirection(b))
            && (Anticipates(ad) ==> Anticipates(b))
  {
    var r := ad.inflight[i];
    var a := BatchTimed(BatchDone(ad.(inflight := Without(ad.inflight, i))), r, now);
    BatchPartKeeps(ad, i, now);
    ContextDoneKeeps(a, r, now);
    AddedSame(a, ContextDone(a, r, now));
    if Anticipates(ad) && ad.ioc.Some? && !ad.iocFinished && r.ioc != ad.ioc { StillAwaited(ad, i); }
  }

  lemma TimerKeeps(ad: As, s: Step)
    requires Indexed(ad) && Permitted(ad, s) && (s.TimerFires? || s.TimerHandler? || s.WorkRuns?)
    ensures var b := Apply(ad, s);
            && b.sync == ad.sync && b.async == ad.async && b.dir == ad.dir && b.changed == ad.changed
            && b.newBatch == ad.newBatch && b.inflight == ad.inflight && b.nrDispatched == ad.nrDispatched
            && (Anticipates(ad) ==> Anticipates(b))
  {
  }

  // ---------------------------------------------------------------- every run

  /** Additions touch no sector of a request queued in their direction. */
  ghost predicate ApartRun(ad: As, steps: seq<Step>)
    requires Runs(ad, steps)
    decreases |steps|
  {
    steps == [] || !Indexed(ad) || ((steps[0].AddReq? ==> Apart(ad, steps[0].r)) && ApartRun(Apply(ad, steps[0]), steps[1..]))
  }

  /** No addition evicts an alias of the direction that is not out; a run without aliases is one. */
  ghost predicate UnmixedRun(ad: As, steps: seq<Step>)
    requires Runs(ad, steps)
    decreases |steps|
  {
    steps == [] || !Indexed(ad) || ((steps[0].AddReq? ==> !AliasMixes(ad, steps[0].r)) && UnmixedRun(Apply(ad, steps[0]), steps[1..]))
  }

  predicate ContextRun(steps: seq<Step>) { forall s | s in steps && s.AddReq? :: s.r.ioc.Some? }

  lemma StepKeeps(ad: As, s: Step)
    requires Sound(ad) && Permitted(ad, s)
    ensures var b := Apply(ad, s);
            && Sound(b)
            && (CacheBest(ad) && (s.AddReq? ==> Apart(ad, s.r)) ==> CacheBest(b))
            && (OneDirection(ad) && (s.AddReq? ==> !AliasMixes(ad, s.r)) ==> OneDirection(b))
            && (Contexts(ad) && Anticipates(ad) && (s.AddReq? ==> s.r.ioc.Some?) ==> Contexts(b) && Anticipates(b))
  {
    match s
    case AddReq(r, now, hint) =>
      AddKeeps(ad, r, now, hint);
      if CacheBest(ad) && Apart(ad, r) { AddCache(ad, r, now, hint); }
    case DispatchReq(now, hint) => DispatchKeeps(ad, now, hint);
    case CompleteReq(i, now) => CompleteKeeps(ad, i, now);
    case _ =>
      TimerKeeps(ad, s);
      AddedSame(ad, Apply(ad, s));
  }

  /** Whoever is waited for is known. */
  predicate Led(ad: As) { ad.Waiting() ==> ad.ioc.Some? }

  lemma EvictLed(ad: As, r: Rq)
    requires Indexed(ad) && Led(ad)
    ensures Led(Evict(ad, r))
  {
    var x := Alias(ad.Of(r.sync).tree, r.sector);
    if x.Some? {
      AliasFound(ad.Of(r.sync).tree, r.sector);
      MoveSides(ad, x.value);
    }
  }

  lemma AddLed(ad: As, r: Rq, now: int, hint: bool)
    requires Indexed(ad) && Led(ad)
    ensures Led(Add(ad, r, now, hint))
  {
    EvictLed(ad, Stamped(ad, r, now));
  }

  lemma DispatchLed(ad: As, now: int, hint: bool)
    requires Sound(ad) && Led(ad)
    ensures Led(Dispatch(ad, now, hint).0)
  {
    var res := Dispatch(ad, now, hint);
    var a, x := DispatchOutcome(ad, now, hint);
    if Outcome(ad, res, a, x) { OutcomeLed(ad, res, a, x); } else { HeldLed(ad, res.0); }
  }

  lemma OutcomeLed(ad: As, res: (As, bool), a: As, x: Rq)
    requires Outcome(ad, res, a, x)
    ensures Led(res.0)
  {
  }

  lemma HeldLed(ad: As, b: As)
    requires Led(ad) && Held(ad, b)
    ensures Led(b)
  {
  }

  lemma StepLed(ad: As, s: Step)
    requires Sound(ad) && Led(ad) && Permitted(ad, s)
    ensures Led(Apply(ad, s))
  {
    match s
    case AddReq(r, now, hint) => AddLed(ad, r, now, hint);
    case DispatchReq(now, hint) => DispatchLed(ad, now, hint);
    case CompleteReq(i, now) =>
    case TimerFires =>
    case TimerHandler =>
    case WorkRuns =>
  }

  lemma {:induction false} RunLed(ad: As, steps: seq<Step>)
    requires Sound(ad) && Led(ad) && Runs(ad, steps)
    ensures Led(After(ad, steps))
    decreases |steps|
  {
    if steps != [] {
      StepKeeps(ad, steps[0]);
      StepLed(ad, steps[0]);
      RunLed(Apply(ad, steps[0]), steps[1..]);
    }
  }

  lemma {:induction false} RunKeeps(ad: As, steps: seq<Step>)
    requires Sound(ad) && Runs(ad, steps)
    ensures var b := After(ad, steps);
            && Sound(b)
            && (CacheBest(ad) && ApartRun(ad, steps) ==> CacheBest(b))
            && (OneDirection(ad) && UnmixedRun(ad, steps) ==> OneDirection(b))
            && (Contexts(ad) && Anticipates(ad) && ContextRun(steps) ==> Contexts(b) && Anticipates(b))
    decreases |steps|
  {
    if steps != [] {
      StepKeeps(ad, steps[0]);
      RunKeeps(Apply(ad, steps[0]), steps[1..]);
      assert steps[0] in steps;
    }
  }

  lemma FreshKeeps(tun: Tunables, now: int)
    ensures var ad := Fresh(tun, now);
            Sound(ad) && CacheBest(ad) && OneDirection(ad) && Contexts(ad) && Anticipates(ad)
  {
  }

  /** In every run the FIFO and the tree of a direction agree and the next pointer leads into the tree. */
  lemma IndexesAgree(tun: Tunables, t: int, steps: seq<Step>)
    requires Runs(Fresh(tun, t), steps)
    ensures Indexed(After(Fresh(tun, t), steps))
  {
    FreshKeeps(tun, t);
    RunKeeps(Fresh(tun, t), steps);
  }

  /** The cached request of a direction is the best of all queued ones, though only neighbours were ever compared. */
  lemma CacheEqualsBruteForce(tun: Tunables, t: int, steps: seq<Step>, d: bool, x: Rq)
    requires Runs(Fresh(tun, t), steps) && ApartRun(Fresh(tun, t), steps)
    requires x in After(Fresh(tun, t), steps).Of(d).tree
    ensures var s := After(Fresh(tun, t), steps).Of(d);
            s.next.Some? && s.next.value in s.tree && Choose(s.last, s.next.value, x) == s.next.value
            && Choose(s.last, x, s.next.value) == s.next.value
  {
    FreshKeeps(tun, t);
    RunKeeps(Fresh(tun, t), steps);
  }

  /** Reads and writes are never at the driver together, and a batch that waits to turn round has something to wait for. */
  lemma BatchesNeverMix(tun: Tunables, t: int, steps: seq<Step>)
    requires Runs(Fresh(tun, t), steps) && UnmixedRun(Fresh(tun, t), steps)
    ensures var ad := After(Fresh(tun, t), steps);
            && (forall x, y | x in ad.inflight && y in ad.inflight :: x.sync == y.sync)
            && (forall x | x in ad.inflight :: x.sync == ad.dir <==> !ad.changed)
            && ad.nrDispatched == |ad.inflight| && (ad.changed ==> ad.nrDispatched > 0)
            && !(ad.changed && ad.newBatch)
  {
    FreshKeeps(tun, t);
    RunKeeps(Fresh(tun, t), steps);
  }

  lemma EvictInflight(ad: As, r: Rq)
    requires Sound(ad)
    ensures var x := Alias(ad.Of(r.sync).tree, r.sector);
            && Evict(ad, r).inflight == (if x.Some? then ad.inflight + [x.value] else ad.inflight)
            && (x.Some? ==> x.value.sync == r.sync)
  {
    var s := ad.Of(r.sync);
    assert Linked(s, r.sync);
    AliasFound(s.tree, r.sector);
    var x := Alias(s.tree, r.sector);
    if x.Some? { MoveSides(ad, x.value); }
  }

  /** Reads and writes are at the driver together. */
  ghost predicate Mixed(ad: As) { exists x, y :: x in ad.inflight && y in ad.inflight && x.sync != y.sync }

  lemma EvictMixes(ad: As, r: Rq)
    requires Sound(ad) && OneDirection(ad)
    ensures Mixed(Evict(ad, r)) <==> AliasMixes(ad, r) && ad.inflight != []
  {
    EvictInflight(ad, r);
    var x := Alias(ad.Of(r.sync).tree, r.sector);
    if AliasMixes(ad, r) && ad.inflight != [] {
      assert ad.inflight[0] in Evict(ad, r).inflight && x.value in Evict(ad, r).inflight;
    }
  }

  /**
    An addition breaks the separation exactly when it evicts an alias of the direction that the batch
    does not send; reads and writes are then out together exactly if something was out before.
   */
  lemma AliasMixesExactly(tun: Tunables, t: int, steps: seq<Step>, r: Rq, now: int, hint: bool)
    requires Runs(Fresh(tun, t), steps) && UnmixedRun(Fresh(tun, t), steps)
    ensures var ad := After(Fresh(tun, t), steps);
            && Indexed(ad) && (OneDirection(Add(ad, r, now, hint)) <==> !AliasMixes(ad, r))
            && (Mixed(Add(ad, r, now, hint)) <==> AliasMixes(ad, r) && ad.inflight != [])
  {
    FreshKeeps(tun, t);
    RunKeeps(Fresh(tun, t), steps);
    var ad := After(Fresh(tun, t), steps);
    AddKeeps(ad, r, now, hint);
    EvictMixes(ad, Stamped(ad, r, now));
    assert Add(ad, r, now, hint).inflight == Evict(ad, Stamped(ad, r, now)).inflight;
  }

  /** The states in which the BUG_ONs of as_antic_waitnext, as_antic_waitreq and as_can_break_anticipation would fire are unreachable. */
  lemma AnticipationIsAnchored(tun: Tunables, t: int, steps: seq<Step>)
    requires Runs(Fresh(tun, t), steps) && ContextRun(steps)
    ensures var ad := After(Fresh(tun, t), steps);
            && (ad.Waiting() ==> ad.ioc.Some?)
            && (ad.antic.WaitNext? ==> ad.timer || ad.firing > 0)
            && (ad.antic.WaitReq? ==> exists r :: r in ad.inflight && r.ioc == ad.ioc)
  {
    FreshKeeps(tun, t);
    RunKeeps(Fresh(tun, t), steps);
  }

  /** Even where contexts could not be allocated, no wait is for nobody: io_context is never followed when it is not set. */
  lemma WaitingHasContext(tun: Tunables, t: int, steps: seq<Step>)
    requires Runs(Fresh(tun, t), steps)
    ensures After(Fresh(tun, t), steps).Waiting() ==> After(Fresh(tun, t), steps).ioc.Some?
  {
    FreshKeeps(tun, t);
    RunLed(Fresh(tun, t), steps);
  }

  /** When a dispatch with requests queued sends nothing, a completion or the timer is still to come. */
  lemma HeldBackMeansOutstanding(tun: Tunables, t: int, steps: seq<Step>, now: int, hint: bool)
    requires Runs(Fresh(tun, t), steps) && UnmixedRun(Fresh(tun, t), steps) && ContextRun(steps)
    ensures var ad := After(Fresh(tun, t), steps);
            Indexed(ad) &&
            var (b, ok) := Dispatch(ad, now, hint);
            !ok && (ad.sync.fifo != [] || ad.async.fifo != []) ==> b.inflight != [] || b.timer || b.firing > 0
  {
    FreshKeeps(tun, t);
    RunKeeps(Fresh(tun, t), steps);
    var ad := After(Fresh(tun, t), steps);
    DispatchKeeps(ad, now, hint);
    var a, x := DispatchOutcome(ad, now, hint);
  }

  // ---------------------------------------------------------------- when a context cannot be allocated

  /** Anticipation waits for a completion that will not come, and no timer runs. */
  predicate Stuck(ad: As) { ad.antic.WaitReq? && ad.inflight == [] && !ad.timer && ad.firing == 0 }

  /** Once a read without a context has taken the place of the awaited request, the next wait is one without end. */
  lemma UnanchoredGetsStuck(ad: As, now: int)
    requires Indexed(ad) && ad.ioc.Some? && !ad.iocFinished && ad.inflight == [] && !ad.timer && ad.firing == 0
    requires ad.antic.Off? && ad.dir && !ad.changed && ad.tun.antic != 0 && !FifoExpired(ad, true, now)
    requires ad.sync.fifo != [] && ad.async.fifo == [] && ad.sync.next.Some? && ad.sync.next.value.ioc != ad.ioc
    ensures !Dispatch(ad, now, false).1 && Stuck(Dispatch(ad, now, false).0)
  {
    assert Signalled(ad) == ad;
    assert Dispatch(ad, now, false) == ReadBatch(ad, now, false);
  }

  /** Until a new request arrives, nothing that can happen ends such a wait, and nothing is sent. */
  lemma {:induction false} StuckStays(ad: As, steps: seq<Step>)
    requires Stuck(ad) && Runs(ad, steps) && forall s | s in steps :: !s.AddReq?
    ensures Stuck(After(ad, steps))
    decreases |steps|
  {
    if steps != [] && Indexed(ad) {
      assert steps[0] in steps;
      StuckStays(Apply(ad, steps[0]), steps[1..]);
    }
  }
}
