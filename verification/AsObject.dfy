/**
  as_data as one object whose fields the scheduler updates in place.  The kernel's BUG_ONs are the
  preconditions of the methods; the invariant of `AsTheorems` discharges them.
 */
module AsObject {
  import opened Wrappers
  import opened SortTree
  import opened AsChoice
  import opened AsScheduler
  import opened AsInvariant
  import opened AsTheorems

  /** What holds between any two calls, contexts being allocated. */
  ghost predicate Healthy(ad: As) { Sound(ad) && Contexts(ad) && Anticipates(ad) }

  lemma TimeoutKeeps(ad: As)
    requires Led(ad) && ad.firing > 0
    ensures var b := AnticTimeout(ad.(firing := ad.firing - 1)); Led(b) && (Healthy(ad) ==> Healthy(b))
  {
    if Healthy(ad) {
      TimerKeeps(ad, TimerHandler);
      AddedSame(ad, Apply(ad, TimerHandler));
    }
  }

  lemma AddedForm(ad: As, r0: Rq, r: Rq, now: int, hint: bool)
    requires Indexed(ad) && Led(ad) && r == Stamped(ad, r0, now)
    ensures Led(Evict(ad, r)) && Add(ad, r0, now, hint) == Noticed(Enqueue(Evict(ad, r), r), r, now, hint)
  {
    EvictLed(ad, r);
  }

  lemma AdditionKeeps(ad: As, r: Rq, now: int, hint: bool)
    requires Sound(ad) && Led(ad)
    ensures var b := Add(ad, r, now, hint); Sound(b) && Led(b) && (Healthy(ad) && r.ioc.Some? ==> Healthy(b))
  {
    AddKeeps(ad, r, now, hint);
    AddLed(ad, r, now, hint);
  }

  lemma CompletionKeeps(ad: As, i: nat, now: int)
    requires Sound(ad) && Led(ad) && i < |ad.inflight|
    ensures var b := Complete(ad, i, now); Sound(b) && Led(b) && (Healthy(ad) ==> Healthy(b))
  {
    CompleteKeeps(ad, i, now);
    StepLed(ad, CompleteReq(i, now));
  }

  lemma EmptySide(s: Side, d: bool)
    requires Linked(s, d) && s.next.None?
    ensures s.tree == [] && s.fifo == []
  {
    if s.fifo != [] { FifoHead(s, d); }
  }

  class AsData {
    var sync: Side
    var async: Side
    var dir: bool
    var changed: bool
    var newBatch: bool
    var batchExpires: int
    var writeBatchCount: int
    var writeCount: int
    var idled: bool
    var antic: Antic
    var anticStart: int
    var timer: bool
    var firing: nat
    var work: bool
    var ioc: Option<nat>
    var iocFinished: bool
    var nrDispatched: int
    var inflight: seq<Rq>
    const tun: Tunables

    function State(): As
      reads this
    {
      As(sync, async, dir, changed, newBatch, batchExpires, writeBatchCount, writeCount, idled, antic, anticStart,
         timer, firing, work, ioc, iocFinished, nrDispatched, inflight, tun)
    }

    constructor (tun: Tunables, now: int)
      ensures State() == Fresh(tun, now) && Healthy(State())
    {
      sync, async, dir, changed, newBatch, batchExpires := NO_SIDE, NO_SIDE, false, false, false, now + tun.batchSync;
      writeBatchCount := if tun.batchAsync / 10 < 2 then 2 else tun.batchAsync / 10;
      writeCount, idled, antic, anticStart, timer, firing, work := 0, false, Off, 0, false, 0, false;
      ioc, iocFinished, nrDispatched, inflight := None, false, 0, [];
      this.tun := tun;
      new;
      FreshKeeps(tun, now);
    }

    method SetSide(d: bool, s: Side)
      modifies this`sync, this`async
      ensures State() == old(State()).With(d, s)
    {
      if d { sync := s; } else { async := s; }
    }

    method AnticStop()
      modifies this
      ensures State() == AsScheduler.AnticStop(old(State()))
    {
      if antic.WaitReq? || antic.WaitNext? {
        if antic.WaitNext? { timer := false; }
        antic := Done;
        work := true;
      }
    }

    method AnticWaitNext()
      requires antic.Off? || antic.WaitReq?
      modifies this
      ensures State() == AsScheduler.AnticWaitNext(old(State()))
    {
      timer := true;
      antic := WaitNext;
    }

    method AnticWaitReq()
      requires !antic.Done?
      modifies this
      ensures State() == AsScheduler.AnticWaitReq(old(State()))
    {
      if antic.Off? {
        if ioc.None? || iocFinished { AnticWaitNext(); } else { antic := WaitReq; }
      }
    }

    method CanBreakAnticipation(r: Option<Rq>, now: int, hint: bool) returns (yes: bool)
      requires ioc.Some?
      ensures yes == CanBreak(State(), r, now, hint)
    {
      if r.Some? && ioc == r.value.ioc { return true; }
      if iocFinished && AnticExpired(State(), now) { return true; }
      return hint;
    }

    method CanAnticipate(r: Option<Rq>, now: int, hint: bool) returns (yes: bool)
      ensures yes == AsScheduler.CanAnticipate(State(), r, now, hint)
    {
      if ioc.None? { return false; }
      if antic.Done? { return false; }
      var stop := CanBreakAnticipation(r, now, hint);
      return !stop;
    }

    /** as_antic_timeout; following io_context is safe. */
    method Timeout()
      requires Led(State()) && firing > 0
      modifies this
      ensures State() == AnticTimeout(old(State()).(firing := old(firing) - 1)) && Led(State())
      ensures old(Healthy(State())) ==> Healthy(State())
    {
      TimeoutKeeps(State());
      firing := firing - 1;
      Expire();
    }

    method Expire()
      modifies this`antic, this`work
      ensures State() == AnticTimeout(old(State()))
    {
      if antic.WaitReq? || antic.WaitNext? {
        antic := Done;
        work := true;
      }
    }

    method RemoveQueued(r: Rq)
      requires r in State().Of(r.sync).tree && r in State().Of(r.sync).fifo
      modifies this`sync, this`async
      ensures State() == old(State()).With(r.sync, Unqueue(old(State()).Of(r.sync), r))
    {
      var s := if r.sync then sync else async;
      var i := Place(s.tree, r);
      if s.next == Some(r) { s := s.(next := FindNext(s.last, s.tree, i)); }
      s := s.(fifo := Without(s.fifo, Place(s.fifo, r)));
      s := s.(tree := Without(s.tree, i));
      SetSide(r.sync, s);
    }

    /** last_sector and next_arq move past r, which then leaves the tree and the FIFO. */
    method TakeFromSide(r: Rq)
      requires r in State().Of(r.sync).tree && r in State().Of(r.sync).fifo
      modifies this`sync, this`async
      ensures State() == old(State()).With(r.sync, Moved(old(State()).Of(r.sync), r))
    {
      var s := if r.sync then sync else async;
      s := s.(last := r.End());
      s := s.(next := FindNext(s.last, s.tree, Place(s.tree, r)));
      SetSide(r.sync, s);
      RemoveQueued(r);
    }

    method Retarget(r: Rq)
      modifies this
      ensures State() == Retargeted(old(State()), r)
    {
      AnticStop();
      antic := Off;
      if r.sync {
        if r.ioc.Some? { ioc := r.ioc; }
      } else {
        ioc := None;
        if writeCount != 0 { writeCount := writeCount - 1; }
      }
      iocFinished := false;
    }

    method MoveToDispatch(r: Rq)
      requires r in State().Of(r.sync).tree && r in State().Of(r.sync).fifo
      modifies this
      ensures State() == AsScheduler.MoveToDispatch(old(State()), r)
    {
      Retarget(r);
      TakeFromSide(r);
      inflight := inflight + [r];
      nrDispatched := nrDispatched + 1;
    }

    method FifoExpired(d: bool, now: int) returns (yes: bool)
      modifies this`sync, this`async
      ensures State() == FifoChecked(old(State()), d, now)
      ensures yes == AsScheduler.FifoExpired(old(State()), d, now)
    {
      var s := if d then sync else async;
      if Abs(now - s.lastCheck) < (if d then tun.fifoSync else tun.fifoAsync) { return false; }
      SetSide(d, s.(lastCheck := now));
      if s.fifo == [] { return false; }
      return now > s.fifo[0].time;
    }

    method BeginBatch(now: int)
      modifies this
      ensures State() == BatchBegun(old(State()), now)
    {
      if changed {
        if !dir { batchExpires := now + tun.batchAsync; } else { newBatch := true; }
        changed := false;
      }
    }

    method Serve(r: Rq, now: int) returns (sent: bool)
      requires r in State().Of(r.sync).tree && r in State().Of(r.sync).fifo
      modifies this
      ensures (State(), sent) == AsScheduler.Serve(old(State()), r, now)
    {
      if changed && nrDispatched != 0 { return false; }
      BeginBatch(now);
      MoveToDispatch(r);
      return true;
    }

    method ServeOrExpired(r: Rq, now: int) returns (sent: bool)
      requires Indexed(State()) && r in State().Of(dir).tree
      modifies this
      ensures (State(), sent) == AsScheduler.ServeOrExpired(old(State()), r, now)
    {
      SettledQueued(State(), r, now);
      var x := r;
      var due := FifoExpired(dir, now);
      if due { x := if dir then sync.fifo[0] else async.fifo[0]; }
      sent := Serve(x, now);
    }

    method TurnToReads(now: int)
      modifies this
      ensures State() == ToReads(old(State()), now)
    {
      if !dir { changed := true; }
      dir := true;
      sync := sync.(lastCheck := now);
    }

    method TurnToWrites()
      modifies this
      ensures State() == ToWrites(old(State()))
    {
      if dir {
        changed := true;
        newBatch := false;
      }
      dir := false;
      writeCount := writeBatchCount;
      idled := false;
    }

    method SwitchBatch(now: int) returns (sent: bool)
      requires Indexed(State()) && (sync.fifo != [] || async.fifo != [])
      modifies this
      ensures (State(), sent) == AsScheduler.SwitchBatch(old(State()), now)
    {
      if sync.fifo != [] && !(async.fifo != [] && dir) {
        FifoHead(sync, true);
        TurnToReads(now);
        sent := ServeOrExpired(sync.fifo[0], now);
      } else {
        FifoHead(async, false);
        TurnToWrites();
        sent := ServeOrExpired(async.next.value, now);
      }
    }

    method ContinueBatch(now: int) returns (sent: bool)
      requires Indexed(State()) && (sync.fifo != [] || async.fifo != [])
      modifies this
      ensures (State(), sent) == AsScheduler.ContinueBatch(old(State()), now)
    {
      var arq := if dir then sync.next else async.next;
      if arq.None? {
        sent := SwitchBatch(now);
        return;
      }
      assert Linked(State().Of(dir), dir);
      if sync.fifo != [] && async.fifo == [] { batchExpires := now + tun.batchSync; }
      sent := ServeOrExpired(arq.value, now);
    }

    /** The BUG_ON of as_antic_waitreq does not fire: anticipation that is over is not started again. */
    method ReadBatch(now: int, hint: bool) returns (sent: bool)
      requires Indexed(State()) && (sync.fifo != [] || async.fifo != [])
      modifies this
      ensures (State(), sent) == AsScheduler.ReadBatch(old(State()), now, hint)
    {
      var due := FifoExpired(true, now);
      if due {
        FifoHead(sync, true);
        sent := Serve(sync.fifo[0], now);
        return;
      }
      var wait := CanAnticipate(sync.next, now, hint);
      if wait {
        AnticWaitReq();
        return false;
      }
      sent := ContinueBatch(now);
    }

    method Dispatch(now: int, hint: bool) returns (sent: bool)
      requires Sound(State()) && Led(State())
      modifies this
      ensures (State(), sent) == AsScheduler.Dispatch(old(State()), now, hint) && Sound(State()) && Led(State())
      ensures old(Healthy(State())) ==> Healthy(State())
    {
      DispatchKeeps(State(), now, hint);
      DispatchLed(State(), now, hint);
      sent := Decide(now, hint);
    }

    method Decide(now: int, hint: bool) returns (sent: bool)
      requires Indexed(State())
      modifies this
      ensures (State(), sent) == AsScheduler.Dispatch(old(State()), now, hint)
    {
      if Idles(State()) { idled := true; }
      if Blocked(State()) { return false; }
      if sync.fifo != [] && async.fifo != [] && BatchExpired(State(), now) {
        sent := SwitchBatch(now);
      } else if dir && tun.antic != 0 {
        sent := ReadBatch(now, hint);
      } else {
        sent := ContinueBatch(now);
      }
    }

    /** as_add_arq_rb: requests at the same sector go to the dispatch queue until the sector is free. */
    method AddToTree(r: Rq)
      requires Sound(State())
      modifies this
      ensures var ad1 := Evict(old(State()), r);
              State() == ad1.With(r.sync, ad1.Of(r.sync).(tree := Insert(ad1.Of(r.sync).tree, r)))
    {
      EvictUnaliased(State(), r);
      AliasFound(State().Of(r.sync).tree, r.sector);
      var alias := Alias(State().Of(r.sync).tree, r.sector);
      while alias.Some?
        invariant alias == Alias(State().Of(r.sync).tree, r.sector)
        invariant Sound(State()) && Evict(State(), r) == Evict(old(State()), r)
        invariant alias.Some? ==> State() == old(State())
        decreases alias.Some?
      {
        AliasFound(State().Of(r.sync).tree, r.sector);
        EvictUnaliased(State(), r);
        MoveToDispatch(alias.value);
        assert State() == Evict(old(State()), r);
        AliasFound(State().Of(r.sync).tree, r.sector);
        EvictUnaliased(State(), r);
        alias := Alias(State().Of(r.sync).tree, r.sector);
      }
      var s := if r.sync then sync else async;
      SetSide(r.sync, s.(tree := Insert(s.tree, r)));
    }

    /** as_update_arq; as_can_break_anticipation is called with a context. */
    method Update(r: Rq, now: int, hint: bool)
      requires antic.WaitReq? || antic.WaitNext? ==> ioc.Some?
      modifies this
      ensures var s := old(State()).Of(r.sync);
              State() == Noticed(old(State()).With(r.sync, s.(next := ChooseReq(s.last, Some(r), s.next))), r, now, hint)
    {
      var s := if r.sync then sync else async;
      SetSide(r.sync, s.(next := ChooseReq(s.last, Some(r), s.next)));
      if antic.WaitReq? || antic.WaitNext? {
        var stop := CanBreakAnticipation(Some(r), now, hint);
        if stop { AnticStop(); }
      }
    }

    method Enlist(r: Rq)
      requires Sound(State())
      modifies this
      ensures var ad1 := Evict(old(State()), r);
              State() == ad1.With(r.sync, ad1.Of(r.sync).(tree := Insert(ad1.Of(r.sync).tree, r),
                                                          fifo := ad1.Of(r.sync).fifo + [r]))
    {
      AddToTree(r);
      var s := if r.sync then sync else async;
      SetSide(r.sync, s.(fifo := s.fifo + [r]));
    }

    method EnlistAndNotice(r: Rq, now: int, hint: bool)
      requires Sound(State()) && (Evict(State(), r).Waiting() ==> Evict(State(), r).ioc.Some?)
      modifies this
      ensures State() == Noticed(Enqueue(Evict(old(State()), r), r), r, now, hint)
    {
      Enlist(r);
      Update(r, now, hint);
    }

    method Add(r0: Rq, now: int, hint: bool)
      requires Sound(State()) && Led(State())
      modifies this
      ensures State() == AsScheduler.Add(old(State()), r0, now, hint) && Sound(State()) && Led(State())
      ensures old(Healthy(State())) && r0.ioc.Some? ==> Healthy(State())
    {
      AdditionKeeps(State(), r0, now, hint);
      StampAndEnlist(r0, now, hint);
    }

    method StampAndEnlist(r0: Rq, now: int, hint: bool)
      requires Sound(State()) && Led(State())
      modifies this
      ensures State() == AsScheduler.Add(old(State()), r0, now, hint)
    {
      var r := r0.(time := now + if r0.sync then tun.fifoSync else tun.fifoAsync);
      AddedForm(State(), r0, r, now, hint);
      EnlistAndNotice(r, now, hint);
    }

    method FinishBatch()
      modifies this
      ensures State() == BatchDone(old(State()))
    {
      if changed && nrDispatched == 1 {
        work := true;
        changed := false;
        if dir { newBatch := true; }
      }
      nrDispatched := nrDispatched - 1;
    }

    method TimeBatch(r: Rq, now: int)
      modifies this
      ensures State() == BatchTimed(old(State()), r, now)
    {
      if newBatch && dir == r.sync {
        writeBatchCount := WriteBatch(State(), now);
        batchExpires := now + tun.batchSync;
        newBatch := false;
      }
    }

    /** The BUG_ON of as_antic_waitnext does not fire. */
    method FinishContext(r: Rq, now: int)
      modifies this
      ensures State() == ContextDone(old(State()), r, now)
    {
      if ioc == r.ioc && ioc.Some? {
        anticStart := now;
        iocFinished := true;
        if antic.WaitReq? { AnticWaitNext(); }
      }
    }

    method Complete(i: nat, now: int)
      requires Sound(State()) && Led(State()) && i < |inflight|
      modifies this
      ensures State() == AsScheduler.Complete(old(State()), i, now) && Sound(State()) && Led(State())
      ensures old(Healthy(State())) ==> Healthy(State())
    {
      CompletionKeeps(State(), i, now);
      Finish(i, now);
    }

    method Finish(i: nat, now: int)
      requires i < |inflight|
      modifies this
      ensures State() == AsScheduler.Complete(old(State()), i, now)
    {
      var r := inflight[i];
      inflight := Without(inflight, i);
      FinishBatch();
      TimeBatch(r, now);
      FinishContext(r, now);
    }

    method ForceOne(d: bool)
      requires Sound(State()) && State().Of(d).next.Some?
      modifies this
      ensures Sound(State()) && State().Of(!d) == old(State().Of(!d))
      ensures multiset(inflight) + multiset(State().Of(d).tree) == old(multiset(inflight) + multiset(State().Of(d).tree))
      ensures |State().Of(d).tree| == |old(State().Of(d).tree)| - 1
    {
      var r := State().Of(d).next.value;
      assert Linked(State().Of(d), d);
      MoveSound(State(), r);
      MoveSides(State(), r);
      MovedForm(State().Of(d), d, r);
      WithoutOne(State().Of(d).tree, Place(State().Of(d).tree, r));
      MoveToDispatch(r);
    }

    /** One of the two loops of a forced dispatch: it empties its direction and touches nothing of the other. */
    method ForceSide(d: bool) returns (dispatched: nat)
      requires Sound(State())
      modifies this
      ensures Sound(State()) && State().Of(d).tree == [] && State().Of(d).fifo == []
      ensures State().Of(!d) == old(State().Of(!d))
      ensures multiset(inflight) == multiset(old(inflight)) + multiset(old(State().Of(d).tree))
      ensures dispatched == |old(State().Of(d).tree)|
    {
      dispatched := 0;
      while State().Of(d).next.Some?
        invariant Sound(State()) && State().Of(!d) == old(State().Of(!d))
        invariant multiset(inflight) + multiset(State().Of(d).tree)
               == multiset(old(inflight)) + multiset(old(State().Of(d).tree))
        invariant dispatched + |State().Of(d).tree| == |old(State().Of(d).tree)|
        decreases |State().Of(d).tree|
      {
        ForceOne(d);
        dispatched := dispatched + 1;
      }
      EmptySide(State().Of(d), d);
    }

    /** A forced dispatch leaves nothing behind and sends every queued request exactly once. */
    method ForcedDispatch() returns (dispatched: nat)
      requires Sound(State())
      modifies this
      ensures sync.tree == [] && sync.fifo == [] && async.tree == [] && async.fifo == []
      ensures multiset(inflight) == multiset(old(inflight)) + multiset(old(sync.tree)) + multiset(old(async.tree))
      ensures dispatched == |old(sync.tree)| + |old(async.tree)|
    {
      dir, changed, newBatch := true, false, false;
      var r := ForceSide(true);
      var w := ForceSide(false);
      dispatched := r + w;
    }
  }
}
