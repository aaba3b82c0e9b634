/**
  The anticipatory scheduler's state and its lock-held steps: adding a request, dispatching one,
  a completion, and the expiry of the anticipation timer.

  Time is an integer handed to each step.  `hint` stands for the part of as_can_break_anticipation
  that looks at the statistics of the process waited for; every theorem holds for all its answers.
  `inflight` lists the requests dispatched and not yet completed.
 */
module AsScheduler {
  import opened Wrappers
  import opened SortTree
  import opened AsChoice

  datatype Side = Side(tree: seq<Rq>, fifo: seq<Rq>, next: Option<Rq>, last: nat, lastCheck: int)

  datatype Antic = Off | WaitReq | WaitNext | Done

  datatype Tunables = Tunables(fifoSync: nat, fifoAsync: nat, batchSync: nat, batchAsync: nat, antic: nat)

  datatype As = As(
    sync: Side,
    async: Side,
    dir: bool,                 // batch_data_dir == REQ_SYNC
    changed: bool,             // changed_batch
    newBatch: bool,            // new_batch
    batchExpires: int,
    writeBatchCount: int,
    writeCount: int,           // current_write_count
    idled: bool,               // write_batch_idled
    antic: Antic,
    anticStart: int,
    timer: bool,               // antic_timer is pending
    firing: nat,               // timer handlers that wait for the queue lock
    work: bool,                // antic_work has been scheduled
    ioc: Option<nat>,          // io_context
    iocFinished: bool,
    nrDispatched: int,
    inflight: seq<Rq>,
    tun: Tunables)
  {
    function Of(d: bool): Side { if d then sync else async }
    function With(d: bool, s: Side): As { if d then this.(sync := s) else this.(async := s) }
    function FifoExpire(d: bool): int { if d then tun.fifoSync else tun.fifoAsync }
    predicate Waiting() { antic.WaitReq? || antic.WaitNext? }
  }

  const NO_SIDE := Side([], [], None, 0, 0)

  /** as_init_queue. */
  function Fresh(tun: Tunables, now: int): As {
    As(NO_SIDE, NO_SIDE, false, false, false, now + tun.batchSync, if tun.batchAsync / 10 < 2 then 2 else tun.batchAsync / 10,
       0, false, Off, 0, false, 0, false, None, false, 0, [], tun)
  }

  function Abs(x: int): nat { if x < 0 then -x else x }

  // ---------------------------------------------------------------- the sort tree and the FIFO

  /** The part of the state that the operations rely on when they follow a pointer. */
  ghost predicate Linked(s: Side, d: bool) {
    && Agree(s.tree, s.fifo)
    && (forall r | r in s.tree :: r.sync == d)
    && (s.next.Some? <==> s.tree != [])
    && (s.next.Some? ==> s.next.value in s.tree)
  }

  ghost predicate Indexed(ad: As) { Linked(ad.sync, true) && Linked(ad.async, false) }

  // ---------------------------------------------------------------- anticipation

  function AnticStop(ad: As): As {
    if ad.Waiting() then ad.(timer := ad.timer && !ad.antic.WaitNext?, antic := Done, work := true) else ad
  }

  function AnticWaitNext(ad: As): As { ad.(timer := true, antic := WaitNext) }

  function AnticWaitReq(ad: As): As {
    if !ad.antic.Off? then ad
    else if ad.ioc.None? || ad.iocFinished then AnticWaitNext(ad)
    else ad.(antic := WaitReq)
  }

  /** as_antic_timeout, once it has the lock. */
  function AnticTimeout(ad: As): As {
    if ad.Waiting() then ad.(antic := Done, work := true) else ad
  }

  predicate AnticExpired(ad: As, now: int) { Abs(now - ad.anticStart) >= ad.tun.antic }

  predicate CanBreak(ad: As, r: Option<Rq>, now: int, hint: bool) {
    (r.Some? && ad.ioc == r.value.ioc) || (ad.iocFinished && AnticExpired(ad, now)) || hint
  }

  predicate CanAnticipate(ad: As, r: Option<Rq>, now: int, hint: bool) {
    ad.ioc.Some? && !ad.antic.Done? && !CanBreak(ad, r, now, hint)
  }

  // ---------------------------------------------------------------- dispatch

  /** as_remove_queued_request. */
  function Unqueue(s: Side, r: Rq): Side
    requires r in s.tree && r in s.fifo
  {
    var i := Place(s.tree, r);
    s.(next := if s.next == Some(r) then FindNext(s.last, s.tree, i) else s.next,
       tree := Without(s.tree, i),
       fifo := Without(s.fifo, Place(s.fifo, r)))
  }

  function Moved(s: Side, r: Rq): Side
    requires r in s.tree && r in s.fifo
  {
    var s1 := s.(last := r.End());
    Unqueue(s1.(next := FindNext(s1.last, s1.tree, Place(s1.tree, r))), r)
  }

  /** Anticipation ends, and r's process is the one to anticipate next. */
  function Retargeted(ad: As, r: Rq): As {
    var ad1 := AnticStop(ad);
    ad1.(antic := Off,
         ioc := if !r.sync then None else if r.ioc.Some? then r.ioc else ad1.ioc,
         writeCount := if !r.sync && ad1.writeCount != 0 then ad1.writeCount - 1 else ad1.writeCount,
         iocFinished := false)
  }

  /** as_move_to_dispatch. */
  function MoveToDispatch(ad: As, r: Rq): As
    requires r in ad.Of(r.sync).tree && r in ad.Of(r.sync).fifo
  {
    var ad1 := Retargeted(ad, r);
    var ad2 := ad1.With(r.sync, Moved(ad1.Of(r.sync), r));
    ad2.(nrDispatched := ad2.nrDispatched + 1, inflight := ad2.inflight + [r])
  }

  /** Is it time to look at the FIFO of the direction again? */
  predicate FifoDue(ad: As, d: bool, now: int) { Abs(now - ad.Of(d).lastCheck) >= ad.FifoExpire(d) }

  function FifoChecked(ad: As, d: bool, now: int): (b: As)
    ensures b.sync == ad.sync.(lastCheck := b.sync.lastCheck) && b.async == ad.async.(lastCheck := b.async.lastCheck)
    ensures Indexed(ad) ==> Indexed(b)
  {
    if FifoDue(ad, d, now) then ad.With(d, ad.Of(d).(lastCheck := now)) else ad
  }

  /** as_fifo_expired, whose side effect is FifoChecked. */
  predicate FifoExpired(ad: As, d: bool, now: int) {
    FifoDue(ad, d, now) && ad.Of(d).fifo != [] && now > ad.Of(d).fifo[0].time
  }

  predicate BatchExpired(ad: As, now: int) {
    !ad.changed && !ad.newBatch && (now > ad.batchExpires || (!ad.dir && ad.writeCount == 0))
  }

  predicate Idles(ad: As) {
    !ad.dir && ad.sync.fifo == [] && (ad.writeCount == 0 || ad.async.fifo == [])
  }

  /** The old batch has drained: the new one begins. */
  function BatchBegun(ad: As, now: int): As {
    if !ad.changed then ad
    else if ad.dir then ad.(newBatch := true, changed := false)
    else ad.(batchExpires := now + ad.tun.batchAsync, changed := false)
  }

  /** The tail of as_dispatch_request, from the batch check on. */
  function Serve(ad: As, r: Rq, now: int): (As, bool)
    requires r in ad.Of(r.sync).tree && r in ad.Of(r.sync).fifo
  {
    if ad.changed && ad.nrDispatched != 0 then (ad, false)
    else (MoveToDispatch(BatchBegun(ad, now), r), true)
  }

  /** The label dispatch_request: an expired request goes first. */
  function ServeOrExpired(ad: As, r: Rq, now: int): (As, bool)
    requires Indexed(ad) && r in ad.Of(ad.dir).tree
  {
    var ad1 := FifoChecked(ad, ad.dir, now);
    Serve(ad1, if FifoExpired(ad, ad.dir, now) then ad.Of(ad.dir).fifo[0] else r, now)
  }

  function ToReads(ad: As, now: int): As {
    ad.(changed := ad.changed || !ad.dir, dir := true, sync := ad.sync.(lastCheck := now))
  }

  function ToWrites(ad: As): As {
    ad.(changed := ad.changed || ad.dir, newBatch := ad.newBatch && !ad.dir, dir := false,
        writeCount := ad.writeBatchCount, idled := false)
  }

  /** No batch is running: choose the direction. */
  function SwitchBatch(ad: As, now: int): (As, bool)
    requires Indexed(ad) && (ad.sync.fifo != [] || ad.async.fifo != [])
  {
    if ad.sync.fifo != [] && !(ad.async.fifo != [] && ad.dir) then
      ServeOrExpired(ToReads(ad, now), ad.sync.fifo[0], now)
    else
      assert ad.async.fifo[0] in ad.async.tree;
      ServeOrExpired(ToWrites(ad), ad.async.next.value, now)
  }

  /** Reads alone keep their batch going. */
  function Extended(ad: As, now: int): As {
    if ad.sync.fifo != [] && ad.async.fifo == [] then ad.(batchExpires := now + ad.tun.batchSync) else ad
  }

  function ContinueBatch(ad: As, now: int): (As, bool)
    requires Indexed(ad) && (ad.sync.fifo != [] || ad.async.fifo != [])
  {
    if ad.Of(ad.dir).next.None? then SwitchBatch(ad, now)
    else ServeOrExpired(Extended(ad, now), ad.Of(ad.dir).next.value, now)
  }

  predicate Blocked(ad: As) {
    (ad.sync.fifo == [] && ad.async.fifo == []) || ad.Waiting() || ad.changed
  }

  /** A read batch with anticipation switched on: an expired read, a wait for a better one, or the next. */
  function ReadBatch(ad: As, now: int, hint: bool): (As, bool)
    requires Indexed(ad) && (ad.sync.fifo != [] || ad.async.fifo != [])
  {
    var ad1 := FifoChecked(ad, true, now);
    if FifoExpired(ad, true, now) then
      assert ad.sync.fifo[0] in ad.sync.tree;
      Serve(ad1, ad.sync.fifo[0], now)
    else if CanAnticipate(ad1, ad.sync.next, now, hint) then (AnticWaitReq(ad1), false)
    else ContinueBatch(ad1, now)
  }

  function Signalled(ad: As): As { if Idles(ad) then ad.(idled := true) else ad }

  /** as_dispatch_request, not forced. */
  function Dispatch(ad0: As, now: int, hint: bool): (As, bool)
    requires Indexed(ad0)
  {
    var ad := Signalled(ad0);
    if Blocked(ad) then (ad, false)
    else if ad.sync.fifo != [] && ad.async.fifo != [] && BatchExpired(ad, now) then SwitchBatch(ad, now)
    else if ad.dir && ad.tun.antic != 0 then ReadBatch(ad, now, hint)
    else ContinueBatch(ad, now)
  }

  // ---------------------------------------------------------------- adding and completing

  function Queued(s: Side, r: Rq): Side {
    s.(tree := Insert(s.tree, r), fifo := s.fifo + [r], next := ChooseReq(s.last, Some(r), s.next))
  }

  /** as_add_arq_rb before the insertion: a request at the same sector is sent to the dispatch queue first. */
  function Evict(ad: As, r: Rq): As
    requires Indexed(ad)
  {
    var x := Alias(ad.Of(r.sync).tree, r.sector);
    if x.Some? then MoveToDispatch(ad, x.value) else ad
  }

  function Enqueue(ad: As, r: Rq): As { ad.With(r.sync, Queued(ad.Of(r.sync), r)) }

  /** The tail of as_update_arq: the new request may be the one waited for. */
  function Noticed(ad: As, r: Rq, now: int, hint: bool): As {
    if ad.Waiting() && CanBreak(ad, Some(r), now, hint) then AnticStop(ad) else ad
  }

  function Stamped(ad: As, r: Rq, now: int): Rq { r.(time := now + ad.FifoExpire(r.sync)) }

  /** as_add_request. */
  function Add(ad: As, r: Rq, now: int, hint: bool): As
    requires Indexed(ad)
  {
    var r1 := Stamped(ad, r, now);
    Noticed(Enqueue(Evict(ad, r1), r1), r1, now, hint)
  }

  /** update_write_batch. */
  function WriteBatch(ad: As, now: int): int {
    var batch := ad.tun.batchAsync;
    var t := if now - ad.batchExpires + batch < 0 then 0 else now - ad.batchExpires + batch;
    var c := if t > batch && !ad.idled then
               if t > batch * 3 then Halved(ad.writeBatchCount) else ad.writeBatchCount - 1
             else if t < batch && ad.writeCount == 0 then
               if batch > t * 3 then ad.writeBatchCount * 2 else ad.writeBatchCount + 1
             else ad.writeBatchCount;
    if c < 1 then 1 else c
  }

  /** Division by two as C does it. */
  function Halved(x: int): int { if x < 0 then -(-x / 2) else x / 2 }

  function BatchDone(ad: As): As {
    var last := ad.changed && ad.nrDispatched == 1;
    ad.(work := ad.work || last, changed := ad.changed && !last, newBatch := ad.newBatch || (last && ad.dir),
        nrDispatched := ad.nrDispatched - 1)
  }

  function BatchTimed(ad: As, r: Rq, now: int): As {
    if ad.newBatch && ad.dir == r.sync then
      ad.(writeBatchCount := WriteBatch(ad, now), batchExpires := now + ad.tun.batchSync, newBatch := false)
    else ad
  }

  /** The process waited for has been served: start timing it. */
  function ContextDone(ad: As, r: Rq, now: int): As {
    if ad.ioc.Some? && ad.ioc == r.ioc then
      var ad1 := ad.(anticStart := now, iocFinished := true);
      if ad1.antic.WaitReq? then AnticWaitNext(ad1) else ad1
    else ad
  }

  /** as_completed_request for inflight[i]. */
  function Complete(ad: As, i: nat, now: int): As
    requires i < |ad.inflight|
  {
    var r := ad.inflight[i];
    ContextDone(BatchTimed(BatchDone(ad.(inflight := Without(ad.inflight, i))), r, now), r, now)
  }

  // ---------------------------------------------------------------- runs

  datatype Step =
    | AddReq(r: Rq, now: int, hint: bool)
    | DispatchReq(now: int, hint: bool)
    | CompleteReq(i: nat, now: int)
    | TimerFires
    | TimerHandler
    | WorkRuns

  /** What can happen: requests are added and asked for at any time, what is out may end, timers and work may run when armed. */
  predicate Permitted(ad: As, s: Step) {
    match s
    case AddReq(_, _, _) => true
    case DispatchReq(_, _) => true
    case CompleteReq(i, _) => i < |ad.inflight|
    case TimerFires => ad.timer
    case TimerHandler => ad.firing > 0
    case WorkRuns => ad.work
  }

  /** Work, when it runs, clears its pending bit and calls the driver, which may dispatch. */
  ghost function Apply(ad: As, s: Step): As
    requires Indexed(ad) && Permitted(ad, s)
  {
    match s
    case AddReq(r, now, hint) => Add(ad, r, now, hint)
    case DispatchReq(now, hint) => Dispatch(ad, now, hint).0
    case CompleteReq(i, now) => Complete(ad, i, now)
    case TimerFires => ad.(timer := false, firing := ad.firing + 1)
    case TimerHandler => AnticTimeout(ad.(firing := ad.firing - 1))
    case WorkRuns => ad.(work := false)
  }

  /** A run.  It would stop where the indexes disagree; that they never do is `AsTheorems.IndexesAgree`. */
  ghost predicate Runs(ad: As, steps: seq<Step>)
    decreases |steps|
  {
    steps == [] || (Permitted(ad, steps[0]) && (Indexed(ad) ==> Runs(Apply(ad, steps[0]), steps[1..])))
  }

  /** The last state of a run, or the first one in which the indexes disagree. */
  ghost function After(ad: As, steps: seq<Step>): As
    requires Runs(ad, steps)
    decreases |steps|
  {
    if steps == [] || !Indexed(ad) then ad else After(Apply(ad, steps[0]), steps[1..])
  }
}
