/**
  The request queue of block/elevator.c and block/ll_rw_blk.c with the noop scheduler behind it:
  submission, merging, dispatch, the ordered-write (barrier) sequence, requeueing and completion.

  A request is a value that moves between four containers: the scheduler's list (`sched`), the
  dispatch queue (`head`), the driver (`driver`) and, while its ordered sequence runs, the saved
  original barrier (`orig`).  Every lock-held kernel function is one function from queue to queue.
  The fields `stamp`, `barriers`, `finished`, `ended` and `epochOf` are history: they record what
  happened and no operation reads them to decide anything.
 */
module RequestQueue {
  import opened Wrappers

  /** The three proxies are the requests embedded in the queue: pre_flush_rq, bar_rq, post_flush_rq. */
  datatype Rid = Normal(n: nat) | PreFlushRq | BarRq | PostFlushRq

  datatype Req = Req(
    id: Rid,
    fs: bool,          // REQ_CMD
    write: bool,       // REQ_RW
    hard: bool,        // REQ_HARDBARRIER
    soft: bool,        // REQ_SOFTBARRIER
    started: bool,     // REQ_STARTED
    sorted: bool,      // REQ_SORTED
    color: bool,       // REQ_ORDERED_COLOR
    nomerge: bool,     // REQ_NOMERGE
    sector: nat,
    nr: nat,
    bios: seq<nat>,    // the bios the request carries (none for specials and proxies)
    stamp: nat)        // history: how many barriers were submitted before it
  {
    function End(): nat { sector + nr }

    // rq_mergeable
    predicate Mergeable() { fs && !nomerge && !started && !hard && !soft }

    // a request that sorted insertion may not pass
    predicate Stops() { soft || hard || started }

    // blk_account_rq
    predicate Account() { started && fs }

    // a file system request submitted from above; the proxies are not
    predicate Work() { id.Normal? && fs }

    predicate Special() { id.Normal? && !fs }

    predicate Barrier() { Work() && hard }
  }

  /** QUEUE_ORDERED_*, the modes that order by draining. */
  datatype Ordered = OrderedNone | Drain | DrainFlush | DrainFua {
    predicate PreFlush() { DrainFlush? || DrainFua? }
    predicate PostFlush() { DrainFlush? }
  }

  /** The bits of q->ordseq below QUEUE_ORDSEQ_DONE. */
  datatype OrdSeq = OrdSeq(started: bool, drain: bool, preflush: bool, bar: bool, postflush: bool)

  datatype Stage = StageDrain | StagePreFlush | StageBar | StagePostFlush

  const ORDSEQ_DRAIN: nat := 0x02
  const ORDSEQ_PREFLUSH: nat := 0x04
  const ORDSEQ_BAR: nat := 0x08
  const ORDSEQ_POSTFLUSH: nat := 0x10
  const ORDSEQ_DONE: nat := 0x20

  const IDLE := OrdSeq(false, false, false, false, false)

  datatype Where = InsertFront | InsertBack | InsertSort | InsertRequeue

  datatype Queue = Queue(
    head: seq<Req>,               // q->queue_head
    sched: seq<Req>,              // nd->queue of the noop scheduler
    driver: seq<Req>,             // dequeued by the driver and not yet ended
    lastMerge: Option<Rid>,
    endSector: nat,
    boundary: Option<Rid>,        // q->boundary_rq
    nrSorted: int,
    inFlight: int,
    ordseq: OrdSeq,
    orig: Option<Req>,            // q->orig_bar_rq while a sequence runs
    ordered: Ordered,
    nextOrdered: Ordered,
    ordcolor: bool,
    barriers: nat,                // history: barriers submitted
    finished: nat,                // history: barriers ended
    ended: multiset<nat>,         // history: bios ended
    epochOf: map<nat, nat>)       // history: barriers submitted before each bio

  const EMPTY := Queue([], [], [], None, 0, None, 0, 0, IDLE, None, OrderedNone, OrderedNone, false,
                       0, 0, multiset{}, map[])

  // ---------------------------------------------------------------- sequences as lists

  function InsertAt(s: seq<Req>, p: nat, r: Req): seq<Req>
    requires p <= |s|
  {
    s[..p] + [r] + s[p..]
  }

  function RemoveAt(s: seq<Req>, i: nat): seq<Req>
    requires i < |s|
  {
    s[..i] + s[i + 1..]
  }

  // ---------------------------------------------------------------- sorted dispatch

  /** One iteration of the scan in elv_dispatch_sort: does r go in front of pos? */
  predicate Passes(pos: Req, r: Req, boundary: nat) {
    && !pos.Stops()
    && if r.sector >= boundary && pos.sector < boundary then true
       else if r.sector < boundary && pos.sector >= boundary then false
       else r.sector < pos.sector
  }

  /** The place elv_dispatch_sort picks, scanning from the tail. */
  function SortPos(s: seq<Req>, r: Req, boundary: nat): (p: nat)
    ensures p <= |s|
    ensures forall i | p <= i < |s| :: Passes(s[i], r, boundary)
    ensures p > 0 ==> !Passes(s[p - 1], r, boundary)
  {
    if s == [] || !Passes(s[|s| - 1], r, boundary) then |s|
    else SortPos(s[..|s| - 1], r, boundary)
  }

  function DispatchSort(q: Queue, r: Req): Queue {
    q.(lastMerge := if q.lastMerge == Some(r.id) then None else q.lastMerge,
       nrSorted := q.nrSorted - 1,
       head := InsertAt(q.head, SortPos(q.head, r, q.endSector), r))
  }

  /** noop_dispatch on a non-empty list. */
  function NoopDispatch(q: Queue): Queue
    requires q.sched != []
  {
    DispatchSort(q.(sched := q.sched[1..]), q.sched[0])
  }

  /** The scheduler puts one of its requests first; noop never does. */
  function Favoured(q: Queue, i: nat): Queue
    requires i < |q.sched|
  {
    q.(sched := [q.sched[i]] + RemoveAt(q.sched, i))
  }

  /** elv_drain_elevator. */
  function DrainElevator(q: Queue): Queue
    decreases |q.sched|
  {
    if q.sched == [] then q else DrainElevator(NoopDispatch(q))
  }

  // ---------------------------------------------------------------- the ordered sequence

  /** blk_ordered_cur_seq: the lowest clear bit of ordseq, or 0 when no sequence runs. */
  function CurSeq(o: OrdSeq): nat {
    if !o.started then 0
    else if !o.drain then ORDSEQ_DRAIN
    else if !o.preflush then ORDSEQ_PREFLUSH
    else if !o.bar then ORDSEQ_BAR
    else if !o.postflush then ORDSEQ_POSTFLUSH
    else ORDSEQ_DONE
  }

  /** blk_ordered_req_seq, given the original barrier. */
  function ReqSeq(orig: Req, r: Req): nat {
    match r.id
    case PreFlushRq => ORDSEQ_PREFLUSH
    case BarRq => ORDSEQ_BAR
    case PostFlushRq => ORDSEQ_POSTFLUSH
    case Normal(_) => if r.color == orig.color then ORDSEQ_DRAIN else ORDSEQ_DONE
  }

  predicate Has(o: OrdSeq, s: Stage) {
    match s
    case StageDrain => o.drain
    case StagePreFlush => o.preflush
    case StageBar => o.bar
    case StagePostFlush => o.postflush
  }

  function SetBit(o: OrdSeq, s: Stage): OrdSeq {
    match s
    case StageDrain => o.(drain := true)
    case StagePreFlush => o.(preflush := true)
    case StageBar => o.(bar := true)
    case StagePostFlush => o.(postflush := true)
  }

  /** The original barrier's bios go back to the submitter and the sequence is over. */
  function FinishSequence(q: Queue): Queue
    requires q.orig.Some?
  {
    q.(ordseq := IDLE, orig := None, finished := q.finished + 1,
       ended := q.ended + multiset(q.orig.value.bios))
  }

  /** blk_ordered_complete_seq. */
  function CompleteSeq(q: Queue, s: Stage): Queue
    requires q.orig.Some?
  {
    var q1 := q.(ordseq := SetBit(q.ordseq, s));
    if CurSeq(q1.ordseq) != ORDSEQ_DONE then q1 else FinishSequence(q1)
  }

  // ---------------------------------------------------------------- insertion

  /** Where elv_insert puts a requeued request while a sequence runs. */
  function RequeuePos(s: seq<Req>, orig: Req, seqno: nat): (p: nat)
    ensures p <= |s|
    ensures forall i | 0 <= i < p :: ReqSeq(orig, s[i]) < seqno
    ensures p < |s| ==> seqno <= ReqSeq(orig, s[p])
  {
    if s == [] || seqno <= ReqSeq(orig, s[0]) then 0
    else 1 + RequeuePos(s[1..], orig, seqno)
  }

  /** elv_insert. */
  function Insert(q: Queue, r: Req, where: Where): Queue {
    match where
    case InsertFront =>
      q.(head := [r.(soft := true)] + q.head)
    case InsertBack =>
      var q1 := DrainElevator(q);
      q1.(head := q1.head + [r.(soft := true)])
    case InsertSort =>
      var r1 := r.(sorted := true);
      q.(nrSorted := q.nrSorted + 1,
         lastMerge := if q.lastMerge.None? && r1.Mergeable() then Some(r1.id) else q.lastMerge,
         sched := q.sched + [r1])
    case InsertRequeue =>
      var r1 := r.(soft := true);
      if q.orig.None? then q.(head := [r1] + q.head)
      else q.(head := InsertAt(q.head, RequeuePos(q.head, q.orig.value, ReqSeq(q.orig.value, r1)), r1))
  }

  /** __elv_add_request.  `elvpriv` is false while the scheduler is being switched. */
  function AddRequest(q: Queue, r0: Req, where0: Where, elvpriv: bool): Queue {
    var r := if q.ordcolor then r0.(color := true) else r0;
    if r.soft || r.hard then
      var q1 := q.(ordcolor := if r.hard then !q.ordcolor else q.ordcolor);
      var q2 := if r.fs then q1.(endSector := r.End(), boundary := Some(r.id)) else q1;
      Insert(q2, r, if where0.InsertSort? then InsertBack else where0)
    else
      Insert(q, r, if !elvpriv && where0.InsertSort? then InsertBack else where0)
  }

  /** add_request for a file system request made from one bio. */
  function SubmitRequest(q: Queue, id: nat, bio: nat, sector: nat, nr: nat, write: bool, barrier: bool,
                         elvpriv: bool): Queue {
    var r := Req(Normal(id), true, write, barrier, false, false, false, false, barrier, sector, nr, [bio],
                 q.barriers);
    var q1 := AddRequest(q, r, InsertSort, elvpriv);
    q1.(barriers := if barrier then q.barriers + 1 else q.barriers,
        epochOf := q1.epochOf[bio := q.barriers])
  }

  /** blk_insert_request: a command that is not file system I/O. */
  function SubmitSpecial(q: Queue, id: nat, front: bool): Queue {
    var r := Req(Normal(id), false, false, false, true, false, false, false, true, 0, 0, [], q.barriers);
    AddRequest(q, r, if front then InsertFront else InsertBack, true)
  }

  // ---------------------------------------------------------------- merging

  function IndexOf(s: seq<Req>, id: Rid): (i: nat)
    ensures i <= |s|
    ensures i < |s| ==> s[i].id == id
    ensures forall j | 0 <= j < i :: s[j].id != id
  {
    if s == [] || s[0].id == id then 0 else 1 + IndexOf(s[1..], id)
  }

  datatype MergeKind = NoMerge | FrontMerge | BackMerge

  /** elv_try_merge. */
  function TryMerge(r: Req, sector: nat, nr: nat, write: bool): MergeKind {
    if !r.Mergeable() || r.write != write then NoMerge
    else if r.End() == sector then BackMerge
    else if r.sector == sector + nr then FrontMerge
    else NoMerge
  }

  /** The guards of attempt_merge; `allow` is the answer of merge_requests_fn. */
  predicate MayJoin(a: Req, b: Req, allow: bool) {
    a.Mergeable() && b.Mergeable() && a.End() == b.sector && a.write == b.write && allow
  }

  function Join(a: Req, b: Req): Req {
    a.(nr := a.nr + b.nr, bios := a.bios + b.bios)
  }

  /** The request grown by a bio. */
  function Grow(r: Req, kind: MergeKind, bio: nat, sector: nat, nr: nat): Req {
    if kind.BackMerge? then r.(nr := r.nr + nr, bios := r.bios + [bio])
    else r.(sector := sector, nr := r.nr + nr, bios := [bio] + r.bios)
  }

  /** elv_merge_requests followed by the release of the absorbed request. */
  function JoinRequests(q: Queue, i: nat): Queue
    requires i + 1 < |q.sched|
  {
    var a := Join(q.sched[i], q.sched[i + 1]);
    DrainCheck(q.(sched := q.sched[..i] + [a] + q.sched[i + 2..],
                  nrSorted := q.nrSorted - 1,
                  lastMerge := Some(a.id)))
  }

  /** The request that elv_merge finds without asking the scheduler. */
  function LastMerge(q: Queue): nat {
    if q.lastMerge.None? then |q.sched| else IndexOf(q.sched, q.lastMerge.value)
  }

  predicate CanMerge(q: Queue, i: nat, sector: nat, nr: nat, write: bool) {
    i < |q.sched| && TryMerge(q.sched[i], sector, nr, write) != NoMerge
  }

  /** A request marked as full by ll_new_mergeable. */
  function Refused(q: Queue, i: nat): Queue
    requires i < |q.sched|
  {
    q.(sched := q.sched[i := q.sched[i].(nomerge := true)],
       lastMerge := if q.lastMerge == Some(q.sched[i].id) then None else q.lastMerge)
  }

  /** The merge half of __make_request, for request i.  `allow` and `allowJoin` are the answers of the queue's merge callbacks. */
  function MergeBio(q: Queue, i: nat, bio: nat, sector: nat, nr: nat, write: bool, allow: bool, allowJoin: bool): Queue
    requires CanMerge(q, i, sector, nr, write)
  {
    var r := q.sched[i];
    var kind := TryMerge(r, sector, nr, write);
    if !allow then Refused(q, i)
    else
      var g := Grow(r, kind, bio, sector, nr);
      var q1 := q.(sched := q.sched[i := g], epochOf := q.epochOf[bio := q.barriers]);
      if kind.BackMerge? && i + 1 < |q.sched| && MayJoin(g, q.sched[i + 1], allowJoin) then JoinRequests(q1, i)
      else if kind.FrontMerge? && i > 0 && MayJoin(q.sched[i - 1], g, allowJoin) then JoinRequests(q1, i - 1)
      else q1.(lastMerge := Some(g.id))
  }

  // ---------------------------------------------------------------- fetching

  /** elv_dequeue_request. */
  function Dequeue(q: Queue, i: nat): Queue
    requires i < |q.head|
  {
    q.(head := RemoveAt(q.head, i),
       inFlight := if q.head[i].Account() then q.inFlight + 1 else q.inFlight)
  }

  function FlushRq(id: Rid): Req {
    Req(id, false, true, true, false, false, false, false, false, 0, 0, [], 0)
  }

  /** The proxy that start_ordered prepares from the original barrier's bio. */
  function ProxyOf(r: Req): Req {
    Req(BarRq, true, r.write, true, false, false, false, false, true, r.sector, r.nr, [], r.stamp)
  }

  /** The proxies in the order of their stages, as they end up in front of the queue. */
  function Proxies(mode: Ordered, b: Req): seq<Req> {
    (if mode.PreFlush() then [FlushRq(PreFlushRq).(soft := true)] else [])
    + [ProxyOf(b).(soft := true)]
    + (if mode.PostFlush() then [FlushRq(PostFlushRq).(soft := true)] else [])
  }

  /** The stages that the mode leaves out count as done. */
  function Skipping(o: OrdSeq, mode: Ordered): OrdSeq {
    o.(preflush := o.preflush || !mode.PreFlush(), postflush := o.postflush || !mode.PostFlush())
  }

  function FirstProxy(mode: Ordered): Rid { if mode.PreFlush() then PreFlushRq else BarRq }

  /** start_ordered: put the proxies at the head and say which may go to the driver at once. */
  function StartOrdered(q: Queue): (Queue, Option<Rid>)
    requires q.head != []
  {
    var r, mode := q.head[0], q.nextOrdered;
    var d := Dequeue(q, 0);
    var o := q.ordseq.(started := true, drain := q.ordseq.drain || d.inFlight == 0);
    (d.(head := Proxies(mode, r) + d.head, ordered := mode, ordseq := Skipping(o, mode), orig := Some(r)),
     if d.inFlight == 0 then Some(FirstProxy(mode)) else None)
  }

  datatype Verdict = Give(rq: Option<Rid>) | Retry

  /** The barrier that a queue without ordered support turns down. */
  predicate Rejects(q: Queue) {
    q.ordseq == IDLE && q.head != [] && q.head[0].fs && q.head[0].hard && q.nextOrdered.OrderedNone?
  }

  function RejectBarrier(q: Queue): Queue
    requires q.head != []
  {
    Dequeue(q, 0).(finished := q.finished + 1, ended := q.ended + multiset(q.head[0].bios))
  }

  /** blk_do_ordered on the request at the head. */
  function DoOrdered(q: Queue): (Queue, Verdict)
    requires q.head != []
    requires q.ordseq != IDLE ==> q.orig.Some?
  {
    var r := q.head[0];
    if q.ordseq == IDLE then
      if !(r.fs && r.hard) then (q, Give(Some(r.id)))
      else if !q.nextOrdered.OrderedNone? then
        var (q1, rid) := StartOrdered(q); (q1, Give(rid))
      else (RejectBarrier(q), Retry)
    else if !r.fs && !r.id.PreFlushRq? && !r.id.PostFlushRq? then (q, Give(Some(r.id)))
    else if ReqSeq(q.orig.value, r) > CurSeq(q.ordseq) then (q, Give(None))
    else (q, Give(Some(r.id)))
  }

  /** __elv_next_request: the loop around blk_do_ordered and the scheduler's dispatch. */
  function NextHead(q: Queue): (Queue, Option<Rid>)
    requires q.ordseq != IDLE ==> q.orig.Some?
    decreases |q.sched| + |q.head|, |q.sched|
  {
    if q.head != [] then
      var (q1, v) := DoOrdered(q);
      match v
      case Retry => NextHead(q1)
      case Give(rid) => (q1, rid)
    else if q.sched == [] then (q, None)
    else NextHead(NoopDispatch(q))
  }

  /** What elv_next_request does to the request it returns, which is at the head. */
  function MarkStarted(q: Queue): Queue
    requires q.head != []
  {
    var r := q.head[0];
    var q1 := q.(head := [r.(started := true)] + q.head[1..]);
    if q.boundary.None? || q.boundary == Some(r.id) then q1.(endSector := r.End(), boundary := None) else q1
  }

  /** elv_next_request. */
  function Fetch(q: Queue): (Queue, Option<Rid>)
    requires q.ordseq != IDLE ==> q.orig.Some?
  {
    var (q1, rid) := NextHead(q);
    if rid.Some? && q1.head != [] then (MarkStarted(q1), rid) else (q1, None)
  }

  // ---------------------------------------------------------------- the driver's side

  /** The driver takes a request it was given off the queue. */
  function Take(q: Queue, i: nat): Queue
    requires i < |q.head|
  {
    Dequeue(q, i).(driver := q.driver + [q.head[i]])
  }

  /** The tail of elv_completed_request: is the queue drained for the sequence? */
  function DrainCheck(q: Queue): Queue {
    if q.orig.Some? && q.inFlight == 0 && CurSeq(q.ordseq) == ORDSEQ_DRAIN && q.head != []
       && ReqSeq(q.orig.value, q.head[0]) > ORDSEQ_DRAIN
    then CompleteSeq(q, StageDrain) else q
  }

  /** elv_completed_request. */
  function CompletedRequest(q: Queue, r: Req): Queue {
    DrainCheck(if r.Account() then q.(inFlight := q.inFlight - 1) else q)
  }

  function StageOf(id: Rid): Stage
    requires !id.Normal?
  {
    match id
    case PreFlushRq => StagePreFlush
    case BarRq => StageBar
    case PostFlushRq => StagePostFlush
  }

  /** end_that_request_last: the end_io callback of a proxy, or the release of an ordinary request. */
  function EndRequest(q: Queue, i: nat): Queue
    requires i < |q.driver|
  {
    var r := q.driver[i];
    var q1 := CompletedRequest(q.(driver := RemoveAt(q.driver, i)), r);
    if r.id.Normal? then q1.(ended := q1.ended + multiset(r.bios))
    else if q1.orig.Some? then CompleteSeq(q1, StageOf(r.id))
    else q1
  }

  /** elv_requeue_request. */
  function RequeueRequest(q: Queue, i: nat): Queue
    requires i < |q.driver|
  {
    var r := q.driver[i];
    var q1 := q.(driver := RemoveAt(q.driver, i),
                 inFlight := if r.Account() then q.inFlight - 1 else q.inFlight);
    Insert(q1, r.(started := false), InsertRequeue)
  }

  // ---------------------------------------------------------------- runs

  /**
    The scheduler may send any of its requests at any time (`Sends`), keep them in any order
    (`Prefers`), and offer any of them for a merge, where noop offers `LastMerge` only.  So a run
    covers every scheduler that sends with elv_dispatch_sort: a dispatch of its own choice, a drain in
    its own order and the eviction of an alias are `Sends` steps before the step that asks for them,
    and whatever neighbour it names for a join is brought next to the request by `Prefers`.
   */
  datatype Step =
    | Submit(id: nat, bio: nat, sector: nat, nr: nat, write: bool, barrier: bool, elvpriv: bool)
    | Command(id: nat, front: bool)
    | Merge(i: nat, bio: nat, sector: nat, nr: nat, write: bool, allow: bool, allowJoin: bool)
    | Prefers(i: nat)
    | Sends(i: nat)
    | FetchNext
    | TakeOff(i: nat)
    | End(i: nat)
    | Requeue(i: nat)
    | SetOrdered(mode: Ordered)

  /**
    What the callers of the block layer keep to: a bio is submitted once, a driver takes, ends and
    requeues only what it holds.  A barrier may come in any mode: __make_request tests the mode before
    it takes the queue lock.
   */
  predicate Enabled(q: Queue, s: Step) {
    match s
    case Submit(_, bio, _, _, _, _, _) => bio !in q.epochOf
    case Command(_, _) => true
    case Merge(i, bio, sector, nr, write, _, _) => bio !in q.epochOf && CanMerge(q, i, sector, nr, write)
    case Prefers(i) => i < |q.sched|
    case Sends(i) => i < |q.sched|
    case FetchNext => q.ordseq != IDLE ==> q.orig.Some?
    case TakeOff(i) => i < |q.head| && q.head[i].started
    case End(i) => i < |q.driver|
    case Requeue(i) => i < |q.driver|
    case SetOrdered(_) => true
  }

  function Apply(q: Queue, s: Step): Queue
    requires Enabled(q, s)
  {
    match s
    case Submit(id, bio, sector, nr, write, barrier, elvpriv) =>
      SubmitRequest(q, id, bio, sector, nr, write, barrier, elvpriv)
    case Command(id, front) => SubmitSpecial(q, id, front)
    case Merge(i, bio, sector, nr, write, allow, allowJoin) =>
      MergeBio(q, i, bio, sector, nr, write, allow, allowJoin)
    case Prefers(i) => Favoured(q, i)
    case Sends(i) => NoopDispatch(Favoured(q, i))
    case FetchNext => Fetch(q).0
    case TakeOff(i) => Take(q, i)
    case End(i) => EndRequest(q, i)
    case Requeue(i) => RequeueRequest(q, i)
    case SetOrdered(mode) => q.(ordered := mode, nextOrdered := mode)
  }

  /** A run in which every step is one its callers may take. */
  predicate Runs(q: Queue, steps: seq<Step>)
    decreases |steps|
  {
    steps == [] || (Enabled(q, steps[0]) && Runs(Apply(q, steps[0]), steps[1..]))
  }

  function After(q: Queue, steps: seq<Step>): Queue
    requires Runs(q, steps)
    decreases |steps|
  {
    if steps == [] then q else After(Apply(q, steps[0]), steps[1..])
  }
}
