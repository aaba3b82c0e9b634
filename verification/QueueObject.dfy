/**
  The request queue as the kernel holds it: one object whose lists, flags and counters the block
  layer's functions update in place.  Each method is proved against the value-level step of
  `RequestQueue`, so everything proved of runs there holds of this object.
 */
module QueueObject {
  import opened Wrappers
  import opened RequestQueue
  import opened BarrierInvariant
  import opened BarrierCompletion
  import opened BarrierFetch
  import opened BarrierTheorems
  import opened ElevatorOrder

  class BlockQueue {
    var head: seq<Req>
    var sched: seq<Req>
    var driver: seq<Req>
    var lastMerge: Option<Rid>
    var endSector: nat
    var boundary: Option<Rid>
    var nrSorted: int
    var inFlight: int
    var ordseq: OrdSeq
    var orig: Option<Req>
    var ordered: Ordered
    var nextOrdered: Ordered
    var ordcolor: bool
    var barriers: nat
    var finished: nat
    var ended: multiset<nat>
    var epochOf: map<nat, nat>

    function State(): Queue
      reads this
    {
      Queue(head, sched, driver, lastMerge, endSector, boundary, nrSorted, inFlight, ordseq, orig, ordered,
            nextOrdered, ordcolor, barriers, finished, ended, epochOf)
    }

    constructor ()
      ensures State() == EMPTY && Inv(State())
    {
      head, sched, driver, lastMerge, endSector, boundary := [], [], [], None, 0, None;
      nrSorted, inFlight, ordseq, orig, ordered, nextOrdered := 0, 0, IDLE, None, OrderedNone, OrderedNone;
      ordcolor, barriers, finished, ended, epochOf := false, 0, 0, multiset{}, map[];
      new;
      InitialState();
    }

    /** The backward scan of elv_dispatch_sort. */
    method SortPlace(r: Req) returns (entry: nat)
      ensures entry == SortPos(head, r, endSector)
    {
      entry := |head|;
      assert head[..entry] == head;
      while entry > 0 && Passes(head[entry - 1], r, endSector)
        invariant 0 <= entry <= |head|
        invariant SortPos(head, r, endSector) == SortPos(head[..entry], r, endSector)
      {
        assert head[..entry][..entry - 1] == head[..entry - 1];
        entry := entry - 1;
      }
      assert entry > 0 ==> head[..entry][entry - 1] == head[entry - 1];
    }

    method DispatchSort(r: Req)
      modifies this
      ensures State() == RequestQueue.DispatchSort(old(State()), r)
    {
      if lastMerge == Some(r.id) { lastMerge := None; }
      nrSorted := nrSorted - 1;
      var entry := SortPlace(r);
      head := head[..entry] + [r] + head[entry..];
    }

    method NoopDispatch() returns (moved: bool)
      modifies this
      ensures moved == (old(sched) != [])
      ensures State() == if moved then RequestQueue.NoopDispatch(old(State())) else old(State())
    {
      moved := sched != [];
      if moved {
        var r := sched[0];
        sched := sched[1..];
        DispatchSort(r);
      }
    }

    method DrainElevator()
      modifies this
      ensures State() == RequestQueue.DrainElevator(old(State())) && sched == []
    {
      var more := true;
      while more
        invariant RequestQueue.DrainElevator(State()) == RequestQueue.DrainElevator(old(State()))
        invariant !more ==> sched == []
        decreases more, |sched|
      {
        more := NoopDispatch();
      }
    }

    /** The requires is the BUG_ON of blk_ordered_complete_seq. */
    method CompleteSeq(s: Stage)
      requires orig.Some? && ordseq.started && !Has(ordseq, s)
      modifies this
      ensures State() == RequestQueue.CompleteSeq(old(State()), s)
    {
      ordseq := SetBit(ordseq, s);
      if CurSeq(ordseq) != ORDSEQ_DONE { return; }
      var r := orig.value;
      ordseq := IDLE;
      orig := None;
      finished := finished + 1;
      ended := ended + multiset(r.bios);
    }

    /** orig stands for orig_bar_rq only while a sequence runs, so the two must agree for a requeue. */
    method Insert(r0: Req, where: Where)
      requires where.InsertRequeue? ==> (ordseq == IDLE <==> orig.None?)
      modifies this
      ensures State() == RequestQueue.Insert(old(State()), r0, where)
    {
      var r := r0;
      match where
      case InsertFront =>
        r := r.(soft := true);
        head := [r] + head;
      case InsertBack =>
        r := r.(soft := true);
        DrainElevator();
        head := head + [r];
      case InsertSort =>
        r := r.(sorted := true);
        nrSorted := nrSorted + 1;
        if r.Mergeable() && lastMerge.None? { lastMerge := Some(r.id); }
        sched := sched + [r];
      case InsertRequeue =>
        r := r.(soft := true);
        if ordseq == IDLE {
          head := [r] + head;
        } else {
          var pos := RequeuePlace(r);
          head := head[..pos] + [r] + head[pos..];
        }
    }

    /** The scan for the place of a requeued request among the stages of the running sequence. */
    method RequeuePlace(r: Req) returns (pos: nat)
      requires orig.Some?
      ensures pos == RequeuePos(head, orig.value, ReqSeq(orig.value, r))
    {
      var seqno := ReqSeq(orig.value, r);
      pos := 0;
      while pos < |head| && seqno > ReqSeq(orig.value, head[pos])
        invariant 0 <= pos <= |head|
        invariant RequeuePos(head, orig.value, seqno) == pos + RequeuePos(head[pos..], orig.value, seqno)
      {
        assert head[pos..][1..] == head[pos + 1..];
        pos := pos + 1;
      }
    }

    method AddRequest(r0: Req, where0: Where, elvpriv: bool)
      requires !where0.InsertRequeue?
      modifies this
      ensures State() == RequestQueue.AddRequest(old(State()), r0, where0, elvpriv)
    {
      var r, where := r0, where0;
      if ordcolor { r := r.(color := true); }
      if r.soft || r.hard {
        if r.hard { ordcolor := !ordcolor; }
        if r.fs {
          endSector := r.End();
          boundary := Some(r.id);
        }
        if where.InsertSort? { where := InsertBack; }
      } else if !elvpriv && where.InsertSort? {
        where := InsertBack;
      }
      Insert(r, where);
    }

    method DequeueRequest(i: nat)
      requires i < |head|
      modifies this
      ensures State() == Dequeue(old(State()), i)
    {
      var r := head[i];
      head := head[..i] + head[i + 1..];
      if r.Account() { inFlight := inFlight + 1; }
    }

    /** queue_flush and the insertion of bar_rq: the prepared proxies go to the front of the queue, last stage first. */
    method QueueProxies(r: Req) returns (rq: Rid)
      modifies this`head, this`ordseq
      ensures head == Proxies(ordered, r) + old(head)
      ensures ordseq == Skipping(old(ordseq), ordered)
      ensures rq == FirstProxy(ordered)
    {
      rq := BarRq;
      if ordered.PostFlush() { head := [FlushRq(PostFlushRq).(soft := true)] + head; }
      else { ordseq := ordseq.(postflush := true); }
      head := [ProxyOf(r).(soft := true)] + head;
      if ordered.PreFlush() {
        head := [FlushRq(PreFlushRq).(soft := true)] + head;
        rq := PreFlushRq;
      } else {
        ordseq := ordseq.(preflush := true);
      }
    }

    /** The first half of start_ordered: the barrier leaves the queue and becomes orig_bar_rq. */
    method TakeBarrier() returns (r: Req)
      requires head != []
      modifies this
      ensures r == old(head[0])
      ensures State() == Dequeue(old(State()), 0).(ordered := old(nextOrdered), ordseq := old(ordseq).(started := true),
                                                   orig := Some(r))
    {
      ordered := nextOrdered;
      ordseq := ordseq.(started := true);
      r := head[0];
      DequeueRequest(0);
      orig := Some(r);
    }

    method StartOrdered() returns (rq: Option<Rid>)
      requires head != []
      modifies this
      ensures (State(), rq) == RequestQueue.StartOrdered(old(State()))
    {
      var r := TakeBarrier();
      var first := QueueProxies(r);
      rq := Some(first);
      if inFlight == 0 { ordseq := ordseq.(drain := true); }
      else { rq := None; }
    }

    method DoOrdered() returns (v: Verdict)
      requires head != [] && (ordseq != IDLE ==> orig.Some?)
      modifies this
      ensures (State(), v) == RequestQueue.DoOrdered(old(State()))
    {
      var r := head[0];
      var isBarrier := r.fs && r.hard;
      if ordseq == IDLE {
        if !isBarrier { return Give(Some(r.id)); }
        if !nextOrdered.OrderedNone? {
          var rq := StartOrdered();
          return Give(rq);
        }
        DequeueRequest(0);
        finished := finished + 1;
        ended := ended + multiset(r.bios);
        return Retry;
      }
      if !r.fs && !r.id.PreFlushRq? && !r.id.PostFlushRq? { return Give(Some(r.id)); }
      if ReqSeq(orig.value, r) > CurSeq(ordseq) { return Give(None); }
      return Give(Some(r.id));
    }

    method NextHead() returns (rq: Option<Rid>)
      requires ordseq != IDLE ==> orig.Some?
      modifies this
      ensures (State(), rq) == RequestQueue.NextHead(old(State()))
    {
      var more := true;
      while more
        invariant ordseq != IDLE ==> orig.Some?
        invariant RequestQueue.NextHead(State()) == RequestQueue.NextHead(old(State()))
        invariant !more ==> head == [] && sched == []
        decreases more, |sched| + |head|, |sched|
      {
        label LoopHead:
        while head != []
          invariant ordseq != IDLE ==> orig.Some?
          invariant RequestQueue.NextHead(State()) == RequestQueue.NextHead(old(State()))
          invariant |sched| + |head| <= old@LoopHead(|sched| + |head|) && |sched| == old@LoopHead(|sched|)
          decreases |head|
        {
          var v := DoOrdered();
          if v.Give? { return v.rq; }
        }
        more := NoopDispatch();
      }
      rq := None;
    }

    method MarkHead()
      requires head != []
      modifies this
      ensures State() == MarkStarted(old(State()))
    {
      var r := head[0];
      head := [r.(started := true)] + head[1..];
      if boundary.None? || boundary == Some(r.id) {
        endSector := r.End();
        boundary := None;
      }
    }

    method NextRequest() returns (rq: Option<Rid>)
      requires Inv(State()) && (Rejects(State()) ==> inFlight == 0)
      modifies this
      ensures (State(), rq) == Fetch(old(State())) && Inv(State())
    {
      FetchInv(State());
      NextHeadInv(State());
      SequenceModes(State());
      rq := NextHead();
      if rq.Some? { MarkHead(); }
    }

    /** The driver takes a request it was given off the queue. */
    method TakeOff(i: nat)
      requires Inv(State()) && i < |head| && head[i].started
      modifies this
      ensures State() == Take(old(State()), i) && Inv(State())
    {
      TakeInv(State(), i);
      var r := head[i];
      DequeueRequest(i);
      driver := driver + [r];
    }

    method CompletedRequest(r: Req)
      requires orig.Some? ==> ordseq.started
      modifies this
      ensures State() == RequestQueue.CompletedRequest(old(State()), r)
    {
      if r.Account() { inFlight := inFlight - 1; }
      CheckDrained();
    }

    /** end_that_request_last; the BUG_ON behind the proxies' callbacks cannot fire. */
    method EndRequest(i: nat)
      requires Inv(State()) && i < |driver|
      modifies this
      ensures State() == RequestQueue.EndRequest(old(State()), i) && Inv(State())
    {
      var r := driver[i];
      if r.id.Normal? {
        EndNormalInv(State(), i);
        driver := driver[..i] + driver[i + 1..];
        CompletedRequest(r);
        ended := ended + multiset(r.bios);
      } else {
        EndProxyInv(State(), i);
        ProxyIssued(State(), i);
        driver := driver[..i] + driver[i + 1..];
        CompletedRequest(r);
        CompleteSeq(StageOf(r.id));
      }
    }

    method Unissue(i: nat) returns (r: Req)
      requires i < |driver|
      modifies this
      ensures r == old(driver[i]).(started := false)
      ensures State() == old(State()).(driver := RemoveAt(old(driver), i),
                inFlight := if old(driver[i]).Account() then old(inFlight) - 1 else old(inFlight))
    {
      r := driver[i];
      driver := driver[..i] + driver[i + 1..];
      if r.Account() { inFlight := inFlight - 1; }
      r := r.(started := false);
    }

    method RequeueRequest(i: nat)
      requires Inv(State()) && i < |driver|
      modifies this
      ensures State() == RequestQueue.RequeueRequest(old(State()), i) && Inv(State())
    {
      StepInv(State(), Requeue(i));
      SequenceModes(State());
      var r := Unissue(i);
      Insert(r, InsertRequeue);
    }

    /** get_request_wait, init_request_from_bio and add_request for a bio that found nothing to merge with. */
    method Submit(id: nat, bio: nat, sector: nat, nr: nat, write: bool, barrier: bool, elvpriv: bool)
      modifies this
      ensures State() == SubmitRequest(old(State()), id, bio, sector, nr, write, barrier, elvpriv)
    {
      var epoch := barriers;
      var r := Req(Normal(id), true, write, barrier, false, false, false, false, barrier, sector, nr, [bio], epoch);
      AddRequest(r, InsertSort, elvpriv);
      barriers := if barrier then epoch + 1 else epoch;
      epochOf := epochOf[bio := epoch];
    }

    /** elv_merge_requests: the request at i absorbs its successor. */
    method Absorb(i: nat)
      requires i + 1 < |sched|
      modifies this
      ensures State() == Joined(old(State()), i)
    {
      var a, b := sched[i], sched[i + 1];
      sched := sched[..i] + [Join(a, b)] + sched[i + 2..];
      nrSorted := nrSorted - 1;
      lastMerge := Some(a.id);
    }

    /** The tail of elv_completed_request. */
    method CheckDrained()
      requires orig.Some? ==> ordseq.started
      modifies this
      ensures State() == DrainCheck(old(State()))
    {
      if orig.Some? && CurSeq(ordseq) == ORDSEQ_DRAIN && inFlight == 0 && head != []
         && ReqSeq(orig.value, head[0]) > ORDSEQ_DRAIN {
        CompleteSeq(StageDrain);
      }
    }

    method JoinRequests(i: nat)
      requires i + 1 < |sched| && (orig.Some? ==> ordseq.started)
      modifies this
      ensures State() == RequestQueue.JoinRequests(old(State()), i)
    {
      Absorb(i);
      CheckDrained();
    }

    method GrowAt(i: nat, g: Req, bio: nat)
      requires i < |sched|
      modifies this
      ensures State() == Grown(old(State()), i, g, bio)
    {
      sched := sched[i := g];
      epochOf := epochOf[bio := barriers];
    }

    method RefuseAt(i: nat)
      requires i < |sched|
      modifies this
      ensures State() == Refused(old(State()), i)
    {
      if lastMerge == Some(sched[i].id) { lastMerge := None; }
      sched := sched[i := sched[i].(nomerge := true)];
    }

    method Merge(bio: nat, sector: nat, nr: nat, write: bool, allow: bool, allowJoin: bool)
      requires CanMerge(State(), LastMerge(State()), sector, nr, write) && (orig.Some? ==> ordseq.started)
      modifies this
      ensures State() == MergeBio(old(State()), LastMerge(old(State())), bio, sector, nr, write, allow, allowJoin)
    {
      var i := IndexOf(sched, lastMerge.value);
      var r := sched[i];
      var kind := TryMerge(r, sector, nr, write);
      if !allow {
        RefuseAt(i);
        return;
      }
      var g := Grow(r, kind, bio, sector, nr);
      GrowAt(i, g, bio);
      if kind.BackMerge? && i + 1 < |sched| && MayJoin(g, sched[i + 1], allowJoin) {
        JoinRequests(i);
      } else if kind.FrontMerge? && i > 0 && MayJoin(sched[i - 1], g, allowJoin) {
        JoinRequests(i - 1);
      } else {
        lastMerge := Some(g.id);
      }
    }
  }
}
