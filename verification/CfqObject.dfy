/**
  cfq_data as one object that the scheduler updates in place.  The BUG_ONs of the source are
  preconditions of the methods, and every caller below meets them.
 */
module CfqObject {
  import opened Wrappers
  import opened SortTree
  import opened CfqLists
  import opened CfqRotation
  import opened CfqQueues
  import opened CfqInvariant
  import opened CfqTheorems
  import opened CfqPreempt

  lemma {:induction false} CountedIn(s: seq<Rq>, r: Rq)
    requires r in s
    ensures CountSync(s, r.sync) > 0
  {
    if s[0] != r { CountedIn(s[1..], r); }
  }

  /** The requests pending in all queues. */
  function Pending(queues: seq<Cfqq>): multiset<Rq> {
    if queues == [] then multiset{} else multiset(queues[0].tree) + Pending(queues[1..])
  }

  lemma {:induction false} PendingUpdate(queues: seq<Cfqq>, i: nat, q: Cfqq)
    requires i < |queues|
    ensures Pending(queues[i := q]) + multiset(queues[i].tree) == Pending(queues) + multiset(q.tree)
  {
    if i == 0 {
      assert queues[i := q][1..] == queues[1..];
    } else {
      assert queues[i := q][1..] == queues[1..][i - 1 := q];
      PendingUpdate(queues[1..], i - 1, q);
      var a, b, b' := multiset(queues[0].tree), Pending(queues[1..]), Pending(queues[1..][i - 1 := q]);
      assert queues[i := q][0] == queues[0] && queues[1..][i - 1] == queues[i];
      assert (a + b') + multiset(queues[i].tree) == a + (b' + multiset(queues[i].tree));
      assert (a + b) + multiset(q.tree) == a + (b + multiset(q.tree));
    }
  }

  lemma PendingSame(queues: seq<Cfqq>, i: nat, q: Cfqq)
    requires i < |queues| && q.tree == queues[i].tree
    ensures Pending(queues[i := q]) == Pending(queues)
  {
    PendingUpdate(queues, i, q);
    Cancel(Pending(queues[i := q]), Pending(queues), multiset(q.tree));
  }

  lemma {:induction false} NothingPending(queues: seq<Cfqq>)
    requires forall i | 0 <= i < |queues| :: queues[i].tree == []
    ensures Pending(queues) == multiset{}
  {
    if queues != [] { NothingPending(queues[1..]); }
  }

  lemma Ready(c: Cfqd, i: nat, r: Rq)
    requires Inv(c) && i < |c.queues| && r in c.queues[i].tree
    ensures Loose(c.queues[i]) && Excess(c.queues[i], r.sync) >= 0 && r in c.queues[i].fifo
  {
    assert Sane(c.queues[i]);
  }

  lemma Cancel(m: multiset<Rq>, n: multiset<Rq>, b: multiset<Rq>)
    requires m + b == n + b
    ensures m == n
  {
    forall x ensures m[x] == n[x] {
      assert (m + b)[x] == m[x] + b[x] && (n + b)[x] == n[x] + b[x];
    }
  }

  lemma SentPending(pol: Policy, queues: seq<Cfqq>, i: nat, r: Rq)
    requires i < |queues| && r in queues[i].tree && r in queues[i].fifo
    ensures Pending(queues[i := Sent(pol, queues[i], r)]) + multiset{r} == Pending(queues)
    ensures |Sent(pol, queues[i], r).tree| == |queues[i].tree| - 1
  {
    WithoutOne(queues[i].tree, Place(queues[i].tree, r));
    PendingUpdate(queues, i, Sent(pol, queues[i], r));
    var a, b := Pending(queues[i := Sent(pol, queues[i], r)]), multiset(Sent(pol, queues[i], r).tree);
    assert a + (b + multiset{r}) == Pending(queues) + b;
    assert (a + multiset{r}) + b == Pending(queues) + b;
    Cancel(a + multiset{r}, Pending(queues), b);
  }

  lemma EmptyQueue(q: Cfqq)
    requires Sane(q) && q.next.None?
    ensures q.tree == [] && q.fifo == [] && !q.onRr
  {
    if q.fifo != [] { HeadQueued(q); }
  }

  lemma HeadQueued(q: Cfqq)
    requires Sane(q) && q.fifo != []
    ensures q.fifo[0] in q.tree
  {
    assert q.fifo[0] in q.fifo;
  }

  lemma AllDrained(c: Cfqd)
    requires Inv(c) && forall k | 0 <= k < EMPTY :: c.lists[k] == []
    ensures c.busyQueues == 0 && Pending(c.queues) == multiset{}
    ensures forall i | 0 <= i < |c.queues| :: c.queues[i].tree == [] && c.queues[i].fifo == []
  {
    BusyMeansListed(c);
    BusySome(c.queues);
    forall i | 0 <= i < |c.queues| ensures c.queues[i].tree == [] && c.queues[i].fifo == [] {
      assert Sane(c.queues[i]);
      EmptyQueue(c.queues[i]);
    }
    NothingPending(c.queues);
  }

  /** No queue appears on a service list it was not on. */
  predicate Shrunk(was: seq<seq<nat>>, now: seq<seq<nat>>) {
    |was| == LISTS == |now| && forall l, x | 0 <= l < EMPTY && x in now[l] :: x in was[l]
  }

  lemma DispatchShrinks(c: Cfqd, i: nat, r: Rq)
    requires Bounded(c) && i < |c.queues| && r in c.queues[i].tree && r in c.queues[i].fifo
    ensures Shrunk(c.lists, CfqQueues.DispatchInsert(c, i, r).lists)
  {
    UnlinkCount(c.lists, i, i);
    var ls := Link(Unlink(c.lists, i), EMPTY, 0, i);
    forall l, x | 0 <= l < EMPTY && x in ls[l] ensures x in c.lists[l] { InDrop(c.lists[l], i, x); }
    var c1 := Put(c, i, Unlisted(c.pol, c.queues[i], r));
    assert DelRb(c1, i, r).lists == c.lists || DelRb(c1, i, r).lists == ls;
  }

  lemma ShrunkEmpty(was: seq<seq<nat>>, now: seq<seq<nat>>, l: nat)
    requires Shrunk(was, now) && l < EMPTY && was[l] == []
    ensures now[l] == []
  {
    if now[l] != [] { HeadListed(was, now, l); }
  }

  lemma HeadListed(was: seq<seq<nat>>, now: seq<seq<nat>>, l: nat)
    requires Shrunk(was, now) && l < EMPTY && now[l] != []
    ensures now[l][0] in was[l]
  {
  }

  lemma FoundWhenBusy(c: Cfqd, grace: bool)
    requires Inv(c)
    ensures SetActive(c, grace).active.None? ==> c.busyQueues <= 0 || !grace
  {
    ActivateFinds(c, grace);
    BusyMeansListed(c);
    if k :| 0 <= k < EMPTY && c.lists[k] != [] { assert k < IDLE || k == IDLE; }
  }

  class CfqData {
    var queues: seq<Cfqq>
    var lists: seq<seq<nat>>
    var busyQueues: int
    var turn: Turn
    var active: Option<nat>
    var sent: seq<Rq>
    const pol: Policy

    function State(): Cfqd
      reads this
    {
      Cfqd(queues, lists, busyQueues, turn, active, sent, pol)
    }

    constructor (pol: Policy)
      ensures State() == Fresh(pol) && Inv(State())
    {
      queues, lists := [], [[], [], [], [], [], [], [], [], [], [], [], []];
      busyQueues, turn, active, sent := 0, Turn(0, 0), None, [];
      this.pol := pol;
      new;
      FreshInv(pol);
    }

    /** The backward scan of cfq_resort_rr_list. */
    method SortPlace(list: seq<nat>, t: int) returns (entry: nat)
      requires forall k | 0 <= k < |list| :: list[k] < |queues|
      ensures entry == SortSpot(queues, list, t)
    {
      entry := |list|;
      assert list[..entry] == list;
      while entry > 0 && queues[list[entry - 1]].serviceLast != 0 && queues[list[entry - 1]].serviceLast >= t
        invariant 0 <= entry <= |list|
        invariant SortSpot(queues, list, t) == SortSpot(queues, list[..entry], t)
      {
        assert list[..entry][..entry - 1] == list[..entry - 1];
        entry := entry - 1;
      }
      assert entry > 0 ==> list[..entry][entry - 1] == list[entry - 1];
    }

    method ResortRrList(i: nat, preempted: bool)
      requires Bounded(State()) && i < |queues| && queues[i].onRr
      modifies this`lists
      ensures State() == Resort(old(State()), i, preempted)
    {
      UnlinkBounded(lists, i, |queues|);
      lists := Unlink(lists, i);
      var q := queues[i];
      var home := if q.cls.RealTime? then CUR else if q.cls.IdleClass? then IDLE else if q.Out() != 0 then BUSY else q.prio;
      var list := lists[home];
      assert forall k | 0 <= k < |list| :: list[k] in list;
      var entry := |list|;
      if preempted {
        if list != [] { entry := |list| - 1; }
      } else if home != BUSY {
        entry := SortPlace(list, q.serviceLast);
      }
      lists := lists[home := list[..entry] + [i] + list[entry..]];
    }

    method AddCfqqRr(i: nat)
      requires Bounded(State()) && i < |queues| && !queues[i].onRr
      modifies this
      ensures State() == AddRr(old(State()), i)
    {
      queues := queues[i := queues[i].(onRr := true)];
      busyQueues := busyQueues + 1;
      ResortRrList(i, false);
    }

    method DelCfqqRr(i: nat)
      requires |lists| == LISTS && i < |queues| && queues[i].onRr && busyQueues != 0
      modifies this
      ensures State() == DelRr(old(State()), i)
    {
      UnlinkCount(lists, i, i);
      queues := queues[i := queues[i].(onRr := false)];
      lists := Unlink(lists, i);
      assert lists[EMPTY][..0] + [i] + lists[EMPTY][0..] == [i] + lists[EMPTY];
      lists := lists[EMPTY := [i] + lists[EMPTY]];
      busyQueues := busyQueues - 1;
    }

    /** What cfq_del_crq_rb does to the queue itself. */
    method Erase(q0: Cfqq, r: Rq) returns (q: Cfqq)
      requires r in q0.tree
      ensures q == Erased(pol, q0, r)
    {
      q := q0;
      if r.sync { q := q.(queuedSync := q.queuedSync - 1); } else { q := q.(queuedAsync := q.queuedAsync - 1); }
      if q.next == Some(r) { q := q.(next := FindNext(pol, q.tree, r)); }
      q := q.(tree := Without(q.tree, Place(q.tree, r)));
    }

    method DelCrqRb(i: nat, r: Rq)
      requires Listed(State()) && Bounded(State()) && i < |queues| && r in queues[i].tree
      requires if r.sync then queues[i].queuedSync != 0 else queues[i].queuedAsync != 0
      modifies this
      ensures State() == DelRb(old(State()), i, r)
    {
      var onRr := queues[i].onRr;
      var q := Erase(queues[i], r);
      PutListed(State(), i, q);
      queues := queues[i := q];
      if onRr && q.tree == [] {
        BusySome(queues);
        assert queues[i].onRr;
        DelCfqqRr(i);
      }
    }

    method DispatchInsert(i: nat, r: Rq)
      requires Listed(State()) && i < |queues| && Loose(queues[i]) && r in queues[i].tree
      requires Excess(queues[i], r.sync) >= 0
      modifies this
      ensures Bounded(old(State())) && r in old(queues[i]).fifo
      ensures State() == CfqQueues.DispatchInsert(old(State()), i, r)
    {
      ListedBounded(State());
      CountedIn(queues[i].tree, r);
      DispatchForm(State(), i, r);
      var q := queues[i];
      q := q.(next := FindNext(pol, q.tree, r));
      q := q.(fifo := Without(q.fifo, Place(q.fifo, r)));
      PutListed(State(), i, q);
      queues := queues[i := q];
      DelCrqRb(i, r);
      Account(i, r);
    }

    method Account(i: nat, r: Rq)
      requires i < |queues|
      modifies this
      ensures State() == Put(old(State()), i, Issued(old(queues[i]), r.sync, 1)).(sent := old(sent) + [r])
    {
      var q := queues[i];
      if r.sync { q := q.(outSync := q.outSync + 1); } else { q := q.(outAsync := q.outAsync + 1); }
      queues := queues[i := q];
      sent := sent + [r];
    }

    /** The loop over aliases in cfq_add_crq_rb. */
    method EvictAliases(i: nat, s: nat)
      requires Listed(State()) && i < |queues| && Loose(queues[i])
      requires Excess(queues[i], true) >= 0 && Excess(queues[i], false) >= 0
      modifies this
      ensures Bounded(old(State())) && State() == Evict(old(State()), i, s)
    {
      ListedBounded(State());
      EvictForm(State(), i, s);
      EvictedLoose(pol, queues[i], s);
      AliasFound(queues[i].tree, s);
      var alias := Alias(queues[i].tree, s);
      while alias.Some?
        invariant |queues| == old(|queues|) && alias == Alias(queues[i].tree, s)
        invariant if alias.Some? then State() == old(State()) else State() == Evict(old(State()), i, s)
        decreases alias.Some?
      {
        DispatchInsert(i, alias.value);
        AliasFound(queues[i].tree, s);
        alias := Alias(queues[i].tree, s);
      }
    }

    method AddCrqRb(i: nat, r: Rq)
      requires Listed(State()) && i < |queues| && Loose(queues[i])
      requires Excess(queues[i], true) >= 0 && Excess(queues[i], false) >= 0
      modifies this
      ensures Bounded(old(State())) && State() == AddRb(old(State()), i, r)
    {
      ListedBounded(State());
      var q := queues[i];
      QueuedLoose(q, r.sync, 1);
      PutListed(State(), i, Queued(q, r.sync, 1));
      EvictForm(Put(State(), i, Queued(q, r.sync, 1)), i, r.sector);
      queues := queues[i := Queued(q, r.sync, 1)];
      EvictAliases(i, r.sector);
      Enter(i, r);
    }

    method Enter(i: nat, r: Rq)
      requires Listed(State()) && i < |queues|
      modifies this
      ensures Bounded(old(State())) && State() == Entered(old(State()), i, r)
    {
      ListedBounded(State());
      queues := queues[i := queues[i].(tree := SortTree.Insert(queues[i].tree, r))];
      if !queues[i].onRr { AddCfqqRr(i); }
      queues := queues[i := queues[i].(next := ChooseReq(pol, queues[i].next, Some(r)))];
    }

    method InsertRequest(i: nat, r: Rq)
      requires Inv(State()) && i < |queues| && FreshId(queues[i], r.id)
      modifies this
      ensures State() == CfqQueues.InsertRequest(old(State()), i, r) && Inv(State())
    {
      InsertInv(State(), i, r);
      AddForm(State(), i, r);
      AddCrqRb(i, r);
      queues := queues[i := queues[i].(fifo := queues[i].fifo + [r])];
    }

    /** cfq_merged_request; the queue may leave the service lists and come back in the same call. */
    method MergedRequest(i: nat, r: Rq, g: Rq)
      requires Inv(State()) && i < |queues| && r in queues[i].tree && g.id == r.id && g.sync == r.sync
      modifies this
      ensures State() == CfqQueues.MergedRequest(old(State()), i, r, g) && Inv(State())
    {
      MergedInv(State(), i, r, g);
      var q := queues[i];
      if g.sector == r.sector {
        queues := queues[i := Replaced(q, r, g)];
      } else {
        LiftedLoose(pol, q, r, g);
        LiftedCounts(pol, q, r, g);
        PutListed(State(), i, Lifted(pol, q, r, g));
        queues := queues[i := Lifted(pol, q, r, g)];
        AddCrqRb(i, g);
      }
    }

    /** One turn of the loop of __cfq_dispatch_requests, or of a forced dispatch. */
    method SendOne(i: nat, r: Rq)
      requires Inv(State()) && i < |queues| && r in queues[i].tree
      modifies this
      ensures Inv(State()) && active == old(active) && sent == old(sent) + [r]
      ensures queues == old(queues)[i := Sent(pol, old(queues[i]), r)]
      ensures Shrunk(old(lists), lists)
    {
      Ready(State(), i, r);
      ListedBounded(State());
      DispatchShrinks(State(), i, r);
      DispatchInv(State(), i, r);
      DispatchSends(State(), i, r);
      Ready(State(), i, r);
      DispatchInsert(i, r);
    }

    /** The same, counting: what is sent is what the queues no longer hold. */
    method SendCounted(i: nat, r: Rq)
      requires Inv(State()) && i < |queues| && r in queues[i].tree
      modifies this
      ensures Inv(State()) && active == old(active) && sent == old(sent) + [r]
      ensures |queues| == old(|queues|) && queues == old(queues)[i := queues[i]] && Shrunk(old(lists), lists)
      ensures |queues[i].tree| == old(|queues[i].tree|) - 1
      ensures multiset(sent) + Pending(queues) == old(multiset(sent) + Pending(queues))
    {
      assert Sane(queues[i]);
      SentPending(pol, queues, i, r);
      ghost var s := sent;
      SendOne(i, r);
      assert multiset(s + [r]) == multiset(s) + multiset{r};
    }

    /** cfq_check_fifo. */
    method CheckFifo(i: nat, now: int) returns (r: Option<Rq>)
      requires Inv(State()) && i < |queues|
      modifies this`queues
      ensures Inv(State()) && |queues| == old(|queues|)
      ensures queues == old(queues)[i := old(queues[i]).(checked := queues[i].checked)]
      ensures r.Some? ==> r.value in queues[i].tree && !old(queues[i]).checked && queues[i].checked
                          && r.value == queues[i].fifo[0] && now > r.value.time + if queues[i].own then pol.fifoSync else pol.fifoAsync
    {
      r := None;
      assert Sane(queues[i]);
      assert queues == queues[i := queues[i]];
      if queues[i].checked { return; }
      if queues[i].fifo != [] {
        var x := queues[i].fifo[0];
        if now > x.time + (if queues[i].own then pol.fifoSync else pol.fifoAsync) {
          assert x in queues[i].fifo;
          var q := queues[i].(checked := true);
          PutListed(State(), i, q);
          PutInv(State(), Put(State(), i, q), i, q);
          queues := queues[i := q];
          r := Some(x);
        }
      }
    }

    /** __cfq_dispatch_requests up to the slice bookkeeping: the BUG_ON asks for a queue with requests. */
    method DispatchRequests(i: nat, maxDispatch: nat, now: int) returns (dispatched: nat)
      requires Inv(State()) && i < |queues| && queues[i].tree != []
      modifies this
      ensures Inv(State()) && |queues| == old(|queues|)
      ensures 1 <= dispatched <= old(|queues[i].tree|) && (dispatched <= maxDispatch || dispatched == 1)
      ensures queues[i].tree == [] || dispatched >= maxDispatch
      ensures |sent| == old(|sent|) + dispatched && sent[..old(|sent|)] == old(sent)
      ensures multiset(sent) + Pending(queues) == old(multiset(sent) + Pending(queues))
    {
      dispatched := 0;
      var more := true;
      while more
        invariant Inv(State()) && |queues| == old(|queues|)
        invariant more ==> queues[i].tree != []
        invariant dispatched + |queues[i].tree| == old(|queues[i].tree|)
        invariant more ==> dispatched < maxDispatch || dispatched == 0
        invariant !more ==> dispatched >= 1 && (queues[i].tree == [] || dispatched >= maxDispatch)
        invariant dispatched <= maxDispatch || dispatched <= 1
        invariant |sent| == old(|sent|) + dispatched && sent[..old(|sent|)] == old(sent)
        invariant multiset(sent) + Pending(queues) == old(multiset(sent) + Pending(queues))
        decreases more, |queues[i].tree|
      {
        SendNext(i, now);
        dispatched := dispatched + 1;
        more := queues[i].tree != [] && dispatched < maxDispatch;
      }
    }

    /** An expired request first, else next_crq. */
    method SendNext(i: nat, now: int)
      requires Inv(State()) && i < |queues| && queues[i].tree != []
      modifies this
      ensures Inv(State()) && |queues| == old(|queues|)
      ensures |queues[i].tree| == old(|queues[i].tree|) - 1
      ensures |sent| == old(|sent|) + 1 && sent[..old(|sent|)] == old(sent)
      ensures multiset(sent) + Pending(queues) == old(multiset(sent) + Pending(queues))
    {
      var r := CheckFifo(i, now);
      PendingSame(old(queues), i, queues[i]);
      assert Sane(queues[i]);
      if r.None? { r := queues[i].next; }
      SendCounted(i, r.value);
    }

    /** The inner loop of cfq_forced_dispatch_cfqqs. */
    method DrainQueue(i: nat) returns (dispatched: nat)
      requires Inv(State()) && i < |queues|
      modifies this
      ensures Inv(State()) && |queues| == old(|queues|)
      ensures queues[i].tree == [] && queues[i].fifo == [] && !queues[i].onRr
      ensures queues == old(queues)[i := queues[i]] && Shrunk(old(lists), lists)
      ensures |sent| == old(|sent|) + dispatched
      ensures multiset(sent) + Pending(queues) == old(multiset(sent) + Pending(queues))
    {
      dispatched := 0;
      while queues[i].next.Some?
        invariant Inv(State()) && |queues| == old(|queues|)
        invariant queues == old(queues)[i := queues[i]] && Shrunk(old(lists), lists)
        invariant |sent| == old(|sent|) + dispatched
        invariant multiset(sent) + Pending(queues) == old(multiset(sent) + Pending(queues))
        decreases |queues[i].tree|
      {
        assert Sane(queues[i]);
        SendCounted(i, queues[i].next.value);
        dispatched := dispatched + 1;
      }
      EmptyQueue(queues[i]);
    }

    /** cfq_forced_dispatch without the closing slice expiry: its BUG_ONs do not fire, and every request is sent once. */
    method ForcedDispatch() returns (dispatched: nat)
      requires Inv(State())
      modifies this
      ensures Inv(State()) && busyQueues == 0
      ensures forall i | 0 <= i < |queues| :: queues[i].tree == [] && queues[i].fifo == []
      ensures multiset(sent) == old(multiset(sent) + Pending(queues))
      ensures |sent| == old(|sent|) + dispatched
    {
      dispatched := 0;
      var k := 0;
      while k < EMPTY
        invariant 0 <= k <= EMPTY
        invariant Inv(State())
        invariant forall l | 0 <= l < k :: lists[l] == []
        invariant |sent| == old(|sent|) + dispatched
        invariant multiset(sent) + Pending(queues) == old(multiset(sent) + Pending(queues))
      {
        ghost var before := lists;
        var n := DrainList(k);
        forall l | 0 <= l < k ensures lists[l] == [] { ShrunkEmpty(before, lists, l); }
        dispatched := dispatched + n;
        k := k + 1;
      }
      AllDrained(State());
    }

    /** cfq_forced_dispatch_cfqqs: each queue it drains leaves the list. */
    method DrainList(k: nat) returns (dispatched: nat)
      requires Inv(State()) && k < EMPTY
      modifies this
      ensures Inv(State()) && lists[k] == [] && Shrunk(old(lists), lists)
      ensures |sent| == old(|sent|) + dispatched
      ensures multiset(sent) + Pending(queues) == old(multiset(sent) + Pending(queues))
    {
      dispatched := 0;
      while lists[k] != []
        invariant Inv(State()) && Shrunk(old(lists), lists)
        invariant |sent| == old(|sent|) + dispatched
        invariant multiset(sent) + Pending(queues) == old(multiset(sent) + Pending(queues))
        decreases busyQueues
      {
        var i := lists[k][0];
        ServedHasRequests(State(), k, i);
        ghost var before := queues;
        assert Sane(queues[i]);
        var n := DrainQueue(i);
        BusyUpdate(before, i, queues[i]);
        dispatched := dispatched + n;
      }
    }

    method SliceExpired(preempted: bool, now: int)
      requires Inv(State())
      modifies this
      ensures State() == CfqQueues.SliceExpired(old(State()), preempted, now) && Inv(State()) && active.None?
      ensures sent == old(sent) && busyQueues == old(busyQueues) && Pending(queues) == old(Pending(queues))
    {
      SliceInv(State(), preempted, now);
      if active.Some? { PendingSame(queues, active.value, queues[active.value].(serviceLast := now)); }
      if active.Some? {
        ListedBounded(State());
        var i := active.value;
        var onRr := queues[i].onRr;
        if !preempted && queues[i].Out() == 0 { queues := queues[i := queues[i].(serviceLast := now)]; }
        if onRr { ResortRrList(i, preempted); }
        active := None;
      }
    }

    /** One round of the loop. */
    method PutBack(i: nat) returns (next: Option<nat>)
      requires Inv(State()) && i in lists[CUR]
      modifies this`lists
      ensures Inv(State()) && (next.Some? ==> next.value in lists[CUR]) && next == Behind(old(lists)[CUR], i)
      ensures lists[CUR] == CfqPreempt.Moved(old(lists)[CUR], i, i in Staying(old(State())))
    {
      next := Behind(lists[CUR], i);
      RoundOn(State(), i);
      ResortIsMoved(State(), i);
      CurServed(State(), i);
      ResortRrList(i, true);
    }

    /** The loop remembers the queue to come before it resorts the one at hand; n rounds are enough. */
    method PutAllBack(ghost n0: nat)
      requires Inv(State()) && Walk(lists[CUR], First(lists[CUR]), Staying(State()), n0).1.None?
      modifies this`lists
      ensures Inv(State())
    {
      ghost var n := n0;
      var cur := First(lists[CUR]);
      while cur.Some?
        invariant Inv(State()) && (cur.Some? ==> cur.value in lists[CUR])
        invariant Walk(lists[CUR], cur, Staying(State()), n).1.None?
        decreases n
      {
        WalkOn(lists[CUR], cur.value, Staying(State()), n);
        cur := PutBack(cur.value);
        n := n - 1;
      }
    }

    method BecomeActive(i: nat)
      requires Inv(State()) && i < |queues|
      modifies this
      ensures Bounded(old(State())) && State() == TakeOver(old(State()), i) && Inv(State())
      ensures sent == old(sent) && busyQueues == old(busyQueues) && Pending(queues) == old(Pending(queues))
    {
      TakeOverInv(State(), i);
      PendingSame(queues, i, queues[i].(checked := false));
      PutListed(State(), i, queues[i].(checked := false));
      queues := queues[i := queues[i].(checked := false)];
      ListedBounded(State());
      if queues[i].onRr { ResortRrList(i, true); }
      active := Some(i);
    }

    /** cfq_preempt_queue, where its loop ends: `PreemptEndsExactly`. */
    method PreemptQueue(i: nat)
      requires Inv(State()) && i < |queues| && RealTimeBeforeLast(State()) <= 1
      modifies this
      ensures Inv(State()) && active == Some(i)
      ensures sent == old(sent) && busyQueues == old(busyQueues) && Pending(queues) == old(Pending(queues))
    {
      ListDistinct(State(), CUR);
      ghost var n := EndsSoon(lists[CUR], Staying(State()));
      PutAllBack(n);
      BecomeActive(i);
    }

    /** cfq_get_next_prio_level when cur_rr has run empty. */
    method FillCur()
      requires Inv(State())
      modifies this`turn, this`lists
      ensures Inv(State())
      ensures State() == if old(lists)[CUR] != [] then old(State()) else NextPrioLevel(old(State()))
    {
      if lists[CUR] == [] {
        NextPrioInv(State());
        var (t, level) := NextLevel(turn, WaitingLevels(State()));
        turn := t;
        if level != -1 { lists := Splice(lists, level, CUR); }
      }
    }

    method SetActiveQueue(grace: bool) returns (x: Option<nat>)
      requires Inv(State())
      modifies this
      ensures State() == SetActive(old(State()), grace) && Inv(State()) && x == active
      ensures x.Some? ==> x.value < |queues| && queues[x.value].tree != []
      ensures x.None? ==> old(busyQueues) <= 0 || !grace
      ensures sent == old(sent) && Pending(queues) == old(Pending(queues))
    {
      ActivateInv(State(), grace);
      FoundWhenBusy(State(), grace);
      FillCur();
      PickedServed(State(), grace);
      x := Pick(State(), grace);
      if x.Some? {
        PendingSame(queues, x.value, queues[x.value].(checked := false));
        queues := queues[x.value := queues[x.value].(checked := false)];
      }
      active := x;
    }

    /** cfq_select_queue: `over` says that the slice is over, `wait` that the scheduler idles for the owner. */
    method SelectQueue(over: bool, wait: bool, grace: bool, now: int) returns (x: Option<nat>)
      requires Inv(State())
      modifies this
      ensures Inv(State())
      ensures x.Some? ==> x.value < |queues| && queues[x.value].tree != []
      ensures x.None? ==> old(busyQueues) <= 0 || wait || !grace
      ensures sent == old(sent) && Pending(queues) == old(Pending(queues))
    {
      if active.Some? {
        if !over {
          if queues[active.value].tree != [] { return active; }
          if wait { return None; }
        }
        SliceExpired(false, now);
      }
      x := SetActiveQueue(grace);
    }

    /** cfq_dispatch_requests, not forced; `used` says that an async queue has used up its slice. */
    method Dispatch(over: bool, wait: bool, grace: bool, quantum: nat, used: bool, now: int) returns (dispatched: nat)
      requires Inv(State())
      modifies this
      ensures Inv(State())
      ensures |sent| == old(|sent|) + dispatched
      ensures multiset(sent) + Pending(queues) == old(multiset(sent) + Pending(queues))
      ensures dispatched == 0 ==> old(busyQueues) <= 0 || wait || !grace
    {
      if busyQueues == 0 { return 0; }
      var x := SelectQueue(over, wait, grace, now);
      if x.None? { return 0; }
      var idle := queues[x.value].cls.IdleClass?;
      dispatched := DispatchRequests(x.value, if idle then 1 else quantum, now);
      if used || idle { SliceExpired(false, now); }
    }
  }
}
