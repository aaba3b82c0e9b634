/** What every step of the anticipatory scheduler keeps. */
module AsInvariant {
  import opened Wrappers
  import opened SortTree
  import opened AsChoice
  import opened AsScheduler

  // ---------------------------------------------------------------- the indexes of one direction

  lemma WithoutDisjoint(tree: seq<Rq>, p: nat)
    requires Disjoint(tree) && p < |tree|
    ensures Disjoint(Without(tree, p))
  {
    var t := Without(tree, p);
    assert forall i | 0 <= i < |t| :: t[i] == tree[if i < p then i else i + 1];
  }

  lemma MovedForm(s: Side, d: bool, r: Rq)
    requires Linked(s, d) && r in s.tree
    ensures Moved(s, r) == s.(last := r.End(), next := FindNext(r.End(), s.tree, Place(s.tree, r)),
                              tree := Without(s.tree, Place(s.tree, r)), fifo := Without(s.fifo, Place(s.fifo, r)))
  {
    FindNextOther(r.End(), s.tree, Place(s.tree, r));
  }

  lemma MovedLinked(s: Side, d: bool, r: Rq)
    requires Linked(s, d) && r in s.tree
    ensures Linked(Moved(s, r), d)
  {
    MovedForm(s, d, r);
    AgreeWithout(s.tree, s.fifo, r);
    FindNextOther(r.End(), s.tree, Place(s.tree, r));
  }

  lemma MovedBest(s: Side, d: bool, r: Rq)
    requires Linked(s, d) && Disjoint(s.tree) && r in s.tree
    ensures Disjoint(Moved(s, r).tree) && NextIsBest(Moved(s, r).last, Moved(s, r).tree, Moved(s, r).next)
  {
    MovedForm(s, d, r);
    WithoutDisjoint(s.tree, Place(s.tree, r));
    FindNextIsBest(s.tree, Place(s.tree, r));
  }

  ghost predicate Unaliased(s: Side, r: Rq) { forall x | x in s.tree :: x.sector != r.sector }

  lemma InsertDisjoint(tree: seq<Rq>, r: Rq)
    requires Sorted(tree) && Disjoint(tree)
    requires forall x | x in tree :: x.sector != r.sector && (x.End() <= r.sector || r.End() <= x.sector)
    ensures Disjoint(Insert(tree, r))
  {
    var p, t := Slot(tree, r.sector), Insert(tree, r);
    forall i, j | 0 <= i < j < |t| ensures t[i].End() <= t[j].sector {
      if i == p {
        assert t[j] == tree[j - 1] && tree[j - 1] in tree && tree[p].sector <= tree[j - 1].sector && tree[p] in tree;
      } else if j == p { assert t[i] == tree[i] && tree[i] in tree; }
      else { assert t[i] == tree[if i < p then i else i - 1] && t[j] == tree[if j < p then j else j - 1]; }
    }
  }

  lemma QueuedLinked(s: Side, d: bool, r: Rq)
    requires Linked(s, d) && Unaliased(s, r) && r.sync == d
    ensures Linked(Queued(s, r), d)
  {
    InsertSorted(s.tree, r);
    AgreeWith(s.tree, s.fifo, r);
  }

  lemma QueuedBest(s: Side, d: bool, r: Rq)
    requires Linked(s, d) && Unaliased(s, r) && NextIsBest(s.last, s.tree, s.next)
    ensures NextIsBest(s.last, Queued(s, r).tree, Queued(s, r).next)
  {
    var q := Queued(s, r);
    InsertSorted(s.tree, r);
    assert r in q.tree;
    if s.tree != [] {
      var b, x := s.next.value, q.next.value;
      forall y | y in q.tree ensures Choose(s.last, x, y) == x && Choose(s.last, y, x) == x {
        if y != r && y != b {
          SortedApart(s.tree, b, y);
          ChoiceIsTotalOrder(s.last, r, b, y);
          ChoiceIsTotalOrder(s.last, y, b, r);
        } else {
          ChoiceIsTotalOrder(s.last, r, b, Far(r, b));
        }
      }
    }
  }

  function Far(a: Rq, b: Rq): Rq { a.(sector := a.sector + b.sector + 1) }

  // ---------------------------------------------------------------- what a dispatch comes to

  /** b is ad with another batch state and other FIFO check times. */
  predicate Rebatched(ad: As, b: As) {
    b == ad.(sync := ad.sync.(lastCheck := b.sync.lastCheck), async := ad.async.(lastCheck := b.async.lastCheck),
             dir := b.dir, changed := b.changed, newBatch := b.newBatch, batchExpires := b.batchExpires,
             writeCount := b.writeCount, idled := b.idled)
  }

  predicate BatchKept(ad: As, b: As) {
    b.dir == ad.dir && b.changed == ad.changed && b.newBatch == ad.newBatch
  }

  /** The request r is sent to the dispatch queue from a, which is ad with its batch begun. */
  predicate Ready(ad: As, a: As, r: Rq) {
    && Rebatched(ad, a) && !ad.changed && !ad.Waiting() && !a.changed
    && r.sync == a.dir && r in a.Of(a.dir).tree
    && (a.dir != ad.dir ==> ad.nrDispatched == 0)
    && (a.newBatch ==> a.dir)
  }

  /** The batch turns round and waits for the other direction to drain. */
  predicate Turning(ad: As, b: As) {
    Rebatched(ad, b) && !ad.changed && !ad.Waiting() && b.changed && b.dir == !ad.dir && !b.newBatch && ad.nrDispatched != 0
  }

  /** Anticipation begins, with the process that issued the last read. */
  predicate Anticipating(ad: As, b: As) {
    var a := b.(antic := ad.antic, timer := ad.timer);
    Rebatched(ad, a) && BatchKept(ad, a) && !ad.changed && ad.ioc.Some? && ad.antic.Off? && b == AnticWaitReq(a)
  }

  predicate Held(ad: As, b: As) {
    (Rebatched(ad, b) && BatchKept(ad, b) && Blocked(ad)) || Anticipating(ad, b)
  }

  lemma FifoHead(s: Side, d: bool)
    requires Linked(s, d) && s.fifo != []
    ensures s.fifo[0] in s.tree && s.next.Some?
  {
    assert s.fifo[0] in s.fifo;
  }

  /** c is ad at the label dispatch_request, its batch kept or turned round. */
  predicate AtLabel(ad: As, c: As) {
    && Rebatched(ad, c) && !ad.changed && !ad.Waiting()
    && if c.dir == ad.dir then BatchKept(ad, c) && (ad.newBatch ==> ad.dir) else c.changed && !c.newBatch
  }

  lemma CheckedLabel(ad: As, c: As, now: int)
    requires AtLabel(ad, c)
    ensures AtLabel(ad, FifoChecked(c, c.dir, now))
  {
  }

  lemma BegunReady(ad: As, c: As, x: Rq, now: int)
    requires AtLabel(ad, c) && x.sync == c.dir && x in c.Of(c.dir).tree
    ensures if c.changed && c.nrDispatched != 0 then Turning(ad, c) else Ready(ad, BatchBegun(c, now), x)
    ensures BatchBegun(c, now).Of(x.sync).fifo == c.Of(x.sync).fifo
  {
  }

  /** The request that dispatch_request settles on. */
  function Settled(c: As, r: Rq, now: int): Rq {
    if FifoExpired(c, c.dir, now) then c.Of(c.dir).fifo[0] else r
  }

  lemma SettledQueued(c: As, r: Rq, now: int)
    requires Indexed(c) && r in c.Of(c.dir).tree
    ensures var x, t := Settled(c, r, now), FifoChecked(c, c.dir, now).Of(c.dir);
            x.sync == c.dir && x in t.tree && x in t.fifo
  {
    assert Linked(c.Of(c.dir), c.dir);
    if c.Of(c.dir).fifo != [] { FifoHead(c.Of(c.dir), c.dir); }
  }

  /** From dispatch_request on. */
  lemma ServedOutcome(ad: As, c: As, r: Rq, now: int) returns (a: As, x: Rq)
    requires Indexed(c) && AtLabel(ad, c) && r in c.Of(c.dir).tree
    ensures Outcome(ad, ServeOrExpired(c, r, now), a, x)
  {
    x := Settled(c, r, now);
    var c1 := FifoChecked(c, c.dir, now);
    a := BatchBegun(c1, now);
    SettledQueued(c, r, now);
    CheckedLabel(ad, c, now);
    BegunReady(ad, c1, x, now);
  }

  /** What as_dispatch_request's later labels lead to: a request sent from a, or a batch that turns round. */
  predicate Outcome(ad: As, res: (As, bool), a: As, x: Rq) {
    if res.1 then Ready(ad, a, x) && x in a.Of(x.sync).fifo && res.0 == MoveToDispatch(a, x) else Turning(ad, res.0)
  }

  lemma SwitchOutcome(ad: As, c: As, now: int) returns (a: As, x: Rq)
    requires Indexed(c) && Rebatched(ad, c) && BatchKept(ad, c) && !ad.changed && !ad.Waiting() && (ad.newBatch ==> ad.dir)
    requires c.sync.fifo != [] || c.async.fifo != []
    requires c.Of(c.dir).fifo == [] || c.Of(!c.dir).fifo != []
    ensures Outcome(ad, SwitchBatch(c, now), a, x)
  {
    if c.sync.fifo != [] && !(c.async.fifo != [] && c.dir) {
      FifoHead(c.sync, true);
      a, x := ServedOutcome(ad, ToReads(c, now), c.sync.fifo[0], now);
    } else {
      FifoHead(c.async, false);
      a, x := ServedOutcome(ad, ToWrites(c), c.async.next.value, now);
    }
  }

  lemma ExtendedLabel(ad: As, c: As, now: int)
    requires AtLabel(ad, c) && Indexed(c)
    ensures AtLabel(ad, Extended(c, now)) && Indexed(Extended(c, now)) && Extended(c, now).Of(c.dir) == c.Of(c.dir)
    ensures Extended(c, now).dir == c.dir
  {
  }

  lemma ContinueOutcome(ad: As, c: As, now: int) returns (a: As, x: Rq)
    requires Indexed(c) && Rebatched(ad, c) && BatchKept(ad, c) && !ad.changed && !ad.Waiting() && (ad.newBatch ==> ad.dir)
    requires c.sync.fifo != [] || c.async.fifo != []
    ensures Outcome(ad, ContinueBatch(c, now), a, x)
  {
    if c.Of(c.dir).next.None? {
      if c.Of(c.dir).fifo != [] { FifoHead(c.Of(c.dir), c.dir); }
      a, x := SwitchOutcome(ad, c, now);
    } else {
      ExtendedLabel(ad, c, now);
      assert Linked(c.Of(c.dir), c.dir);
      a, x := ServedOutcome(ad, Extended(c, now), c.Of(c.dir).next.value, now);
    }
  }

  lemma ReadBatchOutcome(ad: As, c: As, now: int, hint: bool) returns (a: As, x: Rq)
    requires Indexed(c) && Rebatched(ad, c) && BatchKept(ad, c) && !ad.changed && !ad.Waiting() && (ad.newBatch ==> ad.dir)
    requires (c.sync.fifo != [] || c.async.fifo != []) && c.dir
    ensures var res := ReadBatch(c, now, hint); Outcome(ad, res, a, x) || (!res.1 && Anticipating(ad, res.0))
  {
    var c1 := FifoChecked(c, true, now);
    CheckedLabel(ad, c, now);
    if FifoExpired(c, true, now) {
      FifoHead(c.sync, true);
      a, x := BatchBegun(c1, now), c.sync.fifo[0];
      BegunReady(ad, c1, x, now);
    } else if CanAnticipate(c1, c.sync.next, now, hint) {
      a, x := ad, Rq(0, true, 0, 0, None, 0);
    } else {
      a, x := ContinueOutcome(ad, c1, now);
    }
  }

  lemma DispatchOutcome(ad: As, now: int, hint: bool) returns (a: As, x: Rq)
    requires Indexed(ad) && (ad.newBatch ==> ad.dir)
    ensures var res := Dispatch(ad, now, hint); Outcome(ad, res, a, x) || (!res.1 && Held(ad, res.0))
  {
    var c := Signalled(ad);
    if Blocked(c) {
      a, x := ad, Rq(0, true, 0, 0, None, 0);
    } else if c.sync.fifo != [] && c.async.fifo != [] && BatchExpired(c, now) {
      a, x := SwitchOutcome(ad, c, now);
    } else if c.dir && c.tun.antic != 0 {
      a, x := ReadBatchOutcome(ad, c, now, hint);
    } else {
      a, x := ContinueOutcome(ad, c, now);
    }
  }
}
