/** Every step of the deadline scheduler keeps its four indexes in agreement. */
module DeadlineInvariant {
  import opened Wrappers
  import opened SortTree
  import opened DeadlineScheduler

  // ---------------------------------------------------------------- the invariants

  /** What is on the hash is queued and in its bucket; what is queued and mergeable is on the hash. */
  ghost predicate HashOk(dd: Dl) {
    && |dd.hash| == BUCKETS
    && (forall b, r | 0 <= b < BUCKETS && r in dd.hash[b] :: dd.Holds(r) && Bucket(dd.tun, r.End()) == b)
    && (forall r | dd.Holds(r) && dd.Mergeable(r) :: r in dd.hash[Bucket(dd.tun, r.End())])
  }

  lemma HashSame(a: Dl, b: Dl)
    requires HashOk(a) && b.hash == a.hash && b.nomerge == a.nomerge && b.tun == a.tun
    requires forall x :: a.Holds(x) <==> b.Holds(x)
    ensures HashOk(b)
  {
    forall k, r | 0 <= k < BUCKETS && r in b.hash[k] ensures b.Holds(r) && Bucket(b.tun, r.End()) == k {
      assert r in a.hash[k] && a.Holds(r);
    }
    forall r | b.Holds(r) && b.Mergeable(r) ensures r in b.hash[Bucket(b.tun, r.End())] {
      assert a.Holds(r) && a.Mergeable(r);
    }
  }

  ghost predicate ByDeadline(fifo: seq<Rq>) {
    forall i, j | 0 <= i < j < |fifo| :: fifo[i].time <= fifo[j].time
  }

  /** The FIFOs are sorted by deadline and no deadline lies further ahead than the expiry time allows. */
  ghost predicate Timely(dd: Dl, now: int) {
    && ByDeadline(dd.rd.fifo) && ByDeadline(dd.wr.fifo)
    && (forall r | r in dd.rd.fifo :: r.time <= now + dd.tun.readExpire)
    && (forall r | r in dd.wr.fifo :: r.time <= now + dd.tun.writeExpire)
  }

  // ---------------------------------------------------------------- removing a request

  lemma {:induction false} DropIn(chain: seq<Rq>, r: Rq, x: Rq)
    ensures x in Drop(chain, r) <==> x in chain && x != r
  {
    if chain != [] {
      DropIn(chain[1..], r, x);
      assert chain == [chain[0]] + chain[1..];
    }
  }

  lemma DelRbLinked(s: Side, read: bool, r: Rq)
    requires Linked(s, read) && r in s.tree
    ensures var t := DelRb(s.(fifo := Without(s.fifo, Place(s.fifo, r))), r);
            && Linked(t, read)
            && (forall x :: x in t.tree <==> x in s.tree && x != r)
            && (forall x :: x in t.fifo <==> x in s.fifo && x != r)
            && t.fifo == Without(s.fifo, Place(s.fifo, r))
            && t.next == (if s.next == Some(r) then RbNext(s.tree, r) else s.next)
  {
    SortedDistinct(s.tree);
    IdsAreDistinct(s.fifo);
    PlaceUnique(s.tree, r);
    PlaceUnique(s.fifo, r);
    WithoutSorted(s.tree, Place(s.tree, r));
    IdsWithout(s.fifo, Place(s.fifo, r));
    NextStays(s.tree, r);
  }

  lemma RemoveSides(dd: Dl, r: Rq)
    requires |dd.hash| == BUCKETS && r in dd.Of(r.sync).tree && r in dd.Of(r.sync).fifo
    ensures var d, s := Remove(dd, r), dd.Of(r.sync);
            && d.Of(r.sync) == DelRb(s.(fifo := Without(s.fifo, Place(s.fifo, r))), r) && d.Of(!r.sync) == dd.Of(!r.sync)
            && d == dd.(rd := d.rd, wr := d.wr, hash := d.hash)
            && d.hash == dd.hash[Bucket(dd.tun, r.End()) := Drop(dd.hash[Bucket(dd.tun, r.End())], r)]
  {
  }

  lemma RemoveReady(dd: Dl, r: Rq)
    requires Ready(dd) && r in dd.Of(r.sync).tree
    ensures r in dd.Of(r.sync).fifo && Ready(Remove(dd, r))
    ensures forall x :: Remove(dd, r).Holds(x) <==> dd.Holds(x) && x != r
    ensures Inv(dd) ==> Inv(Remove(dd, r))
  {
    var s := dd.Of(r.sync);
    assert Linked(s, r.sync);
    DelRbLinked(s, r.sync, r);
    RemoveSides(dd, r);
    assert r !in dd.Of(!r.sync).fifo;
  }

  lemma RemoveHash(dd: Dl, r: Rq)
    requires Ready(dd) && HashOk(dd) && r in dd.Of(r.sync).tree
    ensures r in dd.Of(r.sync).fifo && HashOk(Remove(dd, r))
  {
    RemoveReady(dd, r);
    RemoveSides(dd, r);
    var d, b := Remove(dd, r), Bucket(dd.tun, r.End());
    forall x ensures x in d.hash[b] <==> x in dd.hash[b] && x != r { DropIn(dd.hash[b], r, x); }
    forall c, x | 0 <= c < BUCKETS && x in d.hash[c] ensures d.Holds(x) && Bucket(d.tun, x.End()) == c {
      assert x in dd.hash[c];
    }
    forall x | d.Holds(x) && d.Mergeable(x) ensures x in d.hash[Bucket(d.tun, x.End())] {
      assert x in dd.hash[Bucket(dd.tun, x.End())];
    }
  }

  lemma ByDeadlineWithout(fifo: seq<Rq>, p: nat)
    requires ByDeadline(fifo) && p < |fifo|
    ensures ByDeadline(Without(fifo, p))
  {
    var t := Without(fifo, p);
    assert forall i | 0 <= i < |t| :: t[i] == fifo[if i < p then i else i + 1];
  }

  lemma RemoveTimely(dd: Dl, r: Rq, now: int)
    requires Ready(dd) && Timely(dd, now) && r in dd.Of(r.sync).tree
    ensures r in dd.Of(r.sync).fifo && Timely(Remove(dd, r), now)
  {
    RemoveReady(dd, r);
    RemoveSides(dd, r);
    ByDeadlineWithout(dd.Of(r.sync).fifo, Place(dd.Of(r.sync).fifo, r));
    var f := Without(dd.Of(r.sync).fifo, Place(dd.Of(r.sync).fifo, r));
    assert forall x | x in f :: x in dd.Of(r.sync).fifo;
  }

  // ---------------------------------------------------------------- sending a request

  /** The state in which deadline_move_request takes r off. */
  function Aimed(dd: Dl, r: Rq): Dl
    requires r in dd.Of(r.sync).tree
  {
    var next := RbNext(dd.Of(r.sync).tree, r);
    dd.(rd := dd.rd.(next := if r.sync then next else None), wr := dd.wr.(next := if r.sync then None else next),
        lastSector := r.End())
  }

  lemma AimedReady(dd: Dl, r: Rq)
    requires Ready(dd) && r in dd.Of(r.sync).tree
    ensures Ready(Aimed(dd, r)) && (Inv(dd) ==> Inv(Aimed(dd, r)))
    ensures Aimed(dd, r).rd.fifo == dd.rd.fifo && Aimed(dd, r).wr.fifo == dd.wr.fifo
    ensures Aimed(dd, r).rd.tree == dd.rd.tree && Aimed(dd, r).wr.tree == dd.wr.tree
    ensures HashOk(dd) ==> HashOk(Aimed(dd, r))
    ensures forall now :: Timely(dd, now) ==> Timely(Aimed(dd, r), now)
  {
    assert Linked(dd.Of(r.sync), r.sync);
    NextStays(dd.Of(r.sync).tree, r);
    if HashOk(dd) { HashSame(dd, Aimed(dd, r)); }
  }

  /** What sending r leaves behind. */
  lemma MoveKeeps(dd: Dl, r: Rq, now: int)
    requires Ready(dd) && r in dd.Of(r.sync).tree
    ensures r in dd.Of(r.sync).fifo
    ensures var d := MoveRequest(dd, r);
            && Ready(d) && (Inv(dd) ==> Inv(d))
            && (HashOk(dd) ==> HashOk(d))
            && (Timely(dd, now) ==> Timely(d, now))
            && (forall x :: d.Holds(x) <==> dd.Holds(x) && x != r)
            && d.sent == dd.sent + [r]
  {
    AimedReady(dd, r);
    var a := Aimed(dd, r);
    RemoveReady(a, r);
    RemoveSides(a, r);
    if HashOk(dd) { RemoveHash(a, r); }
    if Timely(dd, now) { RemoveTimely(a, r, now); }
    assert MoveRequest(dd, r) == Remove(a, r).(sent := dd.sent + [r]);
    SentElsewhere(Remove(a, r), dd.sent + [r], now);
  }

  lemma SentElsewhere(dd: Dl, s: seq<Rq>, now: int)
    ensures Ready(dd) ==> Ready(dd.(sent := s))
    ensures Inv(dd) ==> Inv(dd.(sent := s))
    ensures HashOk(dd) ==> HashOk(dd.(sent := s))
    ensures Timely(dd, now) ==> Timely(dd.(sent := s), now)
    ensures forall x :: dd.(sent := s).Holds(x) <==> dd.Holds(x)
  {
    if HashOk(dd) { HashSame(dd, dd.(sent := s)); }
  }

  // ---------------------------------------------------------------- adding a request

  predicate OneNext(dd: Dl) { dd.rd.next.None? || dd.wr.next.None? }

  lemma MoveSides(dd: Dl, r: Rq)
    requires Ready(dd) && r in dd.Of(r.sync).tree && r in dd.Of(r.sync).fifo
    ensures var d := MoveRequest(dd, r);
            && (forall x :: x in d.Of(r.sync).tree <==> x in dd.Of(r.sync).tree && x != r)
            && (forall x :: x in d.Of(r.sync).fifo <==> x in dd.Of(r.sync).fifo && x != r)
            && d.Of(!r.sync).tree == dd.Of(!r.sync).tree && d.Of(!r.sync).fifo == dd.Of(!r.sync).fifo
            && d.tun == dd.tun && d.nomerge == dd.nomerge && OneNext(d)
            && d.batching == dd.batching && d.starved == dd.starved
  {
    AimedReady(dd, r);
    var a := Aimed(dd, r);
    assert Linked(a.Of(r.sync), r.sync);
    RemoveSides(a, r);
    DelRbLinked(a.Of(r.sync), r.sync, r);
  }

  lemma EvictKeeps(dd: Dl, read: bool, s: nat, now: int)
    requires Ready(dd)
    ensures var e := Evict(dd, read, s);
            && Ready(e) && (OneNext(dd) ==> OneNext(e)) && e.tun == dd.tun && e.nomerge == dd.nomerge
            && (HashOk(dd) ==> HashOk(e)) && (Timely(dd, now) ==> Timely(e, now))
            && e.batching == dd.batching && e.starved == dd.starved
  {
    assert Linked(dd.Of(read), read);
    AliasFound(dd.Of(read).tree, s);
    var a := Alias(dd.Of(read).tree, s);
    if a.Some? {
      MoveKeeps(dd, a.value, now);
      MoveSides(dd, a.value);
    }
  }

  lemma EvictSides(dd: Dl, read: bool, s: nat)
    requires Ready(dd)
    ensures var e := Evict(dd, read, s);
            && (forall x :: x in e.Of(read).tree <==> x in dd.Of(read).tree && x.sector != s)
            && (forall x :: x in e.Of(read).fifo <==> x in dd.Of(read).fifo && (x.sector != s || x !in dd.Of(read).tree))
            && e.Of(!read).tree == dd.Of(!read).tree && e.Of(!read).fifo == dd.Of(!read).fifo
  {
    assert Linked(dd.Of(read), read);
    AliasFound(dd.Of(read).tree, s);
    var a := Alias(dd.Of(read).tree, s);
    if a.Some? {
      MoveSides(dd, a.value);
      forall x | x in dd.Of(read).tree && x.sector == s ensures x == a.value {
        if x != a.value { SortedApart(dd.Of(read).tree, x, a.value); }
      }
    }
  }

  ghost predicate FreshId(dd: Dl, id: nat) {
    (forall x | x in dd.rd.fifo :: x.id != id) && (forall x | x in dd.wr.fifo :: x.id != id)
  }

  /** A request enters the tree of its direction at a free sector, and the FIFO. */
  function Entered(s: Side, r: Rq): Side { s.(tree := Insert(s.tree, r), fifo := s.fifo + [r]) }

  lemma EnteredLinked(s: Side, read: bool, r: Rq)
    requires Linked(s, read) && r.sync == read
    requires (forall x | x in s.tree :: x.sector != r.sector) && (forall x | x in s.fifo :: x.id != r.id)
    ensures Linked(Entered(s, r), read)
    ensures forall x :: x in Entered(s, r).tree <==> x == r || x in s.tree
  {
    InsertSorted(s.tree, r);
    var f := s.fifo + [r];
    forall i, j | 0 <= i < j < |f| ensures f[i].id != f[j].id {
      if j == |s.fifo| { assert s.fifo[i] in s.fifo; }
    }
  }

  /** The state after the tree and the FIFO have taken r, before the hash. */
  function Placed(dd: Dl, r: Rq): Dl
    requires Ready(dd)
  {
    Enlist(AddRb(dd, r), r)
  }

  lemma PlacedForm(dd: Dl, r: Rq)
    requires Ready(dd)
    ensures var e, d := Evict(dd, r.sync, r.sector), Placed(dd, r);
            d == e.With(r.sync, Entered(e.Of(r.sync), r))
  {
  }

  lemma EnteredInv(e: Dl, r: Rq)
    requires Inv(e) && FreshId(e, r.id) && forall x | x in e.Of(r.sync).tree :: x.sector != r.sector
    ensures Inv(e.With(r.sync, Entered(e.Of(r.sync), r)))
  {
    assert Linked(e.Of(r.sync), r.sync);
    EnteredLinked(e.Of(r.sync), r.sync, r);
  }

  lemma EnteredTimely(e: Dl, r: Rq, t: int, now: int)
    requires Timely(e, t) && t <= now && r.time == now + e.Expire(r.sync)
    ensures Timely(e.With(r.sync, Entered(e.Of(r.sync), r)), now)
  {
    var f := e.Of(r.sync).fifo + [r];
    forall i, j | 0 <= i < j < |f| ensures f[i].time <= f[j].time {
      assert f[i] in e.Of(r.sync).fifo;
    }
  }

  lemma EvictInv(dd: Dl, read: bool, s: nat)
    requires Inv(dd)
    ensures Inv(Evict(dd, read, s))
  {
    assert Linked(dd.Of(read), read);
    AliasFound(dd.Of(read).tree, s);
    var a := Alias(dd.Of(read).tree, s);
    if a.Some? { MoveKeeps(dd, a.value, 0); }
  }

  lemma PlacedKeeps(dd: Dl, r: Rq, t: int, now: int)
    requires Inv(dd) && Timely(dd, t) && t <= now && FreshId(dd, r.id) && r.time == now + dd.Expire(r.sync)
    ensures var d := Placed(dd, r);
            && Inv(d) && Timely(d, now) && |d.hash| == BUCKETS
            && d.tun == dd.tun && d.nomerge == dd.nomerge
            && d.hash == Evict(dd, r.sync, r.sector).hash
            && (forall x :: d.Holds(x) <==> x == r || Evict(dd, r.sync, r.sector).Holds(x))
  {
    var e := Evict(dd, r.sync, r.sector);
    EvictInv(dd, r.sync, r.sector);
    EvictKeeps(dd, r.sync, r.sector, t);
    EvictSides(dd, r.sync, r.sector);
    PlacedForm(dd, r);
    EnteredInv(e, r);
    EnteredTimely(e, r, t, now);
  }

  lemma AddHashOk(dd: Dl, e: Dl, r: Rq)
    requires HashOk(e) && dd.hash == e.hash && dd.tun == e.tun && dd.nomerge == e.nomerge
    requires forall x :: dd.Holds(x) <==> x == r || e.Holds(x)
    ensures HashOk(if dd.Mergeable(r) then AddHash(dd, r) else dd)
  {
    var d := if dd.Mergeable(r) then AddHash(dd, r) else dd;
    assert d.rd == dd.rd && d.wr == dd.wr && d.tun == e.tun;
    forall b, x | 0 <= b < BUCKETS && x in d.hash[b] ensures d.Holds(x) && Bucket(d.tun, x.End()) == b {
      if x in e.hash[b] { assert e.Holds(x) && dd.Holds(x); } else { assert x == r && dd.Holds(r); }
    }
    forall x | d.Holds(x) && d.Mergeable(x) ensures x in d.hash[Bucket(d.tun, x.End())] {
      if x != r { assert e.Holds(x) && x in e.hash[Bucket(e.tun, x.End())]; }
    }
  }

  lemma AddKeeps(dd: Dl, r0: Rq, t: int, now: int)
    requires Inv(dd) && HashOk(dd) && Timely(dd, t) && t <= now && FreshId(dd, r0.id)
    ensures var d := AddRequest(dd, r0, now); Inv(d) && HashOk(d) && Timely(d, now)
  {
    var r := Stamped(dd, r0, now);
    PlacedKeeps(dd, r, t, now);
    EvictKeeps(dd, r.sync, r.sector, t);
    AddHashOk(Placed(dd, r), Evict(dd, r.sync, r.sector), r);
    if Placed(dd, r).Mergeable(r) { HashedElsewhere(Placed(dd, r), r, now); }
  }

  lemma HashedElsewhere(dd: Dl, r: Rq, now: int)
    requires |dd.hash| == BUCKETS
    ensures Inv(dd) ==> Inv(AddHash(dd, r))
    ensures Timely(dd, now) ==> Timely(AddHash(dd, r), now)
  {
  }

  // ---------------------------------------------------------------- merging

  lemma RehashedOk(dd: Dl, r: Rq, g: Rq, d: Dl)
    requires HashOk(dd) && d.hash == Rehashed(dd, r, g).hash && d.tun == dd.tun && d.nomerge == dd.nomerge
    requires forall x :: d.Holds(x) <==> x == g || (dd.Holds(x) && x != r)
    ensures HashOk(d)
  {
    var b := Bucket(dd.tun, r.End());
    var c := Bucket(dd.tun, g.End());
    forall x ensures x in Drop(dd.hash[b], r) <==> x in dd.hash[b] && x != r { DropIn(dd.hash[b], r, x); }
    var h := DelHash(dd, r).hash;
    assert d.hash == h[c := [g] + h[c]];
    forall k, x | 0 <= k < BUCKETS && x in d.hash[k] ensures d.Holds(x) && Bucket(d.tun, x.End()) == k {
      assert x in h[k] ==> x in dd.hash[k];
    }
    forall x | d.Holds(x) && d.Mergeable(x) ensures x in d.hash[Bucket(d.tun, x.End())] {
      if x != g { assert dd.Holds(x) && x in dd.hash[Bucket(dd.tun, x.End())]; }
    }
  }

  lemma ReplacedLinked(s: Side, r: Rq, g: Rq)
    requires Linked(s, r.sync) && r in s.tree && r in s.fifo && g.id == r.id && g.sync == r.sync && g.sector == r.sector
    ensures Linked(Replaced(s, r, g), r.sync)
    ensures forall x :: x in Replaced(s, r, g).tree <==> x == g || (x in s.tree && x != r)
    ensures forall x :: x in Replaced(s, r, g).fifo <==> x == g || (x in s.fifo && x != r)
  {
    SortedDistinct(s.tree);
    IdsAreDistinct(s.fifo);
    ReplacedIn(s.tree, r, g);
    ReplacedIn(s.fifo, r, g);
    ReplacedSorted(s.tree, r, g);
    ReplacedIds(s.fifo, r, g);
    var t, f := s.tree[Place(s.tree, r) := g], s.fifo[Place(s.fifo, r) := g];
    assert Replaced(s, r, g).tree == t && Replaced(s, r, g).fifo == f;
    forall x | x in t ensures x in f && x.sync == r.sync {
      if x == g { assert f[Place(s.fifo, r)] == g; } else { assert x in s.tree && x != r && x in s.fifo; }
    }
  }

  lemma ReplacedTimes(fifo: seq<Rq>, r: Rq, g: Rq)
    requires r in fifo && g.time == r.time && ByDeadline(fifo)
    ensures ByDeadline(fifo[Place(fifo, r) := g])
  {
    var p, f := Place(fifo, r), fifo[Place(fifo, r) := g];
    forall i, j | 0 <= i < j < |f| ensures f[i].time <= f[j].time {
      assert fifo[i].time <= fifo[j].time;
    }
  }

  /** One side changed, its FIFO holding g in place of r. */
  lemma SwappedReady(dd: Dl, d: Dl, r: Rq, g: Rq)
    requires Ready(dd) && r in dd.Of(r.sync).fifo && g.id == r.id && g.sync == r.sync
    requires Linked(d.Of(r.sync), r.sync) && d.Of(!r.sync) == dd.Of(!r.sync) && |d.hash| == BUCKETS
    requires forall x :: x in d.Of(r.sync).fifo <==> x == g || (x in dd.Of(r.sync).fifo && x != r)
    ensures Ready(d)
    ensures forall x :: d.Holds(x) <==> x == g || (dd.Holds(x) && x != r)
  {
    assert Linked(d.Of(!r.sync), !r.sync);
    assert r !in dd.Of(!r.sync).fifo;
  }

  lemma SwappedTimely(dd: Dl, d: Dl, r: Rq, g: Rq, now: int)
    requires Timely(dd, now) && r in dd.Of(r.sync).fifo && g.time == r.time && d.tun == dd.tun
    requires d.Of(r.sync).fifo == dd.Of(r.sync).fifo[Place(dd.Of(r.sync).fifo, r) := g]
    requires d.Of(!r.sync).fifo == dd.Of(!r.sync).fifo
    ensures Timely(d, now)
  {
    ReplacedTimes(dd.Of(r.sync).fifo, r, g);
    assert forall x | x in d.Of(r.sync).fifo :: x == g || x in dd.Of(r.sync).fifo;
  }

  predicate Grown(r: Rq, g: Rq) { g.id == r.id && g.sync == r.sync && g.time == r.time }

  lemma BackMergeKeeps(dd: Dl, r: Rq, g: Rq, now: int)
    requires Inv(dd) && HashOk(dd) && Timely(dd, now) && r in dd.Of(r.sync).tree && Grown(r, g) && g.sector == r.sector
    ensures r in dd.Of(r.sync).fifo
    ensures var d := MergedRequest(dd, r, g); Inv(d) && HashOk(d) && Timely(d, now)
  {
    assert Linked(dd.Of(r.sync), r.sync);
    var d := MergedRequest(dd, r, g);
    ReplacedLinked(dd.Of(r.sync), r, g);
    assert d.Of(r.sync) == Replaced(dd.Of(r.sync), r, g);
    SwappedReady(dd, d, r, g);
    RehashedOk(dd, r, g, d);
    SwappedTimely(dd, d, r, g, now);
  }

  /** The state of a front merge between the removal from the tree and the insertion. */
  function Floating(dd: Dl, r: Rq, g: Rq): Dl
    requires |dd.hash| == BUCKETS && r in dd.Of(r.sync).tree && r in dd.Of(r.sync).fifo
  {
    Rehashed(dd, r, g).With(r.sync, Lifted(dd.Of(r.sync), r, g))
  }

  lemma FloatingKeeps(dd: Dl, r: Rq, g: Rq, now: int)
    requires Inv(dd) && HashOk(dd) && Timely(dd, now) && r in dd.Of(r.sync).tree && r in dd.Of(r.sync).fifo && Grown(r, g)
    ensures var f := Floating(dd, r, g);
            && Ready(f) && OneNext(f) && HashOk(f) && Timely(f, now)
            && f.Of(!r.sync) == dd.Of(!r.sync) && f.Of(r.sync) == Lifted(dd.Of(r.sync), r, g)
  {
    assert Linked(dd.Of(r.sync), r.sync);
    var f := Floating(dd, r, g);
    LiftedLinked(dd.Of(r.sync), r, g);
    SwappedReady(dd, f, r, g);
    RehashedOk(dd, r, g, f);
    SwappedTimely(dd, f, r, g, now);
  }

  function Settled(e: Dl, g: Rq): Dl { e.With(g.sync, e.Of(g.sync).(tree := Insert(e.Of(g.sync).tree, g))) }

  predicate Full(s: Side) { forall x | x in s.fifo :: x in s.tree }

  lemma SettledInv(e: Dl, g: Rq)
    requires Ready(e) && OneNext(e) && g in e.Of(g.sync).fifo
    requires forall x | x in e.Of(g.sync).tree :: x.sector != g.sector
    requires forall x | x in e.Of(g.sync).fifo :: x == g || x in e.Of(g.sync).tree
    requires Full(e.Of(!g.sync))
    ensures Inv(Settled(e, g))
  {
    assert Linked(e.Of(g.sync), g.sync) && Linked(e.Of(!g.sync), !g.sync);
    InsertSorted(e.Of(g.sync).tree, g);
    var d := Settled(e, g);
    assert Linked(d.Of(g.sync), g.sync) && Linked(d.Of(!g.sync), !g.sync);
  }

  lemma SettledElsewhere(e: Dl, g: Rq, now: int)
    ensures HashOk(e) ==> HashOk(Settled(e, g))
    ensures Timely(e, now) ==> Timely(Settled(e, g), now)
  {
    if HashOk(e) { HashSame(e, Settled(e, g)); }
  }

  /** A front merge that runs into an alias sends the alias away and still leaves all four indexes in agreement. */
  lemma FrontMergeKeeps(dd: Dl, r: Rq, g: Rq, now: int)
    requires Inv(dd) && HashOk(dd) && Timely(dd, now) && r in dd.Of(r.sync).tree && Grown(r, g) && g.sector != r.sector
    ensures r in dd.Of(r.sync).fifo
    ensures var d := MergedRequest(dd, r, g); Inv(d) && HashOk(d) && Timely(d, now)
  {
    assert Linked(dd.Of(r.sync), r.sync);
    FloatingKeeps(dd, r, g, now);
    var f := Floating(dd, r, g);
    LiftedLinked(dd.Of(r.sync), r, g);
    EvictKeeps(f, g.sync, g.sector, now);
    EvictSides(f, g.sync, g.sector);
    FloatingApart(dd, r, g);
    var e := Evict(f, g.sync, g.sector);
    SettledInv(e, g);
    SettledElsewhere(e, g, now);
    assert MergedRequest(dd, r, g) == Settled(e, g);
  }

  lemma FloatingApart(dd: Dl, r: Rq, g: Rq)
    requires Inv(dd) && r in dd.Of(r.sync).tree && r in dd.Of(r.sync).fifo && Grown(r, g)
    ensures var s := Lifted(dd.Of(r.sync), r, g);
            g in s.fifo && g !in s.tree && forall x | x in s.fifo :: x == g || x in s.tree
  {
    var s := dd.Of(r.sync);
    assert Linked(s, r.sync);
    LiftedLinked(s, r, g);
    forall x | x in s.tree && x != r ensures x.id != r.id {
      var k :| 0 <= k < |s.fifo| && s.fifo[k] == x;
      var p := Place(s.fifo, r);
      assert if k < p then s.fifo[k].id != s.fifo[p].id else s.fifo[p].id != s.fifo[k].id;
    }
  }

  lemma MergeKeeps(dd: Dl, r: Rq, g: Rq, now: int)
    requires Inv(dd) && HashOk(dd) && Timely(dd, now) && r in dd.Of(r.sync).tree && Grown(r, g)
    ensures r in dd.Of(r.sync).fifo
    ensures var d := MergedRequest(dd, r, g); Inv(d) && HashOk(d) && Timely(d, now)
  {
    if g.sector == r.sector { BackMergeKeeps(dd, r, g, now); } else { FrontMergeKeeps(dd, r, g, now); }
  }

  // ---------------------------------------------------------------- two requests become one

  lemma {:induction false} RenamedIn(chain: seq<Rq>, g: Rq, h: Rq, x: Rq)
    ensures x in Renamed(chain, g, h) <==> (x in chain && x != g) || (x == h && g in chain)
  {
    if chain != [] {
      RenamedIn(chain[1..], g, h, x);
      assert chain == [chain[0]] + chain[1..];
    }
  }

  lemma TakeOverHash(dd: Dl, d: Dl, g: Rq, h: Rq)
    requires HashOk(dd) && h.id == g.id && h.End() == g.End() && d.tun == dd.tun && d.nomerge == dd.nomerge
    requires var b := Bucket(dd.tun, g.End()); d.hash == dd.hash[b := Renamed(dd.hash[b], g, h)]
    requires forall x :: d.Holds(x) <==> x == h || (dd.Holds(x) && x != g)
    requires dd.Holds(g)
    ensures HashOk(d)
  {
    var b := Bucket(dd.tun, g.End());
    forall x ensures x in d.hash[b] <==> (x in dd.hash[b] && x != g) || (x == h && g in dd.hash[b]) {
      RenamedIn(dd.hash[b], g, h, x);
    }
    forall k, x | 0 <= k < BUCKETS && x in d.hash[k] ensures d.Holds(x) && Bucket(d.tun, x.End()) == k {
      assert k != b ==> x in dd.hash[k];
    }
    forall x | d.Holds(x) && d.Mergeable(x) ensures x in d.hash[Bucket(d.tun, x.End())] {
      if x != h { assert dd.Holds(x) && x in dd.hash[Bucket(dd.tun, x.End())]; }
    }
  }

  lemma MoveBehindTimes(fifo: seq<Rq>, h: Rq, n: Rq)
    requires h in fifo && n in fifo && h != n && h.time == n.time && ByDeadline(Without(fifo, Place(fifo, h)))
    ensures ByDeadline(MoveBehind(fifo, h, n))
  {
    StillIn(fifo, h, n);
    var t := Without(fifo, Place(fifo, h));
    var p := Place(t, n) + 1;
    var f := MoveBehind(fifo, h, n);
    assert f == t[..p] + [h] + t[p..];
    forall i, j | 0 <= i < j < |f| ensures f[i].time <= f[j].time {
      if i == p { assert f[j] == t[j - 1] && t[p - 1].time <= t[j - 1].time; }
      else if j == p { assert f[i] == t[i] && (i < p - 1 ==> t[i].time <= t[p - 1].time); }
      else { assert t[if i < p then i else i - 1].time <= t[if j < p then j else j - 1].time; }
    }
  }

  /** The FIFO after g, now with the deadline of n, has moved behind n. */
  lemma TakeOverFifo(fifo: seq<Rq>, g: Rq, n: Rq)
    requires IdsDistinct(fifo) && g in fifo && n in fifo && g.id != n.id
    ensures var h := g.(time := n.time);
            var f := fifo[Place(fifo, g) := h];
            && h in f && n in f && h != n && IdsDistinct(MoveBehind(f, h, n))
            && (forall x :: x in MoveBehind(f, h, n) <==> x == h || (x in fifo && x != g))
            && (ByDeadline(fifo) ==> ByDeadline(MoveBehind(f, h, n)))
  {
    var h := g.(time := n.time);
    var p := Place(fifo, g);
    var f := fifo[p := h];
    IdsAreDistinct(fifo);
    StaysIn(fifo, g, h, n);
    ReplacedIn(fifo, g, h);
    MoveBehindIn(f, h, n);
    if ByDeadline(fifo) {
      IdsAreDistinct(f);
      assert f[p] == h && f[Place(f, h)] == h;
      assert Place(f, h) == p;
      assert Without(f, p) == Without(fifo, p);
      ByDeadlineWithout(fifo, p);
      MoveBehindTimes(f, h, n);
    }
  }

  lemma TakeOverSide(s: Side, g: Rq, n: Rq)
    requires Linked(s, g.sync) && Full(s) && g in s.tree && n in s.fifo && g.id != n.id
    ensures g in s.fifo
    ensures var h := g.(time := n.time);
            var t := Replaced(s, g, h);
            && h in t.fifo && n in t.fifo && h != n
            && var u := t.(fifo := MoveBehind(t.fifo, h, n));
               && Linked(u, g.sync) && Full(u)
               && (forall x :: x in u.fifo <==> x == h || (x in s.fifo && x != g))
               && (ByDeadline(s.fifo) ==> ByDeadline(u.fifo))
  {
    ReplacedLinked(s, g, g.(time := n.time));
    TakeOverFifo(s.fifo, g, n);
  }

  lemma TakeOverTimely(dd: Dl, d: Dl, g: Rq, h: Rq, n: Rq, now: int)
    requires Timely(dd, now) && n in dd.Of(g.sync).fifo && h.time == n.time && d.tun == dd.tun
    requires d.Of(!g.sync) == dd.Of(!g.sync) && ByDeadline(d.Of(g.sync).fifo)
    requires forall x :: x in d.Of(g.sync).fifo <==> x == h || (x in dd.Of(g.sync).fifo && x != g)
    ensures Timely(d, now)
  {
  }

  lemma TakeOverKeeps(dd: Dl, g: Rq, n: Rq, now: int)
    requires Inv(dd) && HashOk(dd) && Timely(dd, now) && g in dd.Of(g.sync).tree && n in dd.Of(g.sync).fifo && g.id != n.id
    requires n.sync == g.sync
    ensures g in dd.Of(g.sync).fifo
    ensures var d := TakeOver(dd, g, n); Inv(d) && HashOk(d) && Timely(d, now) && n in d.Of(g.sync).tree
  {
    var s := dd.Of(g.sync);
    assert Linked(s, g.sync) && Full(s);
    TakeOverSide(s, g, n);
    var d, h := TakeOver(dd, g, n), g.(time := n.time);
    SwappedReady(dd, d, g, h);
    TakeOverHash(dd, d, g, h);
    TakeOverTimely(dd, d, g, h, n, now);
  }

  /** After r has become g, g is queued, and so is every other request of the direction not at g's sector. */
  lemma MergedStay(dd: Dl, r: Rq, g: Rq, n: Rq)
    requires Inv(dd) && r in dd.Of(r.sync).tree && r in dd.Of(r.sync).fifo && Grown(r, g)
    requires n in dd.Of(r.sync).tree && n != r && n.sector != g.sector
    ensures var d := MergedRequest(dd, r, g);
            g in d.Of(r.sync).tree && n in d.Of(r.sync).tree && n.id != g.id
  {
    var s := dd.Of(r.sync);
    assert Linked(s, r.sync);
    assert n.id != r.id by {
      var k :| 0 <= k < |s.fifo| && s.fifo[k] == n;
      var p := Place(s.fifo, r);
      assert if k < p then s.fifo[k].id != s.fifo[p].id else s.fifo[p].id != s.fifo[k].id;
    }
    if g.sector == r.sector {
      ReplacedLinked(s, r, g);
      assert g in Replaced(s, r, g).tree && n in Replaced(s, r, g).tree;
      assert MergedRequest(dd, r, g).Of(r.sync) == Replaced(s, r, g);
    } else {
      LiftedLinked(s, r, g);
      var f := Rehashed(dd, r, g).With(r.sync, Lifted(s, r, g));
      FloatingReady(dd, r, g);
      EvictSides(f, g.sync, g.sector);
      var e := Evict(f, g.sync, g.sector);
      EvictKeeps(f, g.sync, g.sector, 0);
      assert Linked(e.Of(g.sync), g.sync);
      InsertSorted(e.Of(g.sync).tree, g);
    }
  }

  lemma FloatingReady(dd: Dl, r: Rq, g: Rq)
    requires Inv(dd) && r in dd.Of(r.sync).tree && r in dd.Of(r.sync).fifo && Grown(r, g)
    ensures Ready(Floating(dd, r, g)) && Floating(dd, r, g).Of(r.sync) == Lifted(dd.Of(r.sync), r, g)
  {
    assert Linked(dd.Of(r.sync), r.sync);
    LiftedLinked(dd.Of(r.sync), r, g);
    SwappedReady(dd, Floating(dd, r, g), r, g);
  }
}
