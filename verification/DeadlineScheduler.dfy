/**
  The deadline scheduler: per direction a sort tree and a FIFO over the same requests, one hash of
  request ends for back merges, and the batching and starvation counters.

  The `sync` flag of a request says that it is a read.  The hash function is an arbitrary function
  of the block number.  Requests whose merge flags were withdrawn are the `nomerge` ids.  `sent`
  lists what was put on the dispatch queue.
 */
module DeadlineScheduler {
  import opened Wrappers
  import opened SortTree

  datatype Side = Side(tree: seq<Rq>, fifo: seq<Rq>, next: Option<Rq>)

  datatype Tunables = Tunables(
    hashLong: nat -> nat,
    readExpire: int,
    writeExpire: int,
    fifoBatch: nat,
    writesStarved: int)

  datatype Dl = Dl(
    rd: Side,
    wr: Side,
    hash: seq<seq<Rq>>,
    nomerge: set<nat>,
    batching: nat,
    lastSector: nat,
    starved: nat,
    sent: seq<Rq>,
    tun: Tunables)
  {
    function Of(read: bool): Side { if read then rd else wr }
    function With(read: bool, s: Side): Dl { if read then this.(rd := s) else this.(wr := s) }
    function Expire(read: bool): int { if read then tun.readExpire else tun.writeExpire }

    ghost predicate Holds(r: Rq) { r in rd.fifo || r in wr.fifo }

    predicate Mergeable(r: Rq) { r.id !in nomerge }
  }

  const BUCKETS: nat := 32         // DL_HASH_ENTRIES
  const NO_SIDE := Side([], [], None)

  function Fresh(tun: Tunables): Dl {
    Dl(NO_SIDE, NO_SIDE, seq(BUCKETS, _ => []), {}, 0, 0, 0, [], tun)
  }

  // ---------------------------------------------------------------- the hash

  /** DL_HASH_FN of a sector. */
  function Bucket(tun: Tunables, s: nat): (b: nat)
    ensures b < BUCKETS
  {
    tun.hashLong(s / 8) % BUCKETS
  }

  function Drop(chain: seq<Rq>, r: Rq): seq<Rq> {
    if chain == [] then [] else (if chain[0] == r then [] else [chain[0]]) + Drop(chain[1..], r)
  }

  /** deadline_del_drq_hash. */
  function DelHash(dd: Dl, r: Rq): Dl
    requires |dd.hash| == BUCKETS
  {
    var b := Bucket(dd.tun, r.End());
    dd.(hash := dd.hash[b := Drop(dd.hash[b], r)])
  }

  /** deadline_add_drq_hash. */
  function AddHash(dd: Dl, r: Rq): Dl
    requires |dd.hash| == BUCKETS
  {
    var b := Bucket(dd.tun, r.End());
    dd.(hash := dd.hash[b := [r] + dd.hash[b]])
  }

  /** The scan of deadline_find_drq_hash over one chain: what stays on it, and what is found. */
  function Scan(dd: Dl, chain: seq<Rq>, s: nat): (seq<Rq>, Option<Rq>) {
    if chain == [] then ([], None)
    else if !dd.Mergeable(chain[0]) then Scan(dd, chain[1..], s)
    else if chain[0].End() == s then (chain, Some(chain[0]))
    else var (rest, found) := Scan(dd, chain[1..], s); ([chain[0]] + rest, found)
  }

  /** deadline_find_drq_hash. */
  function FindHash(dd: Dl, s: nat): (Dl, Option<Rq>)
    requires |dd.hash| == BUCKETS
  {
    var b := Bucket(dd.tun, s);
    var (chain, found) := Scan(dd, dd.hash[b], s);
    (dd.(hash := dd.hash[b := chain]), found)
  }

  // ---------------------------------------------------------------- the tree and the FIFO

  function RbNext(tree: seq<Rq>, r: Rq): Option<Rq>
    requires r in tree
  {
    var i := Place(tree, r);
    if i + 1 < |tree| then Some(tree[i + 1]) else None
  }

  /** deadline_del_drq_rb. */
  function DelRb(s: Side, r: Rq): Side
    requires r in s.tree
  {
    s.(next := if s.next == Some(r) then RbNext(s.tree, r) else s.next, tree := Without(s.tree, Place(s.tree, r)))
  }

  /** deadline_remove_request. */
  function Remove(dd: Dl, r: Rq): Dl
    requires |dd.hash| == BUCKETS && r in dd.Of(r.sync).tree && r in dd.Of(r.sync).fifo
  {
    var s := dd.Of(r.sync);
    DelHash(dd.With(r.sync, DelRb(s.(fifo := Without(s.fifo, Place(s.fifo, r))), r)), r)
  }

  /** deadline_move_request. */
  function MoveRequest(dd: Dl, r: Rq): Dl
    requires |dd.hash| == BUCKETS && r in dd.Of(r.sync).tree && r in dd.Of(r.sync).fifo
  {
    var next := RbNext(dd.Of(r.sync).tree, r);
    var dd1 := dd.(rd := dd.rd.(next := if r.sync then next else None),
                   wr := dd.wr.(next := if r.sync then None else next),
                   lastSector := r.End());
    Remove(dd1, r).(sent := dd.sent + [r])
  }

  /** What the operations rely on when they follow a pointer. */
  ghost predicate Linked(s: Side, read: bool) {
    && Sorted(s.tree) && IdsDistinct(s.fifo)
    && (forall r | r in s.tree :: r in s.fifo && r.sync == read)
    && (s.next.Some? ==> s.next.value in s.tree)
  }

  ghost predicate Ready(dd: Dl) {
    && |dd.hash| == BUCKETS && Linked(dd.rd, true) && Linked(dd.wr, false)
    && (forall a, b | a in dd.rd.fifo && b in dd.wr.fifo :: a.id != b.id)
  }

  function Evict(dd: Dl, read: bool, s: nat): Dl
    requires Ready(dd)
  {
    AliasFound(dd.Of(read).tree, s);
    var x := Alias(dd.Of(read).tree, s);
    if x.Some? then MoveRequest(dd, x.value) else dd
  }

  /** deadline_add_drq_rb. */
  function AddRb(dd: Dl, r: Rq): Dl
    requires Ready(dd)
  {
    var dd1 := Evict(dd, r.sync, r.sector);
    dd1.With(r.sync, dd1.Of(r.sync).(tree := Insert(dd1.Of(r.sync).tree, r)))
  }

  function Stamped(dd: Dl, r: Rq, now: int): Rq { r.(time := now + dd.Expire(r.sync)) }

  function Enlist(dd: Dl, r: Rq): Dl { dd.With(r.sync, dd.Of(r.sync).(fifo := dd.Of(r.sync).fifo + [r])) }

  /** deadline_add_request. */
  function AddRequest(dd: Dl, r0: Rq, now: int): Dl
    requires Ready(dd)
  {
    var r := Stamped(dd, r0, now);
    var dd1 := Enlist(AddRb(dd, r), r);
    if dd1.Mergeable(r) && |dd1.hash| == BUCKETS then AddHash(dd1, r) else dd1
  }

  // ---------------------------------------------------------------- merging

  /** A request that keeps its node changes in place. */
  function Replaced(s: Side, r: Rq, g: Rq): Side
    requires r in s.tree && r in s.fifo
  {
    Side(s.tree[Place(s.tree, r) := g], s.fifo[Place(s.fifo, r) := g], if s.next == Some(r) then Some(g) else s.next)
  }

  /** A request that grew at its front leaves the tree, to be put back at its new sector. */
  function Lifted(s: Side, r: Rq, g: Rq): Side
    requires r in s.tree && r in s.fifo
  {
    DelRb(s.(fifo := s.fifo[Place(s.fifo, r) := g]), r)
  }

  /** The hash entry follows the request's new end. */
  function Rehashed(dd: Dl, r: Rq, g: Rq): Dl
    requires |dd.hash| == BUCKETS
  {
    AddHash(DelHash(dd, r), g)
  }

  /** deadline_merged_request: request r has become g. */
  function MergedRequest(dd: Dl, r: Rq, g: Rq): Dl
    requires Ready(dd) && r in dd.Of(r.sync).tree && r in dd.Of(r.sync).fifo && g.id == r.id && g.sync == r.sync
  {
    var dd1 := Rehashed(dd, r, g);
    if g.sector == r.sector then dd1.With(r.sync, Replaced(dd1.Of(r.sync), r, g))
    else
      LiftedLinked(dd1.Of(r.sync), r, g);
      AddRb(dd1.With(r.sync, Lifted(dd1.Of(r.sync), r, g)), g)
  }

  lemma LiftedLinked(s: Side, r: Rq, g: Rq)
    requires Linked(s, r.sync) && r in s.tree && r in s.fifo && g.id == r.id && g.sync == r.sync
    ensures Linked(Lifted(s, r, g), r.sync)
    ensures forall x :: x in Lifted(s, r, g).tree <==> x in s.tree && x != r
    ensures forall x :: x in Lifted(s, r, g).fifo <==> x == g || (x in s.fifo && x != r)
  {
    SortedDistinct(s.tree);
    IdsAreDistinct(s.fifo);
    PlaceUnique(s.tree, r);
    WithoutSorted(s.tree, Place(s.tree, r));
    ReplacedIn(s.fifo, r, g);
    NextStays(s.tree, r);
  }

  lemma NextStays(tree: seq<Rq>, r: Rq)
    requires Sorted(tree) && r in tree
    ensures RbNext(tree, r).Some? ==> RbNext(tree, r).value in tree && RbNext(tree, r).value != r
    ensures RbNext(tree, r).Some? ==> RbNext(tree, r).value in Without(tree, Place(tree, r))
  {
    var i := Place(tree, r);
    if i + 1 < |tree| {
      assert tree[i].sector < tree[i + 1].sector;
      assert Without(tree, i)[i] == tree[i + 1];
    }
  }

  /** The FIFO step of deadline_merged_requests: g takes over the deadline and the place of n. */
  function TakeOver(dd: Dl, g: Rq, n: Rq): Dl
    requires |dd.hash| == BUCKETS && g in dd.Of(g.sync).tree && g in dd.Of(g.sync).fifo && n in dd.Of(g.sync).fifo && g.id != n.id
  {
    var h := g.(time := n.time);
    var s := Replaced(dd.Of(g.sync), g, h);
    var b := Bucket(dd.tun, g.End());
    StaysIn(dd.Of(g.sync).fifo, g, h, n);
    dd.(hash := dd.hash[b := Renamed(dd.hash[b], g, h)]).With(g.sync, s.(fifo := MoveBehind(s.fifo, h, n)))
  }

  /** A chain entry whose request changed without changing its end. */
  function Renamed(chain: seq<Rq>, g: Rq, h: Rq): seq<Rq> {
    if chain == [] then [] else [if chain[0] == g then h else chain[0]] + Renamed(chain[1..], g, h)
  }

  lemma StaysIn(fifo: seq<Rq>, g: Rq, h: Rq, n: Rq)
    requires g in fifo && n in fifo && g.id != n.id && h.id == g.id
    ensures h in fifo[Place(fifo, g) := h] && n in fifo[Place(fifo, g) := h] && h != n
  {
    var k :| 0 <= k < |fifo| && fifo[k] == n;
    assert fifo[Place(fifo, g) := h][k] == n && fifo[Place(fifo, g) := h][Place(fifo, g)] == h;
  }

  // ---------------------------------------------------------------- dispatch

  /** writes_starved is compared as an unsigned number. */
  function Patience(dd: Dl): nat {
    if dd.tun.writesStarved >= 0 then dd.tun.writesStarved else dd.tun.writesStarved % 0x1_0000_0000
  }

  function NextDrq(dd: Dl): Option<Rq> { if dd.wr.next.Some? then dd.wr.next else dd.rd.next }

  /** A batch ends on a request that is not sequential. */
  function Counted(dd: Dl): Dl {
    var drq := NextDrq(dd);
    if drq.Some? && dd.lastSector != drq.value.sector then dd.(batching := dd.batching + dd.tun.fifoBatch) else dd
  }

  predicate Batches(dd: Dl) { NextDrq(dd).Some? && Counted(dd).batching < dd.tun.fifoBatch }

  /** No batch runs: the direction to serve, and the state with the starvation counter moved on. */
  function Direction(dd: Dl): (Dl, bool) {
    if dd.rd.fifo == [] then (dd.(starved := 0), false)
    else if dd.wr.fifo == [] then (dd, true)
    else if dd.starved >= Patience(dd) then (dd.(starved := 0), false)
    else (dd.(starved := dd.starved + 1), true)
  }

  /** The request dispatch_find_request settles on, and whether a new batch starts with it. */
  function Find(dd: Dl, read: bool, now: int): (Rq, bool)
    requires dd.Of(read).fifo != [] && dd.Of(read).tree != []
  {
    var s := dd.Of(read);
    if now > s.fifo[0].time then (s.fifo[0], true)
    else if s.next.Some? then (s.next.value, false)
    else (s.tree[0], true)
  }

  ghost predicate Inv(dd: Dl)
  {
    && Ready(dd)
    && (forall r | r in dd.rd.fifo :: r in dd.rd.tree) && (forall r | r in dd.wr.fifo :: r in dd.wr.tree)
    && (dd.rd.next.None? || dd.wr.next.None?)
  }

  /** No batch runs: the state that sends, and the request to send. */
  function Searched(dd: Dl, now: int): (Dl, Rq)
    requires Inv(dd) && (dd.rd.fifo != [] || dd.wr.fifo != [])
  {
    var (e, read) := Direction(dd);
    assert e.Of(read).fifo != [] && e.Of(read).fifo[0] in e.Of(read).fifo;
    var (r, anew) := Find(e, read, now);
    (e.(batching := if anew then 1 else e.batching + 1), r)
  }

  /** The batch goes on with the next request. */
  function Continued(dd: Dl): (Dl, Rq)
    requires NextDrq(dd).Some?
  {
    (Counted(dd).(batching := Counted(dd).batching + 1), NextDrq(dd).value)
  }

  /** What deadline_dispatch_requests settles on when something is queued. */
  function Selected(dd: Dl, now: int): (a: (Dl, Rq))
    requires Inv(dd) && (dd.rd.fifo != [] || dd.wr.fifo != [])
    ensures a.0 == dd.(batching := a.0.batching, starved := a.0.starved)
    ensures a.1 in dd.Of(a.1.sync).tree && a.1 in dd.Of(a.1.sync).fifo
  {
    CountedInv(dd);
    var a := if Batches(dd) then Continued(dd) else Searched(Counted(dd), now);
    SelectedQueued(dd, now);
    a
  }

  lemma CountedInv(dd: Dl)
    requires Inv(dd)
    ensures Inv(Counted(dd))
  {
  }

  lemma SearchedQueued(dd: Dl, now: int)
    requires Inv(dd) && (dd.rd.fifo != [] || dd.wr.fifo != [])
    ensures var (a, r) := Searched(dd, now);
            && a == dd.(batching := a.batching, starved := a.starved) && r.sync == Direction(dd).1
            && r in dd.Of(r.sync).tree && r in dd.Of(r.sync).fifo
            && a.starved == Direction(dd).0.starved && (a.batching == 1 || a.batching == dd.batching + 1)
  {
    var (e, read) := Direction(dd);
    assert Linked(dd.Of(read), read) && e.Of(read) == dd.Of(read);
    assert dd.Of(read).fifo != [] && dd.Of(read).fifo[0] in dd.Of(read).fifo;
  }

  lemma SelectedQueued(dd: Dl, now: int)
    requires Inv(dd) && (dd.rd.fifo != [] || dd.wr.fifo != []) && Inv(Counted(dd))
    ensures var (a, r) := if Batches(dd) then Continued(dd) else Searched(Counted(dd), now);
            && a == dd.(batching := a.batching, starved := a.starved)
            && r in dd.Of(r.sync).tree && r in dd.Of(r.sync).fifo
  {
    if Batches(dd) {
      assert Linked(dd.rd, true) && Linked(dd.wr, false);
    } else {
      SearchedQueued(Counted(dd), now);
    }
  }

  /** deadline_dispatch_requests: the new state and the request dispatched. */
  function Dispatch(dd: Dl, now: int): (Dl, Option<Rq>)
    requires Inv(dd)
  {
    if dd.rd.fifo == [] && dd.wr.fifo == [] then (Counted(dd), None)
    else
      var (a, r) := Selected(dd, now);
      (MoveRequest(a, r), Some(r))
  }

  /** deadline_merged_requests: r, which has become g, absorbs n. */
  ghost function MergedRequests(dd: Dl, r: Rq, g: Rq, n: Rq): Dl
    requires Ready(dd) && r in dd.Of(r.sync).tree && r in dd.Of(r.sync).fifo && g.id == r.id && g.sync == r.sync
    requires var d := MergedRequest(dd, r, g);
             && |d.hash| == BUCKETS && g in d.Of(g.sync).tree && g in d.Of(g.sync).fifo && g.id != n.id && n.sync == g.sync
             && n in d.Of(g.sync).fifo && n in d.Of(g.sync).tree
             && n in TakeOver(d, g, n).Of(g.sync).tree && n in TakeOver(d, g, n).Of(g.sync).fifo
  {
    var d := MergedRequest(dd, r, g);
    Remove(if n.time < g.time then TakeOver(d, g, n) else d, n)
  }
}
