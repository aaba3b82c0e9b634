/** deadline_data as one object that the scheduler updates in place. */
module DeadlineObject {
  import opened Wrappers
  import opened SortTree
  import opened DeadlineScheduler
  import opened DeadlineInvariant
  import opened DeadlineTheorems

  lemma {:induction false} ScanSplit(dd: Dl, done: seq<Rq>, rest: seq<Rq>, s: nat)
    requires forall x | x in done :: dd.Mergeable(x) && x.End() != s
    ensures Scan(dd, done + rest, s) == (done + Scan(dd, rest, s).0, Scan(dd, rest, s).1)
  {
    if done == [] {
      assert done + rest == rest && done + Scan(dd, rest, s).0 == Scan(dd, rest, s).0;
    } else {
      assert (done + rest)[1..] == done[1..] + rest;
      ScanSplit(dd, done[1..], rest, s);
      assert done == [done[0]] + done[1..];
      assert [done[0]] + (done[1..] + Scan(dd, rest, s).0) == done + Scan(dd, rest, s).0;
    }
  }

  lemma HashedAreHeld(e: Dl, r: Rq)
    requires HashOk(e) && !e.Holds(r)
    ensures forall b | 0 <= b < BUCKETS :: r !in e.hash[b]
  {
  }

  lemma NotHashed(dd: Dl, r: Rq, t: int)
    requires Sound(dd, t) && FreshId(dd, r.id)
    ensures |Evict(dd, r.sync, r.sector).hash| == BUCKETS
    ensures forall b | 0 <= b < BUCKETS :: r !in Evict(dd, r.sync, r.sector).hash[b]
  {
    EvictKeeps(dd, r.sync, r.sector, t);
    EvictSides(dd, r.sync, r.sector);
    HashedAreHeld(Evict(dd, r.sync, r.sector), r);
  }

  lemma Unhashed(dd: Dl, r: Rq, g: Rq)
    requires Inv(dd) && HashOk(dd) && r in dd.Of(r.sync).fifo && Grown(r, g)
    ensures forall b | 0 <= b < BUCKETS :: g !in DelHash(dd, r).hash[b]
  {
    var c := Bucket(dd.tun, r.End());
    DropIn(dd.hash[c], r, g);
    forall b | 0 <= b < BUCKETS ensures g !in DelHash(dd, r).hash[b] {
      if g in DelHash(dd, r).hash[b] {
        assert g in dd.hash[b] && dd.Holds(g);
        SameId(dd, r, g);
      }
    }
  }

  lemma SamePlace(s: seq<Rq>, i: nat, j: nat)
    requires IdsDistinct(s) && i < |s| && j < |s| && s[i].id == s[j].id
    ensures i == j
  {
  }

  lemma SameId(dd: Dl, r: Rq, g: Rq)
    requires Inv(dd) && r in dd.Of(r.sync).fifo && dd.Holds(g) && g.id == r.id
    ensures g == r
  {
    var s := dd.Of(r.sync);
    assert Linked(s, r.sync) && g in s.fifo;
    var i :| 0 <= i < |s.fifo| && s.fifo[i] == r;
    var j :| 0 <= j < |s.fifo| && s.fifo[j] == g;
    SamePlace(s.fifo, i, j);
  }

  lemma DispatchShrinks(dd: Dl, now: int)
    requires Sound(dd, now)
    ensures var (d, x) := Dispatch(dd, now); x.Some? ==> |d.rd.fifo| + |d.wr.fifo| < |dd.rd.fifo| + |dd.wr.fifo|
  {
    if dd.rd.fifo != [] || dd.wr.fifo != [] {
      var (a, r) := Selected(dd, now);
      RemoveSides(Aimed(a, r), r);
    }
  }

  /** What dd held has been sent, each request once, or is still held by cur. */
  ghost predicate SentSoFar(dd: Dl, cur: Dl) {
    && dd.sent <= cur.sent && Distinct(cur.sent[|dd.sent|..])
    && (forall x :: dd.Holds(x) <==> x in cur.sent[|dd.sent|..] || cur.Holds(x))
    && (forall x | x in cur.sent[|dd.sent|..] :: !cur.Holds(x))
  }

  lemma SentOneMore(dd: Dl, cur: Dl, next: Dl, r: Rq)
    requires SentSoFar(dd, cur) && cur.Holds(r) && next.sent == cur.sent + [r]
    requires forall x :: next.Holds(x) <==> cur.Holds(x) && x != r
    ensures SentSoFar(dd, next)
  {
    var a, b := cur.sent[|dd.sent|..], next.sent[|dd.sent|..];
    assert b == a + [r];
    forall i, j | 0 <= i < j < |b| ensures b[i] != b[j] {
      if j == |a| { assert a[i] in a; }
    }
  }

  class DeadlineData {
    var rd: Side
    var wr: Side
    var hash: seq<seq<Rq>>
    var nomerge: set<nat>
    var batching: nat
    var lastSector: nat
    var starved: nat
    var sent: seq<Rq>
    const tun: Tunables

    ghost function State(): Dl
      reads this
    {
      Dl(rd, wr, hash, nomerge, batching, lastSector, starved, sent, tun)
    }

    constructor (tun: Tunables)
      ensures State() == Fresh(tun) && forall t :: Sound(State(), t)
    {
      rd, wr, hash, nomerge := NO_SIDE, NO_SIDE, seq(BUCKETS, _ => []), {};
      batching, lastSector, starved, sent := 0, 0, 0, [];
      this.tun := tun;
      new;
      forall t { FreshSound(tun, t); }
    }

    method SetSide(read: bool, s: Side)
      modifies this`rd, this`wr
      ensures State() == old(State()).With(read, s)
    {
      if read { rd := s; } else { wr := s; }
    }

    method DelDrqHash(r: Rq)
      requires |hash| == BUCKETS
      modifies this`hash
      ensures State() == DelHash(old(State()), r)
    {
      var b := Bucket(tun, r.End());
      hash := hash[b := Drop(hash[b], r)];
    }

    /** The requires is the BUG_ON: the request is not on the hash. */
    method AddDrqHash(r: Rq)
      requires |hash| == BUCKETS && forall b | 0 <= b < BUCKETS :: r !in hash[b]
      modifies this`hash
      ensures State() == AddHash(old(State()), r)
    {
      var b := Bucket(tun, r.End());
      hash := hash[b := [r] + hash[b]];
    }

    /** deadline_find_drq_hash: entries whose request may no longer be merged are dropped on the way. */
    method FindDrqHash(s: nat) returns (found: Option<Rq>)
      requires |hash| == BUCKETS
      modifies this`hash
      ensures (State(), found) == FindHash(old(State()), s)
    {
      var b := Bucket(tun, s);
      ghost var chain := hash[b];
      var i := 0;
      while i < |hash[b]|
        invariant |hash| == BUCKETS && hash == old(hash)[b := hash[b]] && 0 <= i <= |hash[b]|
        invariant forall x | x in hash[b][..i] :: x.id !in nomerge && x.End() != s
        invariant Scan(old(State()), chain, s) == Scan(old(State()), hash[b], s)
        decreases |hash[b]| - i
      {
        var x := hash[b][i];
        ghost var dd, done, rest := old(State()), hash[b][..i], hash[b][i + 1..];
        assert hash[b] == done + ([x] + rest) && ([x] + rest)[1..] == rest;
        ScanSplit(dd, done, [x] + rest, s);
        if x.id in nomerge {
          ScanSplit(dd, done, rest, s);
          hash := hash[b := hash[b][..i] + hash[b][i + 1..]];
          assert hash[b][..i] == done;
        } else if x.End() == s {
          assert Scan(dd, [x] + rest, s) == ([x] + rest, Some(x));
          return Some(x);
        } else {
          assert hash[b][..i + 1] == done + [x];
          i := i + 1;
        }
      }
      assert hash[b][..i] == hash[b] && hash[b] + [] == hash[b];
      ScanSplit(old(State()), hash[b], [], s);
      return None;
    }

    method DelDrqRb(r: Rq)
      requires r in State().Of(r.sync).tree
      modifies this`rd, this`wr
      ensures State() == old(State()).With(r.sync, DelRb(old(State()).Of(r.sync), r))
    {
      var s := if r.sync then rd else wr;
      if s.next == Some(r) {
        s := s.(next := None);
        var i := Place(s.tree, r);
        if i + 1 < |s.tree| { s := s.(next := Some(s.tree[i + 1])); }
      }
      s := s.(tree := Without(s.tree, Place(s.tree, r)));
      SetSide(r.sync, s);
    }

    method RemoveRequest(r: Rq)
      requires |hash| == BUCKETS && r in State().Of(r.sync).tree && r in State().Of(r.sync).fifo
      modifies this
      ensures State() == Remove(old(State()), r)
    {
      var s := if r.sync then rd else wr;
      SetSide(r.sync, s.(fifo := Without(s.fifo, Place(s.fifo, r))));
      DelDrqRb(r);
      DelDrqHash(r);
    }

    method MoveRequest(r: Rq)
      requires |hash| == BUCKETS && r in State().Of(r.sync).tree && r in State().Of(r.sync).fifo
      modifies this
      ensures State() == DeadlineScheduler.MoveRequest(old(State()), r)
    {
      var tree := if r.sync then rd.tree else wr.tree;
      var i := Place(tree, r);
      rd := rd.(next := None);
      wr := wr.(next := None);
      if i + 1 < |tree| {
        if r.sync { rd := rd.(next := Some(tree[i + 1])); } else { wr := wr.(next := Some(tree[i + 1])); }
      }
      lastSector := r.End();
      assert State() == Aimed(old(State()), r);
      RemoveRequest(r);
      sent := sent + [r];
    }

    /** deadline_add_drq_rb: retry until the sector is free. */
    method AddDrqRb(r: Rq)
      requires Ready(State())
      modifies this
      ensures State() == AddRb(old(State()), r)
    {
      ghost var dd := State();
      EvictKeeps(dd, r.sync, r.sector, 0);
      EvictSides(dd, r.sync, r.sector);
      assert Linked(dd.Of(r.sync), r.sync);
      AliasFound(dd.Of(r.sync).tree, r.sector);
      var alias := Alias(if r.sync then rd.tree else wr.tree, r.sector);
      while alias.Some?
        invariant alias == Alias(State().Of(r.sync).tree, r.sector)
        invariant if alias.Some? then State() == dd else State() == Evict(dd, r.sync, r.sector)
        decreases alias.Some?
      {
        MoveRequest(alias.value);
        assert Linked(State().Of(r.sync), r.sync);
        AliasFound(State().Of(r.sync).tree, r.sector);
        alias := Alias(if r.sync then rd.tree else wr.tree, r.sector);
      }
      var s := if r.sync then rd else wr;
      SetSide(r.sync, s.(tree := Insert(s.tree, r)));
    }

    method AddRequest(r0: Rq, ghost t: int, now: int)
      requires Sound(State(), t) && t <= now && FreshId(State(), r0.id)
      modifies this
      ensures State() == DeadlineScheduler.AddRequest(old(State()), r0, now) && Sound(State(), now)
    {
      AddKeeps(State(), r0, t, now);
      var r := r0.(time := now + if r0.sync then tun.readExpire else tun.writeExpire);
      PlacedKeeps(State(), r, t, now);
      NotHashed(State(), r, t);
      AddDrqRb(r);
      var s := if r.sync then rd else wr;
      SetSide(r.sync, s.(fifo := s.fifo + [r]));
      if r.id !in nomerge { AddDrqHash(r); }
    }

    /** deadline_merged_request: request r has become g. */
    method MergedRequest(r: Rq, g: Rq, ghost t: int)
      requires Sound(State(), t) && r in State().Of(r.sync).tree && r in State().Of(r.sync).fifo && Grown(r, g)
      modifies this
      ensures State() == DeadlineScheduler.MergedRequest(old(State()), r, g) && Sound(State(), t)
    {
      ghost var dd := State();
      MergeKeeps(dd, r, g, t);
      Unhashed(dd, r, g);
      DelDrqHash(r);
      AddDrqHash(g);
      var s := if r.sync then rd else wr;
      if g.sector == r.sector {
        SetSide(r.sync, Replaced(s, r, g));
      } else {
        FloatingReady(dd, r, g);
        SetSide(r.sync, s.(fifo := s.fifo[Place(s.fifo, r) := g]));
        DelDrqRb(r);
        AddDrqRb(g);
      }
    }

    /** deadline_dispatch_requests up to the label dispatch_request. */
    method Select(now: int) returns (x: Rq)
      requires Inv(State()) && (rd.fifo != [] || wr.fifo != [])
      modifies this`starved, this`batching
      ensures (State(), x) == Selected(old(State()), now)
    {
      CountedInv(State());
      var drq := if wr.next.Some? then wr.next else rd.next;
      if drq.Some? {
        if lastSector != drq.value.sector { batching := batching + tun.fifoBatch; }
        if batching < tun.fifoBatch {
          batching := batching + 1;
          return drq.value;
        }
      }
      x := Search(now);
    }

    method Dispatch(now: int) returns (r: Option<Rq>)
      requires Sound(State(), now)
      modifies this
      ensures (State(), r) == DeadlineScheduler.Dispatch(old(State()), now) && Sound(State(), now)
    {
      DispatchKeeps(State(), now);
      if rd.fifo == [] && wr.fifo == [] {
        NothingNext(State());
        return None;
      }
      var x := Select(now);
      MoveRequest(x);
      return Some(x);
    }

    /** The direction, and the request dispatch_find_request settles on. */
    method Search(now: int) returns (x: Rq)
      requires Inv(State()) && (rd.fifo != [] || wr.fifo != [])
      modifies this`starved, this`batching
      ensures (State(), x) == Searched(old(State()), now)
    {
      var read := true;
      if rd.fifo != [] {
        if wr.fifo != [] {
          var over := starved >= if tun.writesStarved >= 0 then tun.writesStarved else tun.writesStarved % 0x1_0000_0000;
          starved := starved + 1;
          if over {
            starved := 0;
            read := false;
          }
        }
      } else {
        starved := 0;
        read := false;
      }
      var s := if read then rd else wr;
      assert s.fifo != [] && s.fifo[0] in s.fifo;
      if now > s.fifo[0].time {
        batching := 0;
        x := s.fifo[0];
      } else if s.next.Some? {
        x := s.next.value;
      } else {
        batching := 0;
        x := s.tree[0];
      }
      batching := batching + 1;
    }

    /** elv_drain_elevator on this scheduler: dispatching until nothing is left sends every queued request once. */
    method Drain(now: int) returns (n: nat)
      requires Sound(State(), now)
      modifies this
      ensures Sound(State(), now) && rd.fifo == [] && wr.fifo == []
      ensures |sent| == old(|sent|) + n && old(sent) <= sent && Distinct(sent[old(|sent|)..])
      ensures forall x :: old(State()).Holds(x) <==> x in sent[old(|sent|)..]
    {
      n := 0;
      var more := true;
      ghost var dd := State();
      while more
        invariant Sound(State(), now) && (!more ==> rd.fifo == [] && wr.fifo == [])
        invariant |sent| == |dd.sent| + n && SentSoFar(dd, State())
        decreases more, |rd.fifo| + |wr.fifo|
      {
        ghost var before := State();
        DispatchKeeps(before, now);
        DispatchShrinks(before, now);
        var r := Dispatch(now);
        more := r.Some?;
        if more {
          n := n + 1;
          SentOneMore(dd, before, State(), r.value);
        } else {
          NothingNext(before);
        }
      }
    }
  }
}
