/**
  Reads cannot starve a write for long: while a write is pending, at most
  (writes_starved + 1) * max(1, fifo_batch) dispatches in a row pick reads.
 */
module DeadlineStarvation {
  import opened Wrappers
  import opened SortTree
  import opened DeadlineScheduler
  import opened DeadlineInvariant
  import opened DeadlineTheorems

  function Batch(dd: Dl): nat { if dd.tun.fifoBatch == 0 then 1 else dd.tun.fifoBatch }

  /** How many more requests the running batch may take. */
  function Rest(dd: Dl): nat { if dd.batching < dd.tun.fifoBatch then dd.tun.fifoBatch - dd.batching else 0 }

  /** How many more batches of reads a pending write will wait for. */
  function Turns(dd: Dl): nat { if dd.starved < Patience(dd) then Patience(dd) - dd.starved else 0 }

  /** The number of reads that may still be picked while a write is pending. */
  function Potential(dd: Dl): nat { Rest(dd) + Turns(dd) * Batch(dd) }

  lemma PotentialBound(dd: Dl)
    ensures Potential(dd) <= (Patience(dd) + 1) * Batch(dd)
  {
    assert Turns(dd) * Batch(dd) <= Patience(dd) * Batch(dd);
  }

  lemma PotentialSame(a: Dl, b: Dl)
    requires a.tun == b.tun && a.batching == b.batching && a.starved == b.starved
    ensures Potential(a) == Potential(b)
  {
  }

  /** A read that the running batch takes. */
  lemma BatchedReadCosts(dd: Dl, now: int)
    requires Inv(dd) && Batches(dd) && (dd.rd.fifo != [] || dd.wr.fifo != [])
    ensures Potential(Selected(dd, now).0) < Potential(dd)
  {
    var a := Selected(dd, now).0;
    assert Rest(a) < Rest(dd);
  }

  /** A read that begins a batch although a write is pending. */
  lemma NewBatchCosts(dd: Dl, now: int)
    requires Sound(dd, now) && !Batches(dd) && dd.wr.fifo != [] && Selected(dd, now).1.sync
    ensures Potential(Selected(dd, now).0) < Potential(dd)
  {
    var a := Selected(dd, now).0;
    CountedInv(dd);
    SearchedQueued(Counted(dd), now);
    assert Turns(a) == Turns(dd) - 1;
    assert Turns(a) * Batch(dd) == Turns(dd) * Batch(dd) - Batch(dd);
    assert Rest(a) < Batch(dd);
  }

  /** Every read picked past a pending write uses up some of the potential. */
  lemma ReadCosts(dd: Dl, now: int)
    requires Sound(dd, now) && dd.wr.fifo != []
    requires Dispatch(dd, now).1.Some? && Dispatch(dd, now).1.value.sync
    ensures Potential(Dispatch(dd, now).0) < Potential(dd)
    ensures Dispatch(dd, now).0.tun == dd.tun
  {
    var (a, r) := Selected(dd, now);
    CountersElsewhere(dd, a, now);
    MoveSides(a, r);
    PotentialSame(Dispatch(dd, now).0, a);
    if Batches(dd) { BatchedReadCosts(dd, now); } else { NewBatchCosts(dd, now); }
  }

  /** Between dispatches nothing changes the counters. */
  lemma OthersKeep(dd: Dl, t: int, s: Step)
    requires Sound(dd, t) && Permitted(dd, t, s) && !s.Serve?
    ensures var d := Apply(dd, t, s); d.batching == dd.batching && d.starved == dd.starved && d.tun == dd.tun
  {
    match s
    case Add(r, now) => AddCounters(dd, r, now);
    case Merge(r, g) => MergeCounters(dd, r, g);
    case Absorb(r, g, n) =>
      AbsorbKeeps(dd, r, g, n, t);
      MergeCounters(dd, r, g);
      var d := MergedRequest(dd, r, g);
      RemoveSides(Absorbing(d, g, n), n);
    case _ =>
  }

  lemma AddCounters(dd: Dl, r0: Rq, now: int)
    requires Inv(dd)
    ensures var d := AddRequest(dd, r0, now); d.batching == dd.batching && d.starved == dd.starved && d.tun == dd.tun
  {
    var r := Stamped(dd, r0, now);
    EvictKeeps(dd, r.sync, r.sector, 0);
    PlacedForm(dd, r);
  }

  lemma MergeCounters(dd: Dl, r: Rq, g: Rq)
    requires Inv(dd) && r in dd.Of(r.sync).tree && r in dd.Of(r.sync).fifo && Grown(r, g)
    ensures var d := MergedRequest(dd, r, g); d.batching == dd.batching && d.starved == dd.starved && d.tun == dd.tun
  {
    if g.sector != r.sector {
      FloatingReady(dd, r, g);
      EvictKeeps(Floating(dd, r, g), g.sync, g.sector, 0);
    }
  }

  /** At every dispatch of the run a write is pending and a read is picked. */
  ghost predicate ReadsPicked(dd: Dl, t: int, steps: seq<Step>)
    requires Runs(dd, t, steps)
    decreases |steps|
  {
    steps == [] || !Sound(dd, t) ||
    (&& (steps[0].Serve? ==>
           && dd.wr.fifo != []
           && Dispatch(dd, steps[0].now).1.Some? && Dispatch(dd, steps[0].now).1.value.sync)
     && ReadsPicked(Apply(dd, t, steps[0]), Time(steps[0], t), steps[1..]))
  }

  function Dispatches(steps: seq<Step>): nat {
    if steps == [] then 0 else (if steps[0].Serve? then 1 else 0) + Dispatches(steps[1..])
  }

  lemma {:induction false} PotentialRunsOut(dd: Dl, t: int, steps: seq<Step>)
    requires Sound(dd, t) && Runs(dd, t, steps) && ReadsPicked(dd, t, steps)
    ensures Dispatches(steps) <= Potential(dd)
    decreases |steps|
  {
    if steps != [] {
      var d := Apply(dd, t, steps[0]);
      StepKeeps(dd, t, steps[0]);
      PotentialRunsOut(d, Time(steps[0], t), steps[1..]);
      if steps[0].Serve? {
        LaterTimely(dd, t, steps[0].now);
        ReadCosts(dd, steps[0].now);
      } else {
        OthersKeep(dd, t, steps[0]);
      }
    }
  }

  /**
    However additions, merges and lookups are interleaved, from any state in which the indexes agree
    (and so from every reachable one) reads pass a pending write only so many times in a row.
   */
  lemma WritesDoNotStarve(dd: Dl, t: int, steps: seq<Step>)
    requires Sound(dd, t) && Runs(dd, t, steps) && ReadsPicked(dd, t, steps)
    ensures Dispatches(steps) <= (Patience(dd) + 1) * Batch(dd)
  {
    PotentialRunsOut(dd, t, steps);
    PotentialBound(dd);
  }
}
