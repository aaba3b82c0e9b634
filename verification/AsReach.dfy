/**
  Short runs from a fresh queue that reach the two situations in which the anticipatory scheduler
  does not do what it is meant to: a wait without end, and reads and writes at the driver together.
 */
module AsReach {
  import opened Wrappers
  import opened SortTree
  import opened AsChoice
  import opened AsScheduler
  import opened AsInvariant
  import opened AsTheorems

  lemma Chain(ad: As, s: Step, b: As, rest: seq<Step>)
    requires Indexed(ad) && Permitted(ad, s) && Apply(ad, s) == b && Runs(b, rest)
    ensures Runs(ad, [s] + rest) && After(ad, [s] + rest) == After(b, rest)
  {
    assert ([s] + rest)[1..] == rest;
  }

  // ---------------------------------------------------------------- what the statistics answer

  /** What is known of the process waited for, and of processes that begin. */
  datatype Stats = Stats(queued: nat, dispatched: nat, running: bool, ttimeSamples: nat, ttimeMean: nat,
                         seekSamples: nat, seekMean: nat, newTtimeMean: nat, newSeekMean: nat,
                         exitProb: nat, exitNoCoop: nat)

  function Pow2(n: nat): nat { if n == 0 then 1 else 2 * Pow2(n - 1) }

  /** The milliseconds since anticipation began, for hz jiffies a second. */
  function Delay(ad: As, now: int, hz: nat): int
    requires hz > 0
  {
    if ad.antic.Off? || !ad.iocFinished then 0 else (now - ad.anticStart) * 1000 / hz
  }

  /** as_close_req. */
  predicate Close(ad: As, st: Stats, r: Rq, now: int, hz: nat)
    requires hz > 0
  {
    var last, next, delay := ad.Of(ad.dir).last, r.sector, Delay(ad, now, hz);
    if delay < 0 || delay > 20 || (delay != 0 && delay > ad.tun.antic) then true
    else
      var delta := 8192 * Pow2(delay);
      || (last <= next + delta / 2 && next <= last + delta)
      || (if st.seekSamples == 0 then st.newSeekMean else st.seekMean) > Abs(next - last)
  }

  /** The part of as_can_break_anticipation that `hint` stands for. */
  predicate Answer(ad: As, st: Stats, r: Option<Rq>, now: int, hz: nat)
    requires hz > 0
  {
    var exitProb := if !st.running && st.ttimeSamples == 0 then (7 * st.exitProb + 256) / 8 else st.exitProb;
    || st.queued > 0 || st.dispatched > 0
    || (r.Some? && r.value.sync && Close(ad, st, r.value, now, hz))
    || (!st.running && st.exitNoCoop > 128)
    || (if st.ttimeSamples == 0 then st.newTtimeMean > ad.tun.antic || exitProb * st.exitNoCoop > 128 * 256
        else st.ttimeMean > ad.tun.antic)
  }

  /**
    A process that has read once, on a queue where nothing was read before.  Think times and seek
    distances are sampled from the second read of a process on, and by a read of another process only
    where that one is found to be close.
   */
  const QUIET := Stats(0, 0, true, 0, 0, 0, 0, 0, 0, 0, 0)

  // ---------------------------------------------------------------- the steps of the run

  /** A direction with nothing queued, and one with a single request. */
  function Empty(last: nat, check: int): Side { Side([], [], None, last, check) }
  function One(last: nat, check: int, r: Rq): Side { Side([r], [r], Some(r), last, check) }

  lemma OneLinked(last: nat, check: int, r: Rq)
    ensures Linked(One(last, check, r), r.sync)
  {
  }

  lemma AddToEmpty(ad: As, r: Rq, now: int, h: bool, r1: Rq)
    requires Indexed(ad) && ad.Of(r.sync).tree == [] && ad.Of(r.sync).fifo == [] && ad.Of(r.sync).next == None
    requires ad.antic.Off? && r1 == Stamped(ad, r, now)
    ensures var s := ad.Of(r.sync); Add(ad, r, now, h) == ad.With(r.sync, One(s.last, s.lastCheck, r1))
  {
    assert Alias(ad.Of(r.sync).tree, r.sector) == None;
    assert Insert([], r1) == [r1];
  }

  lemma MovedOne(last: nat, check: int, r: Rq)
    ensures Moved(One(last, check, r), r) == Empty(r.End(), check)
  {
    assert Without([r], 0) == [];
  }

  /** The state in a read batch: `out` is at the driver, process 1 is the one to anticipate. */
  function Reading(tun: Tunables, sync: Side, wbc: int, expires: int, out: seq<Rq>, finished: bool, begun: bool): As {
    Fresh(tun, 0).(sync := sync, dir := true, newBatch := begun, writeBatchCount := wbc, batchExpires := expires,
                   ioc := Some(1), iocFinished := finished, nrDispatched := |out|, inflight := out)
  }

  function Wbc(tun: Tunables): int { Fresh(tun, 0).writeBatchCount }

  /** The first read turns the queue to reads and goes to the driver. */
  lemma FirstRead(tun: Tunables, r: Rq, h: bool)
    requires r.sync && r.time >= 0 && r.ioc == Some(1)
    ensures var ad := Fresh(tun, 0).(sync := One(0, 0, r));
            && Indexed(ad)
            && Dispatch(ad, 0, h).0 == Reading(tun, Empty(r.End(), 0), Wbc(tun), tun.batchSync, [r], false, true)
  {
    OneLinked(0, 0, r);
    MovedOne(0, 0, r);
    var ad := Fresh(tun, 0).(sync := One(0, 0, r));
    assert Dispatch(ad, 0, h) == SwitchBatch(ad, 0);
    var a := ToReads(ad, 0);
    assert FifoChecked(a, true, 0) == a;
    assert SwitchBatch(ad, 0) == Serve(a, r, 0);
  }

  lemma FirstDone(tun: Tunables, s: Side, r: Rq)
    requires r.sync && r.ioc == Some(1)
    ensures var ad := Reading(tun, s, Wbc(tun), tun.batchSync, [r], false, true);
            Complete(ad, 0, 0) == Reading(tun, s, Complete(ad, 0, 0).writeBatchCount, tun.batchSync, [], true, false)
  {
    assert Without([r], 0) == [];
  }

  /** Once the wait has gone on for antic_expire, a read without a context is sent, and leaves io_context alone. */
  lemma LateRead(tun: Tunables, last: nat, r: Rq, wbc: int, h: bool) returns (check: int)
    requires r.sync && r.time >= tun.antic && r.ioc == None && tun.antic != 0
    ensures var ad := Reading(tun, One(last, 0, r), wbc, tun.batchSync, [], true, false);
            && Indexed(ad)
            && Dispatch(ad, tun.antic, h).0
               == Reading(tun, Empty(r.End(), check), wbc, tun.antic + tun.batchSync, [r], false, false)
  {
    var ad, t := Reading(tun, One(last, 0, r), wbc, tun.batchSync, [], true, false), tun.antic;
    check := if FifoDue(ad, true, t) then t else 0;
    OneLinked(last, 0, r);
    OneLinked(last, check, r);
    MovedOne(last, check, r);
    var ad1 := FifoChecked(ad, true, t);
    assert ad1 == Reading(tun, One(last, check, r), wbc, tun.batchSync, [], true, false);
    assert CanBreak(ad1, ad.sync.next, t, h);
    assert Dispatch(ad, t, h) == ContinueBatch(ad1, t);
    var ad2 := Extended(ad1, t);
    assert FifoChecked(ad2, true, t) == ad2;
    assert ContinueBatch(ad1, t) == Serve(ad2, r, t);
  }

  lemma LateDone(tun: Tunables, s: Side, r: Rq, wbc: int, expires: int)
    requires r.sync && r.ioc == None
    ensures Complete(Reading(tun, s, wbc, expires, [r], false, false), 0, tun.antic)
            == Reading(tun, s, wbc, expires, [], false, false)
  {
    assert Without([r], 0) == [];
  }

  function Read(id: nat, ioc: Option<nat>): Rq { Rq(id, true, 100000 * id, 8, ioc, 0) }

  /** Such a read is not close to the one before, and nothing else is known that would break the wait. */
  lemma FarReadWaits(tun: Tunables, ad: As, r: Rq, hz: nat)
    requires hz > 0 && ad.tun == tun && ad.dir && ad.antic.Off? && ad.sync.last + 8192 < r.sector
    ensures !Answer(ad, QUIET, Some(r), tun.antic, hz)
  {
  }

  /** The last dispatch: process 1 is waited for, and nothing will end the wait. */
  lemma WaitsForEver(tun: Tunables, last: nat, check: int, r: Rq, wbc: int, expires: int, hz: nat)
    requires tun.antic != 0 && r.sync && r.ioc == Some(2) && r.time >= tun.antic && last + 8192 < r.sector && hz > 0
    ensures var ad := Reading(tun, One(last, check, r), wbc, expires, [], false, false);
            Indexed(ad) && Stuck(Dispatch(ad, tun.antic, Answer(ad, QUIET, Some(r), tun.antic, hz)).0)
  {
    var ad := Reading(tun, One(last, check, r), wbc, expires, [], false, false);
    OneLinked(last, check, r);
    FarReadWaits(tun, ad, r, hz);
    UnanchoredGetsStuck(ad, tun.antic);
  }

  /** A read of process 1, one without a context after the wait has expired, one of process 2; `h` stands for answers that do not matter. */
  function StuckRun(tun: Tunables, h: bool): seq<Step> {
    [AddReq(Read(0, Some(1)), 0, h)] + ([DispatchReq(0, h)] + ([CompleteReq(0, 0)] + LateSteps(tun, h)))
  }

  function LateSteps(tun: Tunables, h: bool): seq<Step> {
    [AddReq(Read(1, None), tun.antic, h)] + ([DispatchReq(tun.antic, h)] + ([CompleteReq(0, tun.antic)]
    + ([AddReq(Read(2, Some(2)), tun.antic, h)] + [])))
  }

  function Third(tun: Tunables): Rq { Read(2, Some(2)).(time := tun.antic + tun.fifoSync) }

  /** The queue just before its last dispatch: a far read of process 2 is queued. */
  predicate AboutToWait(tun: Tunables, ad: As) {
    ad == Reading(tun, One(100008, ad.sync.lastCheck, Third(tun)), ad.writeBatchCount, ad.batchExpires, [], false, false)
  }

  lemma LastSteps(tun: Tunables, check: int, wbc: int, e: int, r: Rq, h: bool, c: As, rest: seq<Step>) returns (z: As)
    requires r.sync && r.ioc == None && c == Reading(tun, Empty(100008, check), wbc, e, [r], false, false)
    requires rest == [CompleteReq(0, tun.antic)] + ([AddReq(Read(2, Some(2)), tun.antic, h)] + [])
    ensures Runs(c, rest) && After(c, rest) == z && AboutToWait(tun, z)
  {
    var d := Reading(tun, Empty(100008, check), wbc, e, [], false, false);
    z := Reading(tun, One(100008, check, Third(tun)), wbc, e, [], false, false);
    AddToEmpty(d, Read(2, Some(2)), tun.antic, h, Third(tun));
    Chain(d, AddReq(Read(2, Some(2)), tun.antic, h), z, []);
    LateDone(tun, Empty(100008, check), r, wbc, e);
    Chain(c, CompleteReq(0, tun.antic), d, [AddReq(Read(2, Some(2)), tun.antic, h)] + []);
  }

  lemma SecondHalf(tun: Tunables, wbc: int, h: bool, a: As, steps: seq<Step>) returns (z: As)
    requires tun.antic != 0 && a == Reading(tun, Empty(8, 0), wbc, tun.batchSync, [], true, false)
    requires steps == LateSteps(tun, h)
    ensures Runs(a, steps) && After(a, steps) == z && AboutToWait(tun, z)
  {
    var t := tun.antic;
    var r := Read(1, None).(time := t + tun.fifoSync);
    var check := LateRead(tun, 8, r, wbc, h);
    var b := Reading(tun, One(8, 0, r), wbc, tun.batchSync, [], true, false);
    var c := Reading(tun, Empty(100008, check), wbc, t + tun.batchSync, [r], false, false);
    var rest := [CompleteReq(0, t)] + ([AddReq(Read(2, Some(2)), t, h)] + []);
    z := LastSteps(tun, check, wbc, t + tun.batchSync, r, h, c, rest);
    Chain(b, DispatchReq(t, h), c, rest);
    AddToEmpty(a, Read(1, None), t, h, r);
    Chain(a, AddReq(Read(1, None), t, h), b, [DispatchReq(t, h)] + rest);
  }

  lemma FirstHalf(tun: Tunables, h: bool) returns (z: As)
    requires tun.antic != 0
    ensures Runs(Fresh(tun, 0), StuckRun(tun, h)) && After(Fresh(tun, 0), StuckRun(tun, h)) == z && AboutToWait(tun, z)
  {
    var r1 := Read(0, Some(1)).(time := tun.fifoSync);
    var a := Fresh(tun, 0).(sync := One(0, 0, r1));
    var b := Reading(tun, Empty(8, 0), Wbc(tun), tun.batchSync, [r1], false, true);
    var c := Complete(b, 0, 0);
    FirstDone(tun, Empty(8, 0), r1);
    z := SecondHalf(tun, c.writeBatchCount, h, c, LateSteps(tun, h));
    Chain(b, CompleteReq(0, 0), c, LateSteps(tun, h));
    FirstRead(tun, r1, h);
    Chain(a, DispatchReq(0, h), b, [CompleteReq(0, 0)] + LateSteps(tun, h));
    AddToEmpty(Fresh(tun, 0), Read(0, Some(1)), 0, h, r1);
    Chain(Fresh(tun, 0), AddReq(Read(0, Some(1)), 0, h), a, [DispatchReq(0, h)] + ([CompleteReq(0, 0)] + LateSteps(tun, h)));
  }

  /**
    With anticipation on, whatever the tunables, a fresh queue gets stuck when one read comes without
    a context: at the last dispatch the statistics of process 1 answer that the wait goes on.
   */
  lemma StuckReached(tun: Tunables, h: bool, hz: nat)
    requires tun.antic != 0 && hz > 0
    ensures Runs(Fresh(tun, 0), StuckRun(tun, h))
    ensures var ad := After(Fresh(tun, 0), StuckRun(tun, h));
            Indexed(ad) && Stuck(Dispatch(ad, tun.antic, Answer(ad, QUIET, ad.sync.next, tun.antic, hz)).0)
  {
    var ad := FirstHalf(tun, h);
    WaitsForEver(tun, 100008, ad.sync.lastCheck, Third(tun), ad.writeBatchCount, ad.batchExpires, hz);
  }

  // ---------------------------------------------------------------- two writes at one sector

  function Write(id: nat): Rq { Rq(id, false, 64, 8, None, 0) }

  lemma UnmixedChain(ad: As, s: Step, b: As, rest: seq<Step>)
    requires Indexed(ad) && Permitted(ad, s) && Apply(ad, s) == b && Runs(b, rest) && UnmixedRun(b, rest)
    requires s.AddReq? ==> !AliasMixes(ad, s.r)
    ensures Runs(ad, [s] + rest) && After(ad, [s] + rest) == After(b, rest) && UnmixedRun(ad, [s] + rest)
  {
    Chain(ad, s, b, rest);
    assert ([s] + rest)[1..] == rest;
  }

  /** A read is at the driver and a write is queued: a second write to its sector sends the first one after the read. */
  lemma MixingReached(tun: Tunables, h: bool)
    ensures var steps := [AddReq(Read(0, Some(1)), 0, h)] + ([DispatchReq(0, h)] + ([AddReq(Write(1), 0, h)] + []));
            && Runs(Fresh(tun, 0), steps) && UnmixedRun(Fresh(tun, 0), steps)
            && var ad := After(Fresh(tun, 0), steps); Indexed(ad) && Mixed(Add(ad, Write(2), 0, h))
  {
    var r := Read(0, Some(1)).(time := tun.fifoSync);
    var w := Write(1).(time := tun.fifoAsync);
    var a := Fresh(tun, 0).(sync := One(0, 0, r));
    var b := Reading(tun, Empty(8, 0), Wbc(tun), tun.batchSync, [r], false, true);
    var c := b.(async := One(0, 0, w));
    AddToEmpty(b, Write(1), 0, h, w);
    UnmixedChain(b, AddReq(Write(1), 0, h), c, []);
    FirstRead(tun, r, h);
    UnmixedChain(a, DispatchReq(0, h), b, [AddReq(Write(1), 0, h)] + []);
    AddToEmpty(Fresh(tun, 0), Read(0, Some(1)), 0, h, r);
    UnmixedChain(Fresh(tun, 0), AddReq(Read(0, Some(1)), 0, h), a, [DispatchReq(0, h)] + ([AddReq(Write(1), 0, h)] + []));
    var steps := [AddReq(Read(0, Some(1)), 0, h)] + ([DispatchReq(0, h)] + ([AddReq(Write(1), 0, h)] + []));
    assert AliasMixes(c, Write(2));
    AliasMixesExactly(tun, 0, steps, Write(2), 0, h);
  }
}
