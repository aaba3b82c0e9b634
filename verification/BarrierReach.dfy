/**
  The states that `RejectionUnsafe` and `FrontCommandUnsafe` start from are reached from an empty
  queue by runs in which every step was careful.
 */
module BarrierReach {
  import opened Wrappers
  import opened RequestQueue
  import opened BarrierInvariant
  import opened BarrierTheorems
  import opened BarrierLimits
  import opened BarrierRejection

  const READ := Submit(0, 0, 0, 1, false, false, true)
  const BARRIER := Submit(1, 1, 0, 1, true, true, true)

  /** The read that goes to the driver first. */
  function ReadRq(started: bool): Req {
    Req(Normal(0), true, false, false, false, started, true, false, false, 0, 1, [0], 0)
  }

  function Mode(mode: Ordered): Queue { WithMode(EMPTY, mode) }

  function Queued(mode: Ordered): Queue {
    Mode(mode).(sched := [ReadRq(false)], nrSorted := 1, lastMerge := Some(Normal(0)), epochOf := map[0 := 0])
  }

  function Given(mode: Ordered): Queue { Mode(mode).(head := [ReadRq(true)], endSector := 1, epochOf := map[0 := 0]) }

  function Taken(mode: Ordered): Queue {
    Mode(mode).(driver := [ReadRq(true)], inFlight := 1, endSector := 1, epochOf := map[0 := 0])
  }

  lemma ReadQueued(mode: Ordered)
    ensures Enabled(Mode(mode), READ) && Apply(Mode(mode), READ) == Queued(mode)
  {
  }

  lemma ReadGiven(mode: Ordered)
    ensures Apply(Queued(mode), FetchNext) == Given(mode)
  {
    var d := NoopDispatch(Queued(mode));
    assert d == Mode(mode).(head := [ReadRq(false)], epochOf := map[0 := 0]);
    assert NextHead(d) == (d, Some(Normal(0)));
  }

  lemma ReadTaken(mode: Ordered)
    ensures Enabled(Given(mode), TakeOff(0)) && Apply(Given(mode), TakeOff(0)) == Taken(mode)
  {
  }

  /** A run that goes on from a state with one read in flight and a barrier queued behind it. */
  function Prelude(mode: Ordered, rest: seq<Step>): seq<Step> {
    [SetOrdered(mode)] + ([READ] + ([FetchNext] + ([TakeOff(0)] + ([BARRIER] + rest))))
  }

  function Behind(mode: Ordered): Queue { SubmitRequest(Taken(mode), 1, 1, 0, 1, true, true, true) }

  lemma CarefulChain(q: Queue, a: Step, q': Queue, rest: seq<Step>)
    requires Enabled(q, a) && Careful(q, a) && Apply(q, a) == q' && Runs(q', rest) && CarefulRun(q', rest)
    ensures Runs(q, [a] + rest) && After(q, [a] + rest) == After(q', rest) && CarefulRun(q, [a] + rest)
  {
    Chain(q, a, rest);
    assert ([a] + rest)[1..] == rest;
  }

  lemma FromQueued(mode: Ordered, rest: seq<Step>)
    requires Runs(Taken(mode), rest) && CarefulRun(Taken(mode), rest)
    ensures var steps := [FetchNext] + ([TakeOff(0)] + rest);
            && Runs(Queued(mode), steps) && CarefulRun(Queued(mode), steps)
            && After(Queued(mode), steps) == After(Taken(mode), rest)
  {
    ReadGiven(mode);
    ReadTaken(mode);
    CarefulChain(Given(mode), TakeOff(0), Taken(mode), rest);
    CarefulChain(Queued(mode), FetchNext, Given(mode), [TakeOff(0)] + rest);
  }

  lemma FromEmpty(mode: Ordered, rest: seq<Step>)
    requires Runs(Queued(mode), rest) && CarefulRun(Queued(mode), rest)
    ensures var steps := [SetOrdered(mode)] + ([READ] + rest);
            Runs(EMPTY, steps) && CarefulRun(EMPTY, steps) && After(EMPTY, steps) == After(Queued(mode), rest)
  {
    ReadQueued(mode);
    CarefulChain(Mode(mode), READ, Queued(mode), rest);
    CarefulChain(EMPTY, SetOrdered(mode), Mode(mode), [READ] + rest);
  }

  lemma FromTaken(mode: Ordered, rest: seq<Step>)
    requires Runs(Taken(mode), rest) && CarefulRun(Taken(mode), rest)
    ensures var steps := [SetOrdered(mode)] + ([READ] + ([FetchNext] + ([TakeOff(0)] + rest)));
            Runs(EMPTY, steps) && CarefulRun(EMPTY, steps) && After(EMPTY, steps) == After(Taken(mode), rest)
  {
    FromQueued(mode, rest);
    FromEmpty(mode, [FetchNext] + ([TakeOff(0)] + rest));
  }

  lemma BarrierQueued(mode: Ordered)
    ensures Enabled(Taken(mode), BARRIER) && Careful(Taken(mode), BARRIER)
    ensures Apply(Taken(mode), BARRIER) == Behind(mode)
  {
  }

  lemma PreludeRuns(mode: Ordered, q: Queue, rest: seq<Step>)
    requires q == Behind(mode) && Runs(q, rest) && CarefulRun(q, rest)
    ensures var steps := Prelude(mode, rest);
            Runs(EMPTY, steps) && CarefulRun(EMPTY, steps) && After(EMPTY, steps) == After(q, rest)
  {
    BarrierQueued(mode);
    CarefulChain(Taken(mode), BARRIER, q, rest);
    FromTaken(mode, [BARRIER] + rest);
  }

  /** A careful run reaches a barrier that is about to be turned down while a read is in flight: the mode has changed since it was accepted. */
  lemma RejectionReached() returns (steps: seq<Step>)
    ensures Runs(EMPTY, steps) && CarefulRun(EMPTY, steps)
    ensures var q := After(EMPTY, steps); Inv(q) && Rejects(q) && q.inFlight > 0
  {
    SubmitAlone(Taken(Drain), 1, 1);
    var q := Behind(Drain);
    CarefulChain(q, SetOrdered(OrderedNone), WithMode(q, OrderedNone), []);
    PreludeRuns(Drain, q, [SetOrdered(OrderedNone)] + []);
    steps := Prelude(Drain, [SetOrdered(OrderedNone)] + []);
    InitialState();
    RunInv(EMPTY, steps);
  }

  lemma RequeuedAhead(q: Queue, d: Queue, q': Queue)
    requires q == Behind(Drain) && d == Fetch(q).0 && d.driver != [] && q' == RequeueRequest(d, 0)
    requires Active(d) && |d.head| == 1 && d.head[0].id.BarRq? && d.driver == q.driver
    requires !d.orig.value.color && d.ordcolor && !d.ordseq.drain
    ensures WrongColor(q') && WorkAheadOfBar(q'.head)
  {
    assert q'.head[0].Work() && q'.head[1].id.BarRq?;
  }

  /** A careful run reaches a sequence that drains with its own request ahead of it and a newer colour. */
  lemma WrongColorReached() returns (steps: seq<Step>)
    ensures Runs(EMPTY, steps) && CarefulRun(EMPTY, steps)
    ensures var q := After(EMPTY, steps); Inv(q) && WrongColor(q) && WorkAheadOfBar(q.head)
  {
    SubmitAlone(Taken(Drain), 1, 1);
    var q := Behind(Drain);
    FetchStartsDrain(q);
    StartedDrain(q);
    var d := Fetch(q).0;
    RequeuedAhead(q, d, RequeueRequest(d, 0));
    CarefulChain(d, Requeue(0), RequeueRequest(d, 0), []);
    CarefulChain(q, FetchNext, d, [Requeue(0)] + []);
    PreludeRuns(Drain, q, [FetchNext] + ([Requeue(0)] + []));
    steps := Prelude(Drain, [FetchNext] + ([Requeue(0)] + []));
    InitialState();
    RunInv(EMPTY, steps);
  }
}
