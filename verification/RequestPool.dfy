/** The request pool of a queue: how the full and congested marks follow the number of requests handed out. */
module RequestPool {

  const MIN_RQ: nat := 4           // BLKDEV_MIN_RQ

  /** One direction of struct request_list, with the queue's marks for it. */
  datatype Side = Side(count: nat, full: bool, congested: bool, starved: bool)

  datatype Pool = Pool(rd: Side, wr: Side, nr: nat, on: int, off: int) {
    function Of(read: bool): Side { if read then rd else wr }
    function With(read: bool, s: Side): Pool { if read then this.(rd := s) else this.(wr := s) }
  }

  // ---------------------------------------------------------------- thresholds

  function OnThreshold(nr: nat): int {
    var n := nr - nr / 8 + 1;
    if n > nr then nr else n
  }

  function OffThreshold(nr: nat): int {
    var n := nr - nr / 8 - nr / 16 - 1;
    if n < 1 then 1 else n
  }

  /** The two thresholds leave a gap exactly when there are at least two requests. */
  lemma ThresholdsApart(nr: nat)
    ensures OffThreshold(nr) < OnThreshold(nr) <==> nr >= 2
    ensures OnThreshold(nr) <= nr
  {
  }

  function Fresh(nr: nat): Pool {
    var s := Side(0, false, false, false);
    Pool(s, s, nr, OnThreshold(nr), OffThreshold(nr))
  }

  // ---------------------------------------------------------------- the steps

  /** __freed_request. */
  function Relaxed(p: Pool, read: bool): Pool {
    var s := p.Of(read);
    p.With(read, s.(congested := s.congested && s.count >= p.off, full := s.full && s.count + 1 > p.nr))
  }

  /** freed_request. */
  function Freed(p: Pool, read: bool): Pool
    requires p.Of(read).count > 0
  {
    var p1 := Relaxed(p.With(read, p.Of(read).(count := p.Of(read).count - 1)), read);
    if p1.Of(!read).starved then Relaxed(p1, !read) else p1
  }

  /** How elv_may_queue answers. */
  datatype May = May | Must | No

  /** The queue is full, and the process is neither batching nor exempt. */
  predicate Turned(p: Pool, read: bool, may: May, batching: bool) {
    var s := p.Of(read);
    s.count + 1 >= p.on && s.count + 1 >= p.nr && s.full && !may.Must? && !batching
  }

  function Marked(p: Pool, read: bool): Pool {
    var s := p.Of(read);
    if s.count + 1 >= p.on then p.With(read, s.(full := s.full || s.count + 1 >= p.nr, congested := true)) else p
  }

  /** The locked part of get_request: the new pool, and whether a request may be allocated. */
  function Reserve(p: Pool, read: bool, may: May, batching: bool): (Pool, bool) {
    var s := p.Of(read);
    if may.No? then (p.With(read, s.(starved := s.starved || s.count == 0)), false)
    else if Turned(p, read, may, batching) then (p, false)
    else
      var p1 := Marked(p, read);
      if s.count >= 3 * p.nr / 2 then (p1, false)
      else (p1.With(read, p1.Of(read).(count := s.count + 1, starved := false)), true)
  }

  /** The allocation behind a reservation failed. */
  function Undo(p: Pool, read: bool): Pool
    requires p.Of(read).count > 0
  {
    var p1 := Freed(p, read);
    p1.With(read, p1.Of(read).(starved := p1.Of(read).starved || p1.Of(read).count == 0))
  }

  function Resized(p: Pool, read: bool): Pool {
    var s := p.Of(read);
    p.With(read, s.(congested := s.count >= p.on || (s.congested && s.count >= p.off), full := s.count >= p.nr))
  }

  /** queue_requests_store. */
  function Resize(p: Pool, n: nat): Pool {
    var nr := if n < MIN_RQ then MIN_RQ else n;
    Resized(Resized(p.(nr := nr, on := OnThreshold(nr), off := OffThreshold(nr)), true), false)
  }

  // ---------------------------------------------------------------- every interleaving

  datatype Step =
    | Get(read: bool, may: May, batching: bool)
    | Fail(read: bool)
    | Free(read: bool)
    | Store(n: nat)

  predicate Enabled(p: Pool, s: Step) {
    match s
    case Fail(read) => p.Of(read).count > 0
    case Free(read) => p.Of(read).count > 0
    case _ => true
  }

  function Apply(p: Pool, s: Step): Pool
    requires Enabled(p, s)
  {
    match s
    case Get(read, may, batching) => Reserve(p, read, may, batching).0
    case Fail(read) => Undo(p, read)
    case Free(read) => Freed(p, read)
    case Store(n) => Resize(p, n)
  }

  predicate Runs(p: Pool, steps: seq<Step>)
    decreases |steps|
  {
    steps == [] || (Enabled(p, steps[0]) && Runs(Apply(p, steps[0]), steps[1..]))
  }

  function After(p: Pool, steps: seq<Step>): Pool
    requires Runs(p, steps)
    decreases |steps|
  {
    if steps == [] then p else After(Apply(p, steps[0]), steps[1..])
  }

  /** A direction is marked full iff it has used up its requests, congested above and not congested below the thresholds. */
  predicate Exact(p: Pool, s: Side) {
    && (s.full <==> s.count >= p.nr)
    && (s.count >= p.on ==> s.congested)
    && (s.count < p.off ==> !s.congested)
  }

  predicate Inv(p: Pool) {
    && p.nr >= MIN_RQ && p.on == OnThreshold(p.nr) && p.off == OffThreshold(p.nr)
    && Exact(p, p.rd) && Exact(p, p.wr)
  }

  /** Releasing makes the marks of a direction exact again, if they erred only on the side of full or congested. */
  lemma RelaxedExact(p: Pool, read: bool)
    requires p.off < p.on && (p.Of(read).count >= p.nr ==> p.Of(read).full) && (p.Of(read).count >= p.on ==> p.Of(read).congested)
    ensures Exact(Relaxed(p, read), Relaxed(p, read).Of(read)) && Relaxed(p, read).Of(!read) == p.Of(!read)
    ensures Relaxed(p, read) == p.With(read, Relaxed(p, read).Of(read))
  {
  }

  /** A release keeps both directions exact, whatever the thresholds, if they leave a gap. */
  lemma FreedExact(p: Pool, read: bool)
    requires p.off < p.on <= p.nr && Exact(p, p.rd) && Exact(p, p.wr) && p.Of(read).count > 0
    ensures var f := Freed(p, read); Exact(f, f.rd) && Exact(f, f.wr) && f.nr == p.nr && f.on == p.on && f.off == p.off
  {
    var p0 := p.With(read, p.Of(read).(count := p.Of(read).count - 1));
    RelaxedExact(p0, read);
    RelaxedExact(Relaxed(p0, read), !read);
  }

  lemma FreedInv(p: Pool, read: bool)
    requires Inv(p) && p.Of(read).count > 0
    ensures Inv(Freed(p, read))
  {
    ThresholdsApart(p.nr);
    FreedExact(p, read);
  }

  lemma StarvedInv(p: Pool, read: bool, x: bool)
    requires Inv(p)
    ensures Inv(p.With(read, p.Of(read).(starved := x)))
  {
  }

  lemma ReserveExact(p: Pool, read: bool, may: May, batching: bool)
    requires p.off < p.on <= p.nr && Exact(p, p.rd) && Exact(p, p.wr)
    ensures var f := Reserve(p, read, may, batching).0;
            Exact(f, f.rd) && Exact(f, f.wr) && f.nr == p.nr && f.on == p.on && f.off == p.off
  {
  }

  lemma ReserveInv(p: Pool, read: bool, may: May, batching: bool)
    requires Inv(p)
    ensures Inv(Reserve(p, read, may, batching).0)
  {
    ThresholdsApart(p.nr);
    ReserveExact(p, read, may, batching);
  }

  lemma ResizedExact(p: Pool, read: bool)
    requires p.off < p.on
    ensures Exact(Resized(p, read), Resized(p, read).Of(read)) && Resized(p, read).Of(!read) == p.Of(!read)
    ensures Resized(p, read) == p.With(read, Resized(p, read).Of(read))
  {
  }

  lemma StepInv(p: Pool, s: Step)
    requires Inv(p) && Enabled(p, s)
    ensures Inv(Apply(p, s))
  {
    match s
    case Get(read, may, batching) => ReserveInv(p, read, may, batching);
    case Fail(read) =>
      FreedInv(p, read);
      StarvedInv(Freed(p, read), read, Freed(p, read).Of(read).starved || Freed(p, read).Of(read).count == 0);
    case Free(read) => FreedInv(p, read);
    case Store(n) =>
      var nr := if n < MIN_RQ then MIN_RQ else n;
      ThresholdsApart(nr);
      var p0 := p.(nr := nr, on := OnThreshold(nr), off := OffThreshold(nr));
      ResizedExact(p0, true);
      ResizedExact(Resized(p0, true), false);
  }

  lemma {:induction false} RunInv(p: Pool, steps: seq<Step>)
    requires Inv(p) && Runs(p, steps)
    ensures Inv(After(p, steps))
    decreases |steps|
  {
    if steps != [] {
      StepInv(p, steps[0]);
      RunInv(Apply(p, steps[0]), steps[1..]);
    }
  }

  /** Over every interleaving of allocations, failed allocations, releases and resizes the marks are exact. */
  lemma MarksAreExact(nr: nat, steps: seq<Step>, read: bool)
    requires nr >= MIN_RQ && Runs(Fresh(nr), steps)
    ensures var p := After(Fresh(nr), steps);
            && (p.Of(read).full <==> p.Of(read).count >= p.nr)
            && (p.Of(read).count >= p.on ==> p.Of(read).congested)
            && (p.Of(read).count < p.off ==> !p.Of(read).congested)
            && p.off < p.on <= p.nr
  {
    ThresholdsApart(nr);
    RunInv(Fresh(nr), steps);
    ThresholdsApart(After(Fresh(nr), steps).nr);
  }

  // ---------------------------------------------------------------- the pool in place

  lemma ReserveCounts(p: Pool, read: bool, may: May, batching: bool)
    ensures var (q, ok) := Reserve(p, read, may, batching);
            && q.Of(read).count == p.Of(read).count + (if ok then 1 else 0)
            && q.Of(!read).count == p.Of(!read).count && q.nr == p.nr
  {
  }

  lemma UndoCounts(p: Pool, read: bool)
    requires p.Of(read).count > 0
    ensures var q := Undo(p, read);
            q.Of(read).count == p.Of(read).count - 1 && q.Of(!read).count == p.Of(!read).count && q.nr == p.nr
  {
  }

  class RequestList {
    var rd: Side
    var wr: Side
    var nr: nat
    var on: int
    var off: int

    function State(): Pool
      reads this
    {
      Pool(rd, wr, nr, on, off)
    }

    constructor (n: nat)
      requires n >= MIN_RQ
      ensures State() == Fresh(n) && Inv(State())
    {
      var s := Side(0, false, false, false);
      rd, wr, nr, on, off := s, s, n, OnThreshold(n), OffThreshold(n);
      new;
      ThresholdsApart(n);
    }

    method SetSide(read: bool, s: Side)
      modifies this`rd, this`wr
      ensures State() == old(State()).With(read, s)
    {
      if read { rd := s; } else { wr := s; }
    }

    method Relax(read: bool)
      modifies this`rd, this`wr
      ensures State() == Relaxed(old(State()), read)
    {
      var s := if read then rd else wr;
      if s.count < off { s := s.(congested := false); }
      if s.count + 1 <= nr { s := s.(full := false); }
      SetSide(read, s);
    }

    method FreedRequest(read: bool)
      requires Inv(State()) && State().Of(read).count > 0
      modifies this
      ensures State() == Freed(old(State()), read) && Inv(State())
    {
      FreedInv(State(), read);
      var s := if read then rd else wr;
      SetSide(read, s.(count := s.count - 1));
      Relax(read);
      if (if read then wr else rd).starved { Relax(!read); }
    }

    /** The allocation behind a reservation failed. */
    method UndoReserve(read: bool)
      requires Inv(State()) && State().Of(read).count > 0
      modifies this
      ensures State() == Undo(old(State()), read) && Inv(State())
    {
      StepInv(State(), Fail(read));
      FreedRequest(read);
      var s := if read then rd else wr;
      if s.count == 0 { s := s.(starved := true); }
      SetSide(read, s);
    }

    /** get_request; `memory` says whether memory could be had. */
    method GetRequest(read: bool, may: May, batching: bool, memory: bool) returns (ok: bool)
      requires Inv(State())
      modifies this
      ensures Inv(State())
      ensures ok == (memory && Reserve(old(State()), read, may, batching).1)
      ensures State().Of(read).count == old(State()).Of(read).count + if ok then 1 else 0
      ensures State().Of(!read).count == old(State()).Of(!read).count && nr == old(nr)
    {
      ReserveInv(State(), read, may, batching);
      ReserveCounts(State(), read, may, batching);
      ok := TryReserve(read, may, batching);
      if ok && !memory {
        UndoCounts(State(), read);
        UndoReserve(read);
        ok := false;
      }
    }

    /** The part of get_request under the queue lock. */
    method TryReserve(read: bool, may: May, batching: bool) returns (ok: bool)
      modifies this`rd, this`wr
      ensures (State(), ok) == Reserve(old(State()), read, may, batching)
    {
      var s := if read then rd else wr;
      if may.No? {
        if s.count == 0 { s := s.(starved := true); }
        SetSide(read, s);
        return false;
      }
      if s.count + 1 >= on {
        if s.count + 1 >= nr {
          if !s.full { s := s.(full := true); }
          else if !may.Must? && !batching { return false; }
        }
        s := s.(congested := true);
      }
      if s.count >= 3 * nr / 2 {
        SetSide(read, s);
        return false;
      }
      s := s.(count := s.count + 1, starved := false);
      SetSide(read, s);
      return true;
    }

    method Store(n: nat)
      requires Inv(State())
      modifies this
      ensures State() == Resize(old(State()), n) && Inv(State())
    {
      StepInv(State(), Step.Store(n));
      nr := if n < MIN_RQ then MIN_RQ else n;
      on, off := OnThreshold(nr), OffThreshold(nr);
      Remark(true);
      Remark(false);
    }

    method Remark(read: bool)
      modifies this`rd, this`wr
      ensures State() == Resized(old(State()), read)
    {
      var s := if read then rd else wr;
      if s.count >= on { s := s.(congested := true); } else if s.count < off { s := s.(congested := false); }
      if s.count >= nr { s := s.(full := true); } else if s.count + 1 <= nr { s := s.(full := false); }
      SetSide(read, s);
    }
  }
}
