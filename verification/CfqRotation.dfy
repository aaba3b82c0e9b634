/**
  The rotation of CFQ over its eight best-effort priority levels: the turns form a triangle
  (0; 0,1; 0,1,2; ...), so that level p is offered 8 - p of 36 turns.
 */
module CfqRotation {
  const LEVELS: nat := 8          // CFQ_PRIO_LISTS
  const TURNS: nat := 36          // 1 + 2 + ... + 8

  /** One turn: the level offered, in the row that ends at level `end`.  It is the pair (cur_prio, cur_end_prio). */
  datatype Turn = Turn(level: nat, end: nat) {
    predicate Valid() { level <= end < LEVELS }
  }

  const ROW: seq<nat> := [0, 1, 3, 6, 10, 15, 21, 28]

  /** The place of a turn in the triangle, read row by row. */
  function Index(t: Turn): (i: nat)
    requires t.Valid()
    ensures i < TURNS
  {
    ROW[t.end] + t.level
  }

  function Next(t: Turn): (n: Turn)
    requires t.Valid()
    ensures n.Valid()
  {
    if t.level < t.end then t.(level := t.level + 1)
    else if t.end + 1 < LEVELS then Turn(0, t.end + 1)
    else Turn(0, 0)
  }

  function Skip(t: Turn, n: nat): (r: Turn)
    requires t.Valid()
    ensures r.Valid()
  {
    if n == 0 then t else Next(Skip(t, n - 1))
  }

  lemma NextIndex(t: Turn)
    requires t.Valid()
    ensures Index(Next(t)) == if Index(t) + 1 == TURNS then 0 else Index(t) + 1
  {
  }

  lemma IndexInjective(a: Turn, b: Turn)
    requires a.Valid() && b.Valid() && Index(a) == Index(b)
    ensures a == b
  {
  }

  /** Within one round the index just counts up and wraps. */
  lemma {:induction false} SkipIndex(t: Turn, n: nat)
    requires t.Valid() && n <= TURNS
    ensures Index(Skip(t, n)) == if Index(t) + n < TURNS then Index(t) + n else Index(t) + n - TURNS
  {
    if n > 0 {
      SkipIndex(t, n - 1);
      var s := Skip(t, n - 1);
      assert Skip(t, n) == Next(s);
      NextIndex(s);
    }
  }

  lemma FullRound(t: Turn)
    requires t.Valid()
    ensures Skip(t, TURNS) == t
  {
    SkipIndex(t, TURNS);
    IndexInjective(Skip(t, TURNS), t);
  }

  lemma {:induction false} SkipSkip(t: Turn, m: nat, n: nat)
    requires t.Valid()
    ensures Skip(Skip(t, m), n) == Skip(t, m + n)
  {
    if n > 0 { SkipSkip(t, m, n - 1); }
  }

  // ---------------------------------------------------------------- choosing a level

  /** Which levels have a queue waiting. */
  type Waiting = s: seq<bool> | |s| == LEVELS witness [false, false, false, false, false, false, false, false]

  ghost predicate NoneBefore(t: Turn, w: Waiting, n: nat)
    requires t.Valid()
  {
    forall k | 0 <= k < n :: !w[Skip(t, k).level]
  }

  /** The chosen level is the first waiting one among the turns from `t` on. */
  ghost predicate Chooses(t: Turn, w: Waiting, n: nat)
    requires t.Valid()
  {
    w[Skip(t, n).level] && NoneBefore(t, w, n)
  }

  lemma PassOver(t: Turn, w: Waiting, n: nat, s: Turn)
    requires t.Valid() && NoneBefore(t, w, n) && Skip(t, n) == s && !w[s.level]
    ensures NoneBefore(t, w, n + 1) && Skip(t, n + 1) == Next(s)
  {
  }

  /** No turn is looked at twice: what has to be skipped is less than a round. */
  lemma ChoiceWithinRound(t: Turn, w: Waiting, n: nat)
    requires t.Valid() && Chooses(t, w, n)
    ensures n < TURNS
  {
    if n >= TURNS {
      FullRound(t);
      SkipSkip(t, TURNS, n - TURNS);
    }
  }

  /** cfq_get_next_prio_level as a relation: the level taken, and the turn the rotation then stands at. */
  ghost predicate Rotated(t: Turn, w: Waiting, t': Turn, level: int)
    requires t.Valid()
  {
    if level < 0 then level == -1 && t' == Turn(0, 0) && forall p | 0 <= p < LEVELS :: !w[p]
    else exists n: nat :: Chooses(t, w, n) && level == Skip(t, n).level && t' == Skip(t, n + 1)
  }

  /** The same as a function: the first waiting turn of a round, if there is one. */
  function FirstWaiting(t: Turn, w: Waiting, n: nat): (k: nat)
    requires t.Valid()
    ensures k <= n
    ensures NoneBefore(t, w, k)
    ensures k < n ==> w[Skip(t, k).level]
  {
    if n == 0 then 0
    else
      var k := FirstWaiting(t, w, n - 1);
      if k < n - 1 || w[Skip(t, n - 1).level] then k else n
  }

  function NextLevel(t: Turn, w: Waiting): (r: (Turn, int))
    requires t.Valid()
    ensures r.0.Valid() && -1 <= r.1 < LEVELS
    ensures r.1 != -1 ==> w[r.1]
  {
    var n := FirstWaiting(t, w, TURNS);
    if n == TURNS then (Turn(0, 0), -1) else (Skip(t, n + 1), Skip(t, n).level as int)
  }

  /** The relation leaves no choice. */
  lemma RotatedIsNextLevel(t: Turn, w: Waiting, t': Turn, level: int)
    requires t.Valid()
    ensures Rotated(t, w, t', level) <==> (t', level) == NextLevel(t, w)
  {
    var n := FirstWaiting(t, w, TURNS);
    if n < TURNS {
      assert Chooses(t, w, n);
      assert w[Skip(t, n).level];
      if level >= 0 && Rotated(t, w, t', level) {
        var m: nat :| Chooses(t, w, m) && level == Skip(t, m).level && t' == Skip(t, m + 1);
        assert m == n;
      }
    } else {
      NobodyWaits(t, w);
    }
  }

  lemma NobodyWaits(t: Turn, w: Waiting)
    requires t.Valid() && NoneBefore(t, w, TURNS)
    ensures forall p | 0 <= p < LEVELS :: !w[p]
  {
    forall p | 0 <= p < LEVELS ensures !w[p] {
      var n := TurnComes(t, p);
    }
  }

  class Rotation {
    var curPrio: nat
    var curEndPrio: nat

    function At(): Turn
      reads this
    {
      Turn(curPrio, curEndPrio)
    }

    constructor ()
      ensures At() == Turn(0, 0) && At().Valid()
    {
      curPrio, curEndPrio := 0, 0;
    }

    /** The inner loop: the first waiting level of the rest of the row. */
    method ScanRow(waiting: Waiting, ghost t: Turn, ghost n: nat) returns (prio: int, ghost m: nat)
      requires At().Valid() && t.Valid() && At() == Skip(t, n)
      requires NoneBefore(t, waiting, n)
      ensures prio == -1 ==> forall p | curPrio <= p <= curEndPrio :: !waiting[p]
      ensures prio == -1 ==> Skip(t, m) == Next(Turn(curEndPrio, curEndPrio)) && NoneBefore(t, waiting, m)
      ensures prio != -1 ==> curPrio <= prio <= curEndPrio && Chooses(t, waiting, m) && Skip(t, m) == Turn(prio, curEndPrio)
    {
      prio, m := -1, n;
      var p := curPrio;
      while p <= curEndPrio
        invariant curPrio <= p <= curEndPrio + 1
        invariant Skip(t, m) == if p <= curEndPrio then Turn(p, curEndPrio) else Next(Turn(curEndPrio, curEndPrio))
        invariant NoneBefore(t, waiting, m)
        invariant forall q | curPrio <= q < p :: !waiting[q]
      {
        if waiting[p] { return p, m; }
        PassOver(t, waiting, m, Turn(p, curEndPrio));
        p, m := p + 1, m + 1;
      }
    }

    /** cfq_get_next_prio_level.  It terminates, and its BUG_ON does not fire. */
    method GetNextPrioLevel(waiting: Waiting) returns (prio: int)
      requires At().Valid()
      modifies this
      ensures At().Valid() && -1 <= prio < LEVELS
      ensures Rotated(old(At()), waiting, At(), prio)
      ensures (At(), prio) == NextLevel(old(At()), waiting)
    {
      ghost var t, n := At(), 0;
      forall t', l { RotatedIsNextLevel(t, waiting, t', l); }
      var wrap := false;
      while true
        invariant At().Valid() && At() == Skip(t, n)
        invariant NoneBefore(t, waiting, n)
        invariant wrap ==> curPrio == 0
        decreases !wrap, LEVELS - curEndPrio
      {
        prio, n := ScanRow(waiting, t, n);
        if prio != -1 { break; }
        curPrio := 0;
        curEndPrio := curEndPrio + 1;
        if curEndPrio == LEVELS {
          curEndPrio := 0;
          if wrap { return -1; }
          wrap := true;
        }
      }
      curPrio := prio + 1;
      if curPrio > curEndPrio {
        curEndPrio := curPrio;
        curPrio := 0;
      }
      if curEndPrio == LEVELS {
        curPrio := 0;
        curEndPrio := 0;
      }
      assert At() == Next(Skip(t, n)) == Skip(t, n + 1);
    }
  }

  // ---------------------------------------------------------------- fairness

  /** A run of calls: the turns the rotation stands at, who waits at each call, and the levels returned. */
  ghost predicate History(turns: seq<Turn>, waits: seq<Waiting>, levels: seq<int>) {
    && |turns| == |waits| + 1 && |levels| == |waits|
    && (forall k | 0 <= k < |turns| :: turns[k].Valid())
    && (forall k | 0 <= k < |waits| :: Rotated(turns[k], waits[k], turns[k + 1], levels[k]))
  }

  lemma TurnComes(t: Turn, p: nat) returns (n: nat)
    requires t.Valid() && p < LEVELS
    ensures n < TURNS && Skip(t, n).level == p
  {
    var goal := Turn(p, LEVELS - 1);
    n := if Index(goal) >= Index(t) then Index(goal) - Index(t) else Index(goal) + TURNS - Index(t);
    SkipIndex(t, n);
    IndexInjective(Skip(t, n), goal);
  }

  lemma HistoryTail(turns: seq<Turn>, waits: seq<Waiting>, levels: seq<int>)
    requires History(turns, waits, levels) && waits != []
    ensures History(turns[1..], waits[1..], levels[1..])
  {
    forall k | 0 <= k < |waits| - 1
      ensures Rotated(turns[1..][k], waits[1..][k], turns[1..][k + 1], levels[1..][k])
    {
      assert Rotated(turns[k + 1], waits[k + 1], turns[k + 2], levels[k + 1]);
    }
  }

  lemma {:induction false} ServedByTurn(turns: seq<Turn>, waits: seq<Waiting>, levels: seq<int>, p: nat, n: nat)
    requires History(turns, waits, levels) && p < LEVELS && n < |waits|
    requires forall k | 0 <= k < |waits| :: waits[k][p]
    requires Skip(turns[0], n).level == p
    ensures exists k :: 0 <= k <= n && levels[k] == p
    decreases n
  {
    assert Rotated(turns[0], waits[0], turns[1], levels[0]) && waits[0][p];
    var m: nat :| Chooses(turns[0], waits[0], m) && levels[0] == Skip(turns[0], m).level && turns[1] == Skip(turns[0], m + 1);
    NotPassedOver(turns[0], waits[0], m, n);
    if m < n {
      SkipSkip(turns[0], m + 1, n - m - 1);
      HistoryTail(turns, waits, levels);
      ServedByTurn(turns[1..], waits[1..], levels[1..], p, n - m - 1);
      var k :| 0 <= k <= n - m - 1 && levels[1..][k] == p;
      assert levels[k + 1] == p;
    }
  }

  lemma NotPassedOver(t: Turn, w: Waiting, m: nat, n: nat)
    requires t.Valid() && Chooses(t, w, m) && w[Skip(t, n).level]
    ensures m <= n
  {
  }

  /** A level that waits at every call is chosen at one of any 36 calls in a row. */
  lemma BoundedWait(turns: seq<Turn>, waits: seq<Waiting>, levels: seq<int>, p: nat)
    requires History(turns, waits, levels) && p < LEVELS && |waits| == TURNS
    requires forall k | 0 <= k < |waits| :: waits[k][p]
    ensures exists k :: 0 <= k < TURNS && levels[k] == p
  {
    var n := TurnComes(turns[0], p);
    ServedByTurn(turns, waits, levels, p, n);
  }

  /** How many of the n turns from t offer level p. */
  function Count(t: Turn, n: nat, p: nat): nat
    requires t.Valid()
  {
    if n == 0 then 0 else Count(t, n - 1, p) + (if Skip(t, n - 1).level == p then 1 else 0)
  }

  lemma {:induction false} CountSplit(t: Turn, m: nat, n: nat, p: nat)
    requires t.Valid()
    ensures Count(t, m + n, p) == Count(t, m, p) + Count(Skip(t, m), n, p)
  {
    if n > 0 {
      CountSplit(t, m, n - 1, p);
      SkipSkip(t, m, n - 1);
    }
  }

  lemma {:induction false} RowCount(e: nat, n: nat, p: nat)
    requires e < LEVELS && n <= e + 1
    ensures Count(Turn(0, e), n, p) == if p < n then 1 else 0
    ensures Skip(Turn(0, e), n) == if n <= e then Turn(n, e) else Next(Turn(e, e))
  {
    if n > 0 { RowCount(e, n - 1, p); }
  }

  lemma NextRow(a: nat, e: nat, p: nat)
    requires 0 < e < LEVELS && Skip(Turn(0, 0), a) == Turn(0, e - 1)
    ensures Count(Turn(0, 0), a + e, p) == Count(Turn(0, 0), a, p) + if p < e then 1 else 0
    ensures Skip(Turn(0, 0), a + e) == Turn(0, e)
  {
    RowCount(e - 1, e, p);
    CountSplit(Turn(0, 0), a, e, p);
    SkipSkip(Turn(0, 0), a, e);
  }

  lemma RowStarts(e: nat)
    requires 0 < e < LEVELS
    ensures ROW[e] == ROW[e - 1] + e
  {
  }

  lemma {:induction false} RowsCount(e: nat, a: nat, p: nat)
    requires e < LEVELS && a == ROW[e]
    ensures Count(Turn(0, 0), a, p) == if p < e then e - p else 0
    ensures Skip(Turn(0, 0), a) == Turn(0, e)
  {
    if e > 0 {
      RowStarts(e);
      RowsCount(e - 1, ROW[e - 1], p);
      NextRow(ROW[e - 1], e, p);
    }
  }

  lemma {:induction false} RoundCount(n: nat, p: nat)
    requires p < LEVELS
    ensures Count(Skip(Turn(0, 0), n), TURNS, p) == LEVELS - p
  {
    var t := Skip(Turn(0, 0), n);
    if n == 0 {
      RowsCount(LEVELS - 1, ROW[LEVELS - 1], p);
      RowCount(LEVELS - 1, LEVELS, p);
      CountSplit(t, ROW[LEVELS - 1], LEVELS, p);
    } else {
      var s := Skip(Turn(0, 0), n - 1);
      RoundCount(n - 1, p);
      CountSplit(s, 1, TURNS, p);
      CountSplit(s, TURNS, 1, p);
      FullRound(s);
      assert Skip(s, 1) == Next(Skip(s, 0)) == t;
    }
  }

  lemma TurnTaken(t: Turn, w: Waiting, t': Turn, level: int)
    requires t.Valid() && Rotated(t, w, t', level) && forall p | 0 <= p < LEVELS :: w[p]
    ensures level == t.level && t' == Next(t)
  {
    assert w[0];
    var m: nat :| Chooses(t, w, m) && level == Skip(t, m).level && t' == Skip(t, m + 1);
    assert Skip(t, 0) == t && w[Skip(t, 0).level];
    assert m == 0;
    assert Skip(t, 1) == Next(Skip(t, 0));
  }

  lemma {:induction false} EveryTurnTaken(turns: seq<Turn>, waits: seq<Waiting>, levels: seq<int>, k: nat)
    requires History(turns, waits, levels) && k < |waits|
    requires forall j, p | 0 <= j < |waits| && 0 <= p < LEVELS :: waits[j][p]
    ensures turns[k] == Skip(turns[0], k) && levels[k] == Skip(turns[0], k).level
  {
    if k > 0 {
      EveryTurnTaken(turns, waits, levels, k - 1);
      TurnTaken(turns[k - 1], waits[k - 1], turns[k], levels[k - 1]);
    }
    TurnTaken(turns[k], waits[k], turns[k + 1], levels[k]);
  }

  function Chosen(levels: seq<int>, p: int): nat {
    if levels == [] then 0 else Chosen(levels[..|levels| - 1], p) + (if levels[|levels| - 1] == p then 1 else 0)
  }

  lemma {:induction false} ChosenIsCount(t: Turn, levels: seq<int>, p: nat)
    requires t.Valid() && forall k | 0 <= k < |levels| :: levels[k] == Skip(t, k).level
    ensures Chosen(levels, p) == Count(t, |levels|, p)
  {
    if levels != [] { ChosenIsCount(t, levels[..|levels| - 1], p); }
  }

  /** With every level waiting, level p is chosen at exactly 8 - p of any 36 calls in a row. */
  lemma FairShare(turns: seq<Turn>, waits: seq<Waiting>, levels: seq<int>, p: nat)
    requires History(turns, waits, levels) && p < LEVELS && |waits| == TURNS
    requires forall j, q | 0 <= j < |waits| && 0 <= q < LEVELS :: waits[j][q]
    ensures Chosen(levels, p) == LEVELS - p
  {
    forall k | 0 <= k < TURNS ensures levels[k] == Skip(turns[0], k).level {
      EveryTurnTaken(turns, waits, levels, k);
    }
    ChosenIsCount(turns[0], levels, p);
    SkipIndex(Turn(0, 0), Index(turns[0]));
    IndexInjective(Skip(Turn(0, 0), Index(turns[0])), turns[0]);
    RoundCount(Index(turns[0]), p);
  }
}
