/**
  Building a scatter-gather list from the bios of a request (blk_rq_map_sg), and why the segment
  counts kept while the request was merged together (blk_recount_segments) always leave room for it.
 */
module Segments {

  /** A piece of one page: its physical address, its length and the number of its page frame. */
  datatype Bvec = Bvec(addr: nat, len: nat, pfn: nat)

  type Pos = n: nat | n > 0 witness 1

  /** The limits of a queue.  `window` is seg_boundary_mask + 1; the last three stand for the BIOVEC_VIRT macros. */
  datatype Limits = Limits(
    cluster: bool,
    maxSize: nat,
    window: Pos,
    bouncePfn: nat,
    maxPhys: nat,
    maxHw: nat,
    virtMergeable: (Bvec, Bvec) -> bool,
    virtStart: Bvec -> nat,
    virtOversize: nat -> bool)

  /** Both may be part of one segment: adjacent in memory, and not across a boundary of the queue. */
  predicate Adjacent(q: Limits, a: Bvec, b: Bvec) {
    && a.addr + a.len == b.addr
    && a.addr / q.window == (b.addr + b.len - 1) / q.window
  }

  function Size(run: seq<Bvec>): nat {
    if run == [] then 0 else Size(run[..|run| - 1]) + run[|run| - 1].len
  }

  /** A run of pieces that one scatter-gather entry may cover. */
  ghost predicate Legal(q: Limits, run: seq<Bvec>) {
    && run != []
    && (|run| > 1 ==> q.cluster && Size(run) <= q.maxSize)
    && forall i | 0 <= i < |run| - 1 :: Adjacent(q, run[i], run[i + 1])
  }

  function Flat(runs: seq<seq<Bvec>>): seq<Bvec> {
    if runs == [] then [] else Flat(runs[..|runs| - 1]) + runs[|runs| - 1]
  }

  /** A way of cutting the pieces into legal runs. */
  ghost predicate Cuts(q: Limits, runs: seq<seq<Bvec>>, s: seq<Bvec>) {
    Flat(runs) == s && forall i | 0 <= i < |runs| :: Legal(q, runs[i])
  }

  // ---------------------------------------------------------------- the greedy list

  /** May b be added to the last entry? */
  predicate Fits(q: Limits, run: seq<Bvec>, b: Bvec)
    requires run != []
  {
    q.cluster && Size(run) + b.len <= q.maxSize && Adjacent(q, run[|run| - 1], b)
  }

  function Extended(runs: seq<seq<Bvec>>, b: Bvec): seq<seq<Bvec>>
    requires runs != []
  {
    runs[..|runs| - 1] + [runs[|runs| - 1] + [b]]
  }

  function Greedy(q: Limits, s: seq<Bvec>): (runs: seq<seq<Bvec>>)
    ensures forall i | 0 <= i < |runs| :: runs[i] != []
    ensures runs == [] <==> s == []
  {
    if s == [] then []
    else
      var runs, b := Greedy(q, s[..|s| - 1]), s[|s| - 1];
      if runs != [] && Fits(q, runs[|runs| - 1], b) then Extended(runs, b) else runs + [[b]]
  }

  lemma SizeAppend(run: seq<Bvec>, b: Bvec)
    ensures Size(run + [b]) == Size(run) + b.len
  {
    assert (run + [b])[..|run|] == run;
  }

  lemma LegalAppend(q: Limits, run: seq<Bvec>, b: Bvec)
    requires Legal(q, run) && Fits(q, run, b)
    ensures Legal(q, run + [b])
  {
    SizeAppend(run, b);
    var t := run + [b];
    forall i | 0 <= i < |t| - 1 ensures Adjacent(q, t[i], t[i + 1]) {
      if i < |run| - 1 { assert Adjacent(q, run[i], run[i + 1]); }
    }
  }

  lemma FlatExtended(runs: seq<seq<Bvec>>, b: Bvec)
    requires runs != []
    ensures Flat(Extended(runs, b)) == Flat(runs) + [b]
  {
    var e := Extended(runs, b);
    assert e[..|e| - 1] == runs[..|runs| - 1];
  }

  lemma FlatAppend(runs: seq<seq<Bvec>>, run: seq<Bvec>)
    ensures Flat(runs + [run]) == Flat(runs) + run
  {
    assert (runs + [run])[..|runs|] == runs;
  }

  lemma CutsExtended(q: Limits, runs: seq<seq<Bvec>>, t: seq<Bvec>, b: Bvec)
    requires Cuts(q, runs, t) && runs != [] && runs[|runs| - 1] != [] && Fits(q, runs[|runs| - 1], b)
    ensures Cuts(q, Extended(runs, b), t + [b])
  {
    LegalAppend(q, runs[|runs| - 1], b);
    FlatExtended(runs, b);
  }

  lemma CutsAppended(q: Limits, runs: seq<seq<Bvec>>, t: seq<Bvec>, b: Bvec)
    requires Cuts(q, runs, t)
    ensures Cuts(q, runs + [[b]], t + [b])
  {
    FlatAppend(runs, [b]);
    assert Legal(q, [b]);
  }

  /** The list covers the pieces, in order, by legal entries. */
  lemma {:induction false} GreedyCuts(q: Limits, s: seq<Bvec>)
    ensures Cuts(q, Greedy(q, s), s)
  {
    if s != [] {
      var t, b := s[..|s| - 1], s[|s| - 1];
      GreedyCuts(q, t);
      var runs := Greedy(q, t);
      assert t + [b] == s;
      if runs != [] && Fits(q, runs[|runs| - 1], b) { CutsExtended(q, runs, t, b); } else { CutsAppended(q, runs, t, b); }
    }
  }

  // ---------------------------------------------------------------- the greedy list is shortest

  lemma {:induction false} SizeSuffix(run: seq<Bvec>, k: nat)
    requires k <= |run|
    ensures Size(run[k..]) <= Size(run)
  {
    if k < |run| {
      SizeSuffix(run[..|run| - 1], k);
      assert run[k..][..|run| - k - 1] == run[..|run| - 1][k..];
    }
  }

  /** The greedy list of s is shorter than the runs, or as long with a last entry that reaches back no further. */
  ghost predicate Ahead(greedy: seq<seq<Bvec>>, runs: seq<seq<Bvec>>) {
    || |greedy| < |runs|
    || (|greedy| == |runs| && (runs != [] ==> |greedy[|greedy| - 1]| <= |runs[|runs| - 1]|))
  }

  lemma LastIsSuffix(runs: seq<seq<Bvec>>, s: seq<Bvec>)
    requires runs != [] && Flat(runs) == s
    ensures var l := runs[|runs| - 1]; |l| <= |s| && s[|s| - |l|..] == l
  {
  }

  /** The runs without their last piece still cut what is left. */
  function Shortened(runs: seq<seq<Bvec>>): seq<seq<Bvec>>
    requires runs != [] && runs[|runs| - 1] != []
  {
    var l := runs[|runs| - 1];
    if |l| == 1 then runs[..|runs| - 1] else runs[..|runs| - 1] + [l[..|l| - 1]]
  }

  lemma LegalPrefix(q: Limits, run: seq<Bvec>)
    requires Legal(q, run) && |run| > 1
    ensures Legal(q, run[..|run| - 1])
  {
    var t := run[..|run| - 1];
    forall i | 0 <= i < |t| - 1 ensures Adjacent(q, t[i], t[i + 1]) {
      assert Adjacent(q, run[i], run[i + 1]);
    }
  }

  lemma ShortenedCuts(q: Limits, runs: seq<seq<Bvec>>, s: seq<Bvec>)
    requires Cuts(q, runs, s) && s != []
    ensures runs != [] && runs[|runs| - 1] != [] && Cuts(q, Shortened(runs), s[..|s| - 1])
  {
    var front, l := runs[..|runs| - 1], runs[|runs| - 1];
    assert Legal(q, l);
    assert s == Flat(front) + l;
    if |l| == 1 {
      assert s[..|s| - 1] == Flat(front);
    } else {
      LegalPrefix(q, l);
      FlatAppend(front, l[..|l| - 1]);
      assert s[..|s| - 1] == Flat(front) + l[..|l| - 1];
    }
  }

  /** A run that may take one more piece lets every run that ends at the same piece and starts later take it. */
  lemma ShorterFits(q: Limits, run: seq<Bvec>, g: seq<Bvec>)
    requires Legal(q, run) && |run| > 1 && g != [] && |g| <= |run| - 1
    requires g == run[|run| - 1 - |g|..|run| - 1]
    ensures Fits(q, g, run[|run| - 1])
  {
    var t, b := run[..|run| - 1], run[|run| - 1];
    assert t + [b] == run;
    SizeAppend(t, b);
    SizeSuffix(t, |t| - |g|);
    assert g == t[|t| - |g|..];
    assert Adjacent(q, run[|run| - 2], run[|run| - 1]) && g[|g| - 1] == run[|run| - 2];
  }

  /** A cut whose last run is no longer than that of `runs`, less one piece, has room for that piece. */
  lemma LastFits(q: Limits, g: seq<seq<Bvec>>, runs: seq<seq<Bvec>>, s: seq<Bvec>)
    requires s != [] && Cuts(q, g, s[..|s| - 1]) && Cuts(q, runs, s) && g != [] && runs != []
    requires |g[|g| - 1]| < |runs[|runs| - 1]|
    ensures Fits(q, g[|g| - 1], s[|s| - 1])
  {
    var l, m := runs[|runs| - 1], g[|g| - 1];
    assert Legal(q, l) && Legal(q, m);
    LastIsSuffix(g, s[..|s| - 1]);
    LastIsSuffix(runs, s);
    assert m == l[|l| - 1 - |m|..|l| - 1];
    ShorterFits(q, l, m);
  }

  lemma {:induction false} GreedyStaysAhead(q: Limits, s: seq<Bvec>, runs: seq<seq<Bvec>>)
    requires Cuts(q, runs, s)
    ensures Ahead(Greedy(q, s), runs)
    decreases |s|
  {
    if s == [] {
    } else {
      ShortenedCuts(q, runs, s);
      var t, b, p := s[..|s| - 1], s[|s| - 1], Shortened(runs);
      GreedyStaysAhead(q, t, p);
      var g, l := Greedy(q, t), runs[|runs| - 1];
      GreedyCuts(q, t);
      if |l| > 1 && |g| == |p| { LastFits(q, g, runs, s); }
    }
  }

  /** No way of cutting the pieces into legal entries needs fewer of them than blk_rq_map_sg makes. */
  lemma GreedyIsShortest(q: Limits, s: seq<Bvec>, runs: seq<seq<Bvec>>)
    requires Cuts(q, runs, s)
    ensures |Greedy(q, s)| <= |runs|
  {
    GreedyStaysAhead(q, s, runs);
  }

  // ---------------------------------------------------------------- counting the segments of one bio

  /** The variables of blk_recount_segments; `runs` are the physical segments counted so far. */
  datatype Recount = Recount(runs: seq<seq<Bvec>>, hwSize: nat, hwSegs: nat, highPrev: bool)

  predicate High(q: Limits, b: Bvec) { b.pfn >= q.bouncePfn }

  /** One iteration of blk_recount_segments. */
  function Count(q: Limits, c: Recount, b: Bvec): Recount {
    var joins := !High(q, b) && !c.highPrev && c.runs != [] && c.runs[|c.runs| - 1] != [] && Fits(q, c.runs[|c.runs| - 1], b);
    if joins && !q.virtOversize(c.hwSize + b.len) then
      c.(runs := Extended(c.runs, b), hwSize := c.hwSize + b.len)
    else
      var stays := !High(q, b) && !c.highPrev && !joins && c.runs != [] && c.runs[|c.runs| - 1] != []
                   && q.virtMergeable(Last(c.runs), b) && !q.virtOversize(c.hwSize + b.len);
      var c1 := if stays then c.(hwSize := c.hwSize + b.len)
                else c.(hwSize := q.virtStart(b) + b.len, hwSegs := c.hwSegs + 1);
      c1.(runs := c1.runs + [[b]], highPrev := High(q, b))
  }

  function Last(runs: seq<seq<Bvec>>): Bvec
    requires runs != [] && runs[|runs| - 1] != []
  {
    var l := runs[|runs| - 1];
    l[|l| - 1]
  }

  function Recounted(q: Limits, s: seq<Bvec>): Recount {
    if s == [] then Recount([], 0, 0, true) else Count(q, Recounted(q, s[..|s| - 1]), s[|s| - 1])
  }

  /** Whatever else cuts them short, the segments counted for a bio are legal ones. */
  lemma {:induction false} RecountCuts(q: Limits, s: seq<Bvec>)
    ensures Cuts(q, Recounted(q, s).runs, s)
  {
    if s != [] {
      var t, b := s[..|s| - 1], s[|s| - 1];
      RecountCuts(q, t);
      assert t + [b] == s;
      CountCuts(q, Recounted(q, t), t, b);
    }
  }

  lemma CountCuts(q: Limits, c: Recount, t: seq<Bvec>, b: Bvec)
    requires Cuts(q, c.runs, t)
    ensures Cuts(q, Count(q, c, b).runs, t + [b])
  {
    var d := Count(q, c, b);
    if d.runs == c.runs + [[b]] { CutsAppended(q, c.runs, t, b); } else { CutsExtended(q, c.runs, t, b); }
  }

  function PhysSegments(q: Limits, bio: seq<Bvec>): nat { |Recounted(q, bio).runs| }

  function HwSegments(q: Limits, bio: seq<Bvec>): nat { Recounted(q, bio).hwSegs }

  // ---------------------------------------------------------------- the bios of a request

  /** The pieces of a request in order. */
  function Pieces(bios: seq<seq<Bvec>>): seq<Bvec> { Flat(bios) }

  function SumSegments(q: Limits, bios: seq<seq<Bvec>>): nat {
    if bios == [] then 0 else SumSegments(q, bios[..|bios| - 1]) + PhysSegments(q, bios[|bios| - 1])
  }

  lemma {:induction false} SumPrepend(q: Limits, bio: seq<Bvec>, bios: seq<seq<Bvec>>)
    ensures SumSegments(q, [bio] + bios) == PhysSegments(q, bio) + SumSegments(q, bios)
  {
    var a := [bio] + bios;
    if bios == [] {
      assert a == [bio] && a[..0] == [];
    } else {
      assert a[..|a| - 1] == [bio] + bios[..|bios| - 1];
      SumPrepend(q, bio, bios[..|bios| - 1]);
    }
  }

  lemma SumAppend(q: Limits, bios: seq<seq<Bvec>>, bio: seq<Bvec>)
    ensures SumSegments(q, bios + [bio]) == SumSegments(q, bios) + PhysSegments(q, bio)
  {
    assert (bios + [bio])[..|bios|] == bios;
  }

  lemma FlatConcat(a: seq<seq<Bvec>>, b: seq<seq<Bvec>>)
    ensures Flat(a + b) == Flat(a) + Flat(b)
    decreases |b|
  {
    if b == [] {
      assert a + b == a;
    } else {
      assert (a + b)[..|a + b| - 1] == a + b[..|b| - 1];
      FlatConcat(a, b[..|b| - 1]);
    }
  }

  /** The per-bio segments, one bio after the other, are one legal cut of the whole request. */
  lemma {:induction false} SumCuts(q: Limits, bios: seq<seq<Bvec>>) returns (runs: seq<seq<Bvec>>)
    ensures Cuts(q, runs, Pieces(bios)) && |runs| == SumSegments(q, bios)
  {
    if bios == [] {
      runs := [];
    } else {
      var bio := bios[|bios| - 1];
      var front := SumCuts(q, bios[..|bios| - 1]);
      RecountCuts(q, bio);
      FlatConcat(front, Recounted(q, bio).runs);
      runs := front + Recounted(q, bio).runs;
    }
  }

  /** A legal list of n entries covers the bios. */
  ghost predicate Covers(q: Limits, bios: seq<seq<Bvec>>, n: int) {
    exists runs :: Cuts(q, runs, Pieces(bios)) && |runs| == n
  }

  // ---------------------------------------------------------------- counting again after a partial completion

  /** blk_phys_contig_segment. */
  predicate Contiguous(q: Limits, a: seq<Bvec>, b: seq<Bvec>) {
    a != [] && b != [] && q.cluster && Size(a) + Size(b) <= q.maxSize && Adjacent(q, a[|a| - 1], b[0])
  }

  /** Does blk_recalc_rq_segments count a and b as sharing a segment, `size` being what it has already joined? */
  predicate Shares(q: Limits, size: nat, a: seq<Bvec>, b: seq<Bvec>) {
    Contiguous(q, a, b) && size + Size(a) + Size(b) <= q.maxSize
  }

  /** nr_phys_segs and phys_size of blk_recalc_rq_segments. */
  datatype Again = Again(nr: int, size: nat)

  ghost predicate Filled(bios: seq<seq<Bvec>>) { forall i | 0 <= i < |bios| :: bios[i] != [] }

  ghost function Recalc(q: Limits, bios: seq<seq<Bvec>>): Again
    requires Filled(bios)
  {
    if bios == [] then Again(0, 0)
    else RecalcStep(q, Recalc(q, bios[..|bios| - 1]), if |bios| == 1 then [] else bios[|bios| - 2], bios[|bios| - 1])
  }

  /** One iteration; `prev` is empty for the first bio. */
  function RecalcStep(q: Limits, c: Again, prev: seq<Bvec>, bio: seq<Bvec>): Again
    requires bio != []
  {
    var nr := c.nr + PhysSegments(q, bio);
    if prev == [] then Again(nr, 0)
    else if Shares(q, c.size, prev, bio) then Again(nr - 1, c.size + Size(prev) + Size(bio))
    else Again(nr, 0)
  }

  lemma {:induction false} SizeConcat(a: seq<Bvec>, b: seq<Bvec>)
    ensures Size(a + b) == Size(a) + Size(b)
    decreases |b|
  {
    if b == [] {
      assert a + b == a;
    } else {
      assert (a + b)[..|a + b| - 1] == a + b[..|b| - 1];
      SizeConcat(a, b[..|b| - 1]);
    }
  }

  lemma LegalConcat(q: Limits, a: seq<Bvec>, b: seq<Bvec>)
    requires Legal(q, a) && Legal(q, b) && q.cluster && Size(a) + Size(b) <= q.maxSize
    requires Adjacent(q, a[|a| - 1], b[0])
    ensures Legal(q, a + b)
  {
    SizeConcat(a, b);
    var t := a + b;
    forall i | 0 <= i < |t| - 1 ensures Adjacent(q, t[i], t[i + 1]) {
      if i < |a| - 1 { assert Adjacent(q, a[i], a[i + 1]); }
      else if i >= |a| { assert Adjacent(q, b[i - |a|], b[i - |a| + 1]); }
    }
  }

  /** The last run of one list and the first of another made one. */
  function Joined(a: seq<seq<Bvec>>, b: seq<seq<Bvec>>): seq<seq<Bvec>>
    requires a != [] && b != []
  {
    a[..|a| - 1] + [a[|a| - 1] + b[0]] + b[1..]
  }

  lemma FlatFirst(b: seq<seq<Bvec>>)
    requires b != []
    ensures Flat(b) == b[0] + Flat(b[1..])
  {
    assert b == [b[0]] + b[1..];
    FlatConcat([b[0]], b[1..]);
    assert Flat([b[0]]) == b[0] by { FlatAppend([], b[0]); assert [] + [b[0]] == [b[0]]; }
  }

  lemma FlatJoined(a: seq<seq<Bvec>>, b: seq<seq<Bvec>>)
    requires a != [] && b != []
    ensures Flat(Joined(a, b)) == Flat(a) + Flat(b)
  {
    var front, m := a[..|a| - 1], a[|a| - 1] + b[0];
    calc {
      Flat(Joined(a, b));
    ==  { FlatConcat(front + [m], b[1..]); }
      Flat(front + [m]) + Flat(b[1..]);
    ==  { FlatAppend(front, m); }
      (Flat(front) + (a[|a| - 1] + b[0])) + Flat(b[1..]);
    ==
      (Flat(front) + a[|a| - 1]) + (b[0] + Flat(b[1..]));
    ==  { FlatFirst(b); }
      Flat(a) + Flat(b);
    }
  }

  lemma RunWithin(q: Limits, runs: seq<seq<Bvec>>, s: seq<Bvec>)
    requires Cuts(q, runs, s) && s != []
    ensures runs != [] && runs[0] != [] && runs[|runs| - 1] != []
    ensures runs[0][0] == s[0] && Last(runs) == s[|s| - 1]
    ensures Size(runs[0]) <= Size(s) && Size(runs[|runs| - 1]) <= Size(s)
  {
    var l := runs[|runs| - 1];
    assert Legal(q, l) && Legal(q, runs[0]);
    FlatFirst(runs);
    SizeConcat(runs[0], Flat(runs[1..]));
    SizeConcat(Flat(runs[..|runs| - 1]), l);
  }

  ghost predicate AllLegal(q: Limits, runs: seq<seq<Bvec>>) { forall i | 0 <= i < |runs| :: Legal(q, runs[i]) }

  lemma JoinedLegal(q: Limits, a: seq<seq<Bvec>>, b: seq<seq<Bvec>>)
    requires a != [] && b != [] && AllLegal(q, a) && AllLegal(q, b) && Legal(q, a[|a| - 1] + b[0])
    ensures AllLegal(q, Joined(a, b)) && |Joined(a, b)| == |a| + |b| - 1
  {
    var j := Joined(a, b);
    forall i | 0 <= i < |j| ensures Legal(q, j[i]) {
      assert j[i] == if i < |a| - 1 then a[i] else if i == |a| - 1 then a[|a| - 1] + b[0] else b[i - |a| + 1];
    }
  }

  lemma JoinedLast(a: seq<seq<Bvec>>, b: seq<seq<Bvec>>)
    requires a != [] && b != []
    ensures var j := Joined(a, b);
            j != [] && j[|j| - 1] == if |b| == 1 then a[|a| - 1] + b[0] else b[|b| - 1]
  {
  }

  /** Two lists whose neighbouring runs fit into one entry. */
  lemma JoinedCuts(q: Limits, a: seq<seq<Bvec>>, s: seq<Bvec>, b: seq<seq<Bvec>>, t: seq<Bvec>)
    requires Cuts(q, a, s) && Cuts(q, b, t) && a != [] && b != []
    requires Legal(q, a[|a| - 1] + b[0])
    ensures Cuts(q, Joined(a, b), s + t) && |Joined(a, b)| == |a| + |b| - 1
  {
    FlatJoined(a, b);
    JoinedLegal(q, a, b);
  }

  lemma EndsMeet(q: Limits, a: seq<seq<Bvec>>, s: seq<Bvec>, b: seq<seq<Bvec>>, t: seq<Bvec>)
    requires Cuts(q, a, s) && Cuts(q, b, t) && s != [] && t != []
    requires q.cluster && Adjacent(q, s[|s| - 1], t[0])
    requires a != [] ==> Size(a[|a| - 1]) + Size(t) <= q.maxSize
    ensures a != [] && b != [] && Legal(q, a[|a| - 1] + b[0])
    ensures Size(a[|a| - 1] + b[0]) <= Size(a[|a| - 1]) + Size(t) && Size(b[|b| - 1]) <= Size(t)
  {
    RunWithin(q, a, s);
    RunWithin(q, b, t);
    assert Legal(q, a[|a| - 1]) && Legal(q, b[0]);
    LegalConcat(q, a[|a| - 1], b[0]);
    SizeConcat(a[|a| - 1], b[0]);
  }

  lemma ConcatCuts(q: Limits, a: seq<seq<Bvec>>, s: seq<Bvec>, b: seq<seq<Bvec>>, t: seq<Bvec>)
    requires Cuts(q, a, s) && Cuts(q, b, t)
    ensures Cuts(q, a + b, s + t)
  {
    FlatConcat(a, b);
    forall i | 0 <= i < |a + b| ensures Legal(q, (a + b)[i]) {
      assert (a + b)[i] == if i < |a| then a[i] else b[i - |a|];
    }
  }

  lemma EndOfPieces(bios: seq<seq<Bvec>>)
    requires bios != [] && bios[|bios| - 1] != []
    ensures var s, l := Pieces(bios), bios[|bios| - 1]; s != [] && s[|s| - 1] == l[|l| - 1]
  {
  }

  /** A list of entries for the bios, no longer than counted and with a last entry that later bios may still share. */
  ghost predicate Tracks(q: Limits, c: Again, bios: seq<seq<Bvec>>, runs: seq<seq<Bvec>>) {
    && Cuts(q, runs, Pieces(bios)) && |runs| == c.nr
    && (bios != [] ==> runs != [] && Size(runs[|runs| - 1]) <= c.size + Size(bios[|bios| - 1]))
  }

  lemma SharedTracks(q: Limits, c: Again, front: seq<seq<Bvec>>, a: seq<seq<Bvec>>, bio: seq<Bvec>) returns (runs: seq<seq<Bvec>>)
    requires Tracks(q, c, front, a) && front != [] && front[|front| - 1] != [] && bio != []
    requires Shares(q, c.size, front[|front| - 1], bio)
    ensures Tracks(q, RecalcStep(q, c, front[|front| - 1], bio), front + [bio], runs)
  {
    var b := Recounted(q, bio).runs;
    RecountCuts(q, bio);
    EndOfPieces(front);
    EndsMeet(q, a, Pieces(front), b, bio);
    JoinedCuts(q, a, Pieces(front), b, bio);
    JoinedLast(a, b);
    FlatAppend(front, bio);
    runs := Joined(a, b);
  }

  lemma ApartTracks(q: Limits, c: Again, front: seq<seq<Bvec>>, a: seq<seq<Bvec>>, prev: seq<Bvec>, bio: seq<Bvec>)
    returns (runs: seq<seq<Bvec>>)
    requires Tracks(q, c, front, a) && bio != [] && (prev != [] ==> !Shares(q, c.size, prev, bio))
    ensures Tracks(q, RecalcStep(q, c, prev, bio), front + [bio], runs)
  {
    var b := Recounted(q, bio).runs;
    RecountCuts(q, bio);
    RunWithin(q, b, bio);
    ConcatCuts(q, a, Pieces(front), b, bio);
    FlatAppend(front, bio);
    runs := a + b;
    assert runs[|runs| - 1] == b[|b| - 1];
  }

  /** Joining bios into shared segments stays legal: what was joined already is counted twice over, never too little. */
  lemma {:induction false} RecalcCuts(q: Limits, bios: seq<seq<Bvec>>) returns (runs: seq<seq<Bvec>>)
    requires Filled(bios)
    ensures Tracks(q, Recalc(q, bios), bios, runs)
    decreases |bios|
  {
    if bios == [] {
      runs := [];
    } else {
      var front, bio := bios[..|bios| - 1], bios[|bios| - 1];
      assert bios == front + [bio];
      var a := RecalcCuts(q, front);
      var c := Recalc(q, front);
      if |bios| > 1 && Shares(q, c.size, bios[|bios| - 2], bio) {
        runs := SharedTracks(q, c, front, a, bio);
      } else {
        runs := ApartTracks(q, c, front, a, if |bios| == 1 then [] else bios[|bios| - 2], bio);
      }
    }
  }

  /** The number counted again is that of a legal list, so the list still fits. */
  lemma RecountedFits(q: Limits, bios: seq<seq<Bvec>>)
    requires Filled(bios)
    ensures Covers(q, bios, Recalc(q, bios).nr) && |Greedy(q, Pieces(bios))| <= Recalc(q, bios).nr
  {
    var runs := RecalcCuts(q, bios);
    GreedyIsShortest(q, Pieces(bios), runs);
  }

  ghost predicate FilledTo(bios: seq<seq<Bvec>>, i: nat) { i <= |bios| && Filled(bios[..i]) }

  lemma RecalcNext(q: Limits, bios: seq<seq<Bvec>>, i: nat)
    requires Filled(bios) && i < |bios|
    ensures FilledTo(bios, i) && FilledTo(bios, i + 1)
    ensures Recalc(q, bios[..i + 1])
            == RecalcStep(q, Recalc(q, bios[..i]), if i == 0 then [] else bios[i - 1], bios[i])
    ensures SumSegments(q, bios[..i + 1]) == SumSegments(q, bios[..i]) + PhysSegments(q, bios[i])
  {
    assert bios[..i + 1][..i] == bios[..i];
  }

  /** blk_recalc_rq_segments, for the physical segments. */
  method RecalcSegments(q: Limits, bios: seq<seq<Bvec>>) returns (nr: int)
    requires Filled(bios)
    ensures Covers(q, bios, nr)
    ensures |Greedy(q, Pieces(bios))| <= nr <= SumSegments(q, bios)
  {
    nr := 0;
    var size: nat, prev := 0, [];
    for i := 0 to |bios|
      invariant FilledTo(bios, i) && Again(nr, size) == Recalc(q, bios[..i]) && nr <= SumSegments(q, bios[..i])
      invariant prev == if i == 0 then [] else bios[i - 1]
    {
      RecalcNext(q, bios, i);
      nr := nr + PhysSegments(q, bios[i]);
      if prev != [] {
        if Shares(q, size, prev, bios[i]) {
          nr := nr - 1;
          size := size + Size(prev) + Size(bios[i]);
        } else {
          size := 0;
        }
      }
      prev := bios[i];
    }
    assert bios[..|bios|] == bios;
    RecountedFits(q, bios);
  }

  // ---------------------------------------------------------------- the bytes of the list

  /** A scatter-gather entry. */
  datatype Entry = Entry(addr: nat, length: nat)

  function EntryOf(run: seq<Bvec>): Entry
    requires run != []
  {
    Entry(run[0].addr, Size(run))
  }

  function Range(addr: nat, n: nat): seq<nat> { seq(n, i requires 0 <= i < n => addr + i) }

  /** The physical addresses of the bytes of the pieces, in order. */
  function Bytes(s: seq<Bvec>): seq<nat> {
    if s == [] then [] else Bytes(s[..|s| - 1]) + Range(s[|s| - 1].addr, s[|s| - 1].len)
  }

  function ListBytes(runs: seq<seq<Bvec>>): seq<nat>
    requires forall i | 0 <= i < |runs| :: runs[i] != []
  {
    if runs == [] then []
    else
      var e := EntryOf(runs[|runs| - 1]);
      ListBytes(runs[..|runs| - 1]) + Range(e.addr, e.length)
  }

  lemma RangeSplit(addr: nat, m: nat, n: nat)
    ensures Range(addr, m + n) == Range(addr, m) + Range(addr + m, n)
  {
  }

  lemma {:induction false} LegalIsContiguous(q: Limits, run: seq<Bvec>)
    requires Legal(q, run)
    ensures Bytes(run) == Range(run[0].addr, Size(run))
    ensures run[|run| - 1].addr + run[|run| - 1].len == run[0].addr + Size(run)
  {
    var t, b := run[..|run| - 1], run[|run| - 1];
    if |run| == 1 {
      assert t == [] && Size(run) == b.len;
      assert Bytes(run) == [] + Range(b.addr, b.len);
    } else {
      LegalPrefix(q, run);
      LegalIsContiguous(q, t);
      assert Adjacent(q, run[|run| - 2], run[|run| - 1]);
      RangeSplit(run[0].addr, Size(t), b.len);
    }
  }

  lemma {:induction false} BytesConcat(a: seq<Bvec>, b: seq<Bvec>)
    ensures Bytes(a + b) == Bytes(a) + Bytes(b)
    decreases |b|
  {
    if b == [] {
      assert a + b == a && Bytes(a) + [] == Bytes(a);
    } else {
      assert (a + b)[..|a + b| - 1] == a + b[..|b| - 1];
      BytesConcat(a, b[..|b| - 1]);
      var r := Range(b[|b| - 1].addr, b[|b| - 1].len);
      assert (Bytes(a) + Bytes(b[..|b| - 1])) + r == Bytes(a) + (Bytes(b[..|b| - 1]) + r);
    }
  }

  /** Any legal list, and so the one blk_rq_map_sg builds, covers every byte of the request once and in order. */
  lemma {:induction false} ListKeepsBytes(q: Limits, runs: seq<seq<Bvec>>, s: seq<Bvec>)
    requires Cuts(q, runs, s)
    ensures (forall i | 0 <= i < |runs| :: runs[i] != []) && ListBytes(runs) == Bytes(s)
    decreases |runs|
  {
    assert forall i | 0 <= i < |runs| :: Legal(q, runs[i]);
    if runs != [] {
      var front, l := runs[..|runs| - 1], runs[|runs| - 1];
      ListKeepsBytes(q, front, Flat(front));
      LegalIsContiguous(q, l);
      BytesConcat(Flat(front), l);
    }
  }

  // ---------------------------------------------------------------- the list as it is built

  lemma {:induction false} GreedyGrows(q: Limits, s: seq<Bvec>, k: nat)
    requires k <= |s|
    ensures |Greedy(q, s[..k])| <= |Greedy(q, s)|
  {
    if k == |s| {
      assert s[..k] == s;
    } else {
      assert s[..|s| - 1][..k] == s[..k];
      GreedyGrows(q, s[..|s| - 1], k);
    }
  }

  function EntriesOf(runs: seq<seq<Bvec>>): (e: seq<Entry>)
    requires forall i | 0 <= i < |runs| :: runs[i] != []
    ensures |e| == |runs|
  {
    seq(|runs|, k requires 0 <= k < |runs| => EntryOf(runs[k]))
  }

  function Entries(q: Limits, s: seq<Bvec>): (e: seq<Entry>)
    ensures |e| == |Greedy(q, s)|
  {
    EntriesOf(Greedy(q, s))
  }

  lemma ExtendedEntries(runs: seq<seq<Bvec>>, b: Bvec)
    requires runs != [] && forall i | 0 <= i < |runs| :: runs[i] != []
    ensures forall i | 0 <= i < |runs| :: Extended(runs, b)[i] != []
    ensures var e, n := EntriesOf(runs), |runs|;
            EntriesOf(Extended(runs, b)) == e[n - 1 := Entry(e[n - 1].addr, e[n - 1].length + b.len)]
  {
    SizeAppend(runs[|runs| - 1], b);
  }

  lemma OpenedEntries(runs: seq<seq<Bvec>>, b: Bvec)
    requires forall i | 0 <= i < |runs| :: runs[i] != []
    ensures EntriesOf(runs + [[b]]) == EntriesOf(runs) + [Entry(b.addr, b.len)]
  {
    SizeAppend([], b);
    assert [] + [b] == [b];
  }

  /** The list after one more piece: the last entry grows, or a new one is opened. */
  function Stepped(q: Limits, e: seq<Entry>, prev: Bvec, b: Bvec): seq<Entry> {
    var n := |e|;
    if n > 0 && q.cluster && e[n - 1].length + b.len <= q.maxSize && Adjacent(q, prev, b)
    then e[n - 1 := Entry(e[n - 1].addr, e[n - 1].length + b.len)] else e + [Entry(b.addr, b.len)]
  }

  /** Building the list piece by piece makes the entries of the greedy cut. */
  lemma EntriesStep(q: Limits, s: seq<Bvec>, prev: Bvec, b: Bvec)
    requires s != [] ==> prev == s[|s| - 1]
    ensures Entries(q, s + [b]) == Stepped(q, Entries(q, s), prev, b)
  {
    var g := Greedy(q, s);
    assert (s + [b])[..|s|] == s;
    if g != [] {
      GreedyCuts(q, s);
      LastIsSuffix(g, s);
      assert g[|g| - 1][|g[|g| - 1]| - 1] == prev;
      ExtendedEntries(g, b);
    }
    OpenedEntries(g, b);
  }

  /** The entries written so far are those of the pieces seen so far. */
  ghost predicate Written(q: Limits, sg: array<Entry>, n: nat, seen: seq<Bvec>)
    reads sg
  {
    n <= sg.Length && sg[..n] == Entries(q, seen)
  }

  /** One piece: it lengthens the last entry or opens a new one. */
  method MapPiece(q: Limits, b: Bvec, prev: Bvec, sg: array<Entry>, n: nat, ghost e: seq<Entry>) returns (m: nat)
    requires n <= sg.Length && sg[..n] == e && |Stepped(q, e, prev, b)| <= sg.Length
    modifies sg
    ensures n <= m <= sg.Length && sg[..m] == Stepped(q, e, prev, b)
    ensures forall k | m <= k < sg.Length :: sg[k] == old(sg[k])
  {
    assert n > 0 ==> e[n - 1] == sg[n - 1];
    if n > 0 && q.cluster && sg[n - 1].length + b.len <= q.maxSize && Adjacent(q, prev, b) {
      sg[n - 1] := Entry(sg[n - 1].addr, sg[n - 1].length + b.len);
      m := n;
    } else {
      sg[n] := Entry(b.addr, b.len);
      m := n + 1;
    }
  }

  /** The inner loop: the pieces of one bio. */
  method MapBio(q: Limits, bio: seq<Bvec>, last: Bvec, sg: array<Entry>, n: nat, ghost seen: seq<Bvec>, ghost all: seq<Bvec>)
    returns (m: nat, prev: Bvec)
    requires Written(q, sg, n, seen) && seen + bio <= all && |Greedy(q, all)| <= sg.Length
    requires seen != [] ==> last == seen[|seen| - 1]
    modifies sg
    ensures Written(q, sg, m, seen + bio) && n <= m
    ensures seen + bio != [] ==> prev == (seen + bio)[|seen + bio| - 1]
    ensures forall k | m <= k < sg.Length :: sg[k] == old(sg[k])
  {
    m, prev := n, last;
    ghost var cur := seen;
    var j := 0;
    while j < |bio|
      invariant 0 <= j <= |bio| && n <= m
      invariant cur == seen + bio[..j] && Written(q, sg, m, cur)
      invariant cur != [] ==> prev == cur[|cur| - 1]
      invariant forall k | m <= k < sg.Length :: sg[k] == old(sg[k])
    {
      RoomForNext(q, seen, bio, all, j);
      EntriesStep(q, cur, prev, bio[j]);
      m := MapPiece(q, bio[j], prev, sg, m, Entries(q, cur));
      prev := bio[j];
      cur := cur + [bio[j]];
      j := j + 1;
    }
    assert bio[..j] == bio;
  }

  lemma RoomForNext(q: Limits, seen: seq<Bvec>, bio: seq<Bvec>, all: seq<Bvec>, j: nat)
    requires seen + bio <= all && j < |bio|
    ensures (seen + bio[..j]) + [bio[j]] == seen + bio[..j + 1]
    ensures |Greedy(q, (seen + bio[..j]) + [bio[j]])| <= |Greedy(q, all)|
  {
    assert (seen + bio[..j]) + [bio[j]] == all[..|seen| + j + 1];
    GreedyGrows(q, all, |seen| + j + 1);
  }

  /**
    blk_rq_map_sg.  The caller provides as many entries as the request counts segments, and that is
    enough: no write falls outside the array.  `RequestBuild.ListFits` and
    `RecountedFits` give the count.
   */
  method MapSg(q: Limits, bios: seq<seq<Bvec>>, ghost count: nat, sg: array<Entry>) returns (nsegs: nat)
    requires Covers(q, bios, count) && sg.Length >= count
    modifies sg
    ensures nsegs <= count
    ensures sg[..nsegs] == Entries(q, Pieces(bios))
    ensures forall k | nsegs <= k < sg.Length :: sg[k] == old(sg[k])
  {
    ghost var runs :| Cuts(q, runs, Pieces(bios)) && |runs| == count;
    GreedyIsShortest(q, Pieces(bios), runs);
    nsegs := 0;
    var prev := Bvec(0, 0, 0);
    var i := 0;
    while i < |bios|
      invariant 0 <= i <= |bios|
      invariant Written(q, sg, nsegs, Pieces(bios[..i]))
      invariant Pieces(bios[..i]) != [] ==> prev == Pieces(bios[..i])[|Pieces(bios[..i])| - 1]
      invariant forall k | nsegs <= k < sg.Length :: sg[k] == old(sg[k])
    {
      PiecesPrefix(bios, i);
      nsegs, prev := MapBio(q, bios[i], prev, sg, nsegs, Pieces(bios[..i]), Pieces(bios));
      i := i + 1;
    }
    assert bios[..i] == bios;
  }

  /** The pieces up to and including bio i are a prefix of all pieces. */
  lemma PiecesPrefix(bios: seq<seq<Bvec>>, i: nat)
    requires i < |bios|
    ensures Pieces(bios[..i + 1]) == Pieces(bios[..i]) + bios[i]
    ensures Pieces(bios[..i + 1]) <= Pieces(bios)
  {
    assert bios[..i + 1][..i] == bios[..i];
    assert bios == bios[..i + 1] + bios[i + 1..];
    FlatConcat(bios[..i + 1], bios[i + 1..]);
  }
}
