/**
  Requests as they are put together: from one bio, by merging further bios in at either end, and by
  joining two requests.  nr_phys_segments counts the runs of a list of entries that is written out
  here beside the request; the list blk_rq_map_sg builds fits wherever those runs respect the limits.
 */
module RequestBuild {
  import opened Segments

  datatype Request = Request(bios: seq<seq<Bvec>>, physSegs: int, hwSegs: int, nomerge: bool)

  /** How a request came about.  `sameHw` says that two hardware segments become one. */
  datatype Plan =
    | One(bio: seq<Bvec>)
    | Grow(p: Plan, bio: seq<Bvec>, back: bool, sameHw: bool)
    | Join(a: Plan, b: Plan, sameHw: bool)

  function Start(q: Limits, bio: seq<Bvec>): Request {
    Request([bio], PhysSegments(q, bio), HwSegments(q, bio), false)
  }

  /** ll_new_mergeable and ll_new_hw_segment. */
  predicate Allows(q: Limits, r: Request, bio: seq<Bvec>, sameHw: bool) {
    && !r.nomerge
    && r.physSegs + PhysSegments(q, bio) <= q.maxPhys
    && (sameHw || r.hwSegs + HwSegments(q, bio) <= q.maxHw)
  }

  function Merged(q: Limits, r: Request, bio: seq<Bvec>, back: bool, sameHw: bool): Request {
    if !Allows(q, r, bio, sameHw) then r.(nomerge := true)
    else Request(if back then r.bios + [bio] else [bio] + r.bios,
                 r.physSegs + PhysSegments(q, bio),
                 if sameHw then r.hwSegs else r.hwSegs + HwSegments(q, bio), false)
  }

  /** The bios that meet when b is put behind a share a segment; no other bio is looked at. */
  predicate Meet(q: Limits, a: Request, b: Request) {
    a.bios != [] && b.bios != [] && Contiguous(q, a.bios[|a.bios| - 1], b.bios[0])
  }

  /** nr_phys_segments and nr_hw_segments after ll_merge_requests_fn. */
  function JoinCount(q: Limits, a: Request, b: Request): int {
    if Meet(q, a, b) then a.physSegs + b.physSegs - 1 else a.physSegs + b.physSegs
  }

  function JoinHw(a: Request, b: Request, sameHw: bool): int {
    if sameHw then a.hwSegs + b.hwSegs - 1 else a.hwSegs + b.hwSegs
  }

  predicate Joins(q: Limits, a: Request, b: Request, sameHw: bool) {
    !a.nomerge && !b.nomerge && JoinCount(q, a, b) <= q.maxPhys && JoinHw(a, b, sameHw) <= q.maxHw
  }

  /** attempt_merge; where it refuses, the first request stays as it is. */
  function Combined(q: Limits, a: Request, b: Request, sameHw: bool): Request {
    if !Joins(q, a, b, sameHw) then a
    else Request(a.bios + b.bios, JoinCount(q, a, b), JoinHw(a, b, sameHw), false)
  }

  function Built(q: Limits, plan: Plan): Request {
    match plan
    case One(bio) => Start(q, bio)
    case Grow(p, bio, back, sameHw) => Merged(q, Built(q, p), bio, back, sameHw)
    case Join(a, b, sameHw) => Combined(q, Built(q, a), Built(q, b), sameHw)
  }

  // ---------------------------------------------------------------- what the counter counts

  /** How many joins took one off the count. */
  function Saved(q: Limits, plan: Plan): nat {
    match plan
    case One(_) => 0
    case Grow(p, _, _, _) => Saved(q, p)
    case Join(a, b, sameHw) =>
      if !Joins(q, Built(q, a), Built(q, b), sameHw) then Saved(q, a)
      else Saved(q, a) + Saved(q, b) + if Meet(q, Built(q, a), Built(q, b)) then 1 else 0
  }

  lemma {:induction false} SumConcat(q: Limits, a: seq<seq<Bvec>>, b: seq<seq<Bvec>>)
    ensures SumSegments(q, a + b) == SumSegments(q, a) + SumSegments(q, b)
    decreases |b|
  {
    if b == [] {
      assert a + b == a;
    } else {
      assert (a + b)[..|a + b| - 1] == a + b[..|b| - 1];
      SumConcat(q, a, b[..|b| - 1]);
    }
  }

  lemma SumOne(q: Limits, bio: seq<Bvec>)
    ensures SumSegments(q, [bio]) == PhysSegments(q, bio)
  {
    assert [bio][..0] == [];
  }

  lemma MergedSum(q: Limits, r: Request, bio: seq<Bvec>, back: bool, sameHw: bool)
    ensures var m := Merged(q, r, bio, back, sameHw);
            SumSegments(q, m.bios) - m.physSegs == SumSegments(q, r.bios) - r.physSegs
  {
    SumOne(q, bio);
    if back { SumConcat(q, r.bios, [bio]); } else { SumConcat(q, [bio], r.bios); }
  }

  lemma CombinedSum(q: Limits, a: Request, b: Request, sameHw: bool)
    requires Joins(q, a, b, sameHw)
    ensures var m := Combined(q, a, b, sameHw);
            SumSegments(q, m.bios) - m.physSegs
            == (SumSegments(q, a.bios) - a.physSegs) + (SumSegments(q, b.bios) - b.physSegs) + if Meet(q, a, b) then 1 else 0
  {
    SumConcat(q, a.bios, b.bios);
  }

  /** What the counter leaves out of the sum over the bios. */
  function Excess(q: Limits, r: Request): int { SumSegments(q, r.bios) - r.physSegs }

  lemma {:induction false} ExcessIsSaved(q: Limits, plan: Plan)
    ensures Excess(q, Built(q, plan)) == Saved(q, plan)
  {
    match plan
    case One(bio) => SumOne(q, bio);
    case Grow(p, bio, back, sameHw) =>
      ExcessIsSaved(q, p);
      MergedSum(q, Built(q, p), bio, back, sameHw);
    case Join(a, b, sameHw) =>
      ExcessIsSaved(q, a);
      ExcessIsSaved(q, b);
      if Joins(q, Built(q, a), Built(q, b), sameHw) { CombinedSum(q, Built(q, a), Built(q, b), sameHw); }
  }

  /** The counter is the sum of the counts of the bios, in whatever order they came together, less the joins that shared a segment. */
  lemma CounterIsSum(q: Limits, plan: Plan)
    ensures Built(q, plan).physSegs + Saved(q, plan) == SumSegments(q, Built(q, plan).bios)
  {
    ExcessIsSaved(q, plan);
  }

  /** The list of entries that the counter stands for: its runs may be too long where requests were joined. */
  function Counted(q: Limits, plan: Plan): seq<seq<Bvec>> {
    match plan
    case One(bio) => Recounted(q, bio).runs
    case Grow(p, bio, back, sameHw) =>
      var c, n := Counted(q, p), Recounted(q, bio).runs;
      if !Allows(q, Built(q, p), bio, sameHw) then c else if back then c + n else n + c
    case Join(a, b, sameHw) =>
      var c, d := Counted(q, a), Counted(q, b);
      if !Joins(q, Built(q, a), Built(q, b), sameHw) then c
      else if Meet(q, Built(q, a), Built(q, b)) && c != [] && d != [] then Joined(c, d)
      else c + d
  }

  /** A run of pieces that follow each other in memory, whatever its size. */
  ghost predicate Linked(q: Limits, run: seq<Bvec>) {
    && run != []
    && (|run| > 1 ==> q.cluster)
    && forall i | 0 <= i < |run| - 1 :: Adjacent(q, run[i], run[i + 1])
  }

  predicate Small(q: Limits, run: seq<Bvec>) { |run| > 1 ==> Size(run) <= q.maxSize }

  ghost predicate AllLinked(q: Limits, runs: seq<seq<Bvec>>) { forall i | 0 <= i < |runs| :: Linked(q, runs[i]) }

  ghost predicate AllSmall(q: Limits, runs: seq<seq<Bvec>>) { forall i | 0 <= i < |runs| :: Small(q, runs[i]) }

  /** The runs are as many as the request counts, and cover its pieces. */
  ghost predicate Tallies(q: Limits, r: Request, runs: seq<seq<Bvec>>) {
    Flat(runs) == Pieces(r.bios) && |runs| == r.physSegs && AllLinked(q, runs)
  }

  lemma LinkedConcat(q: Limits, a: seq<Bvec>, b: seq<Bvec>)
    requires Linked(q, a) && Linked(q, b) && q.cluster && Adjacent(q, a[|a| - 1], b[0])
    ensures Linked(q, a + b)
  {
    var t := a + b;
    forall i | 0 <= i < |t| - 1 ensures Adjacent(q, t[i], t[i + 1]) {
      if i < |a| - 1 { assert Adjacent(q, a[i], a[i + 1]); }
      else if i >= |a| { assert Adjacent(q, b[i - |a|], b[i - |a| + 1]); }
    }
  }

  lemma RecountLinked(q: Limits, bio: seq<Bvec>)
    ensures Flat(Recounted(q, bio).runs) == bio && AllLinked(q, Recounted(q, bio).runs) && AllSmall(q, Recounted(q, bio).runs)
  {
    RecountCuts(q, bio);
    var n := Recounted(q, bio).runs;
    forall i | 0 <= i < |n| ensures Linked(q, n[i]) && Small(q, n[i]) { assert Legal(q, n[i]); }
  }

  lemma ConcatRuns(q: Limits, a: seq<seq<Bvec>>, b: seq<seq<Bvec>>)
    ensures Flat(a + b) == Flat(a) + Flat(b)
    ensures AllLinked(q, a) && AllLinked(q, b) ==> AllLinked(q, a + b)
    ensures AllSmall(q, a) && AllSmall(q, b) ==> AllSmall(q, a + b)
  {
    FlatConcat(a, b);
    assert forall i | 0 <= i < |a + b| :: (a + b)[i] == if i < |a| then a[i] else b[i - |a|];
  }

  lemma JoinedAt(a: seq<seq<Bvec>>, b: seq<seq<Bvec>>, i: nat)
    requires a != [] && b != [] && i < |Joined(a, b)|
    ensures |Joined(a, b)| == |a| + |b| - 1
    ensures Joined(a, b)[i]
            == if i < |a| - 1 then a[i] else if i == |a| - 1 then a[|a| - 1] + b[0] else b[i - |a| + 1]
  {
  }

  lemma JoinedLinked(q: Limits, a: seq<seq<Bvec>>, b: seq<seq<Bvec>>)
    requires a != [] && b != [] && AllLinked(q, a) && AllLinked(q, b) && Linked(q, a[|a| - 1] + b[0])
    ensures AllLinked(q, Joined(a, b))
  {
    forall i | 0 <= i < |Joined(a, b)| ensures Linked(q, Joined(a, b)[i]) { JoinedAt(a, b, i); }
  }

  lemma JoinedSmall(q: Limits, a: seq<seq<Bvec>>, b: seq<seq<Bvec>>)
    requires a != [] && b != [] && AllSmall(q, a) && AllSmall(q, b) && Small(q, a[|a| - 1] + b[0])
    ensures AllSmall(q, Joined(a, b))
  {
    forall i | 0 <= i < |Joined(a, b)| ensures Small(q, Joined(a, b)[i]) { JoinedAt(a, b, i); }
  }

  /** Pieces at either end of a list are those at the ends of its first and last run. */
  lemma EndRuns(q: Limits, runs: seq<seq<Bvec>>, s: seq<Bvec>)
    requires Flat(runs) == s && AllLinked(q, runs) && s != []
    ensures runs != [] && runs[0] != [] && runs[|runs| - 1] != []
    ensures runs[0][0] == s[0] && Last(runs) == s[|s| - 1]
  {
    assert Linked(q, runs[0]) && Linked(q, runs[|runs| - 1]);
    FlatFirst(runs);
  }

  lemma StartOfPieces(bios: seq<seq<Bvec>>)
    requires bios != [] && bios[0] != []
    ensures Pieces(bios) != [] && Pieces(bios)[0] == bios[0][0]
  {
    FlatFirst(bios);
  }

  /** Where two bios meet, the runs that meet are one piece of memory. */
  lemma MeetingRuns(q: Limits, a: Request, c: seq<seq<Bvec>>, b: Request, d: seq<seq<Bvec>>)
    requires Tallies(q, a, c) && Tallies(q, b, d) && Meet(q, a, b)
    ensures c != [] && d != [] && Linked(q, c[|c| - 1] + d[0])
  {
    EndOfPieces(a.bios);
    StartOfPieces(b.bios);
    EndRuns(q, c, Pieces(a.bios));
    EndRuns(q, d, Pieces(b.bios));
    assert Linked(q, c[|c| - 1]) && Linked(q, d[0]);
    LinkedConcat(q, c[|c| - 1], d[0]);
  }

  lemma JoinTallies(q: Limits, a: Request, c: seq<seq<Bvec>>, b: Request, d: seq<seq<Bvec>>, sameHw: bool)
    requires Tallies(q, a, c) && Tallies(q, b, d) && Joins(q, a, b, sameHw)
    ensures Tallies(q, Combined(q, a, b, sameHw), if Meet(q, a, b) && c != [] && d != [] then Joined(c, d) else c + d)
  {
    FlatConcat(a.bios, b.bios);
    if Meet(q, a, b) {
      MeetingRuns(q, a, c, b, d);
      JoinedAt(c, d, 0);
      JoinedLinked(q, c, d);
      FlatJoined(c, d);
    } else {
      ConcatRuns(q, c, d);
    }
  }

  lemma GrowTallies(q: Limits, r: Request, c: seq<seq<Bvec>>, bio: seq<Bvec>, back: bool, sameHw: bool)
    requires Tallies(q, r, c) && Allows(q, r, bio, sameHw)
    ensures var n := Recounted(q, bio).runs;
            Tallies(q, Merged(q, r, bio, back, sameHw), if back then c + n else n + c)
  {
    var n := Recounted(q, bio).runs;
    RecountLinked(q, bio);
    SingleBio(bio);
    if back {
      FlatConcat(r.bios, [bio]);
      ConcatRuns(q, c, n);
    } else {
      FlatConcat([bio], r.bios);
      ConcatRuns(q, n, c);
    }
  }

  lemma SingleBio(bio: seq<Bvec>)
    ensures Flat([bio]) == bio
  {
    FlatAppend([], bio);
    assert [] + [bio] == [bio];
  }

  lemma {:induction false} CountedTallies(q: Limits, plan: Plan)
    ensures Tallies(q, Built(q, plan), Counted(q, plan))
  {
    match plan
    case One(bio) =>
      RecountLinked(q, bio);
      SingleBio(bio);
    case Grow(p, bio, back, sameHw) =>
      CountedTallies(q, p);
      if Allows(q, Built(q, p), bio, sameHw) { GrowTallies(q, Built(q, p), Counted(q, p), bio, back, sameHw); }
    case Join(a, b, sameHw) =>
      CountedTallies(q, a);
      CountedTallies(q, b);
      if Joins(q, Built(q, a), Built(q, b), sameHw) {
        JoinTallies(q, Built(q, a), Counted(q, a), Built(q, b), Counted(q, b), sameHw);
      }
  }

  // ---------------------------------------------------------------- when the list fits

  lemma SmallIsLegal(q: Limits, runs: seq<seq<Bvec>>)
    requires AllLinked(q, runs)
    ensures AllSmall(q, runs) <==> AllLegal(q, runs)
  {
    forall i | 0 <= i < |runs| ensures Small(q, runs[i]) <==> Legal(q, runs[i]) { assert Linked(q, runs[i]); }
  }

  /** However a request came about, the list fits into nr_phys_segments entries if the runs counted respect the limit. */
  lemma ListFits(q: Limits, plan: Plan)
    requires AllSmall(q, Counted(q, plan))
    ensures var r := Built(q, plan);
            Covers(q, r.bios, r.physSegs) && |Greedy(q, Pieces(r.bios))| <= r.physSegs
  {
    CountedTallies(q, plan);
    var r, c := Built(q, plan), Counted(q, plan);
    SmallIsLegal(q, c);
    assert Cuts(q, c, Pieces(r.bios));
    GreedyIsShortest(q, Pieces(r.bios), c);
  }

  /** No two neighbouring runs could be one. */
  ghost predicate Separate(q: Limits, runs: seq<seq<Bvec>>) {
    && (forall i | 0 <= i < |runs| :: runs[i] != [])
    && forall i | 0 <= i < |runs| - 1 :: !(q.cluster && Adjacent(q, runs[i][|runs[i]| - 1], runs[i + 1][0]))
  }

  /** A run that reaches over the place where two separate runs meet is not legal. */
  lemma CrossingIsIllegal(q: Limits, front: seq<seq<Bvec>>, m: seq<Bvec>, s: seq<Bvec>, l: seq<Bvec>)
    requires front != [] && Separate(q, front + [m]) && s == Flat(front) + m
    requires |m| < |l| <= |s| && s[|s| - |l|..] == l
    ensures !Legal(q, l)
  {
    var runs, e, k := front + [m], front[|front| - 1], |l| - |m|;
    assert runs[|front| - 1] == e && runs[|front|] == m;
    assert Flat(front) == Flat(front[..|front| - 1]) + e;
    assert l[k - 1] == s[|s| - |m| - 1] == e[|e| - 1] && l[k - 1 + 1] == m[0];
  }

  lemma Overlap(front: seq<Bvec>, m: seq<Bvec>, rest: seq<Bvec>, l: seq<Bvec>)
    requires front + m == rest + l && |l| <= |m|
    ensures m == m[..|m| - |l|] + l && rest == front + m[..|m| - |l|]
  {
    var s, k := front + m, |m| - |l|;
    assert l == s[|rest|..] == m[k..];
    assert rest == s[..|rest|] == front + m[..k];
  }

  /** The last entry of a legal list ends within the last of the separate runs. */
  lemma LastInside(q: Limits, g: seq<seq<Bvec>>, front: seq<seq<Bvec>>, m: seq<Bvec>)
    requires Separate(q, front + [m]) && m != [] && Cuts(q, g, Flat(front) + m)
    ensures g != [] && 0 < |g[|g| - 1]| <= |m|
  {
    var s := Flat(front) + m;
    LastIsSuffix(g, s);
    var l := g[|g| - 1];
    assert Legal(q, l);
    if front != [] && |l| > |m| { CrossingIsIllegal(q, front, m, s, l); }
  }

  lemma SeparateFront(q: Limits, front: seq<seq<Bvec>>, m: seq<Bvec>, k: nat)
    requires Separate(q, front + [m]) && k <= |m|
    ensures Separate(q, front) && (k > 0 ==> Separate(q, front + [m[..k]]))
  {
    var runs := front + [m];
    assert forall i | 0 <= i < |front| :: runs[i] == front[i];
    assert runs[|front|] == m;
  }

  /** Every legal list of separate runs has them all as entries, or is longer. */
  lemma {:induction false} SeparateNeedsAll(q: Limits, g: seq<seq<Bvec>>, runs: seq<seq<Bvec>>)
    requires Cuts(q, g, Flat(runs)) && Separate(q, runs)
    ensures |g| > |runs| || g == runs
    decreases |g|
  {
    if runs != [] {
      var front, m := runs[..|runs| - 1], runs[|runs| - 1];
      assert runs == front + [m];
      LastInside(q, g, front, m);
      var rest, l := g[..|g| - 1], g[|g| - 1];
      Overlap(Flat(front), m, Flat(rest), l);
      var k := |m| - |l|;
      SeparateFront(q, front, m, k);
      if k == 0 {
        assert Flat(rest) == Flat(front);
        SeparateNeedsAll(q, rest, front);
        assert g == rest + [l];
      } else {
        FlatAppend(front, m[..k]);
        SeparateNeedsAll(q, rest, front + [m[..k]]);
      }
    }
  }

  /** Unless runs counted apart could be one, the list fits exactly when every run counted respects the limit. */
  lemma FitsExactly(q: Limits, plan: Plan)
    requires Separate(q, Counted(q, plan))
    ensures |Greedy(q, Pieces(Built(q, plan).bios))| <= Built(q, plan).physSegs <==> AllSmall(q, Counted(q, plan))
  {
    CountedTallies(q, plan);
    var c, s := Counted(q, plan), Pieces(Built(q, plan).bios);
    SmallIsLegal(q, c);
    if AllSmall(q, c) {
      ListFits(q, plan);
    } else {
      GreedyCuts(q, s);
      SeparateNeedsAll(q, Greedy(q, s), c);
    }
  }

  // ---------------------------------------------------------------- requests joined at one end only

  /** The first run counted may reach beyond the first bio: a request of one segment was joined at its end. */
  predicate HeadSpills(q: Limits, plan: Plan) {
    match plan
    case One(_) => false
    case Grow(p, bio, back, sameHw) => (back || !Allows(q, Built(q, p), bio, sameHw)) && HeadSpills(q, p)
    case Join(a, b, sameHw) =>
      || HeadSpills(q, a)
      || (Joins(q, Built(q, a), Built(q, b), sameHw) && Meet(q, Built(q, a), Built(q, b)) && Built(q, a).physSegs == 1)
  }

  predicate TailSpills(q: Limits, plan: Plan) {
    match plan
    case One(_) => false
    case Grow(p, bio, back, sameHw) => (!back || !Allows(q, Built(q, p), bio, sameHw)) && TailSpills(q, p)
    case Join(a, b, sameHw) =>
      if !Joins(q, Built(q, a), Built(q, b), sameHw) then TailSpills(q, a)
      else TailSpills(q, b) || (Meet(q, Built(q, a), Built(q, b)) && Built(q, b).physSegs == 1)
  }

  /** No request of one segment is joined at both ends. */
  predicate OnceJoined(q: Limits, plan: Plan) {
    match plan
    case One(_) => true
    case Grow(p, _, _, _) => OnceJoined(q, p)
    case Join(a, b, sameHw) =>
      && OnceJoined(q, a) && OnceJoined(q, b)
      && (Joins(q, Built(q, a), Built(q, b), sameHw) && Meet(q, Built(q, a), Built(q, b)) ==>
            !TailSpills(q, a) && !HeadSpills(q, b))
  }

  /** The runs at either end stay within the bios at that end. */
  ghost predicate HeadWithin(bios: seq<seq<Bvec>>, runs: seq<seq<Bvec>>) {
    bios != [] && bios[0] != [] ==> runs != [] && Size(runs[0]) <= Size(bios[0])
  }

  ghost predicate TailWithin(bios: seq<seq<Bvec>>, runs: seq<seq<Bvec>>) {
    bios != [] && bios[|bios| - 1] != [] ==> runs != [] && Size(runs[|runs| - 1]) <= Size(bios[|bios| - 1])
  }

  ghost predicate EndsHeld(q: Limits, bios: seq<seq<Bvec>>, runs: seq<seq<Bvec>>, head: bool, tail: bool) {
    bios != [] && AllSmall(q, runs) && (head || HeadWithin(bios, runs)) && (tail || TailWithin(bios, runs))
  }

  ghost predicate Within(q: Limits, plan: Plan) {
    EndsHeld(q, Built(q, plan).bios, Counted(q, plan), HeadSpills(q, plan), TailSpills(q, plan))
  }

  lemma RecountWithin(q: Limits, bio: seq<Bvec>)
    ensures HeadWithin([bio], Recounted(q, bio).runs) && TailWithin([bio], Recounted(q, bio).runs)
  {
    RecountCuts(q, bio);
    if bio != [] { RunWithin(q, Recounted(q, bio).runs, bio); }
  }

  /** The runs that meet are no larger than the bios that meet, and so within the limit. */
  lemma MeetingSmall(q: Limits, a: Request, c: seq<seq<Bvec>>, b: Request, d: seq<seq<Bvec>>)
    requires Tallies(q, a, c) && Tallies(q, b, d) && Meet(q, a, b)
    requires TailWithin(a.bios, c) && HeadWithin(b.bios, d)
    ensures c != [] && d != [] && Small(q, c[|c| - 1] + d[0])
  {
    MeetingRuns(q, a, c, b, d);
    SizeConcat(c[|c| - 1], d[0]);
  }

  lemma ConcatWithin(a: seq<seq<Bvec>>, c: seq<seq<Bvec>>, b: seq<seq<Bvec>>, d: seq<seq<Bvec>>)
    requires a != [] && b != []
    ensures HeadWithin(a, c) ==> HeadWithin(a + b, c + d)
    ensures TailWithin(b, d) ==> TailWithin(a + b, c + d)
  {
    assert (a + b)[|a + b| - 1] == b[|b| - 1];
    assert d != [] ==> (c + d)[|c + d| - 1] == d[|d| - 1];
  }

  lemma BackWithin(q: Limits, p: Plan, bio: seq<Bvec>, sameHw: bool)
    requires Within(q, p) && Allows(q, Built(q, p), bio, sameHw)
    ensures Within(q, Grow(p, bio, true, sameHw))
  {
    var bios, c, n := Built(q, p).bios, Counted(q, p), Recounted(q, bio).runs;
    RecountWithin(q, bio);
    RecountLinked(q, bio);
    ConcatRuns(q, c, n);
    ConcatWithin(bios, c, [bio], n);
  }

  lemma FrontWithin(q: Limits, p: Plan, bio: seq<Bvec>, sameHw: bool)
    requires Within(q, p) && Allows(q, Built(q, p), bio, sameHw)
    ensures Within(q, Grow(p, bio, false, sameHw))
  {
    var bios, c, n := Built(q, p).bios, Counted(q, p), Recounted(q, bio).runs;
    RecountWithin(q, bio);
    RecountLinked(q, bio);
    ConcatRuns(q, n, c);
    ConcatWithin([bio], n, bios, c);
  }

  lemma GrowWithin(q: Limits, p: Plan, bio: seq<Bvec>, back: bool, sameHw: bool)
    requires Within(q, p)
    ensures Within(q, Grow(p, bio, back, sameHw))
  {
    if Allows(q, Built(q, p), bio, sameHw) {
      if back { BackWithin(q, p, bio, sameHw); } else { FrontWithin(q, p, bio, sameHw); }
    }
  }

  lemma JoinedWithin(a: seq<seq<Bvec>>, c: seq<seq<Bvec>>, b: seq<seq<Bvec>>, d: seq<seq<Bvec>>)
    requires a != [] && b != [] && c != [] && d != []
    ensures HeadWithin(a, c) && |c| > 1 ==> HeadWithin(a + b, Joined(c, d))
    ensures TailWithin(b, d) && |d| > 1 ==> TailWithin(a + b, Joined(c, d))
  {
    JoinedAt(c, d, 0);
    JoinedAt(c, d, |c| + |d| - 2);
    assert (a + b)[|a + b| - 1] == b[|b| - 1];
  }

  lemma MeetHeld(q: Limits, r: Request, c: seq<seq<Bvec>>, head: bool, t: Request, d: seq<seq<Bvec>>, tail: bool)
    requires Tallies(q, r, c) && Tallies(q, t, d) && Meet(q, r, t)
    requires EndsHeld(q, r.bios, c, head, false) && EndsHeld(q, t.bios, d, false, tail)
    ensures c != [] && d != []
    ensures EndsHeld(q, r.bios + t.bios, Joined(c, d), head || r.physSegs == 1, tail || t.physSegs == 1)
  {
    MeetingSmall(q, r, c, t, d);
    JoinedSmall(q, c, d);
    JoinedWithin(r.bios, c, t.bios, d);
  }

  lemma MeetForm(q: Limits, a: Plan, b: Plan, sameHw: bool)
    requires Joins(q, Built(q, a), Built(q, b), sameHw) && Meet(q, Built(q, a), Built(q, b))
    requires Counted(q, a) != [] && Counted(q, b) != []
    ensures var p := Join(a, b, sameHw);
            && Built(q, p).bios == Built(q, a).bios + Built(q, b).bios
            && Counted(q, p) == Joined(Counted(q, a), Counted(q, b))
            && HeadSpills(q, p) == (HeadSpills(q, a) || Built(q, a).physSegs == 1)
            && TailSpills(q, p) == (TailSpills(q, b) || Built(q, b).physSegs == 1)
  {
  }

  lemma MeetWithin(q: Limits, a: Plan, b: Plan, sameHw: bool)
    requires Within(q, a) && Within(q, b) && Joins(q, Built(q, a), Built(q, b), sameHw)
    requires Meet(q, Built(q, a), Built(q, b)) && !TailSpills(q, a) && !HeadSpills(q, b)
    ensures Within(q, Join(a, b, sameHw))
  {
    CountedTallies(q, a);
    CountedTallies(q, b);
    MeetHeld(q, Built(q, a), Counted(q, a), HeadSpills(q, a), Built(q, b), Counted(q, b), TailSpills(q, b));
    MeetForm(q, a, b, sameHw);
  }

  lemma ApartWithin(q: Limits, a: Plan, b: Plan, sameHw: bool)
    requires Within(q, a) && Within(q, b) && Joins(q, Built(q, a), Built(q, b), sameHw)
    requires !Meet(q, Built(q, a), Built(q, b))
    ensures Within(q, Join(a, b, sameHw))
  {
    ConcatRuns(q, Counted(q, a), Counted(q, b));
    ConcatWithin(Built(q, a).bios, Counted(q, a), Built(q, b).bios, Counted(q, b));
  }

  lemma {:induction false} OnceJoinedWithin(q: Limits, plan: Plan)
    requires OnceJoined(q, plan)
    ensures Within(q, plan)
  {
    match plan
    case One(bio) =>
      RecountWithin(q, bio);
      RecountLinked(q, bio);
    case Grow(p, bio, back, sameHw) =>
      OnceJoinedWithin(q, p);
      GrowWithin(q, p, bio, back, sameHw);
    case Join(a, b, sameHw) =>
      OnceJoinedWithin(q, a);
      OnceJoinedWithin(q, b);
      if Joins(q, Built(q, a), Built(q, b), sameHw) {
        if Meet(q, Built(q, a), Built(q, b)) { MeetWithin(q, a, b, sameHw); } else { ApartWithin(q, a, b, sameHw); }
      }
  }

  /** The list fits for every request in which no request of one segment was joined at both ends. */
  lemma OnceJoinedFits(q: Limits, plan: Plan)
    requires OnceJoined(q, plan)
    ensures var r := Built(q, plan);
            Covers(q, r.bios, r.physSegs) && |Greedy(q, Pieces(r.bios))| <= r.physSegs
  {
    OnceJoinedWithin(q, plan);
    ListFits(q, plan);
  }

  predicate JoinFree(plan: Plan) {
    match plan
    case One(_) => true
    case Grow(p, _, _, _) => JoinFree(p)
    case Join(_, _, _) => false
  }

  lemma {:induction false} JoinFreeOnce(q: Limits, plan: Plan)
    requires JoinFree(plan)
    ensures OnceJoined(q, plan) && Saved(q, plan) == 0
  {
    if plan.Grow? { JoinFreeOnce(q, plan.p); }
  }

  /** In particular for every request that bios alone were merged into, and there the counter is their sum. */
  lemma MergedBiosFit(q: Limits, plan: Plan)
    requires JoinFree(plan)
    ensures var r := Built(q, plan);
            && r.physSegs == SumSegments(q, r.bios)
            && Covers(q, r.bios, r.physSegs) && |Greedy(q, Pieces(r.bios))| <= r.physSegs
  {
    JoinFreeOnce(q, plan);
    CounterIsSum(q, plan);
    OnceJoinedFits(q, plan);
  }

  // ---------------------------------------------------------------- a request of one segment joined at both ends

  /** Requests are joined only just after a bio was merged in at the end where they meet. */
  predicate FollowsMerge(plan: Plan) {
    match plan
    case One(_) => true
    case Grow(p, _, _, _) => FollowsMerge(p)
    case Join(a, b, _) => FollowsMerge(a) && FollowsMerge(b) && ((a.Grow? && a.back) || (b.Grow? && !b.back))
  }

  /** x is merged behind w and meets y; later z is merged before v and meets y from the other side. */
  function LeftPart(w: Bvec, x: Bvec): Plan { Grow(One([w]), [x], true, false) }
  function RightPart(z: Bvec, v: Bvec): Plan { Grow(One([v]), [z], false, false) }
  function Sandwich(w: Bvec, x: Bvec, y: Bvec, z: Bvec, v: Bvec): Plan {
    Join(Join(LeftPart(w, x), One([y]), false), RightPart(z, v), false)
  }

  lemma OnePiece(q: Limits, b: Bvec)
    ensures Size([b]) == b.len && Recounted(q, [b]).runs == [[b]] && HwSegments(q, [b]) == 1
  {
    assert [b][..0] == [];
    assert Recounted(q, [b]) == Count(q, Recounted(q, []), b);
    assert Recounted(q, []).runs + [[b]] == [[b]];
  }

  lemma Parts(q: Limits, a: Bvec, b: Bvec)
    requires q.maxPhys >= 3 && q.maxHw >= 5
    ensures Built(q, LeftPart(a, b)) == Request([[a], [b]], 2, 2, false) && Counted(q, LeftPart(a, b)) == [[a], [b]]
    ensures Built(q, RightPart(a, b)) == Request([[a], [b]], 2, 2, false) && Counted(q, RightPart(a, b)) == [[a], [b]]
  {
    OnePiece(q, a);
    OnePiece(q, b);
    assert [[a]] + [[b]] == [[a], [b]];
  }

  lemma LeftJoined(q: Limits, w: Bvec, x: Bvec, y: Bvec)
    requires q.cluster && q.maxPhys >= 3 && q.maxHw >= 5 && Adjacent(q, x, y) && x.len + y.len <= q.maxSize
    ensures var p := Join(LeftPart(w, x), One([y]), false);
            Built(q, p) == Request([[w], [x], [y]], 2, 3, false) && Counted(q, p) == [[w], [x, y]]
  {
    Parts(q, w, x);
    OnePiece(q, x);
    OnePiece(q, y);
    assert [[w], [x]] + [[y]] == [[w], [x], [y]];
    assert [x] + [y] == [x, y];
    assert Joined([[w], [x]], [[y]]) == [[w], [x, y]];
  }

  lemma SandwichForm(q: Limits, w: Bvec, x: Bvec, y: Bvec, z: Bvec, v: Bvec)
    requires q.cluster && q.maxPhys >= 3 && q.maxHw >= 5 && Adjacent(q, x, y) && Adjacent(q, y, z)
    requires x.len + y.len <= q.maxSize && y.len + z.len <= q.maxSize
    ensures var p := Sandwich(w, x, y, z, v);
            Built(q, p) == Request([[w], [x], [y], [z], [v]], 3, 5, false) && Counted(q, p) == [[w], [x, y, z], [v]]
  {
    LeftJoined(q, w, x, y);
    Parts(q, z, v);
    OnePiece(q, y);
    OnePiece(q, z);
    assert [[w], [x], [y]] + [[z], [v]] == [[w], [x], [y], [z], [v]];
    assert [x, y] + [z] == [x, y, z];
    assert Joined([[w], [x, y]], [[z], [v]]) == [[w], [x, y, z], [v]];
  }

  lemma ThreeSize(x: Bvec, y: Bvec, z: Bvec)
    ensures Size([x, y, z]) == x.len + y.len + z.len
  {
    SizeAppend([], x);
    SizeAppend([x], y);
    SizeAppend([x, y], z);
    assert [] + [x] == [x] && [x] + [y] == [x, y] && [x, y] + [z] == [x, y, z];
  }

  lemma MiddleRun(q: Limits, w: Bvec, x: Bvec, y: Bvec, z: Bvec, v: Bvec)
    requires !Adjacent(q, w, x) && !Adjacent(q, z, v)
    ensures Separate(q, [[w], [x, y, z], [v]])
    ensures AllSmall(q, [[w], [x, y, z], [v]]) <==> x.len + y.len + z.len <= q.maxSize
  {
    ThreeSize(x, y, z);
    var c := [[w], [x, y, z], [v]];
    assert AllSmall(q, c) <==> Small(q, c[1]);
  }

  lemma SandwichFollows(w: Bvec, x: Bvec, y: Bvec, z: Bvec, v: Bvec)
    ensures FollowsMerge(Sandwich(w, x, y, z, v))
  {
    assert FollowsMerge(LeftPart(w, x)) && FollowsMerge(RightPart(z, v));
    assert FollowsMerge(Join(LeftPart(w, x), One([y]), false));
  }

  /**
    The join that looks at two bios only.  Each two neighbours of x, y and z may share an entry; the
    request counts three segments, and three entries are enough exactly if all of x, y and z may share
    one.  Counting again would notice.
   */
  lemma JoinUndercounts(q: Limits, w: Bvec, x: Bvec, y: Bvec, z: Bvec, v: Bvec)
    requires q.cluster && q.maxPhys >= 3 && q.maxHw >= 5 && Adjacent(q, x, y) && Adjacent(q, y, z)
    requires x.len + y.len <= q.maxSize && y.len + z.len <= q.maxSize
    requires !Adjacent(q, w, x) && !Adjacent(q, z, v)
    ensures var p := Sandwich(w, x, y, z, v);
            var r := Built(q, p);
            && FollowsMerge(p) && r.bios == [[w], [x], [y], [z], [v]] && r.physSegs == 3
            && (|Greedy(q, Pieces(r.bios))| <= r.physSegs <==> x.len + y.len + z.len <= q.maxSize)
            && |Greedy(q, Pieces(r.bios))| <= Recalc(q, r.bios).nr
  {
    var p := Sandwich(w, x, y, z, v);
    SandwichForm(q, w, x, y, z, v);
    MiddleRun(q, w, x, y, z, v);
    FitsExactly(q, p);
    SandwichFollows(w, x, y, z, v);
    RecountedFits(q, [[w], [x], [y], [z], [v]]);
  }

  /** Pieces of half the largest segment, with a gap at either side of the three in the middle. */
  lemma UndercountReached(q: Limits, h: nat)
    requires h > 0 && q.cluster && q.maxPhys >= 3 && q.maxHw >= 5 && q.maxSize == 2 * h && q.window >= 8 * h
    ensures exists p :: FollowsMerge(p) && |Greedy(q, Pieces(Built(q, p).bios))| > Built(q, p).physSegs
  {
    var w, x, y, z, v := Bvec(0, h, 0), Bvec(2 * h, h, 0), Bvec(3 * h, h, 0), Bvec(4 * h, h, 0), Bvec(6 * h, h, 0);
    InOneWindow(2 * h, 4 * h - 1, q.window);
    InOneWindow(3 * h, 5 * h - 1, q.window);
    JoinUndercounts(q, w, x, y, z, v);
    assert FollowsMerge(Sandwich(w, x, y, z, v));
  }

  lemma InOneWindow(a: nat, b: nat, window: Pos)
    requires a < window && b < window
    ensures a / window == b / window
  {
  }
}
