/**
  Ending the first bytes of a request (__end_that_request_first): the bios are told in order, and
  what stays is the payload with exactly those bytes dropped.
 */
module Completion {

  const SECTOR: nat := 512

  /** A piece of a page, as a bio_vec holds it. */
  datatype Vec = Vec(page: nat, offset: nat, len: nat)

  /** A bio from bi_idx on; `size` is bi_size. */
  datatype Bio = Bio(id: nat, vecs: seq<Vec>, size: nat)

  /** bi_end_io called for a bio. */
  datatype Event = Event(bio: nat, bytes: nat)

  function Sum(vecs: seq<Vec>): nat {
    if vecs == [] then 0 else vecs[0].len + Sum(vecs[1..])
  }

  /** submit_bio refuses a bio without bytes, and bi_size is the sum of what is left of it. */
  predicate Valid(b: Bio) { b.size == Sum(b.vecs) && b.size > 0 }

  predicate AllValid(bios: seq<Bio>) { forall b | b in bios :: Valid(b) }

  function Total(bios: seq<Bio>): nat {
    if bios == [] then 0 else bios[0].size + Total(bios[1..])
  }

  function Min(a: nat, b: nat): nat { if a < b then a else b }

  // ---------------------------------------------------------------- the payload, byte by byte

  datatype Byte = Byte(page: nat, offset: nat)

  function Range(v: Vec): seq<Byte> { seq(v.len, i requires 0 <= i < v.len => Byte(v.page, v.offset + i)) }

  function VecBytes(vecs: seq<Vec>): (s: seq<Byte>)
    ensures |s| == Sum(vecs)
  {
    if vecs == [] then [] else Range(vecs[0]) + VecBytes(vecs[1..])
  }

  function Payload(bios: seq<Bio>): seq<Byte> {
    if bios == [] then [] else VecBytes(bios[0].vecs) + Payload(bios[1..])
  }

  lemma {:induction false} PayloadSize(bios: seq<Bio>)
    requires AllValid(bios)
    ensures |Payload(bios)| == Total(bios)
  {
    if bios != [] {
      assert bios[0] in bios;
      PayloadSize(bios[1..]);
    }
  }

  // ---------------------------------------------------------------- what a completion leaves

  /** The pieces left of a bio of which n bytes, fewer than it has, are done. */
  function DropVecs(vecs: seq<Vec>, n: nat): seq<Vec>
    requires n <= Sum(vecs)
  {
    if n == 0 then vecs
    else if vecs[0].len <= n then DropVecs(vecs[1..], n - vecs[0].len)
    else [Vec(vecs[0].page, vecs[0].offset + n, vecs[0].len - n)] + vecs[1..]
  }

  function DropBio(b: Bio, n: nat): Bio
    requires Valid(b) && n < b.size
  {
    Bio(b.id, DropVecs(b.vecs, n), b.size - n)
  }

  /** The bios left when n bytes are done. */
  function Left(bios: seq<Bio>, n: nat): seq<Bio>
    requires AllValid(bios)
  {
    if bios == [] || n == 0 then bios
    else
      assert bios[0] in bios;
      if n >= bios[0].size then Left(bios[1..], n - bios[0].size) else [DropBio(bios[0], n)] + bios[1..]
  }

  /** What the bios are told. */
  function Events(bios: seq<Bio>, n: nat): seq<Event> {
    if bios == [] || n == 0 then []
    else if n >= bios[0].size then [Event(bios[0].id, bios[0].size)] + Events(bios[1..], n - bios[0].size)
    else [Event(bios[0].id, n)]
  }

  function Told(events: seq<Event>): nat {
    if events == [] then 0 else events[0].bytes + Told(events[1..])
  }

  function ToldTo(events: seq<Event>, id: nat): nat {
    if events == [] then 0 else (if events[0].bio == id then events[0].bytes else 0) + ToldTo(events[1..], id)
  }

  /** The bytes that bio `id` still has. */
  function SizeOf(bios: seq<Bio>, id: nat): nat {
    if bios == [] then 0 else (if bios[0].id == id then bios[0].size else 0) + SizeOf(bios[1..], id)
  }

  lemma {:induction false} DropVecsBytes(vecs: seq<Vec>, n: nat)
    requires n <= Sum(vecs)
    ensures VecBytes(DropVecs(vecs, n)) == VecBytes(vecs)[n..]
    ensures Sum(DropVecs(vecs, n)) == Sum(vecs) - n
  {
    if n == 0 {
    } else if vecs[0].len <= n {
      DropVecsBytes(vecs[1..], n - vecs[0].len);
    } else {
      var t := [Vec(vecs[0].page, vecs[0].offset + n, vecs[0].len - n)] + vecs[1..];
      assert t[1..] == vecs[1..];
      assert Range(t[0]) == Range(vecs[0])[n..];
    }
  }

  lemma {:induction false} LeftValid(bios: seq<Bio>, n: nat)
    requires AllValid(bios)
    ensures AllValid(Left(bios, n))
    ensures Left(bios, n) == [] <==> n >= Total(bios)
  {
    if bios != [] && n != 0 {
      assert bios[0] in bios;
      if n >= bios[0].size {
        LeftValid(bios[1..], n - bios[0].size);
      } else {
        DropVecsBytes(bios[0].vecs, n);
      }
    } else if bios != [] {
      assert bios[0] in bios;
    }
  }

  /** What is left is the payload without its first n bytes. */
  lemma {:induction false} LeftDropsBytes(bios: seq<Bio>, n: nat)
    requires AllValid(bios)
    ensures |Payload(bios)| == Total(bios)
    ensures Payload(Left(bios, n)) == Payload(bios)[Min(n, Total(bios))..]
  {
    PayloadSize(bios);
    if bios != [] && n != 0 {
      var b, rest := bios[0], bios[1..];
      assert b in bios;
      if n >= b.size {
        LeftDropsBytes(rest, n - b.size);
        assert Payload(bios)[Min(n, Total(bios))..] == Payload(rest)[Min(n - b.size, Total(rest))..];
      } else {
        DropVecsBytes(b.vecs, n);
        var t := [DropBio(b, n)] + rest;
        assert t[1..] == rest;
      }
    }
  }

  /** The bios are told of min(n, all) bytes, and each of exactly the bytes it loses. */
  lemma {:induction false} EventsAreExact(bios: seq<Bio>, n: nat, id: nat)
    requires AllValid(bios)
    ensures Told(Events(bios, n)) == Min(n, Total(bios))
    ensures ToldTo(Events(bios, n), id) + SizeOf(Left(bios, n), id) == SizeOf(bios, id)
  {
    if bios != [] && n != 0 {
      assert bios[0] in bios;
      if n >= bios[0].size {
        EventsAreExact(bios[1..], n - bios[0].size, id);
        assert Events(bios, n)[1..] == Events(bios[1..], n - bios[0].size);
      } else {
        var t := [DropBio(bios[0], n)] + bios[1..];
        assert t[1..] == bios[1..];
        assert Events(bios, n)[1..] == [];
      }
    }
  }

  lemma {:induction false} DropTwice(vecs: seq<Vec>, a: nat, b: nat)
    requires a + b <= Sum(vecs)
    ensures a <= Sum(vecs) && b <= Sum(DropVecs(vecs, a))
    ensures DropVecs(DropVecs(vecs, a), b) == DropVecs(vecs, a + b)
  {
    DropVecsBytes(vecs, a);
    if a != 0 && b != 0 {
      if vecs[0].len <= a {
        DropTwice(vecs[1..], a - vecs[0].len, b);
      } else {
        var h := Vec(vecs[0].page, vecs[0].offset + a, vecs[0].len - a);
        var t := [h] + vecs[1..];
        assert t[1..] == vecs[1..];
      }
    }
  }

  /** Completing a bytes and then b bytes leaves what completing a + b bytes leaves, down to the last bio_vec. */
  lemma {:induction false} CompletionsAdd(bios: seq<Bio>, a: nat, b: nat)
    requires AllValid(bios)
    ensures AllValid(Left(bios, a)) && Left(Left(bios, a), b) == Left(bios, a + b)
  {
    LeftValid(bios, a);
    if bios != [] && a != 0 && b != 0 {
      var h, rest := bios[0], bios[1..];
      assert h in bios;
      if a >= h.size {
        CompletionsAdd(rest, a - h.size, b);
      } else {
        var t := [DropBio(h, a)] + rest;
        assert t[0] == DropBio(h, a) && t[1..] == rest;
        if a + b < h.size { DropTwice(h.vecs, a, b); }
      }
    }
  }

  // ---------------------------------------------------------------- the sector counters

  /** The sector fields of a request: the hard ones follow completions, the others what was submitted to the driver. */
  datatype Sectors = Sectors(hardSector: int, hardNr: int, sector: int, nr: int, cur: int)

  /** blk_recalc_rq_sectors for a file system request; `first` is the length of the first piece left. */
  function Recalc(s: Sectors, nsect: nat, first: nat): Sectors {
    var h := s.(hardSector := s.hardSector + nsect, hardNr := s.hardNr - nsect);
    var m := if h.nr >= h.hardNr && h.sector <= h.hardSector
             then h.(sector := h.hardSector, nr := h.hardNr, cur := first / SECTOR) else h;
    if m.nr < m.cur then m.(nr := m.cur) else m
  }

  function First(bios: seq<Bio>): nat {
    if bios == [] || bios[0].vecs == [] then 0 else bios[0].vecs[0].len
  }

  /** The counters say what is left, the end of the request being sector `end`. */
  predicate InStep(s: Sectors, bios: seq<Bio>, end: int) {
    && s.hardNr * SECTOR == Total(bios) && s.hardSector + s.hardNr == end
    && s.sector == s.hardSector && s.nr == s.hardNr && s.cur == First(bios) / SECTOR
  }

  lemma {:induction false} LeftTotal(bios: seq<Bio>, n: nat)
    requires AllValid(bios)
    ensures Total(Left(bios, n)) == Total(bios) - Min(n, Total(bios))
  {
    if bios != [] && n != 0 {
      assert bios[0] in bios;
      if n >= bios[0].size {
        LeftTotal(bios[1..], n - bios[0].size);
      } else {
        var t := [DropBio(bios[0], n)] + bios[1..];
        assert t[1..] == bios[1..];
      }
    }
  }

  lemma {:induction false} FirstWithin(bios: seq<Bio>)
    requires AllValid(bios)
    ensures First(bios) <= Total(bios)
  {
    if bios != [] { assert bios[0] in bios; }
  }

  /**
    The counters of a request that is not finished stay in step, and nothing is "botched", exactly
    when whole sectors were completed: the count handed on is rounded down.
   */
  lemma CountersInStep(s: Sectors, bios: seq<Bio>, n: nat, end: int)
    requires AllValid(bios) && InStep(s, bios, end) && n < Total(bios)
    ensures InStep(Recalc(s, n / SECTOR, First(Left(bios, n))), Left(bios, n), end) <==> n % SECTOR == 0
    ensures Recalc(s, n / SECTOR, First(Left(bios, n))).hardSector + Recalc(s, n / SECTOR, First(Left(bios, n))).hardNr == end
  {
    LeftTotal(bios, n);
    LeftValid(bios, n);
    FirstWithin(Left(bios, n));
    var r := Recalc(s, n / SECTOR, First(Left(bios, n)));
    assert r.hardNr == s.hardNr - n / SECTOR;
    assert n == n / SECTOR * SECTOR + n % SECTOR;
    if n % SECTOR == 0 { assert First(Left(bios, n)) / SECTOR <= r.hardNr; }
  }

  // ---------------------------------------------------------------- the request as it is completed

  lemma {:induction false} SumSplit(vecs: seq<Vec>, k: nat)
    requires k <= |vecs|
    ensures Sum(vecs) == Sum(vecs[..k]) + Sum(vecs[k..])
  {
    if k > 0 {
      SumSplit(vecs[1..], k - 1);
      assert vecs[..k][1..] == vecs[1..][..k - 1] && vecs[k..] == vecs[1..][k - 1..];
    } else {
      assert vecs[k..] == vecs;
    }
  }

  class Request {
    var bios: seq<Bio>
    var sectors: Sectors
    var events: seq<Event>
    const fs: bool

    constructor (bios: seq<Bio>, sectors: Sectors, fs: bool)
      requires AllValid(bios)
      ensures this.bios == bios && this.sectors == sectors && this.fs == fs && events == []
    {
      this.bios, this.sectors, this.fs, this.events := bios, sectors, fs, [];
    }

    /** The source's loop while it completes whole bios; what is left is less than the bio at the head has. */
    method EndWholeBios(n: nat) returns (nr: nat)
      requires AllValid(bios)
      modifies this`bios, this`events
      ensures AllValid(bios) && nr <= n
      ensures bios != [] ==> nr == 0 || nr < bios[0].size
      ensures Left(bios, nr) == Left(old(bios), n)
      ensures events + Events(bios, nr) == old(events) + Events(old(bios), n)
      ensures Total(bios) + (n - nr) == Total(old(bios))
    {
      nr := n;
      while bios != [] && nr > 0 && nr >= bios[0].size
        invariant AllValid(bios) && nr <= n
        invariant Left(bios, nr) == Left(old(bios), n)
        invariant events + Events(bios, nr) == old(events) + Events(old(bios), n)
        invariant Total(bios) + (n - nr) == Total(old(bios))
        decreases |bios|
      {
        var b := bios[0];
        assert b in bios;
        assert events + Events(bios, nr) == (events + [Event(b.id, b.size)]) + Events(bios[1..], nr - b.size);
        events := events + [Event(b.id, b.size)];
        bios := bios[1..];
        nr := nr - b.size;
      }
    }

    /** The source's loop inside the bio it cannot complete: whole pieces done, and what is left for the next one. */
    method EndWholeVecs(n: nat) returns (idx: nat, nr: nat)
      requires bios != [] && Valid(bios[0]) && 0 < n < bios[0].size
      ensures idx < |bios[0].vecs| && nr <= n && (nr == 0 || nr < bios[0].vecs[idx].len)
      ensures DropVecs(bios[0].vecs, n) ==
        if nr == 0 then bios[0].vecs[idx..]
        else var v := bios[0].vecs[idx]; [Vec(v.page, v.offset + nr, v.len - nr)] + bios[0].vecs[idx + 1..]
    {
      var vecs := bios[0].vecs;
      idx, nr := 0, n;
      ghost var done: nat := 0;
      while nr > 0 && vecs[idx].len <= nr
        invariant idx < |vecs| && done + nr == n && Sum(vecs[idx..]) + done == Sum(vecs)
        invariant DropVecs(vecs, n) == DropVecs(vecs[idx..], nr)
        decreases |vecs| - idx
      {
        assert vecs[idx..][1..] == vecs[idx + 1..];
        done := done + vecs[idx].len;
        nr := nr - vecs[idx].len;
        idx := idx + 1;
      }
      assert vecs[idx..][1..] == vecs[idx + 1..];
    }

    /** __end_that_request_first for a request that is no barrier; it returns whether anything is pending. */
    method EndFirst(n: nat) returns (pending: bool)
      requires AllValid(bios)
      modifies this
      ensures bios == Left(old(bios), n) && events == old(events) + Events(old(bios), n)
      ensures AllValid(bios) && (pending <==> n < Total(old(bios)))
      ensures sectors == if pending && fs then Recalc(old(sectors), n / SECTOR, First(bios)) else old(sectors)
    {
      LeftValid(bios, n);
      var nr := EndWholeBios(n);
      if bios == [] { return false; }
      assert bios[0] in bios;
      if nr > 0 {
        var idx, rest := EndWholeVecs(nr);
        var b := bios[0];
        var vecs := b.vecs[idx..];
        if rest > 0 { vecs := [Vec(vecs[0].page, vecs[0].offset + rest, vecs[0].len - rest)] + vecs[1..]; }
        assert b.vecs[idx..][1..] == b.vecs[idx + 1..];
        events := events + [Event(b.id, nr)];
        bios := [Bio(b.id, vecs, b.size - nr)] + bios[1..];
      }
      pending := true;
      if fs { sectors := Recalc(sectors, n / SECTOR, First(bios)); }
    }
  }
}
