/** Hashing scatterlists with SHA-1: the digest interface cuts every entry at page boundaries. */
module DigestList {
  import opened BlockStream
  import opened ScatterWalk
  import Sha1

  predicate InMemory(mem: seq<Byte>, sg: Sg) { sg.offset < PAGE && sg.Base() + sg.length <= |mem| }

  predicate AllInMemory(mem: seq<Byte>, list: seq<Sg>) { forall i | 0 <= i < |list| :: InMemory(mem, list[i]) }

  predicate ListsInMemory(mem: seq<Byte>, lists: seq<seq<Sg>>) {
    forall k | 0 <= k < |lists| :: AllInMemory(mem, lists[k])
  }

  /** The bytes of one entry. */
  function Bytes(mem: seq<Byte>, sg: Sg): seq<Byte>
    requires InMemory(mem, sg)
  {
    mem[sg.Base()..sg.Base() + sg.length]
  }

  /** The bytes of the entries from the i-th on. */
  function Gathered(mem: seq<Byte>, list: seq<Sg>, i: nat): seq<Byte>
    requires i <= |list| && AllInMemory(mem, list)
    decreases |list| - i
  {
    if i == |list| then [] else Bytes(mem, list[i]) + Gathered(mem, list, i + 1)
  }

  lemma Regroup(a: seq<Byte>, b: seq<Byte>, c: seq<Byte>)
    ensures (a + b) + c == a + (b + c)
  {
  }

  /** One entry, page by page; `at` is the address reached. */
  method UpdateEntry<S>(ctx: Sha1.Context<S>, ghost m: seq<Byte>, mem: seq<Byte>, sg: Sg)
    requires ctx.Holds(m) && InMemory(mem, sg)
    modifies ctx, ctx.buffer
    ensures ctx.Holds(m + Bytes(mem, sg))
  {
    var pg, offset, l := sg.page, sg.offset, sg.length;
    ghost var at: nat := sg.Base();
    var more := true;
    assert m + mem[at..at] == m;
    while more
      invariant 0 <= offset < PAGE && 0 <= l <= sg.length && at + l == sg.Base() + sg.length
      invariant if more then at == pg * PAGE + offset else l == 0
      invariant ctx.Holds(m + mem[sg.Base()..at])
      decreases more, l
    {
      var n := if l < PAGE - offset then l else PAGE - offset;
      var p := pg * PAGE + offset;
      assert |mem[p..p + n]| <= PAGE;
      ctx.Update(m + mem[sg.Base()..at], mem[p..p + n]);
      Regroup(m, mem[sg.Base()..at], mem[p..p + n]);
      assert mem[sg.Base()..at] + mem[p..p + n] == mem[sg.Base()..at + n];
      at := at + n;
      l := l - n;
      more := l > 0;
      pg, offset := pg + 1, 0;
    }
  }

  /** update. */
  method UpdateList<S>(ctx: Sha1.Context<S>, ghost m: seq<Byte>, mem: seq<Byte>, list: seq<Sg>)
    requires ctx.Holds(m) && AllInMemory(mem, list)
    modifies ctx, ctx.buffer
    ensures ctx.Holds(m + Gathered(mem, list, 0))
  {
    var i := 0;
    ghost var done := m;
    while i < |list|
      invariant 0 <= i <= |list| && ctx.Holds(done)
      invariant done + Gathered(mem, list, i) == m + Gathered(mem, list, 0)
    {
      UpdateEntry(ctx, done, mem, list[i]);
      Regroup(done, Bytes(mem, list[i]), Gathered(mem, list, i + 1));
      done := done + Bytes(mem, list[i]);
      i := i + 1;
    }
    assert done + [] == done;
  }

  /** The bytes of the lists from the i-th on. */
  function AllGathered(mem: seq<Byte>, lists: seq<seq<Sg>>, i: nat): seq<Byte>
    requires i <= |lists| && ListsInMemory(mem, lists)
    decreases |lists| - i
  {
    if i == |lists| then [] else Gathered(mem, lists[i], 0) + AllGathered(mem, lists, i + 1)
  }

  /** Any number of updates. */
  method UpdateLists<S>(ctx: Sha1.Context<S>, ghost m: seq<Byte>, mem: seq<Byte>, lists: seq<seq<Sg>>)
    requires ctx.Holds(m) && ListsInMemory(mem, lists)
    modifies ctx, ctx.buffer
    ensures ctx.Holds(m + AllGathered(mem, lists, 0))
  {
    var i := 0;
    ghost var done := m;
    while i < |lists|
      invariant 0 <= i <= |lists| && ctx.Holds(done)
      invariant done + AllGathered(mem, lists, i) == m + AllGathered(mem, lists, 0)
    {
      UpdateList(ctx, done, mem, lists[i]);
      Regroup(done, Gathered(mem, lists[i], 0), AllGathered(mem, lists, i + 1));
      done := done + Gathered(mem, lists[i], 0);
      i := i + 1;
    }
    assert done + [] == done;
  }

  method HashWith<S>(ctx: Sha1.Context<S>, mem: seq<Byte>, lists: seq<seq<Sg>>, ghost all: seq<Byte>) returns (digest: S)
    requires ctx.Holds([]) && ListsInMemory(mem, lists) && all == AllGathered(mem, lists, 0)
    modifies ctx, ctx.buffer
    ensures digest == BigDigest(ctx.f, ctx.init, all)
  {
    UpdateLists(ctx, [], mem, lists);
    EmptyFirst(all);
    digest := ctx.Final(all);
  }

  lemma EmptyFirst(a: seq<Byte>)
    ensures [] + a == a
  {
  }

  /** init, any number of updates from scatterlists, final: the hash of all their bytes in order. */
  method HashLists<S>(f: Compression<S>, init: S, mem: seq<Byte>, lists: seq<seq<Sg>>) returns (digest: S)
    requires ListsInMemory(mem, lists)
    ensures digest == BigDigest(f, init, AllGathered(mem, lists, 0))
  {
    var ctx := new Sha1.Context<S>(f, init);
    digest := HashWith(ctx, mem, lists, AllGathered(mem, lists, 0));
  }
}
