/**
  Walking a scatterlist page by page.  Memory is one array of bytes; byte `offset` of page `page` is
  at index page * PAGE + offset.  A scatterlist is read as the sequence of addresses of its bytes.
 */
module ScatterWalk {
  const PAGE: nat := 4096          // PAGE_CACHE_SIZE

  datatype Sg = Sg(page: nat, offset: nat, length: nat) {
    function Base(): nat { page * PAGE + offset }
    predicate Good() { length > 0 && offset < PAGE }
  }

  predicate Good(list: seq<Sg>) { forall s | s in list :: s.Good() }

  function Range(a: nat, n: nat): seq<nat> { seq(n, i requires 0 <= i < n => a + i) }

  /** The addresses of the bytes of a scatterlist, in order. */
  function Addrs(list: seq<Sg>): seq<nat> {
    if list == [] then [] else Addrs(list[..|list| - 1]) + Range(list[|list| - 1].Base(), list[|list| - 1].length)
  }

  /** Where entry k begins. */
  function Begin(list: seq<Sg>, k: nat): nat
    requires k <= |list|
  {
    |Addrs(list[..k])|
  }

  lemma {:induction false} BeginNext(list: seq<Sg>, k: nat)
    requires k < |list|
    ensures Begin(list, k + 1) == Begin(list, k) + list[k].length
    ensures Begin(list, k + 1) <= |Addrs(list)|
    ensures Addrs(list)[Begin(list, k)..Begin(list, k + 1)] == Range(list[k].Base(), list[k].length)
    decreases |list|
  {
    assert list[..k + 1][..k] == list[..k];
    if k + 1 == |list| {
      assert list[..k + 1] == list;
    } else {
      var front := list[..|list| - 1];
      BeginNext(front, k);
      assert front[..k] == list[..k] && front[..k + 1] == list[..k + 1];
      assert Addrs(list)[Begin(list, k)..Begin(list, k + 1)] == Addrs(front)[Begin(list, k)..Begin(list, k + 1)];
    }
  }

  lemma BeginAll(list: seq<Sg>)
    ensures Begin(list, |list|) == |Addrs(list)|
  {
    assert list[..|list|] == list;
  }

  lemma SliceOfSlice(s: seq<nat>, from: nat, to: nat, k: nat, n: nat)
    requires from <= to <= |s| && from + k + n <= to
    ensures s[from + k..from + k + n] == s[from..to][k..k + n]
  {
    var x, y := s[from + k..from + k + n], s[from..to][k..k + n];
    assert forall i | 0 <= i < n :: x[i] == y[i];
    assert x == y;
  }

  class Walk {
    const list: seq<Sg>
    var sg: nat
    var page: nat
    var offset: nat
    var lenPage: nat
    var lenSeg: nat

    constructor (list: seq<Sg>)
      requires list != [] && Good(list)
      ensures this.list == list && At(0) && lenPage > 0
    {
      this.list := list;
      sg, page, offset, lenPage, lenSeg := 0, 0, 0, 0, 0;
      new;
      assert list[0] in list && list[..0] == [];
      Start(0);
    }

    function Data(): nat
      reads this
    {
      page * PAGE + offset
    }

    /** The walk stands at byte `pos` of the list. */
    ghost predicate At(pos: nat)
      reads this
    {
      && sg < |list| && Good(list)
      && pos + lenSeg == Begin(list, sg + 1)
      && Data() + lenSeg == list[sg].Base() + list[sg].length
      && lenPage <= lenSeg <= list[sg].length
      && offset + lenPage <= PAGE && (lenPage < lenSeg ==> offset + lenPage == PAGE)
    }

    /** The bytes up to the end of the entry lie one after the other from Data() on. */
    lemma Contiguous(pos: nat, n: nat)
      requires At(pos) && n <= lenSeg
      ensures pos + n <= |Addrs(list)| && Addrs(list)[pos..pos + n] == Range(Data(), n)
    {
      BeginNext(list, sg);
      var k := list[sg].length - lenSeg;
      assert pos == Begin(list, sg) + k;
      var r := Range(list[sg].Base(), list[sg].length);
      assert r[k..k + n] == Range(Data(), n);
      SliceOfSlice(Addrs(list), Begin(list, sg), Begin(list, sg + 1), k, n);
    }

    /** scatterwalk_start; the requires is its BUG_ON. */
    method Start(k: nat)
      requires k < |list| && Good(list) && list[k].length > 0
      modifies this
      ensures sg == k && At(Begin(list, k)) && lenPage > 0
    {
      BeginNext(list, k);
      assert list[k] in list;
      sg := k;
      page := list[k].page;
      lenSeg := list[k].length;
      var rest := PAGE - list[k].offset % PAGE;
      lenPage := if list[k].length < rest then list[k].length else rest;
      offset := list[k].offset;
    }

    method Advance(n: nat, ghost pos: nat)
      requires At(pos) && n <= lenPage
      modifies this
      ensures At(pos + n) && lenPage == old(lenPage) - n && sg == old(sg)
    {
      offset := offset + n;
      lenPage := lenPage - n;
      lenSeg := lenSeg - n;
    }

    /** scatterwalk_pagedone when more is to come: the rest of the page is skipped. */
    method PageDone(ghost pos: nat)
      requires At(pos) && pos + lenPage < |Addrs(list)|
      modifies this
      ensures At(pos + old(lenPage)) && lenPage > 0
    {
      lenSeg := lenSeg - lenPage;
      if lenSeg > 0 {
        page := page + 1;
        lenPage := if lenSeg < PAGE then lenSeg else PAGE;
        offset := 0;
      } else {
        BeginAll(list);
        assert sg + 1 != |list|;
        assert list[sg + 1] in list;
        Start(sg + 1);
      }
    }

    /** scatterwalk_done. */
    method Done(more: bool, ghost pos: nat)
      requires At(pos) && (more ==> pos < |Addrs(list)|)
      modifies this
      ensures more ==> At(pos) && lenPage > 0
    {
      if more && lenPage == 0 { PageDone(pos); }
    }
  }
}
