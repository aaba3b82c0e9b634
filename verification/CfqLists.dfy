/** Queues on lists: a queue moves from one list to another and is never lost or doubled. */
module CfqLists {

  function Drop(s: seq<nat>, i: nat): seq<nat> {
    if s == [] then [] else (if s[0] == i then [] else [s[0]]) + Drop(s[1..], i)
  }

  /** list_del: the queue leaves whatever list it is on. */
  function Unlink(ls: seq<seq<nat>>, i: nat): seq<seq<nat>> {
    if ls == [] then [] else [Drop(ls[0], i)] + Unlink(ls[1..], i)
  }

  /** list_add at a position of list k. */
  function Link(ls: seq<seq<nat>>, k: nat, pos: nat, i: nat): seq<seq<nat>>
    requires k < |ls| && pos <= |ls[k]|
  {
    ls[k := ls[k][..pos] + [i] + ls[k][pos..]]
  }

  /** list_splice_init: all of list k goes to the front of list m. */
  function Splice(ls: seq<seq<nat>>, k: nat, m: nat): seq<seq<nat>>
    requires k < |ls| && m < |ls| && k != m
  {
    ls[m := ls[k] + ls[m]][k := []]
  }

  /** How often queue i occurs on the lists. */
  function Total(ls: seq<seq<nat>>, i: nat): nat {
    if ls == [] then 0 else multiset(ls[0])[i] + Total(ls[1..], i)
  }

  lemma {:induction false} DropCount(s: seq<nat>, i: nat, j: nat)
    ensures multiset(Drop(s, i))[j] == if i == j then 0 else multiset(s)[j]
  {
    if s != [] {
      DropCount(s[1..], i, j);
      assert s == [s[0]] + s[1..];
      assert multiset(s) == multiset{s[0]} + multiset(s[1..]);
    }
  }

  lemma {:induction false} UnlinkCount(ls: seq<seq<nat>>, i: nat, j: nat)
    ensures |Unlink(ls, i)| == |ls|
    ensures forall k | 0 <= k < |ls| :: Unlink(ls, i)[k] == Drop(ls[k], i)
    ensures Total(Unlink(ls, i), j) == if i == j then 0 else Total(ls, j)
  {
    if ls != [] {
      UnlinkCount(ls[1..], i, j);
      DropCount(ls[0], i, j);
      assert Unlink(ls, i)[1..] == Unlink(ls[1..], i);
    }
  }

  lemma {:induction false} UpdateCount(ls: seq<seq<nat>>, k: nat, s: seq<nat>, j: nat)
    requires k < |ls|
    ensures Total(ls[k := s], j) == Total(ls, j) - multiset(ls[k])[j] + multiset(s)[j]
  {
    if k == 0 {
      assert ls[k := s][1..] == ls[1..];
    } else {
      assert ls[k := s][1..] == ls[1..][k - 1 := s];
      UpdateCount(ls[1..], k - 1, s, j);
    }
  }

  lemma LinkCount(ls: seq<seq<nat>>, k: nat, pos: nat, i: nat, j: nat)
    requires k < |ls| && pos <= |ls[k]|
    ensures Total(Link(ls, k, pos, i), j) == Total(ls, j) + if i == j then 1 else 0
  {
    var s := ls[k][..pos] + [i] + ls[k][pos..];
    assert ls[k] == ls[k][..pos] + ls[k][pos..];
    assert multiset(s) == multiset(ls[k]) + multiset{i};
    UpdateCount(ls, k, s, j);
  }

  lemma SpliceCount(ls: seq<seq<nat>>, k: nat, m: nat, j: nat)
    requires k < |ls| && m < |ls| && k != m
    ensures Total(Splice(ls, k, m), j) == Total(ls, j)
  {
    UpdateCount(ls, m, ls[k] + ls[m], j);
    UpdateCount(ls[m := ls[k] + ls[m]], k, [], j);
  }

  lemma {:induction false} OnSome(ls: seq<seq<nat>>, i: nat)
    ensures Total(ls, i) > 0 <==> exists k :: 0 <= k < |ls| && i in ls[k]
  {
    if ls != [] {
      OnSome(ls[1..], i);
      assert i in ls[0] <==> multiset(ls[0])[i] > 0;
      if k :| 0 <= k < |ls| && i in ls[k] {
        assert k > 0 ==> i in ls[1..][k - 1];
      }
      if k :| 0 <= k < |ls[1..]| && i in ls[1..][k] {
        assert i in ls[k + 1];
      }
    }
  }

  /** A queue that occurs once is on one list only. */
  lemma OnOne(ls: seq<seq<nat>>, i: nat, k: nat, m: nat)
    requires Total(ls, i) <= 1 && k < |ls| && m < |ls| && i in ls[k] && i in ls[m]
    ensures k == m
  {
    if k != m {
      UpdateCount(ls, k, [], i);
      assert multiset(ls[k])[i] > 0;
      assert i in ls[k := []][m];
      OnSome(ls[k := []], i);
    }
  }

  lemma {:induction false} InDrop(s: seq<nat>, i: nat, j: nat)
    ensures j in Drop(s, i) <==> j in s && j != i
  {
    DropCount(s, i, j);
    assert j in Drop(s, i) <==> j in multiset(Drop(s, i));
    assert j in s <==> j in multiset(s);
  }
}
