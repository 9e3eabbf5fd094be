/** Any run of insertions and deletions on a B-tree that starts empty: it always holds exactly
    the keys put in and not yet taken out, in order, in a well-formed tree. */
module BTreeRuns {
  import opened SortedSeq
  import opened BTreeValue
  import opened BTreePut
  import opened BTreeDel

  datatype Op = Ins(k: int) | Del(k: int)

  /** kb_init: one empty leaf. */
  function Empty(): Tree { Node([], []) }

  /** A tree as its operations leave it: an internal root holds a key. */
  ghost predicate Btree(t: Tree, d: nat, T: nat)
  {
    T >= 2 && Wf(t, d, T) && Shaped(t, d) && Sorted(InOrder(t, d)) && (d > 0 ==> |t.keys| >= 1)
  }

  /** The keys a run leaves. */
  function Keys(ops: seq<Op>): multiset<int>
  {
    if ops == [] then multiset{}
    else
      var before := Keys(ops[..|ops| - 1]);
      match ops[|ops| - 1]
      case Ins(k) => before + multiset{k}
      case Del(k) => before - multiset{k}
  }

  /** Only keys that are there are deleted. */
  predicate Sound(ops: seq<Op>)
  {
    forall i :: 0 <= i < |ops| && ops[i].Del? ==> ops[i].k in Keys(ops[..i])
  }

  lemma BtreeFacts(t: Tree, d: nat, T: nat)
    requires Btree(t, d, T)
    ensures T >= 2 && Wf(t, d, T) && Shaped(t, d) && Sorted(InOrder(t, d)) && (d > 0 ==> |t.keys| >= 1)
    ensures InOrder(t, d) != [] ==> |t.keys| >= 1
  {
  }

  lemma KidKeys(t: Tree, d: nat, T: nat)
    requires T >= 2 && d > 0 && Wf(t, d, T)
    ensures |t.kids| > 0 && |t.kids[0].keys| >= 1
  {
  }

  lemma PutBtree(t: Tree, k: int, d: nat, T: nat)
    requires Btree(t, d, T)
    ensures var (t', d') := Put(t, k, d, T);
    Btree(t', d', T) && multiset(InOrder(t', d')) == multiset(InOrder(t, d)) + multiset{k}
  {
    hide Wf, Shaped, InOrder, Sorted, PutAux, Split, Left, Right;
    PutInOrder(t, k, d, T);
  }

  lemma DelBtree(t: Tree, k: int, d: nat, T: nat)
    requires Btree(t, d, T) && k in InOrder(t, d)
    ensures |t.keys| >= 1
    ensures var (p, t', d') := BTreeDel.Del(t, k, d, T);
      p == k && Btree(t', d', T) && multiset(InOrder(t', d')) == multiset(InOrder(t, d)) - multiset{k}
  {
    BtreeFacts(t, d, T);
    hide Wf, Shaped, InOrder, Sorted, DelAux, Left, Right;
    DelInOrder(t, k, d, T);
    var t1 := DelAux(t, k, Exact, d, T).1;
    if |t1.keys| == 0 && d > 0 {
      KidKeys(t1, d, T);
    }
  }

  /** The tree after a run. */
  ghost function After(ops: seq<Op>, T: nat): (td: (Tree, nat))
    requires T >= 2 && Sound(ops)
    ensures Btree(td.0, td.1, T) && multiset(InOrder(td.0, td.1)) == Keys(ops)
    decreases |ops|
  {
    if ops == [] then (Empty(), 0)
    else
      var n := |ops| - 1;
      SoundFront(ops);
      var (t, d) := After(ops[..n], T);
      BtreeFacts(t, d, T);
      match ops[n]
      case Ins(k) =>
        PutBtree(t, k, d, T);
        Put(t, k, d, T)
      case Del(k) =>
        assert k in multiset(InOrder(t, d));
        DelBtree(t, k, d, T);
        var (_, t', d') := BTreeDel.Del(t, k, d, T);
        (t', d')
  }

  lemma SoundFront(ops: seq<Op>)
    requires Sound(ops) && ops != []
    ensures Sound(ops[..|ops| - 1])
    ensures ops[|ops| - 1].Del? ==> ops[|ops| - 1].k in Keys(ops[..|ops| - 1])
  {
    var front := ops[..|ops| - 1];
    assert forall i :: 0 <= i <= |front| ==> front[..i] == ops[..i];
  }

  /** After any run, the tree is well formed and in order, lookup answers by what was put in
      and not taken out, and the iterator's order is the keys in ascending order. */
  lemma RunsRefine(ops: seq<Op>, T: nat, k: int)
    requires T >= 2 && Sound(ops)
    ensures var (t, d) := After(ops, T);
      && Wf(t, d, T) && Shaped(t, d) && Sorted(InOrder(t, d)) && multiset(InOrder(t, d)) == Keys(ops)
      && (Contains(t, k, d) <==> k in Keys(ops))
  {
    var (t, d) := After(ops, T);
    BtreeFacts(t, d, T);
    hide Wf, Shaped, InOrder, Sorted, Contains, Keys, After;
    ContainsIff(t, k, d);
    assert k in InOrder(t, d) <==> k in multiset(InOrder(t, d));
  }
}
