/** The B-tree object of src/kbtree.h: whatever is put in and taken out, its nodes are a
    well-formed tree that reads as the sorted sequence of the keys it holds. */
module BTreeObject {
  import opened SortedSeq
  import opened BTreeValue
  import opened BTreePut
  import opened BTreeDel
  import opened BTreeNodes
  import opened BTreeInPlace
  import opened BTreeRuns

  class KbTree {
    const T: nat
    var root: KbNode
    var nKeys: nat
    ghost var shape: Shape
    ghost var tree: Tree
    ghost var depth: nat
    ghost var repr: set<KbNode>

    ghost predicate Valid()
      reads this, repr
    {
      && repr == Nodes(shape)
      && shape.node == root
      && Hung(shape, tree, depth)
      && Btree(tree, depth, T)
      && nKeys == |InOrder(tree, depth)|
    }

    /** The keys held, in order. */
    ghost function Keys(): seq<int>
      reads this
    {
      if Shaped(tree, depth) then InOrder(tree, depth) else []
    }

    /** kb_init, once the minimum degree is known to be at least 2. */
    constructor (T: nat)
      requires T >= 2
      ensures Valid() && fresh(repr) && Keys() == [] && this.T == T
    {
      this.T := T;
      var x := new KbNode(false);
      root, nKeys := x, 0;
      shape, tree, depth, repr := Shape(x, []), Empty(), 0, {x};
      new;
      NoNodes();
      Hang(root, [], Empty(), 0);
    }

    /** kb_putp */
    method Put(k: int)
      requires Valid()
      modifies this, repr
      ensures Valid() && fresh(repr - old(repr))
      ensures Keys() == SortedSeq.Insert(old(Keys()), k)
    {
      hide Nodes, NodesOf, Hung, Wf, Shaped, InOrder, Sorted, BTreePut.Put;
      BtreeOrdered(tree, depth, T);
      PutBtree(tree, k, depth, T);
      PutReads(tree, k, depth, T);
      ghost var td := BTreePut.Put(tree, k, depth, T);
      nKeys := nKeys + 1;
      var x, s', _ := PutRoot(root, k, T, shape, tree, depth, repr);
      root, shape, tree, depth, repr := x, s', td.0, td.1, Nodes(s');
    }

    /** kb_delp of a key that is there.  The nodes it frees are in the tree no more. */
    method Delete(k: int) returns (p: int)
      requires Valid() && k in Keys()
      modifies this, repr
      ensures Valid() && repr <= old(repr)
      ensures p == k && Keys() == Remove(old(Keys()), k)
    {
      hide Nodes, NodesOf, Hung, Wf, Shaped, InOrder, Sorted, BTreeDel.Del;
      BtreeOrdered(tree, depth, T);
      BtreeFacts(tree, depth, T);
      DelBtree(tree, k, depth, T);
      DelReads(tree, k, depth, T);
      ghost var td := BTreeDel.Del(tree, k, depth, T);
      var q, x, s' := DelRoot(root, k, T, shape, tree, depth, repr);
      p, nKeys := q, nKeys - 1;
      root, shape, tree, depth, repr := x, s', td.1, td.2, Nodes(s');
    }

    /** kb_getp */
    method Get(k: int) returns (found: bool)
      requires Valid()
      ensures found <==> k in Keys()
    {
      hide Nodes, NodesOf, Hung, Wf, Shaped, InOrder, Sorted;
      BtreeOrdered(tree, depth, T);
      found := Seen(root, k, T, shape, tree, depth, repr);
    }
  }

  lemma BtreeOrdered(t: Tree, d: nat, T: nat)
    requires Btree(t, d, T)
    ensures T >= 2 && Wf(t, d, T) && Shaped(t, d) && Ordered(t, d, T)
  {
  }

  lemma PutReads(t: Tree, k: int, d: nat, T: nat)
    requires Ordered(t, d, T)
    ensures T >= 2 && Wf(t, d, T)
    ensures var (t', d') := Put(t, k, d, T);
      Shaped(t, d) && Shaped(t', d') && InOrder(t', d') == SortedSeq.Insert(InOrder(t, d), k)
        && |InOrder(t', d')| == |InOrder(t, d)| + 1
  {
    hide Wf, Shaped, InOrder, Sorted, Put, Left, Right, SortedSeq.Insert;
    PutInOrder(t, k, d, T);
    assert |multiset(InOrder(t, d)) + multiset{k}| == |InOrder(t, d)| + 1;
  }

  lemma DelReads(t: Tree, k: int, d: nat, T: nat)
    requires Ordered(t, d, T) && |t.keys| >= 1 && Shaped(t, d) && k in InOrder(t, d)
    ensures T >= 2 && Wf(t, d, T)
    ensures var (p, t', d') := BTreeDel.Del(t, k, d, T);
      p == k && Shaped(t', d') && InOrder(t', d') == Remove(InOrder(t, d), k)
        && |InOrder(t', d')| == |InOrder(t, d)| - 1
  {
    hide Wf, Shaped, InOrder, Sorted, BTreeDel.Del, Left, Right, Remove;
    DelInOrder(t, k, d, T);
    assert |multiset(InOrder(t, d)) - multiset{k}| == |InOrder(t, d)| - 1;
  }
}
