/** The nodes of the B-tree of src/kbtree.h as objects that hang together: what it means for
    them to be a tree value, and how to take such a tree apart and put it together again. */
module BTreeNodes {
  import opened BTreeValue

  /** kbnode_t: its flag and the filled parts of its key and child buffers. */
  class KbNode {
    var internal: bool
    var keys: seq<int>
    var kids: seq<KbNode>

    constructor (internal: bool)
      ensures this.internal == internal && keys == [] && kids == []
    {
      this.internal := internal;
      keys, kids := [], [];
    }
  }

  /** A node and the shapes below it. */
  datatype Shape = Shape(node: KbNode, kids: seq<Shape>)

  ghost function Nodes(s: Shape): set<KbNode> { {s.node} + NodesOf(s.kids) }

  ghost function NodesOf(ss: seq<Shape>): (r: set<KbNode>)
    ensures forall i :: 0 <= i < |ss| ==> Nodes(ss[i]) <= r
  {
    set i, n | 0 <= i < |ss| && n in Nodes(ss[i]) :: n
  }

  function Tops(ss: seq<Shape>): (r: seq<KbNode>)
    ensures |r| == |ss| && forall i :: 0 <= i < |ss| ==> r[i] == ss[i].node
  {
    seq(|ss|, i requires 0 <= i < |ss| => ss[i].node)
  }

  /** The nodes of s are the tree t of height d, and no node hangs in two places. */
  ghost predicate Hung(s: Shape, t: Tree, d: nat)
    reads Nodes(s)
    decreases d, 1
  {
    && s.node.keys == t.keys
    && s.node.internal == (d > 0)
    && s.node.kids == Tops(s.kids)
    && s.node !in NodesOf(s.kids)
    && Under(s.kids, t.kids, d)
  }

  /** What hangs below a node of height d. */
  ghost predicate Under(ss: seq<Shape>, ts: seq<Tree>, d: nat)
    reads NodesOf(ss)
    decreases d, 0
  {
    if d == 0 then ss == [] && ts == [] else Forest(ss, ts, d - 1)
  }

  /** Shapes side by side that share no node. */
  ghost predicate Forest(ss: seq<Shape>, ts: seq<Tree>, d: nat)
    reads NodesOf(ss)
    decreases d, 2
  {
    && |ss| == |ts|
    && (forall i :: 0 <= i < |ss| ==> Hung(ss[i], ts[i], d))
    && forall i, j :: 0 <= i < j < |ss| ==> Nodes(ss[i]) !! Nodes(ss[j])
  }

  // ----- side by side -----

  lemma NodesJoin(a: seq<Shape>, b: seq<Shape>)
    ensures NodesOf(a + b) == NodesOf(a) + NodesOf(b)
  {
    hide Nodes;
    forall n | n in NodesOf(a) + NodesOf(b) ensures n in NodesOf(a + b) {
      if n in NodesOf(a) {
        var i :| 0 <= i < |a| && n in Nodes(a[i]);
        assert n in Nodes((a + b)[i]);
      } else {
        var i :| 0 <= i < |b| && n in Nodes(b[i]);
        assert n in Nodes((a + b)[|a| + i]);
      }
    }
  }

  lemma NodesApart(a: seq<Shape>, b: seq<Shape>)
    requires forall i, j :: 0 <= i < |a| && 0 <= j < |b| ==> Nodes(a[i]) !! Nodes(b[j])
    ensures NodesOf(a) !! NodesOf(b)
  {
    hide Nodes;
  }

  lemma ForestJoin(a: seq<Shape>, ta: seq<Tree>, b: seq<Shape>, tb: seq<Tree>, d: nat)
    requires Forest(a, ta, d) && Forest(b, tb, d) && NodesOf(a) !! NodesOf(b)
    ensures Forest(a + b, ta + tb, d) && NodesOf(a + b) == NodesOf(a) + NodesOf(b)
  {
    hide Nodes, NodesOf, Hung;
    NodesJoin(a, b);
  }

  lemma ForestCut(a: seq<Shape>, ta: seq<Tree>, b: seq<Shape>, tb: seq<Tree>, d: nat)
    requires Forest(a + b, ta + tb, d) && |a| == |ta|
    ensures Forest(a, ta, d) && Forest(b, tb, d) && NodesOf(a) !! NodesOf(b)
    ensures NodesOf(a + b) == NodesOf(a) + NodesOf(b)
  {
    hide Nodes, NodesOf, Hung;
    NodesJoin(a, b);
    var c, tc := a + b, ta + tb;
    assert forall i :: 0 <= i < |a| ==> c[i] == a[i] && tc[i] == ta[i];
    assert forall i :: 0 <= i < |b| ==> c[|a| + i] == b[i] && tc[|a| + i] == tb[i];
    NodesApart(a, b);
  }

  lemma ForestOne(s: Shape, t: Tree, d: nat)
    ensures Forest([s], [t], d) <==> Hung(s, t, d)
    ensures NodesOf([s]) == Nodes(s)
  {
    hide Hung, Nodes;
    assert [s][0] == s;
  }

  lemma ForestSize(ss: seq<Shape>, ts: seq<Tree>, d: nat)
    requires Forest(ss, ts, d)
    ensures |ss| == |ts|
  {
    hide Hung, Nodes;
  }

  /** Kid i, what is left of it and what is right of it. */
  lemma Open(ss: seq<Shape>, ts: seq<Tree>, i: nat, d: nat)
    requires Forest(ss, ts, d) && i < |ss|
    ensures |ss| == |ts|
    ensures Forest(ss[..i], ts[..i], d) && Hung(ss[i], ts[i], d) && Forest(ss[i + 1..], ts[i + 1..], d)
    ensures NodesOf(ss[..i]) !! Nodes(ss[i]) !! NodesOf(ss[i + 1..])
    ensures NodesOf(ss) == NodesOf(ss[..i]) + Nodes(ss[i]) + NodesOf(ss[i + 1..])
  {
    hide Nodes, NodesOf, Hung, Forest;
    ForestSize(ss, ts, d);
    assert ss == ss[..i] + ss[i..] && ts == ts[..i] + ts[i..];
    ForestCut(ss[..i], ts[..i], ss[i..], ts[i..], d);
    assert ss[i..] == [ss[i]] + ss[i + 1..] && ts[i..] == [ts[i]] + ts[i + 1..];
    ForestCut([ss[i]], [ts[i]], ss[i + 1..], ts[i + 1..], d);
    ForestOne(ss[i], ts[i], d);
  }

  lemma Close(l: seq<Shape>, tl: seq<Tree>, c: Shape, t: Tree, r: seq<Shape>, tr: seq<Tree>, d: nat)
    requires Forest(l, tl, d) && Hung(c, t, d) && Forest(r, tr, d)
    requires NodesOf(l) !! Nodes(c) !! NodesOf(r)
    ensures Forest(l + [c] + r, tl + [t] + tr, d)
    ensures NodesOf(l + [c] + r) == NodesOf(l) + Nodes(c) + NodesOf(r)
  {
    hide Nodes, NodesOf, Hung, Forest;
    ForestOne(c, t, d);
    ForestJoin(l, tl, [c], [t], d);
    ForestJoin(l + [c], tl + [t], r, tr, d);
  }

  // ----- a node taken apart and put together -----

  lemma Unhang(s: Shape, t: Tree, d: nat)
    requires Hung(s, t, d)
    ensures s.node.keys == t.keys && s.node.internal == (d > 0) && s.node.kids == Tops(s.kids)
    ensures |s.kids| == |t.kids| && Under(s.kids, t.kids, d)
    ensures s.node !in NodesOf(s.kids) && Nodes(s) == {s.node} + NodesOf(s.kids)
    ensures d == 0 ==> s.kids == [] && t.kids == []
  {
    hide NodesOf;
    UnderSize(s.kids, t.kids, d);
  }

  lemma UnderSize(ss: seq<Shape>, ts: seq<Tree>, d: nat)
    requires Under(ss, ts, d)
    ensures |ss| == |ts|
  {
    hide Hung, Nodes;
  }

  lemma Hang(x: KbNode, ss: seq<Shape>, t: Tree, d: nat)
    requires x.keys == t.keys && x.internal == (d > 0) && x.kids == Tops(ss)
    requires Under(ss, t.kids, d) && x !in NodesOf(ss)
    ensures Hung(Shape(x, ss), t, d) && Nodes(Shape(x, ss)) == {x} + NodesOf(ss)
  {
    hide NodesOf, Under;
  }

  /** Everything under node x but kid i, and that kid. */
  ghost predicate Beside(l: seq<Shape>, tl: seq<Tree>, r: seq<Shape>, tr: seq<Tree>, d: nat)
    reads NodesOf(l) + NodesOf(r)
  {
    Forest(l, tl, d) && Forest(r, tr, d) && NodesOf(l) !! NodesOf(r)
  }

  /** An internal node with kid i set loose. */
  lemma Loosen(s: Shape, t: Tree, i: nat, d: nat)
    requires d > 0 && Hung(s, t, d) && i < |s.kids|
    ensures s.node.keys == t.keys && s.node.internal && s.node.kids == Tops(s.kids) && |s.kids| == |t.kids|
    ensures Beside(s.kids[..i], t.kids[..i], s.kids[i + 1..], t.kids[i + 1..], d - 1)
    ensures Hung(s.kids[i], t.kids[i], d - 1)
    ensures s.node !in NodesOf(s.kids)
    ensures Nodes(s.kids[i]) !! NodesOf(s.kids[..i]) + NodesOf(s.kids[i + 1..])
    ensures NodesOf(s.kids) == NodesOf(s.kids[..i]) + Nodes(s.kids[i]) + NodesOf(s.kids[i + 1..])
    ensures Nodes(s) == {s.node} + NodesOf(s.kids)
  {
    hide Nodes, NodesOf, Hung, Forest;
    Unhang(s, t, d);
    Open(s.kids, t.kids, i, d - 1);
  }

  /** And with c in its place. */
  lemma Fasten(x: KbNode, l: seq<Shape>, tl: seq<Tree>, c: Shape, tc: Tree, r: seq<Shape>, tr: seq<Tree>,
      keys: seq<int>, d: nat)
    requires d > 0 && x.keys == keys && x.internal && x.kids == Tops(l + [c] + r)
    requires Beside(l, tl, r, tr, d - 1) && Hung(c, tc, d - 1)
    requires Nodes(c) !! NodesOf(l) + NodesOf(r) && x !in NodesOf(l) + Nodes(c) + NodesOf(r)
    ensures Hung(Shape(x, l + [c] + r), Node(keys, tl + [tc] + tr), d)
    ensures Nodes(Shape(x, l + [c] + r)) == {x} + NodesOf(l) + Nodes(c) + NodesOf(r)
  {
    hide Nodes, NodesOf, Hung, Forest;
    Close(l, tl, c, tc, r, tr, d - 1);
    Hang(x, l + [c] + r, Node(keys, tl + [tc] + tr), d);
  }

  /** An internal node with kids i and i+1 set loose. */
  lemma LoosenPair(s: Shape, t: Tree, i: nat, d: nat)
    requires d > 0 && Hung(s, t, d) && i + 1 < |s.kids|
    ensures s.node.keys == t.keys && s.node.internal && s.node.kids == Tops(s.kids) && |s.kids| == |t.kids|
    ensures Beside(s.kids[..i], t.kids[..i], s.kids[i + 2..], t.kids[i + 2..], d - 1)
    ensures Hung(s.kids[i], t.kids[i], d - 1) && Hung(s.kids[i + 1], t.kids[i + 1], d - 1)
    ensures s.node !in NodesOf(s.kids)
    ensures Nodes(s.kids[i]) !! Nodes(s.kids[i + 1]) !! NodesOf(s.kids[..i]) + NodesOf(s.kids[i + 2..])
    ensures NodesOf(s.kids) == NodesOf(s.kids[..i]) + Nodes(s.kids[i]) + Nodes(s.kids[i + 1]) + NodesOf(s.kids[i + 2..])
    ensures Nodes(s) == {s.node} + NodesOf(s.kids)
  {
    hide Nodes, NodesOf, Hung, Forest;
    Unhang(s, t, d);
    Open(s.kids, t.kids, i, d - 1);
    Open(s.kids[i + 1..], t.kids[i + 1..], 0, d - 1);
    NoNodes();
    assert s.kids[i + 1..][1..] == s.kids[i + 2..] && t.kids[i + 1..][1..] == t.kids[i + 2..];
    assert s.kids[i + 1..][..0] == [];
  }

  lemma NoNodes()
    ensures NodesOf([]) == {}
  {
  }

  /** And with a and b in their place. */
  lemma FastenPair(x: KbNode, l: seq<Shape>, tl: seq<Tree>, a: Shape, ta: Tree, b: Shape, tb: Tree,
                   r: seq<Shape>, tr: seq<Tree>, keys: seq<int>, d: nat)
    requires d > 0 && x.keys == keys && x.internal && x.kids == Tops(l + [a, b] + r)
    requires Beside(l, tl, r, tr, d - 1) && Hung(a, ta, d - 1) && Hung(b, tb, d - 1)
    requires Nodes(a) !! Nodes(b) !! NodesOf(l) + NodesOf(r) && x !in NodesOf(l) + Nodes(a) + Nodes(b) + NodesOf(r)
    ensures Hung(Shape(x, l + [a, b] + r), Node(keys, tl + [ta, tb] + tr), d)
    ensures Nodes(Shape(x, l + [a, b] + r)) == {x} + NodesOf(l) + Nodes(a) + Nodes(b) + NodesOf(r)
  {
    hide Nodes, NodesOf, Hung, Forest;
    ForestOne(b, tb, d - 1);
    ForestJoin([b], [tb], r, tr, d - 1);
    Close(l, tl, a, ta, [b] + r, [tb] + tr, d - 1);
    assert l + [a] + ([b] + r) == l + [a, b] + r && tl + [ta] + ([tb] + tr) == tl + [ta, tb] + tr;
    Hang(x, l + [a, b] + r, Node(keys, tl + [ta, tb] + tr), d);
  }
}
