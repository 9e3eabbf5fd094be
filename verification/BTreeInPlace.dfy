/** Inserting into and deleting from the B-tree of src/kbtree.h, nodes changed in place. */
module BTreeInPlace {
  import opened SortedSeq
  import opened BTreeValue
  import opened BTreePut
  import opened BTreeDel
  import opened BTreeNodes

  /** A well-formed tree whose reading is in order. */
  ghost predicate Ordered(t: Tree, d: nat, T: nat)
  {
    T >= 2 && Wf(t, d, T) && Shaped(t, d) && Sorted(InOrder(t, d))
  }

  lemma OrderedNode(t: Tree, d: nat, T: nat)
    requires Ordered(t, d, T)
    ensures T >= 2 && Wf(t, d, T) && Sorted(t.keys) && |t.keys| <= 2 * T - 1
    ensures if d == 0 then t.kids == [] else |t.kids| == |t.keys| + 1
  {
    NodeKeysSorted(t, d);
    hide InOrder, Sorted, Left, Right;
  }

  lemma OrderedKid(t: Tree, i: nat, d: nat, T: nat)
    requires d > 0 && Ordered(t, d, T) && i < |t.kids|
    ensures Ordered(t.kids[i], d - 1, T) && T - 1 <= |t.kids[i].keys| <= 2 * T - 1
  {
    WfKid(t, i, d, T);
    ShapedKids(t, d);
    hide InOrder, Sorted, Left, Right, Shaped, Wf;
    KidSorted(t, d, i);
  }

  // ----- splitting -----

  function Start<X>(ss: seq<X>, n: nat): seq<X> { if |ss| < n then [] else ss[..n] }

  function End<X>(ss: seq<X>, n: nat): seq<X> { if |ss| < n then [] else ss[n..] }

  lemma UnderCut(ss: seq<Shape>, ts: seq<Tree>, n: nat, d: nat)
    requires Under(ss, ts, d) && n > 0
    requires d > 0 ==> n <= |ss|
    ensures Under(Start(ss, n), Start(ts, n), d) && Under(End(ss, n), End(ts, n), d)
    ensures NodesOf(Start(ss, n)) !! NodesOf(End(ss, n))
    ensures NodesOf(ss) == NodesOf(Start(ss, n)) + NodesOf(End(ss, n))
    ensures Tops(Start(ss, n)) == Start(Tops(ss), n) && Tops(End(ss, n)) == End(Tops(ss), n)
  {
    hide Nodes, NodesOf, Hung, Forest;
    UnderSize(ss, ts, d);
    NoNodes();
    if d > 0 {
      assert ss == ss[..n] + ss[n..] && ts == ts[..n] + ts[n..];
      ForestCut(ss[..n], ts[..n], ss[n..], ts[n..], d - 1);
    }
  }

  /** The upper half of full node y moved to a new node. */
  method Halve(y: KbNode, T: nat) returns (z: KbNode)
    requires T >= 1 && |y.keys| == 2 * T - 1 && if y.internal then |y.kids| == 2 * T else y.kids == []
    modifies y
    ensures fresh(z) && z.internal == y.internal == old(y.internal)
    ensures y.keys == old(y.keys)[..T - 1] && z.keys == old(y.keys)[T..]
    ensures y.kids == Start(old(y.kids), T) && z.kids == End(old(y.kids), T)
  {
    z := new KbNode(y.internal);
    z.keys := y.keys[T..];
    if y.internal {
      z.kids := y.kids[T..];
    }
    y.keys := y.keys[..T - 1];
    if y.internal {
      y.kids := y.kids[..T];
    }
  }

  /** Kid i of x gives way to y and z. */
  lemma TopsPart(ss: seq<Shape>, i: nat, a: Shape, b: Shape)
    requires i < |ss| && a.node == ss[i].node
    ensures Tops(ss)[..i + 1] + [b.node] + Tops(ss)[i + 1..] == Tops(ss[..i] + [a, b] + ss[i + 1..])
  {
  }

  /** __kb_split */
  method Split(x: KbNode, i: nat, y: KbNode, T: nat, ghost s: Shape, ghost t: Tree, ghost d: nat,
      ghost all: set<KbNode>)
    returns (z: KbNode, ghost s': Shape)
    requires d > 0 && Hung(s, t, d) && s.node == x && Nodes(s) <= all
    requires T >= 2 && Wf(t, d, T) && i < |t.kids| == |s.kids| && i <= |t.keys| && |t.kids[i].keys| == 2 * T - 1
    requires y == s.kids[i].node
    modifies x, y
    ensures s'.node == x && Hung(s', BTreePut.Split(t, i, T), d)
    ensures fresh(z) && Nodes(s') == Nodes(s) + {z}
  {
    hide Nodes, NodesOf, Hung, Forest, Under, Wf, Tops;
    ghost var l, c, r := s.kids[..i], s.kids[i], s.kids[i + 1..];
    ghost var tl, tc, tr := t.kids[..i], t.kids[i], t.kids[i + 1..];
    WfKid(t, i, d, T);
    Loosen(s, t, i, d);
    Unhang(c, tc, d - 1);
    UnderCut(c.kids, tc.kids, T, d - 1);
    ghost var lo, hi := Start(c.kids, T), End(c.kids, T);
    var middle := y.keys[T - 1];
    z := Halve(y, T);
    x.kids := x.kids[..i + 1] + [z] + x.kids[i + 1..];
    x.keys := x.keys[..i] + [middle] + x.keys[i..];
    Hang(y, lo, Lower(tc, T), d - 1);
    Hang(z, hi, Upper(tc, T), d - 1);
    s' := Shape(x, l + [Shape(y, lo), Shape(z, hi)] + r);
    TopsPart(s.kids, i, Shape(y, lo), Shape(z, hi));
    FastenPair(x, l, tl, Shape(y, lo), Lower(tc, T), Shape(z, hi), Upper(tc, T), r, tr, x.keys, d);
  }

  // ----- inserting -----

  lemma EnterOrdered(t: Tree, k: int, d: nat, T: nat)
    requires d > 0 && Ordered(t, d, T) && |t.keys| < 2 * T - 1
    ensures Ordered(Enter(t, k, d, T).0, d, T)
  {
    EnterInOrder(t, k, d, T);
    hide InOrder, Sorted, Left, Right, Shaped, Wf, Enter;
  }

  /** The split __kb_putp_aux makes when the kid to enter is full. */
  method EnterKid(x: KbNode, k: int, T: nat, ghost s: Shape, ghost t: Tree, ghost d: nat, ghost all: set<KbNode>)
    returns (i: nat, ghost s': Shape, ghost more: set<KbNode>)
    requires d > 0 && Hung(s, t, d) && s.node == x && Nodes(s) <= all
    requires Ordered(t, d, T) && |t.keys| < 2 * T - 1
    modifies Nodes(s)
    ensures s'.node == x && Hung(s', Enter(t, k, d, T).0, d) && i == Enter(t, k, d, T).1
    ensures fresh(more) && Nodes(s') == Nodes(s) + more
  {
    hide Nodes, NodesOf, Hung, Forest, Under, Wf, BTreePut.Split, Ordered, Sorted, Aux, Enter;
    OrderedNode(t, d, T);
    Unhang(s, t, d);
    var at, _ := GetAux(x.keys, k);
    ghost var at' := EnterIs(t, k, d, T);
    i, s', more := at + 1, s, {};
    Loosen(s, t, i, d);
    Unhang(s.kids[i], t.kids[i], d - 1);
    if |x.kids[i].keys| == 2 * T - 1 {
      var z, s1 := Split(x, i, x.kids[i], T, s, t, d, all);
      s', more := s1, {z};
      Unhang(s', BTreePut.Split(t, i, T), d);
      if k > x.keys[i] {
        i := i + 1;
      }
    }
  }

  /** __kb_putp_aux */
  method PutNode(x: KbNode, k: int, T: nat, ghost s: Shape, ghost t: Tree, ghost d: nat, ghost all: set<KbNode>)
    returns (ghost s': Shape, ghost more: set<KbNode>)
    requires Hung(s, t, d) && s.node == x && Nodes(s) <= all
    requires Ordered(t, d, T) && |t.keys| < 2 * T - 1
    modifies Nodes(s)
    ensures s'.node == x && Hung(s', PutAux(t, k, d, T), d)
    ensures fresh(more) && Nodes(s') == Nodes(s) + more
    decreases d
  {
    hide Nodes, NodesOf, Hung, Forest, Wf, Ordered, Sorted, Aux, Enter;
    OrderedNode(t, d, T);
    Unhang(s, t, d);
    if !x.internal {
      var i, _ := GetAux(x.keys, k);
      x.keys := x.keys[..i + 1] + [k] + x.keys[i + 1..];
      s', more := s, {};
      Hang(x, s.kids, PutAux(t, k, d, T), d);
    } else {
      var i, s1, one := EnterKid(x, k, T, s, t, d, all);
      s', more := PutBelow(x, i, k, T, s1, t, d, all + one);
      more := more + one;
    }
  }

  lemma SetKidIs(t: Tree, i: nat, c: Tree)
    requires i < |t.kids|
    ensures SetKid(t, i, c) == Node(t.keys, t.kids[..i] + [c] + t.kids[i + 1..])
  {
    assert t.kids[i := c] == t.kids[..i] + [c] + t.kids[i + 1..];
  }

  method PutBelow(x: KbNode, i: nat, k: int, T: nat, ghost s: Shape, ghost t: Tree, ghost d: nat,
      ghost all: set<KbNode>)
    returns (ghost s': Shape, ghost more: set<KbNode>)
    requires d > 0 && Ordered(t, d, T) && |t.keys| < 2 * T - 1
    requires Hung(s, Enter(t, k, d, T).0, d) && s.node == x && Nodes(s) <= all && i == Enter(t, k, d, T).1
    modifies Nodes(s)
    ensures s'.node == x && Hung(s', PutAux(t, k, d, T), d)
    ensures fresh(more) && Nodes(s') == Nodes(s) + more
    decreases d, 0
  {
    hide Nodes, NodesOf, Hung, Forest, Wf, Ordered, Sorted, Enter;
    OrderedNode(t, d, T);
    ghost var t1 := Enter(t, k, d, T).0;
    EnterOrdered(t, k, d, T);
    OrderedNode(t1, d, T);
    OrderedKid(t1, i, d, T);
    Unhang(s, t1, d);
    Loosen(s, t1, i, d);
    ghost var l, c, r := s.kids[..i], s.kids[i], s.kids[i + 1..];
    PutAuxEnter(t, k, d, T);
    ghost var c';
    c', more := PutNode(x.kids[i], k, T, c, t1.kids[i], d - 1, all);
    s' := Shape(x, l + [c'] + r);
    Fasten(x, l, t1.kids[..i], c', PutAux(t1.kids[i], k, d - 1, T), r, t1.kids[i + 1..], x.keys, d);
    SetKidIs(t1, i, PutAux(t1.kids[i], k, d - 1, T));
  }

  lemma GrowOrdered(t: Tree, d: nat, T: nat)
    requires Ordered(t, d, T) && |t.keys| == 2 * T - 1
    ensures Ordered(Grow(t, d, T), d + 1, T)
  {
    hide InOrder, Sorted, Shaped, Left, Right, BTreePut.Split;
    RootWf(t, d, T);
    SplitInOrder(Node([], [t]), 0, d + 1, T);
  }

  /** A new root over the full root r, which is split. */
  method RaiseRoot(r: KbNode, T: nat, ghost s: Shape, ghost t: Tree, ghost d: nat, ghost all: set<KbNode>)
    returns (x: KbNode, ghost s': Shape, ghost more: set<KbNode>)
    requires Hung(s, t, d) && s.node == r && Nodes(s) <= all
    requires T >= 2 && Wf(t, d, T) && |t.keys| == 2 * T - 1
    modifies r
    ensures s'.node == x && Hung(s', Grow(t, d, T), d + 1)
    ensures fresh(more) && Nodes(s') == Nodes(s) + more
  {
    hide Nodes, NodesOf, Hung, Under, Wf, BTreePut.Split;
    RootWf(t, d, T);
    x := new KbNode(true);
    x.kids := [r];
    NoNodes();
    Alone(d);
    assert [] + [s] + [] == [s] && [] + [t] + [] == [t];
    Fasten(x, [], [], s, t, [], [], [], d + 1);
    var z, s1 := Split(x, 0, r, T, Shape(x, [s]), Node([], [t]), d + 1, all + {x});
    s', more := s1, {x, z};
  }

  lemma Alone(d: nat)
    ensures Beside([], [], [], [], d)
  {
    NoNodes();
  }

  /** kb_putp: the root afterwards. */
  method PutRoot(r: KbNode, k: int, T: nat, ghost s: Shape, ghost t: Tree, ghost d: nat, ghost all: set<KbNode>)
    returns (x: KbNode, ghost s': Shape, ghost more: set<KbNode>)
    requires Hung(s, t, d) && s.node == r && Nodes(s) <= all && Ordered(t, d, T)
    modifies Nodes(s)
    ensures T >= 2 && Wf(t, d, T)
    ensures s'.node == x && Hung(s', Put(t, k, d, T).0, Put(t, k, d, T).1)
    ensures fresh(more) && Nodes(s') == Nodes(s) + more
  {
    hide Nodes, NodesOf, Hung, Under, Wf, Ordered, PutAux, Grow;
    OrderedNode(t, d, T);
    Unhang(s, t, d);
    if |r.keys| == 2 * T - 1 {
      GrowOrdered(t, d, T);
      ghost var s1, two;
      x, s1, two := RaiseRoot(r, T, s, t, d, all);
      s', more := PutNode(x, k, T, s1, Grow(t, d, T), d + 1, all + two);
      more := more + two;
    } else {
      x := r;
      s', more := PutNode(x, k, T, s, t, d, all);
    }
  }

  // ----- neighbours trading a kid -----

  function Init<X>(a: seq<X>): seq<X> { if a == [] then [] else a[..|a| - 1] }

  function Rest<X>(a: seq<X>): seq<X> { if a == [] then [] else a[1..] }

  /** b with the last of a in front. */
  function WithLast<X>(a: seq<X>, b: seq<X>): seq<X> { if a == [] || b == [] then b else [a[|a| - 1]] + b }

  /** b with the first of a at the end. */
  function WithFirst<X>(a: seq<X>, b: seq<X>): seq<X> { if a == [] || b == [] then b else b + [a[0]] }

  lemma MoveLast(a: seq<Shape>, ta: seq<Tree>, b: seq<Shape>, tb: seq<Tree>, d: nat)
    requires Under(a, ta, d) && Under(b, tb, d) && NodesOf(a) !! NodesOf(b) && (d > 0 ==> a != [] && b != [])
    ensures Under(Init(a), Init(ta), d) && Under(WithLast(a, b), WithLast(ta, tb), d)
    ensures NodesOf(Init(a)) !! NodesOf(WithLast(a, b))
    ensures NodesOf(Init(a)) + NodesOf(WithLast(a, b)) == NodesOf(a) + NodesOf(b)
    ensures Tops(Init(a)) == Init(Tops(a)) && Tops(WithLast(a, b)) == WithLast(Tops(a), Tops(b))
  {
    hide Nodes, NodesOf, Hung, Forest;
    UnderSize(a, ta, d);
    UnderSize(b, tb, d);
    if d > 0 {
      var n := |a| - 1;
      assert a == a[..n] + [a[n]] && ta == ta[..n] + [ta[n]];
      ForestCut(a[..n], ta[..n], [a[n]], [ta[n]], d - 1);
      ForestJoin([a[n]], [ta[n]], b, tb, d - 1);
    }
  }

  lemma MoveFirst(a: seq<Shape>, ta: seq<Tree>, b: seq<Shape>, tb: seq<Tree>, d: nat)
    requires Under(a, ta, d) && Under(b, tb, d) && NodesOf(a) !! NodesOf(b) && (d > 0 ==> a != [] && b != [])
    ensures Under(Rest(a), Rest(ta), d) && Under(WithFirst(a, b), WithFirst(ta, tb), d)
    ensures NodesOf(Rest(a)) !! NodesOf(WithFirst(a, b))
    ensures NodesOf(Rest(a)) + NodesOf(WithFirst(a, b)) == NodesOf(a) + NodesOf(b)
    ensures Tops(Rest(a)) == Rest(Tops(a)) && Tops(WithFirst(a, b)) == WithFirst(Tops(a), Tops(b))
  {
    hide Nodes, NodesOf, Hung, Forest;
    UnderSize(a, ta, d);
    UnderSize(b, tb, d);
    if d > 0 {
      assert a == [a[0]] + a[1..] && ta == [ta[0]] + ta[1..];
      ForestCut([a[0]], [ta[0]], a[1..], ta[1..], d - 1);
      ForestJoin(b, tb, [a[0]], [ta[0]], d - 1);
    }
  }

  lemma UnderJoin(a: seq<Shape>, ta: seq<Tree>, b: seq<Shape>, tb: seq<Tree>, d: nat)
    requires Under(a, ta, d) && Under(b, tb, d) && NodesOf(a) !! NodesOf(b)
    ensures Under(a + b, ta + tb, d) && NodesOf(a + b) == NodesOf(a) + NodesOf(b)
    ensures Tops(a + b) == Tops(a) + Tops(b)
  {
    hide Nodes, NodesOf, Hung, Forest;
    NodesJoin(a, b);
    if d > 0 {
      ForestJoin(a, ta, b, tb, d - 1);
    }
  }

  lemma SetPairIs(t: Tree, i: nat, a: Tree, k: int, b: Tree)
    requires i < |t.keys| && |t.kids| == |t.keys| + 1
    ensures SetPair(t, i, a, k, b) == Node(t.keys[i := k], t.kids[..i] + [a, b] + t.kids[i + 2..])
  {
    assert t.kids[i := a][i + 1 := b] == t.kids[..i] + [a, b] + t.kids[i + 2..];
  }

  /** New shapes over the same two nodes. */
  lemma TopsPair(ss: seq<Shape>, i: nat, a: Shape, b: Shape)
    requires i + 1 < |ss| && a.node == ss[i].node && b.node == ss[i + 1].node
    ensures Tops(ss) == Tops(ss[..i] + [a, b] + ss[i + 2..])
  {
  }

  lemma TopsFuse(ss: seq<Shape>, i: nat, c: Shape)
    requires i + 1 < |ss| && c.node == ss[i].node
    ensures Tops(ss)[..i + 1] + Tops(ss)[i + 2..] == Tops(ss[..i] + [c] + ss[i + 2..])
  {
  }

  /** Node y gives its last kid to xp, which puts key s in front; key is what goes up. */
  method HandOver(y: KbNode, xp: KbNode, s: int) returns (key: int)
    requires y != xp && y.internal == xp.internal && |y.keys| > 0
    requires if y.internal then y.kids != [] && xp.kids != [] else y.kids == [] && xp.kids == []
    modifies y, xp
    ensures y.internal == old(y.internal) && xp.internal == old(xp.internal)
    ensures y.keys + [key] == old(y.keys) && xp.keys == [s] + old(xp.keys)
    ensures y.kids == Init(old(y.kids)) && xp.kids == WithLast(old(y.kids), old(xp.kids))
  {
    key := y.keys[|y.keys| - 1];
    xp.keys := [s] + xp.keys;
    if xp.internal {
      xp.kids := [y.kids[|y.kids| - 1]] + xp.kids;
      y.kids := y.kids[..|y.kids| - 1];
    }
    y.keys := y.keys[..|y.keys| - 1];
  }

  /** Node y gives its first kid to xp, which puts key s at its end; key is what goes up. */
  method HandBack(xp: KbNode, y: KbNode, s: int) returns (key: int)
    requires y != xp && y.internal == xp.internal && |y.keys| > 0
    requires if y.internal then y.kids != [] && xp.kids != [] else y.kids == [] && xp.kids == []
    modifies y, xp
    ensures y.internal == old(y.internal) && xp.internal == old(xp.internal)
    ensures [key] + y.keys == old(y.keys) && xp.keys == old(xp.keys) + [s]
    ensures y.kids == Rest(old(y.kids)) && xp.kids == WithFirst(old(y.kids), old(xp.kids))
  {
    key := y.keys[0];
    xp.keys := xp.keys + [s];
    if xp.internal {
      xp.kids := xp.kids + [y.kids[0]];
    }
    y.keys := y.keys[1..];
    if y.internal {
      y.kids := y.kids[1..];
    }
  }

  /** Node y takes key k and all of z. */
  method Absorb(y: KbNode, z: KbNode, k: int)
    requires y != z && y.internal == z.internal && (!y.internal ==> y.kids == [] && z.kids == [])
    modifies y
    ensures y.internal == old(y.internal) && y.keys == old(y.keys) + [k] + z.keys && y.kids == old(y.kids) + z.kids
  {
    y.keys := y.keys + [k] + z.keys;
    if y.internal {
      y.kids := y.kids + z.kids;
    }
  }

  /** The last key of y and its last kid go over key i of x to the right neighbour xp. */
  method ShiftRight(x: KbNode, i: nat, y: KbNode, xp: KbNode, ghost s: Shape, ghost t: Tree, ghost d: nat,
      ghost all: set<KbNode>)
    returns (ghost s': Shape)
    requires d > 0 && Hung(s, t, d) && s.node == x && Nodes(s) <= all && i < |t.keys|
      && |t.kids| == |t.keys| + 1 == |s.kids|
    requires y == s.kids[i].node && xp == s.kids[i + 1].node && |t.kids[i].keys| > 0
    requires d > 1 ==> t.kids[i].kids != [] && t.kids[i + 1].kids != []
    modifies x, y, xp
    ensures s'.node == x && Hung(s', BorrowLeft(t, i), d) && Nodes(s') == Nodes(s)
  {
    hide Nodes, NodesOf, Hung, Forest, Under, Tops;
    ghost var l, a, b, r := s.kids[..i], s.kids[i], s.kids[i + 1], s.kids[i + 2..];
    ghost var tl, ta, tb, tr := t.kids[..i], t.kids[i], t.kids[i + 1], t.kids[i + 2..];
    LoosenPair(s, t, i, d);
    Unhang(a, ta, d - 1);
    Unhang(b, tb, d - 1);
    MoveLast(a.kids, ta.kids, b.kids, tb.kids, d - 1);
    var key := HandOver(y, xp, x.keys[i]);
    x.keys := x.keys[i := key];
    ghost var a', b' := Shape(y, Init(a.kids)), Shape(xp, WithLast(a.kids, b.kids));
    Hang(y, a'.kids, DropLast(ta), d - 1);
    Hang(xp, b'.kids, TakeLast(t.keys[i], tb, ta), d - 1);
    s' := Shape(x, l + [a', b'] + r);
    TopsPair(s.kids, i, a', b');
    FastenPair(x, l, tl, a', DropLast(ta), b', TakeLast(t.keys[i], tb, ta), r, tr, x.keys, d);
    SetPairIs(t, i, DropLast(ta), ta.keys[|ta.keys| - 1], TakeLast(t.keys[i], tb, ta));
  }

  /** The first key of y and its first kid go over key i of x to the left neighbour xp. */
  method ShiftLeft(x: KbNode, i: nat, xp: KbNode, y: KbNode, ghost s: Shape, ghost t: Tree, ghost d: nat,
      ghost all: set<KbNode>)
    returns (ghost s': Shape)
    requires d > 0 && Hung(s, t, d) && s.node == x && Nodes(s) <= all && i < |t.keys|
      && |t.kids| == |t.keys| + 1 == |s.kids|
    requires xp == s.kids[i].node && y == s.kids[i + 1].node && |t.kids[i + 1].keys| > 0
    requires d > 1 ==> t.kids[i].kids != [] && t.kids[i + 1].kids != []
    modifies x, y, xp
    ensures s'.node == x && Hung(s', BorrowRight(t, i), d) && Nodes(s') == Nodes(s)
  {
    hide Nodes, NodesOf, Hung, Forest, Under, Tops;
    ghost var l, a, b, r := s.kids[..i], s.kids[i], s.kids[i + 1], s.kids[i + 2..];
    ghost var tl, ta, tb, tr := t.kids[..i], t.kids[i], t.kids[i + 1], t.kids[i + 2..];
    LoosenPair(s, t, i, d);
    Unhang(a, ta, d - 1);
    Unhang(b, tb, d - 1);
    MoveFirst(b.kids, tb.kids, a.kids, ta.kids, d - 1);
    var key := HandBack(xp, y, x.keys[i]);
    x.keys := x.keys[i := key];
    ghost var a', b' := Shape(xp, WithFirst(b.kids, a.kids)), Shape(y, Rest(b.kids));
    Hang(xp, a'.kids, TakeFirst(t.keys[i], ta, tb), d - 1);
    Hang(y, b'.kids, DropFirst(tb), d - 1);
    s' := Shape(x, l + [a', b'] + r);
    TopsPair(s.kids, i, a', b');
    FastenPair(x, l, tl, a', TakeFirst(t.keys[i], ta, tb), b', DropFirst(tb), r, tr, x.keys, d);
    SetPairIs(t, i, TakeFirst(t.keys[i], ta, tb), tb.keys[0], DropFirst(tb));
  }

  /** Node z goes, with key k above it, into its left neighbour y; it is freed. */
  method MergeKids(x: KbNode, i: nat, y: KbNode, z: KbNode, k: int, ghost s: Shape, ghost t: Tree, ghost d: nat,
      ghost all: set<KbNode>)
    returns (ghost s': Shape)
    requires d > 0 && Hung(s, t, d) && s.node == x && Nodes(s) <= all && i < |t.keys|
      && |t.kids| == |t.keys| + 1 == |s.kids|
    requires y == s.kids[i].node && z == s.kids[i + 1].node && k == t.keys[i]
    modifies x, y
    ensures s'.node == x && Hung(s', Merge(t, i), d) && Nodes(s') == Nodes(s) - {z}
    ensures |x.kids| == |t.keys| && x.kids[i] == y
  {
    hide Nodes, NodesOf, Hung, Forest, Under, Tops;
    ghost var l, a, b, r := s.kids[..i], s.kids[i], s.kids[i + 1], s.kids[i + 2..];
    ghost var tl, ta, tb, tr := t.kids[..i], t.kids[i], t.kids[i + 1], t.kids[i + 2..];
    LoosenPair(s, t, i, d);
    Unhang(a, ta, d - 1);
    Unhang(b, tb, d - 1);
    UnderJoin(a.kids, ta.kids, b.kids, tb.kids, d - 1);
    Absorb(y, z, k);
    x.keys := x.keys[..i] + x.keys[i + 1..];
    x.kids := x.kids[..i + 1] + x.kids[i + 2..];
    ghost var c := Shape(y, a.kids + b.kids);
    Hang(y, c.kids, Join(ta, k, tb), d - 1);
    s' := Shape(x, l + [c] + r);
    TopsFuse(s.kids, i, c);
    Fasten(x, l, tl, c, Join(ta, k, tb), r, tr, x.keys, d);
  }

  // ----- deleting -----

  /** What node x's kid j holds. */
  lemma KidRead(s: Shape, t: Tree, j: nat, d: nat)
    requires d > 0 && Hung(s, t, d) && j < |t.kids|
    ensures |s.kids| == |t.kids| == |s.node.kids| && s.node.kids[j] == s.kids[j].node
    ensures s.kids[j].node in Nodes(s) && s.node in Nodes(s)
    ensures s.kids[j].node.keys == t.kids[j].keys
    ensures d > 1 ==> s.kids[j].node.internal
  {
    Unhang(s, t, d);
    hide Nodes, NodesOf, Hung, Forest, Under;
    Loosen(s, t, j, d);
    Unhang(s.kids[j], t.kids[j], d - 1);
  }

  lemma WfInner(t: Tree, j: nat, d: nat, T: nat)
    requires T >= 2 && d > 0 && Wf(t, d, T) && j < |t.kids|
    ensures d > 1 ==> t.kids[j].kids != []
  {
    WfKid(t, j, d, T);
  }

  /** Before kid i is entered it is given at least T keys; where it is afterwards. */
  method GiveRoom(x: KbNode, i: nat, T: nat, ghost s: Shape, ghost t: Tree, ghost d: nat, ghost all: set<KbNode>)
    returns (at: nat, ghost s': Shape)
    requires T >= 2 && d > 0 && Wf(t, d, T) && Roomy(t) && i <= |t.keys|
    requires Hung(s, t, d) && s.node == x && Nodes(s) <= all
    modifies Nodes(s)
    ensures at == MakeRoom(t, i, T).1
    ensures s'.node == x && Hung(s', MakeRoom(t, i, T).0, d) && Nodes(s') <= Nodes(s)
  {
    hide Nodes, NodesOf, Hung, Forest, Under, BorrowLeft, BorrowRight, Merge;
    WfKids(t, d, T);
    at, s' := i, s;
    Unhang(s, t, d);
    KidRead(s, t, i, d);
    WfInner(t, i, d, T);
    var n := |x.keys|;
    if i > 0 {
      KidRead(s, t, i - 1, d);
      WfInner(t, i - 1, d, T);
    }
    if i < n {
      KidRead(s, t, i + 1, d);
      WfInner(t, i + 1, d, T);
    }
    if |x.kids[i].keys| == T - 1 {
      if i > 0 && |x.kids[i - 1].keys| >= T {
        s' := ShiftRight(x, i - 1, x.kids[i - 1], x.kids[i], s, t, d, all);
      } else if i < n && |x.kids[i + 1].keys| >= T {
        s' := ShiftLeft(x, i, x.kids[i], x.kids[i + 1], s, t, d, all);
      } else if i > 0 && |x.kids[i - 1].keys| == T - 1 {
        s' := MergeKids(x, i - 1, x.kids[i - 1], x.kids[i], x.keys[i - 1], s, t, d, all);
        at := i - 1;
      } else if i < n && |x.kids[i + 1].keys| == T - 1 {
        s' := MergeKids(x, i, x.kids[i], x.kids[i + 1], x.keys[i], s, t, d, all);
      }
    }
  }

  /** What the deletion finds below, once the kid to enter has room. */
  lemma RoomFacts(t: Tree, k: int, w: Which, d: nat, T: nat)
    requires Ordered(t, d, T) && d > 0 && |t.keys| >= 1 && !Here(t, k, w) && (w == Exact ==> k in InOrder(t, d))
    ensures Wf(t, d, T) && Roomy(t)
    ensures var (t1, i) := MakeRoom(t, BTreeDel.Below(t, k, w), T);
      && Ordered(t1, d, T) && |t1.kids| == |t1.keys| + 1 && i <= |t1.keys|
      && Ordered(t1.kids[i], d - 1, T) && |t1.kids[i].keys| >= 1
      && (w == Exact ==> k in InOrder(t1.kids[i], d - 1))
      && var (p, c) := DelAux(t1.kids[i], k, w, d - 1, T);
         DelAux(t, k, w, d, T) == (p, SetKid(t1, i, c))
  {
    var j := BTreeDel.Below(t, k, w);
    OrderedNode(t, d, T);
    WfRoomy(t, d, T);
    if w == Exact {
      BelowHolds(t, k, d);
    }
    MakeRoomWf(t, j, d, T);
    MakeRoomSize(t, j, d, T);
    MakeRoomInOrder(t, j, d, T);
    var (t1, i) := MakeRoom(t, j, T);
    KeptFacts(t, j, t1, i, d);
    OrderedKid(t1, i, d, T);
    DelAuxBelow(t, k, w, d, T);
    hide Wf, Shaped, InOrder, Sorted, MakeRoom, BTreeDel.Below, Here, DelAux, Left, Right, Roomy;
  }

  /** What the deletion finds when key i of t is the one. */
  lemma HereFacts(t: Tree, k: int, d: nat, T: nat) returns (i: nat)
    requires Ordered(t, d, T) && d > 0 && Here(t, k, Exact) && k in InOrder(t, d)
    ensures T >= 2 && Wf(t, d, T) && i == Aux(t.keys, k).0 && i < |t.keys| && t.keys[i] == k && |t.kids| == |t.keys| + 1
    ensures Ordered(t.kids[i], d - 1, T) && Ordered(t.kids[i + 1], d - 1, T)
    ensures T - 1 <= |t.kids[i].keys| && T - 1 <= |t.kids[i + 1].keys|
    ensures |t.kids[i].keys| >= T ==>
      var (p, c) := DelAux(t.kids[i], 0, Greatest, d - 1, T);
      DelAux(t, k, Exact, d, T) == (k, SetPair(t, i, c, p, t.kids[i + 1]))
    ensures |t.kids[i].keys| < T <= |t.kids[i + 1].keys| ==>
      var (p, c) := DelAux(t.kids[i + 1], 0, Least, d - 1, T);
      DelAux(t, k, Exact, d, T) == (k, SetPair(t, i, t.kids[i], p, c))
    ensures |t.kids[i].keys| == T - 1 == |t.kids[i + 1].keys| ==>
      && Ordered(Merge(t, i), d, T) && |Merge(t, i).kids| == |t.keys| == |Merge(t, i).keys| + 1
      && Ordered(Merge(t, i).kids[i], d - 1, T) && |Merge(t, i).kids[i].keys| >= 1
      && k in InOrder(Merge(t, i).kids[i], d - 1)
      && var (p, c) := DelAux(Merge(t, i).kids[i], k, Exact, d - 1, T);
         DelAux(t, k, Exact, d, T) == (p, SetKid(Merge(t, i), i, c))
  {
    hide Wf, Shaped, InOrder, Sorted, Here, Merge, Left, Right, DelHere, Kept;
    OrderedNode(t, d, T);
    i := HereIndex(t, k, d);
    OrderedKid(t, i, d, T);
    OrderedKid(t, i + 1, d, T);
    DelHereIs(t, k, i, d, T);
    DelAuxHere(t, k, d, T);
    if |t.kids[i].keys| == T - 1 == |t.kids[i + 1].keys| {
      MergeWf(t, i, d, T);
      MergeRoom(t, i, d, T);
      MergeInOrder(t, i, d);
      KeptFacts(t, i, Merge(t, i), i, d);
      OrderedKid(Merge(t, i), i, d, T);
    }
  }

  lemma DelAuxHere(t: Tree, k: int, d: nat, T: nat)
    requires T >= 2 && d > 0 && Wf(t, d, T) && |t.keys| >= 1 && Here(t, k, Exact)
    ensures DelAux(t, k, Exact, d, T) == DelHere(t, k, d, T)
  {
    hide Wf, Here, DelHere;
  }

  lemma LeafFacts(t: Tree, k: int, w: Which, T: nat)
    requires Ordered(t, 0, T) && |t.keys| >= 1 && (w == Exact ==> k in InOrder(t, 0))
    ensures T >= 2 && Wf(t, 0, T) && 0 <= LeafIndex(t.keys, k, w) < |t.keys|
    ensures var i := LeafIndex(t.keys, k, w);
      DelAux(t, k, w, 0, T) == (t.keys[i], Node(t.keys[..i] + t.keys[i + 1..], t.kids))
  {
    OrderedNode(t, 0, T);
    AuxPlace(t.keys, k);
  }

  /** Where the key to delete is, or the kid before the one to enter, and whether it is here. */
  method Seek(x: KbNode, k: int, w: Which, ghost t: Tree, ghost d: nat) returns (i: int, here: bool)
    requires x.keys == t.keys && x.internal == (d > 0) && Sorted(t.keys) && |t.keys| >= 1
    ensures d > 0 ==> here == Here(t, k, w)
    ensures d > 0 && !here ==> i + 1 == BTreeDel.Below(t, k, w)
    ensures d > 0 && here ==> w == Exact && i >= 0 && i == Aux(t.keys, k).0
    ensures d == 0 ==> i + (if w == Least then 1 else 0) == LeafIndex(t.keys, k, w)
  {
    if w != Exact {
      return if w == Greatest then |x.keys| - 1 else -1, false;
    }
    var r;
    i, r := GetAux(x.keys, k);
    here := r == 0;
  }

  /** __kb_delp_aux */
  method DelNode(x: KbNode, k: int, w: Which, T: nat, ghost s: Shape, ghost t: Tree, ghost d: nat,
      ghost all: set<KbNode>)
    returns (p: int, ghost s': Shape)
    requires Hung(s, t, d) && s.node == x && Nodes(s) <= all
    requires Ordered(t, d, T) && |t.keys| >= 1 && (w == Exact ==> k in InOrder(t, d))
    modifies Nodes(s)
    ensures p == DelAux(t, k, w, d, T).0
    ensures s'.node == x && Hung(s', DelAux(t, k, w, d, T).1, d) && Nodes(s') <= Nodes(s)
    decreases d, 1
  {
    hide Nodes, NodesOf, Hung, Forest, Under, Wf, Ordered, Sorted, InOrder, Aux, Here, BTreeDel.Below, DelAux,
      LeafIndex;
    OrderedNode(t, d, T);
    Unhang(s, t, d);
    var i, here := Seek(x, k, w, t, d);
    if !x.internal {
      LeafFacts(t, k, w, T);
      if w == Least {
        i := i + 1;
      }
      p := x.keys[i];
      x.keys := x.keys[..i] + x.keys[i + 1..];
      s' := s;
      Hang(x, s.kids, DelAux(t, k, w, 0, T).1, 0);
    } else if here {
      p, s' := DelAtKey(x, i, k, T, s, t, d, all);
    } else {
      p, s' := DelBelow(x, i + 1, k, w, T, s, t, d, all);
    }
  }

  method DelBelow(x: KbNode, j: nat, k: int, w: Which, T: nat, ghost s: Shape, ghost t: Tree, ghost d: nat,
      ghost all: set<KbNode>)
    returns (p: int, ghost s': Shape)
    requires d > 0 && Hung(s, t, d) && s.node == x && Nodes(s) <= all
    requires Ordered(t, d, T) && |t.keys| >= 1 && (w == Exact ==> k in InOrder(t, d))
    requires !Here(t, k, w) && j == BTreeDel.Below(t, k, w)
    modifies Nodes(s)
    ensures p == DelAux(t, k, w, d, T).0
    ensures s'.node == x && Hung(s', DelAux(t, k, w, d, T).1, d) && Nodes(s') <= Nodes(s)
    decreases d, 0
  {
    hide Nodes, NodesOf, Hung, Forest, Under, Wf, Ordered, Sorted, InOrder, Here, BTreeDel.Below, DelAux,
      MakeRoom, Roomy;
    OrderedNode(t, d, T);
    RoomFacts(t, k, w, d, T);
    ghost var t1 := MakeRoom(t, j, T).0;
    var i, s1 := GiveRoom(x, j, T, s, t, d, all);
    OrderedNode(t1.kids[i], d - 1, T);
    Unhang(s1, t1, d);
    Loosen(s1, t1, i, d);
    ghost var l, c, r := s1.kids[..i], s1.kids[i], s1.kids[i + 1..];
    ghost var c';
    p, c' := DelNode(x.kids[i], k, w, T, c, t1.kids[i], d - 1, all);
    s' := Shape(x, l + [c'] + r);
    Fasten(x, l, t1.kids[..i], c', DelAux(t1.kids[i], k, w, d - 1, T).1, r, t1.kids[i + 1..], x.keys, d);
    SetKidIs(t1, i, DelAux(t1.kids[i], k, w, d - 1, T).1);
  }

  method DelAtKey(x: KbNode, i: nat, k: int, T: nat, ghost s: Shape, ghost t: Tree, ghost d: nat,
      ghost all: set<KbNode>)
    returns (p: int, ghost s': Shape)
    requires d > 0 && Hung(s, t, d) && s.node == x && Nodes(s) <= all
    requires Ordered(t, d, T) && k in InOrder(t, d) && Here(t, k, Exact) && i == Aux(t.keys, k).0
    modifies Nodes(s)
    ensures |t.keys| >= 1 && Wf(t, d, T) && p == DelAux(t, k, Exact, d, T).0
    ensures s'.node == x && Hung(s', DelAux(t, k, Exact, d, T).1, d) && Nodes(s') <= Nodes(s)
    decreases d, 0
  {
    hide Nodes, NodesOf, Hung, Forest, Under, Wf, Ordered, Sorted, InOrder, Here, DelAux, Merge, Aux;
    ghost var at := HereFacts(t, k, d, T);
    KidRead(s, t, i, d);
    KidRead(s, t, i + 1, d);
    Unhang(s, t, d);
    if |x.kids[i].keys| >= T {
      p := x.keys[i];
      s' := Replace(x, i, i, Greatest, T, s, t, d, all);
      SetOne(t, i, DelAux(t.kids[i], 0, Greatest, d - 1, T).0, DelAux(t.kids[i], 0, Greatest, d - 1, T).1);
    } else if |x.kids[i + 1].keys| >= T {
      p := x.keys[i];
      s' := Replace(x, i, i + 1, Least, T, s, t, d, all);
      SetOne(t, i, DelAux(t.kids[i + 1], 0, Least, d - 1, T).0, DelAux(t.kids[i + 1], 0, Least, d - 1, T).1);
    } else {
      ghost var t1 := Merge(t, i);
      ghost var s1 := MergeKids(x, i, x.kids[i], x.kids[i + 1], k, s, t, d, all);
      OrderedNode(t1.kids[i], d - 1, T);
      Unhang(s1, t1, d);
      Loosen(s1, t1, i, d);
      ghost var l, c, r := s1.kids[..i], s1.kids[i], s1.kids[i + 1..];
      ghost var c';
      p, c' := DelNode(x.kids[i], k, Exact, T, c, t1.kids[i], d - 1, all);
      s' := Shape(x, l + [c'] + r);
      Fasten(x, l, t1.kids[..i], c', DelAux(t1.kids[i], k, Exact, d - 1, T).1, r, t1.kids[i + 1..], x.keys, d);
      SetKidIs(t1, i, DelAux(t1.kids[i], k, Exact, d - 1, T).1);
    }
  }

  lemma SetOne(t: Tree, i: nat, k: int, c: Tree)
    requires i < |t.keys| && |t.kids| == |t.keys| + 1
    ensures SetPair(t, i, c, k, t.kids[i + 1]) == Node(t.keys[i := k], t.kids[i := c])
    ensures SetPair(t, i, t.kids[i], k, c) == Node(t.keys[i := k], t.kids[i + 1 := c])
  {
    assert t.kids[i := c][i + 1 := t.kids[i + 1]] == t.kids[i := c];
    assert t.kids[i := t.kids[i]] == t.kids;
  }

  /** The greatest or least key below kid j is taken out and put at key i. */
  method Replace(x: KbNode, i: nat, j: nat, w: Which, T: nat, ghost s: Shape, ghost t: Tree, ghost d: nat,
      ghost all: set<KbNode>)
    returns (ghost s': Shape)
    requires d > 0 && Hung(s, t, d) && s.node == x && Nodes(s) <= all
    requires i < |t.keys| && j < |t.kids| && Ordered(t.kids[j], d - 1, T) && |t.kids[j].keys| >= 1 && w != Exact
    modifies Nodes(s)
    ensures T >= 2 && Wf(t.kids[j], d - 1, T)
    ensures var (q, c) := DelAux(t.kids[j], 0, w, d - 1, T);
      s'.node == x && Hung(s', Node(t.keys[i := q], t.kids[j := c]), d) && Nodes(s') <= Nodes(s)
    decreases d - 1, 2
  {
    hide Nodes, NodesOf, Hung, Forest, Under, Wf, Ordered, Sorted, InOrder, DelAux;
    OrderedNode(t.kids[j], d - 1, T);
    Unhang(s, t, d);
    Loosen(s, t, j, d);
    ghost var l, c, r := s.kids[..j], s.kids[j], s.kids[j + 1..];
    var q, c' := DelNode(x.kids[j], 0, w, T, c, t.kids[j], d - 1, all);
    x.keys := x.keys[i := q];
    s' := Shape(x, l + [c'] + r);
    ghost var tc := DelAux(t.kids[j], 0, w, d - 1, T).1;
    Fasten(x, l, t.kids[..j], c', tc, r, t.kids[j + 1..], x.keys, d);
    SetKidIs(t, j, tc);
  }

  /** kb_delp: the key deleted and the root afterwards. */
  method DelRoot(r: KbNode, k: int, T: nat, ghost s: Shape, ghost t: Tree, ghost d: nat, ghost all: set<KbNode>)
    returns (p: int, x: KbNode, ghost s': Shape)
    requires Hung(s, t, d) && s.node == r && Nodes(s) <= all
    requires Ordered(t, d, T) && |t.keys| >= 1 && k in InOrder(t, d)
    modifies Nodes(s)
    ensures T >= 2 && Wf(t, d, T)
    ensures var (p', t', d') := Del(t, k, d, T); p == p' && s'.node == x && Hung(s', t', d')
    ensures Nodes(s') <= Nodes(s)
  {
    hide Nodes, NodesOf, Hung, Under, Wf, Ordered, InOrder, DelAux;
    OrderedNode(t, d, T);
    ghost var t1 := DelAux(t, k, Exact, d, T).1;
    p, s' := DelNode(r, k, Exact, T, s, t, d, all);
    x := r;
    Unhang(s', t1, d);
    if |r.keys| == 0 && r.internal {
      WfKids(t1, d, T);
      Loosen(s', t1, 0, d);
      x := r.kids[0];
      s' := s'.kids[0];
    }
  }

  // ----- looking a key up -----

  /** kb_getp */
  method Seen(r: KbNode, k: int, T: nat, ghost s: Shape, ghost t: Tree, ghost d: nat, ghost all: set<KbNode>)
      returns (found: bool)
    requires Hung(s, t, d) && s.node == r && Nodes(s) <= all && Ordered(t, d, T)
    ensures found <==> k in InOrder(t, d)
  {
    hide Nodes, NodesOf, Hung, Under, Wf, Ordered, InOrder, Contains, Sorted;
    ghost var s1, t1, d1 := s, t, d;
    var x := r;
    Lookups(t, k, d, T);
    while true
      invariant Hung(s1, t1, d1) && s1.node == x && Nodes(s1) <= all && Ordered(t1, d1, T)
      invariant Looks(t1, k, d1, k in InOrder(t, d))
      decreases d1
    {
      OrderedNode(t1, d1, T);
      Unhang(s1, t1, d1);
      LookDown(t1, k, d1, T, k in InOrder(t, d));
      var i, cmp := GetAux(x.keys, k);
      if i >= 0 && cmp == 0 {
        return true;
      }
      if !x.internal {
        return false;
      }
      Loosen(s1, t1, i + 1, d1);
      OrderedKid(t1, i + 1, d1, T);
      x := x.kids[i + 1];
      s1, t1, d1 := s1.kids[i + 1], t1.kids[i + 1], d1 - 1;
    }
  }

  /** The descent in t ends with this answer. */
  ghost predicate Looks(t: Tree, k: int, d: nat, answer: bool)
  {
    Shaped(t, d) && Contains(t, k, d) == answer
  }

  lemma Lookups(t: Tree, k: int, d: nat, T: nat)
    requires Ordered(t, d, T)
    ensures Shaped(t, d) && Looks(t, k, d, k in InOrder(t, d))
  {
    ContainsIff(t, k, d);
    hide InOrder, Contains, Shaped, Sorted;
  }

  lemma LookDown(t: Tree, k: int, d: nat, T: nat, answer: bool)
    requires Looks(t, k, d, answer) && Ordered(t, d, T)
    ensures var (i, r) := Aux(t.keys, k);
      if i >= 0 && r == 0 then answer
      else if d == 0 then !answer
      else |t.kids| == |t.keys| + 1 && Looks(t.kids[i + 1], k, d - 1, answer)
  {
    hide InOrder, Aux, Sorted;
  }
}
