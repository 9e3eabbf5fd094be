/** Deleting from the B-tree of src/kbtree.h, on tree values. */
module BTreeDel {
  import opened SortedSeq
  import opened BTreeValue
  import opened BTreePut

  // ----- moving one key between neighbours -----

  /** All but the last key and kid. */
  function DropLast(y: Tree): Tree
    requires |y.keys| > 0
  {
    Node(y.keys[..|y.keys| - 1], if y.kids == [] then [] else y.kids[..|y.kids| - 1])
  }

  /** All but the first key and kid. */
  function DropFirst(y: Tree): Tree
    requires |y.keys| > 0
  {
    Node(y.keys[1..], if y.kids == [] then [] else y.kids[1..])
  }

  /** x with key s, and y's last kid, in front. */
  function TakeLast(s: int, x: Tree, y: Tree): Tree
  {
    Node([s] + x.keys, if x.kids == [] || y.kids == [] then x.kids else [y.kids[|y.kids| - 1]] + x.kids)
  }

  /** x with key s, and y's first kid, at the end. */
  function TakeFirst(s: int, x: Tree, y: Tree): Tree
  {
    Node(x.keys + [s], if x.kids == [] || y.kids == [] then x.kids else x.kids + [y.kids[0]])
  }

  ghost predicate Within(a: seq<int>, b: seq<int>)
  {
    forall k :: k in a ==> k in b
  }

  /** The in-order reading of kid i. */
  ghost function KidOrder(t: Tree, d: nat, i: nat): seq<int>
    requires d > 0 && Shaped(t, d) && i <= |t.keys|
  {
    InOrder(t.kids[i], d - 1)
  }

  /** A key going from y over the separator s to its right neighbour x only moves the
      joint: both pairs read the same. */
  lemma RotateRight(y: Tree, s: int, x: Tree, d: nat)
    requires Shaped(y, d) && Shaped(x, d) && |y.keys| > 0
    ensures Shaped(DropLast(y), d) && Shaped(TakeLast(s, x, y), d)
    ensures Join(DropLast(y), y.keys[|y.keys| - 1], TakeLast(s, x, y)) == Join(y, s, x)
    ensures Within(InOrder(x, d), InOrder(TakeLast(s, x, y), d))
  {
    var k := y.keys[|y.keys| - 1];
    assert y.keys == DropLast(y).keys + [k];
    assert DropLast(y).keys + [k] + ([s] + x.keys) == y.keys + [s] + x.keys;
    if d > 0 {
      var w := Node([], [y.kids[|y.kids| - 1]]);
      assert y.kids == DropLast(y).kids + w.kids;
      assert DropLast(y).kids + (w.kids + x.kids) == y.kids + x.kids;
      assert TakeLast(s, x, y) == Join(w, s, x);
      JoinInOrder(w, s, x, d);
    }
  }

  lemma RotateLeft(x: Tree, s: int, y: Tree, d: nat)
    requires Shaped(y, d) && Shaped(x, d) && |y.keys| > 0
    ensures Shaped(DropFirst(y), d) && Shaped(TakeFirst(s, x, y), d)
    ensures Join(TakeFirst(s, x, y), y.keys[0], DropFirst(y)) == Join(x, s, y)
    ensures Within(InOrder(x, d), InOrder(TakeFirst(s, x, y), d))
  {
    var k := y.keys[0];
    assert y.keys == [k] + DropFirst(y).keys;
    assert (x.keys + [s]) + [k] + DropFirst(y).keys == x.keys + [s] + y.keys;
    if d > 0 {
      var w := Node([], [y.kids[0]]);
      assert y.kids == w.kids + DropFirst(y).kids;
      assert (x.kids + w.kids) + DropFirst(y).kids == x.kids + y.kids;
      assert TakeFirst(s, x, y) == Join(x, s, w);
      JoinInOrder(x, s, w, d);
    }
  }

  lemma RotateRightWf(y: Tree, s: int, x: Tree, d: nat, T: nat)
    requires T >= 2 && Wf(y, d, T) && Wf(x, d, T) && |y.keys| >= T && |x.keys| == T - 1
    ensures Wf(DropLast(y), d, T) && Wf(TakeLast(s, x, y), d, T)
  {
    if d > 0 {
      WfKids(y, d, T);
      WfKids(x, d, T);
      hide GoodKid, Wf;
      WfFromKids(DropLast(y), d, T);
      WfFromKids(TakeLast(s, x, y), d, T);
    }
  }

  lemma RotateLeftWf(x: Tree, s: int, y: Tree, d: nat, T: nat)
    requires T >= 2 && Wf(y, d, T) && Wf(x, d, T) && |y.keys| >= T && |x.keys| == T - 1
    ensures Wf(DropFirst(y), d, T) && Wf(TakeFirst(s, x, y), d, T)
  {
    if d > 0 {
      WfKids(y, d, T);
      WfKids(x, d, T);
      hide GoodKid, Wf;
      WfFromKids(DropFirst(y), d, T);
      WfFromKids(TakeFirst(s, x, y), d, T);
    }
  }

  lemma JoinWf(a: Tree, k: int, b: Tree, d: nat, T: nat)
    requires T >= 2 && Wf(a, d, T) && Wf(b, d, T) && |a.keys| == T - 1 == |b.keys|
    ensures Wf(Join(a, k, b), d, T)
  {
    if d > 0 {
      WfKids(a, d, T);
      WfKids(b, d, T);
      hide GoodKid, Wf;
      WfFromKids(Join(a, k, b), d, T);
    }
  }

  // ----- a kid about to be entered gets a key to spare -----

  /** Kid i+1 takes a key from its left neighbour, kid i. */
  function BorrowLeft(t: Tree, i: nat): Tree
    requires i < |t.keys| && |t.kids| == |t.keys| + 1 && |t.kids[i].keys| > 0
  {
    var y, x := t.kids[i], t.kids[i + 1];
    SetPair(t, i, DropLast(y), y.keys[|y.keys| - 1], TakeLast(t.keys[i], x, y))
  }

  /** Kid i takes a key from its right neighbour. */
  function BorrowRight(t: Tree, i: nat): Tree
    requires i < |t.keys| && |t.kids| == |t.keys| + 1 && |t.kids[i + 1].keys| > 0
  {
    var x, y := t.kids[i], t.kids[i + 1];
    SetPair(t, i, TakeFirst(t.keys[i], x, y), y.keys[0], DropFirst(y))
  }

  /** Kids i and i+1 and the key between them become one kid. */
  function Merge(t: Tree, i: nat): Tree
    requires i < |t.keys| && |t.kids| == |t.keys| + 1
  {
    Fuse(t, i, Join(t.kids[i], t.keys[i], t.kids[i + 1]))
  }

  /** t1 reads like t, and kid i1 of t1 holds all that kid i of t does. */
  ghost predicate Kept(t: Tree, i: nat, t1: Tree, i1: nat, d: nat)
  {
    && d > 0 && Shaped(t, d) && Shaped(t1, d) && i <= |t.keys| && i1 <= |t1.keys|
    && InOrder(t1, d) == InOrder(t, d)
    && Within(KidOrder(t, d, i), KidOrder(t1, d, i1))
  }

  lemma KeptFacts(t: Tree, i: nat, t1: Tree, i1: nat, d: nat)
    requires Kept(t, i, t1, i1, d)
    ensures d > 0 && Shaped(t, d) && Shaped(t1, d) && i <= |t.keys| && i1 <= |t1.keys|
    ensures InOrder(t1, d) == InOrder(t, d)
    ensures forall k :: k in KidOrder(t, d, i) ==> k in KidOrder(t1, d, i1)
  {
    hide InOrder, Shaped, KidOrder;
  }

  lemma MkKept(t: Tree, i: nat, t1: Tree, i1: nat, d: nat)
    requires d > 0 && Shaped(t, d) && Shaped(t1, d) && i <= |t.keys| && i1 <= |t1.keys|
    requires Shaped(t.kids[i], d - 1) && Shaped(t1.kids[i1], d - 1)
    requires InOrder(t1, d) == InOrder(t, d)
    requires Within(InOrder(t.kids[i], d - 1), InOrder(t1.kids[i1], d - 1))
    ensures Kept(t, i, t1, i1, d)
  {
    hide InOrder, Within, Shaped;
  }

  lemma BorrowLeftInOrder(t: Tree, i: nat, d: nat)
    requires d > 0 && Shaped(t, d) && i < |t.keys| && |t.kids[i].keys| > 0
    ensures Kept(t, i + 1, BorrowLeft(t, i), i + 1, d)
  {
    hide *;
    ShapedKids(t, d);
    var y, x, s := t.kids[i], t.kids[i + 1], t.keys[i];
    var y', k', x' := DropLast(y), y.keys[|y.keys| - 1], TakeLast(s, x, y);
    BorrowLeftShape(t, i);
    RotateRight(y, s, x, d - 1);
    JoinInOrder(y, s, x, d - 1);
    JoinInOrder(y', k', x', d - 1);
    AroundPair(t, d, i);
    SetPairAround(t, d, i, y', k', x');
    MkKept(t, i + 1, BorrowLeft(t, i), i + 1, d);
  }

  lemma BorrowLeftShape(t: Tree, i: nat)
    requires i < |t.keys| && |t.kids| == |t.keys| + 1 && |t.kids[i].keys| > 0
    ensures var y, x, s, t1 := t.kids[i], t.kids[i + 1], t.keys[i], BorrowLeft(t, i);
      && t1 == SetPair(t, i, DropLast(y), y.keys[|y.keys| - 1], TakeLast(s, x, y))
      && |t1.keys| == |t.keys| && |t1.kids| == |t.kids| && t1.kids[i + 1] == TakeLast(s, x, y)
  {
    hide DropLast, TakeLast;
  }

  lemma BorrowRightShape(t: Tree, i: nat)
    requires i < |t.keys| && |t.kids| == |t.keys| + 1 && |t.kids[i + 1].keys| > 0
    ensures var x, y, s, t1 := t.kids[i], t.kids[i + 1], t.keys[i], BorrowRight(t, i);
      && t1 == SetPair(t, i, TakeFirst(s, x, y), y.keys[0], DropFirst(y))
      && |t1.keys| == |t.keys| && |t1.kids| == |t.kids| && t1.kids[i] == TakeFirst(s, x, y)
  {
    hide DropFirst, TakeFirst;
  }

  lemma BorrowRightInOrder(t: Tree, i: nat, d: nat)
    requires d > 0 && Shaped(t, d) && i < |t.keys| && |t.kids[i + 1].keys| > 0
    ensures Kept(t, i, BorrowRight(t, i), i, d)
  {
    hide *;
    ShapedKids(t, d);
    var x, y, s := t.kids[i], t.kids[i + 1], t.keys[i];
    BorrowRightShape(t, i);
    RotateLeft(x, s, y, d - 1);
    JoinInOrder(x, s, y, d - 1);
    JoinInOrder(TakeFirst(s, x, y), y.keys[0], DropFirst(y), d - 1);
    AroundPair(t, d, i);
    SetPairAround(t, d, i, TakeFirst(s, x, y), y.keys[0], DropFirst(y));
    MkKept(t, i, BorrowRight(t, i), i, d);
  }

  lemma MergeInOrder(t: Tree, i: nat, d: nat)
    requires d > 0 && Shaped(t, d) && i < |t.keys|
    ensures Kept(t, i, Merge(t, i), i, d) && Kept(t, i + 1, Merge(t, i), i, d)
    ensures Shaped(Merge(t, i), d) && t.keys[i] in KidOrder(Merge(t, i), d, i)
  {
    ShapedKids(t, d);
    var a, k, b := t.kids[i], t.keys[i], t.kids[i + 1];
    var t1 := Merge(t, i);
    assert t1 == Fuse(t, i, Join(a, k, b)) && t1.kids[i] == Join(a, k, b) && |t1.keys| == |t.keys| - 1;
    assert KidOrder(t1, d, i) == InOrder(Join(a, k, b), d - 1) by { MergeShaped(t, i, d); }
    hide *;
    JoinInOrder(a, k, b, d - 1);
    WithinParts(InOrder(a, d - 1), k, InOrder(b, d - 1));
    FuseAround(t, d, i, Join(a, k, b));
    AroundPair(t, d, i);
    MkKept(t, i, t1, i, d);
    MkKept(t, i + 1, t1, i, d);
  }

  lemma MergeShaped(t: Tree, i: nat, d: nat)
    requires d > 0 && Shaped(t, d) && i < |t.keys|
    ensures Shaped(Merge(t, i), d)
  {
    ShapedKids(t, d);
    JoinInOrder(t.kids[i], t.keys[i], t.kids[i + 1], d - 1);
    FuseAround(t, d, i, Join(t.kids[i], t.keys[i], t.kids[i + 1]));
  }

  lemma WithinParts(a: seq<int>, k: int, b: seq<int>)
    ensures Within(a, a + [k] + b) && Within(b, a + [k] + b) && k in a + [k] + b
  {
  }

  lemma BorrowLeftWf(t: Tree, i: nat, d: nat, T: nat)
    requires T >= 2 && d > 0 && Wf(t, d, T) && i < |t.keys|
    requires |t.kids[i].keys| >= T && |t.kids[i + 1].keys| == T - 1
    ensures Wf(BorrowLeft(t, i), d, T)
  {
    WfKids(t, d, T);
    var y, x, s := t.kids[i], t.kids[i + 1], t.keys[i];
    GoodKidWf(t, i, d, T);
    GoodKidWf(t, i + 1, d, T);
    RotateRightWf(y, s, x, d - 1, T);
    SetPairWf(t, d, T, i, DropLast(y), y.keys[|y.keys| - 1], TakeLast(s, x, y));
  }

  lemma BorrowRightWf(t: Tree, i: nat, d: nat, T: nat)
    requires T >= 2 && d > 0 && Wf(t, d, T) && i < |t.keys|
    requires |t.kids[i].keys| == T - 1 && |t.kids[i + 1].keys| >= T
    ensures Wf(BorrowRight(t, i), d, T)
  {
    WfKids(t, d, T);
    var x, y, s := t.kids[i], t.kids[i + 1], t.keys[i];
    GoodKidWf(t, i, d, T);
    GoodKidWf(t, i + 1, d, T);
    RotateLeftWf(x, s, y, d - 1, T);
    SetPairWf(t, d, T, i, TakeFirst(s, x, y), y.keys[0], DropFirst(y));
  }

  lemma MergeWf(t: Tree, i: nat, d: nat, T: nat)
    requires T >= 2 && d > 0 && Wf(t, d, T) && i < |t.keys|
    requires |t.kids[i].keys| == T - 1 == |t.kids[i + 1].keys|
    ensures Wf(Merge(t, i), d, T)
  {
    WfKids(t, d, T);
    GoodKidWf(t, i, d, T);
    GoodKidWf(t, i + 1, d, T);
    JoinWf(t.kids[i], t.keys[i], t.kids[i + 1], d - 1, T);
    FuseWf(t, d, T, i, Join(t.kids[i], t.keys[i], t.kids[i + 1]));
  }

  lemma GoodKidWf(t: Tree, i: nat, d: nat, T: nat)
    requires d > 0 && i < |t.kids| && GoodKid(t.kids[i], d, T)
    ensures Wf(t.kids[i], d - 1, T)
  {
  }

  /** A node whose kids can be borrowed from: the right number of kids, none of them empty. */
  predicate Roomy(t: Tree)
  {
    |t.keys| >= 1 && |t.kids| == |t.keys| + 1 && forall i :: 0 <= i < |t.kids| ==> |t.kids[i].keys| > 0
  }

  /** Before __kb_delp_aux enters kid i it gives it at least T keys: a key from its left or
      right neighbour when one of them has a key to spare, else a whole neighbour.  The
      result is the changed node and where the kid is now. */
  function MakeRoom(t: Tree, i: nat, T: nat): (ti: (Tree, nat))
    requires Roomy(t) && i <= |t.keys|
    ensures |t.keys| - 1 <= |ti.0.keys| <= |t.keys| && |ti.0.kids| == |ti.0.keys| + 1 && ti.1 <= |ti.0.keys|
    ensures i == 0 ==> ti.1 == 0
    ensures i == |t.keys| ==> ti.1 == |ti.0.keys|
  {
    if |t.kids[i].keys| != T - 1 then (t, i)
    else if i > 0 && |t.kids[i - 1].keys| >= T then (BorrowLeft(t, i - 1), i)
    else if i < |t.keys| && |t.kids[i + 1].keys| >= T then (BorrowRight(t, i), i)
    else if i > 0 then (Merge(t, i - 1), i - 1)
    else (Merge(t, i), i)
  }

  lemma WfRoomy(t: Tree, d: nat, T: nat)
    requires T >= 2 && d > 0 && Wf(t, d, T) && |t.keys| >= 1
    ensures Roomy(t)
  {
  }

  lemma MakeRoomWf(t: Tree, i: nat, d: nat, T: nat)
    requires T >= 2 && d > 0 && Wf(t, d, T) && Roomy(t) && i <= |t.keys|
    ensures Wf(MakeRoom(t, i, T).0, d, T)
  {
    WfKids(t, d, T);
    hide Wf, Roomy;
    if |t.kids[i].keys| != T - 1 {
    } else if i > 0 && |t.kids[i - 1].keys| >= T {
      BorrowLeftWf(t, i - 1, d, T);
    } else if i < |t.keys| && |t.kids[i + 1].keys| >= T {
      BorrowRightWf(t, i, d, T);
    } else if i > 0 {
      GoodKidSize(t.kids[i - 1], d, T);
      MergeWf(t, i - 1, d, T);
    } else {
      GoodKidSize(t.kids[i + 1], d, T);
      MergeWf(t, i, d, T);
    }
  }

  lemma GoodKidSize(c: Tree, d: nat, T: nat)
    requires d > 0 && GoodKid(c, d, T)
    ensures |c.keys| >= T - 1
  {
  }

  lemma MakeRoomSize(t: Tree, i: nat, d: nat, T: nat)
    requires T >= 2 && d > 0 && Wf(t, d, T) && Roomy(t) && i <= |t.keys|
    ensures var (t1, i1) := MakeRoom(t, i, T); |t1.kids[i1].keys| >= T
  {
    WfKids(t, d, T);
    GoodKidSize(t.kids[i], d, T);
    if i > 0 {
      GoodKidSize(t.kids[i - 1], d, T);
    }
    if i < |t.keys| {
      GoodKidSize(t.kids[i + 1], d, T);
    }
    hide Wf, GoodKid;
  }

  /** MakeRoom moves nothing in the in-order reading, and takes nothing from the kid. */
  lemma MakeRoomInOrder(t: Tree, i: nat, d: nat, T: nat)
    requires d > 0 && Shaped(t, d) && Roomy(t) && i <= |t.keys|
    ensures Kept(t, i, MakeRoom(t, i, T).0, MakeRoom(t, i, T).1, d)
  {
    KeptRefl(t, i, d);
    hide Kept, Shaped, BorrowLeft, BorrowRight, Merge;
    if |t.kids[i].keys| != T - 1 {
    } else if i > 0 && |t.kids[i - 1].keys| >= T {
      BorrowLeftKept(t, i, d);
    } else if i < |t.keys| && |t.kids[i + 1].keys| >= T {
      BorrowRightInOrder(t, i, d);
    } else if i > 0 {
      MergeLeftKept(t, i, d);
    } else {
      MergeInOrder(t, i, d);
    }
  }

  lemma BorrowLeftKept(t: Tree, i: nat, d: nat)
    requires d > 0 && Shaped(t, d) && 0 < i <= |t.keys| && |t.kids[i - 1].keys| > 0
    ensures Kept(t, i, BorrowLeft(t, i - 1), i, d)
  {
    ShapedKids(t, d);
    hide *;
    BorrowLeftInOrder(t, i - 1, d);
  }

  lemma MergeLeftKept(t: Tree, i: nat, d: nat)
    requires d > 0 && Shaped(t, d) && 0 < i <= |t.keys|
    ensures Kept(t, i, Merge(t, i - 1), i - 1, d)
  {
    ShapedKids(t, d);
    hide *;
    MergeInOrder(t, i - 1, d);
  }

  lemma KeptRefl(t: Tree, i: nat, d: nat)
    requires d > 0 && Shaped(t, d) && i <= |t.keys|
    ensures Kept(t, i, t, i, d)
  {
  }

  // ----- deleting -----

  /** What __kb_delp_aux is to delete: a given key, or the greatest or the least key below. */
  datatype Which = Exact | Greatest | Least

  /** The key to delete from a leaf: its index, -1 when an exact key lies before all. */
  function LeafIndex(keys: seq<int>, k: int, s: Which): (i: int)
    requires |keys| >= 1
    ensures -1 <= i < |keys|
  {
    match s
    case Exact => Aux(keys, k).0
    case Greatest => |keys| - 1
    case Least => 0
  }

  function DelLeaf(t: Tree, k: int, s: Which): (int, Tree)
    requires |t.keys| >= 1
  {
    var i := LeafIndex(t.keys, k, s);
    if i < 0 then (k, t) else (t.keys[i], Node(t.keys[..i] + t.keys[i + 1..], t.kids))
  }

  /** Does node t hold the key to delete?  (r == 0 in the code) */
  predicate Here(t: Tree, k: int, s: Which)
  {
    s == Exact && |t.keys| > 0 && Aux(t.keys, k).1 == 0
  }

  /** The kid to enter when it does not. */
  function Below(t: Tree, k: int, s: Which): (i: nat)
    ensures i <= |t.keys|
  {
    match s
    case Exact => Aux(t.keys, k).0 + 1
    case Greatest => |t.keys|
    case Least => 0
  }

  lemma DelLeafWf(t: Tree, k: int, s: Which, T: nat)
    requires Wf(t, 0, T) && |t.keys| >= 1
    ensures Wf(DelLeaf(t, k, s).1, 0, T) && |DelLeaf(t, k, s).1.keys| >= |t.keys| - 1
  {
  }

  lemma AuxHere(t: Tree, k: int, s: Which)
    requires Here(t, k, s)
    ensures 0 <= Aux(t.keys, k).0 < |t.keys|
  {
  }

  /** __kb_delp_aux: the key it returns and the node it leaves. */
  function DelAux(t: Tree, k: int, s: Which, d: nat, T: nat): (r: (int, Tree))
    requires T >= 2 && Wf(t, d, T) && |t.keys| >= 1
    ensures Wf(r.1, d, T) && |r.1.keys| >= |t.keys| - 1
    decreases d, 1
  {
    if d == 0 then
      DelLeafWf(t, k, s, T);
      DelLeaf(t, k, s)
    else if Here(t, k, s) then
      DelHere(t, k, d, T)
    else
      WfRoomy(t, d, T);
      var (t1, i) := MakeRoom(t, Below(t, k, s), T);
      MakeRoomWf(t, Below(t, k, s), d, T);
      MakeRoomSize(t, Below(t, k, s), d, T);
      WfKid(t1, i, d, T);
      var (p, c) := DelAux(t1.kids[i], k, s, d - 1, T);
      EnteredWf(t1, i, c, d, T);
      (p, SetKid(t1, i, c))
  }

  /** The key is in an internal node: its predecessor or its successor takes its place, or
      it goes down into the merger of the two kids beside it. */
  function DelHere(t: Tree, k: int, d: nat, T: nat): (r: (int, Tree))
    requires T >= 2 && d > 0 && Wf(t, d, T) && Here(t, k, Exact)
    ensures Wf(r.1, d, T) && |r.1.keys| >= |t.keys| - 1
    decreases d, 0
  {
    AuxHere(t, k, Exact);
    var i: nat := Aux(t.keys, k).0;
    WfKids(t, d, T);
    WfKid(t, i, d, T);
    WfKid(t, i + 1, d, T);
    if |t.kids[i].keys| >= T then
      var (p, c) := DelAux(t.kids[i], 0, Greatest, d - 1, T);
      ReplacedWf(t, i, c, p, t.kids[i + 1], d, T);
      (t.keys[i], SetPair(t, i, c, p, t.kids[i + 1]))
    else if |t.kids[i + 1].keys| >= T then
      var (p, c) := DelAux(t.kids[i + 1], 0, Least, d - 1, T);
      ReplacedWf(t, i, t.kids[i], p, c, d, T);
      (t.keys[i], SetPair(t, i, t.kids[i], p, c))
    else
      MergeWf(t, i, d, T);
      MergeRoom(t, i, d, T);
      var (p, c) := DelAux(Merge(t, i).kids[i], k, Exact, d - 1, T);
      EnteredWf(Merge(t, i), i, c, d, T);
      (p, SetKid(Merge(t, i), i, c))
  }

  lemma MergeRoom(t: Tree, i: nat, d: nat, T: nat)
    requires T >= 2 && d > 0 && Wf(t, d, T) && i < |t.keys| && Wf(Merge(t, i), d, T)
    requires |t.kids[i].keys| == T - 1 == |t.kids[i + 1].keys|
    ensures |Merge(t, i).keys| == |t.keys| - 1 && |Merge(t, i).kids| == |t.keys|
    ensures Wf(Merge(t, i).kids[i], d - 1, T) && |Merge(t, i).kids[i].keys| == 2 * T - 1
  {
    WfKid(Merge(t, i), i, d, T);
  }

  lemma ReplacedWf(t: Tree, i: nat, a: Tree, p: int, b: Tree, d: nat, T: nat)
    requires d > 0 && Wf(t, d, T) && i < |t.keys|
    requires Wf(a, d - 1, T) && Wf(b, d - 1, T) && |a.keys| >= T - 1 && |b.keys| >= T - 1
    ensures |t.kids| == |t.keys| + 1 && Wf(SetPair(t, i, a, p, b), d, T)
  {
    SetPairWf(t, d, T, i, a, p, b);
  }

  lemma EnteredWf(t: Tree, i: nat, c: Tree, d: nat, T: nat)
    requires d > 0 && Wf(t, d, T) && i <= |t.keys|
    requires Wf(c, d - 1, T) && |c.keys| >= T - 1
    ensures |t.kids| == |t.keys| + 1 && Wf(SetKid(t, i, c), d, T)
  {
    SetKidWf(t, d, T, i, c);
  }

  /** kb_delp: the deleted key, the new root and its height. */
  function Del(t: Tree, k: int, d: nat, T: nat): (r: (int, Tree, nat))
    requires T >= 2 && Wf(t, d, T) && |t.keys| >= 1
    ensures Wf(r.1, r.2, T)
  {
    var (p, t') := DelAux(t, k, Exact, d, T);
    if |t'.keys| == 0 && d > 0 then
      WfKid(t', 0, d, T);
      (p, t'.kids[0], d - 1)
    else
      (p, t', d)
  }

  // ----- what a deletion does to the in-order reading -----

  /** Reading a has become reading b by the deletion of p. */
  ghost predicate Deleted(a: seq<int>, k: int, s: Which, p: int, b: seq<int>)
  {
    && |a| > 0
    && match s
       case Exact => p == k && k in a && b == Remove(a, k)
       case Greatest => a == b + [p]
       case Least => a == [p] + b
  }

  /** Node t of height d becomes t' by the deletion of p. */
  ghost predicate Erased(t: Tree, k: int, s: Which, p: int, t': Tree, d: nat)
  {
    Shaped(t, d) && Shaped(t', d) && Deleted(InOrder(t, d), k, s, p, InOrder(t', d))
  }

  lemma MkErased(t: Tree, k: int, s: Which, p: int, t': Tree, d: nat)
    requires Shaped(t, d) && Shaped(t', d) && Deleted(InOrder(t, d), k, s, p, InOrder(t', d))
    ensures Erased(t, k, s, p, t', d)
  {
    hide InOrder, Shaped, Deleted;
  }

  lemma ErasedFacts(t: Tree, k: int, s: Which, p: int, t': Tree, d: nat)
    requires Erased(t, k, s, p, t', d)
    ensures Shaped(t, d) && Shaped(t', d) && Deleted(InOrder(t, d), k, s, p, InOrder(t', d))
  {
    hide InOrder, Shaped, Deleted;
  }

  lemma DelLeafInOrder(t: Tree, k: int, s: Which)
    requires Shaped(t, 0) && |t.keys| >= 1 && Sorted(t.keys)
    requires s == Exact ==> k in t.keys
    ensures Erased(t, k, s, DelLeaf(t, k, s).0, DelLeaf(t, k, s).1, 0)
  {
    if s == Exact {
      DelLeafExact(t, k);
    }
    DeletedEnds(t.keys, k);
    hide Sorted, Remove, Aux, Deleted, Erased;
    MkErased(t, k, s, DelLeaf(t, k, s).0, DelLeaf(t, k, s).1, 0);
  }

  lemma DeletedEnds(a: seq<int>, k: int)
    requires |a| >= 1
    ensures Deleted(a, k, Greatest, a[|a| - 1], a[..|a| - 1] + a[|a| - 1 + 1..])
    ensures Deleted(a, k, Least, a[0], a[..0] + a[0 + 1..])
  {
    DropEnds(a);
  }

  lemma DropEnds(a: seq<int>)
    requires |a| >= 1
    ensures a == (a[..|a| - 1] + a[|a| - 1 + 1..]) + [a[|a| - 1]]
    ensures a == [a[0]] + (a[..0] + a[0 + 1..])
  {
  }

  lemma DelLeafExact(t: Tree, k: int)
    requires |t.keys| >= 1 && Sorted(t.keys) && k in t.keys
    ensures Deleted(t.keys, k, Exact, DelLeaf(t, k, Exact).0, DelLeaf(t, k, Exact).1.keys)
  {
    AuxPlace(t.keys, k);
    RemoveAt(t.keys, k, Aux(t.keys, k).0);
  }

  /** The deleted key is replaced by its predecessor, the last of m. */
  lemma PredecessorTakesOver(l: seq<int>, m: seq<int>, k: int, n: seq<int>, r: seq<int>, p: int, m': seq<int>)
    requires Sorted(l + (m + [k] + n) + r) && m == m' + [p]
    ensures Deleted(l + (m + [k] + n) + r, k, Exact, k, l + (m' + [p] + n) + r)
  {
    var a := l + (m + [k] + n) + r;
    assert a[|l| + |m|] == k;
    RemoveAt(a, k, |l| + |m|);
    hide *;
    CutAtKey(l, m, k, n, r);
    assert l + m + (n + r) == l + (m + n) + r;
  }

  lemma CutAtKey(l: seq<int>, m: seq<int>, k: int, n: seq<int>, r: seq<int>)
    ensures (l + (m + [k] + n) + r)[..|l| + |m|] == l + m
    ensures (l + (m + [k] + n) + r)[|l| + |m| + 1..] == n + r
  {
  }

  /** The deleted key is replaced by its successor, the first of n. */
  lemma SuccessorTakesOver(l: seq<int>, m: seq<int>, k: int, n: seq<int>, r: seq<int>, p: int, n': seq<int>)
    requires Sorted(l + (m + [k] + n) + r) && n == [p] + n'
    ensures Deleted(l + (m + [k] + n) + r, k, Exact, k, l + (m + [p] + n') + r)
  {
    var a := l + (m + [k] + n) + r;
    assert a[|l| + |m|] == k;
    RemoveAt(a, k, |l| + |m|);
    hide *;
    CutAtKey(l, m, k, n, r);
    assert l + m + (n + r) == l + (m + n) + r;
    assert m + n == m + [p] + n';
  }

  /** A deletion inside the middle part is a deletion of the whole. */
  lemma DeletedInside(l: seq<int>, m: seq<int>, r: seq<int>, k: int, s: Which, p: int, m': seq<int>)
    requires Sorted(l + m + r) && Deleted(m, k, s, p, m')
    requires s == Greatest ==> r == []
    requires s == Least ==> l == []
    ensures Deleted(l + m + r, k, s, p, l + m' + r)
  {
    match s
    case Exact =>
      RemoveMiddle(l, m, r, k);
    case Greatest =>
      assert l + (m' + [p]) == (l + m') + [p];
    case Least =>
      assert ([p] + m') + r == [p] + (m' + r);
  }

  /** The key found in node t, its left kid having one to spare. */
  lemma FoundLeft(t: Tree, i: nat, d: nat, p: int, c: Tree)
    requires d > 0 && Shaped(t, d) && Sorted(InOrder(t, d)) && i < |t.keys|
    requires Erased(t.kids[i], 0, Greatest, p, c, d - 1)
    ensures Erased(t, t.keys[i], Exact, t.keys[i], SetPair(t, i, c, p, t.kids[i + 1]), d)
  {
    hide *;
    ShapedKids(t, d);
    ErasedFacts(t.kids[i], 0, Greatest, p, c, d - 1);
    DeletedEnd(InOrder(t.kids[i], d - 1), 0, Greatest, p, InOrder(c, d - 1));
    AroundPair(t, d, i);
    SetPairAround(t, d, i, c, p, t.kids[i + 1]);
    PredecessorTakesOver(Left(t, d, i), InOrder(t.kids[i], d - 1), t.keys[i], InOrder(t.kids[i + 1], d - 1),
      Right(t, d, i + 1), p, InOrder(c, d - 1));
    MkErased(t, t.keys[i], Exact, t.keys[i], SetPair(t, i, c, p, t.kids[i + 1]), d);
  }

  lemma DeletedEnd(a: seq<int>, k: int, s: Which, p: int, b: seq<int>)
    requires Deleted(a, k, s, p, b)
    ensures s == Greatest ==> a == b + [p]
    ensures s == Least ==> a == [p] + b
  {
  }

  lemma FoundRight(t: Tree, i: nat, d: nat, p: int, c: Tree)
    requires d > 0 && Shaped(t, d) && Sorted(InOrder(t, d)) && i < |t.keys|
    requires Erased(t.kids[i + 1], 0, Least, p, c, d - 1)
    ensures Erased(t, t.keys[i], Exact, t.keys[i], SetPair(t, i, t.kids[i], p, c), d)
  {
    hide *;
    ShapedKids(t, d);
    ErasedFacts(t.kids[i + 1], 0, Least, p, c, d - 1);
    DeletedEnd(InOrder(t.kids[i + 1], d - 1), 0, Least, p, InOrder(c, d - 1));
    AroundPair(t, d, i);
    SetPairAround(t, d, i, t.kids[i], p, c);
    SuccessorTakesOver(Left(t, d, i), InOrder(t.kids[i], d - 1), t.keys[i], InOrder(t.kids[i + 1], d - 1),
      Right(t, d, i + 1), p, InOrder(c, d - 1));
    MkErased(t, t.keys[i], Exact, t.keys[i], SetPair(t, i, t.kids[i], p, c), d);
  }

  /** The deletion made in kid i. */
  lemma DeletedInKid(t: Tree, i: nat, d: nat, k: int, s: Which, p: int, c: Tree)
    requires d > 0 && Shaped(t, d) && Sorted(InOrder(t, d)) && i <= |t.keys|
    requires Erased(t.kids[i], k, s, p, c, d - 1)
    requires s == Greatest ==> i == |t.keys|
    requires s == Least ==> i == 0
    ensures Erased(t, k, s, p, SetKid(t, i, c), d)
  {
    LeftRightEnds(t, d, i);
    hide *;
    ShapedKids(t, d);
    ErasedFacts(t.kids[i], k, s, p, c, d - 1);
    Around(t, d, i);
    SetKidAround(t, d, i, c);
    DeletedInside(Left(t, d, i), InOrder(t.kids[i], d - 1), Right(t, d, i), k, s, p, InOrder(c, d - 1));
    MkErased(t, k, s, p, SetKid(t, i, c), d);
  }

  lemma LeftRightEnds(t: Tree, d: nat, i: nat)
    requires d > 0 && Shaped(t, d) && i <= |t.keys|
    ensures i == 0 ==> Left(t, d, i) == []
    ensures i == |t.keys| ==> Right(t, d, i) == []
  {
  }

  /** A key of the tree that is not in node t is in the kid the search enters. */
  lemma BelowHolds(t: Tree, k: int, d: nat)
    requires d > 0 && Shaped(t, d) && Sorted(InOrder(t, d)) && |t.keys| >= 1
    requires k in InOrder(t, d) && !Here(t, k, Exact)
    ensures k in KidOrder(t, d, Below(t, k, Exact))
  {
    var i := Below(t, k, Exact);
    NodeKeysSorted(t, d);
    AuxPlace(t.keys, k);
    NotBeside(t, d, i, k);
    Around(t, d, i);
  }

  /** __kb_delp_aux: exactly the key asked for leaves the in-order reading. */
  lemma {:induction false} DelAuxInOrder(t: Tree, k: int, s: Which, d: nat, T: nat)
    requires T >= 2 && Wf(t, d, T) && |t.keys| >= 1
    requires Shaped(t, d) && Sorted(InOrder(t, d))
    requires s == Exact ==> k in InOrder(t, d)
    ensures Erased(t, k, s, DelAux(t, k, s, d, T).0, DelAux(t, k, s, d, T).1, d)
    decreases d, 2
  {
    if d == 0 {
      DelLeafInOrder(t, k, s);
    } else if Here(t, k, s) {
      DelHereInOrder(t, k, d, T);
    } else {
      DelBelowInOrder(t, k, s, d, T);
    }
  }

  lemma {:induction false} DelHereInOrder(t: Tree, k: int, d: nat, T: nat)
    requires T >= 2 && d > 0 && Wf(t, d, T) && Here(t, k, Exact)
    requires Shaped(t, d) && Sorted(InOrder(t, d)) && k in InOrder(t, d)
    ensures Erased(t, k, Exact, DelHere(t, k, d, T).0, DelHere(t, k, d, T).1, d)
    decreases d, 0
  {
    var i := HereIndex(t, k, d);
    WfKids(t, d, T);
    WfKid(t, i, d, T);
    WfKid(t, i + 1, d, T);
    hide Wf, Shaped, InOrder, Sorted, Erased, DelHere, GoodKid;
    if |t.kids[i].keys| >= T {
      HereFromLeft(t, k, i, d, T);
    } else if |t.kids[i + 1].keys| >= T {
      HereFromRight(t, k, i, d, T);
    } else {
      HereMerged(t, k, i, d, T);
    }
  }

  lemma {:induction false} HereFromLeft(t: Tree, k: int, i: nat, d: nat, T: nat)
    requires T >= 2 && d > 0 && Wf(t, d, T) && Here(t, k, Exact) && i == Aux(t.keys, k).0
    requires i < |t.keys| && t.keys[i] == k && |t.kids| == |t.keys| + 1
    requires Wf(t.kids[i], d - 1, T) && |t.kids[i].keys| >= T
    requires Shaped(t, d) && Sorted(InOrder(t, d))
    ensures Erased(t, k, Exact, DelHere(t, k, d, T).0, DelHere(t, k, d, T).1, d)
    decreases d - 1, 5
  {
    DelHereIs(t, k, i, d, T);
    hide *;
    FromLeft(t, i, d, T);
  }

  lemma {:induction false} HereFromRight(t: Tree, k: int, i: nat, d: nat, T: nat)
    requires T >= 2 && d > 0 && Wf(t, d, T) && Here(t, k, Exact) && i == Aux(t.keys, k).0
    requires i < |t.keys| && t.keys[i] == k && |t.kids| == |t.keys| + 1
    requires |t.kids[i].keys| < T && Wf(t.kids[i + 1], d - 1, T) && |t.kids[i + 1].keys| >= T
    requires Shaped(t, d) && Sorted(InOrder(t, d))
    ensures Erased(t, k, Exact, DelHere(t, k, d, T).0, DelHere(t, k, d, T).1, d)
    decreases d - 1, 5
  {
    DelHereIs(t, k, i, d, T);
    hide *;
    FromRight(t, i, d, T);
  }

  lemma {:induction false} HereMerged(t: Tree, k: int, i: nat, d: nat, T: nat)
    requires T >= 2 && d > 0 && Wf(t, d, T) && Here(t, k, Exact) && i == Aux(t.keys, k).0
    requires i < |t.keys| && t.keys[i] == k && |t.kids| == |t.keys| + 1
    requires |t.kids[i].keys| == T - 1 == |t.kids[i + 1].keys|
    requires Shaped(t, d) && Sorted(InOrder(t, d))
    ensures Erased(t, k, Exact, DelHere(t, k, d, T).0, DelHere(t, k, d, T).1, d)
    decreases d - 1, 5
  {
    DelHereIs(t, k, i, d, T);
    MergeWf(t, i, d, T);
    MergeRoom(t, i, d, T);
    hide *;
    EnterMerged(t, k, i, d, T);
  }

  lemma DelHereIs(t: Tree, k: int, i: nat, d: nat, T: nat)
    requires T >= 2 && d > 0 && Wf(t, d, T) && Here(t, k, Exact) && i == Aux(t.keys, k).0
    requires i < |t.keys| && |t.kids| == |t.keys| + 1
    ensures Wf(t.kids[i], d - 1, T) && Wf(t.kids[i + 1], d - 1, T)
    ensures |t.kids[i].keys| >= T ==>
      var (p, c) := DelAux(t.kids[i], 0, Greatest, d - 1, T);
      DelHere(t, k, d, T) == (t.keys[i], SetPair(t, i, c, p, t.kids[i + 1]))
    ensures |t.kids[i].keys| < T <= |t.kids[i + 1].keys| ==>
      var (p, c) := DelAux(t.kids[i + 1], 0, Least, d - 1, T);
      DelHere(t, k, d, T) == (t.keys[i], SetPair(t, i, t.kids[i], p, c))
    ensures |t.kids[i].keys| == T - 1 == |t.kids[i + 1].keys| ==>
      && |Merge(t, i).kids| == |t.keys| && Wf(Merge(t, i).kids[i], d - 1, T) && |Merge(t, i).kids[i].keys| >= 1
      && var (p, c) := DelAux(Merge(t, i).kids[i], k, Exact, d - 1, T);
         DelHere(t, k, d, T) == (p, SetKid(Merge(t, i), i, c))
  {
    WfKid(t, i, d, T);
    WfKid(t, i + 1, d, T);
    if |t.kids[i].keys| == T - 1 == |t.kids[i + 1].keys| {
      MergeWf(t, i, d, T);
      MergeRoom(t, i, d, T);
    }
    hide Wf, Merge, Here, Aux;
  }

  lemma HereIndex(t: Tree, k: int, d: nat) returns (i: nat)
    requires d > 0 && Here(t, k, Exact)
    requires Shaped(t, d) && Sorted(InOrder(t, d)) && k in InOrder(t, d)
    ensures i == Aux(t.keys, k).0 && i < |t.keys| && t.keys[i] == k
  {
    AuxHere(t, k, Exact);
    NodeKeysSorted(t, d);
    AuxPlace(t.keys, k);
    i := Aux(t.keys, k).0;
  }

  lemma {:induction false} FromLeft(t: Tree, i: nat, d: nat, T: nat)
    requires T >= 2 && d > 0 && i < |t.keys| && |t.kids| == |t.keys| + 1
    requires Wf(t.kids[i], d - 1, T) && |t.kids[i].keys| >= T
    requires Shaped(t, d) && Sorted(InOrder(t, d))
    ensures var (p, c) := DelAux(t.kids[i], 0, Greatest, d - 1, T);
      Erased(t, t.keys[i], Exact, t.keys[i], SetPair(t, i, c, p, t.kids[i + 1]), d)
    decreases d - 1, 4
  {
    ShapedKids(t, d);
    KidSorted(t, d, i);
    hide Wf, Shaped, InOrder, Sorted, Erased;
    DelAuxInOrder(t.kids[i], 0, Greatest, d - 1, T);
    var (p, c) := DelAux(t.kids[i], 0, Greatest, d - 1, T);
    FoundLeft(t, i, d, p, c);
  }

  lemma {:induction false} FromRight(t: Tree, i: nat, d: nat, T: nat)
    requires T >= 2 && d > 0 && i < |t.keys| && |t.kids| == |t.keys| + 1
    requires Wf(t.kids[i + 1], d - 1, T) && |t.kids[i + 1].keys| >= T
    requires Shaped(t, d) && Sorted(InOrder(t, d))
    ensures var (p, c) := DelAux(t.kids[i + 1], 0, Least, d - 1, T);
      Erased(t, t.keys[i], Exact, t.keys[i], SetPair(t, i, t.kids[i], p, c), d)
    decreases d - 1, 4
  {
    ShapedKids(t, d);
    KidSorted(t, d, i + 1);
    hide Wf, Shaped, InOrder, Sorted, Erased;
    DelAuxInOrder(t.kids[i + 1], 0, Least, d - 1, T);
    var (p, c) := DelAux(t.kids[i + 1], 0, Least, d - 1, T);
    FoundRight(t, i, d, p, c);
  }

  lemma {:induction false} EnterMerged(t: Tree, k: int, i: nat, d: nat, T: nat)
    requires T >= 2 && d > 0 && Wf(t, d, T) && i < |t.keys| && t.keys[i] == k && |t.kids| == |t.keys| + 1
    requires |t.kids[i].keys| == T - 1 == |t.kids[i + 1].keys|
    requires Shaped(t, d) && Sorted(InOrder(t, d))
    requires Wf(Merge(t, i), d, T) && |Merge(t, i).kids| == |t.keys| && Wf(Merge(t, i).kids[i], d - 1, T)
    requires |Merge(t, i).kids[i].keys| >= 1
    ensures var (p, c) := DelAux(Merge(t, i).kids[i], k, Exact, d - 1, T);
      Erased(t, k, Exact, p, SetKid(Merge(t, i), i, c), d)
    decreases d - 1, 4
  {
    MergeInOrder(t, i, d);
    KeptFacts(t, i, Merge(t, i), i, d);
    hide Wf, Shaped, InOrder, Sorted, Erased;
    EnterKid(Merge(t, i), k, Exact, i, d, T);
    var (p, c) := DelAux(Merge(t, i).kids[i], k, Exact, d - 1, T);
    ErasedFacts(Merge(t, i), k, Exact, p, SetKid(Merge(t, i), i, c), d);
    MkErased(t, k, Exact, p, SetKid(Merge(t, i), i, c), d);
  }

  /** The deletion goes on in kid i of t1, which has a key to spare. */
  lemma {:induction false} EnterKid(t1: Tree, k: int, s: Which, i: nat, d: nat, T: nat)
    requires T >= 2 && d > 0 && Wf(t1, d, T) && i <= |t1.keys| && |t1.kids| == |t1.keys| + 1
    requires Wf(t1.kids[i], d - 1, T) && |t1.kids[i].keys| >= 1
    requires Shaped(t1, d) && Sorted(InOrder(t1, d))
    requires s == Exact ==> k in KidOrder(t1, d, i)
    requires s == Greatest ==> i == |t1.keys|
    requires s == Least ==> i == 0
    ensures var (p, c) := DelAux(t1.kids[i], k, s, d - 1, T);
      Erased(t1, k, s, p, SetKid(t1, i, c), d)
    decreases d - 1, 3
  {
    ShapedKids(t1, d);
    KidSorted(t1, d, i);
    hide Wf, Shaped, InOrder, Sorted, Erased;
    DelAuxInOrder(t1.kids[i], k, s, d - 1, T);
    var (p, c) := DelAux(t1.kids[i], k, s, d - 1, T);
    DeletedInKid(t1, i, d, k, s, p, c);
  }

  lemma {:induction false} DelBelowInOrder(t: Tree, k: int, s: Which, d: nat, T: nat)
    requires T >= 2 && d > 0 && Wf(t, d, T) && |t.keys| >= 1 && !Here(t, k, s)
    requires Shaped(t, d) && Sorted(InOrder(t, d))
    requires s == Exact ==> k in InOrder(t, d)
    ensures Erased(t, k, s, DelAux(t, k, s, d, T).0, DelAux(t, k, s, d, T).1, d)
    decreases d, 1
  {
    var j := Below(t, k, s);
    WfRoomy(t, d, T);
    if s == Exact {
      BelowHolds(t, k, d);
    }
    BelowEnds(t, k, s);
    var (t1, i) := MakeRoom(t, j, T);
    MakeRoomWf(t, j, d, T);
    MakeRoomSize(t, j, d, T);
    WfKid(t1, i, d, T);
    DelAuxBelow(t, k, s, d, T);
    hide *;
    MakeRoomInOrder(t, j, d, T);
    KeptFacts(t, j, t1, i, d);
    EnterKid(t1, k, s, i, d, T);
    var (p, c) := DelAux(t1.kids[i], k, s, d - 1, T);
    ErasedFacts(t1, k, s, p, SetKid(t1, i, c), d);
    MkErased(t, k, s, p, SetKid(t1, i, c), d);
  }

  lemma BelowEnds(t: Tree, k: int, s: Which)
    ensures s == Greatest ==> Below(t, k, s) == |t.keys|
    ensures s == Least ==> Below(t, k, s) == 0
  {
  }

  lemma DelAuxBelow(t: Tree, k: int, s: Which, d: nat, T: nat)
    requires T >= 2 && d > 0 && Wf(t, d, T) && |t.keys| >= 1 && !Here(t, k, s) && Roomy(t)
    requires var (t1, i) := MakeRoom(t, Below(t, k, s), T); Wf(t1.kids[i], d - 1, T) && |t1.kids[i].keys| >= 1
    ensures var (t1, i) := MakeRoom(t, Below(t, k, s), T);
      var (p, c) := DelAux(t1.kids[i], k, s, d - 1, T);
      DelAux(t, k, s, d, T) == (p, SetKid(t1, i, c))
  {
    hide Wf, MakeRoom, Below, Here, DelHere, Roomy;
  }

  /** kb_delp on any well-formed tree in order that holds k: it returns k, the result is
      well formed and in order, and it holds one k less than before and nothing else. */
  lemma DelInOrder(t: Tree, k: int, d: nat, T: nat)
    requires T >= 2 && Wf(t, d, T) && |t.keys| >= 1
    requires Shaped(t, d) && Sorted(InOrder(t, d)) && k in InOrder(t, d)
    ensures var (p, t', d') := Del(t, k, d, T);
      && p == k && Wf(t', d', T) && Shaped(t', d')
      && InOrder(t', d') == Remove(InOrder(t, d), k)
      && Sorted(InOrder(t', d'))
      && multiset(InOrder(t', d')) == multiset(InOrder(t, d)) - multiset{k}
  {
    hide Wf, Shaped, InOrder, Sorted, Remove, Left, Right;
    DelAuxInOrder(t, k, Exact, d, T);
    ErasedFacts(t, k, Exact, DelAux(t, k, Exact, d, T).0, DelAux(t, k, Exact, d, T).1, d);
    RemoveKeeps(InOrder(t, d), k);
    var t' := DelAux(t, k, Exact, d, T).1;
    if |t'.keys| == 0 && d > 0 {
      RootCollapse(t', d);
    }
  }

  lemma RootCollapse(t: Tree, d: nat)
    requires d > 0 && Shaped(t, d) && |t.keys| == 0
    ensures |t.kids| == 1 && Shaped(t.kids[0], d - 1) && InOrder(t, d) == InOrder(t.kids[0], d - 1)
  {
    assert Left(t, d, 0) == [];
  }
}
