/** The B-tree of src/kbtree.h seen as a value: what its nodes hold, what makes a tree
    well formed, and the in-order reading every reorganisation keeps. */
module BTreeValue {

  /** A node; a leaf has no kids. */
  datatype Tree = Node(keys: seq<int>, kids: seq<Tree>)

  /** A tree of height d and minimum degree T: at most 2T-1 keys, one kid more than keys in
      an internal node, at least T-1 keys in every node but the root, leaves all d levels down. */
  ghost predicate Wf(t: Tree, d: nat, T: nat)
    decreases d
  {
    && |t.keys| <= 2 * T - 1
    && if d == 0 then t.kids == [] else
       && |t.kids| == |t.keys| + 1
       && forall i :: 0 <= i < |t.kids| ==> Wf(t.kids[i], d - 1, T) && |t.kids[i].keys| >= T - 1
  }

  /** Kids and keys in number, all the way down. */
  ghost predicate Shaped(t: Tree, d: nat)
    decreases d
  {
    if d == 0 then t.kids == [] else
      && |t.kids| == |t.keys| + 1
      && forall i :: 0 <= i < |t.kids| ==> Shaped(t.kids[i], d - 1)
  }

  lemma {:induction false} WfShaped(t: Tree, d: nat, T: nat)
    requires Wf(t, d, T)
    ensures Shaped(t, d)
    decreases d
  {
    if d > 0 {
      forall i | 0 <= i < |t.kids| ensures Shaped(t.kids[i], d - 1) {
        WfShaped(t.kids[i], d - 1, T);
      }
    }
  }

  // ----- in-order reading -----

  ghost function InOrder(t: Tree, d: nat): seq<int>
    requires Shaped(t, d)
    decreases d, |t.keys| + 2
  {
    if d == 0 then t.keys else Left(t, d, |t.keys|) + InOrder(t.kids[|t.keys|], d - 1)
  }

  /** What comes before kid i: kid 0, key 0, ..., kid i-1, key i-1. */
  ghost function Left(t: Tree, d: nat, i: nat): seq<int>
    requires d > 0 && Shaped(t, d) && i <= |t.keys|
    decreases d, i + 1
  {
    if i == 0 then [] else Left(t, d, i - 1) + InOrder(t.kids[i - 1], d - 1) + [t.keys[i - 1]]
  }

  /** What comes after kid i: key i, kid i+1, ..., the last kid. */
  ghost function Right(t: Tree, d: nat, i: nat): seq<int>
    requires d > 0 && Shaped(t, d) && i <= |t.keys|
    decreases d, |t.keys| - i
  {
    if i == |t.keys| then [] else [t.keys[i]] + InOrder(t.kids[i + 1], d - 1) + Right(t, d, i + 1)
  }

  /** The in-order reading around kid i. */
  lemma {:induction false} Around(t: Tree, d: nat, i: nat)
    requires d > 0 && Shaped(t, d) && i <= |t.keys|
    ensures InOrder(t, d) == Left(t, d, i) + InOrder(t.kids[i], d - 1) + Right(t, d, i)
    decreases |t.keys| - i
  {
    if i < |t.keys| {
      Around(t, d, i + 1);
      Regroup(Left(t, d, i), InOrder(t.kids[i], d - 1), [t.keys[i]], InOrder(t.kids[i + 1], d - 1), Right(t, d, i + 1));
    }
  }

  lemma Regroup(a: seq<int>, b: seq<int>, c: seq<int>, e: seq<int>, f: seq<int>)
    ensures (a + b + c) + e + f == a + b + (c + e + f) == a + (b + c + e) + f
  {
  }

  lemma {:induction false} LeftSame(t: Tree, t': Tree, d: nat, i: nat)
    requires d > 0 && Shaped(t, d) && Shaped(t', d) && i <= |t.keys| && i <= |t'.keys|
    requires forall j :: 0 <= j < i ==> t.keys[j] == t'.keys[j] && t.kids[j] == t'.kids[j]
    ensures Left(t, d, i) == Left(t', d, i)
  {
    if i > 0 {
      LeftSame(t, t', d, i - 1);
    }
  }

  lemma {:induction false} RightSame(t: Tree, t': Tree, d: nat, i: nat, i': nat)
    requires d > 0 && Shaped(t, d) && Shaped(t', d) && i <= |t.keys| && i' <= |t'.keys|
    requires t.keys[i..] == t'.keys[i'..] && t.kids[i + 1..] == t'.kids[i' + 1..]
    ensures Right(t, d, i) == Right(t', d, i')
    decreases |t.keys| - i
  {
    assert |t.keys[i..]| == |t'.keys[i'..]|;
    if i < |t.keys| {
      assert t.keys[i] == t.keys[i..][0] == t'.keys[i'];
      assert t.kids[i + 1] == t.kids[i + 1..][0] == t'.kids[i' + 1];
      assert t.keys[i + 1..] == t.keys[i..][1..] && t'.keys[i' + 1..] == t'.keys[i'..][1..];
      assert t.kids[i + 2..] == t.kids[i + 1..][1..] && t'.kids[i' + 2..] == t'.kids[i' + 1..][1..];
      RightSame(t, t', d, i + 1, i' + 1);
    }
  }

  // ----- joining two nodes of one height around a key -----

  function Join(a: Tree, k: int, b: Tree): Tree
  {
    Node(a.keys + [k] + b.keys, a.kids + b.kids)
  }

  lemma {:induction false} JoinInOrder(a: Tree, k: int, b: Tree, d: nat)
    requires Shaped(a, d) && Shaped(b, d)
    ensures Shaped(Join(a, k, b), d)
    ensures InOrder(Join(a, k, b), d) == InOrder(a, d) + [k] + InOrder(b, d)
  {
    if d > 0 {
      var j := Join(a, k, b);
      var n := |a.keys|;
      assert forall i :: 0 <= i < |j.kids| ==> j.kids[i] == if i <= n then a.kids[i] else b.kids[i - n - 1];
      Around(j, d, n);
      LeftSame(a, j, d, n);
      assert Right(j, d, n) == [k] + InOrder(b.kids[0], d - 1) + Right(j, d, n + 1);
      RightSame(b, j, d, 0, n + 1);
      Around(b, d, 0);
    }
  }

  // ----- a parent with some of its kids replaced -----

  function SetKid(t: Tree, i: nat, c: Tree): Tree
    requires i < |t.kids|
  {
    t.(kids := t.kids[i := c])
  }

  /** Kids i and i+1, and the key between them, replaced. */
  function SetPair(t: Tree, i: nat, a: Tree, k: int, b: Tree): Tree
    requires i < |t.keys| && |t.kids| == |t.keys| + 1
  {
    Node(t.keys[i := k], t.kids[i := a][i + 1 := b])
  }

  /** Kid i replaced by two kids around a key. */
  function Part(t: Tree, i: nat, a: Tree, k: int, b: Tree): Tree
    requires i < |t.kids| && i <= |t.keys|
  {
    Node(t.keys[..i] + [k] + t.keys[i..], t.kids[..i] + [a, b] + t.kids[i + 1..])
  }

  /** Kids i and i+1, and the key between them, replaced by one kid. */
  function Fuse(t: Tree, i: nat, c: Tree): Tree
    requires i < |t.keys| && |t.kids| == |t.keys| + 1
  {
    Node(t.keys[..i] + t.keys[i + 1..], t.kids[..i] + [c] + t.kids[i + 2..])
  }

  lemma SetKidAround(t: Tree, d: nat, i: nat, c: Tree)
    requires d > 0 && Shaped(t, d) && i <= |t.keys| && Shaped(c, d - 1)
    ensures Shaped(SetKid(t, i, c), d)
    ensures Left(SetKid(t, i, c), d, i) == Left(t, d, i)
    ensures Right(SetKid(t, i, c), d, i) == Right(t, d, i)
    ensures InOrder(SetKid(t, i, c), d) == Left(t, d, i) + InOrder(c, d - 1) + Right(t, d, i)
  {
    hide InOrder, Left, Right;
    var t' := SetKid(t, i, c);
    LeftSame(t, t', d, i);
    RightSame(t, t', d, i, i);
    Around(t', d, i);
  }

  /** The in-order reading around kids i and i+1. */
  lemma AroundPair(t: Tree, d: nat, i: nat)
    requires d > 0 && Shaped(t, d) && i < |t.keys|
    ensures InOrder(t, d) ==
      Left(t, d, i) + (InOrder(t.kids[i], d - 1) + [t.keys[i]] + InOrder(t.kids[i + 1], d - 1)) + Right(t, d, i + 1)
  {
    Around(t, d, i);
    assert Right(t, d, i) == [t.keys[i]] + InOrder(t.kids[i + 1], d - 1) + Right(t, d, i + 1);
    hide InOrder, Left, Right;
    Regroup(Left(t, d, i), InOrder(t.kids[i], d - 1), [t.keys[i]], InOrder(t.kids[i + 1], d - 1), Right(t, d, i + 1));
  }

  lemma SetPairAround(t: Tree, d: nat, i: nat, a: Tree, k: int, b: Tree)
    requires d > 0 && Shaped(t, d) && i < |t.keys| && Shaped(a, d - 1) && Shaped(b, d - 1)
    ensures Shaped(SetPair(t, i, a, k, b), d)
    ensures InOrder(SetPair(t, i, a, k, b), d) ==
      Left(t, d, i) + (InOrder(a, d - 1) + [k] + InOrder(b, d - 1)) + Right(t, d, i + 1)
  {
    hide InOrder, Left, Right;
    var t' := SetPair(t, i, a, k, b);
    assert t'.keys[i + 1..] == t.keys[i + 1..] && t'.kids[i + 2..] == t.kids[i + 2..];
    LeftSame(t, t', d, i);
    RightSame(t, t', d, i + 1, i + 1);
    AroundPair(t', d, i);
  }

  lemma PartAround(t: Tree, d: nat, i: nat, a: Tree, k: int, b: Tree)
    requires d > 0 && Shaped(t, d) && i <= |t.keys| && Shaped(a, d - 1) && Shaped(b, d - 1)
    ensures Shaped(Part(t, i, a, k, b), d)
    ensures Left(Part(t, i, a, k, b), d, i) == Left(t, d, i)
    ensures Right(Part(t, i, a, k, b), d, i + 1) == Right(t, d, i)
    ensures InOrder(Part(t, i, a, k, b), d) ==
      Left(t, d, i) + (InOrder(a, d - 1) + [k] + InOrder(b, d - 1)) + Right(t, d, i)
  {
    hide InOrder, Left, Right;
    var t' := Part(t, i, a, k, b);
    LeftSame(t, t', d, i);
    RightSame(t, t', d, i, i + 1);
    AroundPair(t', d, i);
  }

  lemma FuseAround(t: Tree, d: nat, i: nat, c: Tree)
    requires d > 0 && Shaped(t, d) && i < |t.keys| && Shaped(c, d - 1)
    ensures Shaped(Fuse(t, i, c), d)
    ensures InOrder(Fuse(t, i, c), d) == Left(t, d, i) + InOrder(c, d - 1) + Right(t, d, i + 1)
  {
    hide InOrder, Left, Right;
    var t' := Fuse(t, i, c);
    LeftSame(t, t', d, i);
    RightSame(t, t', d, i + 1, i);
    Around(t', d, i);
  }

  // ----- the same replacements keep a parent well formed -----

  ghost predicate GoodKid(c: Tree, d: nat, T: nat)
    requires d > 0
  {
    Wf(c, d - 1, T) && |c.keys| >= T - 1
  }

  lemma WfKids(t: Tree, d: nat, T: nat)
    requires d > 0 && Wf(t, d, T)
    ensures |t.kids| == |t.keys| + 1
    ensures forall i :: 0 <= i < |t.kids| ==> GoodKid(t.kids[i], d, T)
  {
  }

  lemma WfFromKids(t: Tree, d: nat, T: nat)
    requires d > 0 && |t.keys| <= 2 * T - 1 && |t.kids| == |t.keys| + 1
    requires forall i :: 0 <= i < |t.kids| ==> GoodKid(t.kids[i], d, T)
    ensures Wf(t, d, T)
  {
  }

  lemma SetKidWf(t: Tree, d: nat, T: nat, i: nat, c: Tree)
    requires d > 0 && Wf(t, d, T) && i <= |t.keys| && GoodKid(c, d, T)
    ensures Wf(SetKid(t, i, c), d, T)
  {
    WfKids(t, d, T);
    hide Wf, GoodKid;
    WfFromKids(SetKid(t, i, c), d, T);
  }

  lemma SetPairWf(t: Tree, d: nat, T: nat, i: nat, a: Tree, k: int, b: Tree)
    requires d > 0 && Wf(t, d, T) && i < |t.keys| && GoodKid(a, d, T) && GoodKid(b, d, T)
    ensures |t.kids| == |t.keys| + 1 && Wf(SetPair(t, i, a, k, b), d, T)
  {
    WfKids(t, d, T);
    WfFromKids(SetPair(t, i, a, k, b), d, T);
  }

  lemma PartWf(t: Tree, d: nat, T: nat, i: nat, a: Tree, k: int, b: Tree)
    requires d > 0 && Wf(t, d, T) && i <= |t.keys| < 2 * T - 1 && GoodKid(a, d, T) && GoodKid(b, d, T)
    ensures |t.kids| == |t.keys| + 1 && Wf(Part(t, i, a, k, b), d, T)
  {
    WfKids(t, d, T);
    hide Wf, GoodKid;
    WfFromKids(Part(t, i, a, k, b), d, T);
  }

  lemma FuseWf(t: Tree, d: nat, T: nat, i: nat, c: Tree)
    requires d > 0 && Wf(t, d, T) && i < |t.keys| && GoodKid(c, d, T)
    ensures |t.kids| == |t.keys| + 1 && Wf(Fuse(t, i, c), d, T)
  {
    WfKids(t, d, T);
    WfFromKids(Fuse(t, i, c), d, T);
  }
}
