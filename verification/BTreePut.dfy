/** Searching and inserting in the B-tree of src/kbtree.h, on tree values. */
module BTreePut {
  import opened SortedSeq
  import opened BTreeValue

  // ----- the position of a key in a node -----

  /** The number of leading keys below k. */
  function LowerBound(keys: seq<int>, k: int): (b: nat)
    ensures b <= |keys|
    ensures forall i :: 0 <= i < b ==> keys[i] < k
    ensures b < |keys| ==> k <= keys[b]
  {
    if keys == [] || k <= keys[0] then 0 else 1 + LowerBound(keys[1..], k)
  }

  lemma LowerBoundUnique(keys: seq<int>, k: int, b: nat)
    requires b <= |keys|
    requires forall i :: 0 <= i < b ==> keys[i] < k
    requires b < |keys| ==> k <= keys[b]
    ensures LowerBound(keys, k) == b
  {
    assert LowerBound(keys, k) <= |keys|;
  }

  /** What __kb_getp_aux returns: an index i and the comparison r of k with key i, such
      that kid i+1 is the one to look in when r is not 0. */
  function Aux(keys: seq<int>, k: int): (ir: (int, int))
    ensures -1 <= ir.0 < |keys|
  {
    var b := LowerBound(keys, k);
    if |keys| == 0 then (-1, 0)
    else if b == |keys| then (b - 1, 1)
    else if k < keys[b] then (b - 1, -1)
    else (b, 0)
  }

  /** The binary search of __kb_getp_aux. */
  method GetAux(keys: seq<int>, k: int) returns (i: int, r: int)
    requires Sorted(keys)
    ensures (i, r) == Aux(keys, k)
  {
    var begin, end := 0, |keys|;
    if |keys| == 0 {
      return -1, 0;
    }
    while begin < end
      invariant 0 <= begin <= end <= |keys|
      invariant forall j :: 0 <= j < begin ==> keys[j] < k
      invariant forall j :: end <= j < |keys| ==> k <= keys[j]
    {
      var mid := (begin + end) / 2;
      if keys[mid] < k {
        begin := mid + 1;
      } else {
        end := mid;
      }
    }
    LowerBoundUnique(keys, k, begin);
    if begin == |keys| {
      return |keys| - 1, 1;
    }
    if k < keys[begin] {
      return begin - 1, -1;
    }
    return begin, 0;
  }

  /** Keys i and before are at most k, keys after i at least k. */
  lemma AuxPlace(keys: seq<int>, k: int)
    requires Sorted(keys)
    ensures forall j :: 0 <= j <= Aux(keys, k).0 ==> keys[j] <= k
    ensures forall j :: Aux(keys, k).0 < j < |keys| ==> k <= keys[j]
    ensures |keys| > 0 && Aux(keys, k).1 == 0 ==> Aux(keys, k).0 >= 0 && keys[Aux(keys, k).0] == k
    ensures k in keys <==> |keys| > 0 && Aux(keys, k).1 == 0
  {
    if k in keys {
      var j :| 0 <= j < |keys| && keys[j] == k;
      var b := LowerBound(keys, k);
      assert b <= j;
    }
  }

  // ----- what order in the whole tree says about one node -----

  /** The keys of a node are in order, everything left of kid i is at most key i-1 and
      everything right of it at least key i. */
  lemma {:induction false} NodeOrder(t: Tree, d: nat, i: nat)
    requires d > 0 && Shaped(t, d) && i <= |t.keys| && Sorted(InOrder(t, d))
    ensures Sorted(Left(t, d, i)) && Sorted(InOrder(t.kids[i], d - 1)) && Sorted(Right(t, d, i))
    ensures i > 0 ==> t.keys[i - 1] in Left(t, d, i) && AllLe(Left(t, d, i), t.keys[i - 1])
    ensures i < |t.keys| ==> t.keys[i] in Right(t, d, i) && AllGe(Right(t, d, i), t.keys[i])
    ensures i > 0 ==> AllGe(InOrder(t.kids[i], d - 1), t.keys[i - 1])
    ensures i < |t.keys| ==> AllLe(InOrder(t.kids[i], d - 1), t.keys[i])
  {
    var l, m, r := Left(t, d, i), InOrder(t.kids[i], d - 1), Right(t, d, i);
    Around(t, d, i);
    SortedParts(l, m, r);
    if i > 0 {
      assert l[|l| - 1] == t.keys[i - 1];
      assert t.keys[i - 1] in l;
      forall j | 0 <= j < |m| ensures m[j] >= t.keys[i - 1] { assert m[j] in m; }
    }
    if i < |t.keys| {
      assert r[0] == t.keys[i];
      assert t.keys[i] in r;
      forall j | 0 <= j < |m| ensures m[j] <= t.keys[i] { assert m[j] in m; }
    }
  }

  lemma NodeKeysSorted(t: Tree, d: nat)
    requires Shaped(t, d) && Sorted(InOrder(t, d))
    ensures Sorted(t.keys)
  {
    if d > 0 {
      forall i, j | 0 <= i < j < |t.keys| ensures t.keys[i] <= t.keys[j] {
        NodeKeyPair(t, d, i, j);
      }
    }
  }

  lemma NodeKeyPair(t: Tree, d: nat, i: nat, j: nat)
    requires d > 0 && Shaped(t, d) && Sorted(InOrder(t, d)) && i < j < |t.keys|
    ensures t.keys[i] <= t.keys[j]
  {
    NodeOrder(t, d, j);
    LeftHasKey(t, d, j, i);
    ShapedKids(t, d);
    hide *;
    Around(t, d, j);
    SortedParts(Left(t, d, j), InOrder(t.kids[j], d - 1), Right(t, d, j));
  }

  lemma {:induction false} LeftHasKey(t: Tree, d: nat, j: nat, i: nat)
    requires d > 0 && Shaped(t, d) && i < j <= |t.keys|
    ensures t.keys[i] in Left(t, d, j)
  {
    if i < j - 1 {
      LeftHasKey(t, d, j - 1, i);
    }
  }

  /** Everything before kid i is at most k, everything after it at least k. */
  ghost predicate Placed(t: Tree, d: nat, i: nat, k: int)
  {
    d > 0 && Shaped(t, d) && i <= |t.keys| && AllLe(Left(t, d, i), k) && AllGe(Right(t, d, i), k)
  }

  /** The kid a search for k goes into. */
  lemma KidPlace(t: Tree, d: nat, k: int, i: nat)
    requires d > 0 && Shaped(t, d) && Sorted(InOrder(t, d)) && i <= |t.keys|
    requires i > 0 ==> t.keys[i - 1] <= k
    requires i < |t.keys| ==> k <= t.keys[i]
    ensures Placed(t, d, i, k)
  {
    NodeOrder(t, d, i);
    if i == |t.keys| {
      assert Right(t, d, i) == [];
    }
  }

  // ----- looking a key up -----

  /** kb_getp */
  function Contains(t: Tree, k: int, d: nat): bool
    requires Shaped(t, d)
    decreases d
  {
    var (i, r) := Aux(t.keys, k);
    if i >= 0 && r == 0 then true
    else if d == 0 then false
    else Contains(t.kids[i + 1], k, d - 1)
  }

  /** The descent finds a key exactly when the tree holds it. */
  lemma {:induction false} ContainsIff(t: Tree, k: int, d: nat)
    requires Shaped(t, d) && Sorted(InOrder(t, d))
    ensures Contains(t, k, d) <==> k in InOrder(t, d)
    decreases d
  {
    NodeKeysSorted(t, d);
    AuxPlace(t.keys, k);
    var (i, r) := Aux(t.keys, k);
    if d > 0 {
      if i >= 0 && r == 0 {
        LeftHasKey(t, d, |t.keys|, i);
      } else {
        hide InOrder, Left, Right, Sorted;
        NotBeside(t, d, i + 1, k);
        Around(t, d, i + 1);
        KidSorted(t, d, i + 1);
        ContainsIff(t.kids[i + 1], k, d - 1);
      }
    }
  }

  /** A key strictly between key i-1 and key i is neither left nor right of kid i. */
  lemma NotBeside(t: Tree, d: nat, i: nat, k: int)
    requires d > 0 && Shaped(t, d) && Sorted(InOrder(t, d)) && i <= |t.keys|
    requires i > 0 ==> t.keys[i - 1] < k
    requires i < |t.keys| ==> k < t.keys[i]
    ensures k !in Left(t, d, i) && k !in Right(t, d, i)
  {
    NodeOrder(t, d, i);
    if i == |t.keys| {
      assert Right(t, d, i) == [];
    }
  }

  // ----- splitting -----

  function Lower(y: Tree, T: nat): Tree
    requires 1 <= T <= |y.keys|
  {
    Node(y.keys[..T - 1], if |y.kids| < T then [] else y.kids[..T])
  }

  function Upper(y: Tree, T: nat): Tree
    requires T <= |y.keys|
  {
    Node(y.keys[T..], if |y.kids| < T then [] else y.kids[T..])
  }

  /** A full node is its lower half, its middle key and its upper half. */
  lemma Halves(y: Tree, d: nat, T: nat)
    requires T >= 1 && Wf(y, d, T) && |y.keys| == 2 * T - 1
    ensures Wf(Lower(y, T), d, T) && Wf(Upper(y, T), d, T)
    ensures |Lower(y, T).keys| == T - 1 == |Upper(y, T).keys|
    ensures y == Join(Lower(y, T), y.keys[T - 1], Upper(y, T))
  {
    assert y.keys == y.keys[..T - 1] + [y.keys[T - 1]] + y.keys[T..];
    if d > 0 {
      assert y.kids == y.kids[..T] + y.kids[T..];
    }
  }

  lemma WfKid(t: Tree, i: nat, d: nat, T: nat)
    requires d > 0 && Wf(t, d, T) && i < |t.kids|
    ensures Wf(t.kids[i], d - 1, T) && T - 1 <= |t.kids[i].keys| <= 2 * T - 1
    ensures t.kids[i].kids == [] || |t.kids[i].kids| == |t.kids[i].keys| + 1
  {
  }

  /** __kb_split: the full kid i of t is split around its middle key. */
  function Split(t: Tree, i: nat, T: nat): Tree
    requires i < |t.kids| && i <= |t.keys| && 1 <= T <= |t.kids[i].keys|
  {
    var y := t.kids[i];
    Part(t, i, Lower(y, T), y.keys[T - 1], Upper(y, T))
  }

  lemma SplitWf(t: Tree, i: nat, d: nat, T: nat)
    requires T >= 1 && d > 0 && Wf(t, d, T) && i <= |t.keys| < 2 * T - 1
    requires |t.kids[i].keys| == 2 * T - 1
    ensures Wf(Split(t, i, T), d, T) && |Split(t, i, T).keys| == |t.keys| + 1
    ensures |Split(t, i, T).kids[i].keys| == T - 1 == |Split(t, i, T).kids[i + 1].keys|
  {
    var y := t.kids[i];
    Halves(y, d - 1, T);
    PartWf(t, d, T, i, Lower(y, T), y.keys[T - 1], Upper(y, T));
  }

  /** Splitting moves nothing in the in-order reading. */
  lemma SplitInOrder(t: Tree, i: nat, d: nat, T: nat)
    requires T >= 1 && d > 0 && Wf(t, d, T) && i <= |t.keys|
    requires |t.kids[i].keys| == 2 * T - 1
    ensures Shaped(t, d) && Shaped(Split(t, i, T), d)
    ensures InOrder(Split(t, i, T), d) == InOrder(t, d)
  {
    hide InOrder, Left, Right, Wf, Shaped;
    WfShaped(t, d, T);
    ShapedKids(t, d);
    var y := t.kids[i];
    WfKid(t, i, d, T);
    Halves(y, d - 1, T);
    WfShaped(Lower(y, T), d - 1, T);
    WfShaped(Upper(y, T), d - 1, T);
    PartAround(t, d, i, Lower(y, T), y.keys[T - 1], Upper(y, T));
    JoinInOrder(Lower(y, T), y.keys[T - 1], Upper(y, T), d - 1);
    Around(t, d, i);
  }

  // ----- inserting -----

  /** Which kid __kb_putp_aux enters, after the split it makes when that kid is full. */
  function Enter(t: Tree, k: int, d: nat, T: nat): (ti: (Tree, nat))
    requires T >= 2 && d > 0 && Wf(t, d, T) && |t.keys| < 2 * T - 1
    ensures Wf(ti.0, d, T) && |t.keys| <= |ti.0.keys| <= |t.keys| + 1
    ensures ti.1 <= |ti.0.keys| && |ti.0.kids[ti.1].keys| < 2 * T - 1
  {
    var i: nat := Aux(t.keys, k).0 + 1;
    WfKid(t, i, d, T);
    if |t.kids[i].keys| == 2 * T - 1 then
      SplitWf(t, i, d, T);
      var t1 := Split(t, i, T);
      (t1, if k > t1.keys[i] then i + 1 else i)
    else
      (t, i)
  }

  /** __kb_putp_aux */
  function PutAux(t: Tree, k: int, d: nat, T: nat): (t': Tree)
    requires T >= 2 && Wf(t, d, T) && |t.keys| < 2 * T - 1
    ensures Wf(t', d, T) && |t.keys| <= |t'.keys| <= |t.keys| + 1
    decreases d
  {
    if d == 0 then
      var i := Aux(t.keys, k).0;
      Node(t.keys[..i + 1] + [k] + t.keys[i + 1..], [])
    else
      var (t1, i) := Enter(t, k, d, T);
      SetKid(t1, i, PutAux(t1.kids[i], k, d - 1, T))
  }

  /** The new root put above a full one, before it is split. */
  lemma RootWf(t: Tree, d: nat, T: nat)
    requires T >= 2 && Wf(t, d, T) && |t.keys| == 2 * T - 1
    ensures Wf(Node([], [t]), d + 1, T)
    ensures Shaped(t, d) && Shaped(Node([], [t]), d + 1)
    ensures InOrder(Node([], [t]), d + 1) == InOrder(t, d)
  {
    WfShaped(t, d, T);
    var s := Node([], [t]);
    assert s.kids[0] == t;
    assert Left(s, d + 1, 0) == [];
  }

  /** kb_putp: the new root and its height. */
  function Put(t: Tree, k: int, d: nat, T: nat): (td: (Tree, nat))
    requires T >= 2 && Wf(t, d, T)
    ensures Wf(td.0, td.1, T)
  {
    if |t.keys| == 2 * T - 1 then
      (PutAux(Grow(t, d, T), k, d + 1, T), d + 1)
    else
      (PutAux(t, k, d, T), d)
  }

  /** The full root under a new root, split. */
  function Grow(t: Tree, d: nat, T: nat): (s: Tree)
    requires T >= 2 && Wf(t, d, T) && |t.keys| == 2 * T - 1
    ensures Wf(s, d + 1, T) && |s.keys| == 1
  {
    RootWf(t, d, T);
    SplitWf(Node([], [t]), 0, d + 1, T);
    Split(Node([], [t]), 0, T)
  }

  lemma EnterInOrder(t: Tree, k: int, d: nat, T: nat)
    requires T >= 2 && d > 0 && Wf(t, d, T) && |t.keys| < 2 * T - 1
    requires Shaped(t, d) && Sorted(InOrder(t, d))
    ensures Shaped(Enter(t, k, d, T).0, d) && InOrder(Enter(t, k, d, T).0, d) == InOrder(t, d)
    ensures Placed(Enter(t, k, d, T).0, d, Enter(t, k, d, T).1, k)
  {
    var i := EnterIs(t, k, d, T);
    EnterPlace(t, k, d, i);
    hide *;
    if |t.kids[i].keys| != 2 * T - 1 {
      KidPlace(t, d, k, i);
    } else {
      SplitInOrder(t, i, d, T);
      SplitKeys(t, i, T);
      if k > Split(t, i, T).keys[i] {
        SplitPlaceRight(t, k, i, d, T);
      } else {
        SplitPlaceLeft(t, k, i, d, T);
      }
    }
  }

  lemma EnterIs(t: Tree, k: int, d: nat, T: nat) returns (i: nat)
    requires T >= 2 && d > 0 && Wf(t, d, T) && |t.keys| < 2 * T - 1
    ensures i == Aux(t.keys, k).0 + 1 && i <= |t.keys| && |t.kids| == |t.keys| + 1
    ensures T - 1 <= |t.kids[i].keys|
    ensures |t.kids[i].keys| != 2 * T - 1 ==> Enter(t, k, d, T) == (t, i)
    ensures |t.kids[i].keys| == 2 * T - 1 ==> |Split(t, i, T).keys| == |t.keys| + 1
    ensures |t.kids[i].keys| == 2 * T - 1 ==>
      Enter(t, k, d, T) == (Split(t, i, T), if k > Split(t, i, T).keys[i] then i + 1 else i)
  {
    i := Aux(t.keys, k).0 + 1;
    WfKid(t, i, d, T);
    if |t.kids[i].keys| == 2 * T - 1 {
      SplitKeys(t, i, T);
    }
    hide Wf, Split, Aux;
  }

  lemma EnterPlace(t: Tree, k: int, d: nat, i: nat)
    requires d > 0 && Shaped(t, d) && Sorted(InOrder(t, d)) && i == Aux(t.keys, k).0 + 1
    ensures i > 0 ==> t.keys[i - 1] <= k
    ensures i < |t.keys| ==> k <= t.keys[i]
  {
    NodeKeysSorted(t, d);
    AuxPlace(t.keys, k);
  }

  lemma SplitPlaceRight(t: Tree, k: int, i: nat, d: nat, T: nat)
    requires T >= 2 && d > 0 && i <= |t.keys| && |t.kids| == |t.keys| + 1 && |t.kids[i].keys| >= T
    requires Shaped(Split(t, i, T), d) && Sorted(InOrder(Split(t, i, T), d))
    requires i < |t.keys| ==> k <= t.keys[i]
    requires |Split(t, i, T).keys| == |t.keys| + 1 && Split(t, i, T).keys[i] < k
    ensures Placed(Split(t, i, T), d, i + 1, k)
  {
    SplitKeys(t, i, T);
    hide InOrder, Sorted, Placed, Shaped, Split;
    KidPlace(Split(t, i, T), d, k, i + 1);
  }

  lemma SplitPlaceLeft(t: Tree, k: int, i: nat, d: nat, T: nat)
    requires T >= 2 && d > 0 && i <= |t.keys| && |t.kids| == |t.keys| + 1 && |t.kids[i].keys| >= T
    requires Shaped(Split(t, i, T), d) && Sorted(InOrder(Split(t, i, T), d))
    requires i > 0 ==> t.keys[i - 1] <= k
    requires |Split(t, i, T).keys| == |t.keys| + 1 && k <= Split(t, i, T).keys[i]
    ensures Placed(Split(t, i, T), d, i, k)
  {
    SplitKeys(t, i, T);
    hide InOrder, Sorted, Placed, Shaped, Split;
    KidPlace(Split(t, i, T), d, k, i);
  }

  lemma SplitKeys(t: Tree, i: nat, T: nat)
    requires i < |t.kids| && i <= |t.keys| && 1 <= T <= |t.kids[i].keys|
    ensures |Split(t, i, T).keys| == |t.keys| + 1
    ensures i > 0 ==> Split(t, i, T).keys[i - 1] == t.keys[i - 1]
    ensures i < |t.keys| ==> Split(t, i, T).keys[i + 1] == t.keys[i]
  {
  }

  lemma ShapedKids(t: Tree, d: nat)
    requires Shaped(t, d) && d > 0
    ensures |t.kids| == |t.keys| + 1
    ensures forall i :: 0 <= i < |t.kids| ==> Shaped(t.kids[i], d - 1)
  {
  }

  lemma KidSorted(t: Tree, d: nat, i: nat)
    requires d > 0 && Shaped(t, d) && Sorted(InOrder(t, d)) && i <= |t.keys|
    ensures Sorted(InOrder(t.kids[i], d - 1))
  {
    Around(t, d, i);
    SortedParts(Left(t, d, i), InOrder(t.kids[i], d - 1), Right(t, d, i));
  }

  lemma PutLeaf(t: Tree, k: int, T: nat)
    requires T >= 2 && Wf(t, 0, T) && |t.keys| < 2 * T - 1
    requires Sorted(InOrder(t, 0))
    ensures Shaped(PutAux(t, k, 0, T), 0)
    ensures InOrder(PutAux(t, k, 0, T), 0) == Insert(InOrder(t, 0), k)
  {
    AuxPlace(t.keys, k);
    InsertAt(t.keys, k, Aux(t.keys, k).0 + 1);
  }

  /** Inserting puts exactly one more k into the in-order reading, in its place. */
  lemma {:induction false} PutAuxInOrder(t: Tree, k: int, d: nat, T: nat)
    requires T >= 2 && Wf(t, d, T) && |t.keys| < 2 * T - 1
    requires Shaped(t, d) && Sorted(InOrder(t, d))
    ensures Shaped(PutAux(t, k, d, T), d)
    ensures InOrder(PutAux(t, k, d, T), d) == Insert(InOrder(t, d), k)
    decreases d, 1
  {
    if d == 0 {
      PutLeaf(t, k, T);
    } else {
      PutInner(t, k, d, T);
    }
  }

  lemma {:induction false} PutInner(t: Tree, k: int, d: nat, T: nat)
    requires T >= 2 && Wf(t, d, T) && |t.keys| < 2 * T - 1 && d > 0
    requires Shaped(t, d) && Sorted(InOrder(t, d))
    ensures Shaped(PutAux(t, k, d, T), d)
    ensures InOrder(PutAux(t, k, d, T), d) == Insert(InOrder(t, d), k)
    decreases d, 0
  {
    hide *;
    PutAuxEnter(t, k, d, T);
    var (t1, i) := Enter(t, k, d, T);
    EnterInOrder(t, k, d, T);
    PlacedFacts(t1, d, i, k);
    ShapedKids(t1, d);
    WfKid(t1, i, d, T);
    Around(t1, d, i);
    KidSorted(t1, d, i);
    PutAuxInOrder(t1.kids[i], k, d - 1, T);
    SetKidAround(t1, d, i, PutAux(t1.kids[i], k, d - 1, T));
    InsertMiddle(Left(t1, d, i), InOrder(t1.kids[i], d - 1), Right(t1, d, i), k);
  }

  lemma PutAuxEnter(t: Tree, k: int, d: nat, T: nat)
    requires T >= 2 && Wf(t, d, T) && |t.keys| < 2 * T - 1 && d > 0
    ensures var (t1, i) := Enter(t, k, d, T);
      |t1.kids| == |t1.keys| + 1 && Wf(t1.kids[i], d - 1, T)
        && PutAux(t, k, d, T) == SetKid(t1, i, PutAux(t1.kids[i], k, d - 1, T))
  {
    hide Enter;
  }

  lemma PlacedFacts(t: Tree, d: nat, i: nat, k: int)
    requires Placed(t, d, i, k)
    ensures d > 0 && Shaped(t, d) && i <= |t.keys| && AllLe(Left(t, d, i), k) && AllGe(Right(t, d, i), k)
  {
    hide AllLe, AllGe, Left, Right, Shaped;
  }

  lemma RoomInRoot(t: Tree, d: nat, T: nat)
    requires Wf(t, d, T) && |t.keys| != 2 * T - 1
    ensures |t.keys| < 2 * T - 1
  {
  }

  /** kb_putp on any well-formed tree in order: the result is well formed, in order, and
      holds one k more than before and nothing else. */
  lemma PutInOrder(t: Tree, k: int, d: nat, T: nat)
    requires T >= 2 && Wf(t, d, T)
    requires Shaped(t, d) && Sorted(InOrder(t, d))
    ensures var (t', d') := Put(t, k, d, T);
      && Wf(t', d', T) && Shaped(t', d')
      && InOrder(t', d') == Insert(InOrder(t, d), k)
      && Sorted(InOrder(t', d'))
      && multiset(InOrder(t', d')) == multiset(InOrder(t, d)) + multiset{k}
  {
    hide InOrder, Left, Right, Wf, Shaped, PutAux, Split;
    if |t.keys| == 2 * T - 1 {
      RootWf(t, d, T);
      SplitInOrder(Node([], [t]), 0, d + 1, T);
      PutAuxInOrder(Grow(t, d, T), k, d + 1, T);
    } else {
      RoomInRoot(t, d, T);
      PutAuxInOrder(t, k, d, T);
    }
    InsertKeeps(InOrder(t, d), k);
  }
}
