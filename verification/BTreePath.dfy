/** Paths through a B-tree of src/kbtree.h, as its iterator walks them: how long they can be, and
    which keys are still to come. */
module BTreePath {
  import opened BTreeValue
  import opened Probing

  /** A node and an index in it. */
  datatype Place = Place(t: Tree, i: int)

  const KB_MAX_DEPTH := 64

  // ----- how high a tree can be -----

  /** i kids of at least m keys each, with a key after each. */
  lemma {:induction false} LeftSize(t: Tree, d: nat, i: nat, m: nat)
    requires d > 0 && Shaped(t, d) && i <= |t.keys|
    requires forall j :: 0 <= j < |t.kids| ==> |InOrder(t.kids[j], d - 1)| >= m
    ensures |Left(t, d, i)| >= i * (m + 1)
    decreases i
  {
    if i > 0 {
      LeftSize(t, d, i - 1, m);
      assert |InOrder(t.kids[i - 1], d - 1)| >= m;
      assert |Left(t, d, i)| == |Left(t, d, i - 1)| + |InOrder(t.kids[i - 1], d - 1)| + 1;
      hide *;
      OneMoreKid(i, m + 1);
    }
  }

  lemma OneMoreKid(i: nat, m: nat)
    requires i > 0
    ensures i * m == (i - 1) * m + m
  {
  }

  /** A tree of h = d + 1 levels whose root holds a key has at least 2^h - 1 keys. */
  lemma {:induction false} ManyKeys(t: Tree, d: nat, T: nat)
    requires T >= 2 && Wf(t, d, T) && Shaped(t, d) && |t.keys| >= 1
    ensures |InOrder(t, d)| >= Pow2(d + 1) - 1
    decreases d
  {
    if d > 0 {
      var m := Pow2(d) - 1;
      forall j | 0 <= j < |t.kids| ensures |InOrder(t.kids[j], d - 1)| >= m {
        ManyKeys(t.kids[j], d - 1, T);
      }
      LeftSize(t, d, |t.keys|, m);
      assert |t.keys| * (m + 1) >= 1 * (m + 1) by { Scale(|t.keys|, m + 1); }
    }
  }

  lemma Scale(a: nat, b: nat)
    requires a >= 1
    ensures a * b >= 1 * b
  {
  }

  /** n_keys is a 32-bit int, so the stack has room for every level and one entry more. */
  lemma DepthBound(t: Tree, d: nat, T: nat)
    requires T >= 2 && Wf(t, d, T) && Shaped(t, d) && |t.keys| >= 1 && |InOrder(t, d)| < 0x8000_0000
    ensures d + 2 <= 32 < KB_MAX_DEPTH
  {
    ManyKeys(t, d, T);
    if d > 30 {
      PowMono(32, d + 1);
      assert Pow2(32) == 0x1_0000_0000 by { PowersOfTwo(); }
    }
  }

  lemma PowersOfTwo()
    ensures Pow2(32) == 0x1_0000_0000
  {
    assert Pow2(8) == 256;
    assert Pow2(16) == 65536;
    assert Pow2(24) == 0x100_0000;
  }

  // ----- what is still to come -----

  /** From key i of t on, within t. */
  ghost function Rest(t: Tree, h: nat, i: nat): seq<int>
    requires Shaped(t, h) && i <= |t.keys|
  {
    if h == 0 then t.keys[i..] else Right(t, h, i)
  }

  /** The stack holds a path from the root, each entry at an index of its node. */
  ghost predicate Chain(s: seq<Place>, t: Tree, d: nat)
  {
    && 0 < |s| <= d + 1
    && s[0].t == t
    && (forall j :: 0 <= j < |s| ==> Shaped(s[j].t, d - j) && 0 <= s[j].i <= |s[j].t.keys|)
    && (forall j :: 0 <= j < |s| - 1 ==> Linked(s, j))
  }

  /** Entry j + 1 is the kid at entry j. */
  ghost predicate Linked(s: seq<Place>, j: int)
    requires 0 <= j < |s| - 1
  {
    0 <= s[j].i < |s[j].t.kids| && s[j + 1].t == s[j].t.kids[s[j].i]
  }

  /** The path without its last entry. */
  lemma ChainFront(s: seq<Place>, t: Tree, d: nat)
    requires Chain(s, t, d) && |s| > 1
    ensures Chain(s[..|s| - 1], t, d)
  {
    hide Shaped;
    var front := s[..|s| - 1];
    forall j | 0 <= j < |front| - 1 ensures Linked(front, j) {
      assert Linked(s, j);
    }
  }

  /** The keys from the current one on. */
  ghost function Remaining(s: seq<Place>, t: Tree, d: nat): seq<int>
    requires Chain(s, t, d)
    decreases |s|
  {
    var top := s[|s| - 1];
    Rest(top.t, d - (|s| - 1), top.i) + if |s| == 1 then [] else ChainFront(s, t, d); Remaining(s[..|s| - 1], t, d)
  }

  function Top(s: seq<Place>): Place requires s != [] { s[|s| - 1] }

  /** What is to come once the kid at the top entry has been entered; in a leaf there is none. */
  ghost function Pending(s: seq<Place>, t: Tree, d: nat): seq<int>
    requires Chain(s, t, d)
  {
    var top, h := Top(s), d - (|s| - 1);
    if h == 0 then Remaining(s, t, d) else InOrder(top.t.kids[top.i], h - 1) + Remaining(s, t, d)
  }

  lemma ChainTop(s: seq<Place>, t: Tree, d: nat)
    requires Chain(s, t, d)
    ensures 0 < |s| <= d + 1 && 0 <= Top(s).i <= |Top(s).t.keys| && Shaped(Top(s).t, d - (|s| - 1))
    ensures Top(s).t.kids == [] <==> |s| == d + 1
    ensures |s| <= d ==> |Top(s).t.kids| == |Top(s).t.keys| + 1
  {
  }

  /** The kid at the top entry is pushed. */
  function Pushed(s: seq<Place>, c: Tree): (s': seq<Place>)
    ensures |s'| == |s| + 1 && Top(s') == Place(c, 0) && s'[..|s|] == s
  {
    s + [Place(c, 0)]
  }

  lemma ChainPush(s: seq<Place>, t: Tree, d: nat)
    requires Chain(s, t, d) && |s| <= d
    ensures Top(s).i < |Top(s).t.kids|
    ensures Chain(Pushed(s, Top(s).t.kids[Top(s).i]), t, d)
  {
    hide Shaped, Pushed;
    ChainTop(s, t, d);
    KidShaped(Top(s).t, d - (|s| - 1), Top(s).i);
    var s' := Pushed(s, Top(s).t.kids[Top(s).i]);
    PushedAt(s, Top(s).t.kids[Top(s).i]);
    forall j | 0 <= j < |s'| - 1 ensures Linked(s', j) {
      if j < |s| - 1 {
        assert Linked(s, j);
      }
    }
  }

  lemma PushedAt(s: seq<Place>, c: Tree)
    ensures |Pushed(s, c)| == |s| + 1 && Pushed(s, c)[|s|] == Place(c, 0)
    ensures forall j :: 0 <= j < |s| ==> Pushed(s, c)[j] == s[j]
  {
  }

  lemma KidShaped(t: Tree, h: nat, i: nat)
    requires Shaped(t, h) && h > 0 && i < |t.kids|
    ensures Shaped(t.kids[i], h - 1) && |t.kids| == |t.keys| + 1
  {
  }

  lemma RestFirst(t: Tree, h: nat)
    requires Shaped(t, h)
    ensures if h == 0 then Rest(t, h, 0) == InOrder(t, h)
      else InOrder(t, h) == InOrder(t.kids[0], h - 1) + Rest(t, h, 0)
  {
    if h > 0 {
      Around(t, h, 0);
      assert Left(t, h, 0) == [];
    }
  }

  /** Entering a kid keeps what is to come. */
  lemma PendingPush(s: seq<Place>, t: Tree, d: nat)
    requires Chain(s, t, d) && |s| <= d
    ensures Top(s).i < |Top(s).t.kids|
    ensures var s' := Pushed(s, Top(s).t.kids[Top(s).i]);
      Chain(s', t, d) && Pending(s', t, d) == Pending(s, t, d)
  {
    ChainPush(s, t, d);
    ChainTop(s, t, d);
    hide Chain, Remaining, Rest, InOrder, Shaped, Pushed, Top;
    var c := Top(s).t.kids[Top(s).i];
    RemainingIs(s, t, d);
    RemainingIs(Pushed(s, c), t, d);
    RestFirst(c, d - |s|);
    var r := Remaining(s, t, d);
    if d - |s| > 0 {
      var m, n := InOrder(c.kids[0], d - |s| - 1), Rest(c, d - |s|, 0);
      assert Pending(Pushed(s, c), t, d) == m + (n + r);
      Assoc(m, n, r);
    }
  }

  lemma Assoc(a: seq<int>, b: seq<int>, c: seq<int>)
    ensures (a + b) + c == a + (b + c)
  {
  }

  lemma RemainingIs(s: seq<Place>, t: Tree, d: nat)
    requires Chain(s, t, d)
    ensures 0 < |s| <= d + 1 && Shaped(Top(s).t, d - (|s| - 1)) && 0 <= Top(s).i <= |Top(s).t.keys|
    ensures |s| > 1 ==> Chain(s[..|s| - 1], t, d)
    ensures Remaining(s, t, d) == Rest(Top(s).t, d - (|s| - 1), Top(s).i) + if |s| == 1 then []
      else Remaining(s[..|s| - 1], t, d)
  {
    if |s| > 1 {
      ChainFront(s, t, d);
    }
  }

  lemma ChainRoot(t: Tree, d: nat)
    requires Shaped(t, d)
    ensures Chain([Place(t, 0)], t, d)
  {
  }

  /** At the root, everything is to come. */
  lemma PendingRoot(t: Tree, d: nat)
    requires Shaped(t, d)
    ensures Chain([Place(t, 0)], t, d) && Pending([Place(t, 0)], t, d) == InOrder(t, d)
  {
    hide Chain, Remaining, Rest, InOrder, Shaped;
    RestFirst(t, d);
    ChainRoot(t, d);
    RemainingIs([Place(t, 0)], t, d);
  }

  lemma ChainAdvance(s: seq<Place>, t: Tree, d: nat)
    requires Chain(s, t, d) && Top(s).i < |Top(s).t.keys|
    ensures Chain(Advanced(s), t, d)
  {
    hide Shaped;
    var s' := Advanced(s);
    forall j | 0 <= j < |s'| - 1 ensures Linked(s', j) {
      assert Linked(s, j);
    }
  }

  function Advanced(s: seq<Place>): seq<Place>
    requires s != []
  {
    s[|s| - 1 := Place(Top(s).t, Top(s).i + 1)]
  }

  lemma AdvancedFront(s: seq<Place>)
    requires s != []
    ensures |Advanced(s)| == |s| && Top(Advanced(s)) == Place(Top(s).t, Top(s).i + 1)
    ensures Advanced(s)[..|s| - 1] == s[..|s| - 1]
  {
  }

  lemma AdvancedParts(s: seq<Place>, t: Tree, d: nat) returns (u: seq<int>)
    requires Chain(s, t, d) && Top(s).i < |Top(s).t.keys|
    ensures s != [] && Chain(Advanced(s), t, d) && |s| <= d + 1 && Shaped(Top(s).t, d - (|s| - 1)) && 0 <= Top(s).i
    ensures Remaining(s, t, d) == Rest(Top(s).t, d - (|s| - 1), Top(s).i) + u
    ensures Remaining(Advanced(s), t, d) == Rest(Top(s).t, d - (|s| - 1), Top(s).i + 1) + u
  {
    hide Chain, Remaining, Rest, InOrder, Shaped, Advanced, Top;
    RemainingIs(s, t, d);
    AdvancedFront(s);
    ChainAdvance(s, t, d);
    RemainingIs(Advanced(s), t, d);
    u := if |s| == 1 then [] else Remaining(s[..|s| - 1], t, d);
  }

  /** The index at the top is advanced past a key. */
  lemma Advance(s: seq<Place>, t: Tree, d: nat)
    requires Chain(s, t, d) && Top(s).i < |Top(s).t.keys|
    ensures Chain(Advanced(s), t, d)
    ensures Remaining(s, t, d) == [Top(s).t.keys[Top(s).i]] + Pending(Advanced(s), t, d)
  {
    hide Chain, Remaining, Rest, InOrder, Shaped, Right, Left, Advanced, Top;
    var u := AdvancedParts(s, t, d);
    AdvancedFront(s);
    ChainTop(Advanced(s), t, d);
    var top, h := Top(s), d - (|s| - 1);
    ChainTop(s, t, d);
    RestStep(top.t, h, top.i);
    var m := if h == 0 then [] else InOrder(top.t.kids[top.i + 1], h - 1);
    var k, r := [top.t.keys[top.i]], Rest(top.t, h, top.i + 1);
    EmptyFirst(r + u);
    Regrouped(k, m, r, u);
  }

  lemma EmptyFirst(a: seq<int>)
    ensures [] + a == a
  {
  }

  lemma Regrouped(a: seq<int>, b: seq<int>, c: seq<int>, e: seq<int>)
    ensures (a + b + c) + e == a + (b + (c + e))
  {
  }

  lemma RestStep(t: Tree, h: nat, i: nat)
    requires Shaped(t, h) && i < |t.keys|
    ensures Rest(t, h, i) == [t.keys[i]] + (if h == 0 then [] else InOrder(t.kids[i + 1], h - 1)) + Rest(t, h, i + 1)
  {
  }

  /** An entry with no key left is popped. */
  lemma PopSpent(s: seq<Place>, t: Tree, d: nat)
    requires Chain(s, t, d) && Top(s).i == |Top(s).t.keys|
    ensures if |s| == 1 then Remaining(s, t, d) == []
            else Chain(s[..|s| - 1], t, d) && Remaining(s, t, d) == Remaining(s[..|s| - 1], t, d)
  {
    hide Chain, Remaining, Rest, InOrder, Shaped, Top;
    RemainingIs(s, t, d);
    RestNone(Top(s).t, d - (|s| - 1));
  }

  lemma RestNone(t: Tree, h: nat)
    requires Shaped(t, h)
    ensures Rest(t, h, |t.keys|) == []
  {
  }

  /** Entering a kid keeps what is pending; in a leaf, it is what remains. */
  lemma InnerOrLeaf(s: seq<Place>, t: Tree, d: nat)
    requires Chain(s, t, d)
    ensures 0 < |s| <= d + 1 && 0 <= Top(s).i <= |Top(s).t.keys|
    ensures Top(s).t.kids == [] ==> |s| == d + 1 && Pending(s, t, d) == Remaining(s, t, d)
    ensures Top(s).t.kids != [] ==> |s| <= d && Top(s).i < |Top(s).t.kids|
    ensures Top(s).t.kids != [] ==>
      (var s' := Pushed(s, Top(s).t.kids[Top(s).i]);
       Chain(s', t, d) && Pending(s', t, d) == Pending(s, t, d))
  {
    ChainTop(s, t, d);
    if |s| <= d {
      PendingPush(s, t, d);
    }
  }

  lemma KeyLeft(s: seq<Place>, t: Tree, d: nat)
    requires Chain(s, t, d) && Top(s).i < |Top(s).t.keys|
    ensures |s| <= d + 1 && 0 <= Top(s).i && Remaining(s, t, d) != []
  {
    ChainTop(s, t, d);
    Advance(s, t, d);
  }

  lemma WfKid0(t: Tree, h: nat, T: nat)
    requires T >= 2 && Wf(t, h, T) && t.kids != []
    ensures h > 0 && Wf(t.kids[0], h - 1, T) && |t.kids[0].keys| >= 1
  {
  }

  /** One level down the leftmost path. */
  lemma StepDown(s: seq<Place>, t: Tree, d: nat, T: nat)
    requires Chain(s, t, d) && Top(s).i == 0 && Top(s).t.kids != []
    requires T >= 2 && |s| <= d + 1 && Wf(Top(s).t, d - (|s| - 1), T)
    ensures |s| <= d
    ensures var c := Top(s).t.kids[0];
      && Chain(Pushed(s, c), t, d) && Pending(Pushed(s, c), t, d) == Pending(s, t, d)
      && Wf(c, d - |s|, T) && |c.keys| >= 1
  {
    ChainTop(s, t, d);
    WfKid0(Top(s).t, d - (|s| - 1), T);
    hide *;
    PendingPush(s, t, d);
  }

  /** In a leaf, nothing is pending but what remains. */
  lemma AtLeaf(s: seq<Place>, t: Tree, d: nat)
    requires Chain(s, t, d) && Top(s).t.kids == []
    ensures |s| == d + 1 && Pending(s, t, d) == Remaining(s, t, d)
  {
    ChainTop(s, t, d);
  }
}
