/** The iterator of src/kbtree.h: an explicit stack of positions, kept in an array of
    KB_MAX_DEPTH entries, walks the nodes of a tree and yields every key once in ascending order. */
module BTreeItr {
  import opened BTreeValue
  import opened BTreeNodes
  import opened BTreeRuns
  import opened BTreeObject
  import opened BTreePath

  /** kbpos_t: a node, or null, and an index in it. */
  datatype Pos = Pos(x: KbNode?, i: int)

  /** A stack entry is the place pl, at height h. */
  ghost predicate At(pos: Pos, s: Shape, pl: Place, h: int, repr: set<KbNode>)
    reads repr
  {
    pos.x == s.node && pos.i == pl.i && Nodes(s) <= repr && h >= 0 && Hung(s, pl.t, h)
  }

  lemma AtNode(pos: Pos, s: Shape, pl: Place, h: int, repr: set<KbNode>)
    requires At(pos, s, pl, h, repr)
    ensures pos.x != null && pos.i == pl.i && pos.x.keys == pl.t.keys
    ensures h >= 0 && pos.x.internal == (h > 0) && |pos.x.kids| == |pl.t.kids|
    ensures h == 0 ==> pl.t.kids == []
  {
    hide Hung, Nodes;
    AtHung(pos, s, pl, h, repr);
    Unhang(s, pl.t, h);
  }

  lemma AtHung(pos: Pos, s: Shape, pl: Place, h: int, repr: set<KbNode>)
    requires At(pos, s, pl, h, repr)
    ensures pos.x == s.node && pos.i == pl.i && h >= 0 && Nodes(s) <= repr && Hung(s, pl.t, h)
  {
    hide Hung, Nodes;
  }

  /** The entry for kid i of a node on the stack. */
  lemma AtKid(pos: Pos, s: Shape, pl: Place, h: int, repr: set<KbNode>, i: nat)
    requires At(pos, s, pl, h, repr) && h > 0 && i < |pl.t.kids|
    ensures pos.x != null && i < |s.kids| && i < |pos.x.kids| && pos.x.kids[i] == s.kids[i].node
    ensures At(Pos(pos.x.kids[i], 0), s.kids[i], Place(pl.t.kids[i], 0), h - 1, repr)
  {
    hide Hung, Nodes, NodesOf;
    AtHung(pos, s, pl, h, repr);
    Unhang(s, pl.t, h);
    Loosen(s, pl.t, i, h);
  }

  lemma AtAdvanced(pos: Pos, s: Shape, pl: Place, h: int, repr: set<KbNode>)
    requires At(pos, s, pl, h, repr)
    ensures At(Pos(pos.x, pos.i + 1), s, Place(pl.t, pl.i + 1), h, repr)
  {
    hide Hung, Nodes;
  }

  lemma ValidAt(b: KbTree)
    requires b.Valid()
    ensures At(Pos(b.root, 0), b.shape, Place(b.tree, 0), b.depth, b.repr)
    ensures Btree(b.tree, b.depth, b.T) && Shaped(b.tree, b.depth)
    ensures b.nKeys == |b.Keys()| && b.Keys() == InOrder(b.tree, b.depth)
  {
    hide Hung, Nodes, Wf, InOrder;
    BtreeFacts(b.tree, b.depth, b.T);
  }

  /** kbitr_t: the entries up to p are in use; p is below the stack when the iteration is over. */
  class Iterator {
    const stack: array<Pos>
    var p: int
    ghost var path: seq<Place>
    ghost var shapes: seq<Shape>

    ghost predicate Room() reads this { stack.Length == KB_MAX_DEPTH && -1 <= p < KB_MAX_DEPTH }

    /** The first entries are the path, through nodes of b. */
    ghost predicate Held(b: KbTree)
      reads this, stack, b, b.repr
    {
      && Room() && |path| == |shapes| <= p + 1
      && forall j :: 0 <= j < |path| ==> At(stack[j], shapes[j], path[j], b.depth - j, b.repr)
    }

    /** On a key of b. */
    ghost predicate On(b: KbTree)
      reads this, stack, b, b.repr
    {
      && b.Valid() && Held(b) && 0 <= p && |path| == p + 1 && b.depth + 2 <= KB_MAX_DEPTH
      && Chain(path, b.tree, b.depth)
      && Top(path).i < |Top(path).t.keys|
    }

    /** The keys of b from the current one on. */
    ghost function Left(b: KbTree): seq<int>
      requires On(b)
      reads this, stack, b, b.repr
    {
      Remaining(path, b.tree, b.depth)
    }

    constructor ()
      ensures Room() && p == -1 && fresh(stack)
    {
      stack := new Pos[KB_MAX_DEPTH](_ => Pos(null, 0));
      p, path, shapes := -1, [], [];
    }

    /** The node and index at p. */
    lemma Here(b: KbTree)
      requires Held(b) && 0 <= p && |path| == p + 1
      ensures stack[p].x != null && stack[p].i == Top(path).i && stack[p].x.keys == Top(path).t.keys
      ensures b.depth >= p && stack[p].x.internal == (b.depth > p) && |stack[p].x.kids| == |Top(path).t.kids|
      ensures b.depth == p ==> Top(path).t.kids == []
    {
      AtNode(stack[p], shapes[p], path[p], b.depth - p, b.repr);
    }

    /** One more entry. */
    method Enter(x: KbNode, ghost s: Shape, ghost t: Tree, ghost b: KbTree)
      requires Held(b) && p + 1 < KB_MAX_DEPTH && |path| == p + 1
      requires At(Pos(x, 0), s, Place(t, 0), b.depth - (p + 1), b.repr)
      modifies this, stack
      ensures Held(b) && p == old(p) + 1 && |path| == p + 1
      ensures path == Pushed(old(path), t) && shapes == old(shapes) + [s]
    {
      hide At;
      p := p + 1;
      stack[p] := Pos(x, 0);
      path, shapes := Pushed(path, t), shapes + [s];
    }

    /** The entry for kid i of the node at p. */
    method EnterKid(i: nat, ghost b: KbTree)
      requires Held(b) && 0 <= p < b.depth && b.depth + 2 <= KB_MAX_DEPTH && |path| == p + 1
      requires i < |Top(path).t.kids|
      modifies this, stack
      ensures Held(b) && p == old(p) + 1 && |path| == p + 1
      ensures path == Pushed(old(path), old(Top(path)).t.kids[i])
    {
      hide At;
      AtKid(stack[p], shapes[p], path[p], b.depth - p, b.repr, i);
      Enter(stack[p].x.kids[i], shapes[p].kids[i], path[p].t.kids[i], b);
    }

    /** kb_itr_first */
    method First(b: KbTree)
      requires Room() && b.Valid() && b.nKeys < 0x8000_0000
      modifies this, stack
      ensures Room()
      ensures b.Keys() == [] ==> p == -1
      ensures b.Keys() != [] ==> On(b) && Left(b) == b.Keys()
    {
      hide Hung, Nodes, Chain, Remaining, Rest, InOrder, Shaped, Wf, Pending, At, Btree;
      p, path, shapes := -1, [], [];
      ValidAt(b);
      if b.nKeys == 0 {
        return;
      }
      HighEnough(b.tree, b.depth, b.T);
      PendingRoot(b.tree, b.depth);
      Enter(b.root, b.shape, b.tree, b);
      assert path == [Place(b.tree, 0)];
      DownLeft(b);
    }

    /** The loop of kb_itr_first. */
    method DownLeft(ghost b: KbTree)
      requires b.Valid() && Held(b) && p == 0 && |path| == 1 && b.depth + 2 <= KB_MAX_DEPTH && b.T >= 2
      requires Chain(path, b.tree, b.depth) && path[0] == Place(b.tree, 0)
      requires Wf(b.tree, b.depth, b.T) && |b.tree.keys| >= 1
      modifies this, stack
      ensures On(b) && Left(b) == old(Pending(path, b.tree, b.depth))
    {
      hide Hung, Nodes, Chain, Remaining, Rest, InOrder, Shaped, Wf, Pending, At, Btree;
      ghost var pending := Pending(path, b.tree, b.depth);
      Here(b);
      while stack[p].x.internal
        invariant b.Valid() && Held(b) && 0 <= p <= b.depth && |path| == p + 1
        invariant Chain(path, b.tree, b.depth) && Top(path).i == 0
        invariant stack[p].x != null && stack[p].x.internal == (p < b.depth)
        invariant Wf(Top(path).t, b.depth - p, b.T) && |Top(path).t.keys| >= 1
        invariant Pending(path, b.tree, b.depth) == pending
        decreases b.depth - p
      {
        ChainTop(path, b.tree, b.depth);
        StepDown(path, b.tree, b.depth, b.T);
        EnterKid(0, b);
        Here(b);
      }
      ChainTop(path, b.tree, b.depth);
      AtLeaf(path, b.tree, b.depth);
    }

    /** kb_itr_key */
    method Key(ghost b: KbTree) returns (k: int)
      requires On(b)
      ensures Left(b) != [] && k == Left(b)[0]
    {
      hide Hung, Nodes, Chain, Remaining, Rest, InOrder, Shaped, Wf, Pending, At, Btree;
      Here(b);
      ChainTop(path, b.tree, b.depth);
      Advance(path, b.tree, b.depth);
      k := stack[p].x.keys[stack[p].i];
    }

    /** The inner loop of kb_itr_next: down to a null below a leaf. */
    method Descend(ghost b: KbTree)
      requires b.Valid() && Held(b) && 0 <= p <= b.depth && |path| == p + 1 && b.depth + 2 <= KB_MAX_DEPTH
      requires Top(path).i <= |Top(path).t.keys| ==> Chain(path, b.tree, b.depth)
      modifies this, stack
      ensures Held(b)
      ensures old(Top(path).i > |Top(path).t.keys|) ==> p == old(p) && path == old(path)
      ensures old(Top(path).i <= |Top(path).t.keys|) ==>
        && p == |path| == b.depth + 1 && Chain(path, b.tree, b.depth)
        && Remaining(path, b.tree, b.depth) == old(Pending(path, b.tree, b.depth))
    {
      hide Hung, Nodes, Chain, Remaining, Rest, InOrder, Shaped, Wf, Pending, At, Btree;
      Here(b);
      if stack[p].i > |stack[p].x.keys| {
        return;
      }
      ghost var pending := Pending(path, b.tree, b.depth);
      while stack[p].x != null && stack[p].i <= |stack[p].x.keys|
        invariant b.Valid() && Held(b) && 0 <= p <= b.depth + 1 && (stack[p].x != null <==> p <= b.depth)
        invariant |path| == if p <= b.depth then p + 1 else p
        invariant Chain(path, b.tree, b.depth)
        invariant p <= b.depth ==> Pending(path, b.tree, b.depth) == pending && stack[p].i <= |stack[p].x.keys|
        invariant p == b.depth + 1 ==> Remaining(path, b.tree, b.depth) == pending
        decreases b.depth + 1 - p
      {
        Here(b);
        InnerOrLeaf(path, b.tree, b.depth);
        ChainTop(path, b.tree, b.depth);
        if stack[p].x.internal {
          EnterKid(stack[p].i, b);
          ChainTop(path, b.tree, b.depth);
          Here(b);
        } else {
          p := p + 1;
          stack[p] := Pos(null, 0);
        }
      }
    }

    /** The index at p is moved on. */
    method Increment(ghost b: KbTree)
      requires Held(b) && 0 <= p && |path| == p + 1
      modifies this, stack
      ensures Held(b) && p == old(p) && path == Advanced(old(path))
    {
      hide At;
      AtAdvanced(stack[p], shapes[p], path[p], b.depth - p, b.repr);
      stack[p] := Pos(stack[p].x, stack[p].i + 1);
      path := Advanced(path);
    }

    /** One round of the outer loop of kb_itr_next, up to its tests: past a key and down again, or
        out of a node that has no key left. */
    method Round(ghost b: KbTree, ghost r: seq<int>)
      requires b.Valid() && Held(b) && 0 <= p <= b.depth && |path| == p + 1 && b.depth + 2 <= KB_MAX_DEPTH
      requires Chain(path, b.tree, b.depth) && r != []
      requires Remaining(path, b.tree, b.depth) == if Top(path).i < |Top(path).t.keys| then r else r[1..]
      modifies this, stack
      ensures Held(b) && -1 <= p <= b.depth && |path| == p + 1
      ensures p < 0 ==> r[1..] == []
      ensures p >= 0 ==> Chain(path, b.tree, b.depth) && Remaining(path, b.tree, b.depth) == r[1..]
      ensures old(Top(path).i == |Top(path).t.keys|) ==> p == old(p) - 1
    {
      hide Hung, Nodes, Chain, Remaining, Rest, InOrder, Shaped, Wf, Pending, At, Btree, Advanced, Top;
      ghost var s := path;
      AdvancedRound(s, b.tree, b.depth, r);
      Increment(b);
      Descend(b);
      p := p - 1;
      path, shapes := Front(path, p + 1), Front(shapes, p + 1);
    }

    /** kb_itr_next */
    method Next(ghost b: KbTree) returns (more: bool)
      requires Room() && (p == -1 || On(b))
      modifies this, stack
      ensures Room()
      ensures old(p) == -1 ==> !more
      ensures old(p) >= 0 ==> (more <==> |old(Left(b))| > 1)
      ensures more ==> On(b) && Left(b) == old(Left(b))[1..]
      ensures !more ==> p == -1
    {
      hide Hung, Nodes, Chain, Remaining, Rest, InOrder, Shaped, Wf, Pending, At, Btree;
      if p < 0 {
        return false;
      }
      ghost var r := Left(b);
      KeyLeft(path, b.tree, b.depth);
      while true
        invariant b.Valid() && Held(b) && 0 <= p <= b.depth && |path| == p + 1
        invariant Chain(path, b.tree, b.depth) && r != []
        invariant Remaining(path, b.tree, b.depth) == if Top(path).i < |Top(path).t.keys| then r else r[1..]
        decreases if Top(path).i < |Top(path).t.keys| then 1 else 0, p
      {
        ChainTop(path, b.tree, b.depth);
        Round(b, r);
        if p < 0 {
          return false;
        }
        Here(b);
        ChainTop(path, b.tree, b.depth);
        if stack[p].x != null && stack[p].i < |stack[p].x.keys| {
          KeyLeft(path, b.tree, b.depth);
          return true;
        }
      }
    }
  }

  function Front<X>(s: seq<X>, n: nat): (r: seq<X>)
    requires n <= |s|
    ensures r == s[..n] && (n == |s| ==> r == s)
  {
    s[..n]
  }

  /** What an index moved on leaves to come: nothing is pending before the next key, or the node is
      done with. */
  lemma AdvancedRound(s: seq<Place>, t: Tree, d: nat, r: seq<int>)
    requires Chain(s, t, d) && r != []
    requires Remaining(s, t, d) == if Top(s).i < |Top(s).t.keys| then r else r[1..]
    ensures |Advanced(s)| == |s| && Advanced(s)[..|s| - 1] == s[..|s| - 1]
    ensures Top(Advanced(s)) == Place(Top(s).t, Top(s).i + 1) && Top(s).i <= |Top(s).t.keys|
    ensures Top(s).i < |Top(s).t.keys| ==> Chain(Advanced(s), t, d) && Pending(Advanced(s), t, d) == r[1..]
    ensures Top(s).i == |Top(s).t.keys| ==>
      if |s| == 1 then r[1..] == [] else Chain(s[..|s| - 1], t, d) && Remaining(s[..|s| - 1], t, d) == r[1..]
  {
    ChainTop(s, t, d);
    AdvancedFront(s);
    hide Chain, Remaining, Pending, Advanced, Top;
    if Top(s).i < |Top(s).t.keys| {
      Advance(s, t, d);
    } else {
      PopSpent(s, t, d);
    }
  }

  lemma HighEnough(t: Tree, d: nat, T: nat)
    requires Btree(t, d, T) && Shaped(t, d) && 0 < |InOrder(t, d)| < 0x8000_0000
    ensures d + 2 <= KB_MAX_DEPTH && T >= 2 && Wf(t, d, T) && |t.keys| >= 1
  {
    BtreeFacts(t, d, T);
    DepthBound(t, d, T);
  }

  /** The loop by which the iterator is used: first, then next as long as the iterator is valid. */
  method Iterate(b: KbTree) returns (keys: seq<int>)
    requires b.Valid() && b.nKeys < 0x8000_0000
    ensures keys == b.Keys()
  {
    hide Hung, Nodes, Chain, Remaining, InOrder, Shaped, Wf, At, Btree;
    var itr := new Iterator();
    itr.First(b);
    keys := [];
    while itr.p >= 0
      invariant itr.Room() && fresh(itr) && fresh(itr.stack)
      invariant itr.p >= 0 ==> itr.On(b) && keys + itr.Left(b) == b.Keys()
      invariant itr.p < 0 ==> keys == b.Keys()
      decreases |b.Keys()| - |keys|, itr.p
    {
      var k := itr.Key(b);
      MoveOver(keys, itr.Left(b));
      var more := itr.Next(b);
      keys := keys + [k];
    }
  }

  lemma MoveOver(a: seq<int>, b: seq<int>)
    requires b != []
    ensures (a + [b[0]]) + b[1..] == a + b
    ensures |b| == 1 ==> a + [b[0]] == a + b
    ensures |a + [b[0]]| <= |a + b|
  {
  }
}
