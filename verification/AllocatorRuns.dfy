/** The allocators of several cores on one pool of segments, told apart from their objects: what each
    operation does to the free list, the chains, the reserves and the items, over any run. */
module AllocatorRuns {
  import opened Options
  import opened Segments
  import opened Allocator

  ghost function AllOwned(allocs: seq<ItemAllocator>): set<Segment>
    reads allocs
  {
    set i, h | 0 <= i < |allocs| && h in allocs[i].Owned() :: h
  }

  /** The allocators are in order, and no two of them share a segment. */
  ghost predicate Together(pool: Pool, allocs: seq<ItemAllocator>)
    reads pool, allocs, AllOwned(allocs)
  {
    && pool.Valid()
    && (forall i :: 0 <= i < |allocs| ==> allocs[i].Owned() <= AllOwned(allocs))
    && (forall i :: 0 <= i < |allocs| ==> Elements(allocs[i].chain) <= allocs[i].Owned())
    && (forall i :: 0 <= i < |allocs| ==> allocs[i].Valid(pool))
    && (forall i, j :: 0 <= i < j < |allocs| ==> allocs[i] != allocs[j] && allocs[i].Owned() !! allocs[j].Owned())
  }

  lemma TogetherMake(pool: Pool, allocs: seq<ItemAllocator>)
    requires pool.Valid()
    requires forall i :: 0 <= i < |allocs| ==> allocs[i].Valid(pool)
    requires forall i, j :: 0 <= i < j < |allocs| ==> allocs[i] != allocs[j] && allocs[i].Owned() !! allocs[j].Owned()
    ensures Together(pool, allocs)
  {
    hide Pool.Valid, ItemAllocator.Valid;
  }

  lemma TogetherFacts(pool: Pool, allocs: seq<ItemAllocator>)
    requires Together(pool, allocs)
    ensures pool.Valid()
    ensures forall i :: 0 <= i < |allocs| ==> allocs[i].Valid(pool)
    ensures forall i, j :: 0 <= i < j < |allocs| ==> allocs[i] != allocs[j] && allocs[i].Owned() !! allocs[j].Owned()
  {
    hide Pool.Valid, ItemAllocator.Valid;
  }

  /** What an allocator has is handed out, and not free. */
  lemma OwnedOut(pool: Pool, a: ItemAllocator)
    requires pool.Valid() && a.Valid(pool)
    ensures a.Owned() <= pool.out && a.Owned() !! Elements(pool.free) && Elements(pool.free) <= Elements(pool.made)
    ensures Elements(a.chain) <= a.Owned() && (a.reserved != null ==> a.reserved in a.Owned()) && a.chain != []
    ensures a.Owned() <= Elements(pool.made)
  {
    hide ItemAllocator.States;
  }

  /** An allocator none of whose segments have changed hands or changed is still in order. */
  lemma StillOwns(chain: seq<Segment>, reserved: Segment?, out: set<Segment>, out': set<Segment>)
    requires Owns(chain, reserved, out) && Both(Elements(chain), reserved) <= out'
    ensures Owns(chain, reserved, out')
  {
  }

  lemma OwnedParts(a: ItemAllocator, pool: Pool)
    requires a.Valid(pool)
    ensures Owns(a.chain, a.reserved, pool.out) && a.States(pool.segsize)
      && a.Owned() == Both(Elements(a.chain), a.reserved)
  {
  }

  /** What b has is handed out, and neither free nor a's. */
  ghost predicate OutOfReach(pool: Pool, a: ItemAllocator, b: ItemAllocator)
    reads pool, a, b
  {
    && b.Owned() <= pool.out - a.Owned()
    && (forall k :: 0 <= k < |b.chain| ==>
       b.chain[k] !in pool.free && b.chain[k] !in a.chain && b.chain[k] != a.reserved)
    && (b.reserved != null ==> b.reserved !in pool.free && b.reserved !in a.chain && b.reserved != a.reserved)
  }

  lemma Apart(pool: Pool, a: ItemAllocator, b: ItemAllocator)
    requires pool.Valid() && a.Valid(pool) && b.Valid(pool) && a.Owned() !! b.Owned()
    ensures OutOfReach(pool, a, b)
  {
    OwnedOut(pool, a);
    OwnedOut(pool, b);
    hide Pool.Valid, ItemAllocator.Valid;
    assert forall h :: h in pool.free ==> h in Elements(pool.free);
    assert forall h :: h in a.chain ==> h in Elements(a.chain);
    assert forall k :: 0 <= k < |b.chain| ==> b.chain[k] in Elements(b.chain);
  }

  /** What a does, if it only changes segments of its own and free ones, leaves b in order; out and
      own are what was handed out, and what a had, before. */
  lemma StandsBy(pool: Pool, a: ItemAllocator, b: ItemAllocator, out: set<Segment>, own: set<Segment>)
    requires Owns(b.chain, b.reserved, out) && b.States(pool.segsize) && b.Owned() <= out - own
    requires pool.out - a.Owned() == out - own
    ensures b.Valid(pool) && a.Owned() !! b.Owned()
  {
    hide ItemAllocator.States, Elements, Both;
    StillOwns(b.chain, b.reserved, out, pool.out);
  }

  lemma MadeHas(pool: Pool, a: ItemAllocator)
    requires pool.Valid() && a.Valid(pool)
    ensures a.chain != [] && a.Cur() in a.chain && a.Cur() in pool.made
      && (a.reserved != null ==> a.reserved in pool.made)
    ensures forall k :: 0 <= k < |pool.free| ==> pool.free[k] in pool.made
    ensures forall h :: h in a.chain ==> h in pool.made
  {
    OwnedOut(pool, a);
    hide Pool.Valid, ItemAllocator.Valid;
    assert a.Cur() in Elements(a.chain);
    forall k | 0 <= k < |pool.free| ensures pool.free[k] in pool.made {
      assert pool.free[k] in Elements(pool.free);
    }
    forall h | h in a.chain ensures h in pool.made {
      assert h in Elements(a.chain);
    }
  }

  /** Allocator b, with what it has out of a's reach. */
  ghost predicate Ready(pool: Pool, a: ItemAllocator, b: ItemAllocator)
    reads pool, a, b, b.chain, b.reserved
  {
    OutOfReach(pool, a, b) && Owns(b.chain, b.reserved, pool.out) && b.States(pool.segsize)
  }

  // ----- what can be seen of pool and allocators -----

  /** An item as its holder knows it. */
  datatype Item = Item(h: Segment, at: nat)

  /** refs: of each block of a segment in use, how many references its item has, zero if it is none. */
  datatype View = View(
    free: seq<Segment>, alloced: nat, chains: seq<seq<Segment>>, reserves: seq<Segment?>,
    blocks: map<Segment, seq<Block>>, refs: map<Segment, seq<nat>>)

  function RefOf(bs: seq<Block>, headers: map<nat, Header>, b: nat): nat
    requires b < |bs|
  {
    if bs[b].kind == Live && Start(bs, b) in headers then headers[Start(bs, b)].refcount else 0
  }

  function RefsOf(bs: seq<Block>, headers: map<nat, Header>): (r: seq<nat>)
    ensures |r| == |bs| && forall b :: 0 <= b < |bs| ==> r[b] == RefOf(bs, headers, b)
  {
    seq(|bs|, b requires 0 <= b < |bs| => RefOf(bs, headers, b))
  }

  /** The segments in use. */
  ghost function Segs(chains: seq<seq<Segment>>): set<Segment>
  {
    set i, h | 0 <= i < |chains| && h in chains[i] :: h
  }

  ghost predicate Shows(pool: Pool, allocs: seq<ItemAllocator>, v: View)
    reads pool, allocs, Segs(v.chains)
  {
    && v.free == pool.free && v.alloced == pool.alloced
    && |v.chains| == |v.reserves| == |allocs|
    && (forall i :: 0 <= i < |allocs| ==> v.chains[i] == allocs[i].chain && v.reserves[i] == allocs[i].reserved)
    && v.blocks.Keys == v.refs.Keys == Segs(v.chains)
    && forall h :: h in Segs(v.chains) ==> v.blocks[h] == h.blocks && v.refs[h] == RefsOf(h.blocks, h.headers)
  }

  lemma ShowsMake(pool: Pool, allocs: seq<ItemAllocator>, v: View)
    requires v.free == pool.free && v.alloced == pool.alloced
    requires |v.chains| == |v.reserves| == |allocs|
    requires forall i :: 0 <= i < |allocs| ==> v.chains[i] == allocs[i].chain && v.reserves[i] == allocs[i].reserved
    requires v.blocks.Keys == v.refs.Keys == Segs(v.chains)
    requires forall h :: h in Segs(v.chains) ==> v.blocks[h] == h.blocks && v.refs[h] == RefsOf(h.blocks, h.headers)
    ensures Shows(pool, allocs, v)
  {
    hide RefsOf, Segs;
  }

  lemma ShowsFacts(pool: Pool, allocs: seq<ItemAllocator>, v: View)
    requires Shows(pool, allocs, v)
    ensures v.free == pool.free && v.alloced == pool.alloced
    ensures |v.chains| == |v.reserves| == |allocs|
    ensures forall i :: 0 <= i < |allocs| ==> v.chains[i] == allocs[i].chain && v.reserves[i] == allocs[i].reserved
    ensures v.blocks.Keys == v.refs.Keys == Segs(v.chains)
    ensures forall h :: h in Segs(v.chains) ==> v.blocks[h] == h.blocks && v.refs[h] == RefsOf(h.blocks, h.headers)
  {
    hide RefsOf, Segs;
  }

  // ----- what the operations do to it -----

  function End<T>(s: seq<T>): T requires s != [] { s[|s| - 1] }

  function Tail<T>(s: seq<T>): seq<T> { if s == [] then [] else s[1..] }

  /** Each chain has a segment items go to. */
  ghost predicate Whole(v: View)
  {
    && |v.chains| == |v.reserves| && v.blocks.Keys == v.refs.Keys == Segs(v.chains)
    && forall i :: 0 <= i < |v.chains| ==> v.chains[i] != [] && End(v.chains[i]) in v.blocks
  }

  /** No segment is to be had from the pool. */
  predicate Dry(v: View, max: nat, granted: bool) { v.free == [] && (v.alloced >= max || !granted) }

  function Count(v: View, max: nat): nat { if v.free == [] && v.alloced < max then v.alloced + 1 else v.alloced }

  /** More is written to segment h. */
  function Written(v: View, h: Segment, bs: seq<Block>, rs: seq<nat>): View
    requires h in v.blocks && h in v.refs
  {
    v.(blocks := v.blocks[h := v.blocks[h] + bs], refs := v.refs[h := v.refs[h] + rs])
  }

  function Zeros(n: nat): seq<nat> { seq(n, _ => 0) }

  /** The end of the current segment of allocator i is given up. */
  function Padded(v: View, i: nat, segsize: nat, max: nat): View
    requires i < |v.chains| && v.chains[i] != [] && End(v.chains[i]) in v.blocks && End(v.chains[i]) in v.refs
  {
    var cur := End(v.chains[i]);
    var pad := Padding(segsize - Total(v.blocks[cur]));
    Written(v, cur, pad, Zeros(|pad|)).(free := Tail(v.free), alloced := Count(v, max))
  }

  /** Allocator i goes on to segment h with an item of n bytes. */
  function Extended(v: View, w: View, i: nat, h: Segment, n: nat, dry: bool): View
    requires i < |v.chains| == |v.reserves|
  {
    w.(chains := v.chains[i := v.chains[i] + [h]], reserves := if dry then v.reserves[i := null] else v.reserves,
       blocks := w.blocks[h := [Block(n, Live)]], refs := w.refs[h := [1]])
  }

  /** h is the segment to go on to: the one kept back, the next free one, or a new one. */
  ghost predicate IsNext(v: View, i: nat, h: Segment, dry: bool)
    requires i < |v.chains| == |v.reserves|
  {
    if dry then h == v.reserves[i]
    else if v.free != [] then h == v.free[0]
    else h !in v.blocks && forall j :: 0 <= j < |v.reserves| ==> v.reserves[j] != h
  }

  /** ialloc_alloc of n bytes: what is answered, and what is left. */
  ghost predicate AllocStep(segsize: nat, max: nat, v: View, i: nat, n: nat, cleanup: bool, granted: bool,
                            got: Option<Item>, v': View)
    requires Whole(v) && i < |v.chains|
  {
    var cur, dry := End(v.chains[i]), Dry(v, max, granted);
    if v.reserves[i] == null && !cleanup then
      got == None && v' == v
    else if Total(v.blocks[cur]) + n <= segsize then
      got == Some(Item(cur, Total(v.blocks[cur]))) && v' == Written(v, cur, [Block(n, Live)], [1])
    else if dry && !(cleanup && v.reserves[i] != null) then
      got == None && v' == Padded(v, i, segsize, max)
    else
      && got.Some? && got.value.at == 0 && IsNext(v, i, got.value.h, dry)
      && v' == Extended(v, Padded(v, i, segsize, max), i, got.value.h, n, dry)
  }

  /** The end of ialloc_cleanup_item. */
  ghost predicate RefillStep(max: nat, v: View, i: nat, granted: bool, v': View)
    requires Whole(v) && i < |v.chains|
  {
    if v.reserves[i] != null then v' == v
    else
      && |v'.reserves| == |v.reserves|
      && v' == v.(free := Tail(v.free), alloced := Count(v, max), reserves := v.reserves[i := v'.reserves[i]])
      && if Dry(v, max, granted) then v'.reserves[i] == null
         else v'.reserves[i] != null && IsNext(v, i, v'.reserves[i], false)
  }

  /** The segments of chain i all of whose bytes are padding or of items without references. */
  ghost function Done(segsize: nat, v: View, i: nat): set<Segment>
    requires i < |v.chains| && forall h :: h in v.chains[i] ==> h in v.blocks
  {
    set h | h in v.chains[i] && Dead(v.blocks[h]) == segsize
  }

  /** The first loop of ialloc_maintenance. */
  ghost predicate RecycleStep(segsize: nat, v: View, i: nat, v': View)
    requires Whole(v) && i < |v.chains| && forall h :: h in v.chains[i] ==> h in v.blocks
  {
    var c, done := v.chains[i], Done(segsize, v, i);
    var chains' := v.chains[i := Busy(Front(c), done) + [End(c)]];
    v' == View(Spent(Front(c), done) + v.free, v.alloced, chains', v.reserves,
               map h | h in v.blocks && h in Segs(chains') :: v.blocks[h], map h | h in v.refs
                 && h in Segs(chains') :: v.refs[h])
  }

  /** item_unref: the item's block loses a reference; without one, its bytes count as freed. */
  ghost predicate FreeStep(v: View, x: Item, v': View)
  {
    && x.h in v.blocks && x.h in v.refs && |v.blocks[x.h]| == |v.refs[x.h]|
    && exists b :: 0 <= b < |v.blocks[x.h]| && Unreferred(v, x, b, v')
  }

  ghost predicate Unreferred(v: View, x: Item, b: nat, v': View)
    requires x.h in v.blocks && x.h in v.refs && b < |v.blocks[x.h]| == |v.refs[x.h]|
  {
    var bs, rs := v.blocks[x.h], v.refs[x.h];
    && bs[b].kind == Live && x.at == Start(bs, b) && rs[b] > 0
    && v' == v.(blocks := v.blocks[x.h := if rs[b] == 1 then bs[b := Block(bs[b].total, Gone)] else bs],
                refs := v.refs[x.h := rs[b := rs[b] - 1]])
  }

  // ----- references -----

  /** What is written behind the items of a segment changes no reference of theirs. */
  lemma RefsKept(bs: seq<Block>, headers: map<nat, Header>, headers': map<nat, Header>, freed: nat, size: nat,
      more: seq<Block>)
    requires Laid(bs, headers, Total(bs), freed, size)
    requires forall x :: x in headers && x < Total(bs) ==> x in headers' && headers'[x] == headers[x]
    ensures forall b :: 0 <= b < |bs| ==> RefOf(bs + more, headers', b) == RefOf(bs, headers, b)
  {
    var bs' := bs + more;
    assert bs[..|bs|] == bs;
    forall b | 0 <= b < |bs| ensures RefOf(bs', headers', b) == RefOf(bs, headers, b) {
      assert bs'[..b] == bs[..b] && bs'[b] == bs[b];
      if bs[b].kind == Live {
        assert Described(bs, headers, b);
        StartNext(bs, b);
        StartBelow(bs, b + 1, |bs|);
      }
    }
  }

  lemma RefsItem(bs: seq<Block>, headers: map<nat, Header>, headers': map<nat, Header>, freed: nat, size: nat, n: nat)
    requires Laid(bs, headers, Total(bs), freed, size)
    requires forall x :: x in headers && x < Total(bs) ==> x in headers' && headers'[x] == headers[x]
    requires Total(bs) in headers' && headers'[Total(bs)].refcount == 1
    ensures RefsOf(bs + [Block(n, Live)], headers') == RefsOf(bs, headers) + [1]
  {
    hide Laid;
    RefsKept(bs, headers, headers', freed, size, [Block(n, Live)]);
    assert (bs + [Block(n, Live)])[..|bs|] == bs;
  }

  lemma RefsPadded(bs: seq<Block>, headers: map<nat, Header>, headers': map<nat, Header>, freed: nat, size: nat, n: int)
    requires Laid(bs, headers, Total(bs), freed, size)
    requires forall x :: x in headers && x < Total(bs) ==> x in headers' && headers'[x] == headers[x]
    ensures RefsOf(bs + Padding(n), headers') == RefsOf(bs, headers) + Zeros(|Padding(n)|)
  {
    hide Laid;
    RefsKept(bs, headers, headers', freed, size, Padding(n));
  }

  // ----- the segments in use -----

  lemma SegsMore(chains: seq<seq<Segment>>, i: nat, h: Segment)
    requires i < |chains|
    ensures Segs(chains[i := chains[i] + [h]]) == Segs(chains) + {h}
  {
    var chains' := chains[i := chains[i] + [h]];
    forall x | x in Segs(chains) + {h} ensures x in Segs(chains') {
      if x == h {
        assert h in chains'[i];
      } else {
        var j :| 0 <= j < |chains| && x in chains[j];
        assert x in chains'[j];
      }
    }
  }

  /** What is in use is not free, and not kept back. */
  lemma InUse(pool: Pool, allocs: seq<ItemAllocator>, v: View)
    requires Together(pool, allocs) && Shows(pool, allocs, v)
    ensures Whole(v)
    ensures forall h :: h in Segs(v.chains) ==> h in pool.made && h !in pool.free
    ensures forall h, j :: h in Segs(v.chains) && 0 <= j < |allocs| ==> h != allocs[j].reserved
  {
    TogetherFacts(pool, allocs);
    ShowsFacts(pool, allocs, v);
    hide Pool.Valid, ItemAllocator.Valid, ItemAllocator.Owned, Shows, Together;
    forall i | 0 <= i < |allocs| ensures v.chains[i] != [] && End(v.chains[i]) in v.blocks {
      OwnedOut(pool, allocs[i]);
      assert End(v.chains[i]) in v.chains[i];
    }
    forall h | h in Segs(v.chains) ensures h in pool.made && h !in pool.free {
      var j := HomeOf(v.chains, h);
      OwnedOut(pool, allocs[j]);
      assert h in Elements(allocs[j].chain);
      assert h in Elements(pool.made) && h !in Elements(pool.free);
    }
    forall h, j | h in Segs(v.chains) && 0 <= j < |allocs| ensures h != allocs[j].reserved {
      var k := HomeOf(v.chains, h);
      OwnedOut(pool, allocs[k]);
      OwnedOut(pool, allocs[j]);
      assert h in Elements(allocs[k].chain);
      if j == k {
        OwnReserved(pool, allocs[k], h);
      }
    }
  }

  lemma HomeOf(chains: seq<seq<Segment>>, h: Segment) returns (j: nat)
    requires h in Segs(chains)
    ensures j < |chains| && h in chains[j]
  {
    j :| j < |chains| && h in chains[j];
  }

  lemma OwnReserved(pool: Pool, a: ItemAllocator, h: Segment)
    requires a.Valid(pool) && h in a.chain
    ensures h != a.reserved
  {
    hide ItemAllocator.States;
  }

  /** All segments in use but cur are as v shows them. */
  ghost predicate Others(v: View, cur: Segment)
    reads Segs(v.chains)
  {
    && v.blocks.Keys == v.refs.Keys == Segs(v.chains)
    && forall h :: h in Segs(v.chains) && h != cur ==>
       h.blocks == v.blocks[h] && RefsOf(h.blocks, h.headers) == v.refs[h]
  }

  /** The allocators have these chains and reserves, and the pool these free segments. */
  ghost predicate Parts(pool: Pool, allocs: seq<ItemAllocator>, v: View)
    reads pool, allocs
  {
    && v.free == pool.free && v.alloced == pool.alloced && |v.chains| == |v.reserves| == |allocs|
    && forall i :: 0 <= i < |allocs| ==> v.chains[i] == allocs[i].chain && v.reserves[i] == allocs[i].reserved
  }

  lemma ShowsWritten(pool: Pool, allocs: seq<ItemAllocator>, v: View, cur: Segment, bs: seq<Block>, rs: seq<nat>,
      v': View)
    requires Others(v, cur) && cur in Segs(v.chains)
    requires cur.blocks == v.blocks[cur] + bs && RefsOf(cur.blocks, cur.headers) == v.refs[cur] + rs
    requires v' == Written(v, cur, bs, rs).(free := v'.free, alloced := v'.alloced) && Parts(pool, allocs, v')
    ensures Shows(pool, allocs, v')
  {
    hide RefsOf, Segs;
    ShowsMake(pool, allocs, v');
  }

  lemma FirstRef(headers: map<nat, Header>, n: nat)
    requires 0 in headers && headers[0].refcount == 1
    ensures RefsOf([Block(n, Live)], headers) == [1]
  {
    assert Start([Block(n, Live)], 0) == 0;
  }

  lemma ShowsExtended(pool: Pool, allocs: seq<ItemAllocator>, v: View, w: View, i: nat, cur: Segment, h: Segment,
      n: nat, dry: bool)
    requires Others(v, cur) && cur in Segs(v.chains) && h !in Segs(v.chains) && i < |v.chains| == |v.reserves|
    requires w.blocks.Keys == w.refs.Keys == Segs(v.chains)
    requires cur.blocks == w.blocks[cur] && RefsOf(cur.blocks, cur.headers) == w.refs[cur]
    requires forall x :: x in Segs(v.chains) && x != cur ==> w.blocks[x] == v.blocks[x] && w.refs[x] == v.refs[x]
    requires h.blocks == [Block(n, Live)] && 0 in h.headers && h.headers[0].refcount == 1
    requires Parts(pool, allocs, Extended(v, w, i, h, n, dry))
    ensures Shows(pool, allocs, Extended(v, w, i, h, n, dry))
  {
    hide RefsOf, Segs;
    SegsMore(v.chains, i, h);
    FirstRef(h.headers, n);
    var v' := Extended(v, w, i, h, n, dry);
    ShowsMake(pool, allocs, v');
  }

  // ----- ialloc_alloc -----

  /** How allocator i's current segment stood before: hs its headers, fr its freed bytes. */
  ghost predicate Stood(v: View, cur: Segment, segsize: nat, hs: map<nat, Header>, fr: nat)
  {
    && cur in v.blocks && cur in v.refs
    && Laid(v.blocks[cur], hs, Total(v.blocks[cur]), fr, segsize) && v.refs[cur] == RefsOf(v.blocks[cur], hs)
  }

  /** What was written there has been left alone. */
  ghost predicate Left(v: View, cur: Segment, hs: map<nat, Header>)
    reads cur
  {
    cur in v.blocks && forall x :: x in hs && x < Total(v.blocks[cur]) ==> x in cur.headers && cur.headers[x] == hs[x]
  }

  /** The other allocators are as they were. */
  ghost predicate Elsewhere(allocs: seq<ItemAllocator>, v: View, i: nat)
    reads allocs
  {
    && |allocs| == |v.chains| == |v.reserves|
    && forall j :: 0 <= j < |allocs| && j != i ==> v.chains[j] == allocs[j].chain && v.reserves[j] == allocs[j].reserved
  }

  lemma PartsMake(pool: Pool, allocs: seq<ItemAllocator>, v: View, i: nat, v': View)
    requires Elsewhere(allocs, v, i) && i < |allocs|
    requires v'.free == pool.free && v'.alloced == pool.alloced
    requires v'.chains == v.chains[i := allocs[i].chain] && v'.reserves == v.reserves[i := allocs[i].reserved]
    ensures Parts(pool, allocs, v')
  {
  }

  lemma AllocBarred(pool: Pool, allocs: seq<ItemAllocator>, v: View, i: nat, cur: Segment, hs: map<nat, Header>,
      fr: nat)
    requires Whole(v) && Elsewhere(allocs, v, i) && i < |allocs| && cur == End(v.chains[i])
    requires Stood(v, cur, pool.segsize, hs, fr) && Left(v, cur, hs) && Others(v, cur)
    requires allocs[i].Idle(pool, v.chains[i], v.reserves[i], v.free, v.alloced) && cur.blocks == v.blocks[cur]
    ensures Shows(pool, allocs, v)
  {
    hide RefsOf, Segs, Laid, Total, Dead;
    RefsPadded(v.blocks[cur], hs, cur.headers, fr, pool.segsize, 0);
    assert v.blocks[cur] + Padding(0) == v.blocks[cur] && v.refs[cur] + Zeros(0) == v.refs[cur];
    assert v.chains[i := allocs[i].chain] == v.chains && v.reserves[i := allocs[i].reserved] == v.reserves;
    PartsMake(pool, allocs, v, i, v);
    var v' := Written(v, cur, [], []);
    assert v'.blocks == v.blocks && v'.refs == v.refs;
    ShowsWritten(pool, allocs, v, cur, [], [], v);
  }

  lemma AllocHere(pool: Pool, allocs: seq<ItemAllocator>, v: View, i: nat, cur: Segment, hs: map<nat, Header>,
      fr: nat, n: nat)
    requires Whole(v) && Elsewhere(allocs, v, i) && i < |allocs| && cur == End(v.chains[i])
    requires Stood(v, cur, pool.segsize, hs, fr) && Left(v, cur, hs) && Others(v, cur)
    requires allocs[i].Idle(pool, v.chains[i], v.reserves[i], v.free, v.alloced)
    requires cur.blocks == v.blocks[cur] + [Block(n, Live)]
    requires Total(v.blocks[cur]) in cur.headers && cur.headers[Total(v.blocks[cur])].refcount == 1
    ensures Shows(pool, allocs, Written(v, cur, [Block(n, Live)], [1]))
  {
    hide RefsOf, Segs, Laid, Total, Dead;
    RefsItem(v.blocks[cur], hs, cur.headers, fr, pool.segsize, n);
    var v' := Written(v, cur, [Block(n, Live)], [1]);
    assert v.chains[i := allocs[i].chain] == v.chains && v.reserves[i := allocs[i].reserved] == v.reserves;
    PartsMake(pool, allocs, v, i, v');
    ShowsWritten(pool, allocs, v, cur, [Block(n, Live)], [1], v');
  }

  lemma AllocRefused(pool: Pool, allocs: seq<ItemAllocator>, v: View, i: nat, cur: Segment, hs: map<nat, Header>,
      fr: nat,
                     cleanup: bool, granted: bool)
    requires Whole(v) && Elsewhere(allocs, v, i) && i < |allocs| && cur == End(v.chains[i])
    requires Stood(v, cur, pool.segsize, hs, fr) && Left(v, cur, hs) && Others(v, cur)
    requires allocs[i].Went(pool, cleanup, granted, null, v.chains[i], v.reserves[i], v.free, v.alloced)
    requires cur.blocks == v.blocks[cur] + Padding(pool.segsize - Total(v.blocks[cur]))
    ensures Dry(v, pool.max, granted) && !(cleanup && v.reserves[i] != null)
    ensures Shows(pool, allocs, Padded(v, i, pool.segsize, pool.max))
  {
    hide RefsOf, Segs, Laid, Total, Dead;
    var m := pool.segsize - Total(v.blocks[cur]);
    RefsPadded(v.blocks[cur], hs, cur.headers, fr, pool.segsize, m);
    var v' := Padded(v, i, pool.segsize, pool.max);
    assert v.chains[i := allocs[i].chain] == v.chains && v.reserves[i := allocs[i].reserved] == v.reserves;
    PartsMake(pool, allocs, v, i, v');
    ShowsWritten(pool, allocs, v, cur, Padding(m), Zeros(|Padding(m)|), v');
  }

  /** A segment added to a chain was in no chain, and is kept back by nobody. */
  lemma NewOut(pool: Pool, allocs: seq<ItemAllocator>, v: View, i: nat, h: Segment)
    requires Together(pool, allocs) && Elsewhere(allocs, v, i) && i < |allocs| && allocs[i].chain == v.chains[i] + [h]
    ensures h !in Segs(v.chains) && forall j :: 0 <= j < |allocs| ==> allocs[j].reserved != h
  {
    TogetherFacts(pool, allocs);
    hide Pool.Valid, ItemAllocator.Valid, ItemAllocator.Owned, Together;
    var a := allocs[i];
    OwnedOut(pool, a);
    assert a.chain[|v.chains[i]|] == h && h in Elements(a.chain);
    forall j | 0 <= j < |allocs| ensures h !in v.chains[j] && allocs[j].reserved != h {
      OwnedOut(pool, allocs[j]);
      if j == i {
        OwnReserved(pool, a, h);
        LastOnce(pool, a, v.chains[i], h);
      } else {
        InElements(allocs[j].chain);
      }
    }
  }

  lemma InElements(c: seq<Segment>)
    ensures forall x :: x in c ==> x in Elements(c)
  {
  }

  lemma LastOnce(pool: Pool, a: ItemAllocator, before: seq<Segment>, h: Segment)
    requires a.Valid(pool) && a.chain == before + [h]
    ensures h !in before
  {
    hide ItemAllocator.States;
    forall k | 0 <= k < |before| ensures before[k] != h {
      assert a.chain[k] == before[k] && a.chain[|before|] == h;
    }
  }

  lemma AllocOn(pool: Pool, allocs: seq<ItemAllocator>, v: View, i: nat, cur: Segment, hs: map<nat, Header>, fr: nat,
                cleanup: bool, granted: bool, h: Segment, n: nat)
    requires Together(pool, allocs)
    requires Whole(v) && Elsewhere(allocs, v, i) && i < |allocs| && cur == End(v.chains[i])
    requires Stood(v, cur, pool.segsize, hs, fr) && Left(v, cur, hs) && Others(v, cur)
    requires allocs[i].Went(pool, cleanup, granted, h, v.chains[i], v.reserves[i], v.free, v.alloced)
    requires cur.blocks == v.blocks[cur] + Padding(pool.segsize - Total(v.blocks[cur]))
    requires h.blocks == [Block(n, Live)] && 0 in h.headers && h.headers[0].refcount == 1
    ensures var dry := Dry(v, pool.max, granted);
      && !(dry && !(cleanup && v.reserves[i] != null)) && IsNext(v, i, h, dry)
      && Shows(pool, allocs, Extended(v, Padded(v, i, pool.segsize, pool.max), i, h, n, dry))
  {
    hide RefsOf, Segs, Laid, Total, Dead, Together;
    NewOut(pool, allocs, v, i, h);
    var m, dry := pool.segsize - Total(v.blocks[cur]), Dry(v, pool.max, granted);
    RefsPadded(v.blocks[cur], hs, cur.headers, fr, pool.segsize, m);
    var w := Padded(v, i, pool.segsize, pool.max);
    assert cur in Segs(v.chains);
    assert v.reserves[i := allocs[i].reserved] == if dry then v.reserves[i := null] else v.reserves;
    PartsMake(pool, allocs, v, i, Extended(v, w, i, h, n, dry));
    ShowsExtended(pool, allocs, v, w, i, cur, h, n, dry);
  }

  /** ialloc_alloc by one of them. */
  method AllocBy(pool: Pool, allocs: seq<ItemAllocator>, i: nat, keylen: nat, vallen: nat, cleanup: bool, granted: bool,
                 ghost v: View) returns (got: Option<Item>, ghost v': View)
    requires Together(pool, allocs) && Shows(pool, allocs, v) && i < |allocs| && HEADER + keylen + vallen < pool.segsize
    modifies pool, allocs[i], pool.made
    ensures Together(pool, allocs) && Shows(pool, allocs, v') && Whole(v) && i < |v.chains|
    ensures AllocStep(pool.segsize, pool.max, v, i, HEADER + keylen + vallen, cleanup, granted, got, v')
    ensures forall k :: 0 <= k < |pool.made| ==> pool.made[k] in old(pool.made) || fresh(pool.made[k])
  {
    hide Pool.Valid, ItemAllocator.Valid, ItemAllocator.Owned, ItemAllocator.States, Owns, Elements, Together,
      Shows, Segs, Laid, Total, Dead, RefsOf, Start, Pool.Exhausted, Took, ItemAllocator.Went,
      ItemAllocator.Idle, Stood;
    TogetherFacts(pool, allocs);
    InUse(pool, allocs, v);
    ShowsFacts(pool, allocs, v);
    var a := allocs[i];
    MadeHas(pool, a);
    ghost var cur, out, own := a.Cur(), pool.out, a.Owned();
    ghost var hs, fr := cur.headers, cur.freed;
    CurStands(pool, allocs, v, i);
    forall j | 0 <= j < |allocs| && j != i ensures Ready(pool, a, allocs[j]) {
      Apart(pool, a, allocs[j]);
      OwnedParts(allocs[j], pool);
    }
    var h, at := a.Alloc(pool, keylen, vallen, cleanup, granted);
    forall j | 0 <= j < |allocs| && j != i ensures allocs[j].Valid(pool) && a.Owned() !! allocs[j].Owned() {
      StandsBy(pool, a, allocs[j], out, own);
    }
    TogetherMake(pool, allocs);
    got := if h == null then None else Some(Item(h, at));
    v' := AllocSeen(pool, allocs, v, i, cur, hs, fr, keylen, vallen, cleanup, granted, h, at);
  }

  /** What is to be seen after ialloc_alloc. */
  lemma AllocSeen(pool: Pool, allocs: seq<ItemAllocator>, v: View, i: nat, cur: Segment, hs: map<nat, Header>, fr: nat,
                  keylen: nat, vallen: nat, cleanup: bool, granted: bool, h: Segment?, at: nat) returns (v': View)
    requires Together(pool, allocs) && Whole(v) && Elsewhere(allocs, v, i) && i < |allocs| && cur == End(v.chains[i])
    requires Stood(v, cur, pool.segsize, hs, fr) && Left(v, cur, hs) && Others(v, cur)
    requires Allotted(pool, allocs[i], v, i, keylen, vallen, cleanup, granted, h, at)
    ensures Shows(pool, allocs, v')
    ensures AllocStep(pool.segsize, pool.max, v, i, HEADER + keylen + vallen, cleanup, granted,
                      if h == null then None else Some(Item(h, at)), v')
  {
    hide Together, Shows, Segs, Laid, Total, Dead, RefsOf, ItemAllocator.Went, ItemAllocator.Idle, Stood, Left,
      Others;
    var n := HEADER + keylen + vallen;
    var dry := Dry(v, pool.max, granted);
    if v.reserves[i] == null && !cleanup {
      AllocBarred(pool, allocs, v, i, cur, hs, fr);
      v' := v;
    } else if Total(v.blocks[cur]) + n <= pool.segsize {
      AllocHere(pool, allocs, v, i, cur, hs, fr, n);
      v' := Written(v, cur, [Block(n, Live)], [1]);
    } else if h == null {
      AllocRefused(pool, allocs, v, i, cur, hs, fr, cleanup, granted);
      v' := Padded(v, i, pool.segsize, pool.max);
    } else {
      AllocOn(pool, allocs, v, i, cur, hs, fr, cleanup, granted, h, n);
      v' := Extended(v, Padded(v, i, pool.segsize, pool.max), i, h, n, dry);
    }
  }

  /** What ialloc_alloc has answered, and done to the chain, the reserve, the free list and the current
      segment. */
  ghost predicate Allotted(pool: Pool, a: ItemAllocator, v: View, i: nat, keylen: nat, vallen: nat, cleanup: bool,
      granted: bool,
                           h: Segment?, at: nat)
    requires Whole(v) && i < |v.chains|
    reads pool, a, End(v.chains[i]), h
  {
    var cur, n := End(v.chains[i]), HEADER + keylen + vallen;
    var bs := v.blocks[cur];
    if v.reserves[i] == null && !cleanup then
      h == null && cur.blocks == bs && a.Idle(pool, v.chains[i], v.reserves[i], v.free, v.alloced)
    else if Total(bs) + n <= pool.segsize then
      && h == cur && at == Total(bs) && cur.blocks == bs + [Block(n, Live)]
      && at in cur.headers && cur.headers[at].refcount == 1
      && a.Idle(pool, v.chains[i], v.reserves[i], v.free, v.alloced)
    else
      && cur.blocks == bs + Padding(pool.segsize - Total(bs))
      && a.Went(pool, cleanup, granted, h, v.chains[i], v.reserves[i], v.free, v.alloced)
      && (h != null ==> at == 0 && h.blocks == [Block(n, Live)] && 0 in h.headers && h.headers[0].refcount == 1)
  }

  /** The current segment of allocator i as v shows it. */
  lemma CurStands(pool: Pool, allocs: seq<ItemAllocator>, v: View, i: nat)
    requires Together(pool, allocs) && Shows(pool, allocs, v) && Whole(v) && i < |allocs|
    ensures i < |v.chains| && v.chains[i] != [] && allocs[i].chain == v.chains[i] && allocs[i].Cur() == End(v.chains[i])
    ensures i < |v.reserves| && allocs[i].reserved == v.reserves[i]
    ensures var cur := allocs[i].Cur();
      && Stood(v, cur, pool.segsize, cur.headers, cur.freed) && cur.size == pool.segsize
         && cur.offset == Total(v.blocks[cur])
      && cur.blocks == v.blocks[cur]
  {
    hide *;
    AllocValid(pool, allocs, i);
    CurLaid(pool, allocs[i]);
    CurShown(pool, allocs, v, i);
    var cur := allocs[i].Cur();
    LaidTotal(cur.blocks, cur.headers, cur.offset, cur.freed, cur.size);
    StoodMake(v, cur, pool.segsize);
  }

  lemma StoodMake(v: View, cur: Segment, segsize: nat)
    requires cur in v.blocks && cur in v.refs && v.blocks[cur] == cur.blocks
      && v.refs[cur] == RefsOf(cur.blocks, cur.headers)
    requires Laid(cur.blocks, cur.headers, Total(cur.blocks), cur.freed, segsize)
    ensures Stood(v, cur, segsize, cur.headers, cur.freed)
  {
    hide Laid, RefsOf, Total;
  }

  lemma CurShown(pool: Pool, allocs: seq<ItemAllocator>, v: View, i: nat)
    requires Shows(pool, allocs, v) && Whole(v) && i < |allocs|
    ensures i < |v.chains| && v.chains[i] != [] && allocs[i].chain == v.chains[i] && allocs[i].Cur() == End(v.chains[i])
    ensures i < |v.reserves| && allocs[i].reserved == v.reserves[i]
    ensures var cur := allocs[i].Cur();
      cur in v.blocks && cur in v.refs && v.blocks[cur] == cur.blocks && v.refs[cur] == RefsOf(cur.blocks, cur.headers)
  {
    hide RefsOf, Segs;
  }

  lemma AllocValid(pool: Pool, allocs: seq<ItemAllocator>, i: nat)
    requires Together(pool, allocs) && i < |allocs|
    ensures pool.Valid() && allocs[i].Valid(pool)
  {
    hide Pool.Valid, ItemAllocator.Valid, ItemAllocator.Owned;
  }

  lemma CurLaid(pool: Pool, a: ItemAllocator)
    requires a.Valid(pool)
    ensures a.chain != [] && a.Cur().size == pool.segsize
    ensures Laid(a.Cur().blocks, a.Cur().headers, a.Cur().offset, a.Cur().freed, a.Cur().size)
  {
    hide Laid;
  }

  // ----- the refill -----

  lemma ReserveOut(pool: Pool, allocs: seq<ItemAllocator>, v: View, i: nat)
    requires Together(pool, allocs) && Elsewhere(allocs, v, i) && i < |allocs|
    requires allocs[i].chain == v.chains[i] && v.reserves[i] == null && allocs[i].reserved != null
    ensures allocs[i].reserved !in Segs(v.chains) && forall j :: 0 <= j < |v.reserves| ==>
      v.reserves[j] != allocs[i].reserved
  {
    TogetherFacts(pool, allocs);
    hide Pool.Valid, ItemAllocator.Valid, ItemAllocator.Owned, Together;
    var a := allocs[i];
    var h := a.reserved;
    OwnedOut(pool, a);
    forall j | 0 <= j < |allocs| ensures h !in v.chains[j] && v.reserves[j] != h {
      OwnedOut(pool, allocs[j]);
      InElements(allocs[j].chain);
      if j == i {
        ReserveNotIn(pool, a);
      }
    }
  }

  lemma ReserveNotIn(pool: Pool, a: ItemAllocator)
    requires a.Valid(pool) && a.reserved != null
    ensures a.reserved !in a.chain
  {
    hide ItemAllocator.States;
  }

  /** The end of ialloc_cleanup_item by one of them. */
  method RefillBy(pool: Pool, allocs: seq<ItemAllocator>, i: nat, granted: bool, ghost v: View) returns (ghost v': View)
    requires Together(pool, allocs) && Shows(pool, allocs, v) && i < |allocs|
    modifies pool, allocs[i], pool.made
    ensures Together(pool, allocs) && Shows(pool, allocs, v') && Whole(v) && i < |v.chains|
    ensures RefillStep(pool.max, v, i, granted, v')
    ensures forall k :: 0 <= k < |pool.made| ==> pool.made[k] in old(pool.made) || fresh(pool.made[k])
  {
    hide Pool.Valid, ItemAllocator.Valid, ItemAllocator.Owned, ItemAllocator.States, Owns, Elements, Together,
      Shows, Segs, RefsOf, Pool.Exhausted;
    TogetherFacts(pool, allocs);
    InUse(pool, allocs, v);
    ShowsFacts(pool, allocs, v);
    var a := allocs[i];
    MadeHas(pool, a);
    ghost var out, own := pool.out, a.Owned();
    forall j | 0 <= j < |allocs| && j != i ensures Ready(pool, a, allocs[j]) {
      Apart(pool, a, allocs[j]);
      OwnedParts(allocs[j], pool);
    }
    a.Refill(pool, granted);
    forall j | 0 <= j < |allocs| && j != i ensures allocs[j].Valid(pool) && a.Owned() !! allocs[j].Owned() {
      StandsBy(pool, a, allocs[j], out, own);
    }
    TogetherMake(pool, allocs);
    v' := v.(free := pool.free, alloced := pool.alloced, reserves := v.reserves[i := a.reserved]);
    ShowsMake(pool, allocs, v');
    if v.reserves[i] != null {
      assert v.reserves[i := a.reserved] == v.reserves;
    } else if a.reserved != null {
      ReserveOut(pool, allocs, v, i);
    }
  }

  // ----- recycling -----

  /** A segment of a chain, as it is laid out. */
  lemma ChainLaid(pool: Pool, a: ItemAllocator, h: Segment)
    requires a.Valid(pool) && h in a.chain
    ensures h.size == pool.segsize && h.Valid()
  {
    hide Laid;
    var k :| 0 <= k < |a.chain| && a.chain[k] == h;
    assert k < |a.chain| - 1 ==> Closed(a.chain[k]);
  }

  lemma FullDone(pool: Pool, allocs: seq<ItemAllocator>, v: View, i: nat)
    requires Together(pool, allocs) && Shows(pool, allocs, v) && i < |allocs|
    ensures i < |v.chains| && forall h :: h in v.chains[i] ==> h in v.blocks
    ensures Full(allocs[i].chain) == Done(pool.segsize, v, i)
  {
    hide Together, Pool.Valid, ItemAllocator.Valid, Total, RefsOf;
    AllocValid(pool, allocs, i);
    forall h | h in v.chains[i] ensures h in v.blocks && (h.freed == h.size <==> Dead(v.blocks[h]) == pool.segsize) {
      assert h in Segs(v.chains);
      ChainLaid(pool, allocs[i], h);
    }
  }

  lemma {:induction false} BusyWithin(s: seq<Segment>, done: set<Segment>)
    ensures forall h :: h in Busy(s, done) ==> h in s
  {
    if s != [] {
      BusyWithin(s[..|s| - 1], done);
    }
  }

  lemma SegsLess(chains: seq<seq<Segment>>, i: nat, c: seq<Segment>)
    requires i < |chains| && forall h :: h in c ==> h in chains[i]
    ensures Segs(chains[i := c]) <= Segs(chains)
  {
  }

  lemma ShowsRecycled(pool: Pool, allocs: seq<ItemAllocator>, v: View, i: nat, v': View)
    requires Whole(v) && i < |v.chains| && forall h :: h in v.chains[i] ==> h in v.blocks
    requires RecycleStep(pool.segsize, v, i, v')
    requires forall h :: h in Segs(v.chains) ==> h.blocks == v.blocks[h] && RefsOf(h.blocks, h.headers) == v.refs[h]
    requires Parts(pool, allocs, v')
    ensures Shows(pool, allocs, v')
  {
    hide RefsOf, Segs, Dead, Busy, Spent;
    BusyWithin(Front(v.chains[i]), Done(pool.segsize, v, i));
    SegsLess(v.chains, i, v'.chains[i]);
    ShowsMake(pool, allocs, v');
  }

  lemma Recycled(pool: Pool, allocs: seq<ItemAllocator>, v: View, i: nat) returns (v': View)
    requires Whole(v) && Elsewhere(allocs, v, i) && i < |allocs| && forall h :: h in v.chains[i] ==> h in v.blocks
    requires forall h :: h in Segs(v.chains) ==> h.blocks == v.blocks[h] && RefsOf(h.blocks, h.headers) == v.refs[h]
    requires allocs[i].chain == Busy(Front(v.chains[i]), Done(pool.segsize, v, i)) + [End(v.chains[i])]
    requires pool.free == Spent(Front(v.chains[i]), Done(pool.segsize, v, i)) + v.free && pool.alloced == v.alloced
    requires allocs[i].reserved == v.reserves[i]
    ensures Shows(pool, allocs, v') && RecycleStep(pool.segsize, v, i, v')
  {
    hide Shows, Segs, RefsOf, Front, Done, Busy, Spent;
    var chains' := v.chains[i := allocs[i].chain];
    v' := View(pool.free, v.alloced, chains', v.reserves,
               map h | h in v.blocks && h in Segs(chains') :: v.blocks[h], map h | h in v.refs
                 && h in Segs(chains') :: v.refs[h]);
    ShowsRecycled(pool, allocs, v, i, v');
  }

  /** The first loop of ialloc_maintenance by one of them. */
  method RecycleBy(pool: Pool, allocs: seq<ItemAllocator>, i: nat, ghost v: View) returns (ghost v': View)
    requires Together(pool, allocs) && Shows(pool, allocs, v) && i < |allocs|
    modifies pool, allocs[i], pool.made
    ensures Together(pool, allocs) && Shows(pool, allocs, v') && Whole(v) && i < |v.chains|
    ensures forall h :: h in v.chains[i] ==> h in v.blocks
    ensures RecycleStep(pool.segsize, v, i, v')
    ensures forall k :: 0 <= k < |pool.made| ==> pool.made[k] in old(pool.made) || fresh(pool.made[k])
  {
    hide Pool.Valid, ItemAllocator.Valid, ItemAllocator.Owned, ItemAllocator.States, Owns, Together, Shows,
      Segs, RefsOf, Front, Full, Done, Busy, Spent, Empty, RecycleStep;
    TogetherFacts(pool, allocs);
    InUse(pool, allocs, v);
    ShowsFacts(pool, allocs, v);
    FullDone(pool, allocs, v, i);
    var a := allocs[i];
    MadeHas(pool, a);
    ghost var out, own := pool.out, a.Owned();
    forall j | 0 <= j < |allocs| && j != i ensures Ready(pool, a, allocs[j]) {
      Apart(pool, a, allocs[j]);
      OwnedParts(allocs[j], pool);
    }
    a.Recycle(pool);
    forall j | 0 <= j < |allocs| && j != i ensures allocs[j].Valid(pool) && a.Owned() !! allocs[j].Owned() {
      StandsBy(pool, a, allocs[j], out, own);
    }
    TogetherMake(pool, allocs);
    v' := Recycled(pool, allocs, v, i);
  }

  // ----- releasing -----

  /** One reference less. */
  lemma RefsDrop(bs: seq<Block>, headers: map<nat, Header>, offset: nat, freed: nat, size: nat, b: nat, bs': seq<Block>,
                 headers': map<nat, Header>)
    requires Laid(bs, headers, offset, freed, size) && b < |bs| && bs[b].kind == Live
    requires Start(bs, b) in headers && headers[Start(bs, b)].refcount > 0
    requires var was := headers[Start(bs, b)];
      && headers' == headers[Start(bs, b) := was.(refcount := was.refcount - 1)]
      && bs' == (if was.refcount == 1 then bs[b := Block(bs[b].total, Gone)] else bs)
    ensures RefsOf(bs, headers)[b] == headers[Start(bs, b)].refcount
    ensures RefsOf(bs', headers') == RefsOf(bs, headers)[b := RefsOf(bs, headers)[b] - 1]
  {
    DeadDies(bs, b);
    forall c | 0 <= c < |bs|
      ensures RefOf(bs', headers', c) == if c == b then RefOf(bs, headers, b) - 1 else RefOf(bs, headers, c)
    {
      assert Start(bs', c) == Start(bs, c);
      assert Described(bs, headers, c) && Described(bs, headers, b);
      if c != b && bs[c].kind == Live {
        StartsApart(bs, headers, c, b);
      }
    }
  }

  /** item_unref, by whoever holds it, of an item that is block b of a segment in use. */
  method ReleaseBy(x: Item, ghost pool: Pool, ghost allocs: seq<ItemAllocator>, ghost v: View, ghost b: nat)
      returns (ghost v': View)
    requires Together(pool, allocs) && Shows(pool, allocs, v)
    requires x.h in v.blocks && b < |v.blocks[x.h]| && v.blocks[x.h][b].kind == Live && x.at == Start(v.blocks[x.h], b)
    modifies x.h
    ensures Together(pool, allocs) && Shows(pool, allocs, v') && FreeStep(v, x, v')
  {
    hide Pool.Valid, ItemAllocator.Valid, ItemAllocator.Owned, ItemAllocator.States, Owns, Elements, Together,
      Shows, Segs, RefsOf, Start, Laid;
    TogetherFacts(pool, allocs);
    InUse(pool, allocs, v);
    ShowsFacts(pool, allocs, v);
    ghost var i := HomeOf(v.chains, x.h);
    ghost var a := allocs[i];
    MadeHas(pool, a);
    ghost var out, own, hs, bs := pool.out, a.Owned(), x.h.headers, x.h.blocks;
    ChainLaid(pool, a, x.h);
    ghost var off, fr, size := x.h.offset, x.h.freed, x.h.size;
    forall j | 0 <= j < |allocs| && j != i ensures Ready(pool, a, allocs[j]) {
      Apart(pool, a, allocs[j]);
      OwnedParts(allocs[j], pool);
    }
    ghost var n: nat :| n < |a.chain| && a.chain[n] == x.h;
    Release(x.h, x.at, pool, a, n, b);
    forall j | 0 <= j < |allocs| && j != i ensures allocs[j].Valid(pool) && a.Owned() !! allocs[j].Owned() {
      StandsBy(pool, a, allocs[j], out, own);
    }
    TogetherMake(pool, allocs);
    RefsDrop(bs, hs, off, fr, size, b, x.h.blocks, x.h.headers);
    v' := v.(blocks := v.blocks[x.h := x.h.blocks], refs := v.refs[x.h := RefsOf(x.h.blocks, x.h.headers)]);
    ShowsMake(pool, allocs, v');
    assert Unreferred(v, x, b, v');
  }

  // ----- runs -----

  /** What the cores do: one allocator is asked for an item, or to refill its reserve or recycle its
      segments, or the k-th item held is released. */
  datatype Op =
    | Alloc(i: nat, keylen: nat, vallen: nat, cleanup: bool, granted: bool)
    | Refill(i: nat, granted: bool)
    | Recycle(i: nat)
    | Free(k: nat)

  predicate Sound(op: Op, n: nat, segsize: nat)
  {
    if op.Free? then true else op.i < n && (op.Alloc? ==> HEADER + op.keylen + op.vallen < segsize)
  }

  function Without<T>(s: seq<T>, k: nat): seq<T>
    requires k < |s|
  {
    s[..k] + s[k + 1..]
  }

  /** The items held after an operation with its answer. */
  function Holding(held: seq<Item>, op: Op, got: Option<Item>): seq<Item>
  {
    match op
    case Alloc(_, _, _, _, _) => if got.Some? then held + [got.value] else held
    case Refill(_, _) => held
    case Recycle(_) => held
    case Free(k) => if k < |held| then Without(held, k) else held
  }

  /** The items given out and not released. */
  function HeldAfter(ops: seq<Op>, got: seq<Option<Item>>): seq<Item>
    requires |got| == |ops|
  {
    if ops == [] then [] else
      var n := |ops| - 1;
      Holding(HeldAfter(ops[..n], got[..n]), ops[n], got[n])
  }

  /** What an operation answers, and what it does. */
  ghost predicate Step(segsize: nat, max: nat, v: View, held: seq<Item>, op: Op, got: Option<Item>, v': View)
  {
    && Whole(v) && (op.Free? || op.i < |v.chains|)
    && match op
       case Alloc(i, keylen, vallen, cleanup, granted) =>
         AllocStep(segsize, max, v, i, HEADER + keylen + vallen, cleanup, granted, got, v')
       case Refill(i, granted) => got == None && RefillStep(max, v, i, granted, v')
       case Recycle(i) => got == None && (forall h :: h in v.chains[i] ==> h in v.blocks)
         && RecycleStep(segsize, v, i, v')
       case Free(k) => got == None && if k < |held| then FreeStep(v, held[k], v') else v' == v
  }

  // ----- items stay where they are until they are released -----

  ghost predicate LiveAt(bs: seq<Block>, at: nat)
  {
    exists b: nat :: b < |bs| && bs[b].kind == Live && at == Start(bs, b)
  }

  /** The items are different ones, each where it was put, with references. */
  ghost predicate Kept(v: View, held: seq<Item>)
  {
    && (forall k :: 0 <= k < |held| ==> held[k].h in v.blocks && LiveAt(v.blocks[held[k].h], held[k].at))
    && forall k, l :: 0 <= k < l < |held| ==> held[k] != held[l]
  }

  /** Segments are filled no further than they go, and those free or kept back are not in use. */
  ghost predicate Orderly(v: View, segsize: nat)
  {
    && Whole(v)
    && (forall h :: h in v.blocks ==> Total(v.blocks[h]) <= segsize && Sized(v.blocks[h]))
    && (forall h :: h in v.free ==> h !in v.blocks)
    && forall j :: 0 <= j < |v.reserves| && v.reserves[j] != null ==> v.reserves[j] !in v.blocks
  }

  predicate Sized(bs: seq<Block>)
  {
    forall b :: 0 <= b < |bs| && bs[b].kind == Live ==> bs[b].total >= HEADER
  }

  /** More is written behind an item. */
  lemma LiveLater(bs: seq<Block>, more: seq<Block>, at: nat)
    requires LiveAt(bs, at)
    ensures LiveAt(bs + more, at)
  {
    var b: nat :| b < |bs| && bs[b].kind == Live && at == Start(bs, b);
    assert (bs + more)[..b] == bs[..b] && (bs + more)[b] == bs[b];
  }

  lemma LiveBelow(bs: seq<Block>, at: nat)
    requires LiveAt(bs, at) && Sized(bs)
    ensures at < Total(bs)
  {
    var b: nat :| b < |bs| && bs[b].kind == Live && at == Start(bs, b);
    StartNext(bs, b);
    StartBelow(bs, b + 1, |bs|);
    assert bs[..|bs|] == bs;
  }

  lemma LiveLast(bs: seq<Block>, n: nat)
    ensures LiveAt(bs + [Block(n, Live)], Total(bs))
  {
    var bs' := bs + [Block(n, Live)];
    assert bs'[..|bs|] == bs && bs'[|bs|] == Block(n, Live);
    assert Start(bs', |bs|) == Total(bs);
  }

  lemma LiveOnly(n: nat)
    ensures LiveAt([Block(n, Live)], 0)
  {
    assert Start([Block(n, Live)], 0) == 0;
  }

  /** Another item dies. */
  lemma LiveStill(bs: seq<Block>, b: nat, at: nat)
    requires b < |bs| && bs[b].kind == Live && LiveAt(bs, at) && at != Start(bs, b)
    ensures LiveAt(bs[b := Block(bs[b].total, Gone)], at)
  {
    var bs' := bs[b := Block(bs[b].total, Gone)];
    DeadDies(bs, b);
    var c: nat :| c < |bs| && bs[c].kind == Live && at == Start(bs, c);
    assert bs'[c] == bs[c] && at == Start(bs', c);
  }

  /** A segment with a live item is not done with. */
  lemma LiveNotDone(bs: seq<Block>, at: nat, segsize: nat)
    requires LiveAt(bs, at) && Sized(bs) && Total(bs) <= segsize
    ensures Dead(bs) != segsize
  {
    DeadBelow(bs);
    var b: nat :| b < |bs| && bs[b].kind == Live && at == Start(bs, b);
    assert bs[b].total > 0;
  }

  lemma {:induction false} InBusy(s: seq<Segment>, done: set<Segment>, h: Segment)
    requires h in s && h !in done
    ensures h in Busy(s, done)
  {
    if s[|s| - 1] != h {
      InBusy(s[..|s| - 1], done, h);
    }
  }

  lemma KeptAlloc(segsize: nat, max: nat, v: View, held: seq<Item>, op: Op, got: Option<Item>, v': View)
    requires Orderly(v, segsize) && Kept(v, held) && op.Alloc? && Step(segsize, max, v, held, op, got, v')
    ensures Kept(v', Holding(held, op, got))
  {
    hide LiveAt, Total, Sized, Segs;
    var cur, n := End(v.chains[op.i]), HEADER + op.keylen + op.vallen;
    var pad := Padding(segsize - Total(v.blocks[cur]));
    forall k | 0 <= k < |held|
      ensures held[k].h == cur ==> held[k].at < Total(v.blocks[cur])
      ensures LiveAt(v.blocks[held[k].h] + pad, held[k].at)
        && LiveAt(v.blocks[held[k].h] + [Block(n, Live)], held[k].at)
    {
      LiveBelow(v.blocks[held[k].h], held[k].at);
      LiveLater(v.blocks[held[k].h], pad, held[k].at);
      LiveLater(v.blocks[held[k].h], [Block(n, Live)], held[k].at);
    }
    LiveLast(v.blocks[cur], n);
    LiveOnly(n);
  }

  lemma StaysInChain(c: seq<Segment>, done: set<Segment>, h: Segment)
    requires h in c && h !in done
    ensures h in Busy(Front(c), done) + [End(c)]
  {
    hide Busy;
    if h in Front(c) {
      InBusy(Front(c), done, h);
    }
  }

  lemma InSegs(chains: seq<seq<Segment>>, j: nat, h: Segment)
    requires j < |chains| && h in chains[j]
    ensures h in Segs(chains)
  {
  }

  lemma StaysInUse(segsize: nat, v: View, i: nat, v': View, h: Segment, at: nat)
    requires Orderly(v, segsize) && i < |v.chains| && forall x :: x in v.chains[i] ==> x in v.blocks
    requires RecycleStep(segsize, v, i, v') && h in v.blocks && LiveAt(v.blocks[h], at)
    ensures h in Segs(v'.chains)
  {
    hide LiveAt, Total, Dead, Sized, Busy, Spent, Segs;
    LiveNotDone(v.blocks[h], at, segsize);
    var j := HomeOf(v.chains, h);
    if j == i {
      StaysInChain(v.chains[i], Done(segsize, v, i), h);
    }
    InSegs(v'.chains, j, h);
  }

  lemma KeptRecycle(segsize: nat, max: nat, v: View, held: seq<Item>, op: Op, got: Option<Item>, v': View)
    requires Orderly(v, segsize) && Kept(v, held) && op.Recycle? && Step(segsize, max, v, held, op, got, v')
    ensures Kept(v', held)
  {
    hide LiveAt, Orderly, Segs, Done, Busy, Spent;
    forall k | 0 <= k < |held| ensures held[k].h in Segs(v'.chains) {
      StaysInUse(segsize, v, op.i, v', held[k].h, held[k].at);
    }
  }

  lemma KeptFree(segsize: nat, max: nat, v: View, held: seq<Item>, op: Op, got: Option<Item>, v': View)
    requires Orderly(v, segsize) && Kept(v, held) && op.Free? && op.k < |held|
      && Step(segsize, max, v, held, op, got, v')
    ensures Kept(v', Without(held, op.k))
  {
    hide LiveAt, Total, Start, Sized, Segs;
    var x := held[op.k];
    var b: nat :| b < |v.blocks[x.h]| && Unreferred(v, x, b, v');
    forall l | 0 <= l < |held| && l != op.k ensures held[l].h in v'.blocks && LiveAt(v'.blocks[held[l].h], held[l].at) {
      if held[l].h == x.h {
        LiveStill(v.blocks[x.h], b, held[l].at);
      }
    }
    var rest := Without(held, op.k);
    assert forall l :: 0 <= l < |rest| ==> rest[l] == held[if l < op.k then l else l + 1];
  }

  /** Whatever the cores do, an item given out stays live where it is until it is released. */
  lemma StepKeeps(segsize: nat, max: nat, v: View, held: seq<Item>, op: Op, got: Option<Item>, v': View)
    requires Orderly(v, segsize) && Kept(v, held) && Step(segsize, max, v, held, op, got, v')
    ensures Kept(v', Holding(held, op, got))
  {
    hide LiveAt, Total, Dead, Sized, Segs, Busy, Spent, AllocStep, RecycleStep, FreeStep;
    match op
    case Alloc(_, _, _, _, _) => KeptAlloc(segsize, max, v, held, op, got, v');
    case Refill(_, _) =>
    case Recycle(_) => KeptRecycle(segsize, max, v, held, op, got, v');
    case Free(k) =>
      if k < |held| {
        KeptFree(segsize, max, v, held, op, got, v');
      }
  }

  lemma SegmentOrderly(h: Segment)
    requires h.Valid()
    ensures Total(h.blocks) <= h.size && Sized(h.blocks)
  {
    forall b | 0 <= b < |h.blocks| && h.blocks[b].kind == Live ensures h.blocks[b].total >= HEADER {
      assert Described(h.blocks, h.headers, b);
    }
  }

  lemma BlocksOrderly(pool: Pool, allocs: seq<ItemAllocator>, v: View, h: Segment)
    requires Together(pool, allocs) && Shows(pool, allocs, v) && h in v.blocks
    ensures Total(v.blocks[h]) <= pool.segsize && Sized(v.blocks[h])
  {
    ShowsFacts(pool, allocs, v);
    hide Together, Shows, Segs, Pool.Valid, ItemAllocator.Valid, Total, Sized, RefsOf;
    var j := HomeOf(v.chains, h);
    AllocValid(pool, allocs, j);
    ChainLaid(pool, allocs[j], h);
    SegmentOrderly(h);
  }

  lemma ViewOrderly(pool: Pool, allocs: seq<ItemAllocator>, v: View)
    requires Together(pool, allocs) && Shows(pool, allocs, v)
    ensures Orderly(v, pool.segsize)
  {
    hide Together, Shows, Segs, Total, Sized, RefsOf, Whole;
    InUse(pool, allocs, v);
    ShowsFacts(pool, allocs, v);
    forall h | h in v.blocks ensures Total(v.blocks[h]) <= pool.segsize && Sized(v.blocks[h]) {
      BlocksOrderly(pool, allocs, v, h);
    }
  }

  lemma LiveBlock(v: View, held: seq<Item>, k: nat) returns (b: nat)
    requires Kept(v, held) && k < |held|
    ensures held[k].h in v.blocks
    ensures var bs := v.blocks[held[k].h]; b < |bs| && bs[b].kind == Live && held[k].at == Start(bs, b)
  {
    var bs := v.blocks[held[k].h];
    b :| b < |bs| && bs[b].kind == Live && held[k].at == Start(bs, b);
  }

  /** One operation of a run. */
  method Do(pool: Pool, allocs: seq<ItemAllocator>, held: seq<Item>, op: Op, ghost v: View)
      returns (got: Option<Item>, ghost v': View)
    requires Together(pool, allocs) && Shows(pool, allocs, v) && Kept(v, held) && Sound(op, |allocs|, pool.segsize)
    modifies pool, allocs, pool.made
    ensures Together(pool, allocs) && Shows(pool, allocs, v') && Orderly(v', pool.segsize)
    ensures Step(pool.segsize, pool.max, v, held, op, got, v') && Kept(v', Holding(held, op, got))
    ensures forall k :: 0 <= k < |pool.made| ==> pool.made[k] in old(pool.made) || fresh(pool.made[k])
  {
    hide Together, Shows, Kept, AllocStep, RefillStep, RecycleStep, FreeStep, Orderly, Segs, Whole;
    ViewOrderly(pool, allocs, v);
    InUse(pool, allocs, v);
    got := None;
    match op {
      case Alloc(i, keylen, vallen, cleanup, granted) =>
        got, v' := AllocBy(pool, allocs, i, keylen, vallen, cleanup, granted, v);
      case Refill(i, granted) =>
        v' := RefillBy(pool, allocs, i, granted, v);
      case Recycle(i) =>
        v' := RecycleBy(pool, allocs, i, v);
      case Free(k) =>
        if k < |held| {
          ghost var b := LiveBlock(v, held, k);
          BlockMade(pool, allocs, v, held[k].h);
          v' := ReleaseBy(held[k], pool, allocs, v, b);
        } else {
          v' := v;
        }
    }
    StepKeeps(pool.segsize, pool.max, v, held, op, got, v');
    ViewOrderly(pool, allocs, v');
  }

  lemma BlockMade(pool: Pool, allocs: seq<ItemAllocator>, v: View, h: Segment)
    requires Together(pool, allocs) && Shows(pool, allocs, v) && h in v.blocks
    ensures h in pool.made
  {
    hide Together, Shows, Segs;
    InUse(pool, allocs, v);
    ShowsFacts(pool, allocs, v);
  }

  /** Any run of several allocators on one pool.  got: the answers; vs: what is to be seen before, between
      and after the operations.  Each operation does what it should, and at every moment the items given
      out and not released are live where they were put. */
  method Run(pool: Pool, allocs: seq<ItemAllocator>, ops: seq<Op>, ghost v: View)
    returns (held: seq<Item>, got: seq<Option<Item>>, ghost vs: seq<View>)
    requires Together(pool, allocs) && Shows(pool, allocs, v)
    requires forall n :: 0 <= n < |ops| ==> Sound(ops[n], |allocs|, pool.segsize)
    modifies pool, allocs, pool.made
    ensures |got| == |ops| && |vs| == |ops| + 1 && vs[0] == v && held == HeldAfter(ops, got)
    ensures Together(pool, allocs) && Shows(pool, allocs, vs[|ops|])
    ensures forall n :: 0 <= n < |ops| ==>
      Step(pool.segsize, pool.max, vs[n], HeldAfter(ops[..n], got[..n]), ops[n], got[n], vs[n + 1])
    ensures forall n :: 0 <= n <= |ops| ==> Kept(vs[n], HeldAfter(ops[..n], got[..n])) && Orderly(vs[n], pool.segsize)
  {
    hide Together, Shows, Kept, Step, Holding, HeldAfter, Orderly;
    ViewOrderly(pool, allocs, v);
    held, got, vs := [], [], [v];
    NoneKept(v);
    for n := 0 to |ops|
      invariant |got| == n && |vs| == n + 1 && vs[0] == v && held == HeldAfter(ops[..n], got)
      invariant Together(pool, allocs) && Shows(pool, allocs, vs[n])
      invariant forall k :: 0 <= k < |pool.made| ==> pool.made[k] in old(pool.made) || fresh(pool.made[k])
      invariant forall m :: 0 <= m < n ==>
        Step(pool.segsize, pool.max, vs[m], HeldAfter(ops[..m], got[..m]), ops[m], got[m], vs[m + 1])
      invariant forall m :: 0 <= m <= n ==> Kept(vs[m], HeldAfter(ops[..m], got[..m])) && Orderly(vs[m], pool.segsize)
    {
      ghost var w := vs[n];
      assert got[..n] == got;
      var g, w' := Do(pool, allocs, held, ops[n], w);
      var got' := got + [g];
      assert forall m :: 0 <= m <= n ==> got'[..m] == got[..m];
      HeldNext(ops, got, g);
      held, got, vs := Holding(held, ops[n], g), got', vs + [w'];
      assert got[..n + 1] == got;
    }
    assert ops[..|ops|] == ops && got[..|ops|] == got;
  }

  lemma HeldNext(ops: seq<Op>, got: seq<Option<Item>>, g: Option<Item>)
    requires |got| < |ops|
    ensures HeldAfter(ops[..|got| + 1], got + [g]) == Holding(HeldAfter(ops[..|got|], got), ops[|got|], g)
  {
    var n := |got|;
    assert ops[..n + 1][..n] == ops[..n] && (got + [g])[..n] == got;
  }

  lemma NoneKept(v: View)
    ensures HeldAfter([], []) == [] && Kept(v, [])
  {
  }
}
