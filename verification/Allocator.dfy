/** Segments and who has them: the free list shared by all cores, and the chain of segments each
    core's allocator writes its items to.  apps/flexkvs/server/ialloc.c. */
module Allocator {
  import opened Segments

  ghost function Elements(s: seq<Segment>): set<Segment> { set x | x in s }

  ghost predicate Distinct(s: seq<Segment>) { forall i, j :: 0 <= i < j < |s| ==> s[i] != s[j] }

  /** Every segment made is on the free list, once, or handed out, and not both. */
  ghost predicate Parted(made: seq<Segment>, free: seq<Segment>, out: set<Segment>)
  {
    Distinct(made) && Distinct(free) && Elements(made) == Elements(free) + out && Elements(free) !! out
  }

  /** The segments of an allocator are distinct, and handed out. */
  ghost predicate Owns(chain: seq<Segment>, reserved: Segment?, out: set<Segment>)
  {
    chain != [] && Distinct(chain) && Elements(chain) <= out
      && (reserved != null ==> reserved in out && reserved !in chain)
  }

  /** What segment_alloc does: h is the next free segment, or else a new one. */
  predicate Took(free: seq<Segment>, alloced: nat, max: nat, granted: bool, h: Segment?, free': seq<Segment>,
      alloced': nat)
  {
    if free != [] then h == free[0] && free' == free[1..] && alloced' == alloced
    else
      && free' == [] && alloced' == (if alloced < max then alloced + 1 else alloced)
      && (h == null <==> alloced >= max || !granted)
  }

  function Both(s: set<Segment>, x: Segment?): set<Segment>
  {
    s + if x == null then {} else {x}
  }

  lemma PartedTake(made: seq<Segment>, free: seq<Segment>, out: set<Segment>)
    requires Parted(made, free, out) && free != []
    ensures Parted(made, free[1..], out + {free[0]}) && free[0] !in out && free[0] in made
  {
    assert free[0] in Elements(free) && free[0] in Elements(made);
    assert free == [free[0]] + free[1..];
  }

  lemma PartedMake(made: seq<Segment>, free: seq<Segment>, out: set<Segment>, h: Segment)
    requires Parted(made, free, out) && h !in made
    ensures Parted(made + [h], free, out + {h}) && h !in out && h !in free
  {
    assert Elements(made + [h]) == Elements(made) + {h};
    assert h !in Elements(made);
  }

  lemma PartedFree(made: seq<Segment>, free: seq<Segment>, out: set<Segment>, h: Segment)
    requires Parted(made, free, out) && h in out
    ensures Parted(made, [h] + free, out - {h})
  {
    assert Elements([h] + free) == {h} + Elements(free);
    assert h !in Elements(free);
  }

  lemma OwnsDrop(chain: seq<Segment>, reserved: Segment?, out: set<Segment>, i: nat)
    requires Owns(chain, reserved, out) && i < |chain| - 1
    ensures Owns(chain[..i] + chain[i + 1..], reserved, out - {chain[i]})
    ensures chain[i] in out && chain[i] in Elements(chain)
      && Elements(chain[..i] + chain[i + 1..]) == Elements(chain) - {chain[i]}
    ensures forall j :: 0 <= j < |chain| && j != i ==> chain[j] != chain[i]
    ensures reserved != chain[i]
  {
    DropOne(chain, i, chain[..i] + chain[i + 1..]);
    assert chain[i] in Elements(chain);
  }

  /** Each segment made has a stretch of memory of its own, among the first n. */
  ghost predicate Placed(made: seq<Segment>, slots: seq<nat>, n: nat, segsize: nat)
  {
    && |slots| == |made|
    && (forall i :: 0 <= i < |slots| ==> slots[i] < n)
    && (forall i, j :: 0 <= i < j < |slots| ==> slots[i] < slots[j])
    && forall i :: 0 <= i < |made| ==> made[i].size == segsize && made[i].data == slots[i] * segsize
  }

  /** seg_headers, seg_alloced and free_segments.  out: the segments allocators have; slots: the
      stretch of memory each segment has, some being lost to failed calls. */
  class Pool {
    const segsize: nat
    const max: nat
    var made: seq<Segment>
    var free: seq<Segment>
    var alloced: nat
    ghost var slots: seq<nat>
    ghost var out: set<Segment>

    ghost predicate Valid()
      reads this
    {
      alloced <= max && Parted(made, free, out) && Placed(made, slots, alloced, segsize)
    }

    constructor (segsize: nat, max: nat)
      ensures Valid() && this.segsize == segsize && this.max == max && made == [] && out == {} && alloced == 0
    {
      this.segsize, this.max, made, free, out, alloced, slots := segsize, max, [], [], {}, 0, [];
    }

    /** No segment is to be had: none is free, and no more can be made or the system does not go along. */
    ghost predicate Exhausted(granted: bool)
      reads this
    {
      free == [] && (alloced == max || !granted)
    }

    /** segment_alloc: a segment from the free list, or a new one while there is memory.  granted:
        mprotect and malloc succeed; if not, the stretch of memory is lost. */
    method SegmentAlloc(granted: bool) returns (h: Segment?)
      requires Valid()
      modifies this, free
      ensures Valid()
      ensures h == null <==> old(Exhausted(granted))
      ensures Took(old(free), old(alloced), max, granted, h, free, alloced)
        && (old(free) == [] && h != null ==> fresh(h))
      ensures alloced == old(alloced) + if old(free) == [] && old(alloced) < max then 1 else 0
      ensures h == null ==> out == old(out) && free == old(free) && made == old(made)
      ensures h != null ==> h !in old(out) && out == old(out) + {h} && (fresh(h) || h in old(free))
      ensures forall x :: x in old(free) && x != h ==> x in free
      ensures h != null ==>
        h.Valid() && h.Readable() && h.offset == 0 && h.blocks == [] && !h.inactive && !h.cleaned && h.size == segsize
      ensures |made| + |old(free)| == |old(made)| + |free| + (if h == null then 0 else 1)
      ensures old(made) <= made && (free == old(free) || (old(free) != [] && free == old(free)[1..]))
      ensures forall x :: x in made ==> x in old(made) || fresh(x)
    {
      hide Parted;
      if free != [] {
        PartedTake(made, free, out);
        h := free[0];
        free := free[1..];
        out := out + {h};
        h.Reset();
      } else if alloced < max {
        var i := alloced;
        alloced := alloced + 1;
        if !granted {
          return null;
        }
        h := new Segment(i * segsize, segsize);
        PartedMake(made, free, out, h);
        made, slots := made + [h], slots + [i];
        out := out + {h};
      } else {
        h := null;
      }
    }

    /** segment_free */
    method SegmentFree(h: Segment)
      requires Valid() && h in out
      modifies this, h`offset
      ensures Valid() && out == old(out) - {h} && free == [h] + old(free) && made == old(made)
        && alloced == old(alloced)
    {
      hide Parted;
      PartedFree(made, free, out, h);
      h.offset := 0;
      free := [h] + free;
      out := out - {h};
    }
  }

  /** A segment nothing more is written to. */
  ghost predicate Closed(h: Segment) reads h { h.Valid() && h.inactive && h.offset == h.size }

  ghost predicate Unused(h: Segment) reads h { h.Valid() && h.offset == 0 && h.blocks == [] && !h.inactive }

  /** The last item of h is at `at`, with one reference and these lengths. */
  ghost predicate Holds(h: Segment, at: nat, keylen: nat, vallen: nat)
    reads h
  {
    at in h.headers && h.headers[at] == Header(1, keylen, vallen) && h.blocks != []
      && at == Start(h.blocks, |h.blocks| - 1)
  }

  /** struct item_allocator: its segments from the oldest to the one items go to, and one kept back
      for cleaning. */
  class ItemAllocator {
    var chain: seq<Segment>
    var reserved: Segment?

    ghost function Owned(): set<Segment>
      reads this
    {
      Both(Elements(chain), reserved)
    }

    /** All segments but the current one are closed, and the one kept back is unused. */
    ghost predicate States(segsize: nat)
      reads this, chain, reserved
    {
      && chain != []
      && (forall i :: 0 <= i < |chain| - 1 ==> Closed(chain[i]) && chain[i].size == segsize)
      && Cur().Valid() && !Cur().inactive && Cur().size == segsize
      && (reserved != null ==> Unused(reserved) && reserved.size == segsize)
    }

    ghost predicate Valid(pool: Pool)
      reads this, pool, chain, reserved
    {
      Owns(chain, reserved, pool.out) && States(pool.segsize)
    }

    /** ialloc_init_allocator, when there are two segments to be had; without them it aborts. */
    constructor (pool: Pool)
      requires pool.Valid() && |pool.free| + (pool.max - pool.alloced) >= 2
      modifies pool, pool.free
      ensures pool.Valid() && Valid(pool) && |chain| == 1 && reserved != null
      ensures pool.out == old(pool.out) + Owned() && Owned() !! old(pool.out)
    {
      var cur := pool.SegmentAlloc(true);
      var kept := pool.SegmentAlloc(true);
      chain, reserved := [cur], kept;
    }

    /** The segment items are written to. */
    ghost function Cur(): Segment
      requires chain != []
      reads this
    {
      chain[|chain| - 1]
    }

    /** ialloc_alloc: the segment the item is in, and where.  Without the reserved segment only
        cleaning may allocate. */
    method Alloc(pool: Pool, keylen: nat, vallen: nat, cleanup: bool, granted: bool) returns (h: Segment?, at: nat)
      requires pool.Valid() && Valid(pool)
      requires HEADER + keylen + vallen < pool.segsize
      modifies this, pool, pool.free, Cur(), reserved
      ensures pool.Valid() && Valid(pool)
      ensures chain == old(chain) || (h != null && chain == old(chain) + [h])
      ensures pool.out - Owned() == old(pool.out - Owned()) && Owned() >= old(Owned())
      ensures h == null <==>
        || (old(reserved) == null && !cleanup)
        || (old(HEADER + keylen + vallen > Cur().size - Cur().offset) && old(pool.Exhausted(granted))
            && !(cleanup && old(reserved) != null))
      ensures old(reserved == null && !cleanup) ==>
        Idle(pool, old(chain), old(reserved), old(pool.free), old(pool.alloced))
      ensures old(reserved == null && !cleanup) ==> old(Cur()).blocks == old(Cur().blocks)
      ensures old((reserved != null || cleanup) && HEADER + keylen + vallen <= Cur().size - Cur().offset) ==>
        h == old(Cur()) && at == old(Cur().offset)
          && Idle(pool, old(chain), old(reserved), old(pool.free), old(pool.alloced))
      ensures old((reserved != null || cleanup) && HEADER + keylen + vallen > Cur().size - Cur().offset) ==>
        && Went(pool, cleanup, granted, h, old(chain), old(reserved), old(pool.free), old(pool.alloced))
           && (h != null ==> at == 0 && h.blocks == [Block(HEADER + keylen + vallen, Live)])
        && old(Cur()).blocks == old(Cur().blocks) + Padding(old(Cur().size - Cur().offset))
      ensures forall x :: x in old(Cur().headers) && x < old(Cur().offset) ==>
        x in old(Cur()).headers && old(Cur()).headers[x] == old(Cur().headers)[x]
      ensures h != null ==> h == Cur() && Holds(h, at, keylen, vallen)
      ensures h != null ==>
        h.blocks == (if h == old(Cur()) then old(Cur().blocks) else []) + [Block(HEADER + keylen + vallen, Live)]
      ensures old(Cur().blocks) <= old(Cur()).blocks && (h != null && h == old(reserved) ==> old(reserved.blocks) == [])
      ensures forall x :: x in pool.made ==> x in old(pool.made) || fresh(x)
    {
      if reserved == null && !cleanup {
        return null, 0;
      }
      hide Laid, Start, Total, Dead, Fits, Holds;
      var ok;
      ok, at := PlaceItem(pool, keylen, vallen);
      if ok {
        return chain[|chain| - 1], at;
      }
      h := Extend(pool, cleanup, granted);
      if h != null {
        ok, at := PlaceItem(pool, keylen, vallen);
      }
    }

    /** Neither the chain nor the pool has changed. */
    ghost predicate Idle(pool: Pool, chain0: seq<Segment>, reserved0: Segment?, free0: seq<Segment>, alloced0: nat)
      reads this, pool
    {
      chain == chain0 && reserved == reserved0 && pool.free == free0 && pool.alloced == alloced0
    }

    /** The allocator has gone on to segment h: the next of the pool, or else, for cleaning, the one kept
        back; or there was none. */
    ghost predicate Went(pool: Pool, cleanup: bool, granted: bool, h: Segment?,
                         chain0: seq<Segment>, reserved0: Segment?, free0: seq<Segment>, alloced0: nat)
      reads this, pool
    {
      var none := free0 == [] && (alloced0 >= pool.max || !granted);
      && Took(free0, alloced0, pool.max, granted, if none then null else h, pool.free, pool.alloced)
      && (none ==> h == if cleanup then reserved0 else null)
      && reserved == (if none && cleanup then null else reserved0)
      && chain == (if h == null then chain0 else chain0 + [h])
    }

    /** The rest of the segment being padded, the next one is made the current one. */
    method Extend(pool: Pool, cleanup: bool, granted: bool) returns (h: Segment?)
      requires pool.Valid() && Valid(pool) && Cur().offset == Cur().size
      modifies this, pool, pool.free, Cur()`inactive
      ensures pool.Valid() && Valid(pool)
      ensures h == null <==> old(pool.Exhausted(granted)) && !(cleanup && old(reserved) != null)
      ensures h == null ==> chain == old(chain)
      ensures old(Cur()).blocks == old(Cur().blocks) && old(Cur()).headers == old(Cur().headers)
      ensures Went(pool, cleanup, granted, h, old(chain), old(reserved), old(pool.free), old(pool.alloced))
      ensures pool.out - Owned() == old(pool.out - Owned()) && Owned() >= old(Owned())
      ensures h != null ==> fresh(h) || h in old(pool.free) || h == old(reserved)
      ensures h != null ==>
        chain == old(chain) + [h] && h == Cur() && h != old(Cur()) && h.blocks == [] && h.offset == 0
          && h.size == pool.segsize
      ensures forall x :: x in pool.made ==> x in old(pool.made) || fresh(x)
    {
      hide Laid, Total, Dead, Fits;
      h := NextSegment(pool, cleanup, granted);
      if h != null {
        Append(pool, h);
      }
    }

    /** The item goes to the current segment, if it fits. */
    method PlaceItem(pool: Pool, keylen: nat, vallen: nat) returns (ok: bool, at: nat)
      requires pool.Valid() && Valid(pool)
      modifies Cur()
      ensures Valid(pool)
      ensures ok <==> old(HEADER + keylen + vallen <= Cur().size - Cur().offset)
      ensures !ok ==>
        && Cur().offset == Cur().size
        && Cur().blocks == old(Cur().blocks) + Padding(old(Cur().size - Cur().offset))
      ensures ok ==> at == old(Cur().offset)
      ensures forall x :: x in old(Cur().headers) && x != old(Cur().offset) ==>
        x in Cur().headers && Cur().headers[x] == old(Cur().headers)[x]
      ensures ok ==>
        && Holds(Cur(), at, keylen, vallen)
        && Cur().blocks == old(Cur().blocks) + [Block(HEADER + keylen + vallen, Live)]
    {
      hide Laid, Start, Total, Dead, Fits;
      var cur := chain[|chain| - 1];
      ghost var bs := cur.blocks;
      ghost var rest := Front(chain);
      assert forall i :: 0 <= i < |chain| - 1 ==> chain[i] in rest && chain[i] != cur;
      LaidTotal(bs, cur.headers, cur.offset, cur.freed, cur.size);
      ok, at := cur.ItemAlloc(keylen, vallen);
      if ok {
        StartLast(bs, Block(HEADER + keylen + vallen, Live));
      }
    }

    /** ialloc_cleanup_item on its way out: once the reserved segment is in use, another one is kept
        back as soon as there is one. */
    method Refill(pool: Pool, granted: bool)
      requires pool.Valid() && Valid(pool)
      modifies `reserved, pool, pool.free
      ensures pool.Valid() && Valid(pool) && chain == old(chain)
      ensures reserved == null <==> old(reserved) == null && old(pool.Exhausted(granted))
      ensures if old(reserved) == null
              then Took(old(pool.free), old(pool.alloced), pool.max, granted, reserved, pool.free, pool.alloced)
              else pool.free == old(pool.free) && pool.alloced == old(pool.alloced)
      ensures old(reserved) != null ==> reserved == old(reserved) && pool.out == old(pool.out)
      ensures pool.out - Owned() == old(pool.out - Owned()) && Owned() >= old(Owned())
      ensures forall x :: x in pool.made ==> x in old(pool.made) || fresh(x)
    {
      hide Laid, Total, Dead, Fits;
      if reserved == null {
        assert forall x :: x in Owned() ==> x !in Elements(pool.free);
        assert forall x :: x in Owned() ==> x !in pool.free;
        assert forall i :: 0 <= i < |chain| ==> chain[i] in Owned();
        reserved := pool.SegmentAlloc(granted);
      }
    }

    /** A segment to go on with: from the pool, or for cleaning the one kept back. */
    method NextSegment(pool: Pool, cleanup: bool, granted: bool) returns (h: Segment?)
      requires pool.Valid() && Valid(pool)
      modifies `reserved, pool, pool.free
      ensures pool.Valid() && Valid(pool) && chain == old(chain)
      ensures h == null <==> old(pool.Exhausted(granted)) && !(cleanup && old(reserved) != null)
      ensures h == null ==> reserved == old(reserved) && pool.out == old(pool.out)
      ensures Took(old(pool.free), old(pool.alloced), pool.max, granted,
        if old(pool.Exhausted(granted)) then null else h,
                   pool.free, pool.alloced)
      ensures old(pool.Exhausted(granted)) ==> h == if cleanup then old(reserved) else null
      ensures reserved == if old(pool.Exhausted(granted)) && cleanup then null else old(reserved)
      ensures unchanged(Cur()) && (h != null ==> fresh(h) || h in old(pool.free) || h == old(reserved))
      ensures h != null ==> h !in Owned() && h in pool.out && Unused(h) && h.size == pool.segsize
      ensures h != null ==> pool.out - Owned() - {h} == old(pool.out - Owned()) && Owned() + {h} >= old(Owned())
      ensures forall x :: x in pool.made ==> x in old(pool.made) || fresh(x)
    {
      hide Laid, Total, Dead, Fits;
      assert forall x :: x in Owned() ==> x !in Elements(pool.free);
      assert forall x :: x in Owned() ==> x !in pool.free;
      assert forall i :: 0 <= i < |chain| ==> chain[i] in Owned();
      h := pool.SegmentAlloc(granted);
      if h == null {
        if cleanup && reserved != null {
          h := reserved;
          reserved := null;
        }
      }
    }

    /** The full current segment is closed and h takes its place. */
    method Append(pool: Pool, h: Segment)
      requires pool.Valid() && Valid(pool) && Cur().offset == Cur().size
      requires h !in Owned() && h in pool.out && Unused(h) && h.size == pool.segsize
      modifies `chain, Cur()`inactive
      ensures Valid(pool) && chain == old(chain) + [h] && reserved == old(reserved)
      ensures pool.free == old(pool.free) && pool.alloced == old(pool.alloced)
      ensures h.blocks == [] && h.offset == 0
    {
      hide Laid, Total, Dead, Fits;
      ghost var rest := Front(chain);
      var cur := chain[|chain| - 1];
      assert forall i :: 0 <= i < |chain| - 1 ==> chain[i] in rest && chain[i] != cur;
      cur.inactive := true;
      chain := chain + [h];
    }

    /** A closed segment with no live item is taken out of the chain and goes to the free list. */
    method Drop(pool: Pool, i: nat, h: Segment)
      requires pool.Valid() && Valid(pool) && i < |chain| - 1 && h == chain[i] && h.freed == h.size
      modifies `chain, pool, h`offset
      ensures pool.Valid() && Valid(pool) && reserved == old(reserved)
      ensures chain == old(chain[..i]) + old(chain[i + 1..])
      ensures pool.out == old(pool.out) - {h} && Owned() == old(Owned()) - {h}
      ensures pool.out - Owned() == old(pool.out - Owned()) && Owned() <= old(Owned())
      ensures pool.free == [h] + old(pool.free) && pool.made == old(pool.made) && pool.alloced == old(pool.alloced)
      ensures Empty(old(h.blocks))
    {
      hide Laid, Total, Dead, Fits, Parted, Owns, Elements;
      ghost var c := chain;
      assert Closed(c[i]);
      h.FullyFreed();
      OwnsDrop(chain, reserved, pool.out, i);
      chain := chain[..i] + chain[i + 1..];
      ghost var c' := chain;
      assert forall j :: 0 <= j < |c'| ==> c'[j] == c[if j < i then j else j + 1] != h;
      pool.SegmentFree(h);
      assert forall j :: 0 <= j < |c'| - 1 ==> Closed(c'[j]) && c'[j].size == pool.segsize;
    }

    /** The first loop of ialloc_maintenance: every closed segment all of whose bytes are counted
        as freed goes to the free list; no item in it has a reference left. */
    method Recycle(pool: Pool)
      requires pool.Valid() && Valid(pool)
      modifies `chain, pool, Elements(chain)`offset
      ensures pool.Valid() && Valid(pool) && reserved == old(reserved)
      ensures chain == Busy(old(Front(chain)), old(Full(chain))) + [old(Cur())]
      ensures pool.out - Owned() == old(pool.out - Owned()) && Owned() <= old(Owned())
      ensures forall h :: h in old(Front(chain)) && h.freed == h.size ==> Empty(h.blocks)
      ensures forall h :: h in old(chain) && h !in chain ==> h in pool.free
      ensures pool.free == Spent(old(Front(chain)), old(Full(chain))) + old(pool.free)
      ensures pool.made == old(pool.made) && pool.alloced == old(pool.alloced)
    {
      AllEmpty(pool);
      InChain(pool);
      hide Parted, Owns, Both, States, Pool.Valid, Valid, Owned, Busy, Spent, Full, Elements;
      Pass(pool, Full(chain));
      Released(pool, old(pool.out - Owned()));
    }

    method Pass(pool: Pool, ghost full: set<Segment>)
      requires pool.Valid() && Valid(pool)
      requires FullAre(Elements(chain), full)
      modifies `chain, pool, Elements(chain)`offset
      ensures pool.Valid() && Valid(pool) && reserved == old(reserved)
      ensures chain == Busy(old(Front(chain)), full) + [old(Cur())]
      ensures pool.free == Spent(old(Front(chain)), full) + old(pool.free)
      ensures pool.out - Owned() == old(pool.out - Owned()) && Owned() <= old(Owned())
      ensures pool.made == old(pool.made) && pool.alloced == old(pool.alloced)
    {
      ghost var at := Mid(chain, full, Owned(), pool.out - Owned(), pool.made, reserved, pool.free, pool.alloced);
      MidStart(pool, at);
      hide MidPass, Valid, Pool.Valid, Owned, Elements, FullAre;
      Walk(pool, at);
    }

    /** The walk along the chain. */
    method Walk(pool: Pool, ghost at: Mid)
      requires MidPass(pool, at, 0, 0) && FullAre(Elements(at.c), at.full)
      modifies `chain, pool, Elements(at.c)`offset
      ensures pool.Valid() && Valid(pool) && reserved == at.res
      ensures at.c != [] && chain == Busy(Front(at.c), at.full) + [at.c[|at.c| - 1]]
      ensures pool.free == Spent(Front(at.c), at.full) + at.free && pool.alloced == at.alloced
      ensures pool.out - Owned() == at.others && Owned() <= at.own && pool.made == at.made
    {
      hide MidPass, Valid, Pool.Valid, Owned, Elements, FullAre, Busy, Spent;
      var i: nat := 0;
      ghost var k: nat := 0;
      while i < |chain| - 1 && chain[i].inactive
        invariant MidPass(pool, at, k, i) && FullAre(Elements(at.c), at.full)
        decreases |at.c| - k
      {
        i := Visit(pool, at, k, i);
        k := k + 1;
      }
      MidEnd(pool, at, k, i);
    }

    /** Between two segments of the pass. */
    ghost predicate MidPass(pool: Pool, at: Mid, k: nat, i: nat)
      reads this, pool, pool.made, chain, reserved
    {
      && pool.Valid() && Valid(pool) && reserved == at.res
      && Passed(at.c, at.full, k, i, chain)
      && pool.free == Spent(at.c[..k], at.full) + at.free && pool.alloced == at.alloced
      && pool.out - Owned() == at.others && Owned() <= at.own && pool.made == at.made
    }

    lemma MidStart(pool: Pool, at: Mid)
      requires pool.Valid() && Valid(pool)
      requires at.c == chain && at.own == Owned() && at.others == pool.out - Owned() && at.made == pool.made
        && at.res == reserved
      requires at.free == pool.free && at.alloced == pool.alloced
      ensures MidPass(pool, at, 0, 0)
    {
      hide Owns, States, Busy;
      Inactive(pool, 0);
      PassStart(chain, at.full);
    }

    lemma MidEnd(pool: Pool, at: Mid, k: nat, i: nat)
      requires MidPass(pool, at, k, i) && !(i < |chain| - 1 && chain[i].inactive)
      ensures pool.Valid() && Valid(pool) && reserved == at.res
      ensures at.c != [] && chain == Busy(Front(at.c), at.full) + [at.c[|at.c| - 1]]
      ensures pool.free == Spent(Front(at.c), at.full) + at.free && pool.alloced == at.alloced
      ensures pool.out - Owned() == at.others && Owned() <= at.own && pool.made == at.made
    {
      hide Owns, States, Busy, Spent;
      Inactive(pool, i);
      PassEnd(at.c, at.full, k, i, chain);
    }

    /** One segment of the pass: dropped if all of it counts as freed. */
    method Visit(pool: Pool, ghost at: Mid, ghost k: nat, i: nat) returns (i': nat)
      requires MidPass(pool, at, k, i) && i < |chain| - 1 && FullAre(Elements(at.c), at.full)
      modifies `chain, pool, Elements(at.c)`offset
      ensures k + 1 < |at.c| && MidPass(pool, at, k + 1, i') && FullAre(Elements(at.c), at.full)
    {
      hide Parted, Owns, Both, States, Pool.Valid, Valid, Busy, Spent, Full, Passed, Owned;
      PassStep(at.c, at.full, k, i, chain);
      SpentStep(at.c, at.full, k);
      if chain[i].freed == chain[i].size {
        Drop(pool, i, chain[i]);
        i' := i;
      } else {
        i' := i + 1;
      }
    }

    lemma Inactive(pool: Pool, i: nat)
      requires Valid(pool)
      ensures chain != [] && (i < |chain| - 1 ==> chain[i].inactive)
    {
      hide Owns, Laid;
      assert i < |chain| - 1 ==> Closed(chain[i]);
    }

    lemma InChain(pool: Pool)
      requires pool.Valid() && Valid(pool)
      ensures chain != [] && forall i :: 0 <= i < |chain| - 1 ==> chain[i].inactive
      ensures forall h :: h in Full(chain) <==> h in chain && h.freed == h.size
      ensures forall h :: h in chain ==> h in pool.made && h !in pool.out - Owned() && h != reserved
    {
      hide Laid, Total, Dead, Fits;
      assert forall i :: 0 <= i < |chain| - 1 ==> Closed(chain[i]);
      forall h | h in chain ensures h in pool.made {
        assert h in Owned();
        assert h in Elements(pool.made);
      }
    }

    /** The segments about to be released have no item left. */
    lemma AllEmpty(pool: Pool)
      requires Valid(pool)
      ensures forall h :: h in Front(chain) && h.freed == h.size ==> Empty(h.blocks)
    {
      hide Laid, Total, Dead, Fits, Owns;
      forall h | h in Front(chain) && h.freed == h.size ensures Empty(h.blocks) {
        var i :| 0 <= i < |chain| - 1 && chain[i] == h;
        assert Closed(h);
        h.FullyFreed();
      }
    }

    lemma Released(pool: Pool, others: set<Segment>)
      requires pool.Valid() && pool.out - Owned() == others
      ensures forall h :: h in pool.made && h !in chain && h != reserved && h !in others ==> h in pool.free
    {
      forall h | h in pool.made && h !in chain && h != reserved && h !in others ensures h in pool.free {
        assert h in Elements(pool.made);
      }
    }
  }

  /** item_unref of an item in segment n of a's chain, its block b. */
  method Release(h: Segment, at: nat, ghost pool: Pool, ghost a: ItemAllocator, ghost n: nat, ghost b: nat)
    requires pool.Valid() && a.Valid(pool) && n < |a.chain| && h == a.chain[n]
    requires b < |h.blocks| && h.blocks[b].kind == Live && at == Start(h.blocks, b)
    modifies h
    ensures pool.Valid() && a.Valid(pool)
    ensures at in old(h.headers) && old(h.headers[at].refcount) > 0
    ensures var was := old(h.headers[at]);
      && h.headers == old(h.headers)[at := was.(refcount := was.refcount - 1)]
      && h.blocks == (if was.refcount == 1 then old(h.blocks)[b := Block(old(h.blocks)[b].total, Gone)]
         else old(h.blocks))
  {
    hide Laid, Start, Total, Dead, Fits;
    assert forall i :: 0 <= i < |a.chain| && i != n ==> a.chain[i] != h;
    assert a.reserved != h;
    assert h.size == pool.segsize && h.Valid();
    h.Unref(at, b);
    assert forall i :: 0 <= i < |a.chain| - 1 && i != n ==> Closed(a.chain[i]);
  }

  /** How things are at the beginning of a pass over an allocator's segments. */
  datatype Mid = Mid(c: seq<Segment>, full: set<Segment>,
                     own: set<Segment>, others: set<Segment>, made: seq<Segment>, res: Segment?,
                     free: seq<Segment>, alloced: nat)

  /** No item of the segment has a reference left. */
  predicate Empty(bs: seq<Block>)
  {
    forall i :: 0 <= i < |bs| ==> bs[i].kind != Live
  }

  /** The segments all of whose bytes are counted as freed. */
  ghost function Full(s: seq<Segment>): set<Segment>
    reads s
  {
    set h | h in s && h.freed == h.size
  }

  ghost predicate FullAre(s: set<Segment>, full: set<Segment>)
    reads s
  {
    forall h :: h in s ==> (h in full <==> h.freed == h.size)
  }

  /** The segments with bytes still in use. */
  ghost function Busy(s: seq<Segment>, full: set<Segment>): seq<Segment>
  {
    if s == [] then [] else Busy(s[..|s| - 1], full) + if s[|s| - 1] in full then [] else [s[|s| - 1]]
  }

  /** The others, in the order in which they come to lie on the free list. */
  ghost function Spent(s: seq<Segment>, full: set<Segment>): seq<Segment>
  {
    if s == [] then [] else (if s[|s| - 1] in full then [s[|s| - 1]] else []) + Spent(s[..|s| - 1], full)
  }

  lemma SpentStep(c: seq<Segment>, full: set<Segment>, k: nat)
    requires k < |c|
    ensures Spent(c[..k + 1], full) == if c[k] in full then [c[k]] + Spent(c[..k], full) else Spent(c[..k], full)
  {
    assert c[..k + 1][..k] == c[..k];
  }

  /** Of the first k segments of c, those with bytes in use are still in the chain s, before i. */
  ghost predicate Passed(c: seq<Segment>, full: set<Segment>, k: nat, i: nat, s: seq<Segment>)
  {
    k < |c| && i == |Busy(c[..k], full)| && s == Busy(c[..k], full) + c[k..]
  }

  lemma PassStart(c: seq<Segment>, full: set<Segment>)
    requires c != []
    ensures Passed(c, full, 0, 0, c)
  {
  }

  lemma PassStep(c: seq<Segment>, full: set<Segment>, k: nat, i: nat, s: seq<Segment>)
    requires Passed(c, full, k, i, s) && i < |s| - 1
    ensures k + 1 < |c| && s[i] in Elements(c) && s[i] == c[k]
    ensures if c[k] in full then Passed(c, full, k + 1, i, s[..i] + s[i + 1..]) else Passed(c, full, k + 1, i + 1, s)
  {
    assert c[..k + 1][..k] == c[..k];
    assert c[k..] == [c[k]] + c[k + 1..];
  }

  lemma PassEnd(c: seq<Segment>, full: set<Segment>, k: nat, i: nat, s: seq<Segment>)
    requires Passed(c, full, k, i, s) && i >= |s| - 1
    ensures s == Busy(Front(c), full) + [c[|c| - 1]]
  {
    assert c[k..] == [c[k]] + c[k + 1..];
  }

  lemma DropOne(c: seq<Segment>, i: nat, c': seq<Segment>)
    requires i < |c| && Distinct(c) && c' == c[..i] + c[i + 1..]
    ensures Distinct(c') && Elements(c') == Elements(c) - {c[i]}
    ensures |c'| == |c| - 1 && forall j :: 0 <= j < |c'| ==> c'[j] == if j < i then c[j] else c[j + 1]
  {
    forall x | x in c && x != c[i] ensures x in c' {
      var j :| 0 <= j < |c| && c[j] == x;
      assert x == c'[if j < i then j else j - 1];
    }
  }

  function Front<T>(s: seq<T>): seq<T>
    requires s != []
  {
    s[..|s| - 1]
  }

  lemma LaidTotal(bs: seq<Block>, headers: map<nat, Header>, offset: nat, freed: nat, size: nat)
    requires Laid(bs, headers, offset, freed, size)
    ensures Total(bs) == offset <= size
  {
  }

  lemma StartLast(bs: seq<Block>, b: Block)
    ensures Start(bs + [b], |bs|) == Total(bs)
  {
    assert (bs + [b])[..|bs|] == bs;
  }
}
