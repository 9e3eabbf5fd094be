/** The cleanup queue of an allocator and the log scan that fills it:
    apps/flexkvs/server/ialloc.c. */
module CleanupQueue {
  import opened Segments
  import opened Options
  import opened Rings

  /** What place i of the ring holds. */
  ghost function Slot(contents: seq<nat>, i: nat, head: nat, n: nat): Option<nat>
    requires head < n
  {
    if Behind(i, head, n) < |contents| then Some(contents[Behind(i, head, n)]) else None
  }

  /** cleanup_queue with cq_head and cq_tail: a ring of item addresses whose empty places are null. */
  class Ring {
    const cq: array<Option<nat>>
    var head: nat
    var tail: nat
    ghost var contents: seq<nat>

    ghost predicate Valid()
      reads this, cq
    {
      && head < cq.Length && tail < cq.Length && |contents| <= cq.Length
      && tail == Wrap(head + |contents|, cq.Length)
      && forall i :: 0 <= i < cq.Length ==> cq[i] == Slot(contents, i, head, cq.Length)
    }

    constructor (n: nat)
      requires n > 0
      ensures Valid() && contents == [] && cq.Length == n && fresh(cq)
    {
      cq := new Option<nat>[n](_ => None);
      head, tail, contents := 0, 0, [];
    }

    /** cq[cq_tail] == NULL */
    method Room() returns (room: bool)
      requires Valid()
      ensures |contents| <= cq.Length && (room <==> |contents| < cq.Length)
    {
      room := cq[tail] == None;
    }

    method Push(x: nat)
      requires Valid() && |contents| < cq.Length
      modifies `tail, `contents, cq
      ensures Valid() && contents == old(contents) + [x]
    {
      cq[tail] := Some(x);
      tail := if tail + 1 == cq.Length then 0 else tail + 1;
      contents := contents + [x];
    }

    /** ialloc_cleanup_item: the oldest entry, or null. */
    method Pop() returns (x: Option<nat>)
      requires Valid()
      modifies `head, `contents, cq
      ensures Valid()
      ensures old(contents) == [] ==> x == None && contents == []
      ensures old(contents) != [] ==> x == Some(old(contents)[0]) && contents == old(contents)[1..]
    {
      x := cq[head];
      if x != None {
        cq[head] := None;
        head := if head + 1 == cq.Length then 0 else head + 1;
        contents := contents[1..];
      }
    }
  }

  // ----- scanning a segment -----

  /** Where the live items among blocks i..j-1 are. */
  ghost function LiveAt(data: nat, bs: seq<Block>, i: nat, j: nat): seq<nat>
    requires i <= j <= |bs|
    decreases j
  {
    if i == j then [] else LiveAt(data, bs, i, j - 1) + if bs[j - 1].kind == Live then [data + Start(bs, j - 1)] else []
  }

  /** headers' is headers with one more reference to each of the items at `at`. */
  ghost predicate Referenced(data: nat, headers: map<nat, Header>, headers': map<nat, Header>, at: seq<nat>)
  {
    && headers'.Keys == headers.Keys
    && forall x :: x in headers ==>
       headers'[x] == headers[x].(refcount := headers[x].refcount + if data + x in at then 1 else 0)
  }

  /** One block of the scan: item_tryref, and the way to the next block. */
  lemma ScanBlock(bs: seq<Block>, headers: map<nat, Header>, offset: nat, freed: nat, size: nat, i: nat)
    requires Laid(bs, headers, offset, freed, size) && Fits(bs) && offset == size && i <= |bs| && Start(bs, i) < size
    ensures i < |bs| && Start(bs, i + 1) == Start(bs, i) + bs[i].total
    ensures size - Start(bs, i) < HEADER ==> i + 1 == |bs| && Start(bs, i + 1) == size && bs[i].kind != Live
    ensures size - Start(bs, i) >= HEADER ==>
      && Start(bs, i) in headers && TotalSize(headers[Start(bs, i)]) == bs[i].total
      && (headers[Start(bs, i)].refcount > 0 <==> bs[i].kind == Live)
  {
    assert bs[..|bs|] == bs;
    if i < |bs| {
      StartNext(bs, i);
      assert Described(bs, headers, i);
      StartBelow(bs, i + 1, |bs|);
      if i + 1 < |bs| {
        assert bs[i].kind != Pad;
      } else if bs[i].kind == Pad && bs[i].total >= HEADER {
        PadLength(bs[i].total);
      }
    }
  }

  lemma StartEnd(bs: seq<Block>, headers: map<nat, Header>, offset: nat, freed: nat, size: nat, i: nat)
    requires Laid(bs, headers, offset, freed, size) && i <= |bs|
    ensures Start(bs, i) <= offset && Start(bs, |bs|) == offset
  {
    assert bs[..|bs|] == bs;
    StartBelow(bs, i, |bs|);
  }

  /** Items before block j are not at block j. */
  lemma {:induction false} LiveBelow(data: nat, bs: seq<Block>, i: nat, j: nat)
    requires i <= j <= |bs| && forall k :: 0 <= k < |bs| ==> bs[k].total > 0
    ensures forall x :: x in LiveAt(data, bs, i, j) ==> x < data + Start(bs, j)
    decreases j
  {
    if i < j {
      LiveBelow(data, bs, i, j - 1);
      StartNext(bs, j - 1);
    }
  }

  lemma Sizes(bs: seq<Block>, headers: map<nat, Header>, offset: nat, freed: nat, size: nat)
    requires Laid(bs, headers, offset, freed, size)
    ensures forall k :: 0 <= k < |bs| ==> bs[k].total > 0
  {
    forall k | 0 <= k < |bs| ensures bs[k].total > 0 {
      assert Described(bs, headers, k);
    }
  }

  lemma LiveNone(data: nat, headers: map<nat, Header>, bs: seq<Block>, i: nat)
    requires i <= |bs|
    ensures LiveAt(data, bs, i, i) == [] && Referenced(data, headers, headers, [])
  {
  }

  lemma LiveNext(data: nat, bs: seq<Block>, i: nat, j: nat)
    requires i <= j < |bs|
    ensures LiveAt(data, bs, i, j + 1) ==
      LiveAt(data, bs, i, j) + if bs[j].kind == Live then [data + Start(bs, j)] else []
    ensures bs[j].kind != Live ==> LiveAt(data, bs, i, j + 1) == LiveAt(data, bs, i, j)
  {
  }

  /** The loop of ialloc_maintenance over a segment under cleaning.  From a block boundary it comes
      to a block boundary, having taken and queued one reference to each live item on the way, in
      order, and to nothing else; it stops only at the end or when the queue is full. */
  method Scan(h: Segment, from: nat, q: Ring, ghost i: nat) returns (off: nat, ghost j: nat)
    requires h.Valid() && h.Readable() && h.offset == h.size && q.Valid()
    requires i <= |h.blocks| && from == Start(h.blocks, i)
    modifies h`headers, q, q.cq
    ensures h.Valid() && q.Valid()
    ensures i <= j <= |h.blocks| && off == Start(h.blocks, j)
    ensures off == h.size || |q.contents| == q.cq.Length
    ensures q.contents == old(q.contents) + LiveAt(h.data, h.blocks, i, j)
    ensures Referenced(h.data, old(h.headers), h.headers, LiveAt(h.data, h.blocks, i, j))
  {
    hide Laid, Fits, Start, LiveAt, Referenced, Ring.Valid, Total;
    LiveNone(h.data, h.headers, h.blocks, i);
    off, j := from, i;
    StartEnd(h.blocks, h.headers, h.offset, h.freed, h.size, i);
    var room := q.Room();
    while off < h.size && room
      invariant h.Valid() && q.Valid()
      invariant i <= j <= |h.blocks| && off == Start(h.blocks, j) <= h.size
      invariant |q.contents| <= q.cq.Length && (room <==> |q.contents| < q.cq.Length)
      invariant q.contents == old(q.contents) + LiveAt(h.data, h.blocks, i, j)
      invariant Referenced(h.data, old(h.headers), h.headers, LiveAt(h.data, h.blocks, i, j))
      decreases |h.blocks| - j
    {
      ScanBlock(h.blocks, h.headers, h.offset, h.freed, h.size, j);
      StartEnd(h.blocks, h.headers, h.offset, h.freed, h.size, j + 1);
      if h.size - off < HEADER {
        LiveNext(h.data, h.blocks, i, j);
        off := h.size;
        j := j + 1;
        break;
      }
      LiveNext(h.data, h.blocks, i, j);
      Sizes(h.blocks, h.headers, h.offset, h.freed, h.size);
      LiveBelow(h.data, h.blocks, i, j);
      off := ScanItem(h, off, q, i, j, old(h.headers));
      j := j + 1;
      room := q.Room();
    }
  }

  /** One item: a reference is taken and the item queued, unless it has none left. */
  method ScanItem(h: Segment, off: nat, q: Ring, ghost i: nat, ghost j: nat, ghost was: map<nat, Header>)
      returns (off': nat)
    requires h.Valid() && q.Valid() && |q.contents| < q.cq.Length
    requires i <= j < |h.blocks| && off == Start(h.blocks, j) && off in h.headers
      && TotalSize(h.headers[off]) == h.blocks[j].total
    requires h.headers[off].refcount > 0 <==> h.blocks[j].kind == Live
    requires Referenced(h.data, was, h.headers, LiveAt(h.data, h.blocks, i, j))
    requires forall x :: x in LiveAt(h.data, h.blocks, i, j) ==> x < h.data + off
    modifies h`headers, q, q.cq
    ensures h.Valid() && q.Valid() && off' == off + h.blocks[j].total
    ensures q.contents == old(q.contents) + (if h.blocks[j].kind == Live then [h.data + off] else [])
    ensures Referenced(h.data, was, h.headers, LiveAt(h.data, h.blocks, i, j + 1))
  {
    hide Laid, Fits, Start, Slot;
    var it := h.headers[off];
    if it.refcount != 0 {
      LaidLives(h.blocks, h.headers, h.offset, h.freed, h.size, j, it.(refcount := it.refcount + 1));
      h.headers := h.headers[off := it.(refcount := it.refcount + 1)];
      q.Push(h.data + off);
    }
    off' := off + TotalSize(it);
  }
}
