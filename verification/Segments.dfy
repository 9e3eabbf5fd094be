/** One segment of the log of apps/flexkvs/server/ialloc.c: items laid out one after the other,
    the rest of the space padded, and a count of the bytes no longer in use. */
module Segments {

  /** sizeof(struct item) */
  const HEADER := 24

  /** What a log scan reads of an item: its reference count and lengths. */
  datatype Header = Header(refcount: nat, keylen: nat, vallen: nat)

  /** item_totalsz */
  function TotalSize(h: Header): nat { HEADER + h.vallen + h.keylen }

  /** A stretch of the log: an item with references, one with none left, or padding at the end. */
  datatype Kind = Live | Gone | Pad

  datatype Block = Block(total: nat, kind: Kind)

  function Total(bs: seq<Block>): nat
  {
    if bs == [] then 0 else Total(bs[..|bs| - 1]) + bs[|bs| - 1].total
  }

  /** Bytes of items that nobody refers to any more, and of padding. */
  function Dead(bs: seq<Block>): nat
  {
    if bs == [] then 0 else Dead(bs[..|bs| - 1]) + if bs[|bs| - 1].kind == Live then 0 else bs[|bs| - 1].total
  }

  /** Where block i begins. */
  function Start(bs: seq<Block>, i: nat): nat
    requires i <= |bs|
  {
    Total(bs[..i])
  }

  lemma StartNext(bs: seq<Block>, i: nat)
    requires i < |bs|
    ensures Start(bs, i + 1) == Start(bs, i) + bs[i].total
  {
    assert bs[..i + 1][..i] == bs[..i];
  }

  lemma {:induction false} StartBelow(bs: seq<Block>, i: nat, j: nat)
    requires i <= j <= |bs|
    ensures Start(bs, i) <= Start(bs, j)
    decreases j
  {
    if i < j {
      StartNext(bs, j - 1);
      StartBelow(bs, i, j - 1);
    }
  }

  /** Bytes of live items. */
  lemma {:induction false} DeadBelow(bs: seq<Block>)
    ensures Dead(bs) <= Total(bs)
    ensures Dead(bs) == Total(bs) ==> forall i :: 0 <= i < |bs| && bs[i].total > 0 ==> bs[i].kind != Live
    decreases |bs|
  {
    if bs != [] {
      var front := bs[..|bs| - 1];
      DeadBelow(front);
      if Dead(bs) == Total(bs) {
        forall i | 0 <= i < |bs| && bs[i].total > 0 ensures bs[i].kind != Live {
          if i < |bs| - 1 {
            assert front[i] == bs[i];
          }
        }
      }
    }
  }

  /** One item dies. */
  lemma {:induction false} DeadDies(bs: seq<Block>, i: nat)
    requires i < |bs| && bs[i].kind == Live
    ensures Total(bs[i := Block(bs[i].total, Gone)]) == Total(bs)
    ensures Dead(bs[i := Block(bs[i].total, Gone)]) == Dead(bs) + bs[i].total
    ensures forall k :: 0 <= k <= |bs| ==> Start(bs[i := Block(bs[i].total, Gone)], k) == Start(bs, k)
    decreases |bs|
  {
    var bs' := bs[i := Block(bs[i].total, Gone)];
    var front := bs[..|bs| - 1];
    if i == |bs| - 1 {
      assert bs'[..|bs| - 1] == front;
      assert forall k :: 0 <= k < |bs| ==> bs'[..k] == bs[..k];
    } else {
      DeadDies(front, i);
      assert bs'[..|bs| - 1] == front[i := Block(front[i].total, Gone)];
      forall k | 0 <= k <= |bs| ensures Start(bs', k) == Start(bs, k) {
        if k < |bs| {
          assert bs'[..k] == front[i := Block(front[i].total, Gone)][..k] && bs[..k] == front[..k];
          assert Start(front[i := Block(front[i].total, Gone)], k) == Start(front, k);
        } else {
          assert bs'[..k] == bs' && bs[..k] == bs;
        }
      }
    }
  }

  lemma Snoc(bs: seq<Block>, b: Block)
    ensures Total(bs + [b]) == Total(bs) + b.total
    ensures Dead(bs + [b]) == Dead(bs) + if b.kind == Live then 0 else b.total
    ensures forall k :: 0 <= k <= |bs| ==> Start(bs + [b], k) == Start(bs, k)
  {
    var bs' := bs + [b];
    assert bs'[..|bs'| - 1] == bs;
    assert forall k :: 0 <= k <= |bs| ==> bs'[..k] == bs[..k];
  }

  /** What is laid over n bytes at the end of a segment that are not to be used. */
  function Padding(n: int): seq<Block> { if n <= 0 then [] else [Block(n, Pad)] }

  /** The header of padding: its length is kept in 16 bits. */
  function PadHeader(total: nat): Header
    requires total >= HEADER
  {
    Header(0, (total - HEADER) % 0x1_0000, 0)
  }

  /** A log scan reads the length of padding right exactly if it fits. */
  lemma PadLength(total: nat)
    requires total >= HEADER
    ensures TotalSize(PadHeader(total)) == total <==> total - HEADER < 0x1_0000
  {
  }

  /** The header at a block says what is there. */
  ghost predicate Described(bs: seq<Block>, headers: map<nat, Header>, i: nat)
    requires i < |bs|
  {
    var b, at := bs[i], Start(bs, i);
    if b.kind == Pad then b.total > 0 && (b.total >= HEADER ==> at in headers && headers[at] == PadHeader(b.total))
    else
      && b.total >= HEADER && at in headers && TotalSize(headers[at]) == b.total
      && (headers[at].refcount > 0 <==> b.kind == Live)
  }

  /** Padding, if any, is last. */
  ghost predicate PadLast(bs: seq<Block>)
  {
    forall i :: 0 <= i < |bs| - 1 ==> bs[i].kind != Pad
  }

  /** Blocks tile [0, offset), with padding only up to the end; freed is the bytes of items gone
      and of padding. */
  ghost predicate Laid(bs: seq<Block>, headers: map<nat, Header>, offset: nat, freed: nat, size: nat)
  {
    && Total(bs) == offset <= size
    && Dead(bs) == freed
    && PadLast(bs)
    && (bs != [] && bs[|bs| - 1].kind == Pad ==> offset == size)
    && forall i :: 0 <= i < |bs| ==> Described(bs, headers, i)
  }

  /** The length of all padding fits its header. */
  ghost predicate Fits(bs: seq<Block>)
  {
    forall i :: 0 <= i < |bs| && bs[i].kind == Pad ==> bs[i].total < HEADER + 0x1_0000
  }

  /** A block is laid at the end. */
  lemma Lay(bs: seq<Block>, headers: map<nat, Header>, offset: nat, freed: nat, size: nat, b: Block,
      headers': map<nat, Header>)
    requires Laid(bs, headers, offset, freed, size) && offset + b.total <= size && offset < size
    requires b.kind == Pad ==> offset + b.total == size
    requires forall x :: x in headers && x != offset ==> x in headers' && headers'[x] == headers[x]
    requires if b.kind == Pad then
               && b.total > 0
               && (b.total >= HEADER ==> offset in headers' && headers'[offset] == PadHeader(b.total))
             else
               && b.total >= HEADER && offset in headers' && TotalSize(headers'[offset]) == b.total
               && (headers'[offset].refcount > 0 <==> b.kind == Live)
    ensures Laid(bs + [b], headers', offset + b.total, freed + (if b.kind == Live then 0 else b.total), size)
  {
    var bs' := bs + [b];
    Snoc(bs, b);
    StillDescribed(bs, headers, headers', bs', offset);
    hide Total, Dead;
    assert Described(bs', headers', |bs|);
    forall i | 0 <= i < |bs'| ensures Described(bs', headers', i) {
      if i == |bs| {}
    }
  }

  /** The last reference to an item goes. */
  lemma LaidDies(bs: seq<Block>, headers: map<nat, Header>, offset: nat, freed: nat, size: nat, i: nat, h: Header)
    requires Laid(bs, headers, offset, freed, size) && i < |bs| && bs[i].kind == Live
    requires Start(bs, i) in headers && TotalSize(h) == TotalSize(headers[Start(bs, i)]) && h.refcount == 0
    ensures Laid(bs[i := Block(bs[i].total, Gone)], headers[Start(bs, i) := h], offset, freed + bs[i].total, size)
  {
    DeadDies(bs, i);
    var bs', headers' := bs[i := Block(bs[i].total, Gone)], headers[Start(bs, i) := h];
    forall k | 0 <= k < |bs'| ensures Described(bs', headers', k) {
      assert Described(bs, headers, k) && Described(bs, headers, i);
      if k != i {
        StartsApart(bs, headers, k, i);
      }
    }
  }

  /** The header of a live item changes, but for its size. */
  lemma LaidLives(bs: seq<Block>, headers: map<nat, Header>, offset: nat, freed: nat, size: nat, i: nat, h: Header)
    requires Laid(bs, headers, offset, freed, size) && i < |bs| && bs[i].kind == Live
    requires Start(bs, i) in headers && TotalSize(h) == TotalSize(headers[Start(bs, i)]) && h.refcount > 0
    ensures Laid(bs, headers[Start(bs, i) := h], offset, freed, size)
  {
    var headers' := headers[Start(bs, i) := h];
    forall k | 0 <= k < |bs| ensures Described(bs, headers', k) {
      assert Described(bs, headers, k) && Described(bs, headers, i);
      if k != i {
        StartsApart(bs, headers, k, i);
      }
    }
  }

  /** No two blocks begin at the same place. */
  lemma StartsApart(bs: seq<Block>, headers: map<nat, Header>, i: nat, j: nat)
    requires i < |bs| && j < |bs| && i != j && Described(bs, headers, i) && Described(bs, headers, j)
    ensures Start(bs, i) != Start(bs, j)
  {
    var p, q := if i < j then i else j, if i < j then j else i;
    StartNext(bs, p);
    StartBelow(bs, p + 1, q);
  }

  /** struct segment_header; data is where the segment begins in memory. */
  class Segment {
    const data: nat
    const size: nat
    var offset: nat
    var freed: nat
    var headers: map<nat, Header>
    var inactive: bool                 // SF_INACTIVE
    var cleaned: bool                  // SF_CLEANED
    ghost var blocks: seq<Block>

    ghost predicate Valid()
      reads this
    {
      Laid(blocks, headers, offset, freed, size)
    }

    ghost predicate Readable()
      reads this
    {
      Fits(blocks)
    }

    constructor (data: nat, size: nat)
      ensures Valid() && Readable() && this.data == data && this.size == size && offset == 0 && freed == 0
        && blocks == []
      ensures !inactive && !cleaned
    {
      this.data, this.size, offset, freed, headers, blocks := data, size, 0, 0, map[], [];
      inactive, cleaned := false, false;
    }

    /** The end of segment_alloc: nothing is in use. */
    method Reset()
      modifies this
      ensures Valid() && Readable() && offset == 0 && freed == 0 && blocks == [] && !inactive && !cleaned
    {
      offset, freed, blocks := 0, 0, [];
      inactive, cleaned := false, false;
    }

    /** A segment all of whose bytes are counted as freed holds no live item. */
    lemma FullyFreed()
      requires Valid() && freed == size
      ensures offset == size && forall i :: 0 <= i < |blocks| ==> blocks[i].kind != Live
    {
      DeadBelow(blocks);
      forall i | 0 <= i < |blocks| ensures blocks[i].total > 0 {
        assert Described(blocks, headers, i);
      }
    }

    /** segment_item_alloc, and the lengths its callers write into the item: where the item is,
        if it fits; if not, the rest of the segment is padded. */
    method ItemAlloc(keylen: nat, vallen: nat) returns (ok: bool, at: nat)
      requires Valid()
      modifies `offset, `freed, `headers, `blocks
      ensures Valid()
      ensures ok <==> old(offset) < size && HEADER + keylen + vallen <= size - old(offset)
      ensures ok ==>
        && at == old(offset) && freed == old(freed)
        && blocks == old(blocks) + [Block(HEADER + keylen + vallen, Live)]
        && headers == old(headers)[at := Header(1, keylen, vallen)]
      ensures !ok ==> offset == size && freed == old(freed) + (size - old(offset))
      ensures !ok ==> blocks == old(blocks) + Padding(size - old(offset))
      ensures forall x :: x in old(headers) && x != old(offset) ==> x in headers && headers[x] == old(headers)[x]
      ensures old(Readable()) && keylen + vallen < 0x1_0000 ==> Readable()
    {
      var total := HEADER + keylen + vallen;
      var avail := size - offset;
      hide Laid;
      at := offset;
      LaidFacts(blocks, headers, offset, freed, size);
      if avail == 0 {
        return false, at;
      } else if avail < total {
        var headers' := if avail >= HEADER then headers[at := PadHeader(avail)] else headers;
        Lay(blocks, headers, offset, freed, size, Block(avail, Pad), headers');
        headers := headers';
        freed := freed + avail;
        offset := offset + avail;
        blocks := blocks + [Block(avail, Pad)];
        return false, at;
      }
      var headers' := headers[at := Header(1, keylen, vallen)];
      Lay(blocks, headers, offset, freed, size, Block(total, Live), headers');
      headers := headers';
      offset := offset + total;
      blocks := blocks + [Block(total, Live)];
      ok := true;
    }

    /** item_unref: with the last reference the bytes of the item count as freed. */
    method Unref(at: nat, ghost i: nat)
      requires Valid() && i < |blocks| && blocks[i].kind == Live && at == Start(blocks, i)
      modifies `freed, `headers, `blocks
      ensures Valid()
      ensures at in old(headers) && old(headers[at].refcount) > 0
      ensures var h := old(headers[at]);
        && headers == old(headers)[at := h.(refcount := h.refcount - 1)]
        && blocks == (if h.refcount == 1 then old(blocks)[i := Block(old(blocks)[i].total, Gone)] else old(blocks))
        && freed == old(freed) + (if h.refcount == 1 then old(blocks)[i].total else 0)
    {
      assert Described(blocks, headers, i);
      hide Laid, Start;
      var h := headers[at];
      var h' := h.(refcount := h.refcount - 1);
      if h'.refcount == 0 {
        LaidDies(blocks, headers, offset, freed, size, i, h');
        freed := freed + TotalSize(h);
        blocks := blocks[i := Block(blocks[i].total, Gone)];
      } else {
        LaidLives(blocks, headers, offset, freed, size, i, h');
      }
      headers := headers[at := h'];
    }
  }

  lemma LaidFacts(bs: seq<Block>, headers: map<nat, Header>, offset: nat, freed: nat, size: nat)
    requires Laid(bs, headers, offset, freed, size)
    ensures offset <= size
  {
  }

  /** A header written at the end disturbs none before. */
  lemma StillDescribed(bs: seq<Block>, headers: map<nat, Header>, headers': map<nat, Header>, bs': seq<Block>, at: nat)
    requires |bs'| == |bs| + 1 && bs'[..|bs|] == bs && Total(bs) == at
    requires forall k :: 0 <= k <= |bs| ==> Start(bs', k) == Start(bs, k)
    requires forall x :: x in headers && x != at ==> x in headers' && headers'[x] == headers[x]
    requires forall i :: 0 <= i < |bs| ==> Described(bs, headers, i)
    ensures forall i :: 0 <= i < |bs| ==> Described(bs', headers', i)
    ensures Start(bs', |bs|) == at
  {
    assert bs[..|bs|] == bs;
    forall i | 0 <= i < |bs| ensures Described(bs', headers', i) {
      assert Described(bs, headers, i) && bs'[i] == bs[i];
      StartNext(bs, i);
      StartBelow(bs, i + 1, |bs|);
    }
  }
}
