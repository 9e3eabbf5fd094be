/** The buckets of apps/flexkvs/server/hashtable.c in memory: arrays of slots, chains through
    the items' next pointers, and reference counts. */
module KvTable {
  import opened KvBucket

  /** The item behind place i: items in other slots than the last have none. */
  function Behind(l: View, i: nat): Item?
    requires i < |l|
  {
    if NITEMS - 1 <= i < |l| - 1 then l[i + 1] else null
  }

  class HashBucket {
    const items: array<Item?>
    const hashes: array<nat>
    ghost var chain: seq<Item>

    ghost function Content(): View
      reads this, items
    {
      items[..] + chain
    }

    ghost function Members(): set<Item>
      reads this, items
    {
      set it: Item | it in Content()
    }

    ghost predicate Linked()
      reads this, items, Members()
    {
      var l := Content();
      forall i :: 0 <= i < |l| && l[i] != null ==> l[i].next == Behind(l, i)
    }

    ghost predicate Valid()
      reads this, items, hashes, Members()
    {
      && items.Length == NITEMS && hashes.Length == NITEMS
      && Wf(Content())
      && Linked()
      && forall i :: 0 <= i < NITEMS && items[i] != null ==> hashes[i] == items[i].hv
    }

    /** The table holds a reference to each of its items. */
    ghost predicate Counted()
      reads this, items, Members()
    {
      forall it :: it in Members() ==> it.refcount >= 1
    }

    /** hasht_init */
    constructor ()
      ensures Valid() && Counted() && Content() == seq(NITEMS, _ => null) && fresh(items) && fresh(hashes)
    {
      hide HashOf;
      items := new Item?[NITEMS](_ => null);
      hashes := new nat[NITEMS](_ => 0);
      chain := [];
    }

    /** hasht_get: a reference to the item stored under the key is taken. */
    method Get(key: Key, hv: nat) returns (it: Item?)
      requires Valid() && Counted() && hv == HashOf(key)
      modifies Members()
      ensures Valid() && Counted() && Content() == old(Content())
      ensures it == Find(Content(), key)
      ensures it != null ==> it in Members() && it.refcount == old(it.refcount) + 1
      ensures forall x :: x in Members() && x != it ==> x.refcount == old(x.refcount)
    {
      hide Wf, HashOf, Find;
      it := Lookup(key, hv);
      if it != null {
        it.refcount := it.refcount + 1;
      }
    }

    /** The searches of hasht_get. */
    method Lookup(key: Key, hv: nat) returns (it: Item?)
      requires Valid() && hv == HashOf(key)
      ensures it == Find(Content(), key)
      ensures it != null ==> it in Members()
    {
      hide HashOf;
      ghost var l := Content();
      var i := 0;
      while i < NITEMS
        invariant 0 <= i <= NITEMS
        invariant forall j :: 0 <= j < i ==> !Matches(l[j], key)
      {
        if items[i] != null && hashes[i] == hv && items[i].key == key {
          PlaceIs(l, key, i);
          return items[i];
        }
        i := i + 1;
      }
      it := items[NITEMS - 1];
      if it != null {
        ghost var j := NITEMS;
        assert it.next == Behind(l, NITEMS - 1);
        it := it.next;
        while it != null && !(it.hv == hv && it.key == key)
          invariant NITEMS <= j <= |l| && it == (if j < |l| then l[j] else null)
          invariant forall k :: 0 <= k < j ==> !Matches(l[k], key)
          decreases |l| - j
        {
          assert it.next == Behind(l, j);
          it := it.next;
          j := j + 1;
        }
        PlaceIs(l, key, j);
      } else {
        PlaceIs(l, key, NITEMS);
      }
    }

    /** hasht_put.  freed is the item handed to ialloc_free, if any. */
    method Put(nit: Item, cas: Item?) returns (freed: Item?)
      requires Valid() && Counted()
      requires nit !in Members() && nit.hv == HashOf(nit.key) && nit.refcount >= 1
      modifies this, items, hashes, Members(), nit
      ensures Valid() && Counted()
      ensures var c := KvBucket.Put(old(Content()), nit, cas);
        && Content() == c.l
        && nit.refcount == old(nit.refcount) + (if c.taken then 1 else 0)
        && (c.replaced != null ==> c.replaced in old(Members()) && c.replaced.refcount == old(c.replaced.refcount) - 1)
        && (forall x :: x in old(Members()) && x != c.replaced ==> x.refcount == old(x.refcount))
        && freed == (if c.replaced != null && c.replaced.refcount == 0 then c.replaced else null)
    {
      hide HashOf, Wf;
      var found, hasDirect, i, di := Slots(nit.key, nit.hv);
      if found {
        if cas != null && cas != items[i] {
          return null;
        }
        nit.refcount := nit.refcount + 1;
        freed := ReplaceSlot(nit, i);
        return;
      }
      if cas != null {
        return null;
      }
      nit.refcount := nit.refcount + 1;
      var done;
      done, freed := ReplaceChained(nit);
      if !done {
        if !hasDirect {
          di := NITEMS - 1;
        }
        Insert(nit, di);
      }
    }

    /** The first loop of hasht_put: the slot with the key, or the last empty one. */
    method Slots(key: Key, hv: nat) returns (found: bool, hasDirect: bool, i: nat, di: nat)
      requires Valid() && hv == HashOf(key)
      ensures found ==> i < NITEMS && i == Place(Content(), key, 0)
      ensures !found ==> Place(Content(), key, 0) >= NITEMS
      ensures !found ==> (hasDirect <==> LastEmpty(Content(), NITEMS) < NITEMS)
      ensures !found && hasDirect ==> di == LastEmpty(Content(), NITEMS)
    {
      hide HashOf, Wf;
      ghost var l := Content();
      found, hasDirect, i, di := false, false, 0, 0;
      while i < NITEMS
        invariant 0 <= i <= NITEMS
        invariant forall j :: 0 <= j < i ==> !Matches(l[j], key)
        invariant if hasDirect then di < i && l[di] == null && forall j :: di < j < i ==> l[j] != null
                  else forall j :: 0 <= j < i ==> l[j] != null
      {
        if items[i] == null {
          hasDirect := true;
          di := i;
        } else if hashes[i] == hv {
          if items[i].key == key {
            PlaceIs(l, key, i);
            found := true;
            return;
          }
        }
        i := i + 1;
      }
    }

    /** A direct item gives way to the new one, which takes over its next pointer. */
    method ReplaceSlot(nit: Item, i: nat) returns (freed: Item?)
      requires Valid() && Counted() && i < NITEMS && i == Place(Content(), nit.key, 0) && i < |Content()|
      requires nit !in Members() && nit.hv == HashOf(nit.key) && nit.refcount >= 2
      modifies items, Members(), nit`next
      ensures Valid() && Counted()
      ensures Content() == old(Content())[i := nit]
      ensures old(items[i]) != null && old(items[i]).refcount == old(items[i].refcount) - 1
      ensures forall x :: x in old(Members()) && x != old(items[i]) ==> x.refcount == old(x.refcount)
      ensures freed == (if old(items[i]).refcount == 0 then old(items[i]) else null)
    {
      hide HashOf, Wf;
      ghost var l := Content();
      PlaceFacts(l, nit, i);
      var it := items[i];
      assert it.next == Behind(l, i);
      nit.next := it.next;
      items[i] := nit;
      it.refcount := it.refcount - 1;
      assert Content() == l[i := nit];
      freed := if it.refcount == 0 then it else null;
    }

    /** The chain is searched, keeping the item before. */
    method Search(key: Key, hv: nat) returns (it: Item?, prev: Item?, ghost j: nat)
      requires Valid() && hv == HashOf(key) && Place(Content(), key, 0) >= NITEMS
      ensures j == Place(Content(), key, 0)
      ensures it == if j < |Content()| then Content()[j] else null
      ensures it != null ==> j >= NITEMS && prev == Content()[j - 1] && prev != null
    {
      hide HashOf, Wf;
      ghost var l := Content();
      WfFacts(l);
      prev := null;
      it := items[NITEMS - 1];
      j := NITEMS;
      if it != null {
        assert it.next == Behind(l, NITEMS - 1);
        prev := it;
        it := it.next;
        while it != null && !(it.hv == hv && it.key == key)
          invariant NITEMS <= j <= |l| && it == (if j < |l| then l[j] else null)
          invariant prev != null && prev == l[j - 1]
          invariant forall k :: 0 <= k < j ==> !Matches(l[k], key)
          decreases |l| - j
        {
          assert it.next == Behind(l, j);
          prev := it;
          it := it.next;
          j := j + 1;
        }
      }
      PlaceIs(l, key, j);
    }

    /** A chained item gives way to the new one. */
    method ReplaceChained(nit: Item) returns (done: bool, freed: Item?)
      requires Valid() && Counted() && Place(Content(), nit.key, 0) >= NITEMS
      requires nit !in Members() && nit.hv == HashOf(nit.key) && nit.refcount >= 2
      modifies `chain, Members(), nit`next
      ensures Valid() && Counted()
      ensures done <==> Place(old(Content()), nit.key, 0) < |old(Content())|
      ensures !done ==> Content() == old(Content()) && freed == null && forall x :: x in Members() ==>
        x.refcount == old(x.refcount)
      ensures done ==>
        var i := Place(old(Content()), nit.key, 0);
        var it := old(Content())[i];
        && it != null && Content() == old(Content())[i := nit]
        && it.refcount == old(it.refcount) - 1
        && (forall x :: x in old(Members()) && x != it ==> x.refcount == old(x.refcount))
        && freed == (if it.refcount == 0 then it else null)
    {
      hide HashOf, Wf;
      ghost var l := Content();
      var it, prev, j := Search(nit.key, nit.hv);
      if it == null {
        WfFacts(l);
        return false, null;
      }
      PlaceFacts(l, nit, j);
      assert it.next == Behind(l, j);
      nit.next := it.next;
      prev.next := nit;
      chain := chain[j - NITEMS := nit];
      it.refcount := it.refcount - 1;
      ghost var l' := Content();
      assert l' == l[j := nit];
      forall i | 0 <= i < |l'| && l'[i] != null ensures l'[i].next == Behind(l', i) {
        if i != j {
          assert l[i].next == (if l[i] == prev then nit else Behind(l, i));
          LinksApart(l, i, j);
        }
      }
      done, freed := true, if it.refcount == 0 then it else null;
    }

    /** The new item goes where there is room. */
    method Insert(nit: Item, di: nat)
      requires Valid() && Counted() && Place(Content(), nit.key, 0) == |Content()|
      requires nit !in Members() && nit.hv == HashOf(nit.key) && nit.refcount >= 2
      requires di < NITEMS && (items[di] == null || di == NITEMS - 1)
      modifies `chain, items, hashes, nit`next
      ensures Valid() && Counted()
      ensures Content() == if old(items[di]) == null then old(Content())[di := nit] else Pushed(old(Content()), nit)
      ensures forall x :: x in old(Members()) ==> x.refcount == old(x.refcount)
    {
      hide HashOf, Wf;
      PlaceNone(Content(), nit, di);
      if items[di] == null {
        Fill(nit, di);
      } else {
        PushFront(nit);
      }
    }

    /** An empty slot is filled. */
    method Fill(nit: Item, di: nat)
      requires Valid() && Counted() && nit !in Members() && nit.refcount >= 2
      requires di < NITEMS && items[di] == null && Wf(Content()[di := nit])
      modifies items, hashes, nit`next
      ensures Valid() && Counted() && Content() == old(Content())[di := nit]
      ensures forall x :: x in old(Members()) ==> x.refcount == old(x.refcount)
    {
      hide HashOf, Wf;
      ghost var l := Content();
      WfFacts(l);
      nit.next := items[di];
      hashes[di] := nit.hv;
      items[di] := nit;
      assert Content() == l[di := nit];
    }

    /** The new item takes the last slot, and the item there heads the chain. */
    method PushFront(nit: Item)
      requires Valid() && Counted() && nit !in Members() && nit.refcount >= 2
      requires items[NITEMS - 1] != null && Wf(Pushed(Content(), nit))
      modifies `chain, items, hashes, nit`next
      ensures Valid() && Counted() && Content() == Pushed(old(Content()), nit)
      ensures forall x :: x in old(Members()) ==> x.refcount == old(x.refcount)
    {
      hide HashOf, Wf;
      ghost var l := Content();
      chain := [items[NITEMS - 1]] + chain;
      nit.next := items[NITEMS - 1];
      hashes[NITEMS - 1] := nit.hv;
      items[NITEMS - 1] := nit;
      ghost var l' := Content();
      assert l' == Pushed(l, nit);
      PushedAt(l, nit);
      forall i | 0 <= i < |l'| && l'[i] != null ensures l'[i].next == Behind(l', i) {
        if i >= NITEMS {
          assert l[i - 1].next == Behind(l, i - 1);
        }
      }
    }
  }

  lemma PushedAt(l: View, nit: Item)
    requires |l| >= NITEMS
    ensures var l' := Pushed(l, nit);
      |l'| == |l| + 1 && forall j :: 0 <= j < |l'| ==>
        l'[j] == if j < NITEMS - 1 then l[j] else if j == NITEMS - 1 then nit else l[j - 1]
  {
  }

  /** No item is at two places. */
  lemma LinksApart(l: View, i: nat, j: nat)
    requires Wf(l) && i < |l| && NITEMS <= j < |l| && l[i] != null
    ensures l[i] == l[j - 1] ==> i == j - 1
  {
  }

  lemma WfFacts(l: View)
    requires Wf(l)
    ensures |l| >= NITEMS && (l[NITEMS - 1] == null ==> |l| == NITEMS) && forall j :: NITEMS <= j < |l| ==> l[j] != null
  {
  }

  /** Replacing the item with the key of the new one keeps a bucket well formed, and the
      replaced item is gone from it. */
  lemma PlaceFacts(l: View, nit: Item, i: nat)
    requires Wf(l) && nit.hv == HashOf(nit.key) && i == Place(l, nit.key, 0) && i < |l| && nit !in l
    ensures |l| >= NITEMS && l[i] != null && Wf(l[i := nit]) && l[i] !in l[i := nit]
    ensures forall j :: 0 <= j < |l| && j != i ==> l[j] != l[i]
  {
    PlaceOnly(l, nit.key);
    SetWf(l, i, nit);
  }

  lemma PlaceNone(l: View, nit: Item, i: nat)
    requires Wf(l) && nit.hv == HashOf(nit.key) && Place(l, nit.key, 0) == |l| && i < NITEMS && nit !in l
    ensures |l| >= NITEMS && (l[NITEMS - 1] == null ==> |l| == NITEMS)
    ensures l[i] == null ==> Wf(l[i := nit])
    ensures l[NITEMS - 1] != null ==> Wf(Pushed(l, nit))
  {
    PlaceOnly(l, nit.key);
    if l[i] == null {
      SetWf(l, i, nit);
    }
    if l[NITEMS - 1] != null {
      PushedWf(l, nit);
    }
  }
}
