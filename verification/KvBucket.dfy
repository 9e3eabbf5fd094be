/** One bucket of apps/flexkvs/server/hashtable.c as a value: five direct slots, and a chain of
    further items behind the item in the last slot. */
module KvBucket {
  import JenkinsHash

  type Key = seq<bv8>

  /** jenkins_hash of a key, as the server computes it for every request and item. */
  function HashOf(key: Key): nat { JenkinsHash.Hash(key) as nat }

  /** struct item.  The key, the value and the hash are written before an item is published and
      never after. */
  class Item {
    const key: Key
    const val: seq<bv8>
    const hv: nat
    var refcount: nat
    var next: Item?

    /** ialloc_alloc and the initialisation in connection_recv or clean_log. */
    constructor (key: Key, val: seq<bv8>)
      ensures this.key == key && this.val == val && hv == HashOf(key)
      ensures refcount == 1 && next == null
    {
      this.key, this.val, hv := key, val, HashOf(key);
      refcount, next := 1, null;
    }
  }

  const NITEMS := 5

  /** The direct slots in order, and then the chain behind the last of them. */
  type View = seq<Item?>

  /** item_hkey_matches */
  predicate Matches(it: Item?, key: Key) { it != null && it.hv == HashOf(key) && it.key == key }

  /** Every item has the hash of its key. */
  ghost predicate Hashed(l: View)
  {
    forall i :: 0 <= i < |l| && l[i] != null ==> l[i].hv == HashOf(l[i].key)
  }

  /** No key is there twice. */
  ghost predicate KeysApart(l: View)
  {
    forall i, j :: 0 <= i < j < |l| && l[i] != null && l[j] != null ==> l[i].key != l[j].key
  }

  /** Only direct slots may be empty, and only behind an item in the last is there a chain. */
  ghost predicate Slotted(l: View)
  {
    && |l| >= NITEMS
    && (l[NITEMS - 1] == null ==> |l| == NITEMS)
    && (forall j :: NITEMS <= j < |l| ==> l[j] != null)
  }

  ghost predicate Wf(l: View) { Slotted(l) && Hashed(l) && KeysApart(l) }

  // ----- searching -----

  /** The first place at or after i with the key, or |l|. */
  function Place(l: View, key: Key, i: nat): (r: nat)
    requires i <= |l|
    ensures i <= r <= |l| && (r < |l| ==> Matches(l[r], key))
    ensures forall j :: i <= j < r ==> !Matches(l[j], key)
    decreases |l| - i
  {
    if i == |l| || Matches(l[i], key) then i else Place(l, key, i + 1)
  }

  /** The last empty place below i, or |l|. */
  function LastEmpty(l: View, i: nat): (r: nat)
    requires i <= |l|
    ensures r <= |l| && (r < |l| ==> r < i && l[r] == null)
    ensures forall j :: (if r < |l| then r + 1 else 0) <= j < i ==> l[j] != null
  {
    if i == 0 then |l| else if l[i - 1] == null then i - 1 else LastEmpty(l, i - 1)
  }

  /** What the bucket holds for a key, or null: hasht_get. */
  function Find(l: View, key: Key): Item?
  {
    var i := Place(l, key, 0);
    if i < |l| then l[i] else null
  }

  /** Finding is holding: an item is found under a key exactly if it is there and has the key. */
  lemma FindIff(l: View, key: Key, it: Item)
    requires Hashed(l) && KeysApart(l)
    ensures Find(l, key) == it <==> it in l && it.key == key
  {
    hide HashOf;
    if it in l {
      var i :| 0 <= i < |l| && l[i] == it;
    }
  }

  // ----- hasht_put -----

  /** What hasht_put does to a bucket: its new content, the item it takes the reference of the
      table away from, and whether the new item gets one. */
  datatype Change = Change(l: View, replaced: Item?, taken: bool)

  function Put(l: View, nit: Item, cas: Item?): Change
    requires |l| >= NITEMS
  {
    var i := Place(l, nit.key, 0);
    var e := LastEmpty(l, NITEMS);
    if i < NITEMS && (cas == null || cas == l[i]) then Change(l[i := nit], l[i], true)
    else if cas != null then Change(l, null, false)
    else if i < |l| then Change(l[i := nit], l[i], true)
    else if e < |l| then Change(l[e := nit], null, true)
    else Change(Pushed(l, nit), null, true)
  }

  /** The new item goes to the last slot, and the item there behind it. */
  function Pushed(l: View, nit: Item): View
    requires |l| >= NITEMS
  {
    l[..NITEMS - 1] + [nit] + l[NITEMS - 1..]
  }

  /** Replacing an item of the same key, or filling a slot, keeps a bucket well formed. */
  lemma SetWf(l: View, i: nat, nit: Item)
    requires Wf(l) && i < |l| && nit.hv == HashOf(nit.key)
    requires forall j :: 0 <= j < |l| && j != i && l[j] != null ==> l[j].key != nit.key
    ensures Wf(l[i := nit])
  {
    hide HashOf;
  }

  lemma PushedWf(l: View, nit: Item)
    requires Wf(l) && nit.hv == HashOf(nit.key) && l[NITEMS - 1] != null
    requires forall j :: 0 <= j < |l| && l[j] != null ==> l[j].key != nit.key
    ensures Wf(Pushed(l, nit))
  {
    hide HashOf;
    var l' := Pushed(l, nit);
    assert forall j :: 0 <= j < |l'| ==>
      l'[j] == if j < NITEMS - 1 then l[j] else if j == NITEMS - 1 then nit else l[j - 1];
  }

  /** Where the key is: at its place and nowhere else. */
  lemma PlaceOnly(l: View, key: Key)
    requires Hashed(l) && KeysApart(l)
    ensures forall j :: 0 <= j < |l| && j != Place(l, key, 0) && l[j] != null ==> l[j].key != key
  {
    hide HashOf;
  }

  lemma PutWf(l: View, nit: Item, cas: Item?)
    requires Wf(l) && nit.hv == HashOf(nit.key)
    ensures Wf(Put(l, nit, cas).l)
  {
    PlaceOnly(l, nit.key);
    var i := Place(l, nit.key, 0);
    var e := LastEmpty(l, NITEMS);
    hide Hashed, KeysApart, HashOf;
    if i < |l| {
      SetWf(l, i, nit);
    } else if e < |l| {
      SetWf(l, e, nit);
    } else {
      PushedWf(l, nit);
    }
  }

  // ----- a bucket is a map -----

  lemma PlaceIs(l: View, key: Key, r: nat)
    requires r <= |l| && (r < |l| ==> Matches(l[r], key)) && forall j :: 0 <= j < r ==> !Matches(l[j], key)
    ensures Place(l, key, 0) == r
  {
    hide Matches;
    var p := Place(l, key, 0);
    assert 0 <= p < r ==> p < |l|;
  }

  lemma SetFind(l: View, i: nat, nit: Item, key: Key)
    requires Hashed(l) && i < |l| && nit.hv == HashOf(nit.key)
      && Place(l, nit.key, 0) == (if l[i] == null then |l| else i)
    ensures Find(l[i := nit], key) == if key == nit.key then nit else Find(l, key)
  {
    hide HashOf;
    PlaceIs(l[i := nit], key, if key == nit.key then i else Place(l, key, 0));
  }

  lemma PushedFind(l: View, nit: Item, key: Key)
    requires Wf(l) && nit.hv == HashOf(nit.key) && Place(l, nit.key, 0) == |l|
    ensures Find(Pushed(l, nit), key) == if key == nit.key then nit else Find(l, key)
  {
    hide HashOf;
    var l' := Pushed(l, nit);
    assert forall j :: 0 <= j < |l'| ==>
      l'[j] == if j < NITEMS - 1 then l[j] else if j == NITEMS - 1 then nit else l[j - 1];
    var p := Place(l, key, 0);
    PlaceIs(l', key, if key == nit.key then NITEMS - 1 else if p < NITEMS - 1 then p else p + 1);
  }

  /** Storing: the new item is found under its key, every other key is untouched, and what was
      stored under the key loses its place. */
  lemma PutStores(l: View, nit: Item, key: Key)
    requires Wf(l) && nit.hv == HashOf(nit.key)
    ensures var c := Put(l, nit, null);
      && c.taken
      && Find(c.l, key) == (if key == nit.key then nit else Find(l, key))
      && c.replaced == Find(l, nit.key)
  {
    var i := Place(l, nit.key, 0);
    var e := LastEmpty(l, NITEMS);
    hide Hashed, KeysApart, HashOf;
    if i < |l| {
      SetFind(l, i, nit, key);
    } else if e < |l| {
      SetFind(l, e, nit, key);
    } else {
      PushedFind(l, nit, key);
    }
  }

  /** Compare and set: the bucket changes only if what it holds for the key is the item to be
      replaced, and that item is in a direct slot. */
  lemma PutCompares(l: View, nit: Item, cas: Item, key: Key)
    requires Wf(l) && nit.hv == HashOf(nit.key)
    ensures var c := Put(l, nit, cas);
      && (c.taken <==> Find(l, nit.key) == cas && Place(l, nit.key, 0) < NITEMS)
      && (if c.taken then c.replaced == cas && Find(c.l, key) == (if key == nit.key then nit else Find(l, key))
          else c.l == l && c.replaced == null)
  {
    var i := Place(l, nit.key, 0);
    hide Hashed, KeysApart, HashOf;
    if i < NITEMS && cas == l[i] {
      SetFind(l, i, nit, key);
    }
  }

  /** What is in the bucket afterwards. */
  lemma PutMembers(l: View, nit: Item, cas: Item?, x: Item)
    requires Wf(l) && nit.hv == HashOf(nit.key) && nit !in l
    ensures var c := Put(l, nit, cas);
      && (x in c.l <==> if c.taken then x == nit || (x in l && x != c.replaced) else x in l)
      && (c.replaced != null ==> c.taken && c.replaced in l && c.replaced.key == nit.key)
      && (!c.taken ==> c.l == l)
  {
    hide HashOf;
    PlaceOnly(l, nit.key);
    var i := Place(l, nit.key, 0);
    var e := LastEmpty(l, NITEMS);
    if i < |l| {
      SetMembers(l, i, nit, x);
    } else if e < |l| {
      SetMembers(l, e, nit, x);
    } else {
      PushedMembers(l, nit, x);
    }
  }

  lemma SetMembers(l: View, i: nat, nit: Item, x: Item)
    requires i < |l| && nit !in l && forall j :: 0 <= j < |l| && j != i && l[i] != null ==> l[j] != l[i]
    ensures x in l[i := nit] <==> x == nit || (x in l && x != l[i])
  {
    var l' := l[i := nit];
    assert l'[i] == nit;
    if x in l && x != l[i] {
      var j :| 0 <= j < |l| && l[j] == x;
      assert l'[j] == x;
    }
  }

  lemma PushedMembers(l: View, nit: Item, x: Item)
    requires |l| >= NITEMS
    ensures x in Pushed(l, nit) <==> x == nit || x in l
  {
    assert l == l[..NITEMS - 1] + l[NITEMS - 1..];
  }
}
