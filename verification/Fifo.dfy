/** The doubly linked lists of src/fifo.c, in which free pages and migration requests are kept:
    entries are put in at the first end and taken out at the last. */
module Fifo {

  /** struct arms_page and struct migration_req, as far as lists are concerned. */
  class Entry {
    var next: Entry?
    var prev: Entry?
    var list: List?

    constructor ()
      ensures next == null && prev == null && list == null
    {
      next, prev, list := null, null, null;
    }
  }

  ghost predicate Distinct(s: seq<Entry>) { forall i, j :: 0 <= i < j < |s| ==> s[i] != s[j] }

  ghost function After(s: seq<Entry>, i: nat): Entry?
    requires i < |s|
  {
    if i + 1 < |s| then s[i + 1] else null
  }

  ghost function Before(s: seq<Entry>, i: nat): Entry?
    requires i < |s|
  {
    if i > 0 then s[i - 1] else null
  }

  class List {
    var first: Entry?
    var last: Entry?
    var numentries: nat
    ghost var contents: seq<Entry>

    /** The entries are linked in order, and know their list. */
    ghost predicate Linked(c: seq<Entry>)
      reads c
    {
      forall i :: 0 <= i < |c| ==> c[i].next == After(c, i) && c[i].prev == Before(c, i) && c[i].list == this
    }

    ghost predicate Valid()
      reads this, contents
    {
      && Distinct(contents)
      && Linked(contents)
      && first == (if contents == [] then null else contents[0])
      && last == (if contents == [] then null else contents[|contents| - 1])
      && numentries == |contents|
    }

    constructor ()
      ensures Valid() && contents == []
    {
      first, last, numentries, contents := null, null, 0, [];
    }

    /** enqueue_fifo, enqueue_fifo_m */
    method Enqueue(entry: Entry)
      requires Valid() && entry !in contents && entry.prev == null
      modifies this, contents, entry
      ensures Valid() && contents == [entry] + old(contents)
    {
      entry.next := first;
      if first != null {
        assert first.prev == null;
        first.prev := entry;
      } else {
        assert last == null && numentries == 0;
        last := entry;
      }
      first := entry;
      entry.list := this;
      numentries := numentries + 1;
      contents := [entry] + contents;
    }

    /** dequeue_fifo, dequeue_fifo_m: the entry that has been in the list longest. */
    method Dequeue() returns (ret: Entry?)
      requires Valid()
      modifies this, contents
      ensures Valid()
      ensures old(contents) == [] ==> ret == null && contents == []
      ensures old(contents) != [] ==>
        ret == old(contents)[|old(contents)| - 1] && contents == old(contents)[..|old(contents)| - 1]
      ensures ret != null ==> ret !in contents && ret.next == null && ret.prev == null && ret.list == null
    {
      hide Linked, Distinct;
      ret := last;
      if ret == null {
        return;
      }
      CutLast(ret);
      ret.prev, ret.next := null, null;
      ret.list := null;
      assert numentries > 0;
      numentries := numentries - 1;
    }

    /** The entry before the last becomes the last. */
    method CutLast(ret: Entry)
      requires Valid() && contents != [] && ret == contents[|contents| - 1]
      modifies `first, `last, `contents, contents
      ensures contents == old(contents)[..|old(contents)| - 1] && ret !in contents && Distinct(contents)
        && Linked(contents)
      ensures first == (if contents == [] then null else contents[0])
      ensures last == (if contents == [] then null else contents[|contents| - 1])
    {
      hide Distinct;
      ghost var c, n := contents, |contents| - 1;
      FrontApart(c);
      last := ret.prev;
      if last != null {
        last.next := null;
      } else {
        first := null;
      }
      contents := c[..n];
      forall j | 0 <= j < n
        ensures contents[j].next == After(contents, j) && contents[j].prev == Before(contents, j)
          && contents[j].list == this
      {
        assert contents[j] == c[j] != ret && (c[j] == last <==> j == n - 1);
      }
    }

    /** page_list_remove_page: from anywhere in the list. */
    method Remove(page: Entry, ghost i: nat)
      requires Valid() && (contents == [] || (i < |contents| && page == contents[i]))
      modifies this, contents
      ensures Valid()
      ensures contents == if old(contents) == [] then [] else Less(old(contents), i)
      ensures old(contents) != [] ==> page !in contents && page.next == null && page.prev == null && page.list == null
    {
      if first == null {
        assert last == null && numentries == 0;
        return;
      }
      TakeOut(page, i);
    }

    method TakeOut(page: Entry, ghost i: nat)
      requires Valid() && i < |contents| && page == contents[i]
      modifies this, contents
      ensures Valid() && contents == Less(old(contents), i) && page !in contents
      ensures page.next == null && page.prev == null && page.list == null
    {
      hide Linked, Distinct, Bypassed, After, Before, Less;
      ghost var c := contents;
      Without(c, i);
      Ends(i);
      MoveEnds(page);
      Unlink(page, i);
      assert numentries > 0;
      numentries := numentries - 1;
      contents := Less(c, i);
      Relinked(c, i);
    }

    /** The ends move past the page, if it is there. */
    method MoveEnds(page: Entry)
      modifies `first, `last
      ensures first == if old(first) == page then page.next else old(first)
      ensures last == if old(last) == page then page.prev else old(last)
    {
      if first == page {
        first := page.next;
      }
      if last == page {
        last := page.prev;
      }
    }

    lemma Ends(i: nat)
      requires Valid() && i < |contents|
      ensures first == contents[i] <==> i == 0
      ensures last == contents[i] <==> i == |contents| - 1
      ensures contents[i].next == After(contents, i) && contents[i].prev == Before(contents, i)
      ensures i == 0 ==> After(contents, i) == (if Less(contents, i) == [] then null else Less(contents, i)[0])
      ensures i > 0 ==> Less(contents, i) != [] && Less(contents, i)[0] == contents[0]
      ensures i == |contents| - 1 ==>
        Before(contents, i) == (if Less(contents, i) == [] then null else Less(contents, i)[|contents| - 2])
      ensures i < |contents| - 1 ==>
        Less(contents, i) != [] && Less(contents, i)[|contents| - 2] == contents[|contents| - 1]
    {
    }

    /** Around place i of c, the entries are linked to each other. */
    ghost predicate Bypassed(c: seq<Entry>, i: nat)
      requires i < |c|
      reads c
    {
      forall j :: 0 <= j < |c| && j != i ==>
        && c[j].next == After(c, if j + 1 == i then i else j)
        && c[j].prev == Before(c, if j == i + 1 then i else j)
        && c[j].list == this
    }

    /** The entries beside a page are linked to each other, and the page is on its own. */
    method Unlink(page: Entry, ghost i: nat)
      requires Distinct(contents) && Linked(contents) && i < |contents| && page == contents[i]
      modifies contents
      ensures Bypassed(contents, i)
      ensures page.next == null && page.prev == null && page.list == null
    {
      hide Distinct, After, Before;
      ghost var c := contents;
      NextTo(c, i);
      Bypass(page, c);
      page.next := null;
      page.prev := null;
      page.list := null;
      forall j | 0 <= j < |c| && j != i
        ensures c[j].next == After(c, if j + 1 == i then i else j)
          && c[j].prev == Before(c, if j == i + 1 then i else j) && c[j].list == this
      {
        Beside(c, i, j);
      }
    }

    /** The pointers past the page are set. */
    method Bypass(page: Entry, ghost c: seq<Entry>)
      requires page in c && (page.next != null ==> page.next in c) && (page.prev != null ==> page.prev in c)
      requires page.next != page && page.prev != page
      modifies c
      ensures forall x :: x in c ==> x.next == if x == old(page.prev) then old(page.next) else old(x.next)
      ensures forall x :: x in c ==> x.prev == if x == old(page.next) then old(page.prev) else old(x.prev)
      ensures forall x :: x in c ==> x.list == old(x.list)
    {
      if page.next != null {
        page.next.prev := page.prev;
      }
      if page.prev != null {
        page.prev.next := page.next;
      }
    }

    lemma Relinked(c: seq<Entry>, i: nat)
      requires i < |c| && contents == Less(c, i) && Bypassed(c, i)
      ensures Linked(contents)
    {
      hide Distinct;
      Places(c, i);
      forall k | 0 <= k < |contents|
        ensures contents[k].next == After(contents, k) && contents[k].prev == Before(contents, k)
          && contents[k].list == this
      {
        var j := if k < i then k else k + 1;
        assert contents[k] == c[j];
      }
    }
  }

  /** s without its element i. */
  function Less(s: seq<Entry>, i: nat): seq<Entry>
    requires i < |s|
  {
    s[..i] + s[i + 1..]
  }

  lemma FrontApart(c: seq<Entry>)
    requires c != [] && Distinct(c)
    ensures var n := |c| - 1;
      && Distinct(c[..n]) && c[n] !in c[..n]
      && forall j :: 0 <= j < n ==> c[j] != c[n] && (n > 0 ==> (c[j] == c[n - 1] <==> j == n - 1))
  {
  }

  lemma NextTo(c: seq<Entry>, i: nat)
    requires i < |c| && Distinct(c)
    ensures After(c, i) != null ==> After(c, i) in c
    ensures Before(c, i) != null ==> Before(c, i) in c
    ensures After(c, i) != c[i] && Before(c, i) != c[i]
  {
  }

  lemma Beside(c: seq<Entry>, i: nat, j: nat)
    requires i < |c| && j < |c| && j != i && Distinct(c)
    ensures c[j] != c[i] && (c[j] == Before(c, i) <==> j + 1 == i) && (c[j] == After(c, i) <==> j == i + 1)
  {
  }

  lemma Without(c: seq<Entry>, i: nat)
    requires i < |c| && Distinct(c)
    ensures Distinct(Less(c, i)) && c[i] !in Less(c, i) && |Less(c, i)| == |c| - 1
  {
    Places(c, i);
  }

  lemma Places(c: seq<Entry>, i: nat)
    requires i < |c|
    ensures |Less(c, i)| == |c| - 1
    ensures forall k :: 0 <= k < |c| - 1 ==> Less(c, i)[k] == c[if k < i then k else k + 1]
    ensures forall k :: 0 <= k < |c| - 1 ==>
      var j := if k < i then k else k + 1;
      After(Less(c, i), k) == After(c, if j + 1 == i then i else j)
        && Before(Less(c, i), k) == Before(c, if j == i + 1 then i else j)
  {
    var c' := Less(c, i);
    assert forall k :: 0 <= k < |c'| ==> c'[k] == c[if k < i then k else k + 1];
  }
}
