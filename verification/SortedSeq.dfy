/** Ascending sequences (equal neighbours allowed): inserting and removing one key. */
module SortedSeq {

  ghost predicate Sorted(s: seq<int>)
  {
    forall i, j :: 0 <= i < j < |s| ==> s[i] <= s[j]
  }

  ghost predicate AllLe(s: seq<int>, k: int) { forall i :: 0 <= i < |s| ==> s[i] <= k }

  ghost predicate AllGe(s: seq<int>, k: int) { forall i :: 0 <= i < |s| ==> s[i] >= k }

  /** s with k put before the first key that is not below it. */
  ghost function Insert(s: seq<int>, k: int): seq<int>
  {
    if s == [] || k <= s[0] then [k] + s else [s[0]] + Insert(s[1..], k)
  }

  /** s without the first k in it. */
  ghost function Remove(s: seq<int>, k: int): seq<int>
  {
    if s == [] then [] else if s[0] == k then s[1..] else [s[0]] + Remove(s[1..], k)
  }

  lemma {:induction false} InsertAt(s: seq<int>, k: int, p: nat)
    requires Sorted(s) && p <= |s| && AllLe(s[..p], k) && AllGe(s[p..], k)
    ensures Insert(s, k) == s[..p] + [k] + s[p..]
  {
    if p == 0 {
      if s != [] { assert s[p..][0] == s[0]; }
      assert s[..p] + [k] + s[p..] == [k] + s;
    } else {
      assert s[..p][0] == s[0] && s[..p][p - 1] == s[p - 1];
      if s[0] == k {
        RunOfKey(s, k, p);
      } else {
        Peel(s, p);
        InsertAt(s[1..], k, p - 1);
        Front(s[0], s[1..][..p - 1], [k], s[p..]);
      }
    }
  }

  lemma Peel(s: seq<int>, p: nat)
    requires 0 < p <= |s|
    ensures s[1..][..p - 1] == s[..p][1..] && s[1..][p - 1..] == s[p..]
    ensures s[..p] == [s[0]] + s[1..][..p - 1]
  {
  }

  lemma Front(x: int, a: seq<int>, b: seq<int>, c: seq<int>)
    ensures [x] + (a + b + c) == [x] + a + b + c
    ensures [x] + (a + c) == [x] + a + c
  {
  }

  lemma RunOfKey(s: seq<int>, k: int, p: nat)
    requires Sorted(s) && 0 < p <= |s| && s[0] == k && s[p - 1] <= k
    ensures [k] + s == s[..p] + [k] + s[p..]
  {
    assert forall i :: 0 <= i < p ==> s[i] == k;
  }

  /** Where the keys around the place for k are known, inserting there is inserting. */
  lemma InsertMiddle(l: seq<int>, m: seq<int>, r: seq<int>, k: int)
    requires Sorted(l + m + r) && AllLe(l, k) && AllGe(r, k)
    ensures Insert(l + m + r, k) == l + Insert(m, k) + r
  {
    SortedParts(l, m, r);
    var p := Place(m, k);
    InsertAt(m, k, p);
    Cut(l, m, r, p);
    assert AllLe(l + m[..p], k) && AllGe(m[p..] + r, k);
    hide *;
    InsertAt(l + m + r, k, |l| + p);
    Assoc(l, m[..p], [k], m[p..], r);
  }

  lemma Cut(l: seq<int>, m: seq<int>, r: seq<int>, p: nat)
    requires p <= |m|
    ensures (l + m + r)[..|l| + p] == l + m[..p]
    ensures (l + m + r)[|l| + p..] == m[p..] + r
  {
  }

  lemma Assoc(a: seq<int>, b: seq<int>, c: seq<int>, e: seq<int>, f: seq<int>)
    ensures (a + b) + c + (e + f) == a + (b + c + e) + f
  {
  }

  lemma SortedParts(l: seq<int>, m: seq<int>, r: seq<int>)
    requires Sorted(l + m + r)
    ensures Sorted(l) && Sorted(m) && Sorted(r)
    ensures forall x, y :: x in l && y in m ==> x <= y
    ensures forall x, y :: x in l && y in r ==> x <= y
    ensures forall x, y :: x in m && y in r ==> x <= y
  {
    var s := l + m + r;
    assert forall i :: 0 <= i < |l| ==> s[i] == l[i];
    assert forall i :: 0 <= i < |m| ==> s[|l| + i] == m[i];
    assert forall i :: 0 <= i < |r| ==> s[|l| + |m| + i] == r[i];
  }

  /** The number of keys of s below k. */
  lemma {:induction false} Place(s: seq<int>, k: int) returns (p: nat)
    requires Sorted(s)
    ensures p <= |s| && AllLe(s[..p], k) && AllGe(s[p..], k)
  {
    if s == [] || k <= s[0] {
      p := 0;
    } else {
      p := Place(s[1..], k);
      assert s[..p + 1] == [s[0]] + s[1..][..p] && s[p + 1..] == s[1..][p..];
      p := p + 1;
    }
  }

  lemma {:induction false} InsertKeeps(s: seq<int>, k: int)
    requires Sorted(s)
    ensures Sorted(Insert(s, k)) && multiset(Insert(s, k)) == multiset(s) + multiset{k}
  {
    var p := Place(s, k);
    InsertAt(s, k, p);
    SortedAround(s, k, p);
    hide *;
    assert s == s[..p] + s[p..];
  }

  lemma SortedAround(s: seq<int>, k: int, p: nat)
    requires Sorted(s) && p <= |s| && AllLe(s[..p], k) && AllGe(s[p..], k)
    ensures Sorted(s[..p] + [k] + s[p..])
  {
  }

  lemma {:induction false} RemoveAt(s: seq<int>, k: int, p: nat)
    requires Sorted(s) && p < |s| && s[p] == k
    ensures Remove(s, k) == s[..p] + s[p + 1..]
  {
    if s[0] == k {
      assert forall i :: 0 <= i <= p ==> s[i] == k;
      assert s[1..] == s[..p] + s[p + 1..];
    } else {
      RemoveAt(s[1..], k, p - 1);
      Peel(s, p);
      Peel(s, p + 1);
      Front(s[0], s[1..][..p - 1], [], s[p + 1..]);
    }
  }

  /** A key known to be in the middle part is removed from there. */
  lemma RemoveMiddle(l: seq<int>, m: seq<int>, r: seq<int>, k: int)
    requires Sorted(l + m + r) && k in m
    ensures Remove(l + m + r, k) == l + Remove(m, k) + r
  {
    SortedParts(l, m, r);
    var p :| 0 <= p < |m| && m[p] == k;
    assert (l + m + r)[|l| + p] == k;
    hide *;
    RemoveAt(m, k, p);
    RemoveAt(l + m + r, k, |l| + p);
    Cut(l, m, r, p);
    Cut(l, m, r, p + 1);
    Assoc(l, m[..p], [], m[p + 1..], r);
    assert l + m[..p] + [] == l + m[..p] && m[..p] + [] == m[..p];
  }

  lemma {:induction false} RemoveKeeps(s: seq<int>, k: int)
    requires Sorted(s) && k in s
    ensures Sorted(Remove(s, k)) && multiset(Remove(s, k)) == multiset(s) - multiset{k}
  {
    var p :| 0 <= p < |s| && s[p] == k;
    SortedWithout(s, p);
    hide *;
    RemoveAt(s, k, p);
    assert s == s[..p] + [k] + s[p + 1..];
  }

  lemma SortedWithout(s: seq<int>, p: nat)
    requires Sorted(s) && p < |s|
    ensures Sorted(s[..p] + s[p + 1..])
  {
    var r := s[..p] + s[p + 1..];
    assert forall i :: 0 <= i < |r| ==> r[i] == if i < p then s[i] else s[i + 1];
  }
}
