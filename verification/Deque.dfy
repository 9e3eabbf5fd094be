/** The growing circular deque of src/kdq.h, which the log of added and freed pages is kept in. */
module Deque {
  import opened Probing
  import opened Options
  import opened Rings

  /** x & mask, for an index at most once around. */
  lemma Masked(x: nat, n: nat)
    requires 0 < n && x < 2 * n
    ensures x % n == Wrap(x, n)
  {
    if x >= n {
      assert x == n + (x - n);
    }
  }

  /** kdq_t: 2^bits places, count of them in use from front on, around the end. */
  class Kdq<T(0)> {
    var a: array<T>
    var bits: nat
    var front: nat
    var count: nat
    ghost var contents: seq<T>

    ghost predicate Valid()
      reads this, a
    {
      && a.Length == Pow2(bits) && front < a.Length
      && count == |contents| <= a.Length
      && forall j :: 0 <= j < a.Length && Behind(j, front, a.Length) < count ==>
         a[j] == contents[Behind(j, front, a.Length)]
    }

    /** kdq_init */
    constructor ()
      ensures Valid() && contents == [] && bits == 2 && fresh(a)
    {
      assert Pow2(2) == 4;
      a := new T[4];
      bits, front, count, contents := 2, 0, 0, [];
    }

    /** kdq_resize to no fewer places.  Only what is wrapped around the end moves, to the new end. */
    method Grow(newBits: nat)
      requires Valid() && newBits >= bits
      modifies this
      ensures Valid() && contents == old(contents) && bits == newBits
      ensures a == old(a) || fresh(a)
    {
      if newBits == bits {
        return;
      }
      Pow2Above(bits, newBits);
      var oldSize, newSize := a.Length, Pow2(newBits);
      var b := Enlarged(newSize);
      if front + count > oldSize {
        front := MoveTail(b);
      }
      a := b;
      bits := newBits;
    }

    /** The elements before the old end go to the new end. */
    method MoveTail(b: array<T>) returns (f: nat)
      requires Valid() && b != a && front + count > a.Length && b.Length >= 2 * a.Length && b[..a.Length] == a[..]
      modifies b
      ensures f < b.Length
      ensures forall j :: 0 <= j < b.Length && Behind(j, f, b.Length) < count ==>
        b[j] == contents[Behind(j, f, b.Length)]
    {
      var tail := a.Length - front;
      f := b.Length - tail;
      forall i | 0 <= i < tail {
        b[f + i] := b[front + i];
      }
      forall j | 0 <= j < b.Length && Behind(j, f, b.Length) < count
        ensures b[j] == contents[Behind(j, f, b.Length)]
      {
        if j >= f {
          assert b[f + (j - f)] == a[front + (j - f)];
        } else {
          assert b[j] == a[j];
        }
      }
    }

    /** realloc */
    method Enlarged(size: nat) returns (b: array<T>)
      requires size >= a.Length
      ensures fresh(b) && b.Length == size && b[..a.Length] == a[..]
    {
      b := new T[size];
      forall i | 0 <= i < a.Length {
        b[i] := a[i];
      }
    }

    /** kdq_push: at the end, for a page added or removed. */
    method Push(v: T)
      requires Valid()
      modifies this, a
      ensures Valid() && contents == old(contents) + [v] && (a == old(a) || fresh(a))
      ensures bits == if old(count) == old(a.Length) then old(bits) + 1 else old(bits)
    {
      MakeRoom();
      Masked(count + front, a.Length);
      a[(count + front) % a.Length] := v;
      count := count + 1;
      contents := contents + [v];
    }

    method MakeRoom()
      requires Valid()
      modifies this
      ensures Valid() && contents == old(contents) && count < a.Length && (a == old(a) || fresh(a))
      ensures bits == if old(count) == old(a.Length) then old(bits) + 1 else old(bits)
    {
      if count == a.Length {
        Pow2Above(bits, bits + 1);
        Grow(bits + 1);
      }
    }

    /** kdq_unshift: at the front. */
    method Unshift(v: T)
      requires Valid()
      modifies this, a
      ensures Valid() && contents == [v] + old(contents) && (a == old(a) || fresh(a))
    {
      MakeRoom();
      count := count + 1;
      front := if front != 0 then front - 1 else a.Length - 1;
      a[front] := v;
      contents := [v] + contents;
    }

    /** kdq_pop: from the end. */
    method Pop() returns (v: Option<T>)
      requires Valid()
      modifies this
      ensures Valid() && a == old(a)
      ensures old(contents) == [] ==> v == None && contents == []
      ensures old(contents) != [] ==>
        v == Some(old(contents)[|old(contents)| - 1]) && contents == old(contents)[..|old(contents)| - 1]
    {
      if count == 0 {
        return None;
      }
      count := count - 1;
      Masked(count + front, a.Length);
      v := Some(a[(count + front) % a.Length]);
      contents := contents[..count];
    }

    /** kdq_shift: from the front. */
    method Shift() returns (v: Option<T>)
      requires Valid()
      modifies this
      ensures Valid() && a == old(a)
      ensures old(contents) == [] ==> v == None && contents == []
      ensures old(contents) != [] ==> v == Some(old(contents)[0]) && contents == old(contents)[1..]
    {
      if count == 0 {
        return None;
      }
      v := Some(a[front]);
      Masked(front + 1, a.Length);
      front := (front + 1) % a.Length;
      count := count - 1;
      contents := contents[1..];
    }
  }

  lemma {:induction false} Pow2Above(m: nat, n: nat)
    requires m < n
    ensures 2 * Pow2(m) <= Pow2(n)
    decreases n
  {
    if m < n - 1 {
      Pow2Above(m, n - 1);
    }
  }
}
