/** The open-addressing hash table of src/khash.h: triangular probing, tombstones,
    and an in-place "kick-out" rehash. */
module KHash {
  import opened Probing

  /** The two flag bits of a bucket: binary 10, 01 and 00. */
  datatype Flag = Empty | Deleted | Live

  /** (khint_t)(n * 0.77 + 0.5) */
  function UpperBound(n: nat): nat { (77 * n + 50) / 100 }

  const MAX_BITS: nat := 31

  /** kroundup32: the least power of two not below x, computed in 32 bits, where it
      wraps to 0 for 0 and for everything above 2^31. */
  function RoundUp(x: nat): nat
  {
    if x == 0 || x > Pow2(MAX_BITS) then 0 else PowerFrom(0, x)
  }

  /** The least power of two not below x, and not below 2^m. */
  function PowerFrom(m: nat, x: nat): (p: nat)
    decreases x - m
  {
    PowGrows(m);
    if Pow2(m) >= x then Pow2(m) else PowerFrom(m + 1, x)
  }

  lemma {:induction false} PowGrows(m: nat)
    ensures Pow2(m) > m
  {
    if m > 0 {
      PowGrows(m - 1);
    }
  }

  // ----- what a search relies on -----

  /** Bucket j is on the probe path of hash value h, with no empty bucket before it. */
  ghost predicate OnPath(flags: seq<Flag>, h: nat, j: nat)
    requires |flags| > 0
  {
    exists s: nat :: s < |flags| && Clear(flags, h, s) && Probe(h, s, |flags|) == j
  }

  /** None of the first s buckets on the probe path of h is empty. */
  ghost predicate Clear(flags: seq<Flag>, h: nat, s: nat)
    requires |flags| > 0
  {
    forall t: nat :: t < s ==> flags[Probe(h, t, |flags|)] != Empty
  }

  /** Every live key can be reached by a search for it. */
  ghost predicate Reachable<K(!new)>(hash: K -> nat, flags: seq<Flag>, keys: seq<K>)
    requires |flags| <= |keys|
  {
    forall j :: 0 <= j < |flags| && flags[j] == Live ==> OnPath(flags, hash(keys[j]), j)
  }

  ghost function LiveSet(flags: seq<Flag>): set<nat>
  {
    set j: nat | j < |flags| && flags[j] == Live
  }

  ghost function UsedSet(flags: seq<Flag>): set<nat>
  {
    set j: nat | j < |flags| && flags[j] != Empty
  }

  // ----- what the buckets hold -----

  /** The slots in S hold exactly the entries of m, each key once. */
  ghost predicate Holds<K(!new), V(!new)>(S: set<nat>, keys: seq<K>, vals: seq<V>, m: map<K, V>)
    requires forall i :: i in S ==> i < |keys| && i < |vals|
  {
    && (forall i :: i in S ==> keys[i] in m && m[keys[i]] == vals[i])
    && (forall i, j :: i in S && j in S && i != j ==> keys[i] != keys[j])
    && (forall k :: k in m ==> exists i :: i in S && keys[i] == k)
  }

  /** A set of slots that hold the entries of m is as large as m. */
  lemma {:induction false} HoldsCard<K(!new), V(!new)>(S: set<nat>, keys: seq<K>, vals: seq<V>, m: map<K, V>)
    requires forall i :: i in S ==> i < |keys| && i < |vals|
    requires Holds(S, keys, vals, m)
    ensures |S| == |m|
    decreases S
  {
    if S == {} {
      assert m.Keys == {};
    } else {
      var i :| i in S;
      var m' := m - {keys[i]};
      assert Holds(S - {i}, keys, vals, m') by {
        forall k | k in m' ensures exists j :: j in S - {i} && keys[j] == k {
          var j :| j in S && keys[j] == k;
          assert j in S - {i};
        }
      }
      HoldsCard(S - {i}, keys, vals, m');
      assert m.Keys == m'.Keys + {keys[i]};
      assert |m.Keys| == |m'.Keys| + 1;
    }
  }

  /** Slot i, not in S, receives an entry whose key is not in m. */
  lemma HoldsPut<K(!new), V(!new)>(S: set<nat>, keys: seq<K>, vals: seq<V>, m: map<K, V>, i: nat, k: K, v: V)
    requires forall j :: j in S ==> j < |keys| && j < |vals|
    requires Holds(S, keys, vals, m)
    requires i !in S && i < |keys| && i < |vals| && k !in m
    ensures Holds(S + {i}, keys[i := k], vals[i := v], m[k := v])
  {
    var keys' := keys[i := k];
    var m' := m[k := v];
    forall k' | k' in m' ensures exists j :: j in S + {i} && keys'[j] == k' {
      if k' == k {
        assert keys'[i] == k';
      } else {
        var j :| j in S && keys[j] == k';
        assert keys'[j] == k';
      }
    }
  }

  /** Slot i of S is given up. */
  lemma HoldsDrop<K(!new), V(!new)>(S: set<nat>, keys: seq<K>, vals: seq<V>, m: map<K, V>, i: nat)
    requires forall j :: j in S ==> j < |keys| && j < |vals|
    requires Holds(S, keys, vals, m)
    requires i in S
    ensures Holds(S - {i}, keys, vals, m - {keys[i]})
    ensures m == (m - {keys[i]})[keys[i] := vals[i]]
  {
    forall k | k in m - {keys[i]} ensures exists j :: j in S - {i} && keys[j] == k {
      var j :| j in S && keys[j] == k;
      assert j in S - {i};
    }
  }

  /** What the allocator answers to the requests of one kh_resize. */
  datatype Alloc = Granted | NoFlags | NoKeys | NoVals

  method Realloc<T(0)>(a: array<T>, n: nat) returns (b: array<T>)
    ensures fresh(b) && b.Length == n
    ensures forall i :: 0 <= i < n && i < a.Length ==> b[i] == a[i]
  {
    b := new T[n];
    var i := 0;
    while i < n && i < a.Length
      invariant i <= n && i <= a.Length
      invariant forall j :: 0 <= j < i ==> b[j] == a[j]
    {
      b[i] := a[i];
      i := i + 1;
    }
  }

  /** What the contents of the arrays say: they hold m, every key in them can be
      reached, the two counters are right, and only a table of the greatest size can
      be filled beyond its upper bound. */
  ghost predicate Ok<K(!new), V(!new)>(hash: K -> nat, bits: nat, flags: seq<Flag>, keys: seq<K>, vals: seq<V>,
      size: nat, nOccupied: nat, m: map<K, V>)
    requires |flags| <= |keys| && |flags| <= |vals|
  {
    && Holds(LiveSet(flags), keys, vals, m)
    && (|flags| > 0 ==> Reachable(hash, flags, keys))
    && size == |LiveSet(flags)|
    && nOccupied == |UsedSet(flags)|
    && (bits < MAX_BITS ==> nOccupied <= UpperBound(|flags|))
  }

  class Table<K(0, ==, !new), V(0, !new)> {
    const hash: K -> nat
    var nBuckets: nat
    var size: nat
    var nOccupied: nat
    var upperBound: nat
    var flags: array<Flag>
    var keys: array<K>
    var vals: array<V>

    /** nBuckets is 0 or 2^bits. */
    ghost var bits: nat
    /** The finite map the table stands for. */
    ghost var M: map<K, V>

    ghost predicate Valid()
      reads this, flags, keys, vals
    {
      && Shape()
      && Ok(hash, bits, flags[..], keys[..], vals[..], size, nOccupied, M)
    }

    ghost predicate Shape()
      reads this
    {
      && (keys as object) != (vals as object)
      && (flags as object) != (keys as object)
      && (flags as object) != (vals as object)
      && flags.Length == nBuckets <= keys.Length
      && nBuckets <= vals.Length
      && (nBuckets == 0 || (2 <= bits <= MAX_BITS && nBuckets == Pow2(bits)))
      && upperBound == (if nBuckets == 0 then 0 else UpperBound(nBuckets))
    }

    /** kh_init */
    constructor (hash: K -> nat)
      ensures Valid() && M == map[] && this.hash == hash
      ensures fresh(flags) && fresh(keys) && fresh(vals)
    {
      this.hash := hash;
      nBuckets, size, nOccupied, upperBound := 0, 0, 0, 0;
      flags := new Flag[0];
      keys := new K[0];
      vals := new V[0];
      bits := 0;
      M := map[];
    }

    /** kh_get: the bucket of a key, or nBuckets when the key is absent. */
    method Get(key: K) returns (x: nat)
      requires Valid()
      ensures key in M ==> x < nBuckets && flags[x] == Live && keys[x] == key && vals[x] == M[key]
      ensures key !in M ==> x == nBuckets
    {
      if nBuckets == 0 {
        return 0;
      }
      var i, step := Locate(flags, keys, key, hash(key), bits);
      if step < 2 * nBuckets - 1 {
        if flags[i] == Empty {
          StoppedAtEmpty(hash, flags[..], keys[..], key, step);
        }
        x := if flags[i] == Live then i else nBuckets;
      } else {
        AllPassed(bits, flags[..], keys[..], key, hash(key), step);
        x := nBuckets;
      }
    }

    /** kh_del: bucket x becomes a tombstone; nBuckets, or a bucket not in use, is ignored. */
    method Del(x: nat)
      requires Valid() && x <= nBuckets
      modifies this, flags
      ensures Valid() && flags == old(flags) && keys == old(keys) && vals == old(vals)
      ensures x < nBuckets && old(flags[x]) == Live ==> M == old(M - {keys[x]})
      ensures x == nBuckets || old(flags[x]) != Live ==> M == old(M)
      ensures nBuckets == old(nBuckets)
    {
      hide Ok, Pow2, UpperBound;
      if x != nBuckets && flags[x] == Live {
        OkDel(hash, bits, flags[..], keys[..], vals[..], size, nOccupied, M, x);
        ghost var fs := flags[..];
        M := M - {keys[x]};
        flags[x] := Deleted;
        size := size - 1;
        assert flags[..] == fs[x := Deleted];
      }
    }

    /** Writing kh_value(h, x). */
    method SetValue(x: nat, v: V)
      requires Valid() && x < nBuckets && flags[x] == Live
      modifies this, vals
      ensures Valid() && flags == old(flags) && keys == old(keys) && vals == old(vals)
      ensures M == old(M)[keys[x] := v]
      ensures nBuckets == old(nBuckets) && flags[x] == Live
    {
      hide Ok, Pow2, UpperBound;
      OkSet(hash, bits, flags[..], keys[..], vals[..], size, nOccupied, M, x, v);
      ghost var vs := vals[..];
      M := M[keys[x] := v];
      vals[x] := v;
      assert vals[..] == vs[x := v];
    }

    /** kh_resize */
    method Resize(want: nat, alloc: Alloc) returns (ret: int)
      requires Valid()
      modifies this, flags, keys, vals
      ensures Valid() && M == old(M) && size == old(size)
      ensures (flags == old(flags) || fresh(flags)) && (keys == old(keys) || fresh(keys))
        && (vals == old(vals) || fresh(vals))
      ensures old(size) >= UpperBound(Target(want)) ==>
        ret == 0 && flags == old(flags) && flags[..] == old(flags[..]) && nBuckets == old(nBuckets)
          && nOccupied == old(nOccupied) && bits == old(bits)
      ensures old(size) < UpperBound(Target(want)) && ret == 0 ==>
        nBuckets == Target(want) && nOccupied == size && fresh(flags)
      ensures ret == -1 || ret == 0
      ensures ret == -1 ==> alloc != Granted && nBuckets == old(nBuckets) && nOccupied == old(nOccupied)
    {
      var n := Target(want);
      ghost var b := TargetBits(want);
      if size >= UpperBound(n) {
        return 0;
      }
      if alloc == NoFlags {
        return -1;
      }
      if nBuckets < n {
        var ok := Enlarge(n, alloc);
        if !ok {
          return -1;
        }
      }
      var before := nBuckets;
      RehashInto(n, b);
      if before > n {
        Trim();
      }
      return 0;
    }

    /** kh_put: find or make room for a key.  The result code is -1 when an allocation
        failed, 0 when the bucket was in use already, 1 when it had never been used since the last
        rehash and 2 when it was a tombstone; the caller then writes the value.  The old slot
        contents show through until it does.  An absent key is not put, and nothing says so,
        exactly if the table holds 2^31 keys. */
    method Put(key: K, alloc: Alloc) returns (x: nat, ret: int)
      requires Valid()
      modifies this, flags, keys, vals
      ensures Valid()
      ensures (flags == old(flags) || fresh(flags)) && (keys == old(keys) || fresh(keys))
        && (vals == old(vals) || fresh(vals))
      ensures -1 <= ret <= 2
      ensures ret == -1 ==> alloc != Granted && M == old(M) && x == nBuckets
      ensures ret != -1 ==> x < nBuckets && flags[x] == Live
      ensures ret == 0 ==> M == old(M)
      ensures ret == 0 && key in old(M) ==> keys[x] == key
      ensures ret > 0 ==> key !in old(M) && keys[x] == key && M == old(M)[key := vals[x]]
      ensures key !in old(M) ==> (ret == 0 <==> |old(M)| == Pow2(MAX_BITS))
      ensures ret == 1 && flags == old(flags) ==> old(flags[x]) == Empty
      ensures ret == 2 ==> flags == old(flags) && old(flags[x]) == Deleted
    {
      hide Ok, Pow2, UpperBound;
      ghost var fs := flags[..];
      SizeCounts(hash, bits, fs, keys[..], vals[..], size, nOccupied, M);
      FullTable(bits, nBuckets, size);
      Counters(hash, bits, flags[..], keys[..], vals[..], size, nOccupied, M);
      if nOccupied >= upperBound {
        ResizeRequests(nBuckets, bits, size, nOccupied);
        if nBuckets > 2 * size {
          ret := Resize(nBuckets - 1, alloc);
        } else {
          ret := Resize(nBuckets + 1, alloc);
        }
        if ret < 0 {
          return nBuckets, -1;
        }
        if flags == old(flags) {
          assert flags[..] == fs;
        } else {
          NoneDeleted(hash, bits, flags[..], keys[..], vals[..], size, nOccupied, M);
        }
      }
      x, ret := Insert(key);
    }

    /** The part of kh_put after the table has been resized. */
    method Insert(key: K) returns (x: nat, ret: int)
      requires Valid() && nBuckets > 0
      requires bits < MAX_BITS ==> nOccupied < upperBound
      modifies this, flags, keys
      ensures Valid() && flags == old(flags) && keys == old(keys) && vals == old(vals)
      ensures x < nBuckets && flags[x] == Live && nBuckets == old(nBuckets)
      ensures 0 <= ret <= 2
      ensures ret == 0 ==> M == old(M)
      ensures ret == 0 && key in old(M) ==> keys[x] == key
      ensures key !in old(M) ==> (ret == 0 <==> |old(M)| == Pow2(MAX_BITS))
      ensures ret > 0 ==> key !in old(M) && keys[x] == key && M == old(M)[key := vals[x]]
      ensures ret == 1 <==> old(flags[x]) == Empty
      ensures ret == 2 <==> old(flags[x]) == Deleted
    {
      hide Ok, Pow2, Settled;
      ghost var fs, k0, v0 := flags[..], keys[..], vals[..];
      SizeCounts(hash, bits, fs, k0, v0, size, nOccupied, M);
      FullTable(bits, nBuckets, size);
      Counters(hash, bits, fs, k0, v0, size, nOccupied, M);
      FullIsLive(hash, bits, fs, k0, v0, size, nOccupied, M);
      x := LocateForPut(flags, keys, key, hash(key), bits);
      if flags[x] == Live {
        PutFinds(hash, bits, fs, k0, v0, size, nOccupied, M, key, x);
        return x, 0;
      }
      PutRoom(hash, bits, fs, k0, v0, size, nOccupied, M, key, x);
      if flags[x] == Empty {
        nOccupied := nOccupied + 1;
        ret := 1;
      } else {
        ret := 2;
      }
      keys[x] := key;
      flags[x] := Live;
      size := size + 1;
      M := M[key := vals[x]];
      assert flags[..] == fs[x := Live] && keys[..] == k0[x := key] && vals[..] == v0;
    }

    /** The reallocations of kh_resize before an expansion.  When the second one fails
        the first has already been made. */
    method Enlarge(n: nat, alloc: Alloc) returns (ok: bool)
      requires Valid() && nBuckets < n
      modifies this
      ensures Valid() && M == old(M) && size == old(size) && flags == old(flags)
      ensures nBuckets == old(nBuckets) && nOccupied == old(nOccupied) && bits == old(bits)
      ensures (keys == old(keys) || fresh(keys)) && (vals == old(vals) || fresh(vals))
      ensures ok ==> keys.Length == n && vals.Length == n
      ensures !ok ==> alloc != Granted
    {
      hide Ok, Pow2, UpperBound;
      if alloc == NoKeys {
        return false;
      }
      ghost var fs, k0, v0 := flags[..], keys[..], vals[..];
      var ks := Realloc(keys, n);
      ghost var k1 := ks[..];
      OkCopy(hash, bits, fs, k0, k1, v0, v0, size, nOccupied, M);
      keys := ks;
      assert flags[..] == fs && keys[..] == k1 && vals[..] == v0;
      if alloc == NoVals {
        return false;
      }
      var vs := Realloc(vals, n);
      ghost var v1 := vs[..];
      OkCopy(hash, bits, fs, k1, k1, v0, v1, size, nOccupied, M);
      vals := vs;
      assert flags[..] == fs && keys[..] == k1 && vals[..] == v1;
      return true;
    }

    /** The accepted case of kh_resize: rehash into 2^b buckets. */
    method RehashInto(n: nat, ghost b: nat)
      requires Valid() && n <= keys.Length && n <= vals.Length
      requires n == Pow2(b) && 2 <= b <= MAX_BITS && size < UpperBound(n)
      modifies this, flags, keys, vals
      ensures Valid() && M == old(M) && size == old(size) && nBuckets == n && nOccupied == size && bits == b
      ensures fresh(flags) && (keys == old(keys) || fresh(keys)) && (vals == old(vals) || fresh(vals))
    {
      hide Ok, Pow2, UpperBound;
      var newFlags := RehashTo(hash, flags, keys, vals, n, bits, b, size, nOccupied, M);
      flags := newFlags;
      nBuckets, bits := n, b;
      nOccupied := size;
      upperBound := UpperBound(n);
    }

    /** The reallocations of kh_resize after a shrink. */
    method Trim()
      requires Valid()
      modifies this
      ensures Valid() && M == old(M) && size == old(size) && flags == old(flags)
      ensures nBuckets == old(nBuckets) && nOccupied == old(nOccupied) && bits == old(bits)
      ensures fresh(keys) && fresh(vals) && keys.Length == vals.Length == nBuckets
    {
      hide Ok, Pow2;
      ghost var fs, k0, v0 := flags[..], keys[..], vals[..];
      var ks := Realloc(keys, nBuckets);
      var vs := Realloc(vals, nBuckets);
      ghost var k1, v1 := ks[..], vs[..];
      OkCopy(hash, bits, fs, k0, k1, v0, v1, size, nOccupied, M);
      keys, vals := ks, vs;
      assert flags[..] == fs && keys[..] == k1 && vals[..] == v1;
    }
  }

  lemma StartSpread<K(!new), V(!new)>(hash: K -> nat, bits: nat, flags: seq<Flag>, new_: seq<Flag>, keys: seq<K>,
      vals: seq<V>, size: nat, nOccupied: nat, m: map<K, V>)
    requires |flags| <= |keys| && |flags| <= |vals| && |new_| <= |keys| && |new_| <= |vals|
    requires Ok(hash, bits, flags, keys, vals, size, nOccupied, m)
    requires forall i :: 0 <= i < |new_| ==> new_[i] == Empty
    ensures Spread(flags, new_, keys, vals, m) && |m| == size
  {
    assert LiveSet(new_) == {};
    assert LiveSet(flags) + LiveSet(new_) == LiveSet(flags);
    HoldsCard(LiveSet(flags), keys, vals, m);
  }

  lemma OkDel<K(!new), V(!new)>(hash: K -> nat, bits: nat, flags: seq<Flag>, keys: seq<K>, vals: seq<V>,
      size: nat, nOccupied: nat, m: map<K, V>, x: nat)
    requires |flags| <= |keys| && |flags| <= |vals|
    requires Ok(hash, bits, flags, keys, vals, size, nOccupied, m)
    requires x < |flags| && flags[x] == Live
    ensures size > 0 && Ok(hash, bits, flags[x := Deleted], keys, vals, size - 1, nOccupied, m - {keys[x]})
  {
    assert x in LiveSet(flags);
    HoldsDrop(LiveSet(flags), keys, vals, m, x);
    TombKeeps(hash, flags, keys, x);
  }

  lemma OkSet<K(!new), V(!new)>(hash: K -> nat, bits: nat, flags: seq<Flag>, keys: seq<K>, vals: seq<V>,
      size: nat, nOccupied: nat, m: map<K, V>, x: nat, v: V)
    requires |flags| <= |keys| && |flags| <= |vals|
    requires Ok(hash, bits, flags, keys, vals, size, nOccupied, m)
    requires x < |flags| && flags[x] == Live
    ensures Ok(hash, bits, flags, keys, vals[x := v], size, nOccupied, m[keys[x] := v])
  {
    HoldsSet(LiveSet(flags), keys, vals, m, x, v);
  }

  lemma OkCopy<K(!new), V(!new)>(hash: K -> nat, bits: nat, flags: seq<Flag>, keys: seq<K>, keys': seq<K>,
      vals: seq<V>, vals': seq<V>, size: nat, nOccupied: nat, m: map<K, V>)
    requires |flags| <= |keys| && |flags| <= |vals| && |flags| <= |keys'| && |flags| <= |vals'|
    requires Ok(hash, bits, flags, keys, vals, size, nOccupied, m)
    requires forall i :: 0 <= i < |flags| ==> keys[i] == keys'[i] && vals[i] == vals'[i]
    ensures Ok(hash, bits, flags, keys', vals', size, nOccupied, m)
  {
    HoldsCopy(LiveSet(flags), keys, keys', vals, vals', m);
    ReachableCopy(hash, flags, keys, keys');
  }

  lemma OkRehashed<K(!new), V(!new)>(hash: K -> nat, bits: nat, flags: seq<Flag>, keys: seq<K>, vals: seq<V>,
      size: nat, m: map<K, V>)
    requires Spread([], flags, keys, vals, m)
    requires NoTombs(flags) && Reachable(hash, flags, keys)
    requires |m| == size < UpperBound(|flags|)
    ensures Ok(hash, bits, flags, keys, vals, size, size, m)
  {
    assert LiveSet([]) + LiveSet(flags) == LiveSet(flags) == UsedSet(flags);
    HoldsCard(LiveSet(flags), keys, vals, m);
  }

  /** The number of buckets a request for `want` comes to. */
  function Target(want: nat): nat
  {
    var n := RoundUp(want); if n < 4 then 4 else n
  }

  lemma TargetBits(want: nat) returns (b: nat)
    ensures 2 <= b <= MAX_BITS && Target(want) == Pow2(b)
  {
    if want == 0 || want > Pow2(MAX_BITS) {
      b := 2;
    } else {
      b := PowerFromBits(0, want);
      if b < 2 {
        PowMono(b, 1);
        b := 2;
      } else {
        PowMono(2, b);
      }
    }
  }

  lemma {:induction false} PowerFromBits(m: nat, x: nat) returns (b: nat)
    requires m <= MAX_BITS && x <= Pow2(MAX_BITS)
    ensures m <= b <= MAX_BITS && PowerFrom(m, x) == Pow2(b) >= x
    ensures m < b ==> Pow2(b - 1) < x
    decreases MAX_BITS - m
  {
    if Pow2(m) >= x {
      b := m;
    } else {
      b := PowerFromBits(m + 1, x);
    }
  }

  lemma TombKeeps<K(!new)>(hash: K -> nat, flags: seq<Flag>, keys: seq<K>, x: nat)
    requires x < |flags| <= |keys| && flags[x] == Live
    requires Reachable(hash, flags, keys)
    ensures Reachable(hash, flags[x := Deleted], keys)
    ensures LiveSet(flags[x := Deleted]) == LiveSet(flags) - {x}
    ensures UsedSet(flags[x := Deleted]) == UsedSet(flags)
  {
    var flags' := flags[x := Deleted];
    forall j | 0 <= j < |flags'| && flags'[j] == Live
      ensures OnPath(flags', hash(keys[j]), j)
    {
      var h := hash(keys[j]);
      var t: nat :| t < |flags| && Clear(flags, h, t) && Probe(h, t, |flags|) == j;
      assert Clear(flags', h, t);
    }
  }

  lemma HoldsSet<K(!new), V(!new)>(S: set<nat>, keys: seq<K>, vals: seq<V>, m: map<K, V>, x: nat, v: V)
    requires forall i :: i in S ==> i < |keys| && i < |vals|
    requires Holds(S, keys, vals, m) && x in S
    ensures Holds(S, keys, vals[x := v], m[keys[x] := v])
  {
  }

  lemma HoldsCopy<K(!new), V(!new)>(S: set<nat>, keys: seq<K>, keys': seq<K>, vals: seq<V>, vals': seq<V>, m: map<K, V>)
    requires forall i :: i in S ==> i < |keys| && i < |vals| && i < |keys'| && i < |vals'|
    requires forall i :: i in S ==> keys[i] == keys'[i] && vals[i] == vals'[i]
    requires Holds(S, keys, vals, m)
    ensures Holds(S, keys', vals', m)
  {
    forall k | k in m ensures exists i :: i in S && keys'[i] == k {
      var i :| i in S && keys[i] == k;
      assert keys'[i] == k;
    }
  }

  lemma ReachableCopy<K(!new)>(hash: K -> nat, flags: seq<Flag>, keys: seq<K>, keys': seq<K>)
    requires |flags| <= |keys| && |flags| <= |keys'|
    requires forall i :: 0 <= i < |flags| && flags[i] == Live ==> keys[i] == keys'[i]
    requires |flags| > 0 ==> Reachable(hash, flags, keys)
    ensures |flags| > 0 ==> Reachable(hash, flags, keys')
  {
  }

  /** The search loop of kh_get: stops after `step` steps at an empty bucket or at the
      key, or else after having come back to the first bucket. */
  method Locate<K(==)>(flags: array<Flag>, keys: array<K>, key: K, h: nat, ghost m: nat) returns (i: nat, step: nat)
    requires flags.Length == Pow2(m) <= keys.Length
    ensures i < flags.Length && i == Probe(h, step, flags.Length)
    ensures step < 2 * flags.Length
    ensures Passed(flags[..], keys[..], key, h, step)
    ensures step < 2 * flags.Length - 1 ==> flags[i] == Empty || (flags[i] == Live && keys[i] == key)
  {
    var n := flags.Length;
    ghost var fs, ks := flags[..], keys[..];
    step := 0;
    i := h % n;
    var last := i;
    ProbeStep(h, 0, n);
    while flags[i] != Empty && (flags[i] == Deleted || keys[i] != key)
      invariant fs == flags[..] && ks == keys[..]
      invariant i < n && i == Probe(h, step, n)
      invariant step < 2 * n - 1
      invariant Passed(fs, ks, key, h, step)
      decreases 2 * n - step
    {
      PassedStep(fs, ks, key, h, step);
      ProbeStep(h, step, n);
      step := step + 1;
      i := Next(i, step, n);
      FirstReturn(m, n, h, step);
      if i == last {
        return;
      }
    }
  }

  /** The first s buckets on the path of h are all in use and none holds key. */
  ghost predicate Passed<K>(flags: seq<Flag>, keys: seq<K>, key: K, h: nat, s: nat)
    requires 0 < |flags| <= |keys|
  {
    forall t: nat :: t < s ==>
      var b := Probe(h, t, |flags|);
      flags[b] != Empty && (flags[b] == Live ==> keys[b] != key)
  }

  lemma PassedStep<K>(flags: seq<Flag>, keys: seq<K>, key: K, h: nat, s: nat)
    requires 0 < |flags| <= |keys|
    requires Passed(flags, keys, key, h, s)
    requires var b := Probe(h, s, |flags|); flags[b] != Empty && (flags[b] == Live ==> keys[b] != key)
    ensures Passed(flags, keys, key, h, s + 1)
  {
  }

  /** What the search of kh_put settles on: the key's bucket; a bucket not in use at which
      the key may be put, the key being absent; or a bucket of a table with no room. */
  ghost predicate Settled<K>(flags: seq<Flag>, keys: seq<K>, key: K, h: nat, x: nat)
    requires x < |flags| <= |keys|
  {
    if flags[x] == Live then
      keys[x] == key || forall j :: 0 <= j < |flags| ==> flags[j] == Live && keys[j] != key
    else
      && OnPath(flags, h, x)
      && (exists s: nat :: Passed(flags, keys, key, h, s) && (s >= |flags| || flags[Probe(h, s, |flags|)] == Empty))
  }

  /** The search loop of kh_put, which remembers the last tombstone it passed. */
  method LocateForPut<K(==)>(flags: array<Flag>, keys: array<K>, key: K, h: nat, ghost m: nat) returns (x: nat)
    requires flags.Length == Pow2(m) <= keys.Length
    ensures x < flags.Length
    ensures Settled(flags[..], keys[..], key, h, x)
  {
    var n := flags.Length;
    ghost var fs, ks := flags[..], keys[..];
    var site: nat := n;
    var step := 0;
    var i := h % n;
    ProbeStep(h, 0, n);
    x := n;
    if flags[i] == Empty {
      x := i;
      SettledAtEmpty(m, fs, ks, key, h, 0);
      return;
    }
    var last := i;
    while flags[i] != Empty && (flags[i] == Deleted || keys[i] != key)
      invariant fs == flags[..] && ks == keys[..]
      invariant i < n && i == Probe(h, step, n)
      invariant step < 2 * n - 1
      invariant Passed(fs, ks, key, h, step)
      invariant SiteOk(fs, h, site, step)
      decreases 2 * n - step
    {
      PassedStep(fs, ks, key, h, step);
      SiteStep(fs, h, site, step);
      if flags[i] == Deleted {
        site := i;
      }
      ProbeStep(h, step, n);
      step := step + 1;
      i := Next(i, step, n);
      FirstReturn(m, n, h, step);
      if i == last {
        SettledAtLast(m, fs, ks, key, h, site, step);
        x := site;
        break;
      }
    }
    if x == n {
      if flags[i] == Empty && site != n {
        SettledAtSite(m, fs, ks, key, h, site, step);
        x := site;
      } else {
        if flags[i] == Empty {
          SettledAtEmpty(m, fs, ks, key, h, step);
        }
        x := i;
      }
    }
  }

  /** site is a tombstone among the first s buckets on the path of h, or there is none. */
  ghost predicate SiteOk(flags: seq<Flag>, h: nat, site: nat, s: nat)
    requires 0 < |flags|
  {
    if site < |flags| then
      flags[site] == Deleted && exists t: nat :: t < s && Probe(h, t, |flags|) == site
    else
      site == |flags| && forall t: nat :: t < s ==> flags[Probe(h, t, |flags|)] != Deleted
  }

  lemma SiteStep(flags: seq<Flag>, h: nat, site: nat, s: nat)
    requires 0 < |flags| && SiteOk(flags, h, site, s)
    ensures var b := Probe(h, s, |flags|);
      SiteOk(flags, h, if flags[b] == Deleted then b else site, s + 1)
  {
    if site < |flags| {
      var t: nat :| t < s && Probe(h, t, |flags|) == site;
      assert t < s + 1;
    }
  }

  /** An in-use bucket seen during a search is on its path with no empty one before it. */
  lemma PassedOnPath<K>(m: nat, flags: seq<Flag>, keys: seq<K>, key: K, h: nat, s: nat, t: nat)
    requires 0 < |flags| <= |keys| && |flags| == Pow2(m)
    requires Passed(flags, keys, key, h, s) && t <= s
    requires t < s || flags[Probe(h, t, |flags|)] == Empty
    ensures OnPath(flags, h, Probe(h, t, |flags|))
  {
    if t < |flags| {
      assert Clear(flags, h, t);
    } else {
      var u := ProbesCover(m, h, Probe(h, t, |flags|));
      assert Clear(flags, h, u);
    }
  }

  lemma SettledAtEmpty<K>(m: nat, flags: seq<Flag>, keys: seq<K>, key: K, h: nat, s: nat)
    requires 0 < |flags| <= |keys| && |flags| == Pow2(m)
    requires Passed(flags, keys, key, h, s) && flags[Probe(h, s, |flags|)] == Empty
    ensures Settled(flags, keys, key, h, Probe(h, s, |flags|))
  {
    PassedOnPath(m, flags, keys, key, h, s, s);
  }

  lemma SettledAtSite<K>(m: nat, flags: seq<Flag>, keys: seq<K>, key: K, h: nat, site: nat, s: nat)
    requires 0 < |flags| <= |keys| && |flags| == Pow2(m)
    requires site < |flags| && SiteOk(flags, h, site, s)
    requires Passed(flags, keys, key, h, s)
    requires s >= |flags| || flags[Probe(h, s, |flags|)] == Empty
    ensures Settled(flags, keys, key, h, site)
  {
    var t: nat :| t < s && Probe(h, t, |flags|) == site;
    PassedOnPath(m, flags, keys, key, h, s, t);
  }

  /** The search came back to its first bucket: it takes the last tombstone, if any. */
  lemma SettledAtLast<K>(m: nat, flags: seq<Flag>, keys: seq<K>, key: K, h: nat, site: nat, s: nat)
    requires 0 < |flags| <= |keys| && |flags| == Pow2(m) <= s
    requires SiteOk(flags, h, site, s) && Passed(flags, keys, key, h, s)
    ensures site < |flags| ==> Settled(flags, keys, key, h, site)
    ensures site == |flags| ==> forall x :: 0 <= x < |flags| ==> Settled(flags, keys, key, h, x) && flags[x] != Empty
  {
    AllPassed(m, flags, keys, key, h, s);
    if site < |flags| {
      SettledAtSite(m, flags, keys, key, h, site, s);
    } else {
      forall j | 0 <= j < |flags| ensures flags[j] == Live && keys[j] != key {
        var t := ProbesCover(m, h, j);
      }
    }
  }

  /** The search stopped at a bucket in use. */
  lemma PutFinds<K(!new), V(!new)>(hash: K -> nat, bits: nat, flags: seq<Flag>, keys: seq<K>, vals: seq<V>,
      size: nat, nOccupied: nat, m: map<K, V>, key: K, x: nat)
    requires x < |flags| <= |keys| && |flags| <= |vals|
    requires Ok(hash, bits, flags, keys, vals, size, nOccupied, m)
    requires Settled(flags, keys, key, hash(key), x) && flags[x] == Live
    ensures key in m ==> keys[x] == key
    ensures key !in m ==> size == nOccupied == |flags|
  {
    if key in m {
      var i :| i in LiveSet(flags) && keys[i] == key;
    } else {
      assert x in LiveSet(flags);
      assert keys[x] != key;
      BelowCard(|flags|);
      assert LiveSet(flags) == UsedSet(flags) == Below(|flags|);
    }
  }

  /** The search stopped at a bucket not in use, and the key is put there. */
  lemma PutRoom<K(!new), V(!new)>(hash: K -> nat, bits: nat, flags: seq<Flag>, keys: seq<K>, vals: seq<V>,
      size: nat, nOccupied: nat, m: map<K, V>, key: K, x: nat)
    requires x < |flags| <= |keys| && |flags| <= |vals| && |flags| == Pow2(bits)
    requires Ok(hash, bits, flags, keys, vals, size, nOccupied, m)
    requires bits < MAX_BITS ==> nOccupied < UpperBound(|flags|)
    requires Settled(flags, keys, key, hash(key), x) && flags[x] != Live
    ensures key !in m
    ensures Ok(hash, bits, flags[x := Live], keys[x := key], vals, size + 1,
               if flags[x] == Empty then nOccupied + 1 else nOccupied, m[key := vals[x]])
  {
    SettledAbsent(hash, bits, flags, keys, key, x);
    assert forall i :: i in LiveSet(flags) ==> keys[i] != key;
    HoldsPut(LiveSet(flags), keys, vals, m, x, key, vals[x]);
    assert vals[x := vals[x]] == vals;
    ReachablePut(hash, flags, keys, x, key);
    FillCounts(flags, x);
  }

  lemma SettledAbsent<K(!new)>(hash: K -> nat, bits: nat, flags: seq<Flag>, keys: seq<K>, key: K, x: nat)
    requires x < |flags| <= |keys| && |flags| == Pow2(bits)
    requires Reachable(hash, flags, keys)
    requires Settled(flags, keys, key, hash(key), x) && flags[x] != Live
    ensures forall j :: 0 <= j < |flags| && flags[j] == Live ==> keys[j] != key
  {
    var h := hash(key);
    var s: nat :| Passed(flags, keys, key, h, s) && (s >= |flags| || flags[Probe(h, s, |flags|)] == Empty);
    if s >= |flags| {
      AllPassed(bits, flags, keys, key, h, s);
    } else {
      StoppedAtEmpty(hash, flags, keys, key, s);
    }
  }

  lemma FillCounts(flags: seq<Flag>, x: nat)
    requires x < |flags| && flags[x] != Live
    ensures LiveSet(flags[x := Live]) == LiveSet(flags) + {x}
    ensures |LiveSet(flags[x := Live])| == |LiveSet(flags)| + 1
    ensures |UsedSet(flags[x := Live])| == |UsedSet(flags)| + (if flags[x] == Empty then 1 else 0)
  {
    assert LiveSet(flags[x := Live]) == LiveSet(flags) + {x};
    assert x !in LiveSet(flags);
    assert UsedSet(flags[x := Live]) == UsedSet(flags) + {x};
    assert x in UsedSet(flags) <==> flags[x] != Empty;
    if x in UsedSet(flags) {
      assert UsedSet(flags) + {x} == UsedSet(flags);
    }
  }

  /** The table counts its keys. */
  lemma SizeCounts<K(!new), V(!new)>(hash: K -> nat, bits: nat, flags: seq<Flag>, keys: seq<K>, vals: seq<V>,
      size: nat, nOccupied: nat, m: map<K, V>)
    requires |flags| <= |keys| && |flags| <= |vals|
    requires Ok(hash, bits, flags, keys, vals, size, nOccupied, m)
    ensures size == |m|
  {
    HoldsCard(LiveSet(flags), keys, vals, m);
  }

  /** Only a table of the greatest size can hold 2^31 keys, and then it is full. */
  lemma FullTable(bits: nat, n: nat, size: nat)
    requires n == 0 || (bits <= MAX_BITS && n == Pow2(bits))
    ensures size == Pow2(MAX_BITS) && size <= n ==> bits == MAX_BITS && size == n
  {
    if bits < MAX_BITS {
      PowMono(bits + 1, MAX_BITS);
    }
  }

  /** After a rehash no bucket is a tombstone. */
  lemma NoneDeleted<K(!new), V(!new)>(hash: K -> nat, bits: nat, flags: seq<Flag>, keys: seq<K>, vals: seq<V>,
      size: nat, nOccupied: nat, m: map<K, V>)
    requires |flags| <= |keys| && |flags| <= |vals|
    requires Ok(hash, bits, flags, keys, vals, size, nOccupied, m) && size == nOccupied
    ensures forall i :: 0 <= i < |flags| ==> flags[i] != Deleted
  {
    hide Holds, Reachable;
    SubsetCardEq(LiveSet(flags), UsedSet(flags));
    forall i | 0 <= i < |flags| ensures flags[i] != Deleted {
      assert i in UsedSet(flags) <==> i in LiveSet(flags);
    }
  }

  /** A table with as many keys as buckets has no free bucket. */
  lemma FullIsLive<K(!new), V(!new)>(hash: K -> nat, bits: nat, flags: seq<Flag>, keys: seq<K>, vals: seq<V>,
      size: nat, nOccupied: nat, m: map<K, V>)
    requires |flags| <= |keys| && |flags| <= |vals|
    requires Ok(hash, bits, flags, keys, vals, size, nOccupied, m)
    ensures size == |flags| ==> forall i :: 0 <= i < |flags| ==> flags[i] == Live
  {
    hide Holds, Reachable;
    if size == |flags| {
      BelowCard(|flags|);
      SubsetCardEq(LiveSet(flags), Below(|flags|));
      forall i | 0 <= i < |flags| ensures flags[i] == Live {
        assert i in Below(|flags|);
      }
    }
  }

  function Identity(k: nat): nat { k }

  function AllLive(n: nat): (flags: seq<Flag>)
    ensures |flags| == n && forall i :: 0 <= i < n ==> flags[i] == Live
  {
    seq(n, _ => Live)
  }

  function Numbers(n: nat): (keys: seq<nat>)
    ensures |keys| == n && forall i :: 0 <= i < n ==> keys[i] == i
  {
    seq(n, i => i)
  }

  ghost function Numbered(n: nat): map<nat, nat> { map k | k in Below(n) :: k }

  /** A table that kh_put can add nothing to: every bucket is live, key i in bucket i. */
  lemma FullIsOk(n: nat)
    requires n > 0
    ensures Ok(Identity, MAX_BITS, AllLive(n), Numbers(n), Numbers(n), n, n, Numbered(n))
    ensures |Numbered(n)| == n && n !in Numbered(n)
  {
    hide AllLive, Numbers, Reachable, Numbered, Holds;
    LiveAll(n);
    BelowCard(n);
    NumberedKeys(n);
    AllReachable(n);
    AllHeld(n);
  }

  lemma AllReachable(n: nat)
    requires n > 0
    ensures Reachable(Identity, AllLive(n), Numbers(n))
  {
    hide AllLive, Numbers;
    forall j | 0 <= j < n ensures OnPath(AllLive(n), Identity(Numbers(n)[j]), j) {
      assert Probe(j, 0, n) == j && Clear(AllLive(n), j, 0);
    }
  }

  lemma NumberedKeys(n: nat)
    ensures Numbered(n).Keys == Below(n) && |Numbered(n)| == |Below(n)| && n !in Numbered(n)
  {
    var m := Numbered(n);
    assert m.Keys == Below(n);
    assert |m| == |m.Keys|;
    BelowCard(n);
  }

  lemma AllHeld(n: nat)
    ensures LiveSet(AllLive(n)) == Below(n) && Holds(LiveSet(AllLive(n)), Numbers(n), Numbers(n), Numbered(n))
  {
    hide AllLive, Numbers;
    LiveAll(n);
    forall k | k in Numbered(n) ensures k in Below(n) && Numbers(n)[k] == k {
    }
  }

  lemma LiveAll(n: nat)
    ensures LiveSet(AllLive(n)) == Below(n) == UsedSet(AllLive(n))
  {
    hide AllLive;
  }

  lemma Counters<K(!new), V(!new)>(hash: K -> nat, bits: nat, flags: seq<Flag>, keys: seq<K>, vals: seq<V>,
      size: nat, nOccupied: nat, m: map<K, V>)
    requires |flags| <= |keys| && |flags| <= |vals|
    requires Ok(hash, bits, flags, keys, vals, size, nOccupied, m)
    ensures size <= nOccupied <= |flags|
    ensures bits < MAX_BITS ==> nOccupied <= UpperBound(|flags|)
  {
    SubsetCard(LiveSet(flags), UsedSet(flags));
    BelowCard(|flags|);
    SubsetCard(UsedSet(flags), Below(|flags|));
  }

  /** The two requests kh_put makes of kh_resize when the table is full: both are accepted
      and make room, unless the table already has 2^31 buckets. */
  lemma ResizeRequests(n: nat, bits: nat, size: nat, nOccupied: nat)
    requires n == 0 || (2 <= bits <= MAX_BITS && n == Pow2(bits))
    requires size <= nOccupied <= n
    requires bits < MAX_BITS ==> nOccupied <= UpperBound(n)
    ensures n > 2 * size ==> size < UpperBound(Target(n - 1))
    ensures n <= 2 * size && bits < MAX_BITS ==> size < UpperBound(Target(n + 1))
    ensures n <= 2 * size && n > 0 && bits == MAX_BITS ==> size >= UpperBound(Target(n + 1))
    ensures n == 0 ==> size < UpperBound(Target(1))
  {
    hide Pow2;
    if n == 0 {
      TargetOfOne();
    } else {
      hide Target;
      TargetBelow(bits);
      PowDouble(bits);
      if bits < MAX_BITS {
        TargetAbove(bits);
      } else {
        TargetWraps();
      }
    }
  }

  lemma TargetOfOne()
    ensures Target(1) == 4
  {
    PowMono(0, MAX_BITS);
    assert PowerFrom(0, 1) == 1;
  }

  lemma PowDouble(b: nat)
    ensures Pow2(b + 1) == 2 * Pow2(b)
    ensures 2 <= b ==> Pow2(b) >= 4
  {
    if 2 <= b {
      PowMono(2, b);
    }
  }

  lemma TargetWraps()
    ensures Target(Pow2(MAX_BITS) + 1) == 4 && Pow2(MAX_BITS) >= 8
  {
    PowMono(3, MAX_BITS);
  }

  lemma TargetBelow(b: nat)
    requires 2 <= b <= MAX_BITS
    ensures Target(Pow2(b) - 1) == Pow2(b)
  {
    PowMono(2, b);
    PowMono(b, MAX_BITS);
    var c := PowerFromBits(0, Pow2(b) - 1);
    PowInterval(b, c, Pow2(b) - 1);
  }

  lemma TargetAbove(b: nat)
    requires 2 <= b < MAX_BITS
    ensures Target(Pow2(b) + 1) == Pow2(b + 1)
  {
    PowMono(2, b);
    PowMono(b + 1, MAX_BITS);
    var c := PowerFromBits(0, Pow2(b) + 1);
    PowInterval(b + 1, c, Pow2(b) + 1);
  }

  lemma PowInterval(b: nat, c: nat, x: nat)
    requires b > 0 && Pow2(b - 1) < x <= Pow2(b)
    requires x <= Pow2(c) && (c > 0 ==> Pow2(c - 1) < x)
    ensures b == c
  {
    if c < b {
      PowMono(c, b - 1);
    } else if b < c {
      PowMono(b, c - 1);
    }
  }

  /** A search that has gone all the way round has seen every bucket. */
  lemma AllPassed<K>(m: nat, flags: seq<Flag>, keys: seq<K>, key: K, h: nat, s: nat)
    requires 0 < |flags| <= |keys| && |flags| == Pow2(m) <= s
    requires Passed(flags, keys, key, h, s)
    ensures forall j :: 0 <= j < |flags| ==> flags[j] != Empty && (flags[j] == Live ==> keys[j] != key)
  {
    forall j | 0 <= j < |flags|
      ensures flags[j] != Empty && (flags[j] == Live ==> keys[j] != key)
    {
      var t := ProbesCover(m, h, j);
    }
  }

  lemma NotMissed<K(!new)>(flags: seq<Flag>, keys: seq<K>, key: K, h: nat, s: nat, j: nat)
    requires 0 < |flags| <= |keys| && j < |flags|
    requires Passed(flags, keys, key, h, s)
    requires flags[Probe(h, s, |flags|)] == Empty
    requires OnPath(flags, h, j) && flags[j] == Live
    ensures keys[j] != key
  {
    var t: nat :| t < |flags| && Clear(flags, h, t) && Probe(h, t, |flags|) == j;
    assert t < s;
  }

  /** A search that stopped at an empty bucket has not missed the key. */
  lemma StoppedAtEmpty<K(!new)>(hash: K -> nat, flags: seq<Flag>, keys: seq<K>, key: K, s: nat)
    requires 0 < |flags| <= |keys|
    requires Reachable(hash, flags, keys)
    requires Passed(flags, keys, key, hash(key), s)
    requires flags[Probe(hash(key), s, |flags|)] == Empty
    ensures forall j :: 0 <= j < |flags| && flags[j] == Live ==> keys[j] != key
  {
    forall j | 0 <= j < |flags| && flags[j] == Live
      ensures keys[j] != key
    {
      if keys[j] == key {
        NotMissed(flags, keys, key, hash(key), s, j);
      }
    }
  }

  // ----- the kick-out rehash -----

  ghost predicate NoTombs(flags: seq<Flag>)
  {
    forall i :: 0 <= i < |flags| ==> flags[i] != Deleted
  }

  /** While the table is rehashed in place, an entry lives either in an old bucket that
      has not been emptied or in a new bucket that has been filled, never both. */
  ghost predicate Spread<K(!new), V(!new)>(old_: seq<Flag>, new_: seq<Flag>, keys: seq<K>, vals: seq<V>, m: map<K, V>)
  {
    && |old_| <= |keys| && |old_| <= |vals| && |new_| <= |keys| && |new_| <= |vals|
    && LiveSet(old_) !! LiveSet(new_)
    && Holds(LiveSet(old_) + LiveSet(new_), keys, vals, m)
  }

  /** The new table still has an empty bucket while an entry is in hand. */
  lemma RoomLeft<K(!new), V(!new)>(old_: seq<Flag>, new_: seq<Flag>, keys: seq<K>, vals: seq<V>, m: map<K, V>)
    requires Spread(old_, new_, keys, vals, m) && NoTombs(new_)
    requires |m| < |new_|
    ensures exists i :: 0 <= i < |new_| && new_[i] == Empty
  {
    HoldsCard(LiveSet(old_) + LiveSet(new_), keys, vals, m);
    SubsetCard(LiveSet(new_), LiveSet(old_) + LiveSet(new_));
    if forall i :: 0 <= i < |new_| ==> new_[i] != Empty {
      BelowCard(|new_|);
      SubsetCard(Below(|new_|), LiveSet(new_));
    }
  }

  /** Searching the new table for an empty bucket, without a stopping test. */
  method FindEmpty(flags: array<Flag>, h: nat, ghost m: nat) returns (i: nat, ghost s: nat)
    requires flags.Length == Pow2(m)
    requires exists j :: 0 <= j < flags.Length && flags[j] == Empty
    ensures i < flags.Length && flags[i] == Empty
    ensures s < flags.Length && Clear(flags[..], h, s) && Probe(h, s, flags.Length) == i
  {
    var n := flags.Length;
    ghost var fs := flags[..];
    ghost var j :| 0 <= j < n && fs[j] == Empty;
    ghost var t := ProbesCover(m, h, j);
    var step := 0;
    i := h % n;
    ProbeStep(h, 0, n);
    while flags[i] != Empty
      invariant fs == flags[..]
      invariant i < n && i == Probe(h, step, n)
      invariant step <= t && Clear(fs, h, step)
      decreases t - step
    {
      ProbeStep(h, step, n);
      step := step + 1;
      i := Next(i, step, n);
    }
    s := step;
  }

  /** Filling an empty bucket at the end of its key's probe path. */
  lemma ReachablePut<K(!new)>(hash: K -> nat, flags: seq<Flag>, keys: seq<K>, i: nat, key: K)
    requires 0 < |flags| <= |keys| && i < |flags|
    requires Reachable(hash, flags, keys)
    requires OnPath(flags, hash(key), i)
    requires flags[i] != Live
    ensures Reachable(hash, flags[i := Live], keys[i := key])
  {
    var flags', keys' := flags[i := Live], keys[i := key];
    forall j | 0 <= j < |flags'| && flags'[j] == Live
      ensures OnPath(flags', hash(keys'[j]), j)
    {
      var h := hash(keys'[j]);
      var t: nat :| t < |flags| && Clear(flags, h, t) && Probe(h, t, |flags|) == j;
      ClearGrows(flags, h, t, i);
    }
  }

  lemma ClearGrows(flags: seq<Flag>, h: nat, s: nat, i: nat)
    requires i < |flags| && Clear(flags, h, s)
    ensures Clear(flags[i := Live], h, s)
  {
  }

  /** One kick: the entry in hand goes to slot i, and the entry found there is in hand. */
  lemma KickStep<K(!new), V(!new)>(old_: seq<Flag>, new_: seq<Flag>, keys: seq<K>, vals: seq<V>, m: map<K, V>,
      i: nat, key: K)
    requires key in m && Spread(old_, new_, keys, vals, m - {key})
    requires i < |old_| && i < |new_| && old_[i] == Live
    ensures keys[i] in m && m[keys[i]] == vals[i]
    ensures Spread(old_[i := Deleted], new_[i := Live], keys[i := key], vals[i := m[key]], m - {keys[i]})
    ensures LiveSet(old_[i := Deleted]) == LiveSet(old_) - {i}
  {
    var S := LiveSet(old_) + LiveSet(new_);
    var m1 := m - {key};
    HoldsDrop(S, keys, vals, m1, i);
    HoldsPut(S - {i}, keys, vals, m1 - {keys[i]}, i, key, m[key]);
    assert (m1 - {keys[i]})[key := m[key]] == m - {keys[i]};
    assert S - {i} + {i} == S;
    assert LiveSet(old_[i := Deleted]) == LiveSet(old_) - {i};
    assert LiveSet(new_[i := Live]) == LiveSet(new_) + {i};
    assert LiveSet(old_[i := Deleted]) + LiveSet(new_[i := Live]) == S;
  }

  /** The last step: the entry in hand goes to a slot nobody uses. */
  lemma SettleStep<K(!new), V(!new)>(old_: seq<Flag>, new_: seq<Flag>, keys: seq<K>, vals: seq<V>, m: map<K, V>,
      i: nat, key: K)
    requires key in m && Spread(old_, new_, keys, vals, m - {key})
    requires i < |new_| && new_[i] != Live && (i < |old_| ==> old_[i] != Live)
    ensures Spread(old_, new_[i := Live], keys[i := key], vals[i := m[key]], m)
  {
    var S := LiveSet(old_) + LiveSet(new_);
    HoldsPut(S, keys, vals, m - {key}, i, key, m[key]);
    assert (m - {key})[key := m[key]] == m;
    assert LiveSet(new_[i := Live]) == LiveSet(new_) + {i};
    assert LiveSet(old_) + LiveSet(new_[i := Live]) == S + {i};
  }

  /** Taking an entry out of an old bucket into the hand. */
  lemma LiftStep<K(!new), V(!new)>(old_: seq<Flag>, new_: seq<Flag>, keys: seq<K>, vals: seq<V>, m: map<K, V>, i: nat)
    requires Spread(old_, new_, keys, vals, m)
    requires i < |old_| && old_[i] == Live
    ensures keys[i] in m && m[keys[i]] == vals[i]
    ensures Spread(old_[i := Deleted], new_, keys, vals, m - {keys[i]})
  {
    var S := LiveSet(old_) + LiveSet(new_);
    HoldsDrop(S, keys, vals, m, i);
    assert LiveSet(old_[i := Deleted]) == LiveSet(old_) - {i};
    assert LiveSet(old_[i := Deleted]) + LiveSet(new_) == S - {i};
  }

  /** The kick-out process for one entry taken from the old table. */
  method KickOut<K(!new), V(!new)>(hash: K -> nat, flags: array<Flag>, newFlags: array<Flag>,
      keys: array<K>, vals: array<V>, key0: K, val0: V, ghost m: nat, ghost M: map<K, V>)
    requires flags != newFlags && (keys as object) != (vals as object)
    requires {flags as object, newFlags as object} !! {keys as object, vals as object}
    requires newFlags.Length == Pow2(m) && |M| <= newFlags.Length
    requires key0 in M && M[key0] == val0
    requires Spread(flags[..], newFlags[..], keys[..], vals[..], M - {key0})
    requires NoTombs(newFlags[..]) && Reachable(hash, newFlags[..], keys[..])
    modifies flags, newFlags, keys, vals
    ensures Spread(flags[..], newFlags[..], keys[..], vals[..], M)
    ensures NoTombs(newFlags[..]) && Reachable(hash, newFlags[..], keys[..])
    ensures forall i :: 0 <= i < flags.Length && old(flags[i]) != Live ==> flags[i] != Live
  {
    var key, val := key0, val0;
    while true
      invariant key in M && M[key] == val
      invariant Spread(flags[..], newFlags[..], keys[..], vals[..], M - {key})
      invariant NoTombs(newFlags[..]) && Reachable(hash, newFlags[..], keys[..])
      invariant forall i :: 0 <= i < flags.Length && old(flags[i]) != Live ==> flags[i] != Live
      decreases LiveSet(flags[..])
    {
      ghost var fs, nf, ks, vs := flags[..], newFlags[..], keys[..], vals[..];
      RemoveCard(M, key);
      RoomLeft(fs, nf, ks, vs, M - {key});
      var i, s := FindEmpty(newFlags, hash(key), m);
      assert OnPath(nf, hash(key), i);
      ReachablePut(hash, nf, ks, i, key);
      newFlags[i] := Live;
      assert newFlags[..] == nf[i := Live];
      if i < flags.Length && flags[i] == Live {
        KickStep(fs, nf, ks, vs, M, i, key);
        key, keys[i] := keys[i], key;
        val, vals[i] := vals[i], val;
        flags[i] := Deleted;
        assert flags[..] == fs[i := Deleted];
        assert keys[..] == ks[i := keys[i]] && vals[..] == vs[i := vals[i]];
      } else {
        SettleStep(fs, nf, ks, vs, M, i, key);
        keys[i] := key;
        vals[i] := val;
        assert keys[..] == ks[i := key] && vals[..] == vs[i := val];
        return;
      }
    }
  }

  lemma RemoveCard<K, V>(m: map<K, V>, k: K)
    requires k in m
    ensures |m - {k}| == |m| - 1
  {
    assert m.Keys == (m - {k}).Keys + {k};
    assert |m.Keys| == |(m - {k}).Keys| + 1;
  }

  lemma SpreadLengths<K(!new), V(!new)>(old_: seq<Flag>, new_: seq<Flag>, keys: seq<K>, vals: seq<V>, m: map<K, V>)
    requires Spread(old_, new_, keys, vals, m)
    ensures |old_| <= |keys| && |old_| <= |vals| && |new_| <= |keys| && |new_| <= |vals|
  {
  }

  /** One turn of the rehash loop of kh_resize, at a live old bucket. */
  method MoveBucket<K(!new), V(!new)>(hash: K -> nat, flags: array<Flag>, newFlags: array<Flag>,
      keys: array<K>, vals: array<V>, j: nat, ghost m: nat, ghost M: map<K, V>)
    requires flags != newFlags && (keys as object) != (vals as object)
    requires {flags as object, newFlags as object} !! {keys as object, vals as object}
    requires newFlags.Length == Pow2(m) && |M| <= newFlags.Length
    requires Spread(flags[..], newFlags[..], keys[..], vals[..], M)
    requires NoTombs(newFlags[..]) && Reachable(hash, newFlags[..], keys[..])
    requires j < flags.Length && flags[j] == Live
    modifies flags, newFlags, keys, vals
    ensures Spread(flags[..], newFlags[..], keys[..], vals[..], M)
    ensures NoTombs(newFlags[..]) && Reachable(hash, newFlags[..], keys[..])
    ensures flags[j] != Live
    ensures forall i :: 0 <= i < flags.Length && old(flags[i]) != Live ==> flags[i] != Live
  {
    hide *;
    ghost var fs, nf, ks, vs := flags[..], newFlags[..], keys[..], vals[..];
    SpreadLengths(fs, nf, ks, vs, M);
    var key, val := keys[j], vals[j];
    LiftStep(fs, nf, ks, vs, M, j);
    flags[j] := Deleted;
    assert flags[..] == fs[j := Deleted] && newFlags[..] == nf && keys[..] == ks && vals[..] == vs;
    KickOut(hash, flags, newFlags, keys, vals, key, val, m, M);
  }

  /** Once no old bucket is live, everything is in the new ones. */
  lemma NothingLeft<K(!new), V(!new)>(old_: seq<Flag>, new_: seq<Flag>, keys: seq<K>, vals: seq<V>, m: map<K, V>)
    requires Spread(old_, new_, keys, vals, m) && forall i :: 0 <= i < |old_| ==> old_[i] != Live
    ensures Spread([], new_, keys, vals, m)
  {
    assert LiveSet(old_) == {} == LiveSet([]);
  }

  lemma NothingYet<K(!new)>(hash: K -> nat, flags: seq<Flag>, keys: seq<K>)
    requires |flags| <= |keys| && forall i :: 0 <= i < |flags| ==> flags[i] == Empty
    ensures NoTombs(flags) && Reachable(hash, flags, keys)
  {
  }

  /** The rehash loop of kh_resize: everything moves from the old buckets to the new. */
  method Rehash<K(!new), V(!new)>(hash: K -> nat, flags: array<Flag>, newFlags: array<Flag>,
      keys: array<K>, vals: array<V>, ghost m: nat, ghost M: map<K, V>)
    requires flags != newFlags && (keys as object) != (vals as object)
    requires {flags as object, newFlags as object} !! {keys as object, vals as object}
    requires newFlags.Length == Pow2(m) && |M| <= newFlags.Length
    requires Spread(flags[..], newFlags[..], keys[..], vals[..], M)
    requires forall i :: 0 <= i < newFlags.Length ==> newFlags[i] == Empty
    modifies flags, newFlags, keys, vals
    ensures Spread([], newFlags[..], keys[..], vals[..], M)
    ensures NoTombs(newFlags[..]) && Reachable(hash, newFlags[..], keys[..])
  {
    hide *;
    SpreadLengths(flags[..], newFlags[..], keys[..], vals[..], M);
    NothingYet(hash, newFlags[..], keys[..]);
    var j := 0;
    while j != flags.Length
      invariant j <= flags.Length
      invariant Spread(flags[..], newFlags[..], keys[..], vals[..], M)
      invariant NoTombs(newFlags[..]) && Reachable(hash, newFlags[..], keys[..])
      invariant forall i :: 0 <= i < j ==> flags[i] != Live
    {
      if flags[j] == Live {
        MoveBucket(hash, flags, newFlags, keys, vals, j, m, M);
      }
      j := j + 1;
    }
    NothingLeft(flags[..], newFlags[..], keys[..], vals[..], M);
  }

  /** New flags for the arrays, after everything has moved to its new bucket. */
  method RehashTo<K(!new), V(!new)>(hash: K -> nat, flags: array<Flag>, keys: array<K>, vals: array<V>, n: nat,
      ghost bits: nat, ghost b: nat, ghost size: nat, ghost nOccupied: nat, ghost M: map<K, V>)
    returns (newFlags: array<Flag>)
    requires (keys as object) != (vals as object) && (flags as object) !in {keys as object, vals as object}
    requires flags.Length <= keys.Length && flags.Length <= vals.Length && n <= keys.Length && n <= vals.Length
    requires Ok(hash, bits, flags[..], keys[..], vals[..], size, nOccupied, M) && n == Pow2(b) && size < UpperBound(n)
    modifies flags, keys, vals
    ensures fresh(newFlags) && newFlags.Length == n
    ensures Ok(hash, b, newFlags[..], keys[..], vals[..], size, size, M)
  {
    hide *;
    ghost var fs, k0, v0 := flags[..], keys[..], vals[..];
    newFlags := new Flag[n](_ => Empty);
    assert flags[..] == fs && keys[..] == k0 && vals[..] == v0;
    StartSpread(hash, bits, fs, newFlags[..], k0, v0, size, nOccupied, M);
    BoundBelow(n);
    Rehash(hash, flags, newFlags, keys, vals, b, M);
    OkRehashed(hash, b, newFlags[..], keys[..], vals[..], size, M);
  }

  lemma BoundBelow(n: nat)
    ensures n > 0 ==> UpperBound(n) <= n
  {
  }
}
