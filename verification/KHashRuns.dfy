/** Any run of stores, lookups and removals on a hash table of src/khash.h gives the answers a
    finite map gives. */
module KHashRuns {
  import opened Probing
  import opened KHash

  datatype Op<K, V> = Store(k: K, v: V) | Lookup(k: K) | Remove(k: K)

  datatype Answer<V> = Done | Absent | Found(v: V)

  /** What a finite map does. */
  function Step<K, V>(m: map<K, V>, op: Op<K, V>): (map<K, V>, Answer<V>)
  {
    match op
    case Store(k, v) => (m[k := v], Done)
    case Lookup(k) => (m, if k in m then Found(m[k]) else Absent)
    case Remove(k) => (m - {k}, Done)
  }

  function Answers<K, V>(m: map<K, V>, ops: seq<Op<K, V>>): seq<Answer<V>>
    decreases |ops|
  {
    if ops == [] then [] else [Step(m, ops[0]).1] + Answers(Step(m, ops[0]).0, ops[1..])
  }

  /** In a table that is not of the greatest size a bucket is empty, so every search ends. */
  lemma SomeEmpty<K(!new), V(!new)>(hash: K -> nat, bits: nat, flags: seq<Flag>, keys: seq<K>, vals: seq<V>,
      size: nat, nOccupied: nat, m: map<K, V>)
    requires 4 <= |flags| <= |keys| && |flags| <= |vals| && bits < MAX_BITS
    requires Ok(hash, bits, flags, keys, vals, size, nOccupied, m)
    ensures exists i :: 0 <= i < |flags| && flags[i] == Empty
  {
    hide Holds, Reachable;
    if forall i :: 0 <= i < |flags| ==> flags[i] != Empty {
      BelowCard(|flags|);
      SubsetCard(Below(|flags|), UsedSet(flags));
    }
  }

  /** One operation, as the program writes it: kh_put and kh_value, kh_get, kh_get and kh_del. */
  method Apply<K(0, ==, !new), V(0, !new)>(t: Table<K, V>, op: Op<K, V>) returns (out: Answer<V>)
    requires t.Valid() && Fits(t.M, op)
    modifies t, t.flags, t.keys, t.vals
    ensures t.Valid() && (t.M, out) == Step(old(t.M), op)
    ensures t.flags == old(t.flags) || fresh(t.flags)
    ensures t.keys == old(t.keys) || fresh(t.keys)
    ensures t.vals == old(t.vals) || fresh(t.vals)
  {
    hide Ok, Pow2, UpperBound;
    match op
    case Store(k, v) =>
      var x, ret := t.Put(k, Granted);
      assert t.keys[x] == k;
      t.SetValue(x, v);
      out := Done;
      assert t.M == old(t.M)[k := v];
    case Lookup(k) =>
      var x := t.Get(k);
      out := if x == t.nBuckets then Absent else Found(t.vals[x]);
    case Remove(k) =>
      var x := t.Get(k);
      t.Del(x);
      out := Done;
      assert t.M == old(t.M) - {k};
  }

  /** The map has room for what op adds to it. */
  predicate Fits<K, V>(m: map<K, V>, op: Op<K, V>)
  {
    op.Store? && op.k !in m ==> |m| < Pow2(MAX_BITS)
  }

  /** No absent key is stored while there are 2^31 keys. */
  predicate Roomy<K, V>(m: map<K, V>, ops: seq<Op<K, V>>)
    decreases |ops|
  {
    ops == [] || (Fits(m, ops[0]) && Roomy(Step(m, ops[0]).0, ops[1..]))
  }

  lemma AnswersNext<K, V>(m: map<K, V>, ops: seq<Op<K, V>>, i: nat, outs: seq<Answer<V>>)
    requires i < |ops|
    ensures outs + Answers(m, ops[i..]) == (outs + [Step(m, ops[i]).1]) + Answers(Step(m, ops[i]).0, ops[i + 1..])
    ensures Roomy(m, ops[i..]) ==> Fits(m, ops[i]) && Roomy(Step(m, ops[i]).0, ops[i + 1..])
  {
    assert ops[i..][1..] == ops[i + 1..];
  }

  /** Any run on a new table that never has more keys to hold than a table can have buckets. */
  method Run<K(0, ==, !new), V(0, !new)>(hash: K -> nat, ops: seq<Op<K, V>>) returns (outs: seq<Answer<V>>)
    requires Roomy(map[], ops)
    ensures outs == Answers(map[], ops)
  {
    hide Answers, Pow2, Step, Ok, Table.Valid, Roomy, Fits;
    var t := new Table<K, V>(hash);
    outs := [];
    assert ops[0..] == ops;
    assert outs + Answers(map[], ops) == Answers(map[], ops);
    for i := 0 to |ops|
      invariant t.Valid() && fresh(t) && fresh(t.flags) && fresh(t.keys) && fresh(t.vals)
      invariant Roomy(t.M, ops[i..])
      invariant outs + Answers(t.M, ops[i..]) == Answers(map[], ops)
    {
      AnswersNext(t.M, ops, i, outs);
      var out := Apply(t, ops[i]);
      outs := outs + [out];
    }
    NoMore(t.M, ops[|ops|..]);
  }

  lemma NoMore<K, V>(m: map<K, V>, ops: seq<Op<K, V>>)
    requires ops == []
    ensures Answers(m, ops) == []
  {
  }
}
