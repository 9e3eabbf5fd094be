/** The item store of apps/flexkvs/server as a state machine: worker threads that store and look
    up, and on every core the maintenance that queues items for cleaning and clean_log, which
    relocates them.  A bucket operation is one step, as it is under the bucket's lock. */
module KvStore {
  import opened KvBucket

  type Buckets = seq<View>

  /** Where clean_log is with the item it has in hand, and with the copy it makes. */
  datatype Cleaner =
    | Idle
    | Holding(it: Item)
    | Copied(it: Item, nit: Item)
    | Placed(it: Item, nit: Item)
    | Dropped(it: Item)

  /** queue: a core's cleanup queue, each entry with a reference taken by ialloc_maintenance. */
  datatype Core = Core(queue: seq<Item>, cleaner: Cleaner)

  /** refs: the reference counts; made: items filled in but not stored yet; workers: the
      references worker threads hold. */
  datatype State = State(
    buckets: Buckets, refs: map<Item, nat>, made: set<Item>, workers: multiset<Item>, cores: seq<Core>)

  /** n buckets, k cores */
  function Init(n: nat, k: nat): State
    requires n > 0
  {
    State(seq(n, _ => seq(NITEMS, _ => null)), map[], {}, multiset{}, seq(k, _ => Core([], Idle)))
  }

  /** The bucket of a key. */
  function Home(bs: Buckets, key: Key): nat
    requires |bs| > 0
  {
    HashOf(key) % |bs|
  }

  /** What the store answers for a key. */
  function Lookup(bs: Buckets, key: Key): Item?
    requires |bs| > 0
  {
    Find(bs[Home(bs, key)], key)
  }

  predicate InTable(bs: Buckets, it: Item)
    requires |bs| > 0
  {
    it in bs[Home(bs, it.key)]
  }

  /** References clean_log holds. */
  function Held(c: Cleaner): multiset<Item>
  {
    match c
    case Idle => multiset{}
    case Holding(it) => multiset{it}
    case Copied(it, nit) => multiset{it, nit}
    case Placed(it, nit) => multiset{it, nit}
    case Dropped(it) => multiset{it}
  }

  /** References a core has taken for cleaning. */
  function Mine(k: Core): multiset<Item>
  {
    multiset(k.queue) + Held(k.cleaner)
  }

  function Owed(cores: seq<Core>): multiset<Item>
  {
    if cores == [] then multiset{} else Owed(cores[..|cores| - 1]) + Mine(cores[|cores| - 1])
  }

  lemma {:induction false} OwedSet(cores: seq<Core>, i: nat, k: Core)
    requires i < |cores|
    ensures Owed(cores[i := k]) + Mine(cores[i]) == Owed(cores) + Mine(k)
    ensures Mine(cores[i]) <= Owed(cores)
    decreases |cores|
  {
    hide Mine;
    var n := |cores| - 1;
    if i < n {
      assert cores[i := k][..n] == cores[..n][i := k];
      OwedSet(cores[..n], i, k);
      Beside(Owed(cores[..n][i := k]), Mine(cores[i]), Owed(cores[..n]), Mine(k), Mine(cores[n]));
    } else {
      assert cores[i := k][..n] == cores[..n];
    }
  }

  lemma Beside(a: multiset<Item>, b: multiset<Item>, c: multiset<Item>, d: multiset<Item>, e: multiset<Item>)
    requires a + b == c + d
    ensures (a + e) + b == (c + e) + d
  {
    assert (a + e) + b == (a + b) + e;
    assert (c + e) + d == (c + d) + e;
  }

  /** Core i takes one reference more. */
  lemma OwedMore(cores: seq<Core>, i: nat, k: Core, it: Item)
    requires i < |cores| && Mine(k) == Mine(cores[i]) + multiset{it}
    ensures Owed(cores[i := k]) == Owed(cores) + multiset{it}
  {
    hide Owed, Mine;
    OwedSet(cores, i, k);
    assert Owed(cores) + (Mine(cores[i]) + multiset{it}) == (Owed(cores) + multiset{it}) + Mine(cores[i]);
    Cancel(Owed(cores[i := k]), Mine(cores[i]), Owed(cores) + multiset{it});
  }

  /** Core i lets go of one. */
  lemma OwedLess(cores: seq<Core>, i: nat, k: Core, it: Item)
    requires i < |cores| && Mine(cores[i]) == Mine(k) + multiset{it}
    ensures it in Owed(cores) && Owed(cores[i := k]) == Owed(cores) - multiset{it}
  {
    hide Owed, Mine;
    OwedSet(cores, i, k);
    assert it in Mine(cores[i]);
    assert Owed(cores[i := k]) + (Mine(k) + multiset{it}) == (Owed(cores[i := k]) + multiset{it}) + Mine(k);
    Cancel(Owed(cores[i := k]) + multiset{it}, Mine(k), Owed(cores));
    assert Owed(cores) - multiset{it} == (Owed(cores[i := k]) + multiset{it}) - multiset{it};
  }

  lemma OwedSame(cores: seq<Core>, i: nat, k: Core)
    requires i < |cores| && Mine(cores[i]) == Mine(k)
    ensures Owed(cores[i := k]) == Owed(cores)
  {
    hide Owed, Mine;
    OwedSet(cores, i, k);
    Cancel(Owed(cores[i := k]), Mine(k), Owed(cores));
  }

  lemma Cancel(a: multiset<Item>, b: multiset<Item>, c: multiset<Item>)
    ensures a + b == c + b ==> a == c
  {
    if a + b == c + b {
      assert a == (a + b) - b && c == (c + b) - b;
    }
  }

  lemma {:induction false} OwedNothing(cores: seq<Core>)
    requires forall i :: 0 <= i < |cores| ==> cores[i] == Core([], Idle)
    ensures Owed(cores) == multiset{}
  {
    if cores != [] {
      OwedNothing(cores[..|cores| - 1]);
    }
  }

  predicate CanStore(bs: Buckets, refs: map<Item, nat>, nit: Item)
  {
    |bs| > 0 && nit in refs && |bs[Home(bs, nit.key)]| >= NITEMS
  }

  /** hasht_put on the bucket of nit. */
  function Changed(bs: Buckets, nit: Item, cas: Item?): Change
    requires |bs| > 0 && |bs[Home(bs, nit.key)]| >= NITEMS
  {
    Put(bs[Home(bs, nit.key)], nit, cas)
  }

  function StoreIn(bs: Buckets, nit: Item, cas: Item?): (r: Buckets)
    requires |bs| > 0 && |bs[Home(bs, nit.key)]| >= NITEMS
    ensures |r| == |bs|
  {
    bs[Home(bs, nit.key) := Changed(bs, nit, cas).l]
  }

  /** item_ref of the new item, item_unref of the one it replaces. */
  function Recount(refs: map<Item, nat>, nit: Item, c: Change): map<Item, nat>
    requires nit in refs
  {
    if !c.taken then refs
    else if c.replaced == null || c.replaced !in refs || refs[c.replaced] == 0 then refs[nit := refs[nit] + 1]
    else refs[nit := refs[nit] + 1][c.replaced := refs[c.replaced] - 1]
  }

  /** The steps of workers, and those of core i. */
  datatype Step =
    | Create(it: Item)          // ialloc_alloc by a worker, and the item filled in
    | Set(nit: Item)            // hasht_put(nit, NULL)
    | Get(key: Key)             // hasht_get
    | Release(it: Item)         // item_unref by a worker
    | Scan(i: nat, it: Item)    // item_tryref, and the item queued if it had a reference
    | Take(i: nat)              // ialloc_cleanup_item
    | Skip(i: nat)              // only clean_log's own reference is left: dropped
    | Copy(i: nat, nit: Item)   // the item is copied
    | Relocate(i: nat)          // hasht_put(nit, it)
    | DropNew(i: nat)           // item_unref(nit)
    | DropOld(i: nat)           // item_unref(it)

  /** A new item, not yet counted. */
  predicate Fresh(refs: map<Item, nat>, it: Item) { it !in refs && it.hv == HashOf(it.key) }

  predicate Counted(refs: map<Item, nat>, it: Item) { it in refs && refs[it] > 0 }

  predicate Enabled(s: State, a: Step)
  {
    match a
    case Create(it) => Fresh(s.refs, it)
    case Set(nit) => nit in s.workers && nit in s.made && CanStore(s.buckets, s.refs, nit)
    case Get(key) => |s.buckets| > 0
    case Release(it) => it in s.workers && Counted(s.refs, it)
    case Scan(i, it) => i < |s.cores| && it in s.refs
    case Take(i) => i < |s.cores| && s.cores[i].cleaner.Idle? && s.cores[i].queue != []
    case Skip(i) => Cleaning(s, i) && s.cores[i].cleaner.Holding? && s.refs[s.cores[i].cleaner.it] == 1
    case Copy(i, nit) =>
      Cleaning(s, i) && s.cores[i].cleaner.Holding? && s.refs[s.cores[i].cleaner.it] != 1 &&
      Fresh(s.refs, nit) && nit.key == s.cores[i].cleaner.it.key && nit.val == s.cores[i].cleaner.it.val
    case Relocate(i) => Cleaning(s, i) && s.cores[i].cleaner.Copied?
      && CanStore(s.buckets, s.refs, s.cores[i].cleaner.nit)
    case DropNew(i) => Cleaning(s, i) && s.cores[i].cleaner.Placed? && Counted(s.refs, s.cores[i].cleaner.nit)
    case DropOld(i) => Cleaning(s, i) && s.cores[i].cleaner.Dropped?
  }

  /** Core i has an item in hand. */
  predicate Cleaning(s: State, i: nat)
  {
    i < |s.cores| && !s.cores[i].cleaner.Idle? && Counted(s.refs, s.cores[i].cleaner.it)
  }

  function Unref(refs: map<Item, nat>, it: Item): map<Item, nat>
    requires Counted(refs, it)
  {
    refs[it := refs[it] - 1]
  }

  /** Core i goes on with its cleaning. */
  function GoOn(cores: seq<Core>, i: nat, c: Cleaner): seq<Core>
    requires i < |cores|
  {
    cores[i := cores[i].(cleaner := c)]
  }

  function Next(s: State, a: Step): State
    requires Enabled(s, a)
  {
    match a
    case Create(it) => s.(refs := s.refs[it := 1], made := s.made + {it}, workers := s.workers + multiset{it})
    case Set(nit) =>
      s.(buckets := StoreIn(s.buckets, nit, null), refs := Recount(s.refs, nit, Changed(s.buckets, nit, null)),
        made := s.made - {nit})
    case Get(key) =>
      var it := Lookup(s.buckets, key);
      s.(refs := if it != null && it in s.refs then s.refs[it := s.refs[it] + 1] else s.refs,
         workers := if it != null then s.workers + multiset{it} else s.workers)
    case Release(it) => s.(refs := Unref(s.refs, it), workers := s.workers - multiset{it})
    case Scan(i, it) =>
      s.(refs := if s.refs[it] == 0 then s.refs else s.refs[it := s.refs[it] + 1],
         cores := if s.refs[it] == 0 then s.cores else s.cores[i := s.cores[i].(queue := s.cores[i].queue + [it])])
    case Take(i) => s.(cores := s.cores[i := Core(s.cores[i].queue[1..], Holding(s.cores[i].queue[0]))])
    case Skip(i) => s.(refs := Unref(s.refs, s.cores[i].cleaner.it), cores := GoOn(s.cores, i, Idle))
    case Copy(i, nit) => s.(refs := s.refs[nit := 1], cores := GoOn(s.cores, i, Copied(s.cores[i].cleaner.it, nit)))
    case Relocate(i) =>
      var c := s.cores[i].cleaner;
      s.(buckets := StoreIn(s.buckets, c.nit, c.it), refs := Recount(s.refs, c.nit, Changed(s.buckets, c.nit, c.it)),
         cores := GoOn(s.cores, i, Placed(c.it, c.nit)))
    case DropNew(i) =>
      s.(refs := Unref(s.refs, s.cores[i].cleaner.nit), cores := GoOn(s.cores, i, Dropped(s.cores[i].cleaner.it)))
    case DropOld(i) => s.(refs := Unref(s.refs, s.cores[i].cleaner.it), cores := GoOn(s.cores, i, Idle))
  }

  // ----- the invariant -----

  ghost predicate TableOk(bs: Buckets, refs: map<Item, nat>)
  {
    && |bs| > 0
    && (forall b :: 0 <= b < |bs| ==> Wf(bs[b]))
    && (forall b, it: Item :: 0 <= b < |bs| && it in bs[b] ==> it in refs && Home(bs, it.key) == b)
    && (forall it :: it in refs ==> it.hv == HashOf(it.key))
  }

  /** Every reference is the table's, a worker's, or one a core has taken for cleaning. */
  ghost predicate CountOk(bs: Buckets, refs: map<Item, nat>, workers: multiset<Item>, owed: multiset<Item>)
    requires |bs| > 0
  {
    && (forall it :: it in refs ==> refs[it] == (if InTable(bs, it) then 1 else 0) + workers[it] + owed[it])
    && (forall it :: it in workers ==> it in refs)
    && (forall it :: it in owed ==> it in refs)
  }

  /** Items not stored yet are not in the table. */
  ghost predicate MadeOk(bs: Buckets, refs: map<Item, nat>, made: set<Item>)
    requires |bs| > 0
  {
    forall it :: it in made ==> it in refs && !InTable(bs, it)
  }

  /** A copy has the key and the value of the original; it is not in the table yet, and no worker
      and no other core has it. */
  ghost predicate CopyOk(bs: Buckets, made: set<Item>, workers: multiset<Item>, cores: seq<Core>)
    requires |bs| > 0
  {
    && (forall i :: 0 <= i < |cores| && cores[i].cleaner.Copied? ==> CopyIs(bs, made, workers, cores[i].cleaner))
    && (forall i, j ::
          0 <= i < |cores| && 0 <= j < |cores| && i != j && cores[i].cleaner.Copied? && cores[j].cleaner.Copied? ==>
          cores[i].cleaner.nit != cores[j].cleaner.nit)
  }

  predicate CopyIs(bs: Buckets, made: set<Item>, workers: multiset<Item>, c: Cleaner)
    requires |bs| > 0 && c.Copied?
  {
    c.nit.key == c.it.key && c.nit.val == c.it.val && !InTable(bs, c.nit) && c.nit !in made && c.nit !in workers
  }

  ghost predicate Inv(s: State)
  {
    && |s.buckets| > 0
    && TableOk(s.buckets, s.refs)
    && CountOk(s.buckets, s.refs, s.workers, Owed(s.cores))
    && MadeOk(s.buckets, s.refs, s.made)
    && CopyOk(s.buckets, s.made, s.workers, s.cores)
  }

  lemma InitInv(n: nat, k: nat)
    requires n > 0
    ensures Inv(Init(n, k))
  {
    OwedNothing(Init(n, k).cores);
  }

  // ----- storing -----

  lemma Stored(bs: Buckets, refs: map<Item, nat>, nit: Item, cas: Item?, x: Item)
    requires TableOk(bs, refs) && CanStore(bs, refs, nit) && !InTable(bs, nit)
    ensures var c := Changed(bs, nit, cas);
      && (InTable(StoreIn(bs, nit, cas), x) <==>
         if c.taken then x == nit || (InTable(bs, x) && x != c.replaced) else InTable(bs, x))
      && (c.replaced != null ==> c.taken && InTable(bs, c.replaced) && c.replaced in refs && c.replaced != nit)
  {
    hide HashOf, Wf;
    PutMembers(bs[Home(bs, nit.key)], nit, cas, x);
  }

  lemma StoreTable(bs: Buckets, refs: map<Item, nat>, nit: Item, cas: Item?)
    requires TableOk(bs, refs) && CanStore(bs, refs, nit) && !InTable(bs, nit)
    ensures TableOk(StoreIn(bs, nit, cas), Recount(refs, nit, Changed(bs, nit, cas)))
  {
    hide HashOf, Wf;
    var l, bs' := bs[Home(bs, nit.key)], StoreIn(bs, nit, cas);
    PutWf(l, nit, cas);
    assert Recount(refs, nit, Changed(bs, nit, cas)).Keys == refs.Keys;
    forall b, it: Item | 0 <= b < |bs'| && it in bs'[b] ensures it in refs && Home(bs', it.key) == b {
      PutMembers(l, nit, cas, it);
    }
  }

  /** The table's references follow what is in the table. */
  lemma StoreCount(bs: Buckets, refs: map<Item, nat>, workers: multiset<Item>, owed: multiset<Item>, nit: Item,
      cas: Item?)
    requires TableOk(bs, refs) && CountOk(bs, refs, workers, owed) && CanStore(bs, refs, nit) && !InTable(bs, nit)
    ensures CountOk(StoreIn(bs, nit, cas), Recount(refs, nit, Changed(bs, nit, cas)), workers, owed)
  {
    hide HashOf, Wf, TableOk, Put, Changed, StoreIn, InTable;
    var bs', refs' := StoreIn(bs, nit, cas), Recount(refs, nit, Changed(bs, nit, cas));
    Stored(bs, refs, nit, cas, nit);
    forall it | it in refs'
      ensures refs'[it] == (if InTable(bs', it) then 1 else 0) + workers[it] + owed[it]
    {
      Stored(bs, refs, nit, cas, it);
    }
  }

  lemma StoreMade(bs: Buckets, refs: map<Item, nat>, made: set<Item>, nit: Item, cas: Item?)
    requires TableOk(bs, refs) && MadeOk(bs, refs, made) && CanStore(bs, refs, nit) && !InTable(bs, nit)
    ensures MadeOk(StoreIn(bs, nit, cas), Recount(refs, nit, Changed(bs, nit, cas)), made - {nit})
  {
    hide HashOf, Wf, TableOk, Put, Changed, StoreIn, InTable;
    assert Recount(refs, nit, Changed(bs, nit, cas)).Keys == refs.Keys;
    forall it | it in made - {nit} ensures !InTable(StoreIn(bs, nit, cas), it) {
      Stored(bs, refs, nit, cas, it);
    }
  }

  /** Copies not yet stored are none of what is stored. */
  lemma StoreCopies(bs: Buckets, refs: map<Item, nat>, made: set<Item>, made': set<Item>, workers: multiset<Item>,
      cores: seq<Core>, nit: Item, cas: Item?)
    requires TableOk(bs, refs) && CanStore(bs, refs, nit) && !InTable(bs, nit)
      && CopyOk(bs, made, workers, cores) && made' <= made
    requires forall i :: 0 <= i < |cores| && cores[i].cleaner.Copied? ==> cores[i].cleaner.nit != nit
    ensures CopyOk(StoreIn(bs, nit, cas), made', workers, cores)
  {
    hide HashOf, Wf, TableOk, Put, Changed, StoreIn, InTable;
    forall i | 0 <= i < |cores| && cores[i].cleaner.Copied?
      ensures !InTable(StoreIn(bs, nit, cas), cores[i].cleaner.nit) {
      Stored(bs, refs, nit, cas, cores[i].cleaner.nit);
    }
  }

  lemma KeepSet(s: State, nit: Item)
    requires Inv(s) && Enabled(s, Set(nit))
    ensures Inv(Next(s, Set(nit)))
  {
    hide HashOf, Wf, Put, TableOk, CountOk, InTable, StoreIn, Changed, Recount, Owed;
    StoreTable(s.buckets, s.refs, nit, null);
    StoreCount(s.buckets, s.refs, s.workers, Owed(s.cores), nit, null);
    StoreMade(s.buckets, s.refs, s.made, nit, null);
    StoreCopies(s.buckets, s.refs, s.made, s.made - {nit}, s.workers, s.cores, nit, null);
  }

  lemma KeepRelocate(s: State, i: nat)
    requires Inv(s) && Enabled(s, Relocate(i))
    ensures Inv(Next(s, Relocate(i)))
  {
    hide HashOf, Wf, Put, TableOk, CountOk, MadeOk, CopyOk, InTable, StoreIn, Changed, Recount, Owed;
    var it, nit := s.cores[i].cleaner.it, s.cores[i].cleaner.nit;
    CopyFacts(s.buckets, s.made, s.workers, s.cores, i);
    StoreTable(s.buckets, s.refs, nit, it);
    StoreCount(s.buckets, s.refs, s.workers, Owed(s.cores), nit, it);
    StoreMade(s.buckets, s.refs, s.made, nit, it);
    assert s.made - {nit} == s.made;
    var cores' := GoOn(s.cores, i, Placed(it, nit));
    OwedSame(s.cores, i, cores'[i]);
    CopiesFewer(s.buckets, s.made, s.workers, s.cores, i, cores'[i]);
    StoreCopies(s.buckets, s.refs, s.made, s.made, s.workers, cores', nit, it);
  }

  lemma CopyFacts(bs: Buckets, made: set<Item>, workers: multiset<Item>, cores: seq<Core>, i: nat)
    requires |bs| > 0 && CopyOk(bs, made, workers, cores) && i < |cores| && cores[i].cleaner.Copied?
    ensures CopyIs(bs, made, workers, cores[i].cleaner)
    ensures forall j :: 0 <= j < |cores| && j != i && cores[j].cleaner.Copied? ==>
      cores[j].cleaner.nit != cores[i].cleaner.nit
  {
    hide CopyIs;
  }

  /** A core that has no copy, or the one it had, changes nothing for the others. */
  lemma CopiesFewer(bs: Buckets, made: set<Item>, workers: multiset<Item>, cores: seq<Core>, i: nat, k: Core)
    requires |bs| > 0 && CopyOk(bs, made, workers, cores) && i < |cores|
      && (!k.cleaner.Copied? || k.cleaner == cores[i].cleaner)
    ensures CopyOk(bs, made, workers, cores[i := k])
  {
    hide CopyIs;
  }

  // ----- counting -----

  /** The table does not mind other counts for the same items, nor a new item. */
  lemma TableRefs(bs: Buckets, refs: map<Item, nat>, refs': map<Item, nat>)
    requires TableOk(bs, refs) && forall it :: it in refs ==> it in refs'
    requires forall it :: it in refs' && it !in refs ==> it.hv == HashOf(it.key)
    ensures TableOk(bs, refs')
  {
    hide HashOf, Wf;
  }

  lemma Lookups(bs: Buckets, refs: map<Item, nat>, key: Key)
    requires TableOk(bs, refs)
    ensures var it := Lookup(bs, key); it != null ==> it in refs && InTable(bs, it) && it.key == key
  {
    hide HashOf;
    var it := Lookup(bs, key);
    if it != null {
      FindIff(bs[Home(bs, key)], key, it);
    }
  }

  lemma NotInTable(bs: Buckets, refs: map<Item, nat>, it: Item)
    requires TableOk(bs, refs) && it !in refs
    ensures !InTable(bs, it)
  {
    hide HashOf, Wf;
  }

  /** References move between workers and cores, and the counts with them. */
  lemma CountMoved(bs: Buckets, refs: map<Item, nat>, workers: multiset<Item>, owed: multiset<Item>,
      refs': map<Item, nat>, workers': multiset<Item>, owed': multiset<Item>)
    requires |bs| > 0 && CountOk(bs, refs, workers, owed) && refs'.Keys == refs.Keys
    requires forall it :: it in refs ==> refs'[it] + workers[it] + owed[it] == refs[it] + workers'[it] + owed'[it]
    requires (forall it :: it in workers' ==> it in refs) && (forall it :: it in owed' ==> it in refs)
    ensures CountOk(bs, refs', workers', owed')
  {
    hide InTable;
  }

  lemma CountFacts(bs: Buckets, refs: map<Item, nat>, workers: multiset<Item>, owed: multiset<Item>)
    requires |bs| > 0 && CountOk(bs, refs, workers, owed)
    ensures forall it :: it in workers ==> Counted(refs, it)
    ensures forall it :: it in owed ==> Counted(refs, it)
    ensures forall it :: it in refs && InTable(bs, it) ==> refs[it] > 0
  {
    hide InTable;
  }

  /** One more reference, a worker's or a core's. */
  lemma CountMore(bs: Buckets, refs: map<Item, nat>, workers: multiset<Item>, owed: multiset<Item>, it: Item)
    requires |bs| > 0 && CountOk(bs, refs, workers, owed) && it in refs
    ensures CountOk(bs, refs[it := refs[it] + 1], workers + multiset{it}, owed)
    ensures CountOk(bs, refs[it := refs[it] + 1], workers, owed + multiset{it})
  {
    hide InTable;
    assert refs[it := refs[it] + 1].Keys == refs.Keys;
    CountMoved(bs, refs, workers, owed, refs[it := refs[it] + 1], workers + multiset{it}, owed);
    CountMoved(bs, refs, workers, owed, refs[it := refs[it] + 1], workers, owed + multiset{it});
  }

  /** One reference less. */
  lemma CountLess(bs: Buckets, refs: map<Item, nat>, workers: multiset<Item>, owed: multiset<Item>, it: Item)
    requires |bs| > 0 && CountOk(bs, refs, workers, owed) && Counted(refs, it)
    ensures it in workers ==> CountOk(bs, Unref(refs, it), workers - multiset{it}, owed)
    ensures it in owed ==> CountOk(bs, Unref(refs, it), workers, owed - multiset{it})
  {
    hide InTable;
    assert Unref(refs, it).Keys == refs.Keys;
    if it in workers {
      CountMoved(bs, refs, workers, owed, Unref(refs, it), workers - multiset{it}, owed);
    }
    if it in owed {
      CountMoved(bs, refs, workers, owed, Unref(refs, it), workers, owed - multiset{it});
    }
  }

  /** Other counts for the same items leave table and items not stored yet alone. */
  lemma RefsChanged(s: State, refs': map<Item, nat>)
    requires Inv(s) && refs'.Keys == s.refs.Keys
    ensures TableOk(s.buckets, refs') && MadeOk(s.buckets, refs', s.made)
  {
    hide HashOf, Wf, TableOk, CountOk, CopyOk, InTable, Owed;
    TableRefs(s.buckets, s.refs, refs');
  }

  lemma KeepGet(s: State, key: Key)
    requires Inv(s) && Enabled(s, Get(key))
    ensures Inv(Next(s, Get(key)))
  {
    hide HashOf, Wf, TableOk, CountOk, MadeOk, InTable, Lookup, Owed;
    Lookups(s.buckets, s.refs, key);
    var it := Lookup(s.buckets, key);
    if it != null {
      assert s.refs[it := s.refs[it] + 1].Keys == s.refs.Keys;
      RefsChanged(s, s.refs[it := s.refs[it] + 1]);
      CountMore(s.buckets, s.refs, s.workers, Owed(s.cores), it);
    }
  }

  lemma KeepRelease(s: State, it: Item)
    requires Inv(s) && Enabled(s, Release(it))
    ensures Inv(Next(s, Release(it)))
  {
    hide HashOf, Wf, TableOk, CountOk, MadeOk, InTable, Owed;
    assert Unref(s.refs, it).Keys == s.refs.Keys;
    RefsChanged(s, Unref(s.refs, it));
    CountLess(s.buckets, s.refs, s.workers, Owed(s.cores), it);
  }

  lemma KeepScan(s: State, i: nat, it: Item)
    requires Inv(s) && Enabled(s, Scan(i, it))
    ensures Inv(Next(s, Scan(i, it)))
  {
    hide HashOf, Wf, TableOk, CountOk, MadeOk, CopyOk, InTable, Owed;
    if s.refs[it] != 0 {
      var k := s.cores[i].(queue := s.cores[i].queue + [it]);
      assert s.refs[it := s.refs[it] + 1].Keys == s.refs.Keys;
      RefsChanged(s, s.refs[it := s.refs[it] + 1]);
      CountMore(s.buckets, s.refs, s.workers, Owed(s.cores), it);
      assert Mine(k) == Mine(s.cores[i]) + multiset{it};
      OwedMore(s.cores, i, k, it);
      CopiesFewer(s.buckets, s.made, s.workers, s.cores, i, k);
    }
  }

  lemma KeepTake(s: State, i: nat)
    requires Inv(s) && Enabled(s, Take(i))
    ensures Inv(Next(s, Take(i)))
  {
    hide HashOf, Wf, TableOk, CountOk, MadeOk, CopyOk, InTable, Owed;
    var q := s.cores[i].queue;
    var k := Core(q[1..], Holding(q[0]));
    assert q == [q[0]] + q[1..];
    assert Mine(k) == Mine(s.cores[i]);
    OwedSame(s.cores, i, k);
    CopiesFewer(s.buckets, s.made, s.workers, s.cores, i, k);
  }

  /** Core i lets go of one reference to it. */
  lemma Dropping(s: State, i: nat, it: Item, c: Cleaner)
    requires Inv(s) && i < |s.cores| && Counted(s.refs, it) && !c.Copied?
    requires Held(s.cores[i].cleaner) == Held(c) + multiset{it}
    ensures Inv(s.(refs := Unref(s.refs, it), cores := GoOn(s.cores, i, c)))
  {
    hide HashOf, Wf, TableOk, CountOk, MadeOk, CopyOk, InTable, Owed, Held;
    var k := s.cores[i].(cleaner := c);
    assert Unref(s.refs, it).Keys == s.refs.Keys;
    RefsChanged(s, Unref(s.refs, it));
    assert Mine(s.cores[i]) == Mine(k) + multiset{it};
    OwedLess(s.cores, i, k, it);
    CountLess(s.buckets, s.refs, s.workers, Owed(s.cores), it);
    CopiesFewer(s.buckets, s.made, s.workers, s.cores, i, k);
  }

  /** A new item comes with one reference, its maker's. */
  lemma CountNew(bs: Buckets, refs: map<Item, nat>, workers: multiset<Item>, owed: multiset<Item>, it: Item)
    requires |bs| > 0 && CountOk(bs, refs, workers, owed) && it !in refs && !InTable(bs, it)
    ensures CountOk(bs, refs[it := 1], workers + multiset{it}, owed)
    ensures CountOk(bs, refs[it := 1], workers, owed + multiset{it})
  {
    hide InTable;
    assert it !in workers && it !in owed;
  }

  /** The copies of the cores are counted already. */
  lemma CopiesCounted(s: State, i: nat)
    requires Inv(s) && i < |s.cores| && s.cores[i].cleaner.Copied?
    ensures s.cores[i].cleaner.nit in s.refs
  {
    hide HashOf, Wf, TableOk, CountOk, MadeOk, CopyOk, InTable, Owed;
    OwedSet(s.cores, i, s.cores[i]);
    CountFacts(s.buckets, s.refs, s.workers, Owed(s.cores));
    assert s.cores[i].cleaner.nit in Mine(s.cores[i]);
  }

  lemma KeepCreate(s: State, it: Item)
    requires Inv(s) && Enabled(s, Create(it))
    ensures Inv(Next(s, Create(it)))
  {
    hide HashOf, Wf, TableOk, CountOk, InTable, Owed;
    NotInTable(s.buckets, s.refs, it);
    CountNew(s.buckets, s.refs, s.workers, Owed(s.cores), it);
    TableRefs(s.buckets, s.refs, s.refs[it := 1]);
    forall i | 0 <= i < |s.cores| && s.cores[i].cleaner.Copied? ensures s.cores[i].cleaner.nit != it {
      CopiesCounted(s, i);
    }
  }

  /** Core i has a copy no other core has. */
  lemma CopiesMore(bs: Buckets, made: set<Item>, workers: multiset<Item>, cores: seq<Core>, i: nat, k: Core)
    requires |bs| > 0 && CopyOk(bs, made, workers, cores) && i < |cores| && k.cleaner.Copied?
      && CopyIs(bs, made, workers, k.cleaner)
    requires forall j :: 0 <= j < |cores| && cores[j].cleaner.Copied? ==> cores[j].cleaner.nit != k.cleaner.nit
    ensures CopyOk(bs, made, workers, cores[i := k])
  {
    hide CopyIs;
  }

  lemma KeepCopy(s: State, i: nat, nit: Item)
    requires Inv(s) && Enabled(s, Copy(i, nit))
    ensures Inv(Next(s, Copy(i, nit)))
  {
    hide HashOf, Wf, TableOk, CountOk, CopyOk, InTable, Owed;
    var k := s.cores[i].(cleaner := Copied(s.cores[i].cleaner.it, nit));
    NotInTable(s.buckets, s.refs, nit);
    CountNew(s.buckets, s.refs, s.workers, Owed(s.cores), nit);
    assert Mine(k) == Mine(s.cores[i]) + multiset{nit};
    OwedMore(s.cores, i, k, nit);
    TableRefs(s.buckets, s.refs, s.refs[nit := 1]);
    CountFacts(s.buckets, s.refs, s.workers, Owed(s.cores));
    forall j | 0 <= j < |s.cores| && s.cores[j].cleaner.Copied? ensures s.cores[j].cleaner.nit != nit {
      CopiesCounted(s, j);
    }
    CopiesMore(s.buckets, s.made, s.workers, s.cores, i, k);
  }

  lemma KeepSkip(s: State, i: nat)
    requires Inv(s) && Enabled(s, Skip(i))
    ensures Inv(Next(s, Skip(i)))
  {
    hide Inv;
    Dropping(s, i, s.cores[i].cleaner.it, Idle);
  }

  lemma KeepDropNew(s: State, i: nat)
    requires Inv(s) && Enabled(s, DropNew(i))
    ensures Inv(Next(s, DropNew(i)))
  {
    hide Inv;
    Dropping(s, i, s.cores[i].cleaner.nit, Dropped(s.cores[i].cleaner.it));
  }

  lemma KeepDropOld(s: State, i: nat)
    requires Inv(s) && Enabled(s, DropOld(i))
    ensures Inv(Next(s, DropOld(i)))
  {
    hide Inv;
    Dropping(s, i, s.cores[i].cleaner.it, Idle);
  }

  /** Every step of every thread keeps the invariant. */
  lemma KeepInv(s: State, a: Step)
    requires Inv(s) && Enabled(s, a)
    ensures Inv(Next(s, a))
  {
    hide Inv, Enabled, Next;
    match a
    case Create(it) => KeepCreate(s, it);
    case Set(nit) => KeepSet(s, nit);
    case Get(key) => KeepGet(s, key);
    case Release(it) => KeepRelease(s, it);
    case Scan(i, it) => KeepScan(s, i, it);
    case Take(i) => KeepTake(s, i);
    case Skip(i) => KeepSkip(s, i);
    case Copy(i, nit) => KeepCopy(s, i, nit);
    case Relocate(i) => KeepRelocate(s, i);
    case DropNew(i) => KeepDropNew(s, i);
    case DropOld(i) => KeepDropOld(s, i);
  }
}
