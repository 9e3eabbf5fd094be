/** The store and its memory together: items lie in segments that are recycled and used again, and yet
    no item that anybody has a reference to is touched. */
module StoreMemory {
  import opened Options
  import opened KvBucket
  import opened KvStore
  import KvLaws
  import R = AllocatorRuns

  /** The store, what is to be seen of pool and allocators, and where each item is. */
  datatype Joint = Joint(kv: State, v: R.View, place: map<Item, R.Item>)

  /** The item a step makes. */
  function Made(a: Step): Item?
  {
    match a
    case Create(it) => it
    case Copy(_, nit) => nit
    case _ => null
  }

  /** Its last reference goes with the step: item_unref calls ialloc_free. */
  predicate Dies(s: State, a: Step, it: Item)
    requires Enabled(s, a)
  {
    Counted(s.refs, it) && it in Next(s, a).refs && Next(s, a).refs[it] == 0
  }

  /** A step of the store, with the request to an allocator and its answer if it makes an item; or a
      step of an allocator alone: a refill, a recycling, or an item that is refused. */
  datatype Move = Store(a: Step, op: R.Op, x: R.Item) | Memory(op: R.Op)

  /** An item that is made is given room by an allocator, one whose count falls to zero is released. */
  ghost predicate StoreStep(segsize: nat, max: nat, j: Joint, m: Move, j': Joint)
    requires m.Store?
  {
    && Enabled(j.kv, m.a) && j'.kv == Next(j.kv, m.a)
    && if Made(m.a) != null then
         && m.op.Alloc? && R.Step(segsize, max, j.v, [], m.op, Some(m.x), j'.v)
         && j'.place == j.place[Made(m.a) := m.x]
       else
         && j'.place == j.place
         && if exists it :: it in j.kv.refs && Dies(j.kv, m.a, it) then
              (exists it ::
                 it in j.kv.refs && Dies(j.kv, m.a, it) && it in j.place && R.FreeStep(j.v, j.place[it], j'.v))
            else j'.v == j.v
  }

  ghost predicate MemoryStep(segsize: nat, max: nat, j: Joint, m: Move, j': Joint)
    requires m.Memory?
  {
    && !m.op.Free? && R.Step(segsize, max, j.v, [], m.op, None, j'.v)
    && j'.kv == j.kv && j'.place == j.place
  }

  ghost predicate JointStep(segsize: nat, max: nat, j: Joint, m: Move, j': Joint)
  {
    if m.Store? then StoreStep(segsize, max, j, m, j') else MemoryStep(segsize, max, j, m, j')
  }

  // ----- where the items are -----

  ghost predicate Lives(v: R.View, x: R.Item)
  {
    x.h in v.blocks && R.LiveAt(v.blocks[x.h], x.at)
  }

  /** Items with references are in different places, live, in segments in use. */
  ghost predicate Housed(j: Joint)
  {
    && (forall it :: it in j.kv.refs && Counted(j.kv.refs, it) ==> it in j.place && Lives(j.v, j.place[it]))
    && forall it, o ::
         it in j.kv.refs && o in j.kv.refs && Counted(j.kv.refs, it) && Counted(j.kv.refs, o) && it != o ==>
         it in j.place && o in j.place && j.place[it] != j.place[o]
  }

  /** What an allocator does leaves a live item live, and its room is not given out again. */
  lemma OneStays(segsize: nat, max: nat, v: R.View, op: R.Op, got: Option<R.Item>, v': R.View, x: R.Item)
    requires R.Orderly(v, segsize) && Lives(v, x) && !op.Free? && R.Step(segsize, max, v, [], op, got, v')
    ensures Lives(v', x) && got != Some(x)
  {
    hide R.Orderly, R.LiveAt, R.AllocStep, R.RefillStep, R.RecycleStep;
    var held := [x];
    assert held[0] == x;
    assert R.Kept(v, held);
    R.StepKeeps(segsize, max, v, held, op, got, v');
    var held' := R.Holding(held, op, got);
    assert held'[0] == x;
    if got.Some? && op.Alloc? {
      assert held'[1] == got.value;
    }
  }

  lemma KeptTwo(v: R.View, x: R.Item, y: R.Item)
    requires Lives(v, x) && Lives(v, y) && x != y
    ensures R.Kept(v, [x, y])
    ensures R.Holding([x, y], R.Op.Free(1), None) == [x]
  {
    hide R.LiveAt;
    assert [x, y][0] == x && [x, y][1] == y;
  }

  lemma KeptOne(v: R.View, x: R.Item)
    requires R.Kept(v, [x])
    ensures Lives(v, x)
  {
    hide R.LiveAt;
    assert [x][0] == x;
  }

  /** An item that is released leaves the others. */
  lemma OtherStays(segsize: nat, max: nat, v: R.View, y: R.Item, v': R.View, x: R.Item)
    requires R.Orderly(v, segsize) && Lives(v, x) && Lives(v, y) && x != y && R.FreeStep(v, y, v')
    ensures Lives(v', x)
  {
    hide R.Orderly, R.FreeStep, R.Kept, R.Holding, Lives, R.Whole;
    KeptTwo(v, x, y);
    OrderlyWhole(v, segsize);
    assert R.Step(segsize, max, v, [x, y], R.Op.Free(1), None, v');
    R.StepKeeps(segsize, max, v, [x, y], R.Op.Free(1), None, v');
    KeptOne(v', x);
  }

  lemma OrderlyWhole(v: R.View, segsize: nat)
    requires R.Orderly(v, segsize)
    ensures R.Whole(v)
  {
    hide R.Whole;
  }

  /** Items only come to be by being made, and are not revived. */
  lemma CountedBefore(s: State, a: Step, it: Item)
    requires Inv(s) && Enabled(s, a) && Counted(Next(s, a).refs, it) && it != Made(a)
    ensures Counted(s.refs, it)
  {
    KnownBefore(s, a, it);
    hide Inv, Enabled, Next;
    if s.refs[it] == 0 {
      KvLaws.ZeroStays(s, a, it);
    }
  }

  lemma KnownBefore(s: State, a: Step, it: Item)
    requires Enabled(s, a) && it in Next(s, a).refs && it != Made(a)
    ensures it in s.refs
  {
    hide HashOf, Changed, StoreIn;
  }

  lemma MadeUncounted(s: State, a: Step)
    requires Enabled(s, a) && Made(a) != null
    ensures Made(a) !in s.refs
  {
    hide HashOf, CanStore;
  }

  lemma StoreHoused(segsize: nat, max: nat, j: Joint, m: Move, j': Joint)
    requires R.Orderly(j.v, segsize) && Inv(j.kv) && Housed(j) && m.Store? && StoreStep(segsize, max, j, m, j')
    ensures Housed(j')
  {
    hide R.Orderly, R.Step, R.FreeStep, Lives, Inv, Enabled, Next;
    forall it | it in j'.kv.refs && Counted(j'.kv.refs, it) && it != Made(m.a) ensures Counted(j.kv.refs, it) {
      CountedBefore(j.kv, m.a, it);
    }
    if Made(m.a) != null {
      MadeHoused(segsize, max, j, m, j');
    } else if exists it :: it in j.kv.refs && Dies(j.kv, m.a, it) {
      var it :| it in j.kv.refs && Dies(j.kv, m.a, it) && it in j.place && R.FreeStep(j.v, j.place[it], j'.v);
      forall o | o in j'.kv.refs && Counted(j'.kv.refs, o) ensures o in j.place && Lives(j'.v, j.place[o]) {
        OtherStays(segsize, max, j.v, j.place[it], j'.v, j.place[o]);
      }
    }
  }

  lemma MadeHoused(segsize: nat, max: nat, j: Joint, m: Move, j': Joint)
    requires R.Orderly(j.v, segsize) && Housed(j) && m.Store? && StoreStep(segsize, max, j, m, j') && Made(m.a) != null
    requires forall it :: it in j'.kv.refs && Counted(j'.kv.refs, it) && it != Made(m.a) ==> Counted(j.kv.refs, it)
    ensures Housed(j')
  {
    hide R.Orderly, Lives, Inv, Enabled, Next, R.Step;
    MadeUncounted(j.kv, m.a);
    forall it | it in j.kv.refs && Counted(j.kv.refs, it) ensures Lives(j'.v, j.place[it]) && j.place[it] != m.x {
      OneStays(segsize, max, j.v, m.op, Some(m.x), j'.v, j.place[it]);
    }
    NewLives(segsize, max, j.v, m.op, m.x, j'.v);
  }

  lemma NewLives(segsize: nat, max: nat, v: R.View, op: R.Op, x: R.Item, v': R.View)
    requires R.Orderly(v, segsize) && op.Alloc? && R.Step(segsize, max, v, [], op, Some(x), v')
    ensures Lives(v', x)
  {
    hide R.Orderly, R.LiveAt, R.AllocStep;
    R.StepKeeps(segsize, max, v, [], op, Some(x), v');
    var held' := R.Holding([], op, Some(x));
    assert held'[0] == x;
  }

  lemma MemoryHoused(segsize: nat, max: nat, j: Joint, m: Move, j': Joint)
    requires R.Orderly(j.v, segsize) && Housed(j) && m.Memory? && MemoryStep(segsize, max, j, m, j')
    ensures Housed(j')
  {
    hide R.Orderly, R.Step, Lives;
    forall it | it in j.kv.refs && Counted(j.kv.refs, it) ensures it in j.place && Lives(j'.v, j.place[it]) {
      OneStays(segsize, max, j.v, m.op, None, j'.v, j.place[it]);
    }
  }

  // ----- every run -----

  /** A run of store and allocators, all states of which are those of a pool in order, as
      AllocatorRuns.Run has them. */
  ghost predicate JointRun(segsize: nat, max: nat, js: seq<Joint>, ms: seq<Move>)
  {
    && |js| == |ms| + 1 && (forall n :: 0 <= n < |js| ==> R.Orderly(js[n].v, segsize))
    && forall n :: 0 <= n < |ms| ==> JointStep(segsize, max, js[n], ms[n], js[n + 1])
  }

  lemma {:induction false} RunHoused(segsize: nat, max: nat, js: seq<Joint>, ms: seq<Move>, n: nat)
    requires JointRun(segsize, max, js, ms) && Inv(js[0].kv) && Housed(js[0]) && n < |js|
    ensures Inv(js[n].kv) && Housed(js[n])
    decreases n
  {
    hide Inv, Housed, StoreStep, MemoryStep, R.Orderly;
    if n > 0 {
      RunHoused(segsize, max, js, ms, n - 1);
      var j, m, j' := js[n - 1], ms[n - 1], js[n];
      assert JointStep(segsize, max, j, m, j');
      if m.Store? {
        StoreHoused(segsize, max, j, m, j');
        StoreGoes(segsize, max, j, m, j');
        KeepInv(j.kv, m.a);
      } else {
        MemoryHoused(segsize, max, j, m, j');
        MemorySame(segsize, max, j, m, j');
      }
    }
  }

  lemma StoreGoes(segsize: nat, max: nat, j: Joint, m: Move, j': Joint)
    requires m.Store? && StoreStep(segsize, max, j, m, j')
    ensures Enabled(j.kv, m.a) && j'.kv == Next(j.kv, m.a)
  {
    hide Enabled, Next, R.Step, R.FreeStep;
  }

  lemma MemorySame(segsize: nat, max: nat, j: Joint, m: Move, j': Joint)
    requires m.Memory? && MemoryStep(segsize, max, j, m, j')
    ensures j'.kv == j.kv
  {
    hide R.Step;
  }

  /** Over any run of workers, cleaning cores and allocators: an item that a worker reads for a GET, that
      waits to be cleaned, that clean_log copies, or that is in the table, is where it was put, live, in a
      segment in use.  No segment is recycled under it, and its room is nobody else's. */
  lemma NothingRecycledUnder(segsize: nat, max: nat, n: nat, k: nat, js: seq<Joint>, ms: seq<Move>, m: nat, it: Item)
    requires n > 0 && JointRun(segsize, max, js, ms) && js[0].kv == Init(n, k) && m < |js|
    requires |js[m].kv.buckets| > 0 && Referred(js[m].kv, it)
    ensures it in js[m].place && Lives(js[m].v, js[m].place[it])
    ensures forall o :: o in js[m].kv.refs && Counted(js[m].kv.refs, o) && o != it ==>
      o in js[m].place && js[m].place[o] != js[m].place[it]
  {
    hide Lives, Referred, HashOf, JointRun;
    InitInv(n, k);
    RunHoused(segsize, max, js, ms, m);
    ReferredCounted(js[m].kv, it);
  }

  /** A worker, a core or the table has the item. */
  predicate Referred(s: State, it: Item)
    requires |s.buckets| > 0
  {
    it in s.workers || it in Owed(s.cores) || (it in s.refs && InTable(s.buckets, it))
  }

  lemma ReferredCounted(s: State, it: Item)
    requires Inv(s) && Referred(s, it)
    ensures Counted(s.refs, it)
  {
    hide TableOk, MadeOk, CopyOk, InTable, Owed;
  }
}
