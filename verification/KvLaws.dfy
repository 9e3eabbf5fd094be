/** What clients of the item store see, and what becomes of references, over every run. */
module KvLaws {
  import opened KvBucket
  import opened KvStore

  datatype Reply = Missing | Found(val: seq<bv8>)

  /** What a GET of the key answers. */
  function Answer(bs: Buckets, key: Key): Reply
    requires |bs| > 0
  {
    var it := Lookup(bs, key);
    if it == null then Missing else Found(it.val)
  }

  // ----- one step -----

  lemma SetAnswers(bs: Buckets, refs: map<Item, nat>, nit: Item, key: Key)
    requires TableOk(bs, refs) && CanStore(bs, refs, nit)
    ensures Answer(StoreIn(bs, nit, null), key) == if key == nit.key then Found(nit.val) else Answer(bs, key)
  {
    hide HashOf, Wf, Put, Find;
    PutStores(bs[Home(bs, nit.key)], nit, key);
  }

  /** Relocating an item: the copy takes its place if the table still holds the item, in a direct
      slot; if a newer item is there, or the item is chained, nothing changes.  Either way every
      key is answered as before. */
  lemma RelocateAnswers(bs: Buckets, refs: map<Item, nat>, nit: Item, it: Item, key: Key)
    requires TableOk(bs, refs) && CanStore(bs, refs, nit) && nit.key == it.key && nit.val == it.val
    ensures Answer(StoreIn(bs, nit, it), key) == Answer(bs, key)
    ensures Changed(bs, nit, it).taken <==> Lookup(bs, it.key) == it && Place(bs[Home(bs, it.key)], it.key, 0) < NITEMS
    ensures Changed(bs, nit, it).taken ==>
      Lookup(StoreIn(bs, nit, it), it.key) == nit && Changed(bs, nit, it).replaced == it
    ensures !Changed(bs, nit, it).taken ==> StoreIn(bs, nit, it) == bs
  {
    hide HashOf, Wf, Put, Find;
    PutCompares(bs[Home(bs, nit.key)], nit, it, key);
    PutCompares(bs[Home(bs, nit.key)], nit, it, it.key);
  }

  /** Every step answers every key as before, but for a SET of that key. */
  lemma StepAnswers(s: State, a: Step, key: Key)
    requires Inv(s) && Enabled(s, a)
    ensures |s.buckets| > 0 && |Next(s, a).buckets| > 0
    ensures Answer(Next(s, a).buckets, key) ==
      if a.Set? && a.nit.key == key then Found(a.nit.val) else Answer(s.buckets, key)
  {
    hide HashOf, TableOk, CountOk, MadeOk, InTable, Answer, StoreIn, Changed, Recount, Lookup;
    match a
    case Set(nit) => SetAnswers(s.buckets, s.refs, nit, key);
    case Relocate(i) =>
      CopyFacts(s.buckets, s.made, s.workers, s.cores, i);
      RelocateAnswers(s.buckets, s.refs, s.cores[i].cleaner.nit, s.cores[i].cleaner.it, key);
    case _ =>
  }

  lemma SetZero(s: State, a: Step, x: Item)
    requires Inv(s) && Enabled(s, a) && a.Set? && x in s.refs && s.refs[x] == 0
    ensures x in Next(s, a).refs && Next(s, a).refs[x] == 0
  {
    hide HashOf, TableOk, CountOk, MadeOk, CopyOk, InTable, StoreIn, Changed, Recount, Owed;
    CountFacts(s.buckets, s.refs, s.workers, Owed(s.cores));
    RecountZero(s.refs, a.nit, Changed(s.buckets, a.nit, null), x);
  }

  lemma RelocateZero(s: State, a: Step, x: Item)
    requires Inv(s) && Enabled(s, a) && a.Relocate? && x in s.refs && s.refs[x] == 0
    ensures x in Next(s, a).refs && Next(s, a).refs[x] == 0
  {
    hide HashOf, TableOk, CountOk, MadeOk, CopyOk, InTable, StoreIn, Changed, Recount, Owed;
    var c := s.cores[a.i].cleaner;
    CountFacts(s.buckets, s.refs, s.workers, Owed(s.cores));
    CopyOwed(s, a.i);
    RecountZero(s.refs, c.nit, Changed(s.buckets, c.nit, c.it), x);
  }

  lemma GetZero(s: State, a: Step, x: Item)
    requires Inv(s) && Enabled(s, a) && a.Get? && x in s.refs && s.refs[x] == 0
    ensures x in Next(s, a).refs && Next(s, a).refs[x] == 0
  {
    hide HashOf, TableOk, CountOk, MadeOk, CopyOk, InTable, Lookup, Owed;
    CountFacts(s.buckets, s.refs, s.workers, Owed(s.cores));
    Lookups(s.buckets, s.refs, a.key);
  }

  lemma OtherZero(s: State, a: Step, x: Item)
    requires Enabled(s, a) && !a.Set? && !a.Relocate? && !a.Get? && x in s.refs && s.refs[x] == 0
    ensures x in Next(s, a).refs && Next(s, a).refs[x] == 0
  {
    hide HashOf, CanStore;
  }

  /** A count that has fallen to zero, at which the item was freed, never rises again: what is
      freed is freed once. */
  lemma ZeroStays(s: State, a: Step, x: Item)
    requires Inv(s) && Enabled(s, a) && x in s.refs && s.refs[x] == 0
    ensures x in Next(s, a).refs && Next(s, a).refs[x] == 0
  {
    hide Inv, Enabled, Next;
    if a.Set? {
      SetZero(s, a, x);
    } else if a.Relocate? {
      RelocateZero(s, a, x);
    } else if a.Get? {
      GetZero(s, a, x);
    } else {
      OtherZero(s, a, x);
    }
  }

  lemma CopyOwed(s: State, i: nat)
    requires i < |s.cores| && s.cores[i].cleaner.Copied?
    ensures s.cores[i].cleaner.nit in Owed(s.cores)
  {
    OwedSet(s.cores, i, s.cores[i]);
    hide Owed;
    assert s.cores[i].cleaner.nit in Mine(s.cores[i]);
  }

  lemma RecountZero(refs: map<Item, nat>, nit: Item, c: Change, x: Item)
    requires nit in refs && refs[nit] > 0 && x in refs && refs[x] == 0
    ensures x in Recount(refs, nit, c) && Recount(refs, nit, c)[x] == 0
  {
  }

  // ----- every run -----

  predicate Runnable(s: State, steps: seq<Step>)
    decreases |steps|
  {
    steps == [] || (Enabled(s, steps[0]) && Runnable(Next(s, steps[0]), steps[1..]))
  }

  function After(s: State, steps: seq<Step>): State
    requires Runnable(s, steps)
    decreases |steps|
  {
    if steps == [] then s else After(Next(s, steps[0]), steps[1..])
  }

  /** What the last SET of the key wrote; before is the answer at the start. */
  function LastSet(before: Reply, steps: seq<Step>, key: Key): Reply
    decreases |steps|
  {
    if steps == [] then before
    else LastSet(if steps[0].Set? && steps[0].nit.key == key then Found(steps[0].nit.val) else before, steps[1..], key)
  }

  /** Over every interleaving of workers, maintenance and cleaning, a key is answered with the
      value of its last SET: cleaning is invisible. */
  lemma {:induction false} RunAnswers(s: State, steps: seq<Step>, key: Key)
    requires Inv(s) && Runnable(s, steps)
    ensures Inv(After(s, steps)) && |s.buckets| > 0 && |After(s, steps).buckets| > 0
    ensures Answer(After(s, steps).buckets, key) == LastSet(Answer(s.buckets, key), steps, key)
    decreases |steps|
  {
    hide Enabled, Next, Answer, TableOk, CountOk, MadeOk, CopyOk;
    if steps != [] {
      KeepInv(s, steps[0]);
      StepAnswers(s, steps[0], key);
      RunAnswers(Next(s, steps[0]), steps[1..], key);
    }
  }

  /** In every state a run from an empty store reaches: whoever holds a reference holds a live
      item, as item_ref and item_unref assert, and so does the table; and the count of every item
      is exactly the references there are to it: the table's, the workers', and those all cores
      have taken for cleaning. */
  lemma ReferencesExact(n: nat, k: nat, steps: seq<Step>, it: Item)
    requires n > 0 && Runnable(Init(n, k), steps)
    ensures var s := After(Init(n, k), steps);
      && |s.buckets| > 0
      && (it in s.workers || it in Owed(s.cores) ==> Counted(s.refs, it))
      && (it in s.refs && InTable(s.buckets, it) ==> s.refs[it] > 0)
      && (it in s.refs ==> s.refs[it] == (if InTable(s.buckets, it) then 1 else 0) + s.workers[it] + Owed(s.cores)[it])
  {
    InitInv(n, k);
    RunAnswers(Init(n, k), steps, []);
    hide Init, Runnable, After, TableOk, InTable, Owed;
    var s := After(Init(n, k), steps);
    CountFacts(s.buckets, s.refs, s.workers, Owed(s.cores));
  }

  /** When every clean_log has emptied its queue, none holds a reference any more: the counts are
      those of the table and the workers. */
  lemma CleaningBalanced(n: nat, k: nat, steps: seq<Step>, it: Item)
    requires n > 0 && Runnable(Init(n, k), steps)
    ensures var s := After(Init(n, k), steps);
      |s.buckets| > 0 && ((forall i :: 0 <= i < |s.cores| ==> s.cores[i] == Core([], Idle)) && it in s.refs ==>
        s.refs[it] == (if InTable(s.buckets, it) then 1 else 0) + s.workers[it])
  {
    hide Init, Runnable, After, InTable, Owed;
    ReferencesExact(n, k, steps, it);
    var s := After(Init(n, k), steps);
    if forall i :: 0 <= i < |s.cores| ==> s.cores[i] == Core([], Idle) {
      OwedNothing(s.cores);
    }
  }

  /** A freed item stays free for the rest of the run. */
  lemma {:induction false} FreedOnce(s: State, steps: seq<Step>, it: Item)
    requires Inv(s) && Runnable(s, steps) && it in s.refs && s.refs[it] == 0
    ensures it in After(s, steps).refs && After(s, steps).refs[it] == 0
    decreases |steps|
  {
    hide Enabled, Next, Inv;
    if steps != [] {
      ZeroStays(s, steps[0], it);
      KeepInv(s, steps[0]);
      FreedOnce(Next(s, steps[0]), steps[1..], it);
    }
  }
}
