/** What happens in the first two windows, from any state: when a step takes, moves or locks a page it
    should have left alone. */
module TieredImpatient {
  import opened Options
  import opened TieredState
  import opened TieredInv
  import opened TieredMain
  import opened TieredRoles
  import opened TieredFault
  import opened TieredRemove
  import opened TieredPlan
  import opened TieredWork
  import opened TieredMove
  import opened TieredLaws
  import opened TieredWindow

  // ----- runs of which every assertion holds -----

  predicate AllAsserted(c: Config, s: State, steps: seq<Step>)
    requires Runnable(c, s, steps)
    decreases |steps|
  {
    steps == [] || (Asserted(c, s, steps[0]) && AllAsserted(c, Next(c, s, steps[0]), steps[1..]))
  }

  lemma Before(c: Config, s: State, a: Step, rest: seq<Step>)
    requires Enabled(c, s, a) && Runnable(c, Next(c, s, a), rest)
    ensures Runnable(c, s, [a] + rest) && After(c, s, [a] + rest) == After(c, Next(c, s, a), rest)
    ensures Asserted(c, s, a) && AllAsserted(c, Next(c, s, a), rest) ==> AllAsserted(c, s, [a] + rest)
  {
    hide Enabled, Next, Asserted;
    assert ([a] + rest)[0] == a && ([a] + rest)[1..] == rest;
  }

  lemma {:induction false} Joined(c: Config, s: State, a: seq<Step>, b: seq<Step>)
    requires Runnable(c, s, a) && Runnable(c, After(c, s, a), b)
    ensures Runnable(c, s, a + b) && After(c, s, a + b) == After(c, After(c, s, a), b)
    ensures AllAsserted(c, s, a) && AllAsserted(c, After(c, s, a), b) ==> AllAsserted(c, s, a + b)
    decreases |a|
  {
    hide Enabled, Next, Asserted;
    if a == [] {
      assert a + b == b;
    } else {
      Joined(c, Next(c, s, a[0]), a[1..], b);
      Before(c, s, a[0], a[1..] + b);
      assert [a[0]] + (a[1..] + b) == a + b;
      assert (a + b)[0] == a[0] && (a + b)[1..] == a[1..] + b;
    }
  }

  // ----- a page is copied -----

  /** The job of sp is under way, and memory is in order as far as it is concerned. */
  ghost predicate Copying(c: Config, s: State, sp: Did)
  {
    && Runs(s, sp) && s.running[sp].Moving? && s.running[sp].copied <= c.words
    && var f, g := s.frame[sp], s.frame[Target(s.running[sp])];
       && f != g && f in s.mem && g in s.mem && |s.mem[f]| == c.words && |s.mem[g]| == c.words
       && Agree(s.mem[f], s.mem[g], s.running[sp].copied)
  }

  /** The rest of the page copied. */
  function Copied(c: Config, s: State, sp: Did): State
    requires Runs(s, sp) && s.running[sp].Moving? && s.frame[Target(s.running[sp])] in s.mem
  {
    var w := s.running[sp];
    s.(mem := s.mem[s.frame[sp] := s.mem[s.frame[Target(w)]]], running := s.running[sp := Moving(w.job, w.up, c.words)])
  }

  lemma CopiedNone(c: Config, s: State, sp: Did)
    requires Copying(c, s, sp) && s.running[sp].copied == c.words
    ensures Copied(c, s, sp) == s
  {
    assert s.mem[s.frame[sp]] == s.mem[s.frame[Target(s.running[sp])]];
  }

  lemma CopiedNext(c: Config, s: State, sp: Did)
    requires Copying(c, s, sp) && s.running[sp].copied < c.words
    ensures CanCopy(c, s, sp) && Copying(c, Copy(c, s, sp), sp)
    ensures Copied(c, Copy(c, s, sp), sp) == Copied(c, s, sp)
    ensures Copy(c, s, sp).running[sp].copied == s.running[sp].copied + 1
    ensures Crossing(c, s, sp) <==> Crossing(c, Copy(c, s, sp), sp)
  {
    CopyingNext(c, s, sp);
    CopiedSame(c, s, sp);
    CrossingNext(c, s, sp);
    hide Copying, Copied, Crossing;
  }

  lemma CopyingNext(c: Config, s: State, sp: Did)
    requires Copying(c, s, sp) && s.running[sp].copied < c.words
    ensures CanCopy(c, s, sp) && Copying(c, Copy(c, s, sp), sp)
    ensures Copy(c, s, sp).running[sp].copied == s.running[sp].copied + 1
  {
    var s' := Copy(c, s, sp);
    var w := s.running[sp];
    assert s'.running[sp] == Moving(w.job, w.up, w.copied + 1) && Target(s'.running[sp]) == Target(w);
  }

  lemma CopiedSame(c: Config, s: State, sp: Did)
    requires Copying(c, s, sp) && CanCopy(c, s, sp) && Copying(c, Copy(c, s, sp), sp)
    ensures Copied(c, Copy(c, s, sp), sp) == Copied(c, s, sp)
  {
    hide Agree;
    var s' := Copy(c, s, sp);
    var w := s.running[sp];
    assert s'.running[sp] == Moving(w.job, w.up, w.copied + 1) && Target(s'.running[sp]) == Target(w);
    var f, g := s.frame[sp], s.frame[Target(w)];
    assert s'.mem[g] == s.mem[g];
    assert s'.mem[f := s.mem[g]] == s.mem[f := s.mem[g]];
    assert s'.running[sp := Moving(w.job, w.up, c.words)] == s.running[sp := Moving(w.job, w.up, c.words)];
  }

  lemma CrossingNext(c: Config, s: State, sp: Did)
    requires CanCopy(c, s, sp) && Runs(Copy(c, s, sp), sp) && Copy(c, s, sp).running[sp].Moving?
    ensures Crossing(c, s, sp) <==> Crossing(c, Copy(c, s, sp), sp)
  {
    hide AllFrames;
    var w := s.running[sp];
    assert Copy(c, s, sp).running[sp] == Moving(w.job, w.up, w.copied + 1);
  }

  lemma {:induction false} CopyAll(c: Config, s: State, sp: Did) returns (steps: seq<Step>)
    requires Copying(c, s, sp)
    ensures Runnable(c, s, steps) && After(c, s, steps) == Copied(c, s, sp)
    ensures Crossing(c, s, sp) ==> AllAsserted(c, s, steps)
    decreases c.words - s.running[sp].copied
  {
    hide Copied, Crossing, Copy, CanCopy, Agree;
    if s.running[sp].copied == c.words {
      CopiedNone(c, s, sp);
      steps := [];
    } else {
      CopiedNext(c, s, sp);
      CopyStep(c, s, sp);
      steps := CopyAll(c, Copy(c, s, sp), sp);
      Before(c, s, WorkCopy(sp), steps);
      steps := [WorkCopy(sp)] + steps;
    }
  }

  lemma CopyStep(c: Config, s: State, sp: Did)
    requires CanCopy(c, s, sp)
    ensures Enabled(c, s, WorkCopy(sp)) && Next(c, s, WorkCopy(sp)) == Copy(c, s, sp)
    ensures Runs(s, sp) && s.running[sp].Moving? && (Asserted(c, s, WorkCopy(sp)) <==> Crossing(c, s, sp))
  {
  }

  /** Copied, and mapped to its new frame. */
  function Moved(c: Config, s: State, sp: Did): State
    requires Runs(s, sp) && s.running[sp].Moving? && s.frame[Target(s.running[sp])] in s.mem
  {
    Remap(c, Copied(c, s, sp), sp)
  }

  /** From the moment a page is write-protected, it is moved in c.words + 1 steps. */
  lemma MoveAll(c: Config, s: State, sp: Did) returns (steps: seq<Step>)
    requires Copying(c, s, sp)
    ensures Runnable(c, s, steps) && After(c, s, steps) == Moved(c, s, sp)
    ensures Crossing(c, s, sp) ==> AllAsserted(c, s, steps)
  {
    hide Copied, Crossing, Remap, Agree;
    steps := CopyAll(c, s, sp);
    var t := Copied(c, s, sp);
    RemapStep(c, s, sp);
    Before(c, t, WorkRemap(sp), []);
    Joined(c, s, steps, [WorkRemap(sp)] + []);
    steps := steps + ([WorkRemap(sp)] + []);
  }

  lemma RemapStep(c: Config, s: State, sp: Did)
    requires Copying(c, s, sp)
    ensures var t := Copied(c, s, sp);
      && Enabled(c, t, WorkRemap(sp)) && Next(c, t, WorkRemap(sp)) == Remap(c, t, sp)
      && Runs(t, sp) && t.running[sp].Moving? && (Asserted(c, t, WorkRemap(sp)) <==> Crossing(c, t, sp))
      && (Crossing(c, t, sp) <==> Crossing(c, s, sp))
  {
    hide AllFrames;
    var t := Copied(c, s, sp);
    assert Target(t.running[sp]) == Target(s.running[sp]);
  }

  // ----- the second window -----

  /** Two descriptors that are not in the middle of a trade have frames of their own, with contents. */
  lemma FramesOfTwo(c: Config, s: State, d: Did, e: Did)
    requires Inv(c, s) && d in s.role && e in s.role && d != e
    requires (d in s.running ==> !s.running[d].Remapped?) && (e in s.running ==> !s.running[e].Remapped?)
    ensures d in s.frame && e in s.frame && s.frame[d] != s.frame[e]
    ensures s.frame[d] in s.mem && s.frame[e] in s.mem && |s.mem[s.frame[d]]| == c.words == |s.mem[s.frame[e]]|
    ensures s.frame[d] in AllFrames(c) && s.frame[e] in AllFrames(c)
  {
    hide PresentOk, ListOk, SparesOk, FaultOk, FreshOk, PagesOk, LogOk, RemovingOk, ToldOk, IndexOk, NamesOk,
      CountOk, PlanOk, Unaliased, TableOk, ReplicaOk, FreeTierOk, JobTiersOk, ColdOk, MapOk, MoveOk, CopyOk,
      AllFrames;
    assert Held(s.frame, s.running, d) == s.frame[d] && Held(s.frame, s.running, e) == s.frame[e];
  }

  lemma TargetNotSpare(c: Config, s: State, sp: Did)
    requires Inv(c, s) && sp in s.running
    ensures Sane(s.running[sp]) && Target(s.running[sp]) in s.role && Target(s.running[sp]) !in s.running
    ensures sp in s.role && s.role[sp] == Spare
  {
    hide PresentOk, ListOk, FaultOk, FreshOk, PagesOk, LogOk, RemovingOk, ToldOk, IndexOk, CountOk, PlanOk,
      Unaliased, TableOk, ReplicaOk, FramesOk, FreeTierOk, JobTiersOk, ColdOk, MapOk, MoveOk, MemOk, CopyOk,
      Private;
    TargetPrivate(s.role, s.queue, s.running, sp);
    SpareOwn(s.role, s.queue, s.running, sp);
    NotRunning(s.role, s.queue, s.running, Target(s.running[sp]));
  }

  lemma FaultingPresent(c: Config, s: State)
    requires Inv(c, s) && s.fault.Allocated?
    ensures s.fault.d in s.role && s.role[s.fault.d] == Faulting && s.fault.d in s.present
  {
    hide ListOk, SparesOk, FreshOk, PagesOk, LogOk, RemovingOk, ToldOk, IndexOk, NamesOk, CountOk, PlanOk,
      Unaliased, TableOk, ReplicaOk, FramesOk, FreeTierOk, JobTiersOk, ColdOk, MapOk, MoveOk, MemOk, CopyOk;
  }

  /** A migration thread is about to lock a page the fault thread has allocated, but not mapped yet. */
  predicate AtAllocated(s: State, sp: Did)
  {
    && AtPage(s, sp) && s.fault.Allocated? && s.fault.d == Target(s.running[sp])
    && s.va[s.fault.d] in s.table && s.fault.d !in s.migrating
  }

  /** Nothing but the write protection and the state of the job has changed. */
  lemma BeginCopying(c: Config, k: Config, s: State, sp: Did)
    requires Looser(c, k) && Inv(k, s) && CanBegin(c, s, sp)
    ensures Copying(c, Begin(c, s, sp), sp)
    ensures var d := Target(s.running[sp]); var t := Moved(c, Begin(c, s, sp), sp);
      && d in s.frame && sp in s.frame && s.frame[d] in s.mem && t.flat == s.flat
      && t.mem == s.mem[s.frame[sp] := s.mem[s.frame[d]]]
      && t.table == s.table[s.va[d] := Mapping(s.frame[sp], false)]
  {
    hide Inv, AllFrames;
    TargetNotSpare(k, s, sp);
    FramesOfTwo(k, s, sp, Target(s.running[sp]));
    var w := s.running[sp];
    assert Begin(c, s, sp).running[sp] == Moving(w.job, w.AtPromote?, 0);
  }

  lemma SpareUnmapped(c: Config, s: State, sp: Did)
    requires Inv(c, s) && AtPage(s, sp)
    ensures forall u :: u in s.table ==> s.table[u].frame != s.frame[sp]
  {
    hide Inv;
    TargetNotSpare(c, s, sp);
    forall u | u in s.table ensures s.table[u].frame != s.frame[sp] {
      FrameUnmapped(c, s, sp, u);
    }
  }

  /** One page shows other contents, in a frame nothing else is mapped to. */
  lemma ViewMoved(s: State, t: State, v: Va, f: Frame, x: Page)
    requires v in s.table && t.table == s.table[v := Mapping(f, false)] && t.mem == s.mem[f := x]
    requires forall u :: u in s.table ==> s.table[u].frame in s.mem && s.table[u].frame != f
    ensures View(t) == View(s)[v := x]
  {
    forall u | u in View(t) || u in View(s)[v := x]
      ensures u in View(t) && u in View(s)[v := x] && View(t)[u] == View(s)[v := x][u]
    {
      if u != v {
        assert t.table[u] == s.table[u];
      }
    }
    assert View(t).Keys == View(s)[v := x].Keys;
  }

  lemma FramesMapped(c: Config, s: State)
    requires Inv(c, s)
    ensures forall u :: u in s.table ==> s.table[u].frame in s.mem
    ensures s.flat.Keys == s.table.Keys
  {
    hide PresentOk, ListOk, SparesOk, FaultOk, FreshOk, PagesOk, LogOk, RemovingOk, ToldOk, IndexOk, NamesOk,
      CountOk, PlanOk, Unaliased, TableOk, ReplicaOk, FramesOk, FreeTierOk, JobTiersOk, ColdOk, MapOk, MoveOk,
      CopyOk, AllFrames;
  }

  /** From every state a patient run reaches with the second window closed: if a migration thread locks
      a page the fault thread has allocated, and moves it, the descriptor's old address then shows what
      was in its own frame.  So memory stays flat if and only if that is what was last written there. */
  lemma SecondWindow(c: Config, s: State, sp: Did) returns (steps: seq<Step>)
    requires c.removeLate && !c.moveLate && PatientlyReachable(c.(moveLate := true), s) && AtAllocated(s, sp)
    ensures s.frame[s.fault.d] in s.mem && s.va[s.fault.d] in s.flat
    ensures Runnable(c, s, steps) && After(c, s, steps).flat == s.flat
    ensures View(After(c, s, steps)) == s.flat[s.va[s.fault.d] := s.mem[s.frame[s.fault.d]]]
    ensures View(After(c, s, steps)) == s.flat <==> s.mem[s.frame[s.fault.d]] == s.flat[s.va[s.fault.d]]
  {
    hide *;
    var k := c.(moveLate := true);
    PatientInv(k, s);
    steps := MoveAllocated(c, k, s, sp);
    var x := s.mem[s.frame[s.fault.d]];
    assert s.flat[s.va[s.fault.d] := x][s.va[s.fault.d]] == x;
    if x == s.flat[s.va[s.fault.d]] {
      assert s.flat[s.va[s.fault.d] := x] == s.flat;
    }
  }

  lemma MoveAllocated(c: Config, k: Config, s: State, sp: Did) returns (steps: seq<Step>)
    requires k == c.(moveLate := true) && !c.moveLate && Inv(k, s) && AtAllocated(s, sp)
    ensures s.fault.Allocated? && s.fault.d in s.frame && s.frame[s.fault.d] in s.mem
    ensures s.fault.d in s.va && s.va[s.fault.d] in s.flat
    ensures Runnable(c, s, steps) && After(c, s, steps).flat == s.flat
    ensures View(After(c, s, steps)) == s.flat[s.va[s.fault.d] := s.mem[s.frame[s.fault.d]]]
  {
    hide Inv, View, Moved, Copying, Begin, Runnable, After, Enabled, Next, CanBegin;
    FaultingPresent(k, s);
    BeginEnabled(c, s, sp);
    BeginCopying(c, k, s, sp);
    var b := Begin(c, s, sp);
    steps := MoveAll(c, b, sp);
    Before(c, s, WorkBegin(sp), steps);
    FramesMapped(k, s);
    SpareUnmapped(k, s, sp);
    ViewMoved(s, After(c, b, steps), s.va[s.fault.d], s.frame[sp], s.mem[s.frame[s.fault.d]]);
    ViewFlat(k, s);
    steps := [WorkBegin(sp)] + steps;
  }

  lemma BeginEnabled(c: Config, s: State, sp: Did)
    requires !c.moveLate && AtAllocated(s, sp) && s.fault.d in s.present
    ensures CanBegin(c, s, sp) && Enabled(c, s, WorkBegin(sp)) && Next(c, s, WorkBegin(sp)) == Begin(c, s, sp)
    ensures Target(s.running[sp]) == s.fault.d
  {
    hide Begin;
  }

  // ----- the first window: a swap takes a page that is still mapped -----

  /** The planner swaps with a free page that is still being removed; nothing else is queued, a migration
      thread is free, and the cold page is there and not locked. */
  predicate SwapsEarly(c: Config, s: State)
  {
    && CanSwap(c, s) && Takes(s, PlanSwap) && s.queue == [] && |s.running| < c.threads
    && ColdPage(s) in s.present && ColdPage(s) !in s.migrating
  }

  /** The two pages have addresses and frames of their own. */
  lemma SwapPages(c: Config, s: State)
    requires Inv(c, s) && SwapsEarly(c, s)
    ensures var sp, cold := Last(s.nvmFree), ColdPage(s);
      && sp in s.role && cold in s.role && sp != cold && sp !in s.running && cold !in s.running
      && Backed(s.role[sp]) && Backed(s.role[cold]) && s.role[cold] != Faulting && s.va[sp] != s.va[cold]
      && Tiered(s.frame, sp, Nvm)
  {
    hide PresentOk, ListOk, SparesOk, FaultOk, FreshOk, PagesOk, LogOk, RemovingOk, ToldOk, IndexOk, NamesOk,
      CountOk, PlanOk, TableOk, ReplicaOk, FramesOk, FreeTierOk, JobTiersOk, ColdOk, MapOk, MoveOk, MemOk,
      CopyOk;
    var sp, cold := Last(s.nvmFree), ColdPage(s);
    AheadFacts(s, s.policy.q);
    PresentBacked(s.role, s.present, cold);
    RemovingFacts(s.va, s.role, s.removing, sp);
    NotRunning(s.role, s.queue, s.running, sp);
    NotRunning(s.role, s.queue, s.running, cold);
    ListPop(s.role, s.nvmFree, Nvm, Spare);
    ListedTier(s.frame, s.role, sp, Nvm);
    ColdUnlisted(s.role[cold], s.role[sp]);
  }

  lemma ListedTier(frame: map<Did, Frame>, role: map<Did, Role>, d: Did, t: Tier)
    requires FreeTierOk(frame, role) && d in role && Listed(role[d], t)
    ensures Tiered(frame, d, t)
  {
  }

  lemma ColdUnlisted(r: Role, q: Role)
    requires InUse(r) && (r == Faulting || Backed(r)) && Listed(q, Nvm) && Going(q)
    ensures Backed(r) && r != Faulting && r != q && Backed(q)
  {
  }

  /** The job on its way: the swap, its start, and the page locked. */
  function SwapBegun(c: Config, s: State): State
    requires CanSwap(c, s) && CanStart(c, Swap(c, s)) && CanBegin(c, Start(c, Swap(c, s)), Last(s.nvmFree))
  {
    Begin(c, Start(c, Swap(c, s)), Last(s.nvmFree))
  }

  lemma SwapIs(c: Config, s: State)
    requires CanSwap(c, s) && CanStart(c, Swap(c, s)) && CanBegin(c, Start(c, Swap(c, s)), Last(s.nvmFree))
    ensures SwapBegun(c, s) == Begin(c, Start(c, Swap(c, s)), Last(s.nvmFree))
  {
    hide Swap, Start, Begin;
  }

  lemma SwapStarts(c: Config, s: State)
    requires SwapsEarly(c, s) && Last(s.nvmFree) in s.role && Last(s.nvmFree) in s.va && Last(s.nvmFree) in s.frame
    ensures CanStart(c, Swap(c, s))
    ensures var sp := Last(s.nvmFree); var t := Start(c, Swap(c, s));
      && t == s.(nvmFree := Front(s.nvmFree), role := s.role[sp := Spare], jobs := s.jobs + 1, policy := t.policy,
                 running := s.running[sp := AtDemote(Job(Some(ColdPage(s)), HotPage(s), sp))])
  {
    assert Swap(c, s).queue == [Job(Some(ColdPage(s)), HotPage(s), Last(s.nvmFree))];
    assert Front(Swap(c, s).queue) == s.queue;
  }

  lemma SwapBegins(c: Config, s: State)
    requires c.moveLate && c.removeLate && Inv(c, s) && SwapsEarly(c, s)
    ensures CanStart(c, Swap(c, s)) && CanBegin(c, Start(c, Swap(c, s)), Last(s.nvmFree))
    ensures var sp, cold := Last(s.nvmFree), ColdPage(s); var t := Start(c, Swap(c, s));
      && AtPage(t, sp) && t.running[sp].AtDemote? && Target(t.running[sp]) == cold && t.va == s.va && t.table == s.table
      && t.frame == s.frame && t.mem == s.mem && t.flat == s.flat
  {
    hide Inv, Start, Swap, CanStart;
    SwapPages(c, s);
    TwoKnown(c, s);
    SwapStarts(c, s);
    ColdMapped(c, s);
  }

  lemma TwoKnown(c: Config, s: State)
    requires Inv(c, s)
    ensures s.role.Keys == s.va.Keys == s.frame.Keys
  {
    hide PresentOk, ListOk, SparesOk, FaultOk, FreshOk, PagesOk, LogOk, RemovingOk, ToldOk, IndexOk, NamesOk,
      CountOk, PlanOk, Unaliased, TableOk, ReplicaOk, FramesOk, FreeTierOk, JobTiersOk, ColdOk, MoveOk, MemOk,
      CopyOk;
  }

  lemma ColdMapped(c: Config, s: State)
    requires Inv(c, s) && Between(s) && ColdPage(s) in s.role && Backed(s.role[ColdPage(s)])
    ensures s.va[ColdPage(s)] in s.table && !(s.fault.Allocated? && s.fault.d == ColdPage(s)) && s.va[ColdPage(s)] > 0
  {
    hide PresentOk, ListOk, SparesOk, FreshOk, PagesOk, LogOk, RemovingOk, ToldOk, IndexOk, NamesOk, CountOk,
      PlanOk, Unaliased, TableOk, ReplicaOk, FramesOk, FreeTierOk, JobTiersOk, ColdOk, MapOk, MoveOk, MemOk,
      CopyOk;
    MapFrame(s.va, s.frame, s.role, s.table, ColdPage(s));
    AddressSet(s.va, s.role, s.pages, s.fault, ColdPage(s));
  }

  /** Where the moved page ends up: in the frame of a page that is still mapped. */
  lemma SwapMoves(c: Config, s: State)
    requires c.moveLate && c.removeLate && Inv(c, s) && SwapsEarly(c, s)
    ensures var sp, cold := Last(s.nvmFree), ColdPage(s);
      && CanStart(c, Swap(c, s)) && CanBegin(c, Start(c, Swap(c, s)), sp)
      && Copying(c, SwapBegun(c, s), sp) && Crossing(c, SwapBegun(c, s), sp)
      && sp in s.frame && cold in s.frame && s.frame[sp] in s.mem && s.frame[cold] in s.mem
         && |s.mem[s.frame[cold]]| == c.words
    ensures var sp, cold := Last(s.nvmFree), ColdPage(s); var t := Moved(c, SwapBegun(c, s), sp);
      && t.flat == s.flat && t.mem == s.mem[s.frame[sp] := s.mem[s.frame[cold]]]
      && t.table == s.table[s.va[cold] := Mapping(s.frame[sp], false)]
  {
    hide Inv, Swap, Start, CanStart, AllFrames;
    SwapPages(c, s);
    SwapBegins(c, s);
    ColdMapped(c, s);
    var sp, cold := Last(s.nvmFree), ColdPage(s);
    FramesOfTwo(c, s, sp, cold);
    var u := Start(c, Swap(c, s));
    assert Begin(c, u, sp).running[sp] == Moving(u.running[sp].job, false, 0);
  }

  /** The steps up to the page being mapped to its new frame. */
  lemma SwapRun(c: Config, s: State) returns (steps: seq<Step>)
    requires c.moveLate && c.removeLate && Inv(c, s) && SwapsEarly(c, s)
    ensures CanStart(c, Swap(c, s)) && CanBegin(c, Start(c, Swap(c, s)), Last(s.nvmFree))
    ensures Copying(c, SwapBegun(c, s), Last(s.nvmFree))
    ensures Runnable(c, s, steps) && AllAsserted(c, s, steps) && steps != [] && steps[0] == PlanSwap
    ensures After(c, s, steps) == Moved(c, SwapBegun(c, s), Last(s.nvmFree))
  {
    var sp := Last(s.nvmFree);
    SwapMoves(c, s);
    SwapBegins(c, s);
    ColdSet(c, s);
    hide *;
    SwapStep(c, s);
    StartStep(c, Swap(c, s));
    BeginStep(c, Start(c, Swap(c, s)), sp);
    SwapIs(c, s);
    steps := MoveAll(c, SwapBegun(c, s), sp);
    Before(c, Start(c, Swap(c, s)), WorkBegin(sp), steps);
    steps := [WorkBegin(sp)] + steps;
    Before(c, Swap(c, s), WorkStart, steps);
    steps := [WorkStart] + steps;
    Before(c, s, PlanSwap, steps);
    steps := [PlanSwap] + steps;
  }

  lemma ColdSet(c: Config, s: State)
    requires Inv(c, s) && SwapsEarly(c, s)
    ensures s.va[ColdPage(s)] > 0
  {
    hide Inv;
    SwapPages(c, s);
    ColdMapped(c, s);
  }

  lemma SwapStep(c: Config, s: State)
    requires SwapsEarly(c, s) && s.va[ColdPage(s)] > 0
    ensures Enabled(c, s, PlanSwap) && Next(c, s, PlanSwap) == Swap(c, s) && Asserted(c, s, PlanSwap)
  {
    hide Swap;
  }

  lemma StartStep(c: Config, s: State)
    requires CanStart(c, s)
    ensures Enabled(c, s, WorkStart) && Next(c, s, WorkStart) == Start(c, s) && Asserted(c, s, WorkStart)
  {
    hide Start;
  }

  lemma BeginStep(c: Config, s: State, sp: Did)
    requires CanBegin(c, s, sp) && s.va[Target(s.running[sp])] > 0
    ensures Enabled(c, s, WorkBegin(sp)) && Next(c, s, WorkBegin(sp)) == Begin(c, s, sp)
      && Asserted(c, s, WorkBegin(sp))
  {
    hide Begin;
  }

  lemma WriteStep(c: Config, s: State, v: Va, i: nat, x: int)
    requires CanWrite(c, s, v, i)
    ensures Enabled(c, s, AppWrite(v, i, x)) && Next(c, s, AppWrite(v, i, x)) == Write(c, s, v, i, x)
    ensures Asserted(c, s, AppWrite(v, i, x))
  {
    hide Write;
  }

  /** What is mapped where a swap takes a page that is still being removed. */
  lemma SwapMapped(c: Config, s: State)
    requires Inv(c, s) && SwapsEarly(c, s)
    ensures Last(s.nvmFree) in s.va
    ensures var sp, cold := Last(s.nvmFree), ColdPage(s); var u, v := s.va[cold], s.va[sp];
      && sp in s.frame && cold in s.frame && u != v && u in s.table && v in s.table && s.table[v].frame == s.frame[sp]
      && u in s.flat && v in s.flat && |s.flat[u]| == c.words == |s.flat[v]|
  {
    hide PresentOk, ListOk, SparesOk, FaultOk, FreshOk, PagesOk, LogOk, RemovingOk, ToldOk, IndexOk, NamesOk,
      CountOk, PlanOk, Unaliased, TableOk, ReplicaOk, FramesOk, FreeTierOk, JobTiersOk, ColdOk, MapOk, MoveOk,
      CopyOk, AllFrames;
    SwapPages(c, s);
    MapFrame(s.va, s.frame, s.role, s.table, ColdPage(s));
    MapFrame(s.va, s.frame, s.role, s.table, Last(s.nvmFree));
  }

  /** A store to one of two pages in the same frame shows in the other. */
  lemma SharedWrite(c: Config, s: State, t: State, u: Va, v: Va, f: Frame, i: nat, x: int)
    requires u != v && u in s.table && v in s.table && s.table[v].frame == f && i < c.words
    requires u in s.flat && v in s.flat && |s.flat[u]| == c.words
    requires f in t.mem && |t.mem[f]| == c.words
    requires t.table == s.table[u := Mapping(f, false)] && t.flat == s.flat
    ensures CanWrite(c, t, u, i)
    ensures var t' := Write(c, t, u, i, x);
      && u in t'.table && v in t'.table && t'.table[u].frame == f == t'.table[v].frame
      && f in t'.mem && |t'.mem[f]| == c.words && t'.mem[f][i] == x && v in t'.flat && t'.flat[v] == s.flat[v]
  {
  }

  /** From every state a patient run reaches in which the planner swaps with a page that is still being
      removed: every assertion holds on the way, and then two pages are in one frame, so what is stored
      to one is read from the other. */
  lemma SwapDoubles(c: Config, s: State, i: nat, x: int) returns (steps: seq<Step>)
    requires c.moveLate && c.removeLate && PatientlyReachable(c, s) && SwapsEarly(c, s) && i < c.words
    ensures Runnable(c, s, steps) && AllAsserted(c, s, steps) && steps != [] && steps[0] == PlanSwap
    ensures Last(s.nvmFree) in s.va
    ensures var t, u, v := After(c, s, steps), s.va[ColdPage(s)], s.va[Last(s.nvmFree)];
      && u != v && u in t.table && v in t.table && t.table[u].frame == t.table[v].frame
      && t.table[v].frame in t.mem && |t.mem[t.table[v].frame]| == c.words && t.mem[t.table[v].frame][i] == x
      && v in s.flat && v in t.flat && t.flat[v] == s.flat[v]
  {
    hide PatientlyReachable, Inv, Runnable, After, AllAsserted, Moved, Copying, Write, Enabled, Next, Asserted,
      Takes, CanWrite, CanStart, CanBegin, Swap, Start;
    PatientInv(c, s);
    steps := SwapRun(c, s);
    SwapMapped(c, s);
    SwapMoves(c, s);
    var t, u := After(c, s, steps), s.va[ColdPage(s)];
    SharedWrite(c, s, t, u, s.va[Last(s.nvmFree)], s.frame[Last(s.nvmFree)], i, x);
    WriteStep(c, t, u, i, x);
    NoSteps(c, Next(c, t, AppWrite(u, i, x)));
    Before(c, t, AppWrite(u, i, x), []);
    Joined(c, s, steps, [AppWrite(u, i, x)] + []);
    steps := steps + ([AppWrite(u, i, x)] + []);
  }

  lemma NoSteps(c: Config, s: State)
    ensures Runnable(c, s, []) && After(c, s, []) == s && AllAsserted(c, s, [])
  {
  }

  // ----- the first window: a page is moved whose free entry has been drained -----

  /** Free lists hold descriptors of their own tier: what pebs_allocate_page asserts. */
  ghost predicate OwnTiers(s: State)
  {
    forall d, t :: Free(s, d, t) ==> d in s.frame && s.frame[d].tier == t
  }

  lemma DrainedEarly(s: State, d: Did)
    requires Core(s) && Drained(s, d)
    ensures d in s.role && s.role[d].Early?
  {
    hide PresentOk, ListOk, SparesOk, FaultOk, FreshOk, PagesOk, ToldOk, IndexOk, NamesOk, CountOk, PlanOk,
      Unaliased, TableOk, ReplicaOk, ColdOk;
  }

  lemma DrainedListed(c: Config, s: State, d: Did) returns (t: Tier)
    requires Inv(c, s) && Drained(s, d)
    ensures Free(s, d, t) && d in s.frame && s.frame[d].tier == t
  {
    hide Inv, Core, Drained;
    InvCore(c, s);
    DrainedEarly(s, d);
    t := s.role[d].tier;
    FreeIff(c, s, d);
    match t {
      case Dram =>
      case Nvm =>
    }
    FreeInTier(c, s, d, t);
  }

  lemma RemapLists(c: Config, s: State, sp: Did)
    requires CanRemap(c, s, sp)
    ensures Enabled(c, s, WorkRemap(sp)) && Next(c, s, WorkRemap(sp)) == Remap(c, s, sp)
    ensures var t, d := Remap(c, s, sp), Target(s.running[sp]);
      && t.dramFree == s.dramFree && t.nvmFree == s.nvmFree && t.removing == s.removing && t.log == s.log
      && d in t.frame && t.frame[d] == s.frame[sp]
  {
  }

  lemma PatientTiers(c: Config, s: State)
    requires Inv(c, s)
    ensures OwnTiers(s)
  {
    hide Inv, Free;
    forall d, t | Free(s, d, t) ensures d in s.frame && s.frame[d].tier == t {
      FreeInTier(c, s, d, t);
    }
  }

  /** From every state a patient run reaches, mapping a page to its new frame leaves each descriptor on
      the free list of its own tier if and only if the free entry of that page has not been drained. */
  lemma StrayMisplaces(c: Config, s: State, sp: Did)
    requires c.moveLate && c.removeLate && PatientlyReachable(c, s) && CanRemap(c, s, sp)
    ensures Enabled(c, s, WorkRemap(sp))
    ensures OwnTiers(Next(c, s, WorkRemap(sp))) <==> !Drained(s, Target(s.running[sp]))
  {
    PatientInv(c, s);
    RemapLists(c, s, sp);
    if Drained(s, Target(s.running[sp])) {
      StrayOff(c, s, sp);
    } else {
      StrayNot(c, s, sp);
    }
  }

  lemma StrayNot(c: Config, s: State, sp: Did)
    requires c.moveLate && c.removeLate && Inv(c, s) && CanRemap(c, s, sp) && !Drained(s, Target(s.running[sp]))
    ensures OwnTiers(Remap(c, s, sp))
  {
    hide Inv, OwnTiers, CanRemap, Remap, Drained;
    KeepRemap(c, s, sp);
    PatientTiers(c, Remap(c, s, sp));
  }

  lemma StrayOff(c: Config, s: State, sp: Did)
    requires Inv(c, s) && CanRemap(c, s, sp) && Drained(s, Target(s.running[sp]))
    ensures !OwnTiers(Remap(c, s, sp))
    ensures var d, t := Target(s.running[sp]), if s.running[sp].up then Nvm else Dram;
      Free(s, d, t) && d in Remap(c, s, sp).frame && Remap(c, s, sp).frame[d].tier != t
  {
    hide Inv, AllFrames;
    var d := Target(s.running[sp]);
    var t := DrainedListed(c, s, d);
    MigrationTiers(c, s, sp);
    RemapLists(c, s, sp);
    assert Free(Remap(c, s, sp), d, t);
  }

  /** The move is finished. */
  function Settled(c: Config, s: State, sp: Did): State
    requires CanRemap(c, s, sp)
  {
    var t := Remap(c, s, sp);
    if s.running[sp].up then ReleaseUp(t, sp) else ReleaseDown(t, sp)
  }

  function Release(s: State, sp: Did): Step
    requires sp in s.running && s.running[sp].Moving?
  {
    if s.running[sp].up then WorkReleaseUp(sp) else WorkReleaseDown(sp)
  }

  lemma SettledBy(c: Config, s: State, sp: Did)
    requires CanRemap(c, s, sp)
    ensures var t, a := Remap(c, s, sp), Release(s, sp); Enabled(c, t, a) && Next(c, t, a) == Settled(c, s, sp)
  {
    var t := Remap(c, s, sp);
    assert Target(t.running[sp]) == Target(s.running[sp]);
  }

  lemma SettledIs(c: Config, s: State, sp: Did)
    requires CanRemap(c, s, sp) && Target(s.running[sp]) != sp
    ensures var t, d := Settled(c, s, sp), Target(s.running[sp]);
      && d !in t.migrating && t.removing == s.removing && d in t.frame && t.frame[d] == s.frame[sp]
      && (Known(s, d) ==> Known(t, d))
      && (forall e :: e in s.dramFree ==> e in t.dramFree) && (forall e :: e in s.nvmFree ==> e in t.nvmFree)
  {
    var t := Remap(c, s, sp);
    assert Target(t.running[sp]) == Target(s.running[sp]);
    assert t.running[sp].left == s.frame[Target(s.running[sp])];
  }

  lemma ClearsUp(c: Config, s: State, d: Did)
    requires CanClear(s, d)
    ensures Enabled(c, s, RemoveClear(d)) && Next(c, s, RemoveClear(d)) == Clear(s, d)
    ensures d !in Clear(s, d).removing && Clear(s, d).frame == s.frame
    ensures Clear(s, d).dramFree == s.dramFree && Clear(s, d).nvmFree == s.nvmFree
  {
  }

  /** From every such state: when the move is finished, and the removal too, the descriptor is on the
      free list of the wrong tier, with nothing to tell. */
  lemma StrayLasts(c: Config, s: State, sp: Did) returns (steps: seq<Step>)
    requires c.moveLate && c.removeLate && PatientlyReachable(c, s) && CanRemap(c, s, sp)
    requires Drained(s, Target(s.running[sp]))
    ensures Runnable(c, s, steps)
    ensures var t, d, tier := After(c, s, steps), Target(s.running[sp]), if s.running[sp].up then Nvm else Dram;
      Free(t, d, tier) && d in t.frame && t.frame[d].tier != tier && d !in t.removing
  {
    hide PatientlyReachable, Inv, Enabled, Next, Runnable, After, Remap, Settled, Release, Clear;
    PatientInv(c, s);
    var d := Target(s.running[sp]);
    TargetNotSpare(c, s, sp);
    StrayOff(c, s, sp);
    RemapLists(c, s, sp);
    SettledBy(c, s, sp);
    SettledIs(c, s, sp);
    ClearsUp(c, Settled(c, s, sp), d);
    NoSteps(c, Clear(Settled(c, s, sp), d));
    Before(c, Settled(c, s, sp), RemoveClear(d), []);
    steps := [RemoveClear(d)] + [];
    Before(c, Remap(c, s, sp), Release(s, sp), steps);
    steps := [Release(s, sp)] + steps;
    Before(c, s, WorkRemap(sp), steps);
    steps := [WorkRemap(sp)] + steps;
  }

  /** And when it is allocated from there, the assertion about its tier fails, though its removal is
      over. */
  lemma MisplacedFails(c: Config, s: State, d: Did, v: Va)
    requires d in s.frame && d !in s.removing
    ensures s.frame[d].tier == Nvm && Enabled(c, s, FaultAllocDram(v)) && Last(s.dramFree) == d ==>
      !Takes(s, FaultAllocDram(v)) && !Asserted(c, s, FaultAllocDram(v))
    ensures s.frame[d].tier == Dram && Enabled(c, s, FaultAllocNvm(v)) && Last(s.nvmFree) == d ==>
      !Takes(s, FaultAllocNvm(v)) && !Asserted(c, s, FaultAllocNvm(v))
  {
  }
}
