/** Every run of the tiered-memory manager: what its reachable states have in common. */
module TieredMain {
  import opened Options
  import opened TieredState
  import opened TieredInv
  import TieredFault
  import TieredRemove
  import TieredPlan
  import TieredWork
  import TieredMove

  // ----- runs -----

  /** Every step of the run is enabled where it is taken. */
  predicate Runnable(c: Config, s: State, steps: seq<Step>)
    decreases |steps|
  {
    steps == [] || (Enabled(c, s, steps[0]) && Runnable(c, Next(c, s, steps[0]), steps[1..]))
  }

  function After(c: Config, s: State, steps: seq<Step>): State
    requires Runnable(c, s, steps)
    decreases |steps|
  {
    if steps == [] then s else After(c, Next(c, s, steps[0]), steps[1..])
  }

  // ----- the initial state -----

  lemma InitLists(c: Config)
    ensures ListOk(Init(c).role, Init(c).dramFree, Dram)
    ensures ListOk(Init(c).role, Init(c).nvmFree, Nvm)
  {
    var s := Init(c);
    forall d | d in s.role && s.role[d] == FreeIn(Dram) ensures d in s.dramFree {
      assert s.dramFree[c.dram - 1 - d] == d;
    }
    forall d | d in s.role && s.role[d] == FreeIn(Nvm) ensures d in s.nvmFree {
      assert s.nvmFree[c.dram + c.nvm - 1 - d] == d;
    }
  }

  lemma InitColumns(c: Config)
    ensures Init(c).role.Keys == Init(c).va.Keys == Init(c).frame.Keys
    ensures forall d :: d in Init(c).role ==> d in Init(c).frame && Init(c).role[d] == FreeIn(Init(c).frame[d].tier)
    ensures forall d: Did :: d in Init(c).frame <==> d < c.dram + c.nvm
    ensures forall d :: d in Init(c).frame ==> Init(c).frame[d] == InitFrame(c, d)
  {
    var s := Init(c);
    assert s.role.Keys == s.frame.Keys;
    assert s.va.Keys == s.frame.Keys;
  }

  lemma FrameOf(c: Config, f: Frame)
    ensures f in AllFrames(c) <==> f.off < if f.tier == Dram then c.dram else c.nvm
  {
  }

  lemma InitHeld(c: Config, d: Did)
    requires d in Init(c).frame
    ensures Held(Init(c).frame, map[], d) == InitFrame(c, d) && InitFrame(c, d) in AllFrames(c)
  {
    InitColumns(c);
    hide Init, AllFrames;
    FrameOf(c, InitFrame(c, d));
  }

  lemma InitOnto(c: Config, f: Frame) returns (d: Did)
    requires f in AllFrames(c)
    ensures d in Init(c).frame && InitFrame(c, d) == f
  {
    FrameOf(c, f);
    InitColumns(c);
    hide Init, AllFrames;
    d := if f.tier == Dram then f.off else c.dram + f.off;
  }

  lemma InitApart(c: Config, d: Did, e: Did)
    requires d != e
    ensures InitFrame(c, d) != InitFrame(c, e)
  {
  }

  lemma InitFrames(c: Config)
    ensures FramesOk(c, Init(c).role, Init(c).frame, map[])
  {
    var role, frame := Init(c).role, Init(c).frame;
    InitColumns(c);
    hide *;
    forall d | d in frame ensures Held(frame, map[], d) == InitFrame(c, d) && InitFrame(c, d) in AllFrames(c) {
      InitHeld(c, d);
    }
    forall d, e | d in frame && e in frame && d != e ensures Held(frame, map[], d) != Held(frame, map[], e) {
      InitApart(c, d, e);
    }
    forall f | f in AllFrames(c) ensures exists d :: d in frame && Held(frame, map[], d) == f {
      var d := InitOnto(c, f);
      assert Held(frame, map[], d) == f;
    }
    TieredMove.FramesMake(c, role, frame, map[]);
  }

  lemma InitMem(c: Config)
    ensures MemOk(c, Init(c).mem, map[], map[])
  {
    hide AllFrames;
  }

  /** With every descriptor free and nothing under way, most groups say nothing. */
  lemma AllFree(va: map<Did, Va>, role: map<Did, Role>)
    requires role.Keys == va.Keys && forall d :: d in role ==> role[d].FreeIn?
    ensures PresentOk(role, {}) && SparesOk(role, [], map[]) && FaultOk(role, Idle) && FreshOk(va, role, Idle)
    ensures PagesOk(va, role, map[], Idle) && LogOk(role, []) && IndexOk(va, role, map[])
    ensures RemovingOk(va, role, map[]) && ToldOk(va, role, map[], Idle)
    ensures Unaliased(va, role) && TableOk(va, role, map[])
  {
  }

  lemma NoWork(c: Config, va: map<Did, Va>, frame: map<Did, Frame>, role: map<Did, Role>, mem: map<Frame, Page>)
    requires role.Keys == va.Keys == frame.Keys && forall d :: d in role ==> role[d].FreeIn?
    ensures MapOk(va, frame, role, map[]) && MoveOk(c, va, role, {}, map[], map[]) && CopyOk(frame, map[], mem)
    ensures JobTiersOk(frame, [], map[]) && ColdOk(frame, Draining)
    ensures NamesOk(role, [], map[]) && CountOk([], map[], 0, 0)
    ensures PlanOk(map[], [], map[], Draining) && ReplicaOk(va, map[], map[], [])
  {
  }

  lemma InitInv(c: Config)
    ensures Inv(c, Init(c))
  {
    hide PresentOk, ListOk, SparesOk, FaultOk, FreshOk, PagesOk, LogOk, RemovingOk, ToldOk, IndexOk, NamesOk,
      CountOk, PlanOk, Unaliased, TableOk, ReplicaOk, FramesOk, FreeTierOk, JobTiersOk, ColdOk, MapOk, MoveOk,
      MemOk, CopyOk, AllFrames, InitFrame;
    var s := Init(c);
    InitLists(c);
    InitFrames(c);
    InitMem(c);
    InitColumns(c);
    AllFree(s.va, s.role);
    NoWork(c, s.va, s.frame, s.role, s.mem);
    assert FreeTierOk(s.frame, s.role) by { FreeInit(s.frame, s.role); }
  }

  lemma FreeInit(frame: map<Did, Frame>, role: map<Did, Role>)
    requires forall d :: d in role ==> d in frame && role[d] == FreeIn(frame[d].tier)
    ensures FreeTierOk(frame, role)
  {
  }

  // ----- patience -----

  /** The step takes a descriptor off its free list while its removal is still under way. */
  predicate Takes(s: State, a: Step)
  {
    || ((a.FaultAllocDram? || a.PlanPromote? || a.PlanGiveUp?) && s.dramFree != [] && Last(s.dramFree) in s.removing)
    || ((a.FaultAllocNvm? || a.PlanSwap?) && s.nvmFree != [] && Last(s.nvmFree) in s.removing)
  }

  /** The step moves a page whose free entry has been drained. */
  predicate Strays(s: State, a: Step)
  {
    a.WorkRemap? && Runs(s, a.sp) && Drained(s, Target(s.running[a.sp]))
  }

  /** No step of the run takes a descriptor that is still being removed. */
  predicate TakesNone(c: Config, s: State, steps: seq<Step>)
    requires Runnable(c, s, steps)
    decreases |steps|
  {
    steps == [] || (!Takes(s, steps[0]) && TakesNone(c, Next(c, s, steps[0]), steps[1..]))
  }

  /** Nor moves one. */
  predicate Patient(c: Config, s: State, steps: seq<Step>)
    requires Runnable(c, s, steps)
    decreases |steps|
  {
    steps == [] || (!Takes(s, steps[0]) && !Strays(s, steps[0]) && Patient(c, Next(c, s, steps[0]), steps[1..]))
  }

  lemma {:induction false} PatientTakes(c: Config, s: State, steps: seq<Step>)
    requires Runnable(c, s, steps) && Patient(c, s, steps)
    ensures TakesNone(c, s, steps)
    decreases |steps|
  {
    hide Enabled, Next, Takes, Strays;
    if steps != [] {
      PatientTakes(c, Next(c, s, steps[0]), steps[1..]);
    }
  }

  lemma Untaken(c: Config, s: State, a: Step)
    requires Enabled(c, s, a) && !Takes(s, a)
    ensures a.FaultAllocDram? || a.PlanPromote? || a.PlanGiveUp? ==> s.dramFree != [] && Last(s.dramFree) !in s.removing
    ensures a.FaultAllocNvm? || a.PlanSwap? ==> s.nvmFree != [] && Last(s.nvmFree) !in s.removing
  {
  }

  // ----- every step -----

  lemma CoreWrite(c: Config, s: State, v: Va, i: nat, w: int)
    requires Core(s) && CanWrite(c, s, v, i)
    ensures Core(Write(c, s, v, i, w))
  {
    hide PresentOk, ListOk, SparesOk, FaultOk, FreshOk, PagesOk, LogOk, RemovingOk, ToldOk, IndexOk, NamesOk,
      CountOk, PlanOk, Unaliased, TableOk, ReplicaOk, ColdOk;
  }

  /** Every step of every thread keeps the core of the invariant. */
  lemma {:induction false} KeepCore(c: Config, s: State, a: Step)
    requires c.removeLate && Core(s) && Enabled(c, s, a) && !Takes(s, a)
    ensures Core(Next(c, s, a))
  {
    hide Core, CanWrite, CanRemove, CanPublish, CanClear, CanAllocDram, CanAllocNvm, CanMap, CanIndex, CanLog,
      CanDrain, CanScore, CanAwait, CanPlan, Seeking, HotFound, CanPassCold, CanSwap, CanStart, CanSkip,
      CanBegin, CanCopy, CanRemap, CanRelease, Write, Remove, Publish, Clear, AllocDram, AllocNvm, Map, Index,
      Log, DrainAdd, DrainFree, Score, Await, Plan, PassHot, Promote, GiveUp, SeekCold, PassCold, Swap, EndPlan,
      Start, Skip, Begin, Copy, Remap, ReleaseUp, ReleaseDown;
    Untaken(c, s, a);
    match a
    case AppWrite(v, i, w) => CoreWrite(c, s, v, i, w);
    case RemoveIndex(v) => TieredRemove.CoreRemove(c, s, v);
    case RemoveLog(d) => TieredRemove.CorePublish(s, d);
    case RemoveClear(d) => TieredRemove.CoreClear(s, d);
    case FaultAllocDram(v) => TieredFault.CoreAllocDram(s, v);
    case FaultAllocNvm(v) => TieredFault.CoreAllocNvm(s, v);
    case FaultMap => TieredFault.CoreMap(c, s);
    case FaultIndex => TieredFault.CoreIndex(s);
    case FaultLog => TieredFault.CoreLog(s);
    case PolicyDrainAdd => TieredRemove.CoreDrainAdd(c, s);
    case PolicyDrainFree => TieredRemove.CoreDrainFree(c, s);
    case PolicyScore(scores) => TieredPlan.CoreScore(s, scores);
    case PolicyAwait => TieredPlan.CoreAwait(s);
    case PolicyPlan => TieredPlan.CorePlan(s);
    case PlanPassHot => TieredPlan.CorePassHot(c, s);
    case PlanPromote => TieredPlan.CorePromote(c, s);
    case PlanGiveUp => TieredPlan.CoreGiveUp(c, s);
    case PlanSeekCold => TieredPlan.CoreSeekCold(c, s);
    case PlanPassCold => TieredPlan.CorePassCold(s);
    case PlanSwap => TieredPlan.CoreSwap(c, s);
    case PlanEnd => TieredPlan.CoreEndPlan(s);
    case WorkStart => TieredWork.CoreStart(c, s);
    case WorkSkip(sp) => TieredWork.CoreSkip(s, sp);
    case WorkBegin(sp) => TieredWork.CoreBegin(c, s, sp);
    case WorkCopy(sp) => TieredWork.CoreCopy(c, s, sp);
    case WorkRemap(sp) => TieredMove.CoreRemap(c, s, sp);
    case WorkReleaseUp(sp) => TieredMove.CoreReleaseUp(s, sp);
    case WorkReleaseDown(sp) => TieredMove.CoreReleaseDown(s, sp);
  }

  /** Every step of every thread keeps the invariant. */
  lemma {:induction false} KeepInv(c: Config, s: State, a: Step)
    requires c.moveLate && c.removeLate && Inv(c, s) && Enabled(c, s, a) && !Takes(s, a) && !Strays(s, a)
    ensures Inv(c, Next(c, s, a))
  {
    hide Inv, Drained, CanWrite, CanRemove, CanPublish, CanClear, CanAllocDram, CanAllocNvm, CanMap, CanIndex,
      CanLog, CanDrain, CanScore, CanAwait, CanPlan, Seeking, HotFound, CanPassCold, CanSwap, CanStart, CanSkip,
      CanBegin, CanCopy, CanRemap, CanRelease, Write, Remove, Publish, Clear, AllocDram, AllocNvm, Map, Index,
      Log, DrainAdd, DrainFree, Score, Await, Plan, PassHot, Promote, GiveUp, SeekCold, PassCold, Swap, EndPlan,
      Start, Skip, Begin, Copy, Remap, ReleaseUp, ReleaseDown;
    Untaken(c, s, a);
    match a
    case AppWrite(v, i, w) => TieredRemove.KeepWrite(c, s, v, i, w);
    case RemoveIndex(v) => TieredRemove.KeepRemove(c, s, v);
    case RemoveLog(d) => TieredRemove.KeepPublish(c, s, d);
    case RemoveClear(d) => TieredRemove.KeepClear(c, s, d);
    case FaultAllocDram(v) => TieredFault.KeepAllocDram(c, s, v);
    case FaultAllocNvm(v) => TieredFault.KeepAllocNvm(c, s, v);
    case FaultMap => TieredFault.KeepMap(c, s);
    case FaultIndex => TieredFault.KeepIndex(c, s);
    case FaultLog => TieredFault.KeepLog(c, s);
    case PolicyDrainAdd => TieredRemove.KeepDrainAdd(c, s);
    case PolicyDrainFree => TieredRemove.KeepDrainFree(c, s);
    case PolicyScore(scores) => TieredPlan.KeepScore(c, s, scores);
    case PolicyAwait => TieredPlan.KeepAwait(c, s);
    case PolicyPlan => TieredPlan.KeepPlan(c, s);
    case PlanPassHot => TieredPlan.KeepPassHot(c, s);
    case PlanPromote => TieredPlan.KeepPromote(c, s);
    case PlanGiveUp => TieredPlan.KeepGiveUp(c, s);
    case PlanSeekCold => TieredPlan.KeepSeekCold(c, s);
    case PlanPassCold => TieredPlan.KeepPassCold(c, s);
    case PlanSwap => TieredPlan.KeepSwap(c, s);
    case PlanEnd => TieredPlan.KeepEndPlan(c, s);
    case WorkStart => TieredWork.KeepStart(c, s);
    case WorkSkip(sp) => TieredWork.KeepSkip(c, s, sp);
    case WorkBegin(sp) => TieredWork.KeepBegin(c, s, sp);
    case WorkCopy(sp) => TieredWork.KeepCopy(c, s, sp);
    case WorkRemap(sp) => RemapRuns(c, s, sp); TieredMove.KeepRemap(c, s, sp);
    case WorkReleaseUp(sp) => TieredMove.KeepReleaseUp(c, s, sp);
    case WorkReleaseDown(sp) => TieredMove.KeepReleaseDown(c, s, sp);
  }

  lemma RemapRuns(c: Config, s: State, sp: Did)
    requires CanRemap(c, s, sp)
    ensures Runs(s, sp)
  {
  }

  lemma {:induction false} RunCore(c: Config, s: State, steps: seq<Step>)
    requires c.removeLate && Core(s) && Runnable(c, s, steps) && TakesNone(c, s, steps)
    ensures Core(After(c, s, steps))
    decreases |steps|
  {
    hide Core, Enabled, Next, Takes;
    if steps != [] {
      KeepCore(c, s, steps[0]);
      RunCore(c, Next(c, s, steps[0]), steps[1..]);
    }
  }

  lemma {:induction false} KeepRun(c: Config, s: State, steps: seq<Step>)
    requires c.moveLate && c.removeLate && Inv(c, s) && Runnable(c, s, steps) && Patient(c, s, steps)
    ensures Inv(c, After(c, s, steps))
    decreases |steps|
  {
    hide Inv, Enabled, Next, Takes, Strays;
    if steps != [] {
      KeepInv(c, s, steps[0]);
      KeepRun(c, Next(c, s, steps[0]), steps[1..]);
    }
  }

  // ----- the states a run from pebs_init can reach -----

  ghost predicate Reachable(c: Config, s: State)
  {
    exists steps :: Runnable(c, Init(c), steps) && After(c, Init(c), steps) == s
  }

  /** By a run that takes no descriptor that is still being removed. */
  ghost predicate TakelessReachable(c: Config, s: State)
  {
    exists steps :: Runnable(c, Init(c), steps) && TakesNone(c, Init(c), steps) && After(c, Init(c), steps) == s
  }

  /** By a run that neither takes nor moves one. */
  ghost predicate PatientlyReachable(c: Config, s: State)
  {
    exists steps :: Runnable(c, Init(c), steps) && Patient(c, Init(c), steps) && After(c, Init(c), steps) == s
  }

  lemma PatientTakeless(c: Config, s: State)
    requires PatientlyReachable(c, s)
    ensures TakelessReachable(c, s)
  {
    hide Init, Runnable, After, Patient, TakesNone;
    var steps :| Runnable(c, Init(c), steps) && Patient(c, Init(c), steps) && After(c, Init(c), steps) == s;
    PatientTakes(c, Init(c), steps);
  }

  lemma TakelessCore(c: Config, s: State)
    requires c.removeLate && TakelessReachable(c, s)
    ensures Core(s)
  {
    hide Inv, Core, Init, Runnable, After, TakesNone;
    var steps :| Runnable(c, Init(c), steps) && TakesNone(c, Init(c), steps) && After(c, Init(c), steps) == s;
    InitInv(c);
    InvCore(c, Init(c));
    RunCore(c, Init(c), steps);
  }

  lemma InvCore(c: Config, s: State)
    requires Inv(c, s)
    ensures Core(s)
  {
    hide Core, Placed;
  }

  lemma PatientInv(c: Config, s: State)
    requires c.moveLate && c.removeLate && PatientlyReachable(c, s)
    ensures Inv(c, s)
  {
    hide Inv, Init, Runnable, After, Patient;
    var steps :| Runnable(c, Init(c), steps) && Patient(c, Init(c), steps) && After(c, Init(c), steps) == s;
    InitInv(c);
    KeepRun(c, Init(c), steps);
  }

  // ----- with the first window closed, every run is patient -----

  ghost predicate NoneEarly(s: State) { forall d :: d in s.role ==> !s.role[d].Early? }

  lemma DrawsLate(c: Config, s: State, a: Step)
    requires c.drainLate && Enabled(c, s, a) && NoneEarly(s) && Draws(a)
    ensures NoneEarly(Next(c, s, a))
  {
    match a
    case PolicyDrainAdd =>
    case PolicyDrainFree =>
    case PolicyScore(_) =>
    case PolicyAwait =>
    case PolicyPlan =>
    case PlanEnd =>
  }

  lemma PlansLate(c: Config, s: State, a: Step)
    requires c.drainLate && Enabled(c, s, a) && NoneEarly(s) && Plans(a)
    ensures NoneEarly(Next(c, s, a))
  {
    match a
    case PlanPassHot =>
    case PlanPromote =>
    case PlanGiveUp =>
    case PlanSeekCold =>
    case PlanPassCold =>
    case PlanSwap =>
  }

  lemma StartsLate(c: Config, s: State, a: Step)
    requires c.drainLate && Enabled(c, s, a) && NoneEarly(s) && Starts(a)
    ensures NoneEarly(Next(c, s, a))
  {
    match a
    case WorkStart =>
    case WorkSkip(_) =>
    case WorkBegin(_) =>
  }

  lemma MovesLate(c: Config, s: State, a: Step)
    requires c.drainLate && Enabled(c, s, a) && NoneEarly(s) && Moves(a)
    ensures NoneEarly(Next(c, s, a))
  {
    match a
    case WorkCopy(_) =>
    case WorkRemap(_) =>
    case WorkReleaseUp(_) =>
    case WorkReleaseDown(_) =>
  }

  lemma OthersLate(c: Config, s: State, a: Step)
    requires c.drainLate && Enabled(c, s, a) && NoneEarly(s) && !ByPolicy(a) && !ByWorker(a)
    ensures NoneEarly(Next(c, s, a))
  {
    match a
    case AppWrite(_, _, _) =>
    case RemoveIndex(_) =>
    case RemoveLog(_) =>
    case RemoveClear(_) =>
    case FaultAllocDram(_) =>
    case FaultAllocNvm(_) =>
    case FaultMap =>
    case FaultIndex =>
    case FaultLog =>
  }

  lemma StaysLate(c: Config, s: State, a: Step)
    requires c.drainLate && Enabled(c, s, a) && NoneEarly(s)
    ensures NoneEarly(Next(c, s, a))
  {
    hide Enabled, Next, NoneEarly, Draws, Plans, Starts, Moves;
    if Draws(a) {
      DrawsLate(c, s, a);
    } else if Plans(a) {
      PlansLate(c, s, a);
    } else if Starts(a) {
      StartsLate(c, s, a);
    } else if Moves(a) {
      MovesLate(c, s, a);
    } else {
      OthersLate(c, s, a);
    }
  }

  lemma LateTakes(s: State, a: Step)
    requires Core(s) && NoneEarly(s)
    ensures !Takes(s, a)
  {
    hide PresentOk, SparesOk, FaultOk, FreshOk, PagesOk, LogOk, ToldOk, IndexOk, NamesOk, CountOk, PlanOk,
      Unaliased, TableOk, ReplicaOk, ColdOk;
    assert s.dramFree != [] ==> Last(s.dramFree) in s.dramFree;
    assert s.nvmFree != [] ==> Last(s.nvmFree) in s.nvmFree;
  }

  lemma LateStrays(s: State, a: Step)
    requires Core(s) && NoneEarly(s)
    ensures !Strays(s, a)
  {
    hide PresentOk, ListOk, SparesOk, FaultOk, FreshOk, PagesOk, ToldOk, IndexOk, NamesOk, CountOk, PlanOk,
      Unaliased, TableOk, ReplicaOk, ColdOk;
  }

  lemma {:induction false} LatePatient(c: Config, s: State, steps: seq<Step>)
    requires c.drainLate && c.removeLate && Core(s) && NoneEarly(s) && Runnable(c, s, steps)
    ensures Patient(c, s, steps)
    decreases |steps|
  {
    hide Core, Enabled, Next, Takes, Strays, NoneEarly;
    if steps != [] {
      LateTakes(s, steps[0]);
      LateStrays(s, steps[0]);
      KeepCore(c, s, steps[0]);
      StaysLate(c, s, steps[0]);
      LatePatient(c, Next(c, s, steps[0]), steps[1..]);
    }
  }

  lemma InitLate(c: Config)
    ensures NoneEarly(Init(c)) && Core(Init(c))
  {
    InitInv(c);
    InvCore(c, Init(c));
    InitColumns(c);
    hide Core, Inv, Init;
  }

  lemma ReachablePatient(c: Config, s: State)
    requires c.drainLate && c.removeLate && Reachable(c, s)
    ensures PatientlyReachable(c, s)
  {
    hide Core, Init, Runnable, After, Patient, NoneEarly;
    var steps :| Runnable(c, Init(c), steps) && After(c, Init(c), steps) == s;
    InitLate(c);
    LatePatient(c, Init(c), steps);
  }

  lemma ReachableInv(c: Config, s: State)
    requires Closed(c) && Reachable(c, s)
    ensures PatientlyReachable(c, s) && Inv(c, s)
  {
    hide Inv, Reachable, PatientlyReachable;
    ReachablePatient(c, s);
    PatientInv(c, s);
  }
}
