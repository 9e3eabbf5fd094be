/** What the tiered-memory manager is for, in every reachable state and over every run. */
module TieredLaws {
  import opened Options
  import opened TieredState
  import opened TieredInv
  import opened TieredMain
  import opened TieredRoles
  import opened TieredFault
  import opened TieredRemove
  import opened TieredPlan
  import opened TieredWork
  import opened TieredMove

  // ----- which thread changes what -----

  lemma DrawsApart(c: Config, s: State, a: Step)
    requires Enabled(c, s, a) && Draws(a)
    ensures var s' := Next(c, s, a); s'.va == s.va && s'.flat == s.flat && s'.frame == s.frame
  {
    match a
    case PolicyDrainAdd =>
    case PolicyDrainFree =>
    case PolicyScore(_) =>
    case PolicyAwait =>
    case PolicyPlan =>
    case PlanEnd =>
  }

  lemma PlansApart(c: Config, s: State, a: Step)
    requires Enabled(c, s, a) && Plans(a)
    ensures var s' := Next(c, s, a); s'.va == s.va && s'.flat == s.flat && s'.frame == s.frame
  {
    match a
    case PlanPassHot =>
    case PlanPromote =>
    case PlanGiveUp =>
    case PlanSeekCold =>
    case PlanPassCold =>
    case PlanSwap =>
  }

  lemma StartsApart(c: Config, s: State, a: Step)
    requires Enabled(c, s, a) && Starts(a)
    ensures var s' := Next(c, s, a); s'.va == s.va && s'.flat == s.flat && s'.policy == s.policy && s'.frame == s.frame
  {
    match a
    case WorkStart =>
    case WorkSkip(_) =>
    case WorkBegin(_) =>
  }

  lemma MovesApart(c: Config, s: State, a: Step)
    requires Enabled(c, s, a) && Moves(a)
    ensures var s' := Next(c, s, a); s'.va == s.va && s'.flat == s.flat && s'.policy == s.policy
  {
    match a
    case WorkCopy(_) =>
    case WorkRemap(_) =>
    case WorkReleaseUp(_) =>
    case WorkReleaseDown(_) =>
  }

  lemma ApplicationApart(c: Config, s: State, a: Step)
    requires Enabled(c, s, a) && !ByPolicy(a) && !ByWorker(a)
    ensures var s' := Next(c, s, a); s'.frame == s.frame && s'.policy == s.policy
  {
    match a
    case AppWrite(_, _, _) =>
    case RemoveIndex(_) =>
    case RemoveLog(_) =>
    case RemoveClear(_) =>
    case FaultAllocDram(_) =>
    case FaultAllocNvm(_) =>
    case FaultMap =>
    case FaultIndex =>
    case FaultLog =>
  }

  /** The policy thread neither moves, addresses nor maps a page. */
  lemma PolicyApart(c: Config, s: State, a: Step)
    requires Enabled(c, s, a) && ByPolicy(a)
    ensures var s' := Next(c, s, a); s'.va == s.va && s'.flat == s.flat && s'.frame == s.frame
  {
    hide Next, Enabled, Draws, Plans;
    if Draws(a) { DrawsApart(c, s, a); } else { PlansApart(c, s, a); }
  }

  /** Migration threads change no address, and nothing flat memory knows. */
  lemma WorkerApart(c: Config, s: State, a: Step)
    requires Enabled(c, s, a) && ByWorker(a)
    ensures var s' := Next(c, s, a); s'.va == s.va && s'.flat == s.flat && s'.policy == s.policy
  {
    hide Next, Enabled, Starts, Moves;
    if Starts(a) { StartsApart(c, s, a); } else { MovesApart(c, s, a); }
  }

  // ----- frames and descriptors are conserved -----

  /** d is the free page of a queued or running job. */
  ghost predicate Carried(s: State, d: Did) { d in s.running || InQueue(s.queue, d) }

  /** d is handed out, or waits for its free entry to be drained. */
  predicate HandedOut(s: State, d: Did) { (d in s.present && !Drained(s, d)) || Entry(d, true) in s.log }

  ghost predicate Free(s: State, d: Did, t: Tier)
  {
    d in if t == Dram then s.dramFree else s.nvmFree
  }

  lemma InOnePlace(c: Config, s: State, d: Did)
    requires Inv(c, s) && d in s.frame
    ensures Free(s, d, Dram) ==> !Free(s, d, Nvm) && !Carried(s, d) && !HandedOut(s, d)
    ensures Free(s, d, Nvm) ==> !Carried(s, d) && !HandedOut(s, d)
    ensures Carried(s, d) ==> !HandedOut(s, d)
    ensures Free(s, d, Dram) || Free(s, d, Nvm) || Carried(s, d) || HandedOut(s, d)
  {
    hide *;
    RoleKnown(c, s, d);
    FreeIff(c, s, d);
    CarriedIff(c, s, d);
    HandedOutIff(c, s, d);
    RolesApart(s.role[d]);
  }

  lemma RoleKnown(c: Config, s: State, d: Did)
    requires Inv(c, s) && d in s.frame
    ensures d in s.role
  {
    hide PresentOk, ListOk, SparesOk, FaultOk, FreshOk, PagesOk, LogOk, RemovingOk, ToldOk, IndexOk, NamesOk,
      CountOk, PlanOk, Unaliased, TableOk, ReplicaOk, FreeTierOk, JobTiersOk, ColdOk, MapOk, MoveOk, MemOk,
      CopyOk, Held, AllFrames;
  }

  predicate Used(r: Role) { r == Faulting || InUse(r) }

  lemma RolesApart(r: Role)
    ensures Listed(r, Dram) || Listed(r, Nvm) || r == Spare || Used(r)
    ensures Listed(r, Dram) || Listed(r, Nvm) || r == Spare ==> !Used(r)
    ensures Listed(r, Dram) ==> !Listed(r, Nvm) && r != Spare
    ensures Listed(r, Nvm) ==> r != Spare
  {
    if r.FreeIn? || r.Early? {
      match r.tier
      case Dram =>
      case Nvm =>
    }
  }

  lemma FreeIff(c: Config, s: State, d: Did)
    requires Inv(c, s) && d in s.role
    ensures Free(s, d, Dram) <==> Listed(s.role[d], Dram)
    ensures Free(s, d, Nvm) <==> Listed(s.role[d], Nvm)
  {
    hide PresentOk, SparesOk, FaultOk, FreshOk, PagesOk, LogOk, RemovingOk, ToldOk, IndexOk, NamesOk, CountOk,
      PlanOk, Unaliased, TableOk, ReplicaOk, FramesOk, FreeTierOk, JobTiersOk, ColdOk, MapOk, MoveOk, MemOk,
      CopyOk;
  }

  lemma CarriedIff(c: Config, s: State, d: Did)
    requires Inv(c, s) && d in s.role
    ensures Carried(s, d) <==> s.role[d] == Spare
  {
    hide PresentOk, ListOk, FaultOk, FreshOk, PagesOk, LogOk, RemovingOk, ToldOk, IndexOk, NamesOk, CountOk,
      PlanOk, Unaliased, TableOk, ReplicaOk, FramesOk, FreeTierOk, JobTiersOk, ColdOk, MapOk, MoveOk, MemOk,
      CopyOk;
    if InQueue(s.queue, d) {
      var i :| 0 <= i < |s.queue| && s.queue[i].spare == d;
    }
  }

  lemma HandedOutIff(c: Config, s: State, d: Did)
    requires Inv(c, s) && d in s.role
    ensures HandedOut(s, d) <==> Used(s.role[d])
  {
    hide ListOk, SparesOk, FaultOk, FreshOk, PagesOk, ToldOk, IndexOk, NamesOk, CountOk, PlanOk, Unaliased,
      TableOk, ReplicaOk, FramesOk, FreeTierOk, JobTiersOk, ColdOk, MapOk, MoveOk, MemOk, CopyOk;
    if Entry(d, true) in s.log {
      var i :| 0 <= i < |s.log| && s.log[i] == Entry(d, true);
    }
  }

  lemma FreeInTier(c: Config, s: State, d: Did, t: Tier)
    requires Inv(c, s) && Free(s, d, t)
    ensures d in s.frame && s.frame[d].tier == t && (d in s.present <==> d in s.removing)
  {
    hide SparesOk, FaultOk, FreshOk, PagesOk, LogOk, ToldOk, IndexOk, NamesOk, CountOk, PlanOk, Unaliased,
      TableOk, ReplicaOk, FramesOk, JobTiersOk, ColdOk, MapOk, MoveOk, MemOk, CopyOk, Held, AllFrames;
    assert Listed(s.role[d], t);
  }

  lemma ListsDistinct(c: Config, s: State)
    requires Inv(c, s)
    ensures Distinct(s.dramFree) && Distinct(s.nvmFree)
  {
    hide PresentOk, SparesOk, FaultOk, FreshOk, PagesOk, LogOk, RemovingOk, ToldOk, IndexOk, NamesOk, CountOk,
      PlanOk, Unaliased, TableOk, ReplicaOk, FramesOk, FreeTierOk, JobTiersOk, ColdOk, MapOk, MoveOk, MemOk,
      CopyOk;
  }

  /** The descriptors stand one to one for all frames of both tiers, at every moment of every
      run; each is on one free list, in its own tier, or carried by a job, or handed out. */
  lemma FramesConserved(c: Config, s: State)
    requires c.moveLate && c.removeLate && PatientlyReachable(c, s)
    ensures forall d :: d in s.frame ==> Held(s.frame, s.running, d) in AllFrames(c)
    ensures forall d, e :: d in s.frame && e in s.frame && d != e ==>
      Held(s.frame, s.running, d) != Held(s.frame, s.running, e)
    ensures forall f :: f in AllFrames(c) ==> exists d :: d in s.frame && Held(s.frame, s.running, d) == f
    ensures Distinct(s.dramFree) && Distinct(s.nvmFree)
    ensures forall d, t :: Free(s, d, t) ==>
      d in s.frame && s.frame[d].tier == t && (d in s.present <==> d in s.removing)
    ensures forall d :: d in s.frame ==>
      && (Free(s, d, Dram) ==> !Free(s, d, Nvm) && !Carried(s, d) && !HandedOut(s, d))
      && (Free(s, d, Nvm) ==> !Carried(s, d) && !HandedOut(s, d))
      && (Carried(s, d) ==> !HandedOut(s, d))
      && (Free(s, d, Dram) || Free(s, d, Nvm) || Carried(s, d) || HandedOut(s, d))
  {
    hide *;
    PatientInv(c, s);
    FramesLaw(c, s);
    ListsDistinct(c, s);
    forall d, t | Free(s, d, t) ensures d in s.frame && s.frame[d].tier == t && (d in s.present <==> d in s.removing) {
      FreeInTier(c, s, d, t);
    }
    forall d | d in s.frame
      ensures
      && (Free(s, d, Dram) ==> !Free(s, d, Nvm) && !Carried(s, d) && !HandedOut(s, d))
      && (Free(s, d, Nvm) ==> !Carried(s, d) && !HandedOut(s, d))
      && (Carried(s, d) ==> !HandedOut(s, d))
      && (Free(s, d, Dram) || Free(s, d, Nvm) || Carried(s, d) || HandedOut(s, d))
    {
      InOnePlace(c, s, d);
    }
  }

  lemma FramesLaw(c: Config, s: State)
    requires Inv(c, s)
    ensures forall d :: d in s.frame ==> Held(s.frame, s.running, d) in AllFrames(c)
    ensures forall d, e :: d in s.frame && e in s.frame && d != e ==>
      Held(s.frame, s.running, d) != Held(s.frame, s.running, e)
    ensures forall f :: f in AllFrames(c) ==> exists d :: d in s.frame && Held(s.frame, s.running, d) == f
  {
    hide PresentOk, ListOk, SparesOk, FaultOk, FreshOk, PagesOk, LogOk, RemovingOk, ToldOk, IndexOk, NamesOk,
      CountOk, PlanOk, Unaliased, TableOk, ReplicaOk, FreeTierOk, JobTiersOk, ColdOk, MapOk, MoveOk, MemOk,
      CopyOk, Held, AllFrames;
  }

  // ----- the assertions of the program hold -----

  /** What the program asserts about a free descriptor it takes. */
  lemma TakenFree(c: Config, s: State, t: Tier)
    requires Inv(c, s) && (if t == Dram then s.dramFree else s.nvmFree) != []
    ensures var d := Last(if t == Dram then s.dramFree else s.nvmFree);
      d in s.frame && s.frame[d].tier == t && (d in s.present <==> d in s.removing)
  {
    hide Inv;
    var l := if t == Dram then s.dramFree else s.nvmFree;
    assert l[|l| - 1] in l;
    FreeInTier(c, s, Last(l), t);
  }

  /** arms_migrate_up and arms_migrate_down: the page is in the tier it leaves, the free page
      in the one it goes to, both at offsets those tiers have. */
  predicate Crossing(c: Config, s: State, sp: Did)
    requires Runs(s, sp) && s.running[sp].Moving?
  {
    var d, up := Target(s.running[sp]), s.running[sp].up;
    && s.frame[d].tier == (if up then Nvm else Dram) && s.frame[sp].tier == (if up then Dram else Nvm)
    && s.frame[d] in AllFrames(c) && s.frame[sp] in AllFrames(c) && s.va[d] > 0
  }

  lemma MigrationTiers(c: Config, s: State, sp: Did)
    requires Inv(c, s) && Runs(s, sp) && s.running[sp].Moving?
    ensures Crossing(c, s, sp)
  {
    hide PresentOk, ListOk, FaultOk, FreshOk, PagesOk, LogOk, RemovingOk, ToldOk, IndexOk, NamesOk, CountOk,
      PlanOk, Unaliased, TableOk, ReplicaOk, FreeTierOk, ColdOk, MapOk, MoveOk, MemOk, CopyOk, AllFrames;
    MoveFacts(c, s.va, s.role, s.migrating, s.running, s.table, sp);
    AddressSet(s.va, s.role, s.pages, s.fault, Target(s.running[sp]));
    SpareOwn(s.role, s.queue, s.running, sp);
    assert Held(s.frame, s.running, sp) == s.frame[sp];
    assert Target(s.running[sp]) !in s.running;
    assert Held(s.frame, s.running, Target(s.running[sp])) == s.frame[Target(s.running[sp])];
  }

  lemma AddressSet(va: map<Did, Va>, role: map<Did, Role>, pages: map<Va, Did>, fault: Fault, d: Did)
    requires PagesOk(va, role, pages, fault) && d in role && (InUse(role[d]) || Backed(role[d]))
    ensures d in va && va[d] > 0
  {
  }

  /** A page named by a swap is mapped somewhere. */
  lemma ColdAddress(c: Config, s: State)
    requires Inv(c, s) && Between(s)
    ensures s.va[ColdPage(s)] > 0
  {
    hide PresentOk, ListOk, SparesOk, FaultOk, FreshOk, PagesOk, LogOk, RemovingOk, ToldOk, IndexOk, NamesOk,
      CountOk, PlanOk, Unaliased, TableOk, ReplicaOk, FramesOk, FreeTierOk, JobTiersOk, ColdOk, MapOk, MoveOk,
      MemOk, CopyOk;
    AheadFacts(s, s.policy.q);
    AddressSet(s.va, s.role, s.pages, s.fault, ColdPage(s));
  }

  /** The pages a free page goes to, or comes from, are of its tier. */
  lemma SkippedTier(c: Config, s: State, sp: Did)
    requires Inv(c, s) && CanSkip(s, sp)
    ensures s.frame[sp].tier == if s.running[sp].AtDemote? then Nvm else Dram
  {
    hide Inv;
    SkipTier(c, s, sp);
  }

  lemma AddedAbsent(c: Config, s: State)
    requires Inv(c, s) && CanIndex(s)
    ensures s.va[s.fault.d] > 0 && s.va[s.fault.d] !in s.pages
  {
    hide PresentOk, ListOk, SparesOk, FaultOk, FreshOk, PagesOk, LogOk, RemovingOk, ToldOk, IndexOk, NamesOk,
      CountOk, PlanOk, Unaliased, TableOk, ReplicaOk, FramesOk, FreeTierOk, JobTiersOk, ColdOk, MapOk, MoveOk,
      MemOk, CopyOk;
    FaultIndexed(s.role, s.fault);
    PagesAdded(s.va, s.role, s.pages, s.fault);
    AddressSet(s.va, s.role, s.pages, s.fault, s.fault.d);
  }

  lemma RemovedFound(c: Config, s: State, v: Va)
    requires Inv(c, s) && CanRemove(c, s, v)
    ensures s.va[s.pages[v]] == v
  {
    hide PresentOk, ListOk, SparesOk, FaultOk, FreshOk, LogOk, IndexOk, NamesOk, CountOk, PlanOk, Unaliased,
      TableOk, ReplicaOk, FramesOk, FreeTierOk, JobTiersOk, ColdOk, MapOk, MoveOk, MemOk, CopyOk;
  }

  /** What the program asserts where it takes step a. */
  predicate Asserted(c: Config, s: State, a: Step)
    requires Enabled(c, s, a)
  {
    match a
    case FaultAllocDram(_) => var d := Last(s.dramFree); s.frame[d].tier == Dram && d !in s.present
    case FaultAllocNvm(_) => var d := Last(s.nvmFree); s.frame[d].tier == Nvm && d !in s.present
    case FaultIndex => s.va[s.fault.d] > 0 && s.va[s.fault.d] !in s.pages
    case RemoveIndex(v) => s.va[s.pages[v]] == v
    case PolicyDrainAdd => s.va[s.log[0].d] !in s.index
    case PolicyDrainFree => s.va[s.log[0].d] in s.index && s.index[s.va[s.log[0].d]] == s.log[0].d
    case PlanPromote => Last(s.dramFree) !in s.present
    case PlanGiveUp => Last(s.dramFree) !in s.present
    case PlanSwap => s.va[ColdPage(s)] > 0
    case WorkBegin(sp) => s.va[Target(s.running[sp])] > 0
    case WorkCopy(sp) => Crossing(c, s, sp)
    case WorkRemap(sp) => Crossing(c, s, sp)
    case WorkSkip(sp) => s.frame[sp].tier == if s.running[sp].AtDemote? then Nvm else Dram
    case _ => true
  }

  lemma DrainedAsExpected(c: Config, s: State)
    requires Inv(c, s) && s.log != [] && Known(s, s.log[0].d)
    ensures if s.log[0].free then s.va[s.log[0].d] in s.index && s.index[s.va[s.log[0].d]] == s.log[0].d
            else s.va[s.log[0].d] !in s.index
  {
    hide PresentOk, ListOk, SparesOk, FaultOk, FreshOk, PagesOk, LogOk, RemovingOk, ToldOk, IndexOk, NamesOk,
      CountOk, PlanOk, Unaliased, TableOk, ReplicaOk, FramesOk, FreeTierOk, JobTiersOk, ColdOk, MapOk, MoveOk,
      MemOk, CopyOk;
    ReplicaFirst(s.va, s.told, s.index, s.log);
  }

  lemma FaultAsserts(c: Config, s: State, a: Step)
    requires Inv(c, s) && Enabled(c, s, a) && !ByPolicy(a) && !ByWorker(a)
    ensures Asserted(c, s, a) <==> a.PlanSwap? || !Takes(s, a)
  {
    hide Inv;
    match a
    case AppWrite(_, _, _) =>
    case RemoveIndex(v) => RemovedFound(c, s, v);
    case RemoveLog(_) =>
    case RemoveClear(_) =>
    case FaultAllocDram(_) => TakenFree(c, s, Dram);
    case FaultAllocNvm(_) => TakenFree(c, s, Nvm);
    case FaultMap =>
    case FaultIndex => AddedAbsent(c, s);
    case FaultLog =>
  }

  lemma DrainAsserts(c: Config, s: State, a: Step)
    requires Inv(c, s) && Enabled(c, s, a) && (a.PolicyDrainAdd? || a.PolicyDrainFree?)
    ensures Asserted(c, s, a)
  {
    hide Inv;
    DrainedAsExpected(c, s);
  }

  lemma TakeAsserts(c: Config, s: State, a: Step)
    requires Inv(c, s) && Enabled(c, s, a) && (a.PlanPromote? || a.PlanGiveUp?)
    ensures Asserted(c, s, a) <==> !Takes(s, a)
  {
    hide Inv;
    TakenFree(c, s, Dram);
  }

  lemma SwapAsserts(c: Config, s: State, a: Step)
    requires Inv(c, s) && Enabled(c, s, a) && a.PlanSwap?
    ensures Asserted(c, s, a)
  {
    hide Inv;
    ColdAddress(c, s);
  }

  lemma PolicyAsserts(c: Config, s: State, a: Step)
    requires Inv(c, s) && Enabled(c, s, a) && ByPolicy(a)
    ensures Asserted(c, s, a) <==> a.PlanSwap? || !Takes(s, a)
  {
    hide Inv, Enabled;
    if a.PolicyDrainAdd? || a.PolicyDrainFree? {
      DrainAsserts(c, s, a);
    } else if a.PlanPromote? || a.PlanGiveUp? {
      TakeAsserts(c, s, a);
    } else if a.PlanSwap? {
      SwapAsserts(c, s, a);
    }
  }

  lemma MoveAsserts(c: Config, s: State, a: Step)
    requires Inv(c, s) && Enabled(c, s, a) && (a.WorkCopy? || a.WorkRemap?)
    ensures Asserted(c, s, a)
  {
    hide Inv, Crossing, AllFrames;
    MigrationTiers(c, s, a.sp);
  }

  lemma SkipAsserts(c: Config, s: State, a: Step)
    requires Inv(c, s) && Enabled(c, s, a) && a.WorkSkip?
    ensures Asserted(c, s, a)
  {
    hide Inv, AllFrames;
    SkippedTier(c, s, a.sp);
  }

  /** arms_wp_page: the address is set. */
  lemma BeginAsserts(c: Config, s: State, a: Step)
    requires Inv(c, s) && Enabled(c, s, a) && a.WorkBegin?
    ensures Asserted(c, s, a)
  {
    hide PresentOk, ListOk, SparesOk, FaultOk, FreshOk, PagesOk, LogOk, RemovingOk, ToldOk, IndexOk, NamesOk,
      CountOk, PlanOk, Unaliased, TableOk, ReplicaOk, FramesOk, FreeTierOk, JobTiersOk, ColdOk, MapOk, MoveOk,
      MemOk, CopyOk;
    MappedAddress(s.va, s.frame, s.role, s.pages, s.fault, s.table, s.va[Target(s.running[a.sp])]);
  }

  lemma MappedAddress(va: map<Did, Va>, frame: map<Did, Frame>, role: map<Did, Role>, pages: map<Va, Did>, fault: Fault,
      table: map<Va, Mapping>, v: Va)
    requires MapOk(va, frame, role, table) && PagesOk(va, role, pages, fault) && v in table
    ensures v > 0
  {
    var d :| Owns(va, role, d, v);
  }

  lemma WorkerAsserts(c: Config, s: State, a: Step)
    requires Inv(c, s) && Enabled(c, s, a) && ByWorker(a)
    ensures Asserted(c, s, a) && !Takes(s, a)
  {
    hide Inv, Enabled;
    if a.WorkCopy? || a.WorkRemap? {
      MoveAsserts(c, s, a);
    } else if a.WorkSkip? {
      SkipAsserts(c, s, a);
    } else if a.WorkBegin? {
      BeginAsserts(c, s, a);
    }
  }

  /** In every state a patient run reaches, what the program asserts where it takes a step is true, but
      exactly for a descriptor taken by an allocation or for a promotion while it is still being removed. */
  lemma AssertionsHold(c: Config, s: State, a: Step)
    requires c.moveLate && c.removeLate && PatientlyReachable(c, s) && Enabled(c, s, a)
    ensures Asserted(c, s, a) <==> a.PlanSwap? || !Takes(s, a)
  {
    hide *;
    PatientInv(c, s);
    StepAsserted(c, s, a);
  }

  lemma StepAsserted(c: Config, s: State, a: Step)
    requires Inv(c, s) && Enabled(c, s, a)
    ensures Asserted(c, s, a) <==> a.PlanSwap? || !Takes(s, a)
  {
    hide *;
    if ByPolicy(a) {
      PolicyAsserts(c, s, a);
    } else if ByWorker(a) {
      WorkerAsserts(c, s, a);
    } else {
      FaultAsserts(c, s, a);
    }
  }

  // ----- jobs -----

  /** The policy thread's job counter is exact, so when its wait loop ends nothing is under
      way; and no page is named by two jobs at once. */
  lemma JobsAccounted(c: Config, s: State)
    requires c.removeLate && TakelessReachable(c, s)
    ensures s.jobs == |s.queue| + |s.running| + s.done
    ensures CanPlan(s) ==> s.queue == [] && s.running == map[] && s.done == 0
    ensures forall i, j :: 0 <= i < j < |s.queue| ==> Names(s.queue[i]) !! Names(s.queue[j])
    ensures forall i, sp :: 0 <= i < |s.queue| && sp in s.running ==> Names(s.queue[i]) !! Names(s.running[sp].job)
    ensures forall sp, sq :: sp in s.running && sq in s.running && sp != sq ==>
      Names(s.running[sp].job) !! Names(s.running[sq].job)
  {
    TakelessCore(c, s);
    hide PresentOk, ListOk, SparesOk, FaultOk, FreshOk, PagesOk, LogOk, RemovingOk, ToldOk, IndexOk, PlanOk,
      Unaliased, TableOk, ReplicaOk, FramesOk, FreeTierOk, JobTiersOk, ColdOk, MapOk, MoveOk, MemOk, CopyOk,
      TakelessReachable, Names;
    if CanPlan(s) {
      NothingOutstanding(s.queue, s.running, s.jobs, s.done);
    }
  }

  /** A page the planning loop has yet to reach. */
  predicate Unplanned(s: State, d: Did)
  {
    s.policy.Planning? && Ahead(s.policy.scores, s.policy.p, s.policy.q, d)
  }

  lemma UnplannedFacts(c: Config, s: State, d: Did)
    requires Inv(c, s) && Unplanned(s, d)
    ensures d in s.frame && d in s.role && s.role[d] != Spare && forall sp :: sp in s.running ==>
      d !in Names(s.running[sp].job)
  {
    hide PresentOk, ListOk, SparesOk, FaultOk, FreshOk, PagesOk, LogOk, RemovingOk, ToldOk, IndexOk, NamesOk,
      CountOk, PlanOk, Unaliased, TableOk, ReplicaOk, FreeTierOk, JobTiersOk, ColdOk, MapOk, MoveOk, MemOk,
      CopyOk, AllFrames, Held;
    var i :| 0 <= i < |s.policy.scores| && s.policy.p <= i <= s.policy.q && s.policy.scores[i] == d;
    AheadFacts(s, i);
  }

  /** No step moves a page the planning loop has yet to reach. */
  lemma UnplannedStays(c: Config, s: State, a: Step, d: Did)
    requires Inv(c, s) && Enabled(c, s, a) && Unplanned(s, d)
    ensures d in s.frame && Next(c, s, a).frame.Keys == s.frame.Keys && Next(c, s, a).frame[d] == s.frame[d]
  {
    hide Inv, Enabled, Next, Unplanned, ByPolicy, Starts, Moves, Names;
    UnplannedFacts(c, s, d);
    if ByPolicy(a) {
      PolicyApart(c, s, a);
    } else if Starts(a) {
      StartsApart(c, s, a);
    } else if Moves(a) {
      MovesPrivate(c, s, a, d);
    } else {
      NeitherMoves(a);
      ApplicationApart(c, s, a);
    }
  }

  lemma NeitherMoves(a: Step)
    requires !Starts(a) && !Moves(a)
    ensures !ByWorker(a)
  {
  }

  /** No frame but perhaps that of another descriptor has changed. */
  predicate FrameKept(s: State, s': State, d: Did)
  {
    d in s.frame && s'.frame.Keys == s.frame.Keys && s'.frame[d] == s.frame[d]
  }

  lemma MovesPrivate(c: Config, s: State, a: Step, d: Did)
    requires Inv(c, s) && Enabled(c, s, a) && Moves(a) && d in s.frame
    requires d in s.role && s.role[d] != Spare && forall sp :: sp in s.running ==> d !in Names(s.running[sp].job)
    ensures FrameKept(s, Next(c, s, a), d)
  {
    hide Inv, Names, Enabled, Next, FrameKept;
    match a
    case WorkCopy(_) => CopyPrivate(c, s, a, d);
    case WorkRemap(_) => RemapPrivate(c, s, a, d);
    case WorkReleaseUp(_) => ReleaseUpPrivate(c, s, a, d);
    case WorkReleaseDown(_) => ReleaseDownPrivate(c, s, a, d);
  }

  lemma CopyPrivate(c: Config, s: State, a: Step, d: Did)
    requires Enabled(c, s, a) && a.WorkCopy? && d in s.frame
    ensures FrameKept(s, Next(c, s, a), d)
  {
  }

  lemma RemapPrivate(c: Config, s: State, a: Step, d: Did)
    requires Enabled(c, s, a) && a.WorkRemap? && d in s.frame
    requires forall sq :: sq in s.running ==> d !in Names(s.running[sq].job)
    ensures FrameKept(s, Next(c, s, a), d)
  {
    hide Names;
    TargetNamed(s.running[a.sp]);
  }

  lemma ReleaseUpPrivate(c: Config, s: State, a: Step, d: Did)
    requires Inv(c, s) && Enabled(c, s, a) && a.WorkReleaseUp? && d in s.frame && d in s.role && s.role[d] != Spare
    ensures FrameKept(s, Next(c, s, a), d)
  {
    hide Inv;
    SpareRole(c, s, a.sp);
  }

  lemma ReleaseDownPrivate(c: Config, s: State, a: Step, d: Did)
    requires Inv(c, s) && Enabled(c, s, a) && a.WorkReleaseDown? && d in s.frame && d in s.role && s.role[d] != Spare
    ensures FrameKept(s, Next(c, s, a), d)
  {
    hide Inv;
    SpareRole(c, s, a.sp);
  }

  lemma SpareRole(c: Config, s: State, sp: Did)
    requires Inv(c, s) && sp in s.running
    ensures sp in s.role && s.role[sp] == Spare
  {
    hide PresentOk, ListOk, SparesOk, FaultOk, FreshOk, PagesOk, LogOk, RemovingOk, ToldOk, IndexOk, NamesOk,
      CountOk, PlanOk, Unaliased, TableOk, ReplicaOk, FramesOk, FreeTierOk, JobTiersOk, ColdOk, MapOk, MoveOk,
      MemOk, CopyOk;
    SpareOwn(s.role, s.queue, s.running, sp);
  }

  /** The two indices of the planning loop only move towards each other. */
  lemma IndicesClose(c: Config, s: State, a: Step)
    requires Enabled(c, s, a) && s.policy.Planning? && Next(c, s, a).policy.Planning?
    ensures var s' := Next(c, s, a);
      s'.policy.scores == s.policy.scores && s.policy.p <= s'.policy.p && s'.policy.q <= s.policy.q
  {
    hide Enabled, Next, Draws, Plans, ByWorker;
    if ByWorker(a) {
      WorkerApart(c, s, a);
    } else if Draws(a) {
      DrawsElsewhere(c, s, a);
    } else if Plans(a) {
      PlansClose(c, s, a);
    } else {
      ApplicationApart(c, s, a);
    }
  }

  lemma DrawsElsewhere(c: Config, s: State, a: Step)
    requires Enabled(c, s, a) && Draws(a) && s.policy.Planning?
    ensures !Next(c, s, a).policy.Planning?
  {
  }

  lemma PlansClose(c: Config, s: State, a: Step)
    requires Enabled(c, s, a) && Plans(a) && s.policy.Planning? && Next(c, s, a).policy.Planning?
    ensures var s' := Next(c, s, a);
      s'.policy.scores == s.policy.scores && s.policy.p <= s'.policy.p && s'.policy.q <= s.policy.q
  {
    match a
    case PlanPassHot =>
    case PlanPromote =>
    case PlanGiveUp =>
    case PlanSeekCold =>
    case PlanPassCold =>
    case PlanSwap =>
  }

  /** What the planning loop has yet to reach after a step, it had yet to reach before. */
  lemma UnplannedShrinks(c: Config, s: State, a: Step, d: Did)
    requires Enabled(c, s, a) && s.policy.Planning? && Unplanned(Next(c, s, a), d)
    ensures Unplanned(s, d)
  {
    hide Enabled, Next;
    IndicesClose(c, s, a);
    var s' := Next(c, s, a);
    var i :| 0 <= i < |s'.policy.scores| && s'.policy.p <= i <= s'.policy.q && s'.policy.scores[i] == d;
    assert s.policy.scores[i] == d;
  }

  /** Within one planning round, however the other threads interleave, a page the loop has yet
      to reach is where it was when the round began. */
  lemma {:induction false} RoundStable(c: Config, s: State, steps: seq<Step>, d: Did)
    requires c.moveLate && c.removeLate && Inv(c, s) && Runnable(c, s, steps) && Patient(c, s, steps)
      && OneRound(c, s, steps)
    requires Unplanned(After(c, s, steps), d)
    ensures Unplanned(s, d) && d in s.frame && d in After(c, s, steps).frame
      && After(c, s, steps).frame[d] == s.frame[d]
    decreases |steps|
  {
    hide Inv, Enabled, Next, Unplanned, Takes, Strays;
    if steps == [] {
      UnplannedFacts(c, s, d);
    } else {
      var s' := Next(c, s, steps[0]);
      KeepInv(c, s, steps[0]);
      RoundStable(c, s', steps[1..], d);
      RoundHead(c, s, steps);
      UnplannedShrinks(c, s, steps[0], d);
      UnplannedStays(c, s, steps[0], d);
    }
  }

  lemma RoundHead(c: Config, s: State, steps: seq<Step>)
    requires Runnable(c, s, steps) && OneRound(c, s, steps)
    ensures s.policy.Planning?
  {
  }

  /** The policy thread is planning all through the run. */
  predicate OneRound(c: Config, s: State, steps: seq<Step>)
    requires Runnable(c, s, steps)
    decreases |steps|
  {
    s.policy.Planning? && (steps == [] || OneRound(c, Next(c, s, steps[0]), steps[1..]))
  }

  // ----- the lagging replica -----

  /** d is in the page index, but its add entry is not on the log yet. */
  predicate Untold(s: State, d: Did) { s.fault == Indexed(d) }

  /** d is out of the page index, but its free entry is not on the log yet. */
  predicate Unfreed(s: State, d: Did) { d in s.removing && !s.removing[d].logged }

  /** Draining the log would give the page index, but for the page on its way onto the log
      and those whose free entries are. */
  lemma ReplicaFaithful(c: Config, s: State)
    requires c.removeLate && TakelessReachable(c, s)
    ensures forall i :: 0 <= i < |s.log| ==> s.log[i].d in s.va
    ensures var m := Replay(s.va, s.index, s.log);
      && (forall v :: v in s.pages && !Untold(s, s.pages[v]) ==> v in m && m[v] == s.pages[v])
      && (forall v :: v in m && !Unfreed(s, m[v]) ==> v in s.pages && s.pages[v] == m[v])
      && (forall v :: v in m && Unfreed(s, m[v]) ==> v !in s.pages)
      && (forall v :: v in s.pages && Untold(s, s.pages[v]) ==> v !in m)
    ensures !s.fault.Indexed? && (forall d :: d in s.removing ==> s.removing[d].logged) ==>
      Replay(s.va, s.index, s.log) == s.pages
  {
    hide TakelessReachable, Core, Next, Enabled, Init, Runnable, After, Replay;
    TakelessCore(c, s);
    ReplicaGroups(s);
    ToldPages(s);
  }

  lemma ReplicaGroups(s: State)
    requires Core(s)
    ensures PagesOk(s.va, s.role, s.pages, s.fault) && ToldOk(s.va, s.role, s.told, s.fault)
      && RemovingOk(s.va, s.role, s.removing)
    ensures FaultOk(s.role, s.fault) && Unaliased(s.va, s.role)
    ensures forall i :: 0 <= i < |s.log| ==> s.log[i].d in s.va
    ensures Replay(s.va, s.index, s.log) == s.told
  {
    hide PresentOk, ListOk, SparesOk, FaultOk, FreshOk, PagesOk, LogOk, RemovingOk, ToldOk, IndexOk, NamesOk,
      CountOk, PlanOk, Unaliased, TableOk, FramesOk, FreeTierOk, JobTiersOk, ColdOk, MapOk, MoveOk, MemOk,
      CopyOk;
  }

  lemma ToldPages(s: State)
    requires PagesOk(s.va, s.role, s.pages, s.fault) && ToldOk(s.va, s.role, s.told, s.fault)
      && RemovingOk(s.va, s.role, s.removing)
    requires FaultOk(s.role, s.fault) && Unaliased(s.va, s.role)
    ensures forall v :: v in s.pages && !Untold(s, s.pages[v]) ==> v in s.told && s.told[v] == s.pages[v]
    ensures forall v :: v in s.told && !Unfreed(s, s.told[v]) ==> v in s.pages && s.pages[v] == s.told[v]
    ensures forall v :: v in s.told && Unfreed(s, s.told[v]) ==> v !in s.pages
    ensures forall v :: v in s.pages && Untold(s, s.pages[v]) ==> v !in s.told
    ensures !s.fault.Indexed? && (forall d :: d in s.removing ==> s.removing[d].logged) ==> s.told == s.pages
  {
    hide FaultOk, FreshOk, PagesOk, RemovingOk, ToldOk, Unaliased;
    forall v | v in s.pages
      ensures if Untold(s, s.pages[v]) then v !in s.told else v in s.told && s.told[v] == s.pages[v]
    {
      PagesTold(s, v);
    }
    forall v | v in s.told
      ensures if Unfreed(s, s.told[v]) then v !in s.pages else v in s.pages && s.pages[v] == s.told[v]
    {
      ToldPaged(s, v);
    }
  }

  lemma PagesTold(s: State, v: Va)
    requires PagesOk(s.va, s.role, s.pages, s.fault) && ToldOk(s.va, s.role, s.told, s.fault) && Unaliased(s.va, s.role)
    requires v in s.pages
    ensures if Untold(s, s.pages[v]) then v !in s.told else v in s.told && s.told[v] == s.pages[v]
  {
    if v in s.told {
      assert Backed(s.role[s.told[v]]) && Backed(s.role[s.pages[v]]);
    }
  }

  lemma ToldPaged(s: State, v: Va)
    requires PagesOk(s.va, s.role, s.pages, s.fault) && ToldOk(s.va, s.role, s.told, s.fault)
      && RemovingOk(s.va, s.role, s.removing)
    requires Unaliased(s.va, s.role) && v in s.told
    ensures if Unfreed(s, s.told[v]) then v !in s.pages else v in s.pages && s.pages[v] == s.told[v]
  {
    if v in s.pages {
      assert Backed(s.role[s.told[v]]) && Backed(s.role[s.pages[v]]);
    }
  }

  lemma LoggedUsed(s: State, i: nat)
    requires Core(s) && i < |s.log|
    ensures s.log[i].d in s.va && !(s.fault.Allocated? && s.fault.d == s.log[i].d)
  {
    hide PresentOk, ListOk, SparesOk, IndexOk, NamesOk, CountOk, PlanOk, Unaliased, TableOk, ReplicaOk,
      FramesOk, FreeTierOk, JobTiersOk, ColdOk, MapOk, MoveOk, MemOk, CopyOk;
    assert s.log[i].d in s.role;
  }

  /** Only the fault thread sets an address, that of the page it has just allocated. */
  lemma AddressStays(c: Config, s: State, a: Step, d: Did)
    requires Enabled(c, s, a) && d in s.va && !(s.fault.Allocated? && s.fault.d == d)
    ensures d in Next(c, s, a).va && Next(c, s, a).va[d] == s.va[d]
  {
    if ByPolicy(a) {
      PolicyApart(c, s, a);
    } else if ByWorker(a) {
      WorkerApart(c, s, a);
    } else {
      match a
      case AppWrite(_, _, _) =>
      case RemoveIndex(_) =>
      case RemoveLog(_) =>
      case RemoveClear(_) =>
      case FaultAllocDram(_) =>
      case FaultAllocNvm(_) =>
      case FaultMap =>
      case FaultIndex =>
      case FaultLog =>
    }
  }

  /** The address of a descriptor stays the same as long as the log is about it. */
  lemma LoggedAddressStays(c: Config, s: State, a: Step, i: nat)
    requires c.removeLate && TakelessReachable(c, s) && Enabled(c, s, a) && i < |s.log|
    ensures s.log[i].d in s.va && s.log[i].d in Next(c, s, a).va && Next(c, s, a).va[s.log[i].d] == s.va[s.log[i].d]
  {
    TakelessCore(c, s);
    hide *;
    LoggedUsed(s, i);
    AddressStays(c, s, a, s.log[i].d);
  }

  // ----- memory -----

  /** What an application thread sees of a step. */
  datatype Event = Silent | Touch(v: Va) | Store(v: Va, i: nat, w: int) | Unmap(v: Va)

  function Observed(c: Config, s: State, a: Step): Event
    requires Enabled(c, s, a)
  {
    match a
    case AppWrite(v, i, w) => Store(v, i, w)
    case FaultMap => Touch(s.fault.va)
    case RemoveClear(d) => Unmap(s.removing[d].va)
    case _ => Silent
  }

  /** Memory as the application reads it, through the page table. */
  function View(s: State): map<Va, Page>
  {
    map v | v in s.table && s.table[v].frame in s.mem :: s.mem[s.table[v].frame]
  }

  /** Flat memory: pages appear zeroed, are written to, and go. */
  function Flat(c: Config, m: map<Va, Page>, e: Event): map<Va, Page>
  {
    match e
    case Silent => m
    case Touch(v) => m[v := Zeros(c.words)]
    case Store(v, i, w) => if v in m && i < |m[v]| then m[v := m[v][i := w]] else m
    case Unmap(v) => m - {v}
  }

  function Trace(c: Config, s: State, steps: seq<Step>): seq<Event>
    requires Runnable(c, s, steps)
    decreases |steps|
  {
    if steps == [] then [] else [Observed(c, s, steps[0])] + Trace(c, Next(c, s, steps[0]), steps[1..])
  }

  function FlatRun(c: Config, m: map<Va, Page>, es: seq<Event>): map<Va, Page>
    decreases |es|
  {
    if es == [] then m else FlatRun(c, Flat(c, m, es[0]), es[1..])
  }

  lemma ViewFlat(c: Config, s: State)
    requires Inv(c, s)
    ensures View(s) == s.flat
    ensures forall v :: v in s.flat ==> |s.flat[v]| == c.words
  {
    hide PresentOk, ListOk, SparesOk, FaultOk, FreshOk, PagesOk, LogOk, RemovingOk, ToldOk, IndexOk, NamesOk,
      CountOk, PlanOk, Unaliased, TableOk, ReplicaOk, FramesOk, FreeTierOk, JobTiersOk, ColdOk, MapOk, MoveOk,
      CopyOk, AllFrames;
    assert View(s).Keys == s.table.Keys;
  }

  lemma ApplicationFlat(c: Config, s: State, a: Step)
    requires Enabled(c, s, a) && !ByPolicy(a) && !ByWorker(a)
    ensures Next(c, s, a).flat == Flat(c, s.flat, Observed(c, s, a))
  {
    match a
    case AppWrite(_, _, _) =>
    case RemoveIndex(_) =>
    case RemoveLog(_) =>
    case RemoveClear(_) =>
    case FaultAllocDram(_) =>
    case FaultAllocNvm(_) =>
    case FaultMap =>
    case FaultIndex =>
    case FaultLog =>
  }

  lemma OthersSilent(c: Config, s: State, a: Step)
    requires Enabled(c, s, a) && (ByPolicy(a) || ByWorker(a))
    ensures Observed(c, s, a) == Silent
  {
    hide Enabled;
  }

  lemma FlatStep(c: Config, s: State, a: Step)
    requires Enabled(c, s, a)
    ensures Next(c, s, a).flat == Flat(c, s.flat, Observed(c, s, a))
  {
    hide Enabled, Next, Observed, ByPolicy, ByWorker;
    if ByPolicy(a) {
      PolicyApart(c, s, a);
      OthersSilent(c, s, a);
    } else if ByWorker(a) {
      WorkerApart(c, s, a);
      OthersSilent(c, s, a);
    } else {
      ApplicationFlat(c, s, a);
    }
  }

  lemma {:induction false} FlatTrace(c: Config, s: State, steps: seq<Step>)
    requires Runnable(c, s, steps)
    ensures After(c, s, steps).flat == FlatRun(c, s.flat, Trace(c, s, steps))
    decreases |steps|
  {
    hide Enabled, Next, Flat, Observed;
    if steps != [] {
      FlatStep(c, s, steps[0]);
      FlatTrace(c, Next(c, s, steps[0]), steps[1..]);
      var es := Trace(c, s, steps);
      assert es[0] == Observed(c, s, steps[0]) && es[1..] == Trace(c, Next(c, s, steps[0]), steps[1..]);
    }
  }

  /** Every step of every thread changes what the application reads as one step of flat memory
      does: migrations and all bookkeeping are invisible. */
  lemma StepRefines(c: Config, s: State, a: Step)
    requires c.moveLate && c.removeLate && Inv(c, s) && Enabled(c, s, a) && !Takes(s, a) && !Strays(s, a)
    ensures View(Next(c, s, a)) == Flat(c, View(s), Observed(c, s, a))
  {
    hide *;
    KeepInv(c, s, a);
    ViewFlat(c, s);
    ViewFlat(c, Next(c, s, a));
    FlatStep(c, s, a);
  }

  lemma {:induction false} RunRefines(c: Config, s: State, steps: seq<Step>)
    requires c.moveLate && c.removeLate && Inv(c, s) && Runnable(c, s, steps) && Patient(c, s, steps)
    ensures View(After(c, s, steps)) == FlatRun(c, View(s), Trace(c, s, steps))
    decreases |steps|
  {
    hide Inv, Enabled, Next, View, Flat, Observed, Takes, Strays;
    if steps != [] {
      var s' := Next(c, s, steps[0]);
      StepRefines(c, s, steps[0]);
      KeepInv(c, s, steps[0]);
      RunRefines(c, s', steps[1..]);
      var es := Trace(c, s, steps);
      assert es[0] == Observed(c, s, steps[0]) && es[1..] == Trace(c, s', steps[1..]);
    }
  }

  /** What was last written to word i of page v: zero if nothing was since the page appeared. */
  function LastWritten(es: seq<Event>, v: Va, i: nat): int
    decreases |es|
  {
    if es == [] then 0
    else
      match es[|es| - 1]
      case Store(v', i', w) => if v' == v && i' == i then w else LastWritten(es[..|es| - 1], v, i)
      case Touch(v') => if v' == v then 0 else LastWritten(es[..|es| - 1], v, i)
      case Unmap(v') => if v' == v then 0 else LastWritten(es[..|es| - 1], v, i)
      case Silent => LastWritten(es[..|es| - 1], v, i)
  }

  lemma {:induction false} FlatSnoc(c: Config, m: map<Va, Page>, es: seq<Event>, e: Event)
    ensures FlatRun(c, m, es + [e]) == Flat(c, FlatRun(c, m, es), e)
    decreases |es|
  {
    hide Flat;
    if es == [] {
      assert [e][1..] == [];
    } else {
      assert (es + [e])[0] == es[0] && (es + [e])[1..] == es[1..] + [e];
      FlatSnoc(c, Flat(c, m, es[0]), es[1..], e);
    }
  }

  lemma {:induction false} FlatReads(c: Config, es: seq<Event>, v: Va, i: nat)
    requires v in FlatRun(c, map[], es) && i < c.words
    ensures |FlatRun(c, map[], es)[v]| == c.words && FlatRun(c, map[], es)[v][i] == LastWritten(es, v, i)
    decreases |es|
  {
    if es != [] {
      var front, e := es[..|es| - 1], es[|es| - 1];
      assert es == front + [e];
      FlatSnoc(c, map[], front, e);
      if v in FlatRun(c, map[], front) {
        FlatReads(c, front, v, i);
      }
    }
  }

  /** Tiered memory is flat zero-initialised memory: after any run from pebs_init, over every
      interleaving of stores, faults, migrations and removals, a mapped page reads what was last
      written to it, or zero if nothing was. */
  lemma ReadsLastWritten(c: Config, steps: seq<Step>, v: Va, i: nat)
    requires c.moveLate && c.removeLate && Runnable(c, Init(c), steps) && Patient(c, Init(c), steps)
    requires v in After(c, Init(c), steps).table && i < c.words
    ensures var s := After(c, Init(c), steps);
      && s.table[v].frame in s.mem && |s.mem[s.table[v].frame]| == c.words
      && s.mem[s.table[v].frame][i] == LastWritten(Trace(c, Init(c), steps), v, i)
  {
    hide *;
    InitInv(c);
    KeepRun(c, Init(c), steps);
    InitView(c);
    RunRefines(c, Init(c), steps);
    ViewAt(c, After(c, Init(c), steps), v);
    FlatReads(c, Trace(c, Init(c), steps), v, i);
  }

  lemma InitView(c: Config)
    ensures View(Init(c)) == map[]
  {
    assert View(Init(c)).Keys == {};
  }

  lemma ViewAt(c: Config, s: State, v: Va)
    requires Inv(c, s) && v in s.table
    ensures s.table[v].frame in s.mem && v in View(s) && View(s)[v] == s.mem[s.table[v].frame]
  {
    hide PresentOk, ListOk, SparesOk, FaultOk, FreshOk, PagesOk, LogOk, RemovingOk, ToldOk, IndexOk, NamesOk,
      CountOk, PlanOk, Unaliased, TableOk, ReplicaOk, FramesOk, FreeTierOk, JobTiersOk, ColdOk, MapOk, MoveOk,
      CopyOk, AllFrames;
  }

  // ----- write-protect faults -----

  /** A write that faults on a protected page is handled by the fault thread, which then is at
      rest.  It finds the page in the index exactly if nobody has begun to remove it, and then the
      page is one being moved, so its wait is for a migration. */
  lemma WpFaultFinds(c: Config, s: State, v: Va)
    requires c.moveLate && c.removeLate && PatientlyReachable(c, s) && v in s.table && s.table[v].wp && s.fault.Idle?
    ensures exists d ::
      (&& d in s.present && d in s.va && s.va[d] == v && d in s.migrating
       && (v in s.pages <==> d !in s.removing) && (v in s.pages ==> s.pages[v] == d))
  {
    PatientInv(c, s);
    hide *;
    GroupsApart(c, s);
    var d := MapOwner(s.va, s.frame, s.role, s.table, v);
    WpMoving(c, s.va, s.role, s.migrating, s.running, s.table, d);
    PresentIs(s.role, s.present, d);
    LiveFound(s.va, s.role, s.pages, s.fault, d);
    LiveStays(s.va, s.role, s.removing, d);
  }

  /** The groups of the invariant that mappings and the page index are about. */
  lemma GroupsApart(c: Config, s: State)
    requires Inv(c, s)
    ensures MapOk(s.va, s.frame, s.role, s.table) && MoveOk(c, s.va, s.role, s.migrating, s.running, s.table)
    ensures PresentOk(s.role, s.present) && PagesOk(s.va, s.role, s.pages, s.fault)
      && RemovingOk(s.va, s.role, s.removing) && Unaliased(s.va, s.role)
  {
    hide PresentOk, ListOk, SparesOk, FaultOk, FreshOk, PagesOk, LogOk, RemovingOk, ToldOk, IndexOk, NamesOk,
      CountOk, PlanOk, Unaliased, TableOk, ReplicaOk, FramesOk, FreeTierOk, JobTiersOk, ColdOk, MapOk, MoveOk,
      MemOk, CopyOk;
  }

  lemma MapOwner(va: map<Did, Va>, frame: map<Did, Frame>, role: map<Did, Role>, table: map<Va, Mapping>, v: Va)
      returns (d: Did)
    requires MapOk(va, frame, role, table) && v in table
    ensures d in role && Backed(role[d]) && d in va && va[d] == v
  {
    d :| Owns(va, role, d, v);
  }

  lemma WpMoving(c: Config, va: map<Did, Va>, role: map<Did, Role>, migrating: set<Did>, running: map<Did, Work>,
      table: map<Va, Mapping>, d: Did)
    requires MoveOk(c, va, role, migrating, running, table) && d in role && Backed(role[d]) && d in va
      && va[d] in table && table[va[d]].wp
    ensures d in migrating
  {
  }

  lemma PresentIs(role: map<Did, Role>, present: set<Did>, d: Did)
    requires PresentOk(role, present) && d in role && Backed(role[d])
    ensures d in present
  {
  }

  /** With the fault thread at rest, a backed page is in the index exactly if it is live. */
  lemma LiveFound(va: map<Did, Va>, role: map<Did, Role>, pages: map<Va, Did>, fault: Fault, d: Did)
    requires PagesOk(va, role, pages, fault) && Unaliased(va, role) && d in role && Backed(role[d]) && fault.Idle?
    ensures d in va && (va[d] in pages <==> role[d] == Live) && (va[d] in pages ==> pages[va[d]] == d)
  {
    if va[d] in pages {
      assert Backed(role[pages[va[d]]]);
    }
  }

  lemma LiveStays(va: map<Did, Va>, role: map<Did, Role>, removing: map<Did, Removal>, d: Did)
    requires RemovingOk(va, role, removing) && d in role && Backed(role[d])
    ensures role[d] == Live <==> d !in removing
  {
  }
}
