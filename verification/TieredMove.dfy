/** Remapping a copied page and releasing it keep the invariants. */
module TieredMove {
  import opened Options
  import opened TieredState
  import opened TieredInv
  import opened TieredRoles
  import opened TieredFault
  import opened TieredPlan
  import opened TieredWork

  // ----- what no other job touches -----

  /** d is not a free page of an outstanding job, nor named by one but that of sp. */
  ghost predicate Private(queue: seq<Job>, running: map<Did, Work>, sp: Did, d: Did)
  {
    && (forall i :: 0 <= i < |queue| ==> d !in Names(queue[i]) && d != queue[i].spare)
    && (forall sq :: sq in running && sq != sp ==>
       d !in Names(running[sq].job) && d != running[sq].job.spare && d != sq)
  }

  lemma TargetNamed(w: Work)
    requires Sane(w)
    ensures Target(w) in Names(w.job)
  {
  }

  lemma TargetPrivate(role: map<Did, Role>, queue: seq<Job>, running: map<Did, Work>, sp: Did)
    requires NamesOk(role, queue, running) && SparesOk(role, queue, running) && sp in running
    ensures Sane(running[sp]) && Private(queue, running, sp, Target(running[sp]))
    ensures Target(running[sp]) in role && role[Target(running[sp])] != Spare
  {
    TargetNamed(running[sp]);
    var d := Target(running[sp]);
    forall i | 0 <= i < |queue| ensures d !in Names(queue[i]) && d != queue[i].spare {
      assert Names(queue[i]) !! Names(running[sp].job);
    }
  }

  lemma SparePrivate(role: map<Did, Role>, queue: seq<Job>, running: map<Did, Work>, sp: Did)
    requires NamesOk(role, queue, running) && SparesOk(role, queue, running) && sp in running
    ensures Private(queue, running, sp, sp) && sp !in Names(running[sp].job)
  {
  }

  lemma QueuedReframed(frame: map<Did, Frame>, j: Job, d: Did, f: Frame)
    requires QueuedOk(frame, j) && d !in Names(j) && d != j.spare
    ensures QueuedOk(frame[d := f], j)
  {
  }

  lemma WorkReframed(frame: map<Did, Frame>, w: Work, d: Did, f: Frame)
    requires WorkOk(frame, w) && d !in Names(w.job) && d != w.job.spare
    ensures WorkOk(frame[d := f], w)
  {
  }

  /** A frame changes that only the job of sp looks at. */
  lemma JobTiersReframed(frame: map<Did, Frame>, queue: seq<Job>, running: map<Did, Work>, sp: Did, d: Did, f: Frame)
    requires JobTiersOk(frame, queue, running) && Private(queue, running, sp, d)
    ensures JobTiersOk(frame[d := f], queue, running - {sp})
  {
    forall i | 0 <= i < |queue| ensures QueuedOk(frame[d := f], queue[i]) {
      QueuedReframed(frame, queue[i], d, f);
    }
    forall sq | sq in running - {sp} ensures WorkOk(frame[d := f], running[sq]) {
      WorkReframed(frame, running[sq], d, f);
    }
  }

  lemma JobTiersResumed(frame: map<Did, Frame>, queue: seq<Job>, running: map<Did, Work>, sp: Did, w: Work)
    requires JobTiersOk(frame, queue, running - {sp}) && WorkOk(frame, w)
    ensures JobTiersOk(frame, queue, running[sp := w])
  {
    hide WorkOk, QueuedOk;
    var rest, running' := running - {sp}, running[sp := w];
    forall sq | sq in running' ensures WorkOk(frame, running'[sq]) {
      assert sq == sp || sq in rest;
    }
  }

  lemma CopyReframed(frame: map<Did, Frame>, queue: seq<Job>, running: map<Did, Work>, mem: map<Frame, Page>,
      sp: Did, d: Did, f: Frame)
    requires CopyOk(frame, running, mem) && Private(queue, running, sp, d)
    ensures CopyOk(frame[d := f], running - {sp}, mem)
  {
    forall sq | sq in running - {sp} && running[sq].Moving?
      ensures Sane(running[sq]) && sq != d && Target(running[sq]) != d
    {
      TargetNamed(running[sq]);
    }
  }

  lemma CopyResumed(frame: map<Did, Frame>, running: map<Did, Work>, mem: map<Frame, Page>, sp: Did, w: Work)
    requires CopyOk(frame, running - {sp}, mem) && !w.Moving?
    ensures CopyOk(frame, running[sp := w], mem)
  {
    var rest, running' := running - {sp}, running[sp := w];
    assert forall sq :: sq in running' && running'[sq].Moving? ==> sq in rest && rest[sq] == running'[sq];
  }

  lemma ColdReframed(frame: map<Did, Frame>, policy: Policy, d: Did, f: Frame)
    requires ColdOk(frame, policy)
    requires policy.Planning? && policy.cold && 0 <= policy.p < |policy.scores| ==> policy.scores[policy.p] != d
    ensures ColdOk(frame[d := f], policy)
  {
  }

  // ----- remapping -----

  /** d and sp trade what they hold, all others hold what they held. */
  ghost predicate Traded(frame: map<Did, Frame>, running: map<Did, Work>, frame': map<Did, Frame>,
      running': map<Did, Work>, d: Did, sp: Did)
  {
    && frame'.Keys == frame.Keys && d in frame && sp in frame
    && forall e :: e in frame ==> Held(frame', running', e) == Held(frame, running, Other(d, sp, e))
  }

  function Other(d: Did, sp: Did, e: Did): Did
  {
    if e == d then sp else if e == sp then d else e
  }

  lemma FramesOnto(c: Config, role: map<Did, Role>, frame: map<Did, Frame>, running: map<Did, Work>, f: Frame)
      returns (e: Did)
    requires FramesOk(c, role, frame, running) && f in AllFrames(c)
    ensures e in frame && Held(frame, running, e) == f
  {
    hide Held, AllFrames;
    e :| e in frame && Held(frame, running, e) == f;
  }

  lemma FramesEach(c: Config, role: map<Did, Role>, frame: map<Did, Frame>, running: map<Did, Work>, d: Did, e: Did)
    requires FramesOk(c, role, frame, running) && d in frame && e in frame && d != e
    ensures Held(frame, running, d) in AllFrames(c) && Held(frame, running, d) != Held(frame, running, e)
  {
    hide Held, AllFrames;
  }

  lemma FramesMake(c: Config, role: map<Did, Role>, frame: map<Did, Frame>, running: map<Did, Work>)
    requires role.Keys == frame.Keys
    requires forall d :: d in frame ==> Held(frame, running, d) in AllFrames(c)
    requires forall d, e :: d in frame && e in frame && d != e ==> Held(frame, running, d) != Held(frame, running, e)
    requires forall f :: f in AllFrames(c) ==> exists d :: d in frame && Held(frame, running, d) == f
    ensures FramesOk(c, role, frame, running)
  {
    hide Held, AllFrames;
  }

  lemma TradedKeys(frame: map<Did, Frame>, running: map<Did, Work>, frame': map<Did, Frame>,
      running': map<Did, Work>, d: Did, sp: Did)
    requires Traded(frame, running, frame', running', d, sp)
    ensures frame'.Keys == frame.Keys
  {
  }

  lemma TradedFacts(frame: map<Did, Frame>, running: map<Did, Work>, frame': map<Did, Frame>,
      running': map<Did, Work>, d: Did, sp: Did, e: Did)
    requires Traded(frame, running, frame', running', d, sp) && e in frame
    ensures Other(d, sp, e) in frame && Other(d, sp, Other(d, sp, e)) == e
    ensures Held(frame', running', e) == Held(frame, running, Other(d, sp, e))
  {
    hide Held;
  }

  lemma FramesKeys(c: Config, role: map<Did, Role>, frame: map<Did, Frame>, running: map<Did, Work>, d: Did)
    requires FramesOk(c, role, frame, running)
    ensures role.Keys == frame.Keys
    ensures d in frame ==> Held(frame, running, d) in AllFrames(c)
  {
    hide Held, AllFrames;
  }

  lemma FramesSwapped(c: Config, role: map<Did, Role>, frame: map<Did, Frame>, running: map<Did, Work>,
      frame': map<Did, Frame>, running': map<Did, Work>, d: Did, sp: Did)
    requires FramesOk(c, role, frame, running) && Traded(frame, running, frame', running', d, sp)
    ensures FramesOk(c, role, frame', running')
  {
    hide *;
    FramesKeys(c, role, frame, running, d);
    TradedKeys(frame, running, frame', running', d, sp);
    forall e | e in frame' ensures Held(frame', running', e) in AllFrames(c) {
      TradedFacts(frame, running, frame', running', d, sp, e);
      FramesKeys(c, role, frame, running, Other(d, sp, e));
    }
    forall e, g | e in frame' && g in frame' && e != g ensures Held(frame', running', e) != Held(frame', running', g) {
      TradedFacts(frame, running, frame', running', d, sp, e);
      TradedFacts(frame, running, frame', running', d, sp, g);
      FramesEach(c, role, frame, running, Other(d, sp, e), Other(d, sp, g));
    }
    forall f | f in AllFrames(c) ensures exists e :: e in frame' && Held(frame', running', e) == f {
      var e := FramesOnto(c, role, frame, running, f);
      TradedFacts(frame, running, frame', running', d, sp, e);
      TradedFacts(frame, running, frame', running', d, sp, Other(d, sp, e));
      assert Held(frame', running', Other(d, sp, e)) == f;
    }
    FramesMake(c, role, frame', running');
  }

  /** The page and the job's free page have, between them, the two frames they had. */
  lemma FramesRemapped(c: Config, role: map<Did, Role>, frame: map<Did, Frame>, running: map<Did, Work>, sp: Did,
      d: Did, w: Work)
    requires FramesOk(c, role, frame, running)
    requires d in frame && sp in frame && d != sp && d !in running && sp in running && !running[sp].Remapped?
    requires w.Remapped? && w.left == frame[d]
    ensures FramesOk(c, role, frame[d := frame[sp]], running[sp := w])
  {
    hide FramesOk, AllFrames;
    FramesSwapped(c, role, frame, running, frame[d := frame[sp]], running[sp := w], d, sp);
  }

  lemma FreeTierReframed(frame: map<Did, Frame>, role: map<Did, Role>, d: Did, f: Frame)
    requires FreeTierOk(frame, role) && d in role && !role[d].FreeIn? && !role[d].Early?
    ensures FreeTierOk(frame[d := f], role)
  {
  }

  lemma MapRemapped(va: map<Did, Va>, frame: map<Did, Frame>, role: map<Did, Role>, table: map<Va, Mapping>,
      d: Did, f: Frame)
    requires MapOk(va, frame, role, table) && Unaliased(va, role) && d in role && Backed(role[d])
    ensures MapOk(va, frame[d := f], role, table[va[d] := Mapping(f, false)])
  {
    var table' := table[va[d] := Mapping(f, false)];
    assert table'.Keys == table.Keys && frame[d := f].Keys == frame.Keys;
  }

  lemma MoveRemapped(c: Config, va: map<Did, Va>, role: map<Did, Role>, migrating: set<Did>, queue: seq<Job>,
      running: map<Did, Work>,
      table: map<Va, Mapping>, sp: Did, w: Work, f: Frame)
    requires MoveOk(c, va, role, migrating, running, table) && Unaliased(va, role)
    requires sp in running && running[sp].Moving? && Sane(running[sp])
      && Private(queue, running, sp, Target(running[sp]))
    requires w.Remapped? && w.job == running[sp].job && w.up == running[sp].up
    ensures MoveOk(c, va, role, migrating, running[sp := w], table[va[Target(w)] := Mapping(f, false)])
  {
    var d := Target(running[sp]);
    assert Sane(w) && Target(w) == d;
    forall sq | sq in running && sq != sp && (running[sq].Moving? || running[sq].Remapped?)
      ensures Sane(running[sq]) && Target(running[sq]) != d
    {
      TargetNamed(running[sq]);
    }
  }

  lemma MoveFacts(c: Config, va: map<Did, Va>, role: map<Did, Role>, migrating: set<Did>, running: map<Did, Work>,
      table: map<Va, Mapping>, sp: Did)
    requires MoveOk(c, va, role, migrating, running, table) && sp in running
      && (running[sp].Moving? || running[sp].Remapped?)
    ensures Sane(running[sp]) && Target(running[sp]) in role && Backed(role[Target(running[sp])])
    ensures role.Keys == va.Keys && va[Target(running[sp])] in table
  {
  }

  /** A fully copied page reads the same from its new frame. */
  lemma MemRemapped(c: Config, frame: map<Did, Frame>, running: map<Did, Work>, mem: map<Frame, Page>,
      table: map<Va, Mapping>, flat: map<Va, Page>, sp: Did, v: Va)
    requires MemOk(c, mem, table, flat) && CopyOk(frame, running, mem)
    requires sp in running && running[sp].Moving? && running[sp].copied == c.words && v in table
    requires Sane(running[sp]) && sp in frame && Target(running[sp]) in frame
      && table[v].frame == frame[Target(running[sp])]
    ensures MemOk(c, mem, table[v := Mapping(frame[sp], false)], flat)
  {
    var table' := table[v := Mapping(frame[sp], false)];
    assert table'.Keys == table.Keys;
    assert mem[frame[sp]] == mem[frame[Target(running[sp])]];
  }

  lemma MapFrame(va: map<Did, Va>, frame: map<Did, Frame>, role: map<Did, Role>, table: map<Va, Mapping>, d: Did)
    requires MapOk(va, frame, role, table) && d in role && Backed(role[d])
    ensures d in va && d in frame && va[d] in table && table[va[d]].frame == frame[d]
  {
  }

  /** The hot page the planning loop stays at is not being moved. */
  lemma PlanHotUnnamed(s: State, d: Did, sp: Did)
    requires Core(s) && sp in s.running && (d in Names(s.running[sp].job) || d == sp)
    requires s.policy.Planning? && s.policy.cold
    ensures 0 <= s.policy.p < |s.policy.scores| && s.policy.scores[s.policy.p] != d
  {
    hide PresentOk, ListOk, SparesOk, FaultOk, FreshOk, PagesOk, LogOk, RemovingOk, ToldOk, IndexOk, NamesOk,
      CountOk, PlanOk, Unaliased, TableOk, ReplicaOk, ColdOk;
    PlanColdFacts(s.index, s.queue, s.running, s.policy);
    AheadFacts(s, s.policy.p);
    SpareOwn(s.role, s.queue, s.running, sp);
  }

  lemma CoreRemap(c: Config, s: State, sp: Did)
    requires Core(s) && CanRemap(c, s, sp)
    ensures Core(Remap(c, s, sp))
  {
    hide PresentOk, ListOk, SparesOk, FaultOk, FreshOk, PagesOk, LogOk, RemovingOk, ToldOk, IndexOk, NamesOk,
      CountOk, PlanOk, Unaliased, TableOk, ReplicaOk, ColdOk;
    var w := s.running[sp];
    var d := Target(w);
    GoOn(s, sp, Remapped(w.job, w.up, s.frame[d]));
    TableMore(s.va, s.role, s.table, s.va[d], Mapping(s.frame[sp], false));
  }

  /** A page whose free entry has not been drained, or whose removal is over, is not on a free list
      early. */
  lemma NotEarly(s: State, d: Did)
    requires Core(s) && d in s.role && !Drained(s, d)
    ensures !s.role[d].Early?
  {
    hide PresentOk, ListOk, SparesOk, FaultOk, FreshOk, PagesOk, ToldOk, IndexOk, NamesOk, CountOk, PlanOk,
      Unaliased, TableOk, ReplicaOk, ColdOk;
  }

  lemma KeepRemap(c: Config, s: State, sp: Did)
    requires Inv(c, s) && CanRemap(c, s, sp) && !Drained(s, Target(s.running[sp]))
    ensures Inv(c, Remap(c, s, sp))
  {
    hide PresentOk, ListOk, SparesOk, FaultOk, FreshOk, PagesOk, LogOk, RemovingOk, ToldOk, IndexOk, NamesOk,
      CountOk, PlanOk, Unaliased, TableOk, ReplicaOk, FramesOk, FreeTierOk, JobTiersOk, ColdOk, MapOk, MoveOk,
      MemOk, CopyOk, Private, WorkOk, Drained;
    var w := s.running[sp];
    var d := Target(w);
    var v, f := s.va[d], s.frame[sp];
    var w' := Remapped(w.job, w.up, s.frame[d]);
    CoreRemap(c, s, sp);
    TargetPrivate(s.role, s.queue, s.running, sp);
    SpareOwn(s.role, s.queue, s.running, sp);
    MoveFacts(c, s.va, s.role, s.migrating, s.running, s.table, sp);
    MapFrame(s.va, s.frame, s.role, s.table, d);
    NotEarly(s, d);
    RemapTier(c, s, sp, w');
    RemapCold(c, s, sp);
    NotRunning(s.role, s.queue, s.running, d);
    FramesRemapped(c, s.role, s.frame, s.running, sp, d, w');
    FreeTierReframed(s.frame, s.role, d, f);
    MapRemapped(s.va, s.frame, s.role, s.table, d, f);
    MoveRemapped(c, s.va, s.role, s.migrating, s.queue, s.running, s.table, sp, w', f);
    MemRemapped(c, s.frame, s.running, s.mem, s.table, s.flat, sp, v);
    CopyReframed(s.frame, s.queue, s.running, s.mem, sp, d, f);
    CopyResumed(s.frame[d := f], s.running, s.mem, sp, w');
  }

  lemma RemapCold(c: Config, s: State, sp: Did)
    requires Inv(c, s) && CanRemap(c, s, sp)
    ensures ColdOk(s.frame[Target(s.running[sp]) := s.frame[sp]], s.policy)
  {
    hide TableOk, FramesOk, FreeTierOk, JobTiersOk, ColdOk, MapOk, MoveOk, MemOk, CopyOk, Core;
    var d := Target(s.running[sp]);
    TargetNamed(s.running[sp]);
    if s.policy.Planning? && s.policy.cold {
      PlanHotUnnamed(s, d, sp);
    }
    ColdReframed(s.frame, s.policy, d, s.frame[sp]);
  }

  /** The tiers of the moved page and of the frame it left are as the job wants them. */
  lemma RemapTier(c: Config, s: State, sp: Did, w': Work)
    requires Inv(c, s) && CanRemap(c, s, sp)
    requires w' == Remapped(s.running[sp].job, s.running[sp].up, s.frame[Target(s.running[sp])])
    ensures JobTiersOk(s.frame[Target(s.running[sp]) := s.frame[sp]], s.queue, s.running[sp := w'])
  {
    hide PresentOk, ListOk, SparesOk, FaultOk, FreshOk, PagesOk, LogOk, RemovingOk, ToldOk, IndexOk, NamesOk,
      CountOk, PlanOk, Unaliased, TableOk, ReplicaOk, FramesOk, FreeTierOk, JobTiersOk, ColdOk, MapOk, MoveOk,
      MemOk, CopyOk;
    var d := Target(s.running[sp]);
    TargetPrivate(s.role, s.queue, s.running, sp);
    SpareOwn(s.role, s.queue, s.running, sp);
    WorkTier(s.frame, s.queue, s.running, sp);
    assert WorkOk(s.frame[d := s.frame[sp]], w');
    JobTiersReframed(s.frame, s.queue, s.running, sp, d, s.frame[sp]);
    JobTiersResumed(s.frame[d := s.frame[sp]], s.queue, s.running, sp, w');
  }

  // ----- releasing -----

  /** The free page takes the frame the job held for it: nothing changes hands. */
  lemma FramesReleased(c: Config, role: map<Did, Role>, frame: map<Did, Frame>, running: map<Did, Work>, sp: Did)
    requires FramesOk(c, role, frame, running) && sp in running && running[sp].Remapped? && sp in frame
    ensures FramesOk(c, role, frame[sp := running[sp].left], running - {sp})
  {
    hide FramesOk, AllFrames;
    FramesSwapped(c, role, frame, running, frame[sp := running[sp].left], running - {sp}, sp, sp);
  }

  lemma FramesResumed(c: Config, role: map<Did, Role>, frame: map<Did, Frame>, running: map<Did, Work>, sp: Did,
      w: Work)
    requires FramesOk(c, role, frame, running - {sp}) && !w.Remapped? && sp in frame
    ensures FramesOk(c, role, frame, running[sp := w])
  {
    hide FramesOk, AllFrames;
    FramesSwapped(c, role, frame, running - {sp}, frame, running[sp := w], sp, sp);
  }

  lemma MapReframed(va: map<Did, Va>, frame: map<Did, Frame>, role: map<Did, Role>, table: map<Va, Mapping>,
      d: Did, f: Frame)
    requires MapOk(va, frame, role, table) && d in role && !Backed(role[d])
    ensures MapOk(va, frame[d := f], role, table)
  {
    assert frame[d := f].Keys == frame.Keys;
  }

  /** The page is unlocked: no other move is about it, and it is not write-protected. */
  lemma MoveReleased(c: Config, va: map<Did, Va>, role: map<Did, Role>, migrating: set<Did>, queue: seq<Job>,
      running: map<Did, Work>,
      table: map<Va, Mapping>, sp: Did)
    requires MoveOk(c, va, role, migrating, running, table) && sp in running && running[sp].Remapped?
    requires Sane(running[sp]) && Private(queue, running, sp, Target(running[sp]))
    ensures MoveOk(c, va, role, migrating - {Target(running[sp])}, running - {sp}, table)
  {
    var d := Target(running[sp]);
    forall sq | sq in running && sq != sp && (running[sq].Moving? || running[sq].Remapped?)
      ensures Sane(running[sq]) && Target(running[sq]) != d
    {
      TargetNamed(running[sq]);
    }
  }

  lemma MoveResumed(c: Config, va: map<Did, Va>, role: map<Did, Role>, migrating: set<Did>,
      running: map<Did, Work>, table: map<Va, Mapping>, sp: Did, w: Work)
    requires MoveOk(c, va, role, migrating, running - {sp}, table) && !w.Moving? && !w.Remapped?
    ensures MoveOk(c, va, role, migrating, running[sp := w], table)
  {
    var rest, running' := running - {sp}, running[sp := w];
    assert forall sq :: sq in running' && (running'[sq].Moving? || running'[sq].Remapped?) ==>
      sq in rest && rest[sq] == running'[sq];
  }

  lemma NotPresent(role: map<Did, Role>, present: set<Did>, d: Did)
    requires PresentOk(role, present) && d in role && role[d] == Spare
    ensures present - {d} == present
  {
    assert d !in present;
  }

  /** What both releases do to the groups that look at frames. */
  lemma Released(c: Config, s: State, sp: Did)
    requires Inv(c, s) && Runs(s, sp) && s.running[sp].Remapped?
    ensures var frame' := s.frame[sp := s.running[sp].left];
      && FramesOk(c, s.role, frame', s.running - {sp})
      && JobTiersOk(frame', s.queue, s.running - {sp})
      && ColdOk(frame', s.policy)
      && MapOk(s.va, frame', s.role, s.table)
      && MoveOk(c, s.va, s.role, s.migrating - {Target(s.running[sp])}, s.running - {sp}, s.table)
      && CopyOk(frame', s.running - {sp}, s.mem)
  {
    hide PresentOk, ListOk, SparesOk, FaultOk, FreshOk, PagesOk, LogOk, RemovingOk, ToldOk, IndexOk, NamesOk,
      CountOk, PlanOk, Unaliased, TableOk, ReplicaOk, FramesOk, FreeTierOk, JobTiersOk, ColdOk, MapOk, MoveOk,
      MemOk, CopyOk, Private;
    var f := s.running[sp].left;
    SpareOwn(s.role, s.queue, s.running, sp);
    SparePrivate(s.role, s.queue, s.running, sp);
    TargetPrivate(s.role, s.queue, s.running, sp);
    FramesReleased(c, s.role, s.frame, s.running, sp);
    JobTiersReframed(s.frame, s.queue, s.running, sp, sp, f);
    if s.policy.Planning? && s.policy.cold {
      PlanHotUnnamed(s, sp, sp);
    }
    ColdReframed(s.frame, s.policy, sp, f);
    MapReframed(s.va, s.frame, s.role, s.table, sp, f);
    MoveReleased(c, s.va, s.role, s.migrating, s.queue, s.running, s.table, sp);
    CopyReframed(s.frame, s.queue, s.running, s.mem, sp, sp, f);
  }

  lemma CoreReleaseUp(s: State, sp: Did)
    requires Core(s) && CanRelease(s, sp, true)
    ensures Core(ReleaseUp(s, sp)) && s.role[sp] == Spare
  {
    hide PresentOk, ListOk, SparesOk, FaultOk, FreshOk, PagesOk, LogOk, RemovingOk, ToldOk, IndexOk, NamesOk,
      CountOk, PlanOk, Unaliased, TableOk, ReplicaOk, ColdOk;
    GiveBack(s, sp, Nvm);
    NotPresent(s.role, s.present, sp);
    ListPush(s.role, s.nvmFree, Nvm, sp, FreeIn(Nvm));
    ListOther(s.role, s.dramFree, Dram, sp, FreeIn(Nvm));
  }

  lemma KeepReleaseUp(c: Config, s: State, sp: Did)
    requires Inv(c, s) && CanRelease(s, sp, true)
    ensures Inv(c, ReleaseUp(s, sp))
  {
    hide TableOk, FramesOk, FreeTierOk, JobTiersOk, ColdOk, MapOk, MoveOk, MemOk, CopyOk, Core;
    var f, t := s.running[sp].left, FreeIn(Nvm);
    var frame', migrating' := s.frame[sp := f], s.migrating - {Target(s.running[sp])};
    CoreReleaseUp(s, sp);
    Released(c, s, sp);
    WorkTier(s.frame, s.queue, s.running, sp);
    FramesRole(c, s.role, frame', s.running - {sp}, sp, t);
    FreeTierReframed(s.frame, s.role, sp, f);
    FreeTierRole(frame', s.role, sp, t);
    MapRole(s.va, frame', s.role, s.table, sp, t);
    MoveRole(c, s.va, s.role, migrating', s.running - {sp}, s.table, sp, t);
  }

  lemma CoreReleaseDown(s: State, sp: Did)
    requires Core(s) && CanRelease(s, sp, false)
    ensures Core(ReleaseDown(s, sp)) && s.role[sp] == Spare && s.running[sp].job.spare == sp
      && sp !in Names(s.running[sp].job)
  {
    hide PresentOk, ListOk, SparesOk, FaultOk, FreshOk, PagesOk, LogOk, RemovingOk, ToldOk, IndexOk, NamesOk,
      CountOk, PlanOk, Unaliased, TableOk, ReplicaOk, ColdOk;
    SpareOwn(s.role, s.queue, s.running, sp);
    SparePrivate(s.role, s.queue, s.running, sp);
    NotPresent(s.role, s.present, sp);
    GoOn(s, sp, AtPromote(s.running[sp].job));
  }

  lemma KeepReleaseDown(c: Config, s: State, sp: Did)
    requires Inv(c, s) && CanRelease(s, sp, false)
    ensures Inv(c, ReleaseDown(s, sp))
  {
    hide TableOk, FramesOk, FreeTierOk, JobTiersOk, ColdOk, MapOk, MoveOk, MemOk, CopyOk, Core;
    var f, w := s.running[sp].left, s.running[sp];
    var w' := AtPromote(w.job);
    var frame', migrating' := s.frame[sp := f], s.migrating - {Target(w)};
    CoreReleaseDown(s, sp);
    Released(c, s, sp);
    WorkTier(s.frame, s.queue, s.running, sp);
    assert WorkOk(frame', w');
    hide WorkOk;
    FramesResumed(c, s.role, frame', s.running, sp, w');
    FreeTierReframed(s.frame, s.role, sp, f);
    JobTiersResumed(frame', s.queue, s.running, sp, w');
    MoveResumed(c, s.va, s.role, migrating', s.running, s.table, sp, w');
    CopyResumed(frame', s.running, s.mem, sp, w');
  }
}
