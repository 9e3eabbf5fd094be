/** Migration threads keep the invariants: starting, dropping, moving and releasing. */
module TieredWork {
  import opened Options
  import opened TieredState
  import opened TieredInv
  import opened TieredRoles
  import opened TieredFault

  // ----- taking a job off the queue -----

  lemma SparesStarted(role: map<Did, Role>, queue: seq<Job>, running: map<Did, Work>)
    requires SparesOk(role, queue, running) && queue != []
    ensures Last(queue).spare !in running && Last(queue).spare in role && role[Last(queue).spare] == Spare
    ensures SparesOk(role, Front(queue), running[Last(queue).spare := Starting(Last(queue))])
  {
    var j, q := Last(queue), Front(queue);
    assert forall i :: 0 <= i < |q| ==> q[i] == queue[i];
    assert queue[|queue| - 1] == j;
    forall d | d in role && role[d] == Spare ensures d in running[j.spare := Starting(j)] || InQueue(q, d) {
      if d !in running && d != j.spare {
        var i :| 0 <= i < |queue| && queue[i].spare == d;
        assert q[i].spare == d;
      }
    }
  }

  lemma JobTiersStarted(frame: map<Did, Frame>, queue: seq<Job>, running: map<Did, Work>)
    requires JobTiersOk(frame, queue, running) && queue != []
    ensures JobTiersOk(frame, Front(queue), running[Last(queue).spare := Starting(Last(queue))])
  {
    assert QueuedOk(frame, queue[|queue| - 1]);
  }

  lemma NamesStarted(role: map<Did, Role>, queue: seq<Job>, running: map<Did, Work>)
    requires NamesOk(role, queue, running) && queue != []
    ensures NamesOk(role, Front(queue), running[Last(queue).spare := Starting(Last(queue))])
  {
    var j, q := Last(queue), Front(queue);
    assert forall i :: 0 <= i < |q| ==> q[i] == queue[i];
    assert queue[|queue| - 1] == j && Starting(j).job == j;
  }

  lemma CountStarted(queue: seq<Job>, running: map<Did, Work>, jobs: nat, done: nat)
    requires CountOk(queue, running, jobs, done) && queue != [] && Last(queue).spare !in running
    ensures CountOk(Front(queue), running[Last(queue).spare := Starting(Last(queue))], jobs, done)
  {
    var d := Last(queue).spare;
    assert running[d := Starting(Last(queue))].Keys == running.Keys + {d};
    assert |running[d := Starting(Last(queue))].Keys| == |running.Keys| + 1;
  }

  lemma PlanStarted(index: map<Va, Did>, queue: seq<Job>, running: map<Did, Work>, policy: Policy)
    requires PlanOk(index, queue, running, policy) && queue != []
    ensures PlanOk(index, Front(queue), running[Last(queue).spare := Starting(Last(queue))], policy)
  {
    var j, q := Last(queue), Front(queue);
    assert forall i :: 0 <= i < |q| ==> q[i] == queue[i];
    assert queue[|queue| - 1] == j && Starting(j).job == j;
  }

  /** Frames are held as before when the work of sp is neither remapped before nor after. */
  lemma FramesStarted(c: Config, role: map<Did, Role>, frame: map<Did, Frame>, running: map<Did, Work>, sp: Did,
      w: Work)
    requires FramesOk(c, role, frame, running) && !w.Remapped? && (sp in running ==> !running[sp].Remapped?)
    ensures FramesOk(c, role, frame, running[sp := w])
  {
    var running' := running[sp := w];
    assert forall d :: d in frame ==> Held(frame, running', d) == Held(frame, running, d);
    forall f | f in AllFrames(c) ensures exists d :: d in frame && Held(frame, running', d) == f {
      var d :| d in frame && Held(frame, running, d) == f;
      assert Held(frame, running', d) == f;
    }
  }

  lemma MoveStarted(c: Config, va: map<Did, Va>, role: map<Did, Role>, migrating: set<Did>,
      running: map<Did, Work>, table: map<Va, Mapping>, sp: Did, w: Work)
    requires MoveOk(c, va, role, migrating, running, table) && (w.AtDemote? || w.AtPromote?)
    ensures MoveOk(c, va, role, migrating, running[sp := w], table)
  {
  }

  lemma CopyStarted(frame: map<Did, Frame>, running: map<Did, Work>, mem: map<Frame, Page>, sp: Did, w: Work)
    requires CopyOk(frame, running, mem) && !w.Moving?
    ensures CopyOk(frame, running[sp := w], mem)
  {
  }

  lemma CoreStart(c: Config, s: State)
    requires Core(s) && CanStart(c, s)
    ensures Core(Start(c, s))
  {
    hide PresentOk, ListOk, SparesOk, FaultOk, FreshOk, PagesOk, LogOk, RemovingOk, ToldOk, IndexOk, NamesOk,
      CountOk, PlanOk, Unaliased, TableOk, ReplicaOk, ColdOk, Starting;
    SparesStarted(s.role, s.queue, s.running);
    NamesStarted(s.role, s.queue, s.running);
    CountStarted(s.queue, s.running, s.jobs, s.done);
    PlanStarted(s.index, s.queue, s.running, s.policy);
  }

  lemma KeepStart(c: Config, s: State)
    requires Inv(c, s) && CanStart(c, s)
    ensures Inv(c, Start(c, s))
  {
    hide PresentOk, ListOk, SparesOk, FaultOk, FreshOk, PagesOk, LogOk, RemovingOk, ToldOk, IndexOk, NamesOk,
      CountOk, PlanOk, Unaliased, TableOk, ReplicaOk, FramesOk, FreeTierOk, JobTiersOk, ColdOk, MapOk, MoveOk,
      MemOk, CopyOk, Starting;
    var j := Last(s.queue);
    CoreStart(c, s);
    SparesStarted(s.role, s.queue, s.running);
    JobTiersStarted(s.frame, s.queue, s.running);
    FramesStarted(c, s.role, s.frame, s.running, j.spare, Starting(j));
    MoveStarted(c, s.va, s.role, s.migrating, s.running, s.table, j.spare, Starting(j));
    CopyStarted(s.frame, s.running, s.mem, j.spare, Starting(j));
  }

  // ----- a job leaves -----

  lemma SparesDropped(role: map<Did, Role>, queue: seq<Job>, running: map<Did, Work>, sp: Did, t: Tier)
    requires SparesOk(role, queue, running) && sp in running
    ensures sp in role && role[sp] == Spare
    ensures SparesOk(role[sp := FreeIn(t)], queue, running - {sp})
  {
  }

  lemma JobTiersDropped(frame: map<Did, Frame>, queue: seq<Job>, running: map<Did, Work>, sp: Did)
    requires JobTiersOk(frame, queue, running)
    ensures JobTiersOk(frame, queue, running - {sp})
  {
  }

  lemma NamesDropped(role: map<Did, Role>, queue: seq<Job>, running: map<Did, Work>, sp: Did, t: Tier)
    requires NamesOk(role, queue, running) && sp in role
    ensures NamesOk(role[sp := FreeIn(t)], queue, running - {sp})
  {
  }

  lemma CountDropped(queue: seq<Job>, running: map<Did, Work>, jobs: nat, done: nat, sp: Did)
    requires CountOk(queue, running, jobs, done) && sp in running
    ensures CountOk(queue, running - {sp}, jobs, done + 1)
  {
    assert running.Keys == (running - {sp}).Keys + {sp};
    assert |running.Keys| == |(running - {sp}).Keys| + 1;
  }

  lemma PlanDropped(index: map<Va, Did>, queue: seq<Job>, running: map<Did, Work>, policy: Policy, sp: Did)
    requires PlanOk(index, queue, running, policy)
    ensures PlanOk(index, queue, running - {sp}, policy)
  {
  }

  lemma FramesDropped(c: Config, role: map<Did, Role>, frame: map<Did, Frame>, running: map<Did, Work>, sp: Did)
    requires FramesOk(c, role, frame, running) && sp in running && !running[sp].Remapped?
    ensures FramesOk(c, role, frame, running - {sp})
  {
    var running' := running - {sp};
    assert forall d :: d in frame ==> Held(frame, running', d) == Held(frame, running, d);
    forall f | f in AllFrames(c) ensures exists d :: d in frame && Held(frame, running', d) == f {
      var d :| d in frame && Held(frame, running, d) == f;
      assert Held(frame, running', d) == f;
    }
  }

  lemma MoveDropped(c: Config, va: map<Did, Va>, role: map<Did, Role>, migrating: set<Did>,
      running: map<Did, Work>, table: map<Va, Mapping>, sp: Did)
    requires MoveOk(c, va, role, migrating, running, table)
    ensures MoveOk(c, va, role, migrating, running - {sp}, table)
  {
  }

  lemma CopyDropped(frame: map<Did, Frame>, running: map<Did, Work>, mem: map<Frame, Page>, sp: Did)
    requires CopyOk(frame, running, mem)
    ensures CopyOk(frame, running - {sp}, mem)
  {
  }

  lemma WorkTier(frame: map<Did, Frame>, queue: seq<Job>, running: map<Did, Work>, sp: Did)
    requires JobTiersOk(frame, queue, running) && sp in running
    ensures WorkOk(frame, running[sp])
  {
  }

  lemma SpareOwn(role: map<Did, Role>, queue: seq<Job>, running: map<Did, Work>, sp: Did)
    requires SparesOk(role, queue, running) && sp in running
    ensures sp in role && role[sp] == Spare && running[sp].job.spare == sp && Sane(running[sp])
  {
  }

  /** Groups that do not mind a job's free page going to a free list. */
  lemma GiveBack(s: State, sp: Did, t: Tier)
    requires Core(s) && sp in s.running
    ensures sp in s.role && s.role[sp] == Spare
    ensures PresentOk(s.role[sp := FreeIn(t)], s.present)
    ensures FaultOk(s.role[sp := FreeIn(t)], s.fault)
    ensures FreshOk(s.va, s.role[sp := FreeIn(t)], s.fault)
    ensures PagesOk(s.va, s.role[sp := FreeIn(t)], s.pages, s.fault)
    ensures LogOk(s.role[sp := FreeIn(t)], s.log)
    ensures RemovingOk(s.va, s.role[sp := FreeIn(t)], s.removing)
    ensures ToldOk(s.va, s.role[sp := FreeIn(t)], s.told, s.fault)
    ensures IndexOk(s.va, s.role[sp := FreeIn(t)], s.index)
    ensures Unaliased(s.va, s.role[sp := FreeIn(t)])
    ensures TableOk(s.va, s.role[sp := FreeIn(t)], s.table)
    ensures SparesOk(s.role[sp := FreeIn(t)], s.queue, s.running - {sp})
    ensures NamesOk(s.role[sp := FreeIn(t)], s.queue, s.running - {sp})
    ensures CountOk(s.queue, s.running - {sp}, s.jobs, s.done + 1)
    ensures PlanOk(s.index, s.queue, s.running - {sp}, s.policy)
  {
    hide PresentOk, ListOk, SparesOk, FaultOk, FreshOk, PagesOk, LogOk, RemovingOk, ToldOk, IndexOk, NamesOk,
      CountOk, PlanOk, Unaliased, TableOk, ReplicaOk, ColdOk;
    SparesDropped(s.role, s.queue, s.running, sp, t);
    NotMapped(s.role, s.fault, sp);
    PresentSame(s.role, s.present, sp, FreeIn(t));
    FaultRole(s.role, s.fault, sp, FreeIn(t));
    FreshRole(s.va, s.role, s.fault, sp, FreeIn(t));
    PagesRole(s.va, s.role, s.pages, s.fault, sp, FreeIn(t));
    LogRole(s.role, s.log, sp, FreeIn(t));
    RemovingRole(s.va, s.role, s.removing, sp, FreeIn(t));
    ToldRole(s.va, s.role, s.told, s.fault, sp, FreeIn(t));
    IndexRole(s.va, s.role, s.index, sp, FreeIn(t));
    UnaliasedRole(s.va, s.role, sp, FreeIn(t));
    TableRole(s.va, s.role, s.table, sp, FreeIn(t));
    NamesDropped(s.role, s.queue, s.running, sp, t);
    CountDropped(s.queue, s.running, s.jobs, s.done, sp);
    PlanDropped(s.index, s.queue, s.running, s.policy, sp);
  }

  /** A dropped job's free page is in the tier it is given back to. */
  lemma SkipTier(c: Config, s: State, sp: Did)
    requires Inv(c, s) && CanSkip(s, sp)
    ensures sp in s.role && s.role[sp] == Spare
    ensures Tiered(s.frame, sp, if s.running[sp].AtDemote? then Nvm else Dram)
  {
    hide PresentOk, ListOk, SparesOk, FaultOk, FreshOk, PagesOk, LogOk, RemovingOk, ToldOk, IndexOk, NamesOk,
      CountOk, PlanOk, Unaliased, TableOk, ReplicaOk, FramesOk, FreeTierOk, JobTiersOk, ColdOk, MapOk, MoveOk,
      MemOk, CopyOk;
    WorkTier(s.frame, s.queue, s.running, sp);
    SpareOwn(s.role, s.queue, s.running, sp);
  }

  lemma CoreSkip(s: State, sp: Did)
    requires Core(s) && CanSkip(s, sp)
    ensures Core(Skip(s, sp)) && s.role[sp] == Spare
  {
    hide PresentOk, ListOk, SparesOk, FaultOk, FreshOk, PagesOk, LogOk, RemovingOk, ToldOk, IndexOk, NamesOk,
      CountOk, PlanOk, Unaliased, TableOk, ReplicaOk, ColdOk;
    var t := if s.running[sp].AtDemote? then Nvm else Dram;
    GiveBack(s, sp, t);
    if t == Dram {
      ListPush(s.role, s.dramFree, Dram, sp, FreeIn(Dram));
      ListOther(s.role, s.nvmFree, Nvm, sp, FreeIn(Dram));
    } else {
      ListPush(s.role, s.nvmFree, Nvm, sp, FreeIn(Nvm));
      ListOther(s.role, s.dramFree, Dram, sp, FreeIn(Nvm));
    }
  }

  lemma KeepSkip(c: Config, s: State, sp: Did)
    requires Inv(c, s) && CanSkip(s, sp)
    ensures Inv(c, Skip(s, sp))
  {
    hide TableOk, FramesOk, FreeTierOk, JobTiersOk, ColdOk, MapOk, MoveOk, MemOk, CopyOk, Core;
    CoreSkip(s, sp);
    SkipTier(c, s, sp);
    LeaveWork(c, s, sp, if s.running[sp].AtDemote? then Nvm else Dram);
  }

  /** What a dropped job does to the groups that look at frames, mappings and moves. */
  lemma LeaveWork(c: Config, s: State, sp: Did, t: Tier)
    requires Placed(c, s) && CanSkip(s, sp) && sp in s.role && s.role[sp] == Spare && Tiered(s.frame, sp, t)
    ensures FramesOk(c, s.role[sp := FreeIn(t)], s.frame, s.running - {sp})
    ensures FreeTierOk(s.frame, s.role[sp := FreeIn(t)])
    ensures JobTiersOk(s.frame, s.queue, s.running - {sp})
    ensures MapOk(s.va, s.frame, s.role[sp := FreeIn(t)], s.table)
    ensures MoveOk(c, s.va, s.role[sp := FreeIn(t)], s.migrating, s.running - {sp}, s.table)
    ensures CopyOk(s.frame, s.running - {sp}, s.mem)
  {
    hide TableOk, FramesOk, FreeTierOk, JobTiersOk, ColdOk, MapOk, MoveOk, MemOk, CopyOk;
    FramesDropped(c, s.role, s.frame, s.running, sp);
    FramesRole(c, s.role, s.frame, s.running - {sp}, sp, FreeIn(t));
    FreeTierRole(s.frame, s.role, sp, FreeIn(t));
    JobTiersDropped(s.frame, s.queue, s.running, sp);
    MapRole(s.va, s.frame, s.role, s.table, sp, FreeIn(t));
    MoveDropped(c, s.va, s.role, s.migrating, s.running, s.table, sp);
    MoveRole(c, s.va, s.role, s.migrating, s.running - {sp}, s.table, sp, FreeIn(t));
    CopyDropped(s.frame, s.running, s.mem, sp);
  }

  // ----- a job goes on -----

  lemma SparesWork(role: map<Did, Role>, queue: seq<Job>, running: map<Did, Work>, sp: Did, w: Work)
    requires SparesOk(role, queue, running) && sp in running && w.job == running[sp].job && Sane(w)
    ensures SparesOk(role, queue, running[sp := w])
  {
  }

  lemma NamesWork(role: map<Did, Role>, queue: seq<Job>, running: map<Did, Work>, sp: Did, w: Work)
    requires NamesOk(role, queue, running) && sp in running && w.job == running[sp].job
    ensures NamesOk(role, queue, running[sp := w])
  {
  }

  lemma CountWork(queue: seq<Job>, running: map<Did, Work>, jobs: nat, done: nat, sp: Did, w: Work)
    requires CountOk(queue, running, jobs, done) && sp in running
    ensures CountOk(queue, running[sp := w], jobs, done)
  {
    assert running[sp := w].Keys == running.Keys;
    assert |running[sp := w]| == |running[sp := w].Keys| && |running| == |running.Keys|;
  }

  lemma PlanWork(index: map<Va, Did>, queue: seq<Job>, running: map<Did, Work>, policy: Policy, sp: Did, w: Work)
    requires PlanOk(index, queue, running, policy) && sp in running && w.job == running[sp].job
    ensures PlanOk(index, queue, running[sp := w], policy)
  {
  }

  lemma JobTiersWork(frame: map<Did, Frame>, queue: seq<Job>, running: map<Did, Work>, sp: Did, w: Work)
    requires JobTiersOk(frame, queue, running) && WorkOk(frame, w)
    ensures JobTiersOk(frame, queue, running[sp := w])
  {
  }

  /** Groups that only look at which jobs are outstanding. */
  lemma GoOn(s: State, sp: Did, w: Work)
    requires Core(s) && sp in s.running && w.job == s.running[sp].job && Sane(w)
    ensures SparesOk(s.role, s.queue, s.running[sp := w])
    ensures NamesOk(s.role, s.queue, s.running[sp := w])
    ensures CountOk(s.queue, s.running[sp := w], s.jobs, s.done)
    ensures PlanOk(s.index, s.queue, s.running[sp := w], s.policy)
  {
    hide PresentOk, ListOk, SparesOk, FaultOk, FreshOk, PagesOk, LogOk, RemovingOk, ToldOk, IndexOk, NamesOk,
      CountOk, PlanOk, Unaliased, TableOk, ReplicaOk, ColdOk;
    SparesWork(s.role, s.queue, s.running, sp, w);
    NamesWork(s.role, s.queue, s.running, sp, w);
    CountWork(s.queue, s.running, s.jobs, s.done, sp, w);
    PlanWork(s.index, s.queue, s.running, s.policy, sp, w);
  }

  // ----- beginning to move -----

  lemma PresentBacked(role: map<Did, Role>, present: set<Did>, d: Did)
    requires PresentOk(role, present) && d in present
    ensures d in role && (role[d] == Faulting || Backed(role[d]))
  {
  }

  lemma FaultingIs(role: map<Did, Role>, fault: Fault, d: Did)
    requires FaultOk(role, fault) && d in role && !(fault.Allocated? && fault.d == d)
    ensures role[d] != Faulting
  {
  }

  lemma MapWp(va: map<Did, Va>, frame: map<Did, Frame>, role: map<Did, Role>, table: map<Va, Mapping>, v: Va, b: bool)
    requires MapOk(va, frame, role, table) && v in table
    ensures MapOk(va, frame, role, table[v := Mapping(table[v].frame, b)])
  {
    var table' := table[v := Mapping(table[v].frame, b)];
    assert table'.Keys == table.Keys;
  }

  lemma MemWp(c: Config, mem: map<Frame, Page>, table: map<Va, Mapping>, flat: map<Va, Page>, v: Va, b: bool)
    requires MemOk(c, mem, table, flat) && v in table
    ensures MemOk(c, mem, table[v := Mapping(table[v].frame, b)], flat)
  {
    assert table[v := Mapping(table[v].frame, b)].Keys == table.Keys;
  }

  lemma MoveBegun(c: Config, va: map<Did, Va>, role: map<Did, Role>, migrating: set<Did>, running: map<Did, Work>,
      table: map<Va, Mapping>, sp: Did, w: Work, f: Frame)
    requires MoveOk(c, va, role, migrating, running, table) && Unaliased(va, role)
    requires Sane(w) && w.Moving? && w.copied == 0
    requires Target(w) in role && Backed(role[Target(w)]) && Target(w) !in migrating && va[Target(w)] in table
    requires sp in running && !running[sp].Moving? && !running[sp].Remapped?
    ensures MoveOk(c, va, role, migrating + {Target(w)}, running[sp := w], table[va[Target(w)] := Mapping(f, true)])
  {
  }

  lemma CopyBegun(frame: map<Did, Frame>, running: map<Did, Work>, mem: map<Frame, Page>, sp: Did, w: Work)
    requires CopyOk(frame, running, mem) && Sane(w) && w.Moving? && w.copied == 0
    requires sp in frame && Target(w) in frame && frame[sp] in mem && frame[Target(w)] in mem
    ensures CopyOk(frame, running[sp := w], mem)
  {
  }

  lemma CoreBegin(c: Config, s: State, sp: Did)
    requires Core(s) && CanBegin(c, s, sp)
    ensures Core(Begin(c, s, sp))
  {
    hide PresentOk, ListOk, SparesOk, FaultOk, FreshOk, PagesOk, LogOk, RemovingOk, ToldOk, IndexOk, NamesOk,
      CountOk, PlanOk, Unaliased, TableOk, ReplicaOk, ColdOk;
    var w := s.running[sp];
    var v := s.va[Target(w)];
    GoOn(s, sp, Moving(w.job, w.AtPromote?, 0));
    TableMore(s.va, s.role, s.table, v, Mapping(s.table[v].frame, true));
  }

  lemma KeepBegin(c: Config, s: State, sp: Did)
    requires Inv(c, s) && CanBegin(c, s, sp) && c.moveLate
    ensures Inv(c, Begin(c, s, sp))
  {
    hide PresentOk, ListOk, SparesOk, FaultOk, FreshOk, PagesOk, LogOk, RemovingOk, ToldOk, IndexOk, NamesOk,
      CountOk, PlanOk, Unaliased, TableOk, ReplicaOk, FramesOk, FreeTierOk, JobTiersOk, ColdOk, MapOk, MoveOk,
      MemOk, CopyOk;
    var w := s.running[sp];
    var d := Target(w);
    var v := s.va[d];
    var w' := Moving(w.job, w.AtPromote?, 0);
    CoreBegin(c, s, sp);
    PresentBacked(s.role, s.present, d);
    FaultingIs(s.role, s.fault, d);
    WorkTier(s.frame, s.queue, s.running, sp);
    assert Target(w') == d && WorkOk(s.frame, w');
    BeginMemory(c, s, sp);
    hide WorkOk;
    JobTiersWork(s.frame, s.queue, s.running, sp, w');
    FramesStarted(c, s.role, s.frame, s.running, sp, w');
    MapWp(s.va, s.frame, s.role, s.table, v, true);
    MoveBegun(c, s.va, s.role, s.migrating, s.running, s.table, sp, w', s.table[v].frame);
    MemWp(c, s.mem, s.table, s.flat, v, true);
    CopyBegun(s.frame, s.running, s.mem, sp, w');
  }

  lemma BeginMemory(c: Config, s: State, sp: Did)
    requires Inv(c, s) && AtPage(s, sp) && Backed(s.role[Target(s.running[sp])])
    ensures sp in s.frame && s.frame[sp] in s.mem
    ensures Target(s.running[sp]) in s.frame && s.frame[Target(s.running[sp])] in s.mem
  {
    hide PresentOk, ListOk, FaultOk, FreshOk, PagesOk, LogOk, RemovingOk, ToldOk, IndexOk, NamesOk, CountOk,
      PlanOk, Unaliased, TableOk, ReplicaOk, FreeTierOk, JobTiersOk, ColdOk, MapOk, MoveOk, CopyOk;
    var d := Target(s.running[sp]);
    assert d !in s.running;
    assert Held(s.frame, s.running, sp) == s.frame[sp] && Held(s.frame, s.running, d) == s.frame[d];
  }

  // ----- copying -----

  lemma MemUnmapped(c: Config, mem: map<Frame, Page>, table: map<Va, Mapping>, flat: map<Va, Page>, f: Frame, x: Page)
    requires MemOk(c, mem, table, flat) && f in mem && |x| == c.words
    requires forall u :: u in table ==> table[u].frame != f
    ensures MemOk(c, mem[f := x], table, flat)
  {
    assert mem[f := x].Keys == mem.Keys;
  }

  lemma MoveCopied(c: Config, va: map<Did, Va>, role: map<Did, Role>, migrating: set<Did>, running: map<Did, Work>,
      table: map<Va, Mapping>, sp: Did)
    requires MoveOk(c, va, role, migrating, running, table)
    requires sp in running && running[sp].Moving? && running[sp].copied < c.words
    ensures MoveOk(c, va, role, migrating, running[sp := running[sp].(copied := running[sp].copied + 1)], table)
  {
  }

  /** Two moves never share a frame: not the ones they fill, nor one that is filled with one
      that is read. */
  lemma MovesApart(c: Config, s: State, sp: Did, sq: Did)
    requires Inv(c, s) && sp in s.running && s.running[sp].Moving?
    requires sq in s.running && s.running[sq].Moving? && Sane(s.running[sq]) && sq in s.frame
      && Target(s.running[sq]) in s.frame
    ensures sp in s.frame && (sq != sp ==> s.frame[sq] != s.frame[sp]) && s.frame[Target(s.running[sq])] != s.frame[sp]
  {
    hide PresentOk, ListOk, FaultOk, FreshOk, PagesOk, LogOk, RemovingOk, ToldOk, IndexOk, NamesOk, CountOk,
      PlanOk, Unaliased, TableOk, ReplicaOk, FreeTierOk, JobTiersOk, ColdOk, MapOk, MemOk, CopyOk;
    var e := Target(s.running[sq]);
    assert e !in s.running;
    assert Held(s.frame, s.running, e) == s.frame[e] && Held(s.frame, s.running, sp) == s.frame[sp];
    assert Held(s.frame, s.running, sq) == s.frame[sq];
  }

  /** One more word agrees; the other moves are not touched. */
  lemma CopyCopied(frame: map<Did, Frame>, running: map<Did, Work>, mem: map<Frame, Page>, sp: Did)
    requires CopyOk(frame, running, mem)
    requires sp in running && running[sp].Moving? && Sane(running[sp]) && sp in frame && Target(running[sp]) in frame
    requires frame[sp] in mem && frame[Target(running[sp])] in mem
    requires running[sp].copied < |mem[frame[sp]]| == |mem[frame[Target(running[sp])]]|
    requires forall sq ::
      sq in running && running[sq].Moving? && Sane(running[sq]) && sq in frame && Target(running[sq]) in frame ==>
      (sq != sp ==> frame[sq] != frame[sp]) && frame[Target(running[sq])] != frame[sp]
    ensures var w := running[sp]; var x := mem[frame[sp]][w.copied := mem[frame[Target(w)]][w.copied]];
      CopyOk(frame, running[sp := w.(copied := w.copied + 1)], mem[frame[sp] := x])
  {
  }

  lemma CoreCopy(c: Config, s: State, sp: Did)
    requires Core(s) && CanCopy(c, s, sp)
    ensures Core(Copy(c, s, sp))
  {
    hide PresentOk, ListOk, SparesOk, FaultOk, FreshOk, PagesOk, LogOk, RemovingOk, ToldOk, IndexOk, NamesOk,
      CountOk, PlanOk, Unaliased, TableOk, ReplicaOk, ColdOk;
    var w := s.running[sp];
    GoOn(s, sp, Moving(w.job, w.up, w.copied + 1));
  }

  lemma KeepCopy(c: Config, s: State, sp: Did)
    requires Inv(c, s) && CanCopy(c, s, sp)
    ensures Inv(c, Copy(c, s, sp))
  {
    hide PresentOk, ListOk, SparesOk, FaultOk, FreshOk, PagesOk, LogOk, RemovingOk, ToldOk, IndexOk, NamesOk,
      CountOk, PlanOk, Unaliased, TableOk, ReplicaOk, FramesOk, FreeTierOk, JobTiersOk, ColdOk, MapOk, MoveOk,
      MemOk, CopyOk;
    var w := s.running[sp];
    var w' := w.(copied := w.copied + 1);
    assert w' == Moving(w.job, w.up, w.copied + 1);
    WorkTier(s.frame, s.queue, s.running, sp);
    assert WorkOk(s.frame, w') && Sane(w');
    hide WorkOk;
    SpareOwn(s.role, s.queue, s.running, sp);
    CoreCopy(c, s, sp);
    JobTiersWork(s.frame, s.queue, s.running, sp, w');
    FramesStarted(c, s.role, s.frame, s.running, sp, w');
    MoveCopied(c, s.va, s.role, s.migrating, s.running, s.table, sp);
    forall u | u in s.table ensures s.table[u].frame != s.frame[sp] {
      FrameUnmapped(c, s, sp, u);
    }
    MemUnmapped(c, s.mem, s.table, s.flat, s.frame[sp],
      s.mem[s.frame[sp]][w.copied := s.mem[s.frame[Target(w)]][w.copied]]);
    forall sq | sq in s.running && s.running[sq].Moving? && Sane(s.running[sq]) && sq in s.frame
      && Target(s.running[sq]) in s.frame
      ensures (sq != sp ==> s.frame[sq] != s.frame[sp]) && s.frame[Target(s.running[sq])] != s.frame[sp]
    {
      MovesApart(c, s, sp, sq);
    }
    CopyCopied(s.frame, s.running, s.mem, sp);
  }
}
