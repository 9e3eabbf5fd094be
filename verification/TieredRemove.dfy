/** Unmapping, writing and draining the log keep the invariants of the tiered-memory manager. */
module TieredRemove {
  import opened Options
  import opened TieredState
  import opened TieredInv
  import opened TieredRoles
  import opened TieredFault

  // ----- leaving the page index -----

  lemma PagesFacts(va: map<Did, Va>, role: map<Did, Role>, pages: map<Va, Did>, fault: Fault, v: Va)
    requires PagesOk(va, role, pages, fault) && v in pages
    ensures pages[v] in role && role[pages[v]] == Live && va[pages[v]] == v && fault != Mapped(pages[v])
  {
  }

  lemma PagesRemoved(va: map<Did, Va>, role: map<Did, Role>, pages: map<Va, Did>, fault: Fault, v: Va)
    requires PagesOk(va, role, pages, fault) && v in pages
    ensures PagesOk(va, role[pages[v] := Dropped], pages - {v}, fault)
  {
    assert role[pages[v] := Dropped].Keys == role.Keys;
  }

  lemma RemovingBegun(va: map<Did, Va>, role: map<Did, Role>, removing: map<Did, Removal>, d: Did)
    requires RemovingOk(va, role, removing) && d in role && role[d] == Live
    ensures RemovingOk(va, role[d := Dropped], removing[d := Removal(va[d], false)])
  {
    assert role[d := Dropped].Keys == role.Keys;
  }

  lemma ToldDropped(va: map<Did, Va>, role: map<Did, Role>, told: map<Va, Did>, fault: Fault, d: Did)
    requires ToldOk(va, role, told, fault) && d in role && role[d] == Live
    ensures ToldOk(va, role[d := Dropped], told, fault)
  {
    assert role[d := Dropped].Keys == role.Keys;
  }

  lemma CoreRemove(c: Config, s: State, v: Va)
    requires Core(s) && CanRemove(c, s, v) && c.removeLate
    ensures Core(Remove(c, s, v)) && s.pages[v] in s.role && s.role[s.pages[v]] == Live
  {
    hide PresentOk, ListOk, SparesOk, FaultOk, FreshOk, PagesOk, LogOk, RemovingOk, ToldOk, IndexOk, NamesOk,
      CountOk, PlanOk, Unaliased, TableOk, ReplicaOk, ColdOk;
    var d := s.pages[v];
    PagesFacts(s.va, s.role, s.pages, s.fault, v);
    PresentSame(s.role, s.present, d, Dropped);
    ListOther(s.role, s.dramFree, Dram, d, Dropped);
    ListOther(s.role, s.nvmFree, Nvm, d, Dropped);
    SparesRole(s.role, s.queue, s.running, d, Dropped);
    FaultRole(s.role, s.fault, d, Dropped);
    FreshRole(s.va, s.role, s.fault, d, Dropped);
    PagesRemoved(s.va, s.role, s.pages, s.fault, v);
    LogRole(s.role, s.log, d, Dropped);
    RemovingBegun(s.va, s.role, s.removing, d);
    ToldDropped(s.va, s.role, s.told, s.fault, d);
    IndexRole(s.va, s.role, s.index, d, Dropped);
    NamesRole(s.role, s.queue, s.running, d, Dropped);
    UnaliasedRole(s.va, s.role, d, Dropped);
    TableRole(s.va, s.role, s.table, d, Dropped);
  }

  lemma KeepRemove(c: Config, s: State, v: Va)
    requires Inv(c, s) && CanRemove(c, s, v) && c.removeLate
    ensures Inv(c, Remove(c, s, v))
  {
    hide TableOk, FramesOk, FreeTierOk, JobTiersOk, ColdOk, MapOk, MoveOk, MemOk, CopyOk, Core;
    CoreRemove(c, s, v);
    Reassign(c, s, s.pages[v], Dropped);
  }

  // ----- publishing the removal -----

  lemma RemovingFacts(va: map<Did, Va>, role: map<Did, Role>, removing: map<Did, Removal>, d: Did)
    requires RemovingOk(va, role, removing) && d in removing
    ensures d in role && d in va && Going(role[d]) && (removing[d].logged <==> role[d] != Dropped)
      && removing[d].va == va[d]
  {
  }

  lemma LogFreed(role: map<Did, Role>, log: seq<Entry>, d: Did)
    requires LogOk(role, log) && d in role && role[d] == Dropped
    ensures LogOk(role[d := Leaving], log + [Entry(d, true)])
  {
    var log', role' := log + [Entry(d, true)], role[d := Leaving];
    assert forall i :: 0 <= i < |log| ==> log'[i] == log[i];
    assert log'[|log|] == Entry(d, true);
    forall e | e in role' && (role'[e] == Leaving || role'[e] == Gone) ensures Entry(e, true) in log' {
      if e != d { assert Entry(e, true) in log; }
    }
  }

  lemma RemovingLogged(va: map<Did, Va>, role: map<Did, Role>, removing: map<Did, Removal>, d: Did)
    requires RemovingOk(va, role, removing) && d in role && role[d] == Dropped
    ensures RemovingOk(va, role[d := Leaving], removing[d := Removal(va[d], true)])
  {
    assert role[d := Leaving].Keys == role.Keys;
  }

  lemma ToldFreed(va: map<Did, Va>, role: map<Did, Role>, told: map<Va, Did>, fault: Fault, d: Did)
    requires ToldOk(va, role, told, fault) && Unaliased(va, role) && d in role && role[d] == Dropped
      && !Adding(fault, d)
    ensures d in va && va[d] in told && told[va[d]] == d
    ensures ToldOk(va, role[d := Leaving], told - {va[d]}, fault)
  {
    assert role[d := Leaving].Keys == role.Keys;
  }

  lemma ReplicaFreed(va: map<Did, Va>, told: map<Va, Did>, index: map<Va, Did>, log: seq<Entry>, d: Did)
    requires ReplicaOk(va, told, index, log) && d in va && va[d] in told && told[va[d]] == d
    ensures ReplicaOk(va, told - {va[d]}, index, log + [Entry(d, true)])
  {
    ReplaySnoc(va, index, log, Entry(d, true));
  }

  lemma CorePublish(s: State, d: Did)
    requires Core(s) && CanPublish(s, d)
    ensures Core(Publish(s, d)) && s.role[d] == Dropped
  {
    hide PresentOk, ListOk, SparesOk, FaultOk, FreshOk, PagesOk, LogOk, RemovingOk, ToldOk, IndexOk, NamesOk,
      CountOk, PlanOk, Unaliased, TableOk, ReplicaOk, ColdOk;
    RemovingFacts(s.va, s.role, s.removing, d);
    NotMapped(s.role, s.fault, d);
    PresentSame(s.role, s.present, d, Leaving);
    ListOther(s.role, s.dramFree, Dram, d, Leaving);
    ListOther(s.role, s.nvmFree, Nvm, d, Leaving);
    SparesRole(s.role, s.queue, s.running, d, Leaving);
    FaultRole(s.role, s.fault, d, Leaving);
    FreshRole(s.va, s.role, s.fault, d, Leaving);
    PagesRole(s.va, s.role, s.pages, s.fault, d, Leaving);
    LogFreed(s.role, s.log, d);
    RemovingLogged(s.va, s.role, s.removing, d);
    ToldFreed(s.va, s.role, s.told, s.fault, d);
    IndexRole(s.va, s.role, s.index, d, Leaving);
    NamesRole(s.role, s.queue, s.running, d, Leaving);
    UnaliasedRole(s.va, s.role, d, Leaving);
    TableRole(s.va, s.role, s.table, d, Leaving);
    ReplicaFreed(s.va, s.told, s.index, s.log, d);
  }

  lemma KeepPublish(c: Config, s: State, d: Did)
    requires Inv(c, s) && CanPublish(s, d)
    ensures Inv(c, Publish(s, d))
  {
    hide TableOk, FramesOk, FreeTierOk, JobTiersOk, ColdOk, MapOk, MoveOk, MemOk, CopyOk, Core;
    CorePublish(s, d);
    Reassign(c, s, d, Leaving);
  }

  // ----- clearing and unmapping -----

  /** What a descriptor is once `present` has been cleared: waiting to be drained, or free. */
  function Cleared(r: Role): Role { if r.Early? then FreeIn(r.tier) else Gone }

  lemma TableCleared(va: map<Did, Va>, role: map<Did, Role>, table: map<Va, Mapping>, d: Did, r: Role)
    requires TableOk(va, role, table) && Unaliased(va, role) && d in role && Backed(role[d]) && !Backed(r)
    ensures TableOk(va, role[d := r], table - {va[d]})
  {
    assert role[d := r].Keys == role.Keys;
  }

  lemma MapCleared(va: map<Did, Va>, frame: map<Did, Frame>, role: map<Did, Role>, table: map<Va, Mapping>,
      d: Did, r: Role)
    requires MapOk(va, frame, role, table) && Unaliased(va, role) && d in role && Backed(role[d]) && !Backed(r)
    ensures MapOk(va, frame, role[d := r], table - {va[d]})
  {
    var role', table' := role[d := r], table - {va[d]};
    assert role'.Keys == role.Keys;
    forall v | v in table' ensures exists e :: Owns(va, role', e, v) {
      var e :| Owns(va, role, e, v);
      assert Owns(va, role', e, v);
    }
  }

  lemma MoveCleared(c: Config, va: map<Did, Va>, role: map<Did, Role>, migrating: set<Did>, running: map<Did, Work>,
      table: map<Va, Mapping>, d: Did, r: Role)
    requires MoveOk(c, va, role, migrating, running, table) && Unaliased(va, role)
    requires d in role && Backed(role[d]) && d !in migrating && !Backed(r)
    ensures MoveOk(c, va, role[d := r], migrating, running, table - {va[d]})
  {
    assert role[d := r].Keys == role.Keys;
  }

  lemma MemCleared(c: Config, mem: map<Frame, Page>, table: map<Va, Mapping>, flat: map<Va, Page>, v: Va)
    requires MemOk(c, mem, table, flat)
    ensures MemOk(c, mem, table - {v}, flat - {v})
  {
    assert (flat - {v}).Keys == flat.Keys - {v} == (table - {v}).Keys;
  }

  lemma RemovingDone(va: map<Did, Va>, role: map<Did, Role>, removing: map<Did, Removal>, d: Did, r: Role)
    requires RemovingOk(va, role, removing) && d in role && Going(role[d]) && !Going(r)
    ensures RemovingOk(va, role[d := r], removing - {d})
  {
    assert role[d := r].Keys == role.Keys;
  }

  lemma CoreClear(s: State, d: Did)
    requires Core(s) && CanClear(s, d)
    ensures Core(Clear(s, d)) && (s.role[d] == Leaving || s.role[d].Early?) && s.removing[d].va == s.va[d]
  {
    hide PresentOk, ListOk, SparesOk, FaultOk, FreshOk, PagesOk, LogOk, RemovingOk, ToldOk, IndexOk, NamesOk,
      CountOk, PlanOk, Unaliased, TableOk, ReplicaOk, ColdOk;
    var r := Cleared(s.role[d]);
    RemovingFacts(s.va, s.role, s.removing, d);
    PresentRole(s.role, s.present, d, r, s.present - {d});
    ListOther(s.role, s.dramFree, Dram, d, r);
    ListOther(s.role, s.nvmFree, Nvm, d, r);
    SparesRole(s.role, s.queue, s.running, d, r);
    NotMapped(s.role, s.fault, d);
    FaultRole(s.role, s.fault, d, r);
    FreshRole(s.va, s.role, s.fault, d, r);
    PagesRole(s.va, s.role, s.pages, s.fault, d, r);
    LogRole(s.role, s.log, d, r);
    RemovingDone(s.va, s.role, s.removing, d, r);
    ToldRole(s.va, s.role, s.told, s.fault, d, r);
    IndexRole(s.va, s.role, s.index, d, r);
    NamesRole(s.role, s.queue, s.running, d, r);
    UnaliasedRole(s.va, s.role, d, r);
    TableCleared(s.va, s.role, s.table, d, r);
  }

  lemma KeepClear(c: Config, s: State, d: Did)
    requires Inv(c, s) && CanClear(s, d)
    ensures Inv(c, Clear(s, d))
  {
    hide PresentOk, ListOk, SparesOk, FaultOk, FreshOk, PagesOk, LogOk, RemovingOk, ToldOk, IndexOk, NamesOk,
      CountOk, PlanOk, Unaliased, TableOk, ReplicaOk, FramesOk, FreeTierOk, JobTiersOk, ColdOk, MapOk, MoveOk,
      MemOk, CopyOk;
    var r := Cleared(s.role[d]);
    CoreClear(s, d);
    FramesRole(c, s.role, s.frame, s.running, d, r);
    FreeTierCleared(s.frame, s.role, d);
    MapCleared(s.va, s.frame, s.role, s.table, d, r);
    MoveCleared(c, s.va, s.role, s.migrating, s.running, s.table, d, r);
    MemCleared(c, s.mem, s.table, s.flat, s.va[d]);
  }

  lemma FreeTierCleared(frame: map<Did, Frame>, role: map<Did, Role>, d: Did)
    requires FreeTierOk(frame, role) && d in role
    ensures FreeTierOk(frame, role[d := Cleared(role[d])])
  {
  }

  // ----- an application write -----

  /** Two mapped pages never share a frame. */
  lemma FramesApart(c: Config, s: State, u: Va, v: Va)
    requires Inv(c, s) && u in s.table && v in s.table && u != v
    ensures s.table[u].frame != s.table[v].frame
  {
    hide PresentOk, ListOk, FaultOk, FreshOk, PagesOk, LogOk, RemovingOk, ToldOk, IndexOk, NamesOk, CountOk,
      PlanOk, Unaliased, ReplicaOk, FreeTierOk, JobTiersOk, ColdOk, MoveOk, MemOk, CopyOk;
    var d :| Owns(s.va, s.role, d, u);
    var e :| Owns(s.va, s.role, e, v);
    assert d !in s.running && e !in s.running;
    assert Held(s.frame, s.running, d) == s.frame[d] && Held(s.frame, s.running, e) == s.frame[e];
  }

  lemma MemWritten(c: Config, mem: map<Frame, Page>, table: map<Va, Mapping>, flat: map<Va, Page>, v: Va, i: nat,
      w: int)
    requires MemOk(c, mem, table, flat) && v in table && i < c.words
    requires forall u :: u in table && u != v ==> table[u].frame != table[v].frame
    ensures table[v].frame in mem && |mem[table[v].frame]| == c.words && v in flat && |flat[v]| == c.words
    ensures MemOk(c, mem[table[v].frame := mem[table[v].frame][i := w]], table, flat[v := flat[v][i := w]])
  {
    var f := table[v].frame;
    assert mem[f := mem[f][i := w]].Keys == mem.Keys && flat[v := flat[v][i := w]].Keys == flat.Keys;
  }

  /** A page whose frame a move reads or fills cannot be written to. */
  lemma WriteUnmoved(c: Config, s: State, v: Va, sp: Did)
    requires Inv(c, s) && v in s.table && !s.table[v].wp
    requires sp in s.running && s.running[sp].Moving? && Sane(s.running[sp]) && sp in s.frame
      && Target(s.running[sp]) in s.frame
    ensures s.frame[sp] != s.table[v].frame && s.frame[Target(s.running[sp])] != s.table[v].frame
  {
    hide PresentOk, ListOk, FaultOk, FreshOk, PagesOk, LogOk, RemovingOk, ToldOk, IndexOk, NamesOk, CountOk,
      PlanOk, Unaliased, ReplicaOk, FramesOk, FreeTierOk, JobTiersOk, ColdOk, MemOk, CopyOk;
    assert sp in s.role && s.role[sp] == Spare;
    FrameUnmapped(c, s, sp, v);
    var d := Target(s.running[sp]);
    assert Backed(s.role[d]) && s.va[d] in s.table && s.table[s.va[d]].wp;
    assert s.table[s.va[d]].frame == s.frame[d];
    FramesApart(c, s, s.va[d], v);
  }

  lemma KeepWrite(c: Config, s: State, v: Va, i: nat, w: int)
    requires Inv(c, s) && CanWrite(c, s, v, i)
    ensures Inv(c, Write(c, s, v, i, w))
  {
    hide PresentOk, ListOk, SparesOk, FaultOk, FreshOk, PagesOk, LogOk, RemovingOk, ToldOk, IndexOk, NamesOk,
      CountOk, PlanOk, Unaliased, TableOk, ReplicaOk, FramesOk, FreeTierOk, JobTiersOk, ColdOk, MapOk, MoveOk,
      MemOk, CopyOk;
    forall u | u in s.table && u != v ensures s.table[u].frame != s.table[v].frame {
      FramesApart(c, s, u, v);
    }
    MemWritten(c, s.mem, s.table, s.flat, v, i, w);
    forall sp | sp in s.running && s.running[sp].Moving? && Sane(s.running[sp]) && sp in s.frame
      && Target(s.running[sp]) in s.frame
      ensures s.frame[sp] != s.table[v].frame && s.frame[Target(s.running[sp])] != s.table[v].frame
    {
      WriteUnmoved(c, s, v, sp);
    }
    var f := s.table[v].frame;
    CopyElsewhere(s.frame, s.running, s.mem, f, s.mem[f][i := w]);
  }

  // ----- draining the log -----

  lemma LogFirst(role: map<Did, Role>, log: seq<Entry>)
    requires LogOk(role, log) && log != []
    ensures log[0].d in role && InUse(role[log[0].d])
    ensures log[0].free ==> role[log[0].d] == Leaving || role[log[0].d] == Gone
    ensures !log[0].free ==> LogOk(role, log[1..])
  {
    var l := log[1..];
    assert forall i :: 0 <= i < |l| ==> l[i] == log[i + 1];
    if !log[0].free {
      forall e | e in role && (role[e] == Leaving || role[e] == Gone) ensures Entry(e, true) in l {
        var i :| 0 <= i < |log| && log[i] == Entry(e, true);
        assert l[i - 1] == Entry(e, true);
      }
    }
  }

  /** Nothing else on the log is about a page whose free entry comes next. */
  lemma LogDrained(role: map<Did, Role>, log: seq<Entry>, r: Role)
    requires LogOk(role, log) && log != [] && log[0].free && log[0].d in role && !InUse(r)
    ensures LogOk(role[log[0].d := r], log[1..])
  {
    var l, role' := log[1..], role[log[0].d := r];
    assert forall i :: 0 <= i < |l| ==> l[i] == log[i + 1];
    forall e | e in role' && (role'[e] == Leaving || role'[e] == Gone) ensures Entry(e, true) in l {
      var i :| 0 <= i < |log| && log[i] == Entry(e, true);
      assert l[i - 1] == Entry(e, true);
    }
  }

  /** assert(absent) in the drain loop, and "Page not found": neither can happen. */
  lemma ReplicaFirst(va: map<Did, Va>, told: map<Va, Did>, index: map<Va, Did>, log: seq<Entry>)
    requires ReplicaOk(va, told, index, log) && log != []
    ensures log[0].d in va
    ensures if log[0].free then va[log[0].d] in index && index[va[log[0].d]] == log[0].d else va[log[0].d] !in index
    ensures ReplicaOk(va, told, ApplyEntry(va, index, log[0]), log[1..])
  {
  }

  lemma IndexAdded(va: map<Did, Va>, role: map<Did, Role>, index: map<Va, Did>, d: Did)
    requires IndexOk(va, role, index) && d in role && InUse(role[d])
    ensures IndexOk(va, role, index[va[d] := d])
  {
  }

  lemma IndexFreed(va: map<Did, Va>, role: map<Did, Role>, index: map<Va, Did>, d: Did, r: Role)
    requires IndexOk(va, role, index) && d in role && va[d] in index && index[va[d]] == d
    ensures IndexOk(va, role[d := r], index - {va[d]})
  {
    assert role[d := r].Keys == role.Keys;
  }

  lemma PlanDraining(index: map<Va, Did>, queue: seq<Job>, running: map<Did, Work>)
    ensures PlanOk(index, queue, running, Draining)
  {
  }

  lemma CoreDrainAdd(c: Config, s: State)
    requires Core(s) && CanDrain(c, s, false)
    ensures Core(DrainAdd(c, s))
  {
    hide PresentOk, ListOk, SparesOk, FaultOk, FreshOk, PagesOk, LogOk, RemovingOk, ToldOk, IndexOk, NamesOk,
      CountOk, PlanOk, Unaliased, TableOk, ReplicaOk, ColdOk;
    LogFirst(s.role, s.log);
    ReplicaFirst(s.va, s.told, s.index, s.log);
    IndexAdded(s.va, s.role, s.index, s.log[0].d);
    PlanDraining(s.index[s.va[s.log[0].d] := s.log[0].d], s.queue, s.running);
  }

  lemma KeepDrainAdd(c: Config, s: State)
    requires Inv(c, s) && CanDrain(c, s, false)
    ensures Inv(c, DrainAdd(c, s))
  {
    hide TableOk, FramesOk, FreeTierOk, JobTiersOk, ColdOk, MapOk, MoveOk, MemOk, CopyOk, Core;
    CoreDrainAdd(c, s);
  }

  /** Where a descriptor is that has just been put on the free list of tier t. */
  function Retired(removing: map<Did, Removal>, d: Did, t: Tier): Role { if d in removing then Early(t) else FreeIn(t) }

  /** Groups that do not mind a descriptor out of use going to a free list. */
  lemma Retire(s: State, d: Did, r: Role)
    requires Core(s) && d in s.role && if r.Early? then s.role[d] == Leaving else r.FreeIn? && s.role[d] == Gone
    ensures PresentOk(s.role[d := r], s.present)
    ensures SparesOk(s.role[d := r], s.queue, s.running)
    ensures FaultOk(s.role[d := r], s.fault)
    ensures FreshOk(s.va, s.role[d := r], s.fault)
    ensures PagesOk(s.va, s.role[d := r], s.pages, s.fault)
    ensures ToldOk(s.va, s.role[d := r], s.told, s.fault)
    ensures NamesOk(s.role[d := r], s.queue, s.running)
    ensures Unaliased(s.va, s.role[d := r])
    ensures TableOk(s.va, s.role[d := r], s.table)
  {
    hide PresentOk, ListOk, SparesOk, FaultOk, FreshOk, PagesOk, LogOk, RemovingOk, ToldOk, IndexOk, NamesOk,
      CountOk, PlanOk, Unaliased, TableOk, ReplicaOk, ColdOk;
    NotMapped(s.role, s.fault, d);
    PresentSame(s.role, s.present, d, r);
    SparesRole(s.role, s.queue, s.running, d, r);
    FaultRole(s.role, s.fault, d, r);
    FreshRole(s.va, s.role, s.fault, d, r);
    PagesRole(s.va, s.role, s.pages, s.fault, d, r);
    ToldRole(s.va, s.role, s.told, s.fault, d, r);
    NamesRole(s.role, s.queue, s.running, d, r);
    UnaliasedRole(s.va, s.role, d, r);
    TableRole(s.va, s.role, s.table, d, r);
  }

  /** The removal of a page whose free entry comes next is over, or all but over. */
  lemma RemovingRetired(va: map<Did, Va>, role: map<Did, Role>, removing: map<Did, Removal>, d: Did, t: Tier)
    requires RemovingOk(va, role, removing) && d in role && (role[d] == Leaving || role[d] == Gone)
    ensures role[d] == Leaving <==> d in removing
    ensures RemovingOk(va, role[d := Retired(removing, d, t)], removing)
  {
    assert role[d := Retired(removing, d, t)].Keys == role.Keys;
  }

  lemma CoreDrainFree(c: Config, s: State)
    requires Core(s) && CanDrain(c, s, true)
    ensures Core(DrainFree(c, s)) && s.va[s.log[0].d] in s.index
    ensures s.role[s.log[0].d] == (if s.log[0].d in s.removing then Leaving else Gone)
  {
    hide PresentOk, ListOk, SparesOk, FaultOk, FreshOk, PagesOk, LogOk, RemovingOk, ToldOk, IndexOk, NamesOk,
      CountOk, PlanOk, Unaliased, TableOk, ReplicaOk, ColdOk;
    var d := s.log[0].d;
    var t := s.frame[d].tier;
    var r := Retired(s.removing, d, t);
    LogFirst(s.role, s.log);
    LogDrained(s.role, s.log, r);
    RemovingRetired(s.va, s.role, s.removing, d, t);
    ReplicaFirst(s.va, s.told, s.index, s.log);
    IndexFreed(s.va, s.role, s.index, d, r);
    PlanDraining(s.index - {s.va[d]}, s.queue, s.running);
    Retire(s, d, r);
    if t == Dram {
      ListPush(s.role, s.dramFree, Dram, d, r);
      ListOther(s.role, s.nvmFree, Nvm, d, r);
    } else {
      ListPush(s.role, s.nvmFree, Nvm, d, r);
      ListOther(s.role, s.dramFree, Dram, d, r);
    }
  }

  lemma KeepDrainFree(c: Config, s: State)
    requires Inv(c, s) && CanDrain(c, s, true)
    ensures Inv(c, DrainFree(c, s))
  {
    hide TableOk, FramesOk, FreeTierOk, JobTiersOk, ColdOk, MapOk, MoveOk, MemOk, CopyOk, Core;
    CoreDrainFree(c, s);
    var d := s.log[0].d;
    Reassign(c, s, d, Retired(s.removing, d, s.frame[d].tier));
  }
}
