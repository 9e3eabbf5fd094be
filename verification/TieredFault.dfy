/** First-touch faults keep the invariants of the tiered-memory manager. */
module TieredFault {
  import opened Options
  import opened TieredState
  import opened TieredInv
  import opened TieredRoles

  // ----- allocating -----

  lemma FaultAllocated(role: map<Did, Role>, fault: Fault, d: Did, v: Va)
    requires FaultOk(role, fault) && fault.Idle? && d in role && v > 0
    ensures FaultOk(role[d := Faulting], Allocated(d, v))
  {
  }

  lemma FreshAllocated(va: map<Did, Va>, role: map<Did, Role>, table: map<Va, Mapping>, d: Did, v: Va)
    requires TableOk(va, role, table) && v !in table && d in role
    ensures FreshOk(va, role[d := Faulting], Allocated(d, v))
  {
    assert role[d := Faulting].Keys == role.Keys;
  }

  lemma PagesFault(va: map<Did, Va>, role: map<Did, Role>, pages: map<Va, Did>, fault: Fault, d: Did, v: Va)
    requires PagesOk(va, role, pages, fault) && fault.Idle?
    ensures PagesOk(va, role, pages, Allocated(d, v))
  {
  }

  lemma ToldFault(va: map<Did, Va>, role: map<Did, Role>, told: map<Va, Did>, fault: Fault, d: Did, v: Va)
    requires ToldOk(va, role, told, fault) && fault.Idle?
    ensures ToldOk(va, role, told, Allocated(d, v))
  {
  }

  lemma CoreAllocDram(s: State, v: Va)
    requires Core(s) && CanAllocDram(s, v) && Last(s.dramFree) !in s.removing
    ensures Core(AllocDram(s, v)) && s.role[Last(s.dramFree)] == FreeIn(Dram)
  {
    hide PresentOk, ListOk, SparesOk, FaultOk, FreshOk, PagesOk, LogOk, RemovingOk, ToldOk, IndexOk, NamesOk,
      CountOk, PlanOk, Unaliased, TableOk, ReplicaOk, ColdOk;
    var d := Last(s.dramFree);
    ListPop(s.role, s.dramFree, Dram, Faulting);
    ListedFree(s.va, s.role, s.removing, d, Dram);
    PresentRole(s.role, s.present, d, Faulting, s.present + {d});
    ListOther(s.role, s.nvmFree, Nvm, d, Faulting);
    FaultAllocated(s.role, s.fault, d, v);
    FreshAllocated(s.va, s.role, s.table, d, v);
    PagesFault(s.va, s.role, s.pages, s.fault, d, v);
    Withdraw(s, d, Faulting);
    ToldFault(s.va, s.role[d := Faulting], s.told, s.fault, d, v);
    PagesRole(s.va, s.role, s.pages, Allocated(d, v), d, Faulting);
    SparesRole(s.role, s.queue, s.running, d, Faulting);
    NamesRole(s.role, s.queue, s.running, d, Faulting);
  }

  lemma KeepAllocDram(c: Config, s: State, v: Va)
    requires Inv(c, s) && CanAllocDram(s, v) && Last(s.dramFree) !in s.removing
    ensures Inv(c, AllocDram(s, v))
  {
    hide TableOk, FramesOk, FreeTierOk, JobTiersOk, ColdOk, MapOk, MoveOk, MemOk, CopyOk, Core;
    CoreAllocDram(s, v);
    Reassign(c, s, Last(s.dramFree), Faulting);
  }

  lemma CoreAllocNvm(s: State, v: Va)
    requires Core(s) && CanAllocNvm(s, v) && Last(s.nvmFree) !in s.removing
    ensures Core(AllocNvm(s, v)) && s.role[Last(s.nvmFree)] == FreeIn(Nvm)
  {
    hide PresentOk, ListOk, SparesOk, FaultOk, FreshOk, PagesOk, LogOk, RemovingOk, ToldOk, IndexOk, NamesOk,
      CountOk, PlanOk, Unaliased, TableOk, ReplicaOk, ColdOk;
    var d := Last(s.nvmFree);
    ListPop(s.role, s.nvmFree, Nvm, Faulting);
    ListedFree(s.va, s.role, s.removing, d, Nvm);
    PresentRole(s.role, s.present, d, Faulting, s.present + {d});
    ListOther(s.role, s.dramFree, Dram, d, Faulting);
    FaultAllocated(s.role, s.fault, d, v);
    FreshAllocated(s.va, s.role, s.table, d, v);
    PagesFault(s.va, s.role, s.pages, s.fault, d, v);
    Withdraw(s, d, Faulting);
    ToldFault(s.va, s.role[d := Faulting], s.told, s.fault, d, v);
    PagesRole(s.va, s.role, s.pages, Allocated(d, v), d, Faulting);
    SparesRole(s.role, s.queue, s.running, d, Faulting);
    NamesRole(s.role, s.queue, s.running, d, Faulting);
  }

  lemma KeepAllocNvm(c: Config, s: State, v: Va)
    requires Inv(c, s) && CanAllocNvm(s, v) && Last(s.nvmFree) !in s.removing
    ensures Inv(c, AllocNvm(s, v))
  {
    hide TableOk, FramesOk, FreeTierOk, JobTiersOk, ColdOk, MapOk, MoveOk, MemOk, CopyOk, Core;
    CoreAllocNvm(s, v);
    Reassign(c, s, Last(s.nvmFree), Faulting);
  }

  // ----- mapping -----

  lemma FaultMapped(role: map<Did, Role>, fault: Fault, d: Did, v: Va)
    requires FaultOk(role, fault) && fault == Allocated(d, v)
    ensures d in role && role[d] == Faulting && v > 0
    ensures FaultOk(role[d := Live], Mapped(d))
  {
  }

  lemma PagesMapped(va: map<Did, Va>, role: map<Did, Role>, pages: map<Va, Did>, fault: Fault, d: Did, v: Va)
    requires PagesOk(va, role, pages, fault) && fault == Allocated(d, v) && d in role && role[d] == Faulting && v > 0
    ensures PagesOk(va[d := v], role[d := Live], pages, Mapped(d))
  {
    assert role[d := Live].Keys == role.Keys == va.Keys == va[d := v].Keys;
  }

  lemma RemovingMapped(va: map<Did, Va>, role: map<Did, Role>, removing: map<Did, Removal>, d: Did, v: Va)
    requires RemovingOk(va, role, removing) && d in role && role[d] == Faulting
    ensures RemovingOk(va[d := v], role[d := Live], removing)
  {
    assert role[d := Live].Keys == role.Keys == va.Keys == va[d := v].Keys;
  }

  lemma ToldMapped(va: map<Did, Va>, role: map<Did, Role>, told: map<Va, Did>, fault: Fault, d: Did, v: Va)
    requires ToldOk(va, role, told, fault) && fault == Allocated(d, v) && d in role && role[d] == Faulting
    ensures ToldOk(va[d := v], role[d := Live], told, Mapped(d))
  {
    assert role[d := Live].Keys == role.Keys == va.Keys == va[d := v].Keys;
  }

  lemma IndexMapped(va: map<Did, Va>, role: map<Did, Role>, index: map<Va, Did>, d: Did, v: Va)
    requires IndexOk(va, role, index) && d in role && role[d] == Faulting
    ensures IndexOk(va[d := v], role[d := Live], index)
  {
    assert role[d := Live].Keys == role.Keys == va.Keys == va[d := v].Keys;
  }

  lemma UnaliasedMapped(va: map<Did, Va>, role: map<Did, Role>, fault: Fault, d: Did, v: Va)
    requires Unaliased(va, role) && FreshOk(va, role, fault) && fault == Allocated(d, v) && d in role
      && role[d] == Faulting
    ensures Unaliased(va[d := v], role[d := Live]) && FreshOk(va[d := v], role[d := Live], Mapped(d))
  {
    assert role[d := Live].Keys == role.Keys == va.Keys == va[d := v].Keys;
  }

  lemma TableMapped(va: map<Did, Va>, role: map<Did, Role>, table: map<Va, Mapping>, d: Did, v: Va, x: Mapping)
    requires TableOk(va, role, table) && d in role
    ensures TableOk(va[d := v], role[d := Live], table[v := x])
  {
    assert role[d := Live].Keys == role.Keys == va.Keys == va[d := v].Keys;
  }

  /** The address being touched is not mapped: every mapped address is that of a backed page. */
  lemma FreshUnmapped(va: map<Did, Va>, frame: map<Did, Frame>, role: map<Did, Role>, fault: Fault,
      table: map<Va, Mapping>)
    requires FreshOk(va, role, fault) && MapOk(va, frame, role, table) && fault.Allocated?
    ensures fault.va !in table
  {
    forall v | v in table ensures v != fault.va {
      var d :| Owns(va, role, d, v);
    }
  }

  lemma MapMapped(va: map<Did, Va>, frame: map<Did, Frame>, role: map<Did, Role>, table: map<Va, Mapping>, d: Did,
      v: Va)
    requires MapOk(va, frame, role, table) && d in role && role[d] == Faulting && v !in table
    ensures MapOk(va[d := v], frame, role[d := Live], table[v := Mapping(frame[d], false)])
  {
    var va', role', table' := va[d := v], role[d := Live], table[v := Mapping(frame[d], false)];
    assert role'.Keys == role.Keys == va.Keys == va'.Keys;
    forall u | u in table' ensures exists e :: Owns(va', role', e, u) {
      if u == v {
        assert Owns(va', role', d, u);
      } else {
        var e :| Owns(va, role, e, u);
        assert Owns(va', role', e, u);
      }
    }
  }

  lemma MoveMapped(c: Config, va: map<Did, Va>, role: map<Did, Role>, migrating: set<Did>, running: map<Did, Work>,
      table: map<Va, Mapping>, d: Did, v: Va, f: Frame)
    requires MoveOk(c, va, role, migrating, running, table) && d in role && role[d] == Faulting && v !in table
    ensures MoveOk(c, va[d := v], role[d := Live], migrating - {d}, running, table[v := Mapping(f, false)])
  {
    assert role[d := Live].Keys == role.Keys == va.Keys == va[d := v].Keys;
  }

  /** The frame of a descriptor that backs no page and is not about to be changed is not
      mapped anywhere. */
  lemma FrameUnmapped(c: Config, s: State, d: Did, v: Va)
    requires Inv(c, s) && d in s.role && !Backed(s.role[d]) && (d in s.running ==> !s.running[d].Remapped?)
    requires v in s.table
    ensures d in s.frame && s.table[v].frame != s.frame[d]
  {
    hide PresentOk, ListOk, FaultOk, FreshOk, PagesOk, LogOk, RemovingOk, ToldOk, IndexOk, NamesOk, CountOk,
      PlanOk, Unaliased, ReplicaOk, FreeTierOk, JobTiersOk, ColdOk, MoveOk, MemOk, CopyOk;
    var e :| Owns(s.va, s.role, e, v);
    assert e !in s.running;
    assert Held(s.frame, s.running, e) == s.frame[e] && Held(s.frame, s.running, d) == s.frame[d];
  }

  lemma MemMapped(c: Config, mem: map<Frame, Page>, table: map<Va, Mapping>, flat: map<Va, Page>, f: Frame, v: Va)
    requires MemOk(c, mem, table, flat) && f in mem
    requires forall u :: u in table ==> table[u].frame != f
    ensures MemOk(c, mem[f := Zeros(c.words)], table[v := Mapping(f, false)], flat[v := Zeros(c.words)])
  {
  }

  /** Writing to a frame no move reads or writes leaves what has been copied alone. */
  lemma CopyElsewhere(frame: map<Did, Frame>, running: map<Did, Work>, mem: map<Frame, Page>, f: Frame, x: Page)
    requires CopyOk(frame, running, mem)
    requires forall sp ::
      sp in running && running[sp].Moving? && Sane(running[sp]) && sp in frame && Target(running[sp]) in frame ==>
      frame[sp] != f && frame[Target(running[sp])] != f
    ensures CopyOk(frame, running, mem[f := x])
  {
  }

  /** No move touches the frame of a descriptor that is neither being moved nor a job's. */
  lemma FrameUnmoved(c: Config, s: State, d: Did, sp: Did)
    requires Inv(c, s) && d in s.role && s.role[d] == Faulting
    requires sp in s.running && s.running[sp].Moving? && Sane(s.running[sp]) && sp in s.frame
      && Target(s.running[sp]) in s.frame
    ensures d in s.frame && s.frame[sp] != s.frame[d] && s.frame[Target(s.running[sp])] != s.frame[d]
  {
    hide PresentOk, ListOk, FaultOk, FreshOk, PagesOk, LogOk, RemovingOk, ToldOk, IndexOk, NamesOk, CountOk,
      PlanOk, Unaliased, TableOk, ReplicaOk, FreeTierOk, JobTiersOk, ColdOk, MapOk, MemOk, CopyOk;
    var e := Target(s.running[sp]);
    assert e !in s.running && d !in s.running;
    assert Held(s.frame, s.running, e) == s.frame[e] && Held(s.frame, s.running, d) == s.frame[d];
    assert Held(s.frame, s.running, sp) == s.frame[sp];
  }

  lemma FrameInMem(c: Config, s: State, d: Did)
    requires Inv(c, s) && d in s.role && (d in s.running ==> !s.running[d].Remapped?)
    ensures d in s.frame && s.frame[d] in s.mem
  {
    hide PresentOk, ListOk, SparesOk, FaultOk, FreshOk, PagesOk, LogOk, RemovingOk, ToldOk, IndexOk, NamesOk,
      CountOk, PlanOk, Unaliased, TableOk, ReplicaOk, FreeTierOk, JobTiersOk, ColdOk, MapOk, MoveOk, CopyOk,
      AllFrames;
    assert Held(s.frame, s.running, d) == s.frame[d];
  }

  /** The log says nothing about a descriptor that is not in use, so its address may change. */
  lemma {:induction false} ReplayOther(va: map<Did, Va>, idx: map<Va, Did>, log: seq<Entry>, d: Did, v: Va)
    requires forall i :: 0 <= i < |log| ==> log[i].d in va && log[i].d != d
    ensures forall i :: 0 <= i < |log| ==> log[i].d in va[d := v]
    ensures Replay(va[d := v], idx, log) == Replay(va, idx, log)
    ensures Fits(va[d := v], idx, log) <==> Fits(va, idx, log)
    decreases |log|
  {
    if log != [] {
      ReplayOther(va, ApplyEntry(va, idx, log[0]), log[1..], d, v);
    }
  }

  lemma ReplicaMapped(va: map<Did, Va>, role: map<Did, Role>, told: map<Va, Did>, index: map<Va, Did>,
      log: seq<Entry>, d: Did, v: Va)
    requires ReplicaOk(va, told, index, log) && LogOk(role, log) && d in role && role[d] == Faulting
    ensures ReplicaOk(va[d := v], told, index, log)
  {
    ReplayOther(va, index, log, d, v);
  }

  lemma KeepMapMemory(c: Config, s: State)
    requires Inv(c, s) && CanMap(s)
    ensures var d, v := s.fault.d, s.fault.va; var f := s.frame[d];
      && MemOk(c, s.mem[f := Zeros(c.words)], s.table[v := Mapping(f, false)], s.flat[v := Zeros(c.words)])
      && CopyOk(s.frame, s.running, s.mem[f := Zeros(c.words)])
  {
    hide PresentOk, ListOk, SparesOk, FaultOk, FreshOk, PagesOk, LogOk, RemovingOk, ToldOk, IndexOk, NamesOk,
      CountOk, PlanOk, Unaliased, TableOk, ReplicaOk, FramesOk, FreeTierOk, JobTiersOk, ColdOk, MapOk, MoveOk,
      MemOk, CopyOk, Zeros;
    var d, v := s.fault.d, s.fault.va;
    FaultMapped(s.role, s.fault, d, v);
    NotRunning(s.role, s.queue, s.running, d);
    FrameInMem(c, s, d);
    forall u | u in s.table ensures s.table[u].frame != s.frame[d] {
      FrameUnmapped(c, s, d, u);
    }
    forall sp | sp in s.running && s.running[sp].Moving? && Sane(s.running[sp]) && sp in s.frame
      && Target(s.running[sp]) in s.frame
      ensures s.frame[sp] != s.frame[d] && s.frame[Target(s.running[sp])] != s.frame[d]
    {
      FrameUnmoved(c, s, d, sp);
    }
    MemMapped(c, s.mem, s.table, s.flat, s.frame[d], v);
    CopyElsewhere(s.frame, s.running, s.mem, s.frame[d], Zeros(c.words));
  }

  lemma CoreMap(c: Config, s: State)
    requires Core(s) && CanMap(s)
    ensures Core(Map(c, s))
  {
    hide PresentOk, ListOk, SparesOk, FaultOk, FreshOk, PagesOk, LogOk, RemovingOk, ToldOk, IndexOk, NamesOk,
      CountOk, PlanOk, Unaliased, TableOk, ReplicaOk, ColdOk;
    var d, v := s.fault.d, s.fault.va;
    FaultMapped(s.role, s.fault, d, v);
    PresentSame(s.role, s.present, d, Live);
    ListOther(s.role, s.dramFree, Dram, d, Live);
    ListOther(s.role, s.nvmFree, Nvm, d, Live);
    SparesRole(s.role, s.queue, s.running, d, Live);
    PagesMapped(s.va, s.role, s.pages, s.fault, d, v);
    LogRole(s.role, s.log, d, Live);
    RemovingMapped(s.va, s.role, s.removing, d, v);
    ToldMapped(s.va, s.role, s.told, s.fault, d, v);
    IndexMapped(s.va, s.role, s.index, d, v);
    NamesRole(s.role, s.queue, s.running, d, Live);
    UnaliasedMapped(s.va, s.role, s.fault, d, v);
    TableMapped(s.va, s.role, s.table, d, v, Mapping(s.frame[d], false));
    ReplicaMapped(s.va, s.role, s.told, s.index, s.log, d, v);
  }

  lemma KeepMap(c: Config, s: State)
    requires Inv(c, s) && CanMap(s)
    ensures Inv(c, Map(c, s))
  {
    hide PresentOk, ListOk, SparesOk, FaultOk, FreshOk, PagesOk, LogOk, RemovingOk, ToldOk, IndexOk, NamesOk,
      CountOk, PlanOk, Unaliased, TableOk, ReplicaOk, FramesOk, FreeTierOk, JobTiersOk, ColdOk, MapOk, MoveOk,
      MemOk, CopyOk;
    var d, v := s.fault.d, s.fault.va;
    var f := s.frame[d];
    CoreMap(c, s);
    FaultMapped(s.role, s.fault, d, v);
    FreshUnmapped(s.va, s.frame, s.role, s.fault, s.table);
    FramesRole(c, s.role, s.frame, s.running, d, Live);
    FreeTierRole(s.frame, s.role, d, Live);
    MapMapped(s.va, s.frame, s.role, s.table, d, v);
    MoveMapped(c, s.va, s.role, s.migrating, s.running, s.table, d, v, f);
    KeepMapMemory(c, s);
  }

  // ----- adding -----

  lemma FaultIndexed(role: map<Did, Role>, fault: Fault)
    requires FaultOk(role, fault) && fault.Mapped?
    ensures fault.d in role && role[fault.d] == Live && FaultOk(role, Indexed(fault.d))
  {
  }

  lemma FreshLater(va: map<Did, Va>, role: map<Did, Role>, fault: Fault, fault': Fault)
    requires FreshOk(va, role, fault) && !fault'.Allocated?
    ensures FreshOk(va, role, fault')
  {
  }

  /** assert(absent) in pebs_add_page: the address is not in the page index. */
  lemma PagesAdded(va: map<Did, Va>, role: map<Did, Role>, pages: map<Va, Did>, fault: Fault)
    requires PagesOk(va, role, pages, fault) && Unaliased(va, role) && fault.Mapped? && fault.d in role
      && role[fault.d] == Live
    ensures va[fault.d] !in pages
    ensures PagesOk(va, role, pages[va[fault.d] := fault.d], Indexed(fault.d))
  {
  }

  lemma ToldIndexed(va: map<Did, Va>, role: map<Did, Role>, told: map<Va, Did>, fault: Fault)
    requires ToldOk(va, role, told, fault) && fault.Mapped?
    ensures ToldOk(va, role, told, Indexed(fault.d))
  {
  }

  lemma CoreIndex(s: State)
    requires Core(s) && CanIndex(s)
    ensures Core(Index(s))
  {
    hide PresentOk, ListOk, SparesOk, FaultOk, FreshOk, PagesOk, LogOk, RemovingOk, ToldOk, IndexOk, NamesOk,
      CountOk, PlanOk, Unaliased, TableOk, ReplicaOk, ColdOk;
    FaultIndexed(s.role, s.fault);
    FreshLater(s.va, s.role, s.fault, Indexed(s.fault.d));
    PagesAdded(s.va, s.role, s.pages, s.fault);
    ToldIndexed(s.va, s.role, s.told, s.fault);
  }

  lemma KeepIndex(c: Config, s: State)
    requires Inv(c, s) && CanIndex(s)
    ensures Inv(c, Index(s))
  {
    hide TableOk, FramesOk, FreeTierOk, JobTiersOk, ColdOk, MapOk, MoveOk, MemOk, CopyOk, Core;
    CoreIndex(s);
  }

  // ----- and telling the log -----

  lemma FaultAdded(role: map<Did, Role>, fault: Fault)
    requires FaultOk(role, fault) && fault.Indexed?
    ensures fault.d in role && role[fault.d] == Live && FaultOk(role, Idle)
  {
  }

  lemma PagesLogged(va: map<Did, Va>, role: map<Did, Role>, pages: map<Va, Did>, fault: Fault)
    requires PagesOk(va, role, pages, fault) && fault.Indexed?
    ensures PagesOk(va, role, pages, Idle)
  {
  }

  /** The log has not told of the page being added, nor of another one at its address. */
  lemma ToldAdded(va: map<Did, Va>, role: map<Did, Role>, told: map<Va, Did>, fault: Fault)
    requires ToldOk(va, role, told, fault) && Unaliased(va, role) && fault.Indexed? && fault.d in role
      && role[fault.d] == Live
    ensures fault.d in va && va[fault.d] !in told
    ensures ToldOk(va, role, told[va[fault.d] := fault.d], Idle)
  {
    if va[fault.d] in told {
      assert Backed(role[told[va[fault.d]]]);
    }
  }

  lemma LogAdded(role: map<Did, Role>, log: seq<Entry>, d: Did)
    requires LogOk(role, log) && d in role && role[d] == Live
    ensures LogOk(role, log + [Entry(d, false)])
  {
    var log' := log + [Entry(d, false)];
    assert forall i :: 0 <= i < |log| ==> log'[i] == log[i];
    forall e | e in role && (role[e] == Leaving || role[e] == Gone) ensures Entry(e, true) in log' {
      assert Entry(e, true) in log;
    }
  }

  /** Replaying a log with one more entry. */
  lemma {:induction false} ReplaySnoc(va: map<Did, Va>, idx: map<Va, Did>, log: seq<Entry>, e: Entry)
    requires e.d in va && forall i :: 0 <= i < |log| ==> log[i].d in va
    ensures forall i :: 0 <= i < |log + [e]| ==> (log + [e])[i].d in va
    ensures Replay(va, idx, log + [e]) == ApplyEntry(va, Replay(va, idx, log), e)
    ensures Fits(va, idx, log + [e]) <==>
      Fits(va, idx, log) && if e.free then va[e.d] in Replay(va, idx, log) && Replay(va, idx, log)[va[e.d]] == e.d
                            else va[e.d] !in Replay(va, idx, log)
    decreases |log|
  {
    var log' := log + [e];
    if log == [] {
      assert log'[1..] == [];
    } else {
      assert log'[0] == log[0] && log'[1..] == log[1..] + [e];
      ReplaySnoc(va, ApplyEntry(va, idx, log[0]), log[1..], e);
    }
  }

  lemma ReplicaAdded(va: map<Did, Va>, told: map<Va, Did>, index: map<Va, Did>, log: seq<Entry>, d: Did)
    requires ReplicaOk(va, told, index, log) && d in va && va[d] !in told
    ensures ReplicaOk(va, told[va[d] := d], index, log + [Entry(d, false)])
  {
    ReplaySnoc(va, index, log, Entry(d, false));
  }

  lemma CoreLog(s: State)
    requires Core(s) && CanLog(s)
    ensures Core(Log(s))
  {
    hide PresentOk, ListOk, SparesOk, FaultOk, FreshOk, PagesOk, LogOk, RemovingOk, ToldOk, IndexOk, NamesOk,
      CountOk, PlanOk, Unaliased, TableOk, ReplicaOk, ColdOk;
    FaultAdded(s.role, s.fault);
    FreshLater(s.va, s.role, s.fault, Idle);
    PagesLogged(s.va, s.role, s.pages, s.fault);
    ToldAdded(s.va, s.role, s.told, s.fault);
    LogAdded(s.role, s.log, s.fault.d);
    ReplicaAdded(s.va, s.told, s.index, s.log, s.fault.d);
  }

  lemma KeepLog(c: Config, s: State)
    requires Inv(c, s) && CanLog(s)
    ensures Inv(c, Log(s))
  {
    hide TableOk, FramesOk, FreeTierOk, JobTiersOk, ColdOk, MapOk, MoveOk, MemOk, CopyOk, Core;
    CoreLog(s);
  }
}
