/** What each group of invariants makes of a descriptor changing its role. */
module TieredRoles {
  import opened Options
  import opened TieredState
  import opened TieredInv

  lemma PresentRole(role: map<Did, Role>, present: set<Did>, d: Did, r: Role, present': set<Did>)
    requires PresentOk(role, present) && d in role
    requires present' == if r == Faulting || Backed(r) then present + {d} else present - {d}
    ensures PresentOk(role[d := r], present')
  {
  }

  lemma PresentSame(role: map<Did, Role>, present: set<Did>, d: Did, r: Role)
    requires PresentOk(role, present) && d in role
    requires (role[d] == Faulting || Backed(role[d])) <==> (r == Faulting || Backed(r))
    ensures PresentOk(role[d := r], present)
  {
  }

  lemma ListOther(role: map<Did, Role>, l: seq<Did>, t: Tier, d: Did, r: Role)
    requires ListOk(role, l, t) && d in role && (Listed(role[d], t) <==> Listed(r, t))
    ensures ListOk(role[d := r], l, t)
  {
  }

  /** enqueue_fifo */
  lemma ListPush(role: map<Did, Role>, l: seq<Did>, t: Tier, d: Did, r: Role)
    requires ListOk(role, l, t) && d in role && !Listed(role[d], t) && Listed(r, t)
    ensures ListOk(role[d := r], [d] + l, t)
  {
    var l', role' := [d] + l, role[d := r];
    forall e | e in role' && Listed(role'[e], t) ensures e in l' {
      if e == d { assert l'[0] == d; } else { assert e in l; }
    }
  }

  /** dequeue_fifo */
  lemma ListPop(role: map<Did, Role>, l: seq<Did>, t: Tier, r: Role)
    requires ListOk(role, l, t) && l != [] && !Listed(r, t)
    ensures Last(l) in role && Listed(role[Last(l)], t)
    ensures ListOk(role[Last(l) := r], Front(l), t)
  {
    var d := Last(l);
    assert l[|l| - 1] == d;
    forall e | e in role[d := r] && Listed(role[d := r][e], t) ensures e in Front(l) {
      var i :| 0 <= i < |l| && l[i] == e;
      assert Front(l)[i] == e;
    }
  }

  /** dequeue_fifo and enqueue_fifo of the same descriptor. */
  lemma ListRotate(role: map<Did, Role>, l: seq<Did>, t: Tier)
    requires ListOk(role, l, t) && l != []
    ensures ListOk(role, [Last(l)] + Front(l), t)
  {
    ListPop(role, l, t, Spare);
    ListPush(role[Last(l) := Spare], Front(l), t, Last(l), role[Last(l)]);
    assert role[Last(l) := Spare][Last(l) := role[Last(l)]] == role;
  }

  /** A listed descriptor whose removal is not under way is free. */
  lemma ListedFree(va: map<Did, Va>, role: map<Did, Role>, removing: map<Did, Removal>, d: Did, t: Tier)
    requires RemovingOk(va, role, removing) && d in role && Listed(role[d], t) && d !in removing
    ensures role[d] == FreeIn(t)
  {
  }

  lemma NotRunning(role: map<Did, Role>, queue: seq<Job>, running: map<Did, Work>, d: Did)
    requires SparesOk(role, queue, running) && d in role && role[d] != Spare
    ensures d !in running
  {
  }

  lemma SparesRole(role: map<Did, Role>, queue: seq<Job>, running: map<Did, Work>, d: Did, r: Role)
    requires SparesOk(role, queue, running) && d in role && role[d] != Spare && r != Spare
    ensures SparesOk(role[d := r], queue, running)
  {
  }

  lemma FaultRole(role: map<Did, Role>, fault: Fault, d: Did, r: Role)
    requires FaultOk(role, fault) && d in role && role[d] != Faulting && r != Faulting && !Adding(fault, d)
    ensures FaultOk(role[d := r], fault)
  {
  }

  lemma FreshRole(va: map<Did, Va>, role: map<Did, Role>, fault: Fault, d: Did, r: Role)
    requires FreshOk(va, role, fault) && d in role && (!Backed(r) || Backed(role[d]))
    ensures FreshOk(va, role[d := r], fault)
  {
    assert role[d := r].Keys == role.Keys;
  }

  lemma TableRole(va: map<Did, Va>, role: map<Did, Role>, table: map<Va, Mapping>, d: Did, r: Role)
    requires TableOk(va, role, table) && d in role && (!Backed(r) || Backed(role[d]))
    ensures TableOk(va, role[d := r], table)
  {
    assert role[d := r].Keys == role.Keys;
  }

  lemma TableMore(va: map<Did, Va>, role: map<Did, Role>, table: map<Va, Mapping>, v: Va, x: Mapping)
    requires TableOk(va, role, table)
    ensures TableOk(va, role, table[v := x])
  {
  }

  lemma NotMapped(role: map<Did, Role>, fault: Fault, d: Did)
    requires FaultOk(role, fault) && d in role && role[d] != Live
    ensures !Adding(fault, d)
  {
  }

  lemma PagesRole(va: map<Did, Va>, role: map<Did, Role>, pages: map<Va, Did>, fault: Fault, d: Did, r: Role)
    requires PagesOk(va, role, pages, fault) && d in role && role[d] != Live && r != Live
    requires InUse(r) || Backed(r) ==> InUse(role[d]) || Backed(role[d])
    ensures PagesOk(va, role[d := r], pages, fault)
  {
  }

  lemma LogRole(role: map<Did, Role>, log: seq<Entry>, d: Did, r: Role)
    requires LogOk(role, log) && d in role
    requires !InUse(role[d]) || InUse(r)
    requires (role[d] == Leaving || role[d] == Gone) <==> (r == Leaving || r == Gone)
    ensures LogOk(role[d := r], log)
  {
  }

  lemma RemovingRole(va: map<Did, Va>, role: map<Did, Role>, removing: map<Did, Removal>, d: Did, r: Role)
    requires RemovingOk(va, role, removing) && d in role && !Going(role[d]) && !Going(r)
    ensures RemovingOk(va, role[d := r], removing)
  {
    assert role[d := r].Keys == role.Keys;
  }

  lemma ToldRole(va: map<Did, Va>, role: map<Did, Role>, told: map<Va, Did>, fault: Fault, d: Did, r: Role)
    requires ToldOk(va, role, told, fault) && d in role && role[d] != Live && role[d] != Dropped && r != Live
      && r != Dropped
    ensures ToldOk(va, role[d := r], told, fault)
  {
    assert role[d := r].Keys == role.Keys;
  }

  lemma IndexRole(va: map<Did, Va>, role: map<Did, Role>, index: map<Va, Did>, d: Did, r: Role)
    requires IndexOk(va, role, index) && d in role && (!InUse(role[d]) || InUse(r))
    ensures IndexOk(va, role[d := r], index)
  {
  }

  lemma FramesRole(c: Config, role: map<Did, Role>, frame: map<Did, Frame>, running: map<Did, Work>, d: Did, r: Role)
    requires FramesOk(c, role, frame, running) && d in role
    ensures FramesOk(c, role[d := r], frame, running)
  {
    assert role[d := r].Keys == role.Keys;
  }

  lemma FreeTierRole(frame: map<Did, Frame>, role: map<Did, Role>, d: Did, r: Role)
    requires FreeTierOk(frame, role) && d in role && (r.FreeIn? || r.Early? ==> Tiered(frame, d, r.tier))
    ensures FreeTierOk(frame, role[d := r])
  {
  }

  lemma NamesRole(role: map<Did, Role>, queue: seq<Job>, running: map<Did, Work>, d: Did, r: Role)
    requires NamesOk(role, queue, running) && d in role && r != Spare
    ensures NamesOk(role[d := r], queue, running)
  {
  }

  lemma UnaliasedRole(va: map<Did, Va>, role: map<Did, Role>, d: Did, r: Role)
    requires Unaliased(va, role) && d in role && (!Backed(r) || Backed(role[d]))
    ensures Unaliased(va, role[d := r])
  {
    assert role[d := r].Keys == role.Keys;
  }

  lemma MapRole(va: map<Did, Va>, frame: map<Did, Frame>, role: map<Did, Role>, table: map<Va, Mapping>, d: Did,
      r: Role)
    requires MapOk(va, frame, role, table) && d in role && (Backed(role[d]) <==> Backed(r))
    ensures MapOk(va, frame, role[d := r], table)
  {
    var role' := role[d := r];
    assert role'.Keys == role.Keys;
    forall v | v in table ensures exists e :: Owns(va, role', e, v) {
      var e :| Owns(va, role, e, v);
      assert Owns(va, role', e, v);
    }
  }

  lemma MoveRole(c: Config, va: map<Did, Va>, role: map<Did, Role>, migrating: set<Did>, running: map<Did, Work>,
      table: map<Va, Mapping>, d: Did, r: Role)
    requires MoveOk(c, va, role, migrating, running, table) && d in role && (Backed(role[d]) <==> Backed(r))
    ensures MoveOk(c, va, role[d := r], migrating, running, table)
  {
    assert role[d := r].Keys == role.Keys;
  }

  /** Groups that do not mind a descriptor being taken off a free list. */
  lemma Withdraw(s: State, d: Did, r: Role)
    requires Core(s) && d in s.role && s.role[d].FreeIn? && (r == Faulting || r == Spare)
    ensures FreshOk(s.va, s.role[d := r], s.fault)
    ensures LogOk(s.role[d := r], s.log)
    ensures RemovingOk(s.va, s.role[d := r], s.removing)
    ensures ToldOk(s.va, s.role[d := r], s.told, s.fault)
    ensures IndexOk(s.va, s.role[d := r], s.index)
    ensures Unaliased(s.va, s.role[d := r])
    ensures TableOk(s.va, s.role[d := r], s.table)
  {
    hide PresentOk, ListOk, SparesOk, FaultOk, FreshOk, PagesOk, LogOk, RemovingOk, ToldOk, IndexOk, NamesOk,
      CountOk, PlanOk, Unaliased, TableOk, ReplicaOk, ColdOk;
    FreshRole(s.va, s.role, s.fault, d, r);
    LogRole(s.role, s.log, d, r);
    RemovingRole(s.va, s.role, s.removing, d, r);
    ToldRole(s.va, s.role, s.told, s.fault, d, r);
    IndexRole(s.va, s.role, s.index, d, r);
    UnaliasedRole(s.va, s.role, d, r);
    TableRole(s.va, s.role, s.table, d, r);
  }

  /** And the same for frames, mappings and moves, of a descriptor that backs no page before or after. */
  lemma Reassign(c: Config, s: State, d: Did, r: Role)
    requires Placed(c, s) && d in s.role && (Backed(s.role[d]) <==> Backed(r))
    requires r.FreeIn? || r.Early? ==> Tiered(s.frame, d, r.tier)
    ensures FramesOk(c, s.role[d := r], s.frame, s.running)
    ensures FreeTierOk(s.frame, s.role[d := r])
    ensures MapOk(s.va, s.frame, s.role[d := r], s.table)
    ensures MoveOk(c, s.va, s.role[d := r], s.migrating, s.running, s.table)
  {
    hide TableOk, FramesOk, FreeTierOk, JobTiersOk, ColdOk, MapOk, MoveOk, MemOk, CopyOk;
    FramesRole(c, s.role, s.frame, s.running, d, r);
    FreeTierRole(s.frame, s.role, d, r);
    MapRole(s.va, s.frame, s.role, s.table, d, r);
    MoveRole(c, s.va, s.role, s.migrating, s.running, s.table, d, r);
  }
}
