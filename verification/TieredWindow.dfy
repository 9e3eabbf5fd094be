/** The windows the locks leave open are real: with one of them open, in a memory of whatever size, an
    assertion of the program fails in some run.  And what closes the first one again. */
module TieredWindow {
  import opened Options
  import opened TieredState
  import opened TieredInv
  import opened TieredMain
  import opened TieredLaws
  import opened TieredRemove

  /** steps is a run from pebs_init to s. */
  ghost predicate Reached(c: Config, s: State, steps: seq<Step>)
  {
    Runnable(c, Init(c), steps) && After(c, Init(c), steps) == s
  }

  lemma {:induction false} Extended(c: Config, s: State, steps: seq<Step>, a: Step)
    requires Runnable(c, s, steps) && Enabled(c, After(c, s, steps), a)
    ensures Runnable(c, s, steps + [a]) && After(c, s, steps + [a]) == Next(c, After(c, s, steps), a)
    decreases |steps|
  {
    hide Enabled, Next;
    var more := steps + [a];
    if steps == [] {
      assert more == [a] && more[1..] == [];
    } else {
      assert more[0] == steps[0] && more[1..] == steps[1..] + [a];
      Extended(c, Next(c, s, steps[0]), steps[1..], a);
    }
  }

  /** One more step. */
  lemma OneMore(c: Config, s: State, steps: seq<Step>, a: Step) returns (s': State, steps': seq<Step>)
    requires Reached(c, s, steps) && Enabled(c, s, a)
    ensures s' == Next(c, s, a) && Reached(c, s', steps')
  {
    hide Enabled, Next, Init;
    s', steps' := Next(c, s, a), steps + [a];
    Extended(c, Init(c), steps, a);
  }

  lemma ReachedInv(c: Config, s: State, steps: seq<Step>)
    requires Closed(c) && Reached(c, s, steps)
    ensures Reachable(c, s) && Inv(c, s)
  {
    hide Init, After, Runnable, Inv;
    assert Reachable(c, s);
    ReachableInv(c, s);
  }

  // ----- runs with a window open -----

  /** The same memory with all windows closed. */
  function Shut(c: Config): (k: Config)
    ensures Closed(k)
  {
    Config(c.dram, c.nvm, c.words, c.threads, true, true, true)
  }

  /** c is k, but for windows it leaves open. */
  predicate Looser(c: Config, k: Config)
  {
    && c.dram == k.dram && c.nvm == k.nvm && c.words == k.words && c.threads == k.threads
    && (c.drainLate ==> k.drainLate) && (c.moveLate ==> k.moveLate) && (c.removeLate ==> k.removeLate)
  }

  lemma StepLooser(c: Config, k: Config, s: State, a: Step)
    requires Looser(c, k) && Enabled(k, s, a)
    ensures Enabled(c, s, a) && Next(c, s, a) == Next(k, s, a)
  {
  }

  lemma {:induction false} RunLooser(c: Config, k: Config, s: State, steps: seq<Step>)
    requires Looser(c, k) && Runnable(k, s, steps)
    ensures Runnable(c, s, steps) && After(c, s, steps) == After(k, s, steps)
    ensures Patient(k, s, steps) ==> Patient(c, s, steps)
    decreases |steps|
  {
    hide Enabled, Next, Takes, Strays, Looser;
    if steps != [] {
      StepLooser(c, k, s, steps[0]);
      RunLooser(c, k, Next(k, s, steps[0]), steps[1..]);
    }
  }

  lemma InitLooser(c: Config, k: Config)
    requires Looser(c, k)
    ensures Init(k) == Init(c)
  {
    hide Zeros, InitFrame;
    assert AllFrames(k) == AllFrames(c);
    assert forall d :: InitFrame(k, d) == InitFrame(c, d) by { FramesLooser(c, k); }
  }

  lemma FramesLooser(c: Config, k: Config)
    requires Looser(c, k)
    ensures forall d :: InitFrame(k, d) == InitFrame(c, d)
  {
  }

  /** What can be reached with the windows closed can be reached with one of them open. */
  lemma ReachedShut(c: Config, s: State, steps: seq<Step>)
    requires Reached(Shut(c), s, steps)
    ensures Reached(c, s, steps)
  {
    hide Init;
    InitLooser(c, Shut(c));
    RunLooser(c, Shut(c), Init(c), steps);
  }

  lemma PatientLooser(c: Config, k: Config, s: State)
    requires Looser(c, k) && PatientlyReachable(k, s)
    ensures PatientlyReachable(c, s)
  {
    hide Init, Looser, Patient, Runnable, After;
    var steps :| Runnable(k, Init(k), steps) && Patient(k, Init(k), steps) && After(k, Init(k), steps) == s;
    InitLooser(c, k);
    RunLooser(c, k, Init(c), steps);
  }

  lemma {:induction false} PatientSnoc(c: Config, s: State, steps: seq<Step>, a: Step)
    requires Runnable(c, s, steps) && Enabled(c, After(c, s, steps), a)
    requires !Takes(After(c, s, steps), a)
    ensures Runnable(c, s, steps + [a]) && After(c, s, steps + [a]) == Next(c, After(c, s, steps), a)
    ensures TakesNone(c, s, steps) ==> TakesNone(c, s, steps + [a])
    ensures Patient(c, s, steps) && !Strays(After(c, s, steps), a) ==> Patient(c, s, steps + [a])
    decreases |steps|
  {
    hide Enabled, Next, Takes, Strays;
    var more := steps + [a];
    if steps == [] {
      assert more == [a] && more[1..] == [];
    } else {
      assert more[0] == steps[0] && more[1..] == steps[1..] + [a];
      PatientSnoc(c, Next(c, s, steps[0]), steps[1..], a);
    }
  }

  /** One more patient step. */
  lemma PatientStep(c: Config, s: State, a: Step) returns (s': State)
    requires PatientlyReachable(c, s) && Enabled(c, s, a) && !Takes(s, a) && !Strays(s, a)
    ensures s' == Next(c, s, a) && PatientlyReachable(c, s')
  {
    hide Init, Enabled, Next, Takes, Strays, Runnable, Patient, After;
    s' := Next(c, s, a);
    var steps :| Runnable(c, Init(c), steps) && Patient(c, Init(c), steps) && After(c, Init(c), steps) == s;
    PatientSnoc(c, Init(c), steps, a);
  }

  lemma TakelessStep(c: Config, s: State, a: Step) returns (s': State)
    requires TakelessReachable(c, s) && Enabled(c, s, a) && !Takes(s, a)
    ensures s' == Next(c, s, a) && TakelessReachable(c, s')
  {
    hide Init, Enabled, Next, Takes, Runnable, TakesNone, After;
    s' := Next(c, s, a);
    var steps :| Runnable(c, Init(c), steps) && TakesNone(c, Init(c), steps) && After(c, Init(c), steps) == s;
    PatientSnoc(c, Init(c), steps, a);
  }

  // ----- filling memory -----

  /** Nothing is under way. */
  predicate AtRest(s: State)
  {
    s.fault.Idle? && s.log == [] && s.policy.Draining? && s.removing == map[]
  }

  function FreeCount(s: State): nat { |s.dramFree| + |s.nvmFree| }

  lemma FreshVa(m: set<Va>) returns (v: Va)
    ensures v > 0 && forall u :: u in m ==> u < v
  {
    if m == {} {
      v := 1;
    } else {
      var u :| u in m;
      var w := FreshVa(m - {u});
      v := if u < w then w else u + 1;
      forall x | x in m ensures x < v {
        assert x == u || x in m - {u};
      }
    }
  }

  lemma TakenKnown(c: Config, s: State, t: Tier)
    requires Inv(c, s) && (if t == Dram then s.dramFree else s.nvmFree) != []
    ensures Known(s, Last(if t == Dram then s.dramFree else s.nvmFree))
  {
    TakenFree(c, s, t);
    hide PresentOk, ListOk, SparesOk, FaultOk, FreshOk, PagesOk, LogOk, RemovingOk, ToldOk, IndexOk, NamesOk,
      CountOk, PlanOk, Unaliased, ReplicaOk, FreeTierOk, JobTiersOk, ColdOk, MoveOk, MemOk, CopyOk, AllFrames,
      Held;
  }

  /** A first touch, up to the frame being mapped. */
  lemma Faulted(c: Config, s: State, steps: seq<Step>, v: Va) returns (s': State, steps': seq<Step>)
    requires Closed(c) && Reached(c, s, steps) && AtRest(s) && FreeCount(s) > 0 && v > 0 && v !in s.table
    ensures Reached(c, s', steps') && s'.fault.Mapped? && Known(s', s'.fault.d) && s'.va[s'.fault.d] == v
    ensures s'.log == [] && s'.policy.Draining? && s'.removing == map[] && s'.pages == s.pages && s'.index == s.index
    ensures FreeCount(s') == FreeCount(s) - 1 && s'.fault.d !in s'.migrating
  {
    hide Reached, Enabled, Next, CanMap, Map, FreeCount;
    s', steps' := Allotted(c, s, steps, v);
    MapEnabled(c, s');
    MapFacts(c, s');
    s', steps' := OneMore(c, s', steps', FaultMap);
  }

  lemma MapEnabled(c: Config, s: State)
    requires s.fault.Allocated? && Known(s, s.fault.d)
    ensures Enabled(c, s, FaultMap) && CanMap(s) && Next(c, s, FaultMap) == Map(c, s)
  {
    hide Map;
  }

  lemma MapFacts(c: Config, s: State)
    requires CanMap(s)
    ensures var s' := Map(c, s);
      && s'.fault == Mapped(s.fault.d) && Known(s', s.fault.d) && s'.va[s.fault.d] == s.fault.va
         && s.fault.d !in s'.migrating
      && s'.log == s.log && s'.policy == s.policy && s'.removing == s.removing && s'.pages == s.pages
         && s'.index == s.index
      && FreeCount(s') == FreeCount(s)
  {
  }

  lemma Allotted(c: Config, s: State, steps: seq<Step>, v: Va) returns (s': State, steps': seq<Step>)
    requires Closed(c) && Reached(c, s, steps) && AtRest(s) && FreeCount(s) > 0 && v > 0 && v !in s.table
    ensures Reached(c, s', steps') && s'.fault.Allocated? && s'.fault.va == v && Known(s', s'.fault.d)
    ensures s'.log == [] && s'.policy.Draining? && s'.removing == map[] && s'.pages == s.pages && s'.index == s.index
    ensures FreeCount(s') == FreeCount(s) - 1
  {
    hide Reached, Reachable, Inv, Enabled, Next, Known;
    ReachedInv(c, s, steps);
    if s.dramFree != [] {
      TakenKnown(c, s, Dram);
      AllotDram(c, s, v);
      s', steps' := OneMore(c, s, steps, FaultAllocDram(v));
    } else {
      TakenKnown(c, s, Nvm);
      AllotNvm(c, s, v);
      s', steps' := OneMore(c, s, steps, FaultAllocNvm(v));
    }
  }

  /** The fault thread has a descriptor in hand, nothing else has changed. */
  ghost predicate InHand(s: State, s': State, v: Va)
  {
    && s'.fault.Allocated? && s'.fault.va == v && Known(s', s'.fault.d)
    && s'.log == s.log && s'.policy == s.policy && s'.removing == s.removing && s'.pages == s.pages
       && s'.index == s.index
    && FreeCount(s') == FreeCount(s) - 1
  }

  lemma AllotDram(c: Config, s: State, v: Va)
    requires s.fault.Idle? && v > 0 && v !in s.table && s.dramFree != [] && Known(s, Last(s.dramFree))
    ensures Enabled(c, s, FaultAllocDram(v)) && InHand(s, Next(c, s, FaultAllocDram(v)), v)
  {
  }

  lemma AllotNvm(c: Config, s: State, v: Va)
    requires s.fault.Idle? && v > 0 && v !in s.table && s.dramFree == [] && s.nvmFree != [] && Known(s, Last(s.nvmFree))
    ensures Enabled(c, s, FaultAllocNvm(v)) && InHand(s, Next(c, s, FaultAllocNvm(v)), v)
  {
  }

  /** A first touch of page v, with its entry drained. */
  lemma Touched(c: Config, s: State, steps: seq<Step>, v: Va) returns (s': State, steps': seq<Step>)
    requires Closed(c) && Reached(c, s, steps) && AtRest(s) && FreeCount(s) > 0 && v > 0 && v !in s.table
    ensures Reached(c, s', steps') && AtRest(s') && FreeCount(s') == FreeCount(s) - 1 && v in s'.pages
  {
    hide Reached, Inv, Init;
    s', steps' := Faulted(c, s, steps, v);
    var d := s'.fault.d;
    s', steps' := OneMore(c, s', steps', FaultIndex);
    s', steps' := OneMore(c, s', steps', FaultLog);
    assert s'.log == [Entry(d, false)];
    s', steps' := OneMore(c, s', steps', PolicyDrainAdd);
  }

  /** Pages are touched until no frame is free. */
  lemma {:induction false} Filled(c: Config, s: State, steps: seq<Step>) returns (s': State, steps': seq<Step>)
    requires Closed(c) && Reached(c, s, steps) && AtRest(s) && (FreeCount(s) > 0 || s.pages != map[])
    ensures Reached(c, s', steps') && AtRest(s') && s'.dramFree == [] && s'.nvmFree == [] && s'.pages != map[]
    decreases FreeCount(s)
  {
    hide Reached;
    if FreeCount(s) == 0 {
      s', steps' := s, steps;
    } else {
      var v := FreshVa(s.table.Keys);
      s', steps' := Touched(c, s, steps, v);
      s', steps' := Filled(c, s', steps');
    }
  }

  lemma Started(c: Config)
    ensures Reached(c, Init(c), []) && AtRest(Init(c)) && FreeCount(Init(c)) == c.dram + c.nvm && Init(c).table == map[]
    ensures Init(c).pages == Init(c).index == map[]
  {
  }

  // ----- the first window -----

  /** All frames are in use, and of one page pebs_remove_page has published the free entry, but has
      yet to clear `present`. */
  lemma Publishing(c: Config) returns (s: State, steps: seq<Step>, d: Did)
    requires c.dram + c.nvm > 0
    ensures Reached(c, s, steps) && s.fault.Idle? && s.policy.Draining? && s.log == [Entry(d, true)]
    ensures s.dramFree == [] && s.nvmFree == [] && Known(s, d) && s.va[d] in s.index && d in s.present
  {
    hide Reached, Inv, Init;
    var k := Shut(c);
    Started(k);
    s, steps := Filled(k, Init(k), []);
    ReachedInv(k, s, steps);
    var v :| v in s.pages;
    d := s.pages[v];
    PageKnown(k, s, v);
    ReachedShut(c, s, steps);
    s, steps := OneMore(c, s, steps, RemoveIndex(v));
    s, steps := OneMore(c, s, steps, RemoveLog(d));
  }

  /** With nothing under way, a page of the index is present and also in the policy thread's. */
  lemma PageKnown(c: Config, s: State, v: Va)
    requires Closed(c) && Reachable(c, s) && Inv(c, s) && AtRest(s) && v in s.pages
    ensures Known(s, s.pages[v]) && s.va[s.pages[v]] == v && v in s.index && s.pages[v] in s.present
  {
    hide PresentOk, ListOk, SparesOk, FaultOk, FreshOk, LogOk, RemovingOk, ToldOk, IndexOk, NamesOk, CountOk,
      PlanOk, Unaliased, ReplicaOk, FreeTierOk, JobTiersOk, ColdOk, MoveOk, MemOk, CopyOk, Reachable,
      PatientlyReachable, TakelessReachable, AllFrames, Held;
    ReachableInv(c, s);
    PatientTakeless(c, s);
    ReplicaFaithful(c, s);
    PresentIs(s.role, s.present, s.pages[v]);
  }

  /** If the policy thread drains a free entry before pebs_remove_page clears `present`, then,
      however many frames there are, a first touch can be handed a descriptor that is still
      marked present: assert(!page->present) fails. */
  lemma FirstWindowReal(c: Config)
    requires !c.drainLate && c.dram + c.nvm > 0
    ensures exists s, a ::
      Reachable(c, s) && Enabled(c, s, a) && (a.FaultAllocDram? || a.FaultAllocNvm?) && !Asserted(c, s, a)
  {
    hide Reached, Init;
    var s, steps, d := Publishing(c);
    s, steps := OneMore(c, s, steps, PolicyDrainFree);
    var t := s.frame[d].tier;
    assert (if t == Dram then s.dramFree else s.nvmFree) == [d];
    var v := FreshVa(s.table.Keys);
    var a := if t == Dram then FaultAllocDram(v) else FaultAllocNvm(v);
    ReachedIs(c, s, steps);
    assert Enabled(c, s, a) && !Asserted(c, s, a);
  }

  lemma ReachedIs(c: Config, s: State, steps: seq<Step>)
    requires Reached(c, s, steps)
    ensures Reachable(c, s)
  {
    hide Init, After, Runnable;
  }

  /** An early drain and the rest of the removal commute: if one follows the other at once, the state is
      one that is reached with the window closed.  An allocation in between fails. */
  lemma EarlyDrain(c: Config, s: State, d: Did)
    requires !c.drainLate && Reachable(Shut(c), s)
    requires s.policy.Draining? && s.log != [] && s.log[0] == Entry(d, true) && CanClear(s, d)
    ensures CanDrain(c, s, true) && CanClear(DrainFree(c, s), d) && CanDrain(Shut(c), Clear(s, d), true)
    ensures Clear(DrainFree(c, s), d) == DrainFree(Shut(c), Clear(s, d))
    ensures Reachable(Shut(c), Clear(DrainFree(c, s), d))
    ensures var s1 := DrainFree(c, s);
      && (forall v :: Enabled(c, s1, FaultAllocDram(v)) && Last(s1.dramFree) == d ==>
         !Asserted(c, s1, FaultAllocDram(v)))
      && (forall v :: Enabled(c, s1, FaultAllocNvm(v)) && Last(s1.nvmFree) == d ==> !Asserted(c, s1, FaultAllocNvm(v)))
  {
    hide Reachable, Inv, Enabled, Next;
    ReachableInv(Shut(c), s);
    LeavingIs(Shut(c), s, d);
    EarlyCommutes(c, s, d);
    ClearDrainReached(Shut(c), s, d);
    EarlyTaken(c, DrainFree(c, s), d);
  }

  lemma LeavingIs(c: Config, s: State, d: Did)
    requires Inv(c, s) && CanClear(s, d) && s.log != [] && s.log[0] == Entry(d, true)
    ensures s.role[d] == Leaving && d in s.present
  {
    hide PresentOk, ListOk, SparesOk, FaultOk, FreshOk, PagesOk, LogOk, RemovingOk, ToldOk, IndexOk, NamesOk,
      CountOk, PlanOk, Unaliased, TableOk, ReplicaOk, FramesOk, FreeTierOk, JobTiersOk, ColdOk, MapOk, MoveOk,
      MemOk, CopyOk;
    RemovingFacts(s.va, s.role, s.removing, d);
    PresentIs(s.role, s.present, d);
    LogFirst(s.role, s.log);
  }

  lemma EarlyCommutes(c: Config, s: State, d: Did)
    requires !c.drainLate && s.policy.Draining? && s.log != [] && s.log[0] == Entry(d, true) && CanClear(s, d)
    requires s.role[d] == Leaving && d in s.present
    ensures CanDrain(c, s, true) && CanClear(DrainFree(c, s), d) && CanDrain(Shut(c), Clear(s, d), true)
    ensures Clear(DrainFree(c, s), d) == DrainFree(Shut(c), Clear(s, d))
    ensures d in DrainFree(c, s).present
  {
    var t := s.frame[d].tier;
    assert s.role[d := FreeIn(t)] == s.role[d := Gone][d := FreeIn(t)];
  }

  lemma ClearDrainReached(c: Config, s: State, d: Did)
    requires Reachable(c, s) && CanClear(s, d) && CanDrain(c, Clear(s, d), true)
    ensures Reachable(c, DrainFree(c, Clear(s, d)))
  {
    var steps :| Runnable(c, Init(c), steps) && After(c, Init(c), steps) == s;
    hide Init, CanClear, CanDrain, Clear, DrainFree;
    var s', steps' := OneMore(c, s, steps, RemoveClear(d));
    s', steps' := OneMore(c, s', steps', PolicyDrainFree);
    ReachedIs(c, s', steps');
  }

  lemma EarlyTaken(c: Config, s: State, d: Did)
    requires d in s.present
    ensures forall v :: Enabled(c, s, FaultAllocDram(v)) && Last(s.dramFree) == d ==> !Asserted(c, s, FaultAllocDram(v))
    ensures forall v :: Enabled(c, s, FaultAllocNvm(v)) && Last(s.nvmFree) == d ==> !Asserted(c, s, FaultAllocNvm(v))
  {
  }

  // ----- the third window -----

  /** If a page is removed after pebs_add_page has put it into the index and before its add entry is
      on the log, the free entry comes first, and the drain finds no page for it. */
  lemma ThirdWindowReal(c: Config)
    requires !c.removeLate && c.dram + c.nvm > 0
    ensures exists s :: Reachable(c, s) && Enabled(c, s, PolicyDrainFree) && !Asserted(c, s, PolicyDrainFree)
  {
    hide Reached, Init, Next, Enabled, Asserted;
    var s, steps, d := Overtaking(c);
    OvertakenEnabled(c, s, d);
    s, steps := OneMore(c, s, steps, RemoveClear(d));
    ReachedIs(c, s, steps);
  }

  lemma OvertakenEnabled(c: Config, s: State, d: Did)
    requires s.policy.Draining? && s.log == [Entry(d, true)] && s.index == map[] && CanClear(s, d)
    ensures Enabled(c, s, RemoveClear(d))
    ensures var s' := Next(c, s, RemoveClear(d)); Enabled(c, s', PolicyDrainFree) && !Asserted(c, s', PolicyDrainFree)
  {
  }

  /** The page's free entry is on the log, its add entry is not. */
  lemma Overtaking(c: Config) returns (s: State, steps: seq<Step>, d: Did)
    requires !c.removeLate && c.dram + c.nvm > 0
    ensures Reached(c, s, steps) && s.policy.Draining? && s.log == [Entry(d, true)] && s.index == map[]
      && CanClear(s, d)
    ensures s.fault == Indexed(d)
  {
    hide Reached, Init;
    var k := Shut(c);
    Started(k);
    s, steps := Faulted(k, Init(k), [], 1);
    ReachedShut(c, s, steps);
    d := s.fault.d;
    s, steps := OneMore(c, s, steps, FaultIndex);
    s, steps := OneMore(c, s, steps, RemoveIndex(1));
    s, steps := OneMore(c, s, steps, RemoveLog(d));
    assert s.log == [Entry(d, true)];
  }
}
