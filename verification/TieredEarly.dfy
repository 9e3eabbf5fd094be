/** Runs in which the policy thread drains a free entry early, all other windows being closed: a planner's
    swap then puts two pages in one frame, and a page being moved ends up on the free list of the
    wrong tier. */
module TieredEarly {
  import opened Options
  import opened TieredState
  import opened TieredInv
  import opened TieredMain
  import opened TieredLaws
  import opened TieredWindow
  import opened TieredImpatient
  import opened TieredStale

  // ----- a page that is moved -----

  /** As in TieredStale, with the first window open. */
  function EarlySmall(): Config { Config(1, 2, 1, 1, false, true, true) }

  /** Page 2 is being promoted, and its free entry has been drained. */
  lemma DrainedMoving() returns (s: State)
    ensures PatientlyReachable(EarlySmall(), s) && s.fault.Idle? && s.log == [] && Known(s, 0) && Known(s, 1)
    ensures s.va[1] == 2 && s.frame[0] == Frame(Dram, 0) && s.frame[1] == Frame(Nvm, 0)
    ensures s.table.Keys == {2, 3} && s.dramFree == [] && s.nvmFree == [1] && s.removing == map[1 := Removal(2, true)]
    ensures s.running == map[0 := Moving(Job(None, 1, 0), true, 0)] && s.migrating == {1}
    ensures s.mem.Keys == {Frame(Dram, 0), Frame(Nvm, 0), Frame(Nvm, 1)} && forall f :: f in s.mem ==> s.mem[f] == [0]
  {
    hide Reached, PatientlyReachable, Reachable, Inv;
    var steps;
    s, steps := Promoting();
    ReachedIs(Small(), s, steps);
    ReachableInv(Small(), s);
    PatientLooser(EarlySmall(), Small(), s);
    s := PatientStep(EarlySmall(), s, RemoveIndex(2));
    s := PatientStep(EarlySmall(), s, RemoveLog(1));
    assert s.log == [Entry(1, true)];
    s := PatientStep(EarlySmall(), s, PolicyDrainFree);
  }

  /** It is mapped to the DRAM frame. */
  lemma MovedUp() returns (s: State)
    ensures TakelessReachable(EarlySmall(), s) && s.fault.Idle? && s.log == [] && Known(s, 0) && Known(s, 1)
    ensures s.va[1] == 2 && s.frame[1] == Frame(Dram, 0)
    ensures s.table.Keys == {2, 3} && s.dramFree == [] && s.nvmFree == [1] && s.removing == map[1 := Removal(2, true)]
    ensures s.running == map[0 := Remapped(Job(None, 1, 0), true, Frame(Nvm, 0))] && s.migrating == {1}
  {
    hide TakelessReachable;
    s := CopiedUp();
    s := TakelessStep(EarlySmall(), s, WorkRemap(0));
  }

  lemma CopiedUp() returns (s: State)
    ensures TakelessReachable(EarlySmall(), s) && s.fault.Idle? && s.log == [] && Known(s, 0) && Known(s, 1)
    ensures s.va[1] == 2 && s.frame[0] == Frame(Dram, 0) && s.frame[1] == Frame(Nvm, 0)
    ensures s.table.Keys == {2, 3} && s.dramFree == [] && s.nvmFree == [1] && s.removing == map[1 := Removal(2, true)]
    ensures s.running == map[0 := Moving(Job(None, 1, 0), true, 1)] && s.migrating == {1}
  {
    hide TakelessReachable, PatientlyReachable;
    s := DrainedMoving();
    PatientTakeless(EarlySmall(), s);
    s := TakelessStep(EarlySmall(), s, WorkCopy(0));
  }

  /** And then its removal goes on to the end. */
  lemma MovedAway() returns (s: State)
    ensures TakelessReachable(EarlySmall(), s) && s.fault.Idle? && Known(s, 1)
    ensures s.frame[1] == Frame(Dram, 0) && s.dramFree == [] && s.nvmFree == [0, 1] && s.removing == map[]
      && s.table.Keys == {3}
  {
    hide TakelessReachable;
    s := MovedUp();
    s := TakelessStep(EarlySmall(), s, WorkReleaseUp(0));
    s := TakelessStep(EarlySmall(), s, RemoveClear(1));
  }

  /** So it is not enough that no step takes a descriptor that is still being removed: there is a run of
      that kind after which an allocation finds a page in the wrong tier. */
  lemma StrayReal()
    ensures exists s, v ::
      (&& TakelessReachable(EarlySmall(), s) && Enabled(EarlySmall(), s, FaultAllocNvm(v))
       && !Takes(s, FaultAllocNvm(v)) && !Asserted(EarlySmall(), s, FaultAllocNvm(v)))
  {
    hide TakelessReachable;
    var s := MovedAway();
    assert Last(s.nvmFree) == 1;
    MisplacedFails(EarlySmall(), s, 1, 5);
    assert Enabled(EarlySmall(), s, FaultAllocNvm(5));
  }

  // ----- a page that is taken -----

  /** One DRAM frame and three NVM frames. */
  function FourFrames(): Config { Config(1, 3, 1, 1, true, true, true) }

  function EarlyFour(): Config { Config(1, 3, 1, 1, false, true, true) }

  predicate AllKnown(s: State) { Known(s, 0) && Known(s, 1) && Known(s, 2) && Known(s, 3) }

  predicate Framed(s: State)
  {
    && AllKnown(s) && s.frame[0] == Frame(Dram, 0) && s.frame[1] == Frame(Nvm, 0)
    && s.frame[2] == Frame(Nvm, 1) && s.frame[3] == Frame(Nvm, 2)
  }

  predicate NoJobs(s: State) { s.queue == [] && s.running == map[] && s.jobs == 0 }

  lemma NewFour() returns (s: State, steps: seq<Step>)
    ensures Reached(FourFrames(), s, steps) && Rested(s) && Framed(s) && NoJobs(s)
    ensures s.index == map[] && s.pages == map[] && s.table == map[] && s.present == {} && s.dramFree == [0]
      && s.nvmFree == [3, 2, 1]
  {
    s, steps := Init(FourFrames()), [];
    assert s.dramFree == [0] && s.nvmFree == [3, 2, 1];
  }

  lemma TwoOfFour() returns (s: State, steps: seq<Step>)
    ensures Reached(FourFrames(), s, steps) && Rested(s) && Framed(s) && NoJobs(s)
    ensures s.va[0] == 1 && s.va[1] == 2 && s.index == s.pages == map[1 := 0, 2 := 1] && s.table.Keys == {1, 2}
    ensures s.present == {0, 1} && s.dramFree == [] && s.nvmFree == [3, 2]
  {
    hide Reached;
    s, steps := NewFour();
    s, steps := TieredStale.Touched(FourFrames(), s, steps, 1, 0);
    s, steps := TieredStale.Touched(FourFrames(), s, steps, 2, 1);
  }

  /** Four pages fill all frames. */
  lemma AllFour() returns (s: State, steps: seq<Step>)
    ensures Reached(FourFrames(), s, steps) && Rested(s) && Framed(s) && NoJobs(s)
    ensures s.va[0] == 1 && s.va[1] == 2 && s.va[2] == 3 && s.va[3] == 4
    ensures s.index == s.pages == map[1 := 0, 2 := 1, 3 := 2, 4 := 3] && s.table.Keys == {1, 2, 3, 4}
    ensures s.present == {0, 1, 2, 3} && s.dramFree == [] && s.nvmFree == [] && 4 in s.flat && s.flat[4] == [0]
  {
    hide Reached;
    s, steps := TwoOfFour();
    s, steps := TieredStale.Touched(FourFrames(), s, steps, 3, 2);
    s, steps := TieredStale.Touched(FourFrames(), s, steps, 4, 3);
  }

  /** Page 4 is being removed, and its free entry has been drained. */
  lemma OneLeaving() returns (s: State)
    ensures PatientlyReachable(EarlyFour(), s) && Framed(s) && NoJobs(s) && s.policy.Draining? && s.log == []
      && s.migrating == {}
    ensures s.va[0] == 1 && s.va[1] == 2 && s.va[2] == 3 && s.va[3] == 4 && s.index == map[1 := 0, 2 := 1, 3 := 2]
    ensures s.present == {0, 1, 2, 3} && s.dramFree == [] && s.nvmFree == [3]
      && s.removing == map[3 := Removal(4, true)]
    ensures 4 in s.flat && s.flat[4] == [0]
  {
    hide Reached, PatientlyReachable, Reachable, Inv;
    var steps;
    s, steps := AllFour();
    ReachedIs(FourFrames(), s, steps);
    ReachableInv(FourFrames(), s);
    PatientLooser(EarlyFour(), FourFrames(), s);
    s := PatientStep(EarlyFour(), s, RemoveIndex(4));
    s := PatientStep(EarlyFour(), s, RemoveLog(3));
    assert s.log == [Entry(3, true)];
    s := PatientStep(EarlyFour(), s, PolicyDrainFree);
  }

  /** Pages 2, 3 and 1 are ranked in this order ... */
  lemma Planned() returns (s: State)
    ensures PatientlyReachable(EarlyFour(), s) && Framed(s) && s.queue == [] && s.running == map[]
    ensures s.policy == Planning([1, 2, 0], 0, 2, false) && s.present == {0, 1, 2, 3} && s.migrating == {}
    ensures s.va[3] == 4 && s.dramFree == [] && s.nvmFree == [3] && s.removing == map[3 := Removal(4, true)]
    ensures 4 in s.flat && s.flat[4] == [0]
  {
    hide PatientlyReachable;
    s := OneLeaving();
    assert s.index[1] in s.index.Values && s.index[2] in s.index.Values && s.index[3] in s.index.Values;
    s := PatientStep(EarlyFour(), s, PolicyScore([1, 2, 0]));
    s := PatientStep(EarlyFour(), s, PolicyPlan);
  }

  /** ... and room is sought for page 2. */
  lemma Swapping() returns (s: State)
    ensures PatientlyReachable(EarlyFour(), s) && SwapsEarly(EarlyFour(), s)
    ensures ColdPage(s) == 0 && Last(s.nvmFree) == 3 && Known(s, 3) && s.va[3] == 4 && 4 in s.flat && s.flat[4] == [0]
  {
    hide PatientlyReachable;
    s := Planned();
    s := PatientStep(EarlyFour(), s, PlanSeekCold);
    assert Last(s.nvmFree) == 3;
  }

  lemma {:induction false} PatientAsserted(c: Config, s: State, steps: seq<Step>)
    requires c.moveLate && c.removeLate && Inv(c, s) && Runnable(c, s, steps) && Patient(c, s, steps)
    ensures AllAsserted(c, s, steps)
    decreases |steps|
  {
    hide Inv, Enabled, Next, Takes, Strays, Asserted;
    if steps != [] {
      StepAsserted(c, s, steps[0]);
      KeepInv(c, s, steps[0]);
      PatientAsserted(c, Next(c, s, steps[0]), steps[1..]);
    }
  }

  lemma Swapped() returns (s: State, steps: seq<Step>)
    ensures Reached(EarlyFour(), s, steps) && AllAsserted(EarlyFour(), Init(EarlyFour()), steps)
    ensures 4 in s.table && s.table[4].frame in s.mem && s.mem[s.table[4].frame] == [7] && 4 in s.flat
      && s.flat[4] == [0]
  {
    hide PatientlyReachable, SwapsEarly, Inv, Init, Runnable, After, AllAsserted, Patient;
    var c := EarlyFour();
    var w := Swapping();
    var first := PatientSteps(c, w);
    InitInv(c);
    PatientAsserted(c, Init(c), first);
    var more := SwapDoubles(c, w, 0, 7);
    Joined(c, Init(c), first, more);
    s, steps := After(c, w, more), first + more;
    assert |s.mem[s.table[4].frame]| == 1;
  }

  lemma PatientSteps(c: Config, s: State) returns (steps: seq<Step>)
    requires PatientlyReachable(c, s)
    ensures Runnable(c, Init(c), steps) && Patient(c, Init(c), steps) && After(c, Init(c), steps) == s
  {
    hide Init, Runnable, After, Patient;
    steps :| Runnable(c, Init(c), steps) && Patient(c, Init(c), steps) && After(c, Init(c), steps) == s;
  }

  /** Every assertion of the program holds on the way, and yet the application reads from a page what it
      has stored to another one. */
  lemma SwapReal()
    ensures exists s, steps ::
      (&& Reached(EarlyFour(), s, steps) && AllAsserted(EarlyFour(), Init(EarlyFour()), steps)
       && 4 in s.table && s.table[4].frame in s.mem && |s.mem[s.table[4].frame]| == 1
       && s.mem[s.table[4].frame][0] == 7 && LastWritten(Trace(EarlyFour(), Init(EarlyFour()), steps), 4, 0) == 0)
  {
    var s, steps := Swapped();
    assert Init(EarlyFour()).flat == map[];
    hide Init, LastWritten, FlatRun, Trace, AllAsserted;
    FlatTrace(EarlyFour(), Init(EarlyFour()), steps);
    FlatReads(EarlyFour(), Trace(EarlyFour(), Init(EarlyFour()), steps), 4, 0);
  }
}
