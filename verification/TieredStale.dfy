/** Runs on one DRAM frame and two NVM frames: the second window the locks leave open loses a write,
    and even with all windows closed a write-protect fault can find its page gone from the index. */
module TieredStale {
  import opened Options
  import opened TieredState
  import opened TieredMain
  import opened TieredLaws
  import opened TieredWindow

  /** One word a frame, one migration thread. */
  function Small(): Config { Config(1, 2, 1, 1, true, true, true) }

  /** The same with the second window open. */
  function ThreeFrames(): Config { Config(1, 2, 1, 1, true, false, true) }

  /** Between two faults, with the log drained. */
  predicate Rested(s: State)
  {
    s.fault.Idle? && s.log == [] && s.policy.Draining? && s.migrating == {} && s.removing == map[]
  }

  predicate Settled(s: State) { Rested(s) && Known(s, 0) && Known(s, 1) && Known(s, 2) }

  /** Page v is touched, gets descriptor d, and is indexed. */
  function Touching(s: State, v: Va, d: Did): State
    requires d in s.frame
  {
    var f := s.frame[d];
    s.(va := s.va[d := v], present := s.present + {d}, role := s.role[d := Faulting][d := Live],
       dramFree := if s.dramFree != [] then Front(s.dramFree) else [],
       nvmFree := if s.dramFree != [] || s.nvmFree == [] then s.nvmFree else Front(s.nvmFree),
       mem := s.mem[f := [0]], table := s.table[v := Mapping(f, false)], flat := s.flat[v := [0]],
       pages := s.pages[v := d], index := s.index[v := d], told := s.told[v := d])
  }

  /** The state between the fault and the entry on the log. */
  function Faulted(s: State, v: Va, d: Did): State
    requires d in s.frame
  {
    var f := s.frame[d];
    s.(va := s.va[d := v], present := s.present + {d}, role := s.role[d := Faulting][d := Live],
       dramFree := if s.dramFree != [] then Front(s.dramFree) else [],
       nvmFree := if s.dramFree != [] || s.nvmFree == [] then s.nvmFree else Front(s.nvmFree),
       mem := s.mem[f := [0]], table := s.table[v := Mapping(f, false)], flat := s.flat[v := [0]], fault := Mapped(d))
  }

  lemma TouchedFirst(c: Config, s: State, steps: seq<Step>, v: Va, d: Did) returns (s': State, steps': seq<Step>)
    requires Reached(c, s, steps) && Rested(s) && Known(s, d) && c.words == 1 && v > 0 && v !in s.table
    requires if s.dramFree != [] then d == Last(s.dramFree) else s.nvmFree != [] && d == Last(s.nvmFree)
    ensures Reached(c, s', steps') && s' == Faulted(s, v, d)
  {
    hide Reached;
    s', steps' := OneMore(c, s, steps, if s.dramFree != [] then FaultAllocDram(v) else FaultAllocNvm(v));
    assert s'.fault == Allocated(d, v) && s'.migrating - {d} == {};
    s', steps' := OneMore(c, s', steps', FaultMap);
    assert Zeros(1) == [0];
  }

  /** The state before the add entry is drained. */
  function Added(s: State, v: Va, d: Did): State
    requires d in s.frame
  {
    Faulted(s, v, d).(pages := s.pages[v := d], told := s.told[v := d], log := [Entry(d, false)], fault := Idle)
  }

  lemma TouchedNext(c: Config, s: State, steps: seq<Step>, v: Va, d: Did) returns (s': State, steps': seq<Step>)
    requires Reached(c, s, steps) && Rested(s) && Known(s, d) && c.words == 1 && v > 0 && v !in s.table
    requires if s.dramFree != [] then d == Last(s.dramFree) else s.nvmFree != [] && d == Last(s.nvmFree)
    ensures Reached(c, s', steps') && s' == Added(s, v, d)
  {
    hide Reached;
    s', steps' := TouchedFirst(c, s, steps, v, d);
    s', steps' := OneMore(c, s', steps', FaultIndex);
    s', steps' := OneMore(c, s', steps', FaultLog);
    assert s'.log == [Entry(d, false)];
  }

  lemma Touched(c: Config, s: State, steps: seq<Step>, v: Va, d: Did) returns (s': State, steps': seq<Step>)
    requires Reached(c, s, steps) && Rested(s) && Known(s, d) && c.words == 1 && v > 0 && v !in s.table && v !in s.index
    requires if s.dramFree != [] then d == Last(s.dramFree) else s.nvmFree != [] && d == Last(s.nvmFree)
    ensures Reached(c, s', steps') && s' == Touching(s, v, d)
  {
    hide Reached;
    s', steps' := TouchedNext(c, s, steps, v, d);
    s', steps' := OneMore(c, s', steps', PolicyDrainAdd);
  }

  /** Page v is removed and its descriptor d goes back to its free list. */
  function Removing3(s: State, v: Va, d: Did): State
    requires d in s.frame
  {
    s.(present := s.present - {d}, role := s.role[d := Dropped][d := Leaving][d := Gone][d := FreeIn(s.frame[d].tier)],
       dramFree := if s.frame[d].tier == Dram then [d] + s.dramFree else s.dramFree,
       nvmFree := if s.frame[d].tier == Nvm then [d] + s.nvmFree else s.nvmFree,
       table := s.table - {v}, flat := s.flat - {v}, pages := s.pages - {v}, index := s.index - {v},
       told := s.told - {v})
  }

  /** The state before the free entry is drained. */
  function Retiring(s: State, v: Va, d: Did): State
  {
    s.(present := s.present - {d}, role := s.role[d := Dropped][d := Leaving][d := Gone], log := [Entry(d, true)],
       table := s.table - {v}, flat := s.flat - {v}, pages := s.pages - {v}, told := s.told - {v})
  }

  lemma RemovedFirst(s: State, steps: seq<Step>, v: Va, d: Did) returns (s': State, steps': seq<Step>)
    requires Reached(Small(), s, steps) && Settled(s) && d < 3 && v in s.pages && s.pages[v] == d && s.va[d] == v
    ensures Reached(Small(), s', steps') && s' == Retiring(s, v, d)
  {
    hide Reached;
    s', steps' := Announced(s, steps, v, d);
    s', steps' := OneMore(Small(), s', steps', RemoveClear(d));
    assert s'.removing == map[];
  }

  /** The state before its present flag is cleared. */
  function Leaving3(s: State, v: Va, d: Did): State
  {
    s.(role := s.role[d := Dropped][d := Leaving], log := [Entry(d, true)], removing := map[d := Removal(v, true)],
       pages := s.pages - {v}, told := s.told - {v})
  }

  lemma Announced(s: State, steps: seq<Step>, v: Va, d: Did) returns (s': State, steps': seq<Step>)
    requires Reached(Small(), s, steps) && Settled(s) && d < 3 && v in s.pages && s.pages[v] == d && s.va[d] == v
    ensures Reached(Small(), s', steps') && s' == Leaving3(s, v, d)
  {
    hide Reached;
    s', steps' := OneMore(Small(), s, steps, RemoveIndex(v));
    s', steps' := OneMore(Small(), s', steps', RemoveLog(d));
    assert s'.log == [Entry(d, true)] && s'.removing == map[d := Removal(v, true)];
  }

  lemma Removed(s: State, steps: seq<Step>, v: Va, d: Did) returns (s': State, steps': seq<Step>)
    requires Reached(Small(), s, steps) && Settled(s) && d < 3 && v in s.pages && s.pages[v] == d && s.va[d] == v
      && v in s.index
    ensures Reached(Small(), s', steps') && s' == Removing3(s, v, d)
  {
    hide Reached;
    s', steps' := RemovedFirst(s, steps, v, d);
    s', steps' := OneMore(Small(), s', steps', PolicyDrainFree);
  }

  /** Three pages fill all frames. */
  lemma Filled() returns (s: State, steps: seq<Step>)
    ensures Reached(Small(), s, steps) && Settled(s)
    ensures s.va[0] == 1 && s.va[1] == 2 && s.va[2] == 3
    ensures s.frame[0] == Frame(Dram, 0) && s.frame[1] == Frame(Nvm, 0) && s.frame[2] == Frame(Nvm, 1)
    ensures s.pages == s.index == map[1 := 0, 2 := 1, 3 := 2] && s.present == {0, 1, 2}
    ensures s.table == map[1 := Mapping(Frame(Dram, 0), false), 2 := Mapping(Frame(Nvm, 0), false),
                           3 := Mapping(Frame(Nvm, 1), false)]
    ensures s.dramFree == [] && s.nvmFree == [] && s.queue == [] && s.running == map[] && s.jobs == 0
      && s.flat.Keys == {1, 2, 3}
    ensures s.mem.Keys == {Frame(Dram, 0), Frame(Nvm, 0), Frame(Nvm, 1)} && forall f :: f in s.mem ==> s.mem[f] == [0]
  {
    hide Reached;
    s, steps := FilledTwo();
    s, steps := Touched(Small(), s, steps, 3, 2);
  }

  lemma FilledTwo() returns (s: State, steps: seq<Step>)
    ensures Reached(Small(), s, steps) && Settled(s)
    ensures s.va[0] == 1 && s.va[1] == 2
    ensures s.frame[0] == Frame(Dram, 0) && s.frame[1] == Frame(Nvm, 0) && s.frame[2] == Frame(Nvm, 1)
    ensures s.pages == s.index == map[1 := 0, 2 := 1] && s.present == {0, 1}
    ensures s.table == map[1 := Mapping(Frame(Dram, 0), false), 2 := Mapping(Frame(Nvm, 0), false)]
    ensures s.dramFree == [] && s.nvmFree == [2] && s.queue == [] && s.running == map[] && s.jobs == 0
      && s.flat.Keys == {1, 2}
    ensures s.mem.Keys == {Frame(Dram, 0), Frame(Nvm, 0), Frame(Nvm, 1)} && forall f :: f in s.mem ==> s.mem[f] == [0]
  {
    hide Reached;
    s, steps := Fresh();
    s, steps := Touched(Small(), s, steps, 1, 0);
    s, steps := Touched(Small(), s, steps, 2, 1);
  }

  lemma Fresh() returns (s: State, steps: seq<Step>)
    ensures Reached(Small(), s, steps) && Settled(s)
    ensures s.frame[0] == Frame(Dram, 0) && s.frame[1] == Frame(Nvm, 0) && s.frame[2] == Frame(Nvm, 1)
    ensures s.pages == s.index == map[] && s.present == {} && s.table == map[] && s.flat == map[]
    ensures s.dramFree == [0] && s.nvmFree == [2, 1] && s.queue == [] && s.running == map[] && s.jobs == 0
    ensures s.mem.Keys == {Frame(Dram, 0), Frame(Nvm, 0), Frame(Nvm, 1)} && forall f :: f in s.mem ==> s.mem[f] == [0]
  {
    s, steps := Init(Small()), [];
    assert s.dramFree == [0] && s.nvmFree == [2, 1] && Zeros(1) == [0];
    assert s.mem.Keys == {Frame(Dram, 0), Frame(Nvm, 0), Frame(Nvm, 1)};
  }

  /** Pages 2 and 3 have the NVM frames, the DRAM frame is free again. */
  lemma Lined() returns (s: State, steps: seq<Step>)
    ensures Reached(Small(), s, steps) && Settled(s)
    ensures s.va[1] == 2 && s.va[2] == 3
    ensures s.frame[0] == Frame(Dram, 0) && s.frame[1] == Frame(Nvm, 0) && s.frame[2] == Frame(Nvm, 1)
    ensures s.pages == s.index == map[2 := 1, 3 := 2] && s.present == {1, 2}
    ensures s.table == map[2 := Mapping(Frame(Nvm, 0), false), 3 := Mapping(Frame(Nvm, 1), false)]
    ensures s.dramFree == [0] && s.nvmFree == [] && s.queue == [] && s.running == map[] && s.jobs == 0
      && s.flat.Keys == {2, 3}
    ensures s.mem.Keys == {Frame(Dram, 0), Frame(Nvm, 0), Frame(Nvm, 1)} && forall f :: f in s.mem ==> s.mem[f] == [0]
  {
    s, steps := Filled();
    hide Reached;
    s, steps := Removed(s, steps, 1, 0);
  }

  /** Both are ranked, and planning begins. */
  lemma Ranked() returns (s: State, steps: seq<Step>)
    ensures Reached(Small(), s, steps) && s.policy == Planning([1, 2], 0, 1, false)
    ensures s.fault.Idle? && s.log == [] && s.migrating == {} && s.removing == map[] && Known(s, 0)
      && Known(s, 1) && Known(s, 2)
    ensures s.va[1] == 2 && s.va[2] == 3
    ensures s.frame[0] == Frame(Dram, 0) && s.frame[1] == Frame(Nvm, 0) && s.frame[2] == Frame(Nvm, 1)
    ensures s.pages == s.index == map[2 := 1, 3 := 2] && s.present == {1, 2}
    ensures s.table == map[2 := Mapping(Frame(Nvm, 0), false), 3 := Mapping(Frame(Nvm, 1), false)]
    ensures s.dramFree == [0] && s.nvmFree == [] && s.queue == [] && s.running == map[] && s.jobs == 0
      && s.flat.Keys == {2, 3}
    ensures s.mem.Keys == {Frame(Dram, 0), Frame(Nvm, 0), Frame(Nvm, 1)} && forall f :: f in s.mem ==> s.mem[f] == [0]
  {
    s, steps := Lined();
    hide Reached;
    assert s.index[2] in s.index.Values && s.index[3] in s.index.Values;
    s, steps := OneMore(Small(), s, steps, PolicyScore([1, 2]));
    s, steps := OneMore(Small(), s, steps, PolicyPlan);
  }

  /** A job to promote page 2 is queued, but no thread has taken it. */
  lemma Queued() returns (s: State, steps: seq<Step>)
    ensures Reached(Small(), s, steps) && Settled(s)
    ensures s.va[1] == 2 && s.va[2] == 3
    ensures s.frame[0] == Frame(Dram, 0) && s.frame[1] == Frame(Nvm, 0) && s.frame[2] == Frame(Nvm, 1)
    ensures s.pages == s.index == map[2 := 1, 3 := 2] && s.present == {1, 2}
    ensures s.table == map[2 := Mapping(Frame(Nvm, 0), false), 3 := Mapping(Frame(Nvm, 1), false)]
    ensures s.dramFree == [] && s.nvmFree == [] && s.queue == [Job(None, 1, 0)] && s.running == map[]
      && s.flat.Keys == {2, 3}
    ensures s.mem.Keys == {Frame(Dram, 0), Frame(Nvm, 0), Frame(Nvm, 1)} && forall f :: f in s.mem ==> s.mem[f] == [0]
  {
    s, steps := Ranked();
    hide Reached;
    s, steps := OneMore(Small(), s, steps, PlanPromote);
    s, steps := OneMore(Small(), s, steps, PlanEnd);
    assert s.queue == [Job(None, 1, 0)];
  }

  /** Meanwhile both pages go. */
  lemma Emptied() returns (s: State, steps: seq<Step>)
    ensures Reached(Small(), s, steps) && Settled(s)
    ensures s.va[1] == 2
    ensures s.frame[0] == Frame(Dram, 0) && s.frame[1] == Frame(Nvm, 0) && s.frame[2] == Frame(Nvm, 1)
    ensures s.table == map[] && s.flat == map[] && s.index == map[]
    ensures s.dramFree == [] && s.nvmFree == [1, 2] && s.queue == [Job(None, 1, 0)] && s.running == map[]
    ensures s.mem.Keys == {Frame(Dram, 0), Frame(Nvm, 0), Frame(Nvm, 1)}
      && s.mem[Frame(Nvm, 0)] == s.mem[Frame(Dram, 0)] == [0]
  {
    s, steps := Queued();
    hide Reached;
    s, steps := Removed(s, steps, 3, 2);
    s, steps := Removed(s, steps, 2, 1);
    assert s.table == map[] && s.index == map[] && s.nvmFree == [1, 2];
    assert s.flat.Keys == {};
  }

  /** Page 2 comes back on the other descriptor and is written to. */
  lemma Rewritten() returns (s: State, steps: seq<Step>)
    ensures Reached(Small(), s, steps) && Settled(s)
    ensures s.va[1] == 2 && s.va[2] == 2
    ensures s.frame[0] == Frame(Dram, 0) && s.frame[1] == Frame(Nvm, 0) && s.frame[2] == Frame(Nvm, 1)
    ensures s.table == map[2 := Mapping(Frame(Nvm, 1), false)] && s.flat == map[2 := [7]]
    ensures s.dramFree == [] && s.nvmFree == [1] && s.queue == [Job(None, 1, 0)] && s.running == map[]
    ensures s.mem.Keys == {Frame(Dram, 0), Frame(Nvm, 0), Frame(Nvm, 1)}
      && s.mem[Frame(Nvm, 0)] == s.mem[Frame(Dram, 0)] == [0]
  {
    s, steps := Emptied();
    hide Reached;
    s, steps := Touched(Small(), s, steps, 2, 2);
    assert s.table == map[2 := Mapping(Frame(Nvm, 1), false)];
    s, steps := OneMore(Small(), s, steps, AppWrite(2, 0, 7));
    assert s.flat[2] == [7];
  }

  /** The next fault takes descriptor 1, whose address is still the old one. */
  lemma Reused() returns (s: State, steps: seq<Step>)
    ensures Reached(Small(), s, steps) && s.flat == map[2 := [7]] && 2 in s.table
    ensures Known(s, 0) && Known(s, 1) && s.va[1] == 2 && s.frame[0] == Frame(Dram, 0) && s.frame[1] == Frame(Nvm, 0)
    ensures s.queue == [Job(None, 1, 0)] && s.running == map[] && s.migrating == {} && 1 in s.present
      && s.role[1] == Faulting
    ensures Frame(Dram, 0) in s.mem && Frame(Nvm, 0) in s.mem && s.mem[Frame(Nvm, 0)] == s.mem[Frame(Dram, 0)] == [0]
  {
    s, steps := Rewritten();
    hide Reached;
    s, steps := OneMore(Small(), s, steps, FaultAllocNvm(4));
  }

  /** A thread takes the job. */
  lemma Taken() returns (s: State, steps: seq<Step>)
    ensures Reached(Small(), s, steps) && s.flat == map[2 := [7]] && 2 in s.table
    ensures Known(s, 0) && Known(s, 1) && s.va[1] == 2 && s.frame[0] == Frame(Dram, 0) && s.frame[1] == Frame(Nvm, 0)
    ensures s.queue == [] && s.running == map[0 := AtPromote(Job(None, 1, 0))] && s.migrating == {} && 1 in s.present
    ensures Frame(Dram, 0) in s.mem && Frame(Nvm, 0) in s.mem && s.mem[Frame(Nvm, 0)] == s.mem[Frame(Dram, 0)] == [0]
  {
    s, steps := Reused();
    hide Reached;
    s, steps := OneMore(Small(), s, steps, WorkStart);
  }

  /** With the second window open, it locks descriptor 1. */
  lemma Locked() returns (s: State, steps: seq<Step>)
    ensures Reached(ThreeFrames(), s, steps) && s.flat == map[2 := [7]] && 2 in s.table
    ensures Known(s, 0) && Known(s, 1) && s.va[1] == 2 && s.frame[0] == Frame(Dram, 0) && s.frame[1] == Frame(Nvm, 0)
    ensures s.running == map[0 := Moving(Job(None, 1, 0), true, 0)]
    ensures Frame(Dram, 0) in s.mem && Frame(Nvm, 0) in s.mem && s.mem[Frame(Nvm, 0)] == s.mem[Frame(Dram, 0)] == [0]
  {
    hide Reached;
    s, steps := Taken();
    ReachedShut(ThreeFrames(), s, steps);
    s, steps := OneMore(ThreeFrames(), s, steps, WorkBegin(0));
  }

  lemma Copied() returns (s: State, steps: seq<Step>)
    ensures Reached(ThreeFrames(), s, steps) && s.flat == map[2 := [7]] && 2 in s.table
    ensures Known(s, 0) && Known(s, 1) && s.va[1] == 2 && s.frame[0] == Frame(Dram, 0)
    ensures s.running == map[0 := Moving(Job(None, 1, 0), true, 1)] && Frame(Dram, 0) in s.mem
      && s.mem[Frame(Dram, 0)] == [0]
  {
    hide Reached;
    s, steps := Locked();
    s, steps := OneMore(ThreeFrames(), s, steps, WorkCopy(0));
  }

  /** The job moves descriptor 1, and maps page 2 to a frame that never held it. */
  lemma Overtaken() returns (s: State, steps: seq<Step>)
    ensures Reached(ThreeFrames(), s, steps) && s.flat == map[2 := [7]]
    ensures 2 in s.table && s.table[2].frame in s.mem && s.mem[s.table[2].frame] == [0]
  {
    hide Reached;
    s, steps := Copied();
    s, steps := OneMore(ThreeFrames(), s, steps, WorkRemap(0));
  }

  /** If a migration thread may lock a descriptor that is allocated but has no address yet,
      memory is no longer flat: a page reads zero after 7 was written to it. */
  lemma SecondWindowReal()
    ensures !ThreeFrames().moveLate
    ensures exists s, steps ::
      (&& Reached(ThreeFrames(), s, steps) && 2 in s.table && s.table[2].frame in s.mem
        && |s.mem[s.table[2].frame]| == 1
       && s.mem[s.table[2].frame][0] == 0 && LastWritten(Trace(ThreeFrames(), Init(ThreeFrames()), steps), 2, 0) == 7)
  {
    var s, steps := Overtaken();
    assert Init(ThreeFrames()).flat == map[];
    hide Init, LastWritten, FlatRun, Trace;
    FlatTrace(ThreeFrames(), Init(ThreeFrames()), steps);
    FlatReads(ThreeFrames(), Trace(ThreeFrames(), Init(ThreeFrames()), steps), 2, 0);
  }

  // ----- a write-protect fault that finds no page -----

  /** A thread has taken the job. */
  lemma Dequeued() returns (s: State, steps: seq<Step>)
    ensures Reached(Small(), s, steps) && Settled(s)
    ensures s.va[1] == 2 && s.va[2] == 3 && s.frame[0] == Frame(Dram, 0) && s.frame[1] == Frame(Nvm, 0)
    ensures s.pages == s.index == map[2 := 1, 3 := 2] && s.present == {1, 2} && s.table.Keys == {2, 3}
    ensures s.dramFree == [] && s.nvmFree == [] && s.running == map[0 := AtPromote(Job(None, 1, 0))]
    ensures s.mem.Keys == {Frame(Dram, 0), Frame(Nvm, 0), Frame(Nvm, 1)} && forall f :: f in s.mem ==> s.mem[f] == [0]
  {
    s, steps := Queued();
    hide Reached;
    s, steps := OneMore(Small(), s, steps, WorkStart);
  }

  /** Page 2 is being promoted. */
  lemma Promoting() returns (s: State, steps: seq<Step>)
    ensures Reached(Small(), s, steps) && s.fault.Idle? && s.log == [] && s.policy.Draining? && s.removing == map[]
    ensures Known(s, 0) && Known(s, 1) && s.va[1] == 2 && s.frame[0] == Frame(Dram, 0) && s.frame[1] == Frame(Nvm, 0)
    ensures s.pages == s.index == map[2 := 1, 3 := 2] && s.table.Keys == {2, 3} && s.table[2].wp
    ensures s.dramFree == [] && s.nvmFree == [] && s.running == map[0 := Moving(Job(None, 1, 0), true, 0)]
      && s.migrating == {1}
    ensures s.mem.Keys == {Frame(Dram, 0), Frame(Nvm, 0), Frame(Nvm, 1)} && forall f :: f in s.mem ==> s.mem[f] == [0]
  {
    s, steps := Dequeued();
    hide Reached;
    s, steps := OneMore(Small(), s, steps, WorkBegin(0));
  }

  /** All windows closed, a page can be write-protected and out of the page index: a write to it
      faults, and assert(page != NULL) in handle_wp_fault fails. */
  lemma WpFaultUnanswered()
    ensures Closed(Small())
    ensures exists s :: Reachable(Small(), s) && 2 in s.table && s.table[2].wp && s.fault.Idle? && 2 !in s.pages
  {
    var s, steps := Promoting();
    hide Reached;
    s, steps := OneMore(Small(), s, steps, RemoveIndex(2));
    ReachedIs(Small(), s, steps);
  }
}
