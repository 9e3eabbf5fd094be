/** The tiered-memory manager of src/pebs.c and src/arms.c as a state machine.  Four kinds of
    thread share the state: the fault thread, application threads that write and unmap, the
    policy thread and the migration threads. */
module TieredState {
  import opened Options

  type Did = nat   // a page descriptor (struct arms_page)
  type Va = nat    // the address of a page
  type Page = seq<int>

  datatype Tier = Dram | Nvm

  datatype Frame = Frame(tier: Tier, off: nat)

  /** A virtual page as mapped: its frame, and whether writes to it are blocked. */
  datatype Mapping = Mapping(frame: Frame, wp: bool)

  /** An entry of the add/free log, mod_page_t. */
  datatype Entry = Entry(d: Did, free: bool)

  /** struct migration_req; cold is the page to demote first, if need_demotion. */
  datatype Job = Job(cold: Option<Did>, hot: Did, spare: Did)

  /** What a migration thread is doing with a job. */
  datatype Work =
    | AtDemote(job: Job)                         // about to lock the cold page
    | AtPromote(job: Job)                        // about to lock the hot page
    | Moving(job: Job, up: bool, copied: nat)    // page locked and write-protected, some words copied
    | Remapped(job: Job, up: bool, left: Frame)   // page mapped to its new frame, still locked

  /** How far a first touch has come. */
  datatype Fault = Idle | Allocated(d: Did, va: Va) | Mapped(d: Did) | Indexed(d: Did)

  /** A call of pebs_remove_page that is out of the page index; logged: its free entry is on the log. */
  datatype Removal = Removal(va: Va, logged: bool)

  /** Where the policy thread is in its loop. */
  datatype Policy =
    | Draining
    | Waiting(scores: seq<Did>)
    | Planning(scores: seq<Did>, p: int, q: int, cold: bool)

  /** Auxiliary: the one place a descriptor is in.  Early: on a free list, while its removal is still
      under way. */
  datatype Role = FreeIn(tier: Tier) | Early(tier: Tier) | Spare | Faulting | Live | Dropped | Leaving | Gone

  /** The fields of struct arms_page the protocol uses are kept by field: in_dram and
      devdax_offset together are `frame`; `present` and `migrating` are the descriptors for
      which that flag is set.  `role`, `told` and `flat` are auxiliary: the place a descriptor is
      in, the page index as the log has told it, and what flat memory would hold. */
  datatype State = State(
    va: map<Did, Va>, frame: map<Did, Frame>, present: set<Did>, migrating: set<Did>,
    role: map<Did, Role>,
    dramFree: seq<Did>, nvmFree: seq<Did>,
    pages: map<Va, Did>, index: map<Va, Did>, log: seq<Entry>, told: map<Va, Did>, removing: map<Did, Removal>,
    queue: seq<Job>, running: map<Did, Work>, jobs: nat, done: nat,
    policy: Policy, fault: Fault,
    table: map<Va, Mapping>, mem: map<Frame, Page>,
    flat: map<Va, Page>)

  /** Sizes: frames per tier, words per page, migration threads.  The flags say which of the
      three windows the locks leave open are taken to be closed:
      drainLate: a free entry is drained only after pebs_remove_page has cleared `present`;
      moveLate: a page is moved only after the fault thread has set the address it has now;
      removeLate: a page is removed only after its add entry is on the log. */
  datatype Config = Config(dram: nat, nvm: nat, words: nat, threads: nat, drainLate: bool, moveLate: bool,
    removeLate: bool)

  predicate Closed(c: Config) { c.drainLate && c.moveLate && c.removeLate }

  function Zeros(n: nat): (z: Page)
    ensures |z| == n && forall i :: 0 <= i < n ==> z[i] == 0
  {
    seq(n, _ => 0)
  }

  function AllFrames(c: Config): set<Frame>
  {
    (set o | 0 <= o < c.dram :: Frame(Dram, o)) + (set o | 0 <= o < c.nvm :: Frame(Nvm, o))
  }

  // ----- pebs_init -----

  /** Descriptors 0..dram-1 start on the DRAM frames, the following ones on the NVM frames. */
  function InitFrame(c: Config, d: Did): Frame
  {
    if d < c.dram then Frame(Dram, d) else Frame(Nvm, d - c.dram)
  }

  /** calloc: no page is mapped yet. */
  function InitVa(d: Did): Va { 0 }

  function Init(c: Config): State
  {
    State(
      map d: Did | d < c.dram + c.nvm :: InitVa(d),
      map d: Did | d < c.dram + c.nvm :: InitFrame(c, d),
      {}, {},
      map d: Did | d < c.dram + c.nvm :: FreeIn(InitFrame(c, d).tier),
      seq(c.dram, i requires 0 <= i < c.dram => c.dram - 1 - i),
      seq(c.nvm, i requires 0 <= i < c.nvm => c.dram + c.nvm - 1 - i),
      map[], map[], [], map[], map[],
      [], map[], 0, 0,
      Draining, Idle,
      map[], map f | f in AllFrames(c) :: Zeros(c.words),
      map[])
  }

  // ----- lists and jobs -----

  function Last<T>(s: seq<T>): T requires s != [] { s[|s| - 1] }

  function Front<T>(s: seq<T>): seq<T> requires s != [] { s[..|s| - 1] }

  predicate Distinct<T(==)>(s: seq<T>) { forall i, j :: 0 <= i < j < |s| ==> s[i] != s[j] }

  /** The work at hand has the page it is about. */
  predicate Sane(w: Work)
  {
    (w.AtDemote? || ((w.Moving? || w.Remapped?) && !w.up)) ==> w.job.cold.Some?
  }

  /** The page a job is moving, or about to move. */
  function Target(w: Work): Did
    requires Sane(w)
  {
    match w
    case AtDemote(j) => j.cold.value
    case AtPromote(j) => j.hot
    case Moving(j, up, _) => if up then j.hot else j.cold.value
    case Remapped(j, up, _) => if up then j.hot else j.cold.value
  }

  /** d is a descriptor. */
  predicate Known(s: State, d: Did) { d in s.va && d in s.frame && d in s.role }

  /** A running job whose page exists. */
  predicate Runs(s: State, sp: Did)
  {
    sp in s.running && Known(s, sp) && Sane(s.running[sp]) && Known(s, Target(s.running[sp]))
  }

  /** The free list of tier `mine` after enqueue_fifo of d on that of tier t. */
  function Enqueued(l: seq<Did>, mine: Tier, d: Did, t: Tier): seq<Did>
  {
    if t == mine then [d] + l else l
  }

  // ----- application threads -----

  /** A store goes through only while the page is mapped and not write-protected. */
  predicate CanWrite(c: Config, s: State, v: Va, i: nat)
  {
    && v in s.table && !s.table[v].wp && i < c.words
    && s.table[v].frame in s.mem && |s.mem[s.table[v].frame]| == c.words
    && v in s.flat && |s.flat[v]| == c.words
  }

  function Write(c: Config, s: State, v: Va, i: nat, w: int): State
    requires CanWrite(c, s, v, i)
  {
    var f := s.table[v].frame;
    s.(mem := s.mem[f := s.mem[f][i := w]], flat := s.flat[v := s.flat[v][i := w]])
  }

  /** arms_munmap finds a page, and pebs_remove_page takes it out of the page index.  Third window:
      with it closed, the page's add entry is on the log. */
  predicate CanRemove(c: Config, s: State, v: Va)
  {
    v in s.pages && Known(s, s.pages[v]) && (c.removeLate ==> s.fault != Indexed(s.pages[v]))
  }

  function Remove(c: Config, s: State, v: Va): State
    requires CanRemove(c, s, v)
  {
    var d := s.pages[v];
    s.(pages := s.pages - {v}, removing := s.removing[d := Removal(v, false)], role := s.role[d := Dropped])
  }

  /** Its free entry goes on the log. */
  predicate CanPublish(s: State, d: Did) { Known(s, d) && d in s.removing && !s.removing[d].logged }

  function Publish(s: State, d: Did): State
    requires CanPublish(s, d)
  {
    s.(log := s.log + [Entry(d, true)], told := s.told - {s.va[d]},
       removing := s.removing[d := Removal(s.removing[d].va, true)], role := s.role[d := Leaving])
  }

  /** The rest of pebs_remove_page, which needs the page lock, and the unmapping. */
  predicate CanClear(s: State, d: Did) { Known(s, d) && d in s.removing && s.removing[d].logged && d !in s.migrating }

  function Clear(s: State, d: Did): State
    requires CanClear(s, d)
  {
    var v := s.removing[d].va;
    s.(present := s.present - {d}, removing := s.removing - {d},
       role := if s.role[d] == Leaving then s.role[d := Gone]
               else if s.role[d].Early? then s.role[d := FreeIn(s.role[d].tier)] else s.role,
       table := s.table - {v}, flat := s.flat - {v})
  }

  // ----- the fault thread -----

  /** pebs_allocate_page finds a free DRAM page. */
  predicate CanAllocDram(s: State, v: Va)
  {
    s.fault.Idle? && v > 0 && v !in s.table && s.dramFree != [] && Known(s, Last(s.dramFree))
  }

  function AllocDram(s: State, v: Va): State
    requires CanAllocDram(s, v)
  {
    var d := Last(s.dramFree);
    s.(dramFree := Front(s.dramFree), present := s.present + {d}, role := s.role[d := Faulting],
       fault := Allocated(d, v))
  }

  /** DRAM is full: fall back to NVM. */
  predicate CanAllocNvm(s: State, v: Va)
  {
    s.fault.Idle? && v > 0 && v !in s.table && s.dramFree == [] && s.nvmFree != [] && Known(s, Last(s.nvmFree))
  }

  function AllocNvm(s: State, v: Va): State
    requires CanAllocNvm(s, v)
  {
    var d := Last(s.nvmFree);
    s.(nvmFree := Front(s.nvmFree), present := s.present + {d}, role := s.role[d := Faulting], fault := Allocated(d, v))
  }

  /** handle_missing_fault: zero the frame, map it, set va. */
  predicate CanMap(s: State) { s.fault.Allocated? && Known(s, s.fault.d) }

  function Map(c: Config, s: State): State
    requires CanMap(s)
  {
    var d, v := s.fault.d, s.fault.va;
    var f := s.frame[d];
    s.(va := s.va[d := v], migrating := s.migrating - {d}, role := s.role[d := Live],
       mem := s.mem[f := Zeros(c.words)], table := s.table[v := Mapping(f, false)],
       flat := s.flat[v := Zeros(c.words)], fault := Mapped(d))
  }

  /** pebs_add_page: the page goes into the page index ... */
  predicate CanIndex(s: State) { s.fault.Mapped? && Known(s, s.fault.d) }

  function Index(s: State): State
    requires CanIndex(s)
  {
    s.(pages := s.pages[s.va[s.fault.d] := s.fault.d], fault := Indexed(s.fault.d))
  }

  /** ... and then its add entry on the log. */
  predicate CanLog(s: State) { s.fault.Indexed? && Known(s, s.fault.d) }

  function Log(s: State): State
    requires CanLog(s)
  {
    var d := s.fault.d;
    s.(log := s.log + [Entry(d, false)], told := s.told[s.va[d] := d], fault := Idle)
  }

  // ----- the policy thread -----

  /** The policy thread takes the oldest entry off the log.  First window: with it closed, a
      free entry is not drained before pebs_remove_page has cleared `present`. */
  predicate CanDrain(c: Config, s: State, free: bool)
  {
    && s.policy == Draining && s.log != [] && Known(s, s.log[0].d) && s.log[0].free == free
    && (c.drainLate && free ==> s.log[0].d !in s.removing)
  }

  /** The free entry of d has been drained, and its removal is still under way. */
  predicate Drained(s: State, d: Did) { d in s.removing && s.removing[d].logged && Entry(d, true) !in s.log }

  function DrainAdd(c: Config, s: State): State
    requires CanDrain(c, s, false)
  {
    var d := s.log[0].d;
    s.(log := s.log[1..], index := s.index[s.va[d] := d])
  }

  function DrainFree(c: Config, s: State): State
    requires CanDrain(c, s, true)
  {
    var d := s.log[0].d;
    var t := s.frame[d].tier;
    var found := s.va[d] in s.index;                      // else "Page not found in map"
    s.(log := s.log[1..], index := s.index - {s.va[d]},
       role := if found then s.role[d := if d in s.removing then Early(t) else FreeIn(t)] else s.role,
       dramFree := if found then Enqueued(s.dramFree, Dram, d, t) else s.dramFree,
       nvmFree := if found then Enqueued(s.nvmFree, Nvm, d, t) else s.nvmFree)
  }

  /** The log is empty: some indexed pages are ranked, in whatever order. */
  predicate CanScore(s: State, scores: seq<Did>)
  {
    && s.policy == Draining && s.log == [] && scores != [] && Distinct(scores)
    && forall d :: d in scores ==> d in s.index.Values
  }

  function Score(s: State, scores: seq<Did>): State
    requires CanScore(s, scores)
  {
    s.(policy := Waiting(scores))
  }

  predicate CanAwait(s: State) { s.policy.Waiting? && s.jobs > 0 && s.done > 0 }

  function Await(s: State): State
    requires CanAwait(s)
  {
    s.(jobs := s.jobs - 1, done := s.done - 1)
  }

  predicate CanPlan(s: State) { s.policy.Waiting? && s.jobs == 0 }

  function Plan(s: State): State
    requires CanPlan(s)
  {
    s.(policy := Planning(s.policy.scores, 0, |s.policy.scores| - 1, false))
  }

  /** The planning loop is between two ranked pages. */
  predicate Between(s: State)
  {
    && s.policy.Planning? && 0 <= s.policy.p < s.policy.q < |s.policy.scores|
    && Known(s, s.policy.scores[s.policy.p]) && Known(s, s.policy.scores[s.policy.q])
  }

  function HotPage(s: State): Did requires Between(s) { s.policy.scores[s.policy.p] }

  function ColdPage(s: State): Did requires Between(s) { s.policy.scores[s.policy.q] }

  predicate Seeking(c: Config, s: State) { Between(s) && !s.policy.cold && s.policy.p < c.dram }

  /** The page at p is in DRAM already, or may not be promoted yet. */
  function PassHot(c: Config, s: State): State
    requires Seeking(c, s)
  {
    s.(policy := s.policy.(p := s.policy.p + 1))
  }

  predicate HotFound(c: Config, s: State) { Seeking(c, s) && s.frame[HotPage(s)].tier == Nvm }

  /** A free DRAM page is there for the hot page. */
  function Promote(c: Config, s: State): State
    requires HotFound(c, s) && s.dramFree != []
  {
    var sp := Last(s.dramFree);
    s.(dramFree := Front(s.dramFree), role := s.role[sp := Spare], queue := [Job(None, HotPage(s), sp)] + s.queue,
       jobs := s.jobs + 1, policy := s.policy.(p := s.policy.p + 1))
  }

  /** ... but promoting it does not pay. */
  function GiveUp(c: Config, s: State): State
    requires HotFound(c, s) && s.dramFree != []
  {
    s.(dramFree := [Last(s.dramFree)] + Front(s.dramFree), policy := Draining)
  }

  function SeekCold(c: Config, s: State): State
    requires HotFound(c, s) && s.dramFree == []
  {
    s.(policy := s.policy.(cold := true))
  }

  predicate CanPassCold(s: State) { Between(s) && s.policy.cold && s.frame[ColdPage(s)].tier == Nvm }

  function PassCold(s: State): State
    requires CanPassCold(s)
  {
    s.(policy := s.policy.(q := s.policy.q - 1))
  }

  predicate CanSwap(c: Config, s: State)
  {
    Between(s) && s.policy.cold && s.frame[ColdPage(s)].tier == Dram && s.policy.q > c.dram && s.nvmFree != []
  }

  /** A cold page is demoted to a free NVM page to make room for the hot page. */
  function Swap(c: Config, s: State): State
    requires CanSwap(c, s)
  {
    var sp := Last(s.nvmFree);
    s.(nvmFree := Front(s.nvmFree), role := s.role[sp := Spare],
       queue := [Job(Some(ColdPage(s)), HotPage(s), sp)] + s.queue, jobs := s.jobs + 1,
       policy := s.policy.(p := s.policy.p + 1, q := s.policy.q - 1, cold := false))
  }

  function EndPlan(s: State): State
    requires s.policy.Planning?
  {
    s.(policy := Draining)
  }

  // ----- migration threads -----

  /** What a migration thread does first with a job. */
  function Starting(j: Job): (w: Work)
    ensures w.job == j && (w.AtDemote? || w.AtPromote?)
  {
    if j.cold.Some? then AtDemote(j) else AtPromote(j)
  }

  predicate CanStart(c: Config, s: State) { s.queue != [] && |s.running| < c.threads }

  function Start(c: Config, s: State): State
    requires CanStart(c, s)
  {
    var job := Last(s.queue);
    s.(queue := Front(s.queue), running := s.running[job.spare := Starting(job)])
  }

  predicate AtPage(s: State, sp: Did) { Runs(s, sp) && (s.running[sp].AtDemote? || s.running[sp].AtPromote?) }

  /** The page is being removed: the job is dropped and its free page goes back. */
  predicate CanSkip(s: State, sp: Did) { AtPage(s, sp) && Target(s.running[sp]) !in s.present }

  function Skip(s: State, sp: Did): State
    requires CanSkip(s, sp)
  {
    var t := if s.running[sp].AtDemote? then Nvm else Dram;
    s.(running := s.running - {sp}, done := s.done + 1, role := s.role[sp := FreeIn(t)],
       dramFree := Enqueued(s.dramFree, Dram, sp, t), nvmFree := Enqueued(s.nvmFree, Nvm, sp, t))
  }

  /** The page is locked, flagged and write-protected.  Second window: with it closed, the
      fault thread has set the address of a page it has allocated. */
  predicate CanBegin(c: Config, s: State, sp: Did)
  {
    && AtPage(s, sp)
    && var d := Target(s.running[sp]);
       d in s.present && d !in s.migrating && s.va[d] in s.table
         && (c.moveLate ==> !(s.fault.Allocated? && s.fault.d == d))
  }

  function Begin(c: Config, s: State, sp: Did): State
    requires CanBegin(c, s, sp)
  {
    var w := s.running[sp];
    var d := Target(w);
    s.(migrating := s.migrating + {d}, table := s.table[s.va[d] := Mapping(s.table[s.va[d]].frame, true)],
       running := s.running[sp := Moving(w.job, w.AtPromote?, 0)])
  }

  predicate CanCopy(c: Config, s: State, sp: Did)
  {
    && Runs(s, sp) && s.running[sp].Moving? && s.running[sp].copied < c.words
    && s.frame[sp] in s.mem && s.frame[Target(s.running[sp])] in s.mem
    && |s.mem[s.frame[sp]]| == c.words && |s.mem[s.frame[Target(s.running[sp])]]| == c.words
  }

  function Copy(c: Config, s: State, sp: Did): State
    requires CanCopy(c, s, sp)
  {
    var w := s.running[sp];
    var src, dst := s.frame[Target(w)], s.frame[sp];
    s.(mem := s.mem[dst := s.mem[dst][w.copied := s.mem[src][w.copied]]],
       running := s.running[sp := Moving(w.job, w.up, w.copied + 1)])
  }

  predicate CanRemap(c: Config, s: State, sp: Did)
  {
    Runs(s, sp) && s.running[sp].Moving? && s.running[sp].copied == c.words
  }

  /** The address is mapped to the new frame, which lifts the write protection. */
  function Remap(c: Config, s: State, sp: Did): State
    requires CanRemap(c, s, sp)
  {
    var w := s.running[sp];
    var d := Target(w);
    s.(table := s.table[s.va[d] := Mapping(s.frame[sp], false)], frame := s.frame[d := s.frame[sp]],
       running := s.running[sp := Remapped(w.job, w.up, s.frame[d])])
  }

  /** The page is unlocked and the free page takes the frame it left; after a demotion the
      job goes on with it, after a promotion it goes to the free list. */
  predicate CanRelease(s: State, sp: Did, up: bool) { Runs(s, sp) && s.running[sp].Remapped? && s.running[sp].up == up }

  function ReleaseUp(s: State, sp: Did): State
    requires CanRelease(s, sp, true)
  {
    var w := s.running[sp];
    s.(migrating := s.migrating - {Target(w)}, frame := s.frame[sp := w.left], present := s.present - {sp},
       running := s.running - {sp}, done := s.done + 1, role := s.role[sp := FreeIn(Nvm)], nvmFree := [sp] + s.nvmFree)
  }

  function ReleaseDown(s: State, sp: Did): State
    requires CanRelease(s, sp, false)
  {
    var w := s.running[sp];
    s.(migrating := s.migrating - {Target(w)}, frame := s.frame[sp := w.left], present := s.present - {sp},
       running := s.running[sp := AtPromote(w.job)])
  }

  // ----- all steps -----

  datatype Step =
    | AppWrite(v: Va, i: nat, w: int)
    | RemoveIndex(v: Va)
    | RemoveLog(d: Did)
    | RemoveClear(d: Did)
    | FaultAllocDram(v: Va)
    | FaultAllocNvm(v: Va)
    | FaultMap
    | FaultIndex
    | FaultLog
    | PolicyDrainAdd
    | PolicyDrainFree
    | PolicyScore(scores: seq<Did>)
    | PolicyAwait
    | PolicyPlan
    | PlanPassHot
    | PlanPromote
    | PlanGiveUp
    | PlanSeekCold
    | PlanPassCold
    | PlanSwap
    | PlanEnd
    | WorkStart
    | WorkSkip(sp: Did)
    | WorkBegin(sp: Did)
    | WorkCopy(sp: Did)
    | WorkRemap(sp: Did)
    | WorkReleaseUp(sp: Did)
    | WorkReleaseDown(sp: Did)

  // which thread takes a step

  predicate Draws(a: Step)
  {
    a.PolicyDrainAdd? || a.PolicyDrainFree? || a.PolicyScore? || a.PolicyAwait? || a.PolicyPlan? || a.PlanEnd?
  }

  predicate Plans(a: Step)
  {
    a.PlanPassHot? || a.PlanPromote? || a.PlanGiveUp? || a.PlanSeekCold? || a.PlanPassCold? || a.PlanSwap?
  }

  predicate Starts(a: Step)
  {
    a.WorkStart? || a.WorkSkip? || a.WorkBegin?
  }

  predicate Moves(a: Step)
  {
    a.WorkCopy? || a.WorkRemap? || a.WorkReleaseUp? || a.WorkReleaseDown?
  }

  predicate ByPolicy(a: Step) { Draws(a) || Plans(a) }

  predicate ByWorker(a: Step) { Starts(a) || Moves(a) }

  predicate Enabled(c: Config, s: State, a: Step)
  {
    match a
    case AppWrite(v, i, w) => CanWrite(c, s, v, i)
    case RemoveIndex(v) => CanRemove(c, s, v)
    case RemoveLog(d) => CanPublish(s, d)
    case RemoveClear(d) => CanClear(s, d)
    case FaultAllocDram(v) => CanAllocDram(s, v)
    case FaultAllocNvm(v) => CanAllocNvm(s, v)
    case FaultMap => CanMap(s)
    case FaultIndex => CanIndex(s)
    case FaultLog => CanLog(s)
    case PolicyDrainAdd => CanDrain(c, s, false)
    case PolicyDrainFree => CanDrain(c, s, true)
    case PolicyScore(scores) => CanScore(s, scores)
    case PolicyAwait => CanAwait(s)
    case PolicyPlan => CanPlan(s)
    case PlanPassHot => Seeking(c, s)
    case PlanPromote => HotFound(c, s) && s.dramFree != []
    case PlanGiveUp => HotFound(c, s) && s.dramFree != []
    case PlanSeekCold => HotFound(c, s) && s.dramFree == []
    case PlanPassCold => CanPassCold(s)
    case PlanSwap => CanSwap(c, s)
    case PlanEnd => s.policy.Planning?
    case WorkStart => CanStart(c, s)
    case WorkSkip(sp) => CanSkip(s, sp)
    case WorkBegin(sp) => CanBegin(c, s, sp)
    case WorkCopy(sp) => CanCopy(c, s, sp)
    case WorkRemap(sp) => CanRemap(c, s, sp)
    case WorkReleaseUp(sp) => CanRelease(s, sp, true)
    case WorkReleaseDown(sp) => CanRelease(s, sp, false)
  }

  function Next(c: Config, s: State, a: Step): State
    requires Enabled(c, s, a)
  {
    hide CanWrite, CanRemove, CanPublish, CanClear, CanAllocDram, CanAllocNvm, CanMap, CanIndex, CanLog,
      CanDrain, CanScore, CanAwait, CanPlan, Seeking, HotFound, CanPassCold, CanSwap, CanStart, CanSkip,
      CanBegin, CanCopy, CanRemap, CanRelease;
    match a
    case AppWrite(v, i, w) => Write(c, s, v, i, w)
    case RemoveIndex(v) => Remove(c, s, v)
    case RemoveLog(d) => Publish(s, d)
    case RemoveClear(d) => Clear(s, d)
    case FaultAllocDram(v) => AllocDram(s, v)
    case FaultAllocNvm(v) => AllocNvm(s, v)
    case FaultMap => Map(c, s)
    case FaultIndex => Index(s)
    case FaultLog => Log(s)
    case PolicyDrainAdd => DrainAdd(c, s)
    case PolicyDrainFree => DrainFree(c, s)
    case PolicyScore(scores) => Score(s, scores)
    case PolicyAwait => Await(s)
    case PolicyPlan => Plan(s)
    case PlanPassHot => PassHot(c, s)
    case PlanPromote => Promote(c, s)
    case PlanGiveUp => GiveUp(c, s)
    case PlanSeekCold => SeekCold(c, s)
    case PlanPassCold => PassCold(s)
    case PlanSwap => Swap(c, s)
    case PlanEnd => EndPlan(s)
    case WorkStart => Start(c, s)
    case WorkSkip(sp) => Skip(s, sp)
    case WorkBegin(sp) => Begin(c, s, sp)
    case WorkCopy(sp) => Copy(c, s, sp)
    case WorkRemap(sp) => Remap(c, s, sp)
    case WorkReleaseUp(sp) => ReleaseUp(s, sp)
    case WorkReleaseDown(sp) => ReleaseDown(s, sp)
  }
}
