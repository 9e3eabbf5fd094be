/** What every reachable state of the tiered-memory manager satisfies, in groups. */
module TieredInv {
  import opened Options
  import opened TieredState

  // ----- where the descriptors are -----

  predicate InUse(r: Role) { r == Live || r == Dropped || r == Leaving || r == Gone }

  predicate Backed(r: Role) { r == Live || r == Dropped || r == Leaving || r.Early? }

  predicate Going(r: Role) { r == Dropped || r == Leaving || r.Early? }

  predicate Listed(r: Role, t: Tier) { r == FreeIn(t) || r == Early(t) }

  /** The descriptor of a first touch on its way into the page index or onto the log. */
  predicate Adding(fault: Fault, d: Did) { fault == Mapped(d) || fault == Indexed(d) }

  /** present is set exactly for descriptors handed out and not yet removed. */
  ghost predicate PresentOk(role: map<Did, Role>, present: set<Did>)
  {
    forall d :: d in present <==> d in role && (role[d] == Faulting || Backed(role[d]))
  }

  /** A free list holds exactly the descriptors that are free in its tier, or are going to be, each once. */
  ghost predicate ListOk(role: map<Did, Role>, l: seq<Did>, t: Tier)
  {
    && Distinct(l)
    && (forall d :: d in l ==> d in role && Listed(role[d], t))
    && (forall d :: d in role && Listed(role[d], t) ==> d in l)
  }

  /** d is the free page carried by a queued job. */
  ghost predicate InQueue(queue: seq<Job>, d: Did)
  {
    exists i :: 0 <= i < |queue| && queue[i].spare == d
  }

  /** Exactly the free pages carried by jobs are spare, each by one job. */
  ghost predicate SparesOk(role: map<Did, Role>, queue: seq<Job>, running: map<Did, Work>)
  {
    && (forall d :: d in running ==> d in role && role[d] == Spare && running[d].job.spare == d && Sane(running[d]))
    && (forall i :: 0 <= i < |queue| ==>
       queue[i].spare in role && role[queue[i].spare] == Spare && queue[i].spare !in running)
    && (forall i, j :: 0 <= i < j < |queue| ==> queue[i].spare != queue[j].spare)
    && (forall d :: d in role && role[d] == Spare ==> d in running || InQueue(queue, d))
  }

  ghost predicate FaultOk(role: map<Did, Role>, fault: Fault)
  {
    && (fault.Allocated? ==> fault.d in role && role[fault.d] == Faulting && fault.va > 0)
    && (fault.Mapped? || fault.Indexed? ==> fault.d in role && role[fault.d] == Live)
    && (forall d :: d in role && role[d] == Faulting ==> fault.Allocated? && fault.d == d)
  }

  /** The address being touched is not yet that of a page. */
  ghost predicate FreshOk(va: map<Did, Va>, role: map<Did, Role>, fault: Fault)
  {
    && role.Keys == va.Keys
    && (fault.Allocated? ==> forall d :: d in role && Backed(role[d]) ==> va[d] != fault.va)
  }

  /** The page index holds exactly the live descriptors, but for one being added. */
  ghost predicate PagesOk(va: map<Did, Va>, role: map<Did, Role>, pages: map<Va, Did>, fault: Fault)
  {
    && role.Keys == va.Keys
    && (forall v :: v in pages ==>
       pages[v] in role && role[pages[v]] == Live && va[pages[v]] == v && fault != Mapped(pages[v]))
    && (forall d :: d in role && role[d] == Live ==> fault == Mapped(d) || (va[d] in pages && pages[va[d]] == d))
    && (forall d :: d in role && (InUse(role[d]) || Backed(role[d])) ==> va[d] > 0)
  }

  /** The log is about descriptors in use; a free entry is the last one of its descriptor, and
      every descriptor removed so far has one. */
  ghost predicate LogOk(role: map<Did, Role>, log: seq<Entry>)
  {
    && (forall i :: 0 <= i < |log| ==>
       log[i].d in role && InUse(role[log[i].d])
         && (log[i].free ==> role[log[i].d] == Leaving || role[log[i].d] == Gone))
    && (forall i, j :: 0 <= i < j < |log| && log[i].free ==> log[j].d != log[i].d)
    && (forall d :: d in role && (role[d] == Leaving || role[d] == Gone) ==> Entry(d, true) in log)
  }

  /** The removals under way, and their addresses. */
  ghost predicate RemovingOk(va: map<Did, Va>, role: map<Did, Role>, removing: map<Did, Removal>)
  {
    && role.Keys == va.Keys
    && (forall d :: d in removing <==> d in role && Going(role[d]))
    && (forall d :: d in removing ==> removing[d] == Removal(va[d], role[d] != Dropped))
  }

  /** The log has told of the pages of which the add entry is on it and the free entry is not. */
  ghost predicate ToldOk(va: map<Did, Va>, role: map<Did, Role>, told: map<Va, Did>, fault: Fault)
  {
    && role.Keys == va.Keys
    && (forall v :: v in told ==>
          told[v] in role && (role[told[v]] == Live || role[told[v]] == Dropped) && va[told[v]] == v
            && !Adding(fault, told[v]))
    && (forall d :: d in role && (role[d] == Live || role[d] == Dropped) ==>
       Adding(fault, d) || (va[d] in told && told[va[d]] == d))
  }

  ghost predicate IndexOk(va: map<Did, Va>, role: map<Did, Role>, index: map<Va, Did>)
  {
    && role.Keys == va.Keys
    && forall v :: v in index ==> index[v] in role && InUse(role[index[v]]) && va[index[v]] == v
  }

  // ----- frames -----

  /** The frame a descriptor stands for; between a remap and the release of the page, the
      job still has the frame its free page is about to get. */
  function Held(frame: map<Did, Frame>, running: map<Did, Work>, d: Did): Frame
    requires d in frame
  {
    if d in running && running[d].Remapped? then running[d].left else frame[d]
  }

  ghost predicate FramesOk(c: Config, role: map<Did, Role>, frame: map<Did, Frame>, running: map<Did, Work>)
  {
    && role.Keys == frame.Keys
    && (forall d :: d in frame ==> Held(frame, running, d) in AllFrames(c))
    && (forall d, e :: d in frame && e in frame && d != e ==> Held(frame, running, d) != Held(frame, running, e))
    && (forall f :: f in AllFrames(c) ==> exists d :: d in frame && Held(frame, running, d) == f)
  }

  ghost predicate FreeTierOk(frame: map<Did, Frame>, role: map<Did, Role>)
  {
    forall d :: d in role && (role[d].FreeIn? || role[d].Early?) ==> Tiered(frame, d, role[d].tier)
  }

  // ----- jobs -----

  function Names(j: Job): set<Did>
  {
    {j.hot} + (if j.cold.Some? then {j.cold.value} else {})
  }

  predicate Tiered(frame: map<Did, Frame>, d: Did, t: Tier) { d in frame && frame[d].tier == t }

  /** Before it runs: a hot page in NVM, a free page in DRAM, or in NVM when a page in DRAM
      is to be demoted first. */
  predicate QueuedOk(frame: map<Did, Frame>, j: Job)
  {
    && Tiered(frame, j.hot, Nvm)
    && (j.cold.Some? ==> Tiered(frame, j.cold.value, Dram) && j.cold.value != j.hot)
    && Tiered(frame, j.spare, if j.cold.Some? then Nvm else Dram)
  }

  predicate WorkOk(frame: map<Did, Frame>, w: Work)
  {
    && Sane(w)
    && (w.job.cold.Some? ==> w.job.cold.value != w.job.hot)
    && match w
       case AtDemote(j) => QueuedOk(frame, j)
       case AtPromote(j) => Tiered(frame, j.hot, Nvm) && Tiered(frame, j.spare, Dram)
       case Moving(j, up, _) =>
         if up then Tiered(frame, j.hot, Nvm) && Tiered(frame, j.spare, Dram) else QueuedOk(frame, j)
       case Remapped(j, up, left) =>
         if up then left.tier == Nvm
         else Tiered(frame, j.hot, Nvm) && left.tier == Dram
  }

  ghost predicate JobTiersOk(frame: map<Did, Frame>, queue: seq<Job>, running: map<Did, Work>)
  {
    && (forall i :: 0 <= i < |queue| ==> QueuedOk(frame, queue[i]))
    && (forall sp :: sp in running ==> WorkOk(frame, running[sp]))
  }

  /** No page is named by two outstanding jobs, and none of them is a free page of a job. */
  ghost predicate NamesOk(role: map<Did, Role>, queue: seq<Job>, running: map<Did, Work>)
  {
    && (forall i, x :: 0 <= i < |queue| && x in Names(queue[i]) ==> x in role && role[x] != Spare)
    && (forall sp, x :: sp in running && x in Names(running[sp].job) ==> x in role && role[x] != Spare)
    && (forall i, j :: 0 <= i < j < |queue| ==> Names(queue[i]) !! Names(queue[j]))
    && (forall i, sp :: 0 <= i < |queue| && sp in running ==> Names(queue[i]) !! Names(running[sp].job))
    && (forall sp, sq :: sp in running && sq in running && sp != sq ==>
       Names(running[sp].job) !! Names(running[sq].job))
  }

  ghost predicate CountOk(queue: seq<Job>, running: map<Did, Work>, jobs: nat, done: nat)
  {
    jobs == |queue| + |running| + done
  }

  /** Ranked pages the planning loop has not passed. */
  predicate Ahead(scores: seq<Did>, p: int, q: int, d: Did)
  {
    exists i :: 0 <= i < |scores| && p <= i <= q && scores[i] == d
  }

  /** Planning works on distinct indexed pages, and no outstanding job names one that is
      still ahead. */
  ghost predicate PlanOk(index: map<Va, Did>, queue: seq<Job>, running: map<Did, Work>, policy: Policy)
  {
    match policy
    case Draining => true
    case Waiting(scores) => |scores| > 0 && Distinct(scores) && (forall d :: d in scores ==> d in index.Values)
    case Planning(scores, p, q, cold) =>
      && Distinct(scores) && (forall d :: d in scores ==> d in index.Values)
      && 0 <= p <= q + 1 && q < |scores|
      && (forall i, x :: 0 <= i < |queue| && x in Names(queue[i]) ==> x in scores && !Ahead(scores, p, q, x))
      && (forall sp, x :: sp in running && x in Names(running[sp].job) ==> x in scores && !Ahead(scores, p, q, x))
      && (cold ==> p <= q)
  }

  /** The hot page for which room is sought is in NVM. */
  ghost predicate ColdOk(frame: map<Did, Frame>, policy: Policy)
  {
    policy.Planning? && policy.cold && 0 <= policy.p < |policy.scores| ==> Tiered(frame, policy.scores[policy.p], Nvm)
  }

  // ----- mappings and memory -----

  /** No two backed descriptors have the same address. */
  ghost predicate Unaliased(va: map<Did, Va>, role: map<Did, Role>)
  {
    && role.Keys == va.Keys
    && forall d, e :: d in role && e in role && d != e && Backed(role[d]) && Backed(role[e]) ==> va[d] != va[e]
  }

  /** The addresses of backed descriptors are mapped. */
  ghost predicate TableOk(va: map<Did, Va>, role: map<Did, Role>, table: map<Va, Mapping>)
  {
    && role.Keys == va.Keys
    && forall d :: d in role && Backed(role[d]) ==> va[d] in table
  }

  ghost predicate Owns(va: map<Did, Va>, role: map<Did, Role>, d: Did, v: Va)
  {
    d in role && Backed(role[d]) && d in va && va[d] == v
  }

  /** The page table maps exactly the addresses of backed descriptors, to their frames. */
  ghost predicate MapOk(va: map<Did, Va>, frame: map<Did, Frame>, role: map<Did, Role>, table: map<Va, Mapping>)
  {
    && role.Keys == va.Keys == frame.Keys
    && (forall d :: d in role && Backed(role[d]) ==> va[d] in table && table[va[d]].frame == frame[d])
    && (forall v :: v in table ==> exists d :: Owns(va, role, d, v))
  }

  /** A page being moved is backed and flagged, and write-protected until it is remapped;
      only flagged pages are write-protected. */
  ghost predicate MoveOk(c: Config, va: map<Did, Va>, role: map<Did, Role>, migrating: set<Did>,
      running: map<Did, Work>, table: map<Va, Mapping>)
  {
    && role.Keys == va.Keys
    && (forall sp :: sp in running && (running[sp].Moving? || running[sp].Remapped?) ==>
          && Sane(running[sp])
          && var d := Target(running[sp]);
             && d in role && Backed(role[d]) && d in migrating && va[d] in table
             && (table[va[d]].wp <==> running[sp].Moving?)
             && (running[sp].Moving? ==> running[sp].copied <= c.words))
    && (forall d :: d in role && Backed(role[d]) && va[d] in table && table[va[d]].wp ==> d in migrating)
  }

  /** Tiered memory shows what flat memory would. */
  ghost predicate MemOk(c: Config, mem: map<Frame, Page>, table: map<Va, Mapping>, flat: map<Va, Page>)
  {
    && mem.Keys == AllFrames(c)
    && (forall f :: f in mem ==> |mem[f]| == c.words)
    && flat.Keys == table.Keys
    && (forall va :: va in table ==> table[va].frame in mem && flat[va] == mem[table[va].frame])
  }

  /** What has been copied so far still agrees. */
  ghost predicate CopyOk(frame: map<Did, Frame>, running: map<Did, Work>, mem: map<Frame, Page>)
  {
    forall sp :: sp in running && running[sp].Moving? ==>
      && Sane(running[sp]) && sp in frame && Target(running[sp]) in frame
      && frame[sp] in mem && frame[Target(running[sp])] in mem
      && Agree(mem[frame[sp]], mem[frame[Target(running[sp])]], running[sp].copied)
  }

  predicate Agree(a: Page, b: Page, n: nat)
  {
    n <= |a| && n <= |b| && forall i :: 0 <= i < n ==> a[i] == b[i]
  }

  // ----- the lagging replica -----

  function ApplyEntry(va: map<Did, Va>, idx: map<Va, Did>, e: Entry): map<Va, Did>
    requires e.d in va
  {
    if e.free then idx - {va[e.d]} else idx[va[e.d] := e.d]
  }

  /** The index after the whole log has been drained. */
  function Replay(va: map<Did, Va>, idx: map<Va, Did>, log: seq<Entry>): map<Va, Did>
    requires forall i :: 0 <= i < |log| ==> log[i].d in va
    decreases |log|
  {
    if log == [] then idx else Replay(va, ApplyEntry(va, idx, log[0]), log[1..])
  }

  /** Every entry will find the index as it expects: its page absent when added, and
      there to be found when freed. */
  predicate Fits(va: map<Did, Va>, idx: map<Va, Did>, log: seq<Entry>)
    requires forall i :: 0 <= i < |log| ==> log[i].d in va
    decreases |log|
  {
    log == [] ||
    (&& (if log[0].free then va[log[0].d] in idx && idx[va[log[0].d]] == log[0].d
         else va[log[0].d] !in idx)
     && Fits(va, ApplyEntry(va, idx, log[0]), log[1..]))
  }

  ghost predicate ReplicaOk(va: map<Did, Va>, told: map<Va, Did>, index: map<Va, Did>, log: seq<Entry>)
  {
    && (forall i :: 0 <= i < |log| ==> log[i].d in va)
    && Fits(va, index, log)
    && Replay(va, index, log) == told
  }

  // ----- together -----

  /** Who has which descriptor, and what the log and the indices say: where pages are does not matter here. */
  ghost predicate Core(s: State)
  {
    && PresentOk(s.role, s.present)
    && ListOk(s.role, s.dramFree, Dram) && ListOk(s.role, s.nvmFree, Nvm)
    && SparesOk(s.role, s.queue, s.running)
    && FaultOk(s.role, s.fault)
    && FreshOk(s.va, s.role, s.fault)
    && PagesOk(s.va, s.role, s.pages, s.fault)
    && LogOk(s.role, s.log)
    && RemovingOk(s.va, s.role, s.removing)
    && ToldOk(s.va, s.role, s.told, s.fault)
    && IndexOk(s.va, s.role, s.index)
    && NamesOk(s.role, s.queue, s.running)
    && CountOk(s.queue, s.running, s.jobs, s.done)
    && PlanOk(s.index, s.queue, s.running, s.policy)
    && Unaliased(s.va, s.role)
    && TableOk(s.va, s.role, s.table)
    && ReplicaOk(s.va, s.told, s.index, s.log)
  }

  /** Frames, tiers, mappings and contents. */
  ghost predicate Placed(c: Config, s: State)
  {
    && FramesOk(c, s.role, s.frame, s.running)
    && FreeTierOk(s.frame, s.role)
    && JobTiersOk(s.frame, s.queue, s.running)
    && ColdOk(s.frame, s.policy)
    && MapOk(s.va, s.frame, s.role, s.table)
    && MoveOk(c, s.va, s.role, s.migrating, s.running, s.table)
    && MemOk(c, s.mem, s.table, s.flat)
    && CopyOk(s.frame, s.running, s.mem)
  }

  ghost predicate Inv(c: Config, s: State) { Core(s) && Placed(c, s) }
}
