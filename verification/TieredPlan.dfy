/** The policy thread's ranking and planning keep the invariants. */
module TieredPlan {
  import opened Options
  import opened TieredState
  import opened TieredInv
  import opened TieredRoles

  lemma PlanScored(index: map<Va, Did>, queue: seq<Job>, running: map<Did, Work>, scores: seq<Did>)
    requires scores != [] && Distinct(scores) && forall d :: d in scores ==> d in index.Values
    ensures PlanOk(index, queue, running, Waiting(scores))
  {
  }

  lemma CoreScore(s: State, scores: seq<Did>)
    requires Core(s) && CanScore(s, scores)
    ensures Core(Score(s, scores))
  {
    hide PresentOk, ListOk, SparesOk, FaultOk, FreshOk, PagesOk, LogOk, RemovingOk, ToldOk, IndexOk, NamesOk,
      CountOk, PlanOk, Unaliased, TableOk, ReplicaOk, ColdOk;
    PlanScored(s.index, s.queue, s.running, scores);
  }

  lemma KeepScore(c: Config, s: State, scores: seq<Did>)
    requires Inv(c, s) && CanScore(s, scores)
    ensures Inv(c, Score(s, scores))
  {
    hide TableOk, FramesOk, FreeTierOk, JobTiersOk, MapOk, MoveOk, MemOk, CopyOk, Core;
    CoreScore(s, scores);
  }

  lemma CoreAwait(s: State)
    requires Core(s) && CanAwait(s)
    ensures Core(Await(s))
  {
    hide PresentOk, ListOk, SparesOk, FaultOk, FreshOk, PagesOk, LogOk, RemovingOk, ToldOk, IndexOk, NamesOk,
      PlanOk, Unaliased, TableOk, ReplicaOk, ColdOk;
  }

  lemma KeepAwait(c: Config, s: State)
    requires Inv(c, s) && CanAwait(s)
    ensures Inv(c, Await(s))
  {
    hide TableOk, FramesOk, FreeTierOk, JobTiersOk, ColdOk, MapOk, MoveOk, MemOk, CopyOk, Core;
    CoreAwait(s);
  }

  /** When the wait loop exits no migration is queued, running or unreported. */
  lemma NothingOutstanding(queue: seq<Job>, running: map<Did, Work>, jobs: nat, done: nat)
    requires CountOk(queue, running, jobs, done) && jobs == 0
    ensures queue == [] && running == map[] && done == 0
  {
    assert |running| == 0 ==> running == map[];
  }

  lemma PlanBegun(index: map<Va, Did>, scores: seq<Did>)
    requires PlanOk(index, [], map[], Waiting(scores))
    ensures PlanOk(index, [], map[], Planning(scores, 0, |scores| - 1, false))
  {
  }

  lemma CorePlan(s: State)
    requires Core(s) && CanPlan(s)
    ensures Core(Plan(s))
  {
    hide PresentOk, ListOk, SparesOk, FaultOk, FreshOk, PagesOk, LogOk, RemovingOk, ToldOk, IndexOk, NamesOk,
      CountOk, PlanOk, Unaliased, TableOk, ReplicaOk, ColdOk;
    NothingOutstanding(s.queue, s.running, s.jobs, s.done);
    PlanBegun(s.index, s.policy.scores);
  }

  lemma KeepPlan(c: Config, s: State)
    requires Inv(c, s) && CanPlan(s)
    ensures Inv(c, Plan(s))
  {
    hide TableOk, FramesOk, FreeTierOk, JobTiersOk, MapOk, MoveOk, MemOk, CopyOk, Core;
    CorePlan(s);
  }

  /** The range ahead only shrinks. */
  lemma PlanNarrower(index: map<Va, Did>, queue: seq<Job>, running: map<Did, Work>, policy: Policy, p: int,
      q: int, cold: bool)
    requires PlanOk(index, queue, running, policy) && policy.Planning?
    requires policy.p <= p <= q + 1 && q <= policy.q
    requires cold ==> p <= q
    ensures PlanOk(index, queue, running, Planning(policy.scores, p, q, cold))
  {
    forall x | Ahead(policy.scores, p, q, x) ensures Ahead(policy.scores, policy.p, policy.q, x) {
      var i :| 0 <= i < |policy.scores| && p <= i <= q && policy.scores[i] == x;
      assert policy.p <= i <= policy.q;
    }
  }

  lemma CorePassHot(c: Config, s: State)
    requires Core(s) && Seeking(c, s)
    ensures Core(PassHot(c, s))
  {
    hide PresentOk, ListOk, SparesOk, FaultOk, FreshOk, PagesOk, LogOk, RemovingOk, ToldOk, IndexOk, NamesOk,
      CountOk, PlanOk, Unaliased, TableOk, ReplicaOk, ColdOk;
    PlanNarrower(s.index, s.queue, s.running, s.policy, s.policy.p + 1, s.policy.q, false);
  }

  lemma KeepPassHot(c: Config, s: State)
    requires Inv(c, s) && Seeking(c, s)
    ensures Inv(c, PassHot(c, s))
  {
    hide TableOk, FramesOk, FreeTierOk, JobTiersOk, MapOk, MoveOk, MemOk, CopyOk, Core;
    CorePassHot(c, s);
  }

  lemma CoreSeekCold(c: Config, s: State)
    requires Core(s) && HotFound(c, s) && s.dramFree == []
    ensures Core(SeekCold(c, s))
  {
    hide PresentOk, ListOk, SparesOk, FaultOk, FreshOk, PagesOk, LogOk, RemovingOk, ToldOk, IndexOk, NamesOk,
      CountOk, PlanOk, Unaliased, TableOk, ReplicaOk, ColdOk;
    PlanNarrower(s.index, s.queue, s.running, s.policy, s.policy.p, s.policy.q, true);
  }

  lemma KeepSeekCold(c: Config, s: State)
    requires Inv(c, s) && HotFound(c, s) && s.dramFree == []
    ensures Inv(c, SeekCold(c, s))
  {
    hide TableOk, FramesOk, FreeTierOk, JobTiersOk, MapOk, MoveOk, MemOk, CopyOk, Core;
    CoreSeekCold(c, s);
  }

  lemma PlanColdFacts(index: map<Va, Did>, queue: seq<Job>, running: map<Did, Work>, policy: Policy)
    requires PlanOk(index, queue, running, policy) && policy.Planning? && policy.cold
    ensures 0 <= policy.p <= policy.q < |policy.scores|
  {
  }

  lemma CorePassCold(s: State)
    requires Core(s) && CanPassCold(s)
    ensures Core(PassCold(s))
  {
    hide PresentOk, ListOk, SparesOk, FaultOk, FreshOk, PagesOk, LogOk, RemovingOk, ToldOk, IndexOk, NamesOk,
      CountOk, PlanOk, Unaliased, TableOk, ReplicaOk, ColdOk;
    PlanColdFacts(s.index, s.queue, s.running, s.policy);
    PlanNarrower(s.index, s.queue, s.running, s.policy, s.policy.p, s.policy.q - 1, true);
  }

  lemma KeepPassCold(c: Config, s: State)
    requires Inv(c, s) && CanPassCold(s)
    ensures Inv(c, PassCold(s))
  {
    hide TableOk, FramesOk, FreeTierOk, JobTiersOk, MapOk, MoveOk, MemOk, CopyOk, Core;
    CorePassCold(s);
  }

  lemma PlanEnded(index: map<Va, Did>, queue: seq<Job>, running: map<Did, Work>)
    ensures PlanOk(index, queue, running, Draining)
  {
  }

  lemma CoreEndPlan(s: State)
    requires Core(s) && s.policy.Planning?
    ensures Core(EndPlan(s))
  {
    hide PresentOk, ListOk, SparesOk, FaultOk, FreshOk, PagesOk, LogOk, RemovingOk, ToldOk, IndexOk, NamesOk,
      CountOk, PlanOk, Unaliased, TableOk, ReplicaOk, ColdOk;
    PlanEnded(s.index, s.queue, s.running);
  }

  lemma KeepEndPlan(c: Config, s: State)
    requires Inv(c, s) && s.policy.Planning?
    ensures Inv(c, EndPlan(s))
  {
    hide TableOk, FramesOk, FreeTierOk, JobTiersOk, MapOk, MoveOk, MemOk, CopyOk, Core;
    CoreEndPlan(s);
  }

  lemma CoreGiveUp(c: Config, s: State)
    requires Core(s) && HotFound(c, s) && s.dramFree != []
    ensures Core(GiveUp(c, s))
  {
    hide PresentOk, ListOk, SparesOk, FaultOk, FreshOk, PagesOk, LogOk, RemovingOk, ToldOk, IndexOk, NamesOk,
      CountOk, PlanOk, Unaliased, TableOk, ReplicaOk, ColdOk;
    ListRotate(s.role, s.dramFree, Dram);
    PlanEnded(s.index, s.queue, s.running);
  }

  lemma KeepGiveUp(c: Config, s: State)
    requires Inv(c, s) && HotFound(c, s) && s.dramFree != []
    ensures Inv(c, GiveUp(c, s))
  {
    hide TableOk, FramesOk, FreeTierOk, JobTiersOk, MapOk, MoveOk, MemOk, CopyOk, Core;
    CoreGiveUp(c, s);
  }

  // ----- submitting a job -----

  lemma SparesSubmitted(role: map<Did, Role>, queue: seq<Job>, running: map<Did, Work>, j: Job)
    requires SparesOk(role, queue, running) && j.spare in role && role[j.spare] != Spare
    ensures SparesOk(role[j.spare := Spare], [j] + queue, running)
  {
    var role', queue' := role[j.spare := Spare], [j] + queue;
    SparesFound(role, queue, running, j);
    hide InQueue;
    forall i | 0 <= i < |queue'|
      ensures queue'[i].spare in role' && role'[queue'[i].spare] == Spare && queue'[i].spare !in running
    {
      if i > 0 { assert queue'[i] == queue[i - 1]; }
    }
    forall i, k | 0 <= i < k < |queue'| ensures queue'[i].spare != queue'[k].spare {
      assert queue'[k] == queue[k - 1];
      if i > 0 { assert queue'[i] == queue[i - 1]; }
    }
  }

  lemma SparesFound(role: map<Did, Role>, queue: seq<Job>, running: map<Did, Work>, j: Job)
    requires SparesOk(role, queue, running)
    ensures forall d :: d in role[j.spare := Spare] && role[j.spare := Spare][d] == Spare ==>
      d in running || InQueue([j] + queue, d)
  {
    var queue' := [j] + queue;
    forall d | d in role[j.spare := Spare] && role[j.spare := Spare][d] == Spare && d !in running
      ensures InQueue(queue', d)
    {
      if d == j.spare {
        assert queue'[0].spare == d;
      } else {
        var i :| 0 <= i < |queue| && queue[i].spare == d;
        assert queue'[i + 1].spare == d;
      }
    }
  }

  lemma JobTiersSubmitted(frame: map<Did, Frame>, queue: seq<Job>, running: map<Did, Work>, j: Job)
    requires JobTiersOk(frame, queue, running) && QueuedOk(frame, j)
    ensures JobTiersOk(frame, [j] + queue, running)
  {
  }

  /** The names of a job are new: no outstanding job has one of them. */
  ghost predicate Unnamed(queue: seq<Job>, running: map<Did, Work>, j: Job)
  {
    && (forall i :: 0 <= i < |queue| ==> Names(queue[i]) !! Names(j))
    && (forall sp :: sp in running ==> Names(running[sp].job) !! Names(j))
  }

  lemma NamesSubmitted(role: map<Did, Role>, queue: seq<Job>, running: map<Did, Work>, j: Job)
    requires NamesOk(role, queue, running) && Unnamed(queue, running, j)
    requires j.spare in role && forall x :: x in Names(j) ==> x in role && role[x] != Spare && x != j.spare
    requires forall i :: 0 <= i < |queue| ==> j.spare !in Names(queue[i])
    requires forall sp :: sp in running ==> j.spare !in Names(running[sp].job)
    ensures NamesOk(role[j.spare := Spare], [j] + queue, running)
  {
    var queue' := [j] + queue;
    assert forall i :: 0 < i < |queue'| ==> queue'[i] == queue[i - 1];
  }

  lemma CountSubmitted(queue: seq<Job>, running: map<Did, Work>, jobs: nat, done: nat, j: Job)
    requires CountOk(queue, running, jobs, done)
    ensures CountOk([j] + queue, running, jobs + 1, done)
  {
  }

  /** Pages still ahead, being in the index, are in use, and named by no outstanding job. */
  lemma AheadFacts(s: State, i: nat)
    requires Core(s) && s.policy.Planning? && i < |s.policy.scores|
    ensures s.policy.scores[i] in s.role && InUse(s.role[s.policy.scores[i]])
    ensures s.policy.p <= i <= s.policy.q ==> forall k :: 0 <= k < |s.queue| ==>
      s.policy.scores[i] !in Names(s.queue[k])
    ensures s.policy.p <= i <= s.policy.q ==> forall sp :: sp in s.running ==>
      s.policy.scores[i] !in Names(s.running[sp].job)
  {
    hide PresentOk, ListOk, SparesOk, FaultOk, FreshOk, PagesOk, LogOk, RemovingOk, ToldOk, NamesOk, CountOk,
      Unaliased, TableOk, ReplicaOk, FramesOk, FreeTierOk, JobTiersOk, MapOk, MoveOk, MemOk, CopyOk;
    var d := s.policy.scores[i];
    assert d in s.index.Values;
    var v :| v in s.index && s.index[v] == d;
    assert s.policy.p <= i <= s.policy.q ==> Ahead(s.policy.scores, s.policy.p, s.policy.q, d);
  }

  /** While planning, a free page is named by no outstanding job: named pages are indexed. */
  lemma FreeUnnamed(s: State, d: Did)
    requires Core(s) && s.policy.Planning? && d in s.role && s.role[d].FreeIn?
    ensures forall k :: 0 <= k < |s.queue| ==> d !in Names(s.queue[k])
    ensures forall sp :: sp in s.running ==> d !in Names(s.running[sp].job)
    ensures d !in s.policy.scores
  {
    hide PresentOk, ListOk, SparesOk, FaultOk, FreshOk, PagesOk, LogOk, RemovingOk, ToldOk, NamesOk, CountOk,
      Unaliased, TableOk, ReplicaOk, FramesOk, FreeTierOk, JobTiersOk, MapOk, MoveOk, MemOk, CopyOk;
    forall x | x in s.policy.scores ensures x in s.role && InUse(s.role[x]) {
      assert x in s.index.Values;
      var v :| v in s.index && s.index[v] == x;
    }
  }

  /** A submitted job names pages the loop has just passed. */
  lemma PlanSubmitted(index: map<Va, Did>, queue: seq<Job>, running: map<Did, Work>, policy: Policy, j: Job,
      p: int, q: int)
    requires PlanOk(index, queue, running, policy) && policy.Planning?
    requires policy.p <= p <= q + 1 && q <= policy.q && policy.p < |policy.scores|
    requires forall x :: x in Names(j) ==> x in policy.scores && !Ahead(policy.scores, p, q, x)
    ensures PlanOk(index, [j] + queue, running, Planning(policy.scores, p, q, false))
  {
    PlanNarrower(index, queue, running, policy, p, q, false);
    var queue' := [j] + queue;
    assert forall i :: 0 < i < |queue'| ==> queue'[i] == queue[i - 1];
  }

  lemma Passed(scores: seq<Did>, i: nat, p: int, q: int)
    requires Distinct(scores) && i < |scores| && (i < p || q < i)
    ensures scores[i] in scores && !Ahead(scores, p, q, scores[i])
  {
  }

  lemma PlanFacts(index: map<Va, Did>, queue: seq<Job>, running: map<Did, Work>, policy: Policy)
    requires PlanOk(index, queue, running, policy) && policy.Planning?
    ensures Distinct(policy.scores) && 0 <= policy.p <= policy.q + 1 && policy.q < |policy.scores|
  {
  }

  lemma FreeTier(frame: map<Did, Frame>, role: map<Did, Role>, d: Did)
    requires FreeTierOk(frame, role) && d in role && role[d].FreeIn?
    ensures Tiered(frame, d, role[d].tier)
  {
  }

  /** Groups that do not mind a free descriptor becoming a job's free page. */
  lemma Lend(s: State, j: Job)
    requires Core(s) && s.policy.Planning? && j.spare in s.role && s.role[j.spare].FreeIn?
    requires Unnamed(s.queue, s.running, j)
    requires forall x :: x in Names(j) ==> x in s.role && InUse(s.role[x])
    ensures PresentOk(s.role[j.spare := Spare], s.present)
    ensures SparesOk(s.role[j.spare := Spare], [j] + s.queue, s.running)
    ensures FaultOk(s.role[j.spare := Spare], s.fault)
    ensures PagesOk(s.va, s.role[j.spare := Spare], s.pages, s.fault)
    ensures NamesOk(s.role[j.spare := Spare], [j] + s.queue, s.running)
    ensures CountOk([j] + s.queue, s.running, s.jobs + 1, s.done)
  {
    hide PresentOk, ListOk, SparesOk, FaultOk, FreshOk, PagesOk, LogOk, RemovingOk, ToldOk, IndexOk, NamesOk,
      CountOk, PlanOk, Unaliased, TableOk, ReplicaOk, ColdOk, Unnamed;
    FreeUnnamed(s, j.spare);
    NotMapped(s.role, s.fault, j.spare);
    PresentSame(s.role, s.present, j.spare, Spare);
    SparesSubmitted(s.role, s.queue, s.running, j);
    FaultRole(s.role, s.fault, j.spare, Spare);
    PagesRole(s.va, s.role, s.pages, s.fault, j.spare, Spare);
    NamesSubmitted(s.role, s.queue, s.running, j);
    CountSubmitted(s.queue, s.running, s.jobs, s.done, j);
  }

  /** A free DRAM page in hand, the hot page is named by no other job. */
  lemma PromoteJob(c: Config, s: State)
    requires Core(s) && HotFound(c, s) && s.dramFree != [] && Last(s.dramFree) !in s.removing
    ensures var j := Job(None, HotPage(s), Last(s.dramFree));
      && j.spare in s.role && s.role[j.spare] == FreeIn(Dram) && Unnamed(s.queue, s.running, j)
      && (forall x :: x in Names(j) ==> x in s.role && InUse(s.role[x]))
      && (forall x :: x in Names(j) ==> x in s.policy.scores && !Ahead(s.policy.scores, s.policy.p + 1, s.policy.q, x))
  {
    hide PresentOk, ListOk, SparesOk, FaultOk, FreshOk, PagesOk, LogOk, RemovingOk, ToldOk, IndexOk, NamesOk,
      CountOk, PlanOk, Unaliased, TableOk, ReplicaOk, ColdOk;
    ListPop(s.role, s.dramFree, Dram, Spare);
    ListedFree(s.va, s.role, s.removing, Last(s.dramFree), Dram);
    AheadFacts(s, s.policy.p);
    PlanFacts(s.index, s.queue, s.running, s.policy);
    Passed(s.policy.scores, s.policy.p, s.policy.p + 1, s.policy.q);
  }

  lemma CorePromote(c: Config, s: State)
    requires Core(s) && HotFound(c, s) && s.dramFree != [] && Last(s.dramFree) !in s.removing
    ensures Core(Promote(c, s))
  {
    hide PresentOk, ListOk, SparesOk, FaultOk, FreshOk, PagesOk, LogOk, RemovingOk, ToldOk, IndexOk, NamesOk,
      CountOk, PlanOk, Unaliased, TableOk, ReplicaOk, ColdOk, Unnamed, Ahead, Names;
    var j := Job(None, HotPage(s), Last(s.dramFree));
    PromoteJob(c, s);
    Lend(s, j);
    Withdraw(s, j.spare, Spare);
    ListPop(s.role, s.dramFree, Dram, Spare);
    ListOther(s.role, s.nvmFree, Nvm, j.spare, Spare);
    PlanSubmitted(s.index, s.queue, s.running, s.policy, j, s.policy.p + 1, s.policy.q);
  }

  lemma PromoteTiers(c: Config, s: State)
    requires Inv(c, s) && HotFound(c, s) && s.dramFree != [] && Last(s.dramFree) !in s.removing
    ensures QueuedOk(s.frame, Job(None, HotPage(s), Last(s.dramFree)))
  {
    hide PresentOk, ListOk, SparesOk, FaultOk, FreshOk, PagesOk, LogOk, RemovingOk, ToldOk, IndexOk, NamesOk,
      CountOk, PlanOk, Unaliased, TableOk, ReplicaOk, FramesOk, FreeTierOk, JobTiersOk, ColdOk, MapOk, MoveOk,
      MemOk, CopyOk, Unnamed, Ahead;
    PromoteJob(c, s);
    FreeTier(s.frame, s.role, Last(s.dramFree));
  }

  lemma KeepPromote(c: Config, s: State)
    requires Inv(c, s) && HotFound(c, s) && s.dramFree != [] && Last(s.dramFree) !in s.removing
    ensures Inv(c, Promote(c, s))
  {
    hide TableOk, FramesOk, FreeTierOk, JobTiersOk, MapOk, MoveOk, MemOk, CopyOk, Core, QueuedOk, Unnamed,
      Ahead, Names;
    var j := Job(None, HotPage(s), Last(s.dramFree));
    PromoteJob(c, s);
    PromoteTiers(c, s);
    CorePromote(c, s);
    Reassign(c, s, j.spare, Spare);
    JobTiersSubmitted(s.frame, s.queue, s.running, j);
  }

  /** The hot page found earlier is still in NVM. */
  lemma ColdHot(frame: map<Did, Frame>, policy: Policy)
    requires ColdOk(frame, policy) && policy.Planning? && policy.cold && 0 <= policy.p < |policy.scores|
    ensures Tiered(frame, policy.scores[policy.p], Nvm)
  {
  }

  /** The two pages are distinct, and named by no other job. */
  lemma SwapJob(c: Config, s: State)
    requires Core(s) && CanSwap(c, s) && Last(s.nvmFree) !in s.removing
    ensures var j := Job(Some(ColdPage(s)), HotPage(s), Last(s.nvmFree));
      && j.spare in s.role && s.role[j.spare] == FreeIn(Nvm) && Unnamed(s.queue, s.running, j)
      && (forall x :: x in Names(j) ==> x in s.role && InUse(s.role[x]))
      && (forall x :: x in Names(j) ==>
         x in s.policy.scores && !Ahead(s.policy.scores, s.policy.p + 1, s.policy.q - 1, x))
  {
    hide PresentOk, ListOk, SparesOk, FaultOk, FreshOk, PagesOk, LogOk, RemovingOk, ToldOk, IndexOk, NamesOk,
      CountOk, PlanOk, Unaliased, TableOk, ReplicaOk, ColdOk;
    ListPop(s.role, s.nvmFree, Nvm, Spare);
    ListedFree(s.va, s.role, s.removing, Last(s.nvmFree), Nvm);
    AheadFacts(s, s.policy.p);
    AheadFacts(s, s.policy.q);
    PlanColdFacts(s.index, s.queue, s.running, s.policy);
    PlanFacts(s.index, s.queue, s.running, s.policy);
    Passed(s.policy.scores, s.policy.p, s.policy.p + 1, s.policy.q - 1);
    Passed(s.policy.scores, s.policy.q, s.policy.p + 1, s.policy.q - 1);
  }

  lemma CoreSwap(c: Config, s: State)
    requires Core(s) && CanSwap(c, s) && Last(s.nvmFree) !in s.removing
    ensures Core(Swap(c, s))
  {
    hide PresentOk, ListOk, SparesOk, FaultOk, FreshOk, PagesOk, LogOk, RemovingOk, ToldOk, IndexOk, NamesOk,
      CountOk, PlanOk, Unaliased, TableOk, ReplicaOk, ColdOk, Unnamed, Ahead, Names;
    var j := Job(Some(ColdPage(s)), HotPage(s), Last(s.nvmFree));
    SwapJob(c, s);
    Lend(s, j);
    Withdraw(s, j.spare, Spare);
    ListPop(s.role, s.nvmFree, Nvm, Spare);
    ListOther(s.role, s.dramFree, Dram, j.spare, Spare);
    PlanSubmitted(s.index, s.queue, s.running, s.policy, j, s.policy.p + 1, s.policy.q - 1);
  }

  lemma SwapTiers(c: Config, s: State)
    requires Inv(c, s) && CanSwap(c, s) && Last(s.nvmFree) !in s.removing
    ensures QueuedOk(s.frame, Job(Some(ColdPage(s)), HotPage(s), Last(s.nvmFree)))
  {
    hide PresentOk, ListOk, SparesOk, FaultOk, FreshOk, PagesOk, LogOk, RemovingOk, ToldOk, IndexOk, NamesOk,
      CountOk, PlanOk, Unaliased, TableOk, ReplicaOk, FramesOk, FreeTierOk, JobTiersOk, ColdOk, MapOk, MoveOk,
      MemOk, CopyOk, Unnamed, Ahead;
    SwapJob(c, s);
    FreeTier(s.frame, s.role, Last(s.nvmFree));
    ColdHot(s.frame, s.policy);
  }

  lemma KeepSwap(c: Config, s: State)
    requires Inv(c, s) && CanSwap(c, s) && Last(s.nvmFree) !in s.removing
    ensures Inv(c, Swap(c, s))
  {
    hide TableOk, FramesOk, FreeTierOk, JobTiersOk, MapOk, MoveOk, MemOk, CopyOk, Core, QueuedOk, Unnamed,
      Ahead, Names;
    var j := Job(Some(ColdPage(s)), HotPage(s), Last(s.nvmFree));
    SwapJob(c, s);
    SwapTiers(c, s);
    CoreSwap(c, s);
    Reassign(c, s, j.spare, Spare);
    JobTiersSubmitted(s.frame, s.queue, s.running, j);
  }
}
