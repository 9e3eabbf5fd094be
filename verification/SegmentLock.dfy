/** The spin lock around the free list and the count of segments, in segment_alloc and segment_free
    of apps/flexkvs/server/ialloc.c.  One way out of segment_alloc unlocks it without having locked
    it: when that does no harm, and what it does otherwise. */
module SegmentLock {

  /** Where a thread is.  h, i: the segment it is about to get or give back; rest: what it read. */
  datatype Pc =
    | Idle
    | AtList                           // has seen a free segment, about to lock
    | Looking                          // locked, about to read free_segments
    | Found(h: nat, rest: seq<nat>)    // about to write free_segments
    | Took(h: nat)                     // about to unlock
    | Missed                           // found none after all, about to unlock
    | Testing                          // about to read seg_alloced, without the lock
    | Exiting                          // has seen that all are made, about to unlock all the same
    | AtCount                          // about to lock
    | Counting                         // locked, about to read seg_alloced
    | Counted(i: nat)                  // about to write seg_alloced
    | Made(i: nat)                     // about to unlock
    | Full                             // all are made, about to unlock
    | AtFree(h: nat)                   // about to lock
    | Linking(h: nat)                  // locked, about to read free_segments
    | Linked(h: nat, rest: seq<nat>)   // about to write free_segments
    | Pushed                           // about to unlock

  datatype Thread = Thread(pc: Pc, has: multiset<nat>)

  /** lost: segments whose memory the system did not grant. */
  datatype State = State(lock: bool, free: seq<nat>, alloced: nat, lost: multiset<nat>, threads: seq<Thread>)

  datatype Step =
    | Peek(t: nat) | LockList(t: nat) | Look(t: nat) | Take(t: nat) | LeaveList(t: nat)
    | Test(t: nat) | Exit(t: nat)
    | LockCount(t: nat) | Count(t: nat) | Make(t: nat) | LeaveCount(t: nat) | LoseCount(t: nat)
    | Free(t: nat, h: nat) | LockFree(t: nat) | Link(t: nat) | Push(t: nat) | LeaveFree(t: nat)

  function Init(n: nat): State
  {
    State(false, [], 0, multiset{}, seq(n, i => Thread(Idle, multiset{})))
  }

  /** Between taking the lock and releasing it. */
  predicate Inside(pc: Pc)
  {
    pc.Looking? || pc.Found? || pc.Took? || pc.Missed? || pc.Counting? || pc.Counted? || pc.Made? || pc.Full?
    || pc.Linking? || pc.Linked? || pc.Pushed?
  }

  predicate Enabled(s: State, a: Step)
  {
    a.t < |s.threads| &&
    var pc := s.threads[a.t].pc;
    match a
    case Peek(_) => pc.Idle?
    case LockList(_) => pc.AtList? && !s.lock
    case Look(_) => pc.Looking?
    case Take(_) => pc.Found?
    case LeaveList(_) => pc.Took? || pc.Missed?
    case Test(_) => pc.Testing?
    case Exit(_) => pc.Exiting?
    case LockCount(_) => pc.AtCount? && !s.lock
    case Count(_) => pc.Counting?
    case Make(_) => pc.Counted?
    case LeaveCount(_) => pc.Made? || pc.Full?
    case LoseCount(_) => pc.Made?
    case Free(_, h) => pc.Idle? && h in s.threads[a.t].has
    case LockFree(_) => pc.AtFree? && !s.lock
    case Link(_) => pc.Linking?
    case Push(_) => pc.Linked?
    case LeaveFree(_) => pc.Pushed?
  }

  /** The segment a thread has in hand. */
  function Carried(pc: Pc): multiset<nat>
  {
    if pc.Took? || pc.AtFree? || pc.Linking? || pc.Linked? then multiset{pc.h}
    else if pc.Made? then multiset{pc.i}
    else multiset{}
  }

  function At(s: State, t: nat, th: Thread): State
    requires t < |s.threads|
  {
    s.(threads := s.threads[t := th])
  }

  function Next(max: nat, s: State, a: Step): State
    requires Enabled(s, a)
  {
    var th := s.threads[a.t];
    match a
    case Peek(t) => At(s, t, th.(pc := if s.free != [] then AtList else Testing))
    case LockList(t) => At(s, t, th.(pc := Looking)).(lock := true)
    case Look(t) => At(s, t, th.(pc := if s.free != [] then Found(s.free[0], s.free[1..]) else Missed))
    case Take(t) => At(s, t, th.(pc := Took(th.pc.h))).(free := th.pc.rest)
    case LeaveList(t) =>
      At(s, t, Thread(if th.pc.Took? then Idle else Testing, th.has + Carried(th.pc))).(lock := false)
    case Test(t) => At(s, t, th.(pc := if s.alloced >= max then Exiting else AtCount))
    case Exit(t) => At(s, t, th.(pc := Idle)).(lock := false)
    case LockCount(t) => At(s, t, th.(pc := Counting)).(lock := true)
    case Count(t) => At(s, t, th.(pc := if s.alloced >= max then Full else Counted(s.alloced)))
    case Make(t) => At(s, t, th.(pc := Made(th.pc.i))).(alloced := s.alloced + 1)
    case LeaveCount(t) => At(s, t, Thread(Idle, th.has + Carried(th.pc))).(lock := false)
    case LoseCount(t) => At(s, t, th.(pc := Idle)).(lock := false, lost := s.lost + Carried(th.pc))
    case Free(t, h) => At(s, t, Thread(AtFree(h), th.has - multiset{h}))
    case LockFree(t) => At(s, t, th.(pc := Linking(th.pc.h))).(lock := true)
    case Link(t) => At(s, t, th.(pc := Linked(th.pc.h, s.free)))
    case Push(t) => At(s, t, th.(pc := Pushed)).(free := [th.pc.h] + th.pc.rest)
    case LeaveFree(t) => At(s, t, th.(pc := Idle)).(lock := false)
  }

  // ----- what should hold -----

  /** The lock is taken exactly while one thread is inside. */
  ghost predicate Guarded(s: State)
  {
    if s.lock then
      exists t :: 0 <= t < |s.threads| && Alone(s.threads, t) && Inside(s.threads[t].pc)
    else
      forall t :: 0 <= t < |s.threads| ==> !Inside(s.threads[t].pc)
  }

  ghost predicate Alone(ths: seq<Thread>, t: nat)
  {
    forall u :: 0 <= u < |ths| && u != t ==> !Inside(ths[u].pc)
  }

  /** What a thread has read is still so. */
  ghost predicate Current(max: nat, s: State, pc: Pc)
  {
    && (pc.Found? ==> s.free == [pc.h] + pc.rest)
    && (pc.Counted? ==> s.alloced == pc.i < max)
    && (pc.Linked? ==> s.free == pc.rest)
  }

  /** The segments a thread has, or has in hand. */
  function Of(th: Thread): multiset<nat> { th.has + Carried(th.pc) }

  function Sum(ths: seq<Thread>): multiset<nat>
  {
    if ths == [] then multiset{} else Sum(ths[..|ths| - 1]) + Of(ths[|ths| - 1])
  }

  function Upto(n: nat): multiset<nat>
  {
    if n == 0 then multiset{} else Upto(n - 1) + multiset{n - 1}
  }

  /** Every segment made is in one place. */
  ghost predicate Placed(s: State)
  {
    multiset(s.free) + Sum(s.threads) + s.lost == Upto(s.alloced)
  }

  ghost predicate AllCurrent(max: nat, s: State)
  {
    s.alloced <= max && forall t :: 0 <= t < |s.threads| ==> Current(max, s, s.threads[t].pc)
  }

  ghost predicate Inv(max: nat, s: State)
  {
    Guarded(s) && Placed(s) && AllCurrent(max, s)
  }

  // ----- sums -----

  lemma {:induction false} SumAt(ths: seq<Thread>, t: nat, th: Thread)
    requires t < |ths|
    ensures Sum(ths[t := th]) + Of(ths[t]) == Sum(ths) + Of(th)
    decreases |ths|
  {
    hide Of;
    var n := |ths| - 1;
    if t == n {
      assert ths[t := th][..n] == ths[..n];
    } else {
      SumAt(ths[..n], t, th);
      var ths' := ths[t := th];
      assert ths'[..n] == ths[..n][t := th] && ths'[n] == ths[n] && |ths'| - 1 == n;
      Swap(Sum(ths'[..n]), Of(ths[t]), Sum(ths[..n]), Of(th), Of(ths[n]));
    }
  }

  lemma Swap(a: multiset<nat>, b: multiset<nat>, c: multiset<nat>, d: multiset<nat>, e: multiset<nat>)
    requires a + b == c + d
    ensures (a + e) + b == (c + e) + d
  {
    assert (a + e) + b == (a + b) + e;
  }

  lemma {:induction false} UptoOnce(n: nat, h: nat)
    ensures Upto(n)[h] == if h < n then 1 else 0
  {
    if n > 0 {
      UptoOnce(n - 1, h);
    }
  }

  lemma {:induction false} SumTwo(ths: seq<Thread>, t: nat, u: nat, h: nat)
    requires t < u < |ths|
    ensures Sum(ths)[h] >= Of(ths[t])[h] + Of(ths[u])[h]
    decreases |ths|
  {
    hide Of;
    var n := |ths| - 1;
    if u < n {
      SumTwo(ths[..n], t, u, h);
    } else {
      SumOne(ths[..n], t, h);
    }
  }

  lemma {:induction false} SumOne(ths: seq<Thread>, t: nat, h: nat)
    requires t < |ths|
    ensures Sum(ths)[h] >= Of(ths[t])[h]
    decreases |ths|
  {
    hide Of;
    var n := |ths| - 1;
    if t < n {
      SumOne(ths[..n], t, h);
    }
  }

  lemma {:induction false} SumIdle(n: nat)
    ensures Sum(Init(n).threads) == multiset{}
  {
    if n > 0 {
      assert Init(n).threads[..n - 1] == Init(n - 1).threads;
      SumIdle(n - 1);
    }
  }

  // ----- every step -----

  lemma InitInv(max: nat, n: nat)
    ensures Inv(max, Init(n))
  {
    SumIdle(n);
  }

  /** The lock is in order after a step, unless the exit releases it under another thread. */
  lemma GuardKept(max: nat, s: State, a: Step)
    requires Enabled(s, a) && Guarded(s) && (a.Exit? ==> !s.lock)
    ensures Guarded(Next(max, s, a))
  {
    var s', t := Next(max, s, a), a.t;
    assert |s'.threads| == |s.threads| && forall u :: 0 <= u < |s.threads| && u != t ==> s'.threads[u] == s.threads[u];
    if Inside(s'.threads[t].pc) {
      assert Alone(s'.threads, t);
    } else if s'.lock {
      var u :| 0 <= u < |s.threads| && Alone(s.threads, u) && Inside(s.threads[u].pc);
      assert Alone(s'.threads, u);
    }
  }

  lemma SameThreads(max: nat, s: State, a: Step)
    requires Enabled(s, a)
    ensures a.t < |s.threads| == |Next(max, s, a).threads|
  {
  }

  lemma OneInside(s: State, t: nat, u: nat)
    requires Guarded(s) && t < |s.threads| && u < |s.threads| && t != u
    ensures !Inside(s.threads[t].pc) || !Inside(s.threads[u].pc)
  {
    hide Inside;
    if s.lock {
      var w :| 0 <= w < |s.threads| && Alone(s.threads, w) && Inside(s.threads[w].pc);
    }
  }

  /** What a thread has just read is so. */
  lemma ReadNow(max: nat, s: State, a: Step)
    requires Enabled(s, a) && Current(max, s, s.threads[a.t].pc) && s.alloced <= max
    ensures |Next(max, s, a).threads| == |s.threads| && Current(max, Next(max, s, a), Next(max, s, a).threads[a.t].pc)
    ensures Next(max, s, a).alloced <= max
  {
  }

  /** What is read inside changes only inside. */
  lemma ReadElsewhere(max: nat, s: State, a: Step, u: nat)
    requires Enabled(s, a) && u < |s.threads| && u != a.t && Current(max, s, s.threads[u].pc)
    requires !Inside(s.threads[a.t].pc) || !Inside(s.threads[u].pc)
    ensures |Next(max, s, a).threads| == |s.threads| && Current(max, Next(max, s, a), Next(max, s, a).threads[u].pc)
  {
  }

  /** So what any thread has read is still so. */
  lemma ReadsKept(max: nat, s: State, a: Step)
    requires Enabled(s, a) && Inv(max, s)
    ensures AllCurrent(max, Next(max, s, a))
  {
    hide Next, Enabled, Current, Placed, Guarded, Inside;
    SameThreads(max, s, a);
    ReadNow(max, s, a);
    forall u | 0 <= u < |s.threads| ensures Current(max, Next(max, s, a), Next(max, s, a).threads[u].pc) {
      if u != a.t {
        OneInside(s, a.t, u);
        ReadElsewhere(max, s, a, u);
      }
    }
  }

  /** A segment leaves one place for another. */
  ghost predicate Moved(s: State, t: nat, s': State)
    requires t < |s.threads| && t < |s'.threads|
  {
    multiset(s'.free) + Of(s'.threads[t]) + s'.lost + Upto(s.alloced)
    == multiset(s.free) + Of(s.threads[t]) + s.lost + Upto(s'.alloced)
  }

  lemma TakeMoves(max: nat, s: State, a: Step)
    requires a.Take? && Enabled(s, a) && Current(max, s, s.threads[a.t].pc)
    ensures Moved(s, a.t, Next(max, s, a))
  {
    var s', t := Next(max, s, a), a.t;
    var g := multiset{s.threads[t].pc.h};
    assert multiset(s.free) == g + multiset(s'.free);
    assert Of(s'.threads[t]) == Of(s.threads[t]) + g;
    hide *;
  }

  lemma PushMoves(max: nat, s: State, a: Step)
    requires a.Push? && Enabled(s, a) && Current(max, s, s.threads[a.t].pc)
    ensures Moved(s, a.t, Next(max, s, a))
  {
    var s', t := Next(max, s, a), a.t;
    var g := multiset{s.threads[t].pc.h};
    assert multiset(s'.free) == g + multiset(s.free);
    assert Of(s.threads[t]) == Of(s'.threads[t]) + g;
    hide *;
  }

  lemma MakeMoves(max: nat, s: State, a: Step)
    requires a.Make? && Enabled(s, a) && Current(max, s, s.threads[a.t].pc)
    ensures Moved(s, a.t, Next(max, s, a))
  {
    var s', t := Next(max, s, a), a.t;
    assert Upto(s'.alloced) == Upto(s.alloced) + multiset{s.alloced};
    assert Of(s'.threads[t]) == Of(s.threads[t]) + multiset{s.alloced};
    hide *;
  }

  lemma LoseMoves(max: nat, s: State, a: Step)
    requires a.LoseCount? && Enabled(s, a)
    ensures Moved(s, a.t, Next(max, s, a))
  {
    var s', t := Next(max, s, a), a.t;
    assert Of(s.threads[t]) + s.lost == Of(s'.threads[t]) + s'.lost;
    hide *;
  }

  /** From a thread's hand to what it has, or back, or not at all. */
  ghost predicate SameHand(s: State, t: nat, s': State)
    requires t < |s.threads|
  {
    && s'.free == s.free && s'.lost == s.lost && s'.alloced == s.alloced
    && t < |s'.threads| && Of(s'.threads[t]) == Of(s.threads[t])
  }

  lemma Gains(max: nat, s: State, a: Step)
    requires (a.LeaveList? || a.LeaveCount?) && Enabled(s, a)
    ensures SameHand(s, a.t, Next(max, s, a))
  {
  }

  lemma Offers(max: nat, s: State, a: Step)
    requires a.Free? && Enabled(s, a)
    ensures SameHand(s, a.t, Next(max, s, a))
  {
  }

  lemma Reads(max: nat, s: State, a: Step)
    requires (a.Peek? || a.Look?) && Enabled(s, a)
    ensures SameHand(s, a.t, Next(max, s, a))
  {
  }

  lemma Tests(max: nat, s: State, a: Step)
    requires a.Test? && Enabled(s, a)
    ensures SameHand(s, a.t, Next(max, s, a))
  {
  }

  lemma Counts(max: nat, s: State, a: Step)
    requires a.Count? && Enabled(s, a)
    ensures SameHand(s, a.t, Next(max, s, a))
  {
  }

  lemma Locks(max: nat, s: State, a: Step)
    requires (a.LockList? || a.LockCount? || a.LockFree? || a.Link?) && Enabled(s, a)
    ensures SameHand(s, a.t, Next(max, s, a))
  {
  }

  lemma Unlocks(max: nat, s: State, a: Step)
    requires (a.Exit? || a.LeaveFree?) && Enabled(s, a)
    ensures SameHand(s, a.t, Next(max, s, a))
  {
  }

  lemma HandMoves(s: State, t: nat, s': State)
    requires t < |s.threads| && SameHand(s, t, s')
    ensures Moved(s, t, s')
  {
    hide Of, Upto;
  }

  lemma Moves(max: nat, s: State, a: Step)
    requires Enabled(s, a) && Current(max, s, s.threads[a.t].pc)
    ensures Moved(s, a.t, Next(max, s, a))
  {
    hide Next, Enabled, Of, Upto, Moved, SameHand;
    SameThreads(max, s, a);
    var t, s' := a.t, Next(max, s, a);
    match a
    case Take(_) => TakeMoves(max, s, a);
    case Push(_) => PushMoves(max, s, a);
    case Make(_) => MakeMoves(max, s, a);
    case LoseCount(_) => LoseMoves(max, s, a);
    case LeaveList(_) => Gains(max, s, a); HandMoves(s, t, s');
    case LeaveCount(_) => Gains(max, s, a); HandMoves(s, t, s');
    case Free(_, _) => Offers(max, s, a); HandMoves(s, t, s');
    case Exit(_) => Unlocks(max, s, a); HandMoves(s, t, s');
    case LeaveFree(_) => Unlocks(max, s, a); HandMoves(s, t, s');
    case LockList(_) => Locks(max, s, a); HandMoves(s, t, s');
    case LockCount(_) => Locks(max, s, a); HandMoves(s, t, s');
    case LockFree(_) => Locks(max, s, a); HandMoves(s, t, s');
    case Link(_) => Locks(max, s, a); HandMoves(s, t, s');
    case Peek(_) => Reads(max, s, a); HandMoves(s, t, s');
    case Look(_) => Reads(max, s, a); HandMoves(s, t, s');
    case Test(_) => Tests(max, s, a); HandMoves(s, t, s');
    case Count(_) => Counts(max, s, a); HandMoves(s, t, s');
  }

  lemma Total(f: multiset<nat>, s: multiset<nat>, l: multiset<nat>, u: multiset<nat>, o: multiset<nat>,
              f': multiset<nat>, s': multiset<nat>, l': multiset<nat>, u': multiset<nat>, o': multiset<nat>)
    requires f + s + l == u && s' + o == s + o' && f' + o' + l' + u == f + o + l + u'
    ensures f' + s' + l' == u'
  {
    forall h: nat ensures (f' + s' + l')[h] == u'[h] {
      assert (f + s + l)[h] == u[h] && (s' + o)[h] == (s + o')[h] && (f' + o' + l' + u)[h] == (f + o + l + u')[h];
    }
  }

  /** And every segment is still in one place. */
  lemma PlacedKept(max: nat, s: State, a: Step)
    requires Enabled(s, a) && Inv(max, s)
    ensures Placed(Next(max, s, a))
  {
    var s', t := Next(max, s, a), a.t;
    assert s'.threads == s.threads[t := s'.threads[t]];
    assert Current(max, s, s.threads[t].pc);
    Moves(max, s, a);
    hide Guarded, Sum, Next, Enabled, Of, Upto, Current;
    SumAt(s.threads, t, s'.threads[t]);
    Total(multiset(s.free), Sum(s.threads), s.lost, Upto(s.alloced), Of(s.threads[t]),
          multiset(s'.free), Sum(s'.threads), s'.lost, Upto(s'.alloced), Of(s'.threads[t]));
  }

  lemma KeepInv(max: nat, s: State, a: Step)
    requires Enabled(s, a) && Inv(max, s) && (a.Exit? ==> !s.lock)
    ensures Inv(max, Next(max, s, a))
  {
    hide Guarded, Placed, AllCurrent, Next, Enabled;
    GuardKept(max, s, a);
    ReadsKept(max, s, a);
    PlacedKept(max, s, a);
  }

  /** The exit leaves the lock in order if and only if nobody has it. */
  lemma ExitExact(max: nat, s: State, t: nat)
    requires Inv(max, s) && Enabled(s, Exit(t))
    ensures Guarded(Next(max, s, Exit(t))) <==> !s.lock
  {
    var s' := Next(max, s, Exit(t));
    if s.lock {
      var u :| 0 <= u < |s.threads| && Alone(s.threads, u) && Inside(s.threads[u].pc);
      assert Inside(s'.threads[u].pc);
    } else {
      GuardKept(max, s, Exit(t));
    }
  }

  // ----- runs -----

  predicate IsRun(max: nat, s: State, steps: seq<Step>)
    decreases |steps|
  {
    steps == [] || (Enabled(s, steps[0]) && IsRun(max, Next(max, s, steps[0]), steps[1..]))
  }

  function After(max: nat, s: State, steps: seq<Step>): State
    requires IsRun(max, s, steps)
    decreases |steps|
  {
    if steps == [] then s else After(max, Next(max, s, steps[0]), steps[1..])
  }

  /** The exit is only taken while nobody has the lock. */
  predicate Careful(max: nat, s: State, steps: seq<Step>)
    requires IsRun(max, s, steps)
    decreases |steps|
  {
    steps == [] || ((steps[0].Exit? ==> !s.lock) && Careful(max, Next(max, s, steps[0]), steps[1..]))
  }

  lemma {:induction false} KeepRun(max: nat, s: State, steps: seq<Step>)
    requires Inv(max, s) && IsRun(max, s, steps) && Careful(max, s, steps)
    ensures Inv(max, After(max, s, steps))
    decreases |steps|
  {
    if steps != [] {
      KeepInv(max, s, steps[0]);
      hide Inv, Next, Enabled;
      KeepRun(max, Next(max, s, steps[0]), steps[1..]);
    }
  }

  /** No segment is with two threads, or with one and free. */
  ghost predicate Apart(s: State)
  {
    && (forall t, u, h :: 0 <= t < u < |s.threads| && h in Of(s.threads[t]) ==> h !in Of(s.threads[u]))
    && (forall t, h :: 0 <= t < |s.threads| && h in Of(s.threads[t]) ==> h !in s.free)
  }

  lemma InvApart(max: nat, s: State)
    requires Inv(max, s)
    ensures Apart(s)
  {
    hide Of, Sum, Guarded, Current;
    forall t, u, h | 0 <= t < u < |s.threads| && h in Of(s.threads[t]) ensures h !in Of(s.threads[u]) {
      SumTwo(s.threads, t, u, h);
      UptoOnce(s.alloced, h);
      assert Upto(s.alloced)[h] >= Sum(s.threads)[h];
    }
    forall t, h | 0 <= t < |s.threads| && h in Of(s.threads[t]) ensures h !in s.free {
      SumOne(s.threads, t, h);
      UptoOnce(s.alloced, h);
      assert Upto(s.alloced)[h] >= multiset(s.free)[h] + Sum(s.threads)[h];
    }
  }

  /** Any number of threads, any run in which the exit is only taken while nobody has the lock:
      no segment is given to two of them. */
  lemma SegmentsApart(max: nat, n: nat, steps: seq<Step>)
    requires IsRun(max, Init(n), steps) && Careful(max, Init(n), steps)
    ensures Apart(After(max, Init(n), steps))
  {
    InitInv(max, n);
    KeepRun(max, Init(n), steps);
    InvApart(max, After(max, Init(n), steps));
  }

  // ----- what happens otherwise -----

  lemma FirstStep(max: nat, s: State, a: Step, rest: seq<Step>)
    requires Enabled(s, a) && IsRun(max, Next(max, s, a), rest)
    ensures IsRun(max, s, [a] + rest) && After(max, s, [a] + rest) == After(max, Next(max, s, a), rest)
  {
    hide Enabled, Next;
    assert ([a] + rest)[1..] == rest;
  }

  lemma {:induction false} Joined(max: nat, s: State, a: seq<Step>, b: seq<Step>)
    requires IsRun(max, s, a) && IsRun(max, After(max, s, a), b)
    ensures IsRun(max, s, a + b) && After(max, s, a + b) == After(max, After(max, s, a), b)
    decreases |a|
  {
    hide Enabled, Next;
    if a == [] {
      assert a + b == b;
    } else {
      Joined(max, Next(max, s, a[0]), a[1..], b);
      FirstStep(max, s, a[0], a[1..] + b);
      assert [a[0]] + (a[1..] + b) == a + b;
    }
  }

  /** A thread on its way out, one that is taking h off the list, and one that has yet to come. */
  ghost predicate Open(s: State, t: nat, u: nat, v: nat, h: nat)
  {
    && t < |s.threads| && u < |s.threads| && v < |s.threads| && t != u && u != v && t != v
    && s.threads[t].pc == Exiting && s.threads[v].pc == Idle
    && s.free != [] && s.free[0] == h && s.threads[u].pc == Found(h, s.free[1..])
  }

  /** Two threads that take the same segment. */
  ghost predicate BothAt(s: State, u: nat, v: nat, h: nat)
  {
    && u < |s.threads| && v < |s.threads| && u != v
    && s.threads[u].pc.Found? && s.threads[v].pc.Found? && s.threads[u].pc.h == h == s.threads[v].pc.h
  }

  /** The way out releases the lock, and lets another one in. */
  lemma LetsIn(max: nat, s: State, t: nat, u: nat, v: nat, h: nat) returns (steps: seq<Step>)
    requires Open(s, t, u, v, h)
    ensures IsRun(max, s, steps) && BothAt(After(max, s, steps), u, v, h)
  {
    var s1 := Next(max, s, Exit(t));
    var s2 := Next(max, s1, Peek(v));
    var s3 := Next(max, s2, LockList(v));
    var s4 := Next(max, s3, Look(v));
    FirstStep(max, s3, Look(v), []);
    steps := [Look(v)] + [];
    FirstStep(max, s2, LockList(v), steps);
    steps := [LockList(v)] + steps;
    FirstStep(max, s1, Peek(v), steps);
    steps := [Peek(v)] + steps;
    FirstStep(max, s, Exit(t), steps);
    steps := [Exit(t)] + steps;
  }

  lemma BothTake(max: nat, s: State, u: nat, v: nat, h: nat) returns (steps: seq<Step>)
    requires BothAt(s, u, v, h)
    ensures IsRun(max, s, steps) && !Apart(After(max, s, steps))
  {
    var s1 := Next(max, s, Take(u));
    var s2 := Next(max, s1, Take(v));
    assert h in Of(s2.threads[u]) && h in Of(s2.threads[v]);
    FirstStep(max, s1, Take(v), []);
    steps := [Take(v)] + [];
    FirstStep(max, s, Take(u), steps);
    steps := [Take(u)] + steps;
  }

  /** From any state like that, there is a run that gives one segment to two threads. */
  lemma Doubled(max: nat, s: State, t: nat, u: nat, v: nat, h: nat) returns (steps: seq<Step>)
    requires Open(s, t, u, v, h)
    ensures IsRun(max, s, steps) && !Apart(After(max, s, steps))
  {
    hide *;
    var a := LetsIn(max, s, t, u, v, h);
    var b := BothTake(max, After(max, s, a), u, v, h);
    Joined(max, s, a, b);
    steps := a + b;
  }

  // ----- and it does happen -----

  /** k segments made, all with thread 0. */
  function Filled(n: nat, k: nat): State
    requires n > 0
  {
    var s := Init(n);
    s.(alloced := k, threads := s.threads[0 := Thread(Idle, Upto(k))])
  }

  /** Thread 0 has one more made. */
  lemma OneMore(max: nat, n: nat, k: nat) returns (steps: seq<Step>)
    requires n > 0 && k < max
    ensures IsRun(max, Filled(n, k), steps) && After(max, Filled(n, k), steps) == Filled(n, k + 1)
  {
    var s := Filled(n, k);
    var s1 := Next(max, s, Peek(0));
    var s2 := Next(max, s1, Test(0));
    var s3 := Next(max, s2, LockCount(0));
    var s4 := Next(max, s3, Count(0));
    var s5 := Next(max, s4, Make(0));
    var s6 := Next(max, s5, LeaveCount(0));
    assert s6.threads == Filled(n, k + 1).threads;
    FirstStep(max, s5, LeaveCount(0), []);
    steps := [LeaveCount(0)] + [];
    FirstStep(max, s4, Make(0), steps);
    steps := [Make(0)] + steps;
    FirstStep(max, s3, Count(0), steps);
    steps := [Count(0)] + steps;
    FirstStep(max, s2, LockCount(0), steps);
    steps := [LockCount(0)] + steps;
    FirstStep(max, s1, Test(0), steps);
    steps := [Test(0)] + steps;
    FirstStep(max, s, Peek(0), steps);
    steps := [Peek(0)] + steps;
  }

  lemma NoneMade(n: nat)
    requires n > 0
    ensures Filled(n, 0) == Init(n)
  {
    assert Filled(n, 0).threads == Init(n).threads;
  }

  lemma {:induction false} Fill(max: nat, n: nat, k: nat) returns (steps: seq<Step>)
    requires n > 0 && k <= max
    ensures IsRun(max, Init(n), steps) && After(max, Init(n), steps) == Filled(n, k)
  {
    hide Init, Filled, Next, Enabled;
    if k == 0 {
      NoneMade(n);
      steps := [];
    } else {
      var a := Fill(max, n, k - 1);
      var b := OneMore(max, n, k - 1);
      Joined(max, Init(n), a, b);
      steps := a + b;
    }
  }

  /** All segments are made; thread 1 finds that out. */
  function Leaving(n: nat, max: nat): State
    requires n > 2
  {
    var s := Filled(n, max);
    s.(threads := s.threads[1 := Thread(Exiting, multiset{})])
  }

  lemma FindsOut(max: nat, n: nat) returns (steps: seq<Step>)
    requires n > 2
    ensures IsRun(max, Filled(n, max), steps) && After(max, Filled(n, max), steps) == Leaving(n, max)
  {
    var s := Filled(n, max);
    var s1 := Next(max, s, Peek(1));
    var s2 := Next(max, s1, Test(1));
    assert s2.threads == Leaving(n, max).threads;
    FirstStep(max, s1, Test(1), []);
    steps := [Test(1)] + [];
    FirstStep(max, s, Peek(1), steps);
    steps := [Peek(1)] + steps;
  }

  /** Thread 0 with segment 0 in hand, at pc. */
  function Giving(n: nat, max: nat, pc: Pc, lock: bool): State
    requires n > 2
  {
    var s := Leaving(n, max);
    s.(lock := lock, threads := s.threads[0 := Thread(pc, Upto(max) - multiset{0})])
  }

  function Returned(n: nat, max: nat): State
    requires n > 2
  {
    Giving(n, max, Idle, false).(free := [0])
  }

  lemma Offered(max: nat, n: nat)
    requires n > 2 && max > 0
    ensures Enabled(Leaving(n, max), Free(0, 0))
    ensures Next(max, Leaving(n, max), Free(0, 0)) == Giving(n, max, AtFree(0), false)
  {
    UptoOnce(max, 0);
    hide Upto;
    assert Next(max, Leaving(n, max), Free(0, 0)).threads == Giving(n, max, AtFree(0), false).threads;
  }

  lemma LockedIn(max: nat, n: nat)
    requires n > 2
    ensures Enabled(Giving(n, max, AtFree(0), false), LockFree(0))
    ensures Next(max, Giving(n, max, AtFree(0), false), LockFree(0)) == Giving(n, max, Linking(0), true)
  {
    hide Upto;
    var s := Giving(n, max, AtFree(0), false);
    assert Next(max, s, LockFree(0)).threads == Giving(n, max, Linking(0), true).threads;
  }

  lemma Gives(max: nat, n: nat) returns (steps: seq<Step>)
    requires n > 2 && max > 0
    ensures IsRun(max, Leaving(n, max), steps) && After(max, Leaving(n, max), steps) == Giving(n, max, Linking(0), true)
  {
    hide Enabled, Next, Leaving, Giving;
    Offered(max, n);
    LockedIn(max, n);
    FirstStep(max, Giving(n, max, AtFree(0), false), LockFree(0), []);
    steps := [LockFree(0)] + [];
    FirstStep(max, Leaving(n, max), Free(0, 0), steps);
    steps := [Free(0, 0)] + steps;
  }

  lemma Pushes(max: nat, n: nat) returns (steps: seq<Step>)
    requires n > 2
    ensures IsRun(max, Giving(n, max, Linking(0), true), steps)
    ensures After(max, Giving(n, max, Linking(0), true), steps) == Returned(n, max)
  {
    hide Upto;
    var s := Giving(n, max, Linking(0), true);
    var s1 := Next(max, s, Link(0));
    var s2 := Next(max, s1, Push(0));
    var s3 := Next(max, s2, LeaveFree(0));
    assert s3.threads == Returned(n, max).threads;
    FirstStep(max, s2, LeaveFree(0), []);
    steps := [LeaveFree(0)] + [];
    FirstStep(max, s1, Push(0), steps);
    steps := [Push(0)] + steps;
    FirstStep(max, s, Link(0), steps);
    steps := [Link(0)] + steps;
  }

  /** Thread 0 gives segment 0 back. */
  lemma GivesBack(max: nat, n: nat) returns (steps: seq<Step>)
    requires n > 2 && max > 0
    ensures IsRun(max, Leaving(n, max), steps) && After(max, Leaving(n, max), steps) == Returned(n, max)
  {
    hide *;
    var a := Gives(max, n);
    var b := Pushes(max, n);
    Joined(max, Leaving(n, max), a, b);
    steps := a + b;
  }

  /** And is about to take it again. */
  lemma TakesAgain(max: nat, n: nat) returns (steps: seq<Step>)
    requires n > 2
    ensures IsRun(max, Returned(n, max), steps) && Open(After(max, Returned(n, max), steps), 1, 0, 2, 0)
  {
    hide Upto;
    var s := Returned(n, max);
    var s1 := Next(max, s, Peek(0));
    var s2 := Next(max, s1, LockList(0));
    var s3 := Next(max, s2, Look(0));
    FirstStep(max, s2, Look(0), []);
    steps := [Look(0)] + [];
    FirstStep(max, s1, LockList(0), steps);
    steps := [LockList(0)] + steps;
    FirstStep(max, s, Peek(0), steps);
    steps := [Peek(0)] + steps;
  }

  /** However many segments there are: with three threads, a run gives one segment to two of them. */
  lemma Twice(max: nat, n: nat) returns (steps: seq<Step>)
    requires n > 2 && max > 0
    ensures IsRun(max, Init(n), steps) && !Apart(After(max, Init(n), steps))
  {
    hide *;
    steps := Fill(max, n, max);
    var more := FindsOut(max, n);
    Joined(max, Init(n), steps, more);
    steps := steps + more;
    more := GivesBack(max, n);
    Joined(max, Init(n), steps, more);
    steps := steps + more;
    more := TakesAgain(max, n);
    Joined(max, Init(n), steps, more);
    steps := steps + more;
    more := Doubled(max, After(max, Init(n), steps), 1, 0, 2, 0);
    Joined(max, Init(n), steps, more);
    steps := steps + more;
  }
}
