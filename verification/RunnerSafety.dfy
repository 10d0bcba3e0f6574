/**
 What every reachable state of the job runner keeps: the semaphores count their
 holders, gates and file locks have one holder each, and no lane has two active rows.
 */
module RunnerSafety {
  import opened Runner

  // ---------- who holds what ----------

  predicate HoldsFull(t: Thread) {
    t.full && 1 <= Rank(t.phase) <= 17
  }

  predicate HoldsSlot(t: Thread) {
    2 <= Rank(t.phase) <= 16
  }

  predicate HoldsGate(t: Thread) {
    3 <= Rank(t.phase) <= 14
  }

  predicate Registered(t: Thread) {
    4 <= Rank(t.phase) <= 13
  }

  function Count(ts: seq<Thread>, p: Thread -> bool): nat {
    if ts == [] then 0 else Count(ts[..|ts| - 1], p) + if p(ts[|ts| - 1]) then 1 else 0
  }

  function One(b: bool): nat {
    if b then 1 else 0
  }

  lemma {:induction false} CountUpdate(ts: seq<Thread>, i: nat, t: Thread, p: Thread -> bool)
    requires i < |ts|
    ensures Count(ts[i := t], p) == Count(ts, p) - One(p(ts[i])) + One(p(t))
    decreases |ts|
  {
    var n := |ts| - 1;
    if i == n {
      assert ts[i := t][..n] == ts[..n];
    } else {
      CountUpdate(ts[..n], i, t, p);
      assert ts[i := t][..n] == ts[..n][i := t];
    }
  }

  lemma CountAppend(ts: seq<Thread>, t: Thread, p: Thread -> bool)
    ensures Count(ts + [t], p) == Count(ts, p) + One(p(t))
  {
    assert (ts + [t])[..|ts|] == ts;
  }

  lemma {:induction false} CountNone(ts: seq<Thread>, p: Thread -> bool)
    requires forall i :: 0 <= i < |ts| ==> !p(ts[i])
    ensures Count(ts, p) == 0
  {
    if ts != [] {
      CountNone(ts[..|ts| - 1], p);
    }
  }

  lemma {:induction false} CountMono(ts: seq<Thread>, p: Thread -> bool, q: Thread -> bool)
    requires forall t :: p(t) ==> q(t)
    ensures Count(ts, p) <= Count(ts, q)
  {
    if ts != [] {
      CountMono(ts[..|ts| - 1], p, q);
    }
  }

  // ---------- the invariant ----------

  predicate Counted(lim: Limits, s: Machine) {
    && s.used == Count(s.threads, HoldsSlot) <= lim.slots
    && s.fullUsed == Count(s.threads, HoldsFull) <= lim.fullSlots
  }

  predicate Shaped(s: Machine) {
    && |s.threads| == |s.jobs|
    && (forall c :: 0 <= c < |s.calls| ==> s.calls[c].id < |s.jobs|)
  }

  /** Inside the gate: alone in the lane. */
  ghost predicate Gated(s: Machine)
    requires |s.threads| == |s.jobs|
  {
    && (forall i :: 0 <= i < |s.threads| && HoldsGate(s.threads[i]) ==> s.jobs[i].lane in s.gates)
    && (forall l <- s.gates :: exists i :: 0 <= i < |s.threads| && HoldsGate(s.threads[i]) && s.jobs[i].lane == l)
    && (forall i, j :: 0 <= i < j < |s.threads| && HoldsGate(s.threads[i]) && HoldsGate(s.threads[j]) ==>
          s.jobs[i].lane != s.jobs[j].lane)
  }

  /** The flags of a thread agree with its phase. */
  predicate Consistent(t: Thread) {
    && (t.phase == Spawned ==> !t.full)
    && (t.phase == WantFull ==> t.full)
    && (t.locked ==> 5 <= Rank(t.phase) <= 11)
    && (9 <= Rank(t.phase) <= 11 ==> t.locked)
  }

  ghost predicate Locked(s: Machine)
    requires |s.threads| == |s.jobs|
  {
    && (forall i :: 0 <= i < |s.threads| ==> Consistent(s.threads[i]))
    && (forall i :: 0 <= i < |s.threads| && s.threads[i].locked ==> s.jobs[i].lane in s.locks)
    && (forall l <- s.locks :: exists i :: 0 <= i < |s.threads| && s.threads[i].locked && s.jobs[i].lane == l)
  }

  ghost predicate Listed(s: Machine) {
    && (forall i :: i in s.cancels ==> i < |s.threads| && Registered(s.threads[i]))
    && (forall i :: 0 <= i < |s.threads| && Registered(s.threads[i]) ==> i in s.cancels)
    && (forall i :: 0 <= i < |s.threads| && s.threads[i].cancelled ==> Rank(s.threads[i].phase) <= 13)
  }

  predicate Pair(jobs: seq<Job>, i: nat, j: nat)
    requires i < |jobs| && j < |jobs|
  {
    i != j && jobs[i].lane == jobs[j].lane && Active(jobs[i].status) && Active(jobs[j].status)
  }

  predicate OneActive(jobs: seq<Job>) {
    forall i, j :: 0 <= i < |jobs| && 0 <= j < |jobs| ==> !Pair(jobs, i, j)
  }

  ghost predicate Inv(lim: Limits, s: Machine) {
    Shaped(s) && Counted(lim, s) && Gated(s) && Locked(s) && Listed(s) && OneActive(s.jobs)
  }

  // ---------- job rows ----------

  predicate SameLanes(a: seq<Job>, b: seq<Job>) {
    |a| == |b| && forall i :: 0 <= i < |a| ==> a[i].lane == b[i].lane
  }

  lemma UpdateKeepsOneActive(jobs: seq<Job>, id: nat, status: Status, kind: Kind)
    requires id < |jobs| && OneActive(jobs)
    ensures OneActive(UpdateJob(jobs, id, status, kind)) && SameLanes(UpdateJob(jobs, id, status, kind), jobs)
  {
    var end := UpdateJob(jobs, id, status, kind);
    forall i, j | 0 <= i < |jobs| && 0 <= j < |jobs| ensures !Pair(end, i, j) {
      assert !Pair(jobs, i, j);
      assert !Active(status) || Occupied(jobs, jobs[id].lane, id) || !Active(jobs[i].status) || i == id || jobs[i].lane != jobs[id].lane;
    }
  }

  // ---------- one thread moves ----------

  /** Thread `id` becomes `t`, and the semaphores change by what it takes and gives back. */
  predicate CountsFollow(s: Machine, e: Machine, id: nat, t: Thread)
    requires id < |s.threads|
  {
    && e.threads == s.threads[id := t]
    && e.used == s.used - One(HoldsSlot(s.threads[id])) + One(HoldsSlot(t))
    && e.fullUsed == s.fullUsed - One(HoldsFull(s.threads[id])) + One(HoldsFull(t))
  }

  lemma CountsKept(lim: Limits, s: Machine, e: Machine, id: nat, t: Thread)
    requires id < |s.threads| && Counted(lim, s) && CountsFollow(s, e, id, t)
    requires HoldsSlot(t) && !HoldsSlot(s.threads[id]) ==> s.used < lim.slots
    requires HoldsFull(t) && !HoldsFull(s.threads[id]) ==> s.fullUsed < lim.fullSlots
    ensures Counted(lim, e)
  {
    CountUpdate(s.threads, id, t, HoldsSlot);
    CountUpdate(s.threads, id, t, HoldsFull);
  }

  lemma GateKept(s: Machine, e: Machine, id: nat, t: Thread)
    requires Shaped(s) && Gated(s) && id < |s.threads|
    requires e.threads == s.threads[id := t] && SameLanes(e.jobs, s.jobs) && HoldsGate(t) == HoldsGate(s.threads[id])
    requires e.gates == s.gates
    ensures Gated(e)
  {
    forall l | l in e.gates
      ensures exists i :: 0 <= i < |e.threads| && HoldsGate(e.threads[i]) && e.jobs[i].lane == l
    {
      var i :| 0 <= i < |s.threads| && HoldsGate(s.threads[i]) && s.jobs[i].lane == l;
      assert HoldsGate(e.threads[i]) && e.jobs[i].lane == l;
    }
  }

  lemma GateTaken(s: Machine, e: Machine, id: nat, t: Thread)
    requires Shaped(s) && Gated(s) && id < |s.threads|
    requires e.threads == s.threads[id := t] && SameLanes(e.jobs, s.jobs) && HoldsGate(t) && !HoldsGate(s.threads[id])
    requires s.jobs[id].lane !in s.gates && e.gates == s.gates + {s.jobs[id].lane}
    ensures Gated(e)
  {
    assert e.threads[id] == t;
    forall l | l in e.gates
      ensures exists i :: 0 <= i < |e.threads| && HoldsGate(e.threads[i]) && e.jobs[i].lane == l
    {
      if l == s.jobs[id].lane {
        assert HoldsGate(e.threads[id]) && e.jobs[id].lane == l;
      } else {
        var i :| 0 <= i < |s.threads| && HoldsGate(s.threads[i]) && s.jobs[i].lane == l;
        assert HoldsGate(e.threads[i]) && e.jobs[i].lane == l;
      }
    }
  }

  lemma GateLeft(s: Machine, e: Machine, id: nat, t: Thread)
    requires Shaped(s) && Gated(s) && id < |s.threads|
    requires e.threads == s.threads[id := t] && SameLanes(e.jobs, s.jobs) && !HoldsGate(t) && HoldsGate(s.threads[id])
    requires e.gates == s.gates - {s.jobs[id].lane}
    ensures Gated(e)
  {
    forall l | l in e.gates
      ensures exists i :: 0 <= i < |e.threads| && HoldsGate(e.threads[i]) && e.jobs[i].lane == l
    {
      var i :| 0 <= i < |s.threads| && HoldsGate(s.threads[i]) && s.jobs[i].lane == l;
      assert i != id && HoldsGate(e.threads[i]) && e.jobs[i].lane == l;
    }
  }

  lemma LockKept(s: Machine, e: Machine, id: nat, t: Thread)
    requires Shaped(s) && Locked(s) && id < |s.threads|
    requires e.threads == s.threads[id := t] && SameLanes(e.jobs, s.jobs) && e.locks == s.locks
    requires Consistent(t) && t.locked == s.threads[id].locked
    ensures Locked(e)
  {
    forall l | l in e.locks
      ensures exists i :: 0 <= i < |e.threads| && e.threads[i].locked && e.jobs[i].lane == l
    {
      var i :| 0 <= i < |s.threads| && s.threads[i].locked && s.jobs[i].lane == l;
      assert e.threads[i].locked && e.jobs[i].lane == l;
    }
  }

  lemma LockTaken(s: Machine, e: Machine, id: nat, t: Thread)
    requires Shaped(s) && Locked(s) && id < |s.threads|
    requires e.threads == s.threads[id := t] && SameLanes(e.jobs, s.jobs)
    requires Consistent(t) && t.locked && e.locks == s.locks + {s.jobs[id].lane}
    ensures Locked(e)
  {
    assert e.threads[id] == t;
    forall l | l in e.locks
      ensures exists i :: 0 <= i < |e.threads| && e.threads[i].locked && e.jobs[i].lane == l
    {
      if l == s.jobs[id].lane {
        assert e.threads[id].locked && e.jobs[id].lane == l;
      } else {
        var i :| 0 <= i < |s.threads| && s.threads[i].locked && s.jobs[i].lane == l;
        assert e.threads[i].locked && e.jobs[i].lane == l;
      }
    }
  }

  /** A lock is inside its gate, so it has one holder. */
  lemma LockHasOneHolder(s: Machine, i: nat, j: nat)
    requires Shaped(s) && Gated(s) && Locked(s) && i < |s.threads| && j < |s.threads| && i != j
    requires s.threads[i].locked && s.threads[j].locked
    ensures s.jobs[i].lane != s.jobs[j].lane
  {
    assert Consistent(s.threads[i]) && Consistent(s.threads[j]);
  }

  lemma LockLeft(s: Machine, e: Machine, id: nat, t: Thread)
    requires Shaped(s) && Gated(s) && Locked(s) && id < |s.threads|
    requires e.threads == s.threads[id := t] && SameLanes(e.jobs, s.jobs)
    requires Consistent(t) && !t.locked
    requires e.locks == if s.threads[id].locked then s.locks - {s.jobs[id].lane} else s.locks
    ensures Locked(e)
  {
    forall i | 0 <= i < |e.threads| && e.threads[i].locked ensures e.jobs[i].lane in e.locks {
      assert i != id;
      if s.threads[id].locked {
        LockHasOneHolder(s, i, id);
      }
    }
    forall l | l in e.locks
      ensures exists i :: 0 <= i < |e.threads| && e.threads[i].locked && e.jobs[i].lane == l
    {
      var i :| 0 <= i < |s.threads| && s.threads[i].locked && s.jobs[i].lane == l;
      assert i != id && e.threads[i].locked && e.jobs[i].lane == l;
    }
  }

  lemma ListedFollows(s: Machine, e: Machine, id: nat, t: Thread)
    requires Listed(s) && id < |s.threads| && e.threads == s.threads[id := t]
    requires e.cancels == if Registered(t) then s.cancels + {id} else s.cancels - {id}
    requires t.cancelled ==> Rank(t.phase) <= 13
    ensures Listed(e)
  {
  }

  // ---------- every step keeps the invariant ----------

  predicate GatesFollow(s: Machine, e: Machine, id: nat, t: Thread)
    requires id < |s.threads| && id < |s.jobs|
  {
    var lane := s.jobs[id].lane;
    if HoldsGate(t) == HoldsGate(s.threads[id]) then e.gates == s.gates
    else if HoldsGate(t) then lane !in s.gates && e.gates == s.gates + {lane}
    else e.gates == s.gates - {lane}
  }

  predicate LocksFollow(s: Machine, e: Machine, id: nat, t: Thread)
    requires id < |s.threads| && id < |s.jobs|
  {
    var lane := s.jobs[id].lane;
    && Consistent(t)
    && if t.locked == s.threads[id].locked then e.locks == s.locks
       else if t.locked then e.locks == s.locks + {lane}
       else e.locks == s.locks - {lane}
  }

  predicate Fits(lim: Limits, s: Machine, id: nat, t: Thread)
    requires id < |s.threads|
  {
    && (HoldsSlot(t) && !HoldsSlot(s.threads[id]) ==> s.used < lim.slots)
    && (HoldsFull(t) && !HoldsFull(s.threads[id]) ==> s.fullUsed < lim.fullSlots)
    && (t.cancelled ==> Rank(t.phase) <= 13)
  }

  /** Thread `id` moves to `t` and the shared state moves with it. */
  predicate Moves(lim: Limits, s: Machine, e: Machine, id: nat, t: Thread)
    requires id < |s.threads| && id < |s.jobs|
  {
    && e.calls == s.calls && SameLanes(e.jobs, s.jobs)
    && Fits(lim, s, id, t) && CountsFollow(s, e, id, t) && GatesFollow(s, e, id, t) && LocksFollow(s, e, id, t)
    && e.cancels == if Registered(t) then s.cancels + {id} else s.cancels - {id}
  }

  lemma MoveKeepsInv(lim: Limits, s: Machine, e: Machine, id: nat, t: Thread)
    requires Inv(lim, s) && id < |s.threads| && Moves(lim, s, e, id, t) && OneActive(e.jobs)
    ensures Inv(lim, e)
  {
    CountsKept(lim, s, e, id, t);
    MoveKeepsGates(lim, s, e, id, t);
    MoveKeepsLocks(lim, s, e, id, t);
    ListedFollows(s, e, id, t);
  }

  lemma MoveKeepsGates(lim: Limits, s: Machine, e: Machine, id: nat, t: Thread)
    requires Inv(lim, s) && id < |s.threads| && Moves(lim, s, e, id, t)
    ensures Gated(e)
  {
    hide Count;
    hide Locked;
    hide Listed;
    hide OneActive;
    if HoldsGate(t) == HoldsGate(s.threads[id]) {
      GateKept(s, e, id, t);
    } else if HoldsGate(t) {
      GateTaken(s, e, id, t);
    } else {
      GateLeft(s, e, id, t);
    }
  }

  lemma MoveKeepsLocks(lim: Limits, s: Machine, e: Machine, id: nat, t: Thread)
    requires Inv(lim, s) && id < |s.threads| && Moves(lim, s, e, id, t)
    ensures Locked(e)
  {
    hide Count;
    hide Gated;
    hide Locked;
    hide Listed;
    hide OneActive;
    if t.locked == s.threads[id].locked {
      LockKept(s, e, id, t);
    } else if t.locked {
      LockTaken(s, e, id, t);
    } else {
      LockLeft(s, e, id, t);
    }
  }

  /** The file lock is always free inside the gate. */
  lemma FileLockIsFree(lim: Limits, s: Machine, id: nat)
    requires Inv(lim, s) && id < |s.threads| && s.threads[id].phase == Locking
    ensures s.jobs[id].lane !in s.locks
  {
    hide Counted;
    hide Listed;
    hide OneActive;
    assert HoldsGate(s.threads[id]);
    forall i | 0 <= i < |s.threads| && s.threads[i].locked ensures s.jobs[i].lane != s.jobs[id].lane {
      assert Consistent(s.threads[i]) && HoldsGate(s.threads[i]);
    }
  }

  lemma CancelsOf(lim: Limits, s: Machine, id: nat)
    requires Inv(lim, s) && id < |s.threads|
    ensures s.cancels == if Registered(s.threads[id]) then s.cancels + {id} else s.cancels - {id}
    ensures s.threads[id].cancelled ==> Rank(s.threads[id].phase) <= 13
    ensures Consistent(s.threads[id]) && |s.threads| == |s.jobs|
  {
  }

  lemma LoadMoves(lim: Limits, s: Machine, id: nat)
    requires Inv(lim, s) && CanRun(lim, s, id) && s.threads[id].phase == Spawned
    ensures var e := Approach(s, id); Moves(lim, s, e, id, e.threads[id])
  {
    CancelsOf(lim, s, id);
    hide Inv;
    var e := Approach(s, id);
    assert e.threads == s.threads[id := e.threads[id]];
  }

  lemma SlotMoves(lim: Limits, s: Machine, id: nat)
    requires Inv(lim, s) && CanRun(lim, s, id) && (s.threads[id].phase == WantFull || s.threads[id].phase == WantSlot)
    ensures var e := Approach(s, id); Moves(lim, s, e, id, e.threads[id])
  {
    CancelsOf(lim, s, id);
    hide Inv;
    var e := Approach(s, id);
    assert e.threads == s.threads[id := e.threads[id]];
  }

  lemma ReloadMoves(lim: Limits, s: Machine, id: nat)
    requires Inv(lim, s) && CanRun(lim, s, id) && s.threads[id].phase == Reloading
    ensures var e := Approach(s, id); Moves(lim, s, e, id, e.threads[id])
  {
    CancelsOf(lim, s, id);
    hide Inv;
    var e := Approach(s, id);
    assert e.threads == s.threads[id := e.threads[id]];
  }

  lemma GateMoves(lim: Limits, s: Machine, id: nat)
    requires Inv(lim, s) && CanRun(lim, s, id) && s.threads[id].phase == WantGate
    ensures var e := Approach(s, id); Moves(lim, s, e, id, e.threads[id])
  {
    CancelsOf(lim, s, id);
    hide Inv;
    var e := Approach(s, id);
    assert e.threads == s.threads[id := e.threads[id]];
  }

  lemma ApproachMoves(lim: Limits, s: Machine, id: nat)
    requires Inv(lim, s) && CanRun(lim, s, id) && Rank(s.threads[id].phase) >= 15
    ensures var e := Approach(s, id); Moves(lim, s, e, id, e.threads[id]) && OneActive(e.jobs)
  {
    assert Approach(s, id).jobs == s.jobs;
    hide Approach;
    hide Moves;
    match s.threads[id].phase
    case Spawned => LoadMoves(lim, s, id);
    case Reloading => ReloadMoves(lim, s, id);
    case WantGate => GateMoves(lim, s, id);
    case _ => SlotMoves(lim, s, id);
  }

  lemma RegisterMoves(lim: Limits, s: Machine, id: nat, choice: Choice)
    requires Inv(lim, s) && CanRun(lim, s, id) && s.threads[id].phase == Registering
    ensures var e := Work(s, id, choice); Moves(lim, s, e, id, e.threads[id])
  {
    CancelsOf(lim, s, id);
    WorkJobs(lim, s, id, choice);
    hide Inv;
    hide BoundUpdate;
    hide UpdateJob;
    hide SameLanes;
    var e := Work(s, id, choice);
    assert e.threads == s.threads[id := e.threads[id]];
  }

  /** Thread `id` moves without taking or giving back anything. */
  predicate Quiet(s: Machine, e: Machine, id: nat)
    requires id < |s.threads|
  {
    && |e.threads| == |s.threads| && e.threads == s.threads[id := e.threads[id]]
    && Consistent(e.threads[id]) && e.threads[id].locked == s.threads[id].locked
    && e.threads[id].cancelled == s.threads[id].cancelled && e.threads[id].full == s.threads[id].full
    && (6 <= Rank(s.threads[id].phase) <= 13) && (5 <= Rank(e.threads[id].phase) <= 12)
    && e.calls == s.calls && e.used == s.used && e.fullUsed == s.fullUsed
    && e.gates == s.gates && e.locks == s.locks && e.cancels == s.cancels
  }

  lemma QuietMoves(lim: Limits, s: Machine, e: Machine, id: nat)
    requires Inv(lim, s) && id < |s.threads| && Quiet(s, e, id) && SameLanes(e.jobs, s.jobs)
    ensures Moves(lim, s, e, id, e.threads[id])
  {
    CancelsOf(lim, s, id);
    hide Inv;
    hide SameLanes;
    hide Consistent;
  }

  lemma MarkMoves(lim: Limits, s: Machine, id: nat, choice: Choice)
    requires Inv(lim, s) && CanRun(lim, s, id) && s.threads[id].phase == Marking
    ensures var e := Work(s, id, choice); Moves(lim, s, e, id, e.threads[id])
  {
    CancelsOf(lim, s, id);
    WorkJobs(lim, s, id, choice);
    hide Inv;
    hide BoundUpdate;
    hide UpdateJob;
    hide SameLanes;
    hide Moves;
    var e := Work(s, id, choice);
    assert Quiet(s, e, id);
    QuietMoves(lim, s, e, id);
  }

  lemma LockMoves(lim: Limits, s: Machine, id: nat, choice: Choice)
    requires Inv(lim, s) && CanRun(lim, s, id) && s.threads[id].phase == Locking
    requires !choice.Stop? && s.jobs[id].lane !in s.locks
    ensures var e := Work(s, id, choice); Moves(lim, s, e, id, e.threads[id])
  {
    CancelsOf(lim, s, id);
    WorkJobs(lim, s, id, choice);
    hide Inv;
    hide BoundUpdate;
    hide UpdateJob;
    hide SameLanes;
    var e := Work(s, id, choice);
    assert e.threads == s.threads[id := e.threads[id]];
  }

  lemma NoLockMoves(lim: Limits, s: Machine, id: nat, choice: Choice)
    requires Inv(lim, s) && CanRun(lim, s, id) && s.threads[id].phase == Locking
    requires choice.Stop? || s.jobs[id].lane in s.locks
    ensures var e := Work(s, id, choice); Moves(lim, s, e, id, e.threads[id])
  {
    CancelsOf(lim, s, id);
    WorkJobs(lim, s, id, choice);
    hide Inv;
    hide BoundUpdate;
    hide UpdateJob;
    hide SameLanes;
    hide Moves;
    var e := Work(s, id, choice);
    assert Quiet(s, e, id);
    QuietMoves(lim, s, e, id);
  }

  lemma OpenMoves(lim: Limits, s: Machine, id: nat, choice: Choice)
    requires Inv(lim, s) && CanRun(lim, s, id) && s.threads[id].phase == Opening
    ensures var e := Work(s, id, choice); Moves(lim, s, e, id, e.threads[id])
  {
    CancelsOf(lim, s, id);
    WorkJobs(lim, s, id, choice);
    hide Inv;
    hide BoundUpdate;
    hide UpdateJob;
    hide SameLanes;
    hide Moves;
    var e := Work(s, id, choice);
    assert Quiet(s, e, id);
    QuietMoves(lim, s, e, id);
  }

  lemma BodyMoves(lim: Limits, s: Machine, id: nat, choice: Choice)
    requires Inv(lim, s) && CanRun(lim, s, id) && s.threads[id].phase == Body
    ensures var e := Work(s, id, choice); Moves(lim, s, e, id, e.threads[id])
  {
    CancelsOf(lim, s, id);
    WorkJobs(lim, s, id, choice);
    hide Inv;
    hide BoundUpdate;
    hide UpdateJob;
    hide SameLanes;
    hide Moves;
    var e := Work(s, id, choice);
    assert Quiet(s, e, id);
    QuietMoves(lim, s, e, id);
  }

  lemma WorkMoves(lim: Limits, s: Machine, id: nat, choice: Choice)
    requires Inv(lim, s) && CanRun(lim, s, id) && 10 <= Rank(s.threads[id].phase) <= 14
    ensures var e := Work(s, id, choice); Moves(lim, s, e, id, e.threads[id]) && OneActive(e.jobs)
  {
    WorkJobs(lim, s, id, choice);
    hide Work;
    hide Inv;
    hide Moves;
    match s.threads[id].phase
    case Registering => RegisterMoves(lim, s, id, choice);
    case Marking => MarkMoves(lim, s, id, choice);
    case Locking =>
      if choice.Stop? || s.jobs[id].lane in s.locks {
        NoLockMoves(lim, s, id, choice);
      } else {
        LockMoves(lim, s, id, choice);
      }
    case Opening => OpenMoves(lim, s, id, choice);
    case Body => BodyMoves(lim, s, id, choice);
  }

  lemma WorkJobs(lim: Limits, s: Machine, id: nat, choice: Choice)
    requires Inv(lim, s) && CanRun(lim, s, id) && 10 <= Rank(s.threads[id].phase) <= 14
    ensures OneActive(Work(s, id, choice).jobs) && SameLanes(Work(s, id, choice).jobs, s.jobs)
  {
    UpdateKeepsOneActive(s.jobs, id, Running, s.threads[id].kind);
    UpdateKeepsOneActive(s.jobs, id, Running, Full);
    hide UpdateJob;
    hide OneActive;
  }

  lemma WriteMoves(lim: Limits, s: Machine, id: nat)
    requires Inv(lim, s) && CanRun(lim, s, id) && s.threads[id].phase.Writing?
    ensures var e := Conclude(s, id); Moves(lim, s, e, id, e.threads[id])
  {
    CancelsOf(lim, s, id);
    ConcludeJobs(lim, s, id);
    hide Inv;
    hide BoundUpdate;
    hide UpdateJob;
    hide SameLanes;
    hide Moves;
    var e := Conclude(s, id);
    assert Quiet(s, e, id);
    QuietMoves(lim, s, e, id);
  }

  lemma OutcomeMoves(lim: Limits, s: Machine, id: nat)
    requires Inv(lim, s) && CanRun(lim, s, id) && 7 <= Rank(s.threads[id].phase) <= 9
    ensures var e := Conclude(s, id); Moves(lim, s, e, id, e.threads[id])
  {
    CancelsOf(lim, s, id);
    ConcludeJobs(lim, s, id);
    hide Inv;
    hide BoundUpdate;
    hide UpdateJob;
    hide SameLanes;
    hide Moves;
    var e := Conclude(s, id);
    assert Quiet(s, e, id);
    QuietMoves(lim, s, e, id);
  }

  lemma UnlockMoves(lim: Limits, s: Machine, id: nat)
    requires Inv(lim, s) && CanRun(lim, s, id) && s.threads[id].phase == Unlocking
    ensures var e := Conclude(s, id); Moves(lim, s, e, id, e.threads[id])
  {
    CancelsOf(lim, s, id);
    ConcludeJobs(lim, s, id);
    hide Inv;
    hide BoundUpdate;
    hide UpdateJob;
    hide SameLanes;
    var e := Conclude(s, id);
    assert e.threads == s.threads[id := e.threads[id]];
  }

  lemma DeregisterMoves(lim: Limits, s: Machine, id: nat)
    requires Inv(lim, s) && CanRun(lim, s, id) && s.threads[id].phase == Deregistering
    ensures var e := Conclude(s, id); Moves(lim, s, e, id, e.threads[id])
  {
    CancelsOf(lim, s, id);
    ConcludeJobs(lim, s, id);
    hide Inv;
    hide BoundUpdate;
    hide UpdateJob;
    hide SameLanes;
    var e := Conclude(s, id);
    assert e.threads == s.threads[id := e.threads[id]];
  }

  lemma LeaveGateMoves(lim: Limits, s: Machine, id: nat)
    requires Inv(lim, s) && CanRun(lim, s, id) && s.threads[id].phase == LeavingGate
    ensures var e := Conclude(s, id); Moves(lim, s, e, id, e.threads[id])
  {
    CancelsOf(lim, s, id);
    ConcludeJobs(lim, s, id);
    hide Inv;
    hide BoundUpdate;
    hide UpdateJob;
    hide SameLanes;
    var e := Conclude(s, id);
    assert e.threads == s.threads[id := e.threads[id]];
  }

  lemma LeaveSlotMoves(lim: Limits, s: Machine, id: nat)
    requires Inv(lim, s) && CanRun(lim, s, id) && s.threads[id].phase == LeavingSlot
    ensures var e := Conclude(s, id); Moves(lim, s, e, id, e.threads[id])
  {
    CancelsOf(lim, s, id);
    ConcludeJobs(lim, s, id);
    hide Inv;
    hide BoundUpdate;
    hide UpdateJob;
    hide SameLanes;
    var e := Conclude(s, id);
    assert e.threads == s.threads[id := e.threads[id]];
  }

  lemma LeaveFullMoves(lim: Limits, s: Machine, id: nat)
    requires Inv(lim, s) && CanRun(lim, s, id) && s.threads[id].phase == LeavingFull
    ensures var e := Conclude(s, id); Moves(lim, s, e, id, e.threads[id])
  {
    CancelsOf(lim, s, id);
    ConcludeJobs(lim, s, id);
    hide Inv;
    hide BoundUpdate;
    hide UpdateJob;
    hide SameLanes;
    var e := Conclude(s, id);
    assert e.threads == s.threads[id := e.threads[id]];
  }

  lemma ConcludeMoves(lim: Limits, s: Machine, id: nat)
    requires Inv(lim, s) && CanRun(lim, s, id) && Rank(s.threads[id].phase) <= 9
    ensures var e := Conclude(s, id); Moves(lim, s, e, id, e.threads[id]) && OneActive(e.jobs)
  {
    ConcludeJobs(lim, s, id);
    hide Conclude;
    hide Inv;
    hide Moves;
    match s.threads[id].phase
    case Unlocking => UnlockMoves(lim, s, id);
    case Deregistering => DeregisterMoves(lim, s, id);
    case LeavingGate => LeaveGateMoves(lim, s, id);
    case LeavingSlot => LeaveSlotMoves(lim, s, id);
    case LeavingFull => LeaveFullMoves(lim, s, id);
    case Writing(_, _) => WriteMoves(lim, s, id);
    case _ => OutcomeMoves(lim, s, id);
  }

  lemma ConcludeJobs(lim: Limits, s: Machine, id: nat)
    requires Inv(lim, s) && CanRun(lim, s, id) && Rank(s.threads[id].phase) <= 9
    ensures OneActive(Conclude(s, id).jobs) && SameLanes(Conclude(s, id).jobs, s.jobs)
  {
    var t := s.threads[id];
    if t.phase.Writing? {
      UpdateKeepsOneActive(s.jobs, id, t.phase.status, t.kind);
    }
    hide UpdateJob;
    hide OneActive;
  }

  lemma RunKeepsInv(lim: Limits, s: Machine, id: nat, choice: Choice)
    requires Inv(lim, s) && CanRun(lim, s, id)
    ensures Inv(lim, RunStep(s, id, choice))
  {
    var r := Rank(s.threads[id].phase);
    if r >= 15 {
      ApproachMoves(lim, s, id);
    } else if r >= 10 {
      WorkMoves(lim, s, id, choice);
    } else {
      ConcludeMoves(lim, s, id);
    }
    hide *;
    var e := RunStep(s, id, choice);
    MoveKeepsInv(lim, s, e, id, e.threads[id]);
  }

  lemma FireKeepsInv(lim: Limits, s: Machine, c: nat)
    requires Inv(lim, s) && Enabled(lim, s, Fire(c))
    ensures Inv(lim, FireStep(s, c))
  {
    var call, mid := s.calls[c], s.(calls := s.calls[c := s.calls[c].(stage := Closing)]);
    assert Inv(lim, mid);
    if call.id in s.cancels {
      var t := s.threads[call.id].(cancelled := true);
      CancelsOf(lim, s, call.id);
      FiredMoves(lim, mid, FireStep(s, c), call.id, t);
      MoveKeepsInv(lim, mid, FireStep(s, c), call.id, t);
    }
  }

  lemma FiredMoves(lim: Limits, s: Machine, e: Machine, id: nat, t: Thread)
    requires id < |s.threads| && id < |s.jobs| && Consistent(s.threads[id]) && Registered(s.threads[id]) && id in s.cancels
    requires t == s.threads[id].(cancelled := true) && e == s.(threads := s.threads[id := t])
    ensures Moves(lim, s, e, id, t)
  {
  }

  lemma CloseKeepsInv(lim: Limits, s: Machine, c: nat)
    requires Inv(lim, s) && Enabled(lim, s, Close(c))
    ensures Inv(lim, CloseStep(s, c))
  {
    var call := s.calls[c];
    UpdateKeepsOneActive(s.jobs, call.id, if call.kill then Error else Cancelled, call.kind);
    RowsKeepInv(lim, s, CloseStep(s, c));
  }

  lemma RowsKeepInv(lim: Limits, s: Machine, e: Machine)
    requires Inv(lim, s) && SameLanes(e.jobs, s.jobs) && OneActive(e.jobs)
    requires e == s.(jobs := e.jobs, calls := e.calls) && |e.calls| == |s.calls|
    requires forall c :: 0 <= c < |e.calls| ==> e.calls[c].id == s.calls[c].id
    ensures Inv(lim, e)
  {
    hide Count;
    hide Registered;
    hide OneActive;
    forall l | l in e.gates
      ensures exists i :: 0 <= i < |e.threads| && HoldsGate(e.threads[i]) && e.jobs[i].lane == l
    {
      var i :| 0 <= i < |s.threads| && HoldsGate(s.threads[i]) && s.jobs[i].lane == l;
      assert HoldsGate(e.threads[i]) && e.jobs[i].lane == l;
    }
    forall l | l in e.locks
      ensures exists i :: 0 <= i < |e.threads| && e.threads[i].locked && e.jobs[i].lane == l
    {
      var i :| 0 <= i < |s.threads| && s.threads[i].locked && s.jobs[i].lane == l;
      assert e.threads[i].locked && e.jobs[i].lane == l;
    }
  }

  lemma CreateKeepsInv(lim: Limits, s: Machine, lane: Lane, kind: Kind)
    requires Inv(lim, s) && !AnyActive(s.jobs, lane)
    ensures var e := s.(jobs := s.jobs + [Job(lane, kind, Queued)],
                        threads := s.threads + [Thread(Spawned, false, kind, false, false)]);
            Inv(lim, e)
  {
    var t := Thread(Spawned, false, kind, false, false);
    var e := s.(jobs := s.jobs + [Job(lane, kind, Queued)], threads := s.threads + [t]);
    CountAppend(s.threads, t, HoldsSlot);
    CountAppend(s.threads, t, HoldsFull);
    CreateKeepsGates(s, e, t);
    CreateKeepsLocks(s, e, t);
    forall i, j | 0 <= i < |e.jobs| && 0 <= j < |e.jobs| ensures !Pair(e.jobs, i, j) {
      if i < |s.jobs| && j < |s.jobs| {
        assert !Pair(s.jobs, i, j);
      }
    }
  }

  predicate Appends(s: Machine, e: Machine, t: Thread) {
    && e.threads == s.threads + [t] && |e.jobs| == |s.jobs| + 1
    && (forall i :: 0 <= i < |s.jobs| ==> e.jobs[i] == s.jobs[i])
    && e.gates == s.gates && e.locks == s.locks
  }

  lemma CreateKeepsGates(s: Machine, e: Machine, t: Thread)
    requires Shaped(s) && Gated(s) && !HoldsGate(t) && Appends(s, e, t)
    ensures Gated(e)
  {
    hide HoldsGate;
    forall l | l in e.gates
      ensures exists i :: 0 <= i < |e.threads| && HoldsGate(e.threads[i]) && e.jobs[i].lane == l
    {
      var i :| 0 <= i < |s.threads| && HoldsGate(s.threads[i]) && s.jobs[i].lane == l;
      assert HoldsGate(e.threads[i]) && e.jobs[i].lane == l;
    }
  }

  lemma CreateKeepsLocks(s: Machine, e: Machine, t: Thread)
    requires Shaped(s) && Locked(s) && Consistent(t) && !t.locked && Appends(s, e, t)
    ensures Locked(e)
  {
    hide Consistent;
    forall l | l in e.locks
      ensures exists i :: 0 <= i < |e.threads| && e.threads[i].locked && e.jobs[i].lane == l
    {
      var i :| 0 <= i < |s.threads| && s.threads[i].locked && s.jobs[i].lane == l;
      assert e.threads[i].locked && e.jobs[i].lane == l;
    }
  }

  lemma EnqueueKeepsInv(lim: Limits, s: Machine)
    requires Inv(lim, s)
    ensures Inv(lim, EnqueueStep(s))
  {
    if s.enqueue.Creating? && !AnyActive(s.jobs, s.enqueue.lane) {
      var mid := s.(enqueue := Idle);
      assert Inv(lim, mid);
      CreateKeepsInv(lim, mid, s.enqueue.lane, s.enqueue.kind);
    }
  }

  lemma StepKeepsInv(lim: Limits, s: Machine, a: Action)
    requires Inv(lim, s) && Enabled(lim, s, a)
    ensures Inv(lim, Step(lim, s, a))
  {
    match a
    case Run(id, choice) => RunKeepsInv(lim, s, id, choice);
    case Ask(id, kill) => AskKeepsInv(lim, s, id, kill);
    case Fire(c) => FireKeepsInv(lim, s, c);
    case Close(c) => CloseKeepsInv(lim, s, c);
    case Begin(lane, kind) => assert Inv(lim, s.(enqueue := CheckingLane(lane, kind)));
    case Advance => EnqueueKeepsInv(lim, s);
  }

  lemma AskKeepsInv(lim: Limits, s: Machine, id: nat, kill: bool)
    requires Inv(lim, s) && id < |s.jobs|
    ensures Inv(lim, AskStep(s, id, kill))
  {
  }

  lemma {:induction false} RunsKeepInv(lim: Limits, s: Machine, acts: seq<Action>)
    requires Inv(lim, s) && Possible(lim, s, acts)
    ensures Inv(lim, After(lim, s, acts))
    decreases |acts|
  {
    if acts != [] {
      StepKeepsInv(lim, s, acts[0]);
      hide *;
      RunsKeepInv(lim, Step(lim, s, acts[0]), acts[1..]);
    }
  }
}
