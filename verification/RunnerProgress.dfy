/**
 Mutual exclusion and progress of the job runner over every interleaving, from the
 empty runner on.
 */
module RunnerProgress {
  import opened Runner
  import opened RunnerSafety

  // ---------- mutual exclusion ----------

  predicate InBody(t: Thread) {
    t.phase == Opening || t.phase == Body
  }

  predicate InFullBody(t: Thread) {
    t.full && InBody(t)
  }

  ghost predicate Exclusive(lim: Limits, s: Machine) {
    && |s.threads| == |s.jobs|
    && Count(s.threads, InBody) <= lim.slots
    && Count(s.threads, InFullBody) <= lim.fullSlots
    && (forall i, j :: 0 <= i < j < |s.threads| && InBody(s.threads[i]) && InBody(s.threads[j]) ==>
          s.jobs[i].lane != s.jobs[j].lane)
    && (forall i :: 0 <= i < |s.threads| && s.threads[i].phase == Locking ==> s.jobs[i].lane !in s.locks)
    && OneActive(s.jobs)
  }

  lemma InvIsExclusive(lim: Limits, s: Machine)
    requires Inv(lim, s)
    ensures Exclusive(lim, s)
  {
    CountMono(s.threads, InBody, HoldsSlot);
    CountMono(s.threads, InFullBody, HoldsFull);
    assert forall i :: 0 <= i < |s.threads| && InBody(s.threads[i]) ==> HoldsGate(s.threads[i]);
    hide Count;
    hide OneActive;
    hide Locked;
    hide Listed;
    hide Rank;
    forall i | 0 <= i < |s.threads| && s.threads[i].phase == Locking ensures s.jobs[i].lane !in s.locks {
      FileLockIsFree(lim, s, i);
    }
  }

  /**
   At most one body per tenant and service, at most as many bodies as slots, at most
   as many loaded as full as there are full slots; the file lock never fails; and no
   tenant and service has two active rows.
   */
  lemma MutualExclusion(lim: Limits, acts: seq<Action>)
    requires Possible(lim, START, acts)
    ensures Exclusive(lim, After(lim, START, acts))
  {
    assert Inv(lim, START);
    RunsKeepInv(lim, START, acts);
    InvIsExclusive(lim, After(lim, START, acts));
  }

  // ---------- no deadlock ----------

  ghost predicate AllDone(s: Machine) {
    forall i :: 0 <= i < |s.threads| ==> s.threads[i].phase == Done
  }

  predicate Waits(t: Thread) {
    t.phase == WantFull || t.phase == WantSlot || t.phase == WantGate
  }

  /** Every run is over or waits, none of them beyond run `i`. */
  ghost predicate AllWait(s: Machine, i: nat)
    requires i < |s.threads|
  {
    && Waits(s.threads[i])
    && (forall j :: 0 <= j < |s.threads| ==> s.threads[j].phase == Done || Waits(s.threads[j]))
    && (forall j :: 0 <= j < |s.threads| && Waits(s.threads[j]) ==> Rank(s.threads[i].phase) <= Rank(s.threads[j].phase))
  }

  lemma GateIsFree(s: Machine, i: nat)
    requires Shaped(s) && Gated(s) && i < |s.threads| && AllWait(s, i)
    ensures s.gates == {}
  {
    assert forall j :: 0 <= j < |s.threads| ==> !HoldsGate(s.threads[j]);
  }

  lemma SlotIsFree(lim: Limits, s: Machine, i: nat)
    requires Counted(lim, s) && i < |s.threads| && AllWait(s, i)
    ensures s.threads[i].phase == WantSlot ==> s.used == 0
    ensures s.threads[i].phase == WantFull ==> s.fullUsed == 0
  {
    if s.threads[i].phase == WantSlot {
      CountNone(s.threads, HoldsSlot);
    } else if s.threads[i].phase == WantFull {
      CountNone(s.threads, HoldsFull);
    }
  }

  /** When every unfinished run waits, the one that got furthest can go on. */
  lemma WaitersProceed(lim: Limits, s: Machine, i: nat)
    requires Inv(lim, s) && lim.slots >= 1 && lim.fullSlots >= 1 && i < |s.threads| && AllWait(s, i)
    ensures CanRun(lim, s, i)
  {
    GateIsFree(s, i);
    SlotIsFree(lim, s, i);
    hide Counted;
    hide Gated;
  }

  lemma {:induction false} Furthest(ts: seq<Thread>, n: nat) returns (i: nat)
    requires n <= |ts| && exists j :: 0 <= j < n && Waits(ts[j])
    ensures i < n && Waits(ts[i])
    ensures forall j :: 0 <= j < n && Waits(ts[j]) ==> Rank(ts[i].phase) <= Rank(ts[j].phase)
    decreases n
  {
    if forall j :: 0 <= j < n - 1 ==> !Waits(ts[j]) {
      i := n - 1;
    } else {
      i := Furthest(ts, n - 1);
      if Waits(ts[n - 1]) && Rank(ts[n - 1].phase) < Rank(ts[i].phase) {
        i := n - 1;
      }
    }
  }

  /** In no reachable state are all unfinished runs blocked. */
  lemma NeverStuck(lim: Limits, s: Machine) returns (i: nat)
    requires Inv(lim, s) && lim.slots >= 1 && lim.fullSlots >= 1 && !AllDone(s)
    ensures CanRun(lim, s, i)
  {
    if exists j :: 0 <= j < |s.threads| && s.threads[j].phase != Done && !Waits(s.threads[j]) {
      var j :| 0 <= j < |s.threads| && s.threads[j].phase != Done && !Waits(s.threads[j]);
      i := j;
    } else {
      var j :| 0 <= j < |s.threads| && s.threads[j].phase != Done;
      assert Waits(s.threads[j]);
      i := Furthest(s.threads, |s.threads|);
      WaitersProceed(lim, s, i);
    }
  }

  // ---------- every run ends ----------

  function WorkLeft(ts: seq<Thread>): nat {
    if ts == [] then 0 else WorkLeft(ts[..|ts| - 1]) + Rank(ts[|ts| - 1].phase)
  }

  lemma {:induction false} WorkUpdate(ts: seq<Thread>, i: nat, t: Thread)
    requires i < |ts|
    ensures WorkLeft(ts[i := t]) == WorkLeft(ts) - Rank(ts[i].phase) + Rank(t.phase)
    decreases |ts|
  {
    var n := |ts| - 1;
    if i == n {
      assert ts[i := t][..n] == ts[..n];
    } else {
      WorkUpdate(ts[..n], i, t);
      assert ts[i := t][..n] == ts[..n][i := t];
    }
  }

  /** Only thread `i` changes, and it comes closer to its end. */
  predicate Falls(s: Machine, e: Machine, i: nat)
    requires i < |s.threads|
  {
    && |e.threads| == |s.threads| && e.threads == s.threads[i := e.threads[i]] && |e.jobs| == |s.jobs|
    && Rank(e.threads[i].phase) < Rank(s.threads[i].phase)
  }

  lemma ApproachFalls(s: Machine, i: nat)
    requires i < |s.threads| && i < |s.jobs| && Rank(s.threads[i].phase) >= 15
    ensures Falls(s, Approach(s, i), i)
  {
  }

  lemma WorkStepFalls(s: Machine, i: nat, choice: Choice)
    requires i < |s.threads| && i < |s.jobs| && 10 <= Rank(s.threads[i].phase) <= 14
    ensures Falls(s, Work(s, i, choice), i)
  {
    if s.threads[i].phase == Locking || s.threads[i].phase == Body {
      LockFalls(s, i, choice);
    } else {
      UpdateLength(s, i, Running, s.threads[i].kind);
      UpdateLength(s, i, Running, Full);
      MarkFalls(s, i, choice);
    }
    hide Work;
  }

  lemma LockFalls(s: Machine, i: nat, choice: Choice)
    requires i < |s.threads| && i < |s.jobs| && (s.threads[i].phase == Locking || s.threads[i].phase == Body)
    ensures Falls(s, Work(s, i, choice), i)
  {
    hide BoundUpdate;
  }

  lemma MarkFalls(s: Machine, i: nat, choice: Choice)
    requires i < |s.threads| && i < |s.jobs| && s.threads[i].phase in {Registering, Marking, Opening}
    requires |BoundUpdate(s, i, Running, s.threads[i].kind)| == |BoundUpdate(s, i, Running, Full)| == |s.jobs|
    ensures Falls(s, Work(s, i, choice), i)
  {
    hide BoundUpdate;
  }

  lemma UpdateLength(s: Machine, i: nat, status: Status, kind: Kind)
    requires i < |s.threads| && i < |s.jobs|
    ensures |BoundUpdate(s, i, status, kind)| == |s.jobs|
  {
  }

  lemma ConcludeFalls(s: Machine, i: nat)
    requires i < |s.threads| && i < |s.jobs| && 1 <= Rank(s.threads[i].phase) <= 9
    ensures Falls(s, Conclude(s, i), i)
  {
    if s.threads[i].phase.Writing? {
      WriteFalls(s, i);
      hide Conclude;
    }
  }

  lemma WriteFalls(s: Machine, i: nat)
    requires i < |s.threads| && i < |s.jobs| && s.threads[i].phase.Writing?
    ensures Falls(s, Conclude(s, i), i)
  {
    hide Occupied;
  }

  lemma RankFalls(lim: Limits, s: Machine, i: nat, choice: Choice)
    requires CanRun(lim, s, i)
    ensures Falls(s, RunStep(s, i, choice), i)
  {
    var r := Rank(s.threads[i].phase);
    if r >= 15 {
      ApproachFalls(s, i);
    } else if r >= 10 {
      WorkStepFalls(s, i, choice);
    } else {
      ConcludeFalls(s, i);
    }
    hide Approach;
    hide Work;
    hide Conclude;
  }

  lemma WorkFalls(lim: Limits, s: Machine, i: nat, choice: Choice)
    requires CanRun(lim, s, i)
    ensures WorkLeft(RunStep(s, i, choice).threads) < WorkLeft(s.threads)
  {
    RankFalls(lim, s, i, choice);
    hide RunStep;
    hide Rank;
    WorkUpdate(s.threads, i, RunStep(s, i, choice).threads[i]);
  }

  predicate OnlyRuns(acts: seq<Action>) {
    forall a <- acts :: a.Run?
  }

  lemma OnlyRunsTail(acts: seq<Action>)
    requires acts != [] && OnlyRuns(acts)
    ensures acts[0].Run? && OnlyRuns(acts[1..])
  {
    assert acts[0] in acts;
  }

  /** Runs cannot step forever: no sequence of their steps is longer than the work left. */
  lemma {:induction false} RunsAreFinite(lim: Limits, s: Machine, acts: seq<Action>)
    requires Possible(lim, s, acts) && OnlyRuns(acts)
    ensures |acts| + WorkLeft(After(lim, s, acts).threads) <= WorkLeft(s.threads)
    decreases |acts|
  {
    if acts != [] {
      OnlyRunsTail(acts);
      WorkFalls(lim, s, acts[0].id, acts[0].choice);
      RunsAreFinite(lim, Step(lim, s, acts[0]), acts[1..]);
    }
  }

  /** Whatever the interleaving did so far, letting the runs go on finishes all of them. */
  lemma {:induction false} RunsCanFinish(lim: Limits, s: Machine) returns (acts: seq<Action>)
    requires Inv(lim, s) && lim.slots >= 1 && lim.fullSlots >= 1
    ensures OnlyRuns(acts) && Possible(lim, s, acts) && AllDone(After(lim, s, acts))
    decreases WorkLeft(s.threads)
  {
    if AllDone(s) {
      acts := [];
    } else {
      var i := NeverStuck(lim, s);
      var a := Run(i, Go);
      WorkFalls(lim, s, i, Go);
      StepKeepsInv(lim, s, a);
      hide *;
      var rest := RunsCanFinish(lim, Step(lim, s, a));
      acts := Prepend(lim, s, a, rest);
    }
  }

  lemma Prepend(lim: Limits, s: Machine, a: Action, rest: seq<Action>) returns (acts: seq<Action>)
    requires Enabled(lim, s, a) && Possible(lim, Step(lim, s, a), rest)
    ensures acts == [a] + rest && Possible(lim, s, acts) && After(lim, s, acts) == After(lim, Step(lim, s, a), rest)
    ensures a.Run? && OnlyRuns(rest) ==> OnlyRuns(acts)
  {
    acts := [a] + rest;
    assert acts[1..] == rest;
  }

  /** A run of steps that cannot be extended has finished every job. */
  lemma StuckMeansDone(lim: Limits, s: Machine)
    requires Inv(lim, s) && lim.slots >= 1 && lim.fullSlots >= 1
    requires forall i :: 0 <= i < |s.threads| ==> !CanRun(lim, s, i)
    ensures AllDone(s)
  {
    if !AllDone(s) {
      var i := NeverStuck(lim, s);
      assert false;
    }
  }

  /** From every reachable state of every runner, all its jobs can run to their end. */
  lemma EveryJobCanFinish(slots: int, fullSlots: int, acts: seq<Action>) returns (more: seq<Action>)
    requires Possible(AtLeastOne(slots, fullSlots), START, acts)
    ensures var lim := AtLeastOne(slots, fullSlots);
            var s := After(lim, START, acts);
            OnlyRuns(more) && Possible(lim, s, more) && AllDone(After(lim, s, more))
  {
    var lim := AtLeastOne(slots, fullSlots);
    assert Inv(lim, START);
    RunsKeepInv(lim, START, acts);
    more := RunsCanFinish(lim, After(lim, START, acts));
  }
}
