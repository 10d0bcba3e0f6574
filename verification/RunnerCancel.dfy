/**
 Cancelling jobs: which steps bring a closed row back to life, when a cancellation
 is final, and exactly when it gets lost.
 */
module RunnerCancel {
  import opened Runner
  import opened RunnerSafety
  import opened RunnerProgress

  predicate Alive(s: Machine, j: nat)
    requires j < |s.jobs|
  {
    Active(s.jobs[j].status)
  }

  // ---------- the steps that write a row ----------

  /** The step writes "running" over the row: the first mark, or a promotion to full. */
  predicate Wakes(s: Machine, a: Action, j: nat)
    requires j < |s.jobs| == |s.threads|
  {
    var t := s.threads[j];
    && a.Run? && a.id == j && !t.cancelled && !Occupied(s.jobs, s.jobs[j].lane, j)
    && (t.phase == Marking
        || (t.phase == Opening && a.choice == Promote && t.kind != Full && s.jobs[j].lane.service != "pst"))
  }

  lemma WorkWakes(lim: Limits, s: Machine, j: nat, choice: Choice)
    requires j < |s.jobs| == |s.threads| && 10 <= Rank(s.threads[j].phase) <= 14 && !Alive(s, j)
    ensures var e := Runner.Work(s, j, choice);
            && |e.jobs| == |s.jobs| && (Alive(e, j) <==> Wakes(s, Run(j, choice), j))
            && e.jobs == s.jobs[j := e.jobs[j]]
  {
    hide Occupied;
  }

  lemma ConcludeKeepsClosed(s: Machine, j: nat)
    requires j < |s.jobs| == |s.threads| && Rank(s.threads[j].phase) <= 9 && !Alive(s, j)
    requires ClosingPhase(s.threads[j].phase)
    ensures |Conclude(s, j).jobs| == |s.jobs| && !Alive(Conclude(s, j), j)
  {
    hide Occupied;
  }

  /** What is written at the end of a run is a final status. */
  predicate ClosingPhase(p: Phase) {
    && (p.Succeeding? ==> !Active(p.result))
    && (p.Writing? ==> !Active(p.status))
  }

  ghost predicate Closing(s: Machine) {
    forall i :: 0 <= i < |s.threads| ==> ClosingPhase(s.threads[i].phase)
  }

  lemma RunRows(lim: Limits, s: Machine, i: nat, choice: Choice, j: nat)
    requires CanRun(lim, s, i) && j < |s.jobs| && i != j
    ensures var e := RunStep(s, i, choice); |e.jobs| == |s.jobs| && e.jobs[j] == s.jobs[j]
  {
    hide Occupied;
  }

  /** Exactly which steps turn a closed row active again. */
  lemma OnlyMarksWake(lim: Limits, s: Machine, a: Action, j: nat)
    requires Shaped(s) && Closing(s) && Enabled(lim, s, a) && j < |s.jobs| && !Alive(s, j)
    ensures var e := Step(lim, s, a); j < |e.jobs| && (Alive(e, j) <==> Wakes(s, a, j))
  {
    match a
    case Run(i, choice) =>
      if i != j {
        RunRows(lim, s, i, choice, j);
      } else {
        RunWakes(lim, s, j, choice);
      }
    case Close(c) => CloseRows(lim, s, c, j);
    case Advance =>
    case _ =>
  }

  lemma RunWakes(lim: Limits, s: Machine, j: nat, choice: Choice)
    requires Shaped(s) && Closing(s) && CanRun(lim, s, j) && !Alive(s, j)
    ensures var e := RunStep(s, j, choice); j < |e.jobs| && (Alive(e, j) <==> Wakes(s, Run(j, choice), j))
  {
    var r := Rank(s.threads[j].phase);
    if 10 <= r <= 14 {
      WorkWakes(lim, s, j, choice);
    } else if r < 10 {
      ConcludeKeepsClosed(s, j);
    }
    hide Occupied;
    hide Runner.Work;
    hide Conclude;
  }

  lemma CloseRows(lim: Limits, s: Machine, c: nat, j: nat)
    requires Enabled(lim, s, Close(c)) && j < |s.jobs|
    ensures var e := CloseStep(s, c);
            && |e.jobs| == |s.jobs|
            && e.jobs[j] == if s.calls[c].id != j then s.jobs[j]
                            else Job(s.jobs[j].lane, s.calls[c].kind, if s.calls[c].kill then Error else Cancelled)
  {
    hide Occupied;
  }

  // ---------- final statuses are all a run ever aims at ----------

  lemma ThreadKeepsClosing(lim: Limits, s: Machine, i: nat, choice: Choice)
    requires CanRun(lim, s, i) && ClosingPhase(s.threads[i].phase)
    ensures var e := RunStep(s, i, choice); i < |e.threads| && ClosingPhase(e.threads[i].phase)
  {
    var r := Rank(s.threads[i].phase);
    if r >= 15 {
      ApproachKeepsClosing(s, i);
    } else if r >= 10 {
      WorkKeepsClosing(s, i, choice);
    } else {
      ConcludeKeepsClosing(s, i);
    }
    hide Approach;
    hide Runner.Work;
    hide Conclude;
  }

  lemma ApproachKeepsClosing(s: Machine, i: nat)
    requires i < |s.threads| && i < |s.jobs| && ClosingPhase(s.threads[i].phase)
    ensures i < |Approach(s, i).threads| && ClosingPhase(Approach(s, i).threads[i].phase)
  {
  }

  lemma WorkKeepsClosing(s: Machine, i: nat, choice: Choice)
    requires i < |s.threads| && i < |s.jobs| && ClosingPhase(s.threads[i].phase)
    ensures i < |Runner.Work(s, i, choice).threads| && ClosingPhase(Runner.Work(s, i, choice).threads[i].phase)
  {
    hide BoundUpdate;
  }

  lemma ConcludeKeepsClosing(s: Machine, i: nat)
    requires i < |s.threads| && i < |s.jobs| && ClosingPhase(s.threads[i].phase)
    ensures i < |Conclude(s, i).threads| && ClosingPhase(Conclude(s, i).threads[i].phase)
  {
    hide BoundUpdate;
    hide UpdateJob;
  }

  lemma StepKeepsClosing(lim: Limits, s: Machine, a: Action)
    requires Shaped(s) && Closing(s) && Enabled(lim, s, a)
    ensures Closing(Step(lim, s, a))
  {
    if a.Run? {
      ThreadKeepsClosing(lim, s, a.id, a.choice);
      RankFalls(lim, s, a.id, a.choice);
      hide RunStep;
    }
  }

  ghost predicate Sound(lim: Limits, s: Machine) {
    Inv(lim, s) && Closing(s)
  }

  lemma StepKeepsSound(lim: Limits, s: Machine, a: Action)
    requires Sound(lim, s) && Enabled(lim, s, a)
    ensures Sound(lim, Step(lim, s, a))
  {
    StepKeepsInv(lim, s, a);
    StepKeepsClosing(lim, s, a);
  }

  lemma {:induction false} AlwaysSound(lim: Limits, s: Machine, acts: seq<Action>)
    requires Sound(lim, s) && Possible(lim, s, acts)
    ensures Sound(lim, After(lim, s, acts))
    decreases |acts|
  {
    if acts != [] {
      StepKeepsSound(lim, s, acts[0]);
      hide Sound;
      hide Step;
      AlwaysSound(lim, Step(lim, s, acts[0]), acts[1..]);
    }
  }

  // ---------- when a closed row stays closed ----------

  /** The row is closed, and its run is past its last mark, cut off, or yet to look at it. */
  predicate Sealed(s: Machine, j: nat)
    requires j < |s.jobs| == |s.threads|
  {
    var t := s.threads[j];
    && !Alive(s, j)
    && (t.cancelled || Rank(t.phase) <= 10 || (Rank(t.phase) >= 16 && Skipped(s.jobs[j].status)))
  }

  lemma SealedThread(lim: Limits, s: Machine, j: nat, choice: Choice)
    requires Sound(lim, s) && CanRun(lim, s, j) && Sealed(s, j)
    ensures var e := RunStep(s, j, choice);
            j < |e.jobs| == |e.threads| && Sealed(e, j)
  {
    RunWakes(lim, s, j, choice);
    RankFalls(lim, s, j, choice);
    assert !Wakes(s, Run(j, choice), j);
    CutOffStays(lim, s, j, choice);
  }

  lemma CutOffStays(lim: Limits, s: Machine, j: nat, choice: Choice)
    requires Shaped(s) && CanRun(lim, s, j)
    ensures var e := RunStep(s, j, choice);
            && j < |e.threads| && (s.threads[j].cancelled ==> e.threads[j].cancelled)
            && (Rank(s.threads[j].phase) >= 16 && Skipped(s.jobs[j].status) ==>
                  e.jobs == s.jobs && (Rank(e.threads[j].phase) >= 16 || Rank(e.threads[j].phase) <= 10))
  {
    hide Occupied;
    hide UpdateJob;
  }

  lemma SealedStep(lim: Limits, s: Machine, a: Action, j: nat)
    requires Sound(lim, s) && Enabled(lim, s, a) && j < |s.jobs| && Sealed(s, j)
    ensures var e := Step(lim, s, a); j < |e.jobs| == |e.threads| && Sealed(e, j)
  {
    StepKeepsSound(lim, s, a);
    if a.Run? && a.id == j {
      SealedThread(lim, s, j, a.choice);
    } else {
      OtherStep(lim, s, a, j);
      OnlyMarksWake(lim, s, a, j);
    }
    hide Step;
    hide Inv;
    hide Closing;
  }

  /** A step that is not the run's own leaves its thread alone, or cuts it off. */
  lemma OtherStep(lim: Limits, s: Machine, a: Action, j: nat)
    requires Sound(lim, s) && Enabled(lim, s, a) && j < |s.jobs| && !(a.Run? && a.id == j)
    ensures var e := Step(lim, s, a);
            && j < |e.threads| && j < |e.jobs|
            && (e.threads[j] == s.threads[j] || e.threads[j] == s.threads[j].(cancelled := true))
            && (e.jobs[j] == s.jobs[j] || Skipped(e.jobs[j].status))
  {
    match a
    case Run(i, choice) =>
      RunRows(lim, s, i, choice, j);
      RankFalls(lim, s, i, choice);
      hide RunStep;
    case Close(c) => CloseRows(lim, s, c, j);
    case Advance =>
    case _ =>
  }

  lemma {:induction false} SealedForever(lim: Limits, s: Machine, acts: seq<Action>, j: nat)
    requires Sound(lim, s) && Possible(lim, s, acts) && j < |s.jobs| && Sealed(s, j)
    ensures var e := After(lim, s, acts); j < |e.jobs| && !Alive(e, j)
    decreases |acts|
  {
    if acts != [] {
      StepKeepsSound(lim, s, acts[0]);
      SealedStep(lim, s, acts[0], j);
      hide Sound;
      hide Step;
      hide Sealed;
      SealedForever(lim, Step(lim, s, acts[0]), acts[1..], j);
    }
  }

  // ---------- no resurrection ----------

  lemma {:induction false} CutOffForever(lim: Limits, s: Machine, acts: seq<Action>, j: nat)
    requires Sound(lim, s) && Possible(lim, s, acts) && j < |s.jobs| && s.threads[j].cancelled
    ensures var e := After(lim, s, acts); j < |e.jobs| == |e.threads| && e.threads[j].cancelled
    decreases |acts|
  {
    if acts != [] {
      var a := acts[0];
      StepKeepsSound(lim, s, a);
      if a.Run? && a.id == j {
        CutOffStays(lim, s, j, a.choice);
      } else {
        OtherStep(lim, s, a, j);
      }
      assert Shaped(Step(lim, s, a));
      hide Sound;
      hide Step;
      CutOffForever(lim, Step(lim, s, a), acts[1..], j);
    }
  }

  /**
   Once Cancel or KillStale finds the registered cancel function, then whenever the
   row is closed it stays closed, whatever the runs, other calls and enqueues do.
   */
  lemma NoResurrection(lim: Limits, s: Machine, c: nat, first: seq<Action>, later: seq<Action>)
    requires Sound(lim, s) && Enabled(lim, s, Fire(c)) && s.calls[c].id in s.cancels
    requires Possible(lim, FireStep(s, c), first)
    requires Possible(lim, After(lim, FireStep(s, c), first), later)
    ensures var j, mid := s.calls[c].id, After(lim, FireStep(s, c), first);
            var e := After(lim, mid, later);
            j < |mid.jobs| && j < |e.jobs| && (Alive(e, j) ==> Alive(mid, j))
  {
    var j := s.calls[c].id;
    var fired := FireStep(s, c);
    StepKeepsSound(lim, s, Fire(c));
    assert fired == Step(lim, s, Fire(c)) && fired.threads[j].cancelled && j < |fired.jobs|;
    CutOffForever(lim, fired, first, j);
    AlwaysSound(lim, fired, first);
    var mid := After(lim, fired, first);
    CutOffForever(lim, mid, later, j);
    if !Alive(mid, j) {
      SealedForever(lim, mid, later, j);
    }
  }

  // ---------- exactly when a cancellation is lost ----------

  /** A cancel call that nothing interrupts. */
  function CancelActs(s: Machine, j: nat): seq<Action> {
    [Ask(j, false), Fire(|s.calls|), Close(|s.calls|)]
  }

  /** What it leaves: the row closed, and the context cancelled if it was registered. */
  function CancelledNow(s: Machine, j: nat): Machine
    requires j < |s.jobs| == |s.threads|
  {
    s.(calls := s.calls + [Call(j, false, s.jobs[j].kind, Closed)],
       threads := if j in s.cancels then s.threads[j := s.threads[j].(cancelled := true)] else s.threads,
       jobs := s.jobs[j := s.jobs[j].(status := Cancelled)])
  }

  lemma CancelRun(lim: Limits, s: Machine, j: nat)
    requires Sound(lim, s) && j < |s.jobs| && Alive(s, j)
    ensures Possible(lim, s, CancelActs(s, j)) && After(lim, s, CancelActs(s, j)) == CancelledNow(s, j)
    ensures Sound(lim, CancelledNow(s, j))
  {
    var n := |s.calls|;
    var asked := AskStep(s, j, false);
    assert asked.calls[n] == Call(j, false, s.jobs[j].kind, Firing);
    var fired := FireStep(asked, n);
    assert fired.calls == s.calls + [Call(j, false, s.jobs[j].kind, Runner.Closing)];
    var closed := CloseStep(fired, n);
    assert closed.calls == CancelledNow(s, j).calls;
    assert closed == CancelledNow(s, j);
    StepKeepsSound(lim, s, Ask(j, false));
    StepKeepsSound(lim, asked, Fire(n));
    StepKeepsSound(lim, fired, Close(n));
    ThreeSteps(lim, s, Ask(j, false), Fire(n), Close(n));
  }

  lemma ThreeSteps(lim: Limits, s: Machine, a: Action, b: Action, c: Action)
    requires Enabled(lim, s, a) && Enabled(lim, Step(lim, s, a), b) && Enabled(lim, Step(lim, Step(lim, s, a), b), c)
    ensures Possible(lim, s, [a, b, c]) && After(lim, s, [a, b, c]) == Step(lim, Step(lim, Step(lim, s, a), b), c)
  {
    hide Step;
    hide Enabled;
    var one := Step(lim, s, a);
    var last := Prepend(lim, Step(lim, one, b), c, []);
    var rest := Prepend(lim, one, b, last);
    var all := Prepend(lim, s, a, rest);
    assert all == [a, b, c];
  }

  /** Between the second look at the row and the registration of its cancel function. */
  predicate Unreachable(p: Phase) {
    p == WantGate || p == Registering
  }

  lemma CancelSeals(lim: Limits, s: Machine, j: nat)
    requires Sound(lim, s) && j < |s.jobs| && !Unreachable(s.threads[j].phase)
    ensures Sealed(CancelledNow(s, j), j)
  {
    assert Registered(s.threads[j]) ==> j in s.cancels;
  }

  /** Everything but thread and row `k` is as before. */
  predicate Alike(s: Machine, e: Machine, k: nat)
    requires k < |s.jobs| == |s.threads|
  {
    && |e.jobs| == |s.jobs| && |e.threads| == |s.threads|
    && e.threads == s.threads[k := e.threads[k]] && e.jobs == s.jobs[k := e.jobs[k]] && e.jobs[k].lane == s.jobs[k].lane
  }

  /** A run that will close its row if it fails now. */
  predicate Tame(s: Machine, k: nat)
    requires k < |s.jobs| == |s.threads|
  {
    var p := s.threads[k].phase;
    Alive(s, k) ==> p == Locking || p == Opening || p == Body || p == Failing || p == Cancelling || (p.Writing? && !p.bound)
  }

  lemma FailingStep(lim: Limits, s: Machine, k: nat)
    requires Sound(lim, s) && k < |s.threads| && HoldsGate(s.threads[k]) && Tame(s, k)
    ensures CanRun(lim, s, k)
    ensures var e := RunStep(s, k, Stop(false));
            && Alike(s, e, k) && Tame(e, k)
            && (if s.threads[k].phase == LeavingGate then e.gates == s.gates - {s.jobs[k].lane} && !Alive(e, k)
                else e.gates == s.gates && HoldsGate(e.threads[k]))
  {
    assert ClosingPhase(s.threads[k].phase);
    hide Inv;
    if Rank(s.threads[k].phase) >= 10 {
      FailingWork(s, k);
    } else {
      FailingConclude(s, k);
    }
  }

  lemma FailingWork(s: Machine, k: nat)
    requires k < |s.jobs| == |s.threads| && 10 <= Rank(s.threads[k].phase) <= 14 && Tame(s, k)
    ensures var e := Runner.Work(s, k, Stop(false));
            Alike(s, e, k) && Tame(e, k) && e.gates == s.gates && HoldsGate(e.threads[k])
  {
    hide Occupied;
  }

  lemma FailingConclude(s: Machine, k: nat)
    requires k < |s.jobs| == |s.threads| && 3 <= Rank(s.threads[k].phase) <= 9 && Tame(s, k)
    requires ClosingPhase(s.threads[k].phase)
    ensures var e := Conclude(s, k);
            && Alike(s, e, k) && Tame(e, k)
            && (if s.threads[k].phase == LeavingGate then e.gates == s.gates - {s.jobs[k].lane} && !Alive(e, k)
                else e.gates == s.gates && HoldsGate(e.threads[k]))
  {
    hide Occupied;
  }

  /** The holder of a gate can be made to leave it with its row closed. */
  lemma {:induction false} DriveOut(lim: Limits, s: Machine, k: nat) returns (acts: seq<Action>)
    requires Sound(lim, s) && k < |s.threads| && HoldsGate(s.threads[k]) && Tame(s, k)
    ensures OnlyRuns(acts) && Possible(lim, s, acts)
    ensures var e := After(lim, s, acts);
            Sound(lim, e) && Alike(s, e, k) && !Alive(e, k) && e.gates == s.gates - {s.jobs[k].lane}
    decreases Rank(s.threads[k].phase)
  {
    var a := Run(k, Stop(false));
    var e := RunStep(s, k, Stop(false));
    FailingStep(lim, s, k);
    RankFalls(lim, s, k, Stop(false));
    StepKeepsSound(lim, s, a);
    hide RunStep;
    hide Sound;
    hide Tame;
    hide Possible;
    if s.threads[k].phase == LeavingGate {
      acts := Prepend(lim, s, a, []);
    } else {
      var rest := DriveOut(lim, e, k);
      hide After;
      acts := Prepend(lim, s, a, rest);
      AlikeOn(s, e, After(lim, e, rest), k);
    }
  }

  lemma AlikeOn(s: Machine, m: Machine, e: Machine, k: nat)
    requires k < |s.jobs| == |s.threads| && Alike(s, m, k) && Alike(m, e, k)
    ensures Alike(s, e, k)
  {
  }

  /** From the registration on, the row is marked running again. */
  lemma MarkAgain(lim: Limits, s: Machine, j: nat) returns (acts: seq<Action>)
    requires Sound(lim, s) && j < |s.threads| && s.threads[j].phase == Registering
    requires !Occupied(s.jobs, s.jobs[j].lane, j)
    ensures OnlyRuns(acts) && Possible(lim, s, acts) && j < |After(lim, s, acts).jobs| && Alive(After(lim, s, acts), j)
  {
    hide Occupied;
    var a := Run(j, Go);
    var registered := Step(lim, s, a);
    assert !s.threads[j].cancelled;
    var marked := Step(lim, registered, a);
    assert marked.jobs[j].status == Running;
    hide Step;
    acts := Prepend(lim, registered, a, []);
    acts := Prepend(lim, s, a, acts);
  }

  lemma MarkFromGate(lim: Limits, s: Machine, j: nat) returns (acts: seq<Action>)
    requires Sound(lim, s) && j < |s.threads| && s.threads[j].phase == WantGate && s.jobs[j].lane !in s.gates
    requires !Occupied(s.jobs, s.jobs[j].lane, j)
    ensures OnlyRuns(acts) && Possible(lim, s, acts) && j < |After(lim, s, acts).jobs| && Alive(After(lim, s, acts), j)
  {
    var a := Run(j, Go);
    assert Enabled(lim, s, a);
    var inside := Step(lim, s, a);
    StepKeepsSound(lim, s, a);
    assert inside.threads[j].phase == Registering && inside.jobs == s.jobs;
    hide Step;
    hide Sound;
    acts := MarkAgain(lim, inside, j);
    acts := Prepend(lim, s, a, acts);
  }

  lemma GateHolder(lim: Limits, s: Machine, lane: Lane) returns (k: nat)
    requires Sound(lim, s) && lane in s.gates
    ensures k < |s.threads| == |s.jobs| && HoldsGate(s.threads[k]) && s.jobs[k].lane == lane
  {
    k :| 0 <= k < |s.threads| && HoldsGate(s.threads[k]) && s.jobs[k].lane == lane;
  }

  lemma StillFree(s: Machine, e: Machine, k: nat, j: nat)
    requires k < |s.jobs| == |s.threads| && j < |s.jobs| && k != j && Alike(s, e, k) && !Alive(e, k)
    requires !Occupied(s.jobs, s.jobs[j].lane, j)
    ensures !Occupied(e.jobs, e.jobs[j].lane, j)
  {
    forall i | 0 <= i < |e.jobs| && i != j && e.jobs[i].lane == e.jobs[j].lane ensures !Active(e.jobs[i].status) {
      if i != k {
        assert s.jobs[i] == e.jobs[i];
      }
    }
  }

  lemma MarkWhileWaiting(lim: Limits, s: Machine, j: nat) returns (acts: seq<Action>)
    requires Sound(lim, s) && j < |s.threads| && Unreachable(s.threads[j].phase)
    requires !Occupied(s.jobs, s.jobs[j].lane, j)
    ensures OnlyRuns(acts) && Possible(lim, s, acts) && j < |After(lim, s, acts).jobs| && Alive(After(lim, s, acts), j)
  {
    if s.threads[j].phase == Registering {
      acts := MarkAgain(lim, s, j);
    } else if s.jobs[j].lane !in s.gates {
      acts := MarkFromGate(lim, s, j);
    } else {
      var k := GateHolder(lim, s, s.jobs[j].lane);
      assert k != j && !Alive(s, k);
      var out := DriveOut(lim, s, k);
      var e := After(lim, s, out);
      StillFree(s, e, k, j);
      var rest := MarkFromGate(lim, e, j);
      acts := out + rest;
      Chained(lim, s, out, rest);
    }
  }

  lemma {:induction false} Chained(lim: Limits, s: Machine, a: seq<Action>, b: seq<Action>)
    requires Possible(lim, s, a) && Possible(lim, After(lim, s, a), b)
    ensures Possible(lim, s, a + b) && After(lim, s, a + b) == After(lim, After(lim, s, a), b)
    decreases |a|
  {
    hide Enabled;
    if a == [] {
      assert a + b == b;
    } else {
      hide Step;
      Chained(lim, Step(lim, s, a[0]), a[1..], b);
      assert (a + b)[1..] == a[1..] + b;
    }
  }

  ghost predicate StaysClosed(lim: Limits, s: Machine, j: nat) {
    forall acts :: Possible(lim, s, acts) ==>
      var e := After(lim, s, acts); j < |e.jobs| && !Active(e.jobs[j].status)
  }

  lemma CancelLost(lim: Limits, s: Machine, j: nat)
    requires Sound(lim, s) && j < |s.jobs| && Alive(s, j) && Unreachable(s.threads[j].phase)
    requires Sound(lim, CancelledNow(s, j))
    ensures !StaysClosed(lim, CancelledNow(s, j), j)
  {
    assert j !in s.cancels && OneActive(s.jobs);
    var e := CancelledNow(s, j);
    CancelledLane(s, j);
    hide Sound;
    hide Occupied;
    var acts := MarkWhileWaiting(lim, e, j);
  }

  lemma CancelFinal(lim: Limits, s: Machine, j: nat)
    requires Sound(lim, s) && j < |s.jobs| && !Unreachable(s.threads[j].phase)
    requires Sound(lim, CancelledNow(s, j))
    ensures StaysClosed(lim, CancelledNow(s, j), j)
  {
    CancelSeals(lim, s, j);
    var e := CancelledNow(s, j);
    hide Sound;
    hide Sealed;
    forall acts | Possible(lim, e, acts)
      ensures j < |After(lim, e, acts).jobs| && !Active(After(lim, e, acts).jobs[j].status)
    {
      SealedForever(lim, e, acts, j);
    }
  }

  /**
   Cancelling an active job is final exactly if its run is not between its second
   look at the row and the registration of its cancel function.
   */
  lemma CancelIsFinalIff(lim: Limits, s: Machine, j: nat)
    requires Sound(lim, s) && j < |s.jobs| && Alive(s, j)
    ensures Possible(lim, s, CancelActs(s, j))
    ensures StaysClosed(lim, After(lim, s, CancelActs(s, j)), j) <==> !Unreachable(s.threads[j].phase)
  {
    CancelRun(lim, s, j);
    hide StaysClosed;
    hide CancelledNow;
    if Unreachable(s.threads[j].phase) {
      CancelLost(lim, s, j);
    } else {
      CancelFinal(lim, s, j);
    }
  }

  lemma CancelledLane(s: Machine, j: nat)
    requires j < |s.jobs| == |s.threads| && OneActive(s.jobs) && Alive(s, j)
    ensures var e := CancelledNow(s, j); !Occupied(e.jobs, e.jobs[j].lane, j)
  {
    var e := CancelledNow(s, j);
    forall i | 0 <= i < |e.jobs| && i != j && e.jobs[i].lane == e.jobs[j].lane ensures !Active(e.jobs[i].status) {
      assert !Pair(s.jobs, i, j);
    }
  }

  /** A runner with one queued job of the lane, its thread at `phase`. */
  function Lone(lane: Lane, phase: Phase, used: int): Machine {
    START.(jobs := [Job(lane, Incremental, Queued)], threads := [Thread(phase, false, Incremental, false, false)], used := used)
  }

  lemma LoneJob(lim: Limits, lane: Lane) returns (acts: seq<Action>)
    ensures Possible(lim, START, acts) && After(lim, START, acts) == Lone(lane, Spawned, 0)
  {
    var one := START.(enqueue := CheckingLane(lane, Incremental));
    var two := START.(enqueue := CheckingFull(lane, Incremental));
    var three := START.(enqueue := Creating(lane, Incremental));
    assert Step(lim, START, Begin(lane, Incremental)) == one;
    assert Step(lim, one, Advance) == two && Step(lim, two, Advance) == three;
    assert Step(lim, three, Advance) == Lone(lane, Spawned, 0);
    hide Step;
    acts := Prepend(lim, three, Advance, []);
    acts := Prepend(lim, two, Advance, acts);
    acts := Prepend(lim, one, Advance, acts);
    acts := Prepend(lim, START, Begin(lane, Incremental), acts);
  }

  lemma LoneRun(lim: Limits, lane: Lane) returns (acts: seq<Action>)
    requires lim.slots >= 1
    ensures Possible(lim, Lone(lane, Spawned, 0), acts)
    ensures After(lim, Lone(lane, Spawned, 0), acts) == Lone(lane, WantGate, 1)
  {
    var a := Run(0, Go);
    assert Step(lim, Lone(lane, Spawned, 0), a) == Lone(lane, WantSlot, 0);
    assert Step(lim, Lone(lane, WantSlot, 0), a) == Lone(lane, Reloading, 1);
    assert Step(lim, Lone(lane, Reloading, 1), a) == Lone(lane, WantGate, 1);
    assert Enabled(lim, Lone(lane, WantSlot, 0), a);
    hide Step;
    acts := Prepend(lim, Lone(lane, Reloading, 1), a, []);
    acts := Prepend(lim, Lone(lane, WantSlot, 0), a, acts);
    acts := Prepend(lim, Lone(lane, Spawned, 0), a, acts);
  }

  /** Lost cancellations happen, for every tenant and service, with a single job around. */
  lemma CancelCanBeLost(lim: Limits, lane: Lane) returns (acts: seq<Action>)
    requires lim.slots >= 1
    ensures Possible(lim, START, acts)
    ensures var s := After(lim, START, acts);
            && |s.jobs| == |s.threads| == 1 && Alive(s, 0) && Possible(lim, s, CancelActs(s, 0))
            && !StaysClosed(lim, After(lim, s, CancelActs(s, 0)), 0)
  {
    var first := LoneJob(lim, lane);
    var rest := LoneRun(lim, lane);
    acts := first + rest;
    Chained(lim, START, first, rest);
    assert Sound(lim, START);
    AlwaysSound(lim, START, acts);
    CancelIsFinalIff(lim, Lone(lane, WantGate, 1), 0);
  }
}
