/**
 Closed rows, whatever closed them: exactly when one can become active again, and
 exactly when a full job past its first check may still be refused with its delta
 links gone.
 */
module RunnerClosed {
  import opened Runner
  import opened RunnerSafety
  import opened RunnerProgress
  import opened RunnerCancel
  import opened RunnerAdmission

  // ---------- rows of runs that have not marked them yet ----------

  predicate NotBegun(status: Status) {
    status == Queued || Skipped(status)
  }

  /** Until its run marks it, a row is queued, cancelled or failed. */
  ghost predicate Unmarked(s: Machine) {
    forall i :: 0 <= i < |s.threads| && i < |s.jobs| && Rank(s.threads[i].phase) >= 13 ==> NotBegun(s.jobs[i].status)
  }

  lemma RunKeepsUnmarked(lim: Limits, s: Machine, i: nat, choice: Choice)
    requires CanRun(lim, s, i) && (Rank(s.threads[i].phase) >= 13 ==> NotBegun(s.jobs[i].status))
    ensures var e := RunStep(s, i, choice);
            i < |e.threads| && i < |e.jobs| && (Rank(e.threads[i].phase) >= 13 ==> NotBegun(e.jobs[i].status))
  {
    RankFalls(lim, s, i, choice);
    if Rank(s.threads[i].phase) < 14 {
      hide RunStep;
    } else {
      hide Conclude;
    }
  }

  lemma StepKeepsUnmarked(lim: Limits, s: Machine, a: Action)
    requires Sound(lim, s) && Unmarked(s) && Enabled(lim, s, a)
    ensures Unmarked(Step(lim, s, a))
  {
    var e := Step(lim, s, a);
    forall i | 0 <= i < |e.threads| && i < |e.jobs| && Rank(e.threads[i].phase) >= 13 ensures NotBegun(e.jobs[i].status) {
      if i < |s.jobs| {
        if a.Run? && a.id == i {
          RunKeepsUnmarked(lim, s, i, a.choice);
        } else {
          OtherStep(lim, s, a, i);
        }
      }
    }
  }

  lemma {:induction false} StaysUnmarked(lim: Limits, s: Machine, acts: seq<Action>)
    requires Sound(lim, s) && Unmarked(s) && Possible(lim, s, acts)
    ensures Unmarked(After(lim, s, acts))
    decreases |acts|
  {
    if acts != [] {
      StepKeepsSound(lim, s, acts[0]);
      StepKeepsUnmarked(lim, s, acts[0]);
      hide Sound;
      hide Unmarked;
      hide Step;
      StaysUnmarked(lim, Step(lim, s, acts[0]), acts[1..]);
    }
  }

  /** Together with soundness, what the lemmas below assume holds in every reachable state. */
  lemma ReachableIsUnmarked(lim: Limits, acts: seq<Action>)
    requires Possible(lim, START, acts)
    ensures Unmarked(After(lim, START, acts))
  {
    StartIsSound(lim);
    StaysUnmarked(lim, START, acts);
  }

  // ---------- runs that may still wake their row ----------

  predicate CanPromote(s: Machine, j: nat)
    requires j < |s.jobs| == |s.threads|
  {
    s.threads[j].kind != Full && s.jobs[j].lane.service != "pst"
  }

  /** The run is between its second look and its mark, or at a promotion it may still make, and not cut off. */
  predicate MayWake(s: Machine, j: nat)
    requires j < |s.jobs| == |s.threads|
  {
    var t := s.threads[j];
    && !t.cancelled
    && (13 <= Rank(t.phase) <= 15 || ((t.phase == Locking || t.phase == Opening) && CanPromote(s, j)))
  }

  /** A closed row whose run will not wake it, and has not come to look at it without seeing it closed. */
  predicate Settled(s: Machine, j: nat)
    requires j < |s.jobs| == |s.threads|
  {
    !Alive(s, j) && !MayWake(s, j) && (Rank(s.threads[j].phase) >= 16 ==> Skipped(s.jobs[j].status))
  }

  lemma RunKeepsSettled(lim: Limits, s: Machine, j: nat, choice: Choice)
    requires Sound(lim, s) && CanRun(lim, s, j) && Settled(s, j)
    ensures var e := RunStep(s, j, choice); j < |e.jobs| == |e.threads| && Settled(e, j)
  {
    hide RunStep;
    hide Inv;
    hide RunnerCancel.Closing;
    assert Shaped(s) && RunnerCancel.Closing(s) by { SoundParts(lim, s); }
    RunWakes(lim, s, j, choice);
    RankFalls(lim, s, j, choice);
    CutOffStays(lim, s, j, choice);
    if Rank(s.threads[j].phase) == 12 {
      LockKeepsKind(s, j, choice);
    }
    RunKeepsLanes(lim, s, j, choice);
  }

  lemma SoundParts(lim: Limits, s: Machine)
    requires Sound(lim, s)
    ensures Shaped(s) && RunnerCancel.Closing(s)
  {
  }

  lemma RunKeepsLanes(lim: Limits, s: Machine, j: nat, choice: Choice)
    requires CanRun(lim, s, j)
    ensures |RunStep(s, j, choice).jobs| == |s.jobs| && RunStep(s, j, choice).jobs[j].lane == s.jobs[j].lane
  {
    RunShape(lim, s, j, choice, j);
  }

  lemma LockKeepsKind(s: Machine, j: nat, choice: Choice)
    requires j < |s.jobs| == |s.threads| && s.threads[j].phase == Locking
    ensures var e := RunStep(s, j, choice);
            j < |e.jobs| && j < |e.threads| && e.jobs == s.jobs && e.threads[j].kind == s.threads[j].kind
  {
  }

  lemma StepKeepsSettled(lim: Limits, s: Machine, a: Action, j: nat)
    requires Sound(lim, s) && Enabled(lim, s, a) && j < |s.jobs| && Settled(s, j)
    ensures var e := Step(lim, s, a); j < |e.jobs| == |e.threads| && Settled(e, j)
  {
    StepKeepsSound(lim, s, a);
    if a.Run? && a.id == j {
      RunKeepsSettled(lim, s, j, a.choice);
    } else {
      OtherStep(lim, s, a, j);
      LaneKept(lim, s, a, j);
      OnlyMarksWake(lim, s, a, j);
    }
    hide Step;
    hide Inv;
    hide RunnerCancel.Closing;
  }

  lemma LaneKept(lim: Limits, s: Machine, a: Action, j: nat)
    requires Sound(lim, s) && Enabled(lim, s, a) && j < |s.jobs|
    ensures j < |Step(lim, s, a).jobs| && Step(lim, s, a).jobs[j].lane == s.jobs[j].lane
  {
    if Background(a) {
      StepShape(lim, s, a);
    }
  }

  lemma {:induction false} SettledForever(lim: Limits, s: Machine, acts: seq<Action>, j: nat)
    requires Sound(lim, s) && Possible(lim, s, acts) && j < |s.jobs| && Settled(s, j)
    ensures var e := After(lim, s, acts); j < |e.jobs| == |e.threads| && Settled(e, j)
    decreases |acts|
  {
    if acts != [] {
      StepKeepsSound(lim, s, acts[0]);
      StepKeepsSettled(lim, s, acts[0], j);
      hide Sound;
      hide Step;
      hide Settled;
      SettledForever(lim, Step(lim, s, acts[0]), acts[1..], j);
    }
  }

  // ---------- waking a row ----------

  lemma MarkNow(lim: Limits, s: Machine, j: nat) returns (acts: seq<Action>)
    requires Sound(lim, s) && j < |s.threads| && s.threads[j].phase == Marking && !s.threads[j].cancelled
    requires !Occupied(s.jobs, s.jobs[j].lane, j)
    ensures OnlyRuns(acts) && Possible(lim, s, acts) && j < |After(lim, s, acts).jobs| && Alive(After(lim, s, acts), j)
  {
    hide Occupied;
    var a := Run(j, Go);
    assert Step(lim, s, a).jobs[j].status == Running;
    hide Step;
    acts := Prepend(lim, s, a, []);
  }

  lemma PromoteNow(lim: Limits, s: Machine, j: nat) returns (acts: seq<Action>)
    requires j < |s.jobs| == |s.threads| && s.threads[j].phase == Opening && !s.threads[j].cancelled && CanPromote(s, j)
    requires !Occupied(s.jobs, s.jobs[j].lane, j)
    ensures OnlyRuns(acts) && Possible(lim, s, acts) && j < |After(lim, s, acts).jobs| && Alive(After(lim, s, acts), j)
  {
    hide Occupied;
    var a := Run(j, Promote);
    assert Step(lim, s, a).jobs[j].status == Running;
    hide Step;
    acts := Prepend(lim, s, a, []);
  }

  lemma LockAndPromote(lim: Limits, s: Machine, j: nat) returns (acts: seq<Action>)
    requires Sound(lim, s) && j < |s.threads| && s.threads[j].phase == Locking && !s.threads[j].cancelled
    requires CanPromote(s, j) && !Occupied(s.jobs, s.jobs[j].lane, j)
    ensures OnlyRuns(acts) && Possible(lim, s, acts) && j < |After(lim, s, acts).jobs| && Alive(After(lim, s, acts), j)
  {
    FileLockIsFree(lim, s, j);
    hide Occupied;
    var a := Run(j, Go);
    var e := Step(lim, s, a);
    assert e.jobs == s.jobs && |e.threads| == |s.threads| && e.threads[j] == s.threads[j].(phase := Opening, locked := true);
    hide Step;
    acts := PromoteNow(lim, e, j);
    acts := Prepend(lim, s, a, acts);
  }

  /** In a free lane a run that may wake its row can do so by steps of runs alone. */
  lemma WakeNow(lim: Limits, s: Machine, j: nat) returns (acts: seq<Action>)
    requires Sound(lim, s) && j < |s.jobs| && MayWake(s, j) && !Occupied(s.jobs, s.jobs[j].lane, j)
    ensures OnlyRuns(acts) && Possible(lim, s, acts) && j < |After(lim, s, acts).jobs| && Alive(After(lim, s, acts), j)
  {
    hide Possible;
    hide After;
    hide Occupied;
    match s.threads[j].phase
    case Marking => acts := MarkNow(lim, s, j);
    case Locking => acts := LockAndPromote(lim, s, j);
    case Opening => acts := PromoteNow(lim, s, j);
    case _ => acts := MarkWhileWaiting(lim, s, j);
  }

  /** Another active row of the lane can be cancelled out of the way. */
  lemma FreeLane(lim: Limits, s: Machine, j: nat) returns (acts: seq<Action>)
    requires Sound(lim, s) && j < |s.jobs| && !Alive(s, j)
    ensures Possible(lim, s, acts)
    ensures var e := After(lim, s, acts);
            && Sound(lim, e) && j < |e.jobs| == |e.threads| && e.jobs[j] == s.jobs[j] && e.threads[j] == s.threads[j]
            && !Occupied(e.jobs, e.jobs[j].lane, j)
  {
    if Occupied(s.jobs, s.jobs[j].lane, j) {
      var i :| 0 <= i < |s.jobs| && i != j && s.jobs[i].lane == s.jobs[j].lane && Active(s.jobs[i].status);
      CancelRun(lim, s, i);
      acts := CancelActs(s, i);
      OthersClosed(s, i, j);
    } else {
      acts := [];
    }
  }

  lemma OthersClosed(s: Machine, i: nat, j: nat)
    requires j < |s.jobs| == |s.threads| && i < |s.jobs| && i != j && OneActive(s.jobs)
    requires s.jobs[i].lane == s.jobs[j].lane && Alive(s, i) && !Alive(s, j)
    ensures var e := CancelledNow(s, i); !Occupied(e.jobs, e.jobs[j].lane, j)
  {
    var e := CancelledNow(s, i);
    forall k | 0 <= k < |e.jobs| && k != j && e.jobs[k].lane == e.jobs[j].lane ensures !Active(e.jobs[k].status) {
      assert !Pair(s.jobs, i, k);
    }
  }

  lemma CanComeBack(lim: Limits, s: Machine, j: nat)
    requires Sound(lim, s) && j < |s.jobs| && !Alive(s, j) && MayWake(s, j)
    ensures !StaysClosed(lim, s, j)
  {
    hide Possible;
    hide After;
    hide Sound;
    hide Occupied;
    var first := FreeLane(lim, s, j);
    assert MayWake(After(lim, s, first), j);
    var rest := WakeNow(lim, After(lim, s, first), j);
    Chained(lim, s, first, rest);
  }

  /**
   A closed row, whether Cancel, KillStale or its run closed it and whatever happened in
   between, stays closed in every continuation exactly if its run is not on its way from
   its second look to its mark, nor before a promotion it may still make, or is cut off.
   */
  lemma StaysClosedIff(lim: Limits, s: Machine, j: nat)
    requires Sound(lim, s) && Unmarked(s) && j < |s.jobs| && !Alive(s, j)
    ensures StaysClosed(lim, s, j) <==> !MayWake(s, j)
  {
    if MayWake(s, j) {
      CanComeBack(lim, s, j);
    } else {
      assert Settled(s, j);
      hide Sound;
      hide Unmarked;
      forall acts | Possible(lim, s, acts)
        ensures j < |After(lim, s, acts).jobs| && !Active(After(lim, s, acts).jobs[j].status)
      {
        SettledForever(lim, s, acts, j);
      }
    }
  }

  // ---------- delta links at risk ----------

  /** In some continuation of the call its links are deleted and it is then refused. */
  ghost predicate LinksAtRisk(lim: Limits, checked: Machine) {
    exists b, c ::
      && BackgroundRun(lim, checked, b)
      && BackgroundRun(lim, EnqueueStep(After(lim, checked, b)), c)
      && var last := After(lim, EnqueueStep(After(lim, checked, b)), c);
         last.enqueue.Creating? && Refused(last, EnqueueStep(last))
  }

  lemma RunsAreBackground(lim: Limits, s: Machine, acts: seq<Action>)
    requires OnlyRuns(acts) && Possible(lim, s, acts)
    ensures BackgroundRun(lim, s, acts)
  {
  }

  lemma RiskFromWake(lim: Limits, checked: Machine, lane: Lane, j: nat)
    requires Sound(lim, checked) && Copied(checked) && checked.enqueue == Clearing(lane, Full) && !AnyActive(checked.jobs, lane)
    requires j < |checked.jobs| && checked.jobs[j].lane == lane && MayWake(checked, j)
    ensures LinksAtRisk(lim, checked)
  {
    assert !Occupied(checked.jobs, lane, j);
    var cleared := EnqueueStep(checked);
    AdvanceSound(lim, checked);
    assert cleared.jobs == checked.jobs && cleared.threads == checked.threads && MayWake(cleared, j);
    hide Sound;
    hide Copied;
    hide Occupied;
    hide Possible;
    hide After;
    hide LinksAtRisk;
    var c := WakeNow(lim, cleared, j);
    RunsAreBackground(lim, cleared, c);
    hide BackgroundRun;
    RunKeepsShape(lim, cleared, c);
    var last := After(lim, cleared, c);
    assert last.jobs[j].lane == lane && AnyActive(last.jobs, lane);
    RiskWitness(lim, checked, lane, c);
  }

  lemma RiskWitness(lim: Limits, checked: Machine, lane: Lane, c: seq<Action>)
    requires checked.enqueue == Clearing(lane, Full) && BackgroundRun(lim, EnqueueStep(checked), c)
    requires var last := After(lim, EnqueueStep(checked), c); last.enqueue == Creating(lane, Full) && AnyActive(last.jobs, lane)
    ensures LinksAtRisk(lim, checked)
  {
    hide AnyActive;
    var b: seq<Action> := [];
    assert BackgroundRun(lim, checked, b) && After(lim, checked, b) == checked;
    hide After;
    var last := After(lim, EnqueueStep(After(lim, checked, b)), c);
    assert last.enqueue.Creating? && Refused(last, EnqueueStep(last));
  }

  lemma WakeFromRisk(lim: Limits, checked: Machine, lane: Lane) returns (j: nat)
    requires Sound(lim, checked) && Copied(checked) && Unmarked(checked) && checked.enqueue == Clearing(lane, Full)
    requires !AnyActive(checked.jobs, lane) && LinksAtRisk(lim, checked)
    ensures j < |checked.jobs| == |checked.threads| && checked.jobs[j].lane == lane && MayWake(checked, j)
  {
    var b, c :|
      && BackgroundRun(lim, checked, b)
      && BackgroundRun(lim, EnqueueStep(After(lim, checked, b)), c)
      && var last := After(lim, EnqueueStep(After(lim, checked, b)), c);
         last.enqueue.Creating? && Refused(last, EnqueueStep(last));
    j := TakenByWaker(lim, checked, lane, b, c);
  }

  lemma TakenByWaker(lim: Limits, checked: Machine, lane: Lane, b: seq<Action>, c: seq<Action>) returns (j: nat)
    requires Sound(lim, checked) && Copied(checked) && Unmarked(checked) && checked.enqueue == Clearing(lane, Full)
    requires !AnyActive(checked.jobs, lane) && BackgroundRun(lim, checked, b)
    requires BackgroundRun(lim, EnqueueStep(After(lim, checked, b)), c)
    requires var last := After(lim, EnqueueStep(After(lim, checked, b)), c); Refused(last, EnqueueStep(last))
    ensures j < |checked.jobs| == |checked.threads| && checked.jobs[j].lane == lane && MayWake(checked, j)
  {
    var mid := After(lim, checked, b);
    RunKeepsShape(lim, checked, b);
    AdvanceSound(lim, mid);
    var cleared := EnqueueStep(mid);
    RunKeepsShape(lim, cleared, c);
    var last := After(lim, cleared, c);
    assert Sound(lim, checked) && |checked.jobs| == |checked.threads|;
    RefusedMeansTaken(last, lane);
    j :| 0 <= j < |last.jobs| && last.jobs[j].lane == lane && Active(last.jobs[j].status);
    assert !Alive(checked, j);
    assert |mid.jobs| == |mid.threads|;
    if !MayWake(checked, j) {
      assert Settled(checked, j);
      StillSettled(lim, checked, mid, cleared, b, c, j);
    }
  }

  lemma RefusedMeansTaken(last: Machine, lane: Lane)
    requires last.enqueue == Creating(lane, Full) && Refused(last, EnqueueStep(last))
    ensures AnyActive(last.jobs, lane)
  {
    assert !AnyActive(last.jobs, lane) ==> |EnqueueStep(last).jobs| == |last.jobs| + 1;
  }

  lemma StillSettled(lim: Limits, checked: Machine, mid: Machine, cleared: Machine, b: seq<Action>, c: seq<Action>, j: nat)
    requires Sound(lim, checked) && Possible(lim, checked, b) && mid == After(lim, checked, b)
    requires Sound(lim, cleared) && Possible(lim, cleared, c) && cleared.jobs == mid.jobs && cleared.threads == mid.threads
    requires j < |checked.jobs| && j < |checked.threads| && |checked.jobs| == |checked.threads| && Settled(checked, j)
    ensures j < |After(lim, cleared, c).jobs| && !Alive(After(lim, cleared, c), j)
  {
    SettledForever(lim, checked, b, j);
    assert Settled(cleared, j);
    SettledForever(lim, cleared, c, j);
  }

  /**
   A condition on the state at the first check of a full job that passes it: in some
   continuation the call deletes its delta links and is then refused exactly if a row of
   the lane, closed as they all are, has a run that may still wake it.
   */
  lemma LinksAtRiskIff(lim: Limits, first: Machine, lane: Lane)
    requires Sound(lim, first) && Copied(first) && Unmarked(first)
    requires first.enqueue == CheckingLane(lane, Full) && !AnyActive(first.jobs, lane)
    ensures |first.jobs| == |first.threads|
    ensures LinksAtRisk(lim, EnqueueStep(first)) <==>
            exists j :: 0 <= j < |first.jobs| && first.jobs[j].lane == lane && MayWake(first, j)
  {
    var checked := EnqueueStep(first);
    AdvanceSound(lim, first);
    assert checked.jobs == first.jobs && checked.threads == first.threads && checked.enqueue == Clearing(lane, Full);
    assert Unmarked(checked) && |first.jobs| == |first.threads|;
    assert forall j :: 0 <= j < |first.jobs| ==> (MayWake(checked, j) <==> MayWake(first, j));
    hide Sound;
    hide Copied;
    hide Unmarked;
    hide MayWake;
    if LinksAtRisk(lim, checked) {
      var j := WakeFromRisk(lim, checked, lane);
    }
    if exists j :: 0 <= j < |first.jobs| && first.jobs[j].lane == lane && MayWake(first, j) {
      var j :| 0 <= j < |first.jobs| && first.jobs[j].lane == lane && MayWake(first, j);
      RiskFromWake(lim, checked, lane, j);
    }
  }
}
