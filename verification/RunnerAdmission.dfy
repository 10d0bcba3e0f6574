/**
 Admission against everything that may happen between its steps: what an enqueue
 call decides, and when a refusal has already thrown the delta links away.
 */
module RunnerAdmission {
  import opened Runner
  import opened RunnerProgress
  import opened RunnerCancel

  // ---------- the run's copy of the job type ----------

  /** Up to its first mark, a run's copy of the job type is that of its active row. */
  ghost predicate Copied(s: Machine) {
    forall i :: 0 <= i < |s.threads| && i < |s.jobs| ==> CopyFits(s.threads[i], s.jobs[i])
  }

  predicate CopyFits(t: Thread, job: Job) {
    12 <= Rank(t.phase) <= 15 && Active(job.status) ==> t.kind == job.kind
  }

  lemma RunKeepsCopy(lim: Limits, s: Machine, i: nat, choice: Choice)
    requires CanRun(lim, s, i) && CopyFits(s.threads[i], s.jobs[i])
    ensures var e := RunStep(s, i, choice); i < |e.threads| && i < |e.jobs| && CopyFits(e.threads[i], e.jobs[i])
  {
    RankFalls(lim, s, i, choice);
    if Rank(s.threads[i].phase) < 12 {
      hide RunStep;
    } else if Rank(s.threads[i].phase) >= 15 {
      hide Runner.Work;
      hide Conclude;
    } else {
      hide Occupied;
      hide Approach;
      hide Conclude;
    }
  }

  lemma StepKeepsCopied(lim: Limits, s: Machine, a: Action)
    requires Sound(lim, s) && Copied(s) && Enabled(lim, s, a)
    ensures Copied(Step(lim, s, a))
  {
    var e := Step(lim, s, a);
    forall i | 0 <= i < |e.threads| && i < |e.jobs| ensures CopyFits(e.threads[i], e.jobs[i]) {
      if i < |s.jobs| {
        assert CopyFits(s.threads[i], s.jobs[i]);
        if a.Run? && a.id == i {
          RunKeepsCopy(lim, s, i, a.choice);
        } else {
          OtherStep(lim, s, a, i);
        }
      } else {
        assert a == Advance;
      }
    }
  }

  // ---------- what may disturb an enqueue call ----------

  /** The step turns a closed row active. */
  predicate Revives(s: Machine, a: Action, j: nat)
    requires j < |s.jobs| == |s.threads|
  {
    Wakes(s, a, j) && !Alive(s, j)
  }

  /** The step turns a closed row active, or makes an active row full. */
  predicate Disturbs(s: Machine, a: Action, j: nat)
    requires j < |s.jobs| == |s.threads|
  {
    Wakes(s, a, j) && (!Alive(s, j) || s.threads[j].phase == Opening)
  }

  /** A step of a run or a call, none of the enqueue protocol. */
  predicate Background(a: Action) {
    !a.Advance? && !a.Begin?
  }

  ghost predicate BackgroundRun(lim: Limits, s: Machine, acts: seq<Action>) {
    Possible(lim, s, acts) && forall a <- acts :: Background(a)
  }

  lemma BackgroundTail(lim: Limits, s: Machine, acts: seq<Action>)
    requires BackgroundRun(lim, s, acts) && acts != []
    ensures Enabled(lim, s, acts[0]) && Background(acts[0]) && BackgroundRun(lim, Step(lim, s, acts[0]), acts[1..])
  {
    hide Step;
    hide Enabled;
    assert acts[0] in acts && forall a <- acts[1..] :: a in acts;
  }

  /** Some step of the run revives row `j`. */
  ghost predicate RevivedIn(lim: Limits, s: Machine, acts: seq<Action>, j: nat)
    requires Possible(lim, s, acts)
    decreases |acts|
  {
    acts != [] &&
    ((j < |s.jobs| == |s.threads| && Revives(s, acts[0], j)) || RevivedIn(lim, Step(lim, s, acts[0]), acts[1..], j))
  }

  /** Some step of the run revives row `j` or promotes it to full. */
  ghost predicate DisturbedIn(lim: Limits, s: Machine, acts: seq<Action>, j: nat)
    requires Possible(lim, s, acts)
    decreases |acts|
  {
    acts != [] &&
    ((j < |s.jobs| == |s.threads| && Disturbs(s, acts[0], j)) || DisturbedIn(lim, Step(lim, s, acts[0]), acts[1..], j))
  }

  // ---------- what background steps do to a row ----------

  lemma RunShape(lim: Limits, s: Machine, i: nat, choice: Choice, j: nat)
    requires CanRun(lim, s, i) && j < |s.jobs|
    ensures var e := RunStep(s, i, choice); |e.jobs| == |s.jobs| && e.jobs[j].lane == s.jobs[j].lane && e.enqueue == s.enqueue
  {
    hide Occupied;
  }

  lemma StepShape(lim: Limits, s: Machine, a: Action)
    requires Sound(lim, s) && Enabled(lim, s, a) && Background(a)
    ensures var e := Step(lim, s, a);
            |e.jobs| == |s.jobs| && e.enqueue == s.enqueue && forall j :: 0 <= j < |s.jobs| ==> e.jobs[j].lane == s.jobs[j].lane
  {
    if a.Run? {
      forall j | 0 <= j < |s.jobs|
        ensures var e := Step(lim, s, a); |e.jobs| == |s.jobs| && e.jobs[j].lane == s.jobs[j].lane && e.enqueue == s.enqueue
      {
        RunShape(lim, s, a.id, a.choice, j);
      }
    }
  }

  lemma OwnMark(lim: Limits, s: Machine, j: nat, choice: Choice)
    requires CanRun(lim, s, j) && |s.jobs| == |s.threads| && CopyFits(s.threads[j], s.jobs[j]) && Alive(s, j)
    requires ClosingPhase(s.threads[j].phase) && !Disturbs(s, Run(j, choice), j)
    ensures var e := RunStep(s, j, choice); j < |e.jobs| && (Alive(e, j) ==> e.jobs[j].kind == s.jobs[j].kind)
  {
    var r := Rank(s.threads[j].phase);
    if r >= 15 {
      hide Runner.Work;
      hide Conclude;
    } else if r >= 10 {
      hide Occupied;
      hide Conclude;
      hide Approach;
    } else {
      hide Occupied;
      hide Runner.Work;
      hide Approach;
    }
  }

  /** Without being disturbed, a row stays, loses its status, or is marked with its own type. */
  lemma UndisturbedRow(lim: Limits, s: Machine, a: Action, j: nat)
    requires Sound(lim, s) && Copied(s) && Enabled(lim, s, a) && Background(a) && j < |s.jobs| && !Disturbs(s, a, j)
    ensures var e := Step(lim, s, a);
            j < |e.jobs| && (Alive(e, j) ==> Alive(s, j) && e.jobs[j].kind == s.jobs[j].kind)
  {
    StepShape(lim, s, a);
    if !Alive(s, j) {
      OnlyMarksWake(lim, s, a, j);
    } else if a.Run? && a.id == j {
      assert CopyFits(s.threads[j], s.jobs[j]);
      OwnMark(lim, s, j, a.choice);
    } else {
      OtherStep(lim, s, a, j);
    }
  }

  /** Background runs leave the enqueue call where it is and no row changes its lane. */
  lemma {:induction false} RunKeepsShape(lim: Limits, s: Machine, acts: seq<Action>)
    requires Sound(lim, s) && Copied(s) && BackgroundRun(lim, s, acts)
    ensures var e := After(lim, s, acts);
            && Sound(lim, e) && Copied(e) && e.enqueue == s.enqueue && |e.jobs| == |s.jobs|
            && forall j :: 0 <= j < |s.jobs| ==> e.jobs[j].lane == s.jobs[j].lane
    decreases |acts|
  {
    if acts != [] {
      BackgroundTail(lim, s, acts);
      StepKeepsSound(lim, s, acts[0]);
      StepKeepsCopied(lim, s, acts[0]);
      StepShape(lim, s, acts[0]);
      hide Sound;
      hide Copied;
      hide Step;
      hide BackgroundRun;
      RunKeepsShape(lim, Step(lim, s, acts[0]), acts[1..]);
    }
  }

  /** A row that a background run leaves active was active before or was revived in it. */
  lemma {:induction false} AliveMeansRevived(lim: Limits, s: Machine, acts: seq<Action>, j: nat)
    requires Sound(lim, s) && BackgroundRun(lim, s, acts) && j < |s.jobs| && !Alive(s, j)
    requires j < |After(lim, s, acts).jobs| && Alive(After(lim, s, acts), j)
    ensures RevivedIn(lim, s, acts, j)
    decreases |acts|
  {
    BackgroundTail(lim, s, acts);
    var a := acts[0];
    assert |s.jobs| == |s.threads|;
    StepKeepsSound(lim, s, a);
    StepShape(lim, s, a);
    OnlyMarksWake(lim, s, a, j);
    hide Sound;
    hide Step;
    hide Wakes;
    hide BackgroundRun;
    if !Alive(Step(lim, s, a), j) {
      AliveMeansRevived(lim, Step(lim, s, a), acts[1..], j);
    }
  }

  predicate ActiveFull(s: Machine, j: nat)
    requires j < |s.jobs|
  {
    Alive(s, j) && s.jobs[j].kind == Full
  }

  /** A row that a background run leaves active and full was so before or was disturbed in it. */
  lemma {:induction false} FullMeansDisturbed(lim: Limits, s: Machine, acts: seq<Action>, j: nat)
    requires Sound(lim, s) && Copied(s) && BackgroundRun(lim, s, acts) && j < |s.jobs| && !ActiveFull(s, j)
    requires j < |After(lim, s, acts).jobs| && ActiveFull(After(lim, s, acts), j)
    ensures DisturbedIn(lim, s, acts, j)
    decreases |acts|
  {
    BackgroundTail(lim, s, acts);
    var a := acts[0];
    assert |s.jobs| == |s.threads|;
    StepKeepsSound(lim, s, a);
    StepKeepsCopied(lim, s, a);
    StepShape(lim, s, a);
    if !Disturbs(s, a, j) {
      UndisturbedRow(lim, s, a, j);
      hide Sound;
      hide Copied;
      hide Step;
      hide BackgroundRun;
      FullMeansDisturbed(lim, Step(lim, s, a), acts[1..], j);
    }
  }

  // ---------- the outcome of a whole enqueue call ----------

  /** The call holds the enqueue mutex and has not looked at anything yet. */
  function Begun(s: Machine, lane: Lane, kind: Kind): Machine {
    s.(enqueue := CheckingLane(lane, kind))
  }

  /** Refused: no row and no delta link has changed. */
  predicate Refused(s: Machine, e: Machine) {
    e == s.(enqueue := Idle)
  }

  predicate Admitted(s: Machine, e: Machine, lane: Lane, kind: Kind) {
    && e.jobs == s.jobs + [Job(lane, kind, Queued)] && e.tokens == s.tokens && e.enqueue == Idle
    && e.threads == s.threads + [Thread(Spawned, false, kind, false, false)]
  }

  /** A row of the lane was revived during `b` or `c` and is active in `e`. */
  ghost predicate RevivedActive(lim: Limits, p: Machine, b: seq<Action>, q: Machine, c: seq<Action>, e: Machine, lane: Lane)
    requires Possible(lim, p, b) && Possible(lim, q, c)
  {
    exists j :: 0 <= j < |e.jobs| && e.jobs[j].lane == lane && Alive(e, j) && (RevivedIn(lim, p, b, j) || RevivedIn(lim, q, c, j))
  }

  /** The lane, free after the first check, is taken at the insert exactly by a row revived since. */
  lemma LaneTakenIff(lim: Limits, p: Machine, b: seq<Action>, q: Machine, c: seq<Action>, lane: Lane)
    requires Sound(lim, p) && Copied(p) && BackgroundRun(lim, p, b) && !AnyActive(p.jobs, lane)
    requires Sound(lim, q) && Copied(q) && BackgroundRun(lim, q, c) && q.jobs == After(lim, p, b).jobs
    ensures var e := After(lim, q, c);
            AnyActive(e.jobs, lane) <==> RevivedActive(lim, p, b, q, c, e, lane)
  {
    hide Sound;
    hide Copied;
    hide After;
    hide Possible;
    hide RevivedIn;
    var e := After(lim, q, c);
    RunKeepsShape(lim, p, b);
    RunKeepsShape(lim, q, c);
    if AnyActive(e.jobs, lane) {
      var j :| 0 <= j < |e.jobs| && e.jobs[j].lane == lane && Active(e.jobs[j].status);
      RowRevived(lim, p, b, q, c, j);
    }
  }

  lemma RowRevived(lim: Limits, p: Machine, b: seq<Action>, q: Machine, c: seq<Action>, j: nat)
    requires Sound(lim, p) && BackgroundRun(lim, p, b) && j < |p.jobs| && !Alive(p, j)
    requires Sound(lim, q) && BackgroundRun(lim, q, c) && q.jobs == After(lim, p, b).jobs && j < |q.jobs|
    requires j < |After(lim, q, c).jobs| && Alive(After(lim, q, c), j)
    ensures RevivedIn(lim, p, b, j) || RevivedIn(lim, q, c, j)
  {
    hide Sound;
    hide After;
    hide Possible;
    hide RevivedIn;
    if Alive(q, j) {
      AliveMeansRevived(lim, p, b, j);
    } else {
      AliveMeansRevived(lim, q, c, j);
    }
  }

  lemma AdvanceSound(lim: Limits, s: Machine)
    requires Sound(lim, s) && Copied(s) && !s.enqueue.Idle?
    ensures Sound(lim, EnqueueStep(s)) && Copied(EnqueueStep(s))
  {
    assert Enabled(lim, s, Advance) && Step(lim, s, Advance) == EnqueueStep(s);
    StepKeepsSound(lim, s, Advance);
    StepKeepsCopied(lim, s, Advance);
  }

  lemma BeginSound(lim: Limits, s: Machine, lane: Lane, kind: Kind)
    requires Sound(lim, s) && Copied(s) && s.enqueue.Idle?
    ensures Sound(lim, Begun(s, lane, kind)) && Copied(Begun(s, lane, kind))
  {
    var a := Begin(lane, kind);
    assert Enabled(lim, s, a) && Step(lim, s, a) == Begun(s, lane, kind);
    StepKeepsSound(lim, s, a);
    StepKeepsCopied(lim, s, a);
  }

  /**
   A whole call for a full job, with anything the runs and the cancel calls do before each
   of its steps. It is refused without a trace exactly if the lane is busy at its first
   check; past that, its delta links are deleted, and it is then refused exactly if a row
   of the lane was revived since the check and is still active, and admitted otherwise.
   */
  lemma FullCall(lim: Limits, s: Machine, lane: Lane, a: seq<Action>, b: seq<Action>, c: seq<Action>)
    requires Sound(lim, s) && Copied(s) && s.enqueue.Idle? && BackgroundRun(lim, Begun(s, lane, Full), a)
    requires var first := After(lim, Begun(s, lane, Full), a);
             !AnyActive(first.jobs, lane) ==>
               BackgroundRun(lim, EnqueueStep(first), b) && BackgroundRun(lim, EnqueueStep(After(lim, EnqueueStep(first), b)), c)
    ensures var first := After(lim, Begun(s, lane, Full), a);
            if AnyActive(first.jobs, lane) then Refused(first, EnqueueStep(first))
            else
              var checked := EnqueueStep(first);
              var second := After(lim, checked, b);
              var cleared := EnqueueStep(second);
              var last := After(lim, cleared, c);
              && checked.jobs == first.jobs && checked.tokens == first.tokens
              && cleared.jobs == second.jobs && cleared.tokens == second.tokens - {lane}
              && if RevivedActive(lim, checked, b, cleared, c, last, lane) then Refused(last, EnqueueStep(last))
                 else Admitted(last, EnqueueStep(last), lane, Full)
  {
    hide Sound;
    hide Copied;
    hide After;
    hide Possible;
    hide AnyActive;
    hide RevivedActive;
    var begun := Begun(s, lane, Full);
    BeginSound(lim, s, lane, Full);
    RunKeepsShape(lim, begun, a);
    var first := After(lim, begun, a);
    if !AnyActive(first.jobs, lane) {
      var checked := EnqueueStep(first);
      AdvanceSound(lim, first);
      RunKeepsShape(lim, checked, b);
      var second := After(lim, checked, b);
      AdvanceSound(lim, second);
      var cleared := EnqueueStep(second);
      RunKeepsShape(lim, cleared, c);
      LaneTakenIff(lim, checked, b, cleared, c, lane);
    }
  }

  ghost predicate DisturbedFull(lim: Limits, q: Machine, c: seq<Action>, e: Machine, tenant: string)
    requires Possible(lim, q, c)
  {
    exists j :: 0 <= j < |e.jobs| && e.jobs[j].lane.tenant == tenant && ActiveFull(e, j) && DisturbedIn(lim, q, c, j)
  }

  lemma FullActiveIff(lim: Limits, q: Machine, c: seq<Action>, tenant: string)
    requires Sound(lim, q) && Copied(q) && BackgroundRun(lim, q, c) && !AnyFull(q.jobs, tenant)
    ensures var e := After(lim, q, c); AnyFull(e.jobs, tenant) <==> DisturbedFull(lim, q, c, e, tenant)
  {
    var e := After(lim, q, c);
    RunKeepsShape(lim, q, c);
    if AnyFull(e.jobs, tenant) {
      var j :| 0 <= j < |e.jobs| && e.jobs[j].lane.tenant == tenant && e.jobs[j].kind == Full && Active(e.jobs[j].status);
      assert !ActiveFull(q, j);
      hide Sound;
      hide Copied;
      hide After;
      FullMeansDisturbed(lim, q, c, j);
    }
  }

  /**
   A whole call for an incremental or an export. It is refused, always without a trace,
   exactly if the lane is busy at the first check, a full job of the tenant is active at
   the second, or a row of the lane was revived since the first and is still active; it
   is admitted next to an active full job exactly if some row of the tenant was revived
   or promoted after the second check and is active and full.
   */
  lemma IncrementalCall(lim: Limits, s: Machine, lane: Lane, kind: Kind, a: seq<Action>, b: seq<Action>, c: seq<Action>)
    requires Sound(lim, s) && Copied(s) && s.enqueue.Idle? && kind != Full && BackgroundRun(lim, Begun(s, lane, kind), a)
    requires var first := After(lim, Begun(s, lane, kind), a);
             !AnyActive(first.jobs, lane) ==>
               && BackgroundRun(lim, EnqueueStep(first), b)
               && var second := After(lim, EnqueueStep(first), b);
                  !AnyFull(second.jobs, lane.tenant) ==> BackgroundRun(lim, EnqueueStep(second), c)
    ensures var first := After(lim, Begun(s, lane, kind), a);
            if AnyActive(first.jobs, lane) then Refused(first, EnqueueStep(first))
            else
              var checked := EnqueueStep(first);
              var second := After(lim, checked, b);
              if AnyFull(second.jobs, lane.tenant) then Refused(second, EnqueueStep(second))
              else
                var passed := EnqueueStep(second);
                var last := After(lim, passed, c);
                && passed.jobs == second.jobs && passed.tokens == second.tokens
                && (AnyFull(last.jobs, lane.tenant) <==> DisturbedFull(lim, passed, c, last, lane.tenant))
                && if RevivedActive(lim, checked, b, passed, c, last, lane) then Refused(last, EnqueueStep(last))
                   else Admitted(last, EnqueueStep(last), lane, kind)
  {
    hide Sound;
    hide Copied;
    hide After;
    hide Possible;
    hide AnyActive;
    hide AnyFull;
    hide RevivedActive;
    hide DisturbedFull;
    var begun := Begun(s, lane, kind);
    BeginSound(lim, s, lane, kind);
    RunKeepsShape(lim, begun, a);
    var first := After(lim, begun, a);
    if !AnyActive(first.jobs, lane) {
      var checked := EnqueueStep(first);
      AdvanceSound(lim, first);
      RunKeepsShape(lim, checked, b);
      var second := After(lim, checked, b);
      if !AnyFull(second.jobs, lane.tenant) {
        AdvanceSound(lim, second);
        var passed := EnqueueStep(second);
        RunKeepsShape(lim, passed, c);
        LaneTakenIff(lim, checked, b, passed, c, lane);
        FullActiveIff(lim, passed, c, lane.tenant);
      }
    }
  }

  // ---------- from the start ----------

  lemma StartIsSound(lim: Limits)
    ensures Sound(lim, START) && Copied(START)
  {
  }

  /** What the lemmas about cancelling and admission assume holds in every reachable state. */
  lemma ReachableIsSound(lim: Limits, acts: seq<Action>)
    requires Possible(lim, START, acts)
    ensures Sound(lim, After(lim, START, acts)) && Copied(After(lim, START, acts))
  {
    StartIsSound(lim);
    StaysSound(lim, START, acts);
  }

  lemma {:induction false} StaysSound(lim: Limits, s: Machine, acts: seq<Action>)
    requires Sound(lim, s) && Copied(s) && Possible(lim, s, acts)
    ensures Copied(After(lim, s, acts)) && Sound(lim, After(lim, s, acts))
    decreases |acts|
  {
    if acts != [] {
      StepKeepsSound(lim, s, acts[0]);
      StepKeepsCopied(lim, s, acts[0]);
      hide Sound;
      hide Copied;
      hide Step;
      StaysSound(lim, Step(lim, s, acts[0]), acts[1..]);
    }
  }
}
