/**
 What a run writes at its end: the status of a row tells how the body of its run ended,
 over every run of the machine, and the two calls that close a row from outside.
 */
module RunnerOutcome {
  import opened Runner
  import opened RunnerSafety
  import opened RunnerProgress
  import opened RunnerCancel
  import opened RunnerAdmission
  import opened RunnerClosed

  // ---------- success comes from the body alone ----------

  predicate Good(r: Status) {
    r == Success || r == Warning
  }

  /** The row has the status, or its run is about to write it. */
  predicate Aims(s: Machine, j: nat, r: Status) {
    && j < |s.jobs| && j < |s.threads|
    && (s.jobs[j].status == r || s.threads[j].phase == Succeeding(r)
        || (s.threads[j].phase.Writing? && s.threads[j].phase.status == r))
  }

  /** The step ends the body of run `j` with this outcome. */
  predicate EndsBody(s: Machine, a: Action, j: nat, outcome: Outcome) {
    && j < |s.threads| && s.threads[j].phase == Body
    && a.Run? && a.id == j && a.choice.End? && a.choice.outcome == outcome
  }

  /** Some step of the run ends the body of run `j` with this outcome. */
  ghost predicate EndedIn(lim: Limits, s: Machine, acts: seq<Action>, j: nat, outcome: Outcome)
    requires Possible(lim, s, acts)
    decreases |acts|
  {
    acts != [] && (EndsBody(s, acts[0], j, outcome) || EndedIn(lim, Step(lim, s, acts[0]), acts[1..], j, outcome))
  }

  function BodyOf(r: Status): Outcome
    requires Good(r)
  {
    if r == Success then Succeeds else Warns
  }

  lemma ApproachAims(s: Machine, j: nat, r: Status)
    requires Good(r) && j < |s.jobs| && j < |s.threads| && Rank(s.threads[j].phase) >= 15
    ensures Aims(Approach(s, j), j, r) ==> Aims(s, j, r)
  {
  }

  lemma WorkAims(s: Machine, j: nat, choice: Choice, r: Status)
    requires Good(r) && j < |s.jobs| && j < |s.threads| && 10 <= Rank(s.threads[j].phase) <= 14
    ensures Aims(Work(s, j, choice), j, r) ==> Aims(s, j, r) || EndsBody(s, Run(j, choice), j, BodyOf(r))
  {
    hide Occupied;
  }

  lemma ConcludeAims(s: Machine, j: nat, r: Status)
    requires Good(r) && j < |s.jobs| && j < |s.threads| && 1 <= Rank(s.threads[j].phase) <= 9
    ensures Aims(Conclude(s, j), j, r) ==> Aims(s, j, r)
  {
    hide Occupied;
  }

  lemma RunAims(lim: Limits, s: Machine, j: nat, choice: Choice, r: Status)
    requires Good(r) && CanRun(lim, s, j)
    ensures Aims(RunStep(s, j, choice), j, r) ==> Aims(s, j, r) || EndsBody(s, Run(j, choice), j, BodyOf(r))
  {
    var rank := Rank(s.threads[j].phase);
    if rank >= 15 {
      ApproachAims(s, j, r);
    } else if rank >= 10 {
      WorkAims(s, j, choice, r);
    } else {
      ConcludeAims(s, j, r);
    }
    hide Approach;
    hide Work;
    hide Conclude;
    hide Aims;
  }

  lemma StepAims(lim: Limits, s: Machine, a: Action, j: nat, r: Status)
    requires Good(r) && Sound(lim, s) && Enabled(lim, s, a)
    ensures Aims(Step(lim, s, a), j, r) ==> Aims(s, j, r) || EndsBody(s, a, j, BodyOf(r))
  {
    if a.Run? && a.id == j {
      RunAims(lim, s, j, a.choice, r);
    } else if j < |s.jobs| {
      OtherStep(lim, s, a, j);
      hide Step;
    } else if a == Advance {
      hide AnyActive;
      hide AnyFull;
    } else if Background(a) {
      StepShape(lim, s, a);
    }
  }

  lemma {:induction false} AimsMeansEnded(lim: Limits, s: Machine, acts: seq<Action>, j: nat, r: Status)
    requires Good(r) && Sound(lim, s) && Possible(lim, s, acts) && !Aims(s, j, r) && Aims(After(lim, s, acts), j, r)
    ensures EndedIn(lim, s, acts, j, BodyOf(r))
    decreases |acts|
  {
    assert acts != [];
    StepKeepsSound(lim, s, acts[0]);
    StepAims(lim, s, acts[0], j, r);
    hide Sound;
    hide Step;
    hide Aims;
    hide EndsBody;
    if !EndsBody(s, acts[0], j, BodyOf(r)) {
      AimsMeansEnded(lim, Step(lim, s, acts[0]), acts[1..], j, r);
    }
  }

  /** Over every run: a row is successful, with or without warnings, only if the body of its run ended so. */
  lemma SuccessComesFromBody(lim: Limits, acts: seq<Action>, j: nat)
    requires Possible(lim, START, acts) && j < |After(lim, START, acts).jobs|
    ensures After(lim, START, acts).jobs[j].status == Success ==> EndedIn(lim, START, acts, j, Succeeds)
    ensures After(lim, START, acts).jobs[j].status == Warning ==> EndedIn(lim, START, acts, j, Warns)
  {
    var s := After(lim, START, acts);
    StartIsSound(lim);
    AlwaysSound(lim, START, acts);
    assert |s.jobs| == |s.threads|;
    if s.jobs[j].status == Success {
      AimsMeansEnded(lim, START, acts, j, Success);
    } else if s.jobs[j].status == Warning {
      AimsMeansEnded(lim, START, acts, j, Warning);
    }
  }

  // ---------- a cancelled run does not succeed ----------

  /** Only writes bound to the context aim at success. */
  predicate Plain(p: Phase) {
    p.Writing? && !p.bound ==> Skipped(p.status)
  }

  ghost predicate AllPlain(s: Machine) {
    forall i :: 0 <= i < |s.threads| ==> Plain(s.threads[i].phase)
  }

  lemma RunKeepsPlain(lim: Limits, s: Machine, i: nat, choice: Choice)
    requires CanRun(lim, s, i) && Plain(s.threads[i].phase)
    ensures i < |RunStep(s, i, choice).threads| && Plain(RunStep(s, i, choice).threads[i].phase)
  {
    RankFalls(lim, s, i, choice);
    if Rank(s.threads[i].phase) >= 10 {
      PlainBefore(s, i, choice);
    } else {
      hide Approach;
      hide Work;
      hide BoundUpdate;
      hide UpdateJob;
    }
  }

  lemma PlainBefore(s: Machine, i: nat, choice: Choice)
    requires i < |s.threads| && i < |s.jobs| && Rank(s.threads[i].phase) >= 10
    ensures i < |RunStep(s, i, choice).threads| && !RunStep(s, i, choice).threads[i].phase.Writing?
  {
    if Rank(s.threads[i].phase) >= 15 {
      PlainApproach(s, i);
    } else {
      PlainWork(s, i, choice);
    }
    hide Approach;
    hide Work;
    hide Conclude;
  }

  lemma PlainApproach(s: Machine, i: nat)
    requires i < |s.threads| && i < |s.jobs| && Rank(s.threads[i].phase) >= 15
    ensures i < |Approach(s, i).threads| && !Approach(s, i).threads[i].phase.Writing?
  {
  }

  lemma PlainWork(s: Machine, i: nat, choice: Choice)
    requires i < |s.threads| && i < |s.jobs| && 10 <= Rank(s.threads[i].phase) <= 14
    ensures i < |Work(s, i, choice).threads| && !Work(s, i, choice).threads[i].phase.Writing?
  {
    hide BoundUpdate;
  }

  lemma StepKeepsPlain(lim: Limits, s: Machine, a: Action)
    requires Sound(lim, s) && AllPlain(s) && Enabled(lim, s, a)
    ensures AllPlain(Step(lim, s, a))
  {
    if a.Run? {
      RunKeepsPlain(lim, s, a.id, a.choice);
      RankFalls(lim, s, a.id, a.choice);
      hide RunStep;
    }
  }

  /** With its context cancelled, a run writes nothing but "error" and "cancelled". */
  lemma CutOffWrites(lim: Limits, s: Machine, j: nat, choice: Choice)
    requires CanRun(lim, s, j) && s.threads[j].cancelled && Plain(s.threads[j].phase)
    ensures var e := RunStep(s, j, choice);
            j < |e.jobs| && (e.jobs[j].status == s.jobs[j].status || Skipped(e.jobs[j].status))
  {
    var r := Rank(s.threads[j].phase);
    if r >= 15 {
      hide Work;
      hide Conclude;
    } else if r >= 10 {
      hide Approach;
      hide Conclude;
    } else {
      hide Approach;
      hide Work;
      hide Occupied;
    }
  }

  lemma {:induction false} StaysPlain(lim: Limits, s: Machine, acts: seq<Action>)
    requires Sound(lim, s) && AllPlain(s) && Possible(lim, s, acts)
    ensures AllPlain(After(lim, s, acts))
    decreases |acts|
  {
    if acts != [] {
      StepKeepsSound(lim, s, acts[0]);
      StepKeepsPlain(lim, s, acts[0]);
      hide Sound;
      hide AllPlain;
      hide Step;
      StaysPlain(lim, Step(lim, s, acts[0]), acts[1..]);
    }
  }

  /** In every reachable state. */
  lemma ReachableIsPlain(lim: Limits, acts: seq<Action>)
    requires Possible(lim, START, acts)
    ensures AllPlain(After(lim, START, acts))
  {
    StartIsSound(lim);
    StaysPlain(lim, START, acts);
  }

  /** And it stores no delta links and deletes none. */
  lemma CutOffKeepsLinks(s: Machine, j: nat, choice: Choice)
    requires j < |s.jobs| && j < |s.threads| && s.threads[j].cancelled
    ensures RunStep(s, j, choice).tokens == s.tokens
  {
    hide BoundUpdate;
    hide UpdateJob;
  }

  predicate Unsuccessful(s: Machine, j: nat) {
    j < |s.jobs| && j < |s.threads| && s.threads[j].cancelled && !Good(s.jobs[j].status)
  }

  lemma StepStaysUnsuccessful(lim: Limits, s: Machine, a: Action, j: nat)
    requires Sound(lim, s) && AllPlain(s) && Enabled(lim, s, a) && Unsuccessful(s, j)
    ensures Unsuccessful(Step(lim, s, a), j)
  {
    if a.Run? && a.id == j {
      CutOffStays(lim, s, j, a.choice);
      CutOffWrites(lim, s, j, a.choice);
    } else {
      OtherStep(lim, s, a, j);
    }
    hide Step;
  }

  /** Once its context is cancelled, a row that is not successful yet never becomes so. */
  lemma {:induction false} CancelledNeverSucceeds(lim: Limits, s: Machine, acts: seq<Action>, j: nat)
    requires Sound(lim, s) && AllPlain(s) && Possible(lim, s, acts) && Unsuccessful(s, j)
    ensures Unsuccessful(After(lim, s, acts), j)
    decreases |acts|
  {
    if acts != [] {
      StepKeepsSound(lim, s, acts[0]);
      StepKeepsPlain(lim, s, acts[0]);
      StepStaysUnsuccessful(lim, s, acts[0], j);
      hide Sound;
      hide AllPlain;
      hide Unsuccessful;
      hide Step;
      CancelledNeverSucceeds(lim, Step(lim, s, acts[0]), acts[1..], j);
    }
  }

  // ---------- the outcome is what is written ----------

  /** The step ends the work of run `j`: its body, an error before the body, or links it may no longer delete. */
  predicate Ends(s: Machine, j: nat, choice: Choice)
    requires j < |s.jobs| && j < |s.threads|
  {
    var t := s.threads[j];
    || t.phase == Body || ((t.phase == Locking || t.phase == Opening) && choice.Stop?)
    || (t.phase == Opening && choice == Promote && t.cancelled && t.kind != Full && s.jobs[j].lane.service != "pst")
  }

  /** The status that belongs to the end of the work of a run, by its outcome and its context. */
  function Verdict(t: Thread, choice: Choice): Status {
    match choice
    case End(Succeeds, _) => if t.cancelled then Cancelled else Success
    case End(Warns, _) => if t.cancelled then Cancelled else Warning
    case End(Fails, _) => Error
    case End(Cancels, _) => Cancelled
    case Stop(cancelError) => if cancelError then Cancelled else Error
    case Promote => if t.phase == Opening then Cancelled else Error
    case Go => Error
  }

  /** The row a run leaves: as it is if that is cancelled already, else with the verdict and the run's type. */
  function FinalRow(s: Machine, j: nat, choice: Choice): Job
    requires j < |s.jobs| && j < |s.threads|
  {
    if s.jobs[j].status == Cancelled then s.jobs[j]
    else Job(s.jobs[j].lane, s.threads[j].kind, Verdict(s.threads[j], choice))
  }

  /** The run is on its way to leave this row, or has written it. */
  predicate OnTrack(s: Machine, j: nat, row: Job) {
    && j < |s.jobs| && j < |s.threads| && !Active(row.status)
    && var t, job := s.threads[j], s.jobs[j];
       if Rank(t.phase) <= 5 then job == row
       else if job.status == Cancelled then job == row && 7 <= Rank(t.phase) <= 9
       else
         && row.lane == job.lane && row.kind == t.kind
         && match t.phase
            case Succeeding(r) => row.status == if t.cancelled then Cancelled else r
            case Failing => row.status == Error
            case Cancelling => row.status == Cancelled
            case Writing(r, bound) => r == row.status && (bound ==> !t.cancelled)
            case _ => false
  }

  lemma EndIsOnTrack(s: Machine, j: nat, choice: Choice)
    requires j < |s.jobs| && j < |s.threads| && Ends(s, j, choice)
    ensures OnTrack(Work(s, j, choice), j, FinalRow(s, j, choice))
  {
    hide BoundUpdate;
  }

  lemma ConcludeStaysOnTrack(s: Machine, j: nat, row: Job)
    requires OnTrack(s, j, row) && s.threads[j].phase != Done
    ensures OnTrack(Conclude(s, j), j, row)
  {
    hide Occupied;
  }

  /** The step is no cancel or watchdog call on job `j`. */
  predicate Spares(s: Machine, a: Action, j: nat) {
    && (a.Fire? && a.call < |s.calls| ==> s.calls[a.call].id != j)
    && (a.Close? && a.call < |s.calls| ==> s.calls[a.call].id != j)
  }

  ghost predicate AllSpare(lim: Limits, s: Machine, acts: seq<Action>, j: nat)
    requires Possible(lim, s, acts)
    decreases |acts|
  {
    acts == [] || (Spares(s, acts[0], j) && AllSpare(lim, Step(lim, s, acts[0]), acts[1..], j))
  }

  lemma SparedRow(lim: Limits, s: Machine, a: Action, j: nat)
    requires Sound(lim, s) && Enabled(lim, s, a) && Spares(s, a, j) && j < |s.jobs| && !(a.Run? && a.id == j)
    ensures var e := Step(lim, s, a);
            j < |e.jobs| && j < |e.threads| && e.jobs[j] == s.jobs[j] && e.threads[j] == s.threads[j]
  {
    match a
    case Run(i, choice) =>
      RunRows(lim, s, i, choice, j);
      RankFalls(lim, s, i, choice);
      hide RunStep;
    case Close(c) => CloseRows(lim, s, c, j);
    case _ =>
      hide AnyActive;
      hide AnyFull;
  }

  lemma StepStaysOnTrack(lim: Limits, s: Machine, a: Action, j: nat, row: Job)
    requires Sound(lim, s) && Enabled(lim, s, a) && Spares(s, a, j) && OnTrack(s, j, row)
    ensures OnTrack(Step(lim, s, a), j, row)
  {
    if a.Run? && a.id == j {
      ConcludeStaysOnTrack(s, j, row);
      hide Conclude;
    } else {
      SparedRow(lim, s, a, j);
      hide Step;
    }
  }

  lemma {:induction false} StaysOnTrack(lim: Limits, s: Machine, acts: seq<Action>, j: nat, row: Job)
    requires Sound(lim, s) && Possible(lim, s, acts) && AllSpare(lim, s, acts, j) && OnTrack(s, j, row)
    ensures OnTrack(After(lim, s, acts), j, row)
    decreases |acts|
  {
    if acts != [] {
      StepKeepsSound(lim, s, acts[0]);
      StepStaysOnTrack(lim, s, acts[0], j, row);
      hide Sound;
      hide OnTrack;
      hide Spares;
      hide Step;
      StaysOnTrack(lim, Step(lim, s, acts[0]), acts[1..], j, row);
    }
  }

  /**
   A run leaves exactly the row its outcome calls for: whatever else goes on after its work
   has ended, unless a cancel or watchdog call on it fires or closes later, the row is that
   one from the run's last write on, and is left so when the run is over.
   */
  lemma OutcomeIsWritten(lim: Limits, s: Machine, j: nat, choice: Choice, acts: seq<Action>)
    requires Sound(lim, s) && CanRun(lim, s, j) && Ends(s, j, choice)
    requires Possible(lim, Step(lim, s, Run(j, choice)), acts) && AllSpare(lim, Step(lim, s, Run(j, choice)), acts, j)
    ensures var e := After(lim, Step(lim, s, Run(j, choice)), acts);
            && j < |e.jobs| && j < |e.threads|
            && (Rank(e.threads[j].phase) <= Rank(Unlocking) ==> e.jobs[j] == FinalRow(s, j, choice))
  {
    hide Step;
    hide Sound;
    hide FinalRow;
    hide After;
    hide Possible;
    hide Ends;
    EndStepIsOnTrack(lim, s, j, choice);
    StepKeepsSound(lim, s, Run(j, choice));
    StaysOnTrack(lim, Step(lim, s, Run(j, choice)), acts, j, FinalRow(s, j, choice));
  }

  lemma EndStepIsOnTrack(lim: Limits, s: Machine, j: nat, choice: Choice)
    requires CanRun(lim, s, j) && Ends(s, j, choice)
    ensures OnTrack(Step(lim, s, Run(j, choice)), j, FinalRow(s, j, choice))
  {
    EndIsOnTrack(s, j, choice);
    assert Step(lim, s, Run(j, choice)) == Work(s, j, choice);
    hide Work;
    hide Step;
    hide OnTrack;
    hide FinalRow;
  }

  // ---------- a cancelled row ----------

  /** A watchdog call on the job that has not closed its row yet. */
  predicate KillOpen(s: Machine, j: nat) {
    exists c :: 0 <= c < |s.calls| && s.calls[c].id == j && s.calls[c].kill && s.calls[c].stage != Closed
  }

  /** The run is about to write another status, and its context does not stop it. */
  predicate Overwrites(t: Thread) {
    t.phase.Writing? && t.phase.status != Cancelled && !(t.phase.bound && t.cancelled)
  }

  ghost predicate StaysCancelled(lim: Limits, s: Machine, j: nat) {
    forall acts :: Possible(lim, s, acts) ==>
      var e := After(lim, s, acts); j < |e.jobs| && e.jobs[j].status == Cancelled
  }

  predicate Firm(s: Machine, j: nat)
    requires j < |s.jobs| == |s.threads|
  {
    s.jobs[j].status == Cancelled && Settled(s, j) && !Overwrites(s.threads[j]) && !KillOpen(s, j)
  }

  lemma RunKeepsCancelled(lim: Limits, s: Machine, j: nat, choice: Choice)
    requires Sound(lim, s) && CanRun(lim, s, j) && Firm(s, j)
    ensures var e := RunStep(s, j, choice);
            && j < |e.jobs| && j < |e.threads| && e.calls == s.calls
            && e.jobs[j].status == Cancelled && !Overwrites(e.threads[j])
  {
    if Rank(s.threads[j].phase) >= 10 {
      PlainBefore(s, j, choice);
      NoMark(lim, s, j, choice);
      hide RunStep;
    } else {
      hide Approach;
      hide Work;
      hide Occupied;
      hide KillOpen;
      hide Sound;
    }
  }

  /** Before its outcome a run writes nothing but marks. */
  lemma NoMark(lim: Limits, s: Machine, j: nat, choice: Choice)
    requires Sound(lim, s) && CanRun(lim, s, j) && Settled(s, j) && Rank(s.threads[j].phase) >= 10
    ensures var e := RunStep(s, j, choice); j < |e.jobs| && e.jobs[j].status == s.jobs[j].status && e.calls == s.calls
  {
    hide Sound;
    hide Conclude;
    hide Occupied;
  }

  lemma OtherKeepsFirm(lim: Limits, s: Machine, a: Action, j: nat)
    requires Sound(lim, s) && Enabled(lim, s, a) && j < |s.jobs| && Firm(s, j) && !(a.Run? && a.id == j)
    ensures var e := Step(lim, s, a);
            && j < |e.jobs| && j < |e.threads| && e.jobs[j].status == Cancelled && !Overwrites(e.threads[j])
  {
    OtherStep(lim, s, a, j);
    if a.Close? {
      CloseRows(lim, s, a.call, j);
      hide Settled;
    } else {
      OtherRow(lim, s, a, j);
      hide Step;
    }
  }

  lemma OtherRow(lim: Limits, s: Machine, a: Action, j: nat)
    requires Enabled(lim, s, a) && j < |s.jobs| && !(a.Run? && a.id == j) && !a.Close?
    ensures var e := Step(lim, s, a); j < |e.jobs| && e.jobs[j] == s.jobs[j]
  {
    if a.Run? {
      RunRows(lim, s, a.id, a.choice, j);
    }
  }

  lemma NoNewKill(lim: Limits, s: Machine, a: Action, j: nat)
    requires Enabled(lim, s, a) && j < |s.jobs| && s.jobs[j].status == Cancelled && !KillOpen(s, j)
    ensures !KillOpen(Step(lim, s, a), j)
  {
    hide UpdateJob;
    hide AnyActive;
    hide AnyFull;
  }

  lemma StepKeepsFirm(lim: Limits, s: Machine, a: Action, j: nat)
    requires Sound(lim, s) && Enabled(lim, s, a) && j < |s.jobs| && Firm(s, j)
    ensures var e := Step(lim, s, a); j < |e.jobs| == |e.threads| && Firm(e, j)
  {
    StepKeepsSettled(lim, s, a, j);
    NoNewKill(lim, s, a, j);
    if a.Run? && a.id == j {
      RunKeepsCancelled(lim, s, j, a.choice);
    } else {
      OtherKeepsFirm(lim, s, a, j);
    }
    hide Step;
  }

  lemma {:induction false} FirmForever(lim: Limits, s: Machine, acts: seq<Action>, j: nat)
    requires Sound(lim, s) && Possible(lim, s, acts) && j < |s.jobs| && Firm(s, j)
    ensures j < |After(lim, s, acts).jobs| && After(lim, s, acts).jobs[j].status == Cancelled
    decreases |acts|
  {
    if acts != [] {
      StepKeepsSound(lim, s, acts[0]);
      StepKeepsFirm(lim, s, acts[0], j);
      hide Sound;
      hide Firm;
      hide Step;
      FirmForever(lim, Step(lim, s, acts[0]), acts[1..], j);
    }
  }

  lemma WriteNow(lim: Limits, s: Machine, j: nat) returns (acts: seq<Action>)
    requires Sound(lim, s) && j < |s.jobs| && Overwrites(s.threads[j])
    ensures Possible(lim, s, acts)
    ensures var e := After(lim, s, acts); j < |e.jobs| && e.jobs[j].status != Cancelled
  {
    SoundParts(lim, s);
    assert ClosingPhase(s.threads[j].phase);
    acts := Prepend(lim, s, Run(j, Go), []);
  }

  lemma KillNow(lim: Limits, s: Machine, j: nat) returns (acts: seq<Action>)
    requires Sound(lim, s) && j < |s.jobs| && KillOpen(s, j)
    ensures Possible(lim, s, acts)
    ensures var e := After(lim, s, acts); j < |e.jobs| && e.jobs[j].status != Cancelled
  {
    SoundParts(lim, s);
    var c :| 0 <= c < |s.calls| && s.calls[c].id == j && s.calls[c].kill && s.calls[c].stage != Closed;
    if s.calls[c].stage == Firing {
      var fired := FireStep(s, c);
      CloseRows(lim, fired, c, j);
      var rest := Prepend(lim, fired, Close(c), []);
      acts := Prepend(lim, s, Fire(c), rest);
    } else {
      CloseRows(lim, s, c, j);
      acts := Prepend(lim, s, Close(c), []);
    }
  }

  /**
   A cancelled row stays cancelled in every continuation exactly if its run may not wake
   it, is not about to write another status, and no watchdog call on it is open.
   */
  lemma CancelledStaysIff(lim: Limits, s: Machine, j: nat)
    requires Sound(lim, s) && Unmarked(s) && j < |s.jobs| && s.jobs[j].status == Cancelled
    ensures j < |s.threads| && |s.jobs| == |s.threads|
    ensures StaysCancelled(lim, s, j) <==> !MayWake(s, j) && !Overwrites(s.threads[j]) && !KillOpen(s, j)
  {
    SoundParts(lim, s);
    StaysClosedIff(lim, s, j);
    hide Sound;
    hide Unmarked;
    if MayWake(s, j) {
    } else if Overwrites(s.threads[j]) {
      var acts := WriteNow(lim, s, j);
    } else if KillOpen(s, j) {
      var acts := KillNow(lim, s, j);
    } else {
      assert Firm(s, j);
      forall acts | Possible(lim, s, acts)
        ensures j < |After(lim, s, acts).jobs| && After(lim, s, acts).jobs[j].status == Cancelled
      {
        FirmForever(lim, s, acts, j);
      }
    }
  }

  // ---------- a job closed before its run starts ----------

  predicate NeverStarted(s: Machine, j: nat) {
    && j < |s.jobs| && j < |s.threads| && Skipped(s.jobs[j].status)
    && (s.threads[j].phase == Spawned || s.threads[j].phase == Done)
  }

  /** It takes no slot, gate or lock in any continuation, and its row is not touched by it. */
  lemma {:induction false} ClosedBeforeStart(lim: Limits, s: Machine, acts: seq<Action>, j: nat)
    requires Sound(lim, s) && Possible(lim, s, acts) && NeverStarted(s, j)
    ensures NeverStarted(After(lim, s, acts), j)
    decreases |acts|
  {
    if acts != [] {
      StepKeepsSound(lim, s, acts[0]);
      if !(acts[0].Run? && acts[0].id == j) {
        OtherStep(lim, s, acts[0], j);
      }
      assert NeverStarted(Step(lim, s, acts[0]), j);
      hide Sound;
      hide NeverStarted;
      hide Step;
      ClosedBeforeStart(lim, Step(lim, s, acts[0]), acts[1..], j);
    }
  }

  // ---------- delta links ----------

  /** The body of an uncancelled run of the lane ends with a stored link. */
  predicate StoresLink(s: Machine, a: Action, lane: Lane) {
    && a.Run? && a.id < |s.jobs| && a.id < |s.threads| && s.jobs[a.id].lane == lane
    && s.threads[a.id].phase == Body && !s.threads[a.id].cancelled && a.choice.End? && a.choice.stored
  }

  /** An uncancelled run of the lane, neither full nor an export, finds the catalog empty, or a full call clears. */
  predicate ClearsLink(s: Machine, a: Action, lane: Lane) {
    || (&& a.Run? && a.id < |s.jobs| && a.id < |s.threads| && s.jobs[a.id].lane == lane && lane.service != "pst"
        && s.threads[a.id].phase == Opening && !s.threads[a.id].cancelled && s.threads[a.id].kind != Full && a.choice == Promote)
    || (a == Advance && s.enqueue.Clearing? && s.enqueue.lane == lane)
  }

  /** Exactly which steps store and delete the links of a lane. */
  lemma LinksChangeIff(lim: Limits, s: Machine, a: Action, lane: Lane)
    requires Enabled(lim, s, a)
    ensures lane in Step(lim, s, a).tokens <==> StoresLink(s, a, lane) || (lane in s.tokens && !ClearsLink(s, a, lane))
  {
    hide UpdateJob;
    hide Occupied;
    hide AnyActive;
    hide AnyFull;
  }

  // ---------- the watchdog ----------

  /** A watchdog call that nothing interrupts. */
  function KillActs(s: Machine, j: nat): seq<Action> {
    [Ask(j, true), Fire(|s.calls|), Close(|s.calls|)]
  }

  /** It leaves a running row failed, with the context cancelled if it was registered. */
  function KilledNow(s: Machine, j: nat): Machine
    requires j < |s.jobs| && j < |s.threads|
  {
    s.(calls := s.calls + [Call(j, true, s.jobs[j].kind, Closed)],
       threads := if j in s.cancels then s.threads[j := s.threads[j].(cancelled := true)] else s.threads,
       jobs := s.jobs[j := s.jobs[j].(status := Error)])
  }

  /** It acts on running rows only. */
  lemma KillRun(lim: Limits, s: Machine, j: nat)
    requires Sound(lim, s) && j < |s.jobs|
    ensures j < |s.threads|
    ensures s.jobs[j].status == Running ==>
              Possible(lim, s, KillActs(s, j)) && After(lim, s, KillActs(s, j)) == KilledNow(s, j)
    ensures s.jobs[j].status != Running ==> Enabled(lim, s, Ask(j, true)) && Step(lim, s, Ask(j, true)) == s
  {
    if s.jobs[j].status == Running {
      var n := |s.calls|;
      var asked := AskStep(s, j, true);
      assert asked.calls[n] == Call(j, true, s.jobs[j].kind, Firing);
      var fired := FireStep(asked, n);
      assert fired.calls == s.calls + [Call(j, true, s.jobs[j].kind, Runner.Closing)];
      var closed := CloseStep(fired, n);
      assert closed.calls == KilledNow(s, j).calls;
      assert closed == KilledNow(s, j);
      ThreeSteps(lim, s, Ask(j, true), Fire(n), Close(n));
    }
  }
}
