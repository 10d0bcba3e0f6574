/**
 How many bodies of type full run at once. The full slots bound those loaded as full; a
 run that promotes itself takes none, so all slots can be filled with full bodies.
 */
module RunnerFull {
  import opened Runner
  import opened RunnerSafety
  import opened RunnerProgress
  import opened RunnerCancel

  predicate FullBody(t: Thread) {
    InBody(t) && t.kind == Full
  }

  /** A full body that was loaded as something else. */
  predicate PromotedBody(t: Thread) {
    FullBody(t) && !t.full
  }

  // ---------- the bound ----------

  lemma {:induction false} CountSplit(ts: seq<Thread>)
    ensures Count(ts, FullBody) <= Count(ts, HoldsFull) + Count(ts, PromotedBody)
  {
    if ts != [] {
      CountSplit(ts[..|ts| - 1]);
    }
  }

  /** In every reachable state the full bodies beyond the full slots are promoted ones. */
  lemma FullBodiesBounded(lim: Limits, acts: seq<Action>)
    requires Possible(lim, START, acts)
    ensures var s := After(lim, START, acts);
            Count(s.threads, FullBody) <= lim.fullSlots + Count(s.threads, PromotedBody)
  {
    assert Inv(lim, START);
    RunsKeepInv(lim, START, acts);
    CountSplit(After(lim, START, acts).threads);
    hide After;
    hide Count;
  }

  // ---------- without promotions ----------

  /** The job type is the same everywhere, and the full ones hold a full slot once loaded. */
  predicate TypeFits(t: Thread, job: Job) {
    && t.kind == job.kind
    && (1 <= Rank(t.phase) <= 18 ==> (t.full <==> t.kind == Full))
    && (t.phase == Spawned ==> !t.full)
  }

  ghost predicate Typed(s: Machine) {
    && |s.threads| == |s.jobs|
    && (forall i :: 0 <= i < |s.threads| ==> TypeFits(s.threads[i], s.jobs[i]))
    && (forall c :: 0 <= c < |s.calls| ==> s.calls[c].id < |s.jobs| && s.calls[c].kind == s.jobs[s.calls[c].id].kind)
  }

  predicate Promotes(a: Action) {
    a.Run? && a.choice == Promote
  }

  lemma ApproachTyped(s: Machine, i: nat)
    requires i < |s.threads| && i < |s.jobs| && TypeFits(s.threads[i], s.jobs[i])
    ensures var e := Approach(s, i); i < |e.threads| && e.jobs == s.jobs && TypeFits(e.threads[i], e.jobs[i])
  {
  }

  lemma WorkTyped(s: Machine, i: nat, choice: Choice)
    requires i < |s.threads| && i < |s.jobs| && TypeFits(s.threads[i], s.jobs[i]) && choice != Promote
    requires 10 <= Rank(s.threads[i].phase) <= 14
    ensures var e := Runner.Work(s, i, choice);
            i < |e.threads| && |e.jobs| == |s.jobs| && TypeFits(e.threads[i], e.jobs[i]) && e.jobs[i].kind == s.jobs[i].kind
  {
    hide Occupied;
  }

  lemma ConcludeTyped(s: Machine, i: nat)
    requires i < |s.threads| && i < |s.jobs| && TypeFits(s.threads[i], s.jobs[i])
    requires 1 <= Rank(s.threads[i].phase) <= 9
    ensures var e := Conclude(s, i);
            i < |e.threads| && |e.jobs| == |s.jobs| && TypeFits(e.threads[i], e.jobs[i]) && e.jobs[i].kind == s.jobs[i].kind
  {
    hide Occupied;
  }

  lemma RunTyped(lim: Limits, s: Machine, i: nat, choice: Choice)
    requires CanRun(lim, s, i) && TypeFits(s.threads[i], s.jobs[i]) && choice != Promote
    ensures var e := RunStep(s, i, choice);
            i < |e.threads| && |e.jobs| == |s.jobs| && TypeFits(e.threads[i], e.jobs[i]) && e.jobs[i].kind == s.jobs[i].kind
  {
    var r := Rank(s.threads[i].phase);
    if r >= 15 {
      ApproachTyped(s, i);
    } else if r >= 10 {
      WorkTyped(s, i, choice);
    } else {
      ConcludeTyped(s, i);
    }
    hide Approach;
    hide Runner.Work;
    hide Conclude;
    hide TypeFits;
  }

  lemma RunKeepsTyped(lim: Limits, s: Machine, i: nat, choice: Choice)
    requires CanRun(lim, s, i) && Typed(s) && choice != Promote
    ensures Typed(RunStep(s, i, choice))
  {
    var e := RunStep(s, i, choice);
    assert TypeFits(s.threads[i], s.jobs[i]);
    RunTyped(lim, s, i, choice);
    RankFalls(lim, s, i, choice);
    RunCalls(s, i, choice);
    forall j | 0 <= j < |s.jobs| && j != i ensures e.jobs[j] == s.jobs[j] {
      RunRows(lim, s, i, choice, j);
    }
    hide RunStep;
    hide TypeFits;
  }

  lemma RunCalls(s: Machine, i: nat, choice: Choice)
    requires i < |s.threads| && i < |s.jobs|
    ensures RunStep(s, i, choice).calls == s.calls
  {
    hide BoundUpdate;
    hide UpdateJob;
  }

  lemma CloseKeepsTyped(lim: Limits, s: Machine, c: nat)
    requires Typed(s) && Enabled(lim, s, Close(c))
    ensures Typed(CloseStep(s, c))
  {
    var e := CloseStep(s, c);
    forall i | 0 <= i < |s.jobs| ensures |e.jobs| == |s.jobs| && e.jobs[i].kind == s.jobs[i].kind {
      CloseRows(lim, s, c, i);
    }
    forall i | 0 <= i < |e.threads| ensures TypeFits(e.threads[i], e.jobs[i]) {
      assert TypeFits(s.threads[i], s.jobs[i]);
    }
  }

  lemma FireKeepsTyped(lim: Limits, s: Machine, c: nat)
    requires Typed(s) && Enabled(lim, s, Fire(c))
    ensures Typed(FireStep(s, c))
  {
    var e := FireStep(s, c);
    forall i | 0 <= i < |e.threads| ensures TypeFits(e.threads[i], e.jobs[i]) {
      assert TypeFits(s.threads[i], s.jobs[i]);
    }
  }

  lemma EnqueueKeepsTyped(s: Machine)
    requires Typed(s)
    ensures Typed(EnqueueStep(s))
  {
    hide AnyActive;
    hide AnyFull;
    var e := EnqueueStep(s);
    forall i | 0 <= i < |e.threads| && i < |s.threads| ensures TypeFits(e.threads[i], e.jobs[i]) {
      assert TypeFits(s.threads[i], s.jobs[i]);
    }
  }

  lemma StepKeepsTyped(lim: Limits, s: Machine, a: Action)
    requires Typed(s) && Enabled(lim, s, a) && !Promotes(a)
    ensures Typed(Step(lim, s, a))
  {
    match a
    case Run(i, choice) => RunKeepsTyped(lim, s, i, choice);
    case Fire(c) => FireKeepsTyped(lim, s, c);
    case Close(c) => CloseKeepsTyped(lim, s, c);
    case Advance => EnqueueKeepsTyped(s);
    case Ask(_, _) =>
    case Begin(_, _) =>
  }

  lemma {:induction false} StaysTyped(lim: Limits, s: Machine, acts: seq<Action>)
    requires Typed(s) && Possible(lim, s, acts) && forall a <- acts :: !Promotes(a)
    ensures Typed(After(lim, s, acts))
    decreases |acts|
  {
    if acts != [] {
      assert acts[0] in acts;
      StepKeepsTyped(lim, s, acts[0]);
      hide Typed;
      hide Step;
      StaysTyped(lim, Step(lim, s, acts[0]), acts[1..]);
    }
  }

  /** As long as no run promotes itself, the full slots bound all full bodies. */
  lemma FullLimitHolds(lim: Limits, acts: seq<Action>)
    requires Possible(lim, START, acts) && forall a <- acts :: !Promotes(a)
    ensures Count(After(lim, START, acts).threads, FullBody) <= lim.fullSlots
  {
    StaysTyped(lim, START, acts);
    FullBodiesBounded(lim, acts);
    var s := After(lim, START, acts);
    hide After;
    forall i | 0 <= i < |s.threads| ensures !PromotedBody(s.threads[i]) {
      assert TypeFits(s.threads[i], s.jobs[i]);
    }
    CountNone(s.threads, PromotedBody);
  }

  // ---------- with promotions ----------

  /** One more job, not full when it was loaded. */
  function With(s: Machine, job: Job, t: Thread): Machine {
    s.(jobs := s.jobs + [job], threads := s.threads + [t])
  }

  function At(phase: Phase, locked: bool): Thread {
    Thread(phase, false, Incremental, locked, false)
  }

  /** The job has promoted itself and its body runs. */
  function WithPromoted(s: Machine, lane: Lane): Machine {
    With(s, Job(lane, Full, Running), Thread(Body, false, Full, true, false)).(
      used := s.used + 1, gates := s.gates + {lane}, locks := s.locks + {lane},
      cancels := s.cancels + {|s.jobs|}, tokens := s.tokens - {lane})
  }

  /** Nothing stands in the way of an incremental job of the lane. */
  predicate Open(lim: Limits, s: Machine, lane: Lane) {
    && s.enqueue.Idle? && |s.jobs| == |s.threads| && s.used < lim.slots && lane.service != "pst"
    && !AnyActive(s.jobs, lane) && !AnyFull(s.jobs, lane.tenant) && lane !in s.gates && lane !in s.locks
  }

  lemma Admit(lim: Limits, s: Machine, lane: Lane) returns (acts: seq<Action>)
    requires Open(lim, s, lane)
    ensures Possible(lim, s, acts)
    ensures After(lim, s, acts) == With(s, Job(lane, Incremental, Queued), At(Spawned, false))
  {
    hide AnyActive;
    hide AnyFull;
    var one := s.(enqueue := CheckingLane(lane, Incremental));
    var two := s.(enqueue := CheckingFull(lane, Incremental));
    var three := s.(enqueue := Creating(lane, Incremental));
    assert Step(lim, s, Begin(lane, Incremental)) == one && Step(lim, one, Advance) == two && Step(lim, two, Advance) == three;
    assert Step(lim, three, Advance) == With(s, Job(lane, Incremental, Queued), At(Spawned, false));
    hide Step;
    acts := Prepend(lim, three, Advance, []);
    acts := Prepend(lim, two, Advance, acts);
    acts := Prepend(lim, one, Advance, acts);
    acts := Prepend(lim, s, Begin(lane, Incremental), acts);
  }

  lemma LastThread(s: Machine, job: Job, t: Thread, u: Thread)
    requires |s.jobs| == |s.threads|
    ensures var w := With(s, job, t);
            && w.threads[|s.jobs|] == t && w.jobs[|s.jobs|] == job && w.threads[|s.jobs| := u] == s.threads + [u]
            && forall k: Job :: w.jobs[|s.jobs| := k] == s.jobs + [k]
  {
  }

  /** The job before and at the gate. */
  lemma ToGate(lim: Limits, s: Machine, lane: Lane) returns (acts: seq<Action>)
    requires Open(lim, s, lane)
    ensures var job := Job(lane, Incremental, Queued);
            && Possible(lim, With(s, job, At(Spawned, false)), acts)
            && After(lim, With(s, job, At(Spawned, false)), acts) == With(s, job, At(WantGate, false)).(used := s.used + 1)
  {
    var a, job := Run(|s.jobs|, Go), Job(lane, Incremental, Queued);
    var s0, s1 := With(s, job, At(Spawned, false)), With(s, job, At(WantSlot, false));
    var s2, s3 := With(s, job, At(Reloading, false)).(used := s.used + 1), With(s, job, At(WantGate, false)).(used := s.used + 1);
    LastThread(s, job, At(Spawned, false), At(WantSlot, false));
    LastThread(s, job, At(WantSlot, false), At(Reloading, false));
    LastThread(s, job, At(Reloading, false), At(WantGate, false));
    hide AnyActive;
    hide AnyFull;
    assert Step(lim, s0, a) == s1 && Enabled(lim, s1, a) && Step(lim, s1, a) == s2 && Step(lim, s2, a) == s3;
    hide Step;
    acts := Prepend(lim, s2, a, []);
    acts := Prepend(lim, s1, a, acts);
    acts := Prepend(lim, s0, a, acts);
  }

  /** Inside the gate, as far as the mark. */
  function Inside(s: Machine, job: Job, t: Thread, cancels: set<nat>, locks: set<Lane>): Machine {
    With(s, job, t).(used := s.used + 1, gates := s.gates + {job.lane}, cancels := cancels, locks := locks)
  }

  lemma ToMark(lim: Limits, s: Machine, lane: Lane) returns (acts: seq<Action>)
    requires Open(lim, s, lane)
    ensures var job := Job(lane, Incremental, Queued);
            && Possible(lim, With(s, job, At(WantGate, false)).(used := s.used + 1), acts)
            && After(lim, With(s, job, At(WantGate, false)).(used := s.used + 1), acts) ==
               Inside(s, job, At(Marking, false), s.cancels + {|s.jobs|}, s.locks)
  {
    var a, job := Run(|s.jobs|, Go), Job(lane, Incremental, Queued);
    var s0 := With(s, job, At(WantGate, false)).(used := s.used + 1);
    var s1 := Inside(s, job, At(Registering, false), s.cancels, s.locks);
    var s2 := Inside(s, job, At(Marking, false), s.cancels + {|s.jobs|}, s.locks);
    LastThread(s, job, At(WantGate, false), At(Registering, false));
    LastThread(s, job, At(Registering, false), At(Marking, false));
    hide AnyActive;
    hide AnyFull;
    assert Step(lim, s0, a) == s1 && Step(lim, s1, a) == s2;
    hide Step;
    acts := Prepend(lim, s1, a, []);
    acts := Prepend(lim, s0, a, acts);
  }

  lemma LaneIsOwn(s: Machine, lane: Lane, job: Job)
    requires !AnyActive(s.jobs, lane) && job.lane == lane
    ensures !Occupied(s.jobs + [job], lane, |s.jobs|)
  {
    forall j | 0 <= j < |s.jobs| && s.jobs[j].lane == lane ensures !Active(s.jobs[j].status) {
    }
  }

  lemma ToOpening(lim: Limits, s: Machine, lane: Lane) returns (acts: seq<Action>)
    requires Open(lim, s, lane)
    ensures var s0 := Inside(s, Job(lane, Incremental, Queued), At(Marking, false), s.cancels + {|s.jobs|}, s.locks);
            && Possible(lim, s0, acts)
            && After(lim, s0, acts) ==
               Inside(s, Job(lane, Incremental, Running), At(Opening, true), s.cancels + {|s.jobs|}, s.locks + {lane})
  {
    var a, queued, running, cancels := Run(|s.jobs|, Go), Job(lane, Incremental, Queued), Job(lane, Incremental, Running), s.cancels + {|s.jobs|};
    var s0 := Inside(s, queued, At(Marking, false), cancels, s.locks);
    var s1 := Inside(s, running, At(Locking, false), cancels, s.locks);
    var s2 := Inside(s, running, At(Opening, true), cancels, s.locks + {lane});
    LaneIsOwn(s, lane, queued);
    LastThread(s, queued, At(Marking, false), At(Locking, false));
    LastThread(s, running, At(Locking, false), At(Opening, true));
    hide AnyActive;
    hide AnyFull;
    hide Occupied;
    assert Step(lim, s0, a) == s1 && Step(lim, s1, a) == s2;
    hide Step;
    acts := Prepend(lim, s1, a, []);
    acts := Prepend(lim, s0, a, acts);
  }

  lemma ToBody(lim: Limits, s: Machine, lane: Lane) returns (acts: seq<Action>)
    requires Open(lim, s, lane)
    ensures var s0 := Inside(s, Job(lane, Incremental, Running), At(Opening, true), s.cancels + {|s.jobs|}, s.locks + {lane});
            Possible(lim, s0, acts) && After(lim, s0, acts) == WithPromoted(s, lane)
  {
    var a, job := Run(|s.jobs|, Promote), Job(lane, Incremental, Running);
    var s0 := Inside(s, job, At(Opening, true), s.cancels + {|s.jobs|}, s.locks + {lane});
    LaneIsOwn(s, lane, job);
    LastThread(s, job, At(Opening, true), Thread(Body, false, Full, true, false));
    hide AnyActive;
    hide AnyFull;
    hide Occupied;
    assert Step(lim, s0, a) == WithPromoted(s, lane);
    hide Step;
    acts := Prepend(lim, s0, a, []);
  }

  /** An incremental job is enqueued, runs up to its body and promotes itself on the way. */
  lemma AddPromoted(lim: Limits, s: Machine, lane: Lane) returns (acts: seq<Action>)
    requires Open(lim, s, lane)
    ensures Possible(lim, s, acts) && After(lim, s, acts) == WithPromoted(s, lane)
  {
    hide Possible;
    hide After;
    hide Open;
    acts := Admit(lim, s, lane);
    var next := ToGate(lim, s, lane);
    Chained(lim, s, acts, next);
    acts := acts + next;
    next := ToMark(lim, s, lane);
    Chained(lim, s, acts, next);
    acts := acts + next;
    next := ToOpening(lim, s, lane);
    Chained(lim, s, acts, next);
    acts := acts + next;
    next := ToBody(lim, s, lane);
    Chained(lim, s, acts, next);
    acts := acts + next;
  }

  /** One promoted body for each tenant. */
  function Crowd(tenants: seq<string>, service: string): Machine {
    if tenants == [] then START
    else WithPromoted(Crowd(tenants[..|tenants| - 1], service), Lane(tenants[|tenants| - 1], service))
  }

  lemma {:induction false} CrowdFacts(tenants: seq<string>, service: string)
    ensures var s := Crowd(tenants, service);
            && s.enqueue.Idle? && |s.jobs| == |s.threads| && s.used == |tenants| && s.fullUsed == 0
            && Count(s.threads, FullBody) == |tenants|
            && (forall j :: 0 <= j < |s.jobs| ==> s.jobs[j].lane.tenant in tenants)
            && (forall l <- s.gates + s.locks :: l.tenant in tenants)
  {
    if tenants != [] {
      var front, last := tenants[..|tenants| - 1], tenants[|tenants| - 1];
      CrowdFacts(front, service);
      CountAppend(Crowd(front, service).threads, Thread(Body, false, Full, true, false), FullBody);
      CrowdGrows(Crowd(front, service), front, last, service);
      assert front + [last] == tenants;
      hide Count;
      hide WithPromoted;
    }
  }

  lemma CrowdGrows(s: Machine, front: seq<string>, last: string, service: string)
    requires |s.jobs| == |s.threads| && (forall j :: 0 <= j < |s.jobs| ==> s.jobs[j].lane.tenant in front)
    requires forall l <- s.gates + s.locks :: l.tenant in front
    ensures var e := WithPromoted(s, Lane(last, service));
            && e.enqueue == s.enqueue && |e.jobs| == |e.threads| && e.used == s.used + 1 && e.fullUsed == s.fullUsed
            && e.threads == s.threads + [Thread(Body, false, Full, true, false)]
            && (forall j :: 0 <= j < |e.jobs| ==> e.jobs[j].lane.tenant in front + [last])
            && (forall l <- e.gates + e.locks :: l.tenant in front + [last])
  {
  }

  /**
   For any distinct tenants, at most as many as there are slots, there is a run from the
   empty runner to a state in which each of them has a full body running, and no full slot
   is taken: only the slots bound the full bodies.
   */
  lemma {:induction false} FullLimitCanBeExceeded(lim: Limits, tenants: seq<string>, service: string) returns (acts: seq<Action>)
    requires |tenants| <= lim.slots && service != "pst"
    requires forall i, j :: 0 <= i < j < |tenants| ==> tenants[i] != tenants[j]
    ensures Possible(lim, START, acts) && After(lim, START, acts) == Crowd(tenants, service)
    ensures Count(Crowd(tenants, service).threads, FullBody) == |tenants| && Crowd(tenants, service).fullUsed == 0
  {
    CrowdFacts(tenants, service);
    if tenants == [] {
      acts := [];
    } else {
      var front, last := tenants[..|tenants| - 1], tenants[|tenants| - 1];
      acts := FullLimitCanBeExceeded(lim, front, service);
      CrowdFacts(front, service);
      hide Possible;
      hide After;
      hide Count;
      assert last !in front;
      var more := AddPromoted(lim, Crowd(front, service), Lane(last, service));
      Chained(lim, START, acts, more);
      acts := acts + more;
    }
  }
}
