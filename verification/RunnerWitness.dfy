/**
 A run of the job runner, from the empty one on, in which an enqueue call is refused
 after it has deleted the delta links of its lane.
 */
module RunnerWitness {
  import opened Runner
  import opened RunnerProgress
  import opened RunnerCancel

  // ---------- the first job: it succeeds and stores its links ----------

  /** One job, inside the gate. */
  function One(lane: Lane, status: Status, t: Thread, locks: set<Lane>, cancels: set<nat>, tokens: set<Lane>): Machine {
    START.(jobs := [Job(lane, Incremental, status)], threads := [t], used := 1,
           gates := {lane}, locks := locks, cancels := cancels, tokens := tokens)
  }

  function In(phase: Phase, locked: bool): Thread {
    Thread(phase, false, Incremental, locked, false)
  }

  const OVER := Thread(Done, false, Incremental, false, true)

  function Past(phase: Phase): Thread {
    OVER.(phase := phase)
  }

  /** The job is over, its links are stored. */
  function Stored(lane: Lane): Machine {
    START.(jobs := [Job(lane, Incremental, Success)], threads := [OVER], tokens := {lane})
  }

  lemma EnterGate(lim: Limits, lane: Lane)
    ensures var a, s0, s1 := Run(0, Go), Lone(lane, WantGate, 1), One(lane, Queued, In(Registering, false), {}, {}, {});
            && Enabled(lim, s0, a) && Step(lim, s0, a) == s1
            && Enabled(lim, s1, a) && Step(lim, s1, a) == One(lane, Queued, In(Marking, false), {}, {0}, {})
  {
  }

  lemma MarkAndLock(lim: Limits, lane: Lane)
    ensures var a, s2, s3 := Run(0, Go), One(lane, Queued, In(Marking, false), {}, {0}, {}), One(lane, Running, In(Locking, false), {}, {0}, {});
            && Enabled(lim, s2, a) && Step(lim, s2, a) == s3
            && Enabled(lim, s3, a) && Step(lim, s3, a) == One(lane, Running, In(Opening, true), {lane}, {0}, {})
  {
    assert !Occupied([Job(lane, Incremental, Queued)], lane, 0);
  }

  lemma Succeed(lim: Limits, lane: Lane)
    ensures var a, s0, s1 := Run(0, End(Succeeds, true)), One(lane, Running, In(Body, true), {lane}, {0}, {}),
                             One(lane, Running, In(Succeeding(Success), true), {lane}, {0}, {lane});
            && Enabled(lim, s0, a) && Step(lim, s0, a) == s1
            && Enabled(lim, s1, Run(0, Go))
            && Step(lim, s1, Run(0, Go)) == One(lane, Running, In(Writing(Success, true), true), {lane}, {0}, {lane})
  {
  }

  lemma WriteAndUnlock(lim: Limits, lane: Lane)
    ensures var a, s2, s3 := Run(0, Go), One(lane, Running, In(Writing(Success, true), true), {lane}, {0}, {lane}),
                             One(lane, Success, In(Unlocking, true), {lane}, {0}, {lane});
            && Enabled(lim, s2, a) && Step(lim, s2, a) == s3
            && Enabled(lim, s3, a) && Step(lim, s3, a) == One(lane, Success, In(Deregistering, false), {}, {0}, {lane})
  {
  }

  lemma Deregister(lim: Limits, lane: Lane)
    ensures var a, s0, s1 := Run(0, Go), One(lane, Success, In(Deregistering, false), {}, {0}, {lane}), One(lane, Success, Past(LeavingGate), {}, {}, {lane});
            && Enabled(lim, s0, a) && Step(lim, s0, a) == s1
            && Enabled(lim, s1, a) && Step(lim, s1, a) == Stored(lane).(threads := [Past(LeavingSlot)], used := 1)
  {
  }

  lemma LeaveSlots(lim: Limits, lane: Lane)
    ensures var a, s2, s3 := Run(0, Go), Stored(lane).(threads := [Past(LeavingSlot)], used := 1), Stored(lane).(threads := [Past(LeavingFull)]);
            && Enabled(lim, s2, a) && Step(lim, s2, a) == s3
            && Enabled(lim, s3, a) && Step(lim, s3, a) == Stored(lane)
  {
  }

  lemma OpenBody(lim: Limits, lane: Lane)
    ensures var a, s4 := Run(0, Go), One(lane, Running, In(Opening, true), {lane}, {0}, {});
            Enabled(lim, s4, a) && Step(lim, s4, a) == One(lane, Running, In(Body, true), {lane}, {0}, {})
  {
  }

  lemma FirstBody(lim: Limits, lane: Lane) returns (acts: seq<Action>)
    ensures Possible(lim, Lone(lane, WantGate, 1), acts)
    ensures After(lim, Lone(lane, WantGate, 1), acts) == One(lane, Running, In(Body, true), {lane}, {0}, {})
  {
    var a := Run(0, Go);
    var s0 := Lone(lane, WantGate, 1);
    var s1 := One(lane, Queued, In(Registering, false), {}, {}, {});
    var s2 := One(lane, Queued, In(Marking, false), {}, {0}, {});
    var s3 := One(lane, Running, In(Locking, false), {}, {0}, {});
    var s4 := One(lane, Running, In(Opening, true), {lane}, {0}, {});
    var s5 := One(lane, Running, In(Body, true), {lane}, {0}, {});
    EnterGate(lim, lane);
    MarkAndLock(lim, lane);
    OpenBody(lim, lane);
    hide Step;
    hide Enabled;
    acts := Prepend(lim, s4, a, []);
    acts := Prepend(lim, s3, a, acts);
    acts := Prepend(lim, s2, a, acts);
    acts := Prepend(lim, s1, a, acts);
    acts := Prepend(lim, s0, a, acts);
  }

  lemma FirstOutcome(lim: Limits, lane: Lane) returns (acts: seq<Action>)
    ensures Possible(lim, One(lane, Running, In(Body, true), {lane}, {0}, {}), acts)
    ensures After(lim, One(lane, Running, In(Body, true), {lane}, {0}, {}), acts) ==
            One(lane, Success, In(Deregistering, false), {}, {0}, {lane})
  {
    var a, stored := Run(0, Go), Run(0, End(Succeeds, true));
    var s0 := One(lane, Running, In(Body, true), {lane}, {0}, {});
    var s1 := One(lane, Running, In(Succeeding(Success), true), {lane}, {0}, {lane});
    var s2 := One(lane, Running, In(Writing(Success, true), true), {lane}, {0}, {lane});
    var s3 := One(lane, Success, In(Unlocking, true), {lane}, {0}, {lane});
    var s4 := One(lane, Success, In(Deregistering, false), {}, {0}, {lane});
    Succeed(lim, lane);
    WriteAndUnlock(lim, lane);
    hide Step;
    hide Enabled;
    acts := Prepend(lim, s3, a, []);
    acts := Prepend(lim, s2, a, acts);
    acts := Prepend(lim, s1, a, acts);
    acts := Prepend(lim, s0, stored, acts);
  }

  lemma FirstLeaves(lim: Limits, lane: Lane) returns (acts: seq<Action>)
    ensures Possible(lim, One(lane, Success, In(Deregistering, false), {}, {0}, {lane}), acts)
    ensures After(lim, One(lane, Success, In(Deregistering, false), {}, {0}, {lane}), acts) == Stored(lane)
  {
    var a := Run(0, Go);
    var s0 := One(lane, Success, In(Deregistering, false), {}, {0}, {lane});
    var s1 := One(lane, Success, Past(LeavingGate), {}, {}, {lane});
    var s2 := Stored(lane).(threads := [Past(LeavingSlot)], used := 1);
    var s3 := Stored(lane).(threads := [Past(LeavingFull)]);
    Deregister(lim, lane);
    LeaveSlots(lim, lane);
    hide Step;
    hide Enabled;
    acts := Prepend(lim, s3, a, []);
    acts := Prepend(lim, s2, a, acts);
    acts := Prepend(lim, s1, a, acts);
    acts := Prepend(lim, s0, a, acts);
  }

  // ---------- the second job: cancelled, but on its way to be marked ----------

  /** A second job after the first. */
  function Two(lane: Lane, status: Status, phase: Phase, used: int): Machine {
    Stored(lane).(jobs := [Job(lane, Incremental, Success), Job(lane, Incremental, status)],
                  threads := [OVER, In(phase, false)], used := used)
  }

  lemma SecondJob(lim: Limits, lane: Lane) returns (acts: seq<Action>)
    ensures Possible(lim, Stored(lane), acts) && After(lim, Stored(lane), acts) == Two(lane, Queued, Spawned, 0)
  {
    var s0 := Stored(lane);
    var s1 := s0.(enqueue := CheckingLane(lane, Incremental));
    var s2 := s0.(enqueue := CheckingFull(lane, Incremental));
    var s3 := s0.(enqueue := Creating(lane, Incremental));
    assert Step(lim, s0, Begin(lane, Incremental)) == s1;
    assert Step(lim, s1, Advance) == s2 && Step(lim, s2, Advance) == s3;
    assert Step(lim, s3, Advance) == Two(lane, Queued, Spawned, 0);
    hide Step;
    acts := Prepend(lim, s3, Advance, []);
    acts := Prepend(lim, s2, Advance, acts);
    acts := Prepend(lim, s1, Advance, acts);
    acts := Prepend(lim, s0, Begin(lane, Incremental), acts);
  }

  lemma SecondWaits(lim: Limits, lane: Lane) returns (acts: seq<Action>)
    requires lim.slots >= 1
    ensures Possible(lim, Two(lane, Queued, Spawned, 0), acts)
    ensures After(lim, Two(lane, Queued, Spawned, 0), acts) == Two(lane, Queued, WantGate, 1)
  {
    var a := Run(1, Go);
    var s0, s1 := Two(lane, Queued, Spawned, 0), Two(lane, Queued, WantSlot, 0);
    var s2, s3 := Two(lane, Queued, Reloading, 1), Two(lane, Queued, WantGate, 1);
    assert Step(lim, s0, a) == s1 && Enabled(lim, s1, a);
    assert Step(lim, s1, a) == s2 && Step(lim, s2, a) == s3;
    hide Step;
    acts := Prepend(lim, s2, a, []);
    acts := Prepend(lim, s1, a, acts);
    acts := Prepend(lim, s0, a, acts);
  }

  /** The second job's row is cancelled, and its next step marks it. */
  function Doomed(lane: Lane): Machine {
    Two(lane, Cancelled, Marking, 1).(gates := {lane}, cancels := {1}, calls := [Call(1, false, Incremental, Runner.Closed)])
  }

  lemma CancelSecond(lim: Limits, lane: Lane)
    ensures var s0 := Two(lane, Queued, WantGate, 1);
            var s1, s2 := s0.(calls := [Call(1, false, Incremental, Firing)]), s0.(calls := [Call(1, false, Incremental, Runner.Closing)]);
            && Enabled(lim, s0, Ask(1, false)) && Step(lim, s0, Ask(1, false)) == s1
            && Enabled(lim, s1, Fire(0)) && Step(lim, s1, Fire(0)) == s2
            && Enabled(lim, s2, Close(0))
            && Step(lim, s2, Close(0)) == Two(lane, Cancelled, WantGate, 1).(calls := [Call(1, false, Incremental, Runner.Closed)])
  {
  }

  lemma SecondCancelled(lim: Limits, lane: Lane) returns (acts: seq<Action>)
    ensures Possible(lim, Two(lane, Queued, WantGate, 1), acts)
    ensures After(lim, Two(lane, Queued, WantGate, 1), acts) == Doomed(lane)
  {
    var a := Run(1, Go);
    var s0 := Two(lane, Queued, WantGate, 1);
    var s1 := s0.(calls := [Call(1, false, Incremental, Firing)]);
    var s2 := s0.(calls := [Call(1, false, Incremental, Runner.Closing)]);
    var s3 := Two(lane, Cancelled, WantGate, 1).(calls := [Call(1, false, Incremental, Runner.Closed)]);
    var s4 := s3.(threads := [OVER, In(Registering, false)], gates := {lane});
    CancelSecond(lim, lane);
    assert Step(lim, s3, a) == s4 && Step(lim, s4, a) == Doomed(lane);
    hide Step;
    hide Enabled;
    acts := Prepend(lim, s4, a, []);
    acts := Prepend(lim, s3, a, acts);
    acts := Prepend(lim, s2, Close(0), acts);
    acts := Prepend(lim, s1, Fire(0), acts);
    acts := Prepend(lim, s0, Ask(1, false), acts);
  }

  // ---------- the full job ----------

  /** Both checks and the deletion of the links, the mark that revives the row, the insert. */
  function FullCallActs(lane: Lane): seq<Action> {
    [Begin(lane, Full), Advance, Advance] + [Run(1, Go), Advance]
  }

  lemma ClearLinks(lim: Limits, lane: Lane)
    ensures var s0 := Doomed(lane);
            var s1, s2 := s0.(enqueue := CheckingLane(lane, Full)), s0.(enqueue := Clearing(lane, Full));
            && Enabled(lim, s0, Begin(lane, Full)) && Step(lim, s0, Begin(lane, Full)) == s1
            && Enabled(lim, s1, Advance) && Step(lim, s1, Advance) == s2
            && Enabled(lim, s2, Advance) && Step(lim, s2, Advance) == s0.(enqueue := Creating(lane, Full), tokens := {})
  {
    assert !AnyActive(Doomed(lane).jobs, lane);
  }

  lemma FullIsRefused(lim: Limits, lane: Lane)
    ensures Possible(lim, Doomed(lane), FullCallActs(lane))
    ensures After(lim, Doomed(lane), FullCallActs(lane)) ==
            Doomed(lane).(jobs := [Job(lane, Incremental, Success), Job(lane, Incremental, Running)],
                          threads := [OVER, In(Locking, false)], tokens := {})
  {
    var s0 := Doomed(lane);
    var s1 := s0.(enqueue := CheckingLane(lane, Full));
    var s2 := s0.(enqueue := Clearing(lane, Full));
    var s3 := s0.(enqueue := Creating(lane, Full), tokens := {});
    var s4 := s3.(jobs := [Job(lane, Incremental, Success), Job(lane, Incremental, Running)], threads := [OVER, In(Locking, false)]);
    ClearLinks(lim, lane);
    assert !Occupied(s0.jobs, lane, 1);
    assert s4.jobs[1].lane == lane && AnyActive(s4.jobs, lane);
    assert Step(lim, s3, Run(1, Go)) == s4 && Step(lim, s4, Advance) == s4.(enqueue := Idle);
    hide Step;
    hide Enabled;
    var tail := Prepend(lim, s4, Advance, []);
    tail := Prepend(lim, s3, Run(1, Go), tail);
    tail := Prepend(lim, s2, Advance, tail);
    tail := Prepend(lim, s1, Advance, tail);
    tail := Prepend(lim, s0, Begin(lane, Full), tail);
    assert tail == FullCallActs(lane);
  }

  /**
   For every tenant and service there is a run from the empty runner to a state with stored
   delta links in which an enqueue of a full job deletes them and is then refused.
   */
  lemma LinksCanBeLost(lim: Limits, lane: Lane) returns (acts: seq<Action>)
    requires lim.slots >= 1
    ensures Possible(lim, START, acts)
    ensures var s := After(lim, START, acts);
            && s.enqueue == Idle && lane in s.tokens && Possible(lim, s, FullCallActs(lane))
            && var e := After(lim, s, FullCallActs(lane));
               e.enqueue == Idle && lane !in e.tokens && |e.jobs| == |s.jobs|
  {
    hide Possible;
    hide After;
    acts := LoneJob(lim, lane);
    var next := LoneRun(lim, lane);
    acts := Join(lim, acts, next);
    next := FirstBody(lim, lane);
    acts := Join(lim, acts, next);
    next := FirstOutcome(lim, lane);
    acts := Join(lim, acts, next);
    next := FirstLeaves(lim, lane);
    acts := Join(lim, acts, next);
    next := SecondJob(lim, lane);
    acts := Join(lim, acts, next);
    next := SecondWaits(lim, lane);
    acts := Join(lim, acts, next);
    next := SecondCancelled(lim, lane);
    acts := Join(lim, acts, next);
    FullIsRefused(lim, lane);
  }

  lemma Join(lim: Limits, a: seq<Action>, b: seq<Action>) returns (all: seq<Action>)
    requires Possible(lim, START, a) && Possible(lim, After(lim, START, a), b)
    ensures Possible(lim, START, all) && After(lim, START, all) == After(lim, After(lim, START, a), b)
  {
    all := a + b;
    Chained(lim, START, a, b);
  }
}
