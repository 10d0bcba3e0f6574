/**
 The job runner as interleaved steps: one thread per job, cancel and watchdog calls,
 and the enqueue protocol, all on shared job rows, semaphores, gates, file locks and
 registered cancel functions.
 */
module Runner {
  /** One tenant's service: what is serialised by the gate and the file lock. */
  datatype Lane = Lane(tenant: string, service: string)

  datatype Kind = Full | Incremental | Export

  datatype Status = Queued | Running | Success | Warning | Error | Cancelled

  predicate Active(status: Status) {
    status == Queued || status == Running
  }

  /** A row of the jobs table; its id is its position. */
  datatype Job = Job(lane: Lane, kind: Kind, status: Status)

  /** Where a run of `runJob` stands. */
  datatype Phase =
    | Spawned | WantFull | WantSlot | Reloading | WantGate | Registering | Marking | Locking | Opening | Body
    | Succeeding(result: Status) | Failing | Cancelling | Writing(status: Status, bound: bool)
    | Unlocking | Deregistering | LeavingGate | LeavingSlot | LeavingFull | Done

  /** `full`: loaded as a full job. `kind`: the run's own copy. `cancelled`: its context is. */
  datatype Thread = Thread(phase: Phase, full: bool, kind: Kind, locked: bool, cancelled: bool)

  datatype Stage = Firing | Closing | Closed

  /** A call of Cancel or KillStale, with the job type it read. */
  datatype Call = Call(id: nat, kill: bool, kind: Kind, stage: Stage)

  /** The one enqueue call that holds the enqueue mutex. */
  datatype Enqueue =
    | Idle
    | CheckingLane(lane: Lane, kind: Kind)
    | CheckingFull(lane: Lane, kind: Kind)
    | Clearing(lane: Lane, kind: Kind)
    | Creating(lane: Lane, kind: Kind)

  datatype Machine = Machine(
    jobs: seq<Job>, threads: seq<Thread>, calls: seq<Call>, enqueue: Enqueue,
    used: int, fullUsed: int, gates: set<Lane>, locks: set<Lane>, cancels: set<nat>, tokens: set<Lane>)

  datatype Limits = Limits(slots: nat, fullSlots: nat)

  /** `NewRunner` and `SetMaxConcurrentFull` never allow less than one. */
  function AtLeastOne(slots: int, fullSlots: int): Limits {
    Limits(if slots < 1 then 1 else slots, if fullSlots < 1 then 1 else fullSlots)
  }

  const START := Machine([], [], [], Idle, 0, 0, {}, {}, {}, {})

  /** What the environment decides for a run's step. */
  datatype Choice = Go | Stop(cancelError: bool) | Promote | End(outcome: Outcome, stored: bool)

  datatype Outcome = Succeeds | Warns | Fails | Cancels

  datatype Action =
    | Run(id: nat, choice: Choice)
    | Ask(id: nat, kill: bool)
    | Fire(call: nat)
    | Close(call: nat)
    | Begin(lane: Lane, kind: Kind)
    | Advance

  // ---------- job rows ----------

  /** Another row than `id` is active in the lane. */
  predicate Occupied(jobs: seq<Job>, lane: Lane, id: nat) {
    exists j :: 0 <= j < |jobs| && j != id && jobs[j].lane == lane && Active(jobs[j].status)
  }

  predicate AnyActive(jobs: seq<Job>, lane: Lane) {
    exists j :: 0 <= j < |jobs| && jobs[j].lane == lane && Active(jobs[j].status)
  }

  predicate AnyFull(jobs: seq<Job>, tenant: string) {
    exists j :: 0 <= j < |jobs| && jobs[j].lane.tenant == tenant && jobs[j].kind == Full && Active(jobs[j].status)
  }

  /** `UpdateJob`: the unique index refuses a second active row in a lane. */
  function UpdateJob(jobs: seq<Job>, id: nat, status: Status, kind: Kind): seq<Job>
    requires id < |jobs|
  {
    if Active(status) && Occupied(jobs, jobs[id].lane, id) then jobs
    else jobs[id := Job(jobs[id].lane, kind, status)]
  }

  /** The same under the run's context: nothing is written once that is cancelled. */
  function BoundUpdate(s: Machine, id: nat, status: Status, kind: Kind): seq<Job>
    requires id < |s.jobs| && id < |s.threads|
  {
    if s.threads[id].cancelled then s.jobs else UpdateJob(s.jobs, id, status, kind)
  }

  // ---------- steps of a run ----------

  function At(s: Machine, id: nat, phase: Phase): Machine
    requires id < |s.threads|
  {
    s.(threads := s.threads[id := s.threads[id].(phase := phase)])
  }

  predicate Skipped(status: Status) {
    status == Cancelled || status == Error
  }

  /** From the start of `runJob` to the service gate. */
  function Approach(s: Machine, id: nat): Machine
    requires id < |s.threads| && id < |s.jobs|
  {
    var job, t := s.jobs[id], s.threads[id];
    match t.phase
    case Spawned =>
      if Skipped(job.status) then At(s, id, Done)
      else if job.kind == Full then s.(threads := s.threads[id := t.(phase := WantFull, full := true)])
      else At(s, id, WantSlot)
    case WantFull => At(s, id, WantSlot).(fullUsed := s.fullUsed + 1)
    case WantSlot => At(s, id, Reloading).(used := s.used + 1)
    case Reloading =>
      if Skipped(job.status) then At(s, id, LeavingSlot)
      else s.(threads := s.threads[id := t.(phase := WantGate, kind := job.kind)])
    case WantGate => At(s, id, Registering).(gates := s.gates + {job.lane})
    case _ => s
  }

  /** `fail` goes on as a cancellation if the error is one. */
  function Stopped(choice: Choice): Phase {
    if choice.Stop? && choice.cancelError then Cancelling else Failing
  }

  /** Inside the gate, up to the outcome. */
  function Work(s: Machine, id: nat, choice: Choice): Machine
    requires id < |s.threads| && id < |s.jobs|
  {
    var job, t := s.jobs[id], s.threads[id];
    match t.phase
    case Registering => At(s, id, Marking).(cancels := s.cancels + {id})
    case Marking => At(s, id, Locking).(jobs := BoundUpdate(s, id, Running, t.kind))
    case Locking =>
      if choice.Stop? then At(s, id, Stopped(choice))
      else if job.lane in s.locks then At(s, id, Failing)
      else s.(locks := s.locks + {job.lane}, threads := s.threads[id := t.(phase := Opening, locked := true)])
    case Opening =>
      if choice.Stop? then At(s, id, Stopped(choice))
      else if choice == Promote && t.kind != Full && job.lane.service != "pst" then
        if t.cancelled then At(s, id, Cancelling)
        else s.(tokens := s.tokens - {job.lane}, jobs := BoundUpdate(s, id, Running, Full),
                threads := s.threads[id := t.(phase := Body, kind := Full)])
      else At(s, id, Body)
    case Body =>
      var after := if choice.End? && choice.stored && !t.cancelled then s.(tokens := s.tokens + {job.lane}) else s;
      At(after, id,
         if !choice.End? then Stopped(choice)
         else match choice.outcome
              case Succeeds => Succeeding(Success)
              case Warns => Succeeding(Warning)
              case Fails => Failing
              case Cancels => Cancelling)
    case _ => s
  }

  /** Writing the outcome and the deferred releases, in their order. */
  function Conclude(s: Machine, id: nat): Machine
    requires id < |s.threads| && id < |s.jobs|
  {
    var job, t := s.jobs[id], s.threads[id];
    match t.phase
    case Succeeding(result) =>
      At(s, id, if job.status == Cancelled || t.cancelled then Cancelling else Writing(result, true))
    case Failing => At(s, id, if job.status == Cancelled then Cancelling else Writing(Error, false))
    case Cancelling => At(s, id, if job.status == Cancelled then Unlocking else Writing(Cancelled, false))
    case Writing(status, bound) =>
      At(s, id, Unlocking).(jobs := if bound then BoundUpdate(s, id, status, t.kind)
                                    else UpdateJob(s.jobs, id, status, t.kind))
    case Unlocking =>
      s.(locks := if t.locked then s.locks - {job.lane} else s.locks,
         threads := s.threads[id := t.(phase := Deregistering, locked := false)])
    case Deregistering =>
      s.(cancels := s.cancels - {id}, threads := s.threads[id := t.(phase := LeavingGate, cancelled := true)])
    case LeavingGate => At(s, id, LeavingSlot).(gates := s.gates - {job.lane})
    case LeavingSlot => At(s, id, LeavingFull).(used := s.used - 1)
    case LeavingFull => At(s, id, Done).(fullUsed := if t.full then s.fullUsed - 1 else s.fullUsed)
    case _ => s
  }

  /** How many steps a run may still take from a phase. */
  function Rank(phase: Phase): nat {
    match phase
    case Spawned => 19
    case WantFull => 18
    case WantSlot => 17
    case Reloading => 16
    case WantGate => 15
    case Registering => 14
    case Marking => 13
    case Locking => 12
    case Opening => 11
    case Body => 10
    case Succeeding(_) => 9
    case Failing => 8
    case Cancelling => 7
    case Writing(_, _) => 6
    case Unlocking => 5
    case Deregistering => 4
    case LeavingGate => 3
    case LeavingSlot => 2
    case LeavingFull => 1
    case Done => 0
  }

  function RunStep(s: Machine, id: nat, choice: Choice): Machine
    requires id < |s.threads| && id < |s.jobs|
  {
    var r := Rank(s.threads[id].phase);
    if r >= 15 then Approach(s, id) else if r >= 10 then Work(s, id, choice) else Conclude(s, id)
  }

  // ---------- cancel, watchdog, enqueue ----------

  /** `Cancel` wants an active row, `KillStale` a running one. */
  function AskStep(s: Machine, id: nat, kill: bool): Machine
    requires id < |s.jobs|
  {
    var job := s.jobs[id];
    if job.status == Running || (job.status == Queued && !kill)
    then s.(calls := s.calls + [Call(id, kill, job.kind, Firing)]) else s
  }

  function FireStep(s: Machine, c: nat): Machine
    requires c < |s.calls| && s.calls[c].id < |s.threads|
  {
    var call := s.calls[c];
    s.(calls := s.calls[c := call.(stage := Closing)],
       threads := if call.id in s.cancels
                  then s.threads[call.id := s.threads[call.id].(cancelled := true)] else s.threads)
  }

  function CloseStep(s: Machine, c: nat): Machine
    requires c < |s.calls| && s.calls[c].id < |s.jobs|
  {
    var call := s.calls[c];
    s.(calls := s.calls[c := call.(stage := Closed)],
       jobs := UpdateJob(s.jobs, call.id, if call.kill then Error else Cancelled, call.kind))
  }

  /** `enqueueLocked` after the empty-store checks; refusals drop back to idle. */
  function EnqueueStep(s: Machine): Machine {
    match s.enqueue
    case Idle => s
    case CheckingLane(lane, kind) =>
      s.(enqueue := if AnyActive(s.jobs, lane) then Idle
                    else if kind == Full then Clearing(lane, kind) else CheckingFull(lane, kind))
    case CheckingFull(lane, kind) =>
      s.(enqueue := if AnyFull(s.jobs, lane.tenant) then Idle else Creating(lane, kind))
    case Clearing(lane, kind) => s.(tokens := s.tokens - {lane}, enqueue := Creating(lane, kind))
    case Creating(lane, kind) =>
      if AnyActive(s.jobs, lane) then s.(enqueue := Idle)
      else s.(enqueue := Idle, jobs := s.jobs + [Job(lane, kind, Queued)],
              threads := s.threads + [Thread(Spawned, false, kind, false, false)])
  }

  // ---------- the machine ----------

  predicate CanRun(lim: Limits, s: Machine, id: nat) {
    && id < |s.threads| && id < |s.jobs| && s.threads[id].phase != Done
    && (s.threads[id].phase == WantFull ==> s.fullUsed < lim.fullSlots)
    && (s.threads[id].phase == WantSlot ==> s.used < lim.slots)
    && (s.threads[id].phase == WantGate ==> s.jobs[id].lane !in s.gates)
  }

  predicate Enabled(lim: Limits, s: Machine, a: Action) {
    match a
    case Run(id, _) => CanRun(lim, s, id)
    case Ask(id, _) => id < |s.jobs|
    case Fire(c) => c < |s.calls| && s.calls[c].stage == Firing && s.calls[c].id < |s.threads|
    case Close(c) => c < |s.calls| && s.calls[c].stage == Closing && s.calls[c].id < |s.jobs|
    case Begin(_, _) => s.enqueue.Idle?
    case Advance => !s.enqueue.Idle?
  }

  function Step(lim: Limits, s: Machine, a: Action): Machine
    requires Enabled(lim, s, a)
  {
    match a
    case Run(id, choice) => RunStep(s, id, choice)
    case Ask(id, kill) => AskStep(s, id, kill)
    case Fire(c) => FireStep(s, c)
    case Close(c) => CloseStep(s, c)
    case Begin(lane, kind) => s.(enqueue := CheckingLane(lane, kind))
    case Advance => EnqueueStep(s)
  }

  /** `acts` can be taken one after the other from `s`. */
  predicate Possible(lim: Limits, s: Machine, acts: seq<Action>)
    decreases |acts|
  {
    acts == [] || (Enabled(lim, s, acts[0]) && Possible(lim, Step(lim, s, acts[0]), acts[1..]))
  }

  function After(lim: Limits, s: Machine, acts: seq<Action>): Machine
    requires Possible(lim, s, acts)
    decreases |acts|
  {
    if acts == [] then s else After(lim, Step(lim, s, acts[0]), acts[1..])
  }
}
