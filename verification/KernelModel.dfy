/**
 * The simulation kernel as a state machine over values: the virtual clock and scheduler, tasks and their controlled
 * operations, process generations, services that crash, network flights, and pending commits.
 */
module KernelModel {
  import opened Outcomes
  import opened Scheduler

  type Owner = string
  type TaskId = nat
  type OpId = nat

  datatype ServiceState = STARTING | RUNNING | PAUSED | CRASHED | STOPPED

  /** What the link policy and the faults make of one network leg. */
  datatype Leg = Lost | After(delay: nat)

  /** The kernel operations a task may wait for. */
  datatype Call =
    | Sleep(delay: nat)
    | Request(target: Owner, timeout: nat, leg: Leg)
    | Publish
    | CommitTransaction

  /** What user code does when its task is advanced. */
  datatype Action =
    | Finish(reply: Leg)      // return; an endpoint's reply travels over this leg
    | Await(call: Call)       // yield the operation it just created
    | Throw                   // an error it does not catch

  /** Everything the environment decides while the handler of one event runs. */
  datatype Choice = Choice(action: Action, background: seq<nat>, endpointKnown: bool, errorLeg: Leg)

  datatype BrokerKind = DISPATCH | ARRIVAL | TIMEOUT | RETRY

  datatype Timer = Timer(kind: BrokerKind, delay: nat)

  /** What the message broker does after a handler: events it cancels, events it schedules, deliveries it hands over. */
  datatype BrokerWork = BrokerWork(cancelled: set<EventId>, timers: seq<Timer>, deliveries: seq<Owner>)

  datatype Reaction = Reaction(choice: Choice, broker: BrokerWork)

  /** The environment of a run: its reaction to each dispatched event, by dispatch count. */
  type Env = nat -> Reaction

  datatype Payload =
    | Wake(op: OpId)
    | Deadline(op: OpId)
    | Delivery(op: OpId)
    | Response(op: OpId)
    | Admission(op: OpId)
    | Commit(owner: Owner, op: OpId)
    | Lifecycle(owner: Owner, target: ServiceState)
    | Crash(owner: Owner)
    | Endpoint(owner: Owner, generation: nat, request: OpId)
    | Consumer(owner: Owner, generation: nat)
    | Background(owner: Owner, born: nat)   // `born` is the process generation that scheduled it
    | Start(owner: Owner, callback: Option<OpId>)
    | Broker(kind: BrokerKind)              // an event of the message broker's own

  function KindOf(p: Payload): string {
    match p
    case Wake(_) => "kernel.sleep.wake"
    case Deadline(_) => "kernel.network.deadline"
    case Delivery(_) => "kernel.network.delivery"
    case Response(_) => "kernel.network.response"
    case Admission(_) => "kernel.message.admission"
    case Commit(_, _) => "database.commit"
    case Lifecycle(_, _) => "service.lifecycle"
    case Crash(_) => "service.fault"
    case Endpoint(_, _, _) => "service.endpoint"
    case Consumer(_, _) => "service.consumer"
    case Background(_, _) => "service.background"
    case Start(_, _) => "client.action"
    case Broker(DISPATCH) => "kernel.message.dispatch"
    case Broker(ARRIVAL) => "kernel.message.arrival"
    case Broker(TIMEOUT) => "kernel.message.timeout"
    case Broker(RETRY) => "kernel.message.retry"
  }

  /** A task; `request` is the network request it must answer, `created` an operation not yet yielded. */
  datatype Task = Task(owner: Owner, generation: nat, request: Option<OpId>, created: Option<OpId>,
                       waiting: Option<OpId>)

  /** An operation; its id is its position in the list of operations. */
  datatype Operation = Operation(task: TaskId, call: Call, settled: bool, wake: Option<EventId>)

  datatype FlightState = SENT | ADMITTED | REPLIED | TIMED_OUT

  datatype Settlement = Success(time: nat) | TimedOut(time: nat)

  /** A network flight. `responseDue` and `outcome` record when its response leg is due and how it settled. */
  datatype Flight = Flight(
    target: Owner, deadline: nat, deadlineId: EventId, state: FlightState, replied: bool, settled: bool,
    responseDue: Option<nat>, outcome: Option<Settlement>)

  datatype PendingCommit = PendingCommit(owner: Owner, generation: nat)

  datatype Service = Service(state: ServiceState, generation: nat, local: set<EventId>)

  /**
   * History. `generation` is the process generation the work was meant for: the one an event was enqueued for or
   * scheduled in, the one a task was created in, the one that submitted a commit. `current` is the owner's generation
   * at that moment.
   */
  datatype TraceEntry =
    | Dispatched(time: nat, sequence: EventId, payload: Payload)
    | Ran(task: TaskId, owner: Owner, generation: nat, current: nat)               // a task runs for the first time
    | Resumed(task: TaskId, op: OpId, owner: Owner, generation: nat, current: nat) // an operation resumes its task
    | Committed(op: OpId, owner: Owner, generation: nat, current: nat)             // a commit is carried out

  /** The whole state. `timers` are the handles of the events the broker scheduled. */
  datatype Kernel = Kernel(
    now: nat, next: EventId, pending: set<Event<Payload>>,
    tasks: map<TaskId, Task>, nextTask: TaskId, ops: seq<Operation>,
    generations: map<Owner, nat>, services: map<Owner, Service>,
    flights: map<OpId, Flight>, commits: map<OpId, PendingCommit>, timers: set<EventId>,
    completed: bool, failure: Option<ErrorCode>, processed: nat, trace: seq<TraceEntry>)

  /** `#terminal`: the first failure latches. */
  function Fail(s: Kernel, code: ErrorCode): Kernel {
    if s.failure.Some? then s else s.(failure := Some(code))
  }

  function Schedule(s: Kernel, time: nat, p: Payload): Kernel {
    s.(pending := s.pending + {Event(time, s.next, KindOf(p), p)}, next := s.next + 1)
  }

  /** The events that stay when the handles of `ids` are cancelled. */
  function Without(pending: set<Event<Payload>>, ids: set<EventId>): set<Event<Payload>> {
    set e | e in pending && e.sequence !in ids
  }

  function GenerationIn(generations: map<Owner, nat>, owner: Owner): nat {
    if owner in generations then generations[owner] else 0
  }

  function GenerationOf(s: Kernel, owner: Owner): nat {
    GenerationIn(s.generations, owner)
  }

  // ---------- Network legs ----------

  function SendResponse(s: Kernel, op: OpId, leg: Leg): Kernel
    requires op in s.flights
  {
    match leg
    case Lost => s
    case After(delay) =>
      Schedule(s.(flights := s.flights[op := s.flights[op].(responseDue := Some(s.now + delay))]), s.now
               + delay, Response(op))
  }

  /** `reply`: only the first reply to an admitted flight is sent. */
  function Reply(s: Kernel, op: OpId, leg: Leg): Kernel {
    if op !in s.flights || s.flights[op].state == SENT then Fail(s, INVALID_NETWORK_REPLY)
    else if s.flights[op].replied then s
    else
      var f := s.flights[op];
      SendResponse(s.(flights :=
                      s.flights[op := f.(replied := true, state := if f.settled then f.state else REPLIED)]), op, leg)
  }

  // ---------- Advancing tasks ----------

  /** One piece of local work, tracked by the id of its event so that a crash can cancel it. */
  function TrackLocal(s: Kernel, owner: Owner, delay: nat): Kernel
    requires owner in s.services
  {
    var service := s.services[owner];
    var tracked := s.(services := s.services[owner := service.(local := service.local + {s.next})]);
    Schedule(tracked, s.now + delay, Background(owner, service.generation))
  }

  /** Local background work a service schedules while one of its tasks runs. */
  function ScheduleLocal(s: Kernel, owner: Owner, delays: seq<nat>): (r: Kernel)
    ensures r == s.(services := r.services, pending := r.pending, next := r.next)
    decreases |delays|
  {
    if delays == [] || owner !in s.services then s
    else ScheduleLocal(TrackLocal(s, owner, delays[0]), owner, delays[1..])
  }

  /** The effects of creating one operation, and of the task yielding it. */
  function Begin(s: Kernel, t: TaskId, call: Call): Kernel
    requires t in s.tasks
  {
    var op := |s.ops|;
    var task := s.tasks[t];
    var created := s.(ops := s.ops + [Operation(t, call, false, None)], tasks :=
                      s.tasks[t := task.(waiting := Some(op))]);
    match call
    case Sleep(delay) =>
      Schedule(created.(ops := s.ops + [Operation(t, call, false, Some(s.next))]), s.now + delay, Wake(op))
    case Request(target, timeout, leg) =>
      // The deadline is scheduled before any leg, so it has the smallest sequence of the flight.
      var deadline := Schedule(created, s.now + timeout, Deadline(op));
      var flying := deadline.(flights :=
                              s.flights[op := Flight(target, s.now + timeout, s.next, SENT, false, false, None, None)]);
      if leg.After? then Schedule(flying, s.now + leg.delay, Delivery(op)) else flying
    case Publish =>
      Schedule(created, s.now, Admission(op))
    case CommitTransaction =>
      Schedule(created.(commits := s.commits[op := PendingCommit(task.owner, task.generation)]), s.now,
               Commit(task.owner, op))
  }

  /** A task returns: its request is answered, and it is gone. */
  function Finished(s: Kernel, t: TaskId, leg: Leg): Kernel
    requires t in s.tasks
  {
    var task := s.tasks[t];
    var replied := if task.request.Some? then Reply(s, task.request.value, leg) else s;
    if replied.failure.Some? then replied else replied.(tasks := replied.tasks - {t})
  }

  /** `#advance`: run the generator of a live task until it yields, returns or throws. */
  function Advance(s: Kernel, t: TaskId, choice: Choice): Kernel
    requires t in s.tasks
  {
    var task := s.tasks[t];
    var worked := ScheduleLocal(s, task.owner, choice.background);
    match choice.action
    case Throw => Fail(worked, HANDLER_FAILED)
    case Finish(leg) => Finished(worked, t, leg)
    case Await(call) => Begin(worked, t, call)
  }

  /** `operations.complete`: settle the operation and resume the task that waits for it. */
  function Complete(s: Kernel, op: OpId, choice: Choice): Kernel {
    if op >= |s.ops| then Fail(s, INVALID_OPERATION)
    else
      var t := s.ops[op].task;
      if s.ops[op].settled || t !in s.tasks then s
      else if s.tasks[t].waiting != Some(op) then Fail(s, INVALID_OPERATION)
      else
        var task := s.tasks[t];
        var entry := Resumed(t, op, task.owner, task.generation, GenerationOf(s, task.owner));
        Advance(s.(ops := s.ops[op := s.ops[op].(settled := true)], tasks := s.tasks[t := task.(waiting := None)],
                   trace := s.trace + [entry]), t, choice)
  }

  /** A new task of the owner's current process generation, for work that was meant for the generation `meant`. */
  function Spawned(s: Kernel, owner: Owner, meant: nat, request: Option<OpId>): Kernel {
    var generation := GenerationOf(s, owner);
    s.(tasks := s.tasks[s.nextTask := Task(owner, generation, request, None, None)], nextTask := s.nextTask + 1,
       trace := s.trace + [Ran(s.nextTask, owner, meant, generation)])
  }

  /** A handler that returned a generator becomes a task and runs. */
  function Spawn(s: Kernel, owner: Owner, meant: nat, request: Option<OpId>, choice: Choice): Kernel {
    Advance(Spawned(s, owner, meant, request), s.nextTask, choice)
  }

  // ---------- Crashes and process generations ----------

  predicate Doomed(task: Task, owner: Owner, generation: nat) {
    task.owner == owner && task.generation == generation
  }

  /** The operations a doomed task created or waits for. */
  predicate Orphaned(s: Kernel, op: OpId, owner: Owner, generation: nat) {
    exists t :: t in s.tasks && Doomed(s.tasks[t], owner, generation)
        && (s.tasks[t].waiting == Some(op) || s.tasks[t].created == Some(op))
  }

  function OrphanedWakes(s: Kernel, owner: Owner, generation: nat): set<EventId> {
    set op | 0 <= op < |s.ops| && Orphaned(s, op, owner, generation) && s.ops[op].wake.Some? :: s.ops[op].wake.value
  }

  /** `taskLifecycle.abandon`: drop the tasks of one process generation and settle what they wait for. */
  function Abandon(s: Kernel, owner: Owner, generation: nat): Kernel {
    if owner !in s.generations || s.generations[owner] != generation then Fail(s, INVALID_OPERATION)
    else
      s.(tasks := map t | t in s.tasks && !Doomed(s.tasks[t], owner, generation) :: s.tasks[t],
         ops := seq(|s.ops|, op requires 0 <= op < |s.ops| =>
                  if Orphaned(s, op, owner, generation) then s.ops[op].(settled := true) else s.ops[op]),
         pending := Without(s.pending, OrphanedWakes(s, owner, generation)),
         generations := s.generations[owner := generation + 1])
  }

  predicate Allowed(before: ServiceState, after: ServiceState) {
    match before
    case STARTING => after == RUNNING || after == CRASHED || after == STOPPED
    case RUNNING => after == PAUSED || after == CRASHED || after == STOPPED
    case PAUSED => after == RUNNING || after == CRASHED || after == STOPPED
    case CRASHED => after == STARTING || after == STOPPED
    case STOPPED => after == STARTING
  }

  /** The uncommitted work of one process generation is withdrawn before its tasks are abandoned. */
  function DropCommits(s: Kernel, owner: Owner, generation: nat): Kernel {
    s.(commits := map op | op in s.commits && s.commits[op] != PendingCommit(owner, generation) :: s.commits[op])
  }

  function CancelLocal(s: Kernel, owner: Owner): Kernel
    requires owner in s.services
  {
    s.(pending := Without(s.pending, s.services[owner].local), services :=
       s.services[owner := s.services[owner].(local := {})])
  }

  /** The part of a transition that ends a process generation. */
  function EndProcess(s: Kernel, owner: Owner, after: ServiceState): Kernel
    requires owner in s.services
  {
    var generation := s.services[owner].generation;
    var abandoned := Abandon(DropCommits(CancelLocal(s, owner), owner, generation), owner, generation);
    if abandoned.failure.Some? then abandoned
    else abandoned.(services := abandoned.services[owner := Service(after, generation + 1, {})])
  }

  function Transition(s: Kernel, owner: Owner, after: ServiceState): Kernel {
    if owner !in s.services then Fail(s, INVALID_SERVICE_TRANSITION)
    else
      var service := s.services[owner];
      if after == service.state then s
      else if !Allowed(service.state, after) then Fail(s, INVALID_SERVICE_TRANSITION)
      else if (after == CRASHED || after == STOPPED) && service.state != CRASHED then
        EndProcess(s, owner, after)
      else s.(services := s.services[owner := service.(state := after)])
  }

  // ---------- Event handlers ----------

  function OnWake(s: Kernel, op: OpId, choice: Choice): Kernel {
    if op < |s.ops| && !s.ops[op].settled && s.ops[op].task in s.tasks then Complete(s, op, choice) else s
  }

  function OnDeadline(s: Kernel, op: OpId, choice: Choice): Kernel {
    if op !in s.flights || s.flights[op].settled then s
    else Complete(s.(flights :=
                     s.flights[op := s.flights[op].(settled := true, state := TIMED_OUT, outcome :=
                                                    Some(TimedOut(s.now)))]), op, choice)
  }

  /** A request leg arrives: the flight is admitted, then refused or handed to its target. */
  function OnDelivery(s: Kernel, op: OpId, choice: Choice): Kernel {
    if op !in s.flights then s
    else
      var f := s.flights[op];
      var admitted := s.(flights := s.flights[op := f.(state := ADMITTED)]);
      if !choice.endpointKnown || (f.target in s.services && s.services[f.target].state != RUNNING)
          then Reply(admitted, op, choice.errorLeg)
      else if f.target in s.services
          then Schedule(admitted, s.now, Endpoint(f.target, s.services[f.target].generation, op))
      else Schedule(admitted, s.now, Start(f.target, Some(op)))
  }

  /** A response leg arrives: it settles the flight only if nothing settled it before. */
  function OnResponse(s: Kernel, op: OpId, choice: Choice): Kernel {
    if op !in s.flights || s.flights[op].settled then s
    else
      var f := s.flights[op];
      Complete(s.(flights := s.flights[op := f.(settled := true, outcome := Some(Success(s.now)))],
                  pending := Without(s.pending, {f.deadlineId})), op, choice)
  }

  function OnCommit(s: Kernel, op: OpId, choice: Choice): Kernel {
    if op !in s.commits then s
    else
      var c := s.commits[op];
      Complete(s.(commits := s.commits - {op}, trace :=
                  s.trace + [Committed(op, c.owner, c.generation, GenerationOf(s, c.owner))]), op, choice)
  }

  /** Endpoint and consumer work is fenced by the process generation it was enqueued for. */
  function OnFenced(s: Kernel, owner: Owner, generation: nat, request: Option<OpId>, choice: Choice): Kernel {
    if owner !in s.services || s.services[owner].generation != generation then s
    else Spawn(s, owner, generation, request, choice)
  }

  /** Local work is not fenced: a crash cancels it by its handle. */
  function OnBackground(s: Kernel, e: Event<Payload>, owner: Owner, born: nat, choice: Choice): Kernel {
    if owner !in s.services then s
    else
      var service := s.services[owner];
      var taken := s.(services := s.services[owner := service.(local := service.local - {e.sequence})]);
      if service.state != RUNNING then taken else Spawn(taken, owner, born, None, choice)
  }

  function RunHandler(s: Kernel, e: Event<Payload>, choice: Choice): Kernel {
    match e.payload
    case Wake(op) => OnWake(s, op, choice)
    case Deadline(op) => OnDeadline(s, op, choice)
    case Delivery(op) => OnDelivery(s, op, choice)
    case Response(op) => OnResponse(s, op, choice)
    case Admission(op) => Complete(s, op, choice)
    case Commit(_, op) => OnCommit(s, op, choice)
    case Lifecycle(owner, after) => Transition(s, owner, after)
    case Crash(owner) =>
      if owner in s.services && s.services[owner].state == CRASHED then Fail(s, INVALID_SERVICE_TRANSITION)
          else Transition(s, owner, CRASHED)
    case Endpoint(owner, generation, request) => OnFenced(s, owner, generation, Some(request), choice)
    case Consumer(owner, generation) => OnFenced(s, owner, generation, None, choice)
    case Background(owner, born) => OnBackground(s, e, owner, born, choice)
    case Start(owner, callback) => Spawn(s, owner, GenerationOf(s, owner), callback, choice)
    case Broker(_) => s
  }

  // ---------- The message broker ----------

  /** The broker cancels through the handles it was given. */
  function CancelTimers(s: Kernel, ids: set<EventId>): Kernel {
    s.(pending := Without(s.pending, ids * s.timers))
  }

  function StartTimer(s: Kernel, timer: Timer): Kernel {
    Schedule(s.(timers := s.timers + {s.next}), s.now + timer.delay, Broker(timer.kind))
  }

  function StartTimers(s: Kernel, timers: seq<Timer>): Kernel
    decreases |timers|
  {
    if timers == [] then s else StartTimers(StartTimer(s, timers[0]), timers[1..])
  }

  /** `accept` of a subscription: consumer work is enqueued for the current process generation of a running service. */
  function Accept(s: Kernel, owner: Owner): Kernel {
    if owner !in s.services || s.services[owner].state != RUNNING then s
    else Schedule(s, s.now, Consumer(owner, s.services[owner].generation))
  }

  function AcceptAll(s: Kernel, owners: seq<Owner>): Kernel
    decreases |owners|
  {
    if owners == [] then s else AcceptAll(Accept(s, owners[0]), owners[1..])
  }

  function Brokered(s: Kernel, work: BrokerWork): Kernel {
    if s.failure.Some? then s else AcceptAll(StartTimers(CancelTimers(s, work.cancelled), work.timers), work.deliveries)
  }

  /** The handler of an event, and what the broker makes of it. */
  function HandleEvent(s: Kernel, e: Event<Payload>, reaction: Reaction): Kernel {
    Brokered(RunHandler(s, e, reaction.choice), reaction.broker)
  }

  // ---------- Dispatch and runs ----------

  /** `#boundary`: with nothing pending the run is complete, or deadlocked when tasks remain. */
  function Boundary(s: Kernel): Kernel {
    if s.failure.Some? || s.pending != {} then s
    else if s.tasks != map[] then Fail(s, SIMULATION_DEADLOCK)
    else s.(completed := true)
  }

  function Take(s: Kernel, e: Event<Payload>): Kernel {
    s.(pending := s.pending - {e}, processed := s.processed + 1)
  }

  /** The state in which the handler of `e` starts: the clock has moved to the event. */
  function Started(s: Kernel, e: Event<Payload>): Kernel {
    Take(s, e).(now := e.time, trace := s.trace + [Dispatched(e.time, e.sequence, e.payload)])
  }

  /** The dispatch of one given event, boundary included. */
  function DispatchEvent(s: Kernel, e: Event<Payload>, env: Env): Kernel {
    if e.time < s.now then Fail(Take(s, e), CLOCK_REWIND)
    else Boundary(HandleEvent(Started(s, e), e, env(s.processed)))
  }

  /** `#dispatch`. */
  ghost function Dispatch(s: Kernel, env: Env): Kernel {
    if s.failure.Some? then s
    else if s.pending == {} then Boundary(s)
    else DispatchEvent(s, Least(s.pending), env)
  }
}
