/**
 * What a dispatch achieves: the work an event stands for is taken up in that dispatch, the operation it completes
 * resumes its task, and whatever the task then does is scheduled, sent or answered at the time the call asked for.
 */
module KernelProgress {
  import opened Outcomes
  import opened Scheduler
  import opened KernelModel
  import opened KernelInvariants
  import opened KernelSteps
  import opened KernelDispatch
  import opened KernelFrames
  import opened KernelTheorems

  // ---------- What a task that runs leaves behind ----------

  /** An event with this payload is due at `time`. */
  ghost predicate DueAt(pending: Events, time: nat, p: Payload) {
    exists id :: HasEvent(pending, time, id, p)
  }

  /** The newest operation is this call of the task, and everything the call asked for is on the agenda. */
  ghost predicate Yielded(c: Kernel, t: TaskId, owner: Owner, generation: nat, op: OpId, call: Call) {
    && |c.ops| == op + 1 && c.ops[op].task == t && c.ops[op].call == call && !c.ops[op].settled
    && match call
       case Sleep(delay) => DueAt(c.pending, c.now + delay, Wake(op))
       case Publish => DueAt(c.pending, c.now, Admission(op))
       case CommitTransaction =>
         && op in c.commits && c.commits[op] == PendingCommit(owner, generation)
         && DueAt(c.pending, c.now, Commit(owner, op))
       case Request(target, timeout, leg) =>
         && op in c.flights && c.flights[op].target == target && c.flights[op].deadline == c.now + timeout
         && !c.flights[op].settled && !c.flights[op].replied
         && DueAt(c.pending, c.now + timeout, Deadline(op))
         && (leg.After? ==> DueAt(c.pending, c.now + leg.delay, Delivery(op)))
         && (leg.Lost? ==> !Awaited(c.pending, Delivery(op)))
  }

  /**
   * The request was replied to over this leg: if it had no reply among the `flights` before, its response is due at the
   * end of the leg, or never if the leg is lost.
   */
  ghost predicate Answered(flights: Flights, c: Kernel, request: OpId, leg: Leg) {
    && request in flights && request in c.flights && c.flights[request].replied
    && (!flights[request].replied ==>
          if leg.After? then
            DueAt(c.pending, c.now + leg.delay, Response(request))
            && c.flights[request].responseDue == Some(c.now + leg.delay)
          else !Awaited(c.pending, Response(request)) && c.flights[request].responseDue.None?)
  }

  /** The task waits for the operation it yielded. */
  predicate Suspended(tasks: Tasks, t: TaskId, task: Task, op: OpId) {
    t in tasks && tasks[t] == task.(waiting := Some(op))
  }

  ghost predicate LocalDue(c: Kernel, owner: Owner, generation: nat, delays: seq<nat>) {
    forall i :: 0 <= i < |delays| ==> DueAt(c.pending, c.now + delays[i], Background(owner, generation))
  }

  /**
   * From `s`, the running task `t` did what `choice` says, and `c` has it all: its local work is due, and it waits for
   * the call it yielded, or it is gone and its request is answered.
   */
  ghost predicate Worked(s: Kernel, c: Kernel, t: TaskId, task: Task, choice: Choice) {
    && (task.owner in s.services ==> LocalDue(c, task.owner, task.generation, choice.background))
    && match choice.action
       case Throw => false
       case Finish(leg) =>
         t !in c.tasks && |c.ops| == |s.ops| && (task.request.Some? ==> Answered(s.flights, c, task.request.value, leg))
       case Await(call) =>
         Suspended(c.tasks, t, task, |s.ops|) && Yielded(c, t, task.owner, task.generation, |s.ops|, call)
  }

  // ---------- Advancing a task ----------

  lemma {:induction false} LocalIsScheduled(s: Kernel, owner: Owner, delays: seq<nat>)
    ensures var c := ScheduleLocal(s, owner, delays);
      s.pending <= c.pending && (owner in s.services ==> LocalDue(c, owner, s.services[owner].generation, delays))
    decreases |delays|
  {
    hide KindOf;
    if delays != [] && owner in s.services {
      var d := TrackLocal(s, owner, delays[0]);
      LocalIsScheduled(d, owner, delays[1..]);
      var c := ScheduleLocal(s, owner, delays);
      var p := Background(owner, s.services[owner].generation);
      assert HasEvent(c.pending, s.now + delays[0], s.next, p);
      forall i | 0 < i < |delays| ensures DueAt(c.pending, c.now + delays[i], p) {
        assert delays[1..][i - 1] == delays[i];
      }
    }
  }

  lemma LocalStillDue(s: Kernel, c: Kernel, owner: Owner, generation: nat, delays: seq<nat>)
    requires LocalDue(s, owner, generation, delays) && c.now == s.now
    requires forall x :: x in s.pending && x.payload.Background? ==> x in c.pending
    ensures LocalDue(c, owner, generation, delays)
  {
    forall i | 0 <= i < |delays| ensures DueAt(c.pending, c.now + delays[i], Background(owner, generation)) {
      var id :| HasEvent(s.pending, s.now + delays[i], id, Background(owner, generation));
      assert HasEvent(c.pending, c.now + delays[i], id, Background(owner, generation));
    }
  }

  /** What a request puts on the agenda. */
  lemma RequestYields(s: Kernel, t: TaskId, target: Owner, timeout: nat, leg: Leg)
    requires t in s.tasks && forall x :: x in s.pending ==> x.payload != Delivery(|s.ops|)
    ensures var c := Begin(s, t, Request(target, timeout, leg));
      && Yielded(c, t, s.tasks[t].owner, s.tasks[t].generation, |s.ops|, Request(target, timeout, leg))
      && Suspended(c.tasks, t, s.tasks[t], |s.ops|) && s.pending <= c.pending && c.now == s.now
  {
    hide KindOf;
    var c, op := Begin(s, t, Request(target, timeout, leg)), |s.ops|;
    var d := LaunchedState(s, t, target, timeout, leg);
    LaunchExtends(s, t, target, timeout, leg);
    assert c.pending >= d.pending;
    assert HasEvent(d.pending, s.now + timeout, s.next, Deadline(op));
    hide Begin, Extends;
    assert HasEvent(c.pending, s.now + timeout, s.next, Deadline(op));
    if leg.After? { assert HasEvent(c.pending, s.now + leg.delay, s.next + 1, Delivery(op)); }
  }

  lemma BeginYields(s: Kernel, t: TaskId, call: Call)
    requires Active(s, t)
    ensures var c := Begin(s, t, call);
      && Yielded(c, t, s.tasks[t].owner, s.tasks[t].generation, |s.ops|, call)
      && Suspended(c.tasks, t, s.tasks[t], |s.ops|) && s.pending <= c.pending && c.now == s.now
  {
    forall x | x in s.pending ensures x.payload != Delivery(|s.ops|) { NothingForNewOperation(s, t, x); }
    hide InvWith, RunnableOk, KindOf;
    if call.Request? {
      RequestYields(s, t, call.target, call.timeout, call.leg);
    } else {
      SimpleYields(s, t, call);
    }
  }

  lemma SimpleYields(s: Kernel, t: TaskId, call: Call)
    requires t in s.tasks && !call.Request?
    ensures var c := Begin(s, t, call);
      && Yielded(c, t, s.tasks[t].owner, s.tasks[t].generation, |s.ops|, call)
      && Suspended(c.tasks, t, s.tasks[t], |s.ops|) && s.pending <= c.pending && c.now == s.now
  {
    hide KindOf;
    var c, op := Begin(s, t, call), |s.ops|;
    match call
    case Sleep(delay) => assert HasEvent(c.pending, s.now + delay, s.next, Wake(op));
    case Publish => assert HasEvent(c.pending, s.now, s.next, Admission(op));
    case CommitTransaction => assert HasEvent(c.pending, s.now, s.next, Commit(s.tasks[t].owner, op));
  }

  /** A flight that has no reply has no response on its way. */
  lemma NoResponseYet(s: Kernel, request: OpId, hole: Option<Payload>)
    requires FlightsOk(s.flights, s.ops, s.pending, s.next, s.now, hole)
    requires request in s.flights && !s.flights[request].replied
    ensures !Awaited(s.pending, Response(request)) && s.flights[request].responseDue.None?
  {
    FlightHere(s, request, hole);
  }

  lemma ReplyAnswers(s: Kernel, request: OpId, leg: Leg)
    requires FlightsOk(s.flights, s.ops, s.pending, s.next, s.now, None) && Answerable(s.flights, request)
    ensures var c := Reply(s, request, leg);
      && Answered(s.flights, c, request, leg) && c.failure == s.failure && c.now == s.now
      && c.tasks == s.tasks && c.ops == s.ops && s.pending <= c.pending
  {
    hide FlightsOk, FlightGrows, SendResponse;
    if !s.flights[request].replied {
      hide Reply;
      NoResponseYet(s, request, None);
      FirstReplyIsSent(s, request, leg, leg);
      if leg.After? {
        assert HasEvent(Reply(s, request, leg).pending, s.now + leg.delay, s.next, Response(request));
      }
    }
  }

  lemma FinishedAnswers(s: Kernel, t: TaskId, leg: Leg)
    requires Active(s, t)
    ensures var c := Finished(s, t, leg);
      && t !in c.tasks && |c.ops| == |s.ops| && c.failure.None? && s.pending <= c.pending && c.now == s.now
      && (s.tasks[t].request.Some? ==> Answered(s.flights, c, s.tasks[t].request.value, leg))
  {
    hide EventsOk, TasksOk, WakesOk, AwaitsOk, GenerationsOk, LocalOk, CommitsOk, FlightsOk, ReferencesOk, TraceOk;
    hide Reply, Answerable;
    if s.tasks[t].request.Some? { ReplyAnswers(s, s.tasks[t].request.value, leg); }
  }

  lemma RunsCurrent(s: Kernel, t: TaskId)
    requires Active(s, t) && s.tasks[t].owner in s.services
    ensures s.services[s.tasks[t].owner].generation == s.tasks[t].generation
  {
    hide EventsOk, TasksOk, WakesOk, AwaitsOk, LocalOk, CommitsOk, FlightsOk, ReferencesOk, TraceOk, Answerable;
  }

  /** Running a task does all that the environment has it do, and fails only if its code throws. */
  lemma AdvanceWorked(s: Kernel, t: TaskId, choice: Choice)
    requires Active(s, t)
    ensures var c := Advance(s, t, choice);
      if choice.action.Throw? then c.failure == Some(HANDLER_FAILED)
      else c.failure.None? && Worked(s, c, t, s.tasks[t], choice)
    ensures s.pending <= Advance(s, t, choice).pending
  {
    hide InvWith, RunnableOk, Yielded, Answered, LocalDue, Suspended, Begin, Finished, ScheduleLocal;
    var task := s.tasks[t];
    var worked := ScheduleLocal(s, task.owner, choice.background);
    LocalWorkKeepsActive(s, t, task.owner, choice.background);
    LocalIsScheduled(s, task.owner, choice.background);
    if task.owner in s.services { RunsCurrent(s, t); }
    var c := Advance(s, t, choice);
    match choice.action
    case Throw =>
    case Finish(leg) =>
      FinishedAnswers(worked, t, leg);
      if task.owner in s.services { LocalStillDue(worked, c, task.owner, task.generation, choice.background); }
    case Await(call) =>
      BeginKeepsFailure(worked, t, call);
      BeginYields(worked, t, call);
      if task.owner in s.services { LocalStillDue(worked, c, task.owner, task.generation, choice.background); }
  }

  // ---------- The rest of the dispatch ----------

  /** The broker takes off only events of its own, and puts on only those and consumer work. */
  ghost predicate Leaves(h: Kernel, d: Kernel) {
    && d == h.(pending := d.pending, next := d.next, timers := d.timers, completed := d.completed)
    && (forall x :: x in h.pending && !x.payload.Broker? ==> x in d.pending)
    && (forall x :: x in d.pending && x !in h.pending ==> x.payload.Broker? || x.payload.Consumer?)
  }

  lemma LeavesTransitive(a: Kernel, b: Kernel, c: Kernel)
    requires Leaves(a, b) && Leaves(b, c)
    ensures Leaves(a, c)
  {}

  lemma {:induction false} TimersLeave(s: Kernel, timers: seq<Timer>)
    ensures Leaves(s, StartTimers(s, timers))
    decreases |timers|
  {
    if timers != [] {
      TimersLeave(StartTimer(s, timers[0]), timers[1..]);
      LeavesTransitive(s, StartTimer(s, timers[0]), StartTimers(s, timers));
    }
  }

  lemma {:induction false} AcceptsLeave(s: Kernel, owners: seq<Owner>)
    ensures Leaves(s, AcceptAll(s, owners))
    decreases |owners|
  {
    if owners != [] {
      AcceptsLeave(Accept(s, owners[0]), owners[1..]);
      LeavesTransitive(s, Accept(s, owners[0]), AcceptAll(s, owners));
    }
  }

  lemma BrokeredLeaves(h: Kernel, work: BrokerWork)
    requires LocalOk(h.services, h.timers, h.pending, h.next)
    ensures Leaves(h, Brokered(h, work))
  {
    var c := CancelTimers(h, work.cancelled);
    assert Leaves(h, c);
    hide Leaves, LocalOk, CancelTimers, StartTimers, AcceptAll;
    TimersLeave(c, work.timers);
    LeavesTransitive(h, c, StartTimers(c, work.timers));
    AcceptsLeave(StartTimers(c, work.timers), work.deliveries);
    LeavesTransitive(h, StartTimers(c, work.timers), AcceptAll(StartTimers(c, work.timers), work.deliveries));
    if h.failure.Some? { NothingLeft(h); }
  }

  lemma NothingLeft(h: Kernel)
    ensures Leaves(h, h)
  {}

  /** The state the handler of the next event leaves. */
  ghost function HandledState(s: Kernel, env: Env): Kernel
    requires s.pending != {}
  { RunHandler(Started(s, Least(s.pending)), Least(s.pending), env(s.processed).choice) }

  /** After the handler, a dispatch only does the broker's work and looks whether the run is complete. */
  lemma DispatchLeaves(s: Kernel, env: Env)
    requires Inv(s) && s.failure.None? && s.pending != {}
    ensures Leaves(HandledState(s, env), Dispatch(s, env)) && Good(HandledState(s, env))
    ensures s.now <= Least(s.pending).time
  {
    hide InvWith, Lasting, RunHandler, Brokered, Leaves, Excused;
    var e := Least(s.pending);
    var h := HandledState(s, env);
    TakeKeeps(s, e);
    HandlerKeeps(s, e, env(s.processed).choice);
    AgendaHere(h);
    BrokeredLeaves(h, env(s.processed).broker);
    BrokeredKeeps(h, env(s.processed).broker);
    BoundaryLeaves(Brokered(h, env(s.processed).broker));
    LeavesTransitive(h, Brokered(h, env(s.processed).broker), Dispatch(s, env));
  }

  lemma AgendaHere(h: Kernel)
    requires Good(h)
    ensures LocalOk(h.services, h.timers, h.pending, h.next)
  {
    hide Good, EventsOk, WakesOk, GenerationsOk, LocalOk, CommitsOk, FlightsOk, TraceOk;
    GoodLasts(h);
  }

  lemma BoundaryLeaves(s: Kernel)
    requires Good(s)
    ensures Leaves(s, Boundary(s))
  {
    hide InvWith, Lasting;
    if s.failure.None? && s.pending == {} { EmptyMeansIdle(s); }
  }

  lemma DueStays(h: Kernel, d: Kernel, time: nat, p: Payload)
    requires Leaves(h, d) && !p.Broker? && DueAt(h.pending, time, p)
    ensures DueAt(d.pending, time, p)
  {
    var id :| HasEvent(h.pending, time, id, p);
    assert HasEvent(d.pending, time, id, p);
  }

  lemma NotAwaitedStays(h: Kernel, d: Kernel, p: Payload)
    requires Leaves(h, d) && !p.Broker? && !p.Consumer? && !Awaited(h.pending, p)
    ensures !Awaited(d.pending, p)
  {}

  lemma YieldedStays(h: Kernel, d: Kernel, t: TaskId, owner: Owner, generation: nat, op: OpId, call: Call)
    requires Leaves(h, d) && Yielded(h, t, owner, generation, op, call)
    ensures Yielded(d, t, owner, generation, op, call)
  {
    match call
    case Sleep(delay) => DueStays(h, d, h.now + delay, Wake(op));
    case Publish => DueStays(h, d, h.now, Admission(op));
    case CommitTransaction => DueStays(h, d, h.now, Commit(owner, op));
    case Request(target, timeout, leg) =>
      DueStays(h, d, h.now + timeout, Deadline(op));
      if leg.After? { DueStays(h, d, h.now + leg.delay, Delivery(op)); } else { NotAwaitedStays(h, d, Delivery(op)); }
  }

  lemma AnsweredStays(flights: Flights, h: Kernel, d: Kernel, request: OpId, leg: Leg)
    requires Leaves(h, d) && Answered(flights, h, request, leg)
    ensures Answered(flights, d, request, leg)
  {
    if !flights[request].replied {
      if leg.After? { DueStays(h, d, h.now + leg.delay, Response(request)); }
      else { NotAwaitedStays(h, d, Response(request)); }
    }
  }

  lemma WorkStays(s: Kernel, h: Kernel, d: Kernel, t: TaskId, task: Task, choice: Choice)
    requires Leaves(h, d) && Worked(s, h, t, task, choice)
    ensures Worked(s, d, t, task, choice)
  {
    hide Yielded, Answered, LocalDue;
    if task.owner in s.services { LocalStillDue(h, d, task.owner, task.generation, choice.background); }
    match choice.action
    case Finish(leg) => if task.request.Some? { AnsweredStays(s.flights, h, d, task.request.value, leg); }
    case Await(call) => YieldedStays(h, d, t, task.owner, task.generation, |s.ops|, call);
  }

  // ---------- Work that starts ----------

  /**
   * The task that an event stands for: endpoint and consumer work of the current process generation, local work of a
   * running service, and client actions.
   */
  function NewWork(s: Kernel, p: Payload): Option<Task> {
    match p
    case Endpoint(o, g, request) =>
      if o in s.services && s.services[o].generation == g then Some(Task(o, g, Some(request), None, None)) else None
    case Consumer(o, g) =>
      if o in s.services && s.services[o].generation == g then Some(Task(o, g, None, None, None)) else None
    case Background(o, _) =>
      if o in s.services && s.services[o].state == RUNNING
      then Some(Task(o, s.services[o].generation, None, None, None)) else None
    case Start(o, callback) => Some(Task(o, GenerationOf(s, o), callback, None, None))
    case _ => None
  }

  predicate StartsWork(p: Payload) {
    p.Endpoint? || p.Consumer? || p.Background? || p.Start?
  }

  lemma BeginTrace(s: Kernel, t: TaskId, call: Call)
    requires t in s.tasks
    ensures Begin(s, t, call).trace == s.trace && Begin(s, t, call).processed == s.processed
  {
    hide KindOf;
  }

  lemma ReplyTrace(s: Kernel, op: OpId, leg: Leg)
    ensures Reply(s, op, leg).trace == s.trace && Reply(s, op, leg).processed == s.processed
  {
    if op in s.flights && s.flights[op].state != SENT && !s.flights[op].replied {
      hide Reply, ResponseLeg, FlightGrows;
      FirstReplyIsSent(s, op, leg, leg);
    } else {
      hide SendResponse;
    }
  }

  lemma AdvanceTrace(s: Kernel, t: TaskId, choice: Choice)
    requires t in s.tasks
    ensures Advance(s, t, choice).trace == s.trace && Advance(s, t, choice).processed == s.processed
  {
    hide Begin, Reply, ScheduleLocal;
    var worked := ScheduleLocal(s, s.tasks[t].owner, choice.background);
    match choice.action
    case Throw =>
    case Finish(leg) => if s.tasks[t].request.Some? { ReplyTrace(worked, s.tasks[t].request.value, leg); }
    case Await(call) => BeginTrace(worked, t, call);
  }

  /** A handler that starts a task, from a state in which it may start. */
  lemma SpawnWorked(s: Kernel, owner: Owner, meant: nat, request: Option<OpId>, choice: Choice)
    requires Inv(s) && s.failure.None? && (request.Some? ==> Answerable(s.flights, request.value))
    requires meant == GenerationOf(s, owner)
    ensures var c, task := Spawn(s, owner, meant, request, choice), Task(owner, meant, request, None, None);
      if choice.action.Throw? then c.failure == Some(HANDLER_FAILED)
      else
        && c.failure.None? && c.trace == s.trace + [Ran(s.nextTask, owner, meant, meant)]
        && Worked(s, c, s.nextTask, task, choice)
    ensures s.pending <= Spawn(s, owner, meant, request, choice).pending
  {
    hide Inv, InvWith, Active, Answerable, Advance, Yielded, Answered, LocalDue, Suspended;
    SpawnActivates(s, owner, request);
    var c := Spawned(s, owner, meant, request);
    AdvanceWorked(c, s.nextTask, choice);
    AdvanceTrace(c, s.nextTask, choice);
  }

  /** `Worked` looks only at the owners, the operations and the replies of the state before. */
  lemma SameStart(s: Kernel, c: Kernel, h: Kernel, t: TaskId, task: Task, choice: Choice)
    requires c.services.Keys == s.services.Keys && |c.ops| == |s.ops| && c.flights.Keys == s.flights.Keys
    requires forall q :: q in s.flights ==> c.flights[q].replied == s.flights[q].replied
    requires Worked(c, h, t, task, choice)
    ensures Worked(s, h, t, task, choice)
  {
    hide Yielded, LocalDue, Suspended;
  }

  /** From `s` to `h`, the task `work` was started as the environment has it, or nothing if there is none. */
  ghost predicate Took(s: Kernel, h: Kernel, taken: seq<TraceEntry>, work: Option<Task>, choice: Choice) {
    if work.None? then h.trace == s.trace + taken && h.tasks == s.tasks && h.failure.None?
    else if choice.action.Throw? then h.failure == Some(HANDLER_FAILED)
    else
      && h.failure.None? && Worked(s, h, s.nextTask, work.value, choice)
      && h.trace ==
           s.trace + taken + [Ran(s.nextTask, work.value.owner, work.value.generation, work.value.generation)]
  }

  lemma FencedStarts(c: Kernel, p: Payload, owner: Owner, generation: nat, request: Option<OpId>, choice: Choice)
    requires Inv(c) && c.failure.None? && (request.Some? ==> Answerable(c.flights, request.value))
    requires (request.Some? && p == Endpoint(owner, generation, request.value))
        || (request.None? && p == Consumer(owner, generation))
    ensures Took(c, OnFenced(c, owner, generation, request, choice), [], NewWork(c, p), choice)
    ensures c.pending <= OnFenced(c, owner, generation, request, choice).pending
  {
    hide InvWith, Spawn, Worked, Answerable;
    if NewWork(c, p).Some? {
      CurrentGeneration(c, owner);
      SpawnWorked(c, owner, generation, request, choice);
    }
  }

  lemma LocalStarts(c: Kernel, e: Event<Payload>, owner: Owner, born: nat, choice: Choice)
    requires Inv(c) && c.failure.None? && e.payload == Background(owner, born) && owner in c.services
    requires born == c.services[owner].generation && forall x :: x in c.pending ==> x.sequence != e.sequence
    ensures Took(c, OnBackground(c, e, owner, born, choice), [], NewWork(c, e.payload), choice)
    ensures c.pending <= OnBackground(c, e, owner, born, choice).pending
  {
    hide InvWith, Spawn, Worked;
    UntrackedKeeps(c, owner, e.sequence);
    var taken := c.(services :=
                    c.services[owner := c.services[owner].(local := c.services[owner].local - {e.sequence})]);
    if c.services[owner].state == RUNNING {
      CurrentGeneration(taken, owner);
      SpawnWorked(taken, owner, born, None, choice);
      if !choice.action.Throw? {
        SameStart(c, taken, Spawn(taken, owner, born, None, choice), c.nextTask, NewWork(c, e.payload).value, choice);
      }
    }
  }

  lemma ClientStarts(c: Kernel, owner: Owner, callback: Option<OpId>, choice: Choice)
    requires Inv(c) && c.failure.None? && (callback.Some? ==> Answerable(c.flights, callback.value))
    ensures Took(c, Spawn(c, owner, GenerationOf(c, owner), callback, choice), [], NewWork(c, Start(owner, callback)),
                 choice)
    ensures c.pending <= Spawn(c, owner, GenerationOf(c, owner), callback, choice).pending
  {
    hide InvWith, Spawn, Worked, Answerable;
    SpawnWorked(c, owner, GenerationOf(c, owner), callback, choice);
  }

  lemma TookSince(s: Kernel, e: Event<Payload>, h: Kernel, work: Option<Task>, choice: Choice)
    requires Took(Started(s, e), h, [], work, choice)
    ensures Took(s, h, [Dispatched(e.time, e.sequence, e.payload)], work, choice)
  {
    hide Worked;
    if work.Some? && !choice.action.Throw? { SameStart(s, Started(s, e), h, s.nextTask, work.value, choice); }
  }

  lemma StartsNoHole(p: Payload)
    requires StartsWork(p)
    ensures HoleOp(Some(p)).None? && FlightHole(p).None?
  {}

  lemma SameNewWork(s: Kernel, e: Event<Payload>)
    ensures NewWork(Started(s, e), e.payload) == NewWork(s, e.payload)
  {}

  /** The handler of the next event takes up exactly the work it stands for. */
  lemma HandlerStarts(s: Kernel, e: Event<Payload>, choice: Choice)
    requires Inv(s) && s.failure.None? && IsLeast(e, s.pending) && StartsWork(e.payload)
    ensures Took(s, RunHandler(Started(s, e), e, choice), [Dispatched(e.time, e.sequence, e.payload)],
                 NewWork(s, e.payload), choice)
    ensures Started(s, e).pending <= RunHandler(Started(s, e), e, choice).pending
  {
    assert e in s.pending;
    hide InvWith, IsLeast, Spawn, OnFenced, OnBackground, Took, Worked, Answerable;
    hide Transition, OnWake, OnDeadline, OnDelivery, OnResponse, OnCommit, Complete, NewWork;
    StartsNoHole(e.payload);
    TakenInv(s, e);
    TakeKeeps(s, e);
    var c := Started(s, e);
    match e.payload {
      case Endpoint(o, g, request) => FencedStarts(c, e.payload, o, g, Some(request), choice);
      case Consumer(o, g) => FencedStarts(c, e.payload, o, g, None, choice);
      case Background(o, born) => LocalArrives(s, e); LocalStarts(c, e, o, born, choice);
      case Start(o, callback) => ClientStarts(c, o, callback, choice);
    }
    SameNewWork(s, e);
    TookSince(s, e, RunHandler(c, e, choice), NewWork(s, e.payload), choice);
  }

  /**
   * Work starts in the dispatch of its event: history records that it ran for the generation it was meant for, and the
   * task did all that the environment had it do. Other such events start nothing.
   */
  lemma WorkStarts(s: Kernel, env: Env)
    requires Inv(s) && s.failure.None? && s.pending != {} && StartsWork(Least(s.pending).payload)
    ensures var e, c, choice := Least(s.pending), Dispatch(s, env), env(s.processed).choice;
      var taken, work := Dispatched(e.time, e.sequence, e.payload), NewWork(s, e.payload);
      if work.None? then c.trace == s.trace + [taken] && c.tasks == s.tasks && c.failure.None?
      else if choice.action.Throw? then c.failure == Some(HANDLER_FAILED)
      else
        && c.failure.None? && Worked(s, c, s.nextTask, work.value, choice)
        && c.trace ==
             s.trace + [taken, Ran(s.nextTask, work.value.owner, work.value.generation, work.value.generation)]
  {
    hide InvWith, RunHandler, Worked, Dispatch, IsLeast, Good, NewWork;
    var e, choice := Least(s.pending), env(s.processed).choice;
    HandlerStarts(s, e, choice);
    DispatchLeaves(s, env);
    var h, work := HandledState(s, env), NewWork(s, e.payload);
    if work.Some? && !choice.action.Throw? { WorkStays(s, h, Dispatch(s, env), s.nextTask, work.value, choice); }
  }

  // ---------- Work that resumes ----------

  /** The operation that an event completes. */
  function Resumes(s: Kernel, p: Payload): Option<OpId> {
    match p
    case Wake(op) => Some(op)
    case Admission(op) => Some(op)
    case Deadline(op) => if op in s.flights && !s.flights[op].settled then Some(op) else None
    case Response(op) => if op in s.flights && !s.flights[op].settled then Some(op) else None
    case Commit(_, op) => if op in s.commits then Some(op) else None
    case _ => None
  }

  /** A live task waits for the operation. */
  predicate Waited(s: Kernel, op: OpId) {
    op < |s.ops| && s.ops[op].task in s.tasks && s.tasks[s.ops[op].task].waiting == Some(op)
  }

  /** The state in which the task of the completed operation is resumed. */
  function SettledState(c: Kernel, p: Payload): Kernel
    requires Resumes(c, p).Some?
  {
    match p
    case Deadline(op) => TimedOutState(c, op)
    case Response(op) => RespondedState(c, op)
    case Commit(_, op) => CommittedState(c, op)
    case _ => c
  }

  lemma HandlerCompletes(c: Kernel, e: Event<Payload>, choice: Choice)
    requires Resumes(c, e.payload).Some? && Resumes(c, e.payload).value < |c.ops|
    ensures RunHandler(c, e, choice) == Complete(SettledState(c, e.payload), Resumes(c, e.payload).value, choice)
  {
    hide Advance, Without;
  }

  /** Up to the completion itself, the invariant holds. */
  lemma SettledKeeps(s: Kernel, e: Event<Payload>)
    requires Inv(s) && IsLeast(e, s.pending) && Resumes(s, e.payload).Some?
    ensures var r, op := SettledState(Started(s, e), e.payload), Resumes(s, e.payload).value;
      InvWith(r, s.tasks, None, Some(op)) && op < |s.ops| && s.now <= e.time
  {
    assert e in s.pending;
    hide InvWith, IsLeast, Without;
    TakeKeeps(s, e);
    var c := Started(s, e);
    match e.payload
    case Wake(op) =>
    case Admission(op) =>
    case Deadline(op) => DeadlineArrives(s, e, op); DeadlineSettles(c, op);
    case Response(op) => FlightIsOp(s, op); ResponseSettles(c, op);
    case Commit(_, op) => CommitTaken(c, op);
  }

  lemma TaskIsCurrent(r: Kernel, op: OpId)
    requires InvWith(r, r.tasks, None, Some(op)) && op < |r.ops| && r.ops[op].task in r.tasks
    ensures r.ops[op].settled ==> r.tasks[r.ops[op].task].waiting != Some(op)
    ensures !r.ops[op].settled ==> r.tasks[r.ops[op].task].waiting == Some(op)
    ensures r.tasks[r.ops[op].task].generation == GenerationOf(r, r.tasks[r.ops[op].task].owner)
  {
    hide EventsOk, WakesOk, AwaitsOk, GenerationsOk, LocalOk, CommitsOk, FlightsOk, ReferencesOk, TraceOk;
    assert TaskOk(r.ops[op].task, r.tasks[r.ops[op].task], r.ops, r.generations, r.nextTask);
  }

  /** A task that waits for the completed operation is resumed. */
  lemma CompleteWorked(r: Kernel, op: OpId, choice: Choice)
    requires InvWith(r, r.tasks, None, Some(op)) && r.failure.None? && op < |r.ops|
    ensures var c := Complete(r, op, choice);
      if !Waited(r, op) then c == r
      else if choice.action.Throw? then c.failure == Some(HANDLER_FAILED)
      else
        var t := r.ops[op].task;
        var task := r.tasks[t].(waiting := None);
        && c.failure.None? && Worked(r, c, t, task, choice)
        && c.trace == r.trace + [Resumed(t, op, task.owner, task.generation, task.generation)]
    ensures r.pending <= Complete(r, op, choice).pending
  {
    hide InvWith, Advance, Worked, Active;
    if r.ops[op].task in r.tasks { TaskIsCurrent(r, op); }
    if Waited(r, op) {
      var t, c := r.ops[op].task, ResumedState(r, op);
      CompletingActivates(r, op);
      AdvanceWorked(c, t, choice);
      AdvanceTrace(c, t, choice);
      if !choice.action.Throw? { SameStart(r, c, Complete(r, op, choice), t, c.tasks[t], choice); }
    }
  }

  function CommitEntry(s: Kernel, p: Payload): seq<TraceEntry> {
    if p.Commit? && p.op in s.commits then
      var c := s.commits[p.op];
      [Committed(p.op, c.owner, c.generation, c.generation)]
    else []
  }

  lemma CommitIsCurrent(s: Kernel, op: OpId)
    requires Inv(s) && op in s.commits
    ensures s.commits[op].generation == GenerationOf(s, s.commits[op].owner)
  {
    hide EventsOk, TasksOk, WakesOk, AwaitsOk, GenerationsOk, LocalOk, FlightsOk, ReferencesOk, TraceOk;
  }

  /** From `s` to `h`, the task that waited for the operation went on as the environment has it; without one nothing. */
  ghost predicate WentOn(s: Kernel, h: Kernel, taken: seq<TraceEntry>, op: OpId, choice: Choice) {
    if !Waited(s, op) then h.trace == s.trace + taken && h.tasks == s.tasks && h.failure.None?
    else if choice.action.Throw? then h.failure == Some(HANDLER_FAILED)
    else
      var t := s.ops[op].task;
      var task := s.tasks[t].(waiting := None);
      && h.failure.None? && Worked(s, h, t, task, choice)
      && h.trace == s.trace + taken + [Resumed(t, op, task.owner, task.generation, task.generation)]
  }

  /** What the completed operation leaves as it was, and what it adds to history. */
  lemma SettledOnly(c: Kernel, p: Payload)
    requires Resumes(c, p).Some?
    ensures var r := SettledState(c, p);
      && r.tasks == c.tasks && r.ops == c.ops && r.services == c.services && r.failure == c.failure
      && r.flights.Keys == c.flights.Keys && forall q :: q in c.flights ==> r.flights[q].replied == c.flights[q].replied
    ensures SettledState(c, p).trace == c.trace + if !p.Commit? then [] else
              [Committed(p.op, c.commits[p.op].owner, c.commits[p.op].generation,
                         GenerationOf(c, c.commits[p.op].owner))]
  {
    hide Without;
  }

  lemma SettledTrace(s: Kernel, e: Event<Payload>)
    requires Inv(s) && Resumes(s, e.payload).Some?
    ensures SettledState(Started(s, e), e.payload).trace ==
            s.trace + ([Dispatched(e.time, e.sequence, e.payload)] + CommitEntry(s, e.payload))
  {
    SettledOnly(Started(s, e), e.payload);
    hide InvWith, SettledState;
    if e.payload.Commit? { CommitIsCurrent(s, e.payload.op); }
  }

  lemma HandlerResumes(s: Kernel, e: Event<Payload>, choice: Choice)
    requires Inv(s) && s.failure.None? && IsLeast(e, s.pending) && Resumes(s, e.payload).Some?
    ensures WentOn(s, RunHandler(Started(s, e), e, choice),
                   [Dispatched(e.time, e.sequence, e.payload)] + CommitEntry(s, e.payload),
                   Resumes(s, e.payload).value, choice)
    ensures SettledState(Started(s, e), e.payload).pending <= RunHandler(Started(s, e), e, choice).pending
  {
    hide InvWith, IsLeast, Complete, Worked, SettledState, RunHandler, CommitEntry;
    var c, op := Started(s, e), Resumes(s, e.payload).value;
    SettledKeeps(s, e);
    HandlerCompletes(c, e, choice);
    var r, h := SettledState(c, e.payload), RunHandler(c, e, choice);
    SettledOnly(c, e.payload);
    SettledTrace(s, e);
    CompleteWorked(r, op, choice);
    if Waited(s, op) && !choice.action.Throw? {
      SameStart(s, r, h, s.ops[op].task, s.tasks[s.ops[op].task].(waiting := None), choice);
    }
  }

  /**
   * The task that waits for an operation goes on in the dispatch of the event that completes it: history records it,
   * and the task does all that the environment has it do. A commit is carried out before.
   */
  lemma WorkResumes(s: Kernel, env: Env)
    requires Inv(s) && s.failure.None? && s.pending != {} && Resumes(s, Least(s.pending).payload).Some?
    ensures var e := Least(s.pending);
      WentOn(s, Dispatch(s, env), [Dispatched(e.time, e.sequence, e.payload)] + CommitEntry(s, e.payload),
             Resumes(s, e.payload).value, env(s.processed).choice)
  {
    hide InvWith, RunHandler, Worked, Dispatch, IsLeast, Good, Resumes, CommitEntry;
    var e, choice := Least(s.pending), env(s.processed).choice;
    HandlerResumes(s, e, choice);
    DispatchLeaves(s, env);
    var h, op := HandledState(s, env), Resumes(s, e.payload).value;
    if Waited(s, op) && !choice.action.Throw? {
      WorkStays(s, h, Dispatch(s, env), s.ops[op].task, s.tasks[s.ops[op].task].(waiting := None), choice);
    }
  }

  // ---------- Requests that are delivered ----------

  /** Nobody can take the request: no such endpoint, or its service is not running. */
  predicate Refused(s: Kernel, target: Owner, choice: Choice) {
    !choice.endpointKnown || (target in s.services && s.services[target].state != RUNNING)
  }

  /** The work a request becomes at its target: an endpoint of a service, or an action of a client. */
  function WorkFor(s: Kernel, target: Owner, op: OpId): Payload {
    if target in s.services then Endpoint(target, s.services[target].generation, op) else Start(target, Some(op))
  }

  /** From `s` to `c`, the request was refused with the error reply, or handed to its target at once. */
  ghost predicate HandedOver(s: Kernel, c: Kernel, op: OpId, choice: Choice) {
    && op in s.flights && Answerable(c.flights, op)
    && if Refused(s, s.flights[op].target, choice) then Answered(s.flights, c, op, choice.errorLeg)
       else DueAt(c.pending, c.now, WorkFor(s, s.flights[op].target, op))
  }

  lemma DeliveredOver(c: Kernel, op: OpId, choice: Choice)
    requires Inv(c) && c.failure.None? && op in c.flights
    ensures var h := OnDelivery(c, op, choice);
      HandedOver(c, h, op, choice) && h.failure.None? && h.now == c.now && h.tasks == c.tasks && h.trace == c.trace
      && c.pending <= h.pending
  {
    hide InvWith, OnDelivery, HandedOver;
    if Refused(c, c.flights[op].target, choice) {
      DeliveryRefused(c, op, choice);
    } else {
      DeliveryTaken(c, op, choice);
    }
  }

  lemma DeliveryTaken(c: Kernel, op: OpId, choice: Choice)
    requires op in c.flights && !Refused(c, c.flights[op].target, choice)
    ensures var h := OnDelivery(c, op, choice);
      HandedOver(c, h, op, choice) && h.failure == c.failure && h.now == c.now && h.tasks == c.tasks
      && h.trace == c.trace && c.pending <= h.pending
  {
    var admitted := c.(flights := c.flights[op := c.flights[op].(state := ADMITTED)]);
    var p := WorkFor(c, c.flights[op].target, op);
    DeliveryIsWork(c, op, choice);
    hide OnDelivery, WorkFor, KindOf;
    assert HasEvent(Schedule(admitted, c.now, p).pending, c.now, c.next, p);
  }

  lemma DeliveryIsWork(c: Kernel, op: OpId, choice: Choice)
    requires op in c.flights && !Refused(c, c.flights[op].target, choice)
    ensures OnDelivery(c, op, choice) ==
            Schedule(c.(flights := c.flights[op := c.flights[op].(state := ADMITTED)]), c.now,
                     WorkFor(c, c.flights[op].target, op))
  {
    hide Reply, KindOf, Schedule;
  }

  lemma DeliveryRefused(c: Kernel, op: OpId, choice: Choice)
    requires Inv(c) && op in c.flights && Refused(c, c.flights[op].target, choice)
    ensures var h := OnDelivery(c, op, choice);
      HandedOver(c, h, op, choice) && h.failure == c.failure && h.now == c.now && h.tasks == c.tasks
      && h.trace == c.trace && c.pending <= h.pending
  {
    hide InvWith, Reply, KindOf, Schedule, FlightsOk, Answered, Answerable;
    var admitted := c.(flights := c.flights[op := c.flights[op].(state := ADMITTED)]);
    AdmittedKeeps(c, op);
    FlightsHere(admitted);
    ReplyAnswers(admitted, op, choice.errorLeg);
    ReplyTrace(admitted, op, choice.errorLeg);
    SameReplies(c.flights, admitted.flights, OnDelivery(c, op, choice), op, choice.errorLeg);
    ReplyKeepsAnswerable(admitted, op, choice.errorLeg);
  }

  lemma SameReplies(before: Flights, flights: Flights, c: Kernel, op: OpId, leg: Leg)
    requires Answered(flights, c, op, leg) && op in before && before[op].replied == flights[op].replied
    ensures Answered(before, c, op, leg)
  {}

  lemma ReplyKeepsAnswerable(s: Kernel, op: OpId, leg: Leg)
    requires Answerable(s.flights, op)
    ensures Answerable(Reply(s, op, leg).flights, op)
  {
    hide KindOf;
  }

  lemma FlightsHere(s: Kernel)
    requires Inv(s)
    ensures FlightsOk(s.flights, s.ops, s.pending, s.next, s.now, None)
  {
    hide EventsOk, TasksOk, WakesOk, AwaitsOk, GenerationsOk, LocalOk, CommitsOk, FlightsOk, ReferencesOk, TraceOk;
  }

  lemma HandedSince(s: Kernel, e: Event<Payload>, h: Kernel, d: Kernel, op: OpId, choice: Choice)
    requires HandedOver(Started(s, e), h, op, choice) && Leaves(h, d)
    ensures HandedOver(s, d, op, choice)
  {
    hide Answered, DueAt;
    if Refused(s, s.flights[op].target, choice) { AnsweredStays(s.flights, h, d, op, choice.errorLeg); }
    else { DueStays(h, d, h.now, WorkFor(s, s.flights[op].target, op)); }
  }

  /**
   * A request that arrives is handed to its target at once, as work for the target's current process generation, or
   * refused with an error reply when nobody can take it.
   */
  lemma RequestIsHandedOver(s: Kernel, env: Env)
    requires Inv(s) && s.failure.None? && s.pending != {} && Least(s.pending).payload.Delivery?
    ensures var e, c, op := Least(s.pending), Dispatch(s, env), Least(s.pending).payload.op;
      && c.failure.None? && c.now == e.time && c.tasks == s.tasks
      && c.trace == s.trace + [Dispatched(e.time, e.sequence, e.payload)]
      && HandedOver(s, c, op, env(s.processed).choice)
  {
    hide InvWith, IsLeast, Dispatch, OnDelivery, HandedOver, Good, Leaves;
    var e, choice := Least(s.pending), env(s.processed).choice;
    TakenInv(s, e);
    TakeKeeps(s, e);
    DeliveredOver(Started(s, e), e.payload.op, choice);
    DispatchLeaves(s, env);
    LeavesMost(HandledState(s, env), Dispatch(s, env));
    HandedSince(s, e, HandledState(s, env), Dispatch(s, env), e.payload.op, choice);
  }

  lemma LeavesMost(h: Kernel, d: Kernel)
    requires Leaves(h, d)
    ensures d.failure == h.failure && d.now == h.now && d.tasks == h.tasks && d.trace == h.trace
    ensures d.flights == h.flights && d.services == h.services && d.generations == h.generations
  {}
}
