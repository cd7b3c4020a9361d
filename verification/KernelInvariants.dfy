/**
 * What every reachable state of the kernel keeps: each suspended task waits for one operation of its own that a pending
 * event will complete, generations agree, and each flight is bound by its deadline.
 */
module KernelInvariants {
  import opened Outcomes
  import opened Scheduler
  import opened KernelModel

  type Events = set<Event<Payload>>
  type Tasks = map<TaskId, Task>
  type Flights = map<OpId, Flight>
  type Commits = map<OpId, PendingCommit>

  // ---------- Pending events ----------

  ghost predicate EventOk(next: EventId, now: nat, e: Event<Payload>) {
    e.sequence < next && now <= e.time && e.kind == KindOf(e.payload)
  }

  /** Every pending event is at or after the clock, and was issued once. */
  ghost predicate EventsOk(pending: Events, next: EventId, now: nat) {
    DistinctSequences(pending) && forall e :: e in pending ==> EventOk(next, now, e)
  }

  /** The sequence `id`, if it is still pending, belongs to the event with payload `p`. */
  ghost predicate Issued(pending: Events, next: EventId, id: EventId, p: Payload) {
    id < next && forall e :: e in pending && e.sequence == id ==> e.payload == p
  }

  ghost predicate Awaited(pending: Events, p: Payload) {
    exists e :: e in pending && e.payload == p
  }

  // ---------- Tasks and operations ----------

  ghost predicate TaskOk(t: TaskId, task: Task, ops: seq<Operation>, generations: map<Owner, nat>, nextTask: TaskId) {
    && t < nextTask && task.created.None?
    && task.generation == GenerationIn(generations, task.owner)
    && task.waiting.Some? && task.waiting.value < |ops|
    && ops[task.waiting.value].task == t && !ops[task.waiting.value].settled
  }

  /** Each live task waits on exactly one unsettled operation of its own, in the current process generation. */
  ghost predicate TasksOk(tasks: Tasks, ops: seq<Operation>, generations: map<Owner, nat>, nextTask: TaskId) {
    && (forall t :: t in tasks ==> TaskOk(t, tasks[t], ops, generations, nextTask))
    && (forall op :: 0 <= op < |ops| ==> ops[op].task < nextTask)
    && (forall op :: 0 <= op < |ops| && !ops[op].settled && ops[op].task in tasks ==>
        tasks[ops[op].task].waiting == Some(op))
  }

  ghost predicate WakesOk(ops: seq<Operation>, pending: Events, next: EventId) {
    forall op :: 0 <= op < |ops| && ops[op].wake.Some? ==> Issued(pending, next, ops[op].wake.value, Wake(op))
  }

  /** The pending event, or the unsettled flight, that will complete an operation its task waits for. */
  ghost predicate Supported(op: OpId, operation: Operation, task: Task, flights: Flights, commits: Commits,
                            pending: Events) {
    match operation.call
    case Sleep(_) => Awaited(pending, Wake(op))
    case Request(_, _, _) => op in flights && !flights[op].settled
    case Publish => Awaited(pending, Admission(op))
    case CommitTransaction =>
      op in commits && commits[op] == PendingCommit(task.owner, task.generation)
      && Awaited(pending, Commit(task.owner, op))
  }

  /** The operation whose completing event was just taken. */
  function HoleOp(hole: Option<Payload>): Option<OpId> {
    match hole
    case Some(Wake(op)) => Some(op)
    case Some(Deadline(op)) => Some(op)
    case Some(Admission(op)) => Some(op)
    case Some(Commit(_, op)) => Some(op)
    case _ => None
  }

  ghost predicate AwaitsOk(tasks: Tasks, ops: seq<Operation>, flights: Flights, commits: Commits, pending: Events,
                           hole: Option<OpId>) {
    forall t :: t in tasks && tasks[t].waiting.Some? && tasks[t].waiting.value < |ops| && tasks[t].waiting != hole ==>
      Supported(tasks[t].waiting.value, ops[tasks[t].waiting.value], tasks[t], flights, commits, pending)
  }

  // ---------- Generations, services and commits ----------

  /** A service and the core agree on the process generation of the owner. */
  ghost predicate GenerationsOk(services: map<Owner, Service>, generations: map<Owner, nat>) {
    forall o :: o in services ==> o in generations && services[o].generation == generations[o]
  }

  /** A local event is in the set of its owner, and was scheduled by the owner's current process generation. */
  ghost predicate Tracked(services: map<Owner, Service>, e: Event<Payload>) {
    e.payload.Background? ==>
      && e.payload.owner in services && e.sequence in services[e.payload.owner].local
      && e.payload.born == services[e.payload.owner].generation
  }

  /**
   * The local sets of the services hold exactly the pending local events; the broker's handles exactly its own events.
   */
  ghost predicate LocalOk(services: map<Owner, Service>, timers: set<EventId>, pending: Events, next: EventId) {
    && (forall o, id :: o in services && id in services[o].local ==>
          Issued(pending, next, id, Background(o, services[o].generation)))
    && (forall e :: e in pending ==> Tracked(services, e))
    && (forall id :: id in timers ==> id < next)
    && (forall e :: e in pending ==> (e.sequence in timers <==> e.payload.Broker?))
  }

  /** No commit of an older process generation is still pending. */
  ghost predicate CommitsOk(commits: Commits, ops: seq<Operation>, generations: map<Owner, nat>) {
    forall op :: op in commits ==> op < |ops| && commits[op].generation == GenerationIn(generations, commits[op].owner)
  }

  // ---------- Network flights ----------

  /** A flight is unsettled until its deadline event; it settles once, and the earlier of response and deadline wins. */
  ghost predicate FlightOk(op: OpId, f: Flight, now: nat) {
    && (f.settled <==> f.outcome.Some?)
    && (f.state == SENT ==> !f.replied)
    && (!f.replied ==> f.responseDue.None?)
    && (f.outcome.None? ==> now <= f.deadline)
    && (f.outcome.Some? && f.outcome.value.Success? ==>
        f.responseDue == Some(f.outcome.value.time) && f.outcome.value.time < f.deadline)
    && (f.outcome.Some? && f.outcome.value.TimedOut? ==>
          f.outcome.value.time == f.deadline && f.deadline <= now
              && (f.responseDue.Some? ==> f.deadline <= f.responseDue.value))
  }

  ghost predicate HasEvent(pending: Events, time: nat, id: EventId, p: Payload) {
    Event(time, id, KindOf(p), p) in pending
  }

  /** The events of a flight that are still to come. */
  ghost predicate FlightEventsOk(op: OpId, f: Flight, pending: Events, next: EventId, hole: Option<Payload>) {
    && f.deadlineId < next
    && (!f.settled && hole != Some(Deadline(op)) ==> HasEvent(pending, f.deadline, f.deadlineId, Deadline(op)))
    && (forall e :: e in pending && (e.payload == Deadline(op) || e.sequence == f.deadlineId) ==>
          e.payload == Deadline(op) && e.sequence == f.deadlineId && e.time == f.deadline)
    && (f.settled ==> !Awaited(pending, Deadline(op)))
    && (f.responseDue.Some? && !f.settled && hole != Some(Response(op)) ==> Awaited(pending, Response(op)))
    && (forall e :: e in pending && e.payload == Response(op) ==>
        f.responseDue == Some(e.time) && f.deadlineId < e.sequence)
    && (forall e, g :: e in pending && g in pending && e.payload == Response(op) && g.payload == Response(op) ==>
        e == g)
    && (hole == Some(Response(op)) ==> !Awaited(pending, Response(op)))
  }

  ghost predicate FlightsOk(flights: Flights, ops: seq<Operation>, pending: Events, next: EventId, now: nat,
                            hole: Option<Payload>) {
    forall op :: op in flights ==>
        op < |ops| && FlightOk(op, flights[op], now)
        && FlightEventsOk(op, flights[op], pending, next, hole)
  }

  ghost predicate Answerable(flights: Flights, request: OpId) {
    request in flights && flights[request].state != SENT
  }

  /** An event with this payload finds the operation or flight it names, admitted if it is to be answered. */
  ghost predicate Referable(p: Payload, flights: Flights, opCount: nat) {
    match p
    case Wake(op) => op < opCount
    case Deadline(op) => op in flights
    case Delivery(op) => op in flights
    case Response(op) => op in flights
    case Admission(op) => op < opCount
    case Commit(_, op) => op < opCount
    case Endpoint(_, _, request) => Answerable(flights, request)
    case Start(_, callback) => callback.Some? ==> Answerable(flights, callback.value)
    case _ => true
  }

  /** Events and tasks that will use a flight find it, and those that answer it find it admitted. */
  ghost predicate ReferencesOk(pending: Events, tasks: Tasks, flights: Flights, ops: seq<Operation>) {
    && (forall e :: e in pending ==> Referable(e.payload, flights, |ops|))
    && (forall t :: t in tasks && tasks[t].request.Some? ==> Answerable(flights, tasks[t].request.value))
  }

  // ---------- History ----------

  function TimeOf(e: TraceEntry): Option<nat> {
    if e.Dispatched? then Some(e.time) else None
  }

  ghost predicate IsResume(trace: seq<TraceEntry>, i: nat, op: OpId) {
    i < |trace| && trace[i].Resumed? && trace[i].op == op
  }

  /** Each operation resumed its task at most once, and everything that ran belonged to the generation of its time. */
  ghost predicate TraceOk(trace: seq<TraceEntry>, ops: seq<Operation>, now: nat) {
    && (forall i :: 0 <= i < |trace| && trace[i].Dispatched? ==> trace[i].time <= now)
    && (forall i, j :: 0 <= i < j < |trace| && trace[i].Dispatched? && trace[j].Dispatched? ==>
        trace[i].time <= trace[j].time)
    && (forall i: nat, op: nat :: IsResume(trace, i, op) ==> op < |ops| && ops[op].settled)
    && (forall i: nat, j: nat, op: nat :: IsResume(trace, i, op) && IsResume(trace, j, op) ==> i == j)
    && (forall i :: 0 <= i < |trace| && !trace[i].Dispatched? ==> trace[i].generation == trace[i].current)
  }

  // ---------- The invariant ----------

  /**
   * The invariant of `s` with the task table `tasks`. `hole` is a flight event just taken, and `waits` an operation
   * whose completion is under way.
   */
  ghost predicate InvWith(s: Kernel, tasks: Tasks, hole: Option<Payload>, waits: Option<OpId>) {
    && EventsOk(s.pending, s.next, s.now)
    && TasksOk(tasks, s.ops, s.generations, s.nextTask)
    && WakesOk(s.ops, s.pending, s.next)
    && AwaitsOk(tasks, s.ops, s.flights, s.commits, s.pending, waits)
    && GenerationsOk(s.services, s.generations)
    && LocalOk(s.services, s.timers, s.pending, s.next)
    && CommitsOk(s.commits, s.ops, s.generations)
    && FlightsOk(s.flights, s.ops, s.pending, s.next, s.now, hole)
    && ReferencesOk(s.pending, tasks, s.flights, s.ops)
    && TraceOk(s.trace, s.ops, s.now)
  }

  ghost predicate Inv(s: Kernel) {
    InvWith(s, s.tasks, None, None)
  }

  /** The only ways a run may fail: user code throws, or a scenario asks a service for an impossible transition. */
  ghost predicate Excused(s: Kernel) {
    s.failure == Some(HANDLER_FAILED) || s.failure == Some(INVALID_SERVICE_TRANSITION)
  }

  /** The parts of the invariant that do not look at the tasks; they outlive a failure. */
  ghost predicate Lasting(s: Kernel) {
    && EventsOk(s.pending, s.next, s.now)
    && WakesOk(s.ops, s.pending, s.next)
    && GenerationsOk(s.services, s.generations)
    && LocalOk(s.services, s.timers, s.pending, s.next)
    && CommitsOk(s.commits, s.ops, s.generations)
    && FlightsOk(s.flights, s.ops, s.pending, s.next, s.now, None)
    && TraceOk(s.trace, s.ops, s.now)
  }

  ghost predicate Good(s: Kernel) {
    if s.failure.Some? then Excused(s) && Lasting(s) else Inv(s)
  }

  lemma GoodLasts(s: Kernel)
    requires Good(s)
    ensures Lasting(s)
  {
    hide EventsOk, TasksOk, WakesOk, AwaitsOk, GenerationsOk, LocalOk, CommitsOk, FlightsOk, ReferencesOk, TraceOk;
  }

  lemma FailedLasts(s: Kernel, tasks: Tasks, code: ErrorCode)
    requires InvWith(s, tasks, None, None) && s.failure.None?
    ensures Lasting(Fail(s, code))
  {
    hide EventsOk, TasksOk, WakesOk, AwaitsOk, GenerationsOk, LocalOk, CommitsOk, FlightsOk, ReferencesOk, TraceOk;
  }

  ghost predicate RunnableOk(t: TaskId, task: Task, nextTask: TaskId, generations: map<Owner, nat>, flights: Flights) {
    && t < nextTask && task.created.None? && task.waiting.None?
    && task.generation == GenerationIn(generations, task.owner)
    && (task.request.Some? ==> Answerable(flights, task.request.value))
  }

  /** The task `t` is running: it waits for nothing, and everything else is in order. */
  ghost predicate Active(s: Kernel, t: TaskId) {
    && t in s.tasks && s.failure.None?
    && InvWith(s, s.tasks - {t}, None, None)
    && RunnableOk(t, s.tasks[t], s.nextTask, s.generations, s.flights)
    && (forall op :: 0 <= op < |s.ops| && s.ops[op].task == t ==> s.ops[op].settled)
  }

  // ---------- Scheduling ----------

  lemma ScheduledEvents(pending: Events, next: EventId, now: nat, time: nat, p: Payload)
    requires EventsOk(pending, next, now) && now <= time
    ensures EventsOk(pending + {Event(time, next, KindOf(p), p)}, next + 1, now)
  {
    var more := pending + {Event(time, next, KindOf(p), p)};
    forall e | e in more ensures EventOk(next + 1, now, e) { if e in pending { assert EventOk(next, now, e); } }
    forall e, f | e in more && f in more && e.sequence == f.sequence ensures e == f {
      if e in pending { assert EventOk(next, now, e); }
      if f in pending { assert EventOk(next, now, f); }
    }
  }

  lemma AddedWakes(ops: seq<Operation>, pending: Events, next: EventId, e: Event<Payload>)
    requires WakesOk(ops, pending, next) && e.sequence == next
    ensures WakesOk(ops, pending + {e}, next + 1)
  {
    forall op | 0 <= op < |ops| && ops[op].wake.Some?
      ensures Issued(pending + {e}, next + 1, ops[op].wake.value, Wake(op))
    {
      assert Issued(pending, next, ops[op].wake.value, Wake(op));
    }
  }

  /** An event that is no local work, and of the broker's only with its handle. */
  lemma AddedLocal(services: map<Owner, Service>, timers: set<EventId>, pending: Events, next: EventId, now: nat,
                   e: Event<Payload>)
    requires LocalOk(services, timers, pending, next) && EventsOk(pending, next, now)
    requires e.sequence == next && !e.payload.Background?
    ensures LocalOk(services, if e.payload.Broker? then timers + {next} else timers, pending + {e}, next + 1)
  {
    forall o, id | o in services && id in services[o].local
      ensures Issued(pending + {e}, next + 1, id, Background(o, services[o].generation))
    {
      assert Issued(pending, next, id, Background(o, services[o].generation));
    }
    forall f | f in pending ensures f.sequence < next { assert EventOk(next, now, f); }
  }

  lemma StillAwaited(pending: Events, more: Events, p: Payload)
    requires Awaited(pending, p) && pending <= more
    ensures Awaited(more, p)
  {
    var f :| f in pending && f.payload == p;
    assert f in more;
  }

  lemma AwaitsGrow(tasks: Tasks, ops: seq<Operation>, flights: Flights, commits: Commits, pending: Events,
                   more: Events, waits: Option<OpId>)
    requires AwaitsOk(tasks, ops, flights, commits, pending, waits) && pending <= more
    ensures AwaitsOk(tasks, ops, flights, commits, more, waits)
  {
    forall t | t in tasks && tasks[t].waiting.Some? && tasks[t].waiting.value < |ops| && tasks[t].waiting != waits
      ensures Supported(tasks[t].waiting.value, ops[tasks[t].waiting.value], tasks[t], flights, commits, more)
    {
      var op := tasks[t].waiting.value;
      assert Supported(op, ops[op], tasks[t], flights, commits, pending);
      match ops[op].call
      case Sleep(_) => StillAwaited(pending, more, Wake(op));
      case Request(_, _, _) =>
      case Publish => StillAwaited(pending, more, Admission(op));
      case CommitTransaction => StillAwaited(pending, more, Commit(tasks[t].owner, op));
    }
  }

  /** A fresh event that is not part of this flight does not matter to it. */
  lemma AddedToFlight(op: OpId, f: Flight, pending: Events, next: EventId, hole: Option<Payload>, e: Event<Payload>)
    requires FlightEventsOk(op, f, pending, next, hole) && e.sequence == next
    requires e.payload != Deadline(op) && e.payload != Response(op)
    ensures FlightEventsOk(op, f, pending + {e}, next + 1, hole)
  {
    if Awaited(pending, Response(op)) { StillAwaited(pending, pending + {e}, Response(op)); }
  }

  /** A fresh event that is not part of any flight does not matter to any flight. */
  lemma AddedToFlights(flights: Flights, ops: seq<Operation>, pending: Events, next: EventId, now: nat,
                       hole: Option<Payload>, e: Event<Payload>)
    requires FlightsOk(flights, ops, pending, next, now, hole) && e.sequence == next
    requires e.payload.Deadline? ==> e.payload.op !in flights
    requires !e.payload.Response?
    ensures FlightsOk(flights, ops, pending + {e}, next + 1, now, hole)
  {
    hide FlightEventsOk, FlightOk;
    forall op | op in flights ensures FlightEventsOk(op, flights[op], pending + {e}, next + 1, hole) {
      AddedToFlight(op, flights[op], pending, next, hole, e);
    }
  }

  lemma AddedReference(pending: Events, tasks: Tasks, flights: Flights, ops: seq<Operation>, e: Event<Payload>)
    requires ReferencesOk(pending, tasks, flights, ops) && Referable(e.payload, flights, |ops|)
    ensures ReferencesOk(pending + {e}, tasks, flights, ops)
  {}

  /** An event that belongs to no flight, and is tracked where local work and the broker's events are. */
  lemma AddedKeeps(s: Kernel, tasks: Tasks, waits: Option<OpId>, time: nat, p: Payload, services: map<Owner, Service>,
                   timers: set<EventId>)
    requires InvWith(s, tasks, None, waits) && s.now <= time
    requires !p.Deadline? && !p.Response? && Referable(p, s.flights, |s.ops|)
    requires GenerationsOk(services, s.generations)
    requires LocalOk(services, timers, s.pending + {Event(time, s.next, KindOf(p), p)}, s.next + 1)
    ensures InvWith(Schedule(s.(services := services, timers := timers), time, p), tasks, None, waits)
  {
    hide EventsOk, TasksOk, WakesOk, AwaitsOk, GenerationsOk, LocalOk, CommitsOk, FlightsOk, ReferencesOk, TraceOk;
    var e := Event(time, s.next, KindOf(p), p);
    AddedReference(s.pending, tasks, s.flights, s.ops, e);
    ScheduledEvents(s.pending, s.next, s.now, time, p);
    AddedWakes(s.ops, s.pending, s.next, e);
    AddedToFlights(s.flights, s.ops, s.pending, s.next, s.now, None, e);
    AwaitsGrow(tasks, s.ops, s.flights, s.commits, s.pending, s.pending + {e}, waits);
  }

  lemma ScheduleKeeps(s: Kernel, tasks: Tasks, waits: Option<OpId>, time: nat, p: Payload)
    requires InvWith(s, tasks, None, waits) && s.now <= time
    requires !p.Deadline? && !p.Response? && !p.Background? && !p.Broker? && Referable(p, s.flights, |s.ops|)
    ensures InvWith(Schedule(s, time, p), tasks, None, waits)
  {
    hide EventsOk, TasksOk, WakesOk, AwaitsOk, GenerationsOk, LocalOk, CommitsOk, FlightsOk, ReferencesOk, TraceOk;
    AddedLocal(s.services, s.timers, s.pending, s.next, s.now, Event(time, s.next, KindOf(p), p));
    AddedKeeps(s, tasks, waits, time, p, s.services, s.timers);
  }

  /** Local work is tracked by the id of its event, and scheduled by the current process generation. */
  lemma TrackedLocal(services: map<Owner, Service>, timers: set<EventId>, pending: Events, next: EventId, now: nat,
                     owner: Owner,
                     e: Event<Payload>)
    requires owner in services && EventsOk(pending, next, now) && LocalOk(services, timers, pending, next)
    requires e.sequence == next && e.payload == Background(owner, services[owner].generation)
    ensures LocalOk(services[owner := services[owner].(local := services[owner].local + {next})], timers, pending
                    + {e}, next + 1)
  {
    var tracked := services[owner := services[owner].(local := services[owner].local + {next})];
    forall f | f in pending ensures f.sequence < next && Tracked(tracked, f) {
      assert EventOk(next, now, f) && Tracked(services, f);
    }
    assert Tracked(tracked, e);
    forall o, id | o in tracked && id in tracked[o].local
      ensures Issued(pending + {e}, next + 1, id, Background(o, tracked[o].generation))
    {
      if id != next || o != owner { assert Issued(pending, next, id, Background(o, services[o].generation)); }
    }
  }

  lemma TrackedKeeps(s: Kernel, tasks: Tasks, owner: Owner, delay: nat)
    requires InvWith(s, tasks, None, None) && owner in s.services
    ensures InvWith(TrackLocal(s, owner, delay), tasks, None, None)
  {
    hide EventsOk, TasksOk, WakesOk, AwaitsOk, LocalOk, CommitsOk, FlightsOk, ReferencesOk, TraceOk;
    var service := s.services[owner];
    var tracked := s.services[owner := service.(local := service.local + {s.next})];
    var p := Background(owner, service.generation);
    TrackedLocal(s.services, s.timers, s.pending, s.next, s.now, owner, Event(s.now + delay, s.next, KindOf(p), p));
    AddedKeeps(s, tasks, None, s.now + delay, p, tracked, s.timers);
  }

  lemma {:induction false} ScheduleLocalKeeps(s: Kernel, tasks: Tasks, owner: Owner, delays: seq<nat>)
    requires InvWith(s, tasks, None, None)
    ensures InvWith(ScheduleLocal(s, owner, delays), tasks, None, None)
    decreases |delays|
  {
    hide InvWith;
    if delays != [] && owner in s.services {
      TrackedKeeps(s, tasks, owner, delays[0]);
      ScheduleLocalKeeps(TrackLocal(s, owner, delays[0]), tasks, owner, delays[1..]);
    }
  }
}
