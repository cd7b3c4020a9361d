/** Each operation of the kernel keeps the invariant: replies, task advances, completions, crashes and dispatch. */
module KernelSteps {
  import opened Outcomes
  import opened Scheduler
  import opened KernelModel
  import opened KernelInvariants

  // ---------- Flights ----------

  lemma FlightUpdateAwaits(tasks: Tasks, ops: seq<Operation>, flights: Flights, commits: Commits, pending: Events,
                           waits: Option<OpId>, op: OpId, f: Flight)
    requires AwaitsOk(tasks, ops, flights, commits, pending, waits)
    requires op in flights && (f.settled == flights[op].settled || waits == Some(op))
    ensures AwaitsOk(tasks, ops, flights[op := f], commits, pending, waits)
  {}

  lemma FlightUpdateReferences(pending: Events, tasks: Tasks, flights: Flights, ops: seq<Operation>, op: OpId,
                               f: Flight)
    requires ReferencesOk(pending, tasks, flights, ops)
    requires op in flights && (f.state != SENT || flights[op].state == SENT)
    ensures ReferencesOk(pending, tasks, flights[op := f], ops)
  {
    forall q | Answerable(flights, q) ensures Answerable(flights[op := f], q) {}
  }

  /** Replacing one flight by another that is in order, when no event changes. */
  lemma FlightUpdate(flights: Flights, ops: seq<Operation>, pending: Events, next: EventId, now: nat,
                     hole: Option<Payload>, op: OpId, f: Flight)
    requires FlightsOk(flights, ops, pending, next, now, hole) && op in flights
    requires FlightOk(op, f, now) && FlightEventsOk(op, f, pending, next, hole)
    ensures FlightsOk(flights[op := f], ops, pending, next, now, hole)
  {}

  lemma OwnResponse(op: OpId, f: Flight, g: Flight, pending: Events, next: EventId, now: nat, due: nat)
    requires FlightOk(op, f, now) && FlightEventsOk(op, f, pending, next, None)
    requires !f.replied && now <= due && g == f.(replied := true, state := g.state, responseDue := Some(due))
    requires g.state != SENT
    ensures FlightOk(op, g, now)
    ensures FlightEventsOk(op, g, pending + {Event(due, next, KindOf(Response(op)), Response(op))}, next + 1, None)
  {
    var e := Event(due, next, KindOf(Response(op)), Response(op));
    assert e in pending + {e};
    assert forall x :: x in pending ==> x.payload != Response(op);
  }

  /** The one response of a flight is scheduled after its deadline. */
  lemma ResponseScheduled(flights: Flights, ops: seq<Operation>, pending: Events, next: EventId, now: nat, op: OpId,
                          g: Flight, due: nat)
    requires FlightsOk(flights, ops, pending, next, now, None) && op in flights
    requires !flights[op].replied && now <= due
    requires g == flights[op].(replied := true, state := g.state, responseDue := Some(due)) && g.state != SENT
    ensures FlightsOk(flights[op := g], ops, pending + {Event(due, next, KindOf(Response(op)), Response(op))}, next
                      + 1, now, None)
  {
    hide FlightEventsOk, FlightOk;
    var e := Event(due, next, KindOf(Response(op)), Response(op));
    OwnResponse(op, flights[op], g, pending, next, now, due);
    forall q | q in flights && q != op ensures FlightEventsOk(q, flights[q], pending + {e}, next + 1, None) {
      AddedToFlight(q, flights[q], pending, next, None, e);
    }
  }

  lemma FlightHere(s: Kernel, op: OpId, hole: Option<Payload>)
    requires FlightsOk(s.flights, s.ops, s.pending, s.next, s.now, hole) && op in s.flights
    ensures op < |s.ops| && FlightOk(op, s.flights[op], s.now)
    ensures FlightEventsOk(op, s.flights[op], s.pending, s.next, hole)
  {}

  /** A flight changed in place, settlement and events apart. */
  lemma FlightChangeKeeps(s: Kernel, tasks: Tasks, op: OpId, f: Flight)
    requires InvWith(s, tasks, None, None) && op in s.flights
    requires f.settled == s.flights[op].settled && (f.state != SENT || s.flights[op].state == SENT)
    requires FlightOk(op, f, s.now) && FlightEventsOk(op, f, s.pending, s.next, None)
    ensures InvWith(s.(flights := s.flights[op := f]), tasks, None, None)
  {
    hide EventsOk, TasksOk, WakesOk, AwaitsOk, GenerationsOk, LocalOk, CommitsOk, FlightsOk, ReferencesOk, TraceOk;
    hide FlightOk, FlightEventsOk;
    FlightUpdateAwaits(tasks, s.ops, s.flights, s.commits, s.pending, None, op, f);
    FlightUpdateReferences(s.pending, tasks, s.flights, s.ops, op, f);
    FlightUpdate(s.flights, s.ops, s.pending, s.next, s.now, None, op, f);
  }

  lemma ReplySentKeeps(s: Kernel, tasks: Tasks, op: OpId, g: Flight, due: nat)
    requires InvWith(s, tasks, None, None) && Answerable(s.flights, op) && s.now <= due
    requires !s.flights[op].replied && g == s.flights[op].(replied := true, state := g.state, responseDue := Some(due))
    requires g.state != SENT
    ensures InvWith(Schedule(s.(flights := s.flights[op := g]), due, Response(op)), tasks, None, None)
  {
    hide EventsOk, TasksOk, WakesOk, AwaitsOk, GenerationsOk, LocalOk, CommitsOk, FlightsOk, ReferencesOk, TraceOk;
    var e := Event(due, s.next, KindOf(Response(op)), Response(op));
    ResponseScheduled(s.flights, s.ops, s.pending, s.next, s.now, op, g, due);
    FlightUpdateAwaits(tasks, s.ops, s.flights, s.commits, s.pending, None, op, g);
    AwaitsGrow(tasks, s.ops, s.flights[op := g], s.commits, s.pending, s.pending + {e}, None);
    FlightUpdateReferences(s.pending, tasks, s.flights, s.ops, op, g);
    AddedReference(s.pending, tasks, s.flights[op := g], s.ops, e);
    ScheduledEvents(s.pending, s.next, s.now, due, Response(op));
    AddedWakes(s.ops, s.pending, s.next, e);
    AddedLocal(s.services, s.timers, s.pending, s.next, s.now, e);
  }

  /** An answer to an admitted flight never fails, and leaves every other admitted flight answerable. */
  lemma ReplyKeeps(s: Kernel, tasks: Tasks, op: OpId, leg: Leg)
    requires InvWith(s, tasks, None, None) && s.failure.None? && Answerable(s.flights, op)
    ensures var r := Reply(s, op, leg);
            r.failure.None? && InvWith(r, tasks, None, None)
                && r == s.(flights := r.flights, pending := r.pending, next := r.next)
  {
    hide InvWith, KindOf;
    var f := s.flights[op];
    if !f.replied {
      var state := if f.settled then f.state else REPLIED;
      match leg
      case Lost => ReplyLostKeeps(s, tasks, op, f.(replied := true, state := state));
      case After(delay) =>
        var g := f.(replied := true, state := state, responseDue := Some(s.now + delay));
        ReplySentKeeps(s, tasks, op, g, s.now + delay);
        assert s.flights[op := f.(replied := true, state := state)][op := g] == s.flights[op := g];
    }
  }

  lemma ReplyLostKeeps(s: Kernel, tasks: Tasks, op: OpId, g: Flight)
    requires InvWith(s, tasks, None, None) && Answerable(s.flights, op)
    requires !s.flights[op].replied && g == s.flights[op].(replied := true, state := g.state) && g.state != SENT
    ensures InvWith(s.(flights := s.flights[op := g]), tasks, None, None)
  {
    hide EventsOk, TasksOk, WakesOk, AwaitsOk, GenerationsOk, LocalOk, CommitsOk, FlightsOk, ReferencesOk, TraceOk;
    FlightHere(s, op, None);
    FlightChangeKeeps(s, tasks, op, g);
  }

  // ---------- Creating an operation ----------

  lemma AppendedTasks(tasks: Tasks, ops: seq<Operation>, generations: map<Owner, nat>, nextTask: TaskId, t: TaskId,
                      task: Task, operation: Operation, flights: Flights)
    requires TasksOk(tasks, ops, generations, nextTask) && t !in tasks
    requires RunnableOk(t, task, nextTask, generations, flights)
    requires operation.task == t && !operation.settled
    requires forall op :: 0 <= op < |ops| && ops[op].task == t ==> ops[op].settled
    ensures TasksOk(tasks[t := task.(waiting := Some(|ops|))], ops + [operation], generations, nextTask)
  {
    var more := ops + [operation];
    var after := tasks[t := task.(waiting := Some(|ops|))];
    forall u | u in after ensures TaskOk(u, after[u], more, generations, nextTask) {
      if u != t { assert TaskOk(u, tasks[u], ops, generations, nextTask); }
    }
  }

  lemma AppendedAwaits(tasks: Tasks, ops: seq<Operation>, flights: Flights, commits: Commits, pending: Events,
                       generations: map<Owner, nat>, nextTask: TaskId,
                       t: TaskId, task: Task, operation: Operation, flights': Flights, commits': Commits, more: Events)
    requires TasksOk(tasks, ops, generations, nextTask) && AwaitsOk(tasks, ops, flights, commits, pending, None)
    requires t !in tasks
    requires pending <= more
    requires forall op :: op < |ops| && op in flights ==> op in flights' && flights'[op] == flights[op]
    requires forall op :: op < |ops| && op in commits ==> op in commits' && commits'[op] == commits[op]
    requires Supported(|ops|, operation, task.(waiting := Some(|ops|)), flights', commits', more)
    ensures AwaitsOk(tasks[t := task.(waiting := Some(|ops|))], ops + [operation], flights', commits', more, None)
  {
    var after := tasks[t := task.(waiting := Some(|ops|))];
    AwaitsGrow(tasks, ops, flights, commits, pending, more, None);
    forall u | u in after && u != t
      ensures after[u].waiting.Some? && after[u].waiting.value < |ops|
           && Supported(after[u].waiting.value, (ops + [operation])[after[u].waiting.value], after[u], flights',
                        commits', more)
    {
      assert TaskOk(u, tasks[u], ops, generations, nextTask);
      assert Supported(tasks[u].waiting.value, ops[tasks[u].waiting.value], tasks[u], flights, commits, more);
    }
  }

  lemma AppendedReferences(pending: Events, tasks: Tasks, flights: Flights, ops: seq<Operation>, t: TaskId, task: Task,
                           operation: Operation)
    requires ReferencesOk(pending, tasks, flights, ops)
    requires (task.request.Some? ==> Answerable(flights, task.request.value))
    ensures ReferencesOk(pending, tasks[t := task.(waiting := Some(|ops|))], flights, ops + [operation])
  {
    forall e | e in pending ensures Referable(e.payload, flights, |ops| + 1) {
      assert Referable(e.payload, flights, |ops|);
    }
  }

  lemma AppendedWakes(ops: seq<Operation>, pending: Events, next: EventId, now: nat, operation: Operation,
                      e: Event<Payload>)
    requires WakesOk(ops, pending, next) && EventsOk(pending, next, now) && e.sequence == next
    requires operation.wake.Some? ==> operation.wake.value == next && e.payload == Wake(|ops|)
    ensures WakesOk(ops + [operation], pending + {e}, next + 1)
  {
    AddedWakes(ops, pending, next, e);
    forall f | f in pending ensures f.sequence < next { assert EventOk(next, now, f); }
  }

  lemma AppendedFrame(s: Kernel, operation: Operation)
    requires CommitsOk(s.commits, s.ops, s.generations) && TraceOk(s.trace, s.ops, s.now)
    requires FlightsOk(s.flights, s.ops, s.pending, s.next, s.now, None)
    ensures CommitsOk(s.commits, s.ops + [operation], s.generations) && TraceOk(s.trace, s.ops + [operation], s.now)
    ensures FlightsOk(s.flights, s.ops + [operation], s.pending, s.next, s.now, None)
  {
    forall i: nat, op: nat | IsResume(s.trace, i, op) ensures op < |s.ops| + 1 && (s.ops + [operation])[op].settled {}
  }

  lemma NoFlightBeyond(s: Kernel)
    requires FlightsOk(s.flights, s.ops, s.pending, s.next, s.now, None)
    ensures |s.ops| !in s.flights
  {}

  /** The event that completes an operation other than a request. */
  function SimpleEvent(s: Kernel, t: TaskId, call: Call): Event<Payload>
    requires t in s.tasks
  {
    var op := |s.ops|;
    var p := if call.Sleep? then Wake(op) else if call.Publish? then Admission(op) else Commit(s.tasks[t].owner, op);
    Event(if call.Sleep? then s.now + call.delay else s.now, s.next, KindOf(p), p)
  }

  function SimpleOperation(s: Kernel, t: TaskId, call: Call): Operation {
    Operation(t, call, false, if call.Sleep? then Some(s.next) else None)
  }

  lemma BeginSimpleIs(s: Kernel, t: TaskId, call: Call)
    requires t in s.tasks && !call.Request?
    ensures var c, op, task := Begin(s, t, call), |s.ops|, s.tasks[t];
      && c == s.(tasks := (s.tasks - {t})[t := task.(waiting := Some(op))], ops :=
                 s.ops + [SimpleOperation(s, t, call)],
                 pending := s.pending + {SimpleEvent(s, t, call)}, next := s.next + 1, commits := c.commits)
      && c.commits == if call.CommitTransaction? then s.commits[op := PendingCommit(task.owner, task.generation)]
          else s.commits
  {
    hide KindOf;
    assert (s.tasks - {t})[t := s.tasks[t].(waiting := Some(|s.ops|))] ==
        s.tasks[t := s.tasks[t].(waiting := Some(|s.ops|))];
  }

  /** A sleep, a publication or a commit: the operation and the one event that completes it. */
  lemma BeginSimpleKeeps(s: Kernel, t: TaskId, call: Call)
    requires Active(s, t) && !call.Request?
    ensures InvWith(Begin(s, t, call), Begin(s, t, call).tasks, None, None)
  {
    hide EventsOk, TasksOk, WakesOk, AwaitsOk, GenerationsOk, LocalOk, CommitsOk, FlightsOk, ReferencesOk, TraceOk;
    hide RunnableOk, Begin;
    BeginSimpleIs(s, t, call);
    var op := |s.ops|;
    var task := s.tasks[t];
    var rest := s.tasks - {t};
    var c := Begin(s, t, call);
    var e := SimpleEvent(s, t, call);
    var operation := SimpleOperation(s, t, call);
    Runnable(s, t);
    AppendedTasks(rest, s.ops, s.generations, s.nextTask, t, task, operation, s.flights);
    AppendedReferences(s.pending, rest, s.flights, s.ops, t, task, operation);
    AddedReference(s.pending, c.tasks, s.flights, c.ops, e);
    AppendedWakes(s.ops, s.pending, s.next, s.now, operation, e);
    AppendedFrame(s, operation);
    ScheduledEvents(s.pending, s.next, s.now, e.time, e.payload);
    AddedLocal(s.services, s.timers, s.pending, s.next, s.now, e);
    AddedToFlights(s.flights, c.ops, s.pending, s.next, s.now, None, e);
    assert e in c.pending;
    AppendedAwaits(rest, s.ops, s.flights, s.commits, s.pending, s.generations, s.nextTask, t, task, operation,
                   c.flights, c.commits, c.pending);
    if call.CommitTransaction? { AppendedCommit(s.commits, c.ops, s.generations, t, task, s.nextTask, s.flights, op); }
  }

  lemma Runnable(s: Kernel, t: TaskId)
    requires Active(s, t)
    ensures RunnableOk(t, s.tasks[t], s.nextTask, s.generations, s.flights)
    ensures s.tasks[t].request.Some? ==> Answerable(s.flights, s.tasks[t].request.value)
  {}

  lemma AppendedCommit(commits: Commits, ops: seq<Operation>, generations: map<Owner, nat>, t: TaskId, task: Task,
                       nextTask: TaskId, flights: Flights, op: OpId)
    requires CommitsOk(commits, ops, generations) && RunnableOk(t, task, nextTask, generations, flights) && op < |ops|
    ensures CommitsOk(commits[op := PendingCommit(task.owner, task.generation)], ops, generations)
  {}

  lemma NewFlight(flights: Flights, ops: seq<Operation>, operation: Operation, pending: Events, tasks: Tasks,
                  next: EventId, now: nat, f: Flight)
    requires FlightsOk(flights, ops, pending, next, now, None) && ReferencesOk(pending, tasks, flights, ops)
    requires EventsOk(pending, next, now)
    requires f == Flight(f.target, f.deadline, next, SENT, false, false, None, None) && now <= f.deadline
    ensures var e := Event(f.deadline, next, KindOf(Deadline(|ops|)), Deadline(|ops|));
            FlightsOk(flights[|ops| := f], ops + [operation], pending + {e}, next + 1, now, None)
  {
    var op := |ops|;
    var e := Event(f.deadline, next, KindOf(Deadline(op)), Deadline(op));
    var more := pending + {e};
    assert FlightOk(op, f, now);
    forall x | x in pending ensures x.payload != Deadline(op) && x.payload != Response(op) && x.sequence < next {
      assert Referable(x.payload, flights, |ops|) && EventOk(next, now, x);
    }
    assert e in more;
    assert FlightEventsOk(op, f, more, next + 1, None);
    forall q | q in flights ensures q != op && FlightEventsOk(q, flights[q], more, next + 1, None) {
      AddedToFlight(q, flights[q], pending, next, None, e);
    }
  }

  /** A request: its deadline event is pending before any leg is. */
  lemma BeginRequestKeeps(s: Kernel, t: TaskId, target: Owner, timeout: nat, leg: Leg)
    requires Active(s, t)
    ensures InvWith(Begin(s, t, Request(target, timeout, leg)), Begin(s, t, Request(target, timeout, leg)).tasks, None,
                    None)
  {
    hide EventsOk, TasksOk, WakesOk, AwaitsOk, GenerationsOk, LocalOk, CommitsOk, FlightsOk, ReferencesOk, TraceOk;
    hide RunnableOk;
    var call := Request(target, timeout, leg);
    var op := |s.ops|;
    var task := s.tasks[t];
    var rest := s.tasks - {t};
    var f := Flight(target, s.now + timeout, s.next, SENT, false, false, None, None);
    var e := Event(s.now + timeout, s.next, KindOf(Deadline(op)), Deadline(op));
    var operation := Operation(t, call, false, None);
    var c := s.(ops := s.ops + [operation], tasks := s.tasks[t := task.(waiting := Some(op))],
                pending := s.pending + {e}, next := s.next + 1, flights := s.flights[op := f]);
    assert c.tasks == rest[t := task.(waiting := Some(op))];
    Runnable(s, t);
    NewFlight(s.flights, s.ops, operation, s.pending, rest, s.next, s.now, f);
    NoFlightBeyond(s);
    AppendedTasks(rest, s.ops, s.generations, s.nextTask, t, task, operation, s.flights);
    AppendedReferences(s.pending, rest, s.flights, s.ops, t, task, operation);
    MoreFlights(s.pending, c.tasks, s.flights, c.ops, op, f);
    AddedReference(s.pending, c.tasks, c.flights, c.ops, e);
    AppendedWakes(s.ops, s.pending, s.next, s.now, operation, e);
    AppendedFrame(s, operation);
    ScheduledEvents(s.pending, s.next, s.now, s.now + timeout, Deadline(op));
    AddedLocal(s.services, s.timers, s.pending, s.next, s.now, e);
    AppendedAwaits(rest, s.ops, s.flights, s.commits, s.pending, s.generations, s.nextTask, t, task, operation,
                   c.flights, c.commits, c.pending);
    assert InvWith(c, c.tasks, None, None);
    if leg.After? { ScheduleKeeps(c, c.tasks, None, c.now + leg.delay, Delivery(op)); }
  }

  lemma MoreFlights(pending: Events, tasks: Tasks, flights: Flights, ops: seq<Operation>, op: OpId, f: Flight)
    requires ReferencesOk(pending, tasks, flights, ops) && op !in flights
    ensures ReferencesOk(pending, tasks, flights[op := f], ops)
  {
    forall q | Answerable(flights, q) ensures Answerable(flights[op := f], q) {}
  }

  // ---------- Advancing and completing ----------

  lemma LocalWorkKeepsActive(s: Kernel, t: TaskId, owner: Owner, delays: seq<nat>)
    requires Active(s, t)
    ensures Active(ScheduleLocal(s, owner, delays), t)
  {
    hide InvWith, RunnableOk;
    ScheduleLocalKeeps(s, s.tasks - {t}, owner, delays);
  }

  lemma FewerTasks(s: Kernel, t: TaskId)
    requires InvWith(s, s.tasks - {t}, None, None)
    ensures Inv(s.(tasks := s.tasks - {t}))
  {
    hide EventsOk, TasksOk, WakesOk, AwaitsOk, GenerationsOk, LocalOk, CommitsOk, FlightsOk, ReferencesOk, TraceOk;
  }

  lemma ThrowKeeps(s: Kernel, t: TaskId)
    requires Active(s, t)
    ensures Good(Fail(s, HANDLER_FAILED))
  {
    hide InvWith, RunnableOk, Lasting;
    FailedLasts(s, s.tasks - {t}, HANDLER_FAILED);
  }

  lemma FinishKeeps(s: Kernel, t: TaskId, leg: Leg)
    requires Active(s, t)
    ensures Good(Finished(s, t, leg))
  {
    hide InvWith, RunnableOk, Lasting, Reply;
    if s.tasks[t].request.Some? {
      Runnable(s, t);
      ReplyKeeps(s, s.tasks - {t}, s.tasks[t].request.value, leg);
      FewerTasks(Reply(s, s.tasks[t].request.value, leg), t);
    } else {
      FewerTasks(s, t);
    }
  }

  lemma BeginKeeps(s: Kernel, t: TaskId, call: Call)
    requires Active(s, t)
    ensures Good(Begin(s, t, call))
  {
    hide InvWith, RunnableOk, Lasting, Active;
    BeginKeepsFailure(s, t, call);
    if call.Request? {
      BeginRequestKeeps(s, t, call.target, call.timeout, call.leg);
    } else {
      BeginSimpleKeeps(s, t, call);
    }
  }

  lemma BeginKeepsFailure(s: Kernel, t: TaskId, call: Call)
    requires Active(s, t)
    ensures Begin(s, t, call).failure.None?
  {
    hide InvWith, RunnableOk, KindOf;
  }

  /** Whatever a running task does next, it ends or waits for an operation that something pending will complete. */
  lemma AdvanceKeeps(s: Kernel, t: TaskId, choice: Choice)
    requires Active(s, t)
    ensures Good(Advance(s, t, choice))
  {
    hide InvWith, RunnableOk, Good, Begin, Reply, ScheduleLocal;
    var worked := ScheduleLocal(s, s.tasks[t].owner, choice.background);
    LocalWorkKeepsActive(s, t, s.tasks[t].owner, choice.background);
    match choice.action
    case Throw => ThrowKeeps(worked, t);
    case Finish(leg) => FinishKeeps(worked, t, leg);
    case Await(call) => BeginKeeps(worked, t, call);
  }

  lemma NobodyWaits(s: Kernel, op: OpId)
    requires InvWith(s, s.tasks, None, Some(op)) && op < |s.ops|
    requires s.ops[op].settled || s.ops[op].task !in s.tasks
    ensures Inv(s)
  {
    hide EventsOk, WakesOk, GenerationsOk, LocalOk, CommitsOk, FlightsOk, ReferencesOk, TraceOk;
    forall t | t in s.tasks ensures s.tasks[t].waiting != Some(op) {
      assert TaskOk(t, s.tasks[t], s.ops, s.generations, s.nextTask);
    }
  }

  lemma SettledTasks(tasks: Tasks, ops: seq<Operation>, flights: Flights, commits: Commits, pending: Events,
                     generations: map<Owner, nat>, nextTask: TaskId, op: OpId)
    requires TasksOk(tasks, ops, generations, nextTask) && AwaitsOk(tasks, ops, flights, commits, pending, Some(op))
    requires op < |ops| && !ops[op].settled && ops[op].task in tasks
    ensures var settled := ops[op := ops[op].(settled := true)];
            var rest := tasks - {ops[op].task};
            && TasksOk(rest, settled, generations, nextTask) && AwaitsOk(rest, settled, flights, commits, pending, None)
            && (forall q :: 0 <= q < |ops| && settled[q].task == ops[op].task ==> settled[q].settled)
  {
    var t := ops[op].task;
    assert tasks[t].waiting == Some(op);
    forall u | u in tasks && u != t
      ensures tasks[u].waiting.Some? && tasks[u].waiting.value < |ops| && tasks[u].waiting.value != op
    {
      assert TaskOk(u, tasks[u], ops, generations, nextTask);
    }
  }

  lemma ResumedTrace(trace: seq<TraceEntry>, ops: seq<Operation>, now: nat, op: OpId, entry: TraceEntry)
    requires TraceOk(trace, ops, now) && op < |ops| && !ops[op].settled
    requires entry.Resumed? && entry.op == op && entry.generation == entry.current
    ensures TraceOk(trace + [entry], ops[op := ops[op].(settled := true)], now)
  {
    var more := trace + [entry];
    forall i: nat, q: nat | IsResume(more, i, q)
      ensures if i < |trace| then IsResume(trace, i, q) && q != op else q == op
    {
      if i < |trace| { assert IsResume(trace, i, q); }
    }
  }

  lemma SettledFrame(s: Kernel, tasks: Tasks, op: OpId, fewer: Tasks)
    requires WakesOk(s.ops, s.pending, s.next) && CommitsOk(s.commits, s.ops, s.generations)
    requires FlightsOk(s.flights, s.ops, s.pending, s.next, s.now, None)
    requires ReferencesOk(s.pending, tasks, s.flights, s.ops)
    requires op < |s.ops| && fewer.Keys <= tasks.Keys && forall t :: t in fewer ==> fewer[t] == tasks[t]
    ensures var ops := s.ops[op := s.ops[op].(settled := true)];
            && WakesOk(ops, s.pending, s.next) && CommitsOk(s.commits, ops, s.generations)
            && FlightsOk(s.flights, ops, s.pending, s.next, s.now, None)
            && ReferencesOk(s.pending, fewer, s.flights, ops)
  {}

  /** The state in which `complete` advances the task. */
  function ResumedState(s: Kernel, op: OpId): Kernel
    requires op < |s.ops| && s.ops[op].task in s.tasks
  {
    var t := s.ops[op].task;
    var task := s.tasks[t];
    s.(ops := s.ops[op := s.ops[op].(settled := true)], tasks := s.tasks[t := task.(waiting := None)],
       trace := s.trace + [Resumed(t, op, task.owner, task.generation, GenerationOf(s, task.owner))])
  }

  lemma CompletingActivates(s: Kernel, op: OpId)
    requires InvWith(s, s.tasks, None, Some(op)) && s.failure.None? && op < |s.ops|
    requires !s.ops[op].settled && s.ops[op].task in s.tasks
    ensures s.tasks[s.ops[op].task].waiting == Some(op)
    ensures Active(ResumedState(s, op), s.ops[op].task)
  {
    hide EventsOk, WakesOk, AwaitsOk, GenerationsOk, LocalOk, CommitsOk, FlightsOk, ReferencesOk, TraceOk;
    var t := s.ops[op].task;
    var task := s.tasks[t];
    var c := ResumedState(s, op);
    var rest := s.tasks - {t};
    assert TaskOk(t, task, s.ops, s.generations, s.nextTask);
    assert c.tasks - {t} == rest;
    SettledTasks(s.tasks, s.ops, s.flights, s.commits, s.pending, s.generations, s.nextTask, op);
    ResumedTrace(s.trace, s.ops, s.now, op, Resumed(t, op, task.owner, task.generation, GenerationOf(s, task.owner)));
    SettledFrame(s, s.tasks, op, rest);
    TaskRequest(s.pending, s.tasks, s.flights, s.ops, t);
  }

  lemma TaskRequest(pending: Events, tasks: Tasks, flights: Flights, ops: seq<Operation>, t: TaskId)
    requires ReferencesOk(pending, tasks, flights, ops) && t in tasks
    ensures tasks[t].request.Some? ==> Answerable(flights, tasks[t].request.value)
  {}

  /** Completing the operation whose event was taken never fails by itself, and leaves nothing waiting in vain. */
  lemma CompleteKeeps(s: Kernel, op: OpId, choice: Choice)
    requires InvWith(s, s.tasks, None, Some(op)) && s.failure.None? && op < |s.ops|
    ensures Good(Complete(s, op, choice))
  {
    hide InvWith;
    if s.ops[op].settled || s.ops[op].task !in s.tasks {
      NobodyWaits(s, op);
    } else {
      CompletingActivates(s, op);
      AdvanceKeeps(ResumedState(s, op), s.ops[op].task, choice);
    }
  }

  lemma SpawnActivates(s: Kernel, owner: Owner, request: Option<OpId>)
    requires Inv(s) && s.failure.None? && (request.Some? ==> Answerable(s.flights, request.value))
    ensures Active(Spawned(s, owner, GenerationOf(s, owner), request), s.nextTask)
  {
    hide EventsOk, WakesOk, AwaitsOk, GenerationsOk, LocalOk, CommitsOk, FlightsOk, ReferencesOk, TraceOk;
    forall t | t in s.tasks ensures t < s.nextTask { assert TaskOk(t, s.tasks[t], s.ops, s.generations, s.nextTask); }
    var generation := GenerationOf(s, owner);
    assert s.tasks[s.nextTask := Task(owner, generation, request, None, None)] - {s.nextTask} == s.tasks;
    RanTrace(s.trace, s.ops, s.now, Ran(s.nextTask, owner, generation, generation));
  }

  lemma RanTrace(trace: seq<TraceEntry>, ops: seq<Operation>, now: nat, entry: TraceEntry)
    requires TraceOk(trace, ops, now) && !entry.Resumed? && !entry.Dispatched? && entry.generation == entry.current
    ensures TraceOk(trace + [entry], ops, now)
  {
    forall i: nat, q: nat | IsResume(trace + [entry], i, q) ensures IsResume(trace, i, q) {}
  }

  /** Work may only start for the generation it was meant for. */
  lemma SpawnKeeps(s: Kernel, owner: Owner, meant: nat, request: Option<OpId>, choice: Choice)
    requires Inv(s) && s.failure.None? && (request.Some? ==> Answerable(s.flights, request.value))
    requires meant == GenerationOf(s, owner)
    ensures Good(Spawn(s, owner, meant, request, choice))
  {
    hide Inv, InvWith, Active;
    SpawnActivates(s, owner, request);
    AdvanceKeeps(Spawned(s, owner, meant, request), s.nextTask, choice);
  }
}
