/** Dispatching one event keeps the invariant: taking it, running its handler, and closing the boundary. */
module KernelDispatch {
  import opened Outcomes
  import opened Scheduler
  import opened KernelModel
  import opened KernelInvariants
  import opened KernelSteps

  // ---------- Taking the least event ----------

  function FlightHole(p: Payload): Option<Payload> {
    if p.Deadline? || p.Response? then Some(p) else None
  }

  lemma TakenEvents(pending: Events, next: EventId, now: nat, e: Event<Payload>)
    requires EventsOk(pending, next, now) && IsLeast(e, pending)
    ensures EventsOk(pending - {e}, next, e.time) && now <= e.time && e.sequence < next
  {
    assert EventOk(next, now, e);
    forall x | x in pending - {e} ensures EventOk(next, e.time, x) {
      assert EventOk(next, now, x) && Compare(e, x) <= 0;
    }
  }

  lemma FewerIssued(ops: seq<Operation>, services: map<Owner, Service>, timers: set<EventId>, pending: Events,
                    next: EventId,
                    fewer: Events)
    requires WakesOk(ops, pending, next) && LocalOk(services, timers, pending, next) && fewer <= pending
    ensures WakesOk(ops, fewer, next) && LocalOk(services, timers, fewer, next)
  {
    forall op | 0 <= op < |ops| && ops[op].wake.Some? ensures Issued(fewer, next, ops[op].wake.value, Wake(op)) {
      assert Issued(pending, next, ops[op].wake.value, Wake(op));
    }
    forall o, id | o in services && id in services[o].local
      ensures Issued(fewer, next, id, Background(o, services[o].generation))
    {
      assert Issued(pending, next, id, Background(o, services[o].generation));
    }
  }

  /** The only waiting operation that loses its support is the one whose event was removed. */
  lemma AwaitsAfterRemoval(tasks: Tasks, ops: seq<Operation>, flights: Flights, commits: Commits, pending: Events,
                           fewer: Events, waits: Option<OpId>)
    requires AwaitsOk(tasks, ops, flights, commits, pending, None)
    requires forall p :: Awaited(pending, p) && (p.Wake? || p.Admission? || p.Commit?) && HoleOp(Some(p)) != waits ==>
        Awaited(fewer, p)
    ensures AwaitsOk(tasks, ops, flights, commits, fewer, waits)
  {
    forall t | t in tasks && tasks[t].waiting.Some? && tasks[t].waiting.value < |ops| && tasks[t].waiting != waits
      ensures Supported(tasks[t].waiting.value, ops[tasks[t].waiting.value], tasks[t], flights, commits, fewer)
    {
      var op := tasks[t].waiting.value;
      assert Supported(op, ops[op], tasks[t], flights, commits, pending);
      assert HoleOp(Some(Wake(op))) == Some(op) && HoleOp(Some(Admission(op))) == Some(op)
          && HoleOp(Some(Commit(tasks[t].owner, op))) == Some(op);
    }
  }

  lemma StillThere(pending: Events, e: Event<Payload>, p: Payload)
    requires Awaited(pending, p) && p != e.payload
    ensures Awaited(pending - {e}, p)
  {
    var f :| f in pending && f.payload == p;
    assert f in pending - {e};
  }

  lemma TakenAwaits(tasks: Tasks, ops: seq<Operation>, flights: Flights, commits: Commits, pending: Events,
                    e: Event<Payload>)
    requires AwaitsOk(tasks, ops, flights, commits, pending, None)
    ensures AwaitsOk(tasks, ops, flights, commits, pending - {e}, HoleOp(Some(e.payload)))
  {
    forall p | Awaited(pending, p) && (p.Wake? || p.Admission? || p.Commit?)
        && HoleOp(Some(p)) != HoleOp(Some(e.payload))
      ensures Awaited(pending - {e}, p)
    {
      StillThere(pending, e, p);
    }
    AwaitsAfterRemoval(tasks, ops, flights, commits, pending, pending - {e}, HoleOp(Some(e.payload)));
  }

  /** Taking the least event leaves every flight within its deadline. */
  lemma TakenFromFlight(op: OpId, f: Flight, pending: Events, next: EventId, now: nat, e: Event<Payload>)
    requires FlightOk(op, f, now) && FlightEventsOk(op, f, pending, next, None)
    requires EventsOk(pending, next, now) && IsLeast(e, pending)
    ensures FlightOk(op, f, e.time) && FlightEventsOk(op, f, pending - {e}, next, FlightHole(e.payload))
    ensures e.payload == Deadline(op) ==> !f.settled && e.time == f.deadline
    ensures e.payload == Response(op) ==> f.responseDue == Some(e.time) && (!f.settled ==> e.time < f.deadline)
  {
    assert EventOk(next, now, e);
    var fewer := pending - {e};
    if !f.settled {
      var d := Event(f.deadline, f.deadlineId, KindOf(Deadline(op)), Deadline(op));
      assert d in pending && Compare(e, d) <= 0;
      if e.payload != Deadline(op) { assert d in fewer; }
    }
    if e.payload != Response(op) && Awaited(pending, Response(op)) { StillThere(pending, e, Response(op)); }
    if e.payload == Deadline(op) { assert Awaited(pending, Deadline(op)); }
    if Awaited(fewer, Deadline(op)) { StillAwaited(fewer, pending, Deadline(op)); }
  }

  lemma TakenFromFlights(flights: Flights, ops: seq<Operation>, pending: Events, next: EventId, now: nat,
                         e: Event<Payload>)
    requires FlightsOk(flights, ops, pending, next, now, None) && EventsOk(pending, next, now) && IsLeast(e, pending)
    ensures FlightsOk(flights, ops, pending - {e}, next, e.time, FlightHole(e.payload))
    ensures e.payload.Deadline? && e.payload.op in flights ==>
        !flights[e.payload.op].settled && e.time == flights[e.payload.op].deadline
    ensures e.payload.Response? && e.payload.op in flights ==>
      var f := flights[e.payload.op]; f.responseDue == Some(e.time) && (!f.settled ==> e.time < f.deadline)
  {
    hide FlightOk, FlightEventsOk, EventsOk, IsLeast;
    forall op | op in flights
      ensures FlightOk(op, flights[op], e.time)
      ensures FlightEventsOk(op, flights[op], pending - {e}, next, FlightHole(e.payload))
    {
      TakenFromFlight(op, flights[op], pending, next, now, e);
    }
    if (e.payload.Deadline? || e.payload.Response?) && e.payload.op in flights {
      TakenFromFlight(e.payload.op, flights[e.payload.op], pending, next, now, e);
    }
  }

  lemma DispatchedTrace(trace: seq<TraceEntry>, ops: seq<Operation>, now: nat, entry: TraceEntry)
    requires TraceOk(trace, ops, now) && entry.Dispatched? && now <= entry.time
    ensures TraceOk(trace + [entry], ops, entry.time)
  {
    forall i: nat, q: nat | IsResume(trace + [entry], i, q) ensures IsResume(trace, i, q) {}
  }

  lemma FewerReferences(pending: Events, tasks: Tasks, flights: Flights, ops: seq<Operation>, fewer: Events)
    requires ReferencesOk(pending, tasks, flights, ops) && fewer <= pending
    ensures ReferencesOk(fewer, tasks, flights, ops)
  {}

  lemma TakenReference(pending: Events, tasks: Tasks, flights: Flights, ops: seq<Operation>, e: Event<Payload>)
    requires ReferencesOk(pending, tasks, flights, ops) && e in pending
    ensures Referable(e.payload, flights, |ops|)
  {}

  /** Taking the least event never turns the clock back, and leaves a hole only where its handler will work. */
  lemma TakeKeeps(s: Kernel, e: Event<Payload>)
    requires Inv(s) && IsLeast(e, s.pending)
    ensures s.now <= e.time
    ensures var c := Started(s, e); InvWith(c, c.tasks, FlightHole(e.payload), HoleOp(Some(e.payload)))
    ensures Referable(e.payload, s.flights, |s.ops|)
    ensures e.payload.Deadline? && e.payload.op in s.flights ==>
        !s.flights[e.payload.op].settled && e.time == s.flights[e.payload.op].deadline
    ensures e.payload.Response? && e.payload.op in s.flights ==>
      var f := s.flights[e.payload.op]; f.responseDue == Some(e.time) && (!f.settled ==> e.time < f.deadline)
  {
    hide EventsOk, TasksOk, WakesOk, AwaitsOk, GenerationsOk, LocalOk, CommitsOk, FlightsOk, ReferencesOk, TraceOk;
    TakenEvents(s.pending, s.next, s.now, e);
    FewerIssued(s.ops, s.services, s.timers, s.pending, s.next, s.pending - {e});
    TakenAwaits(s.tasks, s.ops, s.flights, s.commits, s.pending, e);
    TakenFromFlights(s.flights, s.ops, s.pending, s.next, s.now, e);
    TakenReference(s.pending, s.tasks, s.flights, s.ops, e);
    FewerReferences(s.pending, s.tasks, s.flights, s.ops, s.pending - {e});
    DispatchedTrace(s.trace, s.ops, s.now, Dispatched(e.time, e.sequence, e.payload));
  }

  // ---------- Handlers that complete an operation ----------

  lemma WakeKeeps(s: Kernel, op: OpId, choice: Choice)
    requires InvWith(s, s.tasks, None, Some(op)) && s.failure.None? && op < |s.ops|
    ensures Good(OnWake(s, op, choice))
  {
    hide InvWith;
    if !s.ops[op].settled && s.ops[op].task in s.tasks { CompleteKeeps(s, op, choice); } else { NobodyWaits(s, op); }
  }

  lemma TimedOutFlight(op: OpId, f: Flight, pending: Events, next: EventId, now: nat)
    requires FlightOk(op, f, now) && FlightEventsOk(op, f, pending, next, Some(Deadline(op)))
    requires EventsOk(pending, next, now)
    requires !f.settled && now == f.deadline && !Awaited(pending, Deadline(op))
    ensures var g := f.(settled := true, state := TIMED_OUT, outcome := Some(TimedOut(now)));
            FlightOk(op, g, now) && FlightEventsOk(op, g, pending, next, None)
  {
    if f.responseDue.Some? {
      assert Awaited(pending, Response(op));
      var r :| r in pending && r.payload == Response(op);
      assert EventOk(next, now, r);
    }
  }

  lemma OtherFlightHole(op: OpId, f: Flight, pending: Events, next: EventId, hole: Option<Payload>)
    requires FlightEventsOk(op, f, pending, next, hole) && hole != Some(Deadline(op)) && hole != Some(Response(op))
    ensures FlightEventsOk(op, f, pending, next, None)
  {}

  lemma TimedOutFlights(flights: Flights, ops: seq<Operation>, pending: Events, next: EventId, now: nat, op: OpId)
    requires FlightsOk(flights, ops, pending, next, now, Some(Deadline(op))) && EventsOk(pending, next, now)
    requires op in flights && !flights[op].settled && now == flights[op].deadline && !Awaited(pending, Deadline(op))
    ensures FlightsOk(flights[op := flights[op].(settled := true, state := TIMED_OUT, outcome := Some(TimedOut(now)))],
                      ops, pending, next, now, None)
  {
    hide FlightOk, FlightEventsOk, EventsOk;
    TimedOutFlight(op, flights[op], pending, next, now);
    forall q | q in flights && q != op ensures FlightEventsOk(q, flights[q], pending, next, None) {
      OtherFlightHole(q, flights[q], pending, next, Some(Deadline(op)));
    }
  }

  /** The deadline has settled the flight, and its caller is to be resumed. */
  function TimedOutState(s: Kernel, op: OpId): Kernel
    requires op in s.flights
  {
    s.(flights := s.flights[op := s.flights[op].(settled := true, state := TIMED_OUT, outcome :=
                                                 Some(TimedOut(s.now)))])
  }

  lemma DeadlineSettles(s: Kernel, op: OpId)
    requires InvWith(s, s.tasks, Some(Deadline(op)), Some(op))
    requires op in s.flights && op < |s.ops| && !s.flights[op].settled && s.now == s.flights[op].deadline
    requires !Awaited(s.pending, Deadline(op))
    ensures InvWith(TimedOutState(s, op), s.tasks, None, Some(op))
  {
    hide EventsOk, TasksOk, WakesOk, AwaitsOk, GenerationsOk, LocalOk, CommitsOk, FlightsOk, ReferencesOk, TraceOk;
    var g := s.flights[op].(settled := true, state := TIMED_OUT, outcome := Some(TimedOut(s.now)));
    TimedOutFlights(s.flights, s.ops, s.pending, s.next, s.now, op);
    FlightUpdateAwaits(s.tasks, s.ops, s.flights, s.commits, s.pending, Some(op), op, g);
    FlightUpdateReferences(s.pending, s.tasks, s.flights, s.ops, op, g);
  }

  lemma DeadlineKeeps(s: Kernel, op: OpId, choice: Choice)
    requires InvWith(s, s.tasks, Some(Deadline(op)), Some(op)) && s.failure.None?
    requires op in s.flights && op < |s.ops| && !s.flights[op].settled && s.now == s.flights[op].deadline
    requires !Awaited(s.pending, Deadline(op))
    ensures Good(OnDeadline(s, op, choice))
  {
    hide InvWith, Good, Complete;
    DeadlineSettles(s, op);
    CompleteKeeps(TimedOutState(s, op), op, choice);
  }

  lemma RespondedFlight(op: OpId, f: Flight, pending: Events, next: EventId, now: nat)
    requires FlightOk(op, f, now) && FlightEventsOk(op, f, pending, next, Some(Response(op)))
    requires !f.settled && f.responseDue == Some(now) && now < f.deadline
    ensures var g := f.(settled := true, outcome := Some(Success(now)));
            FlightOk(op, g, now) && FlightEventsOk(op, g, Without(pending, {f.deadlineId}), next, None)
  {
    forall e | e in Without(pending, {f.deadlineId}) ensures e.payload != Deadline(op) { assert e in pending; }
  }

  /** Cancelling events that belong to another payload leaves a flight alone. */
  lemma CancelledElsewhere(op: OpId, f: Flight, pending: Events, next: EventId, ids: set<EventId>)
    requires FlightEventsOk(op, f, pending, next, None)
    requires forall e :: e in pending && e.sequence in ids ==> e.payload != Deadline(op) && e.payload != Response(op)
    ensures FlightEventsOk(op, f, Without(pending, ids), next, None)
  {
    var fewer := Without(pending, ids);
    forall p | Awaited(pending, p) && (p == Deadline(op) || p == Response(op)) ensures Awaited(fewer, p) {
      var x :| x in pending && x.payload == p;
      assert x in fewer;
    }
    if Awaited(fewer, Deadline(op)) { StillAwaited(fewer, pending, Deadline(op)); }
  }

  lemma RespondedFlights(flights: Flights, ops: seq<Operation>, pending: Events, next: EventId, now: nat, op: OpId)
    requires FlightsOk(flights, ops, pending, next, now, Some(Response(op)))
    requires op in flights && !flights[op].settled && flights[op].responseDue == Some(now) && now < flights[op].deadline
    ensures FlightsOk(flights[op := flights[op].(settled := true, outcome := Some(Success(now)))], ops,
                      Without(pending, {flights[op].deadlineId}), next, now, None)
  {
    hide FlightOk;
    var f := flights[op];
    RespondedFlight(op, f, pending, next, now);
    assert forall e :: e in pending && e.sequence == f.deadlineId ==> e.payload == Deadline(op);
    hide FlightEventsOk;
    forall q | q in flights && q != op
      ensures FlightEventsOk(q, flights[q], Without(pending, {f.deadlineId}), next, None)
    {
      OtherFlightHole(q, flights[q], pending, next, Some(Response(op)));
      CancelledElsewhere(q, flights[q], pending, next, {f.deadlineId});
    }
  }

  /** Cancelling the deadline of a flight takes away no event that completes another operation. */
  lemma DeadlineCancelled(s: Kernel, op: OpId, hole: Option<Payload>)
    requires FlightsOk(s.flights, s.ops, s.pending, s.next, s.now, hole) && op in s.flights
    requires AwaitsOk(s.tasks, s.ops, s.flights, s.commits, s.pending, None)
    ensures AwaitsOk(s.tasks, s.ops, s.flights, s.commits, Without(s.pending, {s.flights[op].deadlineId}), None)
  {
    FlightHere(s, op, hole);
    var id := s.flights[op].deadlineId;
    forall p | Awaited(s.pending, p) && (p.Wake? || p.Admission? || p.Commit?)
      ensures Awaited(Without(s.pending, {id}), p)
    {
      var x :| x in s.pending && x.payload == p;
      assert x in Without(s.pending, {id});
    }
    AwaitsAfterRemoval(s.tasks, s.ops, s.flights, s.commits, s.pending, Without(s.pending, {id}), None);
  }

  lemma AwaitsWeaken(tasks: Tasks, ops: seq<Operation>, flights: Flights, commits: Commits, pending: Events, op: OpId)
    requires AwaitsOk(tasks, ops, flights, commits, pending, None)
    ensures AwaitsOk(tasks, ops, flights, commits, pending, Some(op))
  {}

  lemma FewerEventsOk(pending: Events, next: EventId, now: nat, fewer: Events)
    requires EventsOk(pending, next, now) && fewer <= pending
    ensures EventsOk(fewer, next, now)
  {}

  /** The response has settled the flight and cancelled its deadline, and its caller is to be resumed. */
  function RespondedState(s: Kernel, op: OpId): Kernel
    requires op in s.flights
  {
    s.(flights := s.flights[op := s.flights[op].(settled := true, outcome := Some(Success(s.now)))],
       pending := Without(s.pending, {s.flights[op].deadlineId}))
  }

  lemma ResponseSettles(s: Kernel, op: OpId)
    requires InvWith(s, s.tasks, Some(Response(op)), None)
    requires op in s.flights && op < |s.ops| && !s.flights[op].settled && s.flights[op].responseDue == Some(s.now)
    requires s.now < s.flights[op].deadline
    ensures InvWith(RespondedState(s, op), s.tasks, None, Some(op))
  {
    hide EventsOk, TasksOk, WakesOk, AwaitsOk, GenerationsOk, LocalOk, CommitsOk, FlightsOk, ReferencesOk, TraceOk;
    var f := s.flights[op];
    var g := f.(settled := true, outcome := Some(Success(s.now)));
    var fewer := Without(s.pending, {f.deadlineId});
    RespondedFlights(s.flights, s.ops, s.pending, s.next, s.now, op);
    DeadlineCancelled(s, op, Some(Response(op)));
    AwaitsWeaken(s.tasks, s.ops, s.flights, s.commits, fewer, op);
    FlightUpdateAwaits(s.tasks, s.ops, s.flights, s.commits, fewer, Some(op), op, g);
    FewerReferences(s.pending, s.tasks, s.flights, s.ops, fewer);
    SettledReferences(fewer, s.tasks, s.flights, s.ops, op, g);
    FewerEventsOk(s.pending, s.next, s.now, fewer);
    FewerIssued(s.ops, s.services, s.timers, s.pending, s.next, fewer);
  }

  /** A response that settles its flight: the deadline is cancelled and the caller resumed. */
  lemma ResponseKeeps(s: Kernel, op: OpId, choice: Choice)
    requires InvWith(s, s.tasks, Some(Response(op)), None) && s.failure.None?
    requires op in s.flights && op < |s.ops| && !s.flights[op].settled && s.flights[op].responseDue == Some(s.now)
    requires s.now < s.flights[op].deadline
    ensures Good(OnResponse(s, op, choice))
  {
    hide InvWith, Good, Complete, Without;
    ResponseSettles(s, op);
    CompleteKeeps(RespondedState(s, op), op, choice);
  }

  lemma SettledReferences(pending: Events, tasks: Tasks, flights: Flights, ops: seq<Operation>, op: OpId, g: Flight)
    requires ReferencesOk(pending, tasks, flights, ops) && op in flights && g.state == flights[op].state
    ensures ReferencesOk(pending, tasks, flights[op := g], ops)
  {
    forall q | Answerable(flights, q) ensures Answerable(flights[op := g], q) {}
  }

  /** A response that comes after settlement changes nothing. */
  lemma LateResponseKeeps(s: Kernel, op: OpId)
    requires InvWith(s, s.tasks, Some(Response(op)), None) && op in s.flights && s.flights[op].settled
    ensures Inv(s)
  {
    hide EventsOk, TasksOk, WakesOk, AwaitsOk, GenerationsOk, LocalOk, CommitsOk, ReferencesOk, TraceOk, FlightOk;
    forall q | q in s.flights ensures FlightEventsOk(q, s.flights[q], s.pending, s.next, None) {
      assert FlightEventsOk(q, s.flights[q], s.pending, s.next, Some(Response(op)));
    }
  }

  /** The commit is carried out, and the task that submitted it is to be resumed. */
  function CommittedState(s: Kernel, op: OpId): Kernel
    requires op in s.commits
  {
    var c := s.commits[op];
    s.(commits := s.commits - {op}, trace :=
       s.trace + [Committed(op, c.owner, c.generation, GenerationOf(s, c.owner))])
  }

  lemma CommitTaken(s: Kernel, op: OpId)
    requires InvWith(s, s.tasks, None, Some(op)) && op in s.commits
    ensures InvWith(CommittedState(s, op), s.tasks, None, Some(op)) && op < |s.ops|
  {
    hide EventsOk, TasksOk, WakesOk, AwaitsOk, GenerationsOk, LocalOk, FlightsOk, ReferencesOk, TraceOk;
    var c := s.commits[op];
    RanTrace(s.trace, s.ops, s.now, Committed(op, c.owner, c.generation, GenerationOf(s, c.owner)));
    CommitTakenAwaits(s.tasks, s.ops, s.flights, s.commits, s.pending, op);
  }

  lemma CommitKeeps(s: Kernel, op: OpId, choice: Choice)
    requires InvWith(s, s.tasks, None, Some(op)) && s.failure.None? && op in s.commits
    ensures Good(OnCommit(s, op, choice))
  {
    hide InvWith, Good, Complete;
    CommitTaken(s, op);
    CompleteKeeps(CommittedState(s, op), op, choice);
  }

  lemma CommitTakenAwaits(tasks: Tasks, ops: seq<Operation>, flights: Flights, commits: Commits, pending: Events,
                          op: OpId)
    requires AwaitsOk(tasks, ops, flights, commits, pending, Some(op))
    ensures AwaitsOk(tasks, ops, flights, commits - {op}, pending, Some(op))
  {}

  /** A commit event whose commit was withdrawn finds nobody waiting for it. */
  lemma StaleCommitKeeps(s: Kernel, e: Event<Payload>)
    requires Inv(s) && IsLeast(e, s.pending) && e.payload.Commit? && e.payload.op !in s.commits
    ensures Inv(Started(s, e))
  {
    hide EventsOk, TasksOk, WakesOk, GenerationsOk, LocalOk, CommitsOk, FlightsOk, ReferencesOk, TraceOk;
    TakeKeeps(s, e);
    var fewer := s.pending - {e};
    forall t | t in s.tasks && s.tasks[t].waiting.Some? && s.tasks[t].waiting.value < |s.ops|
      ensures Supported(s.tasks[t].waiting.value, s.ops[s.tasks[t].waiting.value], s.tasks[t], s.flights, s.commits,
                        fewer)
    {
      var op := s.tasks[t].waiting.value;
      assert Supported(op, s.ops[op], s.tasks[t], s.flights, s.commits, s.pending);
      forall p | Awaited(s.pending, p) && p != e.payload ensures Awaited(fewer, p) { StillThere(s.pending, e, p); }
    }
  }

  // ---------- Delivery, fenced work and local work ----------

  lemma AdmittedKeeps(s: Kernel, op: OpId)
    requires Inv(s) && op in s.flights
    ensures var flights := s.flights[op := s.flights[op].(state := ADMITTED)];
            Inv(s.(flights := flights)) && Answerable(flights, op)
  {
    hide EventsOk, TasksOk, WakesOk, AwaitsOk, GenerationsOk, LocalOk, CommitsOk, FlightsOk, ReferencesOk, TraceOk;
    FlightHere(s, op, None);
    FlightChangeKeeps(s, s.tasks, op, s.flights[op].(state := ADMITTED));
  }

  lemma ScheduledKeeps(s: Kernel, p: Payload)
    requires Inv(s) && s.failure.None? && !p.Deadline? && !p.Response? && !p.Background? && !p.Broker?
    requires Referable(p, s.flights, |s.ops|)
    ensures Good(Schedule(s, s.now, p))
  {
    hide InvWith, Lasting;
    ScheduleKeeps(s, s.tasks, None, s.now, p);
  }

  lemma DeliveryKeeps(s: Kernel, op: OpId, choice: Choice)
    requires Inv(s) && s.failure.None?
    ensures Good(OnDelivery(s, op, choice))
  {
    hide InvWith, Reply, Schedule, Lasting;
    if op in s.flights {
      var f := s.flights[op];
      AdmittedKeeps(s, op);
      var admitted := s.(flights := s.flights[op := f.(state := ADMITTED)]);
      if !choice.endpointKnown || (f.target in s.services && s.services[f.target].state != RUNNING) {
        ReplyKeeps(admitted, s.tasks, op, choice.errorLeg);
      } else if f.target in s.services {
        ScheduledKeeps(admitted, Endpoint(f.target, s.services[f.target].generation, op));
      } else {
        ScheduledKeeps(admitted, Start(f.target, Some(op)));
      }
    }
  }

  lemma Untracked(services: map<Owner, Service>, timers: set<EventId>, pending: Events, next: EventId, owner: Owner,
                  id: EventId)
    requires LocalOk(services, timers, pending, next) && owner in services
    requires forall e :: e in pending ==> e.sequence != id
    ensures LocalOk(services[owner := services[owner].(local := services[owner].local - {id})], timers, pending, next)
  {
    var fewer := services[owner := services[owner].(local := services[owner].local - {id})];
    forall o, i | o in fewer && i in fewer[o].local
      ensures Issued(pending, next, i, Background(o, fewer[o].generation))
    {
      assert Issued(pending, next, i, Background(o, services[o].generation));
    }
    forall e | e in pending ensures Tracked(fewer, e) { assert Tracked(services, e); }
  }

  /** The handle of a local event that was taken leaves the set. */
  lemma UntrackedKeeps(s: Kernel, owner: Owner, id: EventId)
    requires Inv(s) && owner in s.services && forall e :: e in s.pending ==> e.sequence != id
    ensures Inv(s.(services := s.services[owner := s.services[owner].(local := s.services[owner].local - {id})]))
  {
    hide EventsOk, TasksOk, WakesOk, AwaitsOk, LocalOk, CommitsOk, FlightsOk, ReferencesOk, TraceOk;
    Untracked(s.services, s.timers, s.pending, s.next, owner, id);
  }

  lemma CurrentGeneration(s: Kernel, owner: Owner)
    requires Inv(s) && owner in s.services
    ensures GenerationOf(s, owner) == s.services[owner].generation
  {
    hide EventsOk, TasksOk, WakesOk, AwaitsOk, LocalOk, CommitsOk, FlightsOk, ReferencesOk, TraceOk;
  }

  /** Endpoint and consumer work that passes the fence is of the current process generation. */
  lemma FencedKeeps(s: Kernel, owner: Owner, generation: nat, request: Option<OpId>, choice: Choice)
    requires Inv(s) && s.failure.None? && (request.Some? ==> Answerable(s.flights, request.value))
    ensures Good(OnFenced(s, owner, generation, request, choice))
  {
    hide Inv, Spawn;
    if owner in s.services && s.services[owner].generation == generation {
      CurrentGeneration(s, owner);
      SpawnKeeps(s, owner, generation, request, choice);
    }
  }

  /** Local work needs no fence: what is still pending was scheduled by the current process generation. */
  lemma BackgroundKeeps(s: Kernel, e: Event<Payload>, owner: Owner, born: nat, choice: Choice)
    requires Inv(s) && s.failure.None?
    requires owner in s.services && born == s.services[owner].generation && forall x :: x in s.pending ==>
        x.sequence != e.sequence
    ensures Good(OnBackground(s, e, owner, born, choice))
  {
    hide Inv, Spawn;
    UntrackedKeeps(s, owner, e.sequence);
    var service := s.services[owner];
    var taken := s.(services := s.services[owner := service.(local := service.local - {e.sequence})]);
    if service.state == RUNNING {
      CurrentGeneration(taken, owner);
      SpawnKeeps(taken, owner, born, None, choice);
    }
  }

  // ---------- Service transitions ----------

  lemma StateChangeKeeps(s: Kernel, owner: Owner, after: ServiceState)
    requires Inv(s) && owner in s.services
    ensures Inv(s.(services := s.services[owner := s.services[owner].(state := after)]))
  {
    hide EventsOk, TasksOk, WakesOk, AwaitsOk, CommitsOk, FlightsOk, ReferencesOk, TraceOk;
  }

  /** Cancelling events of one harmless kind. */
  lemma CancelKeeps(s: Kernel, tasks: Tasks, ids: set<EventId>)
    requires InvWith(s, tasks, None, None)
    requires forall e :: e in s.pending && e.sequence in ids ==> e.payload.Background? || e.payload.Broker?
    ensures InvWith(s.(pending := Without(s.pending, ids)), tasks, None, None)
  {
    hide EventsOk, TasksOk, WakesOk, AwaitsOk, GenerationsOk, LocalOk, CommitsOk, FlightsOk, ReferencesOk, TraceOk;
    var fewer := Without(s.pending, ids);
    FewerEventsOk(s.pending, s.next, s.now, fewer);
    FewerIssued(s.ops, s.services, s.timers, s.pending, s.next, fewer);
    FewerReferences(s.pending, tasks, s.flights, s.ops, fewer);
    CancelledFlights(s.flights, s.ops, s.pending, s.next, s.now, ids);
    forall p | Awaited(s.pending, p) && !p.Background? && !p.Broker? ensures Awaited(fewer, p) {
      var x :| x in s.pending && x.payload == p;
      assert x in fewer;
    }
    AwaitsAfterRemoval(tasks, s.ops, s.flights, s.commits, s.pending, fewer, None);
  }

  lemma CancelledFlights(flights: Flights, ops: seq<Operation>, pending: Events, next: EventId, now: nat,
                         ids: set<EventId>)
    requires FlightsOk(flights, ops, pending, next, now, None)
    requires forall e :: e in pending && e.sequence in ids ==> !e.payload.Deadline? && !e.payload.Response?
    ensures FlightsOk(flights, ops, Without(pending, ids), next, now, None)
  {
    hide FlightOk, FlightEventsOk;
    forall op | op in flights ensures FlightEventsOk(op, flights[op], Without(pending, ids), next, None) {
      CancelledElsewhere(op, flights[op], pending, next, ids);
    }
  }

  /** Without its local events the set of a service may be emptied, and its generation may change. */
  lemma EmptiedLocal(services: map<Owner, Service>, timers: set<EventId>, pending: Events, next: EventId, owner: Owner,
                     service: Service)
    requires LocalOk(services, timers, pending, next) && owner in services && service.local == {}
    requires forall e :: e in pending ==> e.sequence !in services[owner].local
    ensures LocalOk(services[owner := service], timers, pending, next)
    ensures forall e :: e in pending && e.payload.Background? ==> e.payload.owner != owner
  {
    var fewer := services[owner := service];
    forall o, id | o in fewer && id in fewer[o].local
      ensures Issued(pending, next, id, Background(o, fewer[o].generation))
    {
      assert Issued(pending, next, id, Background(o, services[o].generation));
    }
    forall e | e in pending ensures Tracked(fewer, e) && (e.payload.Background? ==> e.payload.owner != owner) {
      assert Tracked(services, e);
    }
  }

  lemma LocalAreBackground(s: Kernel, owner: Owner)
    requires LocalOk(s.services, s.timers, s.pending, s.next) && owner in s.services
    ensures forall e :: e in s.pending && e.sequence in s.services[owner].local ==> e.payload.Background?
  {
    forall e | e in s.pending && e.sequence in s.services[owner].local ensures e.payload.Background? {
      assert Issued(s.pending, s.next, e.sequence, Background(owner, s.services[owner].generation));
    }
  }

  ghost predicate NoLocal(pending: Events, owner: Owner) {
    forall e :: e in pending && e.payload.Background? ==> e.payload.owner != owner
  }

  lemma CancelLocalKeeps(s: Kernel, owner: Owner)
    requires Inv(s) && owner in s.services
    ensures Inv(CancelLocal(s, owner)) && NoLocal(CancelLocal(s, owner).pending, owner)
  {
    hide EventsOk, TasksOk, WakesOk, AwaitsOk, LocalOk, CommitsOk, FlightsOk, ReferencesOk, TraceOk;
    LocalAreBackground(s, owner);
    CancelKeeps(s, s.tasks, s.services[owner].local);
    var fewer := Without(s.pending, s.services[owner].local);
    EmptiedLocal(s.services, s.timers, fewer, s.next, owner, s.services[owner].(local := {}));
  }

  // ---------- Abandoning a process generation ----------

  lemma SurvivorsAreOthers(s: Kernel, owner: Owner, t: TaskId)
    requires TasksOk(s.tasks, s.ops, s.generations, s.nextTask) && t in s.tasks && owner in s.generations
    ensures Doomed(s.tasks[t], owner, s.generations[owner]) <==> s.tasks[t].owner == owner
    ensures !Doomed(s.tasks[t], owner, s.generations[owner]) ==>
      s.tasks[t].waiting.Some? && !Orphaned(s, s.tasks[t].waiting.value, owner, s.generations[owner])
  {
    assert TaskOk(t, s.tasks[t], s.ops, s.generations, s.nextTask);
    forall u | u in s.tasks && u != t ensures s.tasks[u].waiting != s.tasks[t].waiting && s.tasks[u].created.None? {
      assert TaskOk(u, s.tasks[u], s.ops, s.generations, s.nextTask);
    }
  }

  lemma AbandonedTasks(s: Kernel, owner: Owner)
    requires TasksOk(s.tasks, s.ops, s.generations, s.nextTask) && owner in s.generations
    ensures var a := Abandon(s, owner, s.generations[owner]); TasksOk(a.tasks, a.ops, a.generations, a.nextTask)
  {
    var a := Abandon(s, owner, s.generations[owner]);
    forall t | t in a.tasks ensures TaskOk(t, a.tasks[t], a.ops, a.generations, a.nextTask) {
      SurvivorsAreOthers(s, owner, t);
      assert TaskOk(t, s.tasks[t], s.ops, s.generations, s.nextTask);
    }
    forall op | 0 <= op < |a.ops| && !a.ops[op].settled && a.ops[op].task in a.tasks
      ensures a.tasks[a.ops[op].task].waiting == Some(op)
    {
      assert !s.ops[op].settled;
    }
  }

  lemma OrphanedWakesAreWakes(s: Kernel, owner: Owner, generation: nat, e: Event<Payload>)
    requires WakesOk(s.ops, s.pending, s.next) && e in s.pending && e.sequence in OrphanedWakes(s, owner, generation)
    ensures e.payload.Wake? && e.payload.op < |s.ops| && Orphaned(s, e.payload.op, owner, generation)
  {
    var op :| 0 <= op < |s.ops| && Orphaned(s, op, owner, generation) && s.ops[op].wake == Some(e.sequence);
    assert Issued(s.pending, s.next, e.sequence, Wake(op));
  }

  /** The survivors keep what they wait for: only wakes of abandoned tasks and commits of their generation are gone. */
  lemma AbandonedAwaits(s: Kernel, owner: Owner, commits: Commits)
    requires TasksOk(s.tasks, s.ops, s.generations, s.nextTask) && owner in s.generations
    requires WakesOk(s.ops, s.pending, s.next)
    requires AwaitsOk(s.tasks, s.ops, s.flights, commits, s.pending, None)
    requires forall op :: op in commits && commits[op].owner != owner ==>
        op in s.commits && s.commits[op] == commits[op]
    ensures var a := Abandon(s, owner, s.generations[owner]);
            AwaitsOk(a.tasks, a.ops, a.flights, a.commits, a.pending, None)
  {
    var generation := s.generations[owner];
    var a := Abandon(s, owner, generation);
    forall t | t in a.tasks && a.tasks[t].waiting.Some? && a.tasks[t].waiting.value < |a.ops|
      ensures Supported(a.tasks[t].waiting.value, a.ops[a.tasks[t].waiting.value], a.tasks[t], a.flights, a.commits,
                        a.pending)
    {
      var op := a.tasks[t].waiting.value;
      SurvivorsAreOthers(s, owner, t);
      assert a.ops[op] == s.ops[op];
      assert Supported(op, s.ops[op], s.tasks[t], s.flights, commits, s.pending);
      forall p | Awaited(s.pending, p) && (p == Wake(op) || p == Admission(op) || p == Commit(s.tasks[t].owner, op))
        ensures Awaited(a.pending, p)
      {
        var x :| x in s.pending && x.payload == p;
        if x.sequence in OrphanedWakes(s, owner, generation) { OrphanedWakesAreWakes(s, owner, generation, x); }
        assert x in a.pending;
      }
    }
  }

  lemma AbandonedFrame(s: Kernel, owner: Owner)
    requires owner in s.generations && WakesOk(s.ops, s.pending, s.next)
    requires LocalOk(s.services, s.timers, s.pending, s.next)
    requires EventsOk(s.pending, s.next, s.now) && FlightsOk(s.flights, s.ops, s.pending, s.next, s.now, None)
    requires ReferencesOk(s.pending, s.tasks, s.flights, s.ops) && TraceOk(s.trace, s.ops, s.now)
    ensures var a := Abandon(s, owner, s.generations[owner]);
            && WakesOk(a.ops, a.pending, a.next) && LocalOk(a.services, a.timers, a.pending, a.next)
            && EventsOk(a.pending, a.next, a.now)
            && FlightsOk(a.flights, a.ops, a.pending, a.next, a.now, None)
            && ReferencesOk(a.pending, a.tasks, a.flights, a.ops)
            && TraceOk(a.trace, a.ops, a.now)
  {
    hide FlightsOk, EventsOk, LocalOk;
    var generation := s.generations[owner];
    var a := Abandon(s, owner, generation);
    var ids := OrphanedWakes(s, owner, generation);
    forall e | e in s.pending && e.sequence in ids
      ensures e.payload.Wake?
    {
      OrphanedWakesAreWakes(s, owner, generation, e);
    }
    FewerIssued(s.ops, s.services, s.timers, s.pending, s.next, a.pending);
    FewerEventsOk(s.pending, s.next, s.now, a.pending);
    CancelledFlights(s.flights, s.ops, s.pending, s.next, s.now, ids);
    SettledFlights(s.flights, s.ops, a.ops, a.pending, s.next, s.now);
  }

  lemma SettledFlights(flights: Flights, ops: seq<Operation>, more: seq<Operation>, pending: Events, next: EventId,
                       now: nat)
    requires FlightsOk(flights, ops, pending, next, now, None) && |ops| == |more|
    ensures FlightsOk(flights, more, pending, next, now, None)
  {}

  /** Dropping the commits of the current generation and abandoning its tasks leaves nothing of it behind. */
  lemma AbandonKeeps(s: Kernel, owner: Owner, after: ServiceState)
    requires Inv(s) && s.failure.None? && owner in s.services && NoLocal(s.pending, owner)
    requires s.services[owner].local == {}
    ensures var generation := s.services[owner].generation;
            var a := Abandon(DropCommits(s, owner, generation), owner, generation);
            a.failure.None? && Inv(a.(services := a.services[owner := Service(after, generation + 1, {})]))
  {
    hide EventsOk, TasksOk, WakesOk, AwaitsOk, LocalOk, FlightsOk, ReferencesOk, TraceOk;
    var generation := s.services[owner].generation;
    assert owner in s.generations && generation == s.generations[owner];
    var d := DropCommits(s, owner, generation);
    AbandonedTasks(d, owner);
    AbandonedAwaits(d, owner, s.commits);
    AbandonedFrame(d, owner);
    var a := Abandon(d, owner, generation);
    EmptiedLocal(a.services, a.timers, a.pending, a.next, owner, Service(after, generation + 1, {}));
  }

  lemma FailKeeps(s: Kernel, code: ErrorCode)
    requires Inv(s) && s.failure.None? && (code == HANDLER_FAILED || code == INVALID_SERVICE_TRANSITION)
    ensures Good(Fail(s, code))
  {
    hide InvWith, Lasting;
    FailedLasts(s, s.tasks, code);
  }

  /** A transition fails only when it is not allowed; the abandon inside it is never rejected. */
  lemma TransitionKeeps(s: Kernel, owner: Owner, after: ServiceState)
    requires Inv(s) && s.failure.None?
    ensures Good(Transition(s, owner, after))
  {
    hide Inv, Lasting;
    FailKeeps(s, INVALID_SERVICE_TRANSITION);
    if owner in s.services && after != s.services[owner].state && Allowed(s.services[owner].state, after) {
      if (after == CRASHED || after == STOPPED) && s.services[owner].state != CRASHED {
        CancelLocalKeeps(s, owner);
        AbandonKeeps(CancelLocal(s, owner), owner, after);
      } else {
        StateChangeKeeps(s, owner, after);
      }
    }
  }

  // ---------- The message broker ----------

  lemma CancelTimersKeeps(s: Kernel, ids: set<EventId>)
    requires Inv(s)
    ensures Inv(CancelTimers(s, ids))
  {
    hide EventsOk, TasksOk, WakesOk, AwaitsOk, GenerationsOk, CommitsOk, FlightsOk, ReferencesOk, TraceOk;
    CancelKeeps(s, s.tasks, ids * s.timers);
  }

  lemma StartTimerKeeps(s: Kernel, timer: Timer)
    requires Inv(s)
    ensures Inv(StartTimer(s, timer))
  {
    hide EventsOk, TasksOk, WakesOk, AwaitsOk, GenerationsOk, LocalOk, CommitsOk, FlightsOk, ReferencesOk, TraceOk;
    var p := Broker(timer.kind);
    AddedLocal(s.services, s.timers, s.pending, s.next, s.now, Event(s.now + timer.delay, s.next, KindOf(p), p));
    AddedKeeps(s, s.tasks, None, s.now + timer.delay, p, s.services, s.timers + {s.next});
  }

  lemma {:induction false} StartTimersKeeps(s: Kernel, timers: seq<Timer>)
    requires Inv(s)
    ensures Inv(StartTimers(s, timers)) && StartTimers(s, timers).failure == s.failure
    decreases |timers|
  {
    hide Inv;
    if timers != [] {
      StartTimerKeeps(s, timers[0]);
      StartTimersKeeps(StartTimer(s, timers[0]), timers[1..]);
    }
  }

  lemma AcceptKeeps(s: Kernel, owner: Owner)
    requires Inv(s)
    ensures Inv(Accept(s, owner))
  {
    hide InvWith;
    if owner in s.services && s.services[owner].state == RUNNING {
      ScheduleKeeps(s, s.tasks, None, s.now, Consumer(owner, s.services[owner].generation));
    }
  }

  lemma {:induction false} AcceptAllKeeps(s: Kernel, owners: seq<Owner>)
    requires Inv(s)
    ensures Inv(AcceptAll(s, owners)) && AcceptAll(s, owners).failure == s.failure
    decreases |owners|
  {
    hide Inv;
    if owners != [] {
      AcceptKeeps(s, owners[0]);
      AcceptAllKeeps(Accept(s, owners[0]), owners[1..]);
    }
  }

  /** Whatever the broker cancels, schedules and hands over, the kernel keeps its invariant. */
  lemma BrokeredKeeps(s: Kernel, work: BrokerWork)
    requires Good(s)
    ensures Good(Brokered(s, work))
  {
    hide Inv, Lasting, StartTimers, AcceptAll;
    if s.failure.None? {
      CancelTimersKeeps(s, work.cancelled);
      var c := CancelTimers(s, work.cancelled);
      StartTimersKeeps(c, work.timers);
      AcceptAllKeeps(StartTimers(c, work.timers), work.deliveries);
    }
  }

  // ---------- One dispatch ----------

  lemma WaitingIsSupported(s: Kernel, t: TaskId)
    requires Inv(s) && t in s.tasks
    ensures TaskOk(t, s.tasks[t], s.ops, s.generations, s.nextTask)
    ensures Supported(s.tasks[t].waiting.value, s.ops[s.tasks[t].waiting.value], s.tasks[t], s.flights, s.commits,
                      s.pending)
  {
    hide EventsOk, WakesOk, GenerationsOk, LocalOk, CommitsOk, FlightsOk, ReferencesOk, TraceOk;
    assert TaskOk(t, s.tasks[t], s.ops, s.generations, s.nextTask);
  }

  lemma DeadlineIsPending(s: Kernel, op: OpId)
    requires Inv(s) && op in s.flights && !s.flights[op].settled
    ensures Event(s.flights[op].deadline, s.flights[op].deadlineId, KindOf(Deadline(op)), Deadline(op)) in s.pending
  {
    hide EventsOk, TasksOk, WakesOk, AwaitsOk, GenerationsOk, LocalOk, CommitsOk, ReferencesOk, TraceOk;
    FlightHere(s, op, None);
  }

  /** Every live task waits for an operation of its own that a pending event will complete. */
  lemma TaskHasItsEvent(s: Kernel, t: TaskId) returns (e: Event<Payload>)
    requires Inv(s) && t in s.tasks
    ensures s.tasks[t].waiting.Some? && s.tasks[t].waiting.value < |s.ops|
    ensures s.ops[s.tasks[t].waiting.value].task == t && !s.ops[s.tasks[t].waiting.value].settled
    ensures e in s.pending && HoleOp(Some(e.payload)) == s.tasks[t].waiting
    ensures e.payload.Deadline? ==>
        s.tasks[t].waiting.value in s.flights
        && !s.flights[s.tasks[t].waiting.value].settled
    ensures e.payload.Commit? ==> s.tasks[t].waiting.value in s.commits
  {
    WaitingIsSupported(s, t);
    hide InvWith;
    var op := s.tasks[t].waiting.value;
    match s.ops[op].call
    case Sleep(_) => e :| e in s.pending && e.payload == Wake(op);
    case Request(_, _, _) =>
      DeadlineIsPending(s, op);
      e := Event(s.flights[op].deadline, s.flights[op].deadlineId, KindOf(Deadline(op)), Deadline(op));
    case Publish => e :| e in s.pending && e.payload == Admission(op);
    case CommitTransaction => e :| e in s.pending && e.payload == Commit(s.tasks[t].owner, op);
  }

  /** With no event left there is no task left. */
  lemma EmptyMeansIdle(s: Kernel)
    requires Inv(s) && s.pending == {}
    ensures s.tasks == map[]
  {
    hide Inv;
    forall t ensures t !in s.tasks {
      if t in s.tasks { var e := TaskHasItsEvent(s, t); }
    }
  }

  lemma BoundaryKeeps(s: Kernel)
    requires Good(s)
    ensures Good(Boundary(s))
  {
    hide InvWith;
    if s.failure.None? && s.pending == {} { EmptyMeansIdle(s); CompletedKeeps(s); }
  }

  lemma CompletedKeeps(s: Kernel)
    requires Inv(s)
    ensures Inv(s.(completed := true))
  {}

  lemma HandlerKeeps(s: Kernel, e: Event<Payload>, choice: Choice)
    requires Inv(s) && s.failure.None? && IsLeast(e, s.pending)
    ensures Good(RunHandler(Started(s, e), e, choice))
  {
    hide InvWith, Good;
    var c := Started(s, e);
    TakeKeeps(s, e);
    match e.payload
    case Wake(op) => WakeKeeps(c, op, choice);
    case Deadline(op) => DeadlineArrives(s, e, op); DeadlineKeeps(c, op, choice);
    case Delivery(op) => DeliveryKeeps(c, op, choice);
    case Response(op) => FlightIsOp(s, op); ResponseArrives(c, op, choice);
    case Admission(op) => CompleteKeeps(c, op, choice);
    case Commit(_, op) => if op in c.commits { CommitKeeps(c, op, choice); } else { StaleCommitKeeps(s, e); Idle(c); }
    case Lifecycle(owner, after) => TransitionKeeps(c, owner, after);
    case Crash(owner) => TransitionKeeps(c, owner, CRASHED); FailKeeps(c, INVALID_SERVICE_TRANSITION);
    case Endpoint(owner, generation, request) => FencedKeeps(c, owner, generation, Some(request), choice);
    case Consumer(owner, generation) => FencedKeeps(c, owner, generation, None, choice);
    case Background(owner, born) => LocalArrives(s, e); BackgroundKeeps(c, e, owner, born, choice);
    case Start(owner, callback) => SpawnKeeps(c, owner, GenerationOf(c, owner), callback, choice);
    case Broker(_) => Idle(c);
  }

  lemma Idle(s: Kernel)
    requires Inv(s) && s.failure.None?
    ensures Good(s)
  {
    hide Inv;
  }

  /** A response settles its flight, or comes after settlement and changes nothing. */
  lemma ResponseArrives(s: Kernel, op: OpId, choice: Choice)
    requires InvWith(s, s.tasks, Some(Response(op)), None) && s.failure.None? && op in s.flights && op < |s.ops|
    requires !s.flights[op].settled ==> s.flights[op].responseDue == Some(s.now) && s.now < s.flights[op].deadline
    ensures Good(OnResponse(s, op, choice))
  {
    hide InvWith;
    if s.flights[op].settled { LateResponseKeeps(s, op); } else { ResponseKeeps(s, op, choice); }
  }

  /** A local event that is taken was tracked, and scheduled by the current process generation. */
  lemma LocalArrives(s: Kernel, e: Event<Payload>)
    requires Inv(s) && e in s.pending && e.payload.Background?
    ensures e.payload.owner in s.services && e.payload.born == s.services[e.payload.owner].generation
    ensures forall x :: x in s.pending - {e} ==> x.sequence != e.sequence
  {
    hide TasksOk, WakesOk, AwaitsOk, GenerationsOk, CommitsOk, FlightsOk, ReferencesOk, TraceOk;
    assert Tracked(s.services, e);
  }

  lemma FlightIsOp(s: Kernel, op: OpId)
    requires Inv(s) && op in s.flights
    ensures op < |s.ops|
  {}

  lemma DeadlineArrives(s: Kernel, e: Event<Payload>, op: OpId)
    requires Inv(s) && e in s.pending && e.payload == Deadline(op) && op in s.flights
    ensures op < |s.ops| && !Awaited(Started(s, e).pending, Deadline(op))
  {
    hide EventsOk, TasksOk, WakesOk, AwaitsOk, GenerationsOk, LocalOk, CommitsOk, ReferencesOk, TraceOk;
    FlightHere(s, op, None);
    forall x | x in s.pending && x.payload == Deadline(op) ensures x == e {
      SequenceUnique(s, e, x);
    }
  }

  lemma SequenceUnique(s: Kernel, e: Event<Payload>, x: Event<Payload>)
    requires EventsOk(s.pending, s.next, s.now) && e in s.pending && x in s.pending && e.sequence == x.sequence
    ensures e == x
  {}

  /** A dispatch keeps the invariant; the run fails only for a reason that is the user's. */
  lemma DispatchKeeps(s: Kernel, env: Env)
    requires Good(s)
    ensures Good(Dispatch(s, env))
  {
    hide InvWith, Lasting, RunHandler, Brokered, KernelModel.Boundary;
    if s.failure.None? {
      if s.pending == {} {
        BoundaryKeeps(s);
      } else {
        var e := Least(s.pending);
        TakeKeeps(s, e);
        var reaction := env(s.processed);
        HandlerKeeps(s, e, reaction.choice);
        BrokeredKeeps(RunHandler(Started(s, e), e, reaction.choice), reaction.broker);
        BoundaryKeeps(HandleEvent(Started(s, e), e, reaction));
      }
    }
  }
}
