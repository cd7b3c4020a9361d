/**
 * The results about the kernel over whole runs: no deadlock, exactly-once resumption, fenced process generations,
 * flights that settle once, and control calls that cannot change what a run does.
 */
module KernelTheorems {
  import opened Outcomes
  import opened Scheduler
  import opened KernelModel
  import opened KernelInvariants
  import opened KernelSteps
  import opened KernelDispatch

  // ---------- Runs ----------

  /** A composed simulation: services and core agree on generation 0, only scenario events are pending, nothing ran. */
  ghost predicate Initial(s: Kernel) {
    && s.failure.None? && s.tasks == map[] && s.ops == [] && s.flights == map[] && s.commits == map[] && s.trace == []
    && s.timers == {}
    && EventsOk(s.pending, s.next, s.now) && GenerationsOk(s.services, s.generations)
    && (forall o :: o in s.services ==> s.services[o].local == {})
    && (forall e :: e in s.pending ==> ScenarioEvent(e.payload))
  }

  predicate ScenarioEvent(p: Payload) {
    p.Lifecycle? || p.Crash? || (p.Start? && p.callback.None?)
  }

  lemma InitialIsGood(s: Kernel)
    requires Initial(s)
    ensures Good(s)
  {}

  /** `n` dispatches in a row, stopping for good at completion or failure. */
  ghost function Iterate(s: Kernel, env: Env, n: nat): Kernel
    decreases n
  {
    if n == 0 || s.failure.Some? || s.completed then s else Iterate(Dispatch(s, env), env, n - 1)
  }

  lemma {:induction false} IterateKeeps(s: Kernel, env: Env, n: nat)
    requires Good(s)
    ensures Good(Iterate(s, env, n))
    decreases n
  {
    hide Good;
    if !(n == 0 || s.failure.Some? || s.completed) {
      DispatchKeeps(s, env);
      IterateKeeps(Dispatch(s, env), env, n - 1);
    }
  }

  /**
   * Deadlock freedom, crashes included: whatever handlers, links and faults do, a run fails only when user code throws
   * or a scenario asks for an impossible transition. It never deadlocks, never rewinds the clock, and never rejects a
   * completion, an abandon or a reply of the kernel's own.
   */
  lemma NoDeadlock(s: Kernel, env: Env, n: nat)
    requires Initial(s)
    ensures var c := Iterate(s, env, n);
      && c.failure != Some(SIMULATION_DEADLOCK) && c.failure != Some(CLOCK_REWIND)
      && c.failure != Some(INVALID_OPERATION) && c.failure != Some(INVALID_NETWORK_REPLY)
      && (c.failure.None? ==>
          (forall t :: t in c.tasks ==> exists e :: e in c.pending && HoleOp(Some(e.payload)) == c.tasks[t].waiting))
      && (c.failure.None? && c.pending == {} ==> c.tasks == map[])
  {
    InitialIsGood(s);
    IterateKeeps(s, env, n);
    var c := Iterate(s, env, n);
    hide Inv;
    if c.failure.None? {
      forall t | t in c.tasks ensures exists e :: e in c.pending && HoleOp(Some(e.payload)) == c.tasks[t].waiting {
        var e := TaskHasItsEvent(c, t);
      }
      if c.pending == {} { EmptyMeansIdle(c); }
    }
  }

  ghost predicate WaitsOnItsOwn(c: Kernel, t: TaskId)
    requires t in c.tasks
  {
    var waiting := c.tasks[t].waiting;
    waiting.Some? && waiting.value < |c.ops| && c.ops[waiting.value].task == t && !c.ops[waiting.value].settled
  }

  /** Each operation resumes its task at most once, and each live task waits on an operation of its own. */
  lemma ExactlyOnceResumption(s: Kernel, env: Env, n: nat)
    requires Initial(s)
    ensures var c := Iterate(s, env, n);
      && (forall i: nat, j: nat, op: nat :: IsResume(c.trace, i, op) && IsResume(c.trace, j, op) ==> i == j)
      && (forall i: nat, op: nat :: IsResume(c.trace, i, op) ==> op < |c.ops| && c.ops[op].settled)
      && (c.failure.None? ==> forall t :: t in c.tasks ==> WaitsOnItsOwn(c, t))
      && (forall o :: o in c.services ==> o in c.generations && c.services[o].generation == c.generations[o])
  {
    InitialIsGood(s);
    IterateKeeps(s, env, n);
    var c := Iterate(s, env, n);
    ResumedOnce(c);
    if c.failure.None? {
      forall t | t in c.tasks ensures WaitsOnItsOwn(c, t) { WaitingTask(c, t); }
    }
  }

  lemma ResumedOnce(c: Kernel)
    requires Good(c)
    ensures forall i: nat, j: nat, op: nat :: IsResume(c.trace, i, op) && IsResume(c.trace, j, op) ==> i == j
    ensures forall i: nat, op: nat :: IsResume(c.trace, i, op) ==> op < |c.ops| && c.ops[op].settled
    ensures forall o :: o in c.services ==> o in c.generations && c.services[o].generation == c.generations[o]
  {
    hide Good, EventsOk, WakesOk, LocalOk, CommitsOk, FlightsOk;
    GoodLasts(c);
  }

  lemma WaitingTask(c: Kernel, t: TaskId)
    requires Inv(c) && t in c.tasks
    ensures WaitsOnItsOwn(c, t)
  {
    hide EventsOk, WakesOk, AwaitsOk, GenerationsOk, LocalOk, CommitsOk, FlightsOk, ReferencesOk, TraceOk;
    assert TaskOk(t, c.tasks[t], c.ops, c.generations, c.nextTask);
  }

  /** Recorded dispatch times never decrease, and nothing pending is in the past. */
  lemma VirtualTimeIsMonotone(s: Kernel, env: Env, n: nat)
    requires Initial(s)
    ensures var c := Iterate(s, env, n);
      && (forall e :: e in c.pending ==> c.now <= e.time)
      && (forall i, j :: 0 <= i < j < |c.trace| && c.trace[i].Dispatched? && c.trace[j].Dispatched? ==>
          c.trace[i].time <= c.trace[j].time)
  {
    InitialIsGood(s);
    IterateKeeps(s, env, n);
    TimesAscend(Iterate(s, env, n));
  }

  lemma TimesAscend(c: Kernel)
    requires Good(c)
    ensures forall e :: e in c.pending ==> c.now <= e.time
    ensures forall i, j :: 0 <= i < j < |c.trace| && c.trace[i].Dispatched? && c.trace[j].Dispatched? ==>
        c.trace[i].time <= c.trace[j].time
  {
    hide Good, WakesOk, GenerationsOk, LocalOk, CommitsOk, FlightsOk;
    GoodLasts(c);
    forall e | e in c.pending ensures c.now <= e.time { assert EventOk(c.next, c.now, e); }
  }

  /**
   * The caller of a settled flight succeeded iff a response was due strictly before the deadline; the deadline wins
   * ties. An unsettled flight is still within its deadline and has its deadline event pending.
   */
  lemma DeadlineOrResponse(s: Kernel, env: Env, n: nat, op: OpId)
    requires Initial(s) && op in Iterate(s, env, n).flights
    ensures var c := Iterate(s, env, n);
      var f := c.flights[op];
      && (f.settled <==> f.outcome.Some?)
      && (f.settled ==> (f.outcome.value.Success? <==> f.responseDue.Some? && f.responseDue.value < f.deadline))
      && (f.settled ==> f.outcome.value.time <= f.deadline)
      && (!f.settled ==>
          c.now <= f.deadline
          && Event(f.deadline, f.deadlineId, KindOf(Deadline(op)), Deadline(op)) in c.pending)
  {
    hide Good, Initial, Iterate, Lasting;
    InitialIsGood(s);
    IterateKeeps(s, env, n);
    GoodLasts(Iterate(s, env, n));
    LastingFlight(Iterate(s, env, n), op);
  }

  lemma LastingFlight(c: Kernel, op: OpId)
    requires Lasting(c) && op in c.flights
    ensures FlightOk(op, c.flights[op], c.now) && FlightEventsOk(op, c.flights[op], c.pending, c.next, None)
  {
    hide EventsOk, WakesOk, GenerationsOk, LocalOk, CommitsOk, TraceOk, FlightOk, FlightEventsOk;
    FlightHere(c, op, None);
  }

  // ---------- What a later state keeps of an earlier one ----------

  /** A flight keeps its deadline; once it was replied it keeps its response, and once it has settled its outcome. */
  predicate FlightGrows(f: Flight, g: Flight) {
    && g.deadline == f.deadline
    && (f.replied ==> g.replied && g.responseDue == f.responseDue)
    && (f.settled ==> g.settled && g.outcome == f.outcome)
  }

  ghost predicate FlightKept(flights: Flights, later: Flights, op: OpId) {
    op in later && (op in flights ==> FlightGrows(flights[op], later[op]))
  }

  /** No settled flight or operation changes, history only grows, and nothing older than the current generation runs. */
  ghost predicate Later(s: Kernel, c: Kernel) {
    && s.now <= c.now && |s.ops| <= |c.ops| && s.trace <= c.trace
    && (forall op :: op in s.flights ==> FlightKept(s.flights, c.flights, op))
    && (forall op :: op in c.flights ==> op < |c.ops|)
    && (forall op :: 0 <= op < |s.ops| && s.ops[op].settled ==> c.ops[op].settled)
    && (forall o :: GenerationIn(s.generations, o) <= GenerationIn(c.generations, o))
    && (forall i :: |s.trace| <= i < |c.trace| && !c.trace[i].Dispatched? ==>
        c.trace[i].current >= GenerationIn(s.generations, c.trace[i].owner))
  }

  lemma LaterTransitive(a: Kernel, b: Kernel, c: Kernel)
    requires Later(a, b) && Later(b, c)
    ensures Later(a, c)
  {
    forall op | op in a.flights ensures FlightKept(a.flights, c.flights, op) {
      assert FlightKept(a.flights, b.flights, op) && FlightKept(b.flights, c.flights, op);
    }
    forall i | |a.trace| <= i < |c.trace| && !c.trace[i].Dispatched?
      ensures c.trace[i].current >= GenerationIn(a.generations, c.trace[i].owner)
    {
      if i < |b.trace| { assert c.trace[i] == b.trace[i]; }
    }
  }

  ghost predicate FlightsKnown(s: Kernel) {
    forall op :: op in s.flights ==> op < |s.ops|
  }

  /** Changes of tasks, services, commits and pending events do not matter here. */
  lemma SameHistoryLater(s: Kernel, c: Kernel)
    requires FlightsKnown(s)
    requires c == s.(tasks := c.tasks, nextTask := c.nextTask, services := c.services, commits := c.commits, pending :=
                     c.pending,
                     timers := c.timers, next := c.next, completed := c.completed, failure := c.failure, processed :=
                         c.processed)
    ensures Later(s, c)
  {}

  lemma FlightChangeLater(s: Kernel, op: OpId, f: Flight, c: Kernel)
    requires FlightsKnown(s) && op in s.flights
    requires FlightGrows(s.flights[op], f)
    requires c == s.(flights := s.flights[op := f], pending := c.pending, next := c.next)
    ensures Later(s, c)
  {}

  lemma RecordedLater(s: Kernel, entry: TraceEntry, c: Kernel)
    requires FlightsKnown(s) && (!entry.Dispatched? ==> entry.current == GenerationIn(s.generations, entry.owner))
    requires c == s.(trace := s.trace + [entry], tasks := c.tasks, nextTask := c.nextTask, commits :=
                     c.commits, pending := c.pending,
                     now := c.now, processed := c.processed) && s.now <= c.now
    ensures Later(s, c)
  {}

  /** The response leg of a reply sent at `now` with sequence `id`. */
  function ResponseLeg(now: nat, id: EventId, op: OpId, leg: Leg): set<Event<Payload>> {
    match leg
    case Lost => {}
    case After(delay) => {Event(now + delay, id, "kernel.network.response", Response(op))}
  }

  /**
   * The first reply to a flight that was delivered sends exactly one response over its leg, due when the leg takes it
   * there, and none over a lost one; no other flight changes, and a second reply sends nothing.
   */
  lemma FirstReplyIsSent(s: Kernel, op: OpId, leg: Leg, again: Leg)
    requires op in s.flights && s.flights[op].state != SENT && !s.flights[op].replied
    ensures var c := Reply(s, op, leg);
      && c == s.(flights := s.flights[op := c.flights[op]], pending := c.pending, next := c.next)
      && c.flights[op].replied && FlightGrows(s.flights[op], c.flights[op])
      && c.pending == s.pending + ResponseLeg(s.now, s.next, op, leg)
      && c.next == s.next + |ResponseLeg(s.now, s.next, op, leg)|
      && c.flights[op].responseDue == (if leg.After? then Some(s.now + leg.delay) else s.flights[op].responseDue)
      && Reply(c, op, again) == c
  {}

  lemma ReplyLater(s: Kernel, op: OpId, leg: Leg)
    requires FlightsKnown(s)
    ensures Later(s, Reply(s, op, leg))
  {
    var r := Reply(s, op, leg);
    if op !in s.flights || s.flights[op].state == SENT || s.flights[op].replied {
      hide Later, SendResponse;
      SameHistoryLater(s, r);
    } else {
      FirstReplyIsSent(s, op, leg, leg);
      hide Later, Reply, FlightGrows;
      FlightChangeLater(s, op, r.flights[op], r);
    }
  }

  lemma BeginLater(s: Kernel, t: TaskId, call: Call)
    requires FlightsKnown(s) && t in s.tasks
    ensures Later(s, Begin(s, t, call))
  {}

  lemma LaterIsKnown(s: Kernel, c: Kernel)
    requires Later(s, c)
    ensures FlightsKnown(c)
  {}

  lemma FinishedLater(s: Kernel, t: TaskId, leg: Leg)
    requires FlightsKnown(s) && t in s.tasks
    ensures Later(s, Finished(s, t, leg))
  {
    hide Later, Reply;
    var c := Finished(s, t, leg);
    if s.tasks[t].request.Some? {
      var r := Reply(s, s.tasks[t].request.value, leg);
      ReplyLater(s, s.tasks[t].request.value, leg);
      LaterIsKnown(s, r);
      SameHistoryLater(r, c);
      LaterTransitive(s, r, c);
    } else {
      SameHistoryLater(s, c);
    }
  }

  lemma AdvanceLater(s: Kernel, t: TaskId, choice: Choice)
    requires FlightsKnown(s) && t in s.tasks
    ensures Later(s, Advance(s, t, choice))
  {
    hide Later, Begin, Finished;
    var worked := ScheduleLocal(s, s.tasks[t].owner, choice.background);
    var c := Advance(s, t, choice);
    SameHistoryLater(s, worked);
    match choice.action
    case Throw => SameHistoryLater(s, c);
    case Finish(leg) =>
      FinishedLater(worked, t, leg);
      LaterTransitive(s, worked, c);
    case Await(call) =>
      BeginLater(worked, t, call);
      LaterTransitive(s, worked, c);
  }

  lemma ResumedLater(s: Kernel, op: OpId)
    requires FlightsKnown(s) && op < |s.ops| && s.ops[op].task in s.tasks
    ensures Later(s, ResumedState(s, op))
  {}

  lemma CompleteLater(s: Kernel, op: OpId, choice: Choice)
    requires FlightsKnown(s)
    ensures Later(s, Complete(s, op, choice))
  {
    hide Later, Advance;
    if op < |s.ops| && !s.ops[op].settled && s.ops[op].task in s.tasks && s.tasks[s.ops[op].task].waiting == Some(op) {
      var c := ResumedState(s, op);
      ResumedLater(s, op);
      LaterIsKnown(s, c);
      AdvanceLater(c, s.ops[op].task, choice);
      LaterTransitive(s, c, Advance(c, s.ops[op].task, choice));
    } else {
      SameHistoryLater(s, Complete(s, op, choice));
    }
  }

  lemma SpawnLater(s: Kernel, owner: Owner, meant: nat, request: Option<OpId>, choice: Choice)
    requires FlightsKnown(s)
    ensures Later(s, Spawn(s, owner, meant, request, choice))
  {
    hide Later, Advance;
    var c := Spawned(s, owner, meant, request);
    RecordedLater(s, Ran(s.nextTask, owner, meant, GenerationOf(s, owner)), c);
    LaterIsKnown(s, c);
    AdvanceLater(c, s.nextTask, choice);
    LaterTransitive(s, c, Advance(c, s.nextTask, choice));
  }

  lemma SettlingLater(s: Kernel, c: Kernel)
    requires FlightsKnown(s) && |c.ops| == |s.ops|
    requires c == s.(ops := c.ops, generations := c.generations, tasks := c.tasks, pending := c.pending)
    requires forall op :: 0 <= op < |s.ops| && s.ops[op].settled ==> c.ops[op].settled
    requires forall o :: GenerationIn(s.generations, o) <= GenerationIn(c.generations, o)
    ensures Later(s, c)
  {}

  lemma AbandonLater(s: Kernel, owner: Owner, generation: nat)
    requires FlightsKnown(s)
    ensures Later(s, Abandon(s, owner, generation))
  {
    hide Later, Orphaned, OrphanedWakes, Doomed, Without, FlightsKnown;
    var a := Abandon(s, owner, generation);
    if owner !in s.generations || s.generations[owner] != generation {
      SameHistoryLater(s, a);
    } else {
      SettlingLater(s, a);
    }
  }

  lemma WithdrawnLater(s: Kernel, owner: Owner, generation: nat)
    requires FlightsKnown(s) && owner in s.services
    ensures Later(s, DropCommits(CancelLocal(s, owner), owner, generation))
    ensures FlightsKnown(DropCommits(CancelLocal(s, owner), owner, generation))
  {
    hide Later, Without;
    SameHistoryLater(s, DropCommits(CancelLocal(s, owner), owner, generation));
  }

  lemma TransitionLater(s: Kernel, owner: Owner, after: ServiceState)
    requires FlightsKnown(s)
    ensures Later(s, Transition(s, owner, after))
  {
    hide Later, Abandon, CancelLocal, DropCommits;
    var c := Transition(s, owner, after);
    if owner in s.services && after != s.services[owner].state && Allowed(s.services[owner].state, after)
       && (after == CRASHED || after == STOPPED) && s.services[owner].state != CRASHED
    {
      var generation := s.services[owner].generation;
      var d := DropCommits(CancelLocal(s, owner), owner, generation);
      WithdrawnLater(s, owner, generation);
      AbandonLater(d, owner, generation);
      var a := Abandon(d, owner, generation);
      LaterTransitive(s, d, a);
      LaterIsKnown(s, a);
      SameHistoryLater(a, c);
      LaterTransitive(s, a, c);
    } else {
      SameHistoryLater(s, c);
    }
  }

  lemma ThenComplete(s: Kernel, c: Kernel, op: OpId, choice: Choice)
    requires Later(s, c)
    ensures Later(s, Complete(c, op, choice))
  {
    hide Later, Complete;
    LaterIsKnown(s, c);
    CompleteLater(c, op, choice);
    LaterTransitive(s, c, Complete(c, op, choice));
  }

  lemma DeadlineLater(s: Kernel, op: OpId, choice: Choice)
    requires FlightsKnown(s)
    ensures Later(s, OnDeadline(s, op, choice))
  {
    hide Later, Complete;
    if op in s.flights && !s.flights[op].settled {
      var g := s.flights[op].(settled := true, state := TIMED_OUT, outcome := Some(TimedOut(s.now)));
      FlightChangeLater(s, op, g, s.(flights := s.flights[op := g]));
      ThenComplete(s, s.(flights := s.flights[op := g]), op, choice);
    } else {
      SameHistoryLater(s, s);
    }
  }

  lemma ResponseLater(s: Kernel, op: OpId, choice: Choice)
    requires FlightsKnown(s)
    ensures Later(s, OnResponse(s, op, choice))
  {
    hide Later, Complete;
    if op in s.flights && !s.flights[op].settled {
      var f := s.flights[op];
      var g := f.(settled := true, outcome := Some(Success(s.now)));
      var c := s.(flights := s.flights[op := g], pending := Without(s.pending, {f.deadlineId}));
      FlightChangeLater(s, op, g, c);
      ThenComplete(s, c, op, choice);
    } else {
      SameHistoryLater(s, s);
    }
  }

  lemma DeliveryLater(s: Kernel, op: OpId, choice: Choice)
    requires FlightsKnown(s)
    ensures Later(s, OnDelivery(s, op, choice))
  {
    hide Later, Reply;
    if op in s.flights {
      var f := s.flights[op].(state := ADMITTED);
      var admitted := s.(flights := s.flights[op := f]);
      var c := OnDelivery(s, op, choice);
      if c == Reply(admitted, op, choice.errorLeg) {
        FlightChangeLater(s, op, f, admitted);
        LaterIsKnown(s, admitted);
        ReplyLater(admitted, op, choice.errorLeg);
        LaterTransitive(s, admitted, c);
      } else {
        FlightChangeLater(s, op, f, c);
      }
    } else {
      SameHistoryLater(s, s);
    }
  }

  lemma CommitLater(s: Kernel, op: OpId, choice: Choice)
    requires FlightsKnown(s)
    ensures Later(s, OnCommit(s, op, choice))
  {
    hide Later, Complete;
    if op in s.commits {
      var k := s.commits[op];
      var entry := Committed(op, k.owner, k.generation, GenerationOf(s, k.owner));
      var c := s.(commits := s.commits - {op}, trace := s.trace + [entry]);
      RecordedLater(s, entry, c);
      ThenComplete(s, c, op, choice);
    } else {
      SameHistoryLater(s, s);
    }
  }

  lemma BackgroundLater(s: Kernel, e: Event<Payload>, owner: Owner, born: nat, choice: Choice)
    requires FlightsKnown(s)
    ensures Later(s, OnBackground(s, e, owner, born, choice))
  {
    hide Later, Spawn;
    if owner in s.services {
      var taken := s.(services :=
                      s.services[owner := s.services[owner].(local := s.services[owner].local - {e.sequence})]);
      SameHistoryLater(s, taken);
      SpawnLater(taken, owner, born, None, choice);
      LaterTransitive(s, taken, Spawn(taken, owner, born, None, choice));
    } else {
      SameHistoryLater(s, s);
    }
  }

  lemma HandlerLater(s: Kernel, e: Event<Payload>, choice: Choice)
    requires FlightsKnown(s)
    ensures Later(s, RunHandler(s, e, choice))
  {
    hide Later, Complete, Spawn, Transition, OnDeadline, OnDelivery, OnResponse, OnCommit, OnBackground;
    SameHistoryLater(s, s);
    SameHistoryLater(s, Fail(s, INVALID_SERVICE_TRANSITION));
    match e.payload
    case Wake(op) => CompleteLater(s, op, choice);
    case Deadline(op) => DeadlineLater(s, op, choice);
    case Delivery(op) => DeliveryLater(s, op, choice);
    case Response(op) => ResponseLater(s, op, choice);
    case Admission(op) => CompleteLater(s, op, choice);
    case Commit(_, op) => CommitLater(s, op, choice);
    case Lifecycle(owner, after) => TransitionLater(s, owner, after);
    case Crash(owner) => TransitionLater(s, owner, CRASHED);
    case Endpoint(owner, generation, request) => SpawnLater(s, owner, generation, Some(request), choice);
    case Consumer(owner, generation) => SpawnLater(s, owner, generation, None, choice);
    case Background(owner, born) => BackgroundLater(s, e, owner, born, choice);
    case Start(owner, callback) => SpawnLater(s, owner, GenerationOf(s, owner), callback, choice);
    case Broker(_) =>
  }

  /** The broker touches the agenda and nothing else. */
  lemma {:induction false} TimersFrame(s: Kernel, timers: seq<Timer>)
    ensures var c := StartTimers(s, timers); c == s.(pending := c.pending, next := c.next, timers := c.timers)
    decreases |timers|
  {
    if timers != [] { TimersFrame(StartTimer(s, timers[0]), timers[1..]); }
  }

  lemma {:induction false} AcceptsFrame(s: Kernel, owners: seq<Owner>)
    ensures var c := AcceptAll(s, owners); c == s.(pending := c.pending, next := c.next)
    decreases |owners|
  {
    if owners != [] { AcceptsFrame(Accept(s, owners[0]), owners[1..]); }
  }

  lemma BrokeredFrame(s: Kernel, work: BrokerWork)
    ensures var c := Brokered(s, work); c == s.(pending := c.pending, next := c.next, timers := c.timers)
  {
    hide StartTimers, AcceptAll;
    var c := CancelTimers(s, work.cancelled);
    TimersFrame(c, work.timers);
    AcceptsFrame(StartTimers(c, work.timers), work.deliveries);
  }

  lemma BrokeredLater(s: Kernel, work: BrokerWork)
    requires FlightsKnown(s)
    ensures Later(s, Brokered(s, work))
  {
    hide Later, Brokered;
    BrokeredFrame(s, work);
    SameHistoryLater(s, Brokered(s, work));
  }

  lemma NotInThePast(s: Kernel, e: Event<Payload>)
    requires Good(s) && s.failure.None? && e in s.pending
    ensures s.now <= e.time
  {
    hide TasksOk, WakesOk, AwaitsOk, GenerationsOk, LocalOk, CommitsOk, FlightsOk, ReferencesOk, TraceOk;
    assert EventOk(s.next, s.now, e);
  }

  lemma GoodIsKnown(s: Kernel)
    requires Good(s)
    ensures FlightsKnown(s)
  {
    hide Good, EventsOk, WakesOk, GenerationsOk, LocalOk, CommitsOk, TraceOk, FlightOk, FlightEventsOk;
    GoodLasts(s);
  }

  lemma StartedLater(s: Kernel, e: Event<Payload>)
    requires FlightsKnown(s) && s.now <= e.time
    ensures Later(s, Started(s, e))
  {
    hide Later;
    RecordedLater(s, Dispatched(e.time, e.sequence, e.payload), Started(s, e));
  }

  lemma BoundaryLater(s: Kernel)
    requires FlightsKnown(s)
    ensures Later(s, Boundary(s))
  {
    hide Later;
    SameHistoryLater(s, Boundary(s));
  }

  lemma EventLater(s: Kernel, e: Event<Payload>, reaction: Reaction)
    requires FlightsKnown(s) && s.now <= e.time
    ensures Later(s, Boundary(HandleEvent(Started(s, e), e, reaction)))
  {
    hide Later, RunHandler, Brokered, FlightsKnown, Started, Boundary;
    var c := Started(s, e);
    StartedLater(s, e);
    LaterIsKnown(s, c);
    var h := RunHandler(c, e, reaction.choice);
    HandlerLater(c, e, reaction.choice);
    LaterTransitive(s, c, h);
    LaterIsKnown(s, h);
    var b := Brokered(h, reaction.broker);
    BrokeredLater(h, reaction.broker);
    LaterTransitive(s, h, b);
    LaterIsKnown(s, b);
    BoundaryLater(b);
    LaterTransitive(s, b, Boundary(b));
  }

  lemma DispatchLater(s: Kernel, env: Env)
    requires Good(s)
    ensures Later(s, Dispatch(s, env))
  {
    hide Later, HandleEvent, InvWith, FlightsKnown, Started, Boundary;
    GoodIsKnown(s);
    if s.failure.Some? {
      SameHistoryLater(s, s);
    } else if s.pending == {} {
      BoundaryLater(s);
    } else {
      NotInThePast(s, Least(s.pending));
      EventLater(s, Least(s.pending), env(s.processed));
    }
  }

  /**
   * Over any stretch of a run: settled flights keep their outcome, settled operations stay settled, and nothing that
   * runs, resumes or commits was meant for a process generation older than the one its owner had at the start of the
   * stretch.
   */
  lemma {:induction false} NothingOldRunsAgain(s: Kernel, env: Env, n: nat)
    requires Good(s)
    ensures Later(s, Iterate(s, env, n))
    ensures var c := Iterate(s, env, n);
      forall i :: |s.trace| <= i < |c.trace| && !c.trace[i].Dispatched? ==>
          c.trace[i].generation >= GenerationOf(s, c.trace[i].owner)
    decreases n
  {
    hide Good, Later, Dispatch;
    if n == 0 || s.completed || s.failure.Some? {
      GoodIsKnown(s);
      SameHistoryLater(s, s);
    } else {
      DispatchLater(s, env);
      DispatchKeeps(s, env);
      NothingOldRunsAgain(Dispatch(s, env), env, n - 1);
      LaterTransitive(s, Dispatch(s, env), Iterate(s, env, n));
    }
    IterateKeeps(s, env, n);
    CurrentIsGeneration(s, Iterate(s, env, n));
  }

  lemma CurrentIsGeneration(s: Kernel, c: Kernel)
    requires Later(s, c) && Good(c)
    ensures forall i :: |s.trace| <= i < |c.trace| && !c.trace[i].Dispatched? ==>
        c.trace[i].generation >= GenerationOf(s, c.trace[i].owner)
  {
    hide Good, EventsOk, WakesOk, GenerationsOk, LocalOk, CommitsOk, FlightsOk, FlightKept;
    GoodLasts(c);
  }

  // ---------- What a crash leaves ----------

  /** The event ends the process of its owner, which is running some generation of it. */
  predicate Ends(s: Kernel, e: Event<Payload>, owner: Owner) {
    && owner in s.services
    && var before := s.services[owner].state;
       match e.payload
       case Crash(o) => o == owner && before != CRASHED && Allowed(before, CRASHED)
       case Lifecycle(o, after) => o == owner && (after == CRASHED || after == STOPPED) && before != CRASHED
           && Allowed(before, after)
       case _ => false
  }

  /**
   * A crash or stop leaves nothing of the process behind: no task, no uncommitted work and no local event of its owner,
   * whoever scheduled it; the generation grows by one on both sides, and no other owner is touched.
   */
  lemma CrashLeavesNothing(s: Kernel, owner: Owner, after: ServiceState)
    requires Inv(s) && s.failure.None? && owner in s.services
    requires (after == CRASHED || after == STOPPED) && s.services[owner].state != CRASHED
    requires Allowed(s.services[owner].state, after)
    ensures var c := Transition(s, owner, after);
      && c.failure.None? && owner in c.services
      && c.services[owner] == Service(after, s.services[owner].generation + 1, {})
      && GenerationOf(c, owner) == GenerationOf(s, owner) + 1
      && (forall t :: t in c.tasks ==> c.tasks[t].owner != owner)
      && (forall op :: op in c.commits ==> c.commits[op].owner != owner)
      && NoLocal(c.pending, owner)
      && (forall t :: t in s.tasks && s.tasks[t].owner != owner ==> t in c.tasks && c.tasks[t] == s.tasks[t])
      && (forall o :: o != owner ==> GenerationOf(c, o) == GenerationOf(s, o))
  {
    hide EventsOk, WakesOk, AwaitsOk, LocalOk, FlightsOk, ReferencesOk, TraceOk, Orphaned, OrphanedWakes;
    CancelLocalKeeps(s, owner);
    forall t | t in s.tasks ensures Doomed(s.tasks[t], owner, s.generations[owner]) <==> s.tasks[t].owner == owner {
      assert TaskOk(t, s.tasks[t], s.ops, s.generations, s.nextTask);
    }
  }

  lemma TransitionTrace(s: Kernel, owner: Owner, after: ServiceState)
    ensures Transition(s, owner, after).trace == s.trace
  {
    hide Abandon, Allowed, Without;
    if owner in s.services {
      var generation := s.services[owner].generation;
      AbandonTrace(DropCommits(CancelLocal(s, owner), owner, generation), owner, generation);
    }
  }

  lemma AbandonTrace(s: Kernel, owner: Owner, generation: nat)
    ensures Abandon(s, owner, generation).trace == s.trace
  {
    hide Orphaned, OrphanedWakes, Doomed, Without;
  }

  lemma TakenInv(s: Kernel, e: Event<Payload>)
    requires Inv(s) && IsLeast(e, s.pending) && HoleOp(Some(e.payload)).None? && FlightHole(e.payload).None?
    ensures Inv(Started(s, e))
  {
    hide InvWith;
    TakeKeeps(s, e);
  }

  lemma EndingHandler(s: Kernel, e: Event<Payload>, owner: Owner, choice: Choice)
    requires Inv(s) && s.failure.None? && IsLeast(e, s.pending) && Ends(s, e, owner)
    ensures var c := RunHandler(Started(s, e), e, choice);
            && c.trace == s.trace + [Dispatched(e.time, e.sequence, e.payload)]
            && GenerationOf(c, owner) == GenerationOf(s, owner) + 1
  {
    hide Inv, Transition, Allowed;
    var after := if e.payload.Crash? then CRASHED else e.payload.target;
    TakenInv(s, e);
    CrashLeavesNothing(Started(s, e), owner, after);
    TransitionTrace(Started(s, e), owner, after);
  }

  lemma EventFrame(s: Kernel, e: Event<Payload>, reaction: Reaction)
    ensures var c := RunHandler(s, e, reaction.choice);
            var d := Boundary(HandleEvent(s, e, reaction));
            d.trace == c.trace && d.generations == c.generations && d.services == c.services
  {
    hide RunHandler, Brokered;
    BrokeredFrame(RunHandler(s, e, reaction.choice), reaction.broker);
  }

  /** The dispatch of the event that ends a process: history gets that event, and the generation of the owner grows. */
  lemma EndingDispatch(s: Kernel, owner: Owner, env: Env)
    requires Inv(s) && s.failure.None? && s.pending != {} && Ends(s, Least(s.pending), owner)
    ensures var e := Least(s.pending);
            var c := Dispatch(s, env);
            c.trace == s.trace + [Dispatched(e.time, e.sequence, e.payload)]
                && GenerationOf(c, owner) == GenerationOf(s, owner) + 1
  {
    hide Inv, InvWith, Ends, RunHandler, Started, HandleEvent, Boundary;
    var e := Least(s.pending);
    TakeKeeps(s, e);
    EndingHandler(s, e, owner, env(s.processed).choice);
    EventFrame(Started(s, e), e, env(s.processed));
  }

  /**
   * After the event that ends a process, nothing that was meant for it ever runs, resumes or commits: in every
   * continuation each such entry of its owner is for a later process generation, by the event that caused it as well as
   * by the task.
   */
  lemma CrashIsFinal(s: Kernel, owner: Owner, env: Env, n: nat)
    requires Inv(s) && s.failure.None? && s.pending != {} && Ends(s, Least(s.pending), owner)
    ensures var c := Iterate(Dispatch(s, env), env, n);
      forall i :: |s.trace| <= i < |c.trace| && !c.trace[i].Dispatched? && c.trace[i].owner == owner
        ==> c.trace[i].generation > GenerationOf(s, owner)
  {
    hide Inv, Iterate, Dispatch, Ends;
    var d := Dispatch(s, env);
    EndingDispatch(s, owner, env);
    GoodHere(s);
    DispatchKeeps(s, env);
    NothingOldRunsAgain(d, env, n);
    var c := Iterate(d, env, n);
    assert c.trace[|s.trace|].Dispatched? by { assert d.trace <= c.trace; }
  }

  /**
   * Endpoint and consumer work enqueued for a process generation that was already over at the start of a stretch of the
   * run changes nothing when its event is dispatched, however much later.
   */
  lemma StaleWorkIsDropped(s: Kernel, env: Env, n: nat, e: Event<Payload>, choice: Choice)
    requires Good(s) && Iterate(s, env, n).failure.None?
    requires match e.payload
             case Endpoint(owner, generation, _) => generation < GenerationOf(s, owner)
             case Consumer(owner, generation) => generation < GenerationOf(s, owner)
             case _ => false
    ensures var c := Started(Iterate(s, env, n), e); RunHandler(c, e, choice) == c
  {
    hide Good, Inv, Iterate, FlightKept, Spawn;
    NothingOldRunsAgain(s, env, n);
    IterateKeeps(s, env, n);
    var c := Iterate(s, env, n);
    GoodIsInv(c);
    if e.payload.owner in c.services { CurrentGeneration(c, e.payload.owner); }
  }

  lemma GoodIsInv(s: Kernel)
    requires Good(s) && s.failure.None?
    ensures Inv(s)
  {
    hide Inv;
  }

  lemma GoodHere(s: Kernel)
    requires Inv(s) && s.failure.None?
    ensures Good(s)
  {
    hide Inv;
  }

  // ---------- What a call schedules ----------

  ghost predicate CompletesAt(e: Event<Payload>, op: OpId, time: nat) {
    HoleOp(Some(e.payload)) == Some(op) && e.time == time
  }

  /** Nothing pending mentions an operation that does not exist yet. */
  lemma NothingForNewOperation(s: Kernel, t: TaskId, e: Event<Payload>)
    requires Active(s, t) && e in s.pending
    ensures HoleOp(Some(e.payload)) != Some(|s.ops|) && e.payload != Delivery(|s.ops|)
  {
    hide EventsOk, TasksOk, WakesOk, AwaitsOk, GenerationsOk, LocalOk, CommitsOk, TraceOk, RunnableOk, FlightOk;
    hide FlightEventsOk;
    assert Referable(e.payload, s.flights, |s.ops|);
  }

  /** The event that will complete a new operation. */
  function Completing(s: Kernel, t: TaskId, call: Call): Event<Payload>
    requires t in s.tasks
  {
    var op := |s.ops|;
    match call
    case Sleep(delay) => Event(s.now + delay, s.next, KindOf(Wake(op)), Wake(op))
    case Request(_, timeout, _) => Event(s.now + timeout, s.next, KindOf(Deadline(op)), Deadline(op))
    case Publish => Event(s.now, s.next, KindOf(Admission(op)), Admission(op))
    case CommitTransaction => Event(s.now, s.next, KindOf(Commit(s.tasks[t].owner, op)), Commit(s.tasks[t].owner, op))
  }

  lemma BeginSchedules(s: Kernel, t: TaskId, call: Call, e: Event<Payload>)
    requires t in s.tasks
    ensures var c := Begin(s, t, call);
      && Completing(s, t, call) in c.pending
      && (e in c.pending ==>
          e in s.pending || e == Completing(s, t, call)
          || (e.payload == Delivery(|s.ops|) && e.sequence > s.next))
  {
    hide KindOf;
  }

  /** A task that yields a call gets exactly one pending event that will complete it, at the time the call asked for. */
  lemma CallHasOneEvent(s: Kernel, t: TaskId, call: Call)
    requires Active(s, t)
    ensures var c := Begin(s, t, call);
            var due := match call
                       case Sleep(delay) => s.now + delay
                       case Request(_, timeout, _) => s.now + timeout
                       case _ => s.now;
      && t in c.tasks && c.tasks[t].waiting == Some(|s.ops|)
      && exists e :: e in c.pending && CompletesAt(e, |s.ops|, due)
           && (forall f :: f in c.pending && HoleOp(Some(f.payload)) == Some(|s.ops|) ==> f == e)
           && (forall f :: f in c.pending && f.payload == Delivery(|s.ops|) ==> e.sequence < f.sequence)
  {
    hide InvWith, RunnableOk, KindOf;
    var e := Completing(s, t, call);
    BeginSchedules(s, t, call, e);
    var c := Begin(s, t, call);
    hide Begin;
    forall f | f in c.pending
      ensures HoleOp(Some(f.payload)) == Some(|s.ops|) ==> f == e
      ensures f.payload == Delivery(|s.ops|) ==> e.sequence < f.sequence
    {
      BeginSchedules(s, t, call, f);
      if f in s.pending { NothingForNewOperation(s, t, f); }
    }
    assert CompletesAt(e, |s.ops|, e.time);
  }
}
