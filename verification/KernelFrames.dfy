/**
 * What one event handler may do to the agenda and to the pending commits: the part of the kernel that the message
 * broker and the databases share with it.
 */
module KernelFrames {
  import opened Outcomes
  import opened Scheduler
  import opened KernelModel
  import opened KernelInvariants
  import opened KernelSteps
  import opened KernelDispatch

  // ---------- The agenda ----------

  /** Events that no handler takes off the agenda. */
  predicate Firm(p: Payload) {
    p.Broker? || p.Commit?
  }

  /**
   * From `s` to `c` the clock stands still, firm events stay, and every new event has a new sequence and is not the
   * broker's.
   */
  ghost predicate Extends(s: Kernel, c: Kernel) {
    && c.now == s.now && c.timers == s.timers && c.completed == s.completed && s.next <= c.next
    && (forall x :: x in c.pending && x !in s.pending ==> s.next <= x.sequence < c.next && !x.payload.Broker?)
    && (forall x :: x in s.pending && Firm(x.payload) ==> x in c.pending)
  }

  lemma ExtendsTransitive(a: Kernel, b: Kernel, c: Kernel)
    requires Extends(a, b) && Extends(b, c)
    ensures Extends(a, c)
  {}

  lemma SameAgenda(s: Kernel, c: Kernel)
    requires c.now == s.now && c.timers == s.timers && c.completed == s.completed && c.next == s.next
    requires c.pending == s.pending
    ensures Extends(s, c)
  {}

  lemma ScheduleExtends(s: Kernel, time: nat, p: Payload)
    requires !p.Broker?
    ensures Extends(s, Schedule(s, time, p))
  {}

  lemma {:induction false} LocalExtends(s: Kernel, owner: Owner, delays: seq<nat>)
    ensures Extends(s, ScheduleLocal(s, owner, delays))
    decreases |delays|
  {
    hide KindOf;
    if delays != [] && owner in s.services {
      LocalExtends(TrackLocal(s, owner, delays[0]), owner, delays[1..]);
    }
  }

  lemma ResponseSent(s: Kernel, op: OpId, leg: Leg)
    requires op in s.flights
    ensures var c := SendResponse(s, op, leg);
      && Extends(s, c) && c.ops == s.ops && c.commits == s.commits && c.services == s.services
      && forall x :: x in c.pending && x !in s.pending ==> x.payload.Response?
  {
    hide KindOf;
  }

  /** A reply adds at most one response to the agenda. */
  lemma ReplyExtends(s: Kernel, op: OpId, leg: Leg)
    ensures var c := Reply(s, op, leg);
      && Extends(s, c) && c.ops == s.ops && c.commits == s.commits && c.services == s.services
      && forall x :: x in c.pending && x !in s.pending ==> x.payload.Response?
  {
    hide SendResponse, Extends;
    SameAgenda(s, s);
    SameAgenda(s, Fail(s, INVALID_NETWORK_REPLY));
    if op in s.flights && s.flights[op].state != SENT && !s.flights[op].replied {
      var f := s.flights[op];
      var c := s.(flights := s.flights[op := f.(replied := true, state := if f.settled then f.state else REPLIED)]);
      SameAgenda(s, c);
      ResponseSent(c, op, leg);
      ExtendsTransitive(s, c, Reply(s, op, leg));
    }
  }

  lemma BeginExtends(s: Kernel, t: TaskId, call: Call)
    requires t in s.tasks
    ensures Extends(s, Begin(s, t, call))
  {
    hide Extends, KindOf;
    var c := Begin(s, t, call);
    var op := |s.ops|;
    match call
    case Sleep(delay) => ScheduledExtends(s, c, s.now + delay, Wake(op));
    case Publish => ScheduledExtends(s, c, s.now, Admission(op));
    case CommitTransaction => ScheduledExtends(s, c, s.now, Commit(s.tasks[t].owner, op));
    case Request(target, timeout, leg) =>
      LaunchExtends(s, t, target, timeout, leg);
      var d := LaunchedState(s, t, target, timeout, leg);
      if leg.After? {
        ScheduleExtends(d, s.now + leg.delay, Delivery(op));
        ExtendsTransitive(s, d, c);
      }
  }

  /** One event scheduled, and nothing else of the agenda changed. */
  lemma ScheduledExtends(s: Kernel, c: Kernel, time: nat, p: Payload)
    requires !p.Broker? && c.pending == Schedule(s, time, p).pending && c.next == s.next + 1
    requires c.now == s.now && c.timers == s.timers && c.completed == s.completed
    ensures Extends(s, c)
  {}

  /** A request once its deadline is scheduled and its flight is recorded. */
  function LaunchedState(s: Kernel, t: TaskId, target: Owner, timeout: nat, leg: Leg): Kernel
    requires t in s.tasks
  {
    var op := |s.ops|;
    var created := s.(ops := s.ops + [Operation(t, Request(target, timeout, leg), false, None)],
                      tasks := s.tasks[t := s.tasks[t].(waiting := Some(op))]);
    Schedule(created, s.now + timeout, Deadline(op))
      .(flights := s.flights[op := Flight(target, s.now + timeout, s.next, SENT, false, false, None, None)])
  }

  lemma LaunchExtends(s: Kernel, t: TaskId, target: Owner, timeout: nat, leg: Leg)
    requires t in s.tasks
    ensures var d := LaunchedState(s, t, target, timeout, leg);
      && Extends(s, d) && d.now == s.now
      && Begin(s, t, Request(target, timeout, leg)) == if leg.After?
          then Schedule(d, d.now + leg.delay, Delivery(|s.ops|)) else d
  {
    hide KindOf, Extends;
    ScheduledExtends(s, LaunchedState(s, t, target, timeout, leg), s.now + timeout, Deadline(|s.ops|));
  }

  lemma AdvanceExtends(s: Kernel, t: TaskId, choice: Choice)
    requires t in s.tasks
    ensures Extends(s, Advance(s, t, choice))
  {
    hide Extends, ScheduleLocal, Begin, Reply;
    var owner := s.tasks[t].owner;
    var worked := ScheduleLocal(s, owner, choice.background);
    LocalExtends(s, owner, choice.background);
    match choice.action
    case Throw => SameAgenda(worked, Advance(s, t, choice)); ExtendsTransitive(s, worked, Advance(s, t, choice));
    case Finish(leg) =>
      var task := worked.tasks[t];
      var replied := if task.request.Some? then Reply(worked, task.request.value, leg) else worked;
      if task.request.Some? { ReplyExtends(worked, task.request.value, leg); } else { SameAgenda(worked, worked); }
      ExtendsTransitive(s, worked, replied);
      SameAgenda(replied, Advance(s, t, choice));
      ExtendsTransitive(s, replied, Advance(s, t, choice));
    case Await(call) => BeginExtends(worked, t, call); ExtendsTransitive(s, worked, Advance(s, t, choice));
  }

  lemma CompleteExtends(s: Kernel, op: OpId, choice: Choice)
    ensures Extends(s, Complete(s, op, choice))
  {
    hide Extends, Advance;
    SameAgenda(s, s);
    SameAgenda(s, Fail(s, INVALID_OPERATION));
    if op < |s.ops| && !s.ops[op].settled && s.ops[op].task in s.tasks && s.tasks[s.ops[op].task].waiting == Some(op) {
      var c := ResumedState(s, op);
      SameAgenda(s, c);
      AdvanceExtends(c, s.ops[op].task, choice);
      ExtendsTransitive(s, c, Complete(s, op, choice));
    }
  }

  lemma SpawnExtends(s: Kernel, owner: Owner, meant: nat, request: Option<OpId>, choice: Choice)
    ensures Extends(s, Spawn(s, owner, meant, request, choice))
  {
    hide Extends, Advance;
    var c := Spawned(s, owner, meant, request);
    SameAgenda(s, c);
    AdvanceExtends(c, s.nextTask, choice);
    ExtendsTransitive(s, c, Spawn(s, owner, meant, request, choice));
  }

  lemma CancelledExtends(s: Kernel, c: Kernel, ids: set<EventId>)
    requires c.now == s.now && c.timers == s.timers && c.completed == s.completed && c.next == s.next
    requires c.pending == Without(s.pending, ids)
    requires forall x :: x in s.pending && x.sequence in ids ==> !Firm(x.payload)
    ensures Extends(s, c)
  {}

  /** The transition ends a process generation of the owner. */
  predicate EndsBy(s: Kernel, owner: Owner, after: ServiceState) {
    && owner in s.services && after != s.services[owner].state && Allowed(s.services[owner].state, after)
    && (after == CRASHED || after == STOPPED) && s.services[owner].state != CRASHED
  }

  lemma FewerWakes(ops: seq<Operation>, pending: Events, next: EventId, fewer: Events)
    requires WakesOk(ops, pending, next) && fewer <= pending
    ensures WakesOk(ops, fewer, next)
  {
    forall op | 0 <= op < |ops| && ops[op].wake.Some? ensures Issued(fewer, next, ops[op].wake.value, Wake(op)) {
      assert Issued(pending, next, ops[op].wake.value, Wake(op));
    }
  }

  lemma WakesAreNotFirm(p: Payload)
    requires p.Wake?
    ensures !Firm(p)
  {}

  lemma AbandonExtends(d: Kernel, owner: Owner, generation: nat)
    requires WakesOk(d.ops, d.pending, d.next)
    ensures Extends(d, Abandon(d, owner, generation))
  {
    hide Extends, Orphaned, OrphanedWakes, WakesOk, Without, Doomed, Firm;
    var a := Abandon(d, owner, generation);
    if owner in d.generations && d.generations[owner] == generation {
      forall x | x in d.pending && x.sequence in OrphanedWakes(d, owner, generation) ensures !Firm(x.payload) {
        OrphanedWakesAreWakes(d, owner, generation, x);
        WakesAreNotFirm(x.payload);
      }
      CancelledExtends(d, a, OrphanedWakes(d, owner, generation));
    } else {
      SameAgenda(d, a);
    }
  }

  lemma WithdrawExtends(s: Kernel, owner: Owner, generation: nat)
    requires LocalOk(s.services, s.timers, s.pending, s.next) && owner in s.services
    ensures var d := DropCommits(CancelLocal(s, owner), owner, generation);
      Extends(s, d) && d.pending <= s.pending && d.ops == s.ops && d.next == s.next
  {
    LocalAreBackground(s, owner);
    hide Extends, LocalOk;
    CancelledExtends(s, DropCommits(CancelLocal(s, owner), owner, generation), s.services[owner].local);
  }

  lemma EndExtends(s: Kernel, owner: Owner, after: ServiceState)
    requires LocalOk(s.services, s.timers, s.pending, s.next) && WakesOk(s.ops, s.pending, s.next)
    requires owner in s.services
    ensures Extends(s, EndProcess(s, owner, after))
  {
    hide Extends, Abandon, CancelLocal, DropCommits, LocalOk, WakesOk;
    var generation := s.services[owner].generation;
    var d := DropCommits(CancelLocal(s, owner), owner, generation);
    WithdrawExtends(s, owner, generation);
    FewerWakes(s.ops, s.pending, s.next, d.pending);
    AbandonExtends(d, owner, generation);
    var a := Abandon(d, owner, generation);
    ExtendsTransitive(s, d, a);
    SameAgenda(a, EndProcess(s, owner, after));
    ExtendsTransitive(s, a, EndProcess(s, owner, after));
  }

  lemma TransitionExtends(s: Kernel, owner: Owner, after: ServiceState)
    requires LocalOk(s.services, s.timers, s.pending, s.next) && WakesOk(s.ops, s.pending, s.next)
    ensures Extends(s, Transition(s, owner, after))
  {
    hide Extends, Allowed, EndProcess, LocalOk, WakesOk;
    if EndsBy(s, owner, after) {
      EndExtends(s, owner, after);
    } else {
      SameAgenda(s, Transition(s, owner, after));
    }
  }

  lemma DeliveryExtends(s: Kernel, op: OpId, choice: Choice)
    ensures Extends(s, OnDelivery(s, op, choice))
  {
    hide Extends, Reply, Schedule;
    SameAgenda(s, s);
    if op in s.flights {
      var f := s.flights[op];
      var admitted := s.(flights := s.flights[op := f.(state := ADMITTED)]);
      SameAgenda(s, admitted);
      ReplyExtends(admitted, op, choice.errorLeg);
      if f.target in s.services {
        ScheduleExtends(admitted, s.now, Endpoint(f.target, s.services[f.target].generation, op));
      }
      ScheduleExtends(admitted, s.now, Start(f.target, Some(op)));
      ExtendsTransitive(s, admitted, OnDelivery(s, op, choice));
    }
  }

  lemma ResponseExtends(s: Kernel, op: OpId, choice: Choice, hole: Option<Payload>)
    requires FlightsOk(s.flights, s.ops, s.pending, s.next, s.now, hole)
    ensures Extends(s, OnResponse(s, op, choice))
  {
    hide Extends, Complete, Without, FlightsOk;
    SameAgenda(s, s);
    if op in s.flights && !s.flights[op].settled {
      var f := s.flights[op];
      var c := s.(flights := s.flights[op := f.(settled := true, outcome := Some(Success(s.now)))],
                  pending := Without(s.pending, {f.deadlineId}));
      FlightHere(s, op, hole);
      CancelledExtends(s, c, {f.deadlineId});
      CompleteExtends(c, op, choice);
      ExtendsTransitive(s, c, OnResponse(s, op, choice));
    }
  }

  lemma CommitExtends(s: Kernel, op: OpId, choice: Choice)
    ensures Extends(s, OnCommit(s, op, choice))
  {
    hide Extends, Complete;
    SameAgenda(s, s);
    if op in s.commits {
      var k := s.commits[op];
      var c := s.(commits := s.commits - {op}, trace :=
                  s.trace + [Committed(op, k.owner, k.generation, GenerationOf(s, k.owner))]);
      SameAgenda(s, c);
      CompleteExtends(c, op, choice);
      ExtendsTransitive(s, c, OnCommit(s, op, choice));
    }
  }

  lemma DeadlineExtends(s: Kernel, op: OpId, choice: Choice)
    ensures Extends(s, OnDeadline(s, op, choice))
  {
    hide Extends, Complete;
    SameAgenda(s, s);
    if op in s.flights && !s.flights[op].settled {
      var g := s.flights[op].(settled := true, state := TIMED_OUT, outcome := Some(TimedOut(s.now)));
      var c := s.(flights := s.flights[op := g]);
      SameAgenda(s, c);
      CompleteExtends(c, op, choice);
      ExtendsTransitive(s, c, OnDeadline(s, op, choice));
    }
  }

  lemma BackgroundExtends(s: Kernel, e: Event<Payload>, owner: Owner, born: nat, choice: Choice)
    ensures Extends(s, OnBackground(s, e, owner, born, choice))
  {
    hide Extends, Spawn;
    SameAgenda(s, s);
    if owner in s.services {
      var taken := s.(services :=
                      s.services[owner := s.services[owner].(local := s.services[owner].local - {e.sequence})]);
      SameAgenda(s, taken);
      SpawnExtends(taken, owner, born, None, choice);
      ExtendsTransitive(s, taken, Spawn(taken, owner, born, None, choice));
    }
  }

  /** No handler touches the broker's events, or takes a commit event off the agenda. */
  lemma HandlerExtends(s: Kernel, e: Event<Payload>, choice: Choice, hole: Option<Payload>)
    requires LocalOk(s.services, s.timers, s.pending, s.next) && WakesOk(s.ops, s.pending, s.next)
    requires FlightsOk(s.flights, s.ops, s.pending, s.next, s.now, hole)
    ensures Extends(s, RunHandler(s, e, choice))
  {
    hide Extends, Complete, Spawn, Transition, OnDeadline, OnDelivery, OnResponse, OnCommit, OnBackground, LocalOk;
    hide WakesOk, FlightsOk;
    SameAgenda(s, s);
    SameAgenda(s, Fail(s, INVALID_SERVICE_TRANSITION));
    match e.payload
    case Wake(op) => CompleteExtends(s, op, choice);
    case Deadline(op) => DeadlineExtends(s, op, choice);
    case Delivery(op) => DeliveryExtends(s, op, choice);
    case Response(op) => ResponseExtends(s, op, choice, hole);
    case Admission(op) => CompleteExtends(s, op, choice);
    case Commit(_, op) => CommitExtends(s, op, choice);
    case Lifecycle(owner, after) => TransitionExtends(s, owner, after);
    case Crash(owner) => TransitionExtends(s, owner, CRASHED);
    case Endpoint(owner, generation, request) => SpawnExtends(s, owner, generation, Some(request), choice);
    case Consumer(owner, generation) => SpawnExtends(s, owner, generation, None, choice);
    case Background(owner, born) => BackgroundExtends(s, e, owner, born, choice);
    case Start(owner, callback) => SpawnExtends(s, owner, GenerationOf(s, owner), callback, choice);
    case Broker(_) =>
  }

  lemma StartedExtends(c: Kernel, e: Event<Payload>, choice: Choice, hole: Option<Payload>, waits: Option<OpId>)
    requires InvWith(c, c.tasks, hole, waits)
    ensures Extends(c, RunHandler(c, e, choice))
  {
    hide RunHandler, Extends;
    hide EventsOk, TasksOk, WakesOk, AwaitsOk, GenerationsOk, LocalOk, CommitsOk, FlightsOk, ReferencesOk, TraceOk;
    HandlerExtends(c, e, choice, hole);
  }

  // ---------- Services ----------

  predicate SameStates(before: map<Owner, Service>, after: map<Owner, Service>) {
    before.Keys == after.Keys && forall o :: o in before ==>
        after[o].state == before[o].state && after[o].generation == before[o].generation
  }

  // ---------- Operations and commits ----------

  /** The new operation, if the task that ran yielded one, is a commit. */
  predicate Submits(s: Kernel, c: Kernel) {
    |c.ops| == |s.ops| + 1 && c.ops[|s.ops|].call.CommitTransaction?
  }

  /**
   * From `s` to `c` at most one operation was created; if it is a commit it is pending with its event for the task that
   * waits for it. Nothing else about commits, services and commit events changed.
   */
  ghost predicate Works(s: Kernel, c: Kernel) {
    && |s.ops| <= |c.ops| <= |s.ops| + 1
    && SameStates(s.services, c.services)
    && (if Submits(s, c) then
          && c.ops[|s.ops|].task in c.tasks
          && var task := c.tasks[c.ops[|s.ops|].task];
             && c.commits == s.commits[|s.ops| := PendingCommit(task.owner, task.generation)]
             && Awaited(c.pending, Commit(task.owner, |s.ops|))
             && (forall x :: x in c.pending && x !in s.pending && x.payload.Commit? ==>
                 x.payload == Commit(task.owner, |s.ops|))
        else
          && c.commits == s.commits
          && (forall x :: x in c.pending && x !in s.pending ==> !x.payload.Commit?))
  }

  lemma SameWork(s: Kernel, c: Kernel)
    requires |c.ops| == |s.ops| && c.commits == s.commits && SameStates(s.services, c.services)
    requires forall x :: x in c.pending && x !in s.pending ==> !x.payload.Commit?
    ensures Works(s, c)
  {}

  lemma IdleThenWorks(a: Kernel, b: Kernel, c: Kernel)
    requires |b.ops| == |a.ops| && b.commits == a.commits && SameStates(a.services, b.services)
    requires forall x :: x in b.pending && x !in a.pending ==> !x.payload.Commit?
    requires Works(b, c)
    ensures Works(a, c)
  {}

  lemma {:induction false} LocalIsIdle(s: Kernel, owner: Owner, delays: seq<nat>)
    ensures var c := ScheduleLocal(s, owner, delays);
      SameStates(s.services, c.services) && forall x :: x in c.pending && x !in s.pending ==> x.payload.Background?
    decreases |delays|
  {
    hide KindOf;
    if delays != [] && owner in s.services { LocalIsIdle(TrackLocal(s, owner, delays[0]), owner, delays[1..]); }
  }

  lemma BeginWorks(s: Kernel, t: TaskId, call: Call)
    requires t in s.tasks
    ensures Works(s, Begin(s, t, call))
  {
    hide KindOf;
    var c := Begin(s, t, call);
    if call.CommitTransaction? {
      var p := Commit(s.tasks[t].owner, |s.ops|);
      assert Event(s.now, s.next, KindOf(p), p) in c.pending;
    }
  }

  lemma FinishedWorks(s: Kernel, t: TaskId, leg: Leg)
    requires t in s.tasks
    ensures Works(s, Finished(s, t, leg))
  {
    hide Reply, Works;
    if s.tasks[t].request.Some? { ReplyExtends(s, s.tasks[t].request.value, leg); }
    SameWork(s, Finished(s, t, leg));
  }

  lemma AdvanceWorks(s: Kernel, t: TaskId, choice: Choice)
    requires t in s.tasks
    ensures Works(s, Advance(s, t, choice))
  {
    hide ScheduleLocal, Begin, Finished, Works;
    var owner := s.tasks[t].owner;
    var worked := ScheduleLocal(s, owner, choice.background);
    LocalIsIdle(s, owner, choice.background);
    match choice.action
    case Throw => SameWork(s, Advance(s, t, choice));
    case Finish(leg) => FinishedWorks(worked, t, leg); IdleThenWorks(s, worked, Finished(worked, t, leg));
    case Await(call) => BeginWorks(worked, t, call); IdleThenWorks(s, worked, Begin(worked, t, call));
  }

  lemma CompleteWorks(s: Kernel, op: OpId, choice: Choice)
    ensures Works(s, Complete(s, op, choice))
  {
    hide Advance, Works;
    if op < |s.ops| && !s.ops[op].settled && s.ops[op].task in s.tasks && s.tasks[s.ops[op].task].waiting == Some(op) {
      var c := ResumedState(s, op);
      AdvanceWorks(c, s.ops[op].task, choice);
      IdleThenWorks(s, c, Complete(s, op, choice));
    } else {
      SameWork(s, Complete(s, op, choice));
    }
  }

  lemma SpawnWorks(s: Kernel, owner: Owner, meant: nat, request: Option<OpId>, choice: Choice)
    ensures Works(s, Spawn(s, owner, meant, request, choice))
  {
    hide Advance, Works;
    var c := Spawned(s, owner, meant, request);
    AdvanceWorks(c, s.nextTask, choice);
    IdleThenWorks(s, c, Spawn(s, owner, meant, request, choice));
  }

  lemma DeliveryWorks(s: Kernel, op: OpId, choice: Choice)
    ensures Works(s, OnDelivery(s, op, choice))
  {
    hide Works, Reply, KindOf, Extends;
    if op in s.flights {
      ReplyExtends(s.(flights := s.flights[op := s.flights[op].(state := ADMITTED)]), op, choice.errorLeg);
    }
    SameWork(s, OnDelivery(s, op, choice));
  }

  lemma ThenCompletes(s: Kernel, c: Kernel, op: OpId, choice: Choice)
    requires c.ops == s.ops && c.commits == s.commits && c.services == s.services && c.pending <= s.pending
    ensures Works(s, Complete(c, op, choice))
  {
    hide Complete, Works;
    CompleteWorks(c, op, choice);
    IdleThenWorks(s, c, Complete(c, op, choice));
  }

  lemma ResponseWorks(s: Kernel, op: OpId, choice: Choice)
    ensures Works(s, OnResponse(s, op, choice))
  {
    hide Complete, Works;
    if op in s.flights && !s.flights[op].settled {
      var f := s.flights[op];
      ThenCompletes(s, s.(flights := s.flights[op := f.(settled := true, outcome := Some(Success(s.now)))],
                          pending := Without(s.pending, {f.deadlineId})), op, choice);
    } else {
      SameWork(s, s);
    }
  }

  lemma DeadlineWorks(s: Kernel, op: OpId, choice: Choice)
    ensures Works(s, OnDeadline(s, op, choice))
  {
    hide Complete, Works;
    if op in s.flights && !s.flights[op].settled {
      var g := s.flights[op].(settled := true, state := TIMED_OUT, outcome := Some(TimedOut(s.now)));
      ThenCompletes(s, s.(flights := s.flights[op := g]), op, choice);
    } else {
      SameWork(s, s);
    }
  }

  lemma BackgroundWorks(s: Kernel, e: Event<Payload>, owner: Owner, born: nat, choice: Choice)
    ensures Works(s, OnBackground(s, e, owner, born, choice))
  {
    hide Spawn, Works;
    if owner in s.services {
      var taken := s.(services :=
                      s.services[owner := s.services[owner].(local := s.services[owner].local - {e.sequence})]);
      SpawnWorks(taken, owner, born, None, choice);
      IdleThenWorks(s, taken, Spawn(taken, owner, born, None, choice));
      SameWork(s, taken);
    } else {
      SameWork(s, s);
    }
  }

  /** The commit that a commit event finds is no longer pending when its handler goes on. */
  function Decided(s: Kernel, e: Event<Payload>): Kernel {
    if e.payload.Commit? then s.(commits := s.commits - {e.payload.op}) else s
  }

  lemma CommitWorks(s: Kernel, e: Event<Payload>, choice: Choice)
    requires e.payload.Commit?
    ensures Works(Decided(s, e), OnCommit(s, e.payload.op, choice))
  {
    hide Complete, Works;
    var op := e.payload.op;
    if op in s.commits {
      var k := s.commits[op];
      ThenCompletes(Decided(s, e),
        Decided(s, e).(trace := s.trace + [Committed(op, k.owner, k.generation, GenerationOf(s, k.owner))]), op,
            choice);
    } else {
      assert s.commits - {op} == s.commits;
      SameWork(Decided(s, e), s);
    }
  }

  predicate Transits(p: Payload) {
    p.Lifecycle? || p.Crash?
  }

  /** The state that the event asks for. */
  function TargetOf(p: Payload): ServiceState
    requires Transits(p)
  { if p.Crash? then CRASHED else p.target }

  /** Every handler but a transition lets a task run: what it may do to operations, commits and services. */
  lemma HandlerWorks(s: Kernel, e: Event<Payload>, choice: Choice)
    requires !Transits(e.payload)
    ensures Works(Decided(s, e), RunHandler(s, e, choice))
  {
    hide Works, Complete, Spawn, OnDeadline, OnDelivery, OnResponse, OnCommit, OnBackground;
    SameWork(s, s);
    match e.payload
    case Wake(op) => CompleteWorks(s, op, choice);
    case Deadline(op) => DeadlineWorks(s, op, choice);
    case Delivery(op) => DeliveryWorks(s, op, choice);
    case Response(op) => ResponseWorks(s, op, choice);
    case Admission(op) => CompleteWorks(s, op, choice);
    case Commit(_, op) => CommitWorks(s, e, choice);
    case Endpoint(owner, generation, request) => SpawnWorks(s, owner, generation, Some(request), choice);
    case Consumer(owner, generation) => SpawnWorks(s, owner, generation, None, choice);
    case Background(owner, born) => BackgroundWorks(s, e, owner, born, choice);
    case Start(owner, callback) => SpawnWorks(s, owner, GenerationOf(s, owner), callback, choice);
    case Broker(_) =>
  }

  /**
   * A transition creates no operation and no event, and withdraws exactly the commits of the process generation it
   * ends.
   */
  lemma TransitionWithdraws(s: Kernel, owner: Owner, after: ServiceState)
    requires Inv(s) && s.failure.None?
    ensures var c := Transition(s, owner, after);
      && |c.ops| == |s.ops| && c.pending <= s.pending
      && c.services.Keys == s.services.Keys
      && (forall o :: o in s.services && o != owner ==> c.services[o] == s.services[o])
      && (owner in s.services ==>
            c.services[owner].generation == s.services[owner].generation + if EndsBy(s, owner, after) then 1 else 0)
      && c.commits == if EndsBy(s, owner, after) then DropCommits(s, owner, s.services[owner].generation).commits
          else s.commits
  {
    hide Allowed, Without, Orphaned, OrphanedWakes, Doomed;
    hide EventsOk, TasksOk, WakesOk, AwaitsOk, LocalOk, CommitsOk, FlightsOk, ReferencesOk, TraceOk;
    if EndsBy(s, owner, after) { FewerLeft(s, owner); }
  }

  lemma FewerLeft(s: Kernel, owner: Owner)
    requires owner in s.services
    ensures var d := DropCommits(CancelLocal(s, owner), owner, s.services[owner].generation);
      Abandon(d, owner, s.services[owner].generation).pending <= s.pending
  {
    hide Orphaned, OrphanedWakes;
  }
}
