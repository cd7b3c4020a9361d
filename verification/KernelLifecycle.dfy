/**
 * The life of a service: which transitions its lifecycle events make, and that over any run its state and process
 * generation are exactly what the lifecycle and crash events dispatched for it say.
 */
module KernelLifecycle {
  import opened Outcomes
  import opened Scheduler
  import opened KernelModel
  import opened KernelInvariants
  import opened KernelSteps
  import opened KernelDispatch
  import opened KernelFrames
  import opened KernelTheorems
  import opened KernelProgress
  import opened KernelAgenda

  // ---------- One transition ----------

  const TRANSITIONS: set<(ServiceState, ServiceState)> := {
    (STARTING, RUNNING), (STARTING, CRASHED), (STARTING, STOPPED),
    (RUNNING, PAUSED), (RUNNING, CRASHED), (RUNNING, STOPPED),
    (PAUSED, RUNNING), (PAUSED, CRASHED), (PAUSED, STOPPED),
    (CRASHED, STARTING), (CRASHED, STOPPED),
    (STOPPED, STARTING)
  }

  /** A running, starting or paused process ends; a crashed or stopped service has none. */
  predicate EndsProcess(before: ServiceState, after: ServiceState) {
    (after == CRASHED || after == STOPPED) && before != CRASHED && before != after
  }

  function LifeAfter(before: Service, after: ServiceState): (ServiceState, nat) {
    (after, before.generation + if EndsProcess(before.state, after) then 1 else 0)
  }

  /** From `s` to `c` the owner moved to `after`, and nobody else. */
  predicate Moves(s: Kernel, c: Kernel, owner: Owner, after: ServiceState)
    requires owner in s.services
  {
    && c.failure.None? && c.services.Keys == s.services.Keys
    && (c.services[owner].state, c.services[owner].generation) == LifeAfter(s.services[owner], after)
    && forall o :: o in s.services && o != owner ==> c.services[o] == s.services[o]
  }

  lemma EndMoves(s: Kernel, owner: Owner, after: ServiceState)
    requires Inv(s) && s.failure.None? && EndsBy(s, owner, after)
    ensures Moves(s, Transition(s, owner, after), owner, after)
  {
    hide InvWith, Transition, Allowed;
    CrashLeavesNothing(s, owner, after);
    TransitionWithdraws(s, owner, after);
  }

  lemma OtherMoves(s: Kernel, owner: Owner, after: ServiceState)
    requires s.failure.None? && owner in s.services && !EndsBy(s, owner, after)
    ensures var c := Transition(s, owner, after);
      if s.services[owner].state == after || Allowed(s.services[owner].state, after) then Moves(s, c, owner, after)
      else c == s.(failure := Some(INVALID_SERVICE_TRANSITION))
  {
    hide EndProcess, Allowed;
  }

  lemma AllowedIsTheTable(before: ServiceState, after: ServiceState)
    ensures Allowed(before, after) <==> (before, after) in TRANSITIONS
  {}

  /**
   * A transition is made exactly when the table has it or the service is already there. It then leaves the owner in the
   * new state, with a new process generation if a process ended, and no other service changes; otherwise the run fails
   * and nothing else changes.
   */
  lemma TransitionsAreTheTable(s: Kernel, owner: Owner, after: ServiceState)
    requires Inv(s) && s.failure.None?
    ensures var c := Transition(s, owner, after);
      if owner in s.services && (s.services[owner].state == after || (s.services[owner].state, after) in TRANSITIONS)
      then Moves(s, c, owner, after)
      else c == s.(failure := Some(INVALID_SERVICE_TRANSITION))
  {
    hide InvWith, Allowed, Moves;
    if owner in s.services {
      hide Transition;
      AllowedIsTheTable(s.services[owner].state, after);
      if EndsBy(s, owner, after) { EndMoves(s, owner, after); } else { OtherMoves(s, owner, after); }
    } else {
      hide EndProcess;
    }
  }

  // ---------- One dispatch ----------

  /** The service can follow this event: a crash needs a process to end, a lifecycle event may ask for what is so. */
  predicate CanFollow(service: Service, p: Payload)
    requires Transits(p)
  {
    (service.state, TargetOf(p)) in TRANSITIONS || (p.Lifecycle? && service.state == p.target)
  }

  lemma HandlerTransits(s: Kernel, e: Event<Payload>, choice: Choice)
    requires Inv(s) && s.failure.None? && IsLeast(e, s.pending) && Transits(e.payload)
    ensures var o, h := e.payload.owner, RunHandler(Started(s, e), e, choice);
      if o in s.services && CanFollow(s.services[o], e.payload) then
        && h.failure.None? && h.services.Keys == s.services.Keys
        && (h.services[o].state, h.services[o].generation) == LifeAfter(s.services[o], TargetOf(e.payload))
        && forall q :: q in s.services && q != o ==> h.services[q] == s.services[q]
      else h.failure == Some(INVALID_SERVICE_TRANSITION) && h.services == s.services
    ensures RunHandler(Started(s, e), e, choice).trace == Started(s, e).trace
  {
    hide InvWith, Transition, IsLeast;
    TakenInv(s, e);
    TransitionsAreTheTable(Started(s, e), e.payload.owner, TargetOf(e.payload));
    TransitionTrace(Started(s, e), e.payload.owner, TargetOf(e.payload));
  }

  /** A lifecycle event is followed exactly when the service can; otherwise the run fails and no service changes. */
  lemma LifecycleIsFollowed(s: Kernel, env: Env)
    requires Inv(s) && s.failure.None? && s.pending != {} && Transits(Least(s.pending).payload)
    ensures var p, c := Least(s.pending).payload, Dispatch(s, env);
      if p.owner in s.services && CanFollow(s.services[p.owner], p) then
        && c.failure.None? && c.services.Keys == s.services.Keys
        && (c.services[p.owner].state, c.services[p.owner].generation) == LifeAfter(s.services[p.owner], TargetOf(p))
        && forall q :: q in s.services && q != p.owner ==> c.services[q] == s.services[q]
      else c.failure == Some(INVALID_SERVICE_TRANSITION) && c.services == s.services
    ensures var e := Least(s.pending);
      Dispatch(s, env).trace == s.trace + [Dispatched(e.time, e.sequence, e.payload)]
  {
    hide InvWith, RunHandler, Dispatch, IsLeast, Good, CanFollow, LifeAfter, Leaves;
    HandlerTransits(s, Least(s.pending), env(s.processed).choice);
    DispatchLeaves(s, env);
    LeavesMost(HandledState(s, env), Dispatch(s, env));
  }

  /** No other event changes the state or the process generation of a service. */
  lemma OthersLeaveServices(s: Kernel, env: Env)
    requires Inv(s) && s.failure.None? && s.pending != {} && !Transits(Least(s.pending).payload)
    ensures SameStates(s.services, Dispatch(s, env).services)
  {
    hide InvWith, RunHandler, Dispatch, IsLeast, Good, Works, Leaves;
    var e := Least(s.pending);
    HandlerWorks(Started(s, e), e, env(s.processed).choice);
    WorkedLives(Decided(Started(s, e), e), HandledState(s, env));
    DispatchLeaves(s, env);
    LeavesMost(HandledState(s, env), Dispatch(s, env));
  }

  lemma WorkedLives(s: Kernel, c: Kernel)
    requires Works(s, c)
    ensures SameStates(s.services, c.services)
  {}

  // ---------- Over runs ----------

  /** Where this entry of history takes the service. */
  function Leads(entry: TraceEntry, owner: Owner): Option<ServiceState> {
    if entry.Dispatched? && Transits(entry.payload) && entry.payload.owner == owner then Some(TargetOf(entry.payload))
    else None
  }

  /** State and process generation of a service after this stretch of history. */
  function Lived(state: ServiceState, generation: nat, history: seq<TraceEntry>, owner: Owner): (ServiceState, nat)
    decreases |history|
  {
    if history == [] then (state, generation)
    else match Leads(history[0], owner)
      case None => Lived(state, generation, history[1..], owner)
      case Some(after) =>
        Lived(after, generation + if EndsProcess(state, after) then 1 else 0, history[1..], owner)
  }

  /** Every step the service makes in this stretch of history is in the table. */
  predicate Lawful(state: ServiceState, history: seq<TraceEntry>, owner: Owner)
    decreases |history|
  {
    if history == [] then true
    else match Leads(history[0], owner)
      case None => Lawful(state, history[1..], owner)
      case Some(after) =>
        (state == after || (state, after) in TRANSITIONS) && Lawful(after, history[1..], owner)
  }

  lemma {:induction false} LivedInTwo(state: ServiceState, generation: nat, first: seq<TraceEntry>,
                                      second: seq<TraceEntry>, owner: Owner)
    ensures var (middle, g) := Lived(state, generation, first, owner);
      && Lived(state, generation, first + second, owner) == Lived(middle, g, second, owner)
      && (Lawful(state, first + second, owner) <==> Lawful(state, first, owner) && Lawful(middle, second, owner))
    decreases |first|
  {
    if first == [] {
      assert first + second == second;
    } else {
      assert (first + second)[1..] == first[1..] + second;
      var lead := Leads(first[0], owner);
      var next := if lead.Some? then lead.value else state;
      var g := generation + if lead.Some? && EndsProcess(state, next) then 1 else 0;
      LivedInTwo(next, g, first[1..], second, owner);
    }
  }

  predicate Quiet(history: seq<TraceEntry>, owner: Owner) {
    forall i :: 0 <= i < |history| ==> Leads(history[i], owner).None?
  }

  lemma {:induction false} QuietLife(state: ServiceState, generation: nat, history: seq<TraceEntry>, owner: Owner)
    requires Quiet(history, owner)
    ensures Lived(state, generation, history, owner) == (state, generation) && Lawful(state, history, owner)
  {
    if history != [] { QuietLife(state, generation, history[1..], owner); }
  }

  /** From `s` to `c`, history gained no transition of the owner. */
  predicate Records(s: Kernel, c: Kernel, owner: Owner) {
    s.trace <= c.trace && Quiet(c.trace[|s.trace|..], owner)
  }

  lemma RecordsTransitive(a: Kernel, b: Kernel, c: Kernel, owner: Owner)
    requires Records(a, b, owner) && Records(b, c, owner)
    ensures Records(a, c, owner)
  {
    forall i | 0 <= i < |c.trace[|a.trace|..]| ensures Leads(c.trace[|a.trace|..][i], owner).None? {
      if i + |a.trace| < |b.trace| {
        assert c.trace[|a.trace|..][i] == b.trace[|a.trace|..][i];
      } else {
        assert c.trace[|a.trace|..][i] == c.trace[|b.trace|..][i + |a.trace| - |b.trace|];
      }
    }
  }

  lemma CompleteRecords(s: Kernel, op: OpId, choice: Choice, owner: Owner)
    ensures Records(s, Complete(s, op, choice), owner)
  {
    hide Advance;
    if op < |s.ops| && s.ops[op].task in s.tasks { AdvanceTrace(ResumedState(s, op), s.ops[op].task, choice); }
  }

  lemma SpawnRecords(s: Kernel, o: Owner, meant: nat, request: Option<OpId>, choice: Choice, owner: Owner)
    ensures Records(s, Spawn(s, o, meant, request, choice), owner)
  {
    hide Advance;
    AdvanceTrace(Spawned(s, o, meant, request), s.nextTask, choice);
  }

  lemma SameRecords(s: Kernel, c: Kernel, d: Kernel, owner: Owner)
    requires c.trace == s.trace && Records(c, d, owner)
    ensures Records(s, d, owner)
  {}

  lemma DeadlineRecords(c: Kernel, op: OpId, choice: Choice, owner: Owner)
    ensures Records(c, OnDeadline(c, op, choice), owner)
  {
    hide Complete, Records;
    NothingRecorded(c, c, owner);
    if op in c.flights && !c.flights[op].settled {
      CompleteRecords(TimedOutState(c, op), op, choice, owner);
      SameRecords(c, TimedOutState(c, op), OnDeadline(c, op, choice), owner);
    }
  }

  lemma ResponseRecords(c: Kernel, op: OpId, choice: Choice, owner: Owner)
    ensures Records(c, OnResponse(c, op, choice), owner)
  {
    hide Complete, Records, Without;
    NothingRecorded(c, c, owner);
    if op in c.flights && !c.flights[op].settled {
      CompleteRecords(RespondedState(c, op), op, choice, owner);
      SameRecords(c, RespondedState(c, op), OnResponse(c, op, choice), owner);
    }
  }

  /** A handler records what ran, resumed or committed, and no dispatch. */
  lemma HandlerRecords(c: Kernel, e: Event<Payload>, choice: Choice, owner: Owner)
    requires !Transits(e.payload)
    ensures Records(c, RunHandler(c, e, choice), owner)
  {
    hide Complete, Spawn, Reply, KindOf, Without, Records, OnDeadline, OnResponse;
    NothingRecorded(c, c, owner);
    match e.payload
    case Wake(op) => CompleteRecords(c, op, choice, owner);
    case Admission(op) => CompleteRecords(c, op, choice, owner);
    case Deadline(op) => DeadlineRecords(c, op, choice, owner);
    case Response(op) => ResponseRecords(c, op, choice, owner);
    case Commit(_, op) =>
      if op in c.commits {
        CompleteRecords(CommittedState(c, op), op, choice, owner);
        CommitRecords(c, op, owner);
        RecordsTransitive(c, CommittedState(c, op), RunHandler(c, e, choice), owner);
      }
    case Delivery(op) =>
      if op in c.flights {
        var admitted := c.(flights := c.flights[op := c.flights[op].(state := ADMITTED)]);
        ReplyTrace(admitted, op, choice.errorLeg);
        NothingRecorded(c, RunHandler(c, e, choice), owner);
      }
    case Endpoint(o, g, request) => SpawnRecords(c, o, g, Some(request), choice, owner);
    case Consumer(o, g) => SpawnRecords(c, o, g, None, choice, owner);
    case Background(o, born) =>
      if o in c.services {
        var taken := c.(services := c.services[o := c.services[o].(local := c.services[o].local - {e.sequence})]);
        SpawnRecords(taken, o, born, None, choice, owner);
        SameRecords(c, taken, Spawn(taken, o, born, None, choice), owner);
        NothingRecorded(c, taken, owner);
      }
    case Start(o, callback) => SpawnRecords(c, o, GenerationOf(c, o), callback, choice, owner);
    case Broker(_) =>
  }

  lemma NothingRecorded(c: Kernel, d: Kernel, owner: Owner)
    requires d.trace == c.trace
    ensures Records(c, d, owner)
  {}

  lemma CommitRecords(c: Kernel, op: OpId, owner: Owner)
    requires op in c.commits
    ensures Records(c, CommittedState(c, op), owner)
  {}

  function LifeOf(services: map<Owner, Service>, owner: Owner): (ServiceState, nat)
    requires owner in services
  { (services[owner].state, services[owner].generation) }

  /** From `s` to `c` the service lived as the history between them says, and lawfully. */
  ghost predicate Follows(s: Kernel, c: Kernel, owner: Owner) {
    && owner in s.services && owner in c.services && s.trace <= c.trace
    && var history := c.trace[|s.trace|..];
       && LifeOf(c.services, owner) == Lived(s.services[owner].state, s.services[owner].generation, history, owner)
       && Lawful(s.services[owner].state, history, owner)
  }

  lemma FollowsTransitive(a: Kernel, b: Kernel, c: Kernel, owner: Owner)
    requires Follows(a, b, owner) && Follows(b, c, owner)
    ensures Follows(a, c, owner)
  {
    var first, second := b.trace[|a.trace|..], c.trace[|b.trace|..];
    assert c.trace[|a.trace|..] == first + second;
    LivedInTwo(a.services[owner].state, a.services[owner].generation, first, second, owner);
  }

  lemma QuietFollows(s: Kernel, c: Kernel, owner: Owner)
    requires owner in s.services && SameStates(s.services, c.services) && Records(s, c, owner)
    ensures Follows(s, c, owner)
  {
    QuietLife(s.services[owner].state, s.services[owner].generation, c.trace[|s.trace|..], owner);
  }

  lemma TransitFollows(s: Kernel, e: Event<Payload>, c: Kernel, owner: Owner)
    requires Transits(e.payload) && owner in s.services && owner in c.services
    requires c.trace == s.trace + [Dispatched(e.time, e.sequence, e.payload)]
    requires if e.payload.owner == owner
             then CanFollow(s.services[owner], e.payload)
                 && LifeOf(c.services, owner) == LifeAfter(s.services[owner], TargetOf(e.payload))
             else c.services[owner] == s.services[owner]
    ensures Follows(s, c, owner)
  {
    var entry := Dispatched(e.time, e.sequence, e.payload);
    assert c.trace[|s.trace|..] == [entry];
    assert Leads(entry, owner) == if e.payload.owner == owner then Some(TargetOf(e.payload)) else None;
    assert [entry][1..] == [];
  }

  lemma DispatchFollows(s: Kernel, env: Env, owner: Owner)
    requires Inv(s) && s.failure.None? && owner in s.services && Dispatch(s, env).failure.None?
    ensures Follows(s, Dispatch(s, env), owner)
  {
    hide InvWith, RunHandler, IsLeast, Good, Follows, Records, Lawful, Lived, CanFollow, LifeAfter, Leaves;
    hide KernelModel.DispatchEvent;
    var c := Dispatch(s, env);
    if s.pending == {} {
      NothingRecorded(s, c, owner);
      QuietFollows(s, c, owner);
    } else {
      var e := Least(s.pending);
      if Transits(e.payload) {
        LifecycleIsFollowed(s, env);
        TransitFollows(s, e, c, owner);
      } else {
        OthersLeaveServices(s, env);
        HandlerRecords(Started(s, e), e, env(s.processed).choice, owner);
        StartedRecords(s, e, owner);
        RecordsTransitive(s, Started(s, e), HandledState(s, env), owner);
        DispatchLeaves(s, env);
        LeavesMost(HandledState(s, env), c);
        NothingRecorded(HandledState(s, env), c, owner);
        RecordsTransitive(s, HandledState(s, env), c, owner);
        QuietFollows(s, c, owner);
      }
    }
  }

  lemma StartedRecords(s: Kernel, e: Event<Payload>, owner: Owner)
    requires !Transits(e.payload)
    ensures Records(s, Started(s, e), owner)
  {}

  lemma NothingHappened(s: Kernel, owner: Owner)
    requires owner in s.services
    ensures Follows(s, s, owner)
  {
    NothingRecorded(s, s, owner);
    QuietFollows(s, s, owner);
  }

  /**
   * Over any stretch of a run that does not fail, the state and the process generation of a service are exactly what
   * the lifecycle and crash events dispatched for it say, and each of its steps is in the table.
   */
  lemma {:induction false} ServiceFollowsItsEvents(s: Kernel, env: Env, n: nat, owner: Owner)
    requires Good(s) && owner in s.services && Iterate(s, env, n).failure.None?
    ensures Follows(s, Iterate(s, env, n), owner)
    decreases n
  {
    hide Good, Dispatch, Follows;
    if n == 0 || s.failure.Some? || s.completed {
      NothingHappened(s, owner);
    } else {
      var d := Dispatch(s, env);
      FailureLasts(d, env, n - 1);
      GoodIsInv(s);
      DispatchFollows(s, env, owner);
      DispatchKeeps(s, env);
      StillThere(s, d, owner);
      ServiceFollowsItsEvents(d, env, n - 1, owner);
      FollowsTransitive(s, d, Iterate(s, env, n), owner);
    }
  }

  lemma StillThere(s: Kernel, c: Kernel, owner: Owner)
    requires Follows(s, c, owner)
    ensures owner in c.services
  {}

  lemma FailureLasts(s: Kernel, env: Env, n: nat)
    ensures s.failure.Some? ==> Iterate(s, env, n) == s
  {}

  // ---------- Crash and restart ----------

  /** A stretch of the run without a transition of the owner. */
  lemma QuietStretch(s: Kernel, env: Env, n: nat, owner: Owner)
    requires Good(s) && owner in s.services
    requires var c := Iterate(s, env, n); c.failure.None? && s.trace <= c.trace && Quiet(c.trace[|s.trace|..], owner)
    ensures var c := Iterate(s, env, n); owner in c.services && LifeOf(c.services, owner) == LifeOf(s.services, owner)
  {
    hide Good, Iterate;
    ServiceFollowsItsEvents(s, env, n, owner);
    var c := Iterate(s, env, n);
    QuietLife(s.services[owner].state, s.services[owner].generation, c.trace[|s.trace|..], owner);
  }

  /** In `c`, some dispatches after `s` with no transition of the owner, the next event takes the owner to `after`. */
  ghost predicate NextFor(s: Kernel, c: Kernel, owner: Owner, p: Payload) {
    Going(c) && s.trace <= c.trace && Quiet(c.trace[|s.trace|..], owner) && Least(c.pending).payload == p
  }

  lemma FollowedBy(s: Kernel, env: Env, n: nat, owner: Owner, after: ServiceState)
    requires Good(s) && owner in s.services && NextFor(s, Iterate(s, env, n), owner, Lifecycle(owner, after))
    requires (s.services[owner].state, after) in TRANSITIONS
    ensures var r := Dispatch(Iterate(s, env, n), env);
      && r.failure.None? && Good(r) && owner in r.services
      && LifeOf(r.services, owner) == LifeAfter(s.services[owner], after)
  {
    hide Good, Inv, Iterate, Dispatch, Quiet;
    var c := Iterate(s, env, n);
    QuietStretch(s, env, n, owner);
    IterateKeeps(s, env, n);
    GoodIsInv(c);
    LifecycleIsFollowed(c, env);
    DispatchKeeps(c, env);
  }

  /**
   * A crashed service can be started again: after the crash, its next two lifecycle events, to starting and to running,
   * leave it running, one process generation later than before the crash, whatever else is dispatched in between.
   */
  lemma CrashedServiceRestarts(s: Kernel, env: Env, m: nat, n: nat, owner: Owner)
    requires Inv(s) && s.failure.None? && s.pending != {} && Least(s.pending).payload == Crash(owner)
    requires owner in s.services && s.services[owner].state in {STARTING, RUNNING, PAUSED}
    requires var a := Dispatch(s, env);
             NextFor(a, Iterate(a, env, m), owner, Lifecycle(owner, STARTING))
             && var b := Dispatch(Iterate(a, env, m), env);
                NextFor(b, Iterate(b, env, n), owner, Lifecycle(owner, RUNNING))
    ensures var b := Dispatch(Iterate(Dispatch(s, env), env, m), env);
      var r := Dispatch(Iterate(b, env, n), env);
      && r.failure.None? && owner in r.services
      && LifeOf(r.services, owner) == (RUNNING, s.services[owner].generation + 1)
  {
    hide Good, Inv, Iterate, Dispatch, Quiet;
    var a := Dispatch(s, env);
    LifecycleIsFollowed(s, env);
    GoodHere(s);
    DispatchKeeps(s, env);
    FollowedBy(a, env, m, owner, STARTING);
    FollowedBy(Dispatch(Iterate(a, env, m), env), env, n, owner, RUNNING);
  }
}
