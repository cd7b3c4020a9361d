/**
 * The headless simulation object on top of the heap scheduler: its private fields are updated by each dispatch and by
 * the control calls. Every method does to the fields exactly what its function in `KernelModel` does to the state.
 */
module Simulation {
  import opened Outcomes
  import opened Scheduler
  import opened KernelModel
  import KernelInvariants
  import KernelDispatch
  import KernelTheorems
  import RunControl

  const HANDLERS: map<string, string> := map[
    "kernel.sleep.wake" := "simulation", "kernel.network.deadline" := "simulation", "kernel.network.delivery" :=
        "simulation",
    "kernel.network.response" := "simulation", "kernel.message.admission" := "simulation", "database.commit" :=
        "service",
    "service.lifecycle" := "service", "service.fault" := "service", "service.endpoint" := "service",
    "service.consumer" := "service", "service.background" := "service", "client.action" := "client",
    "kernel.message.dispatch" := "broker", "kernel.message.arrival" := "broker", "kernel.message.timeout" := "broker",
    "kernel.message.retry" := "broker"]

  class HeadlessSimulation {
    const env: Env
    const scheduler: DeterministicScheduler<Payload>
    var now: nat
    var tasks: map<TaskId, Task>
    var nextTask: TaskId
    var operations: seq<Operation>
    var generations: map<Owner, nat>
    var services: map<Owner, Service>
    var flights: map<OpId, Flight>
    var commits: map<OpId, PendingCommit>
    var timers: set<EventId>
    var completed: bool
    var failure: Option<ErrorCode>
    var processed: nat
    var trace: seq<TraceEntry>
    var status: RunControl.Status

    ghost predicate Valid()
      reads this, scheduler
    {
      scheduler.Valid() && scheduler.handlers == HANDLERS
    }

    ghost function State(): Kernel
      reads this, scheduler
    {
      Kernel(now, scheduler.next, scheduler.Pending(), tasks, nextTask, operations, generations, services, flights,
             commits,
             timers, completed, failure, processed, trace)
    }

    constructor (runId: string, start: nat, owners: set<Owner>, hosted: set<Owner>, env: Env)
      ensures Valid() && fresh(scheduler) && this.env == env && status == RunControl.READY
      ensures State() == Kernel(start, 0, {}, map[], 0, [], map o | o in owners + hosted :: 0,
                                map o | o in hosted :: Service(STARTING, 0, {}), map[], map[], {}, false, None, 0, [])
      ensures KernelTheorems.Initial(State())
    {
      this.env, now, tasks, nextTask, operations := env, start, map[], 0, [];
      generations := map o | o in owners + hosted :: 0;
      services := map o | o in hosted :: Service(STARTING, 0, {});
      flights, commits, timers, completed, failure := map[], map[], {}, false, None;
      processed, trace, status := 0, [], RunControl.READY;
      scheduler := new DeterministicScheduler(runId, HANDLERS);
    }

    method Fail(code: ErrorCode)
      requires Valid()
      modifies this`failure
      ensures Valid() && State() == KernelModel.Fail(old(State()), code)
    {
      hide DeterministicScheduler.Valid, DeterministicScheduler.Pending;
      if failure.None? { failure := Some(code); }
    }

    method Schedule(time: nat, p: Payload) returns (id: EventId)
      requires Valid() && now <= time
      modifies scheduler
      ensures Valid() && id == old(scheduler.next) && State() == KernelModel.Schedule(old(State()), time, p)
    {
      hide DeterministicScheduler.Valid, DeterministicScheduler.Pending;
      var r := scheduler.Schedule(Draft(time, KindOf(p), None, p), now);
      id := r.value.eventId;
    }

    method GenerationOf(owner: Owner) returns (generation: nat)
      requires Valid()
      ensures generation == KernelModel.GenerationOf(State(), owner)
    {
      hide DeterministicScheduler.Valid, DeterministicScheduler.Pending;
      generation := if owner in generations then generations[owner] else 0;
    }

    // ---------- Network ----------

    method Reply(op: OpId, leg: Leg)
      requires Valid()
      modifies this`failure, this`flights, scheduler
      ensures Valid() && State() == KernelModel.Reply(old(State()), op, leg)
    {
      hide DeterministicScheduler.Valid, DeterministicScheduler.Pending;
      if op !in flights || flights[op].state == SENT { Fail(INVALID_NETWORK_REPLY); return; }
      var flight := flights[op];
      if flight.replied { return; }
      flights := flights[op := flight.(replied := true, state := if flight.settled then flight.state else REPLIED)];
      if leg.After? {
        flights := flights[op := flights[op].(responseDue := Some(now + leg.delay))];
        var id := Schedule(now + leg.delay, Response(op));
      }
    }

    // ---------- Tasks ----------

    method TrackLocal(owner: Owner, delay: nat)
      requires Valid() && owner in services
      modifies this`services, scheduler
      ensures Valid() && State() == KernelModel.TrackLocal(old(State()), owner, delay) && owner in services
    {
      hide DeterministicScheduler.Valid, DeterministicScheduler.Pending;
      var id := Schedule(now + delay, Background(owner, services[owner].generation));
      services := services[owner := services[owner].(local := services[owner].local + {id})];
    }

    method ScheduleLocal(owner: Owner, delays: seq<nat>)
      requires Valid()
      modifies this`services, scheduler
      ensures Valid() && State() == KernelModel.ScheduleLocal(old(State()), owner, delays)
    {
      hide KernelModel.TrackLocal, DeterministicScheduler.Valid, DeterministicScheduler.Pending;
      if owner !in services { return; }
      for i := 0 to |delays|
        invariant Valid() && owner in services
        invariant KernelModel.ScheduleLocal(State(), owner, delays[i..]) ==
            KernelModel.ScheduleLocal(old(State()), owner, delays)
      {
        assert delays[i..][1..] == delays[i + 1..];
        TrackLocal(owner, delays[i]);
      }
    }

    /** `operations.create`, and the task's yield of the new operation. */
    method Create(t: TaskId, call: Call, wake: Option<EventId>) returns (op: OpId)
      requires Valid() && t in tasks
      modifies this`operations, this`tasks
      ensures Valid() && op == |old(operations)| && operations == old(operations) + [Operation(t, call, false, wake)]
      ensures tasks == old(tasks)[t := old(tasks)[t].(waiting := Some(op))]
    {
      hide DeterministicScheduler.Valid, DeterministicScheduler.Pending;
      op := |operations|;
      operations := operations + [Operation(t, call, false, wake)];
      tasks := tasks[t := tasks[t].(waiting := Some(op))];
    }

    method Sleep(t: TaskId, delay: nat)
      requires Valid() && t in tasks
      modifies this`operations, this`tasks, scheduler
      ensures Valid() && State() == KernelModel.Begin(old(State()), t, Call.Sleep(delay))
    {
      hide DeterministicScheduler.Valid, DeterministicScheduler.Pending;
      var id := Schedule(now + delay, Wake(|operations|));
      var op := Create(t, Call.Sleep(delay), Some(id));
    }

    /** A new flight and its deadline event, which is scheduled before any leg and so has the smallest sequence. */
    method Launch(op: OpId, target: Owner, timeout: nat)
      requires Valid()
      modifies this`flights, scheduler
      ensures Valid()
      ensures State() == KernelModel.Schedule(old(State()), now + timeout, Deadline(op))
        .(flights := old(flights)[op :=
                                  Flight(target, now + timeout, old(scheduler.next), SENT, false, false, None, None)])
    {
      hide KindOf, DeterministicScheduler.Valid, DeterministicScheduler.Pending;
      var deadlineId := Schedule(now + timeout, Deadline(op));
      flights := flights[op := Flight(target, now + timeout, deadlineId, SENT, false, false, None, None)];
    }

    method Request(t: TaskId, target: Owner, timeout: nat, leg: Leg)
      requires Valid() && t in tasks
      modifies this`operations, this`tasks, this`flights, scheduler
      ensures Valid() && State() == KernelModel.Begin(old(State()), t, Call.Request(target, timeout, leg))
    {
      hide KindOf, DeterministicScheduler.Valid, DeterministicScheduler.Pending;
      var op := Create(t, Call.Request(target, timeout, leg), None);
      Launch(op, target, timeout);
      if leg.After? { var id := Schedule(now + leg.delay, Delivery(op)); }
    }

    method Publish(t: TaskId)
      requires Valid() && t in tasks
      modifies this`operations, this`tasks, scheduler
      ensures Valid() && State() == KernelModel.Begin(old(State()), t, Call.Publish)
    {
      hide DeterministicScheduler.Valid, DeterministicScheduler.Pending;
      var op := Create(t, Call.Publish, None);
      var id := Schedule(now, Admission(op));
    }

    method Submit(t: TaskId)
      requires Valid() && t in tasks
      modifies this`operations, this`tasks, this`commits, scheduler
      ensures Valid() && State() == KernelModel.Begin(old(State()), t, CommitTransaction)
    {
      hide DeterministicScheduler.Valid, DeterministicScheduler.Pending;
      var op := Create(t, CommitTransaction, None);
      commits := commits[op := PendingCommit(tasks[t].owner, tasks[t].generation)];
      var id := Schedule(now, Commit(tasks[t].owner, op));
    }

    method Begin(t: TaskId, call: Call)
      requires Valid() && t in tasks
      modifies this`operations, this`tasks, this`flights, this`commits, scheduler
      ensures Valid() && State() == KernelModel.Begin(old(State()), t, call)
    {
      hide KernelModel.Begin, DeterministicScheduler.Valid, DeterministicScheduler.Pending;
      match call
      case Sleep(delay) => Sleep(t, delay);
      case Request(target, timeout, leg) => Request(t, target, timeout, leg);
      case Publish => Publish(t);
      case CommitTransaction => Submit(t);
    }

    /** A task returns: its request is answered, and it is gone. */
    method Finish(t: TaskId, leg: Leg)
      requires Valid() && t in tasks
      modifies this`failure, this`flights, this`tasks, scheduler
      ensures Valid() && State() == KernelModel.Finished(old(State()), t, leg)
    {
      hide KernelModel.Reply, DeterministicScheduler.Valid, DeterministicScheduler.Pending;
      if tasks[t].request.Some? { Reply(tasks[t].request.value, leg); }
      if failure.None? { tasks := tasks - {t}; }
    }

    method Advance(t: TaskId, choice: Choice)
      requires Valid() && t in tasks
      modifies this, scheduler
      ensures Valid() && status == old(status) && State() == KernelModel.Advance(old(State()), t, choice)
    {
      hide KernelModel.ScheduleLocal, KernelModel.Begin, KernelModel.Finished;
      hide DeterministicScheduler.Valid, DeterministicScheduler.Pending;
      var task := tasks[t];
      ScheduleLocal(task.owner, choice.background);
      match choice.action
      case Throw => Fail(HANDLER_FAILED);
      case Finish(leg) => Finish(t, leg);
      case Await(call) => Begin(t, call);
    }

    method Complete(op: OpId, choice: Choice)
      requires Valid()
      modifies this, scheduler
      ensures Valid() && status == old(status) && State() == KernelModel.Complete(old(State()), op, choice)
    {
      hide KernelModel.Advance, DeterministicScheduler.Valid, DeterministicScheduler.Pending;
      if op >= |operations| { Fail(INVALID_OPERATION); return; }
      var t := operations[op].task;
      if operations[op].settled || t !in tasks { return; }
      if tasks[t].waiting != Some(op) { Fail(INVALID_OPERATION); return; }
      var task := tasks[t];
      var current := GenerationOf(task.owner);
      operations := operations[op := operations[op].(settled := true)];
      tasks := tasks[t := task.(waiting := None)];
      trace := trace + [Resumed(t, op, task.owner, task.generation, current)];
      Advance(t, choice);
    }

    /** Starts work that was meant for the process generation `meant`, as a task of the current one. */
    method Spawn(owner: Owner, meant: nat, request: Option<OpId>, choice: Choice)
      requires Valid()
      modifies this, scheduler
      ensures Valid() && status == old(status)
      ensures State() == KernelModel.Spawn(old(State()), owner, meant, request, choice)
    {
      hide KernelModel.Advance, DeterministicScheduler.Valid, DeterministicScheduler.Pending;
      var generation := GenerationOf(owner);
      var t := nextTask;
      nextTask := nextTask + 1;
      tasks := tasks[t := Task(owner, generation, request, None, None)];
      trace := trace + [Ran(t, owner, meant, generation)];
      Advance(t, choice);
    }

    // ---------- Crashes ----------

    /** The operations the tasks in `gone` created or wait for. */
    ghost predicate OrphanedBy(s: Kernel, gone: set<TaskId>, op: OpId) {
      exists t :: t in gone && t in s.tasks && (s.tasks[t].waiting == Some(op) || s.tasks[t].created == Some(op))
    }

    ghost function WakesOf(s: Kernel, gone: set<TaskId>): set<EventId> {
      set op | 0 <= op < |s.ops| && OrphanedBy(s, gone, op) && s.ops[op].wake.Some? :: s.ops[op].wake.value
    }

    method SettleOrphan(id: Option<OpId>)
      requires Valid()
      modifies this`operations, scheduler
      ensures Valid() && scheduler.next == old(scheduler.next)
      ensures |operations| == old(|operations|)
      ensures forall op :: 0 <= op < |operations| ==>
        operations[op] == if id == Some(op) then old(operations)[op].(settled := true) else old(operations)[op]
      ensures scheduler.Pending() ==
        if id.Some? && id.value < |operations| && operations[id.value].wake.Some?
        then Without(old(scheduler.Pending()), {operations[id.value].wake.value}) else old(scheduler.Pending())
    {
      hide DeterministicScheduler.Valid, DeterministicScheduler.Pending;
      if id.None? || id.value >= |operations| { return; }
      operations := operations[id.value := operations[id.value].(settled := true)];
      if operations[id.value].wake.Some? { var found := scheduler.Cancel(operations[id.value].wake.value); }
    }

    ghost predicate Swept(s: Kernel, gone: set<TaskId>)
      reads this, scheduler
    {
      && |operations| == |s.ops| && scheduler.next == s.next
      && tasks == (map t | t in s.tasks && t !in gone :: s.tasks[t])
      && (forall op :: 0 <= op < |operations| ==> operations[op] == if OrphanedBy(s, gone, op)
          then s.ops[op].(settled := true) else s.ops[op])
      && scheduler.Pending() == Without(s.pending, WakesOf(s, gone))
    }

    /** Dropping one more task orphans exactly what it created or waits for. */
    lemma OneMoreOrphan(s: Kernel, gone: set<TaskId>, t: TaskId, op: OpId)
      requires t in s.tasks
      ensures OrphanedBy(s, gone + {t}, op) <==>
          OrphanedBy(s, gone, op) || s.tasks[t].created == Some(op) || s.tasks[t].waiting == Some(op)
    {
      if OrphanedBy(s, gone, op) {
        var u :| u in gone && u in s.tasks && (s.tasks[u].waiting == Some(op) || s.tasks[u].created == Some(op));
        assert u in gone + {t};
      }
      if s.tasks[t].created == Some(op) || s.tasks[t].waiting == Some(op) { assert t in gone + {t}; }
    }

    lemma OneMoreWakes(s: Kernel, gone: set<TaskId>, t: TaskId, id: EventId)
      requires t in s.tasks
      ensures id in WakesOf(s, gone + {t}) <==>
        id in WakesOf(s, gone)
        || (exists op: nat ::
            op < |s.ops| && s.ops[op].wake == Some(id)
            && (s.tasks[t].created == Some(op) || s.tasks[t].waiting == Some(op)))
    {
      forall op: nat
        ensures OrphanedBy(s, gone + {t}, op) <==>
            OrphanedBy(s, gone, op) || s.tasks[t].created == Some(op) || s.tasks[t].waiting == Some(op)
      {
        OneMoreOrphan(s, gone, t, op);
      }
    }

    method DropTask(ghost s: Kernel, ghost gone: set<TaskId>, t: TaskId)
      requires Valid() && t in tasks && t in s.tasks && t !in gone && Swept(s, gone)
      modifies this`tasks, this`operations, scheduler
      ensures Valid() && Swept(s, gone + {t})
    {
      hide OrphanedBy, WakesOf, DeterministicScheduler.Valid, DeterministicScheduler.Pending;
      var task := tasks[t];
      tasks := tasks - {t};
      SettleOrphan(task.created);
      SettleOrphan(task.waiting);
      forall op: nat | op < |operations|
        ensures operations[op] == if OrphanedBy(s, gone + {t}, op) then s.ops[op].(settled := true) else s.ops[op]
      {
        OneMoreOrphan(s, gone, t, op);
      }
      forall e ensures e in scheduler.Pending() <==> e in Without(s.pending, WakesOf(s, gone + {t})) {
        OneMoreWakes(s, gone, t, e.sequence);
      }
    }

    /** The loop of `abandon`: it drops exactly the tasks of one process generation. */
    method Sweep(owner: Owner, generation: nat, ghost s: Kernel) returns (ghost gone: set<TaskId>)
      requires Valid() && s == State()
      modifies this`tasks, this`operations, scheduler
      ensures Valid() && Swept(s, gone) && gone <= s.tasks.Keys
      ensures forall t :: t in s.tasks ==> (t in gone <==> Doomed(s.tasks[t], owner, generation))
    {
      hide DeterministicScheduler.Valid, DeterministicScheduler.Pending;
      SweptNothing(s);
      gone := {};
      var todo := tasks.Keys;
      hide State, OrphanedBy, WakesOf;
      while todo != {}
        invariant Valid() && todo <= s.tasks.Keys && gone !! todo && Swept(s, gone) && gone <= s.tasks.Keys
        invariant forall t :: t in s.tasks && t !in todo ==> (t in gone <==> Doomed(s.tasks[t], owner, generation))
        decreases |todo|
      {
        var t :| t in todo;
        todo := todo - {t};
        if tasks[t].owner == owner && tasks[t].generation == generation {
          DropTask(s, gone, t);
          gone := gone + {t};
        }
      }
    }

    /** `taskLifecycle.abandon`: the tasks of one process generation disappear with everything they wait for. */
    method Abandon(owner: Owner, generation: nat)
      requires Valid()
      modifies this`failure, this`tasks, this`operations, this`generations, scheduler
      ensures Valid() && State() == KernelModel.Abandon(old(State()), owner, generation)
    {
      hide DeterministicScheduler.Valid, DeterministicScheduler.Pending, OrphanedBy, WakesOf, Orphaned, OrphanedWakes;
      hide Doomed;
      if owner !in generations || generations[owner] != generation { Fail(INVALID_OPERATION); return; }
      ghost var s := State();
      ghost var gone := Sweep(owner, generation, s);
      generations := generations[owner := generation + 1];
      SweptAll(s, gone, owner, generation);
      hide Swept;
    }

    lemma SweptNothing(s: Kernel)
      requires s == State()
      ensures Swept(s, {})
    {
      assert WakesOf(s, {}) == {};
    }

    lemma SweptAll(s: Kernel, gone: set<TaskId>, owner: Owner, generation: nat)
      requires Swept(s, gone) && gone <= s.tasks.Keys
      requires forall t :: t in s.tasks ==> (t in gone <==> Doomed(s.tasks[t], owner, generation))
      requires owner in s.generations && s.generations[owner] == generation
      ensures var a := KernelModel.Abandon(s, owner, generation);
              tasks == a.tasks && operations == a.ops && scheduler.Pending() == a.pending && scheduler.next == a.next
    {
      forall op: nat ensures OrphanedBy(s, gone, op) <==> Orphaned(s, op, owner, generation) {}
      assert WakesOf(s, gone) == OrphanedWakes(s, owner, generation);
    }

    // ---------- Services ----------

    method CancelLocal(owner: Owner)
      requires Valid() && owner in services
      modifies this`services, scheduler
      ensures Valid() && State() == KernelModel.CancelLocal(old(State()), owner)
    {
      hide DeterministicScheduler.Valid, DeterministicScheduler.Pending;
      var todo := services[owner].local;
      ghost var all := todo;
      ghost var before := scheduler.Pending();
      while todo != {}
        invariant Valid() && services == old(services) && scheduler.next == old(scheduler.next)
        invariant todo <= all && scheduler.Pending() == Without(before, all - todo)
        decreases |todo|
      {
        var id :| id in todo;
        var found := scheduler.Cancel(id);
        todo := todo - {id};
      }
      services := services[owner := services[owner].(local := {})];
    }

    method Withdraw(owner: Owner, generation: nat)
      requires Valid()
      modifies this`commits
      ensures Valid() && State() == DropCommits(old(State()), owner, generation)
    {
      hide DeterministicScheduler.Valid, DeterministicScheduler.Pending;
      commits := map op | op in commits && commits[op] != PendingCommit(owner, generation) :: commits[op];
    }

    /** The part of a transition that ends a process generation. */
    method EndProcess(owner: Owner, after: ServiceState)
      requires Valid() && owner in services
      modifies this, scheduler
      ensures Valid() && status == old(status) && State() == KernelModel.EndProcess(old(State()), owner, after)
    {
      hide KernelModel.Abandon, KernelModel.CancelLocal, DropCommits, DeterministicScheduler.Valid;
      hide DeterministicScheduler.Pending;
      var generation := services[owner].generation;
      CancelLocal(owner);
      Withdraw(owner, generation);
      Abandon(owner, generation);
      if failure.Some? { return; }
      services := services[owner := Service(after, generation + 1, {})];
    }

    /** `#transition`: a crash or stop cancels local work, withdraws commits and abandons the process generation. */
    method Transition(owner: Owner, after: ServiceState)
      requires Valid()
      modifies this, scheduler
      ensures Valid() && status == old(status) && State() == KernelModel.Transition(old(State()), owner, after)
    {
      hide KernelModel.EndProcess, Allowed, DeterministicScheduler.Valid, DeterministicScheduler.Pending;
      if owner !in services { Fail(INVALID_SERVICE_TRANSITION); return; }
      var service := services[owner];
      if after == service.state { return; }
      if !Allowed(service.state, after) { Fail(INVALID_SERVICE_TRANSITION); return; }
      if (after == CRASHED || after == STOPPED) && service.state != CRASHED {
        EndProcess(owner, after);
      } else {
        services := services[owner := service.(state := after)];
      }
    }

    // ---------- Event handlers ----------

    method OnWake(op: OpId, choice: Choice)
      requires Valid()
      modifies this, scheduler
      ensures Valid() && status == old(status) && State() == KernelModel.OnWake(old(State()), op, choice)
    {
      hide KernelModel.Complete, DeterministicScheduler.Valid, DeterministicScheduler.Pending;
      if op < |operations| && !operations[op].settled && operations[op].task in tasks { Complete(op, choice); }
    }

    method OnDeadline(op: OpId, choice: Choice)
      requires Valid()
      modifies this, scheduler
      ensures Valid() && status == old(status) && State() == KernelModel.OnDeadline(old(State()), op, choice)
    {
      hide KernelModel.Complete, DeterministicScheduler.Valid, DeterministicScheduler.Pending;
      if op !in flights || flights[op].settled { return; }
      flights := flights[op := flights[op].(settled := true, state := TIMED_OUT, outcome := Some(TimedOut(now)))];
      Complete(op, choice);
    }

    method OnDelivery(op: OpId, choice: Choice)
      requires Valid()
      modifies this, scheduler
      ensures Valid() && status == old(status) && State() == KernelModel.OnDelivery(old(State()), op, choice)
    {
      hide KernelModel.Reply, DeterministicScheduler.Valid, DeterministicScheduler.Pending;
      if op !in flights { return; }
      var target := flights[op].target;
      flights := flights[op := flights[op].(state := ADMITTED)];
      if !choice.endpointKnown || (target in services && services[target].state != RUNNING) {
        Reply(op, choice.errorLeg);
      } else if target in services {
        var id := Schedule(now, Endpoint(target, services[target].generation, op));
      } else {
        var id := Schedule(now, Start(target, Some(op)));
      }
    }

    method OnResponse(op: OpId, choice: Choice)
      requires Valid()
      modifies this, scheduler
      ensures Valid() && status == old(status) && State() == KernelModel.OnResponse(old(State()), op, choice)
    {
      hide KernelModel.Complete, DeterministicScheduler.Valid, DeterministicScheduler.Pending;
      if op !in flights || flights[op].settled { return; }
      var flight := flights[op];
      flights := flights[op := flight.(settled := true, outcome := Some(Success(now)))];
      var found := scheduler.Cancel(flight.deadlineId);
      assert scheduler.Pending() == Without(old(scheduler.Pending()), {flight.deadlineId});
      Complete(op, choice);
    }

    method OnCommit(op: OpId, choice: Choice)
      requires Valid()
      modifies this, scheduler
      ensures Valid() && status == old(status) && State() == KernelModel.OnCommit(old(State()), op, choice)
    {
      hide KernelModel.Complete, DeterministicScheduler.Valid, DeterministicScheduler.Pending;
      if op !in commits { return; }
      var commit := commits[op];
      commits := commits - {op};
      var current := GenerationOf(commit.owner);
      trace := trace + [Committed(op, commit.owner, commit.generation, current)];
      Complete(op, choice);
    }

    method OnFenced(owner: Owner, generation: nat, request: Option<OpId>, choice: Choice)
      requires Valid()
      modifies this, scheduler
      ensures Valid() && status == old(status)
      ensures State() == KernelModel.OnFenced(old(State()), owner, generation, request, choice)
    {
      hide KernelModel.Spawn, DeterministicScheduler.Valid, DeterministicScheduler.Pending;
      if owner !in services || services[owner].generation != generation { return; }
      Spawn(owner, generation, request, choice);
    }

    method OnBackground(e: Event<Payload>, owner: Owner, born: nat, choice: Choice)
      requires Valid()
      modifies this, scheduler
      ensures Valid() && status == old(status)
      ensures State() == KernelModel.OnBackground(old(State()), e, owner, born, choice)
    {
      hide KernelModel.Spawn, DeterministicScheduler.Valid, DeterministicScheduler.Pending;
      if owner !in services { return; }
      services := services[owner := services[owner].(local := services[owner].local - {e.sequence})];
      if services[owner].state != RUNNING { return; }
      Spawn(owner, born, None, choice);
    }

    method RunHandler(e: Event<Payload>, choice: Choice)
      requires Valid()
      modifies this, scheduler
      ensures Valid() && status == old(status) && State() == KernelModel.RunHandler(old(State()), e, choice)
    {
      hide DeterministicScheduler.Valid, DeterministicScheduler.Pending;
      hide KernelModel.OnWake, KernelModel.OnDeadline, KernelModel.OnDelivery, KernelModel.OnResponse;
      hide KernelModel.OnCommit, KernelModel.OnFenced, KernelModel.OnBackground, KernelModel.Transition;
      hide KernelModel.Spawn, KernelModel.Complete;
      match e.payload
      case Wake(op) => OnWake(op, choice);
      case Deadline(op) => OnDeadline(op, choice);
      case Delivery(op) => OnDelivery(op, choice);
      case Response(op) => OnResponse(op, choice);
      case Admission(op) => Complete(op, choice);
      case Commit(_, op) => OnCommit(op, choice);
      case Lifecycle(owner, after) => Transition(owner, after);
      case Crash(owner) =>
        if owner in services && services[owner].state == CRASHED {
          Fail(INVALID_SERVICE_TRANSITION);
        } else {
          Transition(owner, CRASHED);
        }
      case Endpoint(owner, generation, request) => OnFenced(owner, generation, Some(request), choice);
      case Consumer(owner, generation) => OnFenced(owner, generation, None, choice);
      case Background(owner, born) => OnBackground(e, owner, born, choice);
      case Start(owner, callback) =>
        var generation := GenerationOf(owner);
        Spawn(owner, generation, callback, choice);
      case Broker(_) =>
    }

    // ---------- The message broker ----------

    method CancelTimers(ids: set<EventId>)
      requires Valid()
      modifies scheduler
      ensures Valid() && State() == KernelModel.CancelTimers(old(State()), ids)
    {
      hide DeterministicScheduler.Valid, DeterministicScheduler.Pending;
      var todo := ids * timers;
      ghost var all := todo;
      ghost var before := scheduler.Pending();
      while todo != {}
        invariant Valid() && scheduler.next == old(scheduler.next)
        invariant todo <= all && scheduler.Pending() == Without(before, all - todo)
        decreases |todo|
      {
        var id :| id in todo;
        var found := scheduler.Cancel(id);
        todo := todo - {id};
      }
    }

    method StartTimer(timer: Timer)
      requires Valid()
      modifies this`timers, scheduler
      ensures Valid() && State() == KernelModel.StartTimer(old(State()), timer)
    {
      hide KindOf, DeterministicScheduler.Valid, DeterministicScheduler.Pending;
      var id := Schedule(now + timer.delay, Broker(timer.kind));
      timers := timers + {id};
    }

    method StartTimers(work: seq<Timer>)
      requires Valid()
      modifies this`timers, scheduler
      ensures Valid() && State() == KernelModel.StartTimers(old(State()), work)
    {
      hide KernelModel.StartTimer, DeterministicScheduler.Valid, DeterministicScheduler.Pending;
      for i := 0 to |work|
        invariant Valid()
        invariant KernelModel.StartTimers(State(), work[i..]) == KernelModel.StartTimers(old(State()), work)
      {
        assert work[i..][1..] == work[i + 1..];
        StartTimer(work[i]);
      }
    }

    method Accept(owner: Owner)
      requires Valid()
      modifies scheduler
      ensures Valid() && State() == KernelModel.Accept(old(State()), owner)
    {
      hide KindOf, DeterministicScheduler.Valid, DeterministicScheduler.Pending;
      if owner !in services || services[owner].state != RUNNING { return; }
      var id := Schedule(now, Consumer(owner, services[owner].generation));
    }

    method AcceptAll(owners: seq<Owner>)
      requires Valid()
      modifies scheduler
      ensures Valid() && State() == KernelModel.AcceptAll(old(State()), owners)
    {
      hide KernelModel.Accept, DeterministicScheduler.Valid, DeterministicScheduler.Pending;
      for i := 0 to |owners|
        invariant Valid()
        invariant KernelModel.AcceptAll(State(), owners[i..]) == KernelModel.AcceptAll(old(State()), owners)
      {
        assert owners[i..][1..] == owners[i + 1..];
        Accept(owners[i]);
      }
    }

    /**
     * The broker's part of a dispatch: it cancels and schedules events of its own, and hands deliveries to services.
     */
    method Brokered(work: BrokerWork)
      requires Valid()
      modifies this`timers, scheduler
      ensures Valid() && State() == KernelModel.Brokered(old(State()), work)
    {
      hide KernelModel.CancelTimers, KernelModel.StartTimers, KernelModel.AcceptAll;
      hide DeterministicScheduler.Valid, DeterministicScheduler.Pending;
      if failure.Some? { return; }
      CancelTimers(work.cancelled);
      StartTimers(work.timers);
      AcceptAll(work.deliveries);
    }

    // ---------- The run loop ----------

    method Boundary()
      requires Valid()
      modifies this`failure, this`completed
      ensures Valid() && State() == KernelModel.Boundary(old(State()))
    {
      hide DeterministicScheduler.Valid, DeterministicScheduler.Pending;
      if failure.Some? { return; }
      var next := scheduler.Peek();
      if next.Some? { return; }
      if tasks != map[] { Fail(SIMULATION_DEADLOCK); return; }
      completed := true;
    }

    /** The event's handler, the broker's part, and the boundary after them. */
    method Handle(e: Event<Payload>, reaction: Reaction)
      requires Valid()
      modifies this, scheduler
      ensures Valid() && status == old(status)
      ensures State() == KernelModel.Boundary(KernelModel.HandleEvent(old(State()), e, reaction))
    {
      hide KernelModel.RunHandler, KernelModel.Brokered, KernelModel.Boundary;
      hide DeterministicScheduler.Valid, DeterministicScheduler.Pending;
      RunHandler(e, reaction.choice);
      Brokered(reaction.broker);
      Boundary();
    }

    /** The clock moves to the event, and its start is recorded. */
    method StartEvent(e: Event<Payload>)
      requires Valid()
      modifies this`now, this`trace
      ensures Valid()
      ensures State() == old(State()).(now := e.time, trace := old(trace) + [Dispatched(e.time, e.sequence, e.payload)])
    {
      hide DeterministicScheduler.Valid, DeterministicScheduler.Pending;
      now := e.time;
      trace := trace + [Dispatched(e.time, e.sequence, e.payload)];
    }

    /** An event that was just taken is counted. */
    method Count(e: Event<Payload>, ghost before: Kernel)
      requires Valid() && State() == before.(pending := before.pending - {e})
      modifies this`processed
      ensures Valid() && State() == KernelModel.Take(before, e)
    {
      hide DeterministicScheduler.Valid, DeterministicScheduler.Pending;
      processed := processed + 1;
    }

    lemma TakenFields(before: Kernel, e: Event<Payload>)
      ensures var s := KernelModel.Take(before, e);
        && s.now == before.now && s.trace == before.trace && s.failure == before.failure
        && KernelModel.Started(before, e) ==
            s.(now := e.time, trace := s.trace + [Dispatched(e.time, e.sequence, e.payload)])
    {}

    /** The start of an event that was just taken; an event in the past fails the run. */
    method StartTaken(e: Event<Payload>, ghost before: Kernel) returns (late: bool)
      requires Valid() && State() == before.(pending := before.pending - {e})
      modifies this`now, this`trace, this`processed, this`failure
      ensures Valid() && late == (e.time < before.now)
      ensures State() == if late then KernelModel.Fail(KernelModel.Take(before, e), CLOCK_REWIND)
          else KernelModel.Started(before, e)
    {
      hide KernelModel.Take, KernelModel.Started, KernelModel.Fail, DeterministicScheduler.Valid;
      hide DeterministicScheduler.Pending;
      TakenFields(before, e);
      late := e.time < now;
      Count(e, before);
      if late { Fail(CLOCK_REWIND); return; }
      StartEvent(e);
    }

    /** The dispatch of an event that was just taken from the scheduler. */
    method DispatchTaken(e: Event<Payload>, ghost before: Kernel)
      requires Valid() && State() == before.(pending := before.pending - {e})
      modifies this, scheduler
      ensures Valid() && status == old(status) && State() == KernelModel.DispatchEvent(before, e, env)
    {
      hide KernelModel.HandleEvent, KernelModel.Boundary, KernelModel.Started, KernelModel.Take;
      hide DeterministicScheduler.Valid, DeterministicScheduler.Pending;
      var reaction := env(processed);
      var late := StartTaken(e, before);
      if late { return; }
      Handle(e, reaction);
    }

    /** `#dispatch`: take the least event and run its handler; nothing pending means the boundary is reached. */
    method Dispatch()
      requires Valid() && failure.None? && KernelInvariants.Good(State())
      modifies this, scheduler
      ensures Valid() && KernelInvariants.Good(State()) && status == old(status)
      ensures State() == KernelModel.Dispatch(old(State()), env)
    {
      hide KernelModel.Boundary, KernelModel.DispatchEvent, KernelInvariants.Good, DeterministicScheduler.Valid;
      hide DeterministicScheduler.Pending;
      ghost var before := State();
      KernelDispatch.DispatchKeeps(before, env);
      var next := scheduler.TakeNext();
      if next.None? { Boundary(); return; }
      DispatchTaken(next.value, before);
    }

    ghost predicate Consistent()
      reads this, scheduler
    {
      Valid() && KernelInvariants.Good(State()) && RunControl.Consistent(RunControl.Simulation(State(), status))
    }

    /** `step`: one dispatch, unless the run has ended. */
    method Step()
      requires Consistent()
      modifies this, scheduler
      ensures Consistent()
      ensures RunControl.Simulation(State(), status) ==
          RunControl.StepOnce(old(RunControl.Simulation(State(), status)), env)
    {
      hide KernelModel.Dispatch, KernelInvariants.Good, DeterministicScheduler.Valid, DeterministicScheduler.Pending;
      if status == RunControl.FAILED || status == RunControl.COMPLETED { return; }
      status := RunControl.PAUSED;
      Dispatch();
      if failure.Some? { status := RunControl.FAILED; } else if completed { status := RunControl.COMPLETED; }
    }

    /** `run({ maxEvents })`. */
    method Run(max: nat)
      requires Consistent()
      modifies this, scheduler
      ensures Consistent()
      ensures RunControl.Simulation(State(), status) ==
          RunControl.RunBounded(old(RunControl.Simulation(State(), status)), env, max)
    {
      hide KernelModel.Dispatch, KernelModel.Boundary, KernelInvariants.Good, DeterministicScheduler.Valid;
      hide DeterministicScheduler.Pending;
      if status == RunControl.FAILED || status == RunControl.COMPLETED { return; }
      status := RunControl.RUNNING;
      KernelDispatch.BoundaryKeeps(State());
      Boundary();
      if failure.Some? { status := RunControl.FAILED; } else if completed { status := RunControl.COMPLETED; }
      var count := 0;
      ghost var goal := RunControl.RunLoop(State(), env, max);
      while status == RunControl.RUNNING && count < max
        invariant Valid() && KernelInvariants.Good(State()) && count <= max
        invariant status == RunControl.StatusAfter(State(), RunControl.RUNNING)
        invariant RunControl.RunLoop(State(), env, max - count) == goal
      {
        Dispatch();
        count := count + 1;
        if failure.Some? { status := RunControl.FAILED; } else if completed { status := RunControl.COMPLETED; }
      }
      if status == RunControl.RUNNING { status := RunControl.PAUSED; }
    }
  }
}
