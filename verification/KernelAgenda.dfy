/**
 * Nothing on the agenda is lost: an event stays until it is dispatched, unless the end of its process or the response
 * to its request cancels it; and endpoint work, consumer work and client actions run when they are dispatched.
 */
module KernelAgenda {
  import opened Outcomes
  import opened Scheduler
  import opened KernelModel
  import opened KernelInvariants
  import opened KernelSteps
  import opened KernelDispatch
  import opened KernelFrames
  import opened KernelTheorems
  import opened KernelProgress
  import RunControl

  // ---------- What a dispatch cancels ----------

  /** The task that waits for the operation belongs to this owner. */
  predicate WaitedBy(s: Kernel, op: OpId, owner: Owner) {
    Waited(s, op) && s.tasks[s.ops[op].task].owner == owner
  }

  /**
   * What the dispatch of `e` takes off the agenda besides `e`: local work and sleeps of the process it ends, the
   * deadline of the request it answers. The broker cancels its own events.
   */
  predicate Cancels(s: Kernel, e: Event<Payload>, p: Payload) {
    match p
    case Background(o, _) => Ends(s, e, o)
    case Wake(op) => (e.payload.Lifecycle? || e.payload.Crash?) && WaitedBy(s, op, e.payload.owner)
        && Ends(s, e, e.payload.owner)
    case Deadline(op) => e.payload == Response(op)
    case Broker(_) => true
    case _ => false
  }

  /** Everything but `e` and what it cancels is still pending. */
  ghost predicate Spares(s: Kernel, e: Event<Payload>, c: Kernel) {
    forall x :: x in s.pending && x != e && !Cancels(s, e, x.payload) ==> x in c.pending
  }

  lemma OrphanIsWaitedBy(s: Kernel, op: OpId, owner: Owner, generation: nat)
    requires Inv(s) && op < |s.ops| && Orphaned(s, op, owner, generation)
    ensures WaitedBy(s, op, owner)
  {
    hide EventsOk, WakesOk, AwaitsOk, GenerationsOk, LocalOk, CommitsOk, FlightsOk, ReferencesOk, TraceOk;
    var t :| t in s.tasks && Doomed(s.tasks[t], owner, generation)
        && (s.tasks[t].waiting == Some(op) || s.tasks[t].created == Some(op));
    assert TaskOk(t, s.tasks[t], s.ops, s.generations, s.nextTask);
  }

  /** The end of a process cancels its local work and the sleeps of its tasks, and nothing else. */
  lemma EndSpares(c: Kernel, owner: Owner, after: ServiceState, x: Event<Payload>)
    requires Inv(c) && owner in c.services && x in c.pending
    requires x !in EndProcess(c, owner, after).pending
    ensures (x.payload.Background? && x.payload.owner == owner)
        || (x.payload.Wake? && WaitedBy(c, x.payload.op, owner))
  {
    hide InvWith, Orphaned, Without, Doomed;
    var generation := c.services[owner].generation;
    AgendaOf(c);
    if x.sequence in c.services[owner].local {
      LocalAreBackground(c, owner);
    } else {
      var d := DropCommits(CancelLocal(c, owner), owner, generation);
      KeptByCancel(c, owner, x);
      assert x in d.pending && d.ops == c.ops && d.tasks == c.tasks;
      WithdrawExtends(c, owner, generation);
      FewerWakes(c.ops, c.pending, c.next, d.pending);
      KeptByAbandon(d, owner, generation, x);
      OrphanedWakesAreWakes(d, owner, generation, x);
      SameOrphans(c, d, x.payload.op, owner, generation);
      OrphanIsWaitedBy(c, x.payload.op, owner, generation);
    }
  }

  lemma AgendaOf(s: Kernel)
    requires Inv(s)
    ensures LocalOk(s.services, s.timers, s.pending, s.next) && WakesOk(s.ops, s.pending, s.next)
  {
    hide EventsOk, TasksOk, WakesOk, AwaitsOk, GenerationsOk, LocalOk, CommitsOk, FlightsOk, ReferencesOk, TraceOk;
  }

  lemma KeptByCancel(s: Kernel, owner: Owner, x: Event<Payload>)
    requires owner in s.services && x in s.pending && x.sequence !in s.services[owner].local
    ensures x in CancelLocal(s, owner).pending
  {}

  lemma KeptByAbandon(d: Kernel, owner: Owner, generation: nat, x: Event<Payload>)
    requires x in d.pending && x !in Abandon(d, owner, generation).pending
    ensures x.sequence in OrphanedWakes(d, owner, generation)
  {
    hide Orphaned, OrphanedWakes, Doomed;
  }

  lemma SameOrphans(c: Kernel, d: Kernel, op: OpId, owner: Owner, generation: nat)
    requires d.tasks == c.tasks && Orphaned(d, op, owner, generation)
    ensures Orphaned(c, op, owner, generation)
  {}

  lemma TransitionSpares(s: Kernel, e: Event<Payload>, after: ServiceState)
    requires Inv(s) && s.failure.None? && IsLeast(e, s.pending) && Transits(e.payload)
    requires after == if e.payload.Crash? then CRASHED else e.payload.target
    requires e.payload.Crash? && e.payload.owner in s.services ==> s.services[e.payload.owner].state != CRASHED
    ensures Spares(s, e, Transition(Started(s, e), e.payload.owner, after))
  {
    hide InvWith, EndProcess, IsLeast;
    var c, owner := Started(s, e), e.payload.owner;
    TakenInv(s, e);
    forall x | x in s.pending && x != e && !Cancels(s, e, x.payload)
      ensures x in Transition(c, owner, after).pending
    {
      if EndsBy(c, owner, after) && x !in EndProcess(c, owner, after).pending { EndSpares(c, owner, after, x); }
    }
  }

  lemma ResponseSpares(s: Kernel, e: Event<Payload>, op: OpId)
    requires Inv(s) && e.payload == Response(op) && op in s.flights && !s.flights[op].settled
    ensures Spares(s, e, RespondedState(Started(s, e), op))
  {
    FlightsHere(s);
    hide InvWith, FlightsOk;
    FlightHere(s, op, None);
  }

  lemma GrowsSpares(s: Kernel, e: Event<Payload>, r: Kernel, h: Kernel)
    requires Spares(s, e, r) && r.pending <= h.pending
    ensures Spares(s, e, h)
  {}

  lemma StartedSpares(s: Kernel, e: Event<Payload>)
    ensures Spares(s, e, Started(s, e))
  {}

  lemma SettledSpares(s: Kernel, e: Event<Payload>)
    requires Inv(s) && Resumes(s, e.payload).Some?
    ensures Spares(s, e, SettledState(Started(s, e), e.payload))
  {
    hide InvWith, Spares, Without;
    StartedSpares(s, e);
    if e.payload.Response? {
      ResponseSpares(s, e, e.payload.op);
    } else {
      GrowsSpares(s, e, Started(s, e), SettledState(Started(s, e), e.payload));
    }
  }

  lemma HandlerSpares(s: Kernel, e: Event<Payload>, choice: Choice)
    requires Inv(s) && s.failure.None? && IsLeast(e, s.pending)
    ensures Spares(s, e, RunHandler(Started(s, e), e, choice))
  {
    hide InvWith, IsLeast, Spares, Complete, Spawn, Transition, OnDelivery, SettledState;
    var c, h := Started(s, e), RunHandler(Started(s, e), e, choice);
    StartedSpares(s, e);
    TakeKeeps(s, e);
    if StartsWork(e.payload) {
      HandlerStarts(s, e, choice);
      GrowsSpares(s, e, c, h);
    } else if Resumes(s, e.payload).Some? {
      HandlerResumes(s, e, choice);
      SettledSpares(s, e);
      GrowsSpares(s, e, SettledState(c, e.payload), h);
    } else if e.payload.Delivery? {
      TakenInv(s, e);
      DeliveredOver(c, e.payload.op, choice);
      GrowsSpares(s, e, c, h);
    } else if Transits(e.payload) {
      if !(e.payload.Crash? && e.payload.owner in s.services && s.services[e.payload.owner].state == CRASHED) {
        TransitionSpares(s, e, if e.payload.Crash? then CRASHED else e.payload.target);
      } else {
        GrowsSpares(s, e, c, h);
      }
    } else {
      GrowsSpares(s, e, c, h);
    }
  }

  /**
   * A dispatch takes one event and cancels nothing but local work and sleeps of a process it ends, the deadline of a
   * request it answers, and events of the broker's own: everything else is still pending, whoever it belongs to.
   */
  lemma NothingElseIsCancelled(s: Kernel, env: Env, x: Event<Payload>)
    requires Inv(s) && s.failure.None? && x in s.pending && x != Least(s.pending)
    requires !Cancels(s, Least(s.pending), x.payload)
    ensures x in Dispatch(s, env).pending
  {
    hide InvWith, RunHandler, Dispatch, IsLeast, Good;
    HandlerSpares(s, Least(s.pending), env(s.processed).choice);
    DispatchLeaves(s, env);
    assert !x.payload.Broker?;
  }

  // ---------- Over runs ----------

  /** The dispatch number `k` from `s` takes the event `x`. */
  ghost predicate TakenAt(s: Kernel, env: Env, k: nat, x: Event<Payload>) {
    && var c := Iterate(s, env, k);
       Going(c) && Least(c.pending) == x
  }

  /** The dispatch number `k` from `s` cancels the event `x`. */
  ghost predicate CancelledAt(s: Kernel, env: Env, k: nat, x: Event<Payload>) {
    && var c := Iterate(s, env, k);
       Going(c) && Cancels(c, Least(c.pending), x.payload)
  }

  predicate Going(c: Kernel) {
    c.failure.None? && !c.completed && c.pending != {}
  }

  lemma {:induction false} IterateNext(s: Kernel, env: Env, k: nat)
    requires Going(s)
    ensures Iterate(s, env, k + 1) == Iterate(Dispatch(s, env), env, k)
  {}

  /** Over any stretch of a run, an event is still pending, or it was dispatched or cancelled in it. */
  lemma {:induction false} EventsAreDispatched(s: Kernel, env: Env, n: nat, x: Event<Payload>)
    requires Good(s) && x in s.pending
    ensures x in Iterate(s, env, n).pending
         || exists k: nat :: k < n && (TakenAt(s, env, k, x) || CancelledAt(s, env, k, x))
    decreases n
  {
    hide Good, Dispatch, Cancels;
    if n > 0 && Going(s) {
      var e, d := Least(s.pending), Dispatch(s, env);
      assert Iterate(s, env, 0) == s;
      if e == x {
        assert TakenAt(s, env, 0, x);
      } else if Cancels(s, e, x.payload) {
        assert CancelledAt(s, env, 0, x);
      } else {
        GoodIsInv(s);
        NothingElseIsCancelled(s, env, x);
        DispatchKeeps(s, env);
        EventsAreDispatched(d, env, n - 1, x);
        IterateNext(s, env, n - 1);
        if x !in Iterate(d, env, n - 1).pending {
          var k: nat :| k < n - 1 && (TakenAt(d, env, k, x) || CancelledAt(d, env, k, x));
          IterateNext(s, env, k);
          assert TakenAt(s, env, k + 1, x) || CancelledAt(s, env, k + 1, x);
        }
      }
    }
  }

  /** The dispatch from `s` to `c` runs the work that `x` stands for, unless its code throws. */
  ghost predicate Served(s: Kernel, c: Kernel, x: Event<Payload>, choice: Choice) {
    NewWork(s, x.payload).Some? ==>
      if choice.action.Throw? then c.failure == Some(HANDLER_FAILED)
      else
        var task := NewWork(s, x.payload).value;
        && c.failure.None? && Worked(s, c, s.nextTask, task, choice)
        && c.trace == s.trace + [Dispatched(x.time, x.sequence, x.payload),
                                 Ran(s.nextTask, task.owner, task.generation, task.generation)]
  }

  /** The dispatch number `k` from `s` takes `x` and runs the work it stands for; history keeps it. */
  ghost predicate ServedAt(s: Kernel, env: Env, k: nat, x: Event<Payload>, later: Kernel) {
    && TakenAt(s, env, k, x)
    && var c := Iterate(s, env, k);
       Served(c, Dispatch(c, env), x, env(c.processed).choice) && Dispatch(c, env).trace <= later.trace
  }

  /**
   * Endpoint work, consumer work and client actions are never lost: over any stretch of a run such an event is still
   * pending, or its work ran when it was dispatched, if its process generation was still current.
   */
  lemma WorkIsServed(s: Kernel, env: Env, n: nat, x: Event<Payload>)
    requires Good(s) && x in s.pending && StartsWork(x.payload) && !x.payload.Background?
    ensures var c := Iterate(s, env, n);
      x in c.pending || exists k: nat :: k < n && ServedAt(s, env, k, x, c)
  {
    hide Good, Inv, Iterate, Dispatch, Later, Served, NewWork;
    var c := Iterate(s, env, n);
    EventsAreDispatched(s, env, n, x);
    if x !in c.pending {
      var k: nat :| k < n && (TakenAt(s, env, k, x) || CancelledAt(s, env, k, x));
      var b := Iterate(s, env, k);
      IterateKeeps(s, env, k);
      GoodIsInv(b);
      WorkStarts(b, env);
      IsServed(b, env);
      DispatchKeeps(b, env);
      NothingOldRunsAgain(Dispatch(b, env), env, n - k - 1);
      LaterTrace(Dispatch(b, env), Iterate(Dispatch(b, env), env, n - k - 1));
      IterateNext(b, env, n - k - 1);
      RunControl.IterateInTwo(s, env, k, n - k);
      assert ServedAt(s, env, k, x, c);
    }
  }

  lemma LaterTrace(s: Kernel, c: Kernel)
    requires Later(s, c)
    ensures s.trace <= c.trace
  {}

  lemma IsServed(s: Kernel, env: Env)
    requires Inv(s) && s.failure.None? && s.pending != {} && StartsWork(Least(s.pending).payload)
    ensures Served(s, Dispatch(s, env), Least(s.pending), env(s.processed).choice)
  {
    hide InvWith, Dispatch, NewWork, Worked;
    WorkStarts(s, env);
  }

  // ---------- When a run is complete ----------

  lemma CompleteMeansEmpty(s: Kernel, env: Env)
    requires Inv(s) && s.failure.None? && !s.completed
    ensures var c := Dispatch(s, env); c.failure.None? ==> (c.completed <==> c.pending == {})
  {
    hide InvWith, RunHandler, IsLeast, Good, Extends, Brokered;
    if s.pending == {} {
      EmptyMeansIdle(s);
    } else {
      hide Leaves, Boundary;
      var e, h := Least(s.pending), HandledState(s, env);
      TakeKeeps(s, e);
      StartedExtends(Started(s, e), e, env(s.processed).choice, FlightHole(e.payload), HoleOp(Some(e.payload)));
      SameCompletion(Started(s, e), h);
      BrokeredFrame(h, env(s.processed).broker);
      DispatchLeaves(s, env);
      BoundaryCompletes(Brokered(h, env(s.processed).broker));
    }
  }

  lemma BoundaryCompletes(k: Kernel)
    requires !k.completed
    ensures Boundary(k).failure.None? ==> (Boundary(k).completed <==> Boundary(k).pending == {})
  {}

  lemma SameCompletion(s: Kernel, c: Kernel)
    requires Extends(s, c)
    ensures c.completed == s.completed
  {}

  /** A run that has not failed is complete exactly when nothing is pending any more. */
  lemma {:induction false} RunIsComplete(s: Kernel, env: Env, n: nat)
    requires Good(s) && s.failure.None? && !s.completed && n > 0
    ensures var c := Iterate(s, env, n); c.failure.None? ==> (c.completed <==> c.pending == {})
    decreases n
  {
    hide Good, Dispatch;
    var d := Dispatch(s, env);
    GoodIsInv(s);
    CompleteMeansEmpty(s, env);
    DispatchKeeps(s, env);
    if n > 1 && d.failure.None? && !d.completed { RunIsComplete(d, env, n - 1); }
  }

  // ---------- The count of dispatches ----------

  lemma CompleteProcessed(s: Kernel, op: OpId, choice: Choice)
    ensures Complete(s, op, choice).processed == s.processed
  {
    hide Advance;
    if op < |s.ops| && s.ops[op].task in s.tasks { AdvanceTrace(ResumedState(s, op), s.ops[op].task, choice); }
  }

  lemma SpawnProcessed(s: Kernel, owner: Owner, meant: nat, request: Option<OpId>, choice: Choice)
    ensures Spawn(s, owner, meant, request, choice).processed == s.processed
  {
    hide Advance;
    AdvanceTrace(Spawned(s, owner, meant, request), s.nextTask, choice);
  }

  lemma AbandonProcessed(s: Kernel, owner: Owner, generation: nat)
    ensures Abandon(s, owner, generation).processed == s.processed
  {
    hide Orphaned, OrphanedWakes, Doomed, Without;
  }

  lemma TransitionProcessed(s: Kernel, owner: Owner, after: ServiceState)
    ensures Transition(s, owner, after).processed == s.processed
  {
    hide Abandon, Allowed, Without;
    if owner in s.services {
      var generation := s.services[owner].generation;
      AbandonProcessed(DropCommits(CancelLocal(s, owner), owner, generation), owner, generation);
    }
  }

  lemma DeliveryProcessed(s: Kernel, op: OpId, choice: Choice)
    ensures OnDelivery(s, op, choice).processed == s.processed
  {
    hide Reply, KindOf;
    if op in s.flights {
      ReplyTrace(s.(flights := s.flights[op := s.flights[op].(state := ADMITTED)]), op, choice.errorLeg);
    }
  }

  lemma HandlerProcessed(c: Kernel, e: Event<Payload>, choice: Choice)
    ensures RunHandler(c, e, choice).processed == c.processed
  {
    hide Complete, Spawn, Transition, OnDelivery, Without;
    match e.payload
    case Wake(op) => CompleteProcessed(c, op, choice);
    case Admission(op) => CompleteProcessed(c, op, choice);
    case Deadline(op) => if op in c.flights { CompleteProcessed(TimedOutState(c, op), op, choice); }
    case Response(op) => if op in c.flights { CompleteProcessed(RespondedState(c, op), op, choice); }
    case Commit(_, op) => if op in c.commits { CompleteProcessed(CommittedState(c, op), op, choice); }
    case Delivery(op) => DeliveryProcessed(c, op, choice);
    case Lifecycle(owner, after) => TransitionProcessed(c, owner, after);
    case Crash(owner) => TransitionProcessed(c, owner, CRASHED);
    case Endpoint(o, g, request) => SpawnProcessed(c, o, g, Some(request), choice);
    case Consumer(o, g) => SpawnProcessed(c, o, g, None, choice);
    case Background(o, born) =>
      if o in c.services {
        var taken := c.(services := c.services[o := c.services[o].(local := c.services[o].local - {e.sequence})]);
        SpawnProcessed(taken, o, born, None, choice);
      }
    case Start(o, callback) => SpawnProcessed(c, o, GenerationOf(c, o), callback, choice);
    case Broker(_) =>
  }

  lemma DispatchCounts(s: Kernel, env: Env)
    requires Inv(s) && s.failure.None? && s.pending != {}
    ensures Dispatch(s, env).processed == s.processed + 1
  {
    hide InvWith, RunHandler, Dispatch, IsLeast, Good, Leaves;
    var e := Least(s.pending);
    HandlerProcessed(Started(s, e), e, env(s.processed).choice);
    DispatchLeaves(s, env);
    SameCount(HandledState(s, env), Dispatch(s, env));
  }

  lemma SameCount(h: Kernel, d: Kernel)
    requires Leaves(h, d)
    ensures d.processed == h.processed
  {}

  lemma NothingToTake(s: Kernel, env: Env, n: nat)
    requires s.pending == {} && n > 0
    ensures !Going(Iterate(s, env, n))
  {
    EmptyEnds(s, env);
    hide Dispatch;
    var d := Dispatch(s, env);
    if d.failure.Some? || d.completed { assert Iterate(d, env, n - 1) == d; }
  }

  lemma EmptyEnds(s: Kernel, env: Env)
    requires s.pending == {}
    ensures var d := Dispatch(s, env); d.failure.Some? || (d.completed && d.pending == {})
  {
    hide DispatchEvent;
  }

  /** A run that is still going after some dispatches has taken exactly that many events. */
  lemma {:induction false} DispatchesAreCounted(s: Kernel, env: Env, n: nat)
    requires Good(s)
    ensures Going(Iterate(s, env, n)) ==> Iterate(s, env, n).processed == s.processed + n
    decreases n
  {
    hide Good, Dispatch;
    if n > 0 && s.pending == {} { NothingToTake(s, env, n); }
    if n > 0 && Going(s) {
      GoodIsInv(s);
      DispatchCounts(s, env);
      DispatchKeeps(s, env);
      DispatchesAreCounted(Dispatch(s, env), env, n - 1);
    }
  }
}
