/**
 * Replies over whole runs: a request gets its first reply in one dispatch, the response leaves over the leg that
 * dispatch chose, and the caller of the request succeeds when it arrives before the deadline.
 */
module KernelReplies {
  import opened Outcomes
  import opened Scheduler
  import opened KernelModel
  import opened KernelInvariants
  import opened KernelSteps
  import opened KernelDispatch
  import opened KernelFrames
  import opened KernelTheorems
  import opened KernelProgress

  // ---------- Replies ----------

  /** From `s` to `c` no flight but the one of `request` gets its reply. */
  predicate RepliesOnly(s: Kernel, c: Kernel, request: Option<OpId>) {
    forall q :: q in s.flights ==>
      q in c.flights && (request != Some(q) ==> c.flights[q].replied == s.flights[q].replied)
  }

  lemma BeginRepliesNothing(s: Kernel, t: TaskId, call: Call)
    requires Active(s, t)
    ensures RepliesOnly(s, Begin(s, t, call), None)
  {
    hide EventsOk, TasksOk, WakesOk, AwaitsOk, GenerationsOk, LocalOk, CommitsOk, ReferencesOk, TraceOk, RunnableOk;
    hide FlightOk, FlightEventsOk, KindOf;
  }

  lemma ReplyRepliesOnly(s: Kernel, op: OpId, leg: Leg)
    ensures RepliesOnly(s, Reply(s, op, leg), Some(op))
  {
    hide KindOf;
  }

  lemma AdvanceRepliesOnly(s: Kernel, t: TaskId, choice: Choice)
    requires Active(s, t)
    ensures RepliesOnly(s, Advance(s, t, choice), if choice.action.Finish? then s.tasks[t].request else None)
  {
    hide InvWith, RunnableOk, Begin, Reply, ScheduleLocal;
    var worked := ScheduleLocal(s, s.tasks[t].owner, choice.background);
    LocalWorkKeepsActive(s, t, s.tasks[t].owner, choice.background);
    match choice.action
    case Throw =>
    case Finish(leg) => if s.tasks[t].request.Some? { ReplyRepliesOnly(worked, s.tasks[t].request.value, leg); }
    case Await(call) => BeginRepliesNothing(worked, t, call);
  }

  lemma SpawnRepliesOnly(s: Kernel, owner: Owner, meant: nat, request: Option<OpId>, choice: Choice)
    requires Inv(s) && s.failure.None? && (request.Some? ==> Answerable(s.flights, request.value))
    requires meant == GenerationOf(s, owner)
    ensures RepliesOnly(s, Spawn(s, owner, meant, request, choice), if choice.action.Finish? then request else None)
  {
    hide Inv, InvWith, Active, Answerable, Advance;
    SpawnActivates(s, owner, request);
    AdvanceRepliesOnly(Spawned(s, owner, meant, request), s.nextTask, choice);
  }

  lemma CompleteRepliesOnly(r: Kernel, op: OpId, choice: Choice)
    requires InvWith(r, r.tasks, None, Some(op)) && r.failure.None? && op < |r.ops|
    ensures RepliesOnly(r, Complete(r, op, choice),
                        if Waited(r, op) && choice.action.Finish? then r.tasks[r.ops[op].task].request else None)
  {
    hide InvWith, Advance, Active;
    if r.ops[op].task in r.tasks { TaskIsCurrent(r, op); }
    if Waited(r, op) {
      CompletingActivates(r, op);
      AdvanceRepliesOnly(ResumedState(r, op), r.ops[op].task, choice);
    }
  }

  /** The request that the work of this event answers when it finishes. */
  function RequestOf(s: Kernel, p: Payload): Option<OpId> {
    if StartsWork(p) then (if NewWork(s, p).Some? then NewWork(s, p).value.request else None)
    else if Resumes(s, p).Some? && Waited(s, Resumes(s, p).value)
    then s.tasks[s.ops[Resumes(s, p).value].task].request
    else None
  }

  /** The request that is replied to in the dispatch of this event, and the leg the reply travels over. */
  function ReplyIn(s: Kernel, p: Payload, choice: Choice): Option<(OpId, Leg)> {
    if p.Delivery? then
      if p.op in s.flights && Refused(s, s.flights[p.op].target, choice) then Some((p.op, choice.errorLeg)) else None
    else if choice.action.Finish? && RequestOf(s, p).Some? then Some((RequestOf(s, p).value, choice.action.reply))
    else None
  }

  function RepliedIn(s: Kernel, p: Payload, choice: Choice): Option<OpId> {
    if ReplyIn(s, p, choice).Some? then Some(ReplyIn(s, p, choice).value.0) else None
  }

  lemma SameFlights(s: Kernel, c: Kernel, request: Option<OpId>)
    requires s.flights.Keys <= c.flights.Keys
    requires forall q :: q in s.flights ==> c.flights[q].replied == s.flights[q].replied
    ensures RepliesOnly(s, c, request)
  {}

  lemma AbandonFlights(s: Kernel, owner: Owner, generation: nat)
    ensures Abandon(s, owner, generation).flights == s.flights
  {
    hide Orphaned, OrphanedWakes, Doomed, Without;
  }

  lemma TransitionFlights(s: Kernel, owner: Owner, after: ServiceState)
    ensures Transition(s, owner, after).flights == s.flights
  {
    hide Abandon, Allowed, Without;
    if owner in s.services {
      var generation := s.services[owner].generation;
      AbandonFlights(DropCommits(CancelLocal(s, owner), owner, generation), owner, generation);
    }
  }

  lemma DeliveryRepliesOnly(c: Kernel, op: OpId, choice: Choice)
    requires op in c.flights
    ensures RepliesOnly(c, OnDelivery(c, op, choice), RepliedIn(c, Delivery(op), choice))
  {
    hide Reply, KindOf;
    var admitted := c.(flights := c.flights[op := c.flights[op].(state := ADMITTED)]);
    ReplyRepliesOnly(admitted, op, choice.errorLeg);
  }

  lemma FencedRepliesOnly(c: Kernel, owner: Owner, generation: nat, request: Option<OpId>, choice: Choice)
    requires Inv(c) && c.failure.None? && (request.Some? ==> Answerable(c.flights, request.value))
    ensures RepliesOnly(c, OnFenced(c, owner, generation, request, choice),
              if choice.action.Finish? && owner in c.services && c.services[owner].generation == generation
              then request else None)
  {
    hide InvWith, Spawn, Answerable;
    if owner in c.services && c.services[owner].generation == generation {
      CurrentGeneration(c, owner);
      SpawnRepliesOnly(c, owner, generation, request, choice);
    }
  }

  lemma LocalRepliesOnly(c: Kernel, e: Event<Payload>, owner: Owner, born: nat, choice: Choice)
    requires Inv(c) && c.failure.None? && e.payload == Background(owner, born) && owner in c.services
    requires born == c.services[owner].generation && forall x :: x in c.pending ==> x.sequence != e.sequence
    ensures RepliesOnly(c, OnBackground(c, e, owner, born, choice), None)
  {
    hide InvWith, Spawn;
    UntrackedKeeps(c, owner, e.sequence);
    var taken := c.(services :=
                    c.services[owner := c.services[owner].(local := c.services[owner].local - {e.sequence})]);
    if c.services[owner].state == RUNNING {
      CurrentGeneration(taken, owner);
      SpawnRepliesOnly(taken, owner, born, None, choice);
    }
  }

  lemma StartReplies(s: Kernel, p: Payload, choice: Choice)
    requires StartsWork(p)
    ensures RepliedIn(s, p, choice) == if !choice.action.Finish? then None else match p
              case Endpoint(o, g, request) =>
                if o in s.services && s.services[o].generation == g then Some(request) else None
              case Start(_, callback) => callback
              case _ => None
  {}

  lemma StartRepliesOnly(s: Kernel, e: Event<Payload>, choice: Choice)
    requires Inv(s) && s.failure.None? && IsLeast(e, s.pending) && StartsWork(e.payload)
    ensures RepliesOnly(Started(s, e), RunHandler(Started(s, e), e, choice), RepliedIn(s, e.payload, choice))
  {
    assert e in s.pending;
    hide InvWith, IsLeast, Spawn, Answerable, OnFenced, OnBackground, RepliesOnly, RepliedIn;
    StartReplies(s, e.payload, choice);
    hide Transition, OnWake, OnDeadline, OnDelivery, OnResponse, OnCommit, Complete;
    StartsNoHole(e.payload);
    TakenInv(s, e);
    TakeKeeps(s, e);
    var c := Started(s, e);
    match e.payload
    case Endpoint(o, g, request) => FencedRepliesOnly(c, o, g, Some(request), choice);
    case Consumer(o, g) => FencedRepliesOnly(c, o, g, None, choice);
    case Background(o, born) => LocalArrives(s, e); LocalRepliesOnly(c, e, o, born, choice);
    case Start(o, callback) => SpawnRepliesOnly(c, o, GenerationOf(c, o), callback, choice);
  }

  lemma ResumeRepliesOnly(s: Kernel, e: Event<Payload>, choice: Choice)
    requires Inv(s) && s.failure.None? && IsLeast(e, s.pending) && Resumes(s, e.payload).Some?
    ensures RepliesOnly(s, RunHandler(Started(s, e), e, choice), RepliedIn(s, e.payload, choice))
  {
    hide InvWith, IsLeast, Complete, SettledState, RunHandler;
    var c, op := Started(s, e), Resumes(s, e.payload).value;
    SettledKeeps(s, e);
    HandlerCompletes(c, e, choice);
    SettledOnly(c, e.payload);
    CompleteRepliesOnly(SettledState(c, e.payload), op, choice);
  }

  lemma HandlerRepliesOnly(s: Kernel, e: Event<Payload>, choice: Choice)
    requires Inv(s) && s.failure.None? && IsLeast(e, s.pending)
    ensures RepliesOnly(s, RunHandler(Started(s, e), e, choice), RepliedIn(s, e.payload, choice))
  {
    hide InvWith, IsLeast, RepliesOnly, Complete, Spawn, Transition, OnDelivery, RepliedIn;
    var c := Started(s, e);
    TakeKeeps(s, e);
    if StartsWork(e.payload) {
      StartRepliesOnly(s, e, choice);
      RepliesSince(s, c, RunHandler(c, e, choice), RepliedIn(s, e.payload, choice));
    } else if Resumes(s, e.payload).Some? {
      ResumeRepliesOnly(s, e, choice);
    } else if e.payload.Delivery? {
      DeliveryRepliesOnly(c, e.payload.op, choice);
      SameRepliesOnly(s, c, RunHandler(c, e, choice), e.payload, choice);
    } else {
      if e.payload.Lifecycle? { TransitionFlights(c, e.payload.owner, e.payload.target); }
      if e.payload.Crash? { TransitionFlights(c, e.payload.owner, CRASHED); }
      SameFlights(s, RunHandler(c, e, choice), RepliedIn(s, e.payload, choice));
    }
  }

  lemma RepliesSince(s: Kernel, c: Kernel, h: Kernel, request: Option<OpId>)
    requires c.flights == s.flights && RepliesOnly(c, h, request)
    ensures RepliesOnly(s, h, request)
  {}

  lemma SameRepliesOnly(s: Kernel, c: Kernel, h: Kernel, p: Payload, choice: Choice)
    requires p.Delivery? && c.flights == s.flights && c.services == s.services
    requires RepliesOnly(c, h, RepliedIn(c, p, choice))
    ensures RepliesOnly(s, h, RepliedIn(s, p, choice))
  {}

  /**
   * Who is replied to in a dispatch: no flight but that of the request which the dispatched work answers, or which is
   * refused on arrival; and the first reply of that one leaves over the leg chosen in that dispatch.
   */
  lemma RepliesAreSent(s: Kernel, env: Env)
    requires Inv(s) && s.failure.None? && s.pending != {}
    ensures var c, p, choice := Dispatch(s, env), Least(s.pending).payload, env(s.processed).choice;
      && RepliesOnly(s, c, RepliedIn(s, p, choice))
      && (c.failure.None? && ReplyIn(s, p, choice).Some? ==>
            Answered(s.flights, c, ReplyIn(s, p, choice).value.0, ReplyIn(s, p, choice).value.1))
  {
    hide InvWith, RunHandler, Worked, Dispatch, IsLeast, Good, NewWork, Resumes, Answered;
    var e, choice, c := Least(s.pending), env(s.processed).choice, Dispatch(s, env);
    HandlerRepliesOnly(s, e, choice);
    DispatchLeaves(s, env);
    LeavesMost(HandledState(s, env), c);
    if c.failure.None? && ReplyIn(s, e.payload, choice).Some? {
      if e.payload.Delivery? {
        RequestIsHandedOver(s, env);
      } else if StartsWork(e.payload) {
        WorkStarts(s, env);
        WorkAnswers(s, c, s.nextTask, NewWork(s, e.payload).value, choice);
      } else {
        WorkResumes(s, env);
        var t := s.ops[Resumes(s, e.payload).value].task;
        WorkAnswers(s, c, t, s.tasks[t].(waiting := None), choice);
      }
    }
  }

  lemma WorkAnswers(s: Kernel, c: Kernel, t: TaskId, task: Task, choice: Choice)
    requires Worked(s, c, t, task, choice) && choice.action.Finish? && task.request.Some?
    ensures Answered(s.flights, c, task.request.value, choice.action.reply)
  {}

  // ---------- What the caller gets ----------

  /** How a call ends whose response is due at `due`: it succeeds strictly before the deadline, which wins ties. */
  function EndOf(due: Option<nat>, deadline: nat): Settlement {
    if due.Some? && due.value < deadline then Success(due.value) else TimedOut(deadline)
  }

  /** Once a flight was replied, its end is fixed: the response if it is due before the deadline, else the deadline. */
  lemma ReplyDecides(s: Kernel, env: Env, n: nat, op: OpId)
    requires Good(s) && op in s.flights && s.flights[op].replied
    ensures var c, f := Iterate(s, env, n), s.flights[op];
      && op in c.flights && c.now >= s.now
      && (if c.flights[op].settled then c.flights[op].outcome == Some(EndOf(f.responseDue, f.deadline))
          else
            DueAt(c.pending, f.deadline, Deadline(op))
            && (f.responseDue.Some? ==> DueAt(c.pending, f.responseDue.value, Response(op))))
  {
    hide Good, Iterate, Lasting;
    NothingOldRunsAgain(s, env, n);
    IterateKeeps(s, env, n);
    var c := Iterate(s, env, n);
    GoodLasts(c);
    KeptFlight(s, c, op);
    LastingFlight(c, op);
    hide Later;
    if !c.flights[op].settled {
      assert HasEvent(c.pending, c.flights[op].deadline, c.flights[op].deadlineId, Deadline(op));
      if c.flights[op].responseDue.Some? {
        var e :| e in c.pending && e.payload == Response(op);
        EventIsNamed(c, e);
        assert HasEvent(c.pending, e.time, e.sequence, Response(op));
      }
    }
  }

  lemma KeptFlight(s: Kernel, c: Kernel, op: OpId)
    requires Later(s, c) && op in s.flights
    ensures op in c.flights && FlightGrows(s.flights[op], c.flights[op]) && s.now <= c.now
  {
    hide FlightGrows;
    assert FlightKept(s.flights, c.flights, op);
  }

  lemma EventIsNamed(c: Kernel, e: Event<Payload>)
    requires Lasting(c) && e in c.pending
    ensures e.kind == KindOf(e.payload) && c.now <= e.time
  {
    hide WakesOk, GenerationsOk, LocalOk, CommitsOk, FlightsOk, TraceOk;
    assert EventOk(c.next, c.now, e);
  }

  lemma NothingOverdue(s: Kernel, env: Env, n: nat, time: nat, p: Payload)
    requires Good(s) && DueAt(Iterate(s, env, n).pending, time, p)
    ensures Iterate(s, env, n).now <= time && Iterate(s, env, n).pending != {}
  {
    hide Good, Iterate, Lasting;
    IterateKeeps(s, env, n);
    GoodLasts(Iterate(s, env, n));
    var id :| HasEvent(Iterate(s, env, n).pending, time, id, p);
    EventIsNamed(Iterate(s, env, n), Event(time, id, KindOf(p), p));
  }

  /** When the response to a reply sent at `now` over this leg is due. */
  function DueOf(now: nat, leg: Leg): Option<nat> {
    match leg
    case Lost => None
    case After(delay) => Some(now + delay)
  }

  /**
   * The caller gets the reply: a flight whose first reply leaves in this dispatch over a leg that takes it to the
   * caller strictly before the deadline succeeds at that time in every continuation, once that time has been
   * dispatched; over a longer or lost leg it times out at its deadline.
   */
  lemma CallerGetsTheReply(s: Kernel, env: Env, n: nat, op: OpId)
    requires Inv(s) && s.failure.None? && s.pending != {} && op in s.flights && !s.flights[op].replied
    requires var d := Dispatch(s, env); d.failure.None? && op in d.flights && d.flights[op].replied
    ensures var d, p, choice := Dispatch(s, env), Least(s.pending).payload, env(s.processed).choice;
      && ReplyIn(s, p, choice).Some? && ReplyIn(s, p, choice).value.0 == op
      && var due := DueOf(d.now, ReplyIn(s, p, choice).value.1);
         var c, end := Iterate(d, env, n), EndOf(due, s.flights[op].deadline);
         && op in c.flights
         && (c.flights[op].settled ==> c.flights[op].outcome == Some(end))
         && (end.time < c.now || c.pending == {} ==> c.flights[op].settled)
         && (!c.flights[op].settled ==> DueAt(c.pending, end.time, if end.Success? then Response(op) else Deadline(op)))
  {
    hide Inv, Iterate, Dispatch, Good, ReplyIn, DueAt, Later;
    var d, p, choice := Dispatch(s, env), Least(s.pending).payload, env(s.processed).choice;
    RepliesAreSent(s, env);
    assert RepliedIn(s, p, choice) == Some(op);
    GoodHere(s);
    DispatchKeeps(s, env);
    DispatchLater(s, env);
    KeptFlight(s, d, op);
    ReplyDecides(d, env, n, op);
    AnsweredDue(s, d, op, ReplyIn(s, p, choice).value.1);
    var c := Iterate(d, env, n);
    if !c.flights[op].settled {
      NothingOverdue(d, env, n, s.flights[op].deadline, Deadline(op));
      if d.flights[op].responseDue.Some? { NothingOverdue(d, env, n, d.flights[op].responseDue.value, Response(op)); }
    }
  }

  lemma AnsweredDue(s: Kernel, d: Kernel, op: OpId, leg: Leg)
    requires Answered(s.flights, d, op, leg) && !s.flights[op].replied
    ensures d.flights[op].responseDue == DueOf(d.now, leg)
  {}
}
