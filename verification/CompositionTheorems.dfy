/**
 * The composed simulation over whole runs: whatever tasks, links, consumers and faults do, no run deadlocks, answers
 * meet the operations they are for, and a completed run leaves no message and no commit that anybody could still take
 * care of.
 */
module CompositionTheorems {
  import opened Outcomes
  import opened Scheduler
  import opened Composition
  import K = KernelModel
  import KI = KernelInvariants
  import KD = KernelDispatch
  import KF = KernelFrames
  import KT = KernelTheorems
  import KP = KernelProgress
  import KA = KernelAgenda
  import B = BusModel
  import BI = BusInvariants
  import BT = BusTheorems
  import BF = BusFrames
  import BD = BusDelivery
  import A = SharedAgenda
  import C = SharedCommits
  import D = DatabaseModel
  import T = DatabaseTheorems

  // ---------- One dispatch ----------

  /** Whatever the turn is, the parts can play it: a world in agreement has a next one. */
  lemma PartsAreReady(w: World, setting: Setting, turn: Turn)
    requires WorldOk(w, setting) && Going(w) && Permitted(w, setting, turn)
    ensures Handled(w, turn).failure.None? ==> TakesPart(w, setting, turn) && DatabasesTakePart(w, setting, turn)
    ensures exists n :: Follows(w, setting, turn, n)
  {
    hide KI.Good, BrokerOk, DataOk, Handled, SubmitOk, RoutesOk, After;
    if Handled(w, turn).failure.None? {
      ReactionKeeps(w, setting, turn);
      forall o | o in w.databases
        ensures Hosted(w, setting, o) && D.Handles(w.databases[o])
      {
        EventServes(w, setting, o);
      }
      hide A.Sound, CanReact, Reaction;
      assert Follows(w, setting, turn, After(w, setting, turn));
    } else {
      assert Follows(w, setting, turn, w.(kernel := Handled(w, turn)));
    }
  }

  /** One dispatch of the composed simulation keeps the kernel, the broker and the databases in agreement. */
  lemma StepKeeps(w: World, setting: Setting, turn: Turn, n: World)
    requires WorldOk(w, setting) && Follows(w, setting, turn, n)
    ensures WorldOk(n, setting)
  {
    hide KI.Good, BrokerOk, DataOk, Handled, SubmitOk, RoutesOk, TakesPart, DatabasesTakePart, After;
    HandledExtends(w, turn);
    if Handled(w, turn).failure.None? {
      BrokerStays(w, setting, turn);
      AfterKeeps(w, setting, turn);
    }
  }

  /** Services, destinations and subscriptions are set up, scenario events are scheduled, and nothing has run. */
  ghost predicate Initial(w: World, setting: Setting) {
    && KT.Initial(w.kernel) && !w.kernel.completed && SchemasOk(setting.schemas)
    && BT.Initial(w.bus.(pending := {})) && w.bus.now == w.kernel.now && w.bus.next == w.kernel.next
    && w.bus.pending == A.Mirrored(w.kernel.pending, setting.routes) && ReadyOk(w.kernel.services, w.bus)
    && setting.schemas.Keys <= w.kernel.services.Keys
    && w.databases == map o | o in setting.schemas :: D.Initial(setting.schemas[o])
  }

  lemma InitialBroker(w: World, setting: Setting)
    requires Initial(w, setting)
    ensures BrokerOk(w.kernel, w.bus, setting.routes)
  {
    var empty := w.bus.(pending := {});
    var others := A.Mirrored(w.kernel.pending, setting.routes);
    BT.InitialInv(empty);
    assert A.OfBroker(w.kernel.pending) == {} && A.Shadows({}) == {};
    A.MirroredStandBeside(w.kernel, empty, setting.routes);
    BF.AmongKeeps(empty, None, others, w.kernel.next);
    A.AgreeAmong(w.kernel.pending, {}, setting.routes);
    assert BF.Own({}) + others == others;
    assert BF.Among(empty, others, w.kernel.next) == w.bus;
  }

  lemma InitialDatabase(schema: D.Schema, owner: K.Owner, generation: nat)
    requires D.Satisfies(schema, schema.initial)
    ensures C.Serves(map[], generation, owner, schema, D.Initial(schema))
  {
    hide D.Satisfies;
    forall op: nat ensures C.SameCommit(map[], owner, D.Initial(schema), op) {}
  }

  lemma InitialEvents(k: K.Kernel)
    requires KT.Initial(k)
    ensures CommitEventsOk(k)
  {}

  lemma InitialOk(w: World, setting: Setting)
    requires Initial(w, setting)
    ensures WorldOk(w, setting)
  {
    hide BrokerOk, C.Serves, D.Satisfies, KI.Good;
    KT.InitialIsGood(w.kernel);
    InitialBroker(w, setting);
    forall o | o in w.databases
      ensures o in w.kernel.services
      ensures C.Serves(w.kernel.commits, w.kernel.services[o].generation, o, setting.schemas[o], w.databases[o])
    {
      InitialDatabase(setting.schemas[o], o, w.kernel.services[o].generation);
    }
    InitialEvents(w.kernel);
    DataFrom(w, w, setting);
  }

  /** The worlds of a run; `run[i]` is the world before `turns[i]`. */
  ghost predicate IsRun(run: seq<World>, setting: Setting, turns: seq<Turn>) {
    && |run| == |turns| + 1 && Initial(run[0], setting)
    && forall i :: 0 <= i < |turns| ==> Follows(run[i], setting, turns[i], run[i + 1])
  }

  lemma {:induction false} RunKeeps(run: seq<World>, setting: Setting, turns: seq<Turn>, i: nat)
    requires IsRun(run, setting, turns) && i < |run|
    ensures WorldOk(run[i], setting)
  {
    hide WorldOk, Follows, Initial;
    if i == 0 {
      InitialOk(run[0], setting);
    } else {
      RunKeeps(run, setting, turns, i - 1);
      StepKeeps(run[i - 1], setting, turns[i - 1], run[i - 1 + 1]);
    }
  }

  /**
   * No run of the composed simulation deadlocks: it fails only when user code throws or a scenario asks for the
   * impossible.
   */
  lemma ComposedNeverDeadlocks(run: seq<World>, setting: Setting, turns: seq<Turn>, i: nat)
    requires IsRun(run, setting, turns) && i < |run|
    ensures var failure := run[i].kernel.failure;
      failure.None? || failure == Some(HANDLER_FAILED) || failure == Some(INVALID_SERVICE_TRANSITION)
  {
    hide IsRun, BrokerOk, DataOk, KI.Inv, KI.Lasting;
    RunKeeps(run, setting, turns, i);
  }

  /** The operation an admission or commit event is about. */
  ghost predicate IsAbout(p: K.Payload, op: nat) {
    p == K.Admission(op) || (p.Commit? && p.op == op)
  }

  /**
   * When the kernel takes an admission, the broker takes the admission of the same publication and answers exactly its
   * operation; when it takes a commit event, the database decides the commit exactly when the kernel completes its
   * operation.
   */
  lemma AnswersMeetOperations(run: seq<World>, setting: Setting, turns: seq<Turn>, i: nat, op: nat)
    requires IsRun(run, setting, turns) && i < |turns| && run[i].kernel.pending != {}
    requires IsAbout(EventOf(run[i]).payload, op) && Handled(run[i], turns[i]).failure.None?
    ensures var w, p := run[i], EventOf(run[i]).payload;
      && (p.Admission? ==>
            && w.bus.pending != {} && BusEventOf(w).payload == B.Admission(op, setting.routes(op))
            && exists outcome :: B.Admit(Before(w, turns[i], setting), op, setting.routes(op)).1 ==
                B.Completed(op, outcome))
      && (p.Commit? && p.owner in w.databases ==>
            && p.owner in setting.schemas && D.Handles(w.databases[p.owner])
            && (op in w.kernel.commits <==>
                D.Dispatch(setting.schemas[p.owner], w.databases[p.owner], op, setting.commitFaults(op)).1.Some?))
  {
    hide IsRun, KI.Good, BrokerOk, DataOk, Handled, RoutesOk, SubmitOk, D.Dispatch, C.Serves, B.Admit, TakesPart;
    hide DatabasesTakePart, After;
    StepOf(run, setting, turns, i);
    RunKeeps(run, setting, turns, i);
    var w := run[i];
    if EventOf(w).payload.Admission? {
      AdmissionAnswered(w, setting, turns[i], op);
    } else if EventOf(w).payload.owner in w.databases {
      DataHere(w, setting, EventOf(w).payload.owner);
      EventNamesOwner(w, setting);
      var o := EventOf(w).payload.owner;
      C.DecidedTogether(w.kernel.commits, w.kernel.services[o].generation, o, setting.schemas[o], w.databases[o], op,
                        setting.commitFaults(op));
    }
  }

  lemma StepOf(run: seq<World>, setting: Setting, turns: seq<Turn>, i: nat)
    requires IsRun(run, setting, turns) && i < |turns|
    ensures |run| == |turns| + 1 && Follows(run[i], setting, turns[i], run[i + 1])
  {
    hide Follows, Initial;
  }

  lemma AdmissionAnswered(w: World, setting: Setting, turn: Turn, op: nat)
    requires KI.Good(w.kernel) && BrokerOk(w.kernel, w.bus, setting.routes) && Going(w)
    requires Handled(w, turn).failure.None? && RoutesOk(Handled(w, turn), w.bus, setting.routes)
    requires EventOf(w).payload == K.Admission(op)
    ensures w.bus.pending != {} && BusEventOf(w).payload == B.Admission(op, setting.routes(op))
    ensures exists outcome :: B.Admit(Before(w, turn, setting), op, setting.routes(op)).1 == B.Completed(op, outcome)
  {
    hide KI.Good, BrokerOk, Handled, RoutesOk, BI.Inv, Synced;
    SyncedKeeps(w, setting, turn);
    BT.AdmissionAlwaysCompletes(Before(w, turn, setting), op, setting.routes(op));
  }

  lemma ReportedDelivery(b: B.Bus, e: Event<K.Payload>, p: B.BusEvent, answer: Option<Answer>, faults: B.FaultPort)
    requires B.Routed(b) && (p.Admission? ==> B.Routed(B.Admit(b, p.operation, p.destination).0))
    ensures var (c, output) := Reacted(b, e, p, answer, faults);
      output.Delivered? ==>
        && p.Arrival? && output.delivery < |b.copies| && p.routing < |b.records|
        && B.Sub(b.records[p.routing].destination, b.copies[output.delivery].consumer) in b.ready
        && Deliveries(c, output) == [b.copies[output.delivery].consumer]
  {
    hide B.DispatchAll, B.OnTimeout, B.OnRetry, B.FailRecord, Answered, B.ConsumerChanged, B.ScheduleDispatch;
  }

  lemma AcceptedOne(k: K.Kernel, b: B.Bus, c: B.Bus, routes: nat -> string, owner: K.Owner)
    requires A.Ready(k, b, routes) && A.Sound(b, c) && k.failure.None? && Runs(k.services, owner)
    ensures var d := K.Brokered(k, A.WorkOf(b, c, [owner]));
      && d.services == k.services
      && exists e :: e in d.pending && k.next <= e.sequence && e.time == d.now
          && e.payload == K.Consumer(owner, k.services[owner].generation)
  {
    var work := A.WorkOf(b, c, [owner]);
    assert work.cancelled == A.WorkOf(b, c, []).cancelled && work.timers == A.WorkOf(b, c, []).timers;
    var t := A.Timed(k, b, c);
    A.TimedAgrees(k, b, c, routes);
    hide A.Ready, A.Sound, K.StartTimers, K.CancelTimers;
    var p := K.Consumer(owner, k.services[owner].generation);
    assert K.Brokered(k, work) == K.AcceptAll(t, [owner]) == K.AcceptAll(K.Accept(t, owner), []);
    assert Event(t.now, t.next, K.KindOf(p), p) in K.Brokered(k, work).pending;
  }

  lemma DeliveryAccepted(w: World, setting: Setting, turn: Turn)
    requires KI.Good(w.kernel) && BrokerOk(w.kernel, w.bus, setting.routes) && Going(w)
    requires Handled(w, turn).failure.None?
    requires RoutesOk(Handled(w, turn), w.bus, setting.routes) && TakesPart(w, setting, turn)
    requires DatabasesTakePart(w, setting, turn)
    requires Reaction(w, turn, setting).1.Delivered?
    ensures var (c, output) := Reaction(w, turn, setting);
      && output.delivery < |c.copies|
      && var owner, n := c.copies[output.delivery].consumer, After(w, setting, turn).kernel;
         && Runs(n.services, owner)
         && exists e :: e in n.pending && w.kernel.next <= e.sequence && e.time == n.now
             && e.payload == K.Consumer(owner, n.services[owner].generation)
  {
    hide KI.Good, BrokerOk, Handled, RoutesOk, SubmitOk, A.Ready, A.Sound, Before, Reacted, DatabasesTakePart, A.WorkOf;
    hide K.Brokered, K.Boundary, KF.Extends;
    ReactionKeeps(w, setting, turn);
    ReadyBefore(w, setting, turn);
    var k, b := Handled(w, turn), Before(w, turn, setting);
    var (c, output) := Reaction(w, turn, setting);
    ReportedDelivery(b, EventOf(w), BusEventOf(w).payload, turn.answer, setting.faults);
    var owner := b.copies[output.delivery].consumer;
    ReadyRuns(k.services, b, B.Sub(b.records[BusEventOf(w).payload.routing].destination, owner));
    AcceptedOne(k, b, c, setting.routes, owner);
    BoundaryFrame(Brokered(w, setting, turn));
    HandledExtends(w, turn);
    HandledNext(w, turn);
  }

  lemma ReadyRuns(services: map<K.Owner, K.Service>, b: B.Bus, s: B.Sub)
    requires ReadyOk(services, b) && s in b.ready
    ensures Runs(services, s.consumer)
  {}

  lemma HandledNext(w: World, turn: Turn)
    requires Going(w) && KF.Extends(K.Started(w.kernel, EventOf(w)), Handled(w, turn))
    ensures w.kernel.next <= Handled(w, turn).next
  {
    hide Handled;
  }

  lemma IssuedBefore(k: K.Kernel, e: Event<K.Payload>)
    requires KI.Good(k) && k.next <= e.sequence
    ensures e !in k.pending
  {
    GoodEvents(k);
    hide KI.Good;
    forall x | x in k.pending ensures x.sequence < k.next { assert KI.EventOk(k.next, k.now, x); }
  }

  /**
   * A delivery that the broker reports finds its service running, and becomes consumer work of the current process
   * generation in the same dispatch.
   */
  lemma DeliveriesAreAccepted(run: seq<World>, setting: Setting, turns: seq<Turn>, i: nat)
    requires IsRun(run, setting, turns) && i < |turns| && CanReact(run[i], turns[i], setting)
    requires Reaction(run[i], turns[i], setting).1.Delivered? && Handled(run[i], turns[i]).failure.None?
    ensures var (c, output) := Reaction(run[i], turns[i], setting);
      && i + 1 < |run| && output.delivery < |c.copies|
      && var owner := c.copies[output.delivery].consumer;
         && Runs(run[i + 1].kernel.services, owner)
         && exists e :: e in run[i + 1].kernel.pending && e !in run[i].kernel.pending
              && e.time == run[i + 1].kernel.now
              && e.payload == K.Consumer(owner, run[i + 1].kernel.services[owner].generation)
  {
    hide IsRun, KI.Good, BrokerOk, DataOk, Handled, RoutesOk, SubmitOk, TakesPart, DatabasesTakePart, After, Reaction;
    StepOf(run, setting, turns, i);
    RunKeeps(run, setting, turns, i);
    DeliveryAccepted(run[i], setting, turns[i]);
    var (c, output) := Reaction(run[i], turns[i], setting);
    var n := run[i + 1].kernel;
    var owner := c.copies[output.delivery].consumer;
    var e :| e in n.pending && run[i].kernel.next <= e.sequence && e.time == n.now
        && e.payload == K.Consumer(owner, n.services[owner].generation);
    IssuedBefore(run[i].kernel, e);
  }

  /** The kernel's part of a step is a dispatch. */
  lemma KernelSteps(w: World, setting: Setting, turn: Turn, n: World) returns (env: K.Env)
    requires WorldOk(w, setting) && Follows(w, setting, turn, n)
    ensures n.kernel == K.Dispatch(w.kernel, env) && env(w.kernel.processed).choice == turn.choice
  {
    hide KI.Good, BrokerOk, DataOk, Handled, SubmitOk, RoutesOk, TakesPart, DatabasesTakePart, K.Dispatch, K.Brokered;
    hide K.Boundary;
    var failed := Handled(w, turn).failure.Some?;
    var work := if failed then K.BrokerWork({}, [], []) else Work(w, setting, turn);
    env := _ => K.Reaction(turn.choice, work);
    StepIsDispatch(w, setting, turn, K.Reaction(turn.choice, work));
    if failed { FailedStays(Handled(w, turn), work); }
  }

  lemma FailedStays(k: K.Kernel, work: K.BrokerWork)
    requires k.failure.Some?
    ensures K.Boundary(K.Brokered(k, work)) == k
  {}

  /** The step takes the event `e` and runs the work it stands for. */
  ghost predicate ServedHere(w: World, turn: Turn, n: World, e: Event<K.Payload>) {
    Going(w) && EventOf(w) == e && KA.Served(w.kernel, n.kernel, e, turn.choice)
  }

  lemma StepServes(w: World, setting: Setting, turn: Turn, n: World, e: Event<K.Payload>)
    requires WorldOk(w, setting) && Follows(w, setting, turn, n)
    requires e in w.kernel.pending && KP.StartsWork(e.payload) && !e.payload.Background?
    ensures e in n.kernel.pending || ServedHere(w, turn, n, e)
  {
    hide KI.Good, KI.Inv, BrokerOk, DataOk, Handled, SubmitOk, RoutesOk, TakesPart, DatabasesTakePart, After;
    hide K.Dispatch, KA.Served;
    var env := KernelSteps(w, setting, turn, n);
    KT.GoodIsInv(w.kernel);
    if e == EventOf(w) { KA.IsServed(w.kernel, env); } else { KA.NothingElseIsCancelled(w.kernel, env, e); }
  }

  /** Endpoint work, consumer work and client actions stay pending until a step takes them and runs their work. */
  lemma {:induction false} WorkIsServed(run: seq<World>, setting: Setting, turns: seq<Turn>, i: nat, j: nat,
                                        e: Event<K.Payload>)
    requires IsRun(run, setting, turns) && i <= j < |run| && e in run[i].kernel.pending
    requires KP.StartsWork(e.payload) && !e.payload.Background?
    ensures e in run[j].kernel.pending
         || exists k: nat :: i <= k < j && k + 1 < |run| && k < |turns| && ServedHere(run[k], turns[k], run[k + 1], e)
    decreases j
  {
    hide IsRun, Follows, WorldOk, ServedHere;
    if i < j {
      WorkIsServed(run, setting, turns, i, j - 1, e);
      RunLength(run, setting, turns);
      if e in run[j - 1].kernel.pending {
        StepOf(run, setting, turns, j - 1);
        RunKeeps(run, setting, turns, j - 1);
        StepServes(run[j - 1], setting, turns[j - 1], run[j - 1 + 1], e);
      }
    }
  }

  lemma RunLength(run: seq<World>, setting: Setting, turns: seq<Turn>)
    requires IsRun(run, setting, turns)
    ensures |run| == |turns| + 1
  {}

  /**
   * A delivery that the broker reports is consumed: it becomes one consumer event of its service's current process
   * generation, which stays pending until it is dispatched; if the service still has that generation then, its handler
   * runs in that dispatch, and in a completed run it was dispatched.
   */
  lemma DeliveriesAreServed(run: seq<World>, setting: Setting, turns: seq<Turn>, i: nat, j: nat)
    requires IsRun(run, setting, turns) && i < |turns| && CanReact(run[i], turns[i], setting)
    requires Reaction(run[i], turns[i], setting).1.Delivered? && Handled(run[i], turns[i]).failure.None?
    requires i < j < |run|
    ensures var (c, output) := Reaction(run[i], turns[i], setting);
      && i + 1 < |run| && output.delivery < |c.copies|
      && var owner := c.copies[output.delivery].consumer;
         && Runs(run[i + 1].kernel.services, owner)
         && exists e :: e in run[i + 1].kernel.pending && e !in run[i].kernel.pending
              && e.time == run[i + 1].kernel.now
              && e.payload == K.Consumer(owner, run[i + 1].kernel.services[owner].generation)
              && (e in run[j].kernel.pending
                  || exists k: nat :: i < k < j && k + 1 < |run| && k < |turns|
                       && ServedHere(run[k], turns[k], run[k + 1], e))
  {
    hide IsRun, CanReact, Reaction, Handled, Runs, ServedHere;
    DeliveriesAreAccepted(run, setting, turns, i);
    var (c, output) := Reaction(run[i], turns[i], setting);
    var n := run[i + 1].kernel;
    var owner := c.copies[output.delivery].consumer;
    assert owner in n.services by { RunsHere(n.services, owner); }
    var e :| e in n.pending && e !in run[i].kernel.pending && e.time == n.now
        && e.payload == K.Consumer(owner, n.services[owner].generation);
    WorkIsServed(run, setting, turns, i + 1, j, e);
  }

  lemma RunsHere(services: map<K.Owner, K.Service>, owner: K.Owner)
    requires Runs(services, owner)
    ensures owner in services
  {}

  // ---------- Answers ----------

  /** The record of this delivery has ended its attempt as the consumer answered. */
  predicate EndedBy(before: B.Bus, after: B.Bus, delivery: nat, outcome: B.Outcome)
    requires delivery < |before.copies| && before.copies[delivery].routing < |before.records|
  {
    var i := before.copies[delivery].routing;
    var r := before.records[i];
    && i < |after.records| && r.destination in before.destinations
    && after.records[i].state ==
         (if outcome == B.AckIt then B.ACKED
          else if r.attempt < before.destinations[r.destination].maxAttempts then B.RETRY else B.DEAD)
  }

  lemma OpenAnswerCounts(b: B.Bus, answer: Answer)
    requires BI.Inv(b) && B.Routed(b) && BD.Speaks(b, answer.delivery) && b.copies[answer.delivery].delivered
    ensures EndedBy(b, Answered(b, Some(answer)), answer.delivery, answer.outcome)
  {
    hide BI.Inv, B.Acknowledge;
    BD.OpenAnswerEnds(b, answer.delivery, answer.outcome);
  }

  lemma AdmittedFirst(b: B.Bus, operation: nat, destination: string, answer: Answer)
    requires BI.Inv(b) && B.Routed(b) && BD.Speaks(b, answer.delivery) && b.copies[answer.delivery].delivered
    ensures var c := B.Admit(b, operation, destination).0;
      B.Routed(c) && EndedBy(b, Answered(c, Some(answer)), answer.delivery, answer.outcome)
  {
    hide BI.Inv, B.Acknowledge, B.Fits, B.NewRecords, B.ScheduleDispatch, Answered;
    AdmittedKeeps(b, operation, destination);
    BT.AdmitKeeps(b, operation, destination);
    BD.AdmitCopies(b, operation, destination);
    if destination in b.destinations { BT.ScheduleDispatchFrame(B.Enqueue(b, destination)); }
    OpenAnswerCounts(B.Admit(b, operation, destination).0, answer);
  }

  lemma ReactionAnswers(w: World, setting: Setting, turn: Turn)
    requires KI.Good(w.kernel) && BrokerOk(w.kernel, w.bus, setting.routes) && Going(w)
    requires Handled(w, turn).failure.None? && RoutesOk(Handled(w, turn), w.bus, setting.routes)
    requires CanReact(w, turn, setting) && turn.answer.Some?
    requires !KF.Transits(EventOf(w).payload) && !EventOf(w).payload.Broker?
    requires BD.Speaks(w.bus, turn.answer.value.delivery) && w.bus.copies[turn.answer.value.delivery].delivered
    ensures EndedBy(w.bus, Reaction(w, turn, setting).0, turn.answer.value.delivery, turn.answer.value.outcome)
  {
    hide KI.Good, BrokerOk, Handled, RoutesOk, BI.Core, BI.Inv, B.Admit, B.RunHandler, Answered, A.Ready, Synced;
    SyncedKeeps(w, setting, turn);
    var b, p := Before(w, turn, setting), BusEventOf(w).payload;
    assert !BF.IsOwn(p);
    if p.Admission? {
      AdmittedFirst(b, p.operation, p.destination, turn.answer.value);
    } else {
      OpenAnswerCounts(b, turn.answer.value);
    }
  }

  /**
   * What a consumer answers when its work is done reaches the broker: an answer to a delivery that was handed over and
   * whose attempt is still in flight acknowledges the message, or has it retried while attempts are left.
   */
  lemma AnswersEndAttempts(run: seq<World>, setting: Setting, turns: seq<Turn>, i: nat)
    requires IsRun(run, setting, turns) && i < |turns| && run[i].kernel.pending != {}
    requires Handled(run[i], turns[i]).failure.None? && turns[i].answer.Some?
    requires !KF.Transits(EventOf(run[i]).payload) && !EventOf(run[i]).payload.Broker?
    requires BD.Speaks(run[i].bus, turns[i].answer.value.delivery)
    requires run[i].bus.copies[turns[i].answer.value.delivery].delivered
    ensures i + 1 < |run|
        && EndedBy(run[i].bus, run[i + 1].bus, turns[i].answer.value.delivery, turns[i].answer.value.outcome)
  {
    hide IsRun, KI.Good, BrokerOk, DataOk, Handled, RoutesOk, SubmitOk, DatabasesTakePart, Reaction, CanReact;
    RunLength(run, setting, turns);
    StepOf(run, setting, turns, i);
    RunKeeps(run, setting, turns, i);
    ReactionAnswers(run[i], setting, turns[i]);
  }

  /** No service that runs could take this record. */
  ghost predicate NobodyRuns(services: map<K.Owner, K.Service>, b: B.Bus, r: B.Routing) {
    if r.subscriber.Some? then !Runs(services, r.subscriber.value)
    else forall k :: 0 <= k < |B.SubscribersOf(b, r.destination)| ==>
        !Runs(services, B.SubscribersOf(b, r.destination)[k])
  }

  /**
   * A run that completes is done: no task is left, every message was acknowledged, is a dead letter, or is queued for
   * services none of which runs, no consumer is reserved, and no database has a commit left to decide.
   */
  lemma CompletedRunIsDone(run: seq<World>, setting: Setting, turns: seq<Turn>, i: nat)
    requires IsRun(run, setting, turns) && i < |run| && run[i].kernel.completed && run[i].kernel.failure.None?
    ensures var w := run[i];
      && w.kernel.tasks == map[] && w.bus.reserved == {}
      && (forall r :: r in w.bus.records ==>
            r.state == B.ACKED || r.state == B.DEAD || (r.state == B.QUEUED && NobodyRuns(w.kernel.services, w.bus, r)))
      && (forall o :: o in w.databases ==> w.databases[o].pending == map[])
  {
    hide IsRun, KI.Inv, KI.Lasting, BrokerOk, DataOk;
    RunKeeps(run, setting, turns, i);
    var w := run[i];
    KD.EmptyMeansIdle(w.kernel);
    QuietBroker(w, setting);
    forall o | o in w.databases ensures w.databases[o].pending == map[] { QuietDatabase(w, setting, o); }
  }

  lemma QuietBroker(w: World, setting: Setting)
    requires BrokerOk(w.kernel, w.bus, setting.routes) && w.kernel.pending == {}
    ensures w.bus.reserved == {}
    ensures forall r :: r in w.bus.records ==>
      r.state == B.ACKED || r.state == B.DEAD || (r.state == B.QUEUED && NobodyRuns(w.kernel.services, w.bus, r))
  {
    hide BI.NoLostWakeup;
    assert w.bus.pending == {} by {
      forall g ensures g !in w.bus.pending {
        if g in w.bus.pending { var e := A.HasCounterpart(w.kernel.pending, w.bus.pending, setting.routes, g); }
      }
    }
    BT.QuietBusIsDone(w.bus);
    forall i: nat | i < |w.bus.records| ensures RestsForGood(w, w.bus.records[i]) { RestingRecord(w, i); }
  }

  ghost predicate RestsForGood(w: World, r: B.Routing) {
    r.state == B.ACKED || r.state == B.DEAD || (r.state == B.QUEUED && NobodyRuns(w.kernel.services, w.bus, r))
  }

  lemma RestingRecord(w: World, i: nat)
    requires BI.Core(w.bus, None) && ReadyOk(w.kernel.services, w.bus) && i < |w.bus.records|
    requires BT.AtRest(w.bus, w.bus.records[i])
    ensures RestsForGood(w, w.bus.records[i])
  {
    hide BI.ReservationsOk, BI.DeadOk, BI.CapacityOk, BI.CopiesOk, BI.EventsOk, BI.TimersOk, BI.OrderOk;
    var r := w.bus.records[i];
    assert BI.RecordOk(w.bus.destinations, w.bus.subscribers, r);
    var subs := B.SubscribersOf(w.bus, r.destination);
    forall k | 0 <= k < |subs|
      ensures B.Sub(r.destination, subs[k]) in w.bus.ready <==> Runs(w.kernel.services, subs[k])
    {
      assert subs[k] in subs;
    }
    if r.subscriber.Some? {
      assert B.Sub(r.destination, r.subscriber.value) in w.bus.ready <==>
          IsReady(w.kernel.services, w.bus.subscribers, B.Sub(r.destination, r.subscriber.value));
    }
  }

  lemma QuietDatabase(w: World, setting: Setting, o: K.Owner)
    requires DataOk(w, setting) && w.kernel.pending == {} && o in w.databases
    ensures w.databases[o].pending == map[]
  {
    hide C.Serves, DatabasesOk;
    DataHere(w, setting, o);
    NoCommitLeft(w.kernel);
    LinkedToNothing(w.kernel.commits, w.kernel.services[o].generation, o, setting.schemas[o], w.databases[o]);
  }

  lemma NoCommitLeft(k: K.Kernel)
    requires CommitEventsOk(k) && k.pending == {}
    ensures k.commits == map[]
  {
    assert forall p :: !KI.Awaited({}, p);
    assert k.commits.Keys == {};
  }

  lemma LinkedToNothing(commits: C.Commits, generation: nat, o: K.Owner, schema: D.Schema, db: D.Db)
    requires C.Serves(commits, generation, o, schema, db) && commits == map[]
    ensures db.pending == map[]
  {
    hide T.Inv;
    forall op: nat ensures op !in db.pending { assert C.SameCommit(commits, o, db, op); }
  }

  /**
   * In every reachable world each transaction that is open or waits for its commit belongs to the current process
   * generation of its service: a crash leaves nothing behind in the database, and nothing of the ended process comes
   * back.
   */
  lemma TransactionsAreCurrent(run: seq<World>, setting: Setting, turns: seq<Turn>, i: nat, o: K.Owner)
    requires IsRun(run, setting, turns) && i < |run| && run[i].kernel.failure.None? && o in run[i].databases
    ensures o in run[i].kernel.services && D.Handles(run[i].databases[o])
    ensures forall generation: nat :: T.Involves(run[i].databases[o], generation) ==>
        generation == run[i].kernel.services[o].generation
  {
    hide IsRun, KI.Good, BrokerOk, C.Serves, T.Involves, DataOk;
    RunKeeps(run, setting, turns, i);
    var w := run[i];
    DataHere(w, setting, o);
    ServingHandles(w.kernel.commits, w.kernel.services[o].generation, o, setting.schemas[o], w.databases[o]);
    forall op | op in w.kernel.commits && w.kernel.commits[op].owner == o
      ensures w.kernel.commits[op].generation == w.kernel.services[o].generation
    {
      KT.GoodIsInv(w.kernel);
      CommitsAreCurrent(w.kernel, op);
    }
    forall generation: nat | T.Involves(w.databases[o], generation)
      ensures generation == w.kernel.services[o].generation
    {
      InvolvedIsCurrent(w.kernel.commits, w.kernel.services[o].generation, o, setting.schemas[o], w.databases[o],
                        generation);
    }
  }

  lemma InvolvedIsCurrent(commits: C.Commits, current: nat, o: K.Owner, schema: D.Schema, db: D.Db, generation: nat)
    requires C.Serves(commits, current, o, schema, db) && D.Handles(db) && T.Involves(db, generation)
    requires forall op :: op in commits && commits[op].owner == o ==> commits[op].generation == current
    ensures generation == current
  {
    hide T.Inv;
    if T.InvolvesIn(db.pending, db.txs, generation) {
      var op :| op in db.pending && db.txs[db.pending[op]].task.generation == generation;
      assert C.SameCommit(commits, o, db, op);
    }
  }
}
