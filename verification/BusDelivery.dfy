/**
 * What becomes of a delivery: when a copy that arrives is handed to its consumer, and that the consumer's answer then
 * settles its record or fails the attempt. Over any run, exactly the answers to deliveries that were handed over and
 * whose attempt is still open count.
 */
module BusDelivery {
  import opened Outcomes
  import opened Scheduler
  import opened BusModel
  import opened BusInvariants
  import opened BusTheorems

  // ---------- How an attempt ends ----------

  /** From `b` to `c` only record `i` changed, and the consumer it was in flight to is free again. */
  ghost predicate EndsOnly(b: Bus, c: Bus, i: nat) {
    && i < |b.records| && b.records[i].consumer.Some? && SubOf(b.records[i]) !in c.reserved
    && |c.records| == |b.records| && c.records == b.records[i := c.records[i]] && c.copies == b.copies
    && c.records[i].attempt == b.records[i].attempt && c.records[i].settled
  }

  /** The attempt of record `i` succeeded. */
  ghost predicate Succeeds(b: Bus, c: Bus, i: nat) {
    EndsOnly(b, c, i) && c.records[i].state == ACKED && c.dead == b.dead
  }

  /** The attempt failed: it is retried after the delay while attempts are left, or a dead letter tells why. */
  ghost predicate Fails(b: Bus, c: Bus, i: nat, reason: FailureReason) {
    && EndsOnly(b, c, i) && b.records[i].destination in b.destinations
    && var r, d := b.records[i], b.destinations[b.records[i].destination];
       if r.attempt < d.maxAttempts then
         && c.records[i].state == RETRY && c.dead == b.dead
         && exists e :: e in c.pending && e.payload == Retry(i) && e.time == b.now + d.retryDelay
       else c.records[i].state == DEAD && c.dead == b.dead + [DeadLetter(i, d.maxAttempts, reason, r.consumer)]
  }

  lemma FailOnceFails(b: Bus, i: nat, reason: FailureReason, fromTimeout: bool)
    requires i < |b.records| && b.records[i].state == IN_FLIGHT && RecordOk(b.destinations, b.subscribers, b.records[i])
    ensures Fails(b, Fail(b, i, reason, fromTimeout), i, reason)
  {
    hide KindOf, FirstReservable;
    Freed(b, b.records[i], fromTimeout);
    var r, d := b.records[i], b.destinations[b.records[i].destination];
    if r.attempt < d.maxAttempts {
      assert Event(b.now + d.retryDelay, b.next, KindOf(Retry(i)), Retry(i)) in Fail(b, i, reason, fromTimeout).pending;
    }
  }

  lemma ThenDispatches(b: Bus, c: Bus, i: nat, reason: FailureReason)
    requires Fails(b, c, i, reason)
    ensures Fails(b, ScheduleDispatch(c), i, reason)
  {
    hide FirstReservable, KindOf;
    assert c.pending <= ScheduleDispatch(c).pending;
  }

  lemma FailRecordFails(b: Bus, i: nat, reason: FailureReason, fromTimeout: bool)
    requires i < |b.records| && b.records[i].state == IN_FLIGHT && RecordOk(b.destinations, b.subscribers, b.records[i])
    ensures Fails(b, FailRecord(b, i, reason, fromTimeout), i, reason)
  {
    hide Fails, Fail, ScheduleDispatch;
    FailOnceFails(b, i, reason, fromTimeout);
    ThenDispatches(b, Fail(b, i, reason, fromTimeout), i, reason);
  }

  lemma AckSucceeds(b: Bus, i: nat)
    requires i < |b.records| && b.records[i].state == IN_FLIGHT && RecordOk(b.destinations, b.subscribers, b.records[i])
    ensures Succeeds(b, Ack(b, i), i)
  {
    hide KindOf, FirstReservable;
    Freed(b, b.records[i], false);
    ScheduleDispatchFrame(Settle(b, i));
  }

  lemma RecordHere(b: Bus, hole: Option<BusEvent>, i: nat)
    requires Core(b, hole) && i < |b.records|
    ensures RecordOk(b.destinations, b.subscribers, b.records[i])
  {
    hide ReservationsOk, DeadOk, CapacityOk, CopiesOk, EventsOk, TimersOk, OrderOk, ConfigOk, RecordOk;
  }

  // ---------- What an attempt sends ----------

  /** The copy belongs to the attempt that record `i` is in flight in, to its consumer, and was not handed over yet. */
  predicate CopyOfAttempt(c: Bus, i: nat, k: nat, dropped: bool) {
    && i < |c.records| && k < |c.copies|
    && c.copies[k].routing == i && c.copies[k].attempt == c.records[i].attempt
    && Some(c.copies[k].consumer) == c.records[i].consumer
    && c.copies[k].dropped == dropped && !c.copies[k].delivered
  }

  /**
   * A reservation puts its record in flight for one more attempt, to a consumer that was free and is reserved now, and
   * each copy of that attempt goes to that consumer and arrives at its own time.
   */
  lemma AttemptSendsCopies(b: Bus, i: nat, faults: FaultPort)
    requires Routed(b) && i < |b.records| && CanReserve(b, i)
    ensures var c := ReserveRecord(b, i, faults);
      && |c.records| == |b.records| && c.records == b.records[i := c.records[i]] && b.copies <= c.copies
      && var r := c.records[i];
         && r.state == IN_FLIGHT && r.attempt == b.records[i].attempt + 1 && !r.settled && r.consumer.Some?
         && (r.subscriber.Some? ==> r.consumer == r.subscriber)
         && Available(b, SubOf(r)) && c.reserved == b.reserved + {SubOf(r)}
         && var d := faults(i, r.attempt, r.consumer.value);
            forall k: nat :: |b.copies| <= k < |c.copies| ==>
              && CopyOfAttempt(c, i, k, d.drop)
              && var first := b.now + b.destinations[b.records[i].destination].deliveryDelay + d.extraDelay;
                 ArrivesAt(c.pending, i, k, first + (k - |b.copies|) * d.copySpacing)
  {
    var s := Select(b, i);
    var d := faults(i, b.records[i].attempt + 1, s.consumer);
    var taken := TakeReservation(b, i, s.consumer, s.cursor, d);
    ReserveIsScheduled(b, i, s.consumer, s.cursor, d);
    var c := ReserveRecord(b, i, faults);
    var copy := Copy(i, b.records[i].attempt + 1, s.consumer, d.drop, false);
    var arrival := b.now + b.destinations[b.records[i].destination].deliveryDelay + d.extraDelay;
    hide ScheduleCopies, Reserve, ScanQueue;
    forall k: nat | |b.copies| <= k < |c.copies|
      ensures CopyOfAttempt(c, i, k, d.drop)
      ensures ArrivesAt(c.pending, i, k, arrival + (k - |b.copies|) * d.copySpacing)
    {
      assert CopyArrival(taken, copy, arrival, d.copySpacing, 0, k - |b.copies|) in c.pending;
    }
  }

  ghost predicate ArrivesAt(pending: set<Event<BusEvent>>, i: nat, k: nat, time: int) {
    exists e :: e in pending && e.payload == Arrival(i, k) && e.time == time
  }

  // ---------- What each event of the bus does ----------

  /** The copy is not dropped and speaks for the attempt its record is in flight in. */
  predicate Speaks(b: Bus, delivery: nat) {
    && delivery < |b.copies| && !b.copies[delivery].dropped && b.copies[delivery].routing < |b.records|
    && var r := b.records[b.copies[delivery].routing];
       r.state == IN_FLIGHT && r.attempt == b.copies[delivery].attempt
  }

  lemma SpeakingIsOpen(b: Bus, hole: Option<BusEvent>, delivery: nat)
    requires Core(b, hole)
    ensures Speaks(b, delivery) <==> delivery < |b.copies| && !b.copies[delivery].dropped && Open(b, delivery)
  {
    hide Core;
    if delivery < |b.copies| && b.copies[delivery].routing < |b.records| {
      RecordHere(b, hole, b.copies[delivery].routing);
    }
  }

  lemma ArrivalIsKnown(b: Bus, e: Event<BusEvent>)
    requires Core(b, None) && e in b.pending && e.payload.Arrival?
    ensures e.payload.delivery < |b.copies| && b.copies[e.payload.delivery].routing == e.payload.routing
    ensures e.payload.routing < |b.records|
  {
    hide ConfigOk, RecordsOk, ReservationsOk, DeadOk, CapacityOk, TimersOk, OrderOk;
    assert EventOk(b.destinations, b.copies, b.next, b.now, e);
    assert CopyOk(b.subscribers, b.records, b.copies[e.payload.delivery]);
  }

  /**
   * A copy that arrives is handed to its consumer exactly when it speaks for the current attempt and the consumer is
   * ready. If it speaks but the consumer is not ready the attempt fails; a dropped or late copy changes nothing.
   */
  lemma ArrivalIsHandedOver(b: Bus, faults: FaultPort)
    requires Inv(b) && Routed(b) && b.pending != {} && Least(b.pending).payload.Arrival?
    ensures var e := Least(b.pending);
      var i, delivery, taken := e.payload.routing, e.payload.delivery, b.(pending := b.pending - {e}, now := e.time);
      var (c, output) := Apply(b, DispatchNext, faults);
      && delivery < |b.copies| && i < |b.records|
      && var ready := Sub(b.records[i].destination, b.copies[delivery].consumer) in b.ready;
         if !Speaks(b, delivery) then c == taken && output == Silent
         else if !ready then Fails(taken, c, i, Unavailable) && output == Silent
         else
           && output == Delivered(delivery) && c == taken.(copies := c.copies)
           && c.copies == b.copies[delivery := b.copies[delivery].(delivered := true)]
  {
    var e := Least(b.pending);
    ArrivalIsKnown(b, e);
    SpeakingIsOpen(b, None, e.payload.delivery);
    RecordHere(b, None, e.payload.routing);
    hide Inv, RecordOk, FailRecord, IsLeast;
    if Speaks(b, e.payload.delivery) { FailRecordFails(Take(b, e), e.payload.routing, Unavailable, false); }
  }

  /** A timeout that is dispatched finds its attempt still in flight, and fails it. */
  lemma TimeoutFails(b: Bus, faults: FaultPort)
    requires Inv(b) && Routed(b) && b.pending != {} && Least(b.pending).payload.Timeout?
    ensures var e := Least(b.pending);
      var i, c := e.payload.routing, Apply(b, DispatchNext, faults).0;
      && i < |b.records| && b.records[i].state == IN_FLIGHT && b.records[i].attempt == e.payload.attempt
      && Fails(b.(pending := b.pending - {e}, now := e.time), c, i, TimedOut)
  {
    var e := Least(b.pending);
    TakeLeastKeeps(b, e);
    RecordHere(b, None, e.payload.routing);
    InFlightIsUnsettled(b, e.payload.routing);
    hide Inv, RecordOk, FailRecord, IsLeast, Core;
    FailRecordFails(Take(b, e), e.payload.routing, TimedOut, true);
  }

  lemma InFlightIsUnsettled(b: Bus, i: nat)
    requires i < |b.records| && b.records[i].state == IN_FLIGHT && RecordOk(b.destinations, b.subscribers, b.records[i])
    ensures !b.records[i].settled
  {}

  /** A retry that is dispatched puts its record back in the queue for a further attempt, and changes no other. */
  lemma RetryQueues(b: Bus, faults: FaultPort)
    requires Inv(b) && Routed(b) && b.pending != {} && Least(b.pending).payload.Retry?
    ensures var i, c := Least(b.pending).payload.routing, Apply(b, DispatchNext, faults).0;
      && i < |b.records| && b.records[i].state == RETRY && |c.records| == |b.records|
      && c.records[i].state == QUEUED && c.records[i].attempt == b.records[i].attempt && !c.records[i].settled
      && c.records[i].messageId == b.records[i].messageId && c.records[i].destination == b.records[i].destination
      && c.records[i].subscriber == b.records[i].subscriber && c.records == b.records[i := c.records[i]]
      && (CanReserve(c, i) ==> c.dispatchPending)
  {
    var e := Least(b.pending);
    TakeLeastKeeps(b, e);
    RetryKeeps(Take(b, e), e.payload.routing);
    hide Core, RecordOk, IsLeast, CanReserve, ScheduleDispatch;
    ScheduleDispatchFrame(Requeue(Take(b, e), e.payload.routing));
  }

  /** Whatever the consumer answers to an open delivery that was handed over ends the attempt accordingly. */
  lemma OpenAnswerEnds(b: Bus, delivery: nat, outcome: Outcome)
    requires Inv(b) && Routed(b) && Speaks(b, delivery) && b.copies[delivery].delivered
    ensures var i, c := b.copies[delivery].routing, Acknowledge(b, delivery, outcome).0;
      if outcome == AckIt then Succeeds(b, c, i) else Fails(b, c, i, Nacked)
  {
    SpeakingIsOpen(b, None, delivery);
    var i := b.copies[delivery].routing;
    RecordHere(b, None, i);
    hide Inv, RecordOk, FailRecord, Ack, Fails, Succeeds;
    AckSucceeds(b, i);
    FailRecordFails(b, i, Nacked, false);
  }

  lemma SilentAnswer(b: Bus, delivery: nat, outcome: Outcome)
    requires Inv(b) && Routed(b) && !(Speaks(b, delivery) && b.copies[delivery].delivered)
    ensures Acknowledge(b, delivery, outcome).0 == b
  {
    SpeakingIsOpen(b, None, delivery);
    hide Inv;
  }

  /** A delivery that was just reported can be answered: an acknowledgement settles its record, a refusal fails it. */
  lemma ReportedDeliveryCounts(b: Bus, faults: FaultPort, outcome: Outcome)
    requires Inv(b) && Routed(b) && Apply(b, DispatchNext, faults).1.Delivered?
    ensures var (c, output) := Apply(b, DispatchNext, faults);
      && Inv(c) && Routed(c) && output.delivery < |c.copies|
      && var i, a := c.copies[output.delivery].routing, Apply(c, Acknowledged(output.delivery, outcome), faults).0;
         if outcome == AckIt then Succeeds(c, a, i) else Fails(c, a, i, Nacked)
  {
    var e := Least(b.pending);
    StepKeeps(b, DispatchNext, faults);
    var (c, output) := Apply(b, DispatchNext, faults);
    CoreIsRouted(c, None);
    OnlyArrivalsReport(b, faults);
    ArrivalIsHandedOver(b, faults);
    hide Inv, Apply, Acknowledge, IsLeast, Fails, Succeeds;
    StillSpeaks(b, c, e, output.delivery);
    OpenAnswerEnds(c, output.delivery, outcome);
    AnswerIsStep(c, output.delivery, outcome, faults);
  }

  lemma AnswerIsStep(c: Bus, delivery: nat, outcome: Outcome, faults: FaultPort)
    requires Routed(c)
    ensures Apply(c, Acknowledged(delivery, outcome), faults) == Acknowledge(c, delivery, outcome)
  {}

  lemma OnlyArrivalsReport(b: Bus, faults: FaultPort)
    requires Routed(b) && Apply(b, DispatchNext, faults).1.Delivered?
    ensures b.pending != {} && Least(b.pending).payload.Arrival?
  {
    hide DispatchAll, OnTimeout, OnRetry, Admit, IsLeast;
    if b.pending != {} && Least(b.pending).payload.Admission? {
      AdmitReports(Take(b, Least(b.pending)), Least(b.pending).payload);
    }
  }

  lemma AdmitReports(b: Bus, p: BusEvent)
    requires p.Admission?
    ensures !Admit(b, p.operation, p.destination).1.Delivered?
  {
    hide Enqueue, Fits, ScheduleDispatch;
  }

  lemma StillSpeaks(b: Bus, c: Bus, e: Event<BusEvent>, delivery: nat)
    requires Speaks(b, delivery) && c.records == b.records && delivery < |c.copies|
    requires c.copies == b.copies[delivery := b.copies[delivery].(delivered := true)]
    ensures Speaks(c, delivery) && c.copies[delivery].delivered
  {}

  // ---------- Over runs ----------

  /** The delivery that a step reports. */
  function ReportOf(output: Output): set<nat> {
    if output.Delivered? then {output.delivery} else {}
  }

  /** The deliveries that a run reports to their consumers. */
  ghost function Reported(b: Bus, steps: seq<Step>, faults: FaultPort): set<nat>
    requires Inv(b)
    decreases |steps|
  {
    if steps == [] then {}
    else
      CoreIsRouted(b, None);
      StepKeeps(b, steps[0], faults);
      ReportOf(Apply(b, steps[0], faults).1) + Reported(Apply(b, steps[0], faults).0, steps[1..], faults)
  }

  /** From `b` to `c` exactly the copies in `reported` were handed over, none of them dropped, and no copy is lost. */
  ghost predicate Marks(b: Bus, c: Bus, reported: set<nat>) {
    && |b.copies| <= |c.copies|
    && (forall d :: d in reported ==> d < |c.copies|)
    && (forall k: nat :: k < |c.copies| ==> MarkedAs(b, c, reported, k))
  }

  predicate MarkedAs(b: Bus, c: Bus, reported: set<nat>, k: nat)
    requires k < |c.copies|
  {
    && (c.copies[k].delivered <==> k in reported || (k < |b.copies| && b.copies[k].delivered))
    && (k < |b.copies| ==> c.copies[k].dropped == b.copies[k].dropped)
    && (k in reported ==> !c.copies[k].dropped)
  }

  lemma MarksTransitive(a: Bus, b: Bus, c: Bus, first: set<nat>, second: set<nat>)
    requires Marks(a, b, first) && Marks(b, c, second)
    ensures Marks(a, c, first + second)
  {
    forall k: nat | k < |c.copies| ensures MarkedAs(a, c, first + second, k) {
      assert MarkedAs(b, c, second, k);
      if k < |b.copies| { assert MarkedAs(a, b, first, k); }
    }
  }

  lemma NoneMarked(a: Bus, b: Bus, c: Bus)
    requires Marks(a, b, {}) && Marks(b, c, {})
    ensures Marks(a, c, {})
  {
    hide Marks;
    MarksTransitive(a, b, c, {}, {});
    var none: set<nat> := {};
    assert none + none == none;
  }

  /** Copies that are only added, none of them handed over yet. */
  lemma NothingMarked(b: Bus, c: Bus)
    requires b.copies <= c.copies && forall k :: |b.copies| <= k < |c.copies| ==> !c.copies[k].delivered
    ensures Marks(b, c, {})
  {}

  lemma {:induction false} DispatchAllMarks(b: Bus, faults: FaultPort)
    requires Routed(b)
    ensures Marks(b, DispatchAll(b, faults), {})
    decreases QueuedCount(b.records)
  {
    hide Marks, ReserveRecord, CanReserve;
    match FirstReservable(b, 0)
    case None => NothingMarked(b, b);
    case Some(i) =>
      ReserveShrinksQueue(b, i, faults);
      ReserveMarks(b, i, faults);
      DispatchAllMarks(ReserveRecord(b, i, faults), faults);
      NoneMarked(b, ReserveRecord(b, i, faults), DispatchAll(b, faults));
  }

  lemma ReserveMarks(b: Bus, i: nat, faults: FaultPort)
    requires Routed(b) && i < |b.records| && CanReserve(b, i)
    ensures Marks(b, ReserveRecord(b, i, faults), {})
  {
    var s := Select(b, i);
    ReserveIsScheduled(b, i, s.consumer, s.cursor, faults(i, b.records[i].attempt + 1, s.consumer));
    hide ScheduleCopies, Marks;
    NothingMarked(b, ReserveRecord(b, i, faults));
  }

  lemma FailCopies(b: Bus, i: nat, reason: FailureReason, fromTimeout: bool)
    requires i < |b.records| && b.records[i].destination in b.destinations
    ensures FailRecord(b, i, reason, fromTimeout).copies == b.copies
  {
    hide KindOf, ScheduleDispatch;
    Freed(b, b.records[i], fromTimeout);
    ScheduleDispatchFrame(Fail(b, i, reason, fromTimeout));
  }

  lemma AdmitCopies(b: Bus, operation: nat, destination: string)
    ensures Admit(b, operation, destination).0.copies == b.copies
  {
    hide ScheduleDispatch, Fits, NewRecords;
    if destination in b.destinations { ScheduleDispatchFrame(Enqueue(b, destination)); }
  }

  lemma HandlerMarks(b: Bus, p: BusEvent, faults: FaultPort)
    requires Routed(b)
    ensures Marks(b, RunHandler(b, p, faults).0, ReportOf(RunHandler(b, p, faults).1))
  {
    hide Marks, DispatchAll, FailRecord, Admit, ScheduleDispatch, Arrive;
    match p
    case Dispatch =>
      var c := b.(dispatchPending := false);
      NothingMarked(b, c);
      DispatchAllMarks(c, faults);
      NoneMarked(b, c, DispatchAll(c, faults));
    case Arrival(i, delivery) => ArriveMarks(b, i, delivery);
    case Timeout(i, attempt) =>
      if i < |b.records| { FailCopies(b, i, TimedOut, true); }
      NothingMarked(b, RunHandler(b, p, faults).0);
    case Retry(i) =>
      if i < |b.records| { ScheduleDispatchFrame(Requeue(b, i)); }
      NothingMarked(b, RunHandler(b, p, faults).0);
    case Admission(operation, destination) =>
      AdmitCopies(b, operation, destination);
      AdmitReports(b, p);
      NothingMarked(b, RunHandler(b, p, faults).0);
    case Foreign => NothingMarked(b, b);
  }

  lemma ArriveMarks(b: Bus, i: nat, delivery: nat)
    requires Routed(b)
    ensures Marks(b, Arrive(b, i, delivery).0, ReportOf(Arrive(b, i, delivery).1))
  {
    hide FailRecord, Open;
    if i < |b.records| && delivery < |b.copies| { FailCopies(b, i, Unavailable, false); }
    var c := Arrive(b, i, delivery).0;
    forall k: nat | k < |c.copies| ensures MarkedAs(b, c, ReportOf(Arrive(b, i, delivery).1), k) {}
  }

  lemma AnswerCopies(b: Bus, delivery: nat, outcome: Outcome)
    requires Routed(b)
    ensures Acknowledge(b, delivery, outcome).0.copies == b.copies && !Acknowledge(b, delivery, outcome).1.Delivered?
  {
    hide FailRecord, KindOf, ScheduleDispatch;
    if Open(b, delivery) {
      var i := b.copies[delivery].routing;
      FailCopies(b, i, Nacked, false);
      Freed(b, b.records[i], false);
      ScheduleDispatchFrame(Settle(b, i));
    }
  }

  lemma StepMarks(b: Bus, step: Step, faults: FaultPort)
    requires Routed(b)
    ensures Marks(b, Apply(b, step, faults).0, ReportOf(Apply(b, step, faults).1))
  {
    hide Marks, RunHandler, Acknowledge, ScheduleDispatch, IsLeast;
    var c := Apply(b, step, faults).0;
    match step
    case DispatchNext =>
      if b.pending != {} {
        var e := Least(b.pending);
        NothingMarked(b, Take(b, e));
        assert Routed(Take(b, e));
        HandlerMarks(Take(b, e), e.payload, faults);
        MarksTransitive(b, Take(b, e), c, {}, ReportOf(RunHandler(Take(b, e), e.payload, faults).1));
        assert {} + ReportOf(RunHandler(Take(b, e), e.payload, faults).1) == ReportOf(Apply(b, step, faults).1);
      } else {
        NothingMarked(b, c);
      }
    case Acknowledged(delivery, outcome) => AnswerCopies(b, delivery, outcome); NothingMarked(b, c);
    case ReadyChanged(consumer, ready) =>
      ScheduleDispatchFrame(b.(ready := set s | s in b.ready + ready
                               && (if s.consumer == consumer then s in ready else s in b.ready)));
      NothingMarked(b, c);
    case Publish(operation, destination) => NothingMarked(b, c);
    case OtherWork(delay) => NothingMarked(b, c);
  }

  lemma {:induction false} RunMarks(b: Bus, steps: seq<Step>, faults: FaultPort)
    requires Inv(b)
    ensures Marks(b, Run(b, steps, faults), Reported(b, steps, faults))
    decreases |steps|
  {
    if steps == [] {
      NothingMarked(b, b);
    } else {
      CoreIsRouted(b, None);
      hide Inv, Marks, Apply;
      StepKeeps(b, steps[0], faults);
      StepMarks(b, steps[0], faults);
      var (c, output) := Apply(b, steps[0], faults);
      RunMarks(c, steps[1..], faults);
      MarksTransitive(b, c, Run(b, steps, faults), ReportOf(output), Reported(c, steps[1..], faults));
    }
  }

  /**
   * Over any run, an answer counts exactly when its delivery was reported in that run and its attempt is still in
   * flight: it then settles the record or fails the attempt, and any other answer changes nothing.
   */
  lemma AnswersToReportsCount(b: Bus, steps: seq<Step>, faults: FaultPort, delivery: nat, outcome: Outcome)
    requires Initial(b)
    ensures Inv(b) && Routed(Run(b, steps, faults))
    ensures var c := Run(b, steps, faults);
      var a := Apply(c, Acknowledged(delivery, outcome), faults).0;
      if delivery in Reported(b, steps, faults) && Speaks(c, delivery) then
        var i := c.copies[delivery].routing;
        if outcome == AckIt then Succeeds(c, a, i) else Fails(c, a, i, Nacked)
      else a == c
  {
    InitialInv(b);
    RunIsRouted(b, steps, faults);
    hide Inv, Initial, Run, Reported, Acknowledge, Apply, Fails, Succeeds;
    RunMarks(b, steps, faults);
    var c := Run(b, steps, faults);
    AnswerIsStep(c, delivery, outcome, faults);
    InitialCopies(b);
    if delivery < |c.copies| { assert MarkedAs(b, c, Reported(b, steps, faults), delivery); }
    if delivery in Reported(b, steps, faults) && Speaks(c, delivery) {
      OpenAnswerEnds(c, delivery, outcome);
    } else {
      SilentAnswer(c, delivery, outcome);
    }
  }

  lemma InitialCopies(b: Bus)
    requires Initial(b)
    ensures b.copies == []
  {}
}
