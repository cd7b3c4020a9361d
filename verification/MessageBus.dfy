/**
 * The message bus object: the broker's mutable fields on top of the heap scheduler. Every method is proved to do to the
 * fields exactly what its step in `BusModel` does to the state.
 */
module MessageBus {
  import opened Outcomes
  import opened Scheduler
  import opened BusModel
  import opened BusInvariants
  import BusTheorems

  /** The sealed registry entries of the bus, all handled by the simulation itself. */
  const HANDLERS: map<string, string> := map[
    "kernel.message.admission" := "simulation", "kernel.message.dispatch" := "simulation",
    "kernel.message.arrival" := "simulation", "kernel.message.timeout" := "simulation",
    "kernel.message.retry" := "simulation", "model.work" := "simulation"]

  class DeterministicMessageBus {
    const destinations: map<string, Destination>
    const subscribers: map<string, seq<string>>
    const faults: FaultPort
    const scheduler: DeterministicScheduler<BusEvent>
    var ready: set<Sub>
    var records: seq<Routing>
    var copies: seq<Copy>
    var cursors: map<string, nat>
    var reserved: set<Sub>
    var dead: seq<DeadLetter>
    var messages: nat
    var dispatchPending: bool
    var now: nat

    ghost predicate Valid()
      reads this, scheduler
    {
      scheduler.Valid() && scheduler.handlers == HANDLERS
    }

    ghost function State(): Bus
      reads this, scheduler
    {
      Bus(destinations, subscribers, ready, records, copies, cursors, reserved, dead, messages, dispatchPending, now,
          scheduler.next, scheduler.Pending())
    }

    /** A sealed bus: destinations defined, consumers subscribed in order, nothing published. */
    constructor (runId: string, destinations: map<string, Destination>, subscribers: map<string, seq<string>>,
                 ready: set<Sub>,
                 faults: FaultPort, now: nat)
      ensures Valid() && fresh(scheduler) && this.faults == faults
      ensures State() == Bus(destinations, subscribers, ready, [], [], map[], {}, [], 0, false, now, 0, {})
    {
      this.destinations, this.subscribers, this.ready, this.faults, this.now :=
          destinations, subscribers, ready, faults, now;
      records, copies, cursors, reserved, dead, messages, dispatchPending := [], [], map[], {}, [], 0, false;
      scheduler := new DeterministicScheduler(runId, HANDLERS);
    }

    method Schedule(time: nat, payload: BusEvent) returns (id: EventId)
      requires Valid() && now <= time
      modifies scheduler
      ensures Valid() && id == old(scheduler.next)
      ensures State() == BusModel.Schedule(old(State()), time, payload)
    {
      hide DeterministicScheduler.Valid, DeterministicScheduler.Pending;
      var r := scheduler.Schedule(Draft(time, KindOf(payload), Some("simulation"), payload), now);
      id := r.value.eventId;
    }

    method SelectTopic(record: Routing) returns (consumer: Option<string>)
      requires Valid()
      ensures consumer == BusModel.SelectTopic(State(), record)
    {
      hide DeterministicScheduler.Valid, DeterministicScheduler.Pending;
      if record.subscriber.None? { return None; }
      var subs := if record.destination in subscribers then subscribers[record.destination] else [];
      var sub := Sub(record.destination, record.subscriber.value);
      if sub.consumer !in subs || sub in reserved || sub !in ready { return None; }
      consumer := Some(sub.consumer);
    }

    /** The moving-cursor scan over the consumers of a queue. */
    method SelectQueue(destination: string) returns (index: Option<nat>)
      requires Valid()
      ensures index == ScanQueue(State(), destination, 0)
    {
      hide DeterministicScheduler.Valid, DeterministicScheduler.Pending;
      var subs := if destination in subscribers then subscribers[destination] else [];
      if |subs| == 0 { return None; }
      var start := if destination in cursors then cursors[destination] else 0;
      for offset := 0 to |subs|
        invariant ScanQueue(State(), destination, 0) == ScanQueue(State(), destination, offset)
      {
        var at := (start + offset) % |subs|;
        var sub := Sub(destination, subs[at]);
        if sub in reserved || sub !in ready { continue; }
        return Some(at);
      }
      index := None;
    }

    method CanReserve(i: nat) returns (can: bool)
      requires Valid() && i < |records|
      ensures can <==> BusModel.CanReserve(State(), i)
    {
      hide DeterministicScheduler.Valid, DeterministicScheduler.Pending;
      if records[i].state != QUEUED { return false; }
      if records[i].subscriber.Some? {
        var consumer := SelectTopic(records[i]);
        can := consumer.Some?;
      } else {
        var index := SelectQueue(records[i].destination);
        can := index.Some?;
      }
    }

    /** Scans the records in publication order for the first one that can be reserved. */
    method FindReservable() returns (found: Option<nat>)
      requires Valid()
      ensures found == FirstReservable(State(), 0)
    {
      hide DeterministicScheduler.Valid, DeterministicScheduler.Pending;
      for i := 0 to |records|
        invariant FirstReservable(State(), 0) == FirstReservable(State(), i)
      {
        var can := CanReserve(i);
        if can { return Some(i); }
      }
      found := None;
    }

    method ScheduleDispatch()
      requires Valid()
      modifies this`dispatchPending, scheduler
      ensures Valid() && State() == BusModel.ScheduleDispatch(old(State()))
    {
      hide DeterministicScheduler.Valid, DeterministicScheduler.Pending;
      if dispatchPending { return; }
      var found := FindReservable();
      if found.None? { return; }
      dispatchPending := true;
      var id := Schedule(now, Dispatch);
    }

    /** Records each delivery copy and schedules its arrival, `spacing` apart. */
    method ScheduleCopies(copy: Copy, arrival: nat, spacing: nat, count: nat)
      requires Valid() && now <= arrival
      modifies this`copies, scheduler
      ensures Valid()
      ensures State() == BusModel.ScheduleCopies(old(State()), copy, arrival, spacing, 0, count)
    {
      hide DeterministicScheduler.Valid, DeterministicScheduler.Pending;
      for k := 0 to count
        invariant Valid()
        invariant BusModel.ScheduleCopies(State(), copy, arrival, spacing, k, count)
               == BusModel.ScheduleCopies(old(State()), copy, arrival, spacing, 0, count)
      {
        copies := copies + [copy];
        var id := Schedule(arrival + k * spacing, Arrival(copy.routing, |copies| - 1));
      }
    }

    /** Puts the record in flight and schedules its deadline, before any arrival of the same attempt. */
    method TakeReservation(i: nat, consumer: string, cursor: Option<nat>, decision: Decision)
      requires Valid() && i < |records| && records[i].destination in destinations
      modifies this`records, this`reserved, this`cursors, scheduler
      ensures Valid()
      ensures State() == BusModel.TakeReservation(old(State()), i, consumer, cursor, decision)
    {
      hide DeterministicScheduler.Valid, DeterministicScheduler.Pending;
      var record := records[i];
      var destination := destinations[record.destination];
      var attempt := record.attempt + 1;
      var arrival := now + destination.deliveryDelay + decision.extraDelay;
      var handle := Schedule(arrival + destination.ackTimeout, Timeout(i, attempt));
      records := records[i :=
                         record.(attempt := attempt, settled := false, state := IN_FLIGHT, consumer :=
                                 Some(consumer), deadline := Some(handle))];
      reserved := reserved + {Sub(record.destination, consumer)};
      if cursor.Some? { cursors := cursors[record.destination := cursor.value]; }
    }

    method Reserve(i: nat, consumer: string, cursor: Option<nat>)
      requires Valid() && i < |records| && records[i].destination in destinations
      modifies this`records, this`reserved, this`cursors, this`copies, scheduler
      ensures Valid()
      ensures State() == BusModel.Reserve(old(State()), i, consumer, cursor,
                                          faults(i, old(records)[i].attempt + 1, consumer))
    {
      hide DeterministicScheduler.Valid, DeterministicScheduler.Pending;
      var destination := destinations[records[i].destination];
      var attempt := records[i].attempt + 1;
      var decision := faults(i, attempt, consumer);
      var arrival := now + destination.deliveryDelay + decision.extraDelay;
      var count := if decision.drop then 1 else 1 + decision.additionalCopies;
      TakeReservation(i, consumer, cursor, decision);
      ScheduleCopies(Copy(i, attempt, consumer, decision.drop, false), arrival, decision.copySpacing, count);
    }

    /** Reserves the oldest record that can be reserved, if there is one. */
    method ReserveNext() returns (reservedOne: bool)
      requires Valid() && Routed(State())
      modifies this`records, this`reserved, this`cursors, this`copies, scheduler
      ensures Valid()
      ensures reservedOne <==> FirstReservable(old(State()), 0).Some?
      ensures State() == if reservedOne
          then ReserveRecord(old(State()), FirstReservable(old(State()), 0).value, faults) else old(State())
    {
      hide BusModel.Reserve, DeterministicScheduler.Valid, DeterministicScheduler.Pending;
      var found := FindReservable();
      if found.None? { return false; }
      var record := records[found.value];
      if record.subscriber.Some? {
        Reserve(found.value, record.subscriber.value, None);
      } else {
        var index := SelectQueue(record.destination);
        var subs := subscribers[record.destination];
        Reserve(found.value, subs[index.value], Some((index.value + 1) % |subs|));
      }
      reservedOne := true;
    }

    method OnDispatch()
      requires Valid() && Routed(State())
      modifies this`records, this`reserved, this`cursors, this`copies, this`dispatchPending, scheduler
      ensures Valid()
      ensures State() == DispatchAll(old(State()).(dispatchPending := false), faults)
    {
      hide DeterministicScheduler.Valid, DeterministicScheduler.Pending;
      dispatchPending := false;
      ghost var goal := DispatchAll(State(), faults);
      var more := true;
      while more
        invariant Valid() && Routed(State())
        invariant DispatchAll(State(), faults) == goal
        invariant !more ==> State() == goal
        decreases more, QueuedCount(records)
      {
        ghost var first := FirstReservable(State(), 0);
        if first.Some? { ReserveShrinksQueue(State(), first.value, faults); }
        more := ReserveNext();
      }
    }

    method Unreserve(record: Routing)
      requires Valid()
      modifies this`reserved
      ensures Valid() && State() == BusModel.Unreserve(old(State()), record)
    {
      hide DeterministicScheduler.Valid, DeterministicScheduler.Pending;
      if record.consumer.Some? { reserved := reserved - {Sub(record.destination, record.consumer.value)}; }
    }

    method CancelDeadline(record: Routing)
      requires Valid()
      modifies scheduler
      ensures Valid() && State() == BusModel.CancelDeadline(old(State()), record)
    {
      hide DeterministicScheduler.Valid, DeterministicScheduler.Pending;
      if record.deadline.Some? { var found := scheduler.Cancel(record.deadline.value); }
    }

    method Ack(i: nat)
      requires Valid() && i < |records|
      modifies this, scheduler
      ensures Valid() && State() == BusModel.Ack(old(State()), i)
    {
      hide DeterministicScheduler.Valid, DeterministicScheduler.Pending;
      var record := records[i];
      CancelDeadline(record);
      Unreserve(record);
      records := records[i := record.(settled := true, deadline := None, state := ACKED)];
      assert State() == Settle(old(State()), i);
      ScheduleDispatch();
    }

    /** The failure of a record in flight, up to the next dispatch. */
    method SettleFailed(i: nat, reason: FailureReason, fromTimeout: bool)
      requires Valid() && i < |records| && records[i].destination in destinations
      modifies this`records, this`reserved, this`dead, scheduler
      ensures Valid() && State() == BusModel.Fail(old(State()), i, reason, fromTimeout)
    {
      hide DeterministicScheduler.Valid, DeterministicScheduler.Pending;
      var record := records[i];
      var destination := destinations[record.destination];
      var exhausted := record.attempt >= destination.maxAttempts;
      if !fromTimeout { CancelDeadline(record); }
      Unreserve(record);
      records := records[i := record.(settled := true, deadline := None, state := if exhausted then DEAD else RETRY)];
      if exhausted {
        dead := dead + [DeadLetter(i, record.attempt, reason, record.consumer)];
      } else {
        var id := Schedule(now + destination.retryDelay, Retry(i));
      }
    }

    method Fail(i: nat, reason: FailureReason, fromTimeout: bool)
      requires Valid() && i < |records| && records[i].destination in destinations
      modifies this, scheduler
      ensures Valid() && State() == FailRecord(old(State()), i, reason, fromTimeout)
    {
      hide DeterministicScheduler.Valid, DeterministicScheduler.Pending;
      if records[i].state != IN_FLIGHT || records[i].settled { return; }
      SettleFailed(i, reason, fromTimeout);
      ScheduleDispatch();
    }

    method OnTimeout(i: nat, attempt: nat)
      requires Valid() && Routed(State())
      modifies this, scheduler
      ensures Valid() && State() == BusModel.OnTimeout(old(State()), i, attempt)
    {
      hide DeterministicScheduler.Valid, DeterministicScheduler.Pending;
      if i >= |records| || records[i].attempt != attempt || records[i].state != IN_FLIGHT || records[i].settled {
        return;
      }
      Fail(i, TimedOut, true);
    }

    method OnRetry(i: nat)
      requires Valid()
      modifies this, scheduler
      ensures Valid() && State() == BusModel.OnRetry(old(State()), i)
    {
      hide DeterministicScheduler.Valid, DeterministicScheduler.Pending;
      if i >= |records| || records[i].state != RETRY { return; }
      records := records[i := records[i].(state := QUEUED, consumer := None, settled := false)];
      assert State() == Requeue(old(State()), i);
      ScheduleDispatch();
    }

    method Arrive(i: nat, delivery: nat) returns (output: Output)
      requires Valid() && Routed(State())
      modifies this, scheduler
      ensures Valid() && (State(), output) == BusModel.Arrive(old(State()), i, delivery)
    {
      hide DeterministicScheduler.Valid, DeterministicScheduler.Pending;
      if i >= |records| || delivery >= |copies| || copies[delivery].routing != i {
        return Rejected(INVALID_EVENT_PAYLOAD);
      }
      var record, copy := records[i], copies[delivery];
      if copy.dropped { return Silent; }
      var open := record.state == IN_FLIGHT && record.attempt == copy.attempt && !record.settled;
      if !open { return Silent; }
      if Sub(record.destination, copy.consumer) !in ready {
        Fail(i, Unavailable, false);
        return Silent;
      }
      copies := copies[delivery := copy.(delivered := true)];
      output := Delivered(delivery);
    }

    /** A consumer answers a delivery. A copy that no longer speaks for the current attempt changes nothing. */
    method Acknowledge(delivery: nat, outcome: Outcome) returns (output: Output)
      requires Valid() && Inv(State())
      modifies this, scheduler
      ensures Routed(old(State()))
      ensures Valid() && Inv(State()) && (State(), output) == BusModel.Acknowledge(old(State()), delivery, outcome)
    {
      hide DeterministicScheduler.Valid, DeterministicScheduler.Pending;
      CoreIsRouted(State(), None);
      BusTheorems.AcknowledgeKeeps(State(), delivery, outcome);
      if delivery >= |copies| || copies[delivery].routing >= |records| { return Rejected(INVALID_DELIVERY); }
      var copy := copies[delivery];
      var record := records[copy.routing];
      var live := copy.delivered && !copy.dropped && record.state == IN_FLIGHT && record.attempt == copy.attempt
          && !record.settled;
      if !live { return Silent; }
      if outcome == AckIt { Ack(copy.routing); } else { Fail(copy.routing, Nacked, false); }
      output := Silent;
    }

    method CountActive(destination: string) returns (count: nat)
      ensures count == ActiveCount(records, destination)
    {
      hide DeterministicScheduler.Valid, DeterministicScheduler.Pending;
      count := 0;
      for i := 0 to |records|
        invariant count + ActiveCount(records[i..], destination) == ActiveCount(records, destination)
      {
        assert records[i..][1..] == records[i + 1..];
        if records[i].destination == destination && records[i].state != ACKED && records[i].state != DEAD {
          count := count + 1;
        }
      }
    }

    method Admit(operation: nat, destination: string) returns (output: Output)
      requires Valid()
      modifies this, scheduler
      ensures Valid() && (State(), output) == BusModel.Admit(old(State()), operation, destination)
    {
      hide DeterministicScheduler.Valid, DeterministicScheduler.Pending;
      if destination !in destinations { return Rejected(INVALID_MESSAGE_OPERATION); }
      var definition := destinations[destination];
      var subs := if destination in subscribers then subscribers[destination] else [];
      var recipients := if definition.kind == Topic then |subs| else 1;
      var active := CountActive(destination);
      if active + recipients > definition.capacity { return Completed(operation, Err(BUS_CAPACITY_EXCEEDED)); }
      var messageId := messages;
      messages := messages + 1;
      var created: seq<Routing> := [];
      if definition.kind == Topic {
        for k := 0 to |subs|
          invariant created == NewRecords(old(State()), destination)[..k]
        {
          created := created + [NewRecord(messageId, destination, Some(subs[k]))];
        }
      } else {
        created := [NewRecord(messageId, destination, None)];
      }
      records := records + created;
      assert State() == Enqueue(old(State()), destination);
      ScheduleDispatch();
      output := Completed(operation, Ok(messageId));
    }

    // ---------- The operations other components call; each keeps the bus invariant ----------

    method Publish(operation: nat, destination: string) returns (output: Output)
      requires Valid() && Inv(State())
      modifies scheduler
      ensures Valid() && Inv(State())
      ensures destination !in destinations ==> State() == old(State()) && output == Rejected(INVALID_MESSAGE_OPERATION)
      ensures destination in destinations ==>
        State() == BusModel.Schedule(old(State()), now, Admission(operation, destination)) && output == Silent
    {
      hide DeterministicScheduler.Valid, DeterministicScheduler.Pending;
      CoreIsRouted(State(), None);
      BusTheorems.StepKeeps(State(), Step.Publish(operation, destination), faults);
      if destination !in destinations { return Rejected(INVALID_MESSAGE_OPERATION); }
      var id := Schedule(now, Admission(operation, destination));
      output := Silent;
    }

    /** A component reports that its readiness may have changed. */
    method ConsumerChanged(consumer: string)
      requires Valid()
      modifies this`dispatchPending, scheduler
      ensures Valid() && State() == BusModel.ConsumerChanged(old(State()), consumer)
    {
      hide DeterministicScheduler.Valid, DeterministicScheduler.Pending;
      if exists d :: d in subscribers && consumer in subscribers[d] { ScheduleDispatch(); }
    }

    /** A consumer's readiness changes, and the change is reported in the same step. */
    method ReadyChanged(consumer: string, readyNow: set<Sub>)
      requires Valid() && Inv(State())
      modifies this`ready, this`dispatchPending, scheduler
      ensures Routed(old(State()))
      ensures Valid() && Inv(State())
      ensures State() == Apply(old(State()), Step.ReadyChanged(consumer, readyNow), faults).0
    {
      hide DeterministicScheduler.Valid, DeterministicScheduler.Pending;
      CoreIsRouted(State(), None);
      BusTheorems.StepKeeps(State(), Step.ReadyChanged(consumer, readyNow), faults);
      ready := set s | s in ready + readyNow && (if s.consumer == consumer then s in readyNow else s in ready);
      ConsumerChanged(consumer);
    }

    /** Takes the least pending event, moves the clock to it, and runs its handler. */
    method DispatchNext() returns (output: Output)
      requires Valid() && Inv(State())
      modifies this, scheduler
      ensures Routed(old(State()))
      ensures Valid() && Inv(State())
      ensures (State(), output) == Apply(old(State()), Step.DispatchNext, faults)
    {
      hide DeterministicScheduler.Valid, DeterministicScheduler.Pending;
      CoreIsRouted(State(), None);
      BusTheorems.StepKeeps(State(), Step.DispatchNext, faults);
      var next := scheduler.TakeNext();
      if next.None? { return Silent; }
      var e := next.value;
      now := e.time;
      assert State() == Take(old(State()), e);
      output := RunHandler(e.payload);
    }

    method RunHandler(payload: BusEvent) returns (output: Output)
      requires Valid() && Routed(State())
      modifies this, scheduler
      ensures Valid() && (State(), output) == BusModel.RunHandler(old(State()), payload, faults)
    {
      hide DeterministicScheduler.Valid, DeterministicScheduler.Pending;
      output := Silent;
      match payload
      case Admission(operation, destination) => output := Admit(operation, destination);
      case Dispatch => OnDispatch();
      case Arrival(i, delivery) => output := Arrive(i, delivery);
      case Timeout(i, attempt) => OnTimeout(i, attempt);
      case Retry(i) => OnRetry(i);
      case Foreign =>
    }
  }
}
