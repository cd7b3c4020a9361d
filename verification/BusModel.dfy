/**
 * The message bus as a state machine over values: destinations, routing records, reservations, deadlines, retries and
 * dead letters, and the pending events that drive them.
 */
module BusModel {
  import opened Outcomes
  import opened Scheduler

  datatype DestinationKind = Queue | Topic

  datatype Destination = Destination(
    kind: DestinationKind, deliveryDelay: nat, ackTimeout: nat, retryDelay: nat, maxAttempts: nat, capacity: nat)

  /** The key of a subscription: one consumer at one destination. */
  datatype Sub = Sub(destination: string, consumer: string)

  datatype RoutingState = QUEUED | IN_FLIGHT | ACKED | RETRY | DEAD

  datatype FailureReason = Nacked | TimedOut | Unavailable

  /** One routing record. Its `order` and `routingId` are its position in the list of records. */
  datatype Routing = Routing(
    messageId: nat, destination: string, subscriber: Option<string>, state: RoutingState, attempt: nat,
    settled: bool, consumer: Option<string>, deadline: Option<EventId>)

  /** One delivery copy. Its `deliveryId` is its position in the list of copies. */
  datatype Copy = Copy(routing: nat, attempt: nat, consumer: string, dropped: bool, delivered: bool)

  datatype DeadLetter = DeadLetter(routing: nat, attempts: nat, reason: FailureReason, consumer: Option<string>)

  datatype Decision = Decision(extraDelay: nat, drop: bool, additionalCopies: nat, copySpacing: nat)

  /** The fault port, asked once for each (record, attempt) with the selected consumer. */
  type FaultPort = (nat, nat, string) -> Decision

  datatype BusEvent =
    | Admission(operation: nat, destination: string)
    | Dispatch
    | Arrival(routing: nat, delivery: nat)
    | Timeout(routing: nat, attempt: nat)
    | Retry(routing: nat)
    | Foreign

  function KindOf(payload: BusEvent): string {
    match payload
    case Admission(_, _) => "kernel.message.admission"
    case Dispatch => "kernel.message.dispatch"
    case Arrival(_, _) => "kernel.message.arrival"
    case Timeout(_, _) => "kernel.message.timeout"
    case Retry(_) => "kernel.message.retry"
    case Foreign => "model.work"
  }

  datatype Bus = Bus(
    destinations: map<string, Destination>,
    subscribers: map<string, seq<string>>,
    ready: set<Sub>,
    records: seq<Routing>,
    copies: seq<Copy>,
    cursors: map<string, nat>,
    reserved: set<Sub>,
    dead: seq<DeadLetter>,
    messages: nat,
    dispatchPending: bool,
    now: nat,
    next: EventId,
    pending: set<Event<BusEvent>>)

  /** What a step reports to the outside. */
  datatype Output =
    | Silent
    | Completed(operation: nat, outcome: Result<nat>)
    | Delivered(delivery: nat)
    | Rejected(code: ErrorCode)

  // ---------- Scheduling ----------

  function Schedule(b: Bus, time: nat, payload: BusEvent): Bus {
    b.(pending := b.pending + {Event(time, b.next, KindOf(payload), payload)}, next := b.next + 1)
  }

  function Cancel(b: Bus, id: EventId): Bus {
    b.(pending := set e | e in b.pending && e.sequence != id)
  }

  // ---------- Selection ----------

  predicate Available(b: Bus, s: Sub) {
    s !in b.reserved && s in b.ready
  }

  function SubscribersOf(b: Bus, destination: string): seq<string> {
    if destination in b.subscribers then b.subscribers[destination] else []
  }

  function CursorOf(b: Bus, destination: string): nat {
    if destination in b.cursors then b.cursors[destination] else 0
  }

  /** The first available consumer at or after `offset` steps past the cursor, cyclically. */
  function ScanQueue(b: Bus, destination: string, offset: nat): (index: Option<nat>)
    ensures index.Some? ==>
      && index.value < |SubscribersOf(b, destination)|
      && Available(b, Sub(destination, SubscribersOf(b, destination)[index.value]))
    decreases |SubscribersOf(b, destination)| - offset
  {
    var subs := SubscribersOf(b, destination);
    if offset >= |subs| then None
    else
      var index := (CursorOf(b, destination) + offset) % |subs|;
      if Available(b, Sub(destination, subs[index])) then Some(index) else ScanQueue(b, destination, offset + 1)
  }

  function SelectTopic(b: Bus, r: Routing): Option<string> {
    if r.subscriber.Some? && r.subscriber.value in SubscribersOf(b, r.destination)
        && Available(b, Sub(r.destination, r.subscriber.value))
    then r.subscriber else None
  }

  predicate CanReserve(b: Bus, i: nat)
    requires i < |b.records|
  {
    var r := b.records[i];
    r.state == QUEUED && (if r.subscriber.Some? then SelectTopic(b, r).Some? else ScanQueue(b, r.destination, 0).Some?)
  }

  /** The oldest reservable record at or after position `from`. */
  function FirstReservable(b: Bus, from: nat): (i: Option<nat>)
    ensures i.Some? ==> from <= i.value < |b.records| && CanReserve(b, i.value)
    ensures i.Some? ==> forall k :: from <= k < i.value ==> !CanReserve(b, k)
    ensures i.None? ==> forall k :: from <= k < |b.records| ==> !CanReserve(b, k)
    decreases |b.records| - from
  {
    if from >= |b.records| then None
    else if CanReserve(b, from) then Some(from)
    else FirstReservable(b, from + 1)
  }

  function ScheduleDispatch(b: Bus): Bus {
    if b.dispatchPending || FirstReservable(b, 0).None? then b
    else Schedule(b.(dispatchPending := true), b.now, Dispatch)
  }

  // ---------- Reservation ----------

  /** The delivery copies of one attempt: copy `k` arrives `k * spacing` after the first. */
  function ScheduleCopies(b: Bus, copy: Copy, arrival: nat, spacing: nat, k: nat, count: nat): Bus
    decreases count - k
  {
    if k >= count then b
    else
      var recorded := b.(copies := b.copies + [copy]);
      var scheduled := Schedule(recorded, arrival + k * spacing, Arrival(copy.routing, |b.copies|));
      ScheduleCopies(scheduled, copy, arrival, spacing, k + 1, count)
  }

  function CopyCount(d: Decision): nat {
    if d.drop then 1 else 1 + d.additionalCopies
  }

  /** `#reserve` up to the deadline: the record goes in flight and its timeout is scheduled first. */
  function TakeReservation(b: Bus, i: nat, consumer: string, cursor: Option<nat>, d: Decision): Bus
    requires i < |b.records| && b.records[i].destination in b.destinations
  {
    var r := b.records[i];
    var destination := b.destinations[r.destination];
    var arrival := b.now + destination.deliveryDelay + d.extraDelay;
    var flying := r.(attempt := r.attempt + 1, settled := false, state := IN_FLIGHT, consumer :=
                     Some(consumer), deadline := Some(b.next));
    var taken := b.(records := b.records[i := flying], reserved := b.reserved + {Sub(r.destination, consumer)},
                    cursors := if cursor.Some? then b.cursors[r.destination := cursor.value] else b.cursors);
    Schedule(taken, arrival + destination.ackTimeout, Timeout(i, r.attempt + 1))
  }

  function Reserve(b: Bus, i: nat, consumer: string, cursor: Option<nat>, d: Decision): Bus
    requires i < |b.records| && b.records[i].destination in b.destinations
  {
    var r := b.records[i];
    var arrival := b.now + b.destinations[r.destination].deliveryDelay + d.extraDelay;
    ScheduleCopies(TakeReservation(b, i, consumer, cursor, d), Copy(i, r.attempt + 1, consumer, d.drop, false),
                   arrival, d.copySpacing, 0, CopyCount(d))
  }

  datatype Selection = Selection(consumer: string, cursor: Option<nat>)

  /** The consumer `#reserveNext` picks for a reservable record, and the queue cursor it leaves behind. */
  function Select(b: Bus, i: nat): Selection
    requires i < |b.records| && CanReserve(b, i)
  {
    var r := b.records[i];
    if r.subscriber.Some? then Selection(r.subscriber.value, None)
    else
      var subs := SubscribersOf(b, r.destination);
      var index := ScanQueue(b, r.destination, 0).value;
      Selection(subs[index], Some((index + 1) % |subs|))
  }

  /** One pass of `#reserveNext` on the record it selects. */
  function ReserveRecord(b: Bus, i: nat, faults: FaultPort): Bus
    requires i < |b.records| && CanReserve(b, i) && b.records[i].destination in b.destinations
  {
    var s := Select(b, i);
    Reserve(b, i, s.consumer, s.cursor, faults(i, b.records[i].attempt + 1, s.consumer))
  }

  /** What `ScheduleCopies` does: equal copies, and one arrival for each at its own time and sequence. */
  ghost predicate CopiesScheduled(b: Bus, c: Bus, copy: Copy, arrival: nat, spacing: nat, k: nat, n: nat) {
    && c == b.(copies := c.copies, pending := c.pending, next := b.next + n)
    && |c.copies| == |b.copies| + n && b.copies <= c.copies
    && (forall j :: |b.copies| <= j < |c.copies| ==> c.copies[j] == copy)
    && b.pending <= c.pending
    && (forall j: nat :: j < n ==> CopyArrival(b, copy, arrival, spacing, k, j) in c.pending)
    && (forall e :: e in c.pending - b.pending ==>
        b.next <= e.sequence < c.next && e == CopyArrival(b, copy, arrival, spacing, k, e.sequence - b.next))
  }

  function CopyArrival(b: Bus, copy: Copy, arrival: nat, spacing: nat, k: nat, j: nat): Event<BusEvent> {
    Event(arrival + (k + j) * spacing, b.next
          + j, KindOf(Arrival(copy.routing, |b.copies| + j)), Arrival(copy.routing, |b.copies| + j))
  }

  lemma {:induction false} CopiesAreScheduled(b: Bus, copy: Copy, arrival: nat, spacing: nat, k: nat, count: nat)
    requires k <= count
    ensures CopiesScheduled(b, ScheduleCopies(b, copy, arrival, spacing, k, count), copy, arrival, spacing, k,
                            count - k)
    decreases count - k
  {
    if k < count {
      var scheduled := Schedule(b.(copies := b.copies + [copy]), arrival
                                + k * spacing, Arrival(copy.routing, |b.copies|));
      CopiesAreScheduled(scheduled, copy, arrival, spacing, k + 1, count);
      var c := ScheduleCopies(b, copy, arrival, spacing, k, count);
      assert CopyArrival(b, copy, arrival, spacing, k, 0) in scheduled.pending;
      forall j: nat | j < count - k ensures CopyArrival(b, copy, arrival, spacing, k, j) in c.pending {
        if j > 0 {
          assert CopyArrival(scheduled, copy, arrival, spacing, k + 1, j - 1) ==
              CopyArrival(b, copy, arrival, spacing, k, j);
        }
      }
      forall e | e in c.pending - b.pending
        ensures b.next <= e.sequence < c.next && e == CopyArrival(b, copy, arrival, spacing, k, e.sequence - b.next)
      {
        if e !in scheduled.pending {
          assert CopyArrival(scheduled, copy, arrival, spacing, k + 1, e.sequence - scheduled.next) ==
              CopyArrival(b, copy, arrival, spacing, k, e.sequence - b.next);
        }
      }
    }
  }

  /** The copies of an attempt, as `Reserve` schedules them after its deadline. */
  lemma ReserveIsScheduled(b: Bus, i: nat, consumer: string, cursor: Option<nat>, d: Decision)
    requires i < |b.records| && b.records[i].destination in b.destinations
    ensures CopiesScheduled(TakeReservation(b, i, consumer, cursor, d), Reserve(b, i, consumer, cursor, d),
              Copy(i, b.records[i].attempt + 1, consumer, d.drop, false),
              b.now + b.destinations[b.records[i].destination].deliveryDelay
                  + d.extraDelay, d.copySpacing, 0, CopyCount(d))
  {
    CopiesAreScheduled(TakeReservation(b, i, consumer, cursor, d),
                       Copy(i, b.records[i].attempt + 1, consumer, d.drop, false),
      b.now + b.destinations[b.records[i].destination].deliveryDelay + d.extraDelay, d.copySpacing, 0, CopyCount(d));
  }

  function QueuedCount(records: seq<Routing>): nat {
    if records == [] then 0 else (if records[0].state == QUEUED then 1 else 0) + QueuedCount(records[1..])
  }

  lemma {:induction false} QueuedCountDrops(records: seq<Routing>, i: nat, r: Routing)
    requires i < |records| && records[i].state == QUEUED && r.state != QUEUED
    ensures QueuedCount(records[i := r]) == QueuedCount(records) - 1
  {
    var updated := records[i := r];
    if i == 0 {
      assert updated[1..] == records[1..];
    } else {
      QueuedCountDrops(records[1..], i - 1, r);
      assert updated[1..] == records[1..][i - 1 := r];
    }
  }

  ghost predicate Routed(b: Bus) {
    forall i :: 0 <= i < |b.records| ==> b.records[i].destination in b.destinations
  }

  /** Reserving takes exactly one record out of `QUEUED`, so the dispatch loop terminates. */
  lemma ReserveShrinksQueue(b: Bus, i: nat, faults: FaultPort)
    requires Routed(b) && i < |b.records| && CanReserve(b, i)
    ensures QueuedCount(ReserveRecord(b, i, faults).records) == QueuedCount(b.records) - 1
    ensures Routed(ReserveRecord(b, i, faults))
  {
    var s := Select(b, i);
    var d := faults(i, b.records[i].attempt + 1, s.consumer);
    ReserveIsScheduled(b, i, s.consumer, s.cursor, d);
    QueuedCountDrops(b.records, i, TakeReservation(b, i, s.consumer, s.cursor, d).records[i]);
  }

  /** `#onDispatch`: reserve the oldest reservable record until none is left. */
  function DispatchAll(b: Bus, faults: FaultPort): Bus
    requires Routed(b)
    decreases QueuedCount(b.records)
  {
    match FirstReservable(b, 0)
    case None => b
    case Some(i) =>
      ReserveShrinksQueue(b, i, faults);
      DispatchAll(ReserveRecord(b, i, faults), faults)
  }

  // ---------- Settling ----------

  function SubOf(r: Routing): Sub
    requires r.consumer.Some?
  { Sub(r.destination, r.consumer.value) }

  function Unreserve(b: Bus, r: Routing): Bus {
    if r.consumer.Some? then b.(reserved := b.reserved - {SubOf(r)}) else b
  }

  function CancelDeadline(b: Bus, r: Routing): Bus {
    if r.deadline.Some? then Cancel(b, r.deadline.value) else b
  }

  /** `#ack` before the next dispatch is considered. */
  function Settle(b: Bus, i: nat): Bus
    requires i < |b.records|
  {
    var r := b.records[i];
    var freed := Unreserve(CancelDeadline(b, r), r);
    freed.(records := freed.records[i := r.(settled := true, deadline := None, state := ACKED)])
  }

  function Ack(b: Bus, i: nat): Bus
    requires i < |b.records|
  { ScheduleDispatch(Settle(b, i)) }

  /** `#fail` before the next dispatch is considered: retry later, or die when the attempts are used up. */
  function Fail(b: Bus, i: nat, reason: FailureReason, fromTimeout: bool): Bus
    requires i < |b.records| && b.records[i].destination in b.destinations
  {
    var r := b.records[i];
    var destination := b.destinations[r.destination];
    var freed := Unreserve(if fromTimeout then b else CancelDeadline(b, r), r);
    var settled := r.(settled := true, deadline := None);
    if r.attempt >= destination.maxAttempts then
      freed.(records := freed.records[i := settled.(state := DEAD)], dead :=
             freed.dead + [DeadLetter(i, r.attempt, reason, r.consumer)])
    else
      Schedule(freed.(records := freed.records[i := settled.(state := RETRY)]), b.now
               + destination.retryDelay, Retry(i))
  }

  /** `#fail`: only a record in flight fails. */
  function FailRecord(b: Bus, i: nat, reason: FailureReason, fromTimeout: bool): Bus
    requires i < |b.records| && b.records[i].destination in b.destinations
  {
    if b.records[i].state != IN_FLIGHT || b.records[i].settled then b
        else ScheduleDispatch(Fail(b, i, reason, fromTimeout))
  }

  function OnTimeout(b: Bus, i: nat, attempt: nat): Bus
    requires Routed(b)
  {
    if i >= |b.records| || b.records[i].attempt != attempt || b.records[i].state != IN_FLIGHT || b.records[i].settled
        then b
    else FailRecord(b, i, TimedOut, true)
  }

  function Requeue(b: Bus, i: nat): Bus
    requires i < |b.records|
  { b.(records := b.records[i := b.records[i].(state := QUEUED, consumer := None, settled := false)]) }

  function OnRetry(b: Bus, i: nat): Bus {
    if i >= |b.records| || b.records[i].state != RETRY then b else ScheduleDispatch(Requeue(b, i))
  }

  /** The copy still speaks for the current attempt of its record. */
  predicate Open(b: Bus, delivery: nat) {
    && delivery < |b.copies| && b.copies[delivery].routing < |b.records|
    && var r := b.records[b.copies[delivery].routing];
       r.state == IN_FLIGHT && r.attempt == b.copies[delivery].attempt && !r.settled
  }

  function MarkDelivered(b: Bus, delivery: nat): Bus
    requires delivery < |b.copies|
  { b.(copies := b.copies[delivery := b.copies[delivery].(delivered := true)]) }

  function Arrive(b: Bus, i: nat, delivery: nat): (Bus, Output)
    requires Routed(b)
  {
    if i >= |b.records| || delivery >= |b.copies| || b.copies[delivery].routing != i
        then (b, Rejected(INVALID_EVENT_PAYLOAD))
    else
      var copy := b.copies[delivery];
      if copy.dropped || !Open(b, delivery) then (b, Silent)
      else if Sub(b.records[i].destination, copy.consumer) !in b.ready
          then (FailRecord(b, i, Unavailable, false), Silent)
      else (MarkDelivered(b, delivery), Delivered(delivery))
  }

  datatype Outcome = AckIt | NackIt

  function Acknowledge(b: Bus, delivery: nat, outcome: Outcome): (Bus, Output)
    requires Routed(b)
  {
    if delivery >= |b.copies| || b.copies[delivery].routing >= |b.records| then (b, Rejected(INVALID_DELIVERY))
    else
      var copy := b.copies[delivery];
      if !copy.delivered || copy.dropped || !Open(b, delivery) then (b, Silent)
      else if outcome == AckIt then (Ack(b, copy.routing), Silent)
      else (FailRecord(b, copy.routing, Nacked, false), Silent)
  }

  // ---------- Admission ----------

  predicate Live(r: Routing) {
    r.state != ACKED && r.state != DEAD
  }

  function ActiveCount(records: seq<Routing>, destination: string): nat {
    if records == [] then 0
    else
      (if records[0].destination == destination && Live(records[0]) then 1 else 0)
      + ActiveCount(records[1..], destination)
  }

  function NewRecord(messageId: nat, destination: string, subscriber: Option<string>): Routing {
    Routing(messageId, destination, subscriber, QUEUED, 0, false, None, None)
  }

  function NewRecords(b: Bus, destination: string): seq<Routing>
    requires destination in b.destinations
  {
    var subs := SubscribersOf(b, destination);
    if b.destinations[destination].kind == Topic
    then seq(|subs|, k requires 0 <= k < |subs| => NewRecord(b.messages, destination, Some(subs[k])))
    else [NewRecord(b.messages, destination, None)]
  }

  /** `#admit` before the next dispatch is considered: all recipients fit, or nothing is published. */
  function Enqueue(b: Bus, destination: string): Bus
    requires destination in b.destinations
  { b.(records := b.records + NewRecords(b, destination), messages := b.messages + 1) }

  predicate Fits(b: Bus, destination: string)
    requires destination in b.destinations
  { ActiveCount(b.records, destination) + |NewRecords(b, destination)| <= b.destinations[destination].capacity }

  function Admit(b: Bus, operation: nat, destination: string): (Bus, Output) {
    if destination !in b.destinations then (b, Rejected(INVALID_MESSAGE_OPERATION))
    else if !Fits(b, destination) then (b, Completed(operation, Err(BUS_CAPACITY_EXCEEDED)))
    else (ScheduleDispatch(Enqueue(b, destination)), Completed(operation, Ok(b.messages)))
  }

  // ---------- Steps and runs ----------

  datatype Step =
    | DispatchNext                                            // the scheduler's next event runs its handler
    | Publish(operation: nat, destination: string)            // a task publishes
    | Acknowledged(delivery: nat, outcome: Outcome)           // a consumer answers a delivery
    | ReadyChanged(consumer: string, ready: set<Sub>)         // a consumer's readiness changes and is reported
    | OtherWork(delay: nat)                                   // another component schedules an event

  function ConsumerChanged(b: Bus, consumer: string): Bus {
    if exists d :: d in b.subscribers && consumer in b.subscribers[d] then ScheduleDispatch(b) else b
  }

  function RunHandler(b: Bus, payload: BusEvent, faults: FaultPort): (Bus, Output)
    requires Routed(b)
  {
    match payload
    case Admission(operation, destination) => Admit(b, operation, destination)
    case Dispatch => (DispatchAll(b.(dispatchPending := false), faults), Silent)
    case Arrival(routing, delivery) => Arrive(b, routing, delivery)
    case Timeout(routing, attempt) => (OnTimeout(b, routing, attempt), Silent)
    case Retry(routing) => (OnRetry(b, routing), Silent)
    case Foreign => (b, Silent)
  }

  /** The scheduler takes an event and the clock moves to it. */
  function Take(b: Bus, e: Event<BusEvent>): Bus {
    b.(pending := b.pending - {e}, now := e.time)
  }

  ghost function Apply(b: Bus, step: Step, faults: FaultPort): (Bus, Output)
    requires Routed(b)
  {
    match step
    case DispatchNext =>
      if b.pending == {} then (b, Silent)
      else var e := Least(b.pending); RunHandler(Take(b, e), e.payload, faults)
    case Publish(operation, destination) =>
      if destination !in b.destinations then (b, Rejected(INVALID_MESSAGE_OPERATION))
      else (Schedule(b, b.now, Admission(operation, destination)), Silent)
    case Acknowledged(delivery, outcome) => Acknowledge(b, delivery, outcome)
    case ReadyChanged(consumer, ready) =>
      (ConsumerChanged(b.(ready := set s | s in b.ready + ready
                          && (if s.consumer == consumer then s in ready else s in b.ready)), consumer), Silent)
    case OtherWork(delay) => (Schedule(b, b.now + delay, Foreign), Silent)
  }
}
