/**
 * What every reachable state of the message bus keeps: reservations, attempts, dead letters and capacity agree with the
 * records, and no record is ever left without the event that moves it on.
 */
module BusInvariants {
  import opened Outcomes
  import opened Scheduler
  import opened BusModel

  type Destinations = map<string, Destination>
  type Subscribers = map<string, seq<string>>

  // ---------- The invariant, one named part at a time ----------

  ghost predicate ConfigOk(destinations: Destinations, subscribers: Subscribers) {
    && subscribers.Keys == destinations.Keys
    && (forall d :: d in destinations ==> destinations[d].maxAttempts > 0 && destinations[d].ackTimeout > 0)
    && (forall d, i, j :: d in subscribers && 0 <= i < j < |subscribers[d]| ==> subscribers[d][i] != subscribers[d][j])
  }

  /** Attempt counters, settlement and consumer of a record agree with its state. */
  ghost predicate RecordOk(destinations: Destinations, subscribers: Subscribers, r: Routing) {
    && r.destination in destinations && r.destination in subscribers
    && (r.subscriber.Some? <==> destinations[r.destination].kind == Topic)
    && (r.subscriber.Some? ==> r.subscriber.value in subscribers[r.destination])
    && var max := destinations[r.destination].maxAttempts;
       match r.state
       case QUEUED => r.attempt < max && !r.settled && r.consumer.None? && r.deadline.None?
       case IN_FLIGHT =>
         && 1 <= r.attempt <= max && !r.settled && r.deadline.Some?
         && r.consumer.Some? && r.consumer.value in subscribers[r.destination]
         && (r.subscriber.Some? ==> r.consumer == r.subscriber)
       case RETRY => 1 <= r.attempt < max && r.settled && r.deadline.None?
       case DEAD => r.attempt == max && r.settled && r.deadline.None?
       case ACKED => 1 <= r.attempt <= max && r.settled && r.deadline.None?
  }

  ghost predicate RecordsOk(destinations: Destinations, subscribers: Subscribers, records: seq<Routing>) {
    forall i :: 0 <= i < |records| ==> RecordOk(destinations, subscribers, records[i])
  }

  /** Record `i` is in flight to the subscription `s`. */
  ghost predicate Holds(records: seq<Routing>, i: nat, s: Sub) {
    i < |records| && records[i].state == IN_FLIGHT && records[i].consumer.Some? && SubOf(records[i]) == s
  }

  /** A subscription is reserved iff exactly one record in flight names its destination and consumer. */
  ghost predicate ReservationsOk(records: seq<Routing>, reserved: set<Sub>) {
    && (forall s :: s in reserved ==> exists i: nat :: Holds(records, i, s))
    && (forall i: nat, s :: Holds(records, i, s) ==> s in reserved)
    && (forall i: nat, j: nat, s :: Holds(records, i, s) && Holds(records, j, s) ==> i == j)
  }

  ghost predicate Buried(dead: seq<DeadLetter>, k: nat, i: nat) {
    k < |dead| && dead[k].routing == i
  }

  /** The dead-letter list holds each dead record exactly once, with its attempts, and nothing else. */
  ghost predicate DeadOk(records: seq<Routing>, dead: seq<DeadLetter>) {
    && (forall k: nat, i: nat :: Buried(dead, k, i) ==>
        i < |records| && records[i].state == DEAD && dead[k].attempts == records[i].attempt)
    && (forall k: nat, l: nat, i: nat :: Buried(dead, k, i) && Buried(dead, l, i) ==> k == l)
    && (forall i: nat :: i < |records| && records[i].state == DEAD ==> exists k: nat :: Buried(dead, k, i))
  }

  ghost predicate CapacityOk(destinations: Destinations, records: seq<Routing>) {
    forall d :: d in destinations ==> ActiveCount(records, d) <= destinations[d].capacity
  }

  ghost predicate CopyOk(subscribers: Subscribers, records: seq<Routing>, c: Copy) {
    && c.routing < |records| && 1 <= c.attempt <= records[c.routing].attempt
    && records[c.routing].destination in subscribers
    && c.consumer in subscribers[records[c.routing].destination]
  }

  ghost predicate CopiesOk(subscribers: Subscribers, records: seq<Routing>, copies: seq<Copy>) {
    forall k :: 0 <= k < |copies| ==> CopyOk(subscribers, records, copies[k])
  }

  ghost predicate EventOk(destinations: Destinations, copies: seq<Copy>, next: EventId, now: nat, e: Event<BusEvent>) {
    && e.sequence < next && now <= e.time && e.kind == KindOf(e.payload)
    && (e.payload.Admission? ==> e.payload.destination in destinations)
    && (e.payload.Arrival? ==> e.payload.delivery < |copies| && copies[e.payload.delivery].routing == e.payload.routing)
  }

  ghost predicate EventsOk(destinations: Destinations, copies: seq<Copy>, next: EventId, now: nat,
                           pending: set<Event<BusEvent>>) {
    && DistinctSequences(pending)
    && (forall e :: e in pending ==> EventOk(destinations, copies, next, now, e))
  }

  predicate IsTimer(p: BusEvent) {
    p.Timeout? || p.Retry? || p.Dispatch?
  }

  ghost predicate Awaited(pending: set<Event<BusEvent>>, p: BusEvent) {
    exists e :: e in pending && e.payload == p
  }

  /** The record or flag a timer was scheduled for still waits for exactly this timer. */
  ghost predicate TimerExpected(records: seq<Routing>, dispatchPending: bool, e: Event<BusEvent>) {
    match e.payload
    case Timeout(i, attempt) => i < |records| && records[i].state == IN_FLIGHT && records[i].attempt == attempt
        && records[i].deadline == Some(e.sequence)
    case Retry(i) => i < |records| && records[i].state == RETRY
    case Dispatch => dispatchPending
    case _ => true
  }

  /** The timer a record in flight or in retry waits for. */
  function TimerOf(records: seq<Routing>, i: nat): BusEvent
    requires i < |records|
  { if records[i].state == IN_FLIGHT then Timeout(i, records[i].attempt) else Retry(i) }

  ghost predicate Waiting(records: seq<Routing>, i: nat) {
    i < |records| && (records[i].state == IN_FLIGHT || records[i].state == RETRY)
  }

  /**
   * A record in flight has exactly one pending timeout, for its current attempt; a record in retry has exactly one
   * pending retry; a pending dispatch is announced exactly once. `hole` is a timer just taken and not yet handled.
   */
  ghost predicate TimersOk(records: seq<Routing>, dispatchPending: bool, pending: set<Event<BusEvent>>,
                           hole: Option<BusEvent>) {
    && (forall e :: e in pending ==>
        TimerExpected(records, dispatchPending, e)
        && (IsTimer(e.payload) ==> Some(e.payload) != hole))
    && (forall e, f :: e in pending && f in pending && e.payload == f.payload && IsTimer(e.payload) ==> e == f)
    && (forall i: nat :: Waiting(records, i) && Some(TimerOf(records, i)) != hole ==>
        Awaited(pending, TimerOf(records, i)))
    && (dispatchPending && hole != Some(Dispatch) ==> Awaited(pending, Dispatch))
  }

  /** Records `i < j` are queued for one topic subscriber. */
  ghost predicate SameQueue(records: seq<Routing>, i: nat, j: nat) {
    i < j < |records| && records[i].subscriber.Some? && records[i].subscriber == records[j].subscriber
    && records[i].destination == records[j].destination
  }

  /** First attempts for one topic subscriber happen in publication order. */
  ghost predicate OrderOk(records: seq<Routing>) {
    forall i: nat, j: nat :: SameQueue(records, i, j) && records[j].attempt > 0 ==> records[i].attempt > 0
  }

  ghost predicate Core(b: Bus, hole: Option<BusEvent>) {
    && ConfigOk(b.destinations, b.subscribers)
    && RecordsOk(b.destinations, b.subscribers, b.records)
    && ReservationsOk(b.records, b.reserved)
    && DeadOk(b.records, b.dead)
    && CapacityOk(b.destinations, b.records)
    && CopiesOk(b.subscribers, b.records, b.copies)
    && EventsOk(b.destinations, b.copies, b.next, b.now, b.pending)
    && TimersOk(b.records, b.dispatchPending, b.pending, hole)
    && OrderOk(b.records)
  }

  /** A reservable record implies a pending dispatch. */
  ghost predicate NoLostWakeup(b: Bus) {
    b.dispatchPending || forall i: nat :: i < |b.records| ==> !CanReserve(b, i)
  }

  ghost predicate Inv(b: Bus) {
    Core(b, None) && NoLostWakeup(b)
  }

  lemma CoreIsRouted(b: Bus, hole: Option<BusEvent>)
    requires Core(b, hole)
    ensures Routed(b)
  {
    forall i | 0 <= i < |b.records| ensures b.records[i].destination in b.destinations {
      assert RecordOk(b.destinations, b.subscribers, b.records[i]);
    }
  }

  // ---------- Pending events ----------

  lemma ScheduledEvents(b: Bus, time: nat, payload: BusEvent)
    requires EventsOk(b.destinations, b.copies, b.next, b.now, b.pending)
    requires EventOk(b.destinations, b.copies, b.next + 1, b.now, Event(time, b.next, KindOf(payload), payload))
    ensures var c := Schedule(b, time, payload); EventsOk(c.destinations, c.copies, c.next, c.now, c.pending)
  {
    var c := Schedule(b, time, payload);
    forall e | e in c.pending ensures EventOk(c.destinations, c.copies, c.next, c.now, e) {
      if e in b.pending { assert EventOk(b.destinations, b.copies, b.next, b.now, e); }
    }
    forall e, f | e in c.pending && f in c.pending && e.sequence == f.sequence ensures e == f {
      if e in b.pending { assert EventOk(b.destinations, b.copies, b.next, b.now, e); }
      if f in b.pending { assert EventOk(b.destinations, b.copies, b.next, b.now, f); }
    }
  }

  lemma FewerEvents(b: Bus, fewer: set<Event<BusEvent>>)
    requires EventsOk(b.destinations, b.copies, b.next, b.now, b.pending) && fewer <= b.pending
    ensures EventsOk(b.destinations, b.copies, b.next, b.now, fewer)
  {
    forall e | e in fewer ensures EventOk(b.destinations, b.copies, b.next, b.now, e) { assert e in b.pending; }
  }

  /** Adding the timer that a record or the dispatch flag waits for. */
  lemma AddedTimer(records: seq<Routing>, flag: bool, pending: set<Event<BusEvent>>, e: Event<BusEvent>)
    requires IsTimer(e.payload) && TimersOk(records, flag, pending, Some(e.payload))
    requires TimerExpected(records, flag, e)
    ensures TimersOk(records, flag, pending + {e}, None)
  {
    var more := pending + {e};
    assert Awaited(more, e.payload);
    forall i: nat | Waiting(records, i) ensures Awaited(more, TimerOf(records, i)) {
      if TimerOf(records, i) != e.payload {
        assert Awaited(pending, TimerOf(records, i));
        var f :| f in pending && f.payload == TimerOf(records, i);
        assert f in more;
      }
    }
    if flag && e.payload != Dispatch {
      assert Awaited(pending, Dispatch);
      var f :| f in pending && f.payload == Dispatch;
      assert f in more;
    }
  }

  /** Events that are not timers do not matter to the timers. */
  lemma OtherEvents(records: seq<Routing>, flag: bool, pending: set<Event<BusEvent>>, hole: Option<BusEvent>,
                    more: set<Event<BusEvent>>)
    requires TimersOk(records, flag, pending, hole)
    requires pending <= more && forall e :: e in more - pending ==> !IsTimer(e.payload)
    ensures TimersOk(records, flag, more, hole)
  {
    forall e | e in more ensures TimerExpected(records, flag, e) && (IsTimer(e.payload) ==> Some(e.payload) != hole) {
      if e in pending { assert TimerExpected(records, flag, e); }
    }
    forall p | Awaited(pending, p) ensures Awaited(more, p) {
      var f :| f in pending && f.payload == p;
      assert f in more;
    }
  }

  lemma ScheduleDispatchKeeps(b: Bus)
    requires Core(b, None)
    ensures Inv(ScheduleDispatch(b))
  {
    var c := ScheduleDispatch(b);
    if c != b {
      ScheduledEvents(b, b.now, Dispatch);
      DispatchAnnounced(b.records, b.pending);
      AddedTimer(c.records, true, b.pending, Event(b.now, b.next, KindOf(Dispatch), Dispatch));
    }
  }

  lemma DispatchAnnounced(records: seq<Routing>, pending: set<Event<BusEvent>>)
    requires TimersOk(records, false, pending, None)
    ensures TimersOk(records, true, pending, Some(Dispatch))
  {
    forall e | e in pending ensures TimerExpected(records, true, e) && Some(e.payload) != Some(Dispatch) {
      assert TimerExpected(records, false, e);
    }
  }

  // ---------- Replacing one record ----------

  lemma {:induction false} ActiveCountAfter(records: seq<Routing>, i: nat, r: Routing, d: string)
    requires i < |records| && r.destination == records[i].destination
    ensures ActiveCount(records[i := r], d) == ActiveCount(records, d)
              + (if r.destination == d && Live(r) then 1 else 0)
              - (if r.destination == d && Live(records[i]) then 1 else 0)
  {
    var updated := records[i := r];
    if i == 0 {
      assert updated[1..] == records[1..];
    } else {
      ActiveCountAfter(records[1..], i - 1, r, d);
      assert updated[1..] == records[1..][i - 1 := r];
    }
  }

  /** The parts of the invariant that only look at one record at a time survive a replacement. */
  lemma ReplacedRecord(b: Bus, i: nat, r: Routing)
    requires i < |b.records| && RecordsOk(b.destinations, b.subscribers, b.records)
    requires CapacityOk(b.destinations, b.records) && CopiesOk(b.subscribers, b.records, b.copies)
    requires RecordOk(b.destinations, b.subscribers, r) && r.destination == b.records[i].destination
    requires r.attempt >= b.records[i].attempt && (Live(r) ==> Live(b.records[i]))
    ensures var records := b.records[i := r];
            RecordsOk(b.destinations, b.subscribers, records) && CapacityOk(b.destinations, records)
                && CopiesOk(b.subscribers, records, b.copies)
  {
    var records := b.records[i := r];
    forall d | d in b.destinations ensures ActiveCount(records, d) <= b.destinations[d].capacity {
      ActiveCountAfter(b.records, i, r, d);
    }
    forall k | 0 <= k < |b.copies| ensures CopyOk(b.subscribers, records, b.copies[k]) {
      assert CopyOk(b.subscribers, b.records, b.copies[k]);
    }
  }

  lemma SameOrder(records: seq<Routing>, i: nat, r: Routing)
    requires OrderOk(records) && i < |records|
    requires r.attempt == records[i].attempt && r.subscriber == records[i].subscriber
    requires r.destination == records[i].destination
    ensures OrderOk(records[i := r])
  {
    var after := records[i := r];
    forall k: nat, j: nat | SameQueue(after, k, j) && after[j].attempt > 0 ensures after[k].attempt > 0 {
      assert SameQueue(records, k, j);
    }
  }

  lemma SameDead(records: seq<Routing>, dead: seq<DeadLetter>, i: nat, r: Routing)
    requires DeadOk(records, dead) && i < |records| && records[i].state != DEAD && r.state != DEAD
    ensures DeadOk(records[i := r], dead)
  {
    var after := records[i := r];
    forall j: nat | j < |after| && after[j].state == DEAD ensures exists k: nat :: Buried(dead, k, j) {
      assert records[j].state == DEAD;
    }
  }

  /** A record newly in flight takes the reservation of its consumer. */
  lemma Reserved(records: seq<Routing>, reserved: set<Sub>, i: nat, r: Routing)
    requires ReservationsOk(records, reserved) && i < |records| && records[i].state != IN_FLIGHT
    requires r.state == IN_FLIGHT && r.consumer.Some? && SubOf(r) !in reserved
    ensures ReservationsOk(records[i := r], reserved + {SubOf(r)})
  {
    var after := records[i := r];
    forall j: nat, s | Holds(after, j, s) ensures s in reserved + {SubOf(r)} && (j != i ==> Holds(records, j, s)) {
      if j != i { assert Holds(records, j, s); }
    }
    forall s | s in reserved + {SubOf(r)} ensures exists j: nat :: Holds(after, j, s) {
      if s == SubOf(r) {
        assert Holds(after, i, s);
      } else {
        var j: nat :| Holds(records, j, s);
        assert Holds(after, j, s);
      }
    }
    forall j: nat, k: nat, s | Holds(after, j, s) && Holds(after, k, s) ensures j == k {
      if j != i && k != i { assert Holds(records, j, s) && Holds(records, k, s); }
    }
  }

  /** A record that leaves flight frees the reservation of its consumer, and of no other. */
  lemma Released(records: seq<Routing>, reserved: set<Sub>, i: nat, r: Routing)
    requires ReservationsOk(records, reserved) && i < |records|
    requires records[i].state == IN_FLIGHT && records[i].consumer.Some? && r.state != IN_FLIGHT
    ensures ReservationsOk(records[i := r], reserved - {SubOf(records[i])})
  {
    var after := records[i := r];
    var freed := SubOf(records[i]);
    assert Holds(records, i, freed);
    forall j: nat, s | Holds(after, j, s) ensures s in reserved - {freed} {
      assert Holds(records, j, s);
      assert j != i;
    }
    forall s | s in reserved - {freed} ensures exists j: nat :: Holds(after, j, s) {
      var j: nat :| Holds(records, j, s);
      assert Holds(after, j, s);
    }
    forall j: nat, k: nat, s | Holds(after, j, s) && Holds(after, k, s) ensures j == k {
      assert Holds(records, j, s) && Holds(records, k, s);
    }
  }

  lemma Unheld(records: seq<Routing>, reserved: set<Sub>, i: nat, r: Routing)
    requires ReservationsOk(records, reserved) && i < |records| && records[i].state != IN_FLIGHT && r.state != IN_FLIGHT
    ensures ReservationsOk(records[i := r], reserved)
  {
    var after := records[i := r];
    assert forall j: nat, s :: Holds(after, j, s) <==> Holds(records, j, s);
  }

  /** Cancelling the deadline of a record in flight removes its one timeout. */
  lemma CancelledDeadline(records: seq<Routing>, flag: bool, pending: set<Event<BusEvent>>, i: nat)
    requires TimersOk(records, flag, pending, None) && DistinctSequences(pending)
    requires i < |records| && records[i].state == IN_FLIGHT && records[i].deadline.Some?
    ensures var fewer := set e | e in pending && e.sequence != records[i].deadline.value;
            TimersOk(records, flag, fewer, Some(Timeout(i, records[i].attempt)))
  {
    var id := records[i].deadline.value;
    var fewer := set e | e in pending && e.sequence != id;
    var timer := Timeout(i, records[i].attempt);
    assert Waiting(records, i) && TimerOf(records, i) == timer;
    assert Awaited(pending, timer);
    var t :| t in pending && t.payload == timer;
    assert TimerExpected(records, flag, t);
    assert t.sequence == id;
    forall e | e in fewer
      ensures TimerExpected(records, flag, e) && (IsTimer(e.payload) ==> Some(e.payload) != Some(timer))
    {
      assert TimerExpected(records, flag, e);
    }
    forall p | p != timer && Awaited(pending, p) ensures Awaited(fewer, p) {
      var f :| f in pending && f.payload == p;
      assert f != t;
      assert f in fewer;
    }
  }

  /** After its timer is gone, a record may change to any state that waits for nothing, or for a timer still missing. */
  lemma RecordMovesOn(records: seq<Routing>, flag: bool, pending: set<Event<BusEvent>>, i: nat, r: Routing,
                      hole: Option<BusEvent>)
    requires i < |records|
    requires TimersOk(records, flag, pending, if Waiting(records, i) then Some(TimerOf(records, i)) else None)
    requires hole == if r.state == IN_FLIGHT then Some(Timeout(i, r.attempt)) else if r.state == RETRY
        then Some(Retry(i)) else None
    ensures TimersOk(records[i := r], flag, pending, hole)
  {
    var after := records[i := r];
    forall e | e in pending
      ensures TimerExpected(after, flag, e) && (IsTimer(e.payload) ==> Some(e.payload) != hole)
    {
      assert TimerExpected(records, flag, e);
    }
    forall j: nat | Waiting(after, j) && Some(TimerOf(after, j)) != hole ensures Awaited(pending, TimerOf(after, j)) {
      assert j != i;
      assert Waiting(records, j) && TimerOf(records, j) == TimerOf(after, j);
    }
    if flag { assert Awaited(pending, Dispatch); }
  }

  // ---------- Each operation keeps the core invariant ----------

  /** No two records of one topic subscriber overtake each other: the oldest reservable record goes first. */
  lemma ReservedInOrder(b: Bus, i: nat, r: Routing)
    requires Core(b, None) && i < |b.records| && CanReserve(b, i)
    requires forall k: nat :: k < i ==> !CanReserve(b, k)
    requires r.attempt == b.records[i].attempt + 1 && r.subscriber == b.records[i].subscriber
    requires r.destination == b.records[i].destination
    ensures OrderOk(b.records[i := r])
  {
    var after := b.records[i := r];
    forall k: nat, j: nat | SameQueue(after, k, j) && after[j].attempt > 0 ensures after[k].attempt > 0 {
      assert SameQueue(b.records, k, j);
      if j == i { OlderWasTried(b, k, i); }
    }
  }

  /** An older record of the same topic subscriber that cannot be reserved when this one can was tried before. */
  lemma OlderWasTried(b: Bus, k: nat, i: nat)
    requires Core(b, None) && SameQueue(b.records, k, i) && CanReserve(b, i) && !CanReserve(b, k)
    ensures b.records[k].attempt > 0
  {
    hide ReservationsOk, DeadOk, CapacityOk, CopiesOk, EventsOk, TimersOk, OrderOk;
    assert RecordOk(b.destinations, b.subscribers, b.records[k]);
    assert SelectTopic(b, b.records[k]) == SelectTopic(b, b.records[i]);
  }

  lemma SelectionIsFree(b: Bus, i: nat)
    requires Core(b, None) && i < |b.records| && CanReserve(b, i)
    ensures var s := Select(b, i);
            && Sub(b.records[i].destination, s.consumer) in b.ready - b.reserved
            && b.records[i].destination in b.subscribers && s.consumer in b.subscribers[b.records[i].destination]
            && (b.records[i].subscriber.Some? ==> s.consumer == b.records[i].subscriber.value)
  {
    assert RecordOk(b.destinations, b.subscribers, b.records[i]);
  }

  /** The record that a reservation puts in flight. */
  function Flying(b: Bus, i: nat, consumer: string): Routing
    requires i < |b.records|
  {
    b.records[i].(attempt := b.records[i].attempt + 1, settled := false, state := IN_FLIGHT, consumer :=
                  Some(consumer), deadline := Some(b.next))
  }

  /** The records, reservations and dead letters after a reservation. */
  lemma TakenRecords(b: Bus, i: nat, consumer: string)
    requires RecordsOk(b.destinations, b.subscribers, b.records) && ReservationsOk(b.records, b.reserved)
    requires DeadOk(b.records, b.dead) && CapacityOk(b.destinations, b.records)
    requires CopiesOk(b.subscribers, b.records, b.copies)
    requires i < |b.records| && b.records[i].state == QUEUED && Sub(b.records[i].destination, consumer) !in b.reserved
    requires b.records[i].destination in b.subscribers && consumer in b.subscribers[b.records[i].destination]
    requires b.records[i].subscriber.Some? ==> consumer == b.records[i].subscriber.value
    ensures var records := b.records[i := Flying(b, i, consumer)];
            && RecordsOk(b.destinations, b.subscribers, records)
            && ReservationsOk(records, b.reserved + {Sub(b.records[i].destination, consumer)})
            && DeadOk(records, b.dead) && CapacityOk(b.destinations, records)
            && CopiesOk(b.subscribers, records, b.copies)
  {
    var r := Flying(b, i, consumer);
    assert RecordOk(b.destinations, b.subscribers, b.records[i]);
    assert RecordOk(b.destinations, b.subscribers, r);
    ReplacedRecord(b, i, r);
    Reserved(b.records, b.reserved, i, r);
    SameDead(b.records, b.dead, i, r);
  }

  /** The deadline of the new attempt is its one timeout. */
  lemma TakenTimers(b: Bus, i: nat, r: Routing, deadline: nat)
    requires EventsOk(b.destinations, b.copies, b.next, b.now, b.pending)
    requires TimersOk(b.records, b.dispatchPending, b.pending, None)
    requires i < |b.records| && b.records[i].state == QUEUED && r.state == IN_FLIGHT && r.deadline == Some(b.next)
    requires b.now <= deadline
    ensures var c := Schedule(b, deadline, Timeout(i, r.attempt));
            EventsOk(c.destinations, c.copies, c.next, c.now, c.pending)
                && TimersOk(b.records[i := r], b.dispatchPending, c.pending, None)
  {
    var timer := Timeout(i, r.attempt);
    ScheduledEvents(b, deadline, timer);
    RecordMovesOn(b.records, b.dispatchPending, b.pending, i, r, Some(timer));
    AddedTimer(b.records[i := r], b.dispatchPending, b.pending, Event(deadline, b.next, KindOf(timer), timer));
  }

  /** A reservation of a free consumer, in publication order, keeps the core invariant. */
  lemma TakeKeeps(b: Bus, i: nat, consumer: string, cursor: Option<nat>, d: Decision)
    requires Core(b, None) && i < |b.records| && b.records[i].state == QUEUED
    requires b.records[i].destination in b.destinations
    requires Sub(b.records[i].destination, consumer) !in b.reserved
    requires b.records[i].destination in b.subscribers && consumer in b.subscribers[b.records[i].destination]
    requires b.records[i].subscriber.Some? ==> consumer == b.records[i].subscriber.value
    requires OrderOk(b.records[i := Flying(b, i, consumer)])
    ensures Core(TakeReservation(b, i, consumer, cursor, d), None)
  {
    hide RecordsOk, ReservationsOk, DeadOk, CapacityOk, CopiesOk, TimersOk, OrderOk, EventsOk, ConfigOk;
    var r := Flying(b, i, consumer);
    var destination := b.destinations[r.destination];
    var deadline := b.now + destination.deliveryDelay + d.extraDelay + destination.ackTimeout;
    TakenRecords(b, i, consumer);
    TakenTimers(b, i, r, deadline);
    var c := TakeReservation(b, i, consumer, cursor, d);
    var timed := Schedule(b, deadline, Timeout(i, r.attempt));
    assert c == timed.(records := b.records[i := r], reserved :=
                       b.reserved + {Sub(r.destination, consumer)}, cursors := c.cursors);
  }

  lemma CopiesKeep(b: Bus, c: Bus, copy: Copy, arrival: nat, spacing: nat, n: nat)
    requires Core(b, None) && CopiesScheduled(b, c, copy, arrival, spacing, 0, n)
    requires CopyOk(b.subscribers, b.records, copy) && arrival >= b.now
    ensures Core(c, None)
  {
    forall k | 0 <= k < |c.copies| ensures CopyOk(c.subscribers, c.records, c.copies[k]) {
      if k < |b.copies| { assert CopyOk(b.subscribers, b.records, b.copies[k]) && c.copies[k] == b.copies[k]; }
    }
    forall e | e in c.pending ensures EventOk(c.destinations, c.copies, c.next, c.now, e) {
      if e in b.pending {
        assert EventOk(b.destinations, b.copies, b.next, b.now, e);
      } else {
        assert e == CopyArrival(b, copy, arrival, spacing, 0, e.sequence - b.next);
      }
    }
    forall e, f | e in c.pending && f in c.pending && e.sequence == f.sequence ensures e == f {
      if e in b.pending { assert EventOk(b.destinations, b.copies, b.next, b.now, e); }
      if f in b.pending { assert EventOk(b.destinations, b.copies, b.next, b.now, f); }
    }
    OtherEvents(b.records, b.dispatchPending, b.pending, None, c.pending);
  }

  lemma ReserveFreeKeeps(b: Bus, i: nat, consumer: string, cursor: Option<nat>, d: Decision)
    requires Core(b, None) && i < |b.records| && b.records[i].state == QUEUED
    requires b.records[i].destination in b.destinations
    requires Sub(b.records[i].destination, consumer) !in b.reserved
    requires b.records[i].destination in b.subscribers && consumer in b.subscribers[b.records[i].destination]
    requires b.records[i].subscriber.Some? ==> consumer == b.records[i].subscriber.value
    requires OrderOk(b.records[i := Flying(b, i, consumer)])
    ensures Core(Reserve(b, i, consumer, cursor, d), None)
  {
    var taken := TakeReservation(b, i, consumer, cursor, d);
    TakeKeeps(b, i, consumer, cursor, d);
    ReserveIsScheduled(b, i, consumer, cursor, d);
    CopiesKeep(taken, Reserve(b, i, consumer, cursor, d), Copy(i, b.records[i].attempt + 1, consumer, d.drop, false),
      b.now + b.destinations[b.records[i].destination].deliveryDelay + d.extraDelay, d.copySpacing, CopyCount(d));
  }

  lemma ReserveKeeps(b: Bus, i: nat, faults: FaultPort)
    requires Core(b, None) && Routed(b) && i < |b.records| && CanReserve(b, i)
    requires forall k: nat :: k < i ==> !CanReserve(b, k)
    ensures Core(ReserveRecord(b, i, faults), None)
  {
    var s := Select(b, i);
    SelectionIsFree(b, i);
    ReservedInOrder(b, i, Flying(b, i, s.consumer));
    ReserveFreeKeeps(b, i, s.consumer, s.cursor, faults(i, b.records[i].attempt + 1, s.consumer));
  }

  /** The dispatch loop ends with no reservable record. */
  lemma {:induction false} DispatchAllKeeps(b: Bus, faults: FaultPort)
    requires Core(b, None) && Routed(b)
    ensures Inv(DispatchAll(b, faults))
    decreases QueuedCount(b.records)
  {
    match FirstReservable(b, 0)
    case None =>
    case Some(i) =>
      ReserveShrinksQueue(b, i, faults);
      ReserveKeeps(b, i, faults);
      DispatchAllKeeps(ReserveRecord(b, i, faults), faults);
  }

  /** A live acknowledgement settles its record: the deadline is cancelled and the consumer freed. */
  lemma SettleKeeps(b: Bus, i: nat)
    requires Core(b, None) && i < |b.records| && b.records[i].state == IN_FLIGHT
    ensures Core(Settle(b, i), None)
  {
    var r := b.records[i];
    assert RecordOk(b.destinations, b.subscribers, r);
    var c := Settle(b, i);
    var done := c.records[i];
    assert RecordOk(b.destinations, b.subscribers, done);
    ReplacedRecord(b, i, done);
    Released(b.records, b.reserved, i, done);
    SameDead(b.records, b.dead, i, done);
    SameOrder(b.records, i, done);
    FewerEvents(b, c.pending);
    CancelledDeadline(b.records, b.dispatchPending, b.pending, i);
    RecordMovesOn(b.records, b.dispatchPending, c.pending, i, done, None);
  }

  lemma BuriedOnce(records: seq<Routing>, dead: seq<DeadLetter>, i: nat, r: Routing, letter: DeadLetter)
    requires DeadOk(records, dead) && i < |records| && records[i].state != DEAD
    requires r.state == DEAD && letter.routing == i && letter.attempts == r.attempt
    ensures DeadOk(records[i := r], dead + [letter])
  {
    var after, more := records[i := r], dead + [letter];
    assert forall k: nat, j: nat :: Buried(more, k, j) <==> Buried(dead, k, j) || (k == |dead| && j == i);
    forall j: nat | j < |after| && after[j].state == DEAD ensures exists k: nat :: Buried(more, k, j) {
      if j == i {
        assert Buried(more, |dead|, i);
      } else {
        var k: nat :| Buried(dead, k, j);
        assert Buried(more, k, j);
      }
    }
  }

  /** The events left once a failing attempt no longer waits for its timeout. */
  function LeftAfterFail(b: Bus, i: nat, fromTimeout: bool): set<Event<BusEvent>>
    requires i < |b.records|
  { if fromTimeout then b.pending else CancelDeadline(b, b.records[i]).pending }

  lemma FailedTimeoutIsGone(b: Bus, i: nat, fromTimeout: bool)
    requires i < |b.records| && b.records[i].state == IN_FLIGHT && b.records[i].deadline.Some?
    requires EventsOk(b.destinations, b.copies, b.next, b.now, b.pending)
    requires TimersOk(b.records, b.dispatchPending, b.pending, if fromTimeout
                      then Some(Timeout(i, b.records[i].attempt)) else None)
    ensures var left := LeftAfterFail(b, i, fromTimeout);
            && EventsOk(b.destinations, b.copies, b.next, b.now, left)
            && TimersOk(b.records, b.dispatchPending, left, Some(Timeout(i, b.records[i].attempt)))
  {
    FewerEvents(b, LeftAfterFail(b, i, fromTimeout));
    if !fromTimeout { CancelledDeadline(b.records, b.dispatchPending, b.pending, i); }
  }

  /** The record that a failed attempt leaves behind. */
  function Failed(b: Bus, i: nat): Routing
    requires i < |b.records| && b.records[i].destination in b.destinations
  {
    var r := b.records[i];
    r.(settled := true, deadline := None, state := if r.attempt >= b.destinations[r.destination].maxAttempts then DEAD
       else RETRY)
  }

  lemma FailedRecords(b: Bus, i: nat, letter: DeadLetter)
    requires RecordsOk(b.destinations, b.subscribers, b.records) && ReservationsOk(b.records, b.reserved)
    requires DeadOk(b.records, b.dead) && CapacityOk(b.destinations, b.records)
    requires CopiesOk(b.subscribers, b.records, b.copies)
    requires OrderOk(b.records)
    requires i < |b.records| && b.records[i].state == IN_FLIGHT && b.records[i].consumer.Some?
    requires b.records[i].destination in b.destinations
    requires letter.routing == i && letter.attempts == b.records[i].attempt
    ensures var records := b.records[i := Failed(b, i)];
            && RecordsOk(b.destinations, b.subscribers, records)
            && ReservationsOk(records, b.reserved - {SubOf(b.records[i])})
            && DeadOk(records, if Failed(b, i).state == DEAD then b.dead + [letter] else b.dead)
            && CapacityOk(b.destinations, records) && CopiesOk(b.subscribers, records, b.copies) && OrderOk(records)
  {
    var failed := Failed(b, i);
    assert RecordOk(b.destinations, b.subscribers, b.records[i]);
    assert RecordOk(b.destinations, b.subscribers, failed);
    ReplacedRecord(b, i, failed);
    Released(b.records, b.reserved, i, failed);
    SameOrder(b.records, i, failed);
    if failed.state == DEAD {
      BuriedOnce(b.records, b.dead, i, failed, letter);
    } else {
      SameDead(b.records, b.dead, i, failed);
    }
  }

  lemma FailedTimers(b: Bus, i: nat, failed: Routing, left: set<Event<BusEvent>>, due: nat)
    requires i < |b.records| && b.records[i].state == IN_FLIGHT && b.now <= due
    requires EventsOk(b.destinations, b.copies, b.next, b.now, left)
    requires TimersOk(b.records, b.dispatchPending, left, Some(Timeout(i, b.records[i].attempt)))
    ensures failed.state == DEAD ==> TimersOk(b.records[i := failed], b.dispatchPending, left, None)
    ensures failed.state == RETRY ==>
      var c := Schedule(b.(pending := left), due, Retry(i));
      EventsOk(c.destinations, c.copies, c.next, c.now, c.pending)
          && TimersOk(b.records[i := failed], b.dispatchPending, c.pending, None)
  {
    var after := b.records[i := failed];
    if failed.state == DEAD {
      RecordMovesOn(b.records, b.dispatchPending, left, i, failed, None);
    } else if failed.state == RETRY {
      RecordMovesOn(b.records, b.dispatchPending, left, i, failed, Some(Retry(i)));
      ScheduledEvents(b.(pending := left), due, Retry(i));
      AddedTimer(after, b.dispatchPending, left, Event(due, b.next, KindOf(Retry(i)), Retry(i)));
    }
  }

  /** A failed attempt frees the consumer and either waits for its one retry or is buried. */
  lemma FailKeeps(b: Bus, i: nat, reason: FailureReason, fromTimeout: bool)
    requires i < |b.records| && b.records[i].state == IN_FLIGHT && b.records[i].destination in b.destinations
    requires Core(b, if fromTimeout then Some(Timeout(i, b.records[i].attempt)) else None)
    ensures Core(Fail(b, i, reason, fromTimeout), None)
  {
    hide ReservationsOk, DeadOk, CapacityOk, CopiesOk, TimersOk, OrderOk, EventsOk, ConfigOk;
    var r := b.records[i];
    var due := b.now + b.destinations[r.destination].retryDelay;
    var letter := DeadLetter(i, r.attempt, reason, r.consumer);
    assert r.deadline.Some? && r.consumer.Some? by { assert RecordOk(b.destinations, b.subscribers, r); }
    var left := LeftAfterFail(b, i, fromTimeout);
    FailedRecords(b, i, letter);
    FailedTimeoutIsGone(b, i, fromTimeout);
    FailedTimers(b, i, Failed(b, i), left, due);
    var c := Fail(b, i, reason, fromTimeout);
    var freed := b.(pending := left, reserved := b.reserved - {SubOf(r)}, records := b.records[i := Failed(b, i)]);
    if Failed(b, i).state == DEAD {
      assert c == freed.(dead := b.dead + [letter]);
    } else {
      assert c == Schedule(freed, due, Retry(i));
    }
  }

  /** A retry that comes due puts its record back into the queue. */
  lemma RequeueKeeps(b: Bus, i: nat)
    requires Core(b, Some(Retry(i))) && i < |b.records| && b.records[i].state == RETRY
    ensures Core(Requeue(b, i), None)
  {
    var queued := Requeue(b, i).records[i];
    assert RecordOk(b.destinations, b.subscribers, b.records[i]);
    assert RecordOk(b.destinations, b.subscribers, queued);
    ReplacedRecord(b, i, queued);
    Unheld(b.records, b.reserved, i, queued);
    SameDead(b.records, b.dead, i, queued);
    SameOrder(b.records, i, queued);
    RecordMovesOn(b.records, b.dispatchPending, b.pending, i, queued, None);
  }

  lemma MarkDeliveredKeeps(b: Bus, delivery: nat)
    requires Inv(b) && delivery < |b.copies|
    ensures Inv(MarkDelivered(b, delivery))
  {
    var c := MarkDelivered(b, delivery);
    forall k | 0 <= k < |c.copies| ensures CopyOk(c.subscribers, c.records, c.copies[k]) {
      assert CopyOk(b.subscribers, b.records, b.copies[k]);
    }
    forall e | e in c.pending ensures EventOk(c.destinations, c.copies, c.next, c.now, e) {
      assert EventOk(b.destinations, b.copies, b.next, b.now, e);
    }
    SameSelections(b, c);
  }

  /** Reservability depends only on records, subscribers, cursors, reservations and readiness. */
  lemma SameSelections(b: Bus, c: Bus)
    requires c.records == b.records && c.subscribers == b.subscribers && c.cursors == b.cursors
    requires c.reserved == b.reserved && c.ready == b.ready
    ensures forall i: nat :: i < |b.records| ==> (CanReserve(c, i) <==> CanReserve(b, i))
  {
    forall i: nat | i < |b.records| ensures CanReserve(c, i) <==> CanReserve(b, i) {
      SameScan(b, c, b.records[i].destination, 0);
    }
  }

  lemma {:induction false} SameScan(b: Bus, c: Bus, destination: string, offset: nat)
    requires c.subscribers == b.subscribers && c.cursors == b.cursors && c.reserved == b.reserved && c.ready == b.ready
    ensures ScanQueue(c, destination, offset) == ScanQueue(b, destination, offset)
    decreases |SubscribersOf(b, destination)| - offset
  {
    if offset < |SubscribersOf(b, destination)| { SameScan(b, c, destination, offset + 1); }
  }

  // ---------- Admission ----------

  lemma {:induction false} ActiveCountAppend(records: seq<Routing>, more: seq<Routing>, d: string)
    ensures ActiveCount(records + more, d) == ActiveCount(records, d) + ActiveCount(more, d)
  {
    if records == [] {
      assert records + more == more;
    } else {
      ActiveCountAppend(records[1..], more, d);
      assert (records + more)[1..] == records[1..] + more;
    }
  }

  lemma {:induction false} ActiveCountOfNew(more: seq<Routing>, destination: string, d: string)
    requires forall k :: 0 <= k < |more| ==> more[k].destination == destination && Live(more[k])
    ensures ActiveCount(more, d) == if d == destination then |more| else 0
  {
    if more != [] { ActiveCountOfNew(more[1..], destination, d); }
  }

  /** Admission adds every recipient in order, and only when all of them fit. */
  lemma EnqueueKeeps(b: Bus, destination: string)
    requires Core(b, None) && destination in b.destinations && Fits(b, destination)
    ensures Core(Enqueue(b, destination), None)
  {
    var c := Enqueue(b, destination);
    var more := NewRecords(b, destination);
    forall k | 0 <= k < |more|
      ensures RecordOk(b.destinations, b.subscribers, more[k]) && more[k].state == QUEUED
      ensures more[k].destination == destination && more[k].attempt == 0
    {}
    forall i | 0 <= i < |c.records| ensures RecordOk(c.destinations, c.subscribers, c.records[i]) {
      if i < |b.records| { assert RecordOk(b.destinations, b.subscribers, b.records[i]); }
    }
    forall d | d in b.destinations ensures ActiveCount(c.records, d) <= b.destinations[d].capacity {
      ActiveCountAppend(b.records, more, d);
      ActiveCountOfNew(more, destination, d);
    }
    forall k | 0 <= k < |c.copies| ensures CopyOk(c.subscribers, c.records, c.copies[k]) {
      assert CopyOk(b.subscribers, b.records, b.copies[k]);
    }
    AppendedReservations(b.records, more, b.reserved);
    AppendedDead(b.records, more, b.dead);
    AppendedTimers(b.records, more, b.dispatchPending, b.pending);
    AppendedOrder(b.records, more);
  }

  lemma AppendedReservations(records: seq<Routing>, more: seq<Routing>, reserved: set<Sub>)
    requires ReservationsOk(records, reserved) && forall k :: 0 <= k < |more| ==> more[k].state == QUEUED
    ensures ReservationsOk(records + more, reserved)
  {
    assert forall j: nat, s :: Holds(records + more, j, s) <==> Holds(records, j, s);
  }

  lemma AppendedDead(records: seq<Routing>, more: seq<Routing>, dead: seq<DeadLetter>)
    requires DeadOk(records, dead) && forall k :: 0 <= k < |more| ==> more[k].state == QUEUED
    ensures DeadOk(records + more, dead)
  {
    var after := records + more;
    forall i: nat | i < |after| && after[i].state == DEAD ensures exists k: nat :: Buried(dead, k, i) {
      assert i < |records|;
    }
  }

  lemma AppendedTimers(records: seq<Routing>, more: seq<Routing>, flag: bool, pending: set<Event<BusEvent>>)
    requires TimersOk(records, flag, pending, None) && forall k :: 0 <= k < |more| ==> more[k].state == QUEUED
    ensures TimersOk(records + more, flag, pending, None)
  {
    var after := records + more;
    forall e | e in pending ensures TimerExpected(after, flag, e) { assert TimerExpected(records, flag, e); }
    forall i: nat | Waiting(after, i) ensures Awaited(pending, TimerOf(after, i)) {
      assert Waiting(records, i);
    }
  }

  lemma AppendedOrder(records: seq<Routing>, more: seq<Routing>)
    requires OrderOk(records) && forall k :: 0 <= k < |more| ==> more[k].attempt == 0
    ensures OrderOk(records + more)
  {
    var after := records + more;
    forall i: nat, j: nat | SameQueue(after, i, j) && after[j].attempt > 0 ensures after[i].attempt > 0 {
      assert j < |records|;
      assert SameQueue(records, i, j);
    }
  }
}
