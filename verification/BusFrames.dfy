/**
 * What the message broker may do to an agenda it shares with others: it adds events of its own with consecutive
 * sequences, takes off nothing but its own timeouts, and does not mind what the others add and take off.
 */
module BusFrames {
  import opened Outcomes
  import opened Scheduler
  import opened BusModel
  import opened BusInvariants
  import opened BusTheorems

  type Agenda = set<Event<BusEvent>>

  predicate IsOwn(p: BusEvent) {
    p.Dispatch? || p.Arrival? || p.Timeout? || p.Retry?
  }

  ghost predicate Has(pending: Agenda, id: EventId) {
    exists g :: g in pending && g.sequence == id
  }

  lemma StillHas(pending: Agenda, more: Agenda, id: EventId)
    requires Has(pending, id) && pending <= more
    ensures Has(more, id)
  {
    var g :| g in pending && g.sequence == id;
    assert g in more;
  }

  ghost predicate SameOutside(b: Bus, c: Bus) {
    c.now == b.now && c.destinations == b.destinations && c.subscribers == b.subscribers && c.ready == b.ready
  }

  /** The events that `c` has and `b` does not are the broker's own, one for each sequence given out between. */
  ghost predicate Adds(b: Bus, c: Bus) {
    && b.next <= c.next
    && (forall g :: g in c.pending && g !in b.pending ==> IsOwn(g.payload) && b.next <= g.sequence < c.next)
    && (forall id :: b.next <= id < c.next ==> Has(c.pending, id))
  }

  /** From `b` to `c` the agenda only grows. */
  ghost predicate Grows(b: Bus, c: Bus) {
    SameOutside(b, c) && Adds(b, c) && b.pending <= c.pending
  }

  /** From `b` to `c` nothing but timeouts leaves the agenda. */
  ghost predicate Moves(b: Bus, c: Bus) {
    SameOutside(b, c) && Adds(b, c) && forall g :: g in b.pending && !g.payload.Timeout? ==> g in c.pending
  }

  lemma Unmoved(b: Bus, c: Bus)
    requires SameOutside(b, c) && c.next == b.next && c.pending == b.pending
    ensures Grows(b, c) && Moves(b, c)
  {}

  lemma GrowsMoves(b: Bus, c: Bus)
    requires Grows(b, c)
    ensures Moves(b, c)
  {}

  lemma GrowsTransitive(a: Bus, b: Bus, c: Bus)
    requires Grows(a, b) && Grows(b, c)
    ensures Grows(a, c)
  {
    forall id | a.next <= id < c.next ensures Has(c.pending, id) {
      if id < b.next { StillHas(b.pending, c.pending, id); }
    }
  }

  lemma MovesThenGrows(a: Bus, b: Bus, c: Bus)
    requires Moves(a, b) && Grows(b, c)
    ensures Moves(a, c)
  {
    forall id | a.next <= id < c.next ensures Has(c.pending, id) {
      if id < b.next { StillHas(b.pending, c.pending, id); }
    }
  }

  /** What was added before and is no timeout is still there. */
  lemma GrowsThenMoves(a: Bus, b: Bus, c: Bus)
    requires Grows(a, b) && Moves(b, c) && forall g :: g in b.pending && g !in a.pending ==> !g.payload.Timeout?
    requires forall g :: g in a.pending ==> g.sequence < a.next
    ensures Moves(a, c)
  {
    forall id | a.next <= id < c.next ensures Has(c.pending, id) {
      if id < b.next {
        assert Has(b.pending, id);
        var g :| g in b.pending && g.sequence == id;
        assert g in c.pending;
      }
    }
  }

  lemma ScheduleGrows(b: Bus, time: nat, p: BusEvent)
    requires IsOwn(p)
    ensures Grows(b, Schedule(b, time, p))
  {
    assert Event(time, b.next, KindOf(p), p) in Schedule(b, time, p).pending;
  }

  lemma DispatchGrows(b: Bus)
    ensures Grows(b, ScheduleDispatch(b))
    ensures forall g :: g in ScheduleDispatch(b).pending && g !in b.pending ==> !g.payload.Timeout?
  {
    hide FirstReservable, Grows;
    var flagged := b.(dispatchPending := true);
    ScheduleGrows(flagged, b.now, Dispatch);
    Unmoved(b, flagged);
    Unmoved(b, b);
    GrowsTransitive(b, flagged, Schedule(flagged, b.now, Dispatch));
  }

  // ---------- The dispatch loop ----------

  lemma TakenGrows(b: Bus, i: nat, consumer: string, cursor: Option<nat>, d: Decision)
    requires i < |b.records| && b.records[i].destination in b.destinations
    ensures Grows(b, TakeReservation(b, i, consumer, cursor, d))
  {
    hide KindOf;
    var c := TakeReservation(b, i, consumer, cursor, d);
    var p := Timeout(i, b.records[i].attempt + 1);
    var destination := b.destinations[b.records[i].destination];
    var e := Event(b.now + destination.deliveryDelay + d.extraDelay + destination.ackTimeout, b.next, KindOf(p), p);
    assert e in c.pending;
  }

  lemma CopiesGrow(b: Bus, c: Bus, copy: Copy, arrival: nat, spacing: nat, n: nat)
    requires CopiesScheduled(b, c, copy, arrival, spacing, 0, n)
    ensures Grows(b, c)
  {
    forall id | b.next <= id < c.next ensures Has(c.pending, id) {
      assert CopyArrival(b, copy, arrival, spacing, 0, id - b.next) in c.pending;
    }
    forall g | g in c.pending && g !in b.pending ensures IsOwn(g.payload) {
      assert g in c.pending - b.pending;
      assert g == CopyArrival(b, copy, arrival, spacing, 0, g.sequence - b.next);
    }
  }

  lemma ReserveGrows(b: Bus, i: nat, faults: FaultPort)
    requires Routed(b) && i < |b.records| && CanReserve(b, i)
    ensures Grows(b, ReserveRecord(b, i, faults))
  {
    hide CanReserve, CopiesScheduled, TakeReservation, Grows;
    var s := Select(b, i);
    var d := faults(i, b.records[i].attempt + 1, s.consumer);
    var taken := TakeReservation(b, i, s.consumer, s.cursor, d);
    TakenGrows(b, i, s.consumer, s.cursor, d);
    ReserveIsScheduled(b, i, s.consumer, s.cursor, d);
    CopiesGrow(taken, ReserveRecord(b, i, faults), Copy(i, b.records[i].attempt + 1, s.consumer, d.drop, false),
               b.now + b.destinations[b.records[i].destination].deliveryDelay
                   + d.extraDelay, d.copySpacing, CopyCount(d));
    GrowsTransitive(b, taken, ReserveRecord(b, i, faults));
  }

  lemma {:induction false} DispatchAllGrows(b: Bus, faults: FaultPort)
    requires Routed(b)
    ensures Grows(b, DispatchAll(b, faults))
    decreases QueuedCount(b.records)
  {
    hide Grows, ReserveRecord, CanReserve;
    match FirstReservable(b, 0)
    case None => Unmoved(b, b);
    case Some(i) =>
      ReserveShrinksQueue(b, i, faults);
      ReserveGrows(b, i, faults);
      var c := ReserveRecord(b, i, faults);
      DispatchAllGrows(c, faults);
      GrowsTransitive(b, c, DispatchAll(c, faults));
  }

  // ---------- Settling and failing ----------

  /** The event behind the deadline of a record in flight is its timeout. */
  lemma DeadlineIsTimeout(b: Bus, i: nat, g: Event<BusEvent>)
    requires Core(b, None) && i < |b.records| && b.records[i].state == IN_FLIGHT && b.records[i].deadline.Some?
    requires g in b.pending && g.sequence == b.records[i].deadline.value
    ensures g.payload.Timeout?
  {
    hide ConfigOk, RecordsOk, ReservationsOk, DeadOk, CapacityOk, CopiesOk, OrderOk;
    var timer := Timeout(i, b.records[i].attempt);
    assert Waiting(b.records, i) && TimerOf(b.records, i) == timer;
    assert Awaited(b.pending, timer);
    var t :| t in b.pending && t.payload == timer;
    assert TimerExpected(b.records, b.dispatchPending, t);
    assert t == g;
  }

  lemma CancelMoves(b: Bus, i: nat, c: Bus)
    requires Core(b, None) && i < |b.records| && b.records[i].state == IN_FLIGHT
    requires SameOutside(b, c) && c.next == b.next && c.pending == CancelDeadline(b, b.records[i]).pending
    ensures Moves(b, c)
  {
    hide Core;
    forall g | g in b.pending && g !in c.pending ensures g.payload.Timeout? { DeadlineIsTimeout(b, i, g); }
  }

  lemma SettleMoves(b: Bus, i: nat)
    requires Core(b, None) && i < |b.records| && b.records[i].state == IN_FLIGHT
    ensures Moves(b, Settle(b, i))
  {
    hide Core, Moves;
    CancelMoves(b, i, Settle(b, i));
  }

  /** The state of a failing record's broker before its retry is scheduled. */
  lemma FailMoves(b: Bus, i: nat, reason: FailureReason, fromTimeout: bool)
    requires fromTimeout || Core(b, None)
    requires i < |b.records| && b.records[i].state == IN_FLIGHT && b.records[i].destination in b.destinations
    ensures Moves(b, Fail(b, i, reason, fromTimeout))
  {
    hide Core, Moves, Grows, Schedule, CancelDeadline;
    var r := b.records[i];
    var c := Fail(b, i, reason, fromTimeout);
    var left := b.(pending := if fromTimeout then b.pending else CancelDeadline(b, r).pending);
    CancelFrame(b, r);
    if fromTimeout { Unmoved(b, left); } else { CancelMoves(b, i, left); }
    var freed := Unreserve(if fromTimeout then b else CancelDeadline(b, r), r);
    var settled := r.(settled := true, deadline := None);
    if r.attempt >= b.destinations[r.destination].maxAttempts {
      Unmoved(left, c);
      MovesThenGrows(b, left, c);
    } else {
      var waiting := freed.(records := freed.records[i := settled.(state := RETRY)]);
      Unmoved(left, waiting);
      ScheduleGrows(waiting, b.now + b.destinations[r.destination].retryDelay, Retry(i));
      MovesThenGrows(b, left, waiting);
      MovesThenGrows(b, waiting, c);
    }
  }

  lemma CancelFrame(b: Bus, r: Routing)
    ensures var c := CancelDeadline(b, r); c == b.(pending := c.pending)
  {}

  lemma FailRecordMoves(b: Bus, i: nat, reason: FailureReason, fromTimeout: bool)
    requires fromTimeout || Core(b, None)
    requires i < |b.records| && b.records[i].destination in b.destinations
    ensures Moves(b, FailRecord(b, i, reason, fromTimeout))
  {
    hide Core, Moves, Grows, Fail, ScheduleDispatch;
    if b.records[i].state == IN_FLIGHT && !b.records[i].settled {
      FailMoves(b, i, reason, fromTimeout);
      DispatchGrows(Fail(b, i, reason, fromTimeout));
      MovesThenGrows(b, Fail(b, i, reason, fromTimeout), FailRecord(b, i, reason, fromTimeout));
    } else {
      Unmoved(b, b);
    }
  }

  lemma AnswerMoves(b: Bus, delivery: nat, outcome: Outcome)
    requires Core(b, None) && Routed(b)
    ensures Moves(b, Acknowledge(b, delivery, outcome).0)
  {
    hide Core, Moves, Grows, Settle, FailRecord, ScheduleDispatch;
    Unmoved(b, b);
    if Open(b, delivery) {
      var i := b.copies[delivery].routing;
      FailRecordMoves(b, i, Nacked, false);
      SettleMoves(b, i);
      DispatchGrows(Settle(b, i));
      MovesThenGrows(b, Settle(b, i), ScheduleDispatch(Settle(b, i)));
    }
  }

  lemma ArriveMoves(b: Bus, i: nat, delivery: nat)
    requires Core(b, None) && Routed(b)
    ensures Moves(b, Arrive(b, i, delivery).0)
  {
    hide Core, Moves, Grows, FailRecord;
    Unmoved(b, b);
    if i < |b.records| && delivery < |b.copies| {
      FailRecordMoves(b, i, Unavailable, false);
      Unmoved(b, MarkDelivered(b, delivery));
    }
  }

  /** A handler of the broker's own events. */
  lemma OwnMoves(b: Bus, p: BusEvent, faults: FaultPort)
    requires Core(b, HoleOf(p)) && Routed(b) && IsOwn(p)
    ensures Moves(b, RunHandler(b, p, faults).0)
  {
    hide Core, Moves, Grows, FailRecord, ScheduleDispatch, Arrive, DispatchAll;
    Unmoved(b, b);
    match p
    case Dispatch =>
      var c := b.(dispatchPending := false);
      Unmoved(b, c);
      DispatchAllGrows(c, faults);
      MovesThenGrows(b, c, DispatchAll(c, faults));
    case Arrival(i, delivery) => ArriveMoves(b, i, delivery);
    case Timeout(i, attempt) => if i < |b.records| { FailRecordMoves(b, i, TimedOut, true); }
    case Retry(i) =>
      if i < |b.records| && b.records[i].state == RETRY {
        Unmoved(b, Requeue(b, i));
        DispatchGrows(Requeue(b, i));
        MovesThenGrows(b, Requeue(b, i), ScheduleDispatch(Requeue(b, i)));
      }
  }

  lemma AdmitGrows(b: Bus, operation: nat, destination: string)
    ensures var c := Admit(b, operation, destination).0;
      Grows(b, c) && forall g :: g in c.pending && g !in b.pending ==> !g.payload.Timeout?
  {
    hide Grows, ScheduleDispatch;
    Unmoved(b, b);
    if destination in b.destinations {
      Unmoved(b, Enqueue(b, destination));
      DispatchGrows(Enqueue(b, destination));
      GrowsTransitive(b, Enqueue(b, destination), ScheduleDispatch(Enqueue(b, destination)));
    }
  }

  // ---------- What others do to the agenda ----------

  ghost function Own(pending: Agenda): Agenda { set g | g in pending && IsOwn(g.payload) }

  /** The broker with the events of everybody else replaced. */
  ghost function Among(b: Bus, others: Agenda, next: EventId): Bus {
    b.(pending := Own(b.pending) + others, next := next)
  }

  /** These may stand beside the broker's own events. */
  ghost predicate Beside(b: Bus, others: Agenda, next: EventId) {
    && b.next <= next
    && (forall g :: g in others ==> !IsOwn(g.payload) && EventOk(b.destinations, b.copies, next, b.now, g))
    && (forall g, h :: g in others && h in others && g.sequence == h.sequence ==> g == h)
    && (forall g, h :: g in others && h in Own(b.pending) ==> g.sequence != h.sequence)
  }

  lemma AmongTimers(records: seq<Routing>, flag: bool, pending: Agenda, hole: Option<BusEvent>, others: Agenda)
    requires TimersOk(records, flag, pending, hole) && forall g :: g in others ==> !IsOwn(g.payload)
    ensures TimersOk(records, flag, Own(pending) + others, hole)
  {
    var after := Own(pending) + others;
    forall g | g in after ensures TimerExpected(records, flag, g) && (IsTimer(g.payload) ==> Some(g.payload) != hole) {
      if g in pending { assert TimerExpected(records, flag, g); }
    }
    forall p | Awaited(pending, p) && IsTimer(p) ensures Awaited(after, p) {
      var g :| g in pending && g.payload == p;
      assert g in after;
    }
  }

  lemma AmongKeeps(b: Bus, hole: Option<BusEvent>, others: Agenda, next: EventId)
    requires Core(b, hole) && Beside(b, others, next)
    ensures Core(Among(b, others, next), hole)
    ensures NoLostWakeup(b) ==> NoLostWakeup(Among(b, others, next))
  {
    hide ConfigOk, RecordsOk, ReservationsOk, DeadOk, CapacityOk, CopiesOk, TimersOk, OrderOk, CanReserve;
    var c := Among(b, others, next);
    AmongTimers(b.records, b.dispatchPending, b.pending, hole, others);
    SameSelections(b, c);
    forall g | g in c.pending ensures EventOk(c.destinations, c.copies, c.next, c.now, g) {
      if g in b.pending { assert EventOk(b.destinations, b.copies, b.next, b.now, g); }
    }
    assert DistinctSequences(b.pending);
  }
}
