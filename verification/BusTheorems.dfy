/**
 * The results about the message bus over whole runs: every reachable state is safe, no record waits for an event that
 * is not coming, and settled records stay settled.
 */
module BusTheorems {
  import opened Outcomes
  import opened Scheduler
  import opened BusModel
  import opened BusInvariants

  // ---------- Every step keeps the invariant ----------

  function HoleOf(p: BusEvent): Option<BusEvent> {
    if IsTimer(p) then Some(p) else None
  }

  /** Taking the least event never turns the clock back, and removes the only timer with its payload. */
  lemma TakeLeastKeeps(b: Bus, e: Event<BusEvent>)
    requires Core(b, None) && IsLeast(e, b.pending)
    ensures Core(Take(b, e), HoleOf(e.payload)) && TimerExpected(b.records, b.dispatchPending, e)
    ensures b.now <= e.time
  {
    var c := Take(b, e);
    assert EventOk(b.destinations, b.copies, b.next, b.now, e);
    forall f | f in c.pending ensures EventOk(c.destinations, c.copies, c.next, c.now, f) {
      assert EventOk(b.destinations, b.copies, b.next, b.now, f);
      assert Compare(e, f) <= 0;
    }
    TakenTimer(b.records, b.dispatchPending, b.pending, e);
  }

  lemma TakenTimer(records: seq<Routing>, flag: bool, pending: set<Event<BusEvent>>, e: Event<BusEvent>)
    requires TimersOk(records, flag, pending, None) && e in pending
    ensures TimersOk(records, flag, pending - {e}, HoleOf(e.payload)) && TimerExpected(records, flag, e)
  {
    var fewer := pending - {e};
    forall f | f in fewer
      ensures TimerExpected(records, flag, f) && (IsTimer(f.payload) ==> Some(f.payload) != HoleOf(e.payload))
    {
      assert TimerExpected(records, flag, f);
    }
    forall p | Awaited(pending, p) && p != e.payload ensures Awaited(fewer, p) {
      var f :| f in pending && f.payload == p;
      assert f in fewer;
    }
    forall i: nat | Waiting(records, i) && Some(TimerOf(records, i)) != HoleOf(e.payload)
      ensures Awaited(fewer, TimerOf(records, i))
    {
      assert Awaited(pending, TimerOf(records, i));
    }
  }

  lemma FailRecordKeeps(b: Bus, i: nat, reason: FailureReason)
    requires Inv(b) && i < |b.records| && b.records[i].destination in b.destinations
    ensures Inv(FailRecord(b, i, reason, false))
  {
    if b.records[i].state == IN_FLIGHT && !b.records[i].settled {
      FailKeeps(b, i, reason, false);
      ScheduleDispatchKeeps(Fail(b, i, reason, false));
    }
  }

  lemma TimeoutKeeps(b: Bus, i: nat, attempt: nat)
    requires Core(b, Some(Timeout(i, attempt))) && Routed(b)
    requires i < |b.records| && b.records[i].state == IN_FLIGHT && b.records[i].attempt == attempt
    ensures Inv(OnTimeout(b, i, attempt))
  {
    assert RecordOk(b.destinations, b.subscribers, b.records[i]);
    FailKeeps(b, i, TimedOut, true);
    ScheduleDispatchKeeps(Fail(b, i, TimedOut, true));
  }

  lemma RetryKeeps(b: Bus, i: nat)
    requires Core(b, Some(Retry(i))) && i < |b.records| && b.records[i].state == RETRY
    ensures Inv(OnRetry(b, i))
  {
    RequeueKeeps(b, i);
    ScheduleDispatchKeeps(Requeue(b, i));
  }

  lemma DispatchKeeps(b: Bus, faults: FaultPort)
    requires Core(b, Some(Dispatch)) && Routed(b)
    ensures Inv(DispatchAll(b.(dispatchPending := false), faults))
  {
    var c := b.(dispatchPending := false);
    forall e | e in c.pending ensures TimerExpected(c.records, false, e) {
      assert TimerExpected(b.records, b.dispatchPending, e);
    }
    DispatchAllKeeps(c, faults);
  }

  lemma ArriveKeeps(b: Bus, i: nat, delivery: nat)
    requires Inv(b) && Routed(b)
    ensures Inv(Arrive(b, i, delivery).0)
  {
    hide Inv, FailRecord, MarkDelivered;
    if i < |b.records| && delivery < |b.copies| {
      if Arrive(b, i, delivery).0 == FailRecord(b, i, Unavailable, false) {
        FailRecordKeeps(b, i, Unavailable);
      } else {
        MarkDeliveredKeeps(b, delivery);
      }
    }
  }

  lemma AcknowledgeKeeps(b: Bus, delivery: nat, outcome: Outcome)
    requires Inv(b) && Routed(b)
    ensures Inv(Acknowledge(b, delivery, outcome).0)
  {
    if Open(b, delivery) {
      var i := b.copies[delivery].routing;
      FailRecordKeeps(b, i, Nacked);
      SettleKeeps(b, i);
      ScheduleDispatchKeeps(Settle(b, i));
    }
  }

  lemma AdmitKeeps(b: Bus, operation: nat, destination: string)
    requires Inv(b)
    ensures Inv(Admit(b, operation, destination).0)
  {
    if destination in b.destinations && Fits(b, destination) {
      EnqueueKeeps(b, destination);
      ScheduleDispatchKeeps(Enqueue(b, destination));
    }
  }

  lemma HandleKeeps(b: Bus, e: Event<BusEvent>, faults: FaultPort)
    requires Inv(b) && IsLeast(e, b.pending) && Routed(b)
    ensures Inv(RunHandler(Take(b, e), e.payload, faults).0)
  {
    hide Core, NoLostWakeup, OnTimeout, OnRetry, Admit, Arrive, DispatchAll;
    var c := Take(b, e);
    TakeLeastKeeps(b, e);
    StillAwake(b, c);
    match e.payload
    case Timeout(i, attempt) => TimeoutKeeps(c, i, attempt);
    case Retry(i) => RetryKeeps(c, i);
    case Dispatch => DispatchKeeps(c, faults);
    case Admission(operation, destination) => AdmitKeeps(c, operation, destination);
    case Arrival(i, delivery) => ArriveKeeps(c, i, delivery);
    case Foreign =>
  }

  /** What can be reserved does not depend on the clock or the agenda. */
  lemma StillAwake(b: Bus, c: Bus)
    requires c == b.(pending := c.pending, now := c.now) && NoLostWakeup(b)
    ensures NoLostWakeup(c)
  {
    SameSelections(b, c);
  }

  /** Scheduling an event that is no timer changes nothing the bus waits for. */
  lemma ScheduleOtherKeeps(b: Bus, time: nat, payload: BusEvent)
    requires Inv(b) && b.now <= time
    requires (payload.Foreign? || (payload.Admission? && payload.destination in b.destinations))
    ensures Inv(Schedule(b, time, payload))
  {
    var c := Schedule(b, time, payload);
    ScheduledEvents(b, time, payload);
    OtherEvents(b.records, b.dispatchPending, b.pending, None, c.pending);
    SameSelections(b, c);
  }

  lemma {:induction false} ScanIgnores(b: Bus, c: Bus, destination: string, offset: nat)
    requires c.subscribers == b.subscribers && c.cursors == b.cursors && c.reserved == b.reserved
    requires forall k :: 0 <= k < |SubscribersOf(b, destination)| ==>
      (Sub(destination, SubscribersOf(b, destination)[k]) in c.ready <==>
       Sub(destination, SubscribersOf(b, destination)[k]) in b.ready)
    ensures ScanQueue(c, destination, offset) == ScanQueue(b, destination, offset)
    decreases |SubscribersOf(b, destination)| - offset
  {
    if offset < |SubscribersOf(b, destination)| { ScanIgnores(b, c, destination, offset + 1); }
  }

  /** The readiness of a component that subscribes nowhere does not matter. */
  lemma StrangerIgnored(b: Bus, c: Bus, consumer: string)
    requires c == b.(ready := c.ready) && (forall s: Sub :: s.consumer != consumer ==> (s in c.ready <==> s in b.ready))
    requires forall d :: d in b.subscribers ==> consumer !in b.subscribers[d]
    ensures NoLostWakeup(b) ==> NoLostWakeup(c)
  {
    forall i: nat | i < |b.records| ensures CanReserve(c, i) <==> CanReserve(b, i) {
      var d := b.records[i].destination;
      forall k | 0 <= k < |SubscribersOf(b, d)|
        ensures Sub(d, SubscribersOf(b, d)[k]) in c.ready <==> Sub(d, SubscribersOf(b, d)[k]) in b.ready
      {
        assert SubscribersOf(b, d)[k] in SubscribersOf(b, d);
      }
      ScanIgnores(b, c, d, 0);
    }
  }

  lemma ReadyChangedKeeps(b: Bus, c: Bus, consumer: string)
    requires Inv(b) && c == b.(ready := c.ready)
    requires (forall s: Sub :: s.consumer != consumer ==> (s in c.ready <==> s in b.ready))
    ensures Inv(ConsumerChanged(c, consumer))
  {
    if exists d :: d in b.subscribers && consumer in b.subscribers[d] {
      ScheduleDispatchKeeps(c);
    } else {
      StrangerIgnored(b, c, consumer);
    }
  }

  /** One step of any kind keeps the invariant. */
  lemma StepKeeps(b: Bus, step: Step, faults: FaultPort)
    requires Inv(b) && Routed(b)
    ensures Inv(Apply(b, step, faults).0)
  {
    hide Inv, RunHandler, Acknowledge, ConsumerChanged;
    match step
    case DispatchNext => if b.pending != {} { HandleKeeps(b, Least(b.pending), faults); }
    case Publish(operation, destination) =>
      if destination in b.destinations { ScheduleOtherKeeps(b, b.now, Admission(operation, destination)); }
    case Acknowledged(delivery, outcome) => AcknowledgeKeeps(b, delivery, outcome);
    case ReadyChanged(consumer, ready) =>
      var c := b.(ready := set s | s in b.ready + ready
                  && (if s.consumer == consumer then s in ready else s in b.ready));
      ReadyChangedKeeps(b, c, consumer);
    case OtherWork(delay) => ScheduleOtherKeeps(b, b.now + delay, Foreign);
  }

  // ---------- Whole runs ----------

  /** A bus after construction and subscription: no record, no event, nothing reserved. */
  ghost predicate Initial(b: Bus) {
    && ConfigOk(b.destinations, b.subscribers)
    && b.records == [] && b.copies == [] && b.reserved == {} && b.dead == [] && !b.dispatchPending && b.pending == {}
  }

  ghost function Run(b: Bus, steps: seq<Step>, faults: FaultPort): (c: Bus)
    requires Inv(b)
    ensures Inv(c)
    decreases |steps|
  {
    if steps == [] then b
    else
      CoreIsRouted(b, None);
      StepKeeps(b, steps[0], faults);
      Run(Apply(b, steps[0], faults).0, steps[1..], faults)
  }

  lemma InitialInv(b: Bus)
    requires Initial(b)
    ensures Inv(b)
  {}

  /** No consumer the record could go to is ready. */
  ghost predicate NoReadyConsumer(b: Bus, r: Routing) {
    if r.subscriber.Some? then Sub(r.destination, r.subscriber.value) !in b.ready
    else forall k :: 0 <= k < |SubscribersOf(b, r.destination)| ==>
        Sub(r.destination, SubscribersOf(b, r.destination)[k]) !in b.ready
  }

  lemma MultipleBounds(n: int, d: int)
    requires n > 0
    ensures d >= 1 ==> n * d >= n
    ensures d <= -1 ==> n * d <= -n
  {
    if d >= 1 {
      assert n * (d - 1) >= 0;
    } else if d <= -1 {
      assert n * (-d - 1) >= 0;
    }
  }

  lemma DivisionIsUnique(a: int, n: int, q: int, r: int)
    requires n > 0 && a == n * q + r && 0 <= r < n
    ensures a % n == r
  {
    var d := a / n - q;
    assert n * d == n * (a / n) - n * q;
    assert n * d == r - a % n;
    MultipleBounds(n, d);
  }

  /** How many places the cursor is before position `k`, going round. */
  function Ahead(cursor: int, k: int, n: int): (offset: int)
    requires n > 0
    ensures 0 <= offset < n
  { (k - cursor) % n }

  lemma AheadReaches(cursor: int, k: int, n: int)
    requires 0 <= k < n
    ensures (cursor + Ahead(cursor, k, n)) % n == k
  {
    var q := (k - cursor) / n;
    assert k - cursor == n * q + Ahead(cursor, k, n);
    assert n * (-q) == -(n * q);
    DivisionIsUnique(cursor + Ahead(cursor, k, n), n, -q, k);
  }

  /** The scan finds some consumer whenever one at or beyond `offset` is available, and finds the nearest. */
  lemma {:induction false} ScanFinds(b: Bus, destination: string, offset: nat, target: nat) returns (found: nat)
    requires offset <= target < |SubscribersOf(b, destination)|
    requires var subs := SubscribersOf(b, destination);
             Available(b, Sub(destination, subs[(CursorOf(b, destination) + target) % |subs|]))
    ensures offset <= found <= target
    ensures ScanQueue(b, destination, offset) ==
        Some((CursorOf(b, destination) + found) % |SubscribersOf(b, destination)|)
    decreases target - offset
  {
    var subs := SubscribersOf(b, destination);
    var index := (CursorOf(b, destination) + offset) % |subs|;
    if Available(b, Sub(destination, subs[index])) {
      found := offset;
    } else {
      found := ScanFinds(b, destination, offset + 1, target);
    }
  }

  /** A queue record is reservable exactly when one of its consumers is available. */
  lemma ScanFindsAny(b: Bus, destination: string, k: nat)
    requires k < |SubscribersOf(b, destination)| && Available(b, Sub(destination, SubscribersOf(b, destination)[k]))
    ensures ScanQueue(b, destination, 0).Some?
  {
    var n := |SubscribersOf(b, destination)|;
    AheadReaches(CursorOf(b, destination), k, n);
    var found := ScanFinds(b, destination, 0, Ahead(CursorOf(b, destination), k, n));
  }

  /** Nothing more will happen to this record unless a consumer becomes ready. */
  ghost predicate AtRest(b: Bus, r: Routing) {
    r.state == ACKED || r.state == DEAD || (r.state == QUEUED && NoReadyConsumer(b, r))
  }

  lemma UnreservableIsAtRest(b: Bus, i: nat)
    requires i < |b.records| && RecordOk(b.destinations, b.subscribers, b.records[i])
    requires b.records[i].state == QUEUED && !CanReserve(b, i) && b.reserved == {}
    ensures NoReadyConsumer(b, b.records[i])
  {
    var r := b.records[i];
    if r.subscriber.None? {
      forall k | 0 <= k < |SubscribersOf(b, r.destination)|
        ensures Sub(r.destination, SubscribersOf(b, r.destination)[k]) !in b.ready
      {
        if Available(b, Sub(r.destination, SubscribersOf(b, r.destination)[k])) { ScanFindsAny(b, r.destination, k); }
      }
    }
  }

  /**
   * When nothing is pending, every record is acknowledged, dead, or queued for consumers none of which is ready, and no
   * consumer is reserved.
   */
  lemma QuietBusIsDone(b: Bus)
    requires Inv(b) && b.pending == {}
    ensures b.reserved == {}
    ensures forall i: nat :: i < |b.records| ==> AtRest(b, b.records[i])
  {
    forall i: nat | i < |b.records| ensures !Waiting(b.records, i) {
      if i < |b.records| { assert !Awaited(b.pending, TimerOf(b.records, i)); }
    }
    forall i: nat, s ensures !Holds(b.records, i, s) {
      if i < |b.records| { assert !Waiting(b.records, i); }
    }
    assert b.reserved == {};
    assert !b.dispatchPending by { assert !Awaited(b.pending, Dispatch); }
    forall i: nat | i < |b.records| ensures AtRest(b, b.records[i]) {
      assert RecordOk(b.destinations, b.subscribers, b.records[i]);
      assert !Waiting(b.records, i);
      if b.records[i].state == QUEUED { UnreservableIsAtRest(b, i); }
    }
  }

  /** No run, whatever consumers and faults do, ends with a record that was forgotten. */
  lemma NoRunForgetsARecord(b: Bus, steps: seq<Step>, faults: FaultPort)
    requires Initial(b)
    ensures Inv(b)
    ensures Run(b, steps, faults).pending == {} ==>
      forall r :: r in Run(b, steps, faults).records ==> AtRest(Run(b, steps, faults), r)
  {
    InitialInv(b);
    var c := Run(b, steps, faults);
    if c.pending == {} { QuietBusIsDone(c); }
  }

  predicate AttemptsWithin(r: Routing, max: nat) {
    && r.attempt <= max
    && (r.state == QUEUED || r.state == RETRY ==> r.attempt < max)
    && (r.state == DEAD ==> r.attempt == max)
  }

  /** The safety of every reachable state, spelled out. */
  lemma EveryReachableStateIsSafe(b: Bus, steps: seq<Step>, faults: FaultPort)
    requires Initial(b)
    ensures Inv(b)
    ensures var c := Run(b, steps, faults);
      && (forall s :: s in c.reserved <==> exists i: nat :: Holds(c.records, i, s))
      && (forall i: nat, j: nat, s :: Holds(c.records, i, s) && Holds(c.records, j, s) ==> i == j)
      && (forall r :: r in c.records ==>
          r.destination in c.destinations
          && AttemptsWithin(r, c.destinations[r.destination].maxAttempts))
      && (forall i: nat :: i < |c.records| ==> (c.records[i].state == DEAD <==> exists k: nat :: Buried(c.dead, k, i)))
      && (forall k: nat, l: nat, i: nat :: Buried(c.dead, k, i) && Buried(c.dead, l, i) ==> k == l)
      && (forall d :: d in c.destinations ==> ActiveCount(c.records, d) <= c.destinations[d].capacity)
      && (forall i: nat, j: nat :: SameQueue(c.records, i, j) && c.records[j].attempt > 0 ==> c.records[i].attempt > 0)
  {
    InitialInv(b);
    var c := Run(b, steps, faults);
    forall r | r in c.records ensures RecordOk(c.destinations, c.subscribers, r) {
      var i :| 0 <= i < |c.records| && c.records[i] == r;
    }
  }

  // ---------- No lost wake-up ----------

  predicate MovesOn(p: BusEvent, i: nat) {
    match p
    case Timeout(j, _) => j == i
    case Retry(j) => j == i
    case _ => false
  }

  /** The pending events that may move record `i` on. */
  ghost function TimersFor(b: Bus, i: nat): set<Event<BusEvent>> { set e | e in b.pending && MovesOn(e.payload, i) }

  ghost function DispatchesOf(b: Bus): set<Event<BusEvent>> { set e | e in b.pending && e.payload.Dispatch? }

  lemma TimersMatch(b: Bus, i: nat)
    requires Inv(b) && i < |b.records|
    ensures Waiting(b.records, i) ==> exists e :: TimersFor(b, i) == {e} && e.payload == TimerOf(b.records, i)
    ensures !Waiting(b.records, i) ==> TimersFor(b, i) == {}
  {
    hide RecordsOk, ReservationsOk, DeadOk, CapacityOk, CopiesOk, EventsOk, OrderOk, NoLostWakeup;
    forall e | e in TimersFor(b, i) ensures Waiting(b.records, i) && e.payload == TimerOf(b.records, i) {
      assert TimerExpected(b.records, b.dispatchPending, e);
    }
    if Waiting(b.records, i) {
      assert Awaited(b.pending, TimerOf(b.records, i));
      var e :| e in b.pending && e.payload == TimerOf(b.records, i);
      assert TimersFor(b, i) == {e};
    }
  }

  lemma DispatchMatches(b: Bus, i: nat)
    requires Inv(b) && i < |b.records| && CanReserve(b, i)
    ensures exists e :: DispatchesOf(b) == {e}
  {
    hide RecordsOk, ReservationsOk, DeadOk, CapacityOk, CopiesOk, EventsOk, OrderOk, CanReserve;
    assert b.dispatchPending;
    assert Awaited(b.pending, Dispatch);
    var e :| e in b.pending && e.payload == Dispatch;
    assert DispatchesOf(b) == {e};
  }

  /**
   * At every moment of every run: a record in flight has exactly one pending event of its own, the timeout of its
   * current attempt; a record in retry exactly one, its retry; any other record none. While some record can be
   * reserved, exactly one dispatch is pending.
   */
  lemma EveryRecordHasItsEvent(b: Bus, steps: seq<Step>, faults: FaultPort, i: nat)
    requires Initial(b)
    ensures Inv(b)
    ensures var c := Run(b, steps, faults);
      i < |c.records| ==>
        && (c.records[i].state == IN_FLIGHT ==> exists e ::
            TimersFor(c, i) == {e}
            && e.payload == Timeout(i, c.records[i].attempt))
        && (c.records[i].state == RETRY ==> exists e :: TimersFor(c, i) == {e} && e.payload == Retry(i))
        && (c.records[i].state != IN_FLIGHT && c.records[i].state != RETRY ==> TimersFor(c, i) == {})
        && (CanReserve(c, i) ==> exists e :: DispatchesOf(c) == {e})
  {
    InitialInv(b);
    var c := Run(b, steps, faults);
    hide Inv, Run, CanReserve;
    if i < |c.records| {
      TimersMatch(c, i);
      if CanReserve(c, i) { DispatchMatches(c, i); }
    }
  }

  // ---------- Settled records stay settled ----------

  predicate Final(r: Routing) {
    r.state == ACKED || r.state == DEAD
  }

  /** From `b` to `c` no settled record changes, no record disappears, and no dead letter is lost. */
  ghost predicate Preserves(b: Bus, c: Bus) {
    && |b.records| <= |c.records| && b.dead <= c.dead
    && (forall i :: 0 <= i < |b.records| && Final(b.records[i]) ==> c.records[i] == b.records[i])
    && (forall i :: 0 <= i < |b.records| ==> b.records[i].attempt <= c.records[i].attempt)
  }

  lemma PreservesTransitive(a: Bus, b: Bus, c: Bus)
    requires Preserves(a, b) && Preserves(b, c)
    ensures Preserves(a, c)
  {}

  lemma ReservePreserves(b: Bus, i: nat, faults: FaultPort)
    requires Routed(b) && i < |b.records| && CanReserve(b, i)
    ensures Preserves(b, ReserveRecord(b, i, faults))
  {
    var s := Select(b, i);
    ReserveIsScheduled(b, i, s.consumer, s.cursor, faults(i, b.records[i].attempt + 1, s.consumer));
    hide ScanQueue, SelectTopic, ScheduleCopies;
  }

  lemma {:induction false} DispatchAllPreserves(b: Bus, faults: FaultPort)
    requires Routed(b)
    ensures Preserves(b, DispatchAll(b, faults))
    decreases QueuedCount(b.records)
  {
    match FirstReservable(b, 0)
    case None =>
    case Some(i) =>
      hide ReserveRecord, CanReserve, Preserves;
      ReserveShrinksQueue(b, i, faults);
      ReservePreserves(b, i, faults);
      DispatchAllPreserves(ReserveRecord(b, i, faults), faults);
      PreservesTransitive(b, ReserveRecord(b, i, faults), DispatchAll(b, faults));
  }

  lemma ScheduleDispatchFrame(b: Bus)
    ensures var c := ScheduleDispatch(b);
            c == b.(dispatchPending := c.dispatchPending, pending := c.pending, next := c.next)
  {}

  lemma FailPreserves(b: Bus, i: nat, reason: FailureReason, fromTimeout: bool)
    requires i < |b.records| && b.records[i].destination in b.destinations
    ensures Preserves(b, FailRecord(b, i, reason, fromTimeout))
  {
    hide ScheduleDispatch, FirstReservable, Fail, Preserves;
    if b.records[i].state == IN_FLIGHT && !b.records[i].settled {
      var failed := Fail(b, i, reason, fromTimeout);
      FailOncePreserves(b, i, reason, fromTimeout);
      ScheduleDispatchFrame(failed);
      SameRecordsPreserve(b, failed, ScheduleDispatch(failed));
    } else {
      SameRecordsPreserve(b, b, b);
    }
  }

  lemma FailOncePreserves(b: Bus, i: nat, reason: FailureReason, fromTimeout: bool)
    requires i < |b.records| && b.records[i].state == IN_FLIGHT && b.records[i].destination in b.destinations
    ensures Preserves(b, Fail(b, i, reason, fromTimeout))
  {
    Freed(b, b.records[i], fromTimeout);
    hide Unreserve, CancelDeadline, KindOf;
  }

  /** Giving up a reservation and a deadline changes nothing else. */
  lemma Freed(b: Bus, r: Routing, fromTimeout: bool)
    ensures var c := Unreserve(if fromTimeout then b else CancelDeadline(b, r), r);
      c == b.(reserved := c.reserved, pending := c.pending)
  {}

  lemma SameRecordsPreserve(b: Bus, c: Bus, d: Bus)
    requires (c == b || Preserves(b, c)) && d.records == c.records && d.dead == c.dead
    ensures Preserves(b, d)
  {}

  lemma HandlerPreserves(b: Bus, payload: BusEvent, faults: FaultPort)
    requires Routed(b)
    ensures Preserves(b, RunHandler(b, payload, faults).0)
  {
    hide FirstReservable, DispatchAll, FailRecord, ScheduleDispatch;
    match payload
    case Dispatch => DispatchAllPreserves(b.(dispatchPending := false), faults);
    case Timeout(i, attempt) => if i < |b.records| { FailPreserves(b, i, TimedOut, true); }
    case Arrival(i, delivery) => if i < |b.records| { FailPreserves(b, i, Unavailable, false); }
    case Retry(i) => if i < |b.records| { ScheduleDispatchFrame(Requeue(b, i)); }
    case Admission(operation, destination) =>
      if destination in b.destinations { ScheduleDispatchFrame(Enqueue(b, destination)); }
    case Foreign =>
  }

  lemma AcknowledgePreserves(b: Bus, delivery: nat, outcome: Outcome)
    requires Routed(b)
    ensures Preserves(b, Acknowledge(b, delivery, outcome).0)
  {
    hide ScheduleDispatch, FailRecord, Settle, Preserves;
    SameRecordsPreserve(b, b, b);
    if Open(b, delivery) {
      var i := b.copies[delivery].routing;
      FailPreserves(b, i, Nacked, false);
      SettlePreserves(b, i);
      ScheduleDispatchFrame(Settle(b, i));
      SameRecordsPreserve(b, Settle(b, i), ScheduleDispatch(Settle(b, i)));
    }
  }

  lemma SettlePreserves(b: Bus, i: nat)
    requires i < |b.records| && b.records[i].state == IN_FLIGHT
    ensures Preserves(b, Settle(b, i))
  {}

  lemma StepPreserves(b: Bus, step: Step, faults: FaultPort)
    requires Routed(b)
    ensures Preserves(b, Apply(b, step, faults).0)
  {
    match step
    case DispatchNext =>
      if b.pending != {} {
        var e := Least(b.pending);
        assert Routed(Take(b, e));
        HandlerPreserves(Take(b, e), e.payload, faults);
      }
    case Acknowledged(delivery, outcome) => AcknowledgePreserves(b, delivery, outcome);
    case ReadyChanged(consumer, ready) =>
    case Publish(operation, destination) =>
    case OtherWork(delay) =>
  }

  /** `ACKED` and `DEAD` are final, and dead letters are never withdrawn, over any run. */
  lemma {:induction false} SettledStaysSettled(b: Bus, steps: seq<Step>, faults: FaultPort)
    requires Inv(b)
    ensures Preserves(b, Run(b, steps, faults))
    decreases |steps|
  {
    if steps != [] {
      CoreIsRouted(b, None);
      StepKeeps(b, steps[0], faults);
      StepPreserves(b, steps[0], faults);
      var c := Apply(b, steps[0], faults).0;
      SettledStaysSettled(c, steps[1..], faults);
    }
  }

  // ---------- What one attempt schedules and how it ends ----------

  /**
   * An attempt schedules its timeout `ackTimeout` after its first arrival, and each copy at its own spacing. The
   * timeout has the smallest sequence, so an acknowledgement at that exact time comes too late.
   */
  lemma AttemptSchedule(b: Bus, i: nat, faults: FaultPort)
    requires Routed(b) && i < |b.records| && CanReserve(b, i)
    ensures var c := ReserveRecord(b, i, faults);
            var r := b.records[i];
            var d := faults(i, r.attempt + 1, Select(b, i).consumer);
            var arrival := b.now + b.destinations[r.destination].deliveryDelay + d.extraDelay;
            var timeout := Event(arrival + b.destinations[r.destination].ackTimeout, b.next,
                                 KindOf(Timeout(i, r.attempt + 1)), Timeout(i, r.attempt + 1));
            && |c.records| == |b.records| && c.records[i].deadline == Some(timeout.sequence) && timeout in c.pending
            && |c.copies| == |b.copies| + (if d.drop then 1 else 1 + d.additionalCopies)
            && (forall e :: e in c.pending - b.pending && e != timeout ==>
                  e.payload.Arrival? && timeout.sequence < e.sequence && e.payload.routing == i
                      && |b.copies| <= e.payload.delivery < |c.copies|
                  && e.time == arrival + (e.payload.delivery - |b.copies|) * d.copySpacing)
  {
    var s := Select(b, i);
    var d := faults(i, b.records[i].attempt + 1, s.consumer);
    var taken := TakeReservation(b, i, s.consumer, s.cursor, d);
    ReserveIsScheduled(b, i, s.consumer, s.cursor, d);
    var c := ReserveRecord(b, i, faults);
    var copy := Copy(i, b.records[i].attempt + 1, s.consumer, d.drop, false);
    var arrival := b.now + b.destinations[b.records[i].destination].deliveryDelay + d.extraDelay;
    forall e | e in c.pending - taken.pending
      ensures e.payload.Arrival? && b.next < e.sequence && e.payload.routing == i
      ensures |b.copies| <= e.payload.delivery < |c.copies|
              && e.time == arrival + (e.payload.delivery - |b.copies|) * d.copySpacing
    {
      assert e == CopyArrival(taken, copy, arrival, d.copySpacing, 0, e.sequence - taken.next);
    }
  }

  /**
   * A failed attempt retries after `retryDelay` while attempts are left, and otherwise dies; the consumer is free
   * either way.
   */
  lemma FailedAttemptOutcome(b: Bus, i: nat, reason: FailureReason)
    requires Inv(b) && i < |b.records| && b.records[i].state == IN_FLIGHT && b.records[i].destination in b.destinations
    ensures b.records[i].consumer.Some?
    ensures var c := FailRecord(b, i, reason, false);
            var d := b.destinations[b.records[i].destination];
            && SubOf(b.records[i]) !in c.reserved
            && c.records[i].state == (if b.records[i].attempt < d.maxAttempts then RETRY else DEAD)
            && (c.records[i].state == RETRY ==>
                Event(b.now + d.retryDelay, b.next, KindOf(Retry(i)), Retry(i)) in c.pending && c.dead == b.dead)
            && (c.records[i].state == DEAD ==>
                c.dead == b.dead
                + [DeadLetter(i, d.maxAttempts, reason, b.records[i].consumer)])
  {
    hide ReservationsOk, DeadOk, CapacityOk, CopiesOk, EventsOk, TimersOk, OrderOk, FirstReservable;
    assert RecordOk(b.destinations, b.subscribers, b.records[i]);
    ScheduleDispatchFrame(Fail(b, i, reason, false));
    var f := Fail(b, i, reason, false);
    assert ScheduleDispatch(f).pending >= f.pending;
  }

  /**
   * Admission always completes the publisher's operation: with a failure and no other change when the recipients do not
   * all fit, and otherwise with success after queueing one new record per recipient, in subscription order.
   */
  lemma AdmissionAlwaysCompletes(b: Bus, operation: nat, destination: string)
    requires Inv(b) && destination in b.destinations
    ensures var (c, output) := Admit(b, operation, destination);
            var recipients := if b.destinations[destination].kind == Topic then |b.subscribers[destination]| else 1;
            if ActiveCount(b.records, destination) + recipients > b.destinations[destination].capacity
            then output == Completed(operation, Err(BUS_CAPACITY_EXCEEDED)) && c == b
            else
              && output == Completed(operation, Ok(b.messages)) && |c.records| == |b.records| + recipients
              && b.records <= c.records
              && (forall k :: 0 <= k < recipients ==>
                    && c.records[|b.records| + k].state == QUEUED
                    && c.records[|b.records| + k].destination == destination
                    && c.records[|b.records| + k].subscriber ==
                         (if b.destinations[destination].kind == Topic then Some(b.subscribers[destination][k])
                          else None))
              && ActiveCount(c.records, destination) == ActiveCount(b.records, destination) + recipients
  {
    hide RecordsOk, ReservationsOk, DeadOk, CapacityOk, CopiesOk, EventsOk, TimersOk, OrderOk, NoLostWakeup;
    hide ScheduleDispatch, ActiveCount;
    if Fits(b, destination) {
      var more := NewRecords(b, destination);
      ScheduleDispatchFrame(Enqueue(b, destination));
      ActiveCountAppend(b.records, more, destination);
      ActiveCountOfNew(more, destination, destination);
    }
  }

  /**
   * An answer counts exactly when its copy was delivered and still speaks for the current attempt; any other changes
   * nothing.
   */
  lemma OnlyLiveAnswersCount(b: Bus, delivery: nat, outcome: Outcome)
    requires Inv(b) && Routed(b)
    ensures var live := delivery < |b.copies| && b.copies[delivery].delivered && !b.copies[delivery].dropped
        && Open(b, delivery);
            var c := Acknowledge(b, delivery, outcome).0;
            && (!live ==> c == b)
            && (live ==> c.records[b.copies[delivery].routing].state != IN_FLIGHT)
            && (live ==> (outcome == AckIt <==> c.records[b.copies[delivery].routing].state == ACKED))
  {
    if Open(b, delivery) {
      var i := b.copies[delivery].routing;
      ScheduleDispatchFrame(Settle(b, i));
      ScheduleDispatchFrame(Fail(b, i, Nacked, false));
    }
  }

  // ---------- Each attempt is answered at most once ----------

  /** From `b` to `c` a record takes flight only in a new attempt, and no copy changes what it is a copy of. */
  ghost predicate Ages(b: Bus, c: Bus) {
    && |b.records| <= |c.records| && |b.copies| <= |c.copies|
    && (forall i :: 0 <= i < |b.records| ==> OlderOf(b.records[i], c.records[i]))
    && (forall d :: 0 <= d < |b.copies| ==>
        c.copies[d].routing == b.copies[d].routing
        && c.copies[d].attempt == b.copies[d].attempt)
  }

  predicate OlderOf(before: Routing, after: Routing) {
    before.attempt < after.attempt
    || (before.attempt == after.attempt && (before.state != IN_FLIGHT ==> after.state != IN_FLIGHT))
  }

  lemma AgesTransitive(a: Bus, b: Bus, c: Bus)
    requires Ages(a, b) && Ages(b, c)
    ensures Ages(a, c)
  {
    forall i | 0 <= i < |a.records| ensures OlderOf(a.records[i], c.records[i]) {
      assert OlderOf(a.records[i], b.records[i]) && OlderOf(b.records[i], c.records[i]);
    }
  }

  lemma SameAge(b: Bus, c: Bus)
    requires b.records <= c.records && b.copies <= c.copies
    ensures Ages(b, c)
  {}

  lemma OneRecordAges(b: Bus, i: nat, c: Bus)
    requires i < |b.records| == |c.records| && c.records == b.records[i := c.records[i]]
    requires OlderOf(b.records[i], c.records[i])
    requires b.copies <= c.copies
    ensures Ages(b, c)
  {}

  lemma DispatchedAges(b: Bus)
    ensures Ages(b, ScheduleDispatch(b))
  {
    hide ScheduleDispatch, Ages;
    ScheduleDispatchFrame(b);
    SameAge(b, ScheduleDispatch(b));
  }

  lemma ReserveAges(b: Bus, i: nat, faults: FaultPort)
    requires Routed(b) && i < |b.records| && CanReserve(b, i)
    ensures Ages(b, ReserveRecord(b, i, faults))
  {
    var s := Select(b, i);
    ReserveIsScheduled(b, i, s.consumer, s.cursor, faults(i, b.records[i].attempt + 1, s.consumer));
    hide ScheduleCopies, Ages;
    OneRecordAges(b, i, ReserveRecord(b, i, faults));
  }

  lemma {:induction false} DispatchAllAges(b: Bus, faults: FaultPort)
    requires Routed(b)
    ensures Ages(b, DispatchAll(b, faults))
    decreases QueuedCount(b.records)
  {
    hide Ages, ReserveRecord, CanReserve;
    match FirstReservable(b, 0)
    case None => SameAge(b, b);
    case Some(i) =>
      ReserveShrinksQueue(b, i, faults);
      ReserveAges(b, i, faults);
      DispatchAllAges(ReserveRecord(b, i, faults), faults);
      AgesTransitive(b, ReserveRecord(b, i, faults), DispatchAll(b, faults));
  }

  lemma FailOnceAges(b: Bus, i: nat, reason: FailureReason, fromTimeout: bool)
    requires i < |b.records| && b.records[i].destination in b.destinations
    ensures Ages(b, Fail(b, i, reason, fromTimeout))
  {
    Freed(b, b.records[i], fromTimeout);
    hide Ages, KindOf, Unreserve, CancelDeadline;
    OneRecordAges(b, i, Fail(b, i, reason, fromTimeout));
  }

  lemma FailAges(b: Bus, i: nat, reason: FailureReason, fromTimeout: bool)
    requires i < |b.records| && b.records[i].destination in b.destinations
    ensures Ages(b, FailRecord(b, i, reason, fromTimeout))
  {
    hide Ages, Fail, ScheduleDispatch;
    SameAge(b, b);
    FailOnceAges(b, i, reason, fromTimeout);
    DispatchedAges(Fail(b, i, reason, fromTimeout));
    AgesTransitive(b, Fail(b, i, reason, fromTimeout), ScheduleDispatch(Fail(b, i, reason, fromTimeout)));
  }

  lemma ArriveAges(b: Bus, i: nat, delivery: nat)
    requires Routed(b)
    ensures Ages(b, Arrive(b, i, delivery).0)
  {
    hide FailRecord;
    if i < |b.records| { FailAges(b, i, Unavailable, false); }
  }

  lemma RetryAges(b: Bus, i: nat)
    ensures Ages(b, OnRetry(b, i))
  {
    hide Ages, ScheduleDispatch;
    SameAge(b, b);
    if i < |b.records| && b.records[i].state == RETRY {
      OneRecordAges(b, i, Requeue(b, i));
      DispatchedAges(Requeue(b, i));
      AgesTransitive(b, Requeue(b, i), ScheduleDispatch(Requeue(b, i)));
    }
  }

  lemma AdmitAges(b: Bus, operation: nat, destination: string)
    ensures Ages(b, Admit(b, operation, destination).0)
  {
    hide Ages, ScheduleDispatch, NewRecords, Fits;
    SameAge(b, b);
    if destination in b.destinations {
      SameAge(b, Enqueue(b, destination));
      DispatchedAges(Enqueue(b, destination));
      AgesTransitive(b, Enqueue(b, destination), ScheduleDispatch(Enqueue(b, destination)));
    }
  }

  lemma HandlerAges(b: Bus, p: BusEvent, faults: FaultPort)
    requires Routed(b)
    ensures Ages(b, RunHandler(b, p, faults).0)
  {
    hide Ages, DispatchAll, FailRecord, Arrive, OnRetry, Admit;
    SameAge(b, b);
    match p
    case Dispatch =>
      var c := b.(dispatchPending := false);
      DispatchAllAges(c, faults);
      SameAge(b, c);
      AgesTransitive(b, c, DispatchAll(c, faults));
    case Timeout(i, attempt) => if i < |b.records| { FailAges(b, i, TimedOut, true); }
    case Arrival(i, delivery) => ArriveAges(b, i, delivery);
    case Retry(i) => RetryAges(b, i);
    case Admission(operation, destination) => AdmitAges(b, operation, destination);
    case Foreign =>
  }

  lemma SettleAges(b: Bus, i: nat)
    requires i < |b.records|
    ensures Ages(b, Settle(b, i))
  {
    hide Ages, KindOf;
    OneRecordAges(b, i, Settle(b, i));
  }

  lemma AnswerAges(b: Bus, delivery: nat, outcome: Outcome)
    requires Routed(b)
    ensures Ages(b, Acknowledge(b, delivery, outcome).0)
  {
    hide Ages, FailRecord, Settle, ScheduleDispatch;
    SameAge(b, b);
    if Open(b, delivery) {
      var i := b.copies[delivery].routing;
      FailAges(b, i, Nacked, false);
      SettleAges(b, i);
      DispatchedAges(Settle(b, i));
      AgesTransitive(b, Settle(b, i), ScheduleDispatch(Settle(b, i)));
    }
  }

  lemma StepAges(b: Bus, step: Step, faults: FaultPort)
    requires Routed(b)
    ensures Ages(b, Apply(b, step, faults).0)
  {
    hide Ages, RunHandler, Acknowledge, ScheduleDispatch;
    SameAge(b, b);
    match step
    case DispatchNext =>
      if b.pending != {} {
        var e := Least(b.pending);
        SameAge(b, Take(b, e));
        assert Routed(Take(b, e));
        HandlerAges(Take(b, e), e.payload, faults);
        AgesTransitive(b, Take(b, e), RunHandler(Take(b, e), e.payload, faults).0);
      }
    case Acknowledged(delivery, outcome) => AnswerAges(b, delivery, outcome);
    case ReadyChanged(consumer, ready) =>
      var c := b.(ready := set s | s in b.ready + ready
                  && (if s.consumer == consumer then s in ready else s in b.ready));
      SameAge(b, c);
      DispatchedAges(c);
      AgesTransitive(b, c, ScheduleDispatch(c));
    case Publish(operation, destination) => SameAge(b, Schedule(b, b.now, Admission(operation, destination)));
    case OtherWork(delay) => SameAge(b, Schedule(b, b.now + delay, Foreign));
  }

  lemma {:induction false} RunAges(b: Bus, steps: seq<Step>, faults: FaultPort)
    requires Inv(b)
    ensures Ages(b, Run(b, steps, faults))
    decreases |steps|
  {
    if steps == [] {
      SameAge(b, b);
    } else {
      CoreIsRouted(b, None);
      hide Inv, Ages, Apply;
      StepKeeps(b, steps[0], faults);
      StepAges(b, steps[0], faults);
      RunAges(Apply(b, steps[0], faults).0, steps[1..], faults);
      AgesTransitive(b, Apply(b, steps[0], faults).0, Run(b, steps, faults));
    }
  }

  /**
   * An attempt is answered at most once: after a live answer, and whatever happens then, no answer to any copy of the
   * same attempt changes anything any more.
   */
  lemma AttemptIsAnsweredOnce(b: Bus, delivery: nat, outcome: Outcome, steps: seq<Step>, faults: FaultPort, copy: nat,
                              again: Outcome)
    requires Inv(b) && Routed(b) && Open(b, delivery) && b.copies[delivery].delivered && !b.copies[delivery].dropped
    requires copy < |b.copies| && b.copies[copy].routing == b.copies[delivery].routing
    requires b.copies[copy].attempt == b.copies[delivery].attempt
    ensures Inv(Acknowledge(b, delivery, outcome).0)
    ensures var c := Run(Acknowledge(b, delivery, outcome).0, steps, faults);
            Routed(c) && Acknowledge(c, copy, again).0 == c
  {
    hide Inv, Run, Acknowledge;
    AcknowledgeKeeps(b, delivery, outcome);
    OnlyLiveAnswersCount(b, delivery, outcome);
    AnswerAges(b, delivery, outcome);
    var d := Acknowledge(b, delivery, outcome).0;
    RunAges(d, steps, faults);
    var c := Run(d, steps, faults);
    RunIsRouted(d, steps, faults);
    NoLongerOpen(b, d, c, delivery, copy);
    ClosedIsIgnored(c, copy, again);
  }

  lemma RunIsRouted(b: Bus, steps: seq<Step>, faults: FaultPort)
    requires Inv(b)
    ensures Routed(Run(b, steps, faults))
  {
    CoreIsRouted(Run(b, steps, faults), None);
  }

  lemma NoLongerOpen(b: Bus, d: Bus, c: Bus, delivery: nat, copy: nat)
    requires Open(b, delivery) && Ages(b, d) && Ages(d, c) && d.records[b.copies[delivery].routing].state != IN_FLIGHT
    requires copy < |b.copies| && b.copies[copy].routing == b.copies[delivery].routing
    requires b.copies[copy].attempt == b.copies[delivery].attempt
    ensures !Open(c, copy)
  {
    var i := b.copies[delivery].routing;
    assert OlderOf(b.records[i], d.records[i]) && OlderOf(d.records[i], c.records[i]);
  }

  lemma ClosedIsIgnored(b: Bus, delivery: nat, outcome: Outcome)
    requires Routed(b) && !Open(b, delivery)
    ensures Acknowledge(b, delivery, outcome).0 == b
  {}
}
