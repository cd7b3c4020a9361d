/**
 * A queue serves its consumers fairly over whole runs: every reservation of a run is recorded with the state it was
 * made in, and the reservations of one queue follow each other around its consumers.
 */
module BusFairness {
  import opened Outcomes
  import opened Scheduler
  import opened BusModel
  import opened BusInvariants
  import opened BusTheorems

  /** The queue selection at `destination` in `b` picks another consumer although consumer `k` is available. */
  ghost predicate PassesOver(b: Bus, destination: string, k: nat) {
    var subs := SubscribersOf(b, destination);
    && k < |subs| && Available(b, Sub(destination, subs[k]))
    && ScanQueue(b, destination, 0).Some? && ScanQueue(b, destination, 0).value != k
  }

  /** The cursor position a queue selection leaves behind. */
  function NextCursor(b: Bus, destination: string): nat
    requires ScanQueue(b, destination, 0).Some?
  { (ScanQueue(b, destination, 0).value + 1) % |SubscribersOf(b, destination)| }

  lemma AheadShrinks(cursor: int, k: int, n: int, o: int)
    requires 0 <= k < n && 0 <= o < Ahead(cursor, k, n)
    ensures Ahead(((cursor + o) % n + 1) % n, k, n) == Ahead(cursor, k, n) - o - 1
  {
    var q0 := (k - cursor) / n;
    var q1 := (cursor + o) / n;
    var q2 := ((cursor + o) % n + 1) / n;
    var next := ((cursor + o) % n + 1) % n;
    assert k - cursor == n * q0 + Ahead(cursor, k, n);
    assert cursor + o == n * q1 + (cursor + o) % n;
    assert (cursor + o) % n + 1 == n * q2 + next;
    assert n * (q0 + q1 + q2) == n * q0 + n * q1 + n * q2;
    DivisionIsUnique(k - next, n, q0 + q1 + q2, Ahead(cursor, k, n) - o - 1);
  }

  /** Passing over an available consumer moves the cursor strictly closer to it. */
  lemma PassingOverComesCloser(b: Bus, destination: string, k: nat)
    requires PassesOver(b, destination, k)
    ensures Ahead(NextCursor(b, destination), k, |SubscribersOf(b, destination)|)
            < Ahead(CursorOf(b, destination), k, |SubscribersOf(b, destination)|)
  {
    var n := |SubscribersOf(b, destination)|;
    var cursor := CursorOf(b, destination);
    var target := Ahead(cursor, k, n);
    AheadReaches(cursor, k, n);
    var found := ScanFinds(b, destination, 0, target);
    AheadShrinks(cursor, k, n, found);
  }

  /** A queue reservation leaves exactly the cursor of its selection; a topic reservation moves no cursor. */
  lemma ReserveMovesCursor(b: Bus, i: nat, faults: FaultPort)
    requires Routed(b) && i < |b.records| && CanReserve(b, i)
    ensures var c := ReserveRecord(b, i, faults);
            var d := b.records[i].destination;
            && c.subscribers == b.subscribers
            && c.cursors == (if b.records[i].subscriber.Some? then b.cursors else b.cursors[d := NextCursor(b, d)])
            && c.reserved == b.reserved + {Sub(d, Select(b, i).consumer)}
  {
    var s := Select(b, i);
    ReserveIsScheduled(b, i, s.consumer, s.cursor, faults(i, b.records[i].attempt + 1, s.consumer));
  }

  // ---------- The reservations of a run ----------

  /** A reservation: the state just before it, and the record it put in flight. */
  datatype Pick = Pick(bus: Bus, record: nat)

  /** The reservations of one dispatch loop. */
  function DispatchPicks(b: Bus, faults: FaultPort): seq<Pick>
    requires Routed(b)
    decreases QueuedCount(b.records)
  {
    match FirstReservable(b, 0)
    case None => []
    case Some(i) =>
      ReserveShrinksQueue(b, i, faults);
      [Pick(b, i)] + DispatchPicks(ReserveRecord(b, i, faults), faults)
  }

  ghost function StepPicks(b: Bus, step: Step, faults: FaultPort): seq<Pick>
    requires Routed(b)
  {
    if step.DispatchNext? && b.pending != {} && Least(b.pending).payload.Dispatch?
    then DispatchPicks(Take(b, Least(b.pending)).(dispatchPending := false), faults) else []
  }

  ghost function RunPicks(b: Bus, steps: seq<Step>, faults: FaultPort): seq<Pick>
    requires Inv(b)
    decreases |steps|
  {
    if steps == [] then []
    else
      CoreIsRouted(b, None);
      StepKeeps(b, steps[0], faults);
      StepPicks(b, steps[0], faults) + RunPicks(Apply(b, steps[0], faults).0, steps[1..], faults)
  }

  // ---------- Nothing else reserves, and nothing else moves a cursor ----------

  function AttemptOf(b: Bus, i: nat): nat {
    if i < |b.records| then b.records[i].attempt else 0
  }

  /** From `b` to `c` no record is reserved, and no cursor and no subscription changes. */
  ghost predicate Calm(b: Bus, c: Bus) {
    c.subscribers == b.subscribers && c.cursors == b.cursors && forall i: nat :: AttemptOf(c, i) == AttemptOf(b, i)
  }

  lemma FailOnceIsCalm(b: Bus, i: nat, reason: FailureReason, fromTimeout: bool)
    requires i < |b.records| && b.records[i].destination in b.destinations
    ensures Calm(b, Fail(b, i, reason, fromTimeout))
  {
    var r := b.records[i];
    Freed(b, r, fromTimeout);
    hide Unreserve, CancelDeadline, KindOf, Calm;
    var c := Fail(b, i, reason, fromTimeout);
    assert c == b.(records := c.records, dead := c.dead, reserved := c.reserved, pending := c.pending, next := c.next);
    SameAttempts(b, i, c);
  }

  lemma SameAttempts(b: Bus, i: nat, c: Bus)
    requires i < |b.records| == |c.records| && c.subscribers == b.subscribers && c.cursors == b.cursors
    requires c.records == b.records[i := c.records[i]] && c.records[i].attempt == b.records[i].attempt
    ensures Calm(b, c)
  {}

  lemma FailIsCalm(b: Bus, i: nat, reason: FailureReason, fromTimeout: bool)
    requires i < |b.records| && b.records[i].destination in b.destinations
    ensures Calm(b, FailRecord(b, i, reason, fromTimeout))
  {
    hide ScheduleDispatch, Fail;
    FailOnceIsCalm(b, i, reason, fromTimeout);
    ScheduleDispatchFrame(Fail(b, i, reason, fromTimeout));
  }

  lemma ArriveIsCalm(b: Bus, i: nat, delivery: nat)
    requires Routed(b)
    ensures Calm(b, Arrive(b, i, delivery).0)
  {
    hide FailRecord;
    if i < |b.records| { FailIsCalm(b, i, Unavailable, false); }
  }

  lemma HandlerIsCalm(b: Bus, payload: BusEvent, faults: FaultPort)
    requires Routed(b) && !payload.Dispatch?
    ensures Calm(b, RunHandler(b, payload, faults).0)
  {
    hide ScheduleDispatch, FailRecord, Arrive;
    match payload
    case Timeout(i, attempt) => if i < |b.records| { FailIsCalm(b, i, TimedOut, true); }
    case Arrival(i, delivery) => ArriveIsCalm(b, i, delivery);
    case Retry(i) => if i < |b.records| { ScheduleDispatchFrame(Requeue(b, i)); }
    case Admission(operation, destination) =>
      if destination in b.destinations { ScheduleDispatchFrame(Enqueue(b, destination)); }
    case Foreign =>
  }

  lemma AnswerIsCalm(b: Bus, delivery: nat, outcome: Outcome)
    requires Routed(b)
    ensures Calm(b, Acknowledge(b, delivery, outcome).0)
  {
    hide ScheduleDispatch, FailRecord;
    if Open(b, delivery) {
      var i := b.copies[delivery].routing;
      FailIsCalm(b, i, Nacked, false);
      ScheduleDispatchFrame(Settle(b, i));
    }
  }

  /** A step that dispatches no queue reserves nothing and moves no cursor. */
  lemma StepIsCalm(b: Bus, step: Step, faults: FaultPort)
    requires Routed(b) && !(step.DispatchNext? && b.pending != {} && Least(b.pending).payload.Dispatch?)
    ensures Calm(b, Apply(b, step, faults).0)
  {
    hide RunHandler, Acknowledge, ScheduleDispatch;
    match step
    case DispatchNext =>
      if b.pending != {} {
        var e := Least(b.pending);
        assert Routed(Take(b, e));
        HandlerIsCalm(Take(b, e), e.payload, faults);
      }
    case Acknowledged(delivery, outcome) => AnswerIsCalm(b, delivery, outcome);
    case ReadyChanged(consumer, ready) =>
      ScheduleDispatchFrame(b.(ready := set s | s in b.ready + ready
                               && (if s.consumer == consumer then s in ready else s in b.ready)));
    case Publish(operation, destination) =>
    case OtherWork(delay) =>
  }

  // ---------- Every attempt is a reservation that was recorded ----------

  function PicksOf(picks: seq<Pick>, i: nat): nat {
    if picks == [] then 0 else (if picks[0].record == i then 1 else 0) + PicksOf(picks[1..], i)
  }

  lemma {:induction false} PicksConcat(a: seq<Pick>, b: seq<Pick>, i: nat)
    ensures PicksOf(a + b, i) == PicksOf(a, i) + PicksOf(b, i)
  {
    if a == [] {
      assert a + b == b;
    } else {
      PicksConcat(a[1..], b, i);
      assert (a + b)[1..] == a[1..] + b;
    }
  }

  lemma ReserveCounts(b: Bus, i: nat, faults: FaultPort, k: nat)
    requires Routed(b) && i < |b.records| && CanReserve(b, i)
    ensures AttemptOf(ReserveRecord(b, i, faults), k) == AttemptOf(b, k) + if k == i then 1 else 0
  {
    var s := Select(b, i);
    ReserveIsScheduled(b, i, s.consumer, s.cursor, faults(i, b.records[i].attempt + 1, s.consumer));
  }

  lemma {:induction false} DispatchCounts(b: Bus, faults: FaultPort, i: nat)
    requires Routed(b)
    ensures AttemptOf(DispatchAll(b, faults), i) == AttemptOf(b, i) + PicksOf(DispatchPicks(b, faults), i)
    decreases QueuedCount(b.records)
  {
    hide ReserveRecord, CanReserve;
    match FirstReservable(b, 0)
    case None =>
    case Some(k) =>
      ReserveShrinksQueue(b, k, faults);
      ReserveCounts(b, k, faults, i);
      var c := ReserveRecord(b, k, faults);
      DispatchCounts(c, faults, i);
      assert ([Pick(b, k)] + DispatchPicks(c, faults))[1..] == DispatchPicks(c, faults);
  }

  lemma StepCounts(b: Bus, step: Step, faults: FaultPort, i: nat)
    requires Routed(b)
    ensures AttemptOf(Apply(b, step, faults).0, i) == AttemptOf(b, i) + PicksOf(StepPicks(b, step, faults), i)
  {
    hide DispatchAll, DispatchPicks;
    if step.DispatchNext? && b.pending != {} && Least(b.pending).payload.Dispatch? {
      DispatchCounts(Take(b, Least(b.pending)).(dispatchPending := false), faults, i);
    } else {
      hide Apply;
      StepIsCalm(b, step, faults);
    }
  }

  /**
   * The attempt counter of a record is the number of recorded reservations of it: no attempt is missing from the picks.
   */
  lemma {:induction false} EveryAttemptIsAPick(b: Bus, steps: seq<Step>, faults: FaultPort, i: nat)
    requires Inv(b)
    ensures AttemptOf(Run(b, steps, faults), i) == AttemptOf(b, i) + PicksOf(RunPicks(b, steps, faults), i)
    decreases |steps|
  {
    if steps != [] {
      CoreIsRouted(b, None);
      hide Inv, Apply, StepPicks, AttemptOf;
      StepKeeps(b, steps[0], faults);
      StepCounts(b, steps[0], faults, i);
      var c := Apply(b, steps[0], faults).0;
      EveryAttemptIsAPick(c, steps[1..], faults, i);
      PicksConcat(StepPicks(b, steps[0], faults), RunPicks(c, steps[1..], faults), i);
    }
  }

  // ---------- The reservations of one queue follow each other ----------

  predicate AtQueue(p: Pick, destination: string) {
    && p.record < |p.bus.records| && CanReserve(p.bus, p.record)
    && p.bus.records[p.record].destination == destination && p.bus.records[p.record].subscriber.None?
  }

  function QueuePicks(picks: seq<Pick>, destination: string): seq<Pick> {
    if picks == [] then []
    else (if AtQueue(picks[0], destination) then [picks[0]] else []) + QueuePicks(picks[1..], destination)
  }

  lemma {:induction false} QueuePicksConcat(a: seq<Pick>, b: seq<Pick>, destination: string)
    ensures QueuePicks(a + b, destination) == QueuePicks(a, destination) + QueuePicks(b, destination)
  {
    hide AtQueue;
    if a == [] {
      assert a + b == b;
    } else {
      QueuePicksConcat(a[1..], b, destination);
      assert (a + b)[1..] == a[1..] + b;
    }
  }

  /** Each selection starts from the cursor the one before it left, among the same consumers. */
  ghost predicate Chained(picks: seq<Pick>, destination: string, subs: seq<string>, start: nat, end: nat)
    decreases |picks|
  {
    if picks == [] then start == end
    else
      var b := picks[0].bus;
      && CursorOf(b, destination) == start && SubscribersOf(b, destination) == subs
      && ScanQueue(b, destination, 0).Some?
      && Chained(picks[1..], destination, subs, NextCursor(b, destination), end)
  }

  lemma {:induction false} ChainedConcat(a: seq<Pick>, b: seq<Pick>, destination: string, subs: seq<string>,
                                         start: nat, mid: nat, end: nat)
    requires Chained(a, destination, subs, start, mid) && Chained(b, destination, subs, mid, end)
    ensures Chained(a + b, destination, subs, start, end)
    decreases |a|
  {
    if a == [] {
      assert a + b == b;
    } else {
      ChainedConcat(a[1..], b, destination, subs, NextCursor(a[0].bus, destination), mid, end);
      assert (a + b)[1..] == a[1..] + b;
    }
  }

  /** One more reservation in front of those that follow it. */
  lemma PickIsChained(b: Bus, i: nat, faults: FaultPort, rest: seq<Pick>, destination: string, end: nat)
    requires Routed(b) && i < |b.records| && CanReserve(b, i)
    requires var c := ReserveRecord(b, i, faults);
             Chained(QueuePicks(rest, destination), destination, SubscribersOf(c, destination),
                     CursorOf(c, destination), end)
    ensures Chained(QueuePicks([Pick(b, i)] + rest, destination), destination, SubscribersOf(b, destination),
                    CursorOf(b, destination), end)
  {
    hide ReserveRecord, ScanQueue;
    ReserveMovesCursor(b, i, faults);
    assert ([Pick(b, i)] + rest)[1..] == rest;
    var queue := QueuePicks(rest, destination);
    if AtQueue(Pick(b, i), destination) {
      assert ([Pick(b, i)] + queue)[1..] == queue;
    } else {
      assert [] + queue == queue;
    }
  }

  lemma {:induction false} DispatchIsChained(b: Bus, faults: FaultPort, destination: string)
    requires Routed(b)
    ensures var c := DispatchAll(b, faults);
      && c.subscribers == b.subscribers
      && Chained(QueuePicks(DispatchPicks(b, faults), destination), destination, SubscribersOf(b, destination),
                 CursorOf(b, destination), CursorOf(c, destination))
    decreases QueuedCount(b.records)
  {
    hide ReserveRecord, CanReserve, CursorOf, SubscribersOf, NextCursor;
    match FirstReservable(b, 0)
    case None =>
    case Some(i) =>
      ReserveShrinksQueue(b, i, faults);
      ReserveMovesCursor(b, i, faults);
      var c := ReserveRecord(b, i, faults);
      DispatchIsChained(c, faults, destination);
      SameSubscribers(b, c, destination);
      PickIsChained(b, i, faults, DispatchPicks(c, faults), destination, CursorOf(DispatchAll(c, faults), destination));
  }

  lemma SameSubscribers(b: Bus, c: Bus, destination: string)
    requires c.subscribers == b.subscribers
    ensures SubscribersOf(c, destination) == SubscribersOf(b, destination)
  {}

  lemma StepIsChained(b: Bus, step: Step, faults: FaultPort, destination: string)
    requires Routed(b)
    ensures var c := Apply(b, step, faults).0;
      && c.subscribers == b.subscribers
      && Chained(QueuePicks(StepPicks(b, step, faults), destination), destination, SubscribersOf(b, destination),
                 CursorOf(b, destination), CursorOf(c, destination))
  {
    hide DispatchAll, DispatchPicks;
    if step.DispatchNext? && b.pending != {} && Least(b.pending).payload.Dispatch? {
      DispatchIsChained(Take(b, Least(b.pending)).(dispatchPending := false), faults, destination);
    } else {
      hide Apply;
      StepIsCalm(b, step, faults);
    }
  }

  lemma {:induction false} RunIsChained(b: Bus, steps: seq<Step>, faults: FaultPort, destination: string)
    requires Inv(b)
    ensures var c := Run(b, steps, faults);
      && c.subscribers == b.subscribers
      && Chained(QueuePicks(RunPicks(b, steps, faults), destination), destination, SubscribersOf(b, destination),
                 CursorOf(b, destination), CursorOf(c, destination))
    decreases |steps|
  {
    if steps != [] {
      CoreIsRouted(b, None);
      hide Inv, Apply, StepPicks, CursorOf;
      StepKeeps(b, steps[0], faults);
      StepIsChained(b, steps[0], faults, destination);
      var c := Apply(b, steps[0], faults).0;
      RunIsChained(c, steps[1..], faults, destination);
      var first, rest := StepPicks(b, steps[0], faults), RunPicks(c, steps[1..], faults);
      QueuePicksConcat(first, rest, destination);
      ChainedConcat(QueuePicks(first, destination), QueuePicks(rest, destination), destination,
                    SubscribersOf(b, destination),
                    CursorOf(b, destination), CursorOf(c, destination), CursorOf(Run(b, steps, faults), destination));
    }
  }

  // ---------- Fairness ----------

  lemma {:induction false} ChainedFrom(picks: seq<Pick>, destination: string, subs: seq<string>, start: nat, end: nat,
                                       from: nat)
    returns (mid: nat)
    requires Chained(picks, destination, subs, start, end) && from <= |picks|
    ensures Chained(picks[from..], destination, subs, mid, end)
    decreases from
  {
    if from == 0 {
      assert picks[0..] == picks;
      mid := start;
    } else {
      mid := ChainedFrom(picks[1..], destination, subs, NextCursor(picks[0].bus, destination), end, from - 1);
      assert picks[1..][from - 1..] == picks[from..];
    }
  }

  /** The selection of `p` takes another consumer although consumer `k` is available. */
  ghost predicate Skips(p: Pick, destination: string, k: nat) {
    && AtQueue(p, destination) && k < |SubscribersOf(p.bus, destination)|
    && Available(p.bus, Sub(destination, SubscribersOf(p.bus, destination)[k]))
    && Select(p.bus, p.record).consumer != SubscribersOf(p.bus, destination)[k]
  }

  lemma {:induction false} SkipsAreFew(picks: seq<Pick>, destination: string, subs: seq<string>, start: nat, end: nat,
                                       k: nat, n: nat)
    requires Chained(picks, destination, subs, start, end) && n <= |picks| && k < |subs|
    requires forall t :: 0 <= t < n ==> Skips(picks[t], destination, k)
    ensures n <= Ahead(start, k, |subs|)
    decreases n
  {
    hide ScanQueue;
    if n > 0 {
      assert PassesOver(picks[0].bus, destination, k);
      PassingOverComesCloser(picks[0].bus, destination, k);
      SkipsAreFew(picks[1..], destination, subs, NextCursor(picks[0].bus, destination), end, k, n - 1);
    }
  }

  /**
   * In any run, a queue consumer that is available at each of some consecutive reservations of its queue, and is chosen
   * at none of them, was passed over fewer times than the queue has consumers.
   */
  lemma QueueIsFair(b: Bus, steps: seq<Step>, faults: FaultPort, destination: string, k: nat, from: nat, to: nat)
    requires Initial(b)
    ensures Inv(b)
    ensures var picks := QueuePicks(RunPicks(b, steps, faults), destination);
      (k < |SubscribersOf(b, destination)| && from <= to <= |picks|
       && (forall t :: from <= t < to ==> Skips(picks[t], destination, k))
       ==> to - from <= |SubscribersOf(b, destination)| - 1)
  {
    InitialInv(b);
    hide Inv, Run, RunPicks, QueuePicks, Skips;
    var picks := QueuePicks(RunPicks(b, steps, faults), destination);
    var subs := SubscribersOf(b, destination);
    if k < |subs| && from <= to <= |picks| && forall t :: from <= t < to ==> Skips(picks[t], destination, k) {
      RunIsChained(b, steps, faults, destination);
      var end := CursorOf(Run(b, steps, faults), destination);
      var mid := ChainedFrom(picks, destination, subs, CursorOf(b, destination), end, from);
      forall t | 0 <= t < to - from
        ensures Skips(picks[from..][t], destination, k)
      {
        assert picks[from..][t] == picks[from + t];
      }
      SkipsAreFew(picks[from..], destination, subs, mid, end, k, to - from);
    }
  }
}
