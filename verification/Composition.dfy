/**
 * The composed simulation: the kernel, the message broker and the databases of the services, driven by one agenda. One
 * dispatch lets the kernel run a handler, the databases and the broker do their part, and keeps all of them in
 * agreement.
 */
module Composition {
  import opened Outcomes
  import opened Scheduler
  import K = KernelModel
  import KI = KernelInvariants
  import KD = KernelDispatch
  import KF = KernelFrames
  import KT = KernelTheorems
  import B = BusModel
  import BI = BusInvariants
  import BT = BusTheorems
  import BF = BusFrames
  import A = SharedAgenda
  import C = SharedCommits
  import D = DatabaseModel
  import T = DatabaseTheorems

  datatype World = World(kernel: K.Kernel, bus: B.Bus, databases: map<K.Owner, D.Db>)

  /**
   * What is fixed for a run: the schemas, the destination each publication names, the transaction each commit submits,
   * and the decisions of the fault rules.
   */
  datatype Setting = Setting(
    schemas: map<K.Owner, D.Schema>, routes: nat -> string, handles: nat -> nat, faults: B.FaultPort,
        commitFaults: nat -> bool)

  datatype Answer = Answer(delivery: nat, outcome: B.Outcome)

  /** What tasks do while one event is handled: the kernel's choice, a consumer's answer, and calls to the databases. */
  datatype Turn = Turn(choice: K.Choice, answer: Option<Answer>, calls: map<K.Owner, seq<D.Input>>)

  // ---------- Readiness ----------

  predicate Runs(services: map<K.Owner, K.Service>, owner: K.Owner) {
    owner in services && services[owner].state == K.RUNNING
  }

  ghost predicate IsReady(services: map<K.Owner, K.Service>, subscribers: map<string, seq<string>>, s: B.Sub) {
    s.destination in subscribers && s.consumer in subscribers[s.destination] && Runs(services, s.consumer)
  }

  /** A subscription is ready exactly while its service runs. */
  ghost predicate ReadyOk(services: map<K.Owner, K.Service>, b: B.Bus) {
    forall s: B.Sub :: s in b.ready <==> IsReady(services, b.subscribers, s)
  }

  ghost function ReadyOf(services: map<K.Owner, K.Service>, subscribers: map<string, seq<string>>): set<B.Sub> {
    set d, i | d in subscribers && 0 <= i < |subscribers[d]|
        && Runs(services, subscribers[d][i]) :: B.Sub(d, subscribers[d][i])
  }

  lemma ReadyOfIsReady(services: map<K.Owner, K.Service>, subscribers: map<string, seq<string>>, s: B.Sub)
    ensures s in ReadyOf(services, subscribers) <==> IsReady(services, subscribers, s)
  {
    if IsReady(services, subscribers, s) {
      var i :| 0 <= i < |subscribers[s.destination]| && subscribers[s.destination][i] == s.consumer;
      assert B.Sub(s.destination, subscribers[s.destination][i]) == s;
    }
  }

  // ---------- The invariant ----------

  ghost predicate BrokerOk(k: K.Kernel, b: B.Bus, routes: nat -> string) {
    && BI.Inv(b) && b.now == k.now && b.next == k.next && A.Agree(k.pending, b.pending, routes)
    && ReadyOk(k.services, b)
  }

  /** Commit events and pending commits belong together: each commit has its event, and its event names its owner. */
  ghost predicate CommitEventsOk(k: K.Kernel) {
    && (forall op :: op in k.commits ==> KI.Awaited(k.pending, K.Commit(k.commits[op].owner, op)))
    && (forall e :: e in k.pending && e.payload.Commit? && e.payload.op in k.commits ==>
        k.commits[e.payload.op].owner == e.payload.owner)
  }

  ghost predicate SchemasOk(schemas: map<K.Owner, D.Schema>) {
    forall o :: o in schemas ==> D.Satisfies(schemas[o], schemas[o].initial)
  }

  ghost predicate DatabasesOk(k: K.Kernel, databases: map<K.Owner, D.Db>, schemas: map<K.Owner, D.Schema>) {
    && databases.Keys == schemas.Keys
    && (forall o :: o in databases ==>
          o in k.services && C.Serves(k.commits, k.services[o].generation, o, schemas[o], databases[o]))
    && (forall op :: op in k.commits ==> k.commits[op].owner in databases)
  }

  ghost predicate DataOk(w: World, setting: Setting) {
    SchemasOk(setting.schemas) && CommitEventsOk(w.kernel) && DatabasesOk(w.kernel, w.databases, setting.schemas)
  }

  ghost predicate WorldOk(w: World, setting: Setting) {
    && KI.Good(w.kernel)
    && (w.kernel.failure.None? ==>
          && BrokerOk(w.kernel, w.bus, setting.routes)
          && DataOk(w, setting)
          && (w.kernel.completed ==> w.kernel.pending == {}))
  }

  ghost predicate Going(w: World) {
    w.kernel.failure.None? && !w.kernel.completed && w.kernel.pending != {}
  }

  // ---------- One dispatch: the kernel's handler ----------

  ghost function EventOf(w: World): Event<K.Payload>
    requires w.kernel.pending != {}
  { Least(w.kernel.pending) }

  ghost function Handled(w: World, turn: Turn): K.Kernel
    requires w.kernel.pending != {}
  { K.RunHandler(K.Started(w.kernel, EventOf(w)), EventOf(w), turn.choice) }

  /** The kernel takes its event, runs its handler, and leaves the broker's events alone. */
  lemma HandledExtends(w: World, turn: Turn)
    requires KI.Good(w.kernel) && Going(w)
    ensures KI.Good(Handled(w, turn)) && KF.Extends(K.Started(w.kernel, EventOf(w)), Handled(w, turn))
    ensures w.kernel.now <= EventOf(w).time
  {
    hide KI.InvWith, KF.Extends;
    var k := w.kernel;
    var e := EventOf(w);
    KD.TakeKeeps(k, e);
    KD.HandlerKeeps(k, e, turn.choice);
    KF.StartedExtends(K.Started(k, e), e, turn.choice, KD.FlightHole(e.payload), KI.HoleOp(Some(e.payload)));
  }

  // ---------- One dispatch: the broker ----------

  ghost function BusEventOf(w: World): Event<B.BusEvent>
    requires w.bus.pending != {}
  { Least(w.bus.pending) }

  /** The broker once it has seen what the kernel's handler did to the agenda. */
  ghost function Synced(w: World, turn: Turn, routes: nat -> string): B.Bus
    requires w.kernel.pending != {} && w.bus.pending != {}
  {
    var k := Handled(w, turn);
    BF.Among(B.Take(w.bus, BusEventOf(w)), A.Mirrored(k.pending, routes), k.next)
  }

  /** A publication names a destination that exists; any other is refused before there is an operation. */
  ghost predicate RoutesOk(k: K.Kernel, b: B.Bus, routes: nat -> string) {
    forall e :: e in k.pending && e.payload.Admission? ==> routes(e.payload.op) in b.destinations
  }

  lemma GoodEvents(k: K.Kernel)
    requires KI.Good(k)
    ensures KI.EventsOk(k.pending, k.next, k.now)
    ensures forall e :: e in k.pending ==> (e.sequence in k.timers <==> e.payload.Broker?)
  {
    hide KI.EventsOk, KI.WakesOk, KI.GenerationsOk, KI.CommitsOk, KI.FlightsOk, KI.TraceOk, KI.Good;
    KI.GoodLasts(k);
  }

  lemma BusEvents(b: B.Bus, hole: Option<B.BusEvent>)
    requires BI.Core(b, hole)
    ensures BI.EventsOk(b.destinations, b.copies, b.next, b.now, b.pending) && DistinctSequences(b.pending)
    ensures B.Routed(b)
  {
    hide BI.ConfigOk, BI.ReservationsOk, BI.DeadOk, BI.CapacityOk, BI.CopiesOk, BI.TimersOk, BI.OrderOk;
    BI.CoreIsRouted(b, hole);
  }

  /** The broker takes the same event and sees the kernel's agenda: its invariant holds up to the timer just taken. */
  lemma SyncedKeeps(w: World, setting: Setting, turn: Turn)
    requires KI.Good(w.kernel) && BrokerOk(w.kernel, w.bus, setting.routes) && Going(w)
    requires Handled(w, turn).failure.None?
    requires RoutesOk(Handled(w, turn), w.bus, setting.routes)
    ensures w.bus.pending != {} && A.SameEvent(EventOf(w), BusEventOf(w), setting.routes)
    ensures var p := BusEventOf(w).payload;
            var c := Synced(w, turn, setting.routes);
            && BI.Core(c, BT.HoleOf(p)) && B.Routed(c) && (!BT.HoleOf(p).Some? ==> BI.Inv(c))
            && c == w.bus.(pending := c.pending, now := c.now, next := c.next)
            && (p.Admission? ==> p.destination in c.destinations)
    ensures A.Ready(Handled(w, turn), Synced(w, turn, setting.routes), setting.routes)
  {
    hide KI.Good, KF.Extends, BI.Core, BI.NoLostWakeup, A.Agree, BF.Beside, ReadyOk;
    hide K.RunHandler, KI.EventsOk;
    HandledExtends(w, turn);
    BusEvents(w.bus, None);
    var routes := setting.routes;
    A.LeastIsSame(w.kernel.pending, w.bus.pending, routes);
    var e, g := EventOf(w), BusEventOf(w);
    var s, k := K.Started(w.kernel, e), Handled(w, turn);
    var taken := B.Take(w.bus, g);
    BT.TakeLeastKeeps(w.bus, g);
    BusEvents(taken, BT.HoleOf(g.payload));
    A.TakenShadows(w.kernel.pending, w.bus.pending, routes, e, g);
    A.ExtendsKeepsBroker(s, k);
    GoodEvents(k);
    SameClock(w, setting, turn);
    A.MirroredStandBeside(k, taken, routes);
    BF.AmongKeeps(taken, BT.HoleOf(g.payload), A.Mirrored(k.pending, routes), k.next);
    BusEvents(BF.Among(taken, A.Mirrored(k.pending, routes), k.next), BT.HoleOf(g.payload));
    A.AgreeAmong(k.pending, taken.pending, routes);
    BT.StillAwake(w.bus, taken);
    AdmissionRoute(w.bus, g);
  }

  lemma AdmissionRoute(b: B.Bus, g: Event<B.BusEvent>)
    requires BI.EventsOk(b.destinations, b.copies, b.next, b.now, b.pending) && g in b.pending
    ensures g.payload.Admission? ==> g.payload.destination in b.destinations
  {
    assert BI.EventOk(b.destinations, b.copies, b.next, b.now, g);
  }

  lemma SameClock(w: World, setting: Setting, turn: Turn)
    requires BrokerOk(w.kernel, w.bus, setting.routes) && Going(w) && w.bus.pending != {}
    requires A.SameEvent(EventOf(w), BusEventOf(w), setting.routes)
    requires KF.Extends(K.Started(w.kernel, EventOf(w)), Handled(w, turn))
    ensures Handled(w, turn).now == BusEventOf(w).time && w.bus.next <= Handled(w, turn).next
  {
    hide BI.Inv, A.Agree, ReadyOk, K.RunHandler;
  }

  /** A consumer that finishes answers its delivery. */
  ghost function Answered(b: B.Bus, answer: Option<Answer>): B.Bus
    requires B.Routed(b)
  {
    if answer.Some? then B.Acknowledge(b, answer.value.delivery, answer.value.outcome).0 else b
  }

  lemma AnsweredKeeps(b: B.Bus, answer: Option<Answer>)
    requires BI.Inv(b) && B.Routed(b)
    ensures BI.Inv(Answered(b, answer)) && BF.Moves(b, Answered(b, answer))
  {
    hide BI.Inv, BF.Moves, B.Acknowledge;
    if answer.Some? {
      BT.AcknowledgeKeeps(b, answer.value.delivery, answer.value.outcome);
      InvIsCore(b);
      BF.AnswerMoves(b, answer.value.delivery, answer.value.outcome);
    } else {
      BF.Unmoved(b, b);
    }
  }

  lemma InvIsCore(b: B.Bus)
    requires BI.Inv(b)
    ensures BI.Core(b, None)
  {
    hide BI.Core, BI.NoLostWakeup;
  }

  function OwnerOf(p: K.Payload): K.Owner
    requires KF.Transits(p)
  { p.owner }

  /** The broker before it reacts: it learns of a transition. */
  ghost function Informed(b: B.Bus, e: Event<K.Payload>, services: map<K.Owner, K.Service>): B.Bus {
    if KF.Transits(e.payload) then b.(ready := ReadyOf(services, b.subscribers)) else b
  }

  /** What the broker does in one dispatch, and what it reports. */
  ghost function Reacted(b: B.Bus, e: Event<K.Payload>, p: B.BusEvent, answer: Option<Answer>,
                         faults: B.FaultPort): (B.Bus, B.Output)
    requires B.Routed(b) && (p.Admission? ==> B.Routed(B.Admit(b, p.operation, p.destination).0))
  {
    if BF.IsOwn(p) then B.RunHandler(b, p, faults)
    else if p.Admission?
        then (Answered(B.Admit(b, p.operation, p.destination).0, answer), B.Admit(b, p.operation, p.destination).1)
    else if KF.Transits(e.payload) then (B.ConsumerChanged(b, OwnerOf(e.payload)), B.Silent)
    else (Answered(b, answer), B.Silent)
  }

  lemma AdmittedKeeps(b: B.Bus, operation: nat, destination: string)
    requires BI.Inv(b)
    ensures var c := B.Admit(b, operation, destination).0; BI.Inv(c) && B.Routed(c)
  {
    hide BI.Inv, B.Admit;
    BT.AdmitKeeps(b, operation, destination);
    InvIsCore(B.Admit(b, operation, destination).0);
    BusEvents(B.Admit(b, operation, destination).0, None);
  }

  lemma AdmitAnsweredKeeps(b: B.Bus, operation: nat, destination: string, answer: Option<Answer>)
    requires BI.Inv(b) && B.Routed(b)
    ensures var c := B.Admit(b, operation, destination).0;
            B.Routed(c) && BI.Inv(Answered(c, answer)) && BF.Moves(b, Answered(c, answer))
  {
    hide BI.Inv, B.Admit, BF.Moves, BF.Grows;
    var c := B.Admit(b, operation, destination).0;
    AdmittedKeeps(b, operation, destination);
    AnsweredKeeps(c, answer);
    BF.AdmitGrows(b, operation, destination);
    InvIsCore(b);
    BusEvents(b, None);
    forall g | g in b.pending
      ensures g.sequence < b.next
    {
      assert BI.EventOk(b.destinations, b.copies, b.next, b.now, g);
    }
    BF.GrowsThenMoves(b, c, Answered(c, answer));
  }

  lemma ChangedKeeps(b: B.Bus, c: B.Bus, owner: K.Owner)
    requires BI.Inv(b) && c == b.(ready := c.ready) && forall s: B.Sub :: s.consumer != owner ==>
        (s in c.ready <==> s in b.ready)
    ensures BI.Inv(B.ConsumerChanged(c, owner)) && BF.Moves(c, B.ConsumerChanged(c, owner))
  {
    hide BI.Inv, B.ScheduleDispatch, BF.Grows, BF.Moves;
    BT.ReadyChangedKeeps(b, c, owner);
    BF.DispatchGrows(c);
    BF.GrowsMoves(c, B.ScheduleDispatch(c));
    BF.Unmoved(c, c);
  }

  lemma OwnKeeps(b: B.Bus, p: B.BusEvent, faults: B.FaultPort, before: B.Bus, g: Event<B.BusEvent>)
    requires BI.Core(b, BT.HoleOf(p)) && B.Routed(b) && BF.IsOwn(p) && (!BT.HoleOf(p).Some? ==> BI.Inv(b))
    requires BI.Inv(before) && g.payload == p && BI.TimerExpected(before.records, before.dispatchPending, g)
    requires b == before.(pending := b.pending, now := b.now, next := b.next)
    ensures BI.Inv(B.RunHandler(b, p, faults).0) && BF.Moves(b, B.RunHandler(b, p, faults).0)
  {
    hide BI.Inv, BI.Core, BF.Moves, B.DispatchAll, B.OnTimeout, B.OnRetry, B.Arrive;
    BF.OwnMoves(b, p, faults);
    match p
    case Timeout(i, attempt) => BT.TimeoutKeeps(b, i, attempt);
    case Retry(i) => BT.RetryKeeps(b, i);
    case Dispatch => BT.DispatchKeeps(b, faults);
    case Arrival(i, delivery) => BT.ArriveKeeps(b, i, delivery);
  }

  lemma TimerStillExpected(b: B.Bus, g: Event<B.BusEvent>)
    requires BI.Core(b, None) && g in b.pending
    ensures BI.TimerExpected(b.records, b.dispatchPending, g)
  {
    hide BI.ConfigOk, BI.RecordsOk, BI.ReservationsOk, BI.DeadOk, BI.CapacityOk, BI.CopiesOk, BI.EventsOk, BI.OrderOk;
    hide BI.TimerExpected;
  }

  /** Services change readiness only through the transition that the broker is told about. */
  lemma ReadyDiffers(b: B.Bus, before: map<K.Owner, K.Service>, after: map<K.Owner, K.Service>, owner: K.Owner)
    requires ReadyOk(before, b) && before.Keys == after.Keys && forall o :: o in before && o != owner ==>
        after[o] == before[o]
    ensures var c := b.(ready := ReadyOf(after, b.subscribers));
            ReadyOk(after, c) && forall s: B.Sub :: s.consumer != owner ==> (s in c.ready <==> s in b.ready)
  {
    forall s: B.Sub ensures s in ReadyOf(after, b.subscribers) <==> IsReady(after, b.subscribers, s) {
      ReadyOfIsReady(after, b.subscribers, s);
    }
  }

  lemma ReadyStays(b: B.Bus, before: map<K.Owner, K.Service>, after: map<K.Owner, K.Service>)
    requires ReadyOk(before, b) && KF.SameStates(before, after)
    ensures ReadyOk(after, b)
  {
    forall s: B.Sub ensures s in b.ready <==> IsReady(after, b.subscribers, s) {
      assert IsReady(before, b.subscribers, s) <==> IsReady(after, b.subscribers, s);
    }
  }

  /** What a handler does to the services, as the broker sees it. */
  lemma HandledServices(w: World, turn: Turn)
    requires KI.Good(w.kernel) && Going(w)
    ensures var s, k, e := K.Started(w.kernel, EventOf(w)), Handled(w, turn), EventOf(w);
      && (!KF.Transits(e.payload) ==> KF.Works(KF.Decided(s, e), k))
      && (KF.Transits(e.payload) && k.failure.None? ==>
            && k.services.Keys == s.services.Keys
            && (forall o :: o in s.services && o != OwnerOf(e.payload) ==> k.services[o] == s.services[o])
            && (forall o :: o in s.services ==>
                  k.services[o].generation == s.services[o].generation + if Ending(w, o) then 1 else 0)
            && |k.ops| == |s.ops| && k.pending <= s.pending
            && k.commits ==
                 if Ending(w, OwnerOf(e.payload))
                 then K.DropCommits(s, e.payload.owner, s.services[e.payload.owner].generation).commits
                 else s.commits)
  {
    hide KI.Inv, KI.Lasting, KF.Works, K.Transition;
    var e := EventOf(w);
    var s := K.Started(w.kernel, e);
    if KF.Transits(e.payload) {
      TransitInv(w.kernel, e);
      KF.TransitionWithdraws(s, e.payload.owner, KF.TargetOf(e.payload));
    } else {
      KF.HandlerWorks(s, e, turn.choice);
    }
  }

  lemma TransitInv(k: K.Kernel, e: Event<K.Payload>)
    requires KI.Good(k) && k.failure.None? && IsLeast(e, k.pending) && KF.Transits(e.payload)
    ensures KI.Inv(K.Started(k, e))
  {
    hide KI.InvWith;
    KT.TakenInv(k, e);
  }

  /** The event of this dispatch ends the process of `owner`. */
  ghost predicate Ending(w: World, owner: K.Owner)
    requires w.kernel.pending != {}
  {
    KF.Transits(EventOf(w).payload) && OwnerOf(EventOf(w).payload) == owner
    && KF.EndsBy(w.kernel, owner, KF.TargetOf(EventOf(w).payload))
  }

  /** The broker before and after its part of the dispatch. */
  ghost function Before(w: World, turn: Turn, setting: Setting): B.Bus
    requires w.kernel.pending != {} && w.bus.pending != {}
  { Informed(Synced(w, turn, setting.routes), EventOf(w), Handled(w, turn).services) }

  ghost predicate CanReact(w: World, turn: Turn, setting: Setting) {
    && w.kernel.pending != {} && w.bus.pending != {}
    && var b := Before(w, turn, setting);
       var p := BusEventOf(w).payload;
       B.Routed(b) && (p.Admission? ==> B.Routed(B.Admit(b, p.operation, p.destination).0))
  }

  ghost function Reaction(w: World, turn: Turn, setting: Setting): (B.Bus, B.Output)
    requires CanReact(w, turn, setting)
  { Reacted(Before(w, turn, setting), EventOf(w), BusEventOf(w).payload, turn.answer, setting.faults) }

  lemma ReadyAfterTransit(w: World, setting: Setting, turn: Turn)
    requires KI.Good(w.kernel) && BrokerOk(w.kernel, w.bus, setting.routes) && Going(w)
    requires Handled(w, turn).failure.None?
    requires w.bus.pending != {} && KF.Transits(EventOf(w).payload)
    ensures var b := Before(w, turn, setting);
      && ReadyOk(Handled(w, turn).services, b)
      && forall s: B.Sub :: s.consumer != OwnerOf(EventOf(w).payload) ==> (s in b.ready <==> s in w.bus.ready)
  {
    hide KI.Good, BI.Inv, A.Agree, ReadyOk, Handled, BF.Own, A.Mirrored, KF.Works;
    HandledServices(w, turn);
    var s, k, e := K.Started(w.kernel, EventOf(w)), Handled(w, turn), EventOf(w);
    ReadyDiffers(w.bus, s.services, k.services, OwnerOf(e.payload));
    SameReady(k.services, w.bus.(ready := ReadyOf(k.services, w.bus.subscribers)), Before(w, turn, setting));
  }

  lemma ReadyAfterWork(w: World, setting: Setting, turn: Turn)
    requires KI.Good(w.kernel) && BrokerOk(w.kernel, w.bus, setting.routes) && Going(w)
    requires Handled(w, turn).failure.None?
    requires w.bus.pending != {} && !KF.Transits(EventOf(w).payload)
    ensures ReadyOk(Handled(w, turn).services, Before(w, turn, setting))
  {
    hide KI.Good, BI.Inv, A.Agree, ReadyOk, Handled, BF.Own, A.Mirrored, KF.Works;
    HandledServices(w, turn);
    var s, k, e := K.Started(w.kernel, EventOf(w)), Handled(w, turn), EventOf(w);
    WorkedStates(KF.Decided(s, e), k);
    ReadyStays(w.bus, s.services, k.services);
    SameReady(k.services, w.bus, Before(w, turn, setting));
  }

  /** Once it was told, the broker knows exactly which services run. */
  lemma ReadyBefore(w: World, setting: Setting, turn: Turn)
    requires KI.Good(w.kernel) && BrokerOk(w.kernel, w.bus, setting.routes) && Going(w)
    requires Handled(w, turn).failure.None?
    requires w.bus.pending != {}
    ensures var b := Before(w, turn, setting);
      && ReadyOk(Handled(w, turn).services, b)
      && (KF.Transits(EventOf(w).payload) ==>
            forall s: B.Sub :: s.consumer != OwnerOf(EventOf(w).payload) ==> (s in b.ready <==> s in w.bus.ready))
  {
    hide KI.Good, BrokerOk, ReadyOk, Handled, Before;
    if KF.Transits(EventOf(w).payload) {
      ReadyAfterTransit(w, setting, turn);
    } else {
      ReadyAfterWork(w, setting, turn);
    }
  }

  lemma WorkedStates(s: K.Kernel, c: K.Kernel)
    requires KF.Works(s, c)
    ensures KF.SameStates(s.services, c.services)
  {}

  lemma SameReady(services: map<K.Owner, K.Service>, b: B.Bus, c: B.Bus)
    requires ReadyOk(services, b) && c.ready == b.ready && c.subscribers == b.subscribers
    ensures ReadyOk(services, c)
  {}

  /** The broker's part keeps its invariant, moves the agenda only in its own ways, and knows who is ready. */
  lemma ReactionKeeps(w: World, setting: Setting, turn: Turn)
    requires KI.Good(w.kernel) && BrokerOk(w.kernel, w.bus, setting.routes) && Going(w)
    requires Handled(w, turn).failure.None?
    requires RoutesOk(Handled(w, turn), w.bus, setting.routes)
    ensures CanReact(w, turn, setting)
    ensures var (c, output) := Reaction(w, turn, setting);
      && BI.Inv(c) && A.Sound(Before(w, turn, setting), c) && ReadyOk(Handled(w, turn).services, c)
    ensures A.Ready(Handled(w, turn), Before(w, turn, setting), setting.routes)
  {
    hide KI.Good, KF.Works, BI.Core, BI.NoLostWakeup, A.Agree, ReadyOk, RoutesOk;
    hide Synced, Handled, K.Started, B.Admit, B.RunHandler, B.ConsumerChanged, BF.Moves, BI.TimerExpected;
    SyncedKeeps(w, setting, turn);
    var e, g, k := EventOf(w), BusEventOf(w), Handled(w, turn);
    var s := Synced(w, turn, setting.routes);
    var b := Before(w, turn, setting);
    ReadyBefore(w, setting, turn);
    if BF.IsOwn(g.payload) {
      TimerStillExpected(w.bus, g);
      OwnKeeps(s, g.payload, setting.faults, w.bus, g);
    } else if g.payload.Admission? {
      AdmitAnsweredKeeps(b, g.payload.operation, g.payload.destination, turn.answer);
    } else if KF.Transits(e.payload) {
      ChangedKeeps(s, b, OwnerOf(e.payload));
    } else {
      AnsweredKeeps(b, turn.answer);
    }
    var c := Reaction(w, turn, setting).0;
    InvIsCore(c);
    BusEvents(c, None);
    BusEvents(s, BT.HoleOf(g.payload));
    MovedReady(b, c, k.services);
  }

  lemma MovedReady(b: B.Bus, c: B.Bus, services: map<K.Owner, K.Service>)
    requires BF.Moves(b, c) && ReadyOk(services, b)
    ensures ReadyOk(services, c)
  {
    forall s: B.Sub ensures s in c.ready <==> IsReady(services, c.subscribers, s) {
      assert s in b.ready <==> IsReady(services, b.subscribers, s);
    }
  }

  // ---------- One dispatch: the databases ----------

  /** A service with a database. */
  ghost predicate Hosted(w: World, setting: Setting, o: K.Owner) {
    w.kernel.pending != {} && o in w.databases && o in setting.schemas && o in w.kernel.services
  }

  /** The database of `o` after the event itself: it decides a commit, or drops what an ended process left. */
  ghost function EventDb(w: World, setting: Setting, o: K.Owner): D.Db
    requires Hosted(w, setting, o) && D.Handles(w.databases[o])
  {
    var p := EventOf(w).payload;
    if p.Commit? && p.owner == o then D.Dispatch(setting.schemas[o], w.databases[o], p.op, setting.commitFaults(p.op)).0
    else if Ending(w, o) then D.Abandon(w.databases[o], w.kernel.services[o].generation)
    else w.databases[o]
  }

  /** The pending commits after the event itself. */
  ghost function EventCommits(w: World): C.Commits
    requires w.kernel.pending != {}
  {
    var k, p := w.kernel, EventOf(w).payload;
    if p.Commit? then k.commits - {p.op}
    else if KF.Transits(p) && Ending(w, OwnerOf(p))
        then K.DropCommits(k, p.owner, k.services[p.owner].generation).commits
    else k.commits
  }

  /** The process generation of `o` after the event itself. */
  ghost function EventGeneration(w: World, o: K.Owner): nat
    requires w.kernel.pending != {} && o in w.kernel.services
  { if Ending(w, o) then w.kernel.services[o].generation + 1 else w.kernel.services[o].generation }

  lemma CommitsAreCurrent(k: K.Kernel, op: K.OpId)
    requires KI.Inv(k) && op in k.commits && k.commits[op].owner in k.services
    ensures k.commits[op].generation == k.services[k.commits[op].owner].generation
  {
    hide KI.EventsOk, KI.TasksOk, KI.WakesOk, KI.AwaitsOk, KI.LocalOk, KI.FlightsOk, KI.ReferencesOk, KI.TraceOk;
  }

  lemma DataHere(w: World, setting: Setting, o: K.Owner)
    requires DataOk(w, setting) && o in w.databases
    ensures o in setting.schemas && o in w.kernel.services
    ensures D.Satisfies(setting.schemas[o], setting.schemas[o].initial)
    ensures C.Serves(w.kernel.commits, w.kernel.services[o].generation, o, setting.schemas[o], w.databases[o])
  {
    hide C.Serves, D.Satisfies, CommitEventsOk;
  }

  lemma EventNamesOwner(w: World, setting: Setting)
    requires DataOk(w, setting) && w.kernel.pending != {}
    ensures var p := EventOf(w).payload;
            p.Commit? && p.op in w.kernel.commits ==> w.kernel.commits[p.op].owner == p.owner
  {
    hide DatabasesOk, SchemasOk;
    assert EventOf(w) in w.kernel.pending;
  }

  lemma EventServes(w: World, setting: Setting, o: K.Owner)
    requires DataOk(w, setting) && Going(w) && o in w.databases
    ensures Hosted(w, setting, o) && D.Handles(w.databases[o])
    ensures C.Serves(EventCommits(w), EventGeneration(w, o), o, setting.schemas[o], EventDb(w, setting, o))
  {
    hide C.Serves, KF.EndsBy, D.Satisfies, DataOk, D.Dispatch, D.Abandon, D.Handles;
    DataHere(w, setting, o);
    EventNamesOwner(w, setting);
    var k, schema, db := w.kernel, setting.schemas[o], w.databases[o];
    var generation := k.services[o].generation;
    var p := EventOf(w).payload;
    ServingHandles(k.commits, generation, o, schema, db);
    if p.Commit? && p.owner == o {
      C.DecisionServes(k.commits, generation, o, schema, db, p.op, setting.commitFaults(p.op));
    } else if Ending(w, o) {
      C.EndServes(k.commits, generation, o, schema, db, EventCommits(w));
    } else {
      C.ElsewhereServes(k.commits, generation, o, schema, db, EventCommits(w));
    }
  }

  lemma ServingHandles(commits: C.Commits, generation: nat, o: K.Owner, schema: D.Schema, db: D.Db)
    requires C.Serves(commits, generation, o, schema, db)
    ensures T.Inv(schema, db) && D.Handles(db)
  {
    hide T.Inv;
    T.InvHandles(schema, db);
  }

  function CallsOf(turn: Turn, o: K.Owner): seq<D.Input> { if o in turn.calls then turn.calls[o] else [] }

  /** The database of `o` once the running task has made its calls. */
  ghost function CalledDb(w: World, setting: Setting, turn: Turn, o: K.Owner): D.Db
    requires Hosted(w, setting, o) && D.Handles(w.databases[o])
  { C.CalledAll(setting.schemas[o], EventDb(w, setting, o), CallsOf(turn, o), EventGeneration(w, o)) }

  lemma CalledServes(w: World, setting: Setting, turn: Turn, o: K.Owner)
    requires DataOk(w, setting) && Going(w) && o in w.databases
    ensures Hosted(w, setting, o) && D.Handles(w.databases[o])
    ensures C.Serves(EventCommits(w), EventGeneration(w, o), o, setting.schemas[o], CalledDb(w, setting, turn, o))
  {
    hide C.Serves, D.Satisfies, EventDb, EventCommits, EventGeneration;
    EventServes(w, setting, o);
    C.CallsServe(EventCommits(w), EventGeneration(w, o), o, setting.schemas[o], EventDb(w, setting, o),
                 CallsOf(turn, o));
  }

  /** The task that ran yielded a commit: a new operation, which waits with its task. */
  ghost predicate Submits(w: World, turn: Turn)
    requires w.kernel.pending != {}
  {
    var k := Handled(w, turn);
    !KF.Transits(EventOf(w).payload) && KF.Submits(w.kernel, k) && k.ops[|w.kernel.ops|].task in k.tasks
  }

  ghost function Submitter(w: World, turn: Turn): K.Task
    requires w.kernel.pending != {} && Submits(w, turn)
  { Handled(w, turn).tasks[Handled(w, turn).ops[|w.kernel.ops|].task] }

  /** The task behind the new commit, as its database knows it. */
  ghost function SubmitterTask(w: World, setting: Setting, turn: Turn): D.Task
    requires w.kernel.pending != {} && Submits(w, turn) && Submitter(w, turn).owner in setting.schemas
  {
    D.Task(Handled(w, turn).ops[|w.kernel.ops|].task, setting.schemas[Submitter(w, turn).owner].owner,
           Submitter(w, turn).generation)
  }

  /** The transaction `h` of `db` may be submitted by the task that yielded the commit. */
  ghost predicate MaySubmit(w: World, setting: Setting, turn: Turn, db: D.Db)
    requires w.kernel.pending != {} && Submits(w, turn)
  {
    && Submitter(w, turn).owner in setting.schemas && setting.handles(|w.kernel.ops|) < |db.txs|
    && D.Active(db, setting.handles(|w.kernel.ops|), Some(SubmitterTask(w, setting, turn)))
  }

  /**
   * Only a task with an open transaction of its own can commit: `submit` refuses any other before there is an
   * operation.
   */
  ghost predicate SubmitOk(w: World, setting: Setting, turn: Turn)
    requires w.kernel.pending != {}
  {
    Submits(w, turn) ==>
      && Hosted(w, setting, Submitter(w, turn).owner) && D.Handles(w.databases[Submitter(w, turn).owner])
      && MaySubmit(w, setting, turn, CalledDb(w, setting, turn, Submitter(w, turn).owner))
  }

  ghost function NextDb(w: World, setting: Setting, turn: Turn, o: K.Owner): D.Db
    requires Hosted(w, setting, o) && D.Handles(w.databases[o]) && SubmitOk(w, setting, turn)
  {
    var db := CalledDb(w, setting, turn, o);
    if Submits(w, turn) && Submitter(w, turn).owner == o
    then D.Submit(db, setting.handles(|w.kernel.ops|), Some(SubmitterTask(w, setting, turn)), |w.kernel.ops|) else db
  }

  /** What the handler did to the pending commits and process generations, after what the event itself did. */
  lemma HandledCommits(w: World, turn: Turn)
    requires KI.Good(w.kernel) && Going(w) && Handled(w, turn).failure.None?
    ensures var k, op := Handled(w, turn), |w.kernel.ops|;
      && k.services.Keys == w.kernel.services.Keys
      && (forall o :: o in w.kernel.services ==> k.services[o].generation == EventGeneration(w, o))
      && op !in EventCommits(w)
      && k.commits == (if Submits(w, turn)
           then EventCommits(w)[op := K.PendingCommit(Submitter(w, turn).owner, Submitter(w, turn).generation)]
           else EventCommits(w))
  {
    hide KI.Good, Handled, KF.EndsBy;
    HandledServices(w, turn);
    KT.GoodIsInv(w.kernel);
    FreshOperation(w.kernel);
    var e := EventOf(w);
    if !KF.Transits(e.payload) { WorkedCommits(KF.Decided(K.Started(w.kernel, e), e), Handled(w, turn)); }
  }

  lemma FreshOperation(k: K.Kernel)
    requires KI.Inv(k)
    ensures |k.ops| !in k.commits
  {
    hide KI.EventsOk, KI.TasksOk, KI.WakesOk, KI.AwaitsOk, KI.GenerationsOk, KI.LocalOk, KI.FlightsOk, KI.ReferencesOk;
    hide KI.TraceOk;
  }

  lemma WorkedCommits(s: K.Kernel, c: K.Kernel)
    requires KF.Works(s, c)
    ensures KF.SameStates(s.services, c.services)
    ensures KF.Submits(s, c) ==> c.ops[|s.ops|].task in c.tasks
    ensures c.commits == if KF.Submits(s, c)
      then s.commits[|s.ops| :=
                     K.PendingCommit(c.tasks[c.ops[|s.ops|].task].owner, c.tasks[c.ops[|s.ops|].task].generation)]
      else s.commits
  {}

  lemma TaskGeneration(k: K.Kernel, t: K.TaskId)
    requires KI.Good(k) && k.failure.None? && t in k.tasks && k.tasks[t].owner in k.services
    ensures k.tasks[t].generation == k.services[k.tasks[t].owner].generation
  {
    hide KI.EventsOk, KI.WakesOk, KI.AwaitsOk, KI.LocalOk, KI.CommitsOk, KI.FlightsOk, KI.ReferencesOk, KI.TraceOk;
    assert KI.TaskOk(t, k.tasks[t], k.ops, k.generations, k.nextTask);
  }

  /** After the whole dispatch each database still serves exactly the commits the kernel waits for. */
  lemma NextServes(w: World, setting: Setting, turn: Turn, o: K.Owner)
    requires KI.Good(w.kernel) && DataOk(w, setting) && Going(w) && Handled(w, turn).failure.None?
    requires SubmitOk(w, setting, turn) && o in w.databases
    ensures Hosted(w, setting, o) && D.Handles(w.databases[o]) && o in Handled(w, turn).services
    ensures C.Serves(Handled(w, turn).commits, Handled(w, turn).services[o].generation, o, setting.schemas[o],
                     NextDb(w, setting, turn, o))
  {
    hide KI.Good, DataOk, C.Serves, Handled, EventCommits, EventGeneration, CalledDb;
    CalledServes(w, setting, turn, o);
    HandledCommits(w, turn);
    var commits, generation, schema, db := EventCommits(w), EventGeneration(w, o), setting.schemas[o],
        CalledDb(w, setting, turn, o);
    var op := |w.kernel.ops|;
    if Submits(w, turn) {
      var k := Handled(w, turn);
      if Submitter(w, turn).owner == o {
        HandledExtends(w, turn);
        TaskGeneration(k, k.ops[op].task);
        C.SubmitServes(commits, generation, o, schema, db, setting.handles(op), SubmitterTask(w, setting, turn), op);
      } else {
        C.OthersSubmit(commits, generation, o, schema, db, op, k.commits[op]);
      }
    }
  }

  // ---------- The whole dispatch ----------

  /**
   * What the source guarantees of a turn: publications name destinations, and commits are submitted by their own task.
   */
  ghost predicate Permitted(w: World, setting: Setting, turn: Turn)
    requires w.kernel.pending != {}
  {
    Handled(w, turn).failure.None? ==> RoutesOk(Handled(w, turn), w.bus, setting.routes) && SubmitOk(w, setting, turn)
  }

  /** The broker can take part in the dispatch, and its part is one that can be told to the kernel. */
  ghost predicate TakesPart(w: World, setting: Setting, turn: Turn) {
    && CanReact(w, turn, setting)
    && A.Sound(Before(w, turn, setting), Reaction(w, turn, setting).0)
  }

  /** The consumer that a report hands a delivery to. */
  ghost function Deliveries(b: B.Bus, output: B.Output): seq<K.Owner> {
    if output.Delivered? && output.delivery < |b.copies| then [b.copies[output.delivery].consumer] else []
  }

  /** The broker's part of the dispatch, as the kernel sees it. */
  ghost function Work(w: World, setting: Setting, turn: Turn): K.BrokerWork
    requires TakesPart(w, setting, turn)
  {
    var (c, output) := Reaction(w, turn, setting);
    A.WorkOf(Before(w, turn, setting), c, Deliveries(c, output))
  }

  ghost predicate DatabasesTakePart(w: World, setting: Setting, turn: Turn) {
    && w.kernel.pending != {} && SubmitOk(w, setting, turn)
    && forall o :: o in w.databases ==> Hosted(w, setting, o) && D.Handles(w.databases[o])
  }

  /** One dispatch of the composed simulation that did not fail in its handler. */
  ghost function After(w: World, setting: Setting, turn: Turn): World
    requires TakesPart(w, setting, turn) && DatabasesTakePart(w, setting, turn)
  {
    var k := K.Boundary(K.Brokered(Handled(w, turn), Work(w, setting, turn)));
    World(k, BF.Among(Reaction(w, turn, setting).0, A.Mirrored(k.pending, setting.routes), k.next),
          map o | o in w.databases :: NextDb(w, setting, turn, o))
  }

  /** One dispatch with this turn leads from `w` to `n`; after a failure in its handler nothing else happens. */
  ghost predicate Follows(w: World, setting: Setting, turn: Turn, n: World) {
    && Going(w) && Permitted(w, setting, turn)
    && if Handled(w, turn).failure.Some? then n == w.(kernel := Handled(w, turn))
       else TakesPart(w, setting, turn) && DatabasesTakePart(w, setting, turn) && n == After(w, setting, turn)
  }

  // ---------- The broker's work on the kernel's agenda ----------

  predicate IsTheirs(p: K.Payload) {
    p.Broker? || p.Consumer?
  }

  lemma BrokerWorkAgrees(k: K.Kernel, b: B.Bus, c: B.Bus, routes: nat -> string, deliveries: seq<K.Owner>)
    requires A.Ready(k, b, routes) && A.Sound(b, c) && k.failure.None?
    ensures var d := K.Brokered(k, A.WorkOf(b, c, deliveries));
      && d == k.(pending := d.pending, next := d.next, timers := d.timers) && c.next <= d.next
      && A.OfBroker(d.pending) == A.Shadows(c.pending)
      && (forall x :: x in d.pending && !IsTheirs(x.payload) <==> x in k.pending && !IsTheirs(x.payload))
  {
    hide A.Ready, A.Sound, K.StartTimers, K.CancelTimers, K.AcceptAll;
    var work := A.WorkOf(b, c, deliveries);
    assert work.cancelled == A.WorkOf(b, c, []).cancelled && work.timers == A.WorkOf(b, c, []).timers;
    var t := A.Timed(k, b, c);
    A.TimedAgrees(k, b, c, routes);
    A.TimedOthers(k, b, c, routes);
    A.AcceptsAdd(t, deliveries);
    var d := K.AcceptAll(t, deliveries);
    assert d == K.Brokered(k, work);
    assert A.OfBroker(d.pending) == A.OfBroker(t.pending);
  }

  /** The kernel after the broker's part, before the boundary. */
  ghost function Brokered(w: World, setting: Setting, turn: Turn): K.Kernel
    requires TakesPart(w, setting, turn)
  { K.Brokered(Handled(w, turn), Work(w, setting, turn)) }

  lemma BrokeredAgrees(w: World, setting: Setting, turn: Turn)
    requires TakesPart(w, setting, turn) && A.Ready(Handled(w, turn), Before(w, turn, setting), setting.routes)
    requires Handled(w, turn).failure.None?
    ensures var k, d, c := Handled(w, turn), Brokered(w, setting, turn), Reaction(w, turn, setting).0;
      && d == k.(pending := d.pending, next := d.next, timers := d.timers) && c.next <= d.next
      && A.OfBroker(d.pending) == A.Shadows(c.pending)
      && (forall x :: x in d.pending && !IsTheirs(x.payload) <==> x in k.pending && !IsTheirs(x.payload))
  {
    hide Handled, Before, Reaction, A.Ready, A.Sound, A.WorkOf, K.Brokered;
    var (c, output) := Reaction(w, turn, setting);
    BrokerWorkAgrees(Handled(w, turn), Before(w, turn, setting), c, setting.routes, Deliveries(c, output));
  }

  lemma BoundaryFrame(k: K.Kernel)
    ensures var c := K.Boundary(k);
      c == k.(completed := c.completed, failure := c.failure) && (c.completed ==> k.completed || k.pending == {})
  {}

  // ---------- For the kernel it is a dispatch ----------

  lemma StepIsDispatch(w: World, setting: Setting, turn: Turn, reaction: K.Reaction)
    requires KI.Good(w.kernel) && Going(w) && reaction.choice == turn.choice
    ensures K.Dispatch(w.kernel, _ => reaction) == K.Boundary(K.Brokered(Handled(w, turn), reaction.broker))
    ensures KI.Good(K.Boundary(K.Brokered(Handled(w, turn), reaction.broker)))
  {
    KT.NotInThePast(w.kernel, EventOf(w));
    KD.DispatchKeeps(w.kernel, _ => reaction);
    hide KI.Good, K.RunHandler, K.Brokered, K.Boundary, K.Started;
  }

  // ---------- The parts stay in agreement ----------

  lemma BrokerStays(w: World, setting: Setting, turn: Turn)
    requires KI.Good(w.kernel) && BrokerOk(w.kernel, w.bus, setting.routes) && Going(w)
    requires Handled(w, turn).failure.None?
    requires RoutesOk(Handled(w, turn), w.bus, setting.routes) && TakesPart(w, setting, turn)
    requires DatabasesTakePart(w, setting, turn)
    ensures var n := After(w, setting, turn); BrokerOk(n.kernel, n.bus, setting.routes)
  {
    hide Handled, Before, Reaction, CanReact, DatabasesTakePart, RoutesOk, A.Sound, A.Ready, A.Agree, BI.Core;
    hide BI.NoLostWakeup, ReadyOk;
    hide KI.Good, KI.EventsOk, BF.Beside, K.Boundary, K.Brokered, A.WorkOf;
    ReactionKeeps(w, setting, turn);
    BrokeredAgrees(w, setting, turn);
    RoutesAfter(Handled(w, turn), Brokered(w, setting, turn), w.bus, setting.routes);
    var c := Reaction(w, turn, setting).0;
    var n := After(w, setting, turn);
    BoundaryFrame(Brokered(w, setting, turn));
    StepIsDispatch(w, setting, turn, K.Reaction(turn.choice, Work(w, setting, turn)));
    GoodEvents(n.kernel);
    ClockAfter(w, setting, turn);
    A.MirroredStandBeside(n.kernel, c, setting.routes);
    BF.AmongKeeps(c, None, A.Mirrored(n.kernel.pending, setting.routes), n.kernel.next);
    A.AgreeAmong(n.kernel.pending, c.pending, setting.routes);
    SameReady(n.kernel.services, c, n.bus);
  }

  lemma RoutesAfter(k: K.Kernel, d: K.Kernel, b: B.Bus, routes: nat -> string)
    requires RoutesOk(k, b, routes) && forall x :: x in d.pending && !IsTheirs(x.payload) <==>
        x in k.pending && !IsTheirs(x.payload)
    ensures forall e :: e in d.pending && e.payload.Admission? ==> routes(e.payload.op) in b.destinations
  {
    forall e | e in d.pending && e.payload.Admission? ensures routes(e.payload.op) in b.destinations {
      assert !IsTheirs(e.payload);
    }
  }

  lemma ClockAfter(w: World, setting: Setting, turn: Turn)
    requires TakesPart(w, setting, turn) && A.Ready(Handled(w, turn), Before(w, turn, setting), setting.routes)
    ensures var c := Reaction(w, turn, setting).0; c.now == Handled(w, turn).now && c.destinations == w.bus.destinations
  {
    hide A.Agree, Handled, Reaction;
  }

  // ---------- Commits and their events ----------

  lemma ReferredCommit(k: K.Kernel, e: Event<K.Payload>)
    requires KI.Inv(k) && e in k.pending && e.payload.Commit?
    ensures e.payload.op < |k.ops|
  {
    hide KI.EventsOk, KI.TasksOk, KI.WakesOk, KI.AwaitsOk, KI.GenerationsOk, KI.LocalOk, KI.CommitsOk, KI.FlightsOk;
    hide KI.TraceOk;
    assert KI.Referable(e.payload, k.flights, |k.ops|);
  }

  /** Commits that lose no event and gain at most one with its event still belong together with their events. */
  lemma EventsStay(k: K.Kernel, e: Event<K.Payload>, c: K.Kernel, mid: C.Commits, commit: Option<K.PendingCommit>)
    requires CommitEventsOk(k) && forall x :: x in k.pending && x.payload.Commit? ==> x.payload.op < |k.ops|
    requires forall x :: x in k.pending - {e} && x.payload.Commit? ==> x in c.pending
    requires forall op :: op in mid ==>
        op in k.commits && mid[op] == k.commits[op]
        && e.payload != K.Commit(mid[op].owner, op)
    requires c.commits == if commit.Some? then mid[|k.ops| := commit.value] else mid
    requires commit.Some? ==> KI.Awaited(c.pending, K.Commit(commit.value.owner, |k.ops|))
    requires forall x :: x in c.pending && x !in k.pending && x.payload.Commit? ==>
      commit.Some? && x.payload == K.Commit(commit.value.owner, |k.ops|)
    ensures CommitEventsOk(c)
  {
    forall op | op in c.commits ensures KI.Awaited(c.pending, K.Commit(c.commits[op].owner, op)) {
      if op in mid && c.commits[op] == mid[op] {
        assert KI.Awaited(k.pending, K.Commit(mid[op].owner, op));
        var x :| x in k.pending && x.payload == K.Commit(mid[op].owner, op);
        assert x in k.pending - {e};
      }
    }
  }

  lemma WorkedEvents(s: K.Kernel, c: K.Kernel)
    requires KF.Works(s, c)
    ensures KF.Submits(s, c) ==> c.ops[|s.ops|].task in c.tasks
    ensures KF.Submits(s, c) ==>
      var owner := c.tasks[c.ops[|s.ops|].task].owner;
      && KI.Awaited(c.pending, K.Commit(owner, |s.ops|))
      && forall x :: x in c.pending && x !in s.pending && x.payload.Commit? ==> x.payload == K.Commit(owner, |s.ops|)
    ensures !KF.Submits(s, c) ==> forall x :: x in c.pending && x !in s.pending ==> !x.payload.Commit?
  {}

  lemma FirmStay(s: K.Kernel, c: K.Kernel)
    requires KF.Extends(s, c)
    ensures forall x :: x in s.pending && x.payload.Commit? ==> x in c.pending
  {}

  lemma HandledEvents(w: World, turn: Turn)
    requires KI.Good(w.kernel) && CommitEventsOk(w.kernel) && Going(w) && Handled(w, turn).failure.None?
    ensures CommitEventsOk(Handled(w, turn))
  {
    hide KI.Good, Handled, KF.EndsBy, CommitEventsOk, KF.Works, KF.Extends;
    HandledServices(w, turn);
    HandledExtends(w, turn);
    HandledCommits(w, turn);
    KT.GoodIsInv(w.kernel);
    var k, e, c := w.kernel, EventOf(w), Handled(w, turn);
    var s := K.Started(k, e);
    forall x | x in k.pending && x.payload.Commit? ensures x.payload.op < |k.ops| { ReferredCommit(k, x); }
    FirmStay(s, c);
    var commit := if Submits(w, turn)
        then Some(K.PendingCommit(Submitter(w, turn).owner, Submitter(w, turn).generation)) else None;
    if !KF.Transits(e.payload) { WorkedEvents(KF.Decided(s, e), c); }
    EventsStay(k, e, c, EventCommits(w), commit);
  }

  lemma SameCommitEvents(k: K.Kernel, c: K.Kernel)
    requires CommitEventsOk(k) && c.commits == k.commits
    requires forall x :: x in c.pending && !IsTheirs(x.payload) <==> x in k.pending && !IsTheirs(x.payload)
    ensures CommitEventsOk(c)
  {
    forall op | op in c.commits ensures KI.Awaited(c.pending, K.Commit(c.commits[op].owner, op)) {
      assert KI.Awaited(k.pending, K.Commit(k.commits[op].owner, op));
      var x :| x in k.pending && x.payload == K.Commit(k.commits[op].owner, op);
      assert x in c.pending && !IsTheirs(x.payload);
    }
    forall x | x in c.pending && x.payload.Commit? && x.payload.op in c.commits
      ensures c.commits[x.payload.op].owner == x.payload.owner
    {
      assert x in c.pending && !IsTheirs(x.payload);
    }
  }

  lemma OwnersHaveDatabases(w: World, setting: Setting, turn: Turn)
    requires KI.Good(w.kernel) && DataOk(w, setting) && Going(w) && Handled(w, turn).failure.None?
    requires SubmitOk(w, setting, turn)
    ensures forall op :: op in Handled(w, turn).commits ==> Handled(w, turn).commits[op].owner in w.databases
  {
    hide KI.Good, CommitEventsOk, SchemasOk, C.Serves, Handled, KF.EndsBy;
    HandledCommits(w, turn);
    forall op | op in EventCommits(w) ensures op in w.kernel.commits && EventCommits(w)[op] == w.kernel.commits[op] {}
  }

  lemma DomainsMatch(w: World, setting: Setting)
    requires DataOk(w, setting)
    ensures w.databases.Keys == setting.schemas.Keys && SchemasOk(setting.schemas) && CommitEventsOk(w.kernel)
  {
    hide CommitEventsOk, SchemasOk, C.Serves;
  }

  /** The kernel of the next world has the commits, services and commit events that the handler left. */
  ghost predicate SameData(k: K.Kernel, n: K.Kernel) {
    && n.commits == k.commits && n.services == k.services
    && forall x :: x in n.pending && !IsTheirs(x.payload) <==> x in k.pending && !IsTheirs(x.payload)
  }

  lemma DataStays(w: World, setting: Setting, turn: Turn, n: World)
    requires KI.Good(w.kernel) && DataOk(w, setting) && Going(w) && Handled(w, turn).failure.None?
    requires DatabasesTakePart(w, setting, turn) && SameData(Handled(w, turn), n.kernel)
    requires n.databases == map o | o in w.databases :: NextDb(w, setting, turn, o)
    ensures DataOk(n, setting)
  {
    hide KI.Good, Handled, C.Serves, NextDb, SubmitOk, CommitEventsOk, SchemasOk, Hosted;
    DomainsMatch(w, setting);
    HandledEvents(w, turn);
    SameCommitEvents(Handled(w, turn), n.kernel);
    OwnersHaveDatabases(w, setting, turn);
    hide DataOk;
    forall o | o in w.databases
      ensures o in n.kernel.services
      ensures C.Serves(n.kernel.commits, n.kernel.services[o].generation, o, setting.schemas[o], n.databases[o])
    {
      NextServes(w, setting, turn, o);
    }
    DataFrom(w, n, setting);
  }

  lemma DataFrom(w: World, n: World, setting: Setting)
    requires SchemasOk(setting.schemas) && CommitEventsOk(n.kernel) && n.databases.Keys == setting.schemas.Keys
    requires forall op :: op in n.kernel.commits ==> n.kernel.commits[op].owner in n.databases
    requires forall o :: o in n.databases ==>
      o in n.kernel.services
          && C.Serves(n.kernel.commits, n.kernel.services[o].generation, o, setting.schemas[o], n.databases[o])
    ensures DataOk(n, setting)
  {
    hide C.Serves, SchemasOk, CommitEventsOk;
  }

  lemma AfterKeeps(w: World, setting: Setting, turn: Turn)
    requires KI.Good(w.kernel) && BrokerOk(w.kernel, w.bus, setting.routes) && DataOk(w, setting) && Going(w)
    requires Handled(w, turn).failure.None? && RoutesOk(Handled(w, turn), w.bus, setting.routes)
    requires TakesPart(w, setting, turn) && DatabasesTakePart(w, setting, turn)
    ensures var n := After(w, setting, turn);
      KI.Good(n.kernel) && DataOk(n, setting) && (n.kernel.completed ==> n.kernel.pending == {})
  {
    hide KI.Good, BrokerOk, DataOk, Handled, RoutesOk, A.Ready, A.Sound, CanReact, Before, Reaction, K.Boundary;
    hide K.Brokered, SubmitOk, NextDb, Hosted;
    ReactionKeeps(w, setting, turn);
    BrokeredAgrees(w, setting, turn);
    BoundaryFrame(Brokered(w, setting, turn));
    StepIsDispatch(w, setting, turn, K.Reaction(turn.choice, Work(w, setting, turn)));
    HandledGoes(w, turn);
    DataStays(w, setting, turn, After(w, setting, turn));
  }

  lemma HandledGoes(w: World, turn: Turn)
    requires KI.Good(w.kernel) && Going(w)
    ensures !Handled(w, turn).completed
  {
    HandledExtends(w, turn);
    hide KI.Good, K.RunHandler;
  }
}
