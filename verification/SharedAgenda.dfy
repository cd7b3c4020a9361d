/**
 * The kernel and the message broker on one agenda: each sees the other's events as events of somebody else. The two
 * views stay in agreement, event by event, through everything that one dispatch does.
 */
module SharedAgenda {
  import opened Outcomes
  import opened Scheduler
  import K = KernelModel
  import KI = KernelInvariants
  import KF = KernelFrames
  import B = BusModel
  import BI = BusInvariants
  import BF = BusFrames

  type KernelEvents = set<Event<K.Payload>>
  type BusEvents = set<Event<B.BusEvent>>

  /** The destination that each publication names, by its operation. */
  type Routes = nat -> string

  // ---------- The two views of an event ----------

  function KindOf(p: B.BusEvent): K.BrokerKind
    requires BF.IsOwn(p)
  {
    match p
    case Dispatch => K.DISPATCH
    case Arrival(_, _) => K.ARRIVAL
    case Timeout(_, _) => K.TIMEOUT
    case Retry(_) => K.RETRY
  }

  /** How the kernel sees an event of the broker. */
  function Shadow(g: Event<B.BusEvent>): Event<K.Payload>
    requires BF.IsOwn(g.payload)
  {
    var p := K.Broker(KindOf(g.payload));
    Event(g.time, g.sequence, K.KindOf(p), p)
  }

  /** How the broker sees an event of the kernel. */
  function Mirror(e: Event<K.Payload>, routes: Routes): Event<B.BusEvent> {
    var p := if e.payload.Admission? then B.Admission(e.payload.op, routes(e.payload.op)) else B.Foreign;
    Event(e.time, e.sequence, B.KindOf(p), p)
  }

  ghost function Shadows(pending: BusEvents): KernelEvents { set g | g in pending && BF.IsOwn(g.payload) :: Shadow(g) }

  ghost function Mirrored(pending: KernelEvents, routes: Routes): BusEvents {
    set e | e in pending && !e.payload.Broker? :: Mirror(e, routes)
  }

  ghost function OfBroker(pending: KernelEvents): KernelEvents { set e | e in pending && e.payload.Broker? }

  /** The two agendas hold the same events. */
  ghost predicate Agree(kernel: KernelEvents, bus: BusEvents, routes: Routes) {
    OfBroker(kernel) == Shadows(bus) && bus == BF.Own(bus) + Mirrored(kernel, routes)
  }

  lemma HasShadow(kernel: KernelEvents, bus: BusEvents, routes: Routes, e: Event<K.Payload>)
      returns (g: Event<B.BusEvent>)
    requires Agree(kernel, bus, routes) && e in kernel && e.payload.Broker?
    ensures g in bus && BF.IsOwn(g.payload) && Shadow(g) == e
  {
    assert e in Shadows(bus);
    g :| g in bus && BF.IsOwn(g.payload) && Shadow(g) == e;
  }

  /** Every event of the broker's agenda has its event on the kernel's, at the same time and with the same sequence. */
  lemma HasCounterpart(kernel: KernelEvents, bus: BusEvents, routes: Routes, g: Event<B.BusEvent>)
      returns (e: Event<K.Payload>)
    requires Agree(kernel, bus, routes) && g in bus
    ensures e in kernel && e.time == g.time && e.sequence == g.sequence
    ensures if BF.IsOwn(g.payload) then e == Shadow(g) else !e.payload.Broker? && g == Mirror(e, routes)
  {
    if BF.IsOwn(g.payload) {
      e := Shadow(g);
      assert e in Shadows(bus);
    } else {
      e :| e in kernel && !e.payload.Broker? && g == Mirror(e, routes);
    }
  }

  /** What the broker takes when the kernel takes its least event. */
  ghost predicate SameEvent(e: Event<K.Payload>, g: Event<B.BusEvent>, routes: Routes) {
    if e.payload.Broker? then BF.IsOwn(g.payload) && Shadow(g) == e else g == Mirror(e, routes)
  }

  lemma LeastIsSame(kernel: KernelEvents, bus: BusEvents, routes: Routes)
    requires Agree(kernel, bus, routes) && DistinctSequences(bus) && kernel != {}
    ensures bus != {} && SameEvent(Least(kernel), Least(bus), routes)
  {
    var e := Least(kernel);
    var g: Event<B.BusEvent>;
    if e.payload.Broker? {
      g := HasShadow(kernel, bus, routes, e);
    } else {
      g := Mirror(e, routes);
      assert g in Mirrored(kernel, routes);
    }
    forall h | h in bus ensures Compare(g, h) <= 0 {
      var x := HasCounterpart(kernel, bus, routes, h);
      assert Compare(e, x) <= 0;
    }
    LeastIsUnique(g, Least(bus), bus);
  }

  /** Taking that event leaves the broker's own events in agreement. */
  lemma TakenShadows(kernel: KernelEvents, bus: BusEvents, routes: Routes, e: Event<K.Payload>, g: Event<B.BusEvent>)
    requires Agree(kernel, bus, routes) && DistinctSequences(bus) && e in kernel && g in bus && SameEvent(e, g, routes)
    ensures OfBroker(kernel - {e}) == Shadows(bus - {g})
  {
    forall x ensures x in OfBroker(kernel - {e}) <==> x in Shadows(bus - {g}) {
      if x in OfBroker(kernel - {e}) {
        var h := HasShadow(kernel, bus, routes, x);
        assert h != g && h in bus - {g};
      }
      if x in Shadows(bus - {g}) {
        var h :| h in bus - {g} && BF.IsOwn(h.payload) && Shadow(h) == x;
        assert x in Shadows(bus);
        assert h.sequence != g.sequence;
      }
    }
  }

  // ---------- The kernel's handler ----------

  lemma OwnIsOwn(pending: BusEvents, others: BusEvents)
    requires forall g :: g in others ==> !BF.IsOwn(g.payload)
    ensures BF.Own(BF.Own(pending) + others) == BF.Own(pending) && Shadows(BF.Own(pending) + others) == Shadows(pending)
  {
    var both := BF.Own(pending) + others;
    forall x ensures x in Shadows(both) <==> x in Shadows(pending) {
      if x in Shadows(pending) {
        var g :| g in pending && BF.IsOwn(g.payload) && Shadow(g) == x;
        assert g in both;
      }
    }
  }

  lemma MirroredAreOthers(kernel: KernelEvents, routes: Routes)
    ensures forall g :: g in Mirrored(kernel, routes) ==> !BF.IsOwn(g.payload)
  {}

  /** Once the broker sees the kernel's agenda as it is, the two agree if the kernel left the broker's events alone. */
  lemma AgreeAmong(kernel: KernelEvents, bus: BusEvents, routes: Routes)
    requires OfBroker(kernel) == Shadows(bus)
    ensures Agree(kernel, BF.Own(bus) + Mirrored(kernel, routes), routes)
  {
    MirroredAreOthers(kernel, routes);
    OwnIsOwn(bus, Mirrored(kernel, routes));
  }

  lemma ExtendsKeepsBroker(s: K.Kernel, c: K.Kernel)
    requires KF.Extends(s, c)
    ensures OfBroker(c.pending) == OfBroker(s.pending)
  {}

  /** The kernel's events may stand beside the broker's: the one sequence counter keeps them apart. */
  lemma MirroredStandBeside(k: K.Kernel, b: B.Bus, routes: Routes)
    requires KI.EventsOk(k.pending, k.next, k.now) && b.now == k.now && b.next <= k.next
    requires forall e :: e in k.pending && e.payload.Admission? ==> routes(e.payload.op) in b.destinations
    requires OfBroker(k.pending) == Shadows(b.pending)
    ensures BF.Beside(b, Mirrored(k.pending, routes), k.next)
  {
    var others := Mirrored(k.pending, routes);
    forall g | g in others ensures !BF.IsOwn(g.payload) && BI.EventOk(b.destinations, b.copies, k.next, b.now, g) {
      var e :| e in k.pending && !e.payload.Broker? && Mirror(e, routes) == g;
      assert KI.EventOk(k.next, k.now, e);
    }
    forall g, h | g in others && h in others && g.sequence == h.sequence ensures g == h {
      var e :| e in k.pending && !e.payload.Broker? && Mirror(e, routes) == g;
      var f :| f in k.pending && !f.payload.Broker? && Mirror(f, routes) == h;
      assert e == f;
    }
    forall g, h | g in others && h in BF.Own(b.pending) ensures g.sequence != h.sequence {
      var e :| e in k.pending && !e.payload.Broker? && Mirror(e, routes) == g;
      assert Shadow(h) in Shadows(b.pending);
      assert Shadow(h) in k.pending;
    }
  }

  // ---------- The broker's part ----------

  ghost predicate Sound(b: B.Bus, c: B.Bus) {
    && BF.Moves(b, c)
    && BI.EventsOk(b.destinations, b.copies, b.next, b.now, b.pending)
    && BI.EventsOk(c.destinations, c.copies, c.next, c.now, c.pending)
  }

  ghost function Added(c: B.Bus, id: EventId): Event<B.BusEvent>
    requires BF.Has(c.pending, id)
  {
    var g :| g in c.pending && g.sequence == id; g
  }

  lemma AddedIsOwn(b: B.Bus, c: B.Bus, id: EventId)
    requires Sound(b, c) && b.next <= id < c.next
    ensures BF.Has(c.pending, id)
    ensures var g := Added(c, id); g in c.pending && g.sequence == id && BF.IsOwn(g.payload) && c.now <= g.time
  {
    assert BF.Has(c.pending, id);
    var g := Added(c, id);
    forall h | h in b.pending
      ensures h.sequence < b.next
    {
      assert BI.EventOk(b.destinations, b.copies, b.next, b.now, h);
    }
    assert BI.EventOk(c.destinations, c.copies, c.next, c.now, g);
  }

  /** The timer behind an event that the broker added. */
  ghost function TimerFor(b: B.Bus, c: B.Bus, id: EventId): K.Timer
    requires Sound(b, c) && b.next <= id < c.next
  {
    AddedIsOwn(b, c, id);
    K.Timer(KindOf(Added(c, id).payload), Added(c, id).time - c.now)
  }

  /** What the kernel has to do on its agenda for the broker to get from `b` to `c`. */
  ghost function WorkOf(b: B.Bus, c: B.Bus, deliveries: seq<K.Owner>): K.BrokerWork
    requires Sound(b, c)
  {
    K.BrokerWork(set g | g in b.pending - c.pending :: g.sequence,
                 seq(c.next - b.next, i requires 0 <= i < c.next - b.next => TimerFor(b, c, b.next + i)), deliveries)
  }

  function TimerEvent(s: K.Kernel, timers: seq<K.Timer>, i: nat): Event<K.Payload>
    requires i < |timers|
  {
    var p := K.Broker(timers[i].kind);
    Event(s.now + timers[i].delay, s.next + i, K.KindOf(p), p)
  }

  predicate IsTimerOf(s: K.Kernel, timers: seq<K.Timer>, x: Event<K.Payload>) {
    s.next <= x.sequence < s.next + |timers| && x == TimerEvent(s, timers, x.sequence - s.next)
  }

  /** From `s` to `c` exactly the events of these timers were added. */
  ghost predicate AddsTimers(s: K.Kernel, c: K.Kernel, timers: seq<K.Timer>) {
    && c == s.(pending := c.pending, next := s.next + |timers|, timers := c.timers)
    && (forall x :: x in c.pending <==> x in s.pending || IsTimerOf(s, timers, x))
  }

  lemma FirstTimer(s: K.Kernel, timers: seq<K.Timer>, x: Event<K.Payload>)
    requires timers != []
    ensures var d := K.StartTimer(s, timers[0]);
      && d == s.(pending := d.pending, next := s.next + 1, timers := d.timers)
      && (x in d.pending || IsTimerOf(d, timers[1..], x) <==> x in s.pending || IsTimerOf(s, timers, x))
  {
    hide K.KindOf;
    var d := K.StartTimer(s, timers[0]);
    if s.next < x.sequence < s.next + |timers| {
      assert timers[1..][x.sequence - d.next] == timers[x.sequence - s.next];
    }
  }

  /** Starting timers adds exactly their events, with consecutive sequences. */
  lemma {:induction false} TimersAdded(s: K.Kernel, timers: seq<K.Timer>)
    ensures AddsTimers(s, K.StartTimers(s, timers), timers)
    decreases |timers|
  {
    hide K.StartTimer, IsTimerOf;
    if timers != [] {
      var d := K.StartTimer(s, timers[0]);
      TimersAdded(d, timers[1..]);
      var c := K.StartTimers(s, timers);
      forall x ensures x in c.pending <==> x in s.pending || IsTimerOf(s, timers, x) { FirstTimer(s, timers, x); }
      FirstTimer(s, timers, TimerEvent(s, timers, 0));
    } else {
      forall x ensures !IsTimerOf(s, timers, x) { NoTimers(s, x); }
    }
  }

  lemma NoTimers(s: K.Kernel, x: Event<K.Payload>)
    ensures !IsTimerOf(s, [], x)
  {}

  /** The kernel after the broker's cancellations and new events. */
  ghost function Timed(k: K.Kernel, b: B.Bus, c: B.Bus): K.Kernel
    requires Sound(b, c)
  {
    var work := WorkOf(b, c, []);
    K.StartTimers(K.CancelTimers(k, work.cancelled), work.timers)
  }

  /** Before the broker moves, the two agendas agree and the kernel knows the broker's events by their handles. */
  ghost predicate Ready(k: K.Kernel, b: B.Bus, routes: Routes) {
    && Agree(k.pending, b.pending, routes) && b.now == k.now && b.next == k.next
    && (forall e :: e in k.pending ==> (e.sequence in k.timers <==> e.payload.Broker?))
  }

  lemma TimerEventIsShadow(k: K.Kernel, b: B.Bus, c: B.Bus, id: EventId)
    requires Sound(b, c) && b.next <= id < c.next && k.now == c.now && k.next == b.next
    ensures BF.Has(c.pending, id) && BF.IsOwn(Added(c, id).payload)
    ensures TimerEvent(k, WorkOf(b, c, []).timers, id - b.next) == Shadow(Added(c, id))
  {
    AddedIsOwn(b, c, id);
    var i: nat := id - b.next;
    assert WorkOf(b, c, []).timers[i] == TimerFor(b, c, b.next + i);
    assert k.next + i == id;
  }

  lemma OneShadow(bus: BusEvents, g: Event<B.BusEvent>, h: Event<B.BusEvent>)
    requires DistinctSequences(bus) && g in bus && h in bus && g.sequence == h.sequence
    ensures g == h
  {}

  lemma SoundIsDistinct(b: B.Bus, c: B.Bus)
    requires Sound(b, c)
    ensures DistinctSequences(b.pending)
  {}

  /** Cancelling the broker's events takes off the kernel's agenda exactly what left the broker's. */
  lemma CancelledStay(k: K.Kernel, b: B.Bus, c: B.Bus, routes: Routes, x: Event<K.Payload>)
    requires Ready(k, b, routes) && Sound(b, c)
    ensures x in K.CancelTimers(k, WorkOf(b, c, []).cancelled).pending <==>
      x in k.pending && (x.payload.Broker? ==>
                         exists g :: g in b.pending && g in c.pending && BF.IsOwn(g.payload) && Shadow(g) == x)
  {
    SoundIsDistinct(b, c);
    var cancelled := WorkOf(b, c, []).cancelled;
    assert cancelled == set g | g in b.pending - c.pending :: g.sequence;
    hide Sound, WorkOf;
    if x in k.pending && x.payload.Broker? {
      var g := HasShadow(k.pending, b.pending, routes, x);
      if g !in c.pending { assert g in b.pending - c.pending; }
      if x.sequence in cancelled {
        var h :| h in b.pending - c.pending && h.sequence == x.sequence;
        OneShadow(b.pending, g, h);
      }
      if h :| h in b.pending && h in c.pending && BF.IsOwn(h.payload) && Shadow(h) == x { OneShadow(b.pending, g, h); }
    }
  }

  lemma TimedAreShadows(k: K.Kernel, b: B.Bus, c: B.Bus, routes: Routes, x: Event<K.Payload>)
    requires Ready(k, b, routes) && Sound(b, c) && x in OfBroker(Timed(k, b, c).pending)
    ensures x in Shadows(c.pending)
  {
    hide K.StartTimers, K.CancelTimers, Agree;
    var work := WorkOf(b, c, []);
    var d := K.CancelTimers(k, work.cancelled);
    TimersAdded(d, work.timers);
    CancelledStay(k, b, c, routes, x);
    CancelledFrame(k, work.cancelled);
    if x !in d.pending {
      TimerEventIsShadow(d, b, c, x.sequence);
      AddedIsOwn(b, c, x.sequence);
    }
  }

  lemma CancelledFrame(k: K.Kernel, ids: set<EventId>)
    ensures var d := K.CancelTimers(k, ids); d == k.(pending := d.pending)
  {}

  lemma ShadowsAreTimed(k: K.Kernel, b: B.Bus, c: B.Bus, routes: Routes, g: Event<B.BusEvent>)
    requires Ready(k, b, routes) && Sound(b, c) && g in c.pending && BF.IsOwn(g.payload)
    ensures Shadow(g) in OfBroker(Timed(k, b, c).pending)
  {
    hide K.StartTimers, K.CancelTimers;
    var work := WorkOf(b, c, []);
    var d := K.CancelTimers(k, work.cancelled);
    TimersAdded(d, work.timers);
    CancelledFrame(k, work.cancelled);
    if g in b.pending {
      assert Shadow(g) in Shadows(b.pending);
      CancelledStay(k, b, c, routes, Shadow(g));
    } else {
      AddedIsOwn(b, c, g.sequence);
      assert Added(c, g.sequence) == g;
      TimerEventIsShadow(d, b, c, g.sequence);
      var i: nat := g.sequence - b.next;
      assert IsTimerOf(d, work.timers, TimerEvent(d, work.timers, i));
    }
  }

  /** The kernel's own events are untouched by the broker's part, and the broker still sees them all. */
  lemma TimedOthers(k: K.Kernel, b: B.Bus, c: B.Bus, routes: Routes)
    requires Ready(k, b, routes) && Sound(b, c)
    ensures forall x :: x in Timed(k, b, c).pending && !x.payload.Broker? <==> x in k.pending && !x.payload.Broker?
    ensures forall g :: g in c.pending && !BF.IsOwn(g.payload) <==> g in b.pending && !BF.IsOwn(g.payload)
  {
    var work := WorkOf(b, c, []);
    var d := K.CancelTimers(k, work.cancelled);
    TimersAdded(d, work.timers);
    forall x: Event<K.Payload> | !x.payload.Broker? ensures x in Timed(k, b, c).pending <==> x in k.pending {
      CancelledStay(k, b, c, routes, x);
    }
  }

  /** After the broker's part the two agendas agree again. */
  lemma TimedAgrees(k: K.Kernel, b: B.Bus, c: B.Bus, routes: Routes)
    requires Ready(k, b, routes) && Sound(b, c)
    ensures var t := Timed(k, b, c);
      && Agree(t.pending, c.pending, routes) && t.next == c.next
      && t == k.(pending := t.pending, next := t.next, timers := t.timers)
  {
    hide Agree;
    var t := Timed(k, b, c);
    forall x ensures x in OfBroker(t.pending) <==> x in Shadows(c.pending) {
      if x in OfBroker(t.pending) { TimedAreShadows(k, b, c, routes, x); }
      if x in Shadows(c.pending) {
        var g :| g in c.pending && BF.IsOwn(g.payload) && Shadow(g) == x;
        ShadowsAreTimed(k, b, c, routes, g);
      }
    }
    TimedOthers(k, b, c, routes);
    TimersAdded(K.CancelTimers(k, WorkOf(b, c, []).cancelled), WorkOf(b, c, []).timers);
    OthersAgree(k, b, t, c, routes);
  }

  lemma OthersAgree(k: K.Kernel, b: B.Bus, t: K.Kernel, c: B.Bus, routes: Routes)
    requires Agree(k.pending, b.pending, routes) && OfBroker(t.pending) == Shadows(c.pending)
    requires forall x :: x in t.pending && !x.payload.Broker? <==> x in k.pending && !x.payload.Broker?
    requires forall g :: g in c.pending && !BF.IsOwn(g.payload) <==> g in b.pending && !BF.IsOwn(g.payload)
    ensures Agree(t.pending, c.pending, routes)
  {
    assert Mirrored(t.pending, routes) == Mirrored(k.pending, routes);
    MirroredAreOthers(k.pending, routes);
    forall g ensures g in c.pending <==> g in BF.Own(c.pending) + Mirrored(t.pending, routes) {
      if g in Mirrored(k.pending, routes) { assert g in b.pending; }
    }
  }

  // ---------- Deliveries ----------

  /** Handing deliveries over adds no event of the broker's. */
  lemma {:induction false} AcceptsAdd(s: K.Kernel, owners: seq<K.Owner>)
    ensures var c := K.AcceptAll(s, owners);
      && c == s.(pending := c.pending, next := c.next) && s.next <= c.next && s.pending <= c.pending
      && (forall x :: x in c.pending && x !in s.pending ==> x.payload.Consumer?)
    decreases |owners|
  {
    hide K.KindOf;
    if owners != [] { AcceptsAdd(K.Accept(s, owners[0]), owners[1..]); }
  }
}
