/**
 * The deterministic scheduler: a binary heap ordered by (time, sequence) with an inverse position map, refining a
 * finite set of pending events.
 */
module Scheduler {
  import opened Outcomes

  /** An event id is `event:<run>:<sequence>`; one scheduler serves one run, so the sequence is the id. */
  type EventId = nat

  datatype Event<+P> = Event(time: nat, sequence: EventId, kind: string, payload: P)

  datatype Draft<+P> = Draft(time: int, kind: string, target: Option<string>, payload: P)

  /** `compare`: due time first, then allocation order. */
  function Compare<P>(a: Event<P>, b: Event<P>): int {
    if a.time != b.time then a.time - b.time else a.sequence - b.sequence
  }

  // ---------- The specification: a set of events with distinct sequences ----------

  ghost predicate DistinctSequences<P(!new)>(pending: set<Event<P>>) {
    forall a, b :: a in pending && b in pending && a.sequence == b.sequence ==> a == b
  }

  ghost predicate IsLeast<P(!new)>(e: Event<P>, pending: set<Event<P>>) {
    e in pending && forall x :: x in pending ==> Compare(e, x) <= 0
  }

  lemma LeastIsUnique<P(!new)>(a: Event<P>, b: Event<P>, pending: set<Event<P>>)
    requires DistinctSequences(pending)
    requires IsLeast(a, pending) && IsLeast(b, pending)
    ensures a == b
  {
    assert Compare(a, b) <= 0 && Compare(b, a) <= 0;
  }

  lemma {:induction false} LeastExists<P(!new)>(pending: set<Event<P>>)
    requires pending != {}
    ensures exists e :: IsLeast(e, pending)
    decreases |pending|
  {
    var e :| e in pending;
    var rest := pending - {e};
    if rest == {} {
      assert pending == {e};
      assert IsLeast(e, pending);
    } else {
      LeastExists(rest);
      var r :| IsLeast(r, rest);
      var m := if Compare(e, r) <= 0 then e else r;
      forall x | x in pending ensures Compare(m, x) <= 0 {
        assert x == e || x in rest;
      }
      assert IsLeast(m, pending);
    }
  }

  /** The event the specification takes next. */
  ghost function Least<P(!new)>(pending: set<Event<P>>): (e: Event<P>)
    requires pending != {}
    ensures IsLeast(e, pending)
  {
    LeastExists(pending);
    var e :| IsLeast(e, pending);
    e
  }

  /** The order in which an undisturbed scheduler hands out its events. */
  ghost function PopOrder<P(!new)>(pending: set<Event<P>>): seq<Event<P>>
    decreases |pending|
  {
    if pending == {} then [] else
      var e := Least(pending);
      [e] + PopOrder(pending - {e})
  }

  lemma PopOrderTakesLeast<P(!new)>(pending: set<Event<P>>)
    requires pending != {}
    ensures PopOrder(pending) == [Least(pending)] + PopOrder(pending - {Least(pending)})
  {}

  lemma NothingPops<P(!new)>()
    ensures PopOrder<P>({}) == []
  {}

  ghost predicate Ascending<P(!new)>(s: seq<Event<P>>) {
    forall i, j :: 0 <= i < j < |s| ==> Compare(s[i], s[j]) < 0
  }

  ghost function Elements<P(!new)>(s: seq<Event<P>>): set<Event<P>> {
    set e | e in s
  }

  lemma PrependAscends<P(!new)>(e: Event<P>, tail: seq<Event<P>>)
    requires Ascending(tail)
    requires forall x :: x in tail ==> Compare(e, x) < 0
    ensures Ascending([e] + tail)
  {
    var s := [e] + tail;
    forall i, j | 0 <= i < j < |s| ensures Compare(s[i], s[j]) < 0 {
      assert s[j] == tail[j - 1];
      if i > 0 { assert s[i] == tail[i - 1]; }
    }
  }

  /** The pop order lists exactly the pending events, strictly ascending. */
  lemma {:induction false} PopOrderIsSorted<P(!new)>(pending: set<Event<P>>)
    requires DistinctSequences(pending)
    ensures Ascending(PopOrder(pending))
    ensures forall e :: e in PopOrder(pending) <==> e in pending
    decreases |pending|
  {
    if pending != {} {
      var e := Least(pending);
      var rest := pending - {e};
      PopOrderIsSorted(rest);
      var tail := PopOrder(rest);
      forall x | x in tail ensures Compare(e, x) < 0 {
        assert x in pending && x != e;
      }
      PrependAscends(e, tail);
      assert PopOrder(pending) == [e] + tail;
    }
  }

  /** The head of an ascending listing is the least event, and the tail lists the others. */
  lemma AscendingHead<P(!new)>(s: seq<Event<P>>, pending: set<Event<P>>)
    requires s != [] && Ascending(s)
    requires forall e :: e in s <==> e in pending
    ensures IsLeast(s[0], pending)
    ensures forall e :: e in s[1..] <==> e in pending - {s[0]}
  {
    assert s[0] in pending;
    forall x | x in pending ensures Compare(s[0], x) <= 0 {
      var j :| 0 <= j < |s| && s[j] == x;
      if j > 0 { assert Compare(s[0], s[j]) < 0; }
    }
    forall e ensures e in s[1..] <==> e in pending - {s[0]} {
      if e in s[1..] {
        var j :| 0 < j < |s| && s[j] == e;
        assert Compare(s[0], s[j]) < 0;
        assert e in s;
      }
    }
  }

  /** Any ascending listing of a set of pending events is its pop order. */
  lemma {:induction false} AscendingIsPopOrder<P(!new)>(s: seq<Event<P>>, pending: set<Event<P>>)
    requires Ascending(s) && DistinctSequences(pending)
    requires forall e :: e in s <==> e in pending
    ensures PopOrder(pending) == s
    decreases |s|
  {
    if s == [] {
      assert pending == {};
    } else {
      assert s[0] in pending;
      AscendingHead(s, pending);
      LeastIsUnique(Least(pending), s[0], pending);
      PopOrderTakesLeast(pending);
      hide PopOrder, IsLeast;
      AscendingIsPopOrder(s[1..], pending - {s[0]});
      assert s == [s[0]] + s[1..];
    }
  }

  // ---------- Heap order over the array ----------

  function Parent(i: nat): nat
    requires i > 0
  { (i - 1) / 2 }

  /** The edge from the parent of `i` to `i` is in order. */
  ghost predicate EdgeOk<P(!new)>(h: seq<Event<P>>, i: nat)
    requires 0 < i < |h|
  { Compare(h[Parent(i)], h[i]) <= 0 }

  ghost predicate HeapOrdered<P(!new)>(h: seq<Event<P>>) {
    forall i: nat :: 0 < i < |h| ==> EdgeOk(h, i)
  }

  /** Every edge that does not touch `hole` is in order, and so is every path that skips over it. */
  ghost predicate OrderedAround<P(!new)>(h: seq<Event<P>>, hole: nat) {
    && (forall i: nat {:trigger EdgeOk(h, i)} :: 0 < i < |h| && i != hole && Parent(i) != hole ==> EdgeOk(h, i))
    && (forall i: nat {:trigger Compare(h[Parent(hole)], h[i])} :: 0 < i < |h| && Parent(i) == hole && hole > 0 ==>
        Compare(h[Parent(hole)], h[i]) <= 0)
  }

  ghost predicate ChildrenOk<P(!new)>(h: seq<Event<P>>, hole: nat) {
    forall i: nat {:trigger EdgeOk(h, i)} :: 0 < i < |h| && Parent(i) == hole ==> EdgeOk(h, i)
  }

  lemma {:induction false} RootIsLeast<P(!new)>(h: seq<Event<P>>, i: nat)
    requires HeapOrdered(h) && i < |h|
    ensures Compare(h[0], h[i]) <= 0
  {
    if i > 0 {
      RootIsLeast(h, Parent(i));
      assert EdgeOk(h, i);
    }
  }

  /** The position map is the exact inverse of the array. */
  ghost predicate ExactPositions<P(!new)>(h: seq<Event<P>>, positions: map<EventId, nat>) {
    && (forall i: nat :: i < |h| ==> h[i].sequence in positions && positions[h[i].sequence] == i)
    && (forall id :: id in positions ==> positions[id] < |h| && h[positions[id]].sequence == id)
  }

  ghost function Swapped<P(!new)>(h: seq<Event<P>>, a: nat, b: nat): seq<Event<P>>
    requires a < |h| && b < |h|
  { h[a := h[b]][b := h[a]] }

  lemma SwapKeepsElements<P(!new)>(h: seq<Event<P>>, a: nat, b: nat)
    requires a < |h| && b < |h|
    ensures Elements(Swapped(h, a, b)) == Elements(h)
  {
    var g := Swapped(h, a, b);
    forall e ensures e in g <==> e in h {
      if e in h {
        var i :| 0 <= i < |h| && h[i] == e;
        assert g[if i == a then b else if i == b then a else i] == e;
      }
    }
  }

  /** One upward swap moves the hole to its parent and leaves the children of the new hole in order. */
  lemma SwapUp<P(!new)>(h: seq<Event<P>>, hole: nat)
    requires 0 < hole < |h| && OrderedAround(h, hole) && !EdgeOk(h, hole)
    ensures OrderedAround(Swapped(h, Parent(hole), hole), Parent(hole))
    ensures ChildrenOk(Swapped(h, Parent(hole), hole), Parent(hole))
  {
    var p := Parent(hole);
    var g := Swapped(h, p, hole);
    forall i: nat | 0 < i < |g| && i != p && Parent(i) != p ensures EdgeOk(g, i) {
      if Parent(i) != hole { assert EdgeOk(h, i); }
    }
    forall i: nat | 0 < i < |g| && Parent(i) == p
      ensures EdgeOk(g, i) && (p > 0 ==> Compare(g[Parent(p)], g[i]) <= 0)
    {
      if p > 0 { assert EdgeOk(h, p); }
      if i != hole { assert EdgeOk(h, i); }
    }
  }

  /** One downward swap with the least child moves the hole to that child. */
  lemma SwapDown<P(!new)>(h: seq<Event<P>>, hole: nat, child: nat)
    requires 0 < child < |h| && Parent(child) == hole && OrderedAround(h, hole)
    requires hole > 0 ==> EdgeOk(h, hole)
    requires !EdgeOk(h, child)
    requires forall i: nat :: 0 < i < |h| && Parent(i) == hole ==> Compare(h[child], h[i]) <= 0
    ensures OrderedAround(Swapped(h, hole, child), child)
    ensures EdgeOk(Swapped(h, hole, child), child)
  {
    var g := Swapped(h, hole, child);
    forall i: nat | 0 < i < |g| && i != child && Parent(i) != child ensures EdgeOk(g, i) {
      if i != hole && Parent(i) != hole { assert EdgeOk(h, i); }
    }
    forall i: nat | 0 < i < |g| && Parent(i) == child ensures Compare(g[Parent(child)], g[i]) <= 0 {
      assert EdgeOk(h, i);
    }
  }

  /** The child that `#down` compares the hole with. */
  function SmallerChild<P>(h: seq<Event<P>>, hole: nat): (child: nat)
    requires hole * 2 + 1 < |h|
    ensures hole < child < |h| && Parent(child) == hole
  {
    var left := hole * 2 + 1;
    if left + 1 < |h| && Compare(h[left + 1], h[left]) < 0 then left + 1 else left
  }

  lemma SmallerChildIsLeast<P(!new)>(h: seq<Event<P>>, hole: nat)
    requires hole * 2 + 1 < |h|
    ensures forall i: nat :: 0 < i < |h| && Parent(i) == hole ==> Compare(h[SmallerChild(h, hole)], h[i]) <= 0
  {
    forall i: nat | 0 < i < |h| && Parent(i) == hole ensures Compare(h[SmallerChild(h, hole)], h[i]) <= 0 {
      assert i == hole * 2 + 1 || i == hole * 2 + 2;
    }
  }

  /** `#down` may stop when the hole has no child, or none that must come first. */
  lemma DownStops<P(!new)>(h: seq<Event<P>>, hole: nat)
    requires hole < |h| && OrderedAround(h, hole)
    requires hole > 0 ==> EdgeOk(h, hole)
    requires hole * 2 + 1 < |h| ==> Compare(h[hole], h[SmallerChild(h, hole)]) <= 0
    ensures HeapOrdered(h)
  {
    forall i: nat | 0 < i < |h| ensures EdgeOk(h, i) {
      if Parent(i) == hole { SmallerChildIsLeast(h, hole); }
    }
  }

  lemma DownMoves<P(!new)>(h: seq<Event<P>>, hole: nat)
    requires hole * 2 + 1 < |h| && OrderedAround(h, hole)
    requires hole > 0 ==> EdgeOk(h, hole)
    requires Compare(h[hole], h[SmallerChild(h, hole)]) > 0
    ensures OrderedAround(Swapped(h, hole, SmallerChild(h, hole)), SmallerChild(h, hole))
    ensures EdgeOk(Swapped(h, hole, SmallerChild(h, hole)), SmallerChild(h, hole))
  {
    SmallerChildIsLeast(h, hole);
    SwapDown(h, hole, SmallerChild(h, hole));
  }

  lemma AppendedAround<P(!new)>(h: seq<Event<P>>, e: Event<P>)
    requires HeapOrdered(h)
    ensures OrderedAround(h + [e], |h|) && ChildrenOk(h + [e], |h|)
  {
    var g := h + [e];
    forall i: nat | 0 < i < |g| && i != |h| ensures EdgeOk(g, i) && Parent(i) != |h| {
      assert EdgeOk(h, i);
    }
  }

  lemma AppendedPositions<P(!new)>(h: seq<Event<P>>, p: map<EventId, nat>, e: Event<P>)
    requires ExactPositions(h, p) && e.sequence !in p
    ensures ExactPositions(h + [e], p[e.sequence := |h|])
    ensures Elements(h + [e]) == Elements(h) + {e}
  {}

  /** `#remove` before sifting: the last event takes the freed place. */
  function Plugged<P>(h: seq<Event<P>>, index: nat): seq<Event<P>>
    requires index < |h|
  {
    var shorter := h[..|h| - 1];
    if index < |shorter| then shorter[index := h[|h| - 1]] else shorter
  }

  function PluggedPositions<P>(h: seq<Event<P>>, p: map<EventId, nat>, index: nat): map<EventId, nat>
    requires index < |h|
  {
    var fewer := p - {h[index].sequence};
    if index < |h| - 1 then fewer[h[|h| - 1].sequence := index] else fewer
  }

  lemma PluggedIsExact<P(!new)>(h: seq<Event<P>>, p: map<EventId, nat>, index: nat)
    requires ExactPositions(h, p) && index < |h|
    ensures ExactPositions(Plugged(h, index), PluggedPositions(h, p, index))
    ensures Elements(Plugged(h, index)) == Elements(h) - {h[index]}
  {
    var g := Plugged(h, index);
    forall e ensures e in g <==> e in h && e != h[index] {
      if e in h && e != h[index] {
        var i :| 0 <= i < |h| && h[i] == e;
        assert g[if i == |h| - 1 then index else i] == e;
      }
      if e in g {
        var i :| 0 <= i < |g| && g[i] == e;
        var k := if i == index then |h| - 1 else i;
        assert h[k] == e && k != index;
        assert p[h[k].sequence] == k && p[h[index].sequence] == index;
      }
    }
  }

  lemma PluggedAround<P(!new)>(h: seq<Event<P>>, index: nat)
    requires HeapOrdered(h) && index < |h|
    ensures index < |h| - 1 ==> OrderedAround(Plugged(h, index), index)
    ensures index == |h| - 1 ==> HeapOrdered(Plugged(h, index))
  {
    var g := Plugged(h, index);
    forall i: nat | 0 < i < |g| && i != index && Parent(i) != index ensures EdgeOk(g, i) {
      assert EdgeOk(h, i);
    }
    forall i: nat | 0 < i < |g| && Parent(i) == index && index > 0 ensures Compare(g[Parent(index)], g[i]) <= 0 {
      assert EdgeOk(h, i) && EdgeOk(h, index);
    }
  }

  lemma HoleClosed<P(!new)>(h: seq<Event<P>>, hole: nat)
    requires OrderedAround(h, hole) && ChildrenOk(h, hole)
    requires 0 < hole < |h| ==> EdgeOk(h, hole)
    ensures HeapOrdered(h)
  {
    forall i: nat | 0 < i < |h| ensures EdgeOk(h, i) {
      if i == hole || Parent(i) == hole {}
    }
  }

  // ---------- The scheduler object ----------

  /** A pending event as `exportState` writes it and `restore` reads it back, before any check. */
  datatype SavedEvent<+P> = SavedEvent(time: int, sequence: int, kind: string, payload: P)

  datatype SchedulerState<+P> = SchedulerState(runId: string, nextSequence: int, pending: seq<SavedEvent<P>>)

  /** The right to cancel one event, bound to the scheduler generation that issued it. */
  datatype Handle = Handle(eventId: EventId, dueTime: nat, generation: nat)

  function Saved<P>(e: Event<P>): SavedEvent<P> {
    SavedEvent(e.time, e.sequence, e.kind, e.payload)
  }

  function Loaded<P>(s: SavedEvent<P>): Event<P>
    requires s.time >= 0 && s.sequence >= 0
  {
    Event(s.time, s.sequence, s.kind, s.payload)
  }

  /** `[...heap].sort(compare)`. */
  function InsertInOrder<P>(e: Event<P>, s: seq<Event<P>>): seq<Event<P>> {
    if s == [] || Compare(e, s[0]) < 0 then [e] + s else [s[0]] + InsertInOrder(e, s[1..])
  }

  function Sorted<P>(s: seq<Event<P>>): seq<Event<P>> {
    if s == [] then [] else InsertInOrder(s[0], Sorted(s[1..]))
  }

  lemma {:induction false} InsertInOrderElements<P(!new)>(e: Event<P>, s: seq<Event<P>>)
    ensures forall x :: x in InsertInOrder(e, s) <==> x == e || x in s
  {
    if s != [] && Compare(e, s[0]) >= 0 {
      InsertInOrderElements(e, s[1..]);
      assert s == [s[0]] + s[1..];
    }
  }

  lemma {:induction false} InsertInOrderAscends<P(!new)>(e: Event<P>, s: seq<Event<P>>)
    requires Ascending(s)
    requires forall x :: x in s ==> Compare(e, x) != 0
    ensures Ascending(InsertInOrder(e, s))
  {
    if s != [] {
      if Compare(e, s[0]) < 0 {
        forall x | x in s ensures Compare(e, x) < 0 {
          var j :| 0 <= j < |s| && s[j] == x;
          if j > 0 { assert Compare(s[0], s[j]) < 0; }
        }
        PrependAscends(e, s);
      } else {
        InsertInOrderAscends(e, s[1..]);
        InsertInOrderElements(e, s[1..]);
        forall x | x in InsertInOrder(e, s[1..]) ensures Compare(s[0], x) < 0 {
          if x != e {
            var j :| 0 <= j < |s[1..]| && s[1..][j] == x;
            assert Compare(s[0], s[j + 1]) < 0;
          }
        }
        PrependAscends(s[0], InsertInOrder(e, s[1..]));
      }
    }
  }

  /** Sorting the heap array lists the pending events in pop order. */
  lemma {:induction false} SortedHeap<P(!new)>(s: seq<Event<P>>)
    requires forall i, j :: 0 <= i < j < |s| ==> s[i].sequence != s[j].sequence
    ensures Ascending(Sorted(s)) && forall x :: x in Sorted(s) <==> x in s
  {
    if s != [] {
      SortedHeap(s[1..]);
      InsertInOrderElements(s[0], Sorted(s[1..]));
      InsertInOrderAscends(s[0], Sorted(s[1..]));
      assert s == [s[0]] + s[1..];
    }
  }

  /** What `restore` demands of one saved event. */
  predicate RestorableEvent<P>(e: SavedEvent<P>, nextSequence: int, now: nat, handlers: map<string, string>) {
    && Validate(Draft(e.time, e.kind, None, e.payload), now, handlers).Ok?
    && 0 <= e.sequence < nextSequence
  }

  /** What `restore` demands of a saved state: its own run, valid events, and no sequence twice. */
  ghost predicate Restorable<P(!new)>(state: SchedulerState<P>, runId: string, now: nat, handlers: map<string,
                                      string>) {
    && state.runId == runId && state.nextSequence >= 0
    && (forall i :: 0 <= i < |state.pending| ==> RestorableEvent(state.pending[i], state.nextSequence, now, handlers))
    && (forall i, j :: 0 <= i < j < |state.pending| ==> state.pending[i].sequence != state.pending[j].sequence)
  }

  ghost function LoadedSet<P(!new)>(pending: seq<SavedEvent<P>>): set<Event<P>>
    requires forall i :: 0 <= i < |pending| ==> pending[i].time >= 0 && pending[i].sequence >= 0
  {
    set i | 0 <= i < |pending| :: Loaded(pending[i])
  }

  /** `#validate`: the checks on a draft, in the order the source makes them. */
  function Validate<P>(draft: Draft<P>, now: nat, handlers: map<string, string>): (r: Result<()>) {
    if draft.time < 0 then Err(INVALID_SIMULATION_TIME)
    else if draft.time < now then Err(EVENT_IN_PAST)
    else if !Registered(draft.kind, handlers) then Err(INVALID_EVENT_TYPE)
    else if draft.target.Some? && draft.target.value != handlers[draft.kind] then Err(INVALID_EVENT_TYPE)
    else Ok(())
  }

  /** An event type that some component handles. */
  predicate Registered(kind: string, handlers: map<string, string>) {
    kind != "" && kind in handlers
  }

  class DeterministicScheduler<P(==,!new)> {
    const runId: string
    const handlers: map<string, string>
    var heap: seq<Event<P>>
    var positions: map<EventId, nat>
    var next: nat
    var generation: nat
    var pristine: bool

    ghost predicate Stored()
      reads this
    {
      && ExactPositions(heap, positions)
      && (forall e :: e in heap ==> e.sequence < next)
    }

    /** The abstract value: the set of pending events. */
    ghost function Pending(): set<Event<P>>
      reads this
    {
      Elements(heap)
    }

    ghost predicate Valid()
      reads this
    {
      Stored() && HeapOrdered(heap) && forall e :: e in Pending() ==> Registered(e.kind, handlers)
    }

    lemma SequencesDistinct()
      requires Stored()
      ensures DistinctSequences(Pending())
      ensures forall e :: e in Pending() ==> e.sequence < next
      ensures forall id :: id in positions ==> exists e :: e in Pending() && e.sequence == id
    {
      forall id | id in positions ensures exists e :: e in Pending() && e.sequence == id {
        assert heap[positions[id]] in Pending();
      }
      forall a, b | a in Pending() && b in Pending() && a.sequence == b.sequence ensures a == b {
        var i :| 0 <= i < |heap| && heap[i] == a;
        var j :| 0 <= j < |heap| && heap[j] == b;
      }
    }

    constructor (runId: string, handlers: map<string, string>)
      ensures Valid() && Pending() == {} && next == 0 && generation == 0 && pristine
      ensures this.runId == runId && this.handlers == handlers
    {
      this.runId, this.handlers := runId, handlers;
      heap, positions, next, generation, pristine := [], map[], 0, 0, true;
    }

    method Swap(a: nat, b: nat)
      requires Stored() && a < |heap| && b < |heap|
      modifies `heap, `positions
      ensures Stored() && heap == Swapped(old(heap), a, b)
      ensures Pending() == old(Pending())
    {
      var first, second := heap[a], heap[b];
      heap := heap[a := second][b := first];
      positions := positions[first.sequence := b][second.sequence := a];
      SwapKeepsElements(old(heap), a, b);
    }

    method Up(start: nat) returns (index: nat)
      requires Stored() && start < |heap| && OrderedAround(heap, start)
      modifies `heap, `positions
      ensures Stored() && |heap| == old(|heap|) && Pending() == old(Pending())
      ensures index < |heap| && heap[index] == old(heap)[start]
      ensures OrderedAround(heap, index) && (index > 0 ==> EdgeOk(heap, index))
      ensures (index != start || old(ChildrenOk(heap, start))) ==> ChildrenOk(heap, index)
    {
      index := start;
      while index > 0
        invariant Stored() && |heap| == old(|heap|) && Pending() == old(Pending())
        invariant index <= start && heap[index] == old(heap)[start]
        invariant OrderedAround(heap, index)
        invariant index == start ==> heap == old(heap)
        invariant index != start ==> ChildrenOk(heap, index)
      {
        var parent := Parent(index);
        if Compare(heap[parent], heap[index]) <= 0 { break; }
        SwapUp(heap, index);
        Swap(parent, index);
        index := parent;
      }
    }

    method Down(start: nat)
      requires Stored() && start < |heap| && OrderedAround(heap, start)
      requires start > 0 ==> EdgeOk(heap, start)
      modifies `heap, `positions
      ensures Stored() && HeapOrdered(heap) && |heap| == old(|heap|) && Pending() == old(Pending())
    {
      var index := start;
      while index * 2 + 1 < |heap|
        invariant Stored() && |heap| == old(|heap|) && Pending() == old(Pending())
        invariant index < |heap| && OrderedAround(heap, index)
        invariant index > 0 ==> EdgeOk(heap, index)
        decreases |heap| - index
      {
        var child := index * 2 + 1;
        if child + 1 < |heap| && Compare(heap[child + 1], heap[child]) < 0 { child := child + 1; }
        assert child == SmallerChild(heap, index);
        if Compare(heap[index], heap[child]) <= 0 { break; }
        DownMoves(heap, index);
        Swap(index, child);
        index := child;
      }
      DownStops(heap, index);
    }

    method Insert(event: Event<P>)
      requires Valid() && event.sequence < next && event.sequence !in positions && Registered(event.kind, handlers)
      modifies `heap, `positions
      ensures Valid() && Pending() == old(Pending()) + {event}
    {
      AppendedAround(heap, event);
      AppendedPositions(heap, positions, event);
      var index := |heap|;
      heap := heap + [event];
      positions := positions[event.sequence := index];
      var at := Up(index);
      HoleClosed(heap, at);
    }

    /** Moves the event at a hole to where it belongs: up first, then down from where it arrived. */
    method Sift(hole: nat)
      requires Stored() && hole < |heap| && OrderedAround(heap, hole)
      modifies `heap, `positions
      ensures Stored() && HeapOrdered(heap) && Pending() == old(Pending())
    {
      var moved := heap[hole];
      var at := Up(hole);
      assert positions[heap[at].sequence] == at;
      Down(positions[moved.sequence]);
    }

    /** The slot at `index` gets the last event of the array. */
    method Plug(index: nat)
      requires Stored() && index < |heap|
      modifies `heap, `positions
      ensures heap == Plugged(old(heap), index) && positions == PluggedPositions(old(heap), old(positions), index)
    {
      var removed, last := heap[index], heap[|heap| - 1];
      heap := heap[..|heap| - 1];
      positions := positions - {removed.sequence};
      if index < |heap| {
        heap := heap[index := last];
        positions := positions[last.sequence := index];
      }
    }

    method Remove(index: nat) returns (removed: Event<P>)
      requires Valid() && index < |heap|
      modifies `heap, `positions
      ensures removed == old(heap)[index]
      ensures Valid() && Pending() == old(Pending()) - {removed}
    {
      PluggedIsExact(heap, positions, index);
      PluggedAround(heap, index);
      PluggedIsStored(index);
      removed := heap[index];
      Plug(index);
      hide Plugged, PluggedPositions, ExactPositions, HeapOrdered, OrderedAround;
      if index < |heap| { Sift(index); }
    }

    lemma PluggedIsStored(index: nat)
      requires Stored() && index < |heap|
      ensures forall e :: e in Plugged(heap, index) ==> e.sequence < next
      ensures |Plugged(heap, index)| == |heap| - 1
    {
      PluggedIsExact(heap, positions, index);
      forall e | e in Plugged(heap, index) ensures e in heap { assert e in Elements(Plugged(heap, index)); }
    }

    method Schedule(draft: Draft<P>, now: nat) returns (r: Result<Handle>)
      requires Valid()
      modifies `heap, `positions, `next, `pristine
      ensures Valid()
      ensures Validate(draft, now, handlers).Err? ==>
        && r == Err(Validate(draft, now, handlers).code)
        && Pending() == old(Pending()) && next == old(next) && pristine == old(pristine)
      ensures Validate(draft, now, handlers).Ok? ==>
        && r == Ok(Handle(old(next), draft.time, generation)) && next == old(next) + 1 && !pristine
        && Pending() == old(Pending()) + {Event(draft.time, old(next), draft.kind, draft.payload)}
    {
      var checked := Validate(draft, now, handlers);
      if checked.Err? { return Err(checked.code); }
      SequencesDistinct();
      var event := Event(draft.time, next, draft.kind, draft.payload);
      next := next + 1;
      Insert(event);
      pristine := false;
      r := Ok(Handle(event.sequence, event.time, generation));
    }

    method Cancel(eventId: EventId) returns (found: bool)
      requires Valid()
      modifies `heap, `positions
      ensures Valid()
      ensures found <==> exists e :: e in old(Pending()) && e.sequence == eventId
      ensures Pending() == set e | e in old(Pending()) && e.sequence != eventId
    {
      found := eventId in positions;
      if found {
        SequencesDistinct();
        assert heap[positions[eventId]] in Pending();
        var event := Remove(positions[eventId]);
      } else {
        forall e | e in Pending() ensures e.sequence != eventId {
          var i :| 0 <= i < |heap| && heap[i] == e;
        }
      }
    }

    /** The `cancel` of an issued handle: stale after `restore` or `reset`. */
    method CancelHandle(handle: Handle) returns (r: Result<bool>)
      requires Valid()
      modifies `heap, `positions
      ensures Valid()
      ensures handle.generation != generation ==> r == Err(STALE_CAPABILITY) && Pending() == old(Pending())
      ensures handle.generation == generation ==>
        && r.Ok? && (r.value <==> exists e :: e in old(Pending()) && e.sequence == handle.eventId)
        && Pending() == set e | e in old(Pending()) && e.sequence != handle.eventId
    {
      if handle.generation != generation { return Err(STALE_CAPABILITY); }
      var found := Cancel(handle.eventId);
      r := Ok(found);
    }

    lemma RootIsLeastPending()
      requires Valid() && heap != []
      ensures IsLeast(heap[0], Pending())
    {
      forall x | x in Pending() ensures Compare(heap[0], x) <= 0 {
        var i :| 0 <= i < |heap| && heap[i] == x;
        RootIsLeast(heap, i);
      }
    }

    method Peek() returns (e: Option<Event<P>>)
      requires Valid()
      ensures e.None? <==> Pending() == {}
      ensures e.Some? ==> IsLeast(e.value, Pending())
    {
      if |heap| == 0 { return None; }
      RootIsLeastPending();
      e := Some(heap[0]);
    }

    method TakeNext() returns (e: Option<Event<P>>)
      requires Valid()
      modifies `heap, `positions
      ensures Valid()
      ensures old(Pending()) == {} ==> e == None && Pending() == {}
      ensures old(Pending()) != {} ==> e == Some(Least(old(Pending()))) && Pending() == old(Pending()) - {e.value}
    {
      if |heap| == 0 { return None; }
      RootIsLeastPending();
      SequencesDistinct();
      LeastIsUnique(heap[0], Least(Pending()), Pending());
      var event := Remove(0);
      e := Some(event);
    }

    /** Takes every event: the observable order of the whole queue. */
    lemma EmptyHeap()
      ensures |heap| == 0 <==> Pending() == {}
    {
      if |heap| > 0 { assert heap[0] in Pending(); }
    }

    method Drain() returns (s: seq<Event<P>>)
      requires Valid()
      modifies `heap, `positions
      ensures Valid() && Pending() == {}
      ensures s == PopOrder(old(Pending()))
    {
      hide Valid, Pending, PopOrder;
      s := [];
      ghost var all := Pending();
      EmptyHeap();
      while |heap| > 0
        invariant Valid() && (|heap| == 0 <==> Pending() == {})
        invariant PopOrder(all) == s + PopOrder(Pending())
        decreases |Pending()|
      {
        PopOrderTakesLeast(Pending());
        var e := TakeNext();
        EmptyHeap();
        s := s + [e.value];
      }
      NothingPops<P>();
    }

    method ExportState() returns (state: SchedulerState<P>)
      requires Valid()
      ensures state.runId == runId && state.nextSequence == next
      ensures Lists(state, PopOrder(Pending()))
    {
      SortedHeap(heap);
      SequencesDistinct();
      AscendingIsPopOrder(Sorted(heap), Pending());
      var sorted := Sorted(heap);
      state := SchedulerState(runId, next, seq(|sorted|, i requires 0 <= i < |sorted| => Saved(sorted[i])));
    }

    /** The checks of `restore` on the saved list, one event at a time. */
    method CheckSaved(state: SchedulerState<P>, now: nat) returns (ok: bool)
      requires state.runId == runId && state.nextSequence >= 0
      ensures ok <==> Restorable(state, runId, now, handlers)
    {
      var sequences: set<int> := {};
      for i := 0 to |state.pending|
        invariant sequences == set k | 0 <= k < i :: state.pending[k].sequence
        invariant forall k :: 0 <= k < i ==> RestorableEvent(state.pending[k], state.nextSequence, now, handlers)
        invariant forall k, j :: 0 <= k < j < i ==> state.pending[k].sequence != state.pending[j].sequence
      {
        var e := state.pending[i];
        if !RestorableEvent(e, state.nextSequence, now, handlers) || e.sequence in sequences { return false; }
        sequences := sequences + {e.sequence};
      }
      ok := true;
    }

    lemma LoadedOneMore(saved: seq<SavedEvent<P>>, i: nat)
      requires i < |saved| && forall k :: 0 <= k < |saved| ==> saved[k].time >= 0 && saved[k].sequence >= 0
      ensures LoadedSet(saved[..i + 1]) == LoadedSet(saved[..i]) + {Loaded(saved[i])}
      ensures forall e :: e in LoadedSet(saved[..i]) ==> exists k :: 0 <= k < i && e == Loaded(saved[k])
    {
      var fewer, more := LoadedSet(saved[..i]), LoadedSet(saved[..i + 1]);
      forall e ensures e in more <==> e in fewer + {Loaded(saved[i])} {
        if e in fewer {
          var k :| 0 <= k < i && e == Loaded(saved[..i][k]);
          assert saved[..i + 1][k] == saved[k];
        }
        if e == Loaded(saved[i]) { assert saved[..i + 1][i] == saved[i]; }
        if e in more {
          var k :| 0 <= k < i + 1 && e == Loaded(saved[..i + 1][k]);
          if k < i { assert saved[..i][k] == saved[k]; }
        }
      }
    }

    /** The insertion loop of `restore`. */
    method InsertSaved(saved: seq<SavedEvent<P>>)
      requires Valid() && heap == []
      requires forall i :: 0 <= i < |saved| ==>
        saved[i].time >= 0 && 0 <= saved[i].sequence < next && Registered(saved[i].kind, handlers)
      requires forall i, j :: 0 <= i < j < |saved| ==> saved[i].sequence != saved[j].sequence
      modifies `heap, `positions
      ensures Valid() && Pending() == LoadedSet(saved)
    {
      assert Pending() == LoadedSet(saved[..0]);
      hide Valid, Pending, LoadedSet;
      for i := 0 to |saved|
        invariant Valid()
        invariant Pending() == LoadedSet(saved[..i])
      {
        LoadedOneMore(saved, i);
        Free(saved, i);
        Insert(Loaded(saved[i]));
      }
      assert saved[..|saved|] == saved;
    }

    lemma Free(saved: seq<SavedEvent<P>>, i: nat)
      requires Valid() && i < |saved| && forall k :: 0 <= k < |saved| ==> saved[k].time >= 0 && saved[k].sequence >= 0
      requires Pending() == LoadedSet(saved[..i])
      requires forall k, j :: 0 <= k < j < |saved| ==> saved[k].sequence != saved[j].sequence
      ensures saved[i].sequence !in positions
    {
      hide LoadedSet;
      LoadedOneMore(saved, i);
      SequencesDistinct();
    }

    method Restore(state: SchedulerState<P>, now: nat) returns (r: Result<()>)
      requires Valid()
      modifies this
      ensures Valid()
      ensures r.Ok? <==> old(pristine) && Restorable(state, runId, now, handlers)
      ensures r.Ok? ==>
        && Pending() == LoadedSet(state.pending) && next == state.nextSequence
        && generation == old(generation) + 1 && !pristine
      ensures r.Err? ==> r == Err(INVALID_SCHEDULER_STATE) && unchanged(this)
    {
      if !pristine || state.runId != runId || state.nextSequence < 0 { return Err(INVALID_SCHEDULER_STATE); }
      var ok := CheckSaved(state, now);
      if !ok { return Err(INVALID_SCHEDULER_STATE); }
      heap, positions, next := [], map[], state.nextSequence;
      InsertSaved(state.pending);
      generation := generation + 1;
      pristine := false;
      r := Ok(());
    }

    method Reset()
      modifies this
      ensures Valid() && Pending() == {} && next == 0 && generation == old(generation) + 1 && pristine
    {
      heap, positions, next, generation, pristine := [], map[], 0, generation + 1, true;
    }
  }

  /** The state lists the events of the set, in any order. */
  ghost predicate Lists<P(!new)>(state: SchedulerState<P>, order: seq<Event<P>>) {
    |state.pending| == |order| && forall i :: 0 <= i < |order| ==> state.pending[i] == Saved(order[i])
  }

  lemma ListedSet<P(!new)>(order: seq<Event<P>>, state: SchedulerState<P>)
    requires Lists(state, order)
    ensures forall i :: 0 <= i < |state.pending| ==> state.pending[i].time >= 0 && state.pending[i].sequence >= 0
    ensures LoadedSet(state.pending) == Elements(order)
  {
    forall i | 0 <= i < |order| ensures Loaded(state.pending[i]) == order[i] {}
    forall e ensures e in LoadedSet(state.pending) <==> e in order {
      if e in order {
        var i :| 0 <= i < |order| && order[i] == e;
        assert Loaded(state.pending[i]) == e;
      }
    }
  }

  lemma ListedApart<P(!new)>(state: SchedulerState<P>, order: seq<Event<P>>)
    requires Lists(state, order) && Ascending(order) && DistinctSequences(Elements(order))
    ensures forall i, j :: 0 <= i < j < |state.pending| ==> state.pending[i].sequence != state.pending[j].sequence
  {
    forall i, j | 0 <= i < j < |order| ensures state.pending[i].sequence != state.pending[j].sequence {
      assert order[i] in Elements(order) && order[j] in Elements(order) && Compare(order[i], order[j]) < 0;
    }
  }

  /** The listing that `exportState` writes satisfies every check of `restore` unless an event is overdue. */
  lemma ExportIsRestorable<P(!new)>(pending: set<Event<P>>, state: SchedulerState<P>, now: nat, handlers: map<string,
                                    string>)
    requires DistinctSequences(pending) && state.nextSequence >= 0 && Lists(state, PopOrder(pending))
    requires forall e :: e in pending ==> Registered(e.kind, handlers) && e.sequence < state.nextSequence
    ensures Restorable(state, state.runId, now, handlers) <==> forall e :: e in pending ==> now <= e.time
  {
    var order := PopOrder(pending);
    PopOrderIsSorted(pending);
    hide PopOrder;
    assert Elements(order) == pending;
    forall i | 0 <= i < |order|
      ensures RestorableEvent(state.pending[i], state.nextSequence, now, handlers) <==> now <= order[i].time
    {
      assert order[i] in pending;
    }
    ListedApart(state, order);
    if Restorable(state, state.runId, now, handlers) {
      forall e | e in pending ensures now <= e.time {
        var i :| 0 <= i < |order| && order[i] == e;
        assert RestorableEvent(state.pending[i], state.nextSequence, now, handlers);
      }
    }
  }

  /**
   * `restore(exportState())` on a pristine scheduler of the same run and handlers is accepted exactly when no exported
   * event is overdue on the clock of the copy, and then both schedulers take the very same events in the same order.
   */
  method RestoreExported<P(!new)>(source: DeterministicScheduler<P>, copy: DeterministicScheduler<P>, now: nat)
    returns (accepted: bool, popped: seq<Event<P>>, expected: seq<Event<P>>)
    requires source != copy && source.Valid() && copy.Valid() && copy.pristine
    requires source.runId == copy.runId && source.handlers == copy.handlers
    modifies source, copy
    ensures accepted <==> forall e :: e in old(source.Pending()) ==> now <= e.time
    ensures expected == PopOrder(old(source.Pending()))
    ensures accepted ==>
        popped == expected && copy.next == old(source.next)
        && copy.generation == old(copy.generation) + 1
    ensures !accepted ==> popped == PopOrder(old(copy.Pending())) && copy.next == old(copy.next)
  {
    var state := source.ExportState();
    source.SequencesDistinct();
    PopOrderIsSorted(source.Pending());
    ListedSet(PopOrder(source.Pending()), state);
    assert Elements(PopOrder(source.Pending())) == source.Pending();
    ExportIsRestorable(source.Pending(), state, now, copy.handlers);
    var r := copy.Restore(state, now);
    accepted := r.Ok?;
    popped := copy.Drain();
    expected := source.Drain();
  }
}
