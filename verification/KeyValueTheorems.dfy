/** The store refines a plain timed map, its generations fence expiries, and its pending events match its entries. */
module KeyValueTheorems {
  import opened Outcomes
  import opened Canonical
  import opened CanonicalEquality
  import opened Integers
  import opened Scheduler
  import opened KeyValueModel

  // ---------- The reference: a map whose keys are absent from their deadline on ----------

  datatype Cell = Cell(value: CanonicalValue, deadline: Option<nat>)
  type Plain = map<Text, Cell>

  predicate Over(cell: Cell, now: nat) { cell.deadline.Some? && now >= cell.deadline.value }

  function At(plain: Plain, key: Text): Option<Cell> { if key in plain then Some(plain[key]) else None }

  /** The time to live that a request asks for. */
  function TtlOf(request: Request): Option<nat> {
    if request.Set? || request.CompareAndSet? then request.ttl else None
  }

  /** A request of the running owner for a named key whose time to live, if any, is positive and ends at a safe time. */
  predicate WellPosed(request: Request, active: bool, now: nat) {
    && active && request.key != []
    && (TtlOf(request).Some? ==> 1 <= TtlOf(request).value && now + TtlOf(request).value <= 9007199254740991)
  }

  /** The cell that a write at `now` leaves. */
  function Written(value: CanonicalValue, now: nat, ttl: Option<nat>): Cell {
    match ttl
    case None => Cell(value, None)
    case Some(t) => Cell(value, Some(now + t))
  }

  /** What an operation does to a map that knows nothing of events, handles or generations. */
  ghost function PlainOperate(plain: Plain, now: nat, request: Request, active: bool): (Plain, Result<Reply>) {
    if !WellPosed(request, active, now) then (plain, Err(INVALID_KV_OPERATION))
    else
      var cell := At(plain, request.key);
      match request
      case Get(key) => (plain, Ok(Got(if cell.Some? then Some(cell.value.value) else None)))
      case Set(key, value, ttl, ifAbsent) =>
        if ifAbsent && cell.Some? then (plain, Ok(Flag(false)))
            else (plain[key := Written(value, now, ttl)], Ok(Flag(true)))
      case Delete(key) => (plain - {key}, Ok(Flag(cell.Some?)))
      case Increment(key) =>
        if cell.None? then (plain[key := Cell(Num(Decimal(1)), None)], Ok(Count(1)))
        else if !IsCounter(cell.value.value) then (plain, Err(KV_NOT_INTEGER))
        else
          var next := SafeInteger(cell.value.value.number).value + 1;
          if next > MAX_SAFE then (plain, Err(KV_COUNTER_OVERFLOW))
          else (plain[key := Cell(Num(Decimal(next)), cell.value.deadline)], Ok(Count(next)))
      case CompareAndSet(key, expected, value, ttl) =>
        if Holds(cell, expected) then (plain[key := Written(value, now, ttl)], Ok(Flag(true)))
            else (plain, Ok(Flag(false)))
  }

  predicate IsCounter(value: CanonicalValue) { value.Num? && SafeInteger(value.number).Some? }

  /** The cell holds the expected value, up to the order of object keys. */
  ghost predicate Holds(cell: Option<Cell>, expected: Option<CanonicalValue>) {
    if expected.Some? then cell.Some? && Same(cell.value.value, expected.value) else cell.None?
  }

  /** Expiry events mean nothing to the plain map; only the passing of time ends its cells. */
  ghost function PlainStep(plain: Plain, now: nat, input: Input): (Plain, Option<Result<Reply>>) {
    match input
    case Operation(request, active) => var (after, reply) := PlainOperate(plain, now, request, active);
        (after, Some(reply))
    case Elsewhere(later, _) => (map key | key in plain && !Over(plain[key], later) :: plain[key], None)
    case _ => (plain, None)
  }

  /** What the store looks like to its owner. */
  function View(store: Store): Plain {
    map key | key in store.entries && !Due(store.entries[key], store.now) ::
        Cell(store.entries[key].value, store.entries[key].expiresAt)
  }

  // ---------- Refinement ----------

  lemma DropView(store: Store, key: Text, handle: Option<EventId>)
    ensures View(Drop(store, key, handle)) == View(store) - {key}
  {}

  lemma LiveView(store: Store, key: Text)
    ensures View(Live(store, key)) == View(store) && Live(store, key).now == store.now
    ensures key in Live(store, key).entries <==> key in View(store)
    ensures key in View(store) ==>
        Cell(Live(store, key).entries[key].value, Live(store, key).entries[key].expiresAt)
        == View(store)[key]
  {}

  lemma PutView(store: Store, key: Text, value: CanonicalValue, expiresAt: Option<nat>, previous: Option<Entry>)
    requires expiresAt.Some? ==> store.now < expiresAt.value
    ensures View(Put(store, key, value, expiresAt, previous)) == View(store)[key := Cell(value, expiresAt)]
  {}

  lemma AcceptedIsWellPosed(request: Request, active: bool, now: nat)
    ensures Accepted(request, active, now) <==> WellPosed(request, active, now)
  {}

  lemma OperateRefines(store: Store, request: Request, active: bool)
    ensures PlainOperate(View(store), store.now, request, active) ==
        (View(Operate(store, request, active).0), Operate(store, request, active).1)
  {
    AcceptedIsWellPosed(request, active, store.now);
    hide WellPosed;
    if Accepted(request, active, store.now) {
      var key := request.key;
      var live := Live(store, key);
      var previous := Find(live, key);
      LiveView(store, key);
      var plain := View(store);
      hide View, Live, Put, Drop;
      match request
      case Get(_) =>
      case Set(_, value, ttl, _) => PutView(live, key, value, Deadline(ttl, store.now), previous);
      case Delete(_) =>
        if previous.Some? { DropView(live, key, previous.value.handle); }
        assert key !in plain ==> plain - {key} == plain;
      case Increment(_) =>
        if previous.None? {
          PutView(live, key, Num(Decimal(1)), None, None);
        } else if IsCounter(previous.value.value) {
          assert View(live)[key].deadline == previous.value.expiresAt;
          ViewIsAlive(live, key);
          PutView(live, key, Num(Decimal(SafeInteger(previous.value.value.number).value + 1)),
                  previous.value.expiresAt, previous);
        }
      case CompareAndSet(_, expected, value, ttl) =>
        if expected.Some? && previous.Some? { EncodingIsInjective(previous.value.value, expected.value); }
        PutView(live, key, value, Deadline(ttl, store.now), previous);
    }
  }

  lemma ViewIsAlive(store: Store, key: Text)
    requires key in View(store)
    ensures !Over(View(store)[key], store.now)
  {}

  /** Whatever comes first, the lazy check or the event, every step looks like a step of the plain timed map. */
  lemma StepRefines(store: Store, input: Input)
    requires Possible(store, input)
    ensures PlainStep(View(store), store.now, input) == (View(Step(store, input).0), Step(store, input).1)
  {
    match input
    case Operation(request, active) => OperateRefines(store, request, active);
    case Arm(order) => if !store.armed { ArmAllView(store.(armed := true), order); }
    case Fire(e) => ExpireView(store.(pending := store.pending - {e}), e.payload.key, e.payload.generation);
    case Stray(key, generation) => ExpireView(store, key, generation);
    case Elsewhere(now, next) =>
      var after := store.(now := now, next := next);
      assert View(after) == PlainStep(View(store), store.now, input).0;
  }

  lemma ExpireView(store: Store, key: Text, generation: nat)
    ensures View(Expire(store, key, generation)) == View(store)
  {}

  lemma {:induction false} ArmAllView(store: Store, order: seq<Text>)
    ensures View(ArmAll(store, order)) == View(store)
    decreases |order|
  {
    if order != [] { ArmAllView(ArmOne(store, order[0]), order[1..]); }
  }

  /** The states of a run; `run[i]` is the state before `inputs[i]`. */
  ghost predicate IsRun(run: seq<Store>, inputs: seq<Input>) {
    |run| == |inputs| + 1 && forall i :: 0 <= i < |inputs| ==> Follows(run[i], inputs[i], run[i + 1])
  }

  ghost predicate Follows(before: Store, input: Input, after: Store) {
    Possible(before, input) && after == Step(before, input).0
  }

  /** The answers of a run of the plain map with the same inputs at the same times, and the map it ends with. */
  ghost function PlainRun(plain: Plain, now: nat, inputs: seq<Input>): (Plain, seq<Option<Result<Reply>>>)
    decreases |inputs|
  {
    if inputs == [] then (plain, [])
    else
      var (next, reply) := PlainStep(plain, now, inputs[0]);
      var later := if inputs[0].Elsewhere? then inputs[0].now else now;
      var (end, replies) := PlainRun(next, later, inputs[1..]);
      (end, [reply] + replies)
  }

  ghost function Replies(run: seq<Store>, inputs: seq<Input>): seq<Option<Result<Reply>>>
    requires |run| == |inputs| + 1
  { seq(|inputs|, i requires 0 <= i < |inputs| => Step(run[i], inputs[i]).1) }

  /** A whole run answers exactly as the plain timed map does, whatever expiry events come when. */
  lemma {:induction false} RunRefines(run: seq<Store>, inputs: seq<Input>)
    requires IsRun(run, inputs)
    ensures PlainRun(View(run[0]), run[0].now, inputs) == (View(run[|inputs|]), Replies(run, inputs))
    decreases |inputs|
  {
    hide Step, PlainStep, View;
    if inputs != [] {
      assert Follows(run[0], inputs[0], run[0 + 1]);
      StepRefines(run[0], inputs[0]);
      StepTime(run[0], inputs[0]);
      forall i | 0 <= i < |inputs[1..]| ensures Follows(run[1..][i], inputs[1..][i], run[1..][i + 1]) {
        assert Follows(run[i + 1], inputs[i + 1], run[i + 1 + 1]);
      }
      RunRefines(run[1..], inputs[1..]);
      assert Replies(run, inputs) == [Step(run[0], inputs[0]).1] + Replies(run[1..], inputs[1..]);
    }
  }

  lemma StepTime(store: Store, input: Input)
    ensures Step(store, input).0.now == if input.Elsewhere? then input.now else store.now
  {
    match input
    case Arm(order) => if !store.armed { ArmAllKeeps(store.(armed := true), order); }
    case _ =>
  }

  lemma {:induction false} ArmAllKeeps(store: Store, order: seq<Text>)
    ensures ArmAll(store, order).now == store.now && ArmAll(store, order).armed == store.armed
    ensures ArmAll(store, order).generations == store.generations
    ensures forall key :: key in ArmAll(store, order).entries <==> key in store.entries
    ensures forall key :: key in store.entries ==> SameEntry(ArmAll(store, order).entries[key], store.entries[key])
    decreases |order|
  {
    if order != [] { ArmAllKeeps(ArmOne(store, order[0]), order[1..]); }
  }

  // ---------- Generations ----------

  /** The same write, perhaps with another handle. */
  predicate SameEntry(a: Entry, b: Entry) {
    a.value == b.value && a.expiresAt == b.expiresAt && a.generation == b.generation
  }

  predicate EntriesNumbered(entries: map<Text, Entry>, generations: map<Text, nat>) {
    forall key :: key in entries ==> key in generations && entries[key].generation == generations[key]
  }

  /** A key's entry is left alone, removed, or replaced by one with a generation never used before for the key. */
  predicate Advances(before: Store, after: Store, key: Text) {
    && (key in before.generations ==> key in after.generations && before.generations[key] <= after.generations[key])
    && (key in after.entries ==>
      || (key in before.entries && SameEntry(after.entries[key], before.entries[key]))
      || key !in before.generations
      || before.generations[key] < after.entries[key].generation)
  }

  predicate Numbered(store: Store) { EntriesNumbered(store.entries, store.generations) }

  lemma PutAdvances(before: Store, store: Store, key: Text, value: CanonicalValue, expiresAt: Option<nat>,
                    previous: Option<Entry>, k: Text)
    requires Numbered(store) && before.generations == store.generations && Advances(before, store, k)
    ensures Numbered(Put(store, key, value, expiresAt, previous))
    ensures Advances(before, Put(store, key, value, expiresAt, previous), k)
  {}

  lemma LiveAdvances(store: Store, key: Text, k: Text)
    requires Numbered(store)
    ensures Numbered(Live(store, key)) && Advances(store, Live(store, key), k)
    ensures Live(store, key).generations == store.generations
  {}

  lemma DropAdvances(before: Store, store: Store, key: Text, handle: Option<EventId>, k: Text)
    requires Numbered(store) && before.generations == store.generations && Advances(before, store, k)
    ensures Numbered(Drop(store, key, handle)) && Advances(before, Drop(store, key, handle), k)
  {}

  lemma OperateAdvances(store: Store, request: Request, active: bool, k: Text)
    requires Numbered(store)
    ensures Numbered(Operate(store, request, active).0) && Advances(store, Operate(store, request, active).0, k)
  {
    hide Numbered, Advances, Live, Put, Drop, SafeInteger, Decimal, Matches;
    if Accepted(request, active, store.now) {
      var key := request.key;
      var live := Live(store, key);
      var previous := Find(live, key);
      LiveAdvances(store, key, k);
      match request
      case Get(_) =>
      case Set(_, value, ttl, _) => PutAdvances(store, live, key, value, Deadline(ttl, store.now), previous, k);
      case Delete(_) => if previous.Some? { DropAdvances(store, live, key, previous.value.handle, k); }
      case Increment(_) =>
        if previous.None? {
          PutAdvances(store, live, key, Num(Decimal(1)), None, None, k);
        } else if IsCounter(previous.value.value) {
          PutAdvances(store, live, key, Num(Decimal(SafeInteger(previous.value.value.number).value + 1)),
                      previous.value.expiresAt, previous, k);
        }
      case CompareAndSet(_, _, value, ttl) => PutAdvances(store, live, key, value, Deadline(ttl, store.now), previous,
                                                          k);
    } else {
      Idle(store, k);
    }
  }

  lemma Idle(store: Store, k: Text)
    ensures Advances(store, store, k)
  {}

  lemma StepGenerations(store: Store, input: Input, key: Text)
    requires Numbered(store)
    ensures Numbered(Step(store, input).0) && Advances(store, Step(store, input).0, key)
  {
    hide Operate, ArmAll;
    match input
    case Operation(request, active) => OperateAdvances(store, request, active, key);
    case Arm(order) => if !store.armed { ArmAllKeeps(store.(armed := true), order); }
    case _ =>
  }

  lemma {:induction false} RunNumbered(run: seq<Store>, inputs: seq<Input>, i: nat)
    requires IsRun(run, inputs) && i < |run| && Numbered(run[0])
    ensures Numbered(run[i])
  {
    hide Step, Numbered;
    if i > 0 {
      RunNumbered(run, inputs, i - 1);
      assert Follows(run[i - 1], inputs[i - 1], run[i - 1 + 1]);
      StepGenerations(run[i - 1], inputs[i - 1], []);
    }
  }

  /**
   * In a run, a key and a generation name one write: deletes and expiries in between never let a generation come back.
   */
  lemma {:induction false} GenerationNamesOneWrite(run: seq<Store>, inputs: seq<Input>, i: nat, j: nat, key: Text)
    requires IsRun(run, inputs) && i <= j < |run| && Numbered(run[0])
    requires key in run[i].entries
    ensures key in run[i].generations && key in run[j].generations && run[i].generations[key] <= run[j].generations[key]
    ensures (key in run[j].entries && run[j].entries[key].generation == run[i].entries[key].generation ==>
             SameEntry(run[j].entries[key], run[i].entries[key]))
  {
    hide Step;
    RunNumbered(run, inputs, i);
    if i < j {
      GenerationNamesOneWrite(run, inputs, i, j - 1, key);
      RunNumbered(run, inputs, j - 1);
      assert Follows(run[j - 1], inputs[j - 1], run[j - 1 + 1]);
      StepGenerations(run[j - 1], inputs[j - 1], key);
    }
  }

  /** An expiry of an older generation removes nothing. */
  lemma StaleExpiryIsHarmless(run: seq<Store>, inputs: seq<Input>, i: nat, j: nat, key: Text)
    requires IsRun(run, inputs) && i <= j < |run| && Numbered(run[0])
    requires key in run[i].entries && key in run[j].entries && !SameEntry(run[j].entries[key], run[i].entries[key])
    ensures Expire(run[j], key, run[i].entries[key].generation) == run[j]
  {
    GenerationNamesOneWrite(run, inputs, i, j, key);
  }

  // ---------- Pending events ----------

  predicate EntryOk(key: Text, entry: Entry, pending: set<Event<Expiry>>, armed: bool) {
    && (entry.expiresAt.None? ==> entry.handle.None?)
    && (entry.handle.Some? ==>
        Event(entry.expiresAt.value, entry.handle.value, KV_EXPIRY, Expiry(key, entry.generation)) in pending)
    && (armed && entry.expiresAt.Some? ==> entry.handle.Some?)
  }

  predicate EntriesOk(entries: map<Text, Entry>, pending: set<Event<Expiry>>, armed: bool) {
    forall key :: key in entries ==> EntryOk(key, entries[key], pending, armed)
  }

  /** The event belongs to the entry that is stored under its key now. */
  predicate Owned(e: Event<Expiry>, entries: map<Text, Entry>) {
    && e.payload.key in entries
    && entries[e.payload.key].handle == Some(e.sequence)
    && entries[e.payload.key].expiresAt == Some(e.time)
    && entries[e.payload.key].generation == e.payload.generation
    && e.kind == KV_EXPIRY
  }

  ghost predicate PendingOk(pending: set<Event<Expiry>>, entries: map<Text, Entry>, next: EventId, now: nat) {
    && DistinctSequences(pending)
    && forall e :: e in pending ==> Owned(e, entries) && e.sequence < next && now <= e.time
  }

  ghost predicate Inv(store: Store) {
    EntriesOk(store.entries, store.pending, store.armed)
        && PendingOk(store.pending, store.entries, store.next, store.now)
  }

  lemma DropKeeps(store: Store, key: Text)
    requires Inv(store) && key in store.entries
    ensures Inv(Drop(store, key, store.entries[key].handle))
  {
    var after := Drop(store, key, store.entries[key].handle);
    forall e | e in after.pending ensures Owned(e, after.entries) {
      assert Owned(e, store.entries);
    }
    forall k | k in after.entries ensures EntryOk(k, after.entries[k], after.pending, after.armed) {
      assert EntryOk(k, store.entries[k], store.pending, store.armed);
      if store.entries[k].handle.Some? { HandlesDiffer(store, key, k); }
    }
  }

  /** Two entries never share an event. */
  lemma HandlesDiffer(store: Store, a: Text, b: Text)
    requires Inv(store) && a in store.entries && b in store.entries && a != b && store.entries[b].handle.Some?
    ensures store.entries[a].handle != store.entries[b].handle
  {
    assert EntryOk(a, store.entries[a], store.pending, store.armed)
        && EntryOk(b, store.entries[b], store.pending, store.armed);
  }

  lemma LiveKeeps(store: Store, key: Text)
    requires Inv(store)
    ensures Inv(Live(store, key))
    ensures (key in Live(store, key).entries ==> !Due(Live(store, key).entries[key], store.now))
  {
    if key in store.entries && Due(store.entries[key], store.now) { DropKeeps(store, key); }
  }

  lemma PutKeeps(store: Store, key: Text, value: CanonicalValue, expiresAt: Option<nat>)
    requires Inv(store) && (expiresAt.Some? ==> store.now <= expiresAt.value)
    ensures Inv(Put(store, key, value, expiresAt, Find(store, key)))
  {
    var after := Put(store, key, value, expiresAt, Find(store, key));
    forall e | e in after.pending ensures Owned(e, after.entries) && e.sequence < after.next && store.now <= e.time {
      if e in store.pending { assert Owned(e, store.entries); }
    }
    forall k | k in after.entries ensures EntryOk(k, after.entries[k], after.pending, after.armed) {
      if k != key {
        assert EntryOk(k, store.entries[k], store.pending, store.armed);
        if store.entries[k].handle.Some? && key in store.entries { HandlesDiffer(store, key, k); }
      } else if key in store.entries {
        assert EntryOk(key, store.entries[key], store.pending, store.armed);
      }
    }
  }

  lemma OperateKeeps(store: Store, request: Request, active: bool)
    requires Inv(store)
    ensures Inv(Operate(store, request, active).0)
  {
    hide Inv, Live, Put, Drop, SafeInteger, Decimal, Matches;
    if Accepted(request, active, store.now) {
      var key := request.key;
      LiveKeeps(store, key);
      LiveView(store, key);
      var live := Live(store, key);
      match request
      case Get(_) =>
      case Set(_, value, ttl, _) => PutKeeps(live, key, value, Deadline(ttl, store.now));
      case Delete(_) => if key in live.entries { DropKeeps(live, key); }
      case Increment(_) =>
        if key in live.entries {
          if IsCounter(live.entries[key].value) {
            PutKeeps(live, key, Num(Decimal(SafeInteger(live.entries[key].value.number).value + 1)),
                     live.entries[key].expiresAt);
          }
        } else {
          PutKeeps(live, key, Num(Decimal(1)), None);
        }
      case CompareAndSet(_, _, value, ttl) => PutKeeps(live, key, value, Deadline(ttl, store.now));
    }
  }

  /** An expiry event always finds its entry: it is due and has the event's generation, and both go. */
  lemma FireKeeps(store: Store, e: Event<Expiry>)
    requires Inv(store) && Possible(store, Fire(e))
    ensures Inv(Step(store, Fire(e)).0) && e.payload.key !in Step(store, Fire(e)).0.entries
  {
    assert Owned(e, store.entries);
    DropKeeps(store, e.payload.key);
    var without := store.(pending := store.pending - {e});
    assert Cancel(without.pending, Some(e.sequence)) == Cancel(store.pending, Some(e.sequence)) by {
      forall x | x in store.pending && x.sequence != e.sequence ensures x in without.pending {}
    }
  }

  lemma ArmOneKeeps(store: Store, key: Text, armed: bool)
    requires PendingOk(store.pending, store.entries, store.next, store.now)
    requires EntriesOk(store.entries, store.pending, false)
    requires key in store.entries ==> !Late(store.entries[key], store.now)
    ensures var after := ArmOne(store, key);
            && PendingOk(after.pending, after.entries, after.next, after.now)
            && EntriesOk(after.entries, after.pending, false)
            && (key in store.entries ==> EntryOk(key, after.entries[key], after.pending, true))
            && store.pending <= after.pending
            && (forall k :: k in store.entries && k != key ==> after.entries[k] == store.entries[k])
  {
    var after := ArmOne(store, key);
    if after != store {
      forall e | e in after.pending ensures Owned(e, after.entries) && e.sequence < after.next && store.now <= e.time {
        if e in store.pending {
          assert Owned(e, store.entries);
          assert EntryOk(key, store.entries[key], store.pending, false);
        }
      }
      forall k | k in after.entries ensures EntryOk(k, after.entries[k], after.pending, false) {
        if k != key { assert EntryOk(k, store.entries[k], store.pending, false); }
      }
    } else if key in store.entries {
      assert EntryOk(key, store.entries[key], store.pending, false);
    }
  }

  lemma {:induction false} ArmAllPending(store: Store, order: seq<Text>)
    requires PendingOk(store.pending, store.entries, store.next, store.now)
    requires EntriesOk(store.entries, store.pending, false)
    requires forall key :: key in store.entries ==> !Late(store.entries[key], store.now)
    requires forall key :: key in store.entries ==>
        key in order || EntryOk(key, store.entries[key], store.pending, true)
    ensures var after := ArmAll(store, order);
            && PendingOk(after.pending, after.entries, after.next, after.now)
            && EntriesOk(after.entries, after.pending, true)
    decreases |order|
  {
    if order != [] {
      ArmOneKeeps(store, order[0], false);
      var next := ArmOne(store, order[0]);
      forall key | key in next.entries
        ensures key in order[1..] || EntryOk(key, next.entries[key], next.pending, true)
      {
        assert key in order ==> key == order[0] || key in order[1..];
      }
      ArmAllPending(next, order[1..]);
    }
  }

  /** Every step keeps the events and the entries in step. */
  lemma StepKeeps(store: Store, input: Input)
    requires Inv(store) && Possible(store, input)
    ensures Inv(Step(store, input).0)
  {
    hide Operate, ArmAll;
    match input
    case Operation(request, active) => OperateKeeps(store, request, active);
    case Fire(e) => FireKeeps(store, e);
    case Stray(key, generation) => if Expire(store, key, generation) != store { DropKeeps(store, key); }
    case Arm(order) =>
      if !store.armed {
        WeakerUnarmed(store);
        ArmAllPending(store.(armed := true), order);
        ArmAllKeeps(store.(armed := true), order);
      }
    case Elsewhere(now, next) =>
  }

  lemma WeakerUnarmed(store: Store)
    requires EntriesOk(store.entries, store.pending, store.armed)
    ensures EntriesOk(store.entries, store.pending, false)
  {
    forall key | key in store.entries ensures EntryOk(key, store.entries[key], store.pending, false) {
      assert EntryOk(key, store.entries[key], store.pending, store.armed);
    }
  }

  lemma {:induction false} InitialEntriesOk(initial: seq<Item>, now: nat)
    ensures forall key :: key in InitialEntries(initial, now) ==>
      InitialEntries(initial, now)[key].handle.None? && InitialEntries(initial, now)[key].generation == 0
  {
    if initial != [] { InitialEntriesOk(initial[..|initial| - 1], now); }
  }

  lemma InitialKeeps(initial: seq<Item>, now: nat, next: EventId)
    ensures Inv(Initial(initial, now, next))
    ensures Numbered(Initial(initial, now, next))
  {
    InitialEntriesOk(initial, now);
  }

  lemma {:induction false} RunKeeps(run: seq<Store>, inputs: seq<Input>, i: nat)
    requires IsRun(run, inputs) && Inv(run[0]) && i < |run|
    ensures Inv(run[i])
  {
    hide Step, Inv;
    if i > 0 {
      RunKeeps(run, inputs, i - 1);
      assert Follows(run[i - 1], inputs[i - 1], run[i - 1 + 1]);
      StepKeeps(run[i - 1], inputs[i - 1]);
    }
  }

  /** The pending expiry events of a key. */
  ghost function ExpiriesOf(store: Store, key: Text): set<Event<Expiry>> {
    set e | e in store.pending && e.payload.key == key
  }

  /**
   * After the initial arming, in every reachable state: an entry with a deadline has exactly one pending expiry,
   * carrying its generation and its deadline, which has not passed; any other key has none.
   */
  lemma OneExpiryEach(initial: seq<Item>, now: nat, next: EventId, run: seq<Store>, inputs: seq<Input>, i: nat,
                      key: Text)
    requires IsRun(run, inputs) && run[0] == Initial(initial, now, next) && i < |run| && run[i].armed
    ensures var store := run[i];
            if key in store.entries && store.entries[key].expiresAt.Some? then
              && store.entries[key].handle.Some?
              && ExpiriesOf(store, key) ==
                  {
                    Event(store.entries[key].expiresAt.value, store.entries[key].handle.value, KV_EXPIRY,
                          Expiry(key, store.entries[key].generation))
                  }
              && store.now <= store.entries[key].expiresAt.value
            else ExpiriesOf(store, key) == {}
  {
    hide Step;
    InitialKeeps(initial, now, next);
    RunKeeps(run, inputs, i);
    var store := run[i];
    forall e | e in ExpiriesOf(store, key) ensures Owned(e, store.entries) {}
    if key in store.entries && store.entries[key].expiresAt.Some? {
      assert EntryOk(key, store.entries[key], store.pending, true);
      var mine := Event(store.entries[key].expiresAt.value, store.entries[key].handle.value, KV_EXPIRY,
                        Expiry(key, store.entries[key].generation));
      assert mine in store.pending;
      forall e | e in ExpiriesOf(store, key) ensures e == mine { assert Owned(e, store.entries); }
    }
  }

  // ---------- Initial entries ----------

  /** The owner finds this item at `later`: it has no time to live, or one that has not run out since `now`. */
  predicate Lives(item: Item, now: nat, later: nat) {
    item.ttl.Some? ==> later < now + item.ttl.value
  }

  lemma {:induction false} InitialEntryOf(initial: seq<Item>, now: nat, i: nat)
    requires i < |initial| && forall j, k :: 0 <= j < k < |initial| ==> initial[j].key != initial[k].key
    ensures var entries := InitialEntries(initial, now);
      initial[i].key in entries && entries[initial[i].key] ==
        Entry(initial[i].value, if initial[i].ttl.None? then None else Some(now + initial[i].ttl.value), 0, None)
  {
    if i < |initial| - 1 { InitialEntryOf(initial[..|initial| - 1], now, i); }
  }

  lemma {:induction false} InitialKeyOf(initial: seq<Item>, now: nat, key: Text)
    requires key in InitialEntries(initial, now)
    ensures exists i :: 0 <= i < |initial| && initial[i].key == key
  {
    var last := |initial| - 1;
    if initial[last].key != key {
      InitialKeyOf(initial[..last], now, key);
      var i :| 0 <= i < last && initial[..last][i].key == key;
      assert initial[i].key == key;
    }
  }

  /**
   * A store shows its owner exactly the items it was opened with, each with its value, until their time to live since
   * the opening has run out.
   */
  lemma InitialItemsLive(initial: seq<Item>, now: nat, next: EventId, later: nat, key: Text)
    requires DefinitionOk(initial, now) && now <= later
    ensures var view := View(Initial(initial, now, next).(now := later));
      && (key in view <==> exists i :: 0 <= i < |initial| && initial[i].key == key && Lives(initial[i], now, later))
      && (forall i :: 0 <= i < |initial| && initial[i].key == key && key in view ==>
            view[key].value == initial[i].value)
  {
    DistinctKeys(initial, now);
    hide DefinitionOk, InitialEntries;
    var entries := InitialEntries(initial, now);
    forall i | 0 <= i < |initial| && initial[i].key == key
      ensures key in entries && entries[key].value == initial[i].value
      ensures Due(entries[key], later) <==> !Lives(initial[i], now, later)
    {
      InitialEntryOf(initial, now, i);
    }
    if key in entries { InitialKeyOf(initial, now, key); }
  }

  lemma DistinctKeys(initial: seq<Item>, now: nat)
    requires DefinitionOk(initial, now)
    ensures forall i, j :: 0 <= i < j < |initial| ==> initial[i].key != initial[j].key
  {}
}
