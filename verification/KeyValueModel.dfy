/**
 * The key-value store as a state machine. An entry with a time to live ends both lazily, when an operation finds it
 * due, and by an expiry event; a generation per key tells an old expiry from a newer entry.
 */
module KeyValueModel {
  import opened Outcomes
  import opened Canonical
  import opened Integers
  import opened Scheduler

  const KV_EXPIRY := "kv.expiry"

  datatype Expiry = Expiry(key: Text, generation: nat)
  datatype Entry = Entry(value: CanonicalValue, expiresAt: Option<nat>, generation: nat, handle: Option<EventId>)

  /** `pending` holds the store's own events; `next` is the next sequence of the scheduler it shares with others. */
  datatype Store = Store(entries: map<Text, Entry>, generations: map<Text, nat>, armed: bool, now: nat,
                         next: EventId, pending: set<Event<Expiry>>)

  datatype Request =
    | Get(key: Text)
    | Set(key: Text, value: CanonicalValue, ttl: Option<nat>, ifAbsent: bool)
    | Delete(key: Text)
    | Increment(key: Text)
    | CompareAndSet(key: Text, expected: Option<CanonicalValue>, value: CanonicalValue, ttl: Option<nat>)

  datatype Reply = Got(value: Option<CanonicalValue>) | Flag(flag: bool) | Count(count: int)

  // ---------- Pieces ----------

  function Cancel(pending: set<Event<Expiry>>, handle: Option<EventId>): set<Event<Expiry>> {
    if handle.Some? then set e | e in pending && e.sequence != handle.value else pending
  }

  predicate Due(entry: Entry, now: nat) { entry.expiresAt.Some? && now >= entry.expiresAt.value }

  function Find(store: Store, key: Text): Option<Entry> {
    if key in store.entries then Some(store.entries[key]) else None
  }

  /** `#expire`. */
  function Drop(store: Store, key: Text, handle: Option<EventId>): Store {
    store.(entries := store.entries - {key}, pending := Cancel(store.pending, handle))
  }

  /** `#live`: an entry that is due goes before the operation sees it. */
  function Live(store: Store, key: Text): Store {
    if key in store.entries && Due(store.entries[key], store.now) then Drop(store, key, store.entries[key].handle)
        else store
  }

  function Next(store: Store, key: Text): nat { (if key in store.generations then store.generations[key] else 0) + 1 }

  function ExpiryEvent(store: Store, key: Text, generation: nat, time: nat): Event<Expiry> {
    Event(time, store.next, KV_EXPIRY, Expiry(key, generation))
  }

  /** `#arm`, cancelling the previous entry's event, and storing the new entry under its new generation. */
  function Put(store: Store, key: Text, value: CanonicalValue, expiresAt: Option<nat>, previous: Option<Entry>): Store {
    var generation := Next(store, key);
    var armed := if expiresAt.Some? then store.pending + {ExpiryEvent(store, key, generation, expiresAt.value)}
        else store.pending;
    var handle := if expiresAt.Some? then Some(store.next) else None;
    store.(entries := store.entries[key := Entry(value, expiresAt, generation, handle)],
           generations := store.generations[key := generation],
           next := if expiresAt.Some? then store.next + 1 else store.next,
           pending := if previous.Some? then Cancel(armed, previous.value.handle) else armed)
  }

  predicate TtlOk(ttl: Option<nat>, now: nat) { ttl.Some? ==> 0 < ttl.value && now + ttl.value <= MAX_SAFE }

  function Deadline(ttl: Option<nat>, now: nat): Option<nat> { if ttl.Some? then Some(now + ttl.value) else None }

  /** The checks made before anything is touched. */
  predicate Accepted(request: Request, active: bool, now: nat) {
    active && request.key != [] &&
    match request
    case Set(_, _, ttl, _) => TtlOk(ttl, now)
    case CompareAndSet(_, _, _, ttl) => TtlOk(ttl, now)
    case _ => true
  }

  /** `canonicalEncode(previous) === canonicalEncode(expected)`, or both absent. */
  predicate Matches(previous: Option<Entry>, expected: Option<CanonicalValue>) {
    if expected.Some? then previous.Some? && Encode(previous.value.value) == Encode(expected.value) else previous.None?
  }

  /** One operation by the owner; `active` says whether the owner is the one running. */
  function Operate(store: Store, request: Request, active: bool): (Store, Result<Reply>) {
    if !Accepted(request, active, store.now) then (store, Err(INVALID_KV_OPERATION))
    else
      var live := Live(store, request.key);
      var previous := Find(live, request.key);
      match request
      case Get(key) => (live, Ok(Got(if previous.Some? then Some(previous.value.value) else None)))
      case Set(key, value, ttl, ifAbsent) =>
        if ifAbsent && previous.Some? then (live, Ok(Flag(false)))
        else (Put(live, key, value, Deadline(ttl, store.now), previous), Ok(Flag(true)))
      case Delete(key) =>
        if previous.None? then (live, Ok(Flag(false)))
        else (Drop(live, key, previous.value.handle), Ok(Flag(true)))
      case Increment(key) =>
        if previous.None? then (Put(live, key, Num(Decimal(1)), None, None), Ok(Count(1)))
        else if !previous.value.value.Num? || SafeInteger(previous.value.value.number).None?
            then (live, Err(KV_NOT_INTEGER))
        else
          var next := SafeInteger(previous.value.value.number).value + 1;
          if next > MAX_SAFE then (live, Err(KV_COUNTER_OVERFLOW))
          else (Put(live, key, Num(Decimal(next)), previous.value.expiresAt, previous), Ok(Count(next)))
      case CompareAndSet(key, expected, value, ttl) =>
        if !Matches(previous, expected) then (live, Ok(Flag(false)))
        else (Put(live, key, value, Deadline(ttl, store.now), previous), Ok(Flag(true)))
  }

  /** `expire`: only the entry of that very generation goes, and only when it is due. */
  function Expire(store: Store, key: Text, generation: nat): Store {
    if key in store.entries && store.entries[key].generation == generation && Due(store.entries[key], store.now)
    then Drop(store, key, store.entries[key].handle)
    else store
  }

  /** `scheduleInitialExpiries`, over the keys in `order`. */
  function ArmAll(store: Store, order: seq<Text>): Store
    decreases |order|
  {
    if order == [] then store else ArmAll(ArmOne(store, order[0]), order[1..])
  }

  function ArmOne(store: Store, key: Text): Store {
    if key !in store.entries || store.entries[key].expiresAt.None? || store.entries[key].handle.Some? then store
    else
      var entry := store.entries[key];
      store.(entries := store.entries[key := entry.(handle := Some(store.next))],
             pending := store.pending + {ExpiryEvent(store, key, entry.generation, entry.expiresAt.value)},
             next := store.next + 1)
  }

  function ArmInitial(store: Store, order: seq<Text>): Store {
    if store.armed then store else ArmAll(store.(armed := true), order)
  }

  datatype Item = Item(key: Text, value: CanonicalValue, ttl: Option<nat>)

  predicate DefinitionOk(initial: seq<Item>, now: nat) {
    && (forall i :: 0 <= i < |initial| ==> initial[i].key != [] && TtlOk(initial[i].ttl, now))
    && (forall i, j :: 0 <= i < j < |initial| ==> initial[i].key != initial[j].key)
  }

  function InitialEntries(initial: seq<Item>, now: nat): map<Text, Entry> {
    if initial == [] then map[]
    else
      var last := initial[|initial| - 1];
      InitialEntries(initial[..|initial| - 1], now)[last.key := Entry(last.value, Deadline(last.ttl, now), 0, None)]
  }

  function Initial(initial: seq<Item>, now: nat, next: EventId): Store {
    var entries := InitialEntries(initial, now);
    Store(entries, map key | key in entries :: 0, false, now, next, {})
  }

  // ---------- Runs ----------

  datatype Input =
    | Operation(request: Request, active: bool)
    | Fire(e: Event<Expiry>)
    | Stray(key: Text, generation: nat)
    | Arm(order: seq<Text>)
    | Elsewhere(now: nat, next: EventId)

  /**
   * What can happen: an expiry event is dispatched at its time, the clock never passes a pending event, and arming
   * names every entry once while its deadline is not past. `Stray` is an expiry handler called with any key and
   * generation.
   */
  predicate Possible(store: Store, input: Input) {
    match input
    case Operation(_, _) => true
    case Fire(e) => e in store.pending && e.time == store.now
    case Stray(_, _) => true
    case Arm(order) =>
      store.armed || ((forall key :: key in store.entries ==> key in order && !Late(store.entries[key], store.now)))
    case Elsewhere(now, next) => store.now <= now && store.next <= next && forall e :: e in store.pending ==>
        now <= e.time
  }

  predicate Late(entry: Entry, now: nat) { entry.expiresAt.Some? && entry.expiresAt.value < now }

  function Step(store: Store, input: Input): (Store, Option<Result<Reply>>) {
    match input
    case Operation(request, active) => var (after, reply) := Operate(store, request, active); (after, Some(reply))
    case Fire(e) => (Expire(store.(pending := store.pending - {e}), e.payload.key, e.payload.generation), None)
    case Stray(key, generation) => (Expire(store, key, generation), None)
    case Arm(order) => (ArmInitial(store, order), None)
    case Elsewhere(now, next) => (store.(now := now, next := next), None)
  }
}
