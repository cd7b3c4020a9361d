/** The key-value store object on top of the heap scheduler, proved against the state machine. */
module KeyValue {
  import opened Outcomes
  import opened Canonical
  import opened Integers
  import opened Scheduler
  import M = KeyValueModel
  import T = KeyValueTheorems

  type Entry = M.Entry

  const HANDLERS: map<string, string> := map[M.KV_EXPIRY := "owner"]

  class DeterministicKeyValueStore {
    const scheduler: DeterministicScheduler<M.Expiry>
    var entries: map<Text, Entry>
    var generations: map<Text, nat>
    var initialExpiriesScheduled: bool
    var now: nat

    ghost predicate Valid()
      reads this, scheduler
    { scheduler.Valid() && scheduler.handlers == HANDLERS }

    ghost function State(): M.Store
      reads this, scheduler
    { M.Store(entries, generations, initialExpiriesScheduled, now, scheduler.next, scheduler.Pending()) }

    constructor (runId: string, initial: seq<M.Item>, now: nat)
      requires M.DefinitionOk(initial, now)
      ensures Valid() && fresh(scheduler) && State() == M.Initial(initial, now, 0) && T.Inv(State())
    {
      this.now, initialExpiriesScheduled := now, false;
      entries, generations := map[], map[];
      scheduler := new DeterministicScheduler(runId, HANDLERS);
      new;
      for i := 0 to |initial|
        invariant Valid() && fresh(scheduler) && scheduler.next == 0 && scheduler.Pending() == {}
        invariant this.now == now && !initialExpiriesScheduled
        invariant entries == M.InitialEntries(initial[..i], now)
        invariant generations == map key | key in entries :: 0
      {
        assert initial[..i + 1][..i] == initial[..i];
        entries := entries[initial[i].key := M.Entry(initial[i].value, M.Deadline(initial[i].ttl, now), 0, None)];
        generations := generations[initial[i].key := 0];
      }
      assert initial[..|initial|] == initial;
      T.InitialKeeps(initial, now, 0);
    }

    method CancelHandle(handle: Option<EventId>)
      requires Valid()
      modifies scheduler
      ensures Valid() && State() == old(State()).(pending := M.Cancel(old(State()).pending, handle))
    {
      hide DeterministicScheduler.Valid, DeterministicScheduler.Pending;
      if handle.Some? { var found := scheduler.Cancel(handle.value); }
    }

    /** `#expire` and the removal in `delete`. */
    method Drop(key: Text, handle: Option<EventId>)
      requires Valid()
      modifies this`entries, scheduler
      ensures Valid() && State() == M.Drop(old(State()), key, handle)
    {
      hide DeterministicScheduler.Valid, DeterministicScheduler.Pending;
      entries := entries - {key};
      CancelHandle(handle);
    }

    method Live(key: Text) returns (entry: Option<Entry>)
      requires Valid()
      modifies this`entries, scheduler
      ensures Valid() && State() == M.Live(old(State()), key) && entry == M.Find(State(), key)
    {
      hide DeterministicScheduler.Valid, DeterministicScheduler.Pending;
      if key !in entries { return None; }
      entry := Some(entries[key]);
      if M.Due(entry.value, now) {
        Drop(key, entry.value.handle);
        return None;
      }
    }

    method Arm(key: Text, generation: nat, expiresAt: Option<nat>) returns (handle: Option<EventId>)
      requires Valid() && (expiresAt.Some? ==> now <= expiresAt.value)
      modifies scheduler
      ensures Valid() && handle == (if expiresAt.Some? then Some(old(scheduler.next)) else None)
      ensures expiresAt.None? ==> State() == old(State())
      ensures (expiresAt.Some? ==> State() == old(State()).(next := old(State()).next + 1,
        pending := old(State()).pending + {M.ExpiryEvent(old(State()), key, generation, expiresAt.value)}))
    {
      hide DeterministicScheduler.Valid, DeterministicScheduler.Pending;
      if expiresAt.None? { return None; }
      var r := scheduler.Schedule(Draft(expiresAt.value, M.KV_EXPIRY, Some("owner"), M.Expiry(key, generation)), now);
      handle := Some(r.value.eventId);
    }

    /** Stores a new generation of the key: arms it first, then cancels what the previous entry had armed. */
    method Put(key: Text, value: CanonicalValue, expiresAt: Option<nat>, previous: Option<Entry>)
      requires Valid() && (expiresAt.Some? ==> now <= expiresAt.value)
      modifies this`entries, this`generations, scheduler
      ensures Valid() && State() == M.Put(old(State()), key, value, expiresAt, previous)
    {
      hide DeterministicScheduler.Valid, DeterministicScheduler.Pending;
      var generation := (if key in generations then generations[key] else 0) + 1;
      var handle := Arm(key, generation, expiresAt);
      if previous.Some? { CancelHandle(previous.value.handle); }
      entries := entries[key := M.Entry(value, expiresAt, generation, handle)];
      generations := generations[key := generation];
    }

    method Get(key: Text, active: bool) returns (r: Result<M.Reply>)
      requires Valid() && T.Inv(State())
      modifies this`entries, scheduler
      ensures Valid() && T.Inv(State()) && (State(), r) == M.Operate(old(State()), M.Get(key), active)
    {
      hide T.Inv, M.Live, DeterministicScheduler.Valid, DeterministicScheduler.Pending;
      T.OperateKeeps(State(), M.Get(key), active);
      if !active || key == [] { return Err(INVALID_KV_OPERATION); }
      var entry := Live(key);
      r := Ok(M.Got(if entry.Some? then Some(entry.value.value) else None));
    }

    method Set(key: Text, value: CanonicalValue, ttl: Option<nat>, ifAbsent: bool, active: bool)
        returns (r: Result<M.Reply>)
      requires Valid() && T.Inv(State())
      modifies this`entries, this`generations, scheduler
      ensures Valid() && T.Inv(State())
      ensures (State(), r) == M.Operate(old(State()), M.Set(key, value, ttl, ifAbsent), active)
    {
      hide T.Inv, M.Live, M.Put, DeterministicScheduler.Valid, DeterministicScheduler.Pending;
      ghost var before := State();
      T.OperateKeeps(before, M.Set(key, value, ttl, ifAbsent), active);
      if !active || key == [] || !M.TtlOk(ttl, now) { return Err(INVALID_KV_OPERATION); }
      T.LiveView(before, key);
      var previous := Live(key);
      if ifAbsent && previous.Some? { return Ok(M.Flag(false)); }
      Put(key, value, M.Deadline(ttl, now), previous);
      r := Ok(M.Flag(true));
    }

    method Delete(key: Text, active: bool) returns (r: Result<M.Reply>)
      requires Valid() && T.Inv(State())
      modifies this`entries, scheduler
      ensures Valid() && T.Inv(State()) && (State(), r) == M.Operate(old(State()), M.Delete(key), active)
    {
      hide T.Inv, M.Live, M.Drop, DeterministicScheduler.Valid, DeterministicScheduler.Pending;
      T.OperateKeeps(State(), M.Delete(key), active);
      if !active || key == [] { return Err(INVALID_KV_OPERATION); }
      var previous := Live(key);
      if previous.None? { return Ok(M.Flag(false)); }
      Drop(key, previous.value.handle);
      r := Ok(M.Flag(true));
    }

    method Increment(key: Text, active: bool) returns (r: Result<M.Reply>)
      requires Valid() && T.Inv(State())
      modifies this`entries, this`generations, scheduler
      ensures Valid() && T.Inv(State()) && (State(), r) == M.Operate(old(State()), M.Increment(key), active)
    {
      hide T.Inv, M.Live, M.Put, SafeInteger, Decimal, DeterministicScheduler.Valid, DeterministicScheduler.Pending;
      ghost var before := State();
      T.OperateKeeps(before, M.Increment(key), active);
      if !active || key == [] { return Err(INVALID_KV_OPERATION); }
      T.LiveKeeps(before, key);
      T.LiveView(before, key);
      var previous := Live(key);
      if previous.None? {
        Put(key, Num(Decimal(1)), None, None);
        return Ok(M.Count(1));
      }
      var value := previous.value.value;
      if !value.Num? || SafeInteger(value.number).None? { return Err(KV_NOT_INTEGER); }
      var next := SafeInteger(value.number).value + 1;
      if next > MAX_SAFE { return Err(KV_COUNTER_OVERFLOW); }
      Put(key, Num(Decimal(next)), previous.value.expiresAt, previous);
      r := Ok(M.Count(next));
    }

    method CompareAndSet(key: Text, expected: Option<CanonicalValue>, value: CanonicalValue, ttl: Option<nat>,
                         active: bool)
      returns (r: Result<M.Reply>)
      requires Valid() && T.Inv(State())
      modifies this`entries, this`generations, scheduler
      ensures Valid() && T.Inv(State())
      ensures (State(), r) == M.Operate(old(State()), M.CompareAndSet(key, expected, value, ttl), active)
    {
      hide T.Inv, M.Live, M.Put, DeterministicScheduler.Valid, DeterministicScheduler.Pending;
      ghost var before := State();
      T.OperateKeeps(before, M.CompareAndSet(key, expected, value, ttl), active);
      if !active || key == [] || !M.TtlOk(ttl, now) { return Err(INVALID_KV_OPERATION); }
      T.LiveView(before, key);
      var previous := Live(key);
      var matches := if expected.Some? then previous.Some? && Encode(previous.value.value) == Encode(expected.value)
          else previous.None?;
      if !matches { return Ok(M.Flag(false)); }
      Put(key, value, M.Deadline(ttl, now), previous);
      r := Ok(M.Flag(true));
    }

    /** `expire`, for any key and generation. */
    method Expire(key: Text, generation: nat)
      requires Valid()
      modifies this`entries, scheduler
      ensures Valid() && State() == M.Expire(old(State()), key, generation)
    {
      hide DeterministicScheduler.Valid, DeterministicScheduler.Pending;
      if key in entries && entries[key].generation == generation && M.Due(entries[key], now) {
        Drop(key, entries[key].handle);
      }
    }

    /** Takes the next event, moves the clock to it and lets its expiry run. */
    method DispatchNext() returns (e: Option<Event<M.Expiry>>)
      requires Valid() && T.Inv(State())
      modifies this`entries, this`now, scheduler
      ensures Valid() && T.Inv(State())
      ensures old(State()).pending == {} ==> e.None? && State() == old(State())
      ensures (old(State()).pending != {} ==>
        && e == Some(Least(old(State()).pending)) && old(State()).now <= e.value.time
        && State() == M.Step(old(State()).(now := e.value.time), M.Fire(e.value)).0
        && e.value.payload.key !in State().entries)
    {
      hide DeterministicScheduler.Valid, DeterministicScheduler.Pending;
      ghost var before := State();
      e := scheduler.TakeNext();
      if e.None? { return; }
      ghost var ticked := before.(now := e.value.time);
      assert M.Possible(before, M.Elsewhere(e.value.time, before.next)) by {
        forall x | x in before.pending ensures e.value.time <= x.time { assert Compare(e.value, x) <= 0; }
      }
      T.StepKeeps(before, M.Elsewhere(e.value.time, before.next));
      T.FireKeeps(ticked, e.value);
      hide T.Inv;
      now := e.value.time;
      Expire(e.value.payload.key, e.value.payload.generation);
    }

    method ArmOne(key: Text)
      requires Valid() && (key in entries ==> !M.Late(entries[key], now))
      modifies this`entries, scheduler
      ensures Valid() && State() == M.ArmOne(old(State()), key)
    {
      hide DeterministicScheduler.Valid, DeterministicScheduler.Pending;
      if key !in entries { return; }
      var entry := entries[key];
      if entry.expiresAt.None? || entry.handle.Some? { return; }
      var handle := Arm(key, entry.generation, entry.expiresAt);
      entries := entries[key := entry.(handle := handle)];
    }

    /** Arms the initial deadlines once; `order` is the order in which the keys were visited. */
    method ScheduleInitialExpiries() returns (ghost order: seq<Text>)
      requires Valid() && T.Inv(State())
      requires initialExpiriesScheduled || forall key :: key in entries ==> !M.Late(entries[key], now)
      modifies this`entries, this`initialExpiriesScheduled, scheduler
      ensures Valid() && T.Inv(State()) && State() == M.ArmInitial(old(State()), order)
      ensures !old(initialExpiriesScheduled) ==> forall key :: key in old(entries) ==> key in order
    {
      hide T.Inv, DeterministicScheduler.Valid, DeterministicScheduler.Pending;
      order := [];
      if initialExpiriesScheduled { return; }
      ghost var before := State();
      initialExpiriesScheduled := true;
      ghost var armed := State();
      var keys := entries.Keys;
      while keys != {}
        invariant Valid() && keys <= armed.entries.Keys && State() == M.ArmAll(armed, order)
        invariant forall key :: key in armed.entries <==> key in keys || key in order
        decreases |keys|
      {
        var key :| key in keys;
        T.ArmAllKeeps(armed, order);
        ArmOne(key);
        ArmAllExtends(armed, order, key);
        order := order + [key];
        keys := keys - {key};
      }
      T.StepKeeps(before, M.Arm(order));
    }
  }

  lemma {:induction false} ArmAllExtends(store: M.Store, order: seq<Text>, key: Text)
    ensures M.ArmAll(store, order + [key]) == M.ArmOne(M.ArmAll(store, order), key)
    decreases |order|
  {
    if order == [] {
      assert [key][1..] == [];
    } else {
      assert (order + [key])[1..] == order[1..] + [key];
      ArmAllExtends(M.ArmOne(store, order[0]), order[1..], key);
    }
  }

  /** The store of a definition, or none when a key is empty or repeated or a time to live is out of range. */
  method Open(runId: string, initial: seq<M.Item>, now: nat) returns (store: DeterministicKeyValueStore?)
    ensures store != null <==> M.DefinitionOk(initial, now)
    ensures store != null ==>
        fresh(store) && fresh(store.scheduler) && store.Valid() && T.Inv(store.State())
        && store.State() == M.Initial(initial, now, 0)
  {
    if !M.DefinitionOk(initial, now) { return null; }
    store := new DeterministicKeyValueStore(runId, initial, now);
  }
}
