/**
 * The execution history: an append-only log with secondary indexes. A query through an index agrees with a plain scan
 * exactly when no matching record is listed twice under the queried key.
 */
module History {
  import opened Outcomes

  datatype Entity = Entity(kind: string, id: string)

  /** Observation ids are allocated in order, so the sequence number stands for the id. */
  datatype Observation = Observation(sequence: nat, time: nat, input: Input)

  datatype Input = Input(kind: string, source: string, target: Option<string>, traceId: Option<string>,
                         spanId: Option<string>,
                         parentSpanId: Option<string>, causationId: Option<nat>, eventId: Option<string>,
                             entityRefs: seq<Entity>)

  datatype Filter = Filter(fromTime: Option<nat>, toTime: Option<nat>, kind: Option<string>, component: Option<string>,
                           traceId: Option<string>, eventId: Option<string>, entity: Option<Entity>)

  function EntityKey(e: Entity): string { e.kind + ['\0'] + e.id }

  // ---------- Filters ----------

  /** `matches`. */
  predicate Matches(r: Observation, f: Filter) {
    && (f.fromTime.Some? ==> f.fromTime.value <= r.time)
    && (f.toTime.Some? ==> r.time <= f.toTime.value)
    && (f.kind.Some? ==> r.input.kind == f.kind.value)
    && (f.component.Some? ==> r.input.source == f.component.value || r.input.target == f.component)
    && (f.traceId.Some? ==> r.input.traceId == f.traceId)
    && (f.eventId.Some? ==> r.input.eventId == f.eventId)
    && (f.entity.Some? ==> f.entity.value in r.input.entityRefs)
  }

  predicate IsIdentifier(o: Option<string>) { o.Some? ==> o.value != "" }

  predicate ValidEntity(e: Entity) { e.kind != "" && e.id != "" }

  predicate ValidFilter(f: Filter) {
    && (f.fromTime.Some? && f.toTime.Some? ==> f.fromTime.value <= f.toTime.value)
    && IsIdentifier(f.kind) && IsIdentifier(f.component) && IsIdentifier(f.traceId) && IsIdentifier(f.eventId)
    && (f.entity.Some? ==> ValidEntity(f.entity.value))
  }

  /** The plain scan. */
  function Scan(records: seq<Observation>, f: Filter): seq<Observation> {
    if records == [] then []
    else Scan(records[..|records| - 1], f) + if Matches(records[|records| - 1], f) then [records[|records| - 1]] else []
  }

  // ---------- Indexes ----------

  datatype Index = ByType | ByComponent | ByTrace | ByEvent | ByEntity

  function EntityKeys(entities: seq<Entity>): (keys: seq<string>)
    ensures |keys| == |entities|
  { seq(|entities|, i requires 0 <= i < |entities| => EntityKey(entities[i])) }

  /** The keys under which `index` files a record, with repetitions. */
  function Keys(index: Index, r: Observation): seq<string> {
    match index
    case ByType => [r.input.kind]
    case ByComponent => [r.input.source] + Present(r.input.target)
    case ByTrace => Present(r.input.traceId)
    case ByEvent => Present(r.input.eventId)
    case ByEntity => EntityKeys(r.input.entityRefs)
  }

  function Present(o: Option<string>): seq<string> { if o.Some? then [o.value] else [] }

  function Count(keys: seq<string>, key: string): nat {
    if keys == [] then 0 else Count(keys[..|keys| - 1], key) + if keys[|keys| - 1] == key then 1 else 0
  }

  function Repeat(r: Observation, n: nat): (s: seq<Observation>)
    ensures |s| == n
  { if n == 0 then [] else Repeat(r, n - 1) + [r] }

  /** What an index holds under a key. */
  function Listing(index: Index, records: seq<Observation>, key: string): seq<Observation> {
    if records == [] then []
    else
      var last := records[|records| - 1];
      Listing(index, records[..|records| - 1], key) + Repeat(last, Count(Keys(index, last), key))
  }

  type Table = map<string, seq<Observation>>

  function Under(table: Table, key: string): seq<Observation> { if key in table then table[key] else [] }

  ghost predicate Filed(index: Index, table: Table, records: seq<Observation>) {
    forall key :: Under(table, key) == Listing(index, records, key)
  }

  /** The index that `query` uses, if any, and the key it looks up. */
  function Chosen(f: Filter): Option<(Index, string)> {
    if f.kind.Some? then Some((ByType, f.kind.value))
    else if f.traceId.Some? then Some((ByTrace, f.traceId.value))
    else if f.eventId.Some? then Some((ByEvent, f.eventId.value))
    else if f.component.Some? then Some((ByComponent, f.component.value))
    else if f.entity.Some? then Some((ByEntity, EntityKey(f.entity.value)))
    else None
  }

  // ---------- The query law ----------

  lemma {:induction false} CountPositive(keys: seq<string>, key: string)
    ensures Count(keys, key) > 0 <==> key in keys
  {
    if keys != [] {
      CountPositive(keys[..|keys| - 1], key);
      assert keys == keys[..|keys| - 1] + [keys[|keys| - 1]];
    }
  }

  lemma {:induction false} ScanConcat(a: seq<Observation>, b: seq<Observation>, f: Filter)
    ensures Scan(a + b, f) == Scan(a, f) + Scan(b, f)
  {
    if b == [] {
      assert a + b == a;
    } else {
      assert (a + b)[..|a + b| - 1] == a + b[..|b| - 1];
      ScanConcat(a, b[..|b| - 1], f);
    }
  }

  lemma {:induction false} ScanRepeat(r: Observation, n: nat, f: Filter)
    ensures Scan(Repeat(r, n), f) == if Matches(r, f) then Repeat(r, n) else []
  {
    if n > 0 {
      ScanRepeat(r, n - 1, f);
      assert Repeat(r, n)[..n - 1] == Repeat(r, n - 1);
    }
  }

  /** A record that matches is filed under the key that the query looks up. */
  lemma MatchingIsFiled(r: Observation, f: Filter)
    requires Chosen(f).Some? && Matches(r, f)
    ensures Count(Keys(Chosen(f).value.0, r), Chosen(f).value.1) > 0
  {
    var (index, key) := Chosen(f).value;
    CountPositive(Keys(index, r), key);
    if index == ByEntity {
      var i :| 0 <= i < |r.input.entityRefs| && r.input.entityRefs[i] == f.entity.value;
      assert EntityKeys(r.input.entityRefs)[i] == key;
    }
  }

  /** The matching record is filed more than once under the queried key. */
  predicate ListedTwice(r: Observation, f: Filter) {
    Matches(r, f) && Chosen(f).Some? && Count(Keys(Chosen(f).value.0, r), Chosen(f).value.1) > 1
  }

  predicate NoneListedTwice(records: seq<Observation>, f: Filter) {
    forall i :: 0 <= i < |records| ==> !ListedTwice(records[i], f)
  }

  lemma {:induction false} ListingAgainstScan(records: seq<Observation>, f: Filter)
    requires Chosen(f).Some?
    ensures var found := Scan(Listing(Chosen(f).value.0, records, Chosen(f).value.1), f);
            && |found| >= |Scan(records, f)|
            && (NoneListedTwice(records, f) ==> found == Scan(records, f))
            && (!NoneListedTwice(records, f) ==> |found| > |Scan(records, f)|)
  {
    hide Matches, Keys, Count, Chosen, ListedTwice, NoneListedTwice, Repeat;
    if records == [] {
      NoneInEmpty(f);
    } else {
      var (index, key) := Chosen(f).value;
      var front, last := records[..|records| - 1], records[|records| - 1];
      var n := Count(Keys(index, last), key);
      ListingAgainstScan(front, f);
      ScanConcat(Listing(index, front, key), Repeat(last, n), f);
      ScanRepeat(last, n, f);
      if Matches(last, f) {
        MatchingIsFiled(last, f);
        RepeatOnce(last);
      }
      NoneInMore(records, f);
      TwiceMeans(last, f);
    }
  }

  lemma NoneInEmpty(f: Filter)
    ensures NoneListedTwice([], f)
  {}

  lemma NoneInMore(records: seq<Observation>, f: Filter)
    requires records != []
    ensures NoneListedTwice(records, f) <==>
        NoneListedTwice(records[..|records| - 1], f)
        && !ListedTwice(records[|records| - 1], f)
  {
    hide ListedTwice;
  }

  lemma RepeatOnce(r: Observation)
    ensures Repeat(r, 1) == [r]
  {}

  lemma TwiceMeans(r: Observation, f: Filter)
    requires Chosen(f).Some?
    ensures ListedTwice(r, f) <==> Matches(r, f) && Count(Keys(Chosen(f).value.0, r), Chosen(f).value.1) > 1
  {}

  /** `query`, as a function of the log and the index it consults. */
  function Answer(records: seq<Observation>, listed: Option<seq<Observation>>, f: Filter): seq<Observation> {
    Scan(if listed.Some? then listed.value else records, f)
  }

  /** What the index lookup yields: nothing for a key never filed. */
  ghost predicate Consulted(records: seq<Observation>, listed: Option<seq<Observation>>, f: Filter) {
    match Chosen(f)
    case None => listed == None
    case Some((index, key)) =>
      if listed.Some? then listed.value == Listing(index, records, key) else Listing(index, records, key) == []
  }

  /**
   * The indexed query equals the plain scan if and only if no matching record is listed twice under the queried key.
   */
  lemma QueryIsScan(records: seq<Observation>, listed: Option<seq<Observation>>, f: Filter)
    requires Consulted(records, listed, f)
    ensures Answer(records, listed, f) == Scan(records, f) <==> NoneListedTwice(records, f)
  {
    if Chosen(f).Some? {
      ListingAgainstScan(records, f);
      assert Scan([], f) == [];
    }
  }

  /**
   * When a record can be listed twice: only a query by component, for a record that is its own target, or by entity,
   * for a record with two references that share a key.
   */
  lemma ListedTwiceMeans(r: Observation, f: Filter)
    requires Matches(r, f) && Chosen(f).Some?
    ensures Chosen(f).value.0 in {ByType, ByTrace, ByEvent} ==> !ListedTwice(r, f)
    ensures Chosen(f).value.0 == ByComponent ==> (ListedTwice(r, f) <==> r.input.target == Some(r.input.source))
    ensures (Chosen(f).value.0 == ByEntity ==> (ListedTwice(r, f) <==>
      exists i, j :: 0 <= i < j < |r.input.entityRefs|
          && EntityKey(r.input.entityRefs[i]) == EntityKey(r.input.entityRefs[j]) == Chosen(f).value.1))
  {
    var (index, key) := Chosen(f).value;
    match index
    case ByEntity =>
      var keys := EntityKeys(r.input.entityRefs);
      CountTwice(keys, key);
      if i, j :| 0 <= i < j < |keys| && keys[i] == keys[j] == key {
        assert EntityKey(r.input.entityRefs[i]) == EntityKey(r.input.entityRefs[j]) == key;
      }
      if i, j :|
        0 <= i < j < |r.input.entityRefs| && EntityKey(r.input.entityRefs[i]) == EntityKey(r.input.entityRefs[j]) == key
      {
        assert keys[i] == keys[j] == key;
      }
    case ByComponent =>
      if r.input.target.Some? {
        CountTwo(r.input.source, r.input.target.value, key);
      } else {
        CountOne(r.input.source, key);
      }
      assert r.input.target.None? ==> Keys(index, r) == [r.input.source];
      assert r.input.target.Some? ==> Keys(index, r) == [r.input.source, r.input.target.value];
    case ByType => CountOne(r.input.kind, key);
    case ByTrace => CountOne(r.input.traceId.value, key);
    case ByEvent => CountOne(r.input.eventId.value, key);
  }

  lemma CountOne(a: string, key: string)
    ensures Count([a], key) == if a == key then 1 else 0
  {
    assert [a][..0] == [];
  }

  lemma CountTwo(a: string, b: string, key: string)
    ensures Count([a, b], key) == (if a == key then 1 else 0) + (if b == key then 1 else 0)
  {
    assert [a, b][..1] == [a];
    CountOne(a, key);
  }

  lemma {:induction false} CountTwice(keys: seq<string>, key: string)
    ensures Count(keys, key) > 1 <==> exists i, j :: 0 <= i < j < |keys| && keys[i] == keys[j] == key
  {
    if keys != [] {
      var front, n := keys[..|keys| - 1], |keys| - 1;
      CountTwice(front, key);
      CountPositive(front, key);
      if Count(keys, key) > 1 {
        if keys[n] == key {
          var i :| 0 <= i < n && front[i] == key;
          assert keys[i] == keys[n] == key;
        } else {
          var i, j :| 0 <= i < j < n && front[i] == front[j] == key;
          assert keys[i] == keys[j] == key;
        }
      }
      if i, j :| 0 <= i < j < |keys| && keys[i] == keys[j] == key {
        if j == n { assert front[i] == key; } else { assert front[i] == front[j] == key; }
      }
    }
  }

  /**
   * Two different entities whose identifiers contain the separator can share a key, so the log below is queried
   * wrongly.
   */
  lemma SharedKeyCounterexample()
    ensures var a, b := Entity("x\0y", "z"), Entity("x", "y\0z");
            var r := Observation(0, 0, Input("t.t", "s", None, None, None, None, None, None, [a, b]));
            var f := Filter(None, None, None, None, None, None, Some(a));
            && a != b && ValidEntity(a) && ValidEntity(b) && ValidFilter(f)
            && Scan([r], f) == [r] && Answer([r], Some(Listing(ByEntity, [r], EntityKey(a))), f) == [r, r]
  {
    var a, b := Entity("x\0y", "z"), Entity("x", "y\0z");
    var r := Observation(0, 0, Input("t.t", "s", None, None, None, None, None, None, [a, b]));
    var f := Filter(None, None, None, None, None, None, Some(a));
    assert EntityKey(a) == "x\0y\0z" == EntityKey(b);
    var keys := EntityKeys([a, b]);
    assert keys == [EntityKey(a), EntityKey(a)] && keys[..1] == [EntityKey(a)] && keys[..1][..0] == [];
    assert Count(keys, EntityKey(a)) == 2 by {
      assert Count(keys[..1], EntityKey(a)) == 1;
    }
    assert Matches(r, f) by { assert r.input.entityRefs[0] == a; }
    assert [r][..0] == [];
    assert Repeat(r, 2) == [r, r] by { assert Repeat(r, 1) == [r]; }
    assert Listing(ByEntity, [r], EntityKey(a)) == [r, r];
    assert [r, r][..1] == [r];
    assert Scan([r], f) == [r] && Scan([r, r], f) == [r, r];
  }

  // ---------- The log ----------

  /** `sealed` holds the terminal failure, of which only its identity matters; `types` are those with a schema. */
  datatype Log = Log(records: seq<Observation>, sealed: Option<nat>, delivering: bool, limit: nat, types: set<string>)

  /** `validateCorrelation`: a span needs a trace, a parent needs a span, and a cause must be a recorded observation. */
  predicate Correlated(records: seq<Observation>, input: Input) {
    && IsIdentifier(input.traceId) && IsIdentifier(input.spanId) && IsIdentifier(input.parentSpanId)
    && IsIdentifier(input.eventId)
    && (input.spanId.Some? ==> input.traceId.Some?)
    && (input.parentSpanId.Some? ==> input.spanId.Some? && input.traceId.Some?)
    && (input.causationId.Some? ==> input.causationId.value < |records|)
  }

  /** `validate`; `accepted` is the answer of the type's schema for the data. */
  function Validate(log: Log, input: Input, accepted: bool): Result<()> {
    if input.source == "" || !IsIdentifier(input.target) then Err(INVALID_OBSERVATION)
    else if input.kind !in log.types then Err(UNKNOWN_OBSERVATION_TYPE)
    else if !accepted then Err(INVALID_OBSERVATION_SCHEMA)
    else if !Correlated(log.records, input) then Err(INVALID_OBSERVATION)
    else if !(forall i :: 0 <= i < |input.entityRefs| ==> ValidEntity(input.entityRefs[i]))
        then Err(INVALID_OBSERVATION)
    else Ok(())
  }

  function Recorded(log: Log, input: Input, accepted: bool, now: nat): (Log, Result<Observation>) {
    if log.delivering then (log, Err(OBSERVER_REENTRANCY))
    else if log.sealed.Some? then (log, Err(HISTORY_SEALED))
    else if |log.records| >= log.limit then (log, Err(HISTORY_LIMIT_EXCEEDED))
    else
      match Validate(log, input, accepted)
      case Err(code) => (log, Err(code))
      case Ok(_) =>
        var record := Observation(|log.records|, now, input);
        (log.(records := log.records + [record]), Ok(record))
  }

  function Sealed(log: Log, failure: nat): (Log, Result<()>) {
    if log.sealed.None? then (log.(sealed := Some(failure)), Ok(()))
    else (log, if log.sealed.value == failure then Ok(()) else Err(HISTORY_SEALED))
  }

  datatype Call = DoRecord(input: Input, accepted: bool) | DoSeal(failure: nat) | DoDeliver(delivering: bool)

  function Step(log: Log, call: Call, now: nat): Log {
    match call
    case DoRecord(input, accepted) => Recorded(log, input, accepted, now).0
    case DoSeal(failure) => Sealed(log, failure).0
    case DoDeliver(delivering) => log.(delivering := delivering)
  }

  /** Sequence numbers are positions, causes come strictly before their effects, and times never go back. */
  predicate Ordered(records: seq<Observation>) {
    && (forall i :: 0 <= i < |records| ==> records[i].sequence == i)
    && (forall i :: 0 <= i < |records| && records[i].input.causationId.Some? ==> records[i].input.causationId.value < i)
    && (forall i, j :: 0 <= i < j < |records| ==> records[i].time <= records[j].time)
  }

  /** A run: the calls in order, each at the clock's time, which never goes back. */
  ghost predicate IsRun(run: seq<Log>, calls: seq<Call>, times: seq<nat>) {
    && |run| == |calls| + 1 && |times| == |calls|
    && (forall i :: 0 <= i < |calls| ==> run[i + 1] == Step(run[i], calls[i], times[i]))
    && (forall i, j :: 0 <= i < j < |times| ==> times[i] <= times[j])
  }

  /** In every reachable log, causation is well founded and times are nondecreasing; the limit is respected. */
  lemma {:induction false} HistoryIsOrdered(run: seq<Log>, calls: seq<Call>, times: seq<nat>, i: nat)
    requires IsRun(run, calls, times) && run[0].records == [] && i < |run|
    ensures Ordered(run[i].records)
    ensures |run[i].records| <= run[0].limit && run[i].limit == run[0].limit
    ensures forall k :: 0 <= k < |run[i].records| && i < |times| ==> run[i].records[k].time <= times[i]
  {
    hide Validate;
    if i > 0 {
      HistoryIsOrdered(run, calls, times, i - 1);
      assert run[i - 1 + 1] == Step(run[i - 1], calls[i - 1], times[i - 1]);
      if calls[i - 1].DoRecord? && run[i] != run[i - 1] {
        AcceptedIsCorrelated(run[i - 1], calls[i - 1].input, calls[i - 1].accepted);
      }
    }
  }

  lemma AcceptedIsCorrelated(log: Log, input: Input, accepted: bool)
    requires Validate(log, input, accepted).Ok?
    ensures input.causationId.Some? ==> input.causationId.value < |log.records|
  {}

  /** The log only grows, and nothing is added once it is sealed. */
  lemma {:induction false} HistoryIsAppendOnly(run: seq<Log>, calls: seq<Call>, times: seq<nat>, i: nat, j: nat)
    requires IsRun(run, calls, times) && i <= j < |run|
    ensures run[i].records <= run[j].records
    ensures run[i].sealed.Some? ==> run[j].sealed == run[i].sealed && run[j].records == run[i].records
  {
    hide Validate;
    if i < j {
      HistoryIsAppendOnly(run, calls, times, i, j - 1);
      assert run[j - 1 + 1] == Step(run[j - 1], calls[j - 1], times[j - 1]);
    }
  }

  /** The causes of a record, nearest first: the chain ends, because every step goes strictly back. */
  function Causes(records: seq<Observation>, i: nat): (chain: seq<nat>)
    requires Ordered(records) && i < |records|
    ensures |chain| <= i && forall k :: 0 <= k < |chain| ==> chain[k] < i
    ensures forall k, l :: 0 <= k < l < |chain| ==> chain[l] < chain[k]
  {
    match records[i].input.causationId
    case None => []
    case Some(cause) => [cause] + Causes(records, cause)
  }

  // ---------- The object ----------

  class ExecutionHistory {
    const limit: nat
    var types: set<string>
    var records: seq<Observation>
    var byType: Table
    var byComponent: Table
    var byTrace: Table
    var byEvent: Table
    var byEntity: Table
    var delivering: bool
    var sealed: Option<nat>

    function State(): Log
      reads this
    { Log(records, sealed, delivering, limit, types) }

    ghost predicate Valid()
      reads this
    {
      && Filed(ByType, byType, records) && Filed(ByComponent, byComponent, records) && Filed(ByTrace, byTrace, records)
      && Filed(ByEvent, byEvent, records) && Filed(ByEntity, byEntity, records)
    }

    constructor (limit: nat)
      ensures Valid() && State() == Log([], None, false, limit, {})
    {
      this.limit := limit;
      types, records, delivering, sealed := {}, [], false, None;
      byType, byComponent, byTrace, byEvent, byEntity := map[], map[], map[], map[], map[];
    }

    method RegisterSchema(kind: string) returns (added: bool)
      requires Valid()
      modifies this`types
      ensures Valid() && added == (kind !in old(types)) && types == old(types) + {kind}
    {
      added := kind !in types;
      types := types + {kind};
    }

    method Record(input: Input, accepted: bool, now: nat) returns (r: Result<Observation>)
      requires Valid()
      modifies this
      ensures Valid() && (State(), r) == Recorded(old(State()), input, accepted, now)
    {
      hide Filed, Validate;
      if delivering { return Err(OBSERVER_REENTRANCY); }
      if sealed.Some? { return Err(HISTORY_SEALED); }
      if |records| >= limit { return Err(HISTORY_LIMIT_EXCEEDED); }
      var checked := Validate(State(), input, accepted);
      if checked.Err? { return Err(checked.code); }
      var record := Observation(|records|, now, input);
      FileIn(record);
      records := records + [record];
      r := Ok(record);
    }

    /** `index`: one entry per key the record is filed under. */
    method FileIn(record: Observation)
      requires Valid()
      modifies this`byType, this`byComponent, this`byTrace, this`byEvent, this`byEntity
      ensures Filed(ByType, byType, records + [record]) && Filed(ByComponent, byComponent, records + [record])
      ensures Filed(ByTrace, byTrace, records + [record]) && Filed(ByEvent, byEvent, records + [record])
      ensures Filed(ByEntity, byEntity, records + [record])
    {
      hide Filed;
      byType := AddAll(ByType, byType, records, record);
      byComponent := AddAll(ByComponent, byComponent, records, record);
      byTrace := AddAll(ByTrace, byTrace, records, record);
      byEvent := AddAll(ByEvent, byEvent, records, record);
      byEntity := AddAll(ByEntity, byEntity, records, record);
    }

    method Query(f: Filter) returns (r: Result<seq<Observation>>)
      requires Valid()
      ensures !ValidFilter(f) ==> r == Err(INVALID_OBSERVATION_FILTER)
      ensures ValidFilter(f) ==> r.Ok? && (r.value == Scan(records, f) <==> NoneListedTwice(records, f))
      ensures ValidFilter(f) ==> exists listed :: Consulted(records, listed, f) && r.value == Answer(records, listed, f)
    {
      if !ValidFilter(f) { return Err(INVALID_OBSERVATION_FILTER); }
      var listed := Lookup(f);
      QueryIsScan(records, listed, f);
      r := Ok(Answer(records, listed, f));
    }

    method Lookup(f: Filter) returns (listed: Option<seq<Observation>>)
      requires Valid()
      ensures Consulted(records, listed, f)
    {
      hide Listing;
      if f.kind.Some? { return Find(byType, f.kind.value); }
      if f.traceId.Some? { return Find(byTrace, f.traceId.value); }
      if f.eventId.Some? { return Find(byEvent, f.eventId.value); }
      if f.component.Some? { return Find(byComponent, f.component.value); }
      if f.entity.Some? { return Find(byEntity, EntityKey(f.entity.value)); }
      return None;
    }

    function Find(table: Table, key: string): (listed: Option<seq<Observation>>)
      ensures listed.Some? ==> listed.value == Under(table, key)
      ensures listed.None? ==> Under(table, key) == []
    { if key in table then Some(table[key]) else None }

    method SealFailure(failure: nat) returns (r: Result<()>)
      requires Valid()
      modifies this`sealed
      ensures Valid() && (State(), r) == Sealed(old(State()), failure)
    {
      if sealed.Some? { return if sealed.value == failure then Ok(()) else Err(HISTORY_SEALED); }
      sealed := Some(failure);
      r := Ok(());
    }
  }

  /** `add`, once for every key under which the index files the record. */
  method AddAll(index: Index, table: Table, ghost records: seq<Observation>, record: Observation) returns (after: Table)
    requires Filed(index, table, records)
    ensures Filed(index, after, records + [record])
  {
    hide Keys, Count, Listing, Repeat, Filed;
    after := table;
    var keys := Keys(index, record);
    AddedNone(index, table, records, record, keys);
    for i := 0 to |keys|
      invariant Added(index, after, records, record, keys[..i])
    {
      AddedOne(index, after, records, record, keys[..i], keys[i]);
      assert keys[..i] + [keys[i]] == keys[..i + 1];
      after := after[keys[i] := Under(after, keys[i]) + [record]];
    }
    assert keys[..|keys|] == keys;
    AddedAll(index, after, records, record);
  }

  /** The table after the record was added under each of `keys`. */
  ghost predicate Added(index: Index, table: Table, records: seq<Observation>, record: Observation, keys: seq<string>) {
    forall key :: Under(table, key) == Listing(index, records, key) + Repeat(record, Count(keys, key))
  }

  lemma AddedNone(index: Index, table: Table, records: seq<Observation>, record: Observation, keys: seq<string>)
    requires Filed(index, table, records)
    ensures Added(index, table, records, record, keys[..0])
  {
    assert keys[..0] == [];
  }

  lemma AddedOne(index: Index, table: Table, records: seq<Observation>, record: Observation, keys: seq<string>,
                 k: string)
    requires Added(index, table, records, record, keys)
    ensures Added(index, table[k := Under(table, k) + [record]], records, record, keys + [k])
  {
    hide Listing, Count, Repeat;
    var after := table[k := Under(table, k) + [record]];
    forall key ensures Under(after, key) == Listing(index, records, key) + Repeat(record, Count(keys + [k], key)) {
      assert Under(table, key) == Listing(index, records, key) + Repeat(record, Count(keys, key));
      OneMoreKey(keys, k, key);
      RepeatMore(record, Count(keys, key));
    }
  }

  lemma OneMoreKey(keys: seq<string>, k: string, key: string)
    ensures Count(keys + [k], key) == Count(keys, key) + if k == key then 1 else 0
  {
    assert (keys + [k])[..|keys|] == keys;
  }

  lemma RepeatMore(r: Observation, n: nat)
    ensures Repeat(r, n + 1) == Repeat(r, n) + [r]
  {}

  lemma AddedAll(index: Index, table: Table, records: seq<Observation>, record: Observation)
    requires Added(index, table, records, record, Keys(index, record))
    ensures Filed(index, table, records + [record])
  {
    hide Repeat, Count, Keys;
    assert (records + [record])[..|records|] == records;
  }
}
