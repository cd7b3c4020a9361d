/** Stored records as the web readers see them, and the canonical order in which every reader shows them. */
module Records {
  import opened Outcomes
  import opened Canonical

  datatype Entity = Entity(kind: Text, id: Text)

  /**
   * A stored record, with the fields that the readers look at: `movement` says whether it draws as a movement, and
   * `data` stands for the payload up to the order of its keys.
   */
  datatype Observation = Observation(id: Text, sequence: nat, time: nat, kind: Text, source: Text, target: Option<Text>,
                                     traceId: Option<Text>, spanId: Option<string>, parentSpanId: Option<string>,
                                     eventId: Option<Text>, entityRefs: seq<Entity>, movement: bool, data: nat)

  // ---------- Canonical order ----------

  predicate IsOrdered(obs: seq<Observation>) {
    forall i, j :: 0 <= i < j < |obs| ==> obs[i].sequence <= obs[j].sequence
  }

  function Insert(o: Observation, obs: seq<Observation>): seq<Observation> {
    if obs == [] || o.sequence <= obs[0].sequence then [o] + obs else [obs[0]] + Insert(o, obs[1..])
  }

  function Sort(obs: seq<Observation>): seq<Observation> {
    if obs == [] then [] else Insert(obs[0], Sort(obs[1..]))
  }

  /** `orderObservations`. */
  function Order(obs: seq<Observation>): seq<Observation> { if IsOrdered(obs) then obs else Sort(obs) }

  /** The records with one sequence number, in the order they have. */
  function WithSequence(obs: seq<Observation>, n: nat): seq<Observation> {
    if obs == [] then [] else (if obs[0].sequence == n then [obs[0]] else []) + WithSequence(obs[1..], n)
  }

  lemma WithCons(o: Observation, obs: seq<Observation>, n: nat)
    ensures WithSequence([o] + obs, n) == (if o.sequence == n then [o] else []) + WithSequence(obs, n)
  {
    assert ([o] + obs)[1..] == obs;
  }

  lemma {:induction false} InsertIsStable(o: Observation, obs: seq<Observation>, n: nat)
    ensures WithSequence(Insert(o, obs), n) == WithSequence([o] + obs, n)
  {
    if obs != [] && o.sequence > obs[0].sequence {
      InsertIsStable(o, obs[1..], n);
      assert Insert(o, obs) == [obs[0]] + Insert(o, obs[1..]);
      hide WithSequence, Insert;
      WithCons(o, obs[1..], n);
      WithCons(obs[0], obs[1..], n);
      WithCons(obs[0], Insert(o, obs[1..]), n);
      WithCons(o, obs, n);
      assert obs == [obs[0]] + obs[1..];
      var rest := WithSequence(obs[1..], n);
      if o.sequence == n {
        assert WithSequence(Insert(o, obs), n) == [o] + rest;
      } else {
        assert WithSequence(Insert(o, obs[1..]), n) == rest;
      }
    }
  }

  lemma {:induction false} InsertKeepsAll(o: Observation, obs: seq<Observation>)
    ensures multiset(Insert(o, obs)) == multiset{o} + multiset(obs)
  {
    if obs != [] && o.sequence > obs[0].sequence {
      InsertKeepsAll(o, obs[1..]);
      assert obs == [obs[0]] + obs[1..];
    }
  }

  lemma {:induction false} InsertOrders(o: Observation, obs: seq<Observation>)
    requires IsOrdered(obs)
    ensures IsOrdered(Insert(o, obs))
  {
    if obs != [] && o.sequence > obs[0].sequence {
      InsertOrders(o, obs[1..]);
      InsertKeepsAll(o, obs[1..]);
      var rest := Insert(o, obs[1..]);
      hide Insert;
      forall j | 0 <= j < |rest| ensures obs[0].sequence <= rest[j].sequence {
        assert rest[j] in multiset(rest);
        assert rest[j] == o || rest[j] in obs[1..];
      }
    }
  }

  /** Ordering sorts by sequence number, loses nothing and keeps the published order of equal records. */
  lemma {:induction false} SortIsStable(obs: seq<Observation>, n: nat)
    ensures IsOrdered(Sort(obs)) && multiset(Sort(obs)) == multiset(obs)
    ensures WithSequence(Sort(obs), n) == WithSequence(obs, n)
  {
    if obs != [] {
      SortIsStable(obs[1..], n);
      InsertOrders(obs[0], Sort(obs[1..]));
      InsertKeepsAll(obs[0], Sort(obs[1..]));
      InsertIsStable(obs[0], Sort(obs[1..]), n);
      WithCons(obs[0], Sort(obs[1..]), n);
      assert obs == [obs[0]] + obs[1..];
    }
  }

  lemma OrderIsStable(obs: seq<Observation>, n: nat)
    ensures IsOrdered(Order(obs)) && multiset(Order(obs)) == multiset(obs)
    ensures WithSequence(Order(obs), n) == WithSequence(obs, n)
  {
    SortIsStable(obs, n);
  }

  // ---------- Growing histories ----------

  predicate SameRecord(a: Observation, b: Observation) { a.id == b.id && a.sequence == b.sequence }

  /** `continuesHistory`. */
  method ContinuesHistory(previous: seq<Observation>, next: seq<Observation>) returns (continues: bool)
    ensures continues <==> |previous| <= |next| && forall i :: 0 <= i < |previous| ==> SameRecord(previous[i], next[i])
  {
    if |next| < |previous| { return false; }
    for i := 0 to |previous|
      invariant forall k :: 0 <= k < i ==> SameRecord(previous[k], next[k])
    {
      if previous[i].id != next[i].id || previous[i].sequence != next[i].sequence { return false; }
    }
    return true;
  }
}
