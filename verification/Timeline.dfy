/** The learning timeline: runs of engine bookkeeping and of unchanged assertion evaluations become one item each. */
module Timeline {
  import opened Outcomes
  import opened Canonical
  import opened Records

  /** What the grouping reads from a record's type. */
  datatype Class = Bookkeeping | EventStarted | AssertionEvaluated | Other
  datatype GroupKind = Setup | Assertion
  datatype Item = Single(record: Observation) | Group(kind: GroupKind, members: seq<Observation>)

  /** `findIndex` of the first started event, or -1. */
  function FirstStarted(obs: seq<Observation>, classify: Text -> Class): (i: int)
    ensures i == -1 ==> forall k :: 0 <= k < |obs| ==> !classify(obs[k].kind).EventStarted?
    ensures i != -1 ==> 0 <= i < |obs| && classify(obs[i].kind).EventStarted?
  {
    if obs == [] then -1
    else if classify(obs[0].kind).EventStarted? then 0
    else var i := FirstStarted(obs[1..], classify); if i == -1 then -1 else i + 1
  }

  /** `collapsibleKind`: bookkeeping collapses only before the first started event. */
  function KindAt(obs: seq<Observation>, classify: Text -> Class, started: int, i: nat): Option<GroupKind>
    requires i < |obs|
  {
    if (started < 0 || i < started) && classify(obs[i].kind).Bookkeeping? then Some(Setup)
    else if classify(obs[i].kind).AssertionEvaluated? then Some(Assertion)
    else None
  }

  /** `sameCollapsedContext`. */
  predicate SameContext(obs: seq<Observation>, classify: Text -> Class, started: int, i: nat, j: nat)
    requires i < |obs| && j < |obs|
  {
    && KindAt(obs, classify, started, i).Some?
    && KindAt(obs, classify, started, j) == KindAt(obs, classify, started, i)
    && (KindAt(obs, classify, started, i).value.Setup? || SameResult(obs[i], obs[j]))
  }

  predicate SameResult(a: Observation, b: Observation) {
    a.data == b.data && a.source == b.source && a.target == b.target && a.traceId == b.traceId && a.eventId == b.eventId
  }

  function Members(item: Item): seq<Observation> {
    match item case Single(record) => [record] case Group(_, members) => members
  }

  function Flatten(items: seq<Item>): seq<Observation> {
    if items == [] then [] else Flatten(items[..|items| - 1]) + Members(items[|items| - 1])
  }

  /** The item covers `obs[from..to]`: records of one context, and as many of them as there are. */
  predicate Covers(obs: seq<Observation>, classify: Text -> Class, started: int, item: Item, from: nat, to: nat) {
    && from < to <= |obs|
    && Members(item) == obs[from..to]
    && (item.Group? <==> to - from > 1)
    && (item.Group? ==> KindAt(obs, classify, started, from) == Some(item.kind))
    && (forall k :: from < k < to ==> SameContext(obs, classify, started, from, k))
    && (to < |obs| ==> !SameContext(obs, classify, started, from, to))
  }

  /** The items cover the records in stretches that end at `cuts`. */
  predicate Partition(obs: seq<Observation>, classify: Text -> Class, started: int, items: seq<Item>, cuts: seq<nat>) {
    && |cuts| == |items| + 1 && cuts[0] == 0
    && forall n :: 0 <= n < |items| ==> Covers(obs, classify, started, items[n], cuts[n], cuts[n + 1])
  }

  /** `learningTimeline`: nothing is lost or reordered, and exactly the maximal runs of one context are grouped. */
  method LearningTimeline(observations: seq<Observation>, classify: Text -> Class) returns (items: seq<Item>)
    ensures Flatten(items) == Order(observations)
    ensures exists cuts ::
        Partition(Order(observations), classify, FirstStarted(Order(observations), classify), items, cuts)
            && cuts[|items|] == |Order(observations)|
  {
    var ordered := Order(observations);
    hide Order, FirstStarted;
    var started := FirstStarted(ordered, classify);
    items := [];
    ghost var cuts: seq<nat> := [0];
    var index := 0;
    assert ordered[..0] == [];
    while index < |ordered|
      invariant index <= |ordered| && Partition(ordered, classify, started, items, cuts) && |cuts| == |items| + 1
      invariant cuts[|items|] == index
      invariant Flatten(items) == ordered[..index]
    {
      hide Partition, Flatten, Covers, SameContext, KindAt;
      var item, cursor := NextItem(ordered, classify, started, index);
      Extend(ordered, classify, started, items, cuts, item, cursor);
      items, cuts := items + [item], cuts + [cursor];
      index := cursor;
    }
    assert ordered[..|ordered|] == ordered;
  }

  /** One turn of the outer loop: the longest run of one context from `index`. */
  method NextItem(ordered: seq<Observation>, classify: Text -> Class, started: int, index: nat)
      returns (item: Item, cursor: nat)
    requires index < |ordered|
    ensures Covers(ordered, classify, started, item, index, cursor) && index < cursor <= |ordered|
  {
    hide SameResult;
    cursor := index + 1;
    var kind := KindAt(ordered, classify, started, index);
    if kind.Some? {
      while cursor < |ordered| && SameContext(ordered, classify, started, index, cursor)
        invariant index < cursor <= |ordered|
        invariant forall k :: index < k < cursor ==> SameContext(ordered, classify, started, index, k)
      {
        cursor := cursor + 1;
      }
    }
    item := if cursor == index + 1 then Single(ordered[index]) else Group(kind.value, ordered[index..cursor]);
  }

  lemma Extend(obs: seq<Observation>, classify: Text -> Class, started: int, items: seq<Item>, cuts: seq<nat>,
               item: Item, to: nat)
    requires Partition(obs, classify, started, items, cuts) && |cuts| == |items| + 1 && cuts[|items|] <= |obs|
    requires Flatten(items) == obs[..cuts[|items|]]
    requires Covers(obs, classify, started, item, cuts[|items|], to)
    ensures Partition(obs, classify, started, items + [item], cuts + [to]) && Flatten(items + [item]) == obs[..to]
  {
    assert (items + [item])[..|items|] == items;
    var more, next := items + [item], cuts + [to];
    forall n | 0 <= n < |more| ensures Covers(obs, classify, started, more[n], next[n], next[n + 1]) {
      if n < |items| { assert Covers(obs, classify, started, items[n], cuts[n], cuts[n + 1]); }
    }
    hide Covers;
    assert obs[..cuts[|items|]] + Members(item) ==
        obs[..to] by { CoveredMembers(obs, classify, started, item, cuts[|items|], to); }
  }

  lemma CoveredMembers(obs: seq<Observation>, classify: Text -> Class, started: int, item: Item, from: nat, to: nat)
    requires Covers(obs, classify, started, item, from, to)
    ensures from <= to <= |obs| && Members(item) == obs[from..to]
  {}
}
