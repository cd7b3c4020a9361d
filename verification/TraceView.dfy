/**
 * The span forest of one stored trace. Parent links come from recorded data and may form cycles or hang off cycles; the
 * builder cuts exactly the links whose chain of parents never ends.
 */
module TraceView {
  import opened Outcomes
  import opened Canonical
  import opened Records

  type SpanId = string

  // ---------- What the first pass collects ----------

  function OfTrace(obs: seq<Observation>, traceId: Text): seq<Observation> {
    if obs == [] then []
    else OfTrace(obs[..|obs| - 1], traceId) + if obs[|obs| - 1].traceId == Some(traceId) then [obs[|obs| - 1]] else []
  }

  function InSpan(members: seq<Observation>, span: Option<SpanId>): seq<Observation> {
    if members == [] then []
    else InSpan(members[..|members| - 1], span) + if members[|members| - 1].spanId == span
        then [members[|members| - 1]] else []
  }

  /** The spans in order of their first record. */
  function Spans(members: seq<Observation>): seq<SpanId> {
    if members == [] then []
    else
      var before := Spans(members[..|members| - 1]);
      var last := members[|members| - 1];
      if last.spanId.Some? && last.spanId.value !in before then before + [last.spanId.value] else before
  }

  /** Each span's first recorded parent. */
  function Parents(members: seq<Observation>): map<SpanId, SpanId> {
    if members == [] then map[]
    else
      var before := Parents(members[..|members| - 1]);
      var last := members[|members| - 1];
      if last.spanId.Some? && last.parentSpanId.Some? && last.spanId.value !in before
      then before[last.spanId.value := last.parentSpanId.value]
      else before
  }

  // ---------- Chains of parents ----------

  /** The span `n` links up, if the chain is that long. */
  function Up(parents: map<SpanId, SpanId>, s: SpanId, n: nat): Option<SpanId> {
    if n == 0 then Some(s)
    else
      var below := Up(parents, s, n - 1);
      if below.Some? && below.value in parents then Some(parents[below.value]) else None
  }

  /** The chain of parents of the span ends. */
  ghost predicate Ends(parents: map<SpanId, SpanId>, s: SpanId) { exists n: nat :: Up(parents, s, n).None? }

  lemma {:induction false} UpPrefix(parents: map<SpanId, SpanId>, s: SpanId, m: nat, n: nat)
    requires m <= n && Up(parents, s, n).Some?
    ensures Up(parents, s, m).Some?
  {
    if m < n { UpPrefix(parents, s, m, n - 1); }
  }

  lemma {:induction false} UpRepeats(parents: map<SpanId, SpanId>, s: SpanId, i: nat, j: nat, k: nat)
    requires Up(parents, s, i) == Up(parents, s, j)
    ensures Up(parents, s, i + k) == Up(parents, s, j + k)
  {
    if k > 0 {
      UpRepeats(parents, s, i, j, k - 1);
      assert i + k - 1 == i + (k - 1) && j + k - 1 == j + (k - 1);
    }
  }

  /** A chain that visits a span twice never ends. */
  lemma {:induction false} RepeatedNeverEnds(parents: map<SpanId, SpanId>, s: SpanId, i: nat, j: nat, n: nat)
    requires i < j && Up(parents, s, i) == Up(parents, s, j) && Up(parents, s, j).Some?
    ensures Up(parents, s, n).Some?
    decreases n
  {
    if n <= j {
      UpPrefix(parents, s, n, j);
    } else {
      RepeatedNeverEnds(parents, s, i, j, n - (j - i));
      UpRepeats(parents, s, i, j, n - j);
      assert i + (n - j) == n - (j - i) && j + (n - j) == n;
    }
  }

  /** The spans `path` are the first links of the chain of `s`. */
  ghost predicate Follows(parents: map<SpanId, SpanId>, s: SpanId, path: seq<SpanId>) {
    forall i :: 0 <= i < |path| ==> Up(parents, s, i) == Some(path[i])
  }

  /** A chain that comes back to a span on its path never ends. */
  lemma BackOnPath(parents: map<SpanId, SpanId>, s: SpanId, path: seq<SpanId>, current: SpanId)
    requires Follows(parents, s, path) && Up(parents, s, |path|) == Some(current) && current in path
    ensures !Ends(parents, s)
  {
    var i :| 0 <= i < |path| && path[i] == current;
    hide Up;
    forall m: nat ensures Up(parents, s, m).Some? { RepeatedNeverEnds(parents, s, i, |path|, m); }
  }

  /** One more link of a chain that goes on to a span not met before. */
  lemma OnPath(parents: map<SpanId, SpanId>, s: SpanId, path: seq<SpanId>, current: SpanId)
    requires Follows(parents, s, path) && Up(parents, s, |path|) == Some(current)
    ensures Follows(parents, s, path + [current])
    ensures Up(parents, s, |path| + 1) == if current in parents then Some(parents[current]) else None
  {}

  lemma FirstLink(parents: map<SpanId, SpanId>, s: SpanId)
    requires s in parents
    ensures Follows(parents, s, [s]) && Up(parents, s, 1) == Some(parents[s])
  {
    assert Up(parents, s, 0) == Some(s);
  }

  /** `acyclic`: follows the parents until one is missing or one comes back. */
  method Acyclic(child: SpanId, parent: SpanId, parents: map<SpanId, SpanId>) returns (ends: bool)
    requires child in parents && parents[child] == parent
    ensures ends <==> Ends(parents, child)
  {
    hide Up, Follows;
    var seen := {child};
    var current := Some(parent);
    ghost var path := [child];
    ghost var all := {child} + parents.Values;
    FirstLink(parents, child);
    while current.Some?
      invariant current == Up(parents, child, |path|) && Follows(parents, child, path)
      invariant current.Some? ==> current.value in all
      invariant seen == (set s | s in path) && seen <= all
      decreases |all - seen|, if current.Some? then 1 else 0
    {
      if current.value in seen {
        BackOnPath(parents, child, path, current.value);
        return false;
      }
      OnPath(parents, child, path, current.value);
      path := path + [current.value];
      ghost var left := all - seen;
      seen := seen + {current.value};
      assert all - seen == left - {current.value};
      current := if current.value in parents then Some(parents[current.value]) else None;
    }
    return true;
  }

  /** The parent under which the span is drawn. */
  ghost function Attached(spans: seq<SpanId>, parents: map<SpanId, SpanId>, s: SpanId): Option<SpanId> {
    if s in parents && Ends(parents, s) && parents[s] in spans then Some(parents[s]) else None
  }

  ghost function Roots(spans: seq<SpanId>, all: seq<SpanId>, parents: map<SpanId, SpanId>): seq<SpanId> {
    if spans == [] then []
    else
      var last := spans[|spans| - 1];
      Roots(spans[..|spans| - 1], all, parents) + if Attached(all, parents, last).None? then [last] else []
  }

  ghost function Children(spans: seq<SpanId>, all: seq<SpanId>, parents: map<SpanId, SpanId>, p: SpanId): seq<SpanId> {
    if spans == [] then []
    else
      var last := spans[|spans| - 1];
      Children(spans[..|spans| - 1], all, parents, p) + if Attached(all, parents, last) == Some(p) then [last] else []
  }

  datatype View = View(spans: seq<SpanId>, groups: map<SpanId, seq<Observation>>, parents: map<SpanId, SpanId>,
                       children: map<SpanId, seq<SpanId>>, roots: seq<SpanId>, unspanned: seq<Observation>)

  /** The view is what the records of the trace say, and its links are a forest. */
  ghost predicate Shows(view: View, observations: seq<Observation>, traceId: Text) {
    var members := OfTrace(Order(observations), traceId);
    && view.spans == Spans(members) && view.parents == Parents(members) && view.unspanned == InSpan(members, None)
    && (forall s :: s in view.groups <==> s in view.spans)
    && (forall s :: s in view.spans ==> view.groups[s] == InSpan(members, Some(s)))
    && Linked(view.spans, view.parents, view.children, view.roots)
  }

  /** `traceView`. */
  method Build(observations: seq<Observation>, traceId: Text) returns (view: View)
    ensures Shows(view, observations, traceId)
  {
    var members := Select(Order(observations), traceId);
    var spans, groups, parents, unspanned := Collect(members);
    var children, roots := Link(spans, parents);
    ViewIsLinked(members, children, roots);
    view := View(spans, groups, parents, children, roots, unspanned);
  }

  method Select(obs: seq<Observation>, traceId: Text) returns (members: seq<Observation>)
    ensures members == OfTrace(obs, traceId)
  {
    members := [];
    assert obs[..0] == [];
    for i := 0 to |obs|
      invariant members == OfTrace(obs[..i], traceId)
    {
      assert obs[..i + 1][..i] == obs[..i];
      if obs[i].traceId == Some(traceId) { members := members + [obs[i]]; }
    }
    assert obs[..|obs|] == obs;
  }

  lemma CollectStep(members: seq<Observation>, i: nat)
    requires i < |members|
    ensures var item, span := members[i], members[i].spanId;
            && Spans(members[..i + 1]) == Spans(members[..i])
                + (if span.Some? && span.value !in Spans(members[..i]) then [span.value] else [])
            && Parents(members[..i + 1]) ==
                (if span.Some? && item.parentSpanId.Some? && span.value !in Parents(members[..i])
                 then Parents(members[..i])[span.value := item.parentSpanId.value] else Parents(members[..i]))
            && forall s :: InSpan(members[..i + 1], s) == InSpan(members[..i], s) + if span == s then [item] else []
  {
    assert members[..i + 1][..i] == members[..i];
  }

  method Collect(members: seq<Observation>)
    returns (spans: seq<SpanId>, groups: map<SpanId, seq<Observation>>, parents: map<SpanId, SpanId>,
             unspanned: seq<Observation>)
    ensures spans == Spans(members) && parents == Parents(members) && unspanned == InSpan(members, None)
    ensures forall s :: s in groups <==> s in spans
    ensures forall s :: s in spans ==> groups[s] == InSpan(members, Some(s))
  {
    spans, groups, parents, unspanned := [], map[], map[], [];
    assert members[..0] == [];
    assert Spans([]) == [] && Parents([]) == map[] && forall s :: InSpan([], s) == [];
    hide Spans, Parents, InSpan;
    for i := 0 to |members|
      invariant spans == Spans(members[..i]) && parents == Parents(members[..i])
      invariant unspanned == InSpan(members[..i], None)
      invariant forall s :: s in groups <==> s in spans
      invariant forall s :: s in spans ==> groups[s] == InSpan(members[..i], Some(s))
      invariant forall s :: s !in spans ==> InSpan(members[..i], Some(s)) == []
    {
      CollectStep(members, i);
      var item := members[i];
      if item.spanId.None? {
        unspanned := unspanned + [item];
        continue;
      }
      var span := item.spanId.value;
      if span in groups {
        groups := groups[span := groups[span] + [item]];
      } else {
        groups := groups[span := [item]];
        spans := spans + [span];
      }
      if item.parentSpanId.Some? && span !in parents { parents := parents[span := item.parentSpanId.value]; }
    }
    assert members[..|members|] == members;
  }

  method Link(spans: seq<SpanId>, parents: map<SpanId, SpanId>)
      returns (children: map<SpanId, seq<SpanId>>, roots: seq<SpanId>)
    ensures forall s :: s in children <==> s in spans
    ensures forall s :: s in spans ==> children[s] == Children(spans, spans, parents, s)
    ensures roots == Roots(spans, spans, parents)
  {
    hide Ends;
    children := map s | s in spans :: [];
    roots := [];
    assert spans[..0] == [];
    for i := 0 to |spans|
      invariant forall s :: s in children <==> s in spans
      invariant forall s :: s in spans ==> children[s] == Children(spans[..i], spans, parents, s)
      invariant roots == Roots(spans[..i], spans, parents)
    {
      assert spans[..i + 1][..i] == spans[..i];
      var node := spans[i];
      var attached := false;
      if node in parents && parents[node] in spans {
        attached := Acyclic(node, parents[node], parents);
      }
      if attached {
        children := children[parents[node] := children[parents[node]] + [node]];
      } else {
        roots := roots + [node];
      }
    }
    assert spans[..|spans|] == spans;
  }

  // ---------- The forest ----------

  predicate NoRepeats(s: seq<SpanId>) { forall i, j :: 0 <= i < j < |s| ==> s[i] != s[j] }

  lemma {:induction false} SpansAreDistinct(members: seq<Observation>)
    ensures NoRepeats(Spans(members))
    ensures forall s :: s in Spans(members) <==> exists i :: 0 <= i < |members| && members[i].spanId == Some(s)
    ensures forall s :: s in Parents(members) ==> s in Spans(members)
  {
    if members != [] { SpansAreDistinct(members[..|members| - 1]); }
  }

  lemma {:induction false} RootsAre(spans: seq<SpanId>, all: seq<SpanId>, parents: map<SpanId, SpanId>)
    requires NoRepeats(spans)
    ensures forall s :: s in Roots(spans, all, parents) <==> s in spans && Attached(all, parents, s).None?
    ensures NoRepeats(Roots(spans, all, parents))
  {
    hide Ends;
    if spans != [] {
      RootsAre(spans[..|spans| - 1], all, parents);
      assert spans == spans[..|spans| - 1] + [spans[|spans| - 1]];
    }
  }

  lemma {:induction false} ChildrenAre(spans: seq<SpanId>, all: seq<SpanId>, parents: map<SpanId, SpanId>, p: SpanId)
    requires NoRepeats(spans)
    ensures forall s :: s in Children(spans, all, parents, p) <==> s in spans && Attached(all, parents, s) == Some(p)
    ensures NoRepeats(Children(spans, all, parents, p))
  {
    hide Ends;
    if spans != [] {
      ChildrenAre(spans[..|spans| - 1], all, parents, p);
      assert spans == spans[..|spans| - 1] + [spans[|spans| - 1]];
    }
  }

  /** `s` is reached from `r` by a path of `n` child links. */
  ghost predicate Below(children: map<SpanId, seq<SpanId>>, r: SpanId, s: SpanId, n: nat)
    decreases n
  {
    if n == 0 then r == s
    else exists p :: p in children && s in children[p] && Below(children, r, p, n - 1)
  }

  /** What the builder guarantees of a view's links. */
  ghost predicate Linked(spans: seq<SpanId>, parents: map<SpanId, SpanId>, children: map<SpanId, seq<SpanId>>,
                         roots: seq<SpanId>) {
    && NoRepeats(spans)
    && (forall s :: s in children <==> s in spans)
    && (forall s :: s in spans ==> children[s] == Children(spans, spans, parents, s))
    && roots == Roots(spans, spans, parents)
  }

  lemma {:induction false} UpFrom(parents: map<SpanId, SpanId>, s: SpanId, n: nat)
    requires s in parents
    ensures Up(parents, s, n + 1) == Up(parents, parents[s], n)
  {
    if n > 0 { UpFrom(parents, s, n - 1); } else { assert Up(parents, s, 0) == Some(s); }
  }

  lemma UpZero(parents: map<SpanId, SpanId>, s: SpanId)
    ensures Up(parents, s, 0).Some?
  {}

  /** Climbing from a span whose chain has at most `n` links ends at a root above it. */
  lemma {:induction false} RootAbove(spans: seq<SpanId>, parents: map<SpanId, SpanId>, children: map<SpanId,
                                     seq<SpanId>>,
                                     roots: seq<SpanId>, s: SpanId, n: nat) returns (r: SpanId, k: nat)
    requires Linked(spans, parents, children, roots) && s in spans
    requires Attached(spans, parents, s).Some? ==> Up(parents, s, n).None?
    ensures r in roots && Below(children, r, s, k)
    decreases n
  {
    hide Ends, Roots, Children, Up, NoRepeats;
    RootsAre(spans, spans, parents);
    if Attached(spans, parents, s).None? {
      r, k := s, 0;
    } else {
      var p := parents[s];
      ChildrenAre(spans, spans, parents, p);
      UpZero(parents, s);
      UpFrom(parents, s, n - 1);
      var above, m := RootAbove(spans, parents, children, roots, p, n - 1);
      r, k := above, m + 1;
      assert p in children && s in children[p] && Below(children, r, p, k - 1);
    }
  }

  /** Two paths down to the same span start at the same root and have the same length. */
  lemma {:induction false} OnePath(spans: seq<SpanId>, parents: map<SpanId, SpanId>, children: map<SpanId, seq<SpanId>>,
                                   roots: seq<SpanId>, s: SpanId, r: SpanId, m: nat, q: SpanId, n: nat)
    requires Linked(spans, parents, children, roots)
    requires r in roots && q in roots && Below(children, r, s, m) && Below(children, q, s, n)
    ensures r == q && m == n
    decreases m
  {
    hide Ends, Roots, Children, NoRepeats, Attached;
    RootsAre(spans, spans, parents);
    if m > 0 {
      var p :| p in children && s in children[p] && Below(children, r, p, m - 1);
      ChildrenAre(spans, spans, parents, p);
      assert n > 0;
      var t :| t in children && s in children[t] && Below(children, q, t, n - 1);
      ChildrenAre(spans, spans, parents, t);
      OnePath(spans, parents, children, roots, p, r, m - 1, q, n - 1);
    } else if n > 0 {
      var t :| t in children && s in children[t] && Below(children, q, t, n - 1);
      ChildrenAre(spans, spans, parents, t);
    }
  }

  /** Every span of the view is reached from exactly one root, by exactly one length of path. */
  lemma EverySpanHasOneRoot(spans: seq<SpanId>, parents: map<SpanId, SpanId>, children: map<SpanId, seq<SpanId>>,
                            roots: seq<SpanId>, s: SpanId) returns (r: SpanId, k: nat)
    requires Linked(spans, parents, children, roots) && s in spans
    ensures r in roots && Below(children, r, s, k)
    ensures forall q, n: nat :: q in roots && Below(children, q, s, n) ==> q == r && n == k
  {
    var n: nat := 0;
    if Attached(spans, parents, s).Some? {
      var m: nat :| Up(parents, s, m).None?;
      n := m;
    }
    r, k := RootAbove(spans, parents, children, roots, s, n);
    forall q, n: nat | q in roots && Below(children, q, s, n) ensures q == r && n == k {
      OnePath(spans, parents, children, roots, s, r, k, q, n);
    }
  }

  /** Every span hangs in one place: among the roots or under one parent, once. */
  lemma EverySpanHasOnePlace(spans: seq<SpanId>, parents: map<SpanId, SpanId>, children: map<SpanId, seq<SpanId>>,
                             roots: seq<SpanId>, s: SpanId)
    requires Linked(spans, parents, children, roots) && s in spans
    ensures NoRepeats(roots) && forall p :: p in children ==> NoRepeats(children[p])
    ensures forall p, q :: p in children && q in children && s in children[p] && s in children[q] ==> p == q
    ensures s in roots <==> !exists p :: p in children && s in children[p]
    ensures s !in roots ==> s in parents && parents[s] in children && s in children[parents[s]]
  {
    hide Ends;
    RootsAre(spans, spans, parents);
    forall p
      ensures forall t :: t in Children(spans, spans, parents, p) <==>
          t in spans && Attached(spans, parents, t) == Some(p)
    {
      ChildrenAre(spans, spans, parents, p);
    }
    forall p | p in children ensures NoRepeats(children[p]) { ChildrenAre(spans, spans, parents, p); }
    if s !in roots { assert s in children[parents[s]]; }
  }

  /** How often a record occurs. */
  function Times(obs: seq<Observation>, o: Observation): nat {
    if obs == [] then 0 else Times(obs[..|obs| - 1], o) + if obs[|obs| - 1] == o then 1 else 0
  }

  /** Every record of the trace with a span is in the group of that span and in no other; the others are unspanned. */
  lemma {:induction false} EveryRecordHasOneGroup(members: seq<Observation>, o: Observation, span: Option<SpanId>)
    ensures Times(InSpan(members, span), o) == if o.spanId == span then Times(members, o) else 0
  {
    if members != [] {
      var front, last := members[..|members| - 1], members[|members| - 1];
      EveryRecordHasOneGroup(front, o, span);
      var was, now := InSpan(front, span), InSpan(members, span);
      if last.spanId == span {
        assert now == was + [last] && now[..|now| - 1] == was;
        assert Times(now, o) == Times(was, o) + if last == o then 1 else 0;
      } else {
        assert now == was;
      }
    }
  }

  lemma {:induction false} TimesOfTrace(obs: seq<Observation>, traceId: Text, o: Observation)
    ensures Times(OfTrace(obs, traceId), o) == if o.traceId == Some(traceId) then Times(obs, o) else 0
  {
    if obs != [] {
      var front, last := obs[..|obs| - 1], obs[|obs| - 1];
      TimesOfTrace(front, traceId, o);
      var was, now := OfTrace(front, traceId), OfTrace(obs, traceId);
      if last.traceId == Some(traceId) {
        assert now == was + [last] && now[..|now| - 1] == was;
        assert Times(now, o) == Times(was, o) + if last == o then 1 else 0;
      } else {
        assert now == was;
      }
    }
  }

  lemma {:induction false} TimesIsMultiplicity(obs: seq<Observation>, o: Observation)
    ensures Times(obs, o) == multiset(obs)[o]
  {
    if obs != [] {
      TimesIsMultiplicity(obs[..|obs| - 1], o);
      assert obs == obs[..|obs| - 1] + [obs[|obs| - 1]];
    }
  }

  /** Selecting the trace from the ordered records keeps each of its records as often as it was stored. */
  lemma TraceKeepsRecords(observations: seq<Observation>, traceId: Text, o: Observation)
    ensures Times(OfTrace(Order(observations), traceId), o) == if o.traceId == Some(traceId)
        then Times(observations, o) else 0
  {
    OrderIsStable(observations, 0);
    TimesOfTrace(Order(observations), traceId, o);
    TimesIsMultiplicity(Order(observations), o);
    TimesIsMultiplicity(observations, o);
  }

  /**
   * A group holds a stored record as often as it was stored when trace and span are its own, and otherwise not at all.
   */
  lemma GroupHolds(observations: seq<Observation>, traceId: Text, span: Option<SpanId>, o: Observation)
    ensures Times(InSpan(OfTrace(Order(observations), traceId), span), o) ==
            if o.traceId == Some(traceId) && o.spanId == span then Times(observations, o) else 0
  {
    hide OfTrace, InSpan, Order, Times;
    TraceKeepsRecords(observations, traceId, o);
    EveryRecordHasOneGroup(OfTrace(Order(observations), traceId), o, span);
  }

  lemma {:induction false} RecordNamesSpan(members: seq<Observation>, o: Observation)
    requires Times(members, o) > 0 && o.spanId.Some?
    ensures o.spanId.value in Spans(members)
  {
    var front, last := members[..|members| - 1], members[|members| - 1];
    if last != o { RecordNamesSpan(front, o); }
  }

  /**
   * What the built view shows of one stored record of the trace. With a span it is in the group of that span, as often
   * as it was stored, in no other group and not among the unspanned records; and that group's node is below exactly one
   * root, at exactly one depth. Without a span it is among the unspanned records and in no group.
   */
  lemma EveryRecordHasOneNode(view: View, observations: seq<Observation>, traceId: Text, o: Observation)
    requires Shows(view, observations, traceId) && o.traceId == Some(traceId) && Times(observations, o) > 0
    ensures forall s :: s in view.groups ==> Times(view.groups[s], o) == if o.spanId == Some(s)
        then Times(observations, o) else 0
    ensures Times(view.unspanned, o) == if o.spanId.None? then Times(observations, o) else 0
    ensures o.spanId.Some? ==>
      && o.spanId.value in view.groups
      && exists r, k: nat :: r in view.roots && Below(view.children, r, o.spanId.value, k)
           && forall q, n: nat :: q in view.roots && Below(view.children, q, o.spanId.value, n) ==> q == r && n == k
  {
    hide OfTrace, InSpan, Order, Times, Linked, Below;
    var members := OfTrace(Order(observations), traceId);
    forall s | s in view.groups
      ensures Times(view.groups[s], o) == if o.spanId == Some(s) then Times(observations, o) else 0
    {
      GroupHolds(observations, traceId, Some(s), o);
    }
    GroupHolds(observations, traceId, None, o);
    if o.spanId.Some? {
      TraceKeepsRecords(observations, traceId, o);
      RecordNamesSpan(members, o);
      var r, k := EverySpanHasOneRoot(view.spans, view.parents, view.children, view.roots, o.spanId.value);
    }
  }

  /** The builder's result is such a forest. */
  lemma ViewIsLinked(members: seq<Observation>, children: map<SpanId, seq<SpanId>>, roots: seq<SpanId>)
    requires forall s :: s in children <==> s in Spans(members)
    requires forall s :: s in Spans(members) ==>
        children[s] == Children(Spans(members), Spans(members), Parents(members), s)
    requires roots == Roots(Spans(members), Spans(members), Parents(members))
    ensures Linked(Spans(members), Parents(members), children, roots)
  {
    SpansAreDistinct(members);
  }
}
