/** The fault engine: which rules apply to a probe, how often, and what the combined decision is. */
module FaultEngine {
  import opened Outcomes

  datatype Point = NetworkRequest | NetworkResponse | MessageDelivery | DatabaseCommit
  datatype Effect = Delay(duration: nat) | Drop | Disconnect | Fail | Duplicate(additionalCopies: nat, spacing: nat)

  datatype Rule = Rule(id: string, point: Point, source: Option<string>, target: Option<string>, name: Option<string>,
                       from: nat,
                       until: Option<nat>, occurrence: Option<nat>, probability: real, maxApplications: nat,
                           effect: Effect)

  datatype Probe = Probe(point: Point, subjectId: string, source: string, target: string, name: string)
  datatype Counters = Counters(candidates: nat, applications: nat)
  datatype Decision = Decision(ruleIds: seq<string>, extraDelay: nat, drop: bool, additionalCopies: nat,
                               copySpacing: nat, fail: bool)

  // ---------- Rules ----------

  predicate EffectFits(point: Point, effect: Effect) {
    match effect
    case Fail => point.DatabaseCommit?
    case Duplicate(copies, _) => point.MessageDelivery? && 0 < copies <= 16
    case Disconnect => point.NetworkRequest?
    case _ => !point.DatabaseCommit?
  }

  predicate Known(o: Option<string>, components: set<string>) { o.Some? ==> o.value in components }

  /** `#rule` accepts it. */
  predicate ValidRule(r: Rule, components: set<string>) {
    && r.id != "" && Known(r.source, components) && Known(r.target, components)
    && (r.name.Some? ==> r.name.value != "") && (r.until.Some? ==> r.from < r.until.value)
    && (r.occurrence.Some? ==> r.occurrence.value > 0) && 0.0 <= r.probability <= 1.0 && r.maxApplications > 0
    && EffectFits(r.point, r.effect)
  }

  predicate Fits(o: Option<string>, value: string) { o.Some? ==> o.value == value }

  /** The rule is a candidate for the probe at this time. */
  predicate Matches(r: Rule, probe: Probe, now: nat) {
    && r.point == probe.point && Fits(r.source, probe.source) && Fits(r.target, probe.target)
    && Fits(r.name, probe.name)
    && r.from <= now && (r.until.Some? ==> now < r.until.value)
  }

  predicate Compatible(a: Option<string>, b: Option<string>) { a.Some? && b.Some? ==> a == b }

  /** `overlaps`. */
  predicate Overlaps(a: Rule, b: Rule) {
    && a.point == b.point && Compatible(a.source, b.source) && Compatible(a.target, b.target)
    && Compatible(a.name, b.name)
    && (a.until.Some? ==> b.from < a.until.value) && (b.until.Some? ==> a.from < b.until.value)
  }

  /** What `evaluate` demands of a probe. */
  predicate ValidProbe(components: set<string>, probe: Probe) {
    probe.subjectId != "" && probe.source in components && probe.target in components && probe.name != ""
  }

  function Pick(a: Option<string>, b: Option<string>, other: string): string {
    if a.Some? then a.value else if b.Some? then b.value else other
  }

  /** Some probe that `evaluate` takes is at some time a candidate for both rules. */
  ghost predicate ShareAProbe(components: set<string>, a: Rule, b: Rule) {
    exists probe, now :: ValidProbe(components, probe) && Matches(a, probe, now) && Matches(b, probe, now)
  }

  /**
   * The static check is exact wherever there are components at all: two accepted rules overlap if and only if some
   * probe that `evaluate` takes is at some time a candidate for both. Without components no probe is taken, overlap or
   * not.
   */
  lemma OverlapsMeansShared(components: set<string>, a: Rule, b: Rule)
    requires ValidRule(a, components) && ValidRule(b, components)
    ensures ShareAProbe(components, a, b) <==> Overlaps(a, b) && components != {}
  {
    if Overlaps(a, b) && components != {} {
      var c :| c in components;
      var probe := Probe(a.point, "s", Pick(a.source, b.source, c), Pick(a.target, b.target, c),
                         Pick(a.name, b.name, "x"));
      var now := if a.from < b.from then b.from else a.from;
      assert ValidProbe(components, probe) && Matches(a, probe, now) && Matches(b, probe, now);
    }
  }

  /** Two rules that are candidates for one probe, taken or not, overlap. */
  lemma MatchingOverlaps(a: Rule, b: Rule, probe: Probe, now: nat)
    requires Matches(a, probe, now) && Matches(b, probe, now)
    ensures Overlaps(a, b)
  {}

  predicate Clashes(a: Rule, b: Rule) { a.effect.Duplicate? && b.effect.Duplicate? && Overlaps(a, b) }

  /** What the constructor accepts. */
  predicate Accepted(rules: seq<Rule>, components: set<string>) {
    && (forall i :: 0 <= i < |rules| ==> ValidRule(rules[i], components))
    && (forall i, j :: 0 <= i < j < |rules| ==> rules[i].id != rules[j].id)
    && (forall i, j :: 0 <= i < j < |rules| ==> !Clashes(rules[i], rules[j]))
  }

  /** Accepted rules never let two duplications meet: at most one matches any probe at any time. */
  lemma OneDuplicate(rules: seq<Rule>, components: set<string>, probe: Probe, now: nat, i: nat, j: nat)
    requires Accepted(rules, components) && i < |rules| && j < |rules|
    requires rules[i].effect.Duplicate? && rules[j].effect.Duplicate? && Matches(rules[i], probe, now)
    requires Matches(rules[j], probe, now)
    ensures i == j
  {
    assert ValidRule(rules[i], components) && ValidRule(rules[j], components);
    if i < j { MatchingOverlaps(rules[i], rules[j], probe, now); NotClashing(rules, components, i, j); }
    if j < i { MatchingOverlaps(rules[j], rules[i], probe, now); NotClashing(rules, components, j, i); }
  }

  lemma NotClashing(rules: seq<Rule>, components: set<string>, i: nat, j: nat)
    requires Accepted(rules, components) && i < j < |rules|
    ensures !Clashes(rules[i], rules[j])
  {}

  // ---------- One rule ----------

  /** The rule is drawn for: it matches, it is at its occurrence, and it has applications left. */
  predicate Eligible(r: Rule, c: Counters, probe: Probe, now: nat) {
    Matches(r, probe, now) && (r.occurrence.Some? ==> c.candidates + 1 == r.occurrence.value)
        && c.applications < r.maxApplications
  }

  predicate Selected(r: Rule, unit: real) { r.probability == 1.0 || (r.probability != 0.0 && unit < r.probability) }

  predicate Applies(r: Rule, c: Counters, probe: Probe, now: nat, draw: string -> real) {
    Eligible(r, c, probe, now) && Selected(r, draw(r.id))
  }

  function Count(r: Rule, c: Counters, probe: Probe, now: nat, draw: string -> real): Counters {
    Counters(if Matches(r, probe, now) then c.candidates + 1 else c.candidates,
             if Applies(r, c, probe, now, draw) then c.applications + 1 else c.applications)
  }

  // ---------- The decision ----------

  /** The rules that apply to a probe, in declaration order. */
  function Applied(rules: seq<Rule>, counters: seq<Counters>, probe: Probe, now: nat, draw: string -> real): seq<Rule>
    requires |rules| == |counters|
  {
    if rules == [] then []
    else
      var n := |rules| - 1;
      Applied(rules[..n], counters[..n], probe, now, draw) + if Applies(rules[n], counters[n], probe, now, draw)
          then [rules[n]] else []
  }

  function Ids(rules: seq<Rule>): seq<string> {
    if rules == [] then [] else Ids(rules[..|rules| - 1]) + [rules[|rules| - 1].id]
  }

  function TotalDelay(rules: seq<Rule>): nat {
    if rules == [] then 0
    else
      var last := rules[|rules| - 1].effect;
      TotalDelay(rules[..|rules| - 1]) + if last.Delay? then last.duration else 0
  }

  predicate Drops(effect: Effect) { effect.Drop? || effect.Disconnect? }

  /** What the applied rules decide together. */
  ghost predicate Decides(applied: seq<Rule>, d: Decision) {
    && d.ruleIds == Ids(applied)
    && d.extraDelay == TotalDelay(applied)
    && (d.drop <==> exists i :: 0 <= i < |applied| && Drops(applied[i].effect))
    && (d.fail <==> exists i :: 0 <= i < |applied| && applied[i].effect.Fail?)
    && (d.drop ==> d.additionalCopies == 0 && d.copySpacing == 0)
    && (!d.drop ==> Copies(applied, d.additionalCopies, d.copySpacing))
  }

  /** The copies asked for by the duplicating rules; they all ask for these. */
  ghost predicate Copies(applied: seq<Rule>, copies: nat, spacing: nat) {
    && (forall i :: 0 <= i < |applied| && applied[i].effect.Duplicate? ==>
        applied[i].effect == Duplicate(copies, spacing))
    && ((forall i :: 0 <= i < |applied| ==> !applied[i].effect.Duplicate?) ==> copies == 0 && spacing == 0)
  }

  lemma {:induction false} AppliedAre(rules: seq<Rule>, counters: seq<Counters>, probe: Probe, now: nat,
                                      draw: string -> real, x: Rule)
    requires |rules| == |counters|
    ensures x in Applied(rules, counters, probe, now, draw) <==>
            exists i :: 0 <= i < |rules| && rules[i] == x && Applies(rules[i], counters[i], probe, now, draw)
  {
    if rules != [] {
      var n := |rules| - 1;
      AppliedAre(rules[..n], counters[..n], probe, now, draw, x);
      if x in Applied(rules[..n], counters[..n], probe, now, draw) {
        var i :| 0 <= i < n && rules[..n][i] == x && Applies(rules[..n][i], counters[..n][i], probe, now, draw);
        assert rules[i] == x && Applies(rules[i], counters[i], probe, now, draw);
      }
      if i :| 0 <= i < |rules| && rules[i] == x && Applies(rules[i], counters[i], probe, now, draw) && i < n {
        assert rules[..n][i] == x && Applies(rules[..n][i], counters[..n][i], probe, now, draw);
      }
    }
  }

  /** A rule that applies matches the probe. */
  lemma AppliedMatch(rules: seq<Rule>, counters: seq<Counters>, probe: Probe, now: nat, draw: string -> real, x: Rule)
    requires |rules| == |counters| && x in Applied(rules, counters, probe, now, draw)
    ensures x in rules && Matches(x, probe, now)
  {
    AppliedAre(rules, counters, probe, now, draw, x);
  }

  /** Two applied duplications are one rule, so the order of the rules does not decide how many copies are made. */
  lemma AppliedDuplicatesAgree(rules: seq<Rule>, components: set<string>, counters: seq<Counters>, probe: Probe,
                               now: nat, draw: string -> real, a: Rule, b: Rule)
    requires Accepted(rules, components) && |rules| == |counters|
    requires a in Applied(rules, counters, probe, now, draw) && b in Applied(rules, counters, probe, now, draw)
    requires a.effect.Duplicate? && b.effect.Duplicate?
    ensures a == b
  {
    AppliedMatch(rules, counters, probe, now, draw, a);
    AppliedMatch(rules, counters, probe, now, draw, b);
    var i :| 0 <= i < |rules| && rules[i] == a;
    var j :| 0 <= j < |rules| && rules[j] == b;
    OneDuplicate(rules, components, probe, now, i, j);
  }

  /** A commit can only be failed, and nothing but a commit can be: the owners never see an effect of another point. */
  lemma DecisionsFitTheirPoint(rules: seq<Rule>, components: set<string>, counters: seq<Counters>, probe: Probe,
                               now: nat, draw: string -> real, d: Decision)
    requires Accepted(rules, components) && |rules| == |counters|
    requires Decides(Applied(rules, counters, probe, now, draw), d)
    ensures probe.point.DatabaseCommit? ==>
        !d.drop && d.extraDelay == 0 && d.additionalCopies == 0
        && d.copySpacing == 0
    ensures !probe.point.DatabaseCommit? ==> !d.fail
    ensures !probe.point.MessageDelivery? ==> d.additionalCopies == 0 && d.copySpacing == 0
  {
    var applied := Applied(rules, counters, probe, now, draw);
    forall i | 0 <= i < |applied| ensures EffectFits(probe.point, applied[i].effect) {
      assert applied[i] in applied;
      AppliedMatch(rules, counters, probe, now, draw, applied[i]);
    }
    if probe.point.DatabaseCommit? { NoDelay(applied); }
  }

  lemma {:induction false} NoDelay(rules: seq<Rule>)
    requires forall i :: 0 <= i < |rules| ==> !rules[i].effect.Delay?
    ensures TotalDelay(rules) == 0
  {
    if rules != [] { NoDelay(rules[..|rules| - 1]); }
  }

  /** The counters while the rules below `i` have been looked at. */
  predicate CountedTo(rules: seq<Rule>, before: seq<Counters>, counters: seq<Counters>, probe: Probe, now: nat,
                      draw: string -> real, i: nat) {
    && |counters| == |rules| == |before|
    && forall k :: 0 <= k < |rules| ==> counters[k] == if k < i then Count(rules[k], before[k], probe, now, draw)
        else before[k]
  }

  lemma CountedNext(rules: seq<Rule>, before: seq<Counters>, counters: seq<Counters>, probe: Probe, now: nat,
                    draw: string -> real, i: nat)
    requires CountedTo(rules, before, counters, probe, now, draw, i) && i < |rules|
    ensures |counters| == |rules| == |before| && counters[i] == before[i]
    ensures CountedTo(rules, before, counters[i := Count(rules[i], before[i], probe, now, draw)], probe, now, draw, i
                      + 1)
  {
    hide Count;
  }

  lemma AppliesMatches(r: Rule, c: Counters, probe: Probe, now: nat, draw: string -> real)
    requires Applies(r, c, probe, now, draw)
    ensures Matches(r, probe, now)
  {}

  lemma AppliedStep(rules: seq<Rule>, counters: seq<Counters>, probe: Probe, now: nat, draw: string -> real, i: nat)
    requires |rules| == |counters| && i < |rules|
    ensures Applied(rules[..i + 1], counters[..i + 1], probe, now, draw)
         == Applied(rules[..i], counters[..i], probe, now, draw) + if Applies(rules[i], counters[i], probe, now, draw)
             then [rules[i]] else []
  {
    assert rules[..i + 1][..i] == rules[..i] && counters[..i + 1][..i] == counters[..i];
  }

  /** What the evaluation has gathered from the rules applied so far. */
  ghost predicate Gathered(applied: seq<Rule>, ids: seq<string>, extraDelay: nat, drop: bool, failed: bool,
                           copies: nat, spacing: nat) {
    && ids == Ids(applied) && extraDelay == TotalDelay(applied)
    && (drop <==> exists k :: 0 <= k < |applied| && Drops(applied[k].effect))
    && (failed <==> exists k :: 0 <= k < |applied| && applied[k].effect.Fail?)
    && Copies(applied, copies, spacing)
  }

  lemma NothingApplied()
    ensures Gathered([], [], 0, false, false, 0, 0)
  {}

  lemma GatheredDecides(applied: seq<Rule>, ids: seq<string>, extraDelay: nat, drop: bool, failed: bool, copies: nat,
                        spacing: nat)
    requires Gathered(applied, ids, extraDelay, drop, failed, copies, spacing)
    ensures Decides(applied,
                    Decision(ids, extraDelay, drop, if drop then 0 else copies, if drop then 0 else spacing, failed))
  {}

  lemma GatheredMore(applied: seq<Rule>, ids: seq<string>, extraDelay: nat, drop: bool, failed: bool, copies: nat,
                     spacing: nat, rule: Rule)
    requires Gathered(applied, ids, extraDelay, drop, failed, copies, spacing)
    requires rule.effect.Duplicate? ==> forall k :: 0 <= k < |applied| ==> !applied[k].effect.Duplicate?
    ensures Gathered(applied + [rule], ids + [rule.id],
                     if rule.effect.Delay? then extraDelay + rule.effect.duration else extraDelay,
                     drop || Drops(rule.effect), failed || rule.effect.Fail?,
                     if rule.effect.Duplicate? then rule.effect.additionalCopies else copies,
                     if rule.effect.Duplicate? then rule.effect.spacing else spacing)
  {
    var all := applied + [rule];
    assert all[..|all| - 1] == applied && all[|all| - 1] == rule;
    assert forall k :: 0 <= k < |applied| ==> all[k] == applied[k];
  }

  // ---------- The engine ----------

  class DeterministicFaultEngine {
    const rules: seq<Rule>
    const components: set<string>
    var counters: seq<Counters>
    var probes: set<(Point, string)>

    ghost predicate Valid()
      reads this
    {
      Accepted(rules, components) && |counters| == |rules| && forall i :: 0 <= i < |rules| ==>
          CountersOk(rules[i], counters[i])
    }

    constructor (rules: seq<Rule>, components: set<string>)
      requires Accepted(rules, components)
      ensures Valid() && this.rules == rules && this.components == components && probes == {}
      ensures counters == seq(|rules|, i => Counters(0, 0))
    {
      this.rules, this.components, probes := rules, components, {};
      counters := seq(|rules|, i => Counters(0, 0));
    }

    /** `evaluate`: a probe identity is used once; every rule counts its candidates and applications. */
    method Evaluate(probe: Probe, now: nat, draw: string -> real) returns (r: Result<Decision>)
      requires Valid()
      modifies this`counters, this`probes
      ensures Valid()
      ensures !ValidProbe(components, probe) ==>
          r == Err(INVALID_FAULT) && probes == old(probes) && counters == old(counters)
      ensures ValidProbe(components, probe) && (probe.point, probe.subjectId) in old(probes) ==>
          r == Err(FAULT_PROBE_REUSED) && probes == old(probes) && counters == old(counters)
      ensures (ValidProbe(components, probe) && (probe.point, probe.subjectId) !in old(probes) ==>
        && r.Ok? && Decides(Applied(rules, old(counters), probe, now, draw), r.value)
        && probes == old(probes) + {(probe.point, probe.subjectId)}
        && counters == Counted(rules, old(counters), probe, now, draw))
    {
      if !ValidProbe(components, probe) { return Err(INVALID_FAULT); }
      if (probe.point, probe.subjectId) in probes { return Err(FAULT_PROBE_REUSED); }
      probes := probes + {(probe.point, probe.subjectId)};
      var d := Decide(probe, now, draw);
      r := Ok(d);
    }

    /** One rule counts the probe and says whether it applies. */
    method Consider(i: nat, probe: Probe, now: nat, draw: string -> real) returns (selected: bool)
      requires i < |rules| == |counters|
      modifies this`counters
      ensures counters == old(counters)[i := Count(rules[i], old(counters)[i], probe, now, draw)]
      ensures selected == Applies(rules[i], old(counters)[i], probe, now, draw)
    {
      var rule, state := rules[i], counters[i];
      if !Matches(rule, probe, now) { return false; }
      var ordinal := state.candidates + 1;
      counters := counters[i := Counters(ordinal, state.applications)];
      if (rule.occurrence.Some? && ordinal != rule.occurrence.value) || state.applications >= rule.maxApplications {
        return false;
      }
      if !Selected(rule, draw(rule.id)) { return false; }
      counters := counters[i := Counters(ordinal, state.applications + 1)];
      selected := true;
    }

    method Decide(probe: Probe, now: nat, draw: string -> real) returns (d: Decision)
      requires Valid()
      modifies this`counters
      ensures Valid() && counters == Counted(rules, old(counters), probe, now, draw)
      ensures Decides(Applied(rules, old(counters), probe, now, draw), d)
    {
      hide Matches, ValidRule, Selected, Gathered, CountersOk, Decides, Eligible, Count, Accepted;
      var before := counters;
      var ids: seq<string>, extraDelay: nat, additionalCopies: nat, copySpacing: nat, drop, failed :=
          [], 0, 0, 0, false, false;
      ghost var applied: seq<Rule> := [];
      assert rules[..0] == [] && before[..0] == [];
      NothingApplied();
      CountedAre(rules, before, probe, now, draw);
      for i := 0 to |rules|
        invariant CountedTo(rules, before, counters, probe, now, draw, i)
        invariant applied == Applied(rules[..i], before[..i], probe, now, draw)
        invariant Gathered(applied, ids, extraDelay, drop, failed, additionalCopies, copySpacing)
      {
        hide Applied, CountedTo, Counted;
        AppliedStep(rules, before, probe, now, draw, i);
        CountedNext(rules, before, counters, probe, now, draw, i);
        var rule := rules[i];
        var selected := Consider(i, probe, now, draw);
        if !selected { continue; }
        AppliesMatches(rule, before[i], probe, now, draw);
        DuplicatesSoFar(rules, components, before, probe, now, draw, i, applied);
        GatheredMore(applied, ids, extraDelay, drop, failed, additionalCopies, copySpacing, rule);
        match rule.effect {
          case Delay(duration) => extraDelay := extraDelay + duration;
          case Drop => drop := true;
          case Disconnect => drop := true;
          case Fail => failed := true;
          case Duplicate(copies, spacing) => additionalCopies, copySpacing := copies, spacing;
        }
        ids := ids + [rule.id];
        applied := applied + [rule];
      }
      assert rules[..|rules|] == rules && before[..|before|] == before;
      d := Decision(ids, extraDelay, drop, if drop then 0 else additionalCopies, if drop then 0
                    else copySpacing, failed);
      GatheredDecides(applied, ids, extraDelay, drop, failed, additionalCopies, copySpacing);
    }

    method Reset()
      requires Valid()
      modifies this`counters, this`probes
      ensures Valid() && probes == {} && counters == seq(|rules|, i => Counters(0, 0))
    {
      probes := {};
      counters := seq(|rules|, i => Counters(0, 0));
    }
  }

  /** No earlier rule that applied to the probe duplicates when this one does. */
  lemma DuplicatesSoFar(rules: seq<Rule>, components: set<string>, counters: seq<Counters>, probe: Probe, now: nat,
                        draw: string -> real, i: nat, was: seq<Rule>)
    requires Accepted(rules, components) && |rules| == |counters| && i < |rules| && Matches(rules[i], probe, now)
    requires was == Applied(rules[..i], counters[..i], probe, now, draw)
    ensures rules[i].effect.Duplicate? ==> forall k :: 0 <= k < |was| ==> !was[k].effect.Duplicate?
  {
    if rules[i].effect.Duplicate? {
      forall k | 0 <= k < |was| ensures !was[k].effect.Duplicate? {
        assert was[k] in was;
        AppliedAre(rules[..i], counters[..i], probe, now, draw, was[k]);
        var j :| 0 <= j < i && rules[..i][j] == was[k] && Applies(rules[..i][j], counters[..i][j], probe, now, draw);
        assert rules[j] == was[k];
        if was[k].effect.Duplicate? { OneDuplicate(rules, components, probe, now, i, j); }
      }
    }
  }

  function Counted(rules: seq<Rule>, counters: seq<Counters>, probe: Probe, now: nat,
                   draw: string -> real): seq<Counters>
    requires |rules| == |counters|
  { seq(|rules|, i requires 0 <= i < |rules| => Count(rules[i], counters[i], probe, now, draw)) }

  // ---------- Budgets ----------

  /**
   * A rule never applies more often than it may, nor more often than it was a candidate; a rule for one occurrence
   * applies once.
   */
  predicate CountersOk(r: Rule, c: Counters) {
    && c.applications <= r.maxApplications && c.applications <= c.candidates
    && (r.occurrence.Some? ==> c.applications <= if c.candidates < r.occurrence.value then 0 else 1)
  }

  lemma CountedAre(rules: seq<Rule>, counters: seq<Counters>, probe: Probe, now: nat, draw: string -> real)
    requires |rules| == |counters| && forall i :: 0 <= i < |rules| ==> CountersOk(rules[i], counters[i])
    ensures forall i :: 0 <= i < |rules| ==> CountersOk(rules[i], Counted(rules, counters, probe, now, draw)[i])
  {
    hide Matches, Selected;
  }

  datatype Evaluation = Evaluation(probe: Probe, now: nat, draw: string -> real)

  /** The counters after some evaluations. */
  function Run(rules: seq<Rule>, evaluations: seq<Evaluation>): (counters: seq<Counters>)
    ensures |counters| == |rules|
  {
    if evaluations == [] then seq(|rules|, i => Counters(0, 0))
    else
      var e := evaluations[|evaluations| - 1];
      Counted(rules, Run(rules, evaluations[..|evaluations| - 1]), e.probe, e.now, e.draw)
  }

  /** How many of the evaluated probes the rule matched. */
  function Candidates(r: Rule, evaluations: seq<Evaluation>): nat {
    if evaluations == [] then 0
    else
      var e := evaluations[|evaluations| - 1];
      Candidates(r, evaluations[..|evaluations| - 1]) + if Matches(r, e.probe, e.now) then 1 else 0
  }

  /** How many of the decisions list rule `i`. */
  function Uses(rules: seq<Rule>, evaluations: seq<Evaluation>, i: nat): nat
    requires i < |rules|
  {
    if evaluations == [] then 0
    else
      var front := evaluations[..|evaluations| - 1];
      var e := evaluations[|evaluations| - 1];
      Uses(rules, front, i) + if Applies(rules[i], Run(rules, front)[i], e.probe, e.now, e.draw) then 1 else 0
  }

  /** Over any run, the counters count, and the uses of a rule stay within its budget. */
  lemma {:induction false} BudgetsHold(rules: seq<Rule>, evaluations: seq<Evaluation>, i: nat)
    requires i < |rules|
    ensures Run(rules, evaluations)[i] == Counters(Candidates(rules[i], evaluations), Uses(rules, evaluations, i))
    ensures CountersOk(rules[i], Run(rules, evaluations)[i])
    ensures Uses(rules, evaluations, i) <= rules[i].maxApplications
    ensures Uses(rules, evaluations, i) <= Candidates(rules[i], evaluations)
    ensures rules[i].occurrence.Some? ==> Uses(rules, evaluations, i) <= 1
  {
    hide Matches, Selected;
    if evaluations != [] { BudgetsHold(rules, evaluations[..|evaluations| - 1], i); }
  }

  // ---------- What probability, occurrence and budget mean ----------

  /** A draw from the unit interval selects a rule exactly when it falls into the first `probability` of it. */
  lemma DrawSelects(r: Rule, unit: real)
    requires 0.0 <= r.probability <= 1.0 && 0.0 <= unit < 1.0
    ensures Selected(r, unit) <==> unit < r.probability
  {}

  /** How often a rule that is always selected applies among this many candidates. */
  function CertainUses(r: Rule, candidates: nat): nat {
    if r.occurrence.Some? then (if candidates < r.occurrence.value then 0 else 1)
    else if candidates < r.maxApplications then candidates else r.maxApplications
  }

  /**
   * Over any run, a rule of probability one applies to each probe it matches until its budget is used up, or to its one
   * occurrence exactly; a rule of probability zero never applies.
   */
  lemma {:induction false} CertainRulesApply(rules: seq<Rule>, evaluations: seq<Evaluation>, i: nat,
                                             components: set<string>)
    requires i < |rules| && ValidRule(rules[i], components)
    ensures rules[i].probability == 1.0 ==>
        Uses(rules, evaluations, i) == CertainUses(rules[i], Candidates(rules[i], evaluations))
    ensures rules[i].probability == 0.0 ==> Uses(rules, evaluations, i) == 0
  {
    hide Matches;
    BudgetsHold(rules, evaluations, i);
    if evaluations != [] {
      var front := evaluations[..|evaluations| - 1];
      BudgetsHold(rules, front, i);
      CertainRulesApply(rules, front, i, components);
    }
  }
}
