/** The reader's filter: drafts of text, the query a draft parses to, and the reveal that drops what hides a record. */
module TimelineQuery {
  import opened Outcomes
  import opened Canonical
  import opened Texts
  import opened Integers
  import opened Records

  datatype Mode = Exact | Prefix | Contains
  datatype Field = Field(text: Text, mode: Mode)
  datatype Criterion = Criterion(value: Text, mode: Mode)

  datatype Draft = Draft(fromTime: Text, toTime: Text, kind: Field, component: Field, traceId: Field, eventId: Field,
                         entityKind: Field, entityId: Field)

  datatype Query = Query(fromTime: Option<nat>, toTime: Option<nat>, kind: Option<Criterion>,
                         component: Option<Criterion>,
                         traceId: Option<Criterion>, eventId: Option<Criterion>, entityKind: Option<Criterion>,
                             entityId: Option<Criterion>)

  datatype Problem = BadFrom | BadTo | Inverted
  datatype Parsed = Good(query: Query) | Bad(problem: Problem)

  const BLANK: Field := Field([], Exact)
  const EMPTY_DRAFT: Draft := Draft([], [], BLANK, BLANK, BLANK, BLANK, BLANK, BLANK)
  const EMPTY_QUERY: Query := Query(None, None, None, None, None, None, None, None)

  // ---------- Parsing ----------

  datatype WholeTime = Absent | Invalid | At(time: nat)

  /** `wholeTime`, and what `bound` accepts. */
  function TimeOf(value: Text): WholeTime {
    var t := Trim(value);
    if t == [] then Absent
    else if !IsWhole(t) || DigitsValue(t) > MAX_SAFE then Invalid
    else At(DigitsValue(t))
  }

  /** A bound is read as a time exactly when its trimmed text is the decimal rendering of a safe whole number. */
  lemma TimeIsDecimal(value: Text, n: nat)
    ensures TimeOf(value) == At(n) <==> n <= MAX_SAFE && Trim(value) == Digits(n)
  {
    hide Trim, Digits, DigitsValue;
    var t := Trim(value);
    if t != [] && IsWhole(t) { WholeIsDigits(t); }
    DigitsAreWhole(n);
    DigitsRoundTrip(n);
  }

  function CriterionOf(field: Field): Option<Criterion> {
    var t := Trim(field.text);
    if t == [] then None else Some(Criterion(t, field.mode))
  }

  function Bound(t: WholeTime): Option<nat> { if t.At? then Some(t.time) else None }

  /** `parseTimelineQuery`. */
  function Parse(draft: Draft): Parsed {
    var from := TimeOf(draft.fromTime);
    if from.Invalid? then Bad(BadFrom)
    else
      var to := TimeOf(draft.toTime);
      if to.Invalid? then Bad(BadTo)
      else if from.At? && to.At? && from.time > to.time then Bad(Inverted)
      else Good(Query(Bound(from), Bound(to), CriterionOf(draft.kind), CriterionOf(draft.component),
                      CriterionOf(draft.traceId),
                      CriterionOf(draft.eventId), CriterionOf(draft.entityKind), CriterionOf(draft.entityId)))
  }

  // ---------- Matching ----------

  predicate Within(needle: Text, t: Text) { exists i :: 0 <= i <= |t| && needle <= t[i..] }

  predicate MatchesText(stored: Text, c: Criterion) {
    match c.mode
    case Exact => stored == c.value
    case Prefix => c.value <= stored
    case Contains => Within(c.value, stored)
  }

  /** Exact is narrower than prefix, and prefix narrower than contains; a text matches itself in every mode. */
  lemma ModesWiden(stored: Text, value: Text)
    ensures MatchesText(stored, Criterion(value, Exact)) ==> MatchesText(stored, Criterion(value, Prefix))
    ensures MatchesText(stored, Criterion(value, Prefix)) ==> MatchesText(stored, Criterion(value, Contains))
    ensures MatchesText(stored, Criterion(value, Contains)) && |value| == |stored| ==>
        MatchesText(stored, Criterion(value, Exact))
  {
    if value <= stored { assert value <= stored[0..]; }
  }

  predicate MatchesStored(stored: Option<Text>, c: Option<Criterion>) {
    c.Some? ==> stored.Some? && MatchesText(stored.value, c.value)
  }

  predicate MatchesComponent(o: Observation, c: Option<Criterion>) {
    c.Some? ==> MatchesText(o.source, c.value) || (o.target.Some? && MatchesText(o.target.value, c.value))
  }

  predicate RefMatches(e: Entity, kind: Option<Criterion>, id: Option<Criterion>) {
    (kind.Some? ==> MatchesText(e.kind, kind.value)) && (id.Some? ==> MatchesText(e.id, id.value))
  }

  predicate MatchesEntity(o: Observation, kind: Option<Criterion>, id: Option<Criterion>) {
    (kind.None? && id.None?) || exists i :: 0 <= i < |o.entityRefs| && RefMatches(o.entityRefs[i], kind, id)
  }

  /** `matchesQuery`. */
  predicate MatchesQuery(o: Observation, q: Query) {
    && (q.fromTime.Some? ==> q.fromTime.value <= o.time)
    && (q.toTime.Some? ==> o.time <= q.toTime.value)
    && MatchesStored(Some(o.kind), q.kind)
    && MatchesComponent(o, q.component)
    && MatchesStored(o.traceId, q.traceId)
    && MatchesStored(o.eventId, q.eventId)
    && MatchesEntity(o, q.entityKind, q.entityId)
  }

  function Select(obs: seq<Observation>, q: Query): (rows: seq<Observation>)
    ensures forall o :: o in rows <==> o in obs && MatchesQuery(o, q)
  {
    if obs == [] then [] else (if MatchesQuery(obs[0], q) then [obs[0]] else []) + Select(obs[1..], q)
  }

  /** `queryTimeline`. */
  function Rows(obs: seq<Observation>, q: Query): seq<Observation> { Select(Order(obs), q) }

  lemma RowsAre(obs: seq<Observation>, q: Query, o: Observation)
    ensures o in Rows(obs, q) <==> o in obs && MatchesQuery(o, q)
  {
    OrderIsStable(obs, 0);
    assert o in Order(obs) <==> o in multiset(Order(obs));
    assert o in obs <==> o in multiset(obs);
  }

  // ---------- Reveal ----------

  datatype Label = FromLabel | ToLabel | KindLabel | ComponentLabel | TraceLabel | EventLabel | EntityLabel

  predicate FromAdmits(draft: Draft, o: Observation) {
    match TimeOf(draft.fromTime) case Absent => true case Invalid => false case At(t) => t <= o.time
  }

  predicate ToAdmits(draft: Draft, o: Observation) {
    match TimeOf(draft.toTime) case Absent => true case Invalid => false case At(t) => o.time <= t
  }

  predicate EntityAdmits(draft: Draft, o: Observation) {
    MatchesEntity(o, CriterionOf(draft.entityKind), CriterionOf(draft.entityId))
  }

  /** The draft parses, and the query it parses to keeps the record. */
  predicate Admits(draft: Draft, o: Observation) {
    Parse(draft).Good? && MatchesQuery(o, Parse(draft).query)
  }

  function KeepIf(admits: bool, field: Field): Field { if admits then field else BLANK }

  /** A part of the entity constraint goes only when it says something. */
  function EntityPart(admits: bool, field: Field): Field { if admits || Trim(field.text) == [] then field else BLANK }

  /** The draft without exactly the constraints that exclude the record. */
  function Relaxed(draft: Draft, o: Observation): Draft {
    Draft(if FromAdmits(draft, o) then draft.fromTime else [],
          if ToAdmits(draft, o) then draft.toTime else [],
          KeepIf(MatchesStored(Some(o.kind), CriterionOf(draft.kind)), draft.kind),
          KeepIf(MatchesComponent(o, CriterionOf(draft.component)), draft.component),
          KeepIf(MatchesStored(o.traceId, CriterionOf(draft.traceId)), draft.traceId),
          KeepIf(MatchesStored(o.eventId, CriterionOf(draft.eventId)), draft.eventId),
          EntityPart(EntityAdmits(draft, o), draft.entityKind),
          EntityPart(EntityAdmits(draft, o), draft.entityId))
  }

  /** The labels of the constraints that exclude the record. */
  function Excluding(draft: Draft, o: Observation): set<Label> {
    (if FromAdmits(draft, o) then {} else {FromLabel})
    + (if ToAdmits(draft, o) then {} else {ToLabel})
    + (if MatchesStored(Some(o.kind), CriterionOf(draft.kind)) then {} else {KindLabel})
    + (if MatchesComponent(o, CriterionOf(draft.component)) then {} else {ComponentLabel})
    + (if MatchesStored(o.traceId, CriterionOf(draft.traceId)) then {} else {TraceLabel})
    + (if MatchesStored(o.eventId, CriterionOf(draft.eventId)) then {} else {EventLabel})
    + (if EntityAdmits(draft, o) then {} else {EntityLabel})
  }

  lemma BlankIsAbsent()
    ensures TimeOf([]) == Absent && CriterionOf(BLANK) == None
  {}

  /** The relaxed draft always parses, and its query keeps the record. */
  lemma RelaxedAdmits(draft: Draft, o: Observation)
    ensures Admits(Relaxed(draft, o), o) && Parse(Relaxed(draft, o)).Good?
  {
    BlankIsAbsent();
    hide MatchesText, TimeOf, CriterionOf, MatchesStored, MatchesComponent, EntityPart;
    NoCriterionMatches(o);
    var d := Relaxed(draft, o);
    assert FromAdmits(d, o) && ToAdmits(d, o);
    EntityPartBlank(draft.entityKind);
    EntityPartBlank(draft.entityId);
  }

  lemma NoCriterionMatches(o: Observation)
    ensures MatchesComponent(o, None) && forall stored: Option<Text> :: MatchesStored(stored, None)
  {}

  lemma EntityPartBlank(field: Field)
    ensures CriterionOf(EntityPart(false, field)) == None && EntityPart(true, field) == field
  {}

  /** A draft that admits the record is left as it is, and only such a draft. */
  lemma AdmittedIsUntouched(draft: Draft, o: Observation)
    ensures Admits(draft, o) <==> Excluding(draft, o) == {}
    ensures Admits(draft, o) ==> Relaxed(draft, o) == draft
  {
    hide MatchesText, TimeOf, CriterionOf;
  }

  datatype Reveal = Reveal(draft: Draft, query: Query, cleared: seq<Label>, changed: bool)

  predicate NoRepeats(labels: seq<Label>) { forall i, j :: 0 <= i < j < |labels| ==> labels[i] != labels[j] }

  function Labels(cleared: seq<Label>): set<Label> { set l | l in cleared }

  /** Adds a label once. */
  function Note(cleared: seq<Label>, name: Label): (r: seq<Label>)
    ensures Labels(r) == Labels(cleared) + {name}
    ensures NoRepeats(cleared) ==> NoRepeats(r)
  { if name in cleared then cleared else cleared + [name] }

  /**
   * `revealTimelineObservation`. The branch for a draft that still does not parse after the time checks never runs:
   * bounds that both admit the record cannot be inverted.
   */
  method RevealObservation(draft: Draft, o: Observation) returns (r: Reveal)
    ensures r.draft == Relaxed(draft, o) && Parse(r.draft) == Good(r.query)
    ensures NoRepeats(r.cleared) && Labels(r.cleared) == Excluding(draft, o)
    ensures r.changed == !Admits(draft, o)
  {
    hide Parse, Relaxed, Admits, Excluding, MatchesText, TimeOf, CriterionOf, IsWhole, Trim, Note, Labels, NoRepeats;
    hide MatchesStored, MatchesComponent, MatchesEntity, MatchesQuery;
    var next, cleared := RevealTimes(draft, o);
    TimesApart(draft, next, o);
    var parsed := Parse(next);
    if parsed.Bad? {
      if Trim(next.fromTime) != [] { next, cleared := next.(fromTime := []), Note(cleared, FromLabel); }
      if Trim(next.toTime) != [] { next, cleared := next.(toTime := []), Note(cleared, ToLabel); }
      parsed := Parse(next);
    }
    if parsed.Good? { next, cleared := RevealTexts(next, cleared, o, parsed.query); }
    RelaxedAdmits(draft, o);
    AdmittedIsUntouched(draft, o);
    var final := Parse(next);
    r := Reveal(next, if final.Good? then final.query else EMPTY_QUERY, cleared, |cleared| > 0);
    NoLabels(cleared);
  }

  /** The time bounds and the text constraints are looked at apart. */
  lemma TimesApart(draft: Draft, other: Draft, o: Observation)
    requires other == draft.(fromTime := other.fromTime, toTime := other.toTime)
    ensures var a, b := Relaxed(draft, o), Relaxed(other, o); b == a.(fromTime := b.fromTime, toTime := b.toTime)
    ensures Excluding(other, o) - {FromLabel, ToLabel} == Excluding(draft, o) - {FromLabel, ToLabel}
  {
    hide MatchesText, TimeOf, CriterionOf, MatchesStored, MatchesComponent, Trim;
  }

  lemma NoLabels(cleared: seq<Label>)
    ensures Labels(cleared) == {} <==> |cleared| == 0
    ensures NoRepeats([]) && Labels([]) == {}
  {
    if |cleared| > 0 { assert cleared[0] in Labels(cleared); }
  }

  /** The time bounds of the reveal: first those that are not times, then those that leave the record out. */
  method RevealTimes(draft: Draft, o: Observation) returns (next: Draft, cleared: seq<Label>)
    ensures next == draft.(fromTime := Relaxed(draft, o).fromTime, toTime := Relaxed(draft, o).toTime)
    ensures Parse(next).Good? && NoRepeats(cleared)
    ensures Labels(cleared) == Excluding(draft, o) * {FromLabel, ToLabel}
  {
    hide MatchesText, TimeOf, CriterionOf, Note, Labels, NoRepeats, EntityAdmits, MatchesStored, MatchesComponent;
    BlankIsAbsent();
    NoLabels([]);
    next, cleared := draft, [];
    if TimeOf(next.fromTime).Invalid? { next, cleared := next.(fromTime := []), Note(cleared, FromLabel); }
    if TimeOf(next.toTime).Invalid? { next, cleared := next.(toTime := []), Note(cleared, ToLabel); }
    var from, to := TimeOf(next.fromTime), TimeOf(next.toTime);
    if from.At? && o.time < from.time { next, cleared := next.(fromTime := []), Note(cleared, FromLabel); }
    if to.At? && o.time > to.time { next, cleared := next.(toTime := []), Note(cleared, ToLabel); }
  }

  /** The text constraints of the reveal. */
  method RevealTexts(draft: Draft, before: seq<Label>, o: Observation, q: Query)
      returns (next: Draft, cleared: seq<Label>)
    requires Parse(draft) == Good(q) && NoRepeats(before)
    ensures next == Relaxed(draft, o).(fromTime := draft.fromTime, toTime := draft.toTime)
    ensures NoRepeats(cleared) && Labels(cleared) == Labels(before) + (Excluding(draft, o) - {FromLabel, ToLabel})
  {
    hide MatchesText, TimeOf, Note, Labels, NoRepeats, Trim, MatchesStored, MatchesComponent, MatchesEntity;
    hide CriterionOf, EntityPart, Excluding;
    var middle, noted := RevealNames(draft, before, o, q);
    var linked, more := RevealLinks(middle, noted, o, q);
    next, cleared := RevealEntity(linked, more, o, q);
    ExcludingTexts(draft, o, q);
    EntityAdmitsReads(draft, linked, o);
  }

  lemma ExcludingTexts(draft: Draft, o: Observation, q: Query)
    requires Parse(draft) == Good(q)
    ensures Excluding(draft, o) - {FromLabel, ToLabel}
         == (if MatchesStored(Some(o.kind), q.kind) then {} else {KindLabel})
             + (if MatchesComponent(o, q.component) then {} else {ComponentLabel})
          + (if MatchesStored(o.traceId, q.traceId) then {} else {TraceLabel})
              + (if MatchesStored(o.eventId, q.eventId) then {} else {EventLabel})
          + (if EntityAdmits(draft, o) then {} else {EntityLabel})
  {
    hide MatchesText, TimeOf, MatchesStored, MatchesComponent, EntityAdmits, CriterionOf;
  }

  lemma EntityAdmitsReads(a: Draft, b: Draft, o: Observation)
    requires a.entityKind == b.entityKind && a.entityId == b.entityId
    ensures EntityAdmits(a, o) <==> EntityAdmits(b, o)
  {}

  method RevealNames(draft: Draft, before: seq<Label>, o: Observation, q: Query)
      returns (next: Draft, cleared: seq<Label>)
    requires NoRepeats(before)
    ensures next == draft.(kind := KeepIf(MatchesStored(Some(o.kind), q.kind), draft.kind), component :=
                           KeepIf(MatchesComponent(o, q.component), draft.component))
    ensures NoRepeats(cleared)
    ensures Labels(cleared) == Labels(before) + (if MatchesStored(Some(o.kind), q.kind) then {} else {KindLabel})
        + (if MatchesComponent(o, q.component) then {} else {ComponentLabel})
  {
    hide Note, Labels, NoRepeats, MatchesStored, MatchesComponent;
    next, cleared := draft, before;
    if !MatchesStored(Some(o.kind), q.kind) { next, cleared := next.(kind := BLANK), Note(cleared, KindLabel); }
    if !MatchesComponent(o, q.component) { next, cleared := next.(component := BLANK), Note(cleared, ComponentLabel); }
  }

  method RevealLinks(draft: Draft, before: seq<Label>, o: Observation, q: Query)
      returns (next: Draft, cleared: seq<Label>)
    requires NoRepeats(before)
    ensures next == draft.(traceId := KeepIf(MatchesStored(o.traceId, q.traceId), draft.traceId), eventId :=
                           KeepIf(MatchesStored(o.eventId, q.eventId), draft.eventId))
    ensures NoRepeats(cleared)
    ensures Labels(cleared) == Labels(before) + (if MatchesStored(o.traceId, q.traceId) then {} else {TraceLabel})
        + (if MatchesStored(o.eventId, q.eventId) then {} else {EventLabel})
  {
    hide Note, Labels, NoRepeats, MatchesStored;
    next, cleared := draft, before;
    if !MatchesStored(o.traceId, q.traceId) { next, cleared := next.(traceId := BLANK), Note(cleared, TraceLabel); }
    if !MatchesStored(o.eventId, q.eventId) { next, cleared := next.(eventId := BLANK), Note(cleared, EventLabel); }
  }

  method RevealEntity(draft: Draft, before: seq<Label>, o: Observation, q: Query)
      returns (next: Draft, cleared: seq<Label>)
    requires NoRepeats(before) && q.entityKind == CriterionOf(draft.entityKind)
    requires q.entityId == CriterionOf(draft.entityId)
    ensures next == draft.(entityKind := EntityPart(EntityAdmits(draft, o), draft.entityKind), entityId :=
                           EntityPart(EntityAdmits(draft, o), draft.entityId))
    ensures NoRepeats(cleared)
    ensures Labels(cleared) == Labels(before) + (if EntityAdmits(draft, o) then {} else {EntityLabel})
  {
    hide Note, Labels, NoRepeats, Trim;
    next, cleared := draft, before;
    if !MatchesEntity(o, q.entityKind, q.entityId) {
      if Trim(next.entityKind.text) != [] { next, cleared := next.(entityKind := BLANK), Note(cleared, EntityLabel); }
      if Trim(next.entityId.text) != [] { next, cleared := next.(entityId := BLANK), Note(cleared, EntityLabel); }
    }
  }
}
