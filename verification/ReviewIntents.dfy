/** What the reader's single intents do to the rows, the draft and the selection. */
module ReviewIntents {
  import opened Outcomes
  import opened Canonical
  import opened Texts
  import opened Records
  import opened TimelineQuery
  import opened ReviewNavigation

  // ---------- What a draft keeps ----------

  function Joined(before: Text, t: Text, rest: Text): Text { before + (t + rest) }

  /** What is typed is found in the stored text: as the whole of it, at its start, or anywhere. */
  ghost predicate Found(t: Text, stored: Text, mode: TimelineQuery.Mode) {
    match mode
    case Exact => stored == t
    case Prefix => exists rest: Text :: stored == Joined([], t, rest)
    case Contains => exists before: Text, rest: Text :: stored == Joined(before, t, rest)
  }

  lemma PrefixIsFound(t: Text, stored: Text)
    ensures t <= stored <==> Found(t, stored, Prefix)
  {
    if t <= stored { assert stored == Joined([], t, stored[|t|..]); }
  }

  lemma WithinIsFound(t: Text, stored: Text)
    ensures Within(t, stored) <==> Found(t, stored, Contains)
  {
    if Within(t, stored) {
      var i :| 0 <= i <= |stored| && t <= stored[i..];
      assert stored == Joined(stored[..i], t, stored[i..][|t|..]);
    }
    if Found(t, stored, Contains) {
      var before: Text, rest: Text :| stored == Joined(before, t, rest);
      assert t <= stored[|before|..];
    }
  }

  lemma MatchIsFound(stored: Text, c: Criterion)
    ensures MatchesText(stored, c) <==> Found(c.value, stored, c.mode)
  {
    PrefixIsFound(c.value, stored);
    WithinIsFound(c.value, stored);
    hide Found, Within;
    if c.mode == Exact { ExactIsFound(stored, c); }
  }

  lemma ExactIsFound(stored: Text, c: Criterion)
    requires c.mode == Exact
    ensures MatchesText(stored, c) <==> Found(c.value, stored, c.mode)
  {}

  /** What is typed into a field holds of a stored text; a blank field asks for nothing. */
  ghost predicate Asks(field: Field, stored: Option<Text>) {
    Trim(field.text) == [] || (stored.Some? && Found(Trim(field.text), stored.value, field.mode))
  }

  lemma StoredIsAsked(field: Field, stored: Option<Text>)
    ensures MatchesStored(stored, CriterionOf(field)) <==> Asks(field, stored)
  {
    hide Trim, Found, MatchesText;
    if stored.Some? { MatchIsFound(stored.value, Criterion(Trim(field.text), field.mode)); }
  }

  lemma ComponentIsAsked(field: Field, o: Observation)
    ensures MatchesComponent(o, CriterionOf(field)) <==>
            Asks(field, Some(o.source)) || (o.target.Some? && Asks(field, o.target))
  {
    hide Trim, Found, MatchesText;
    var c := Criterion(Trim(field.text), field.mode);
    MatchIsFound(o.source, c);
    if o.target.Some? { MatchIsFound(o.target.value, c); }
  }

  predicate Blank(field: Field) { Trim(field.text) == [] }

  /** One of the record's entities has both the kind and the id asked for, if any is. */
  ghost predicate EntityAsked(draft: Draft, o: Observation) {
    (Blank(draft.entityKind) && Blank(draft.entityId))
    || exists i :: 0 <= i < |o.entityRefs| && Asks(draft.entityKind, Some(o.entityRefs[i].kind))
         && Asks(draft.entityId, Some(o.entityRefs[i].id))
  }

  lemma RefIsAsked(draft: Draft, e: Entity)
    ensures RefMatches(e, CriterionOf(draft.entityKind), CriterionOf(draft.entityId)) <==>
            Asks(draft.entityKind, Some(e.kind)) && Asks(draft.entityId, Some(e.id))
  {
    hide Trim, Found, MatchesText;
    MatchIsFound(e.kind, Criterion(Trim(draft.entityKind.text), draft.entityKind.mode));
    MatchIsFound(e.id, Criterion(Trim(draft.entityId.text), draft.entityId.mode));
  }

  lemma EntityIsAsked(draft: Draft, o: Observation)
    ensures MatchesEntity(o, CriterionOf(draft.entityKind), CriterionOf(draft.entityId)) <==> EntityAsked(draft, o)
  {
    hide Trim, Asks, RefMatches;
    forall i | 0 <= i < |o.entityRefs|
      ensures RefMatches(o.entityRefs[i], CriterionOf(draft.entityKind), CriterionOf(draft.entityId)) <==>
              Asks(draft.entityKind, Some(o.entityRefs[i].kind)) && Asks(draft.entityId, Some(o.entityRefs[i].id))
    {
      RefIsAsked(draft, o.entityRefs[i]);
    }
  }

  /** The draft says nothing else than that this time is in its bounds, which are blank or decimal numbers. */
  ghost predicate TimeAsked(draft: Draft, time: nat) {
    && (Trim(draft.fromTime) == [] || exists n: nat :: TimeOf(draft.fromTime) == At(n) && n <= time)
    && (Trim(draft.toTime) == [] || exists n: nat :: TimeOf(draft.toTime) == At(n) && time <= n)
  }

  /**
   * A draft that parses keeps exactly the records that satisfy everything typed into it: the bounds on the time, and
   * each text in the mode of its field, with both entity fields on one entity.
   */
  lemma DraftKeepsWhatItAsks(draft: Draft, o: Observation)
    requires Parse(draft).Good?
    ensures MatchesQuery(o, Parse(draft).query) <==>
            && TimeAsked(draft, o.time)
            && Asks(draft.kind, Some(o.kind))
            && (Asks(draft.component, Some(o.source)) || (o.target.Some? && Asks(draft.component, o.target)))
            && Asks(draft.traceId, o.traceId)
            && Asks(draft.eventId, o.eventId)
            && EntityAsked(draft, o)
  {
    StoredIsAsked(draft.kind, Some(o.kind));
    ComponentIsAsked(draft.component, o);
    StoredIsAsked(draft.traceId, o.traceId);
    StoredIsAsked(draft.eventId, o.eventId);
    EntityIsAsked(draft, o);
    TimesAreAsked(draft, o.time);
    hide Asks, EntityAsked, TimeAsked, MatchesStored, MatchesComponent, MatchesEntity, CriterionOf, TimeOf;
  }

  lemma TimesAreAsked(draft: Draft, time: nat)
    requires Parse(draft).Good?
    ensures var q := Parse(draft).query;
      TimeAsked(draft, time) <==>
        (q.fromTime.Some? ==> q.fromTime.value <= time) && (q.toTime.Some? ==> time <= q.toTime.value)
  {
    AbsentIsBlank(draft.fromTime);
    AbsentIsBlank(draft.toTime);
    hide CriterionOf, TimeOf, Trim;
  }

  lemma AbsentIsBlank(value: Text)
    ensures TimeOf(value) == Absent <==> Trim(value) == []
  {}

  // ---------- Intents that change the filter ----------

  /** The rows, the draft, its error and the quick view are as before. */
  predicate SameRows(s: Review, after: Review) {
    && after.draft == s.draft && after.query == s.query && after.filterError == s.filterError
    && after.quickView == s.quickView && after.published == s.published && after.seen == s.seen
    && after.liveCueId == s.liveCueId
  }

  /** An edited draft decides the rows as soon as it parses; until then the rows stay and the error says why. */
  lemma EditedDraftDecides(s: Review, draft: Draft, c: Context, o: Observation)
    requires Agrees(s)
    ensures var after := Transition(s, SetDraft(draft), c);
      && after.draft == draft && after.quickView == s.quickView && after.selectedId == s.selectedId
      && if Parse(draft).Good? then
           && after.filterError == None
           && (o in Filtered(c, after) <==>
               o in c.observations && InQuickView(c, s.quickView, o) && MatchesQuery(o, Parse(draft).query))
         else after.filterError == Some(Parse(draft).problem) && Filtered(c, after) == Filtered(c, s)
  {
    hide Parse, MatchesQuery, Filtered;
    var after := Transition(s, SetDraft(draft), c);
    FilteredAre(c, after, o);
    if Parse(draft).Bad? { FilteredReads(c, s, after); }
  }

  /** Clearing shows every record in order, without a constraint, an error or a quick view; the selection stays. */
  lemma ClearShowsAll(s: Review, c: Context)
    ensures var after := Transition(s, ClearAll, c);
      && Filtered(c, after) == Order(c.observations) && after.filterError == None
      && after.draft == EMPTY_DRAFT && after.quickView == None && after.selectedId == s.selectedId
  {
    EmptyParses();
    OrderIsStable(c.observations, 0);
    hide Parse, Filtered;
    ShowsAll(c, Transition(s, ClearAll, c));
  }

  /** The text is the whole of what is typed, exactly. */
  predicate Set(field: Field, value: Text) { Trim(field.text) == value && field.mode == Exact }

  /** The draft without what it asks of the component. */
  function AnyComponent(draft: Draft): Draft { draft.(component := BLANK) }

  lemma BlankAsksNothing(stored: Option<Text>)
    ensures Asks(BLANK, stored)
  {
    BlankIsAbsent();
  }

  lemma ParsesAlike(draft: Draft, component: Field)
    requires Parse(draft).Good?
    ensures Parse(draft.(component := component)).Good?
  {
    hide TimeOf, CriterionOf;
  }

  lemma AsksExactly(field: Field, value: Text, stored: Text)
    requires field == Field(value, Exact) && Trim(value) == value && value != []
    ensures Asks(field, Some(stored)) <==> stored == value
  {
    hide Trim;
  }

  /**
   * Choosing a component shows exactly the rows that come from it or go to it, whatever else is typed; choosing it
   * again takes that constraint away.
   */
  lemma ComponentIsToggled(s: Review, value: Text, c: Context, o: Observation)
    requires Agrees(s) && Parse(s.draft).Good? && Trim(value) == value && value != []
    ensures Parse(AnyComponent(s.draft)).Good?
    ensures var after := Transition(s, ToggleComponent(value), c);
      && after.filterError == None && after.quickView == s.quickView
      && (o in Filtered(c, after) <==>
            && o in c.observations && InQuickView(c, s.quickView, o)
            && MatchesQuery(o, Parse(AnyComponent(s.draft)).query)
            && (!Set(s.draft.component, value) ==> o.source == value || o.target == Some(value)))
  {
    var field := Toggled(s.draft.component, value);
    var after := Transition(s, ToggleComponent(value), c);
    ParsesAlike(s.draft, field);
    ParsesAlike(s.draft, BLANK);
    FilteredAre(c, after, o);
    DraftKeepsWhatItAsks(s.draft.(component := field), o);
    DraftKeepsWhatItAsks(AnyComponent(s.draft), o);
    BlankAsksNothing(Some(o.source));
    BlankAsksNothing(o.target);
    if !Set(s.draft.component, value) {
      AsksExactly(field, value, o.source);
      if o.target.Some? { AsksExactly(field, value, o.target.value); }
    }
    hide Parse, MatchesQuery, Filtered, Asks, TimeAsked, EntityAsked, Trim, InQuickView;
  }

  lemma TraceParsesAlike(draft: Draft, traceId: Field)
    requires Parse(draft).Good?
    ensures Parse(draft.(traceId := traceId)).Good?
  {
    hide TimeOf, CriterionOf;
  }

  /** Choosing a trace shows exactly its rows, whatever else is typed; choosing it again takes the constraint away. */
  lemma TraceIsToggled(s: Review, traceId: Text, c: Context, o: Observation)
    requires Agrees(s) && Parse(s.draft).Good? && Trim(traceId) == traceId && traceId != []
    ensures Parse(s.draft.(traceId := BLANK)).Good?
    ensures var after := Transition(s, ToggleTrace(traceId), c);
      && after.filterError == None && after.quickView == s.quickView
      && (o in Filtered(c, after) <==>
            && o in c.observations && InQuickView(c, s.quickView, o)
            && MatchesQuery(o, Parse(s.draft.(traceId := BLANK)).query)
            && (!Set(s.draft.traceId, traceId) ==> o.traceId == Some(traceId)))
  {
    var field := Toggled(s.draft.traceId, traceId);
    var after := Transition(s, ToggleTrace(traceId), c);
    TraceParsesAlike(s.draft, field);
    TraceParsesAlike(s.draft, BLANK);
    FilteredAre(c, after, o);
    DraftKeepsWhatItAsks(s.draft.(traceId := field), o);
    DraftKeepsWhatItAsks(s.draft.(traceId := BLANK), o);
    BlankAsksNothing(o.traceId);
    if !Set(s.draft.traceId, traceId) && o.traceId.Some? { AsksExactly(field, traceId, o.traceId.value); }
    if !Set(s.draft.traceId, traceId) { AsksSomething(field, traceId); }
    hide Parse, MatchesQuery, Filtered, Asks, TimeAsked, EntityAsked, Trim, InQuickView;
  }

  lemma AsksSomething(field: Field, value: Text)
    requires field == Field(value, Exact) && Trim(value) == value && value != []
    ensures !Asks(field, None)
  {
    hide Trim;
  }

  /** A quick view shows the rows it keeps; choosing the same one again, or clearing it, shows all rows of the draft. */
  lemma QuickViewIsToggled(s: Review, view: QuickView, c: Context, o: Observation)
    ensures var after := Transition(s, ToggleQuickView(view), c);
      && (o in Filtered(c, after) <==>
            o in Filtered(c, Transition(s, ClearQuickView, c)) && (s.quickView != Some(view) ==> c.keeps(view, o.kind)))
      && after.draft == s.draft && after.filterError == s.filterError && after.selectedId == s.selectedId
    ensures Filtered(c, Transition(s, SelectQuickView(Some(view)), c)) ==
            Filtered(c, if s.quickView == Some(view) then s else Transition(s, ToggleQuickView(view), c))
  {
    hide MatchesQuery, Filtered;
    FilteredAre(c, Transition(s, ToggleQuickView(view), c), o);
    FilteredAre(c, Transition(s, ClearQuickView, c), o);
    FilteredReads(c, Transition(s, SelectQuickView(Some(view)), c),
                  if s.quickView == Some(view) then s else Transition(s, ToggleQuickView(view), c));
  }

  // ---------- Intents that do not ----------

  /** Selecting, switching the view, opening groups and focusing leave the rows alone, and each does its one thing. */
  lemma SelectionLeavesRows(s: Review, id: Text, mode: ReviewNavigation.Mode, field: nat, c: Context)
    ensures var after := Transition(s, SelectIntent(id), c);
      SameRows(s, after) && after.selectedId == Some(id) && after.view == s.view && Filtered(c, after) == Filtered(c, s)
    ensures var after := Transition(s, SwitchView(mode), c);
      SameRows(s, after) && after.view == mode && after.selectedId == s.selectedId
    ensures var after := Transition(s, ToggleGroup(id), c);
      && SameRows(s, after) && Transition(after, ToggleGroup(id), c).expandedGroups == s.expandedGroups
      && (forall g :: (g in after.expandedGroups) != (g in s.expandedGroups) <==> g == id)
    ensures var after := Transition(s, SetFilterField(field), c); SameRows(s, after) && after.filterField == field
    ensures var after := Transition(s, FocusApplied, c);
      SameRows(s, after) && after.focus == None && after.selectedId == s.selectedId
  {
    hide Filtered;
    FilteredReads(c, s, Transition(s, SelectIntent(id), c));
    var toggled := Transition(s, ToggleGroup(id), c);
    assert Transition(toggled, ToggleGroup(id), c).expandedGroups == s.expandedGroups;
  }

  /** Selecting a row by its index selects exactly that row and scrolls to it; an index without a row does nothing. */
  lemma IndexSelectsItsRow(s: Review, index: nat, c: Context)
    ensures var rows, after := Filtered(c, s), Transition(s, SelectIndex(index), c);
      if index < |rows| then
        && SameRows(s, after) && after.selectedId == Some(rows[index].id) && after.view == Raw
        && after.focus.Some? && after.focus.value.observationId == rows[index].id && after.scroll == FocusRow
        && (s.focus.Some? ==> after.focus != s.focus)
      else after == s
  {
    hide Filtered;
  }
}
