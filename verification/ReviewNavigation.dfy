/** Review navigation: the reader's state machine over recorded history. */
module ReviewNavigation {
  import opened Outcomes
  import opened Canonical
  import opened Texts
  import opened Records
  import opened TimelineQuery

  datatype Mode = Story | Learning | Raw
  datatype Focus = Focus(observationId: Text, token: nat)
  datatype Scroll = Top | EnsureVisible | FocusRow

  /** A quick view, of which only the records it keeps matter. */
  type QuickView = nat

  datatype Review = Review(draft: Draft, query: Query, filterError: Option<Problem>, filterField: nat,
                           quickView: Option<QuickView>,
                           view: Mode, expandedGroups: set<Text>, selectedId: Option<Text>, liveCueId: Option<Text>,
                           focus: Option<Focus>, scroll: Scroll, epoch: nat, seen: int,
                               published: Option<seq<Observation>>)

  /** The snapshot shown; `keeps` says which records a quick view keeps, by their stored type. */
  datatype Context = Context(observations: seq<Observation>, keeps: (QuickView, Text) -> bool)

  const START: Review := Review(EMPTY_DRAFT, EMPTY_QUERY, None, 0, None, Story, {}, None, None, None, Top, 0, -1, None)

  datatype Intent =
    | RevealIntent(observationId: Text)
    | SelectIntent(observationId: Text)
    | Move(forward: bool)
    | SelectIndex(index: nat)
    | ToggleQuickView(view: QuickView)
    | SelectQuickView(choice: Option<QuickView>)
    | ClearQuickView
    | ToggleComponent(value: Text)
    | ToggleTrace(traceId: Text)
    | NarrowToTrace(traceId: Text)
    | ClearAll
    | SetDraft(draft: Draft)
    | SetFilterField(field: nat)
    | SwitchView(mode: Mode)
    | ToggleGroup(id: Text)
    | Published(observations: seq<Observation>)
    | FocusApplied

  // ---------- Projections ----------

  predicate InQuickView(c: Context, view: Option<QuickView>, o: Observation) {
    view.Some? ==> c.keeps(view.value, o.kind)
  }

  function SelectView(c: Context, view: Option<QuickView>, obs: seq<Observation>): (rows: seq<Observation>)
    ensures forall o :: o in rows <==> o in obs && InQuickView(c, view, o)
  {
    if obs == [] then [] else (if InQuickView(c, view, obs[0]) then [obs[0]] else []) + SelectView(c, view, obs[1..])
  }

  /** `quickViewObservations`. */
  function Scoped(c: Context, view: Option<QuickView>): seq<Observation> { SelectView(c, view, Order(c.observations)) }

  /** The rows of the reader's list. */
  function Filtered(c: Context, s: Review): seq<Observation> { Rows(Scoped(c, s.quickView), s.query) }

  function Find(obs: seq<Observation>, id: Text): (o: Option<Observation>)
    ensures o.Some? ==> o.value in obs && o.value.id == id
    ensures o.None? ==> forall x :: x in obs ==> x.id != id
  {
    if obs == [] then None else if obs[0].id == id then Some(obs[0]) else Find(obs[1..], id)
  }

  function FindTrace(obs: seq<Observation>, traceId: Text): (o: Option<Observation>)
    ensures o.Some? ==> o.value in obs && o.value.traceId == Some(traceId)
    ensures o.None? ==> forall x :: x in obs ==> x.traceId != Some(traceId)
  {
    if obs == [] then None else if obs[0].traceId == Some(traceId) then Some(obs[0]) else FindTrace(obs[1..], traceId)
  }

  /** `findIndex` by id, -1 when there is none. */
  function IndexOf(rows: seq<Observation>, id: Text): (i: int)
    ensures i == -1 ==> forall x :: x in rows ==> x.id != id
    ensures i != -1 ==> 0 <= i < |rows| && rows[i].id == id && forall k :: 0 <= k < i ==> rows[k].id != id
  {
    if rows == [] then -1
    else if rows[0].id == id then 0
    else var i := IndexOf(rows[1..], id); if i == -1 then -1 else i + 1
  }

  // ---------- Transitions ----------

  function ScrollTo(s: Review, kind: Scroll): Review { s.(scroll := kind, epoch := s.epoch + 1) }

  function Token(s: Review): nat { (if s.focus.Some? then s.focus.value.token else 0) + 1 }

  /** `applyDraft`: a draft that does not parse keeps the previous result and names the error. */
  function ApplyDraft(s: Review, draft: Draft): Review {
    match Parse(draft)
    case Good(query) => ScrollTo(s.(draft := draft, query := query, filterError := None), Top)
    case Bad(problem) => ScrollTo(s.(draft := draft, filterError := Some(problem)), Top)
  }

  function RevealQuickView(c: Context, view: Option<QuickView>, o: Observation): Option<QuickView> {
    if InQuickView(c, view, o) then view else None
  }

  /** `revealRecord`. */
  function RevealRecord(s: Review, id: Text, c: Context): Review {
    match Find(c.observations, id)
    case None => s
    case Some(o) =>
      var changed := !Admits(s.draft, o);
      var draft := if changed then Relaxed(s.draft, o) else s.draft;
      var query := if changed then Parse(draft).query else s.query;
      ScrollTo(s.(draft := draft,
                  query := query,
                  filterError := if changed then None else s.filterError,
                  quickView := RevealQuickView(c, s.quickView, o),
                  view := Raw,
                  selectedId := Some(o.id),
                  focus := Some(Focus(o.id, Token(s)))), FocusRow)
  }

  function SelectRow(s: Review, index: int, c: Context): Review {
    var rows := Filtered(c, s);
    if !(0 <= index < |rows|) then s
    else ScrollTo(s.(view := Raw, selectedId := Some(rows[index].id), focus := Some(Focus(rows[index].id, Token(s)))),
                  FocusRow)
  }

  /** `selectionStep`. */
  function SelectionStep(index: int, count: nat, forward: bool): Option<nat> {
    if count == 0 then None
    else if index < 0 then Some(if forward then 0 else count - 1)
    else
      var next := if forward then index + 1 else index - 1;
      if next < 0 || next >= count then None else Some(next)
  }

  function SelectedIndex(s: Review, c: Context): int {
    if s.selectedId.None? then -1 else IndexOf(Filtered(c, s), s.selectedId.value)
  }

  function MoveSelection(s: Review, forward: bool, c: Context): Review {
    match SelectionStep(SelectedIndex(s, c), |Filtered(c, s)|, forward)
    case None => s
    case Some(next) => SelectRow(s, next, c)
  }

  function TraceOnly(traceId: Text): Draft { EMPTY_DRAFT.(traceId := Field(traceId, Exact)) }

  /** `narrowToTraceIntent`: the draft is rewritten and the result is read again from it. */
  function Narrow(s: Review, traceId: Text, c: Context): Review {
    var draft := TraceOnly(traceId);
    var member := FindTrace(c.observations, traceId);
    var base := match Parse(draft)
      case Good(query) => s.(draft := draft, query := query, filterError := None)
      case Bad(problem) => s.(draft := draft, filterError := Some(problem));
    ScrollTo(base.(quickView := if member.None? then s.quickView else RevealQuickView(c, s.quickView, member.value),
                   focus := if s.selectedId.None? then s.focus else Some(Focus(s.selectedId.value, Token(s)))),
             if s.selectedId.None? then Top else FocusRow)
  }

  predicate Continues(previous: seq<Observation>, next: seq<Observation>) {
    |previous| <= |next| && forall i :: 0 <= i < |previous| ==> SameRecord(previous[i], next[i])
  }

  function LastSequence(obs: seq<Observation>, otherwise: int): int {
    if obs == [] then otherwise else obs[|obs| - 1].sequence
  }

  /** The newest movement beyond what was already seen. */
  function NewestCue(obs: seq<Observation>, seen: int, otherwise: Option<Text>): Option<Text> {
    if obs == [] then otherwise
    else if obs[|obs| - 1].sequence > seen && obs[|obs| - 1].movement then Some(obs[|obs| - 1].id)
    else NewestCue(obs[..|obs| - 1], seen, otherwise)
  }

  /** `published`: history grew, or was replaced and then everything about the old one goes. */
  function Publish(s: Review, next: seq<Observation>): Review {
    if s.published.None? then s.(published := Some(next), seen := LastSequence(next, -1))
    else if !Continues(s.published.value, next) then
      ScrollTo(s.(published := Some(next), seen := LastSequence(next, -1), selectedId := None, liveCueId := None,
                  draft := EMPTY_DRAFT, query := EMPTY_QUERY, filterError := None, quickView := None), Top)
    else s.(published := Some(next), seen := LastSequence(next, s.seen), liveCueId :=
            NewestCue(next, s.seen, s.liveCueId))
  }

  function WithQuickView(s: Review, view: Option<QuickView>): Review { ScrollTo(s.(quickView := view), Top) }

  /** A field toggled to an exact value, or off when it already has that value. */
  function Toggled(field: Field, value: Text): Field {
    if Trim(field.text) == value && field.mode == Exact then BLANK else Field(value, Exact)
  }

  /** `transition`. */
  function Transition(s: Review, intent: Intent, c: Context): Review {
    match intent
    case RevealIntent(id) => RevealRecord(s, id, c)
    case SelectIntent(id) => ScrollTo(s.(selectedId := Some(id)), EnsureVisible)
    case SelectIndex(index) => SelectRow(s, index, c)
    case Move(forward) => MoveSelection(s, forward, c)
    case ToggleQuickView(view) => WithQuickView(s, if s.quickView == Some(view) then None else Some(view))
    case SelectQuickView(choice) => if choice.Some? && choice == s.quickView then s else WithQuickView(s, choice)
    case ClearQuickView => WithQuickView(s, None)
    case ToggleComponent(value) => ApplyDraft(s, s.draft.(component := Toggled(s.draft.component, value)))
    case ToggleTrace(traceId) => ApplyDraft(s, s.draft.(traceId := Toggled(s.draft.traceId, traceId)))
    case NarrowToTrace(traceId) => Narrow(s, traceId, c)
    case ClearAll => ApplyDraft(s, EMPTY_DRAFT).(quickView := None)
    case SetDraft(draft) => ApplyDraft(s, draft)
    case SetFilterField(field) => s.(filterField := field)
    case SwitchView(mode) => if s.view == mode then s else ScrollTo(s.(view := mode), Top)
    case ToggleGroup(id) => s.(expandedGroups := if id in s.expandedGroups then s.expandedGroups - {id}
                               else s.expandedGroups + {id})
    case Published(observations) => Publish(s, observations)
    case FocusApplied => s.(focus := None)
  }

  // ---------- The draft and the result agree ----------

  /** The error is the parse error of the draft, and without one the query is what the draft parses to. */
  predicate Agrees(s: Review) {
    match Parse(s.draft)
    case Good(query) => s.filterError == None && s.query == query
    case Bad(problem) => s.filterError == Some(problem)
  }

  lemma EmptyParses()
    ensures Parse(EMPTY_DRAFT) == Good(EMPTY_QUERY)
  {
    BlankIsAbsent();
  }

  lemma {:induction false} TransitionAgrees(s: Review, intent: Intent, c: Context)
    requires Agrees(s)
    ensures Agrees(Transition(s, intent, c))
  {
    hide Parse, Relaxed, Admits, Filtered, IndexOf, Continues, NewestCue;
    EmptyParses();
    if intent.RevealIntent? {
      var found := Find(c.observations, intent.observationId);
      if found.Some? { RelaxedParses(s.draft, found.value); }
    }
  }

  lemma RelaxedParses(draft: Draft, o: Observation)
    ensures Parse(Relaxed(draft, o)).Good?
  {
    RelaxedAdmits(draft, o);
  }

  /** A run of the reader: intents, each with the snapshot shown at that moment. */
  ghost predicate IsRun(run: seq<Review>, intents: seq<(Intent, Context)>) {
    && |run| == |intents| + 1 && run[0] == START
    && forall i :: 0 <= i < |intents| ==> run[i + 1] == Transition(run[i], intents[i].0, intents[i].1)
  }

  /**
   * After any intents, an error is shown exactly when the draft does not parse, and otherwise the result is the
   * draft's.
   */
  lemma {:induction false} ErrorMeansUnparsed(run: seq<Review>, intents: seq<(Intent, Context)>, i: nat)
    requires IsRun(run, intents) && i < |run|
    ensures Agrees(run[i])
    ensures run[i].filterError == None <==> Parse(run[i].draft).Good?
    ensures run[i].filterError == None ==> run[i].query == Parse(run[i].draft).query
  {
    hide Parse, Transition;
    EmptyParses();
    if i > 0 {
      ErrorMeansUnparsed(run, intents, i - 1);
      assert run[i - 1 + 1] == Transition(run[i - 1], intents[i - 1].0, intents[i - 1].1);
      TransitionAgrees(run[i - 1], intents[i - 1].0, intents[i - 1].1);
    }
  }

  // ---------- Reveal ----------

  lemma FilteredAre(c: Context, s: Review, o: Observation)
    ensures o in Filtered(c, s) <==> o in c.observations && InQuickView(c, s.quickView, o) && MatchesQuery(o, s.query)
  {
    RowsAre(Scoped(c, s.quickView), s.query, o);
    OrderIsStable(c.observations, 0);
    assert o in Order(c.observations) <==> o in multiset(Order(c.observations));
    assert o in c.observations <==> o in multiset(c.observations);
  }

  /** In any reachable state, revealing a recorded observation leaves it selected, focused and among the rows. */
  lemma RevealShowsTheRecord(run: seq<Review>, intents: seq<(Intent, Context)>, i: nat, id: Text, c: Context)
    requires IsRun(run, intents) && i < |run|
    requires Find(c.observations, id).Some?
    ensures var o, after := Find(c.observations, id).value, Transition(run[i], RevealIntent(id), c);
            && o in Filtered(c, after) && after.selectedId == Some(id) && after.view == Raw
            && after.focus == Some(Focus(id, Token(run[i]))) && after.filterError == None
            && 0 <= SelectedIndex(after, c) < |Filtered(c, after)|
  {
    hide Relaxed, MatchesQuery, Parse;
    var o := Find(c.observations, id).value;
    var after := RevealRecord(run[i], id, c);
    ErrorMeansUnparsed(run, intents, i);
    RelaxedAdmits(run[i].draft, o);
    FilteredAre(c, after, o);
  }

  /** A record already among the rows is revealed without touching draft, result or quick view. */
  lemma RevealOfVisibleChangesNothing(run: seq<Review>, intents: seq<(Intent, Context)>, i: nat, id: Text, c: Context)
    requires IsRun(run, intents) && i < |run| && run[i].filterError == None
    requires Find(c.observations, id).Some? && Find(c.observations, id).value in Filtered(c, run[i])
    ensures var after := Transition(run[i], RevealIntent(id), c);
            after.draft == run[i].draft && after.query == run[i].query && after.quickView == run[i].quickView
            && Filtered(c, after) == Filtered(c, run[i])
  {
    hide Relaxed, MatchesQuery, Parse;
    ErrorMeansUnparsed(run, intents, i);
    FilteredAre(c, run[i], Find(c.observations, id).value);
  }

  // ---------- Narrowing ----------

  /** After narrowing to a trace, the rows are exactly that trace's records in the quick view, and no error is left. */
  lemma NarrowShowsTheTrace(s: Review, traceId: Text, c: Context, o: Observation)
    ensures var after := Transition(s, NarrowToTrace(traceId), c);
            && Agrees(after) && after.filterError == None
            && (o in Filtered(c, after) <==>
                o in c.observations && InQuickView(c, after.quickView, o)
                && OfTrace(o, traceId))
            && (Trim(traceId) == traceId ==> forall x :: x in c.observations && x.traceId == Some(traceId) ==>
                Filtered(c, after) != [])
  {
    TraceOnlyParses(traceId, o);
    hide MatchesQuery, Parse, TraceOnly, Filtered, FindTrace, InQuickView, Trim;
    var after := Narrow(s, traceId, c);
    FilteredAre(c, after, o);
    var found := FindTrace(c.observations, traceId);
    if found.Some? && Trim(traceId) == traceId {
      RevealedIsInView(c, s.quickView, found.value);
      TraceOnlyParses(traceId, found.value);
      FilteredAre(c, after, found.value);
    }
  }

  lemma RevealedIsInView(c: Context, view: Option<QuickView>, o: Observation)
    ensures InQuickView(c, RevealQuickView(c, view, o), o)
  {}

  /** A blank trace id constrains nothing; any other is trimmed. */
  predicate OfTrace(o: Observation, traceId: Text) { Trim(traceId) == [] || o.traceId == Some(Trim(traceId)) }

  lemma TraceOnlyParses(traceId: Text, o: Observation)
    ensures Parse(TraceOnly(traceId)).Good?
    ensures MatchesQuery(o, Parse(TraceOnly(traceId)).query) <==> OfTrace(o, traceId)
  {
    BlankIsAbsent();
    hide TimeOf, Trim;
  }

  // ---------- Moving the selection ----------

  lemma RowFound(rows: seq<Observation>, i: nat)
    requires i < |rows| && forall j, k :: 0 <= j < k < |rows| ==> rows[j].id != rows[k].id
    ensures IndexOf(rows, rows[i].id) == i
  {
    assert rows[i] in rows;
  }

  lemma FilteredReads(c: Context, a: Review, b: Review)
    requires a.quickView == b.quickView && a.query == b.query
    ensures Filtered(c, a) == Filtered(c, b)
  {}

  /** Moving selects the neighbouring row, and moving back returns to the row it came from. */
  lemma MoveThereAndBack(s: Review, forward: bool, c: Context)
    requires SelectedIndex(s, c) >= 0
    requires forall j, k :: 0 <= j < k < |Filtered(c, s)| ==> Filtered(c, s)[j].id != Filtered(c, s)[k].id
    ensures var i, after := SelectedIndex(s, c), MoveSelection(s, forward, c);
            var next := if forward then i + 1 else i - 1;
            if 0 <= next < |Filtered(c, s)| then
              && SelectedIndex(after, c) == next && Filtered(c, after) == Filtered(c, s)
              && MoveSelection(after, !forward, c).selectedId == s.selectedId
            else after == s
  {
    var rows := Filtered(c, s);
    var i := SelectedIndex(s, c);
    var next := if forward then i + 1 else i - 1;
    hide IndexOf, Filtered;
    if 0 <= next < |rows| {
      var after := MoveSelection(s, forward, c);
      FilteredReads(c, s, after);
      RowFound(rows, next);
      assert SelectionStep(next, |rows|, !forward) == Some(i);
    }
  }

  // ---------- Published history ----------

  lemma ViewCons(c: Context, view: Option<QuickView>, o: Observation, rest: seq<Observation>)
    ensures SelectView(c, view, [o] + rest) == (if InQuickView(c, view, o) then [o] else []) + SelectView(c, view, rest)
  {
    assert ([o] + rest)[1..] == rest;
  }

  lemma SelectCons(o: Observation, rest: seq<Observation>, q: Query)
    ensures Select([o] + rest, q) == (if MatchesQuery(o, q) then [o] else []) + Select(rest, q)
  {
    hide MatchesQuery;
    assert ([o] + rest)[1..] == rest;
  }

  lemma Regroup(a: seq<Observation>, b: seq<Observation>, c: seq<Observation>)
    ensures (a + b) + c == a + (b + c)
  {}

  lemma {:induction false} ViewConcat(c: Context, view: Option<QuickView>, a: seq<Observation>, b: seq<Observation>)
    ensures SelectView(c, view, a + b) == SelectView(c, view, a) + SelectView(c, view, b)
  {
    if a == [] {
      assert a + b == b;
    } else {
      hide SelectView, InQuickView;
      var front, rest := [a[0]], a[1..];
      assert a == front + rest;
      Regroup(front, rest, b);
      ViewCons(c, view, a[0], rest);
      ViewCons(c, view, a[0], rest + b);
      ViewConcat(c, view, rest, b);
      Regroup(if InQuickView(c, view, a[0]) then front else [], SelectView(c, view, rest), SelectView(c, view, b));
    }
  }

  lemma {:induction false} SelectConcat(a: seq<Observation>, b: seq<Observation>, q: Query)
    ensures Select(a + b, q) == Select(a, q) + Select(b, q)
  {
    if a == [] {
      assert a + b == b;
    } else {
      hide Select, MatchesQuery;
      var front, rest := [a[0]], a[1..];
      assert a == front + rest;
      Regroup(front, rest, b);
      SelectCons(a[0], rest, q);
      SelectCons(a[0], rest + b, q);
      SelectConcat(rest, b, q);
      Regroup(if MatchesQuery(a[0], q) then front else [], Select(rest, q), Select(b, q));
    }
  }

  lemma {:induction false} ViewIsOrdered(c: Context, view: Option<QuickView>, obs: seq<Observation>)
    requires IsOrdered(obs)
    ensures IsOrdered(SelectView(c, view, obs))
  {
    if obs != [] {
      ViewIsOrdered(c, view, obs[1..]);
      var rest := SelectView(c, view, obs[1..]);
      forall j | 0 <= j < |rest| ensures obs[0].sequence <= rest[j].sequence { assert rest[j] in obs[1..]; }
    }
  }

  /** Records that are already in order are filtered as they stand. */
  lemma OrderedRows(c: Context, s: Review)
    requires IsOrdered(c.observations)
    ensures Filtered(c, s) == Select(SelectView(c, s.quickView, c.observations), s.query)
  {
    ViewIsOrdered(c, s.quickView, c.observations);
  }

  lemma {:induction false} EverythingPasses(c: Context, obs: seq<Observation>)
    ensures SelectView(c, None, obs) == obs && Select(obs, EMPTY_QUERY) == obs
  {
    if obs != [] { EverythingPasses(c, obs[1..]); }
  }

  lemma SamePlace(before: seq<Observation>, after: seq<Observation>, id: Text)
    requires before <= after && IndexOf(before, id) != -1
    ensures IndexOf(after, id) == IndexOf(before, id)
  {
    var i, j := IndexOf(before, id), IndexOf(after, id);
    assert after[i] in after && after[i].id == id;
  }

  /** Grown history adds rows behind those that are shown: every row, and the selection, stays where it is. */
  lemma GrowthAppendsRows(s: Review, c: Context, previous: seq<Observation>, next: seq<Observation>)
    requires s.published == Some(previous) && previous <= next && IsOrdered(next)
    ensures var after := Transition(s, Published(next), c);
            var rows, more := Filtered(c.(observations := previous), s), Filtered(c.(observations := next), after);
            && rows <= more && after.selectedId == s.selectedId
            && (SelectedIndex(s, c.(observations := previous)) != -1 ==>
                  SelectedIndex(after, c.(observations := next)) == SelectedIndex(s, c.(observations := previous)))
  {
    hide NewestCue, Filtered, Select, SelectView, IndexOf;
    var after := Transition(s, Published(next), c);
    var was, now := c.(observations := previous), c.(observations := next);
    var tail := next[|previous|..];
    assert next == previous + tail;
    OrderedRows(was, s);
    OrderedRows(now, after);
    SameViews(was, now, s.quickView, previous);
    SameViews(was, now, s.quickView, next);
    ViewConcat(was, s.quickView, previous, tail);
    SelectConcat(SelectView(was, s.quickView, previous), SelectView(was, s.quickView, tail), s.query);
    if s.selectedId.Some? && IndexOf(Filtered(was, s), s.selectedId.value) != -1 {
      SamePlace(Filtered(was, s), Filtered(now, after), s.selectedId.value);
    }
  }

  lemma {:induction false} SameViews(a: Context, b: Context, view: Option<QuickView>, obs: seq<Observation>)
    requires a.keeps == b.keeps
    ensures SelectView(a, view, obs) == SelectView(b, view, obs)
  {
    if obs != [] { SameViews(a, b, view, obs[1..]); }
  }

  /** Replaced history is shown whole, with nothing selected, no error and no cue left from the old one. */
  lemma ReplacementShowsAll(s: Review, c: Context, next: seq<Observation>)
    requires s.published.Some? && !Continues(s.published.value, next)
    ensures var after := Transition(s, Published(next), c);
            && Filtered(c.(observations := next), after) == Order(next) && Agrees(after)
            && after.selectedId == None && SelectedIndex(after, c.(observations := next)) == -1
            && after.liveCueId == None
  {
    hide Continues, Parse, Filtered;
    EmptyParses();
    var after := Transition(s, Published(next), c);
    var shown := c.(observations := next);
    OrderIsStable(next, 0);
    ShowsAll(shown, after);
  }

  lemma ShowsAll(c: Context, s: Review)
    requires s.quickView == None && s.query == EMPTY_QUERY && IsOrdered(Order(c.observations))
    ensures Filtered(c, s) == Order(c.observations)
  {
    EverythingPasses(c, Order(c.observations));
  }

  /** The live cue is the last new movement: none of the later records is a new movement. */
  lemma {:induction false} CueIsNewest(obs: seq<Observation>, seen: int, otherwise: Option<Text>)
    ensures (NewestCue(obs, seen, otherwise) == otherwise && NoNewMovement(obs, seen, 0))
        || exists k :: LastNewMovement(obs, seen, k) && NewestCue(obs, seen, otherwise) == Some(obs[k].id)
  {
    if obs != [] && obs[|obs| - 1].sequence > seen && obs[|obs| - 1].movement {
      assert LastNewMovement(obs, seen, |obs| - 1);
    }
    if obs != [] && !(obs[|obs| - 1].sequence > seen && obs[|obs| - 1].movement) {
      var front := obs[..|obs| - 1];
      CueIsNewest(front, seen, otherwise);
      if k :| LastNewMovement(front, seen, k) && NewestCue(front, seen, otherwise) == Some(front[k].id) {
        assert LastNewMovement(obs, seen, k);
      }
    }
  }

  predicate NoNewMovement(obs: seq<Observation>, seen: int, from: nat) {
    forall k :: from <= k < |obs| ==> !(obs[k].sequence > seen && obs[k].movement)
  }

  predicate LastNewMovement(obs: seq<Observation>, seen: int, k: int) {
    0 <= k < |obs| && obs[k].sequence > seen && obs[k].movement && NoNewMovement(obs, seen, k + 1)
  }

  /** The loop of `published` over the records. */
  method NewestMovement(next: seq<Observation>, seen: int, cue: Option<Text>) returns (newest: Option<Text>)
    ensures newest == NewestCue(next, seen, cue)
  {
    newest := cue;
    assert next[..0] == [];
    for i := 0 to |next|
      invariant newest == NewestCue(next[..i], seen, cue)
    {
      assert next[..i + 1][..i] == next[..i];
      if next[i].sequence <= seen { continue; }
      if next[i].movement { newest := Some(next[i].id); }
    }
    assert next[..|next|] == next;
  }
}
