/**
 * The assertion state machine of a scenario attempt. Each assertion is settled at its first deciding boundary, and the
 * verdict of a completed attempt is the temporal meaning of its mode.
 */
module Assessment {
  import opened Outcomes

  datatype Mode = Always | Eventually | AtMarker
  datatype Status = PENDING | PASS | FAIL | INCOMPLETE
  datatype Assertion = Assertion(id: string, mode: Mode)
  datatype Row = Row(status: Status, time: nat, evidence: nat)
  datatype Verdict = Verdict(pass: bool, evidence: nat)

  datatype Phase = Init | AfterEvent(time: nat, marker: Option<string>) | Completion

  /** A boundary of the run and what each assertion's predicate says of the projection there. */
  datatype Boundary = Boundary(phase: Phase, verdict: string -> Verdict)

  predicate Marker(b: Boundary, id: string) { b.phase.AfterEvent? && b.phase.marker == Some(id) }

  function NowAt(b: Boundary, startTime: nat, now: nat): nat {
    match b.phase
    case Init => startTime
    case AfterEvent(time, _) => time
    case Completion => now
  }

  /** One assertion at one boundary. */
  function RowStep(a: Assertion, row: Row, b: Boundary, now: nat): Row {
    if row.status != PENDING then row
    else
      var v := b.verdict(a.id);
      match a.mode
      case AtMarker =>
        if Marker(b, a.id) || b.phase.Completion? then Row(if v.pass then PASS else FAIL, now, v.evidence) else row
      case Always =>
        Row(if !v.pass then FAIL else if b.phase.Completion? then PASS else PENDING, now, v.evidence)
      case Eventually =>
        Row(if v.pass then PASS else if Marker(b, a.id) || b.phase.Completion? then FAIL else PENDING, now, v.evidence)
  }

  type Rows = map<string, Row>

  /** `evaluate`: the assertions in order, each on its own row. */
  function EvaluateAll(assertions: seq<Assertion>, rows: Rows, b: Boundary, now: nat): Rows {
    if assertions == [] then rows
    else
      var before := EvaluateAll(assertions[..|assertions| - 1], rows, b, now);
      var a := assertions[|assertions| - 1];
      if a.id in before then before[a.id := RowStep(a, before[a.id], b, now)] else before
  }

  function Fail(rows: Rows): Rows {
    map id | id in rows :: if rows[id].status == PENDING then rows[id].(status := INCOMPLETE) else rows[id]
  }

  // ---------- The object ----------

  class AssessmentAttempt {
    const assertions: seq<Assertion>
    const startTime: nat
    var rows: Rows
    var now: nat

    constructor (assertions: seq<Assertion>, startTime: nat)
      ensures this.assertions == assertions && this.startTime == startTime && now == startTime
      ensures rows == InitialRows(assertions, startTime)
    {
      this.assertions, this.startTime, now := assertions, startTime, startTime;
      rows := map a | a in assertions :: a.id := Row(PENDING, startTime, 0);
    }

    method Evaluate(b: Boundary)
      modifies this`rows
      ensures rows == EvaluateAll(assertions, old(rows), b, now)
    {
      assert assertions[..0] == [];
      for i := 0 to |assertions|
        invariant rows == EvaluateAll(assertions[..i], old(rows), b, now)
      {
        var a := assertions[i];
        assert assertions[..i + 1][..i] == assertions[..i];
        if a.id !in rows || rows[a.id].status != PENDING { continue; }
        var row := rows[a.id];
        var v := b.verdict(a.id);
        match a.mode {
          case AtMarker =>
            if Marker(b, a.id) || b.phase.Completion? { Settle(a.id, if v.pass then PASS else FAIL, v); }
          case Always =>
            Settle(a.id, if v.pass then (if b.phase.Completion? then PASS else PENDING) else FAIL, v);
          case Eventually =>
            if v.pass { Settle(a.id, PASS, v); }
            else if Marker(b, a.id) || b.phase.Completion? { Settle(a.id, FAIL, v); }
            else { Settle(a.id, PENDING, v); }
        }
      }
      assert assertions[..|assertions|] == assertions;
    }

    /** `commit`. */
    method Settle(id: string, status: Status, v: Verdict)
      modifies this`rows
      ensures rows == old(rows)[id := Row(status, now, v.evidence)]
    {
      rows := rows[id := Row(status, now, v.evidence)];
    }

    /** `afterInitialization`, `afterEvent` and `onCompletion`. */
    method Boundary(b: Boundary)
      modifies this`rows, this`now
      ensures now == NowAt(b, startTime, old(now))
      ensures rows == EvaluateAll(assertions, old(rows), b, now)
    {
      now := match b.phase case Init => startTime case AfterEvent(time, _) => time case Completion => now;
      Evaluate(b);
    }

    method OnFailure()
      modifies this`rows
      ensures rows == Fail(old(rows))
    {
      var ids := rows.Keys;
      ghost var before := rows;
      while ids != {}
        invariant ids <= rows.Keys == before.Keys
        invariant forall id :: id in rows ==> rows[id] == if id in ids then before[id] else Fail(before)[id]
        decreases |ids|
      {
        var id :| id in ids;
        if rows[id].status == PENDING { rows := rows[id := rows[id].(status := INCOMPLETE)]; }
        ids := ids - {id};
      }
    }
  }

  ghost function InitialRows(assertions: seq<Assertion>, startTime: nat): Rows {
    map a | a in assertions :: a.id := Row(PENDING, startTime, 0)
  }

  // ---------- Attempts ----------

  predicate DistinctIds(assertions: seq<Assertion>) {
    forall i, j :: 0 <= i < j < |assertions| ==> assertions[i].id != assertions[j].id
  }

  predicate NamesNone(assertions: seq<Assertion>, id: string) {
    forall a :: a in assertions ==> a.id != id
  }

  lemma OthersNamed(assertions: seq<Assertion>)
    requires assertions != [] && DistinctIds(assertions)
    ensures NamesNone(assertions[..|assertions| - 1], assertions[|assertions| - 1].id)
  {
    var front, last := assertions[..|assertions| - 1], assertions[|assertions| - 1];
    forall a | a in front ensures a.id != last.id {
      var i :| 0 <= i < |front| && front[i] == a;
      assert assertions[i].id != last.id;
    }
  }

  /** Assertions with distinct ids do not disturb each other. */
  lemma {:induction false} EvaluateAllAt(assertions: seq<Assertion>, rows: Rows, b: Boundary, now: nat, id: string)
    requires DistinctIds(assertions)
    ensures EvaluateAll(assertions, rows, b, now).Keys == rows.Keys
    ensures NamesNone(assertions, id) && id in rows ==> EvaluateAll(assertions, rows, b, now)[id] == rows[id]
    ensures forall a :: a in assertions && a.id == id && id in rows ==>
        EvaluateAll(assertions, rows, b, now)[id] == RowStep(a, rows[id], b, now)
  {
    hide RowStep;
    if assertions != [] {
      var front, last := assertions[..|assertions| - 1], assertions[|assertions| - 1];
      EvaluateAllAt(front, rows, b, now, id);
      OthersNamed(assertions);
      assert assertions == front + [last];
      if last.id != id { assert NamesNone(assertions, id) <==> NamesNone(front, id); }
    }
  }

  /** The clock and the rows after the boundaries of an attempt. */
  function Attempt(assertions: seq<Assertion>, startTime: nat, bs: seq<Boundary>): (nat, Rows) {
    if bs == [] then (startTime, map a | a in assertions :: a.id := Row(PENDING, startTime, 0))
    else
      var (now, rows) := Attempt(assertions, startTime, bs[..|bs| - 1]);
      var b := bs[|bs| - 1];
      (NowAt(b, startTime, now), EvaluateAll(assertions, rows, b, NowAt(b, startTime, now)))
  }

  // ---------- Meaning ----------

  /** The boundary settles the assertion if it is still open. */
  predicate Decides(a: Assertion, b: Boundary) {
    match a.mode
    case Always => !b.verdict(a.id).pass || b.phase.Completion?
    case Eventually => b.verdict(a.id).pass || Marker(b, a.id) || b.phase.Completion?
    case AtMarker => Marker(b, a.id) || b.phase.Completion?
  }

  predicate FirstDecision(a: Assertion, bs: seq<Boundary>, i: nat) {
    i < |bs| && Decides(a, bs[i]) && forall k :: 0 <= k < i ==> !Decides(a, bs[k])
  }

  predicate Undecided(a: Assertion, bs: seq<Boundary>) { forall k :: 0 <= k < |bs| ==> !Decides(a, bs[k]) }

  function TimeOf(bs: seq<Boundary>, startTime: nat, i: nat): nat
    requires i < |bs|
  { if i == 0 then NowAt(bs[0], startTime, startTime) else NowAt(bs[i], startTime, TimeOf(bs, startTime, i - 1)) }

  lemma {:induction false} AttemptTime(assertions: seq<Assertion>, startTime: nat, bs: seq<Boundary>)
    requires bs != []
    ensures Attempt(assertions, startTime, bs).0 == TimeOf(bs, startTime, |bs| - 1)
  {
    if |bs| > 1 {
      AttemptTime(assertions, startTime, bs[..|bs| - 1]);
      TimeOfPrefix(bs, startTime, |bs| - 2);
    } else {
      assert bs[..0] == [];
    }
  }

  lemma {:induction false} TimeOfPrefix(bs: seq<Boundary>, startTime: nat, i: nat)
    requires i < |bs| - 1
    ensures TimeOf(bs[..|bs| - 1], startTime, i) == TimeOf(bs, startTime, i)
  {
    if i > 0 { TimeOfPrefix(bs, startTime, i - 1); }
  }

  /**
   * The row of an assertion: pending while nothing decided it, and from then on the verdict, time and evidence of its
   * first deciding boundary.
   */
  lemma {:induction false} RowIsFirstDecision(assertions: seq<Assertion>, startTime: nat, bs: seq<Boundary>,
                                              a: Assertion)
    requires DistinctIds(assertions) && a in assertions
    ensures a.id in Attempt(assertions, startTime, bs).1
    ensures Undecided(a, bs) <==> Attempt(assertions, startTime, bs).1[a.id].status == PENDING
    ensures forall i: nat :: FirstDecision(a, bs, i) ==>
        Attempt(assertions, startTime, bs).1[a.id] == SettledRow(a, bs, startTime, i)
  {
    if bs == [] {
      var j :| 0 <= j < |assertions| && assertions[j] == a;
      forall x | x in assertions && x.id == a.id ensures x == a {
        var k :| 0 <= k < |assertions| && assertions[k] == x;
      }
    } else {
      var front, b := bs[..|bs| - 1], bs[|bs| - 1];
      RowIsFirstDecision(assertions, startTime, front, a);
      var (now, rows) := Attempt(assertions, startTime, front);
      EvaluateAllAt(assertions, rows, b, NowAt(b, startTime, now), a.id);
      AttemptTime(assertions, startTime, bs);
      if |bs| > 1 { AttemptTime(assertions, startTime, front); }
      assert bs == front + [b];
      forall i: nat | FirstDecision(a, bs, i)
        ensures Attempt(assertions, startTime, bs).1[a.id] == SettledRow(a, bs, startTime, i)
      {
        if i < |front| {
          assert FirstDecision(a, front, i);
          TimeOfPrefix(bs, startTime, i);
        } else {
          assert Undecided(a, front);
        }
      }
      assert Undecided(a, bs) <==> Undecided(a, front) && !Decides(a, b);
      if !Undecided(a, front) { var i := DecisionExists(a, front); }
    }
  }

  function SettledRow(a: Assertion, bs: seq<Boundary>, startTime: nat, i: nat): Row
    requires i < |bs|
  { Row(if bs[i].verdict(a.id).pass then PASS else FAIL, TimeOf(bs, startTime, i), bs[i].verdict(a.id).evidence) }

  lemma {:induction false} DecisionExists(a: Assertion, bs: seq<Boundary>) returns (i: nat)
    requires !Undecided(a, bs)
    ensures FirstDecision(a, bs, i)
  {
    if Undecided(a, bs[..|bs| - 1]) {
      i := |bs| - 1;
    } else {
      i := DecisionExists(a, bs[..|bs| - 1]);
    }
  }

  /** A boundary trace that ends with the attempt's only completion. */
  predicate Completed(bs: seq<Boundary>) {
    bs != [] && bs[|bs| - 1].phase.Completion? && forall i :: 0 <= i < |bs| - 1 ==> !bs[i].phase.Completion?
  }

  /** The predicate held at every boundary. */
  predicate HeldAlways(a: Assertion, bs: seq<Boundary>) { forall i :: 0 <= i < |bs| ==> bs[i].verdict(a.id).pass }

  /** It held at some boundary that no earlier marker closed off. */
  predicate HeldInTime(a: Assertion, bs: seq<Boundary>) {
    exists i :: 0 <= i < |bs| && bs[i].verdict(a.id).pass && forall k :: 0 <= k < i ==> !Marker(bs[k], a.id)
  }

  /** It held at the first marker, or at the end when no marker came. */
  predicate HeldAtMarker(a: Assertion, bs: seq<Boundary>) {
    exists i :: 0 <= i < |bs| && bs[i].verdict(a.id).pass && (Marker(bs[i], a.id) || i == |bs| - 1)
        && forall k :: 0 <= k < i ==> !Marker(bs[k], a.id)
  }

  predicate Holds(a: Assertion, bs: seq<Boundary>) {
    match a.mode
    case Always => HeldAlways(a, bs)
    case Eventually => HeldInTime(a, bs)
    case AtMarker => HeldAtMarker(a, bs)
  }

  /** The verdicts of a completed attempt are the temporal meaning of the assertions; none is pending. */
  lemma VerdictIsMeaning(assertions: seq<Assertion>, startTime: nat, bs: seq<Boundary>, a: Assertion)
    requires DistinctIds(assertions) && a in assertions && Completed(bs)
    ensures a.id in Attempt(assertions, startTime, bs).1
    ensures Attempt(assertions, startTime, bs).1[a.id].status == if Holds(a, bs) then PASS else FAIL
  {
    hide Attempt;
    RowIsFirstDecision(assertions, startTime, bs, a);
    assert Decides(a, bs[|bs| - 1]);
    var i := DecisionExists(a, bs);
    DecisionIsMeaning(a, bs, i);
  }

  lemma DecisionIsMeaning(a: Assertion, bs: seq<Boundary>, i: nat)
    requires Completed(bs) && FirstDecision(a, bs, i)
    ensures bs[i].verdict(a.id).pass <==> Holds(a, bs)
  {
    match a.mode
    case Always =>
      forall k | 0 <= k < i ensures bs[k].verdict(a.id).pass { assert !Decides(a, bs[k]); }
    case Eventually =>
      forall k | 0 <= k < i ensures !bs[k].verdict(a.id).pass && !Marker(bs[k], a.id) { assert !Decides(a, bs[k]); }
    case AtMarker =>
      forall k | 0 <= k < i ensures !Marker(bs[k], a.id) && k < |bs| - 1 { assert !Decides(a, bs[k]); }
  }

  /** A settled verdict never changes. */
  lemma {:induction false} SettledStays(assertions: seq<Assertion>, startTime: nat, bs: seq<Boundary>, n: nat,
                                        a: Assertion)
    requires DistinctIds(assertions) && a in assertions && n <= |bs|
    ensures a.id in Attempt(assertions, startTime, bs[..n]).1 && a.id in Attempt(assertions, startTime, bs).1
    ensures (Attempt(assertions, startTime, bs[..n]).1[a.id].status != PENDING ==>
             Attempt(assertions, startTime, bs).1[a.id] == Attempt(assertions, startTime, bs[..n]).1[a.id])
  {
    RowIsFirstDecision(assertions, startTime, bs, a);
    RowIsFirstDecision(assertions, startTime, bs[..n], a);
    if n < |bs| {
      SettledStays(assertions, startTime, bs[..|bs| - 1], n, a);
      assert bs[..|bs| - 1][..n] == bs[..n];
      var (now, rows) := Attempt(assertions, startTime, bs[..|bs| - 1]);
      RowIsFirstDecision(assertions, startTime, bs[..|bs| - 1], a);
      EvaluateAllAt(assertions, rows, bs[|bs| - 1], NowAt(bs[|bs| - 1], startTime, now), a.id);
    } else {
      assert bs[..n] == bs;
    }
  }

  /**
   * A failed attempt leaves nothing pending and touches no settled verdict: exactly the undecided rows are incomplete.
   */
  lemma FailureIsIncomplete(assertions: seq<Assertion>, startTime: nat, bs: seq<Boundary>, a: Assertion)
    requires DistinctIds(assertions) && a in assertions
    ensures a.id in Fail(Attempt(assertions, startTime, bs).1)
    ensures var row := Fail(Attempt(assertions, startTime, bs).1)[a.id];
            && row.status != PENDING
            && (row.status == INCOMPLETE <==> Undecided(a, bs))
            && (row.status != INCOMPLETE ==> row == Attempt(assertions, startTime, bs).1[a.id])
  {
    RowIsFirstDecision(assertions, startTime, bs, a);
    if !Undecided(a, bs) { var i := DecisionExists(a, bs); }
  }
}
