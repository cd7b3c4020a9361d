/**
 * What a whole transaction does: it sees the tables of its beginning and its own calls, commits them together or not at
 * all, and leaves nothing behind when it is rolled back.
 */
module DatabaseTransactions {
  import opened Outcomes
  import opened Canonical
  import opened DatabaseModel
  import opened DatabaseTheorems

  // ---------- The calls of a transaction ----------

  /** The tables after some calls. */
  function AfterCalls(tables: Tables, calls: seq<Call>): Tables {
    if calls == [] then tables
    else
      var before := AfterCalls(tables, calls[..|calls| - 1]);
      Effect(before, calls[|calls| - 1]).0
  }

  /** One of the calls changes the tables. */
  predicate Changes(tables: Tables, calls: seq<Call>) {
    if calls == [] then false
    else
      var before := AfterCalls(tables, calls[..|calls| - 1]);
      var answer := Effect(before, calls[|calls| - 1]).1;
      Changes(tables, calls[..|calls| - 1]) || answer == Done || answer == Existed(true)
  }

  /** The calls made one after the other through the handle. */
  function AccessAll(schema: Schema, db: Db, h: nat, task: Task, calls: seq<Call>): (after: Db)
    requires h < |db.txs|
    ensures |after.txs| == |db.txs|
  {
    if calls == [] then db
    else Access(schema, AccessAll(schema, db, h, task, calls[..|calls| - 1]), h, Some(task), calls[|calls| - 1]).0
  }

  /** From `db` to `after` only the transaction `h` changed. */
  predicate OnlyTx(db: Db, after: Db, h: nat) {
    h < |db.txs| == |after.txs| && after == db.(txs := db.txs[h := after.txs[h]])
  }

  /** A task of the owner without an open transaction gets one on the tables as they are. */
  lemma BeginOpens(schema: Schema, db: Db, task: Task)
    requires task.owner == schema.owner && task.id !in db.open
    ensures var after, h := Begin(schema, db, Some(task)), |db.txs|;
      && h < |after.txs| && Active(after, h, Some(task)) && after == db.(txs := after.txs, open := after.open)
      && after.open == db.open[task.id := h] && after.txs[..h] == db.txs
      && after.txs[h].snapshot == db.committed && after.txs[h].baseRevision == db.revision
      && after.txs[h].script == []
  {}

  /** A valid call through an open transaction answers what it would on the tables the transaction sees. */
  lemma AccessAnswers(schema: Schema, db: Db, h: nat, task: Task, call: Call)
    requires h < |db.txs| && Active(db, h, Some(task)) && ValidCall(schema, call)
    ensures var (after, result) := Access(schema, db, h, Some(task), call);
      var (tables, answer) := Effect(db.txs[h].snapshot, call);
      && OnlyTx(db, after, h) && Active(after, h, Some(task)) && after.txs[h].snapshot == tables
      && after.txs[h].baseRevision == db.txs[h].baseRevision
      && after.txs[h].script == db.txs[h].script + [Exchange(call, answer)]
      && result == (if answer.Refused? then Err(answer.code) else Ok(answer))
  {
    hide ValidCall, Perform, Effect;
    PerformIsEffect(db.txs[h], call);
    RecordedFrame(db.txs[h], call);
  }

  lemma {:induction false} CallsAnswer(schema: Schema, db: Db, h: nat, task: Task, calls: seq<Call>)
    requires h < |db.txs| && Active(db, h, Some(task)) && db.txs[h].script == []
    requires forall i :: 0 <= i < |calls| ==> ValidCall(schema, calls[i])
    ensures var after := AccessAll(schema, db, h, task, calls);
      && OnlyTx(db, after, h) && Active(after, h, Some(task))
      && after.txs[h].snapshot == AfterCalls(db.txs[h].snapshot, calls)
      && after.txs[h].baseRevision == db.txs[h].baseRevision
      && (Wrote(after.txs[h].script) <==> Changes(db.txs[h].snapshot, calls))
    decreases |calls|
  {
    hide Access, ValidCall, Effect, Wrote, Active;
    if calls == [] {
      NothingWritten();
    } else {
      var front, last := calls[..|calls| - 1], calls[|calls| - 1];
      CallsAnswer(schema, db, h, task, front);
      var before := AccessAll(schema, db, h, task, front);
      AccessAnswers(schema, before, h, task, last);
      WroteGrows(before.txs[h].script, Exchange(last, Effect(before.txs[h].snapshot, last).1));
    }
  }

  lemma NothingWritten()
    ensures !Wrote([])
  {}

  lemma {:induction false} AccessAllKeeps(schema: Schema, db: Db, h: nat, task: Task, calls: seq<Call>)
    requires Inv(schema, db) && h < |db.txs|
    ensures Inv(schema, AccessAll(schema, db, h, task, calls))
    decreases |calls|
  {
    hide Inv, Access;
    if calls != [] {
      AccessAllKeeps(schema, db, h, task, calls[..|calls| - 1]);
      AccessKeeps(schema, AccessAll(schema, db, h, task, calls[..|calls| - 1]), h, Some(task), calls[|calls| - 1]);
    }
  }

  // ---------- Commit ----------

  /** A transaction that is begun, makes its calls and submits, with nothing in between. */
  function Submitted(schema: Schema, db: Db, task: Task, calls: seq<Call>, operation: nat): Db
    requires task.owner == schema.owner && task.id !in db.open
  {
    var h := |db.txs|;
    Submit(AccessAll(schema, Begin(schema, db, Some(task)), h, task, calls), h, Some(task), operation)
  }

  lemma SubmitWaits(db: Db, h: nat, task: Task, operation: nat)
    requires h < |db.txs| && Active(db, h, Some(task))
    ensures var after := Submit(db, h, Some(task), operation);
      && operation in after.pending && after.pending[operation] == h
      && after.txs[h] == db.txs[h].(status := Status.Submitted)
      && after.committed == db.committed && after.revision == db.revision && after.history == db.history
  {}

  /**
   * An undisturbed transaction is atomic: if the tables its calls lead to satisfy the constraints they become the
   * committed tables, with a new revision if a call changed anything; otherwise nothing of it is committed.
   */
  lemma WholeTransaction(schema: Schema, db: Db, task: Task, calls: seq<Call>, operation: nat)
    requires Inv(schema, db) && task.owner == schema.owner && task.id !in db.open && operation !in db.pending
    requires forall i :: 0 <= i < |calls| ==> ValidCall(schema, calls[i])
    ensures Handles(Submitted(schema, db, task, calls, operation))
    ensures var (after, outcome) := Dispatch(schema, Submitted(schema, db, task, calls, operation), operation, false);
      var tables := AfterCalls(db.committed, calls);
      if Satisfies(schema, tables) then
        && outcome == Some(Ok(())) && after.committed == tables
        && after.revision == db.revision + if Changes(db.committed, calls) then 1 else 0
      else
        outcome == Some(Err(CONSTRAINT_VIOLATION)) && after.committed == db.committed && after.revision == db.revision
  {
    hide Inv, Satisfies, ValidCall, Begin, Access, Submit, Active, Dispatch, Wrote, Handles, Effect;
    var h := |db.txs|;
    var begun := Begin(schema, db, Some(task));
    BeginOpens(schema, db, task);
    BeginKeeps(schema, db, Some(task));
    CallsAnswer(schema, begun, h, task, calls);
    AccessAllKeeps(schema, begun, h, task, calls);
    var called := AccessAll(schema, begun, h, task, calls);
    SubmitWaits(called, h, task, operation);
    SubmitKeeps(schema, called, h, Some(task), operation);
    var submitted := Submit(called, h, Some(task), operation);
    InvHandles(schema, submitted);
    CommitOutcome(schema, submitted, operation, false);
    RevisionCounts(schema, db);
  }

  lemma RevisionCounts(schema: Schema, db: Db)
    requires Inv(schema, db)
    ensures db.revision == Writers(db.history)
  {
    hide TxsOk, OpenOk, PendingOk, Serial, Writers, HistoryOk, Satisfies;
  }

  // ---------- Rollback ----------

  /** The transaction is over and no pending commit is its. */
  predicate Gone(db: Db, h: nat) {
    && h < |db.txs| && (db.txs[h].status == RolledBack || db.txs[h].status == Closed)
    && (forall o :: o in db.pending ==> db.pending[o] != h)
  }

  /**
   * A rollback by the task of the open transaction ends it and touches nothing else: the task may begin another one,
   * and nothing it did is committed or waits to be. Any other rollback changes nothing.
   */
  lemma RollbackDiscards(schema: Schema, db: Db, h: nat, task: Option<Task>)
    requires Inv(schema, db) && h < |db.txs|
    ensures var after := Rollback(db, h, task);
      if Active(db, h, task) then
        && Gone(after, h) && OnlyTx(db, after.(open := db.open), h) && after.txs[h].status == RolledBack
        && task.Some? && task.value.id !in after.open && forall t :: t in db.open && t != task.value.id ==>
            t in after.open && after.open[t] == db.open[t]
      else after == db
  {
    hide Satisfies, Serial, Writers, HistoryOk, TxsOk;
  }

  lemma GoneStays(schema: Schema, db: Db, input: Input, h: nat)
    requires Inv(schema, db) && Handles(db) && Possible(db, input) && Gone(db, h)
    ensures Gone(Step(schema, db, input), h)
  {
    hide TxsOk, PendingOk, Serial, Writers, HistoryOk, Satisfies, ValidCall, Verdict, Candidate;
    match input
    case DoAccess(g, task, call) => RecordedFrame(db.txs[g], call);
    case DoAbandon(generation) => AbandonSpares(db, generation, h);
    case _ =>
  }

  lemma AbandonSpares(db: Db, generation: nat, h: nat)
    requires Handles(db) && OpenOk(db.open, db.txs, db.epoch) && Gone(db, h)
    ensures Gone(Abandon(db, generation), h)
  {
    var after := Abandon(db, generation);
    forall o | o in after.pending ensures o in db.pending && after.pending[o] == db.pending[o] {}
  }

  /** A transaction that was rolled back stays over in every continuation of the run: no dispatch ever decides it. */
  lemma {:induction false} RolledBackStaysOut(schema: Schema, run: seq<Db>, inputs: seq<Input>, i: nat, j: nat, h: nat)
    requires IsRun(schema, run, inputs) && i < j < |run| && Satisfies(schema, schema.initial)
    requires inputs[i].DoRollback? && inputs[i].h == h && h < |run[i].txs| && Active(run[i], h, inputs[i].task)
    ensures Gone(run[j], h)
    decreases j
  {
    hide Inv, Satisfies, Handles, Step, Gone, Active;
    RunKeeps(schema, run, inputs, j - 1);
    assert Follows(schema, run[j - 1], inputs[j - 1], run[j - 1 + 1]);
    if j == i + 1 {
      RollbackDiscards(schema, run[i], h, inputs[i].task);
      StepIsRollback(schema, run[i], h, inputs[i].task);
    } else {
      RolledBackStaysOut(schema, run, inputs, i, j - 1, h);
      GoneStays(schema, run[j - 1], inputs[j - 1], h);
    }
  }

  lemma StepIsRollback(schema: Schema, db: Db, h: nat, task: Option<Task>)
    requires Handles(db) && h < |db.txs|
    ensures Step(schema, db, DoRollback(h, task)) == Rollback(db, h, task)
  {}
}
