/** Serialisability, conflict detection and constraint safety of the optimistic database, over every run. */
module DatabaseTheorems {
  import opened Outcomes
  import opened Canonical
  import opened CanonicalEquality
  import opened DatabaseModel

  // ---------- What a call means on plain tables ----------

  /** A call made directly on tables, with nobody else around. */
  function Effect(tables: Tables, call: Call): (Tables, Answer) {
    match call
    case Get(slot) => (tables, Found(At(tables, slot)))
    case Scan(table) => (tables, Listed(Rows(tables, table)))
    case Insert(slot, row) => if slot in tables then (tables, Refused(ROW_EXISTS)) else (tables[slot := row], Done)
    case Update(slot, row) => if slot in tables then (tables[slot := row], Done) else (tables, Refused(ROW_NOT_FOUND))
    case Delete(slot) => (tables - {slot}, Existed(slot in tables))
  }

  /** The calls of a transaction made directly on tables; none when an answer differs from the recorded one. */
  function Replay(tables: Tables, script: seq<Exchange>): Option<Tables> {
    if script == [] then Some(tables)
    else
      match Replay(tables, script[..|script| - 1])
      case None => None
      case Some(before) =>
        var last := script[|script| - 1];
        var (after, answer) := Effect(before, last.call);
        if answer == last.answer then Some(after) else None
  }

  /** Whole transactions one after the other. */
  function Serial(tables: Tables, history: seq<Tx>): Option<Tables> {
    if history == [] then Some(tables)
    else
      match Serial(tables, history[..|history| - 1])
      case None => None
      case Some(before) => Replay(before, history[|history| - 1].script)
  }

  /** One of the calls changed the tables. */
  predicate Wrote(script: seq<Exchange>) {
    exists i :: 0 <= i < |script| && (script[i].answer == Done || script[i].answer == Existed(true))
  }

  /** How many of the committed transactions wrote. */
  function Writers(history: seq<Tx>): nat {
    if history == [] then 0
    else Writers(history[..|history| - 1]) + if Wrote(history[|history| - 1].script) then 1 else 0
  }

  // ---------- Invariant ----------

  /** A transaction's snapshot and change log both describe its calls on the tables it started from. */
  predicate TxOk(tx: Tx) {
    && Replay(tx.base, tx.script) == Some(tx.snapshot)
    && Apply(tx.base, tx.writes) == tx.snapshot
    && (forall slot :: slot in tx.writes ==> tx.writes[slot].before == At(tx.base, slot))
    && (!tx.staged ==> tx.writes == map[])
    && (tx.staged <==> Wrote(tx.script))
  }

  /** A transaction of the current epoch: nothing was committed since it began if its base revision is current. */
  predicate Based(tx: Tx, committed: Tables, revision: nat) {
    && TxOk(tx)
    && tx.baseRevision <= revision
    && (tx.baseRevision == revision ==> tx.base == committed)
  }

  predicate TxsOk(txs: seq<Tx>, epoch: nat, committed: Tables, revision: nat) {
    forall h :: 0 <= h < |txs| ==>
        txs[h].epoch <= epoch
        && (txs[h].epoch == epoch ==> Based(txs[h], committed, revision))
  }

  predicate OpenOk(open: map<nat, nat>, txs: seq<Tx>, epoch: nat) {
    forall t :: t in open ==>
      open[t] < |txs| && txs[open[t]].status == Opened && txs[open[t]].epoch == epoch && txs[open[t]].task.id == t
  }

  predicate PendingOk(pending: map<nat, nat>, txs: seq<Tx>, epoch: nat) {
    && (forall o :: o in pending ==>
      pending[o] < |txs| && txs[pending[o]].status == Submitted && txs[pending[o]].epoch == epoch)
    && (forall o, p :: o in pending && p in pending && pending[o] == pending[p] ==> o == p)
  }

  /** Each committed transaction began exactly where the writers before it left the database. */
  predicate HistoryOk(history: seq<Tx>) {
    forall i :: 0 <= i < |history| ==> history[i].baseRevision == Writers(history[..i])
  }

  predicate Inv(schema: Schema, db: Db) {
    && TxsOk(db.txs, db.epoch, db.committed, db.revision)
    && OpenOk(db.open, db.txs, db.epoch)
    && PendingOk(db.pending, db.txs, db.epoch)
    && Serial(schema.initial, db.history) == Some(db.committed)
    && db.revision == Writers(db.history)
    && HistoryOk(db.history)
    && Satisfies(schema, db.committed)
  }

  // ---------- Transactions ----------

  lemma WriteKeeps(tx: Tx, slot: Slot, after: Option<Row>)
    requires Apply(tx.base, tx.writes) == tx.snapshot
    requires forall s :: s in tx.writes ==> tx.writes[s].before == At(tx.base, s)
    ensures Apply(tx.base, Write(tx, slot, after).writes) == Write(tx, slot, after).snapshot
    ensures forall s :: s in Write(tx, slot, after).writes ==> Write(tx, slot, after).writes[s].before == At(tx.base, s)
  {
    var next := Write(tx, slot, after);
    assert slot !in tx.writes ==> At(tx.snapshot, slot) == At(tx.base, slot);
    forall s ensures At(Apply(tx.base, next.writes), s) == At(next.snapshot, s) {
      assert At(Apply(tx.base, tx.writes), s) == At(tx.snapshot, s);
    }
    SameTables(Apply(tx.base, next.writes), next.snapshot);
  }

  lemma SameTables(a: Tables, b: Tables)
    requires forall s :: At(a, s) == At(b, s)
    ensures a == b
  {
    forall s ensures s in a <==> s in b { assert At(a, s) == At(b, s); }
    forall s | s in a ensures a[s] == b[s] { assert At(a, s) == At(b, s); }
  }

  /** A call on the snapshot has the effect and the answer it has on plain tables. */
  lemma PerformIsEffect(tx: Tx, call: Call)
    ensures Effect(tx.snapshot, call) == (Perform(tx, call).0.snapshot, Perform(tx, call).1)
  {
    match call
    case Delete(slot) => if slot !in tx.snapshot { assert tx.snapshot - {slot} == tx.snapshot; }
    case _ =>
  }

  lemma RecordedFrame(tx: Tx, call: Call)
    ensures var next := Recorded(tx, call).0;
      && next == tx.(snapshot := next.snapshot, writes := next.writes, staged := next.staged, script := next.script)
      && next.script == tx.script + [Exchange(call, Perform(tx, call).1)]
      && next.snapshot == Perform(tx, call).0.snapshot
      && next.writes == Perform(tx, call).0.writes && next.staged == Perform(tx, call).0.staged
  {}

  /** One more call on the tables that a script leads to. */
  lemma ReplayGrows(base: Tables, script: seq<Exchange>, tables: Tables, last: Exchange)
    requires Replay(base, script) == Some(tables) && Effect(tables, last.call).1 == last.answer
    ensures Replay(base, script + [last]) == Some(Effect(tables, last.call).0)
  {
    assert (script + [last])[..|script|] == script;
  }

  lemma PerformKeeps(tx: Tx, call: Call)
    requires Apply(tx.base, tx.writes) == tx.snapshot && (!tx.staged ==> tx.writes == map[])
    requires forall slot :: slot in tx.writes ==> tx.writes[slot].before == At(tx.base, slot)
    ensures var next := Perform(tx, call).0;
      && Apply(tx.base, next.writes) == next.snapshot && (!next.staged ==> next.writes == map[])
      && forall slot :: slot in next.writes ==> next.writes[slot].before == At(tx.base, slot)
  {
    hide Apply, At;
    match call
    case Insert(slot, row) => WriteKeeps(tx, slot, Some(row));
    case Update(slot, row) => WriteKeeps(tx, slot, Some(row));
    case Delete(slot) => WriteKeeps(tx, slot, None);
    case _ =>
  }

  lemma PerformStages(tx: Tx, call: Call)
    ensures var (next, answer) := Perform(tx, call);
      next.staged <==> tx.staged || answer == Done || answer == Existed(true)
  {}

  lemma WroteGrows(script: seq<Exchange>, last: Exchange)
    ensures Wrote(script + [last]) <==> Wrote(script) || last.answer == Done || last.answer == Existed(true)
  {
    if last.answer == Done || last.answer == Existed(true) { assert (script + [last])[|script|] == last; }
    if Wrote(script) {
      var i :| 0 <= i < |script| && (script[i].answer == Done || script[i].answer == Existed(true));
      assert (script + [last])[i] == script[i];
    }
  }

  lemma RecordedKeeps(tx: Tx, call: Call)
    requires TxOk(tx)
    ensures TxOk(Recorded(tx, call).0)
    ensures Recorded(tx, call).0 ==
        tx.(snapshot := Recorded(tx, call).0.snapshot, writes := Recorded(tx, call).0.writes,
                                        staged := Recorded(tx, call).0.staged, script := Recorded(tx, call).0.script)
  {
    WroteGrows(tx.script, Exchange(call, Perform(tx, call).1));
    PerformStages(tx, call);
    hide Recorded, Perform, Effect, Apply, Replay, Wrote;
    RecordedFrame(tx, call);
    PerformIsEffect(tx, call);
    PerformKeeps(tx, call);
    ReplayGrows(tx.base, tx.script, tx.snapshot, Exchange(call, Perform(tx, call).1));
  }

  /** The net change log turns the tables a transaction started from into its private snapshot. */
  lemma NetChangesReproduceSnapshot(tx: Tx)
    requires TxOk(tx)
    ensures Apply(tx.base, Net(tx.writes)) == tx.snapshot
  {
    forall s ensures At(Apply(tx.base, Net(tx.writes)), s) == At(tx.snapshot, s) {
      assert At(Apply(tx.base, tx.writes), s) == At(tx.snapshot, s);
    }
    SameTables(Apply(tx.base, Net(tx.writes)), tx.snapshot);
  }

  // ---------- Steps ----------

  lemma BeginKeeps(schema: Schema, db: Db, task: Option<Task>)
    requires Inv(schema, db)
    ensures Inv(schema, Begin(schema, db, task))
  {
    hide Satisfies, Serial, Writers, HistoryOk;
    if MayBegin(schema, db, task) {
      var next := Begin(schema, db, task);
      var tx := next.txs[|db.txs|];
      assert Apply(tx.base, map[]) == tx.base;
      assert TxOk(tx);
    }
  }

  /** A transaction replaced by one that differs only in its view and its calls. */
  lemma ReplaceKeeps(db: Db, h: nat, tx: Tx)
    requires TxsOk(db.txs, db.epoch, db.committed, db.revision) && OpenOk(db.open, db.txs, db.epoch)
    requires PendingOk(db.pending, db.txs, db.epoch)
    requires h < |db.txs| && db.txs[h].epoch == db.epoch && TxOk(tx)
    requires tx == db.txs[h].(snapshot := tx.snapshot, writes := tx.writes, staged := tx.staged, script := tx.script)
    ensures TxsOk(db.txs[h := tx], db.epoch, db.committed, db.revision) && OpenOk(db.open, db.txs[h := tx], db.epoch)
    ensures PendingOk(db.pending, db.txs[h := tx], db.epoch)
  {
    hide TxOk;
  }

  lemma AccessKeeps(schema: Schema, db: Db, h: nat, task: Option<Task>, call: Call)
    requires Inv(schema, db) && h < |db.txs|
    ensures Inv(schema, Access(schema, db, h, task, call).0)
  {
    hide Satisfies, Serial, Writers, HistoryOk, TxOk, Recorded, ValidCall, OpenOk, PendingOk, TxsOk;
    if Active(db, h, task) && ValidCall(schema, call) {
      TxOfEpoch(db.txs, db.epoch, db.committed, db.revision, h);
      RecordedKeeps(db.txs[h], call);
      ReplaceKeeps(db, h, Recorded(db.txs[h], call).0);
    }
  }

  lemma TxOfEpoch(txs: seq<Tx>, epoch: nat, committed: Tables, revision: nat, h: nat)
    requires TxsOk(txs, epoch, committed, revision) && h < |txs| && txs[h].epoch == epoch
    ensures TxOk(txs[h])
  {}

  lemma SubmitKeeps(schema: Schema, db: Db, h: nat, task: Option<Task>, operation: nat)
    requires Inv(schema, db) && h < |db.txs| && operation !in db.pending
    ensures Inv(schema, Submit(db, h, task, operation))
  {
    hide Satisfies, Serial, Writers, HistoryOk, TxsOk;
    StatusKeepsTxs(db, h, Submitted);
  }

  /** The status of a transaction does not matter to what its snapshot and its change log say. */
  lemma StatusKeepsTxs(db: Db, h: nat, status: Status)
    requires TxsOk(db.txs, db.epoch, db.committed, db.revision) && h < |db.txs|
    ensures TxsOk(db.txs[h := db.txs[h].(status := status)], db.epoch, db.committed, db.revision)
  {
    TxOkIgnoresStatus(db.txs[h], db.txs[h].(status := status));
    hide TxOk;
  }

  lemma WithdrawKeeps(schema: Schema, db: Db, h: nat)
    requires Inv(schema, db) && h < |db.txs| && db.txs[h].status == Opened
    ensures Inv(schema, Withdraw(db, h))
  {
    hide Satisfies, Serial, Writers, HistoryOk, TxsOk;
    StatusKeepsTxs(db, h, RolledBack);
  }

  lemma InvHandles(schema: Schema, db: Db)
    requires Inv(schema, db)
    ensures Handles(db)
  {
    hide Satisfies, Serial, Writers, HistoryOk;
  }

  lemma AbandonKeepsOpen(db: Db, generation: nat)
    requires Handles(db) && OpenOk(db.open, db.txs, db.epoch)
    ensures OpenOk(Abandon(db, generation).open, Abandon(db, generation).txs, db.epoch)
  {
    var next := Abandon(db, generation);
    forall t | t in next.open ensures next.txs[next.open[t]] == db.txs[db.open[t]] {
      assert t in db.open && next.open[t] == db.open[t];
    }
  }

  lemma AbandonKeepsPending(db: Db, generation: nat)
    requires Handles(db) && OpenOk(db.open, db.txs, db.epoch) && PendingOk(db.pending, db.txs, db.epoch)
    ensures PendingOk(Abandon(db, generation).pending, Abandon(db, generation).txs, db.epoch)
  {
    var next := Abandon(db, generation);
    forall o | o in next.pending ensures o in db.pending && next.pending[o] == db.pending[o] {}
    forall o | o in next.pending ensures next.txs[next.pending[o]] == db.txs[db.pending[o]] {}
  }

  lemma AbandonKeepsTxs(db: Db, generation: nat)
    requires Handles(db) && TxsOk(db.txs, db.epoch, db.committed, db.revision)
    ensures TxsOk(Abandon(db, generation).txs, db.epoch, db.committed, db.revision)
  {
    hide TxOk, Handles;
    var next := Abandon(db, generation);
    forall h | 0 <= h < |db.txs| ensures next.txs[h] in {db.txs[h], db.txs[h].(status := RolledBack)} {}
    forall h | 0 <= h < |db.txs|
      ensures TxOk(next.txs[h]) <==> TxOk(db.txs[h])
    {
      TxOkIgnoresStatus(db.txs[h], next.txs[h]);
    }
  }

  lemma TxOkIgnoresStatus(a: Tx, b: Tx)
    requires b == a.(status := b.status)
    ensures TxOk(a) <==> TxOk(b)
  {}

  lemma AbandonKeeps(schema: Schema, db: Db, generation: nat)
    requires Inv(schema, db) && Handles(db)
    ensures Inv(schema, Abandon(db, generation))
  {
    hide Satisfies, Serial, Writers, HistoryOk, TxsOk, OpenOk, PendingOk;
    AbandonKeepsOpen(db, generation);
    AbandonKeepsPending(db, generation);
    AbandonKeepsTxs(db, generation);
  }

  /** A transaction that passed the conflict check leaves the tables its own calls lead to. */
  lemma CandidateIsSnapshot(db: Db, tx: Tx)
    requires Based(tx, db.committed, db.revision) && tx.baseRevision == db.revision
    ensures Candidate(db, tx) == tx.snapshot && Replay(db.committed, tx.script) == Some(tx.snapshot)
    ensures !tx.staged ==> tx.snapshot == db.committed
    ensures tx.staged <==> Wrote(tx.script)
  {
    NetChangesReproduceSnapshot(tx);
    if !tx.staged { assert Apply(tx.base, map[]) == tx.base; }
  }

  lemma HistoryGrows(history: seq<Tx>, tx: Tx)
    requires HistoryOk(history) && tx.baseRevision == Writers(history)
    ensures HistoryOk(history + [tx]) && Writers(history + [tx]) == Writers(history) + if Wrote(tx.script) then 1 else 0
  {
    var next := history + [tx];
    assert next[..|history|] == history;
    forall i | 0 <= i < |next| ensures next[i].baseRevision == Writers(next[..i]) {
      if i < |history| { assert next[..i] == history[..i]; }
    }
  }

  lemma SerialGrows(tables: Tables, history: seq<Tx>, tx: Tx)
    requires Serial(tables, history).Some?
    ensures Serial(tables, history + [tx]) == Replay(Serial(tables, history).value, tx.script)
  {
    assert (history + [tx])[..|history|] == history;
  }

  lemma TxsOkAfterCommit(txs: seq<Tx>, epoch: nat, committed: Tables, revision: nat, candidate: Tables, staged: bool)
    requires TxsOk(txs, epoch, committed, revision) && (!staged ==> candidate == committed)
    ensures TxsOk(txs, epoch, candidate, if staged then revision + 1 else revision)
  {
    hide TxOk;
  }

  lemma ClosedKeeps(schema: Schema, db: Db, operation: nat)
    requires Inv(schema, db) && operation in db.pending && db.pending[operation] < |db.txs|
    ensures Inv(schema, db.(txs := db.txs[db.pending[operation] := db.txs[db.pending[operation]].(status := Closed)],
                            pending := db.pending - {operation}))
  {
    hide Satisfies, Serial, Writers, HistoryOk;
  }

  lemma DispatchKeeps(schema: Schema, db: Db, operation: nat, fault: bool)
    requires Inv(schema, db) && Handles(db)
    ensures Inv(schema, Dispatch(schema, db, operation, fault).0)
  {
    hide Satisfies, Serial, Writers, HistoryOk, TxOk, Replay, Candidate, OpenOk, PendingOk;
    if operation in db.pending {
      ClosedKeeps(schema, db, operation);
      var h := db.pending[operation];
      var tx := db.txs[h].(status := Closed);
      var closed := db.(txs := db.txs[h := tx], pending := db.pending - {operation});
      PendingEpoch(db.pending, db.txs, db.epoch, operation);
      assert closed.txs[h] == tx;
      assert Candidate(closed, tx) ==
          Candidate(db, tx) by { assert closed.committed == db.committed; CandidateReads(closed, db, tx); }
      if Verdict(schema, db, tx, fault).Ok? {
        CandidateIsSnapshot(closed, tx);
        HistoryGrows(db.history, tx);
        SerialGrows(schema.initial, db.history, tx);
        TxsOkAfterCommit(closed.txs, db.epoch, db.committed, db.revision, Candidate(db, tx), tx.staged);
      }
    }
  }

  lemma CandidateReads(a: Db, b: Db, tx: Tx)
    requires a.committed == b.committed
    ensures Candidate(a, tx) == Candidate(b, tx)
  {}

  lemma PendingEpoch(pending: map<nat, nat>, txs: seq<Tx>, epoch: nat, operation: nat)
    requires PendingOk(pending, txs, epoch) && operation in pending
    ensures pending[operation] < |txs| && txs[pending[operation]].epoch == epoch
    ensures txs[pending[operation]].status == Submitted
  {}

  lemma ResetKeeps(schema: Schema, db: Db)
    requires Inv(schema, db) && Satisfies(schema, schema.initial)
    ensures Inv(schema, Reset(schema, db))
  {
    hide Satisfies;
  }

  /** Every step keeps the invariant. */
  lemma StepKeeps(schema: Schema, db: Db, input: Input)
    requires Inv(schema, db) && Handles(db) && Possible(db, input) && Satisfies(schema, schema.initial)
    ensures Inv(schema, Step(schema, db, input)) && Handles(Step(schema, db, input))
  {
    hide Inv, Satisfies, Begin, Access, Submit, Rollback, Cleanup, Abandon, Dispatch, Reset;
    match input {
      case DoBegin(task) => BeginKeeps(schema, db, task);
      case DoAccess(h, task, call) => AccessKeeps(schema, db, h, task, call);
      case DoSubmit(h, task, operation) => SubmitKeeps(schema, db, h, task, operation);
      case DoRollback(h, task) => RollbackKeeps(schema, db, h, task);
      case DoCleanup(h) => CleanupKeeps(schema, db, h);
      case DoAbandon(generation) => AbandonKeeps(schema, db, generation);
      case DoDispatch(operation, fault) => DispatchKeeps(schema, db, operation, fault);
      case DoReset => ResetKeeps(schema, db);
    }
    InvHandles(schema, Step(schema, db, input));
  }

  lemma RollbackKeeps(schema: Schema, db: Db, h: nat, task: Option<Task>)
    requires Inv(schema, db) && h < |db.txs|
    ensures Inv(schema, Rollback(db, h, task))
  {
    hide Inv, Withdraw;
    if Active(db, h, task) { WithdrawKeeps(schema, db, h); }
  }

  lemma CleanupKeeps(schema: Schema, db: Db, h: nat)
    requires Inv(schema, db) && h < |db.txs|
    ensures Inv(schema, Cleanup(db, h))
  {
    hide Inv, Withdraw;
    if db.txs[h].status == Opened { WithdrawKeeps(schema, db, h); }
  }

  /** The states of a run from the constructor; `run[i]` is the state before `inputs[i]`. */
  ghost predicate IsRun(schema: Schema, run: seq<Db>, inputs: seq<Input>) {
    && |run| == |inputs| + 1
    && run[0] == Initial(schema)
    && forall i :: 0 <= i < |inputs| ==> Follows(schema, run[i], inputs[i], run[i + 1])
  }

  ghost predicate Follows(schema: Schema, before: Db, input: Input, after: Db) {
    Handles(before) && Possible(before, input) && after == Step(schema, before, input)
  }

  lemma {:induction false} RunKeeps(schema: Schema, run: seq<Db>, inputs: seq<Input>, i: nat)
    requires IsRun(schema, run, inputs) && i < |run| && Satisfies(schema, schema.initial)
    ensures Inv(schema, run[i]) && Handles(run[i])
  {
    hide Satisfies, Step;
    if i > 0 {
      RunKeeps(schema, run, inputs, i - 1);
      assert Follows(schema, run[i - 1], inputs[i - 1], run[i - 1 + 1]);
      StepKeeps(schema, run[i - 1], inputs[i - 1]);
    }
  }

  // ---------- Theorems ----------

  /**
   * Every reachable committed state is the one that the committed transactions lead to when they are executed one at a
   * time, in commit order, on the initial tables, with every call answered as it was answered in the run.
   */
  lemma CommittedIsSerial(schema: Schema, run: seq<Db>, inputs: seq<Input>, i: nat)
    requires IsRun(schema, run, inputs) && i < |run| && Satisfies(schema, schema.initial)
    ensures Serial(schema.initial, run[i].history) == Some(run[i].committed)
    ensures Satisfies(schema, run[i].committed)
  {
    hide Satisfies, Serial, Step;
    RunKeeps(schema, run, inputs, i);
  }

  lemma {:induction false} WritersGrow(history: seq<Tx>, i: nat, j: nat)
    requires i <= j <= |history|
    ensures Writers(history[..i]) <= Writers(history[..j])
    ensures i < j && Wrote(history[i].script) ==> Writers(history[..i]) < Writers(history[..j])
  {
    if i < j {
      WritersGrow(history, i, j - 1);
      assert history[..j][..j - 1] == history[..j - 1];
      assert history[..j][j - 1] == history[j - 1];
      if i == j - 1 { assert history[i] == history[j - 1]; }
    }
  }

  /**
   * The first committer wins: a transaction never commits after a writer that began at the same or a later revision.
   */
  lemma FirstCommitterWins(schema: Schema, run: seq<Db>, inputs: seq<Input>, i: nat, a: nat, b: nat)
    requires IsRun(schema, run, inputs) && i < |run| && Satisfies(schema, schema.initial)
    requires a < b < |run[i].history| && Wrote(run[i].history[a].script)
    ensures run[i].history[a].baseRevision < run[i].history[b].baseRevision
  {
    hide Satisfies, Serial, Step, Writers;
    RunKeeps(schema, run, inputs, i);
    WritersGrow(run[i].history, a, b);
  }

  /** Two moments of an epoch with equal revisions have equal committed tables. */
  lemma {:induction false} EqualRevisionsEqualTables(schema: Schema, run: seq<Db>, inputs: seq<Input>, i: nat, j: nat)
    requires IsRun(schema, run, inputs) && i <= j < |run| && Satisfies(schema, schema.initial)
    requires run[i].epoch == run[j].epoch
    ensures run[i].revision <= run[j].revision
    ensures run[i].revision == run[j].revision ==> run[i].committed == run[j].committed
  {
    hide Satisfies, Inv, Step;
    if i < j {
      assert Follows(schema, run[j - 1], inputs[j - 1], run[j - 1 + 1]);
      RunKeeps(schema, run, inputs, j - 1);
      StepRevision(schema, run[j - 1], inputs[j - 1]);
      EpochsGrow(schema, run, inputs, i, j - 1);
      EqualRevisionsEqualTables(schema, run, inputs, i, j - 1);
    }
  }

  lemma {:induction false} EpochsGrow(schema: Schema, run: seq<Db>, inputs: seq<Input>, i: nat, j: nat)
    requires IsRun(schema, run, inputs) && i <= j < |run| && Satisfies(schema, schema.initial)
    ensures run[i].epoch <= run[j].epoch
  {
    hide Satisfies, Inv, Step;
    if i < j {
      assert Follows(schema, run[j - 1], inputs[j - 1], run[j - 1 + 1]);
      RunKeeps(schema, run, inputs, j - 1);
      StepRevision(schema, run[j - 1], inputs[j - 1]);
      EpochsGrow(schema, run, inputs, i, j - 1);
    }
  }

  /** Committed tables change only together with the revision. */
  lemma StepRevision(schema: Schema, db: Db, input: Input)
    requires Inv(schema, db) && Handles(db) && Possible(db, input)
    ensures Step(schema, db, input).epoch in {db.epoch, db.epoch + 1}
    ensures (Step(schema, db, input).epoch == db.epoch ==>
             && db.revision <= Step(schema, db, input).revision
             && (db.revision == Step(schema, db, input).revision ==> db.committed == Step(schema, db, input).committed))
  {
    hide Inv, Recorded, ValidCall, Dispatch;
    match input
    case DoDispatch(operation, fault) => DecisionRevision(schema, db, operation, fault);
    case _ =>
  }

  lemma DecisionRevision(schema: Schema, db: Db, operation: nat, fault: bool)
    requires Inv(schema, db) && Handles(db)
    ensures var after := Dispatch(schema, db, operation, fault).0;
      && after.epoch == db.epoch && db.revision <= after.revision
      && (db.revision == after.revision ==> db.committed == after.committed)
  {
    hide Satisfies, Serial, Writers, HistoryOk, TxOk, Candidate;
    if operation in db.pending {
      var tx := db.txs[db.pending[operation]];
      if tx.baseRevision == db.revision {
        CandidateIsSnapshot(db, tx);
        CandidateIgnoresStatus(db, tx);
      }
    }
  }

  lemma CandidateIgnoresStatus(db: Db, tx: Tx)
    ensures Candidate(db, tx.(status := Closed)) == Candidate(db, tx)
  {}

  /**
   * What a dispatched commit does, in terms of the run: without a fault it succeeds exactly when nothing was written
   * since the transaction began and its own view satisfies the constraints, and then its view becomes the committed
   * state. A rejected commit changes neither the tables nor the revision.
   */
  lemma CommitOutcome(schema: Schema, db: Db, operation: nat, fault: bool)
    requires Inv(schema, db) && Handles(db) && operation in db.pending
    ensures var tx := db.txs[db.pending[operation]];
            var (after, outcome) := Dispatch(schema, db, operation, fault);
            && operation !in after.pending
            && (outcome == Some(Ok(())) <==>
                !fault && Writers(db.history) == tx.baseRevision
                && Satisfies(schema, tx.snapshot))
            && (outcome == Some(Ok(())) ==>
                after.committed == tx.snapshot && after.revision == db.revision + if Wrote(tx.script) then 1 else 0)
            && (outcome != Some(Ok(())) ==>
                outcome == Some(Err(if fault then COMMIT_FAILED
                                    else if Writers(db.history) != tx.baseRevision then TRANSACTION_CONFLICT
                                    else CONSTRAINT_VIOLATION)))
            && (outcome != Some(Ok(())) ==> after.committed == db.committed && after.revision == db.revision)
  {
    hide Satisfies, Serial, Writers, HistoryOk, TxOk, Candidate;
    var tx := db.txs[db.pending[operation]];
    CandidateIgnoresStatus(db, tx);
    if tx.baseRevision == db.revision { CandidateIsSnapshot(db, tx); }
  }

  /** Something of the generation is still open or waiting to commit. */
  predicate Involves(db: Db, generation: nat)
    requires Handles(db)
  {
    InvolvesIn(db.open, db.txs, generation) || InvolvesIn(db.pending, db.txs, generation)
  }

  predicate InvolvesIn(handles: map<nat, nat>, txs: seq<Tx>, generation: nat)
    requires forall t :: t in handles ==> handles[t] < |txs|
  {
    exists t :: t in handles && txs[handles[t]].task.generation == generation
  }

  /** Abandoning a generation leaves nothing of it open or waiting. */
  lemma AbandonRemoves(db: Db, generation: nat)
    requires Handles(db)
    ensures Handles(Abandon(db, generation)) && !Involves(Abandon(db, generation), generation)
  {
    AbandonKeepsTasks(db, generation);
  }

  lemma AbandonKeepsTasks(db: Db, generation: nat)
    requires Handles(db)
    ensures Handles(Abandon(db, generation)) && |Abandon(db, generation).txs| == |db.txs|
    ensures forall h :: 0 <= h < |db.txs| ==> Abandon(db, generation).txs[h].task == db.txs[h].task
  {}

  /**
   * The clean-up behind `abandonGeneration` reaches exactly the transactions of the generation that are open in the
   * current epoch; no handle from before a reset, and none that was submitted or rolled back, is ever cleaned up.
   */
  lemma AbandonCleansOnlyOpen(schema: Schema, db: Db, generation: nat, h: nat)
    requires Inv(schema, db) && h < |db.txs|
    ensures Handles(db)
    ensures var tx := db.txs[h];
            var after := Abandon(db, generation).txs[h];
            var reached := tx.task.id in db.open && db.open[tx.task.id] == h && tx.task.generation == generation;
            && after == (if reached then tx.(status := RolledBack) else tx)
            && (reached ==> tx.epoch == db.epoch && tx.status == Opened)
  {
    hide TxsOk, PendingOk, Serial, Writers, HistoryOk, Satisfies;
    InvHandles(schema, db);
    var tx := db.txs[h];
    if h in OfGeneration(db.open, db.txs, generation) {
      var t :| t in db.open && db.txs[db.open[t]].task.generation == generation && db.open[t] == h;
      assert tx.task.id == t;
    } else if tx.task.id in db.open && db.open[tx.task.id] == h {
      assert tx.task.generation != generation;
    }
  }

  /**
   * What a step may leave behind: the same transactions with the same tasks, and no more open or pending than before.
   */
  predicate Shrinks(before: Db, after: Db) {
    && |before.txs| == |after.txs|
    && (forall h :: 0 <= h < |before.txs| ==> after.txs[h].task == before.txs[h].task)
    && (forall t :: t in after.open ==> t in before.open && after.open[t] == before.open[t])
    && (forall o :: o in after.pending ==> o in before.pending && after.pending[o] == before.pending[o])
  }

  lemma ShrinkingInvolvesLess(before: Db, after: Db, generation: nat)
    requires Handles(before) && Shrinks(before, after) && !Involves(before, generation)
    ensures Handles(after) && !Involves(after, generation)
  {}

  lemma AccessShrinks(schema: Schema, db: Db, h: nat, task: Option<Task>, call: Call)
    requires h < |db.txs|
    ensures Shrinks(db, Access(schema, db, h, task, call).0)
  {
    hide ValidCall, Active, Write;
    assert Recorded(db.txs[h], call).0.task == db.txs[h].task by { PerformKeepsTask(db.txs[h], call); }
  }

  lemma PerformKeepsTask(tx: Tx, call: Call)
    ensures Perform(tx, call).0.task == tx.task
  {}

  lemma DispatchShrinks(schema: Schema, db: Db, operation: nat, fault: bool)
    requires Handles(db)
    ensures Shrinks(db, Dispatch(schema, db, operation, fault).0)
    ensures var after := Dispatch(schema, db, operation, fault).0;
            after.history == db.history || (operation in db.pending && |after.history| == |db.history| + 1 &&
            after.history[..|db.history|] == db.history
                && after.history[|db.history|].task == db.txs[db.pending[operation]].task)
  {
    hide Verdict, Candidate;
  }

  /**
   * Once a generation is abandoned, nothing of it commits; only a new `begin` of that very generation brings it back.
   */
  lemma AbandonedStaysOut(schema: Schema, db: Db, input: Input, generation: nat)
    requires Inv(schema, db) && Handles(db) && Possible(db, input) && Satisfies(schema, schema.initial)
    requires !Involves(db, generation)
    requires input.DoBegin? && input.task.Some? ==> input.task.value.generation != generation
    ensures Handles(Step(schema, db, input)) && !Involves(Step(schema, db, input), generation)
    ensures forall c :: c in Step(schema, db, input).history && c !in db.history ==> c.task.generation != generation
  {
    hide Inv, Satisfies, Handles, Involves, Access, Dispatch, Abandon;
    StepKeeps(schema, db, input);
    var after := Step(schema, db, input);
    match input {
      case DoBegin(task) => BeginInvolves(schema, db, task, generation);
      case DoSubmit(h, task, operation) => SubmitInvolves(db, h, task, operation, generation);
      case DoAccess(h, task, call) => AccessShrinks(schema, db, h, task, call);
          ShrinkingInvolvesLess(db, after, generation);
      case DoRollback(h, task) => ShrinkingInvolvesLess(db, after, generation);
      case DoCleanup(h) => ShrinkingInvolvesLess(db, after, generation);
      case DoAbandon(g) => AbandonShrinks(db, g); ShrinkingInvolvesLess(db, after, generation);
      case DoReset => ShrinkingInvolvesLess(db, after, generation);
      case DoDispatch(operation, fault) =>
        DispatchShrinks(schema, db, operation, fault);
        ShrinkingInvolvesLess(db, after, generation);
        if operation in db.pending { PendingIsNot(db, operation, generation); }
    }
    assert input.DoAccess? || input.DoAbandon? ==>
        after.history == db.history by { HistoryOnlyByCommit(schema, db, input); }
  }

  /**
   * In any continuation of a run without a new `begin` of the generation, none of its transactions commits any more.
   */
  lemma {:induction false} AbandonedNeverCommits(schema: Schema, run: seq<Db>, inputs: seq<Input>, i: nat, j: nat,
                                                 generation: nat)
    requires IsRun(schema, run, inputs) && i < j < |run| && Satisfies(schema, schema.initial)
    requires inputs[i] == DoAbandon(generation)
    requires forall k :: i < k < j && inputs[k].DoBegin? && inputs[k].task.Some? ==>
        inputs[k].task.value.generation != generation
    ensures Handles(run[j]) && !Involves(run[j], generation)
    ensures forall c :: c in run[j].history && c.task.generation == generation ==> c in run[i].history
  {
    hide Inv, Satisfies, Handles, Involves, Step;
    RunKeeps(schema, run, inputs, j);
    if j == i + 1 {
      assert Follows(schema, run[i], inputs[i], run[i + 1]);
      RunKeeps(schema, run, inputs, i);
      StepIsAbandon(schema, run[i], generation);
      AbandonRemoves(run[i], generation);
    } else {
      AbandonedNeverCommits(schema, run, inputs, i, j - 1, generation);
      RunKeeps(schema, run, inputs, j - 1);
      assert Follows(schema, run[j - 1], inputs[j - 1], run[j - 1 + 1]);
      AbandonedStaysOut(schema, run[j - 1], inputs[j - 1], generation);
    }
  }

  lemma StepIsAbandon(schema: Schema, db: Db, generation: nat)
    requires Handles(db)
    ensures Step(schema, db, DoAbandon(generation)) == Abandon(db, generation)
    ensures Abandon(db, generation).history == db.history
  {}

  lemma HistoryOnlyByCommit(schema: Schema, db: Db, input: Input)
    requires Handles(db) && Possible(db, input)
    ensures (!input.DoDispatch? && !input.DoReset? ==> Step(schema, db, input).history == db.history)
  {
    hide ValidCall, Recorded;
  }

  lemma PendingIsNot(db: Db, operation: nat, generation: nat)
    requires Handles(db) && !Involves(db, generation) && operation in db.pending
    ensures db.pending[operation] < |db.txs| && db.txs[db.pending[operation]].task.generation != generation
  {}

  lemma AbandonShrinks(db: Db, generation: nat)
    requires Handles(db)
    ensures Shrinks(db, Abandon(db, generation))
  {
    AbandonKeepsTasks(db, generation);
  }

  lemma BeginInvolves(schema: Schema, db: Db, task: Option<Task>, generation: nat)
    requires Handles(db) && !Involves(db, generation) && (task.Some? ==> task.value.generation != generation)
    ensures Handles(Begin(schema, db, task)) && !Involves(Begin(schema, db, task), generation)
    ensures Begin(schema, db, task).history == db.history
  {}

  lemma SubmitInvolves(db: Db, h: nat, task: Option<Task>, operation: nat, generation: nat)
    requires Handles(db) && !Involves(db, generation) && h < |db.txs|
    ensures Handles(Submit(db, h, task, operation)) && !Involves(Submit(db, h, task, operation), generation)
    ensures Submit(db, h, task, operation).history == db.history
  {
    if Active(db, h, task) {
      assert db.txs[h].task.generation != generation by { assert db.txs[h].task.id in db.open; }
    }
  }

  /** In a constrained table two rows never have the same values, at any depth, in the fields of a unique constraint. */
  lemma UniqueMeansDifferent(tables: Tables, slot: Slot, fields: seq<Text>)
    requires slot in tables
    ensures (Unique(tables, slot, fields) <==>
             HasFields(tables[slot], fields) && forall other :: other in tables ==>
                 Differs(tables, slot, other, fields))
  {
    if HasFields(tables[slot], fields) {
      forall other | other in tables
        ensures !Clash(tables, slot, other, fields) <==> Differs(tables, slot, other, fields)
      {
        if HasFields(tables[other], fields) {
          TupleIsWellFormed(tables[other], fields);
          TupleIsWellFormed(tables[slot], fields);
          EncodingIsInjective(Tuple(tables[other], fields), Tuple(tables[slot], fields));
          SameTuples(tables[other], tables[slot], fields);
        }
      }
    }
  }

  /** If it is another row of the same table with all the fields, one of them differs in value. */
  ghost predicate Differs(tables: Tables, slot: Slot, other: Slot, fields: seq<Text>)
    requires slot in tables && other in tables && HasFields(tables[slot], fields)
  {
    other.table == slot.table && other.key != slot.key && HasFields(tables[other], fields) ==>
      exists i :: 0 <= i < |fields| && !Same(tables[other][fields[i]], tables[slot][fields[i]])
  }

  lemma TupleIsWellFormed(row: Row, fields: seq<Text>)
    requires HasFields(row, fields)
    ensures WellFormed(Tuple(row, fields))
  {
    forall i | 0 <= i < |fields| ensures WellFormed(Tuple(row, fields).items[i]) {
      assert Tuple(row, fields).items[i] == row[fields[i]];
    }
  }

  lemma SameTuples(a: Row, b: Row, fields: seq<Text>)
    requires HasFields(a, fields) && HasFields(b, fields)
    ensures Same(Tuple(a, fields), Tuple(b, fields)) <==> forall i :: 0 <= i < |fields| ==>
        Same(a[fields[i]], b[fields[i]])
  {
    var xs, ys := Tuple(a, fields).items, Tuple(b, fields).items;
    assert forall i :: 0 <= i < |fields| ==> xs[i] == a[fields[i]] && ys[i] == b[fields[i]];
  }
}
