/**
 * The optimistic database as a state machine: transactions work on a private copy of the committed tables and a commit
 * succeeds only when no write was committed since the transaction began.
 */
module DatabaseModel {
  import opened Outcomes
  import opened Canonical
  import opened Texts

  /** A row key inside a table. The table maps are flattened into one map over slots. */
  datatype Slot = Slot(table: Text, key: Text)
  type Row = map<Text, CanonicalValue>
  type Tables = map<Slot, Row>

  datatype TableDefinition = TableDefinition(name: Text, unique: seq<seq<Text>>, checks: seq<Text>)

  /**
   * What the constructor keeps of its options. A row check is any total predicate, found by one of the names given with
   * it.
   */
  datatype Schema = Schema(owner: Text, definitions: seq<TableDefinition>, checkNames: set<Text>,
                           checks: (Text, Row) -> bool,
                           initial: Tables)

  predicate IsTable(schema: Schema, table: Text) {
    exists i :: 0 <= i < |schema.definitions| && schema.definitions[i].name == table
  }

  predicate IsRow(row: Row) { forall field :: field in row ==> IsName(field) }

  // ---------- Constraints ----------

  predicate HasFields(row: Row, fields: seq<Text>) { forall i :: 0 <= i < |fields| ==> fields[i] in row }

  function Tuple(row: Row, fields: seq<Text>): Value
    requires HasFields(row, fields)
  { Arr(seq(|fields|, i requires 0 <= i < |fields| => row[fields[i]])) }

  predicate Checked(schema: Schema, definition: TableDefinition, row: Row) {
    forall i :: 0 <= i < |definition.checks| ==> schema.checks(definition.checks[i], row)
  }

  /** Another row of the table has the same encoded tuple. */
  predicate Clash(tables: Tables, slot: Slot, other: Slot, fields: seq<Text>)
    requires slot in tables && other in tables && HasFields(tables[slot], fields)
  {
    && other.table == slot.table && other.key != slot.key && HasFields(tables[other], fields)
    && Encode(Tuple(tables[other], fields)) == Encode(Tuple(tables[slot], fields))
  }

  predicate Unique(tables: Tables, slot: Slot, fields: seq<Text>)
    requires slot in tables
  {
    HasFields(tables[slot], fields) && forall other :: other in tables ==> !Clash(tables, slot, other, fields)
  }

  predicate RowSatisfies(schema: Schema, definition: TableDefinition, tables: Tables, slot: Slot)
    requires slot in tables
  {
    && Checked(schema, definition, tables[slot])
    && forall i :: 0 <= i < |definition.unique| ==> Unique(tables, slot, definition.unique[i])
  }

  predicate TableSatisfies(schema: Schema, definition: TableDefinition, tables: Tables) {
    forall slot :: slot in tables && slot.table == definition.name ==> RowSatisfies(schema, definition, tables, slot)
  }

  /** `#constraint` finds nothing. */
  predicate Satisfies(schema: Schema, tables: Tables) {
    forall i :: 0 <= i < |schema.definitions| ==> TableSatisfies(schema, schema.definitions[i], tables)
  }

  // ---------- Transactions ----------

  datatype Task = Task(id: nat, owner: Text, generation: nat)
  datatype Status = Opened | Submitted | Closed | RolledBack
  datatype Change = Change(before: Option<Row>, after: Option<Row>)

  datatype Call =
    | Get(slot: Slot)
    | Scan(name: Text)
    | Insert(slot: Slot, row: Row)
    | Update(slot: Slot, row: Row)
    | Delete(slot: Slot)

  datatype Answer = Found(row: Option<Row>) | Listed(rows: map<Text,
                                                     Row>) | Done | Existed(existed: bool) | Refused(code: ErrorCode)
  datatype Exchange = Exchange(call: Call, answer: Answer)

  /** `base` and `script` are history: the tables copied at the start, and every call made with its answer. */
  datatype Tx = Tx(task: Task, epoch: nat, baseRevision: nat, snapshot: Tables, writes: map<Slot, Change>, staged: bool,
                   status: Status, base: Tables, script: seq<Exchange>)

  function At(tables: Tables, slot: Slot): Option<Row> { if slot in tables then Some(tables[slot]) else None }

  function Rows(tables: Tables, table: Text): map<Text, Row> {
    map slot | slot in tables && slot.table == table :: slot.key := tables[slot]
  }

  /** `#write`. */
  function Write(tx: Tx, slot: Slot, after: Option<Row>): Tx {
    var before := if slot in tx.writes then tx.writes[slot].before else At(tx.snapshot, slot);
    tx.(snapshot := if after.Some? then tx.snapshot[slot := after.value] else tx.snapshot - {slot},
        writes := tx.writes[slot := Change(before, after)],
        staged := true)
  }

  /** One call that passed the argument checks. */
  function Perform(tx: Tx, call: Call): (Tx, Answer) {
    match call
    case Get(slot) => (tx, Found(At(tx.snapshot, slot)))
    case Scan(table) => (tx, Listed(Rows(tx.snapshot, table)))
    case Insert(slot, row) => if slot in tx.snapshot then (tx, Refused(ROW_EXISTS))
        else (Write(tx, slot, Some(row)), Done)
    case Update(slot, row) => if slot !in tx.snapshot then (tx, Refused(ROW_NOT_FOUND))
        else (Write(tx, slot, Some(row)), Done)
    case Delete(slot) => if slot !in tx.snapshot then (tx, Existed(false)) else (Write(tx, slot, None), Existed(true))
  }

  function Recorded(tx: Tx, call: Call): (Tx, Answer) {
    var (after, answer) := Perform(tx, call);
    (after.(script := tx.script + [Exchange(call, answer)]), answer)
  }

  predicate ValidCall(schema: Schema, call: Call) {
    match call
    case Scan(table) => IsTable(schema, table)
    case Get(slot) => IsTable(schema, slot.table) && IsName(slot.key)
    case Delete(slot) => IsTable(schema, slot.table) && IsName(slot.key)
    case Insert(slot, row) => IsTable(schema, slot.table) && IsName(slot.key) && IsRow(row)
    case Update(slot, row) => IsTable(schema, slot.table) && IsName(slot.key) && IsRow(row)
  }

  /** `changes()`: a slot whose row is absent before and after is no change; every stored row is a fresh copy. */
  function Net(writes: map<Slot, Change>): map<Slot, Change> {
    map slot | slot in writes && !(writes[slot].before.None? && writes[slot].after.None?) :: writes[slot]
  }

  function Apply(tables: Tables, changes: map<Slot, Change>): Tables {
    map slot | slot in tables.Keys + changes.Keys && (slot in changes ==> changes[slot].after.Some?) ::
      if slot in changes then changes[slot].after.value else tables[slot]
  }

  // ---------- The database ----------

  /**
   * A transaction handle is its index in `txs`; handles of earlier epochs stay there. `open` goes from task ids, and
   * `pending` from operation ids, to handles. `history` lists the committed transactions of the epoch in commit order.
   */
  datatype Db = Db(committed: Tables, revision: nat, epoch: nat, txs: seq<Tx>, open: map<nat, nat>,
                   pending: map<nat, nat>, history: seq<Tx>)

  function Initial(schema: Schema): Db { Db(schema.initial, 0, 0, [], map[], map[], []) }

  function Reset(schema: Schema, db: Db): Db {
    db.(committed := schema.initial, revision := 0, epoch := db.epoch + 1, open := map[], pending := map[], history :=
        [])
  }

  predicate MayBegin(schema: Schema, db: Db, task: Option<Task>) {
    task.Some? && task.value.owner == schema.owner && task.value.id !in db.open
  }

  function Begin(schema: Schema, db: Db, task: Option<Task>): Db {
    if !MayBegin(schema, db, task) then db
    else
      var tx := Tx(task.value, db.epoch, db.revision, db.committed, map[], false, Opened, db.committed, []);
      db.(txs := db.txs + [tx], open := db.open[task.value.id := |db.txs|])
  }

  /** `active`: the running task owns this open transaction of this epoch. */
  predicate Active(db: Db, h: nat, task: Option<Task>)
    requires h < |db.txs|
  {
    var tx := db.txs[h];
    && tx.epoch == db.epoch && tx.status == Opened && task == Some(tx.task)
    && tx.task.id in db.open && db.open[tx.task.id] == h
  }

  /** A call through a transaction handle; a refused call leaves everything as it was. */
  function Access(schema: Schema, db: Db, h: nat, task: Option<Task>, call: Call): (Db, Result<Answer>)
    requires h < |db.txs|
  {
    if !Active(db, h, task) || !ValidCall(schema, call) then (db, Err(INVALID_DATABASE_OPERATION))
    else
      var (tx, answer) := Recorded(db.txs[h], call);
      (db.(txs := db.txs[h := tx]), if answer.Refused? then Err(answer.code) else Ok(answer))
  }

  function Submit(db: Db, h: nat, task: Option<Task>, operation: nat): Db
    requires h < |db.txs|
  {
    if !Active(db, h, task) then db
    else
      db.(txs := db.txs[h := db.txs[h].(status := Submitted)],
          open := db.open - {db.txs[h].task.id},
          pending := db.pending[operation := h])
  }

  /** `rollback` of a live transaction; `cleanup` does the same without asking for the task. */
  function Withdraw(db: Db, h: nat): Db
    requires h < |db.txs|
  {
    db.(txs := db.txs[h := db.txs[h].(status := RolledBack)], open := db.open - {db.txs[h].task.id})
  }

  function Rollback(db: Db, h: nat, task: Option<Task>): Db
    requires h < |db.txs|
  { if Active(db, h, task) then Withdraw(db, h) else db }

  function Cleanup(db: Db, h: nat): Db
    requires h < |db.txs|
  { if db.txs[h].status == Opened then Withdraw(db, h) else db }

  /** All these are handles. */
  predicate Within(handles: map<nat, nat>, txs: seq<Tx>) { forall k :: k in handles ==> handles[k] < |txs| }

  predicate Handles(db: Db) { Within(db.open, db.txs) && Within(db.pending, db.txs) }

  function OfGeneration(handles: map<nat, nat>, txs: seq<Tx>, generation: nat): set<nat>
    requires Within(handles, txs)
  { set k | k in handles && txs[handles[k]].task.generation == generation :: handles[k] }

  function OfOthers(handles: map<nat, nat>, txs: seq<Tx>, generation: nat): map<nat, nat>
    requires Within(handles, txs)
  { map k | k in handles && txs[handles[k]].task.generation != generation :: handles[k] }

  function RollBackAll(txs: seq<Tx>, doomed: set<nat>): seq<Tx> {
    seq(|txs|, h requires 0 <= h < |txs| => if h in doomed then txs[h].(status := RolledBack) else txs[h])
  }

  /** `abandonGeneration`: open transactions of the generation roll back and its pending commits are dropped. */
  function Abandon(db: Db, generation: nat): Db
    requires Handles(db)
  {
    db.(txs := RollBackAll(db.txs, OfGeneration(db.open, db.txs, generation)),
        open := OfOthers(db.open, db.txs, generation),
        pending := OfOthers(db.pending, db.txs, generation))
  }

  function Candidate(db: Db, tx: Tx): Tables { Apply(db.committed, Net(tx.writes)) }

  /** The answer a dispatched commit gets. `fault` is the decision of the fault rules. */
  function Verdict(schema: Schema, db: Db, tx: Tx, fault: bool): Result<()> {
    if fault then Err(COMMIT_FAILED)
    else if db.revision != tx.baseRevision then Err(TRANSACTION_CONFLICT)
    else if !Satisfies(schema, Candidate(db, tx)) then Err(CONSTRAINT_VIOLATION)
    else Ok(())
  }

  /** `#dispatch` of the commit event; an operation that is no longer pending is ignored. */
  function Dispatch(schema: Schema, db: Db, operation: nat, fault: bool): (Db, Option<Result<()>>)
    requires Handles(db)
  {
    if operation !in db.pending then (db, None)
    else
      var h := db.pending[operation];
      var tx := db.txs[h].(status := Closed);
      var closed := db.(txs := db.txs[h := tx], pending := db.pending - {operation});
      var verdict := Verdict(schema, db, tx, fault);
      if verdict.Err? then (closed, Some(verdict))
      else
        (closed.(committed := Candidate(db, tx),
                 revision := if tx.staged then db.revision + 1 else db.revision,
                 history := db.history + [tx]), Some(verdict))
  }

  // ---------- Runs ----------

  datatype Input =
    | DoBegin(task: Option<Task>)
    | DoAccess(h: nat, task: Option<Task>, call: Call)
    | DoSubmit(h: nat, task: Option<Task>, operation: nat)
    | DoRollback(h: nat, task: Option<Task>)
    | DoCleanup(h: nat)
    | DoAbandon(generation: nat)
    | DoDispatch(operation: nat, fault: bool)
    | DoReset

  /** Handles come from `begin`, and operation ids from the core, which never repeats one. */
  predicate Possible(db: Db, input: Input) {
    match input
    case DoAccess(h, _, _) => h < |db.txs|
    case DoSubmit(h, _, operation) => h < |db.txs| && operation !in db.pending
    case DoRollback(h, _) => h < |db.txs|
    case DoCleanup(h) => h < |db.txs|
    case _ => true
  }

  function Step(schema: Schema, db: Db, input: Input): Db
    requires Handles(db) && Possible(db, input)
  {
    match input
    case DoBegin(task) => Begin(schema, db, task)
    case DoAccess(h, task, call) => Access(schema, db, h, task, call).0
    case DoSubmit(h, task, operation) => Submit(db, h, task, operation)
    case DoRollback(h, task) => Rollback(db, h, task)
    case DoCleanup(h) => Cleanup(db, h)
    case DoAbandon(generation) => Abandon(db, generation)
    case DoDispatch(operation, fault) => Dispatch(schema, db, operation, fault).0
    case DoReset => Reset(schema, db)
  }
}
