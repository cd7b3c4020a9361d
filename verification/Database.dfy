/** The database and its transactions as objects that change in place, proved against the state machine. */
module Database {
  import opened Outcomes
  import opened Canonical
  import opened Texts
  import M = DatabaseModel
  import T = DatabaseTheorems

  type Slot = M.Slot
  type Row = M.Row
  type Tables = M.Tables

  /** The constraint that `#constraint` names. */
  datatype Violated = CheckOf(definition: M.TableDefinition, check: Text) | UniqueOf(definition: M.TableDefinition,
      fields: seq<Text>)

  /** The named constraint belongs to a table of the schema and one of its rows breaks it. */
  ghost predicate Fails(schema: M.Schema, tables: Tables, v: Violated) {
    && v.definition in schema.definitions
    && exists slot :: slot in tables && slot.table == v.definition.name && FailsAt(schema, tables, slot, v)
  }

  ghost predicate FailsAt(schema: M.Schema, tables: Tables, slot: Slot, v: Violated)
    requires slot in tables
  {
    match v
    case CheckOf(definition, check) => check in definition.checks && !schema.checks(check, tables[slot])
    case UniqueOf(definition, fields) => fields in definition.unique && !M.Unique(tables, slot, fields)
  }

  method FailingCheck(schema: M.Schema, definition: M.TableDefinition, row: Row) returns (check: Option<Text>)
    ensures check.None? <==> M.Checked(schema, definition, row)
    ensures check.Some? ==> check.value in definition.checks && !schema.checks(check.value, row)
  {
    for i := 0 to |definition.checks|
      invariant forall j :: 0 <= j < i ==> schema.checks(definition.checks[j], row)
    {
      if !schema.checks(definition.checks[i], row) { return Some(definition.checks[i]); }
    }
    return None;
  }

  method IsUnique(tables: Tables, slot: Slot, fields: seq<Text>) returns (unique: bool)
    requires slot in tables
    ensures unique == M.Unique(tables, slot, fields)
  {
    if !M.HasFields(tables[slot], fields) { return false; }
    var others := tables.Keys;
    while others != {}
      invariant others <= tables.Keys
      invariant forall other :: other in tables && other !in others ==> !M.Clash(tables, slot, other, fields)
      decreases |others|
    {
      var other :| other in others;
      if M.Clash(tables, slot, other, fields) { return false; }
      others := others - {other};
    }
    return true;
  }

  method RowViolation(schema: M.Schema, definition: M.TableDefinition, tables: Tables, slot: Slot)
      returns (v: Option<Violated>)
    requires slot in tables
    ensures v.None? <==> M.RowSatisfies(schema, definition, tables, slot)
    ensures v.Some? ==> v.value.definition == definition && FailsAt(schema, tables, slot, v.value)
  {
    var check := FailingCheck(schema, definition, tables[slot]);
    if check.Some? { return Some(CheckOf(definition, check.value)); }
    for i := 0 to |definition.unique|
      invariant forall j :: 0 <= j < i ==> M.Unique(tables, slot, definition.unique[j])
    {
      var unique := IsUnique(tables, slot, definition.unique[i]);
      if !unique { return Some(UniqueOf(definition, definition.unique[i])); }
    }
    return None;
  }

  method TableViolation(schema: M.Schema, definition: M.TableDefinition, tables: Tables) returns (v: Option<Violated>)
    requires definition in schema.definitions
    ensures v.None? <==> M.TableSatisfies(schema, definition, tables)
    ensures v.Some? ==> Fails(schema, tables, v.value)
  {
    hide M.RowSatisfies, FailsAt;
    var slots := tables.Keys;
    while slots != {}
      invariant slots <= tables.Keys
      invariant forall slot | slot in tables && slot.table == definition.name
          && slot !in slots :: M.RowSatisfies(schema, definition, tables, slot)
      decreases |slots|
    {
      var slot :| slot in slots;
      if slot.table == definition.name {
        v := RowViolation(schema, definition, tables, slot);
        if v.Some? { return; }
      }
      slots := slots - {slot};
    }
    return None;
  }

  /** `#constraint`: nothing exactly when every constraint holds, and otherwise one that does not. */
  method Constraint(schema: M.Schema, tables: Tables) returns (v: Option<Violated>)
    ensures v.None? <==> M.Satisfies(schema, tables)
    ensures v.Some? ==> Fails(schema, tables, v.value)
  {
    hide M.TableSatisfies, Fails;
    for i := 0 to |schema.definitions|
      invariant forall j :: 0 <= j < i ==> M.TableSatisfies(schema, schema.definitions[j], tables)
    {
      v := TableViolation(schema, schema.definitions[i], tables);
      if v.Some? { return; }
    }
    return None;
  }

  // ---------- The loop of `abandonGeneration` ----------

  ghost function Without(handles: map<nat, nat>, rest: set<nat>): map<nat, nat> {
    map t | t in handles && t !in rest :: handles[t]
  }

  /** The transactions after all open tasks but those in `rest` were looked at. */
  ghost function Swept(db: M.Db, rest: set<nat>, generation: nat): seq<M.Tx>
    requires M.Handles(db)
  { M.RollBackAll(db.txs, M.OfGeneration(Without(db.open, rest), db.txs, generation)) }

  ghost function SweptOpen(db: M.Db, rest: set<nat>, generation: nat): map<nat, nat>
    requires M.Handles(db)
  { map t | t in db.open && (t in rest || db.txs[db.open[t]].task.generation != generation) :: db.open[t] }

  lemma SweptNone(db: M.Db, rest: set<nat>, generation: nat)
    requires M.Handles(db) && rest == db.open.Keys
    ensures Swept(db, rest, generation) == db.txs && SweptOpen(db, rest, generation) == db.open
  {}

  lemma SweptTasks(db: M.Db, rest: set<nat>, generation: nat)
    requires M.Handles(db)
    ensures |Swept(db, rest, generation)| == |db.txs|
    ensures forall h :: 0 <= h < |db.txs| ==> Swept(db, rest, generation)[h].task == db.txs[h].task
  {}

  lemma SweptAll(db: M.Db, generation: nat)
    requires M.Handles(db)
    ensures Swept(db, {}, generation) == M.Abandon(db, generation).txs
    ensures SweptOpen(db, {}, generation) == M.Abandon(db, generation).open
    ensures M.Within(db.pending, Swept(db, {}, generation))
    ensures M.OfOthers(db.pending, Swept(db, {}, generation), generation) == M.Abandon(db, generation).pending
  {
    hide M.RollBackAll, M.OfGeneration;
    assert Without(db.open, {}) == db.open;
    assert SweptOpen(db, {}, generation) == M.OfOthers(db.open, db.txs, generation);
    SweptTasks(db, {}, generation);
  }

  lemma SweptHas(db: M.Db, rest: set<nat>, generation: nat, t: nat)
    requires M.Handles(db) && t in rest && rest <= db.open.Keys
    ensures t in SweptOpen(db, rest, generation) && SweptOpen(db, rest, generation)[t] == db.open[t]
  {}

  lemma SweptStep(db: M.Db, rest: set<nat>, generation: nat, t: nat)
    requires M.Handles(db) && t in rest && rest <= db.open.Keys
    ensures |Swept(db, rest, generation)| == |db.txs|
    ensures Swept(db, rest, generation)[db.open[t]].task == db.txs[db.open[t]].task
    ensures Swept(db, rest - {t}, generation) == if db.txs[db.open[t]].task.generation != generation
        then Swept(db, rest, generation)
            else Swept(db, rest, generation)[db.open[t] :=
                                             Swept(db, rest, generation)[db.open[t]].(status := M.RolledBack)]
  {
    hide M.OfGeneration, M.RollBackAll;
    DoomedStep(db, rest, generation, t);
    RollBackOneMore(db.txs, M.OfGeneration(Without(db.open, rest), db.txs, generation), db.open[t]);
  }

  lemma SweptOpenStep(db: M.Db, rest: set<nat>, generation: nat, t: nat)
    requires M.Handles(db) && t in rest && rest <= db.open.Keys
    ensures SweptOpen(db, rest - {t}, generation) == if db.txs[db.open[t]].task.generation != generation
        then SweptOpen(db, rest, generation) else SweptOpen(db, rest, generation) - {t}
  {}

  lemma RollBackOneMore(txs: seq<M.Tx>, doomed: set<nat>, h: nat)
    requires h < |txs|
    ensures |M.RollBackAll(txs, doomed)| == |txs| && M.RollBackAll(txs, doomed)[h].task == txs[h].task
    ensures M.RollBackAll(txs, doomed + {h}) ==
        M.RollBackAll(txs, doomed)[h := M.RollBackAll(txs, doomed)[h].(status := M.RolledBack)]
    ensures doomed + {} == doomed
  {}

  lemma DoomedStep(db: M.Db, rest: set<nat>, generation: nat, t: nat)
    requires M.Handles(db) && t in rest && rest <= db.open.Keys
    ensures M.OfGeneration(Without(db.open, rest - {t}), db.txs, generation)
         == M.OfGeneration(Without(db.open, rest), db.txs, generation)
          + if db.txs[db.open[t]].task.generation == generation then {db.open[t]} else {}
  {
    var before, after := Without(db.open, rest), Without(db.open, rest - {t});
    assert after == before[t := db.open[t]];
    OfGenerationGrows(before, db.txs, generation, t, db.open[t]);
  }

  lemma OfGenerationGrows(handles: map<nat, nat>, txs: seq<M.Tx>, generation: nat, t: nat, h: nat)
    requires M.Within(handles, txs) && t !in handles && h < |txs|
    ensures M.OfGeneration(handles[t := h], txs, generation)
         == M.OfGeneration(handles, txs, generation) + if txs[h].task.generation == generation then {h} else {}
  {
    var grown := handles[t := h];
    var was, now := M.OfGeneration(handles, txs, generation), M.OfGeneration(grown, txs, generation);
    forall x | x in was ensures x in now {
      var k :| k in handles && txs[handles[k]].task.generation == generation && handles[k] == x;
      assert grown[k] == x;
    }
    assert grown[t] == h;
  }

  class LocalTransaction {
    const db: DeterministicDatabase
    const handle: nat
    const task: M.Task
    const epoch: nat
    const baseRevision: nat
    ghost const base: Tables
    var snapshot: Tables
    var writes: map<Slot, M.Change>
    var staged: bool
    var status: M.Status
    ghost var script: seq<M.Exchange>

    constructor (db: DeterministicDatabase, handle: nat, task: M.Task, epoch: nat, baseRevision: nat, snapshot: Tables)
      ensures this.db == db && this.handle == handle
      ensures Model() == M.Tx(task, epoch, baseRevision, snapshot, map[], false, M.Opened, snapshot, [])
    {
      this.db, this.handle, this.task, this.epoch, this.baseRevision := db, handle, task, epoch, baseRevision;
      this.snapshot, this.base, writes, staged, status, script := snapshot, snapshot, map[], false, M.Opened, [];
    }

    ghost function Model(): M.Tx
      reads this
    { M.Tx(task, epoch, baseRevision, snapshot, writes, staged, status, base, script) }

    /** This transaction is one that its database created. */
    ghost predicate Attached()
      reads db, db.created
    { db.Valid() && handle < |db.created| && db.created[handle] == this }

    method Write(slot: Slot, after: Option<Row>)
      modifies this`snapshot, this`writes, this`staged
      ensures Model() == M.Write(old(Model()), slot, after)
    {
      var current := if slot in snapshot then Some(snapshot[slot]) else None;
      if after.None? { snapshot := snapshot - {slot}; } else { snapshot := snapshot[slot := after.value]; }
      staged := true;
      var before := if slot in writes then writes[slot].before else current;
      writes := writes[slot := M.Change(before, after)];
    }

    /** `changes()`: the slots whose row is not simply absent before and after, each once. */
    method Changes() returns (changes: seq<(Slot, M.Change)>)
      ensures forall i, j :: 0 <= i < j < |changes| ==> changes[i].0 != changes[j].0
      ensures forall i :: 0 <= i < |changes| ==>
          changes[i].0 in M.Net(writes) && M.Net(writes)[changes[i].0] == changes[i].1
      ensures forall slot :: slot in M.Net(writes) ==> (slot, M.Net(writes)[slot]) in changes
    {
      changes := [];
      var rest := writes.Keys;
      ghost var net := M.Net(writes);
      while rest != {}
        invariant rest <= writes.Keys
        invariant forall i, j :: 0 <= i < j < |changes| ==> changes[i].0 != changes[j].0
        invariant forall i :: 0 <= i < |changes| ==>
            changes[i].0 !in rest && changes[i].0 in net && net[changes[i].0] == changes[i].1
        invariant forall slot :: slot in net && slot !in rest ==> (slot, net[slot]) in changes
        decreases |rest|
      {
        var slot :| slot in rest;
        ghost var seen := changes;
        if writes[slot].before.Some? || writes[slot].after.Some? { changes := changes + [(slot, writes[slot])]; }
        rest := rest - {slot};
        assert slot in net ==> changes[|changes| - 1] == (slot, net[slot]);
        assert forall x :: x in seen ==> x in changes;
      }
    }

    /** Notes the call in the history and gives its answer, or raises its error. */
    method Answer(ghost call: M.Call, answer: M.Answer) returns (r: Result<M.Answer>)
      modifies this`script
      ensures script == old(script) + [M.Exchange(call, answer)]
      ensures r == if answer.Refused? then Err(answer.code) else Ok(answer)
    {
      script := script + [M.Exchange(call, answer)];
      r := if answer.Refused? then Err(answer.code) else Ok(answer);
    }

    method Get(slot: Slot, running: Option<M.Task>) returns (r: Result<M.Answer>)
      requires Attached()
      modifies this
      ensures Attached()
      ensures (db.State(), r) == M.Access(db.schema, old(db.State()), handle, running, M.Get(slot))
    {
      hide T.Inv, M.IsTable, IsName, M.IsRow, M.Write, M.Rows;
      ghost var before := db.State();
      assert before.txs[handle] == Model();
      T.AccessKeeps(db.schema, before, handle, running, M.Get(slot));
      var active := db.Active(this, running);
      if !active || !M.IsTable(db.schema, slot.table) || !IsName(slot.key) { return Err(INVALID_DATABASE_OPERATION); }
      var row := if slot in snapshot then Some(snapshot[slot]) else None;
      r := Answer(M.Get(slot), M.Found(row));
      db.OneTransactionChanged(handle);
    }

    method Scan(table: Text, running: Option<M.Task>) returns (r: Result<M.Answer>)
      requires Attached()
      modifies this
      ensures Attached()
      ensures (db.State(), r) == M.Access(db.schema, old(db.State()), handle, running, M.Scan(table))
    {
      hide T.Inv, M.IsTable, IsName, M.IsRow, M.Write, M.Rows;
      ghost var before := db.State();
      assert before.txs[handle] == Model();
      T.AccessKeeps(db.schema, before, handle, running, M.Scan(table));
      var active := db.Active(this, running);
      if !active || !M.IsTable(db.schema, table) { return Err(INVALID_DATABASE_OPERATION); }
      r := Answer(M.Scan(table), M.Listed(M.Rows(snapshot, table)));
      db.OneTransactionChanged(handle);
    }

    method Insert(slot: Slot, row: Row, running: Option<M.Task>) returns (r: Result<M.Answer>)
      requires Attached()
      modifies this
      ensures Attached()
      ensures (db.State(), r) == M.Access(db.schema, old(db.State()), handle, running, M.Insert(slot, row))
    {
      hide T.Inv, M.IsTable, IsName, M.IsRow, M.Write, M.Rows;
      ghost var before := db.State();
      assert before.txs[handle] == Model();
      T.AccessKeeps(db.schema, before, handle, running, M.Insert(slot, row));
      var active := db.Active(this, running);
      if !active || !M.IsTable(db.schema, slot.table) || !IsName(slot.key) || !M.IsRow(row) {
        return Err(INVALID_DATABASE_OPERATION);
      }
      if slot in snapshot {
        r := Answer(M.Insert(slot, row), M.Refused(ROW_EXISTS));
      } else {
        Write(slot, Some(row));
        r := Answer(M.Insert(slot, row), M.Done);
      }
      db.OneTransactionChanged(handle);
    }

    method Update(slot: Slot, row: Row, running: Option<M.Task>) returns (r: Result<M.Answer>)
      requires Attached()
      modifies this
      ensures Attached()
      ensures (db.State(), r) == M.Access(db.schema, old(db.State()), handle, running, M.Update(slot, row))
    {
      hide T.Inv, M.IsTable, IsName, M.IsRow, M.Write, M.Rows;
      ghost var before := db.State();
      assert before.txs[handle] == Model();
      T.AccessKeeps(db.schema, before, handle, running, M.Update(slot, row));
      var active := db.Active(this, running);
      if !active || !M.IsTable(db.schema, slot.table) || !IsName(slot.key) || !M.IsRow(row) {
        return Err(INVALID_DATABASE_OPERATION);
      }
      if slot !in snapshot {
        r := Answer(M.Update(slot, row), M.Refused(ROW_NOT_FOUND));
      } else {
        Write(slot, Some(row));
        r := Answer(M.Update(slot, row), M.Done);
      }
      db.OneTransactionChanged(handle);
    }

    method Delete(slot: Slot, running: Option<M.Task>) returns (r: Result<M.Answer>)
      requires Attached()
      modifies this
      ensures Attached()
      ensures (db.State(), r) == M.Access(db.schema, old(db.State()), handle, running, M.Delete(slot))
    {
      hide T.Inv, M.IsTable, IsName, M.IsRow, M.Write, M.Rows;
      ghost var before := db.State();
      assert before.txs[handle] == Model();
      T.AccessKeeps(db.schema, before, handle, running, M.Delete(slot));
      var active := db.Active(this, running);
      if !active || !M.IsTable(db.schema, slot.table) || !IsName(slot.key) { return Err(INVALID_DATABASE_OPERATION); }
      if slot !in snapshot {
        r := Answer(M.Delete(slot), M.Existed(false));
      } else {
        Write(slot, None);
        r := Answer(M.Delete(slot), M.Existed(true));
      }
      db.OneTransactionChanged(handle);
    }
  }

  class DeterministicDatabase {
    const schema: M.Schema
    var committed: Tables
    var revision: nat
    var epoch: nat
    var open: map<nat, LocalTransaction>
    var pending: map<nat, LocalTransaction>
    var count: nat
    ghost var created: seq<LocalTransaction>
    ghost var history: seq<M.Tx>

    ghost predicate Linked()
      reads this, created
    {
      && count == |created|
      && (forall h :: 0 <= h < |created| ==> created[h].handle == h && created[h].db == this)
      && (forall t :: t in open ==> open[t].handle < |created| && created[open[t].handle] == open[t])
      && (forall o :: o in pending ==> pending[o].handle < |created| && created[pending[o].handle] == pending[o])
    }

    ghost function Models(): seq<M.Tx>
      reads this, created
    { seq(|created|, h requires 0 <= h < |created| reads this, created => created[h].Model()) }

    ghost function State(): M.Db
      reads this, created
    {
      M.Db(committed, revision, epoch, Models(), Handles(open), Handles(pending), history)
    }

    ghost predicate Valid()
      reads this, created
    { Linked() && T.Inv(schema, State()) }

    /** A change inside one transaction object is a change of one entry of the state. */
    twostate lemma OneTransactionChanged(handle: nat)
      requires old(Linked()) && handle < |old(created)| && unchanged(this)
      requires forall h :: 0 <= h < |created| && h != handle ==> unchanged(created[h])
      ensures Linked() && State() == old(State()).(txs := old(State()).txs[handle := created[handle].Model()])
    {
      assert Models() == old(Models())[handle := created[handle].Model()];
    }

    /** The same with changes to the fields that are not transactions. */
    twostate lemma ModelsChanged(handle: nat)
      requires old(Linked()) && handle < |old(created)| && created == old(created) && count == old(count)
      requires forall h :: 0 <= h < |created| && h != handle ==> unchanged(created[h])
      requires forall t :: t in open ==> open[t].handle < |created| && created[open[t].handle] == open[t]
      requires forall o :: o in pending ==> pending[o].handle < |created| && created[pending[o].handle] == pending[o]
      ensures Linked() && Models() == old(Models())[handle := created[handle].Model()]
    {}

    twostate lemma ModelsSame()
      requires created == old(created) && forall h :: 0 <= h < |created| ==> unchanged(created[h])
      ensures Models() == old(Models())
    {}

    ghost function Handles(m: map<nat, LocalTransaction>): map<nat, nat> { map t | t in m :: m[t].handle }

    /** A database whose initial tables satisfy the constraints. */
    constructor (schema: M.Schema)
      requires M.Satisfies(schema, schema.initial)
      ensures Valid() && fresh(this) && this.schema == schema && State() == M.Initial(schema)
    {
      hide M.Satisfies;
      this.schema, committed, revision, epoch := schema, schema.initial, 0, 0;
      open, pending, count, created, history := map[], map[], 0, [], [];
    }

    method Active(tx: LocalTransaction, running: Option<M.Task>) returns (active: bool)
      requires Valid() && tx.handle < |created| && created[tx.handle] == tx
      ensures active == M.Active(State(), tx.handle, running)
    {
      hide T.Inv;
      active := tx.epoch == epoch && tx.status == M.Opened && running == Some(tx.task)
        && tx.task.id in open && open[tx.task.id] == tx;
    }

    method Create(task: M.Task) returns (tx: LocalTransaction)
      requires Linked()
      modifies this`created, this`open, this`count
      ensures fresh(tx) && tx.db == this && Linked() && created == old(created) + [tx]
      ensures tx.Model() == M.Tx(task, epoch, revision, committed, map[], false, M.Opened, committed, [])
      ensures Models() == old(Models()) + [tx.Model()] && Handles(open) == old(Handles(open))[task.id := |old(created)|]
    {
      ghost var models, handles := Models(), Handles(open);
      tx := new LocalTransaction(this, count, task, epoch, revision, committed);
      created := created + [tx];
      open := open[task.id := tx];
      count := count + 1;
      assert Models() == models + [tx.Model()];
      assert Handles(open) == handles[task.id := |models|];
    }

    /** `begin`; no transaction when there is no running task of the owner or it already has one open. */
    method Begin(running: Option<M.Task>) returns (tx: LocalTransaction?)
      requires Valid()
      modifies this`created, this`open, this`count
      ensures Valid() && State() == M.Begin(schema, old(State()), running)
      ensures (tx != null) == M.MayBegin(schema, old(State()), running)
      ensures tx != null ==> fresh(tx) && tx.db == this && tx.Attached() && created == old(created) + [tx]
      ensures tx == null ==> created == old(created)
    {
      hide T.Inv, Linked, Models, Handles;
      ghost var before := State();
      T.BeginKeeps(schema, before, running);
      HandlesKeys(open);
      if running.None? || running.value.owner != schema.owner || running.value.id in open { return null; }
      tx := Create(running.value);
      LinkedHandle(|before.txs|);
      assert State() == M.Begin(schema, before, running);
    }

    lemma HandlesKeys(m: map<nat, LocalTransaction>)
      ensures forall t :: t in Handles(m) <==> t in m
      ensures |Models()| == |created|
    {}

    lemma LinkedHandle(h: nat)
      requires Linked() && h < |created|
      ensures created[h].handle == h && created[h].db == this
    {}

    /** `commit`: the transaction waits for its commit event under an operation id of the core. */
    method Submit(tx: LocalTransaction, running: Option<M.Task>, operation: nat) returns (accepted: bool)
      requires tx.Attached() && tx.db == this && operation !in pending
      modifies this`open, this`pending, tx`status
      ensures Valid() && State() == M.Submit(old(State()), tx.handle, running, operation)
      ensures accepted == M.Active(old(State()), tx.handle, running)
    {
      hide T.Inv, Linked, Models;
      ghost var before := State();
      ModelAt(tx.handle);
      T.SubmitKeeps(schema, before, tx.handle, running, operation);
      accepted := Active(tx, running);
      if !accepted { return; }
      Enqueue(tx, operation);
      assert State() == M.Submit(before, tx.handle, running, operation);
    }

    /** The transaction is no longer open. */
    method Leave(tx: LocalTransaction, status: M.Status)
      requires Linked() && tx.handle < |created| && created[tx.handle] == tx
      modifies this`open, tx`status
      ensures Linked() && |old(Models())| == |created|
      ensures tx.Model() == old(tx.Model()).(status := status) && old(Models())[tx.handle] == old(tx.Model())
      ensures Models() == old(Models())[tx.handle := tx.Model()]
      ensures open == old(open) - {tx.task.id} && Handles(open) == old(Handles(open)) - {tx.task.id}
    {
      hide Models;
      ModelAt(tx.handle);
      tx.status := status;
      open := open - {tx.task.id};
      ModelsChanged(tx.handle);
    }

    method Enqueue(tx: LocalTransaction, operation: nat)
      requires Linked() && tx.handle < |created| && created[tx.handle] == tx
      modifies this`open, this`pending, tx`status
      ensures Linked() && |old(Models())| == |created| && old(Models())[tx.handle] == old(tx.Model())
      ensures Models() == old(Models())[tx.handle := old(tx.Model()).(status := M.Submitted)]
      ensures Handles(open) == old(Handles(open)) - {tx.task.id}
      ensures Handles(pending) == old(Handles(pending))[operation := tx.handle]
    {
      hide Models, Linked, Handles;
      Leave(tx, M.Submitted);
      Await(tx, operation);
    }

    method Await(tx: LocalTransaction, operation: nat)
      requires Linked() && tx.handle < |created| && created[tx.handle] == tx
      modifies this`pending
      ensures Linked() && Models() == old(Models()) && Handles(open) == old(Handles(open))
      ensures Handles(pending) == old(Handles(pending))[operation := tx.handle]
    {
      ghost var handles := Handles(pending);
      pending := pending[operation := tx];
      ModelsSame();
      assert Handles(pending) == handles[operation := tx.handle];
    }

    lemma ModelAt(h: nat)
      requires h < |created|
      ensures |Models()| == |created| && Models()[h] == created[h].Model()
    {}

    method Withdraw(tx: LocalTransaction)
      requires tx.Attached() && tx.db == this && tx.status == M.Opened
      modifies this`open, tx`status
      ensures Valid() && State() == M.Withdraw(old(State()), tx.handle)
      ensures open == old(open) - {tx.task.id} && tx.status == M.RolledBack
    {
      hide T.Inv, Models, Linked, Handles;
      ghost var before := State();
      ModelAt(tx.handle);
      T.WithdrawKeeps(schema, before, tx.handle);
      Leave(tx, M.RolledBack);
      assert State() == M.Withdraw(before, tx.handle);
    }

    /** `rollback`; `ok` is false when the call is refused. */
    method Rollback(tx: LocalTransaction, running: Option<M.Task>) returns (ok: bool)
      requires tx.Attached() && tx.db == this
      modifies this`open, tx`status
      ensures Valid() && State() == M.Rollback(old(State()), tx.handle, running)
      ensures ok == (M.Active(old(State()), tx.handle, running)
                     || (old(tx.status) == M.RolledBack && tx.epoch == epoch && SameTask(tx, running)))
    {
      hide T.Inv;
      if tx.epoch != epoch { return false; }
      if tx.status == M.RolledBack { return SameTask(tx, running); }
      ok := Active(tx, running);
      if ok { Withdraw(tx); }
    }

    predicate SameTask(tx: LocalTransaction, running: Option<M.Task>) {
      running.Some? && running.value.id == tx.task.id && running.value.generation == tx.task.generation
    }

    method Cleanup(tx: LocalTransaction)
      requires tx.Attached() && tx.db == this
      modifies this`open, tx`status
      ensures Valid() && State() == M.Cleanup(old(State()), tx.handle)
    {
      hide T.Inv;
      if tx.status != M.Opened { return; }
      Withdraw(tx);
    }

    /** `abandonGeneration`. */
    method AbandonGeneration(generation: nat)
      requires Valid()
      modifies this`open, this`pending, created
      ensures Valid() && M.Handles(old(State())) && State() == M.Abandon(old(State()), generation)
    {
      hide T.Inv, Linked, Models, Handles, Swept, SweptOpen, M.OfOthers;
      ghost var before := State();
      T.InvHandles(schema, before);
      T.AbandonKeeps(schema, before, generation);
      CleanUpOpen(generation);
      SweptAll(before, generation);
      T.InvHandles(schema, State());
      DropPending(generation);
      assert State() == M.Abandon(before, generation);
    }

    method CleanUpOpen(generation: nat)
      requires Valid()
      modifies this`open, created
      ensures Valid() && M.Handles(old(State()))
      ensures State() == old(State()).(txs := Swept(old(State()), {}, generation), open :=
                                       SweptOpen(old(State()), {}, generation))
    {
      hide T.Inv, Linked, Models, Handles, Swept, SweptOpen;
      ghost var before := State();
      T.InvHandles(schema, before);
      HandlesKeys(open);
      var tasks := open.Keys;
      SweptNone(before, tasks, generation);
      while tasks != {}
        invariant Valid() && tasks <= before.open.Keys
        invariant State() ==
            before.(txs := Swept(before, tasks, generation), open := SweptOpen(before, tasks, generation))
        decreases |tasks|
      {
        var t :| t in tasks;
        SweptHas(before, tasks, generation, t);
        HandlesKeys(open);
        var tx := open[t];
        OpenTask(t);
        SweptStep(before, tasks, generation, t);
        SweptOpenStep(before, tasks, generation, t);
        if tx.task.generation == generation { Withdraw(tx); }
        tasks := tasks - {t};
      }
    }

    method DropPending(generation: nat)
      requires Linked() && M.Within(Handles(pending), Models())
      modifies this`pending
      ensures Linked() && Models() == old(Models())
      ensures Handles(pending) == M.OfOthers(old(Handles(pending)), old(Models()), generation)
    {
      ghost var handles, models := Handles(pending), Models();
      assert forall o :: o in pending ==> handles[o] == pending[o].handle && models[handles[o]].task == pending[o].task;
      pending := map o | o in pending && pending[o].task.generation != generation :: pending[o];
      ModelsSame();
      hide Models;
      assert Handles(pending) == M.OfOthers(handles, models, generation);
    }

    lemma OpenTask(t: nat)
      requires Valid() && t in open
      ensures open[t].Attached() && open[t].db == this && open[t].status == M.Opened && open[t].task.id == t
      ensures Handles(open)[t] == open[t].handle && |Models()| == |created|
      ensures Models()[open[t].handle] == open[t].Model()
    {
      hide T.TxsOk, T.PendingOk, T.HistoryOk, T.Serial, T.Writers, M.Satisfies;
      assert State().open[t] == open[t].handle;
      assert State().txs[open[t].handle] == open[t].Model();
    }

    /** The committed tables with the transaction's changes made to them. */
    method CandidateOf(tx: LocalTransaction) returns (candidate: Tables)
      ensures candidate == M.Apply(committed, M.Net(tx.writes))
    {
      candidate := committed;
      var changes := tx.Changes();
      ghost var net, done := M.Net(tx.writes), {};
      for i := 0 to |changes|
        invariant done == set j | 0 <= j < i :: changes[j].0
        invariant forall s :: M.At(candidate, s) == if s in done then net[s].after else M.At(committed, s)
      {
        var (slot, change) := changes[i];
        candidate := if change.after.None? then candidate - {slot} else candidate[slot := change.after.value];
        done := done + {slot};
      }
      forall s ensures M.At(candidate, s) == M.At(M.Apply(committed, net), s) {
        if s in net { assert (s, net[s]) in changes; }
      }
      T.SameTables(candidate, M.Apply(committed, net));
    }

    /** `#dispatch`: the answer given to the operation, or none when it is no longer pending. */
    method Dispatch(operation: nat, fault: bool) returns (outcome: Option<Result<()>>)
      requires Valid()
      modifies this`committed, this`revision, this`pending, this`history, created
      ensures Valid() && M.Handles(old(State()))
      ensures (State(), outcome) == M.Dispatch(schema, old(State()), operation, fault)
    {
      hide T.Inv, M.Verdict, M.Candidate, Linked, Models;
      ghost var before := State();
      T.InvHandles(schema, before);
      T.DispatchKeeps(schema, before, operation, fault);
      if operation !in pending { return None; }
      var tx := pending[operation];
      PendingTx(operation);
      Close(tx, operation);
      ghost var closed := before.txs[tx.handle].(status := M.Closed);
      outcome := Decide(tx, fault);
      VerdictReads(schema, before,
                   before.(txs := before.txs[tx.handle := closed], pending := before.pending - {operation}), closed,
                       fault);
    }

    lemma PendingTx(operation: nat)
      requires Linked() && operation in pending
      ensures pending[operation] in created
    {
      assert created[pending[operation].handle] in created;
    }

    lemma VerdictReads(schema: M.Schema, a: M.Db, b: M.Db, tx: M.Tx, fault: bool)
      requires a.committed == b.committed && a.revision == b.revision
      ensures M.Verdict(schema, a, tx, fault) == M.Verdict(schema, b, tx, fault)
      ensures M.Candidate(a, tx) == M.Candidate(b, tx)
    {}

    method Close(tx: LocalTransaction, operation: nat)
      requires Linked() && operation in pending && pending[operation] == tx
      modifies this`pending, tx`status
      ensures Linked() && tx.handle < |created| && tx.Model() == old(tx.Model()).(status := M.Closed)
      ensures old(Models())[tx.handle] == old(tx.Model()) && Models() == old(Models())[tx.handle := tx.Model()]
      ensures Handles(pending) == old(Handles(pending)) - {operation}
    {
      hide Models;
      ModelAt(tx.handle);
      pending := pending - {operation};
      tx.status := M.Closed;
      ModelsChanged(tx.handle);
    }

    /** The checks of a commit in their order, and its installation when they all pass. */
    method Decide(tx: LocalTransaction, fault: bool) returns (outcome: Option<Result<()>>)
      requires Linked()
      modifies this`committed, this`revision, this`history
      ensures Linked() && Models() == old(Models())
      ensures outcome == Some(M.Verdict(schema, old(State()), tx.Model(), fault))
      ensures outcome.value.Err? ==> unchanged(this)
      ensures (outcome.value.Ok? ==>
        && committed == M.Candidate(old(State()), tx.Model())
        && revision == (if tx.staged then old(revision) + 1 else old(revision))
        && history == old(history) + [tx.Model()])
    {
      hide M.Satisfies, M.Apply, M.Net;
      if fault { return Some(Err(COMMIT_FAILED)); }
      if revision != tx.baseRevision { return Some(Err(TRANSACTION_CONFLICT)); }
      var candidate := CandidateOf(tx);
      var violation := Constraint(schema, candidate);
      if violation.Some? { return Some(Err(CONSTRAINT_VIOLATION)); }
      committed := candidate;
      if tx.staged { revision := revision + 1; }
      history := history + [tx.Model()];
      ModelsSame();
      return Some(Ok(()));
    }

    method Reset()
      requires Valid() && M.Satisfies(schema, schema.initial)
      modifies this`committed, this`revision, this`epoch, this`open, this`pending, this`history
      ensures Valid() && State() == M.Reset(schema, old(State()))
    {
      hide T.Inv, M.Satisfies;
      T.ResetKeeps(schema, State());
      epoch := epoch + 1;
      open, pending := map[], map[];
      committed, revision, history := schema.initial, 0, [];
      ModelsSame();
    }
  }

  /** Opens a database, or none when a check of the definition or a constraint on the initial tables fails. */
  method Open(schema: M.Schema) returns (db: DeterministicDatabase?)
    ensures db != null <==> DefinitionOk(schema) && M.Satisfies(schema, schema.initial)
    ensures db != null ==> fresh(db) && db.Valid() && db.schema == schema && db.State() == M.Initial(schema)
  {
    hide M.Satisfies;
    if !DefinitionOk(schema) { return null; }
    var violation := Constraint(schema, schema.initial);
    if violation.Some? { return null; }
    db := new DeterministicDatabase(schema);
  }

  /**
   * A named owner, named tables, each once, with named fields and existing checks, and initial rows in tables that
   * exist.
   */
  predicate DefinitionOk(schema: M.Schema) {
    && IsName(schema.owner)
    && (forall i, j :: 0 <= i < j < |schema.definitions| ==> schema.definitions[i].name != schema.definitions[j].name)
    && (forall i :: 0 <= i < |schema.definitions| ==> TableOk(schema, schema.definitions[i]))
    && (forall slot :: slot in schema.initial ==>
        M.IsTable(schema, slot.table) && IsName(slot.key) && M.IsRow(schema.initial[slot]))
  }

  predicate TableOk(schema: M.Schema, definition: M.TableDefinition) {
    && IsName(definition.name)
    && (forall i :: 0 <= i < |definition.unique| ==> FieldsOk(definition.unique[i]))
    && (forall i :: 0 <= i < |definition.checks| ==>
        IsName(definition.checks[i]) && definition.checks[i] in schema.checkNames)
  }

  predicate FieldsOk(fields: seq<Text>) {
    && fields != [] && Distinct(fields)
    && (forall i :: 0 <= i < |fields| ==> IsName(fields[i]))
  }
}
