/**
 * The kernel and the databases share the commits that wait for their event: what the kernel will complete is exactly
 * what a database still has to decide, for the same process generation.
 */
module SharedCommits {
  import opened Outcomes
  import K = KernelModel
  import D = DatabaseModel
  import T = DatabaseTheorems

  type Commits = map<K.OpId, K.PendingCommit>

  ghost predicate SameCommit(commits: Commits, owner: K.Owner, db: D.Db, op: nat) {
    && (op in commits && commits[op].owner == owner <==> op in db.pending)
    && (op in commits && op in db.pending ==>
          db.pending[op] < |db.txs| && db.txs[db.pending[op]].task.generation == commits[op].generation)
  }

  /** The commits of one owner are the pending commits of its database. */
  ghost predicate Linked(commits: Commits, owner: K.Owner, db: D.Db) {
    forall op: nat :: SameCommit(commits, owner, db, op)
  }

  /** Every open transaction belongs to a task of this process generation. */
  ghost predicate OpenIn(db: D.Db, generation: nat) {
    forall t :: t in db.open ==> db.open[t] < |db.txs| && db.txs[db.open[t]].task.generation == generation
  }

  /** The database of one owner agrees with the kernel. */
  ghost predicate Serves(commits: Commits, generation: nat, owner: K.Owner, schema: D.Schema, db: D.Db) {
    T.Inv(schema, db) && Linked(commits, owner, db) && OpenIn(db, generation)
  }

  // ---------- What a task does with its database ----------

  /** Calls of a running task: it begins transactions as a task of its own process generation. */
  predicate IsCall(input: D.Input, generation: nat) {
    match input
    case DoBegin(task) => task.Some? ==> task.value.generation == generation
    case DoAccess(_, _, _) => true
    case DoRollback(_, _) => true
    case _ => false
  }

  ghost function Called(schema: D.Schema, db: D.Db, input: D.Input, generation: nat): D.Db {
    if D.Handles(db) && D.Possible(db, input) && IsCall(input, generation) then D.Step(schema, db, input) else db
  }

  ghost function CalledAll(schema: D.Schema, db: D.Db, inputs: seq<D.Input>, generation: nat): D.Db
    decreases |inputs|
  {
    if inputs == [] then db else CalledAll(schema, Called(schema, db, inputs[0], generation), inputs[1..], generation)
  }

  /** Calls leave every pending commit with its transaction, and every transaction with its task. */
  ghost predicate KeepsPending(before: D.Db, after: D.Db) {
    && after.pending == before.pending && |before.txs| <= |after.txs|
    && forall h :: 0 <= h < |before.txs| ==> after.txs[h].task == before.txs[h].task
  }

  lemma KeptPending(commits: Commits, owner: K.Owner, before: D.Db, after: D.Db)
    requires Linked(commits, owner, before) && KeepsPending(before, after)
    ensures Linked(commits, owner, after)
  {
    forall op: nat ensures SameCommit(commits, owner, after, op) { assert SameCommit(commits, owner, before, op); }
  }

  lemma CallKeepsPending(schema: D.Schema, db: D.Db, input: D.Input, generation: nat)
    requires D.Handles(db) && D.Possible(db, input) && IsCall(input, generation)
    ensures KeepsPending(db, D.Step(schema, db, input))
    ensures OpenIn(db, generation) ==> OpenIn(D.Step(schema, db, input), generation)
  {
    hide D.ValidCall, D.Write;
    match input
    case DoBegin(task) =>
    case DoAccess(h, task, call) => T.AccessShrinks(schema, db, h, task, call);
    case DoRollback(h, task) =>
  }

  lemma {:induction false} CallsServe(commits: Commits, generation: nat, owner: K.Owner, schema: D.Schema, db: D.Db,
                                      inputs: seq<D.Input>)
    requires Serves(commits, generation, owner, schema, db) && D.Satisfies(schema, schema.initial)
    ensures Serves(commits, generation, owner, schema, CalledAll(schema, db, inputs, generation))
    decreases |inputs|
  {
    hide T.Inv, D.Satisfies, D.Step, Linked, OpenIn, KeepsPending;
    if inputs != [] {
      var next := Called(schema, db, inputs[0], generation);
      T.InvHandles(schema, db);
      if IsCall(inputs[0], generation) && D.Possible(db, inputs[0]) {
        T.StepKeeps(schema, db, inputs[0]);
        CallKeepsPending(schema, db, inputs[0], generation);
        KeptPending(commits, owner, db, next);
      }
      CallsServe(commits, generation, owner, schema, next, inputs[1..]);
    }
  }

  // ---------- Deciding, withdrawing, submitting ----------

  /** A commit event is decided by the database exactly when the kernel completes its operation. */
  lemma DecidedTogether(commits: Commits, generation: nat, owner: K.Owner, schema: D.Schema, db: D.Db, op: nat,
                        fault: bool)
    requires Serves(commits, generation, owner, schema, db) && (op in commits ==> commits[op].owner == owner)
    ensures D.Handles(db) && (op in commits <==> D.Dispatch(schema, db, op, fault).1.Some?)
  {
    hide T.Inv;
    T.InvHandles(schema, db);
    assert SameCommit(commits, owner, db, op);
  }

  lemma DecisionServes(commits: Commits, generation: nat, owner: K.Owner, schema: D.Schema, db: D.Db, op: nat,
                       fault: bool)
    requires Serves(commits, generation, owner, schema, db) && D.Satisfies(schema, schema.initial)
    ensures D.Handles(db)
    ensures Serves(commits - {op}, generation, owner, schema, D.Dispatch(schema, db, op, fault).0)
  {
    hide T.Inv, D.Satisfies, D.Verdict, D.Candidate, Linked;
    T.InvHandles(schema, db);
    T.StepKeeps(schema, db, D.DoDispatch(op, fault));
    T.DispatchShrinks(schema, db, op, fault);
    Undecided(commits, owner, schema, db, op, fault);
  }

  lemma Undecided(commits: Commits, owner: K.Owner, schema: D.Schema, db: D.Db, op: nat, fault: bool)
    requires Linked(commits, owner, db) && D.Handles(db)
    ensures Linked(commits - {op}, owner, D.Dispatch(schema, db, op, fault).0)
  {
    hide D.Verdict, D.Candidate;
    var after := D.Dispatch(schema, db, op, fault).0;
    assert after.pending == db.pending - {op};
    forall q: nat ensures SameCommit(commits - {op}, owner, after, q) { assert SameCommit(commits, owner, db, q); }
  }

  lemma ElsewhereServes(commits: Commits, generation: nat, owner: K.Owner, schema: D.Schema, db: D.Db, fewer: Commits)
    requires Serves(commits, generation, owner, schema, db)
    requires forall op :: op in fewer ==> op in commits && fewer[op] == commits[op]
    requires forall op :: op in commits && op !in fewer ==> commits[op].owner != owner
    ensures Serves(fewer, generation, owner, schema, db)
  {
    hide T.Inv, OpenIn;
    forall op: nat ensures SameCommit(fewer, owner, db, op) { assert SameCommit(commits, owner, db, op); }
  }

  /** The end of a process generation withdraws its commits on both sides and leaves nothing open. */
  lemma EndServes(commits: Commits, generation: nat, owner: K.Owner, schema: D.Schema, db: D.Db, fewer: Commits)
    requires Serves(commits, generation, owner, schema, db)
    requires fewer == map op | op in commits && commits[op] != K.PendingCommit(owner, generation) :: commits[op]
    ensures D.Handles(db)
    ensures Serves(fewer, generation + 1, owner, schema, D.Abandon(db, generation))
    ensures !T.Involves(D.Abandon(db, generation), generation)
  {
    hide T.Inv, Linked;
    T.InvHandles(schema, db);
    T.AbandonKeeps(schema, db, generation);
    T.AbandonRemoves(db, generation);
    T.AbandonKeepsTasks(db, generation);
    Withdrawn(commits, generation, owner, db, fewer);
    assert forall t :: t in D.Abandon(db, generation).open ==> t in db.open;
  }

  lemma Withdrawn(commits: Commits, generation: nat, owner: K.Owner, db: D.Db, fewer: Commits)
    requires Linked(commits, owner, db) && D.Handles(db)
    requires fewer == map op | op in commits && commits[op] != K.PendingCommit(owner, generation) :: commits[op]
    ensures Linked(fewer, owner, D.Abandon(db, generation))
  {
    var after := D.Abandon(db, generation);
    T.AbandonKeepsTasks(db, generation);
    forall op: nat ensures SameCommit(fewer, owner, after, op) {
      assert SameCommit(commits, owner, db, op);
      assert op in after.pending <==> op in db.pending && db.txs[db.pending[op]].task.generation != generation;
    }
  }

  /** A new commit of a running task, submitted with a transaction of its own. */
  lemma SubmitServes(commits: Commits, generation: nat, owner: K.Owner, schema: D.Schema, db: D.Db, h: nat,
                     task: D.Task, op: nat)
    requires Serves(commits, generation, owner, schema, db) && op !in commits && task.generation == generation
    requires h < |db.txs| && D.Active(db, h, Some(task))
    ensures Serves(commits[op := K.PendingCommit(owner, generation)], generation, owner, schema,
                   D.Submit(db, h, Some(task), op))
  {
    hide T.Inv;
    assert SameCommit(commits, owner, db, op);
    T.SubmitKeeps(schema, db, h, Some(task), op);
    var after := D.Submit(db, h, Some(task), op);
    var more := commits[op := K.PendingCommit(owner, generation)];
    forall q: nat ensures SameCommit(more, owner, after, q) {
      assert SameCommit(commits, owner, db, q);
    }
  }

  /** A new commit of somebody else. */
  lemma OthersSubmit(commits: Commits, generation: nat, owner: K.Owner, schema: D.Schema, db: D.Db, op: nat,
                     commit: K.PendingCommit)
    requires Serves(commits, generation, owner, schema, db) && op !in commits && commit.owner != owner
    ensures Serves(commits[op := commit], generation, owner, schema, db)
  {
    hide T.Inv, OpenIn;
    var more := commits[op := commit];
    forall q: nat ensures SameCommit(more, owner, db, q) { assert SameCommit(commits, owner, db, q); }
  }
}
