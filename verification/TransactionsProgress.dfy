/**
 What can happen: no call is kept from committing, and every history of one machine that the
 specification allows is the outcome of some run of small steps.
 */
module TransactionsProgress {
  import opened Basics
  import opened Presence
  import opened Transactions
  import opened TransactionsRefine

  ghost function Perform(db: Db, steps: seq<Step>): Db {
    if steps == [] then db else Take(Perform(db, Front(steps)), Last(steps))
  }

  // Every step is enabled when its turn comes.
  ghost predicate Performs(db: Db, steps: seq<Step>) {
    steps == [] || (Performs(db, Front(steps)) && Enabled(Perform(db, Front(steps)), Last(steps)))
  }

  ghost function CommittedDuring(db: Db, steps: seq<Step>, machine: MachineId): seq<Op> {
    if steps == [] then []
    else CommittedDuring(db, Front(steps), machine) + CommittedBy(Perform(db, Front(steps)), Last(steps), machine)
  }

  lemma {:induction false} PerformAppends(before: seq<Step>, steps: seq<Step>, machine: MachineId)
    ensures Exec(before + steps) == Perform(Exec(before), steps)
    ensures CommittedOps(before + steps, machine) ==
            CommittedOps(before, machine) + CommittedDuring(Exec(before), steps, machine)
  {
    if steps == [] {
      assert before + steps == before;
    } else {
      PerformAppends(before, Front(steps), machine);
      assert Front(before + steps) == before + Front(steps) && Last(before + steps) == Last(steps);
    }
  }

  /* ---- Every call can commit ---- */

  // The statement of `tx` would run now: its row is free and the clock is not behind.
  ghost predicate CanExecute(db: Db, tx: TxId, at: Readings) {
    && tx in db.txs && db.txs[tx].phase.Begun?
    && var call := db.txs[tx].call;
    && call.Machine() in db.rows
    && (Matches(call, db.rows[call.Machine()]) ==>
          Unlocked(db, call.Machine()) && (call.Machine() in db.floors ==> NotBefore(at, db.floors[call.Machine()])))
    && (call.StartCall? ==> TokenIsNew(db.sessions, call.Machine(), at.connected))
  }

  ghost predicate Announces(call: Call, row: Row) {
    (call.StartCall? && row.status != Online) || (call.EndCall? && row.connected == Some(call.session.connectedAt) && row.status == Online)
  }

  // From its statement to its commit; the event is inserted only when the status changes.
  ghost function RemainingSteps(db: Db, tx: TxId, at: Readings): seq<Step>
    requires CanExecute(db, tx, at)
  {
    var call := db.txs[tx].call;
    if Announces(call, db.rows[call.Machine()]) then [Execute(tx, at), Insert(tx), Commit(tx)] else [Execute(tx, at), Commit(tx)]
  }

  // Nothing committed has changed.
  ghost predicate Unseen(db: Db, db': Db) {
    db'.rows == db.rows && db'.floors == db.floors && forall k :: k in db.rows ==> View(db', k) == View(db, k)
  }

  // The call has committed as one atomic call, and nothing else has.
  ghost predicate CommitsTo(db: Db, db': Db, tx: TxId, call: Call, at: Readings) {
    && call.Machine() in db.rows
    && db'.rows.Keys == db.rows.Keys
    && (forall k :: k in db.rows && k != call.Machine() ==> View(db', k) == View(db, k))
    && View(db', call.Machine()) == Apply(View(db, call.Machine()), OpOf(tx, call, at))
    && db.floors.Keys <= db'.floors.Keys <= db.floors.Keys + {call.Machine()}
    && (forall k :: k in db'.floors ==> db'.floors[k] == Latest(at) || (k in db.floors && db'.floors[k] == db.floors[k]))
  }

  lemma UnseenThenUnseen(db: Db, db1: Db, db2: Db)
    requires Unseen(db, db1) && Unseen(db1, db2)
    ensures Unseen(db, db2)
  {
  }

  lemma UnseenThenCommits(db: Db, db1: Db, db2: Db, tx: TxId, call: Call, at: Readings)
    requires Unseen(db, db1) && CommitsTo(db1, db2, tx, call, at)
    ensures CommitsTo(db, db2, tx, call, at)
  {
    assert View(db1, call.Machine()) == View(db, call.Machine());
    forall k | k in db.rows && k != call.Machine() ensures View(db2, k) == View(db, k) {
      assert View(db1, k) == View(db, k);
    }
  }

  lemma QuietStep(db: Db, step: Step)
    requires Inv(db) && Enabled(db, step) && (step.Begin? || step.Execute? || step.Insert? || step.Abort?)
    ensures Inv(Next(db, step)) && Unseen(db, Next(db, step))
  {
    NextKeepsInv(db, step);
    forall k | k in db.rows ensures View(Next(db, step), k) == View(db, k) {
      UncommittedStepShowsNothing(db, step, k);
    }
  }

  lemma CommitStep(db: Db, tx: TxId)
    requires Inv(db) && Enabled(db, Commit(tx))
    ensures var t := db.txs[tx];
            Inv(Next(db, Commit(tx))) && CommitsTo(db, Next(db, Commit(tx)), tx, t.call, t.phase.at)
  {
    NextKeepsInv(db, Commit(tx));
    OnlyEnrollAddsMachines(db, Commit(tx));
    CommitIsOneAtomicCall(db, tx);
    forall k | k in db.rows && k != db.txs[tx].call.Machine() ensures View(Next(db, Commit(tx)), k) == View(db, k) {
      CommitElsewhereShowsNothing(db, tx, k);
    }
  }

  lemma ExecuteIsEnabled(db: Db, tx: TxId, at: Readings)
    requires CanExecute(db, tx, at)
    ensures Enabled(db, Execute(tx, at))
    ensures var call, db' := db.txs[tx].call, Next(db, Execute(tx, at));
            var row := db.rows[call.Machine()];
            && db'.txs[tx].call == call && db'.txs[tx].phase.at == at
            && (db'.txs[tx].phase.Unmatched? <==> !Matches(call, row))
            && (Announces(call, row) ==> Enabled(db', Insert(tx)))
            && (!Announces(call, row) ==> Enabled(db', Commit(tx)))
            && (Matches(call, row) ==> db'.txs[tx].phase.Matched?)
            && db'.txs == db.txs[tx := db'.txs[tx]]
  {
  }

  lemma InsertIsEnabled(db: Db, tx: TxId)
    requires Enabled(db, Insert(tx))
    ensures var db' := Next(db, Insert(tx));
            && Enabled(db', Commit(tx))
            && db'.txs[tx].call == db.txs[tx].call && db'.txs[tx].phase.at == db.txs[tx].phase.at && !db'.txs[tx].phase.Unmatched?
            && db'.txs == db.txs[tx := db'.txs[tx]]
  {
  }

  lemma PerformTwo(db: Db, a: Step, b: Step)
    requires Enabled(db, a) && Enabled(Next(db, a), b)
    ensures Performs(db, [a, b]) && Perform(db, [a, b]) == Next(Next(db, a), b)
  {
    assert Front([a, b]) == [a] && Front([a]) == [];
    assert Perform(db, [a]) == Next(db, a) && Performs(db, [a]);
  }

  lemma PerformThree(db: Db, a: Step, b: Step, c: Step)
    requires Enabled(db, a) && Enabled(Next(db, a), b) && Enabled(Next(Next(db, a), b), c)
    ensures Performs(db, [a, b, c]) && Perform(db, [a, b, c]) == Next(Next(Next(db, a), b), c)
  {
    PerformTwo(db, a, b);
    assert Front([a, b, c]) == [a, b];
  }

  // The transaction has ended; every other one is where it was.
  ghost predicate OnlyEnds(db: Db, db': Db, tx: TxId) {
    tx in db.txs && db'.txs == db.txs[tx := Tx(db.txs[tx].call, Committed)]
  }

  lemma StatementWithoutEventEnds(db: Db, tx: TxId, at: Readings)
    requires CanExecute(db, tx, at) && !Announces(db.txs[tx].call, db.rows[db.txs[tx].call.Machine()])
    ensures Enabled(db, Execute(tx, at)) && Enabled(Next(db, Execute(tx, at)), Commit(tx))
    ensures OnlyEnds(db, Next(Next(db, Execute(tx, at)), Commit(tx)), tx)
  {
    ExecuteIsEnabled(db, tx, at);
  }

  lemma StatementWithEventEnds(db: Db, tx: TxId, at: Readings)
    requires CanExecute(db, tx, at) && Announces(db.txs[tx].call, db.rows[db.txs[tx].call.Machine()])
    ensures Enabled(db, Execute(tx, at)) && Enabled(Next(db, Execute(tx, at)), Insert(tx))
    ensures Enabled(Next(Next(db, Execute(tx, at)), Insert(tx)), Commit(tx))
    ensures OnlyEnds(db, Next(Next(Next(db, Execute(tx, at)), Insert(tx)), Commit(tx)), tx)
  {
    ExecuteIsEnabled(db, tx, at);
    InsertIsEnabled(Next(db, Execute(tx, at)), tx);
  }

  lemma StatementWithoutEventCommits(db: Db, tx: TxId, at: Readings)
    requires Inv(db) && CanExecute(db, tx, at) && !Announces(db.txs[tx].call, db.rows[db.txs[tx].call.Machine()])
    ensures Enabled(db, Execute(tx, at)) && Enabled(Next(db, Execute(tx, at)), Commit(tx))
    ensures var db' := Next(Next(db, Execute(tx, at)), Commit(tx)); Inv(db') && CommitsTo(db, db', tx, db.txs[tx].call, at)
  {
    ExecuteIsEnabled(db, tx, at);
    var db1 := Next(db, Execute(tx, at));
    QuietStep(db, Execute(tx, at));
    CommitStep(db1, tx);
    UnseenThenCommits(db, db1, Next(db1, Commit(tx)), tx, db.txs[tx].call, at);
  }

  lemma StatementWithEventCommits(db: Db, tx: TxId, at: Readings)
    requires Inv(db) && CanExecute(db, tx, at) && Announces(db.txs[tx].call, db.rows[db.txs[tx].call.Machine()])
    ensures Enabled(db, Execute(tx, at)) && Enabled(Next(db, Execute(tx, at)), Insert(tx))
    ensures Enabled(Next(Next(db, Execute(tx, at)), Insert(tx)), Commit(tx))
    ensures var db' := Next(Next(Next(db, Execute(tx, at)), Insert(tx)), Commit(tx));
            Inv(db') && CommitsTo(db, db', tx, db.txs[tx].call, at)
  {
    ExecuteIsEnabled(db, tx, at);
    var db1 := Next(db, Execute(tx, at));
    QuietStep(db, Execute(tx, at));
    InsertIsEnabled(db1, tx);
    var db2 := Next(db1, Insert(tx));
    QuietStep(db1, Insert(tx));
    UnseenThenUnseen(db, db1, db2);
    CommitStep(db2, tx);
    UnseenThenCommits(db, db2, Next(db2, Commit(tx)), tx, db.txs[tx].call, at);
  }

  // An unobstructed statement can be followed by its event, if any, and its commit.
  lemma StatementEnds(db: Db, tx: TxId, at: Readings)
    requires CanExecute(db, tx, at)
    ensures Performs(db, RemainingSteps(db, tx, at)) && OnlyEnds(db, Perform(db, RemainingSteps(db, tx, at)), tx)
  {
    if Announces(db.txs[tx].call, db.rows[db.txs[tx].call.Machine()]) {
      StatementWithEventEnds(db, tx, at);
      PerformThree(db, Execute(tx, at), Insert(tx), Commit(tx));
    } else {
      StatementWithoutEventEnds(db, tx, at);
      PerformTwo(db, Execute(tx, at), Commit(tx));
    }
  }

  lemma StatementCommits(db: Db, tx: TxId, at: Readings)
    requires Inv(db) && CanExecute(db, tx, at)
    ensures var db' := Perform(db, RemainingSteps(db, tx, at)); Inv(db') && CommitsTo(db, db', tx, db.txs[tx].call, at)
  {
    if Announces(db.txs[tx].call, db.rows[db.txs[tx].call.Machine()]) {
      StatementWithEventCommits(db, tx, at);
      PerformThree(db, Execute(tx, at), Insert(tx), Commit(tx));
    } else {
      StatementWithoutEventCommits(db, tx, at);
      PerformTwo(db, Execute(tx, at), Commit(tx));
    }
  }

  lemma ReadyToCommit(db: Db, tx: TxId, at: Readings)
    requires CanExecute(db, tx, at)
    ensures var steps := RemainingSteps(db, tx, at); var db1 := Perform(db, Front(steps));
            && Last(steps) == Commit(tx) && Performs(db, Front(steps)) && Enabled(db1, Commit(tx))
            && db1.txs[tx].phase.at == at
            && forall i :: 0 <= i < |steps| - 1 ==> steps[i].Execute? || steps[i].Insert?
  {
    StatementEnds(db, tx, at);
    ExecuteIsEnabled(db, tx, at);
    assert Front([Execute(tx, at)]) == [] && Perform(db, [Execute(tx, at)]) == Next(db, Execute(tx, at));
    if Announces(db.txs[tx].call, db.rows[db.txs[tx].call.Machine()]) {
      InsertIsEnabled(Next(db, Execute(tx, at)), tx);
      PerformTwo(db, Execute(tx, at), Insert(tx));
      assert Front(RemainingSteps(db, tx, at)) == [Execute(tx, at), Insert(tx)];
    } else {
      assert Front(RemainingSteps(db, tx, at)) == [Execute(tx, at)];
    }
  }

  lemma {:induction false} PerformFirst(db: Db, first: Step, rest: seq<Step>, machine: MachineId)
    requires Enabled(db, first)
    ensures Perform(db, [first] + rest) == Perform(Next(db, first), rest)
    ensures Performs(db, [first] + rest) <==> Performs(Next(db, first), rest)
    ensures CommittedDuring(db, [first] + rest, machine) ==
            CommittedBy(db, first, machine) + CommittedDuring(Next(db, first), rest, machine)
  {
    if rest == [] {
      assert [first] + rest == [first] && Front([first]) == [];
    } else {
      PerformFirst(db, first, Front(rest), machine);
      assert Front([first] + rest) == [first] + Front(rest) && Last([first] + rest) == Last(rest);
    }
  }

  // A call that has not begun, on a row nobody has locked, with a clock that is not behind.
  ghost predicate IsUncontended(db: Db, tx: TxId, call: Call, at: Readings) {
    && tx !in db.txs
    && call.Machine() in db.rows
    && (!call.StartCall? ==> call.sid in db.sessions && db.sessions[call.sid] == call.session)
    && (forall t, m :: t in db.txs ==> !HoldsLock(db.txs[t], m) || m != call.Machine())
    && (call.Machine() in db.floors ==> NotBefore(at, db.floors[call.Machine()]))
    && (call.StartCall? ==>
          forall s :: s in db.sessions && db.sessions[s].machine == call.Machine() ==> db.sessions[s].connectedAt != at.connected)
  }

  lemma BeginAllowsExecute(db: Db, tx: TxId, call: Call, at: Readings)
    requires IsUncontended(db, tx, call, at)
    ensures Enabled(db, Begin(tx, call)) && CanExecute(Next(db, Begin(tx, call)), tx, at)
    ensures Next(db, Begin(tx, call)).txs == db.txs[tx := Tx(call, Begun)]
  {
  }

  ghost function StepsOf(db: Db, tx: TxId, call: Call, at: Readings): seq<Step>
    requires IsUncontended(db, tx, call, at)
  {
    BeginAllowsExecute(db, tx, call, at);
    [Begin(tx, call)] + RemainingSteps(Next(db, Begin(tx, call)), tx, at)
  }

  lemma UncontendedCallEnds(db: Db, tx: TxId, call: Call, at: Readings)
    requires IsUncontended(db, tx, call, at)
    ensures Performs(db, StepsOf(db, tx, call, at))
    ensures Perform(db, StepsOf(db, tx, call, at)).txs == db.txs[tx := Tx(call, Committed)]
  {
    BeginAllowsExecute(db, tx, call, at);
    var db1 := Next(db, Begin(tx, call));
    StatementEnds(db1, tx, at);
    PerformFirst(db, Begin(tx, call), RemainingSteps(db1, tx, at), call.Machine());
  }

  lemma UncontendedCallTakesEffect(db: Db, tx: TxId, call: Call, at: Readings)
    requires Inv(db) && IsUncontended(db, tx, call, at)
    ensures var db' := Perform(db, StepsOf(db, tx, call, at)); Inv(db') && CommitsTo(db, db', tx, call, at)
  {
    BeginAllowsExecute(db, tx, call, at);
    var db1 := Next(db, Begin(tx, call));
    QuietStep(db, Begin(tx, call));
    StatementCommits(db1, tx, at);
    PerformFirst(db, Begin(tx, call), RemainingSteps(db1, tx, at), call.Machine());
    UnseenThenCommits(db, db1, Perform(db1, RemainingSteps(db1, tx, at)), tx, call, at);
  }

  // An uncontended call begins, runs its statement, inserts its event if it has one and commits,
  // each step being possible in turn, and has then taken effect as one atomic call.
  lemma UncontendedCallCommits(db: Db, tx: TxId, call: Call, at: Readings)
    requires Inv(db) && IsUncontended(db, tx, call, at)
    ensures Performs(db, StepsOf(db, tx, call, at))
    ensures var db' := Perform(db, StepsOf(db, tx, call, at));
            && Inv(db') && db'.txs == db.txs[tx := Tx(call, Committed)] && CommitsTo(db, db', tx, call, at)
  {
    UncontendedCallEnds(db, tx, call, at);
    UncontendedCallTakesEffect(db, tx, call, at);
  }

  /* ---- Every open call can end either way ---- */

  lemma OpenCallCanRollBack(db: Db, tx: TxId)
    requires Inv(db) && tx in db.txs && !db.txs[tx].phase.Committed? && !db.txs[tx].phase.Aborted?
    ensures Performs(db, [Abort(tx)])
    ensures var db' := Perform(db, [Abort(tx)]);
            && Inv(db') && Unseen(db, db') && db'.txs == db.txs[tx := Tx(db.txs[tx].call, Aborted)]
  {
    QuietStep(db, Abort(tx));
    PerformFirst(db, Abort(tx), [], "");
    assert [Abort(tx)] + [] == [Abort(tx)];
  }

  ghost function StepsToCommit(db: Db, tx: TxId): seq<Step>
    requires tx in db.txs
  {
    if db.txs[tx].phase.Matched? && db.txs[tx].phase.announce.Some? then [Insert(tx), Commit(tx)] else [Commit(tx)]
  }

  lemma HolderReaches(db: Db, tx: TxId, machine: MachineId)
    requires tx in db.txs && HoldsLock(db.txs[tx], machine)
    ensures Performs(db, StepsToCommit(db, tx)) && OnlyEnds(db, Perform(db, StepsToCommit(db, tx)), tx)
  {
    if db.txs[tx].phase.Matched? && db.txs[tx].phase.announce.Some? {
      InsertIsEnabled(db, tx);
      PerformTwo(db, Insert(tx), Commit(tx));
    } else {
      PerformFirst(db, Commit(tx), [], machine);
      assert [Commit(tx)] + [] == [Commit(tx)];
    }
  }

  // A transaction that holds a lock can always go on to commit, and so to free the row.
  lemma LockHolderCanCommit(db: Db, tx: TxId, machine: MachineId)
    requires LocksExclude(db) && tx in db.txs && HoldsLock(db.txs[tx], machine)
    ensures Performs(db, StepsToCommit(db, tx))
    ensures OnlyEnds(db, Perform(db, StepsToCommit(db, tx)), tx) && Unlocked(Perform(db, StepsToCommit(db, tx)), machine)
  {
    HolderReaches(db, tx, machine);
    var db' := Perform(db, StepsToCommit(db, tx));
    forall t | t in db'.txs ensures !HoldsLock(db'.txs[t], machine) {
      if t != tx && HoldsLock(db.txs[t], machine) { assert false; }
    }
  }

  lemma HolderGone(db: Db, tx: TxId, holder: TxId, at: Readings)
    requires LocksExclude(db) && tx in db.txs && db.txs[tx].phase.Begun? && db.txs[tx].call.Machine() in db.rows
    requires holder in db.txs && HoldsLock(db.txs[holder], db.txs[tx].call.Machine())
    requires db.txs[tx].call.Machine() in db.floors ==> NotBefore(at, db.floors[db.txs[tx].call.Machine()])
    requires db.txs[tx].call.StartCall? ==> TokenIsNew(db.sessions, db.txs[tx].call.Machine(), at.connected)
    ensures Enabled(db, Abort(holder)) && CanExecute(Next(db, Abort(holder)), tx, at)
  {
    var db1 := Next(db, Abort(holder));
    forall t | t in db1.txs ensures !HoldsLock(db1.txs[t], db.txs[tx].call.Machine()) {
      if t != holder && HoldsLock(db.txs[t], db.txs[tx].call.Machine()) { assert false; }
    }
  }

  // A statement that waits for a row can run once the transaction that holds it has rolled back.
  lemma WaitingCallCanRun(db: Db, tx: TxId, holder: TxId, at: Readings)
    requires LocksExclude(db) && tx in db.txs && db.txs[tx].phase.Begun? && db.txs[tx].call.Machine() in db.rows
    requires holder in db.txs && HoldsLock(db.txs[holder], db.txs[tx].call.Machine())
    requires db.txs[tx].call.Machine() in db.floors ==> NotBefore(at, db.floors[db.txs[tx].call.Machine()])
    requires db.txs[tx].call.StartCall? ==> TokenIsNew(db.sessions, db.txs[tx].call.Machine(), at.connected)
    ensures Enabled(db, Abort(holder)) && CanExecute(Next(db, Abort(holder)), tx, at)
    ensures Performs(Next(db, Abort(holder)), RemainingSteps(Next(db, Abort(holder)), tx, at))
  {
    HolderGone(db, tx, holder, at);
    StatementEnds(Next(db, Abort(holder)), tx, at);
  }

  // And what it commits is its own call, as if the other had never been.
  lemma WaitingCallCommits(db: Db, tx: TxId, holder: TxId, at: Readings)
    requires Inv(db) && Enabled(db, Abort(holder)) && tx in db.txs && tx != holder && CanExecute(Next(db, Abort(holder)), tx, at)
    ensures var db1 := Next(db, Abort(holder));
            CommitsTo(db, Perform(db1, RemainingSteps(db1, tx, at)), tx, db.txs[tx].call, at)
  {
    QuietStep(db, Abort(holder));
    var db1 := Next(db, Abort(holder));
    StatementCommits(db1, tx, at);
    UnseenThenCommits(db, db1, Perform(db1, RemainingSteps(db1, tx, at)), tx, db.txs[tx].call, at);
  }

  /* ---- Every legal history happens ---- */

  function Ceiling(ops: seq<Op>, now: Time): Time {
    if ops == [] then now else Latest(Last(ops).at)
  }

  // No call reads a time before the one committed last.
  predicate InTime(ops: seq<Op>, now: Time) {
    ops == [] || (InTime(Front(ops), now) && NotBefore(Last(ops).at, Ceiling(Front(ops), now)))
  }

  // Touch and End are called with sessions that were started.
  predicate SessionsAreStarted(ops: seq<Op>, now: Time) {
    ops == [] || (SessionsAreStarted(Front(ops), now) && (Last(ops).Start? || Last(ops).sid in Run(NewMachine(now), Front(ops)).issued))
  }

  predicate SidsAreBelow(ops: seq<Op>, bound: nat) {
    ops == [] || (SidsAreBelow(Front(ops), bound) && Last(ops).sid < bound)
  }

  function CallOf(m: Machine, machine: MachineId, op: Op): Call
    requires !op.Start? ==> op.sid in m.issued
  {
    match op
    case Start(_, _) => StartCall(machine)
    case Touch(sid, _) => TouchCall(sid, Session(machine, m.issued[sid]))
    case End(sid, _) => EndCall(sid, Session(machine, m.issued[sid]))
  }

  // No transaction is open, and those with an id below `bound` are the committed Starts.
  ghost predicate AtRest(db: Db, machine: MachineId, bound: nat, n: nat) {
    && machine in db.rows
    && (forall t :: t in db.txs ==> db.txs[t].phase.Committed? && t < bound + n)
    && (forall t :: t in db.txs && t < bound ==> t in View(db, machine).issued)
  }

  lemma CommittedAtTheEnd(db: Db, a: Step, b: Step, machine: MachineId)
    requires Enabled(db, a) && Enabled(Next(db, a), b) && CommittedBy(db, a, machine) == []
    ensures CommittedDuring(db, [a, b], machine) == CommittedBy(Next(db, a), b, machine)
  {
    PerformFirst(db, a, [b], machine);
    PerformFirst(Next(db, a), b, [], machine);
    assert [a] + [b] == [a, b] && [b] + [] == [b];
  }

  lemma StatementCommitsItsOp(db: Db, tx: TxId, at: Readings)
    requires CanExecute(db, tx, at)
    ensures var call := db.txs[tx].call;
            CommittedDuring(db, RemainingSteps(db, tx, at), call.Machine()) == [OpOf(tx, call, at)]
  {
    var machine := db.txs[tx].call.Machine();
    ExecuteIsEnabled(db, tx, at);
    var db1 := Next(db, Execute(tx, at));
    if Announces(db.txs[tx].call, db.rows[machine]) {
      InsertIsEnabled(db1, tx);
      CommittedAtTheEnd(db1, Insert(tx), Commit(tx), machine);
      PerformFirst(db, Execute(tx, at), [Insert(tx), Commit(tx)], machine);
      assert [Execute(tx, at)] + [Insert(tx), Commit(tx)] == [Execute(tx, at), Insert(tx), Commit(tx)];
    } else {
      CommittedAtTheEnd(db, Execute(tx, at), Commit(tx), machine);
    }
  }

  lemma CommittedDuringCall(db: Db, tx: TxId, call: Call, at: Readings)
    requires IsUncontended(db, tx, call, at)
    ensures CommittedDuring(db, StepsOf(db, tx, call, at), call.Machine()) == [OpOf(tx, call, at)]
  {
    BeginAllowsExecute(db, tx, call, at);
    var db1 := Next(db, Begin(tx, call));
    PerformFirst(db, Begin(tx, call), RemainingSteps(db1, tx, at), call.Machine());
    StatementCommitsItsOp(db1, tx, at);
  }

  // The next call of the history is uncontended in a state at rest.
  lemma NextCallIsUncontended(db: Db, machine: MachineId, op: Op, bound: nat, n: nat, tx: TxId)
    requires Inv(db) && AtRest(db, machine, bound, n) && Admissible(View(db, machine), op)
    requires op.Start? || op.sid in View(db, machine).issued
    requires machine in db.floors && NotBefore(op.at, db.floors[machine])
    requires op.sid < bound && tx == if op.Start? then op.sid else bound + n
    ensures var call := CallOf(View(db, machine), machine, op);
            IsUncontended(db, tx, call, op.at) && OpOf(tx, call, op.at) == op && call.Machine() == machine
  {
    var issued := View(db, machine).issued;
    if op.Start? {
      forall s | s in db.sessions && db.sessions[s].machine == machine ensures db.sessions[s].connectedAt != op.at.connected {
        assert s in issued && issued[s] == db.sessions[s].connectedAt;
      }
    }
  }

  lemma CallLeavesRest(db: Db, db': Db, machine: MachineId, op: Op, bound: nat, n: nat, tx: TxId, call: Call)
    requires AtRest(db, machine, bound, n) && call.Machine() == machine && OpOf(tx, call, op.at) == op
    requires CommitsTo(db, db', tx, call, op.at) && db'.txs == db.txs[tx := Tx(call, Committed)]
    requires op.sid < bound && tx == if op.Start? then op.sid else bound + n
    ensures AtRest(db', machine, bound, n + 1)
  {
    assert View(db', machine) == Apply(View(db, machine), op);
  }

  ghost predicate Realizes(db: Db, machine: MachineId, now: Time, ops: seq<Op>, bound: nat) {
    && AtRest(db, machine, bound, |ops|)
    && View(db, machine) == Run(NewMachine(now), ops)
    && machine in db.floors && db.floors[machine] <= Ceiling(ops, now)
  }

  lemma EnrollmentRealizesNothing(machine: MachineId, now: Time, bound: nat)
    ensures Realizes(Exec([Enroll(machine, now)]), machine, now, [], bound)
    ensures CommittedOps([Enroll(machine, now)], machine) == []
  {
    assert Front([Enroll(machine, now)]) == [];
    ExecKeepsInv([]);
    EnrolledMachineIsNew(EMPTY, machine, now);
  }

  // The transaction of the next call.
  function TxFor(op: Op, bound: nat, n: nat): TxId {
    if op.Start? then op.sid else bound + n
  }

  lemma NextOpIsUncontended(db: Db, machine: MachineId, now: Time, before: seq<Op>, op: Op, bound: nat)
    requires Inv(db) && Realizes(db, machine, now, before, bound) && op.sid < bound
    requires var m := Run(NewMachine(now), before); Admissible(m, op) && (op.Start? || op.sid in m.issued)
    requires NotBefore(op.at, Ceiling(before, now))
    ensures var call := CallOf(View(db, machine), machine, op);
            && IsUncontended(db, TxFor(op, bound, |before|), call, op.at)
            && OpOf(TxFor(op, bound, |before|), call, op.at) == op && call.Machine() == machine
  {
    NextCallIsUncontended(db, machine, op, bound, |before|, TxFor(op, bound, |before|));
  }

  lemma RealizesOneMore(db: Db, db': Db, machine: MachineId, now: Time, before: seq<Op>, op: Op, bound: nat, call: Call)
    requires Realizes(db, machine, now, before, bound) && op.sid < bound && NotBefore(op.at, Ceiling(before, now))
    requires call.Machine() == machine && OpOf(TxFor(op, bound, |before|), call, op.at) == op
    requires CommitsTo(db, db', TxFor(op, bound, |before|), call, op.at)
    requires db'.txs == db.txs[TxFor(op, bound, |before|) := Tx(call, Committed)]
    ensures Realizes(db', machine, now, before + [op], bound)
  {
    CallLeavesRest(db, db', machine, op, bound, |before|, TxFor(op, bound, |before|), call);
    CallLeavesFloor(db, db', machine, op, TxFor(op, bound, |before|), call);
    assert Front(before + [op]) == before;
  }

  lemma OneMoreCallHappens(steps: seq<Step>, machine: MachineId, now: Time, before: seq<Op>, op: Op, bound: nat)
    returns (more: seq<Step>)
    requires Realizes(Exec(steps), machine, now, before, bound) && op.sid < bound
    requires var m := Run(NewMachine(now), before); Admissible(m, op) && (op.Start? || op.sid in m.issued)
    requires NotBefore(op.at, Ceiling(before, now))
    ensures CommittedDuring(Exec(steps), more, machine) == [op]
    ensures Realizes(Perform(Exec(steps), more), machine, now, before + [op], bound)
  {
    var db, tx := Exec(steps), TxFor(op, bound, |before|);
    var call := CallOf(View(db, machine), machine, op);
    ExecKeepsInv(steps);
    NextOpIsUncontended(db, machine, now, before, op, bound);
    more := StepsOf(db, tx, call, op.at);
    UncontendedCallCommits(db, tx, call, op.at);
    CommittedDuringCall(db, tx, call, op.at);
    RealizesOneMore(db, Perform(db, more), machine, now, before, op, bound, call);
  }

  lemma CallLeavesFloor(db: Db, db': Db, machine: MachineId, op: Op, tx: TxId, call: Call)
    requires CommitsTo(db, db', tx, call, op.at) && machine in db.floors && NotBefore(op.at, db.floors[machine])
    ensures machine in db'.floors && db'.floors[machine] <= Latest(op.at)
  {
  }

  lemma HistoryGrows(front: seq<Step>, machine: MachineId, now: Time, before: seq<Op>, op: Op, bound: nat)
    returns (steps: seq<Step>)
    requires Realizes(Exec(front), machine, now, before, bound) && CommittedOps(front, machine) == before && op.sid < bound
    requires var m := Run(NewMachine(now), before); Admissible(m, op) && (op.Start? || op.sid in m.issued)
    requires NotBefore(op.at, Ceiling(before, now))
    ensures Realizes(Exec(steps), machine, now, before + [op], bound) && CommittedOps(steps, machine) == before + [op]
  {
    var more := OneMoreCallHappens(front, machine, now, before, op, bound);
    steps := front + more;
    PerformAppends(front, more, machine);
  }

  // A list of calls the specification allows, of started sessions, with a clock that does not run
  // backwards.
  ghost predicate IsHistory(ops: seq<Op>, now: Time, bound: nat) {
    Legal(NewMachine(now), ops) && SessionsAreStarted(ops, now) && InTime(ops, now) && SidsAreBelow(ops, bound)
  }

  lemma HistoryExtends(ops: seq<Op>, now: Time, bound: nat)
    requires IsHistory(ops, now, bound) && ops != []
    ensures IsHistory(Front(ops), now, bound) && Front(ops) + [Last(ops)] == ops && Last(ops).sid < bound
    ensures var m := Run(NewMachine(now), Front(ops)); Admissible(m, Last(ops)) && (Last(ops).Start? || Last(ops).sid in m.issued)
    ensures NotBefore(Last(ops).at, Ceiling(Front(ops), now))
  {
  }

  // Whatever such list: some run of small steps commits exactly these calls, in this order.
  lemma {:induction false} LegalHistoriesHappen(machine: MachineId, now: Time, ops: seq<Op>, bound: nat) returns (steps: seq<Step>)
    requires IsHistory(ops, now, bound)
    ensures CommittedOps(steps, machine) == ops
    ensures Realizes(Exec(steps), machine, now, ops, bound)
  {
    if ops == [] {
      steps := [Enroll(machine, now)];
      EnrollmentRealizesNothing(machine, now, bound);
    } else {
      HistoryExtends(ops, now, bound);
      var front := LegalHistoriesHappen(machine, now, Front(ops), bound);
      steps := HistoryGrows(front, machine, now, Front(ops), Last(ops), bound);
    }
  }
}
