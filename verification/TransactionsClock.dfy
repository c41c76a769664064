/** The timestamps of a machine row over any interleaving of calls on any number of machines. */
module TransactionsClock {
  import opened Basics
  import opened Presence
  import opened Transactions
  import opened TransactionsRefine

  predicate AtMost(t: Option<Time>, limit: Time) {
    t.Some? ==> t.value <= limit
  }

  predicate NoLaterThan(row: Row, limit: Time) {
    row.registered <= limit && AtMost(row.connected, limit) && AtMost(row.seen, limit) &&
    AtMost(row.disconnected, limit) && row.updated <= limit
  }

  predicate Follows(row: Row, at: Readings) {
    NoLaterThan(row, at.connected) && NoLaterThan(row, at.seen) &&
    NoLaterThan(row, at.disconnected) && NoLaterThan(row, at.updated)
  }

  predicate NotBack(a: Option<Time>, b: Option<Time>) {
    a.Some? ==> b.Some? && a.value <= b.value
  }

  // No timestamp of the row moves backwards or is cleared.
  predicate Forward(row: Row, row': Row) {
    NotBack(row.connected, row'.connected) && NotBack(row.seen, row'.seen) &&
    NotBack(row.disconnected, row'.disconnected) && row.updated <= row'.updated &&
    row.registered == row'.registered
  }

  predicate ConnectsAndDisconnectsInOrder(row: Row) {
    && (row.status == Offline ==>
          row.connected.Some? && row.disconnected.Some? && row.connected.value <= row.disconnected.value)
    && (row.status == Online ==>
          row.connected.Some? && (row.disconnected.Some? ==> row.disconnected.value <= row.connected.value))
  }

  ghost predicate RowsTimely(db: Db) {
    forall m :: m in db.rows ==>
      m in db.floors && NoLaterThan(db.rows[m], db.floors[m]) && ConnectsAndDisconnectsInOrder(db.rows[m])
  }

  ghost predicate TxTimely(db: Db, t: Tx) {
    t.call.Machine() in db.rows && HoldsLock(t, t.call.Machine()) ==>
      Follows(db.rows[t.call.Machine()], t.phase.at) && NoLaterThan(t.phase.row, Latest(t.phase.at))
  }

  ghost predicate WorkTimely(db: Db) {
    forall t :: t in db.txs ==> TxTimely(db, db.txs[t])
  }

  ghost predicate SessionsTimely(db: Db) {
    forall s :: s in db.sessions ==>
      db.sessions[s].machine in db.rows &&
      NotBack(Some(db.sessions[s].connectedAt), db.rows[db.sessions[s].machine].connected)
  }

  ghost predicate Timely(db: Db) {
    RowsTimely(db) && WorkTimely(db) && SessionsTimely(db)
  }

  // Committing writes the planned row, which is ahead of the row it was planned from.
  lemma PlanMovesForward(call: Call, row: Row, at: Readings)
    requires Follows(row, at) && ConnectsAndDisconnectsInOrder(row) && Matches(call, row)
    ensures Forward(row, Plan(call, row, at).0) && ConnectsAndDisconnectsInOrder(Plan(call, row, at).0)
  {
  }

  lemma CommitMovesForward(db: Db, tx: TxId)
    requires RowsTimely(db) && Enabled(db, Commit(tx)) && !db.txs[tx].phase.Unmatched?
    requires WorkIsCurrent(db, db.txs[tx]) && TxTimely(db, db.txs[tx])
    ensures var m, db' := db.txs[tx].call.Machine(), Next(db, Commit(tx));
            && m in db.rows && Forward(db.rows[m], db'.rows[m])
            && NoLaterThan(db'.rows[m], db'.floors[m]) && ConnectsAndDisconnectsInOrder(db'.rows[m])
  {
    var t := db.txs[tx];
    assert HoldsLock(t, t.call.Machine());
    PlanMovesForward(t.call, db.rows[t.call.Machine()], t.phase.at);
  }

  lemma StepMovesForward(db: Db, step: Step)
    requires Inv(db) && Timely(db) && Enabled(db, step)
    ensures RowsTimely(Next(db, step))
    ensures forall m :: m in db.rows ==> m in Next(db, step).rows && Forward(db.rows[m], Next(db, step).rows[m])
  {
    if step.Commit? && !db.txs[step.tx].phase.Unmatched? {
      assert WorkIsCurrent(db, db.txs[step.tx]) && TxTimely(db, db.txs[step.tx]);
      CommitMovesForward(db, step.tx);
    }
  }

  // A commit changes no row another transaction works on.
  lemma CommitKeepsTxTimely(db: Db, tx: TxId, t: TxId)
    requires Inv(db) && Timely(db) && Enabled(db, Commit(tx)) && t in db.txs
    ensures TxTimely(Next(db, Commit(tx)), Next(db, Commit(tx)).txs[t])
  {
    assert WorkIsCurrent(db, db.txs[t]) && TxTimely(db, db.txs[t]);
    if t != tx && !db.txs[tx].phase.Unmatched? && HoldsLock(db.txs[t], db.txs[t].call.Machine()) {
      assert HoldsLock(db.txs[tx], db.txs[tx].call.Machine());
    }
  }

  // What a statement reads follows the row it found, and bounds the row it plans.
  lemma StatementIsTimely(call: Call, row: Row, at: Readings, floor: Time)
    requires NoLaterThan(row, floor) && NotBefore(at, floor)
    ensures Follows(row, at) && NoLaterThan(Plan(call, row, at).0, Latest(at))
  {
  }

  lemma ExecuteKeepsTxTimely(db: Db, step: Step, t: TxId)
    requires RowsTimely(db) && Enabled(db, step) && step.Execute? && t in db.txs && TxTimely(db, db.txs[t])
    ensures TxTimely(Next(db, step), Next(db, step).txs[t])
  {
    var m := db.txs[step.tx].call.Machine();
    if t == step.tx && Matches(db.txs[t].call, db.rows[m]) {
      StatementIsTimely(db.txs[t].call, db.rows[m], step.at, db.floors[m]);
    }
  }

  lemma OtherStepKeepsTxTimely(db: Db, step: Step, t: TxId)
    requires Enabled(db, step) && !step.Commit? && !step.Execute? && t in db.txs
    requires WorkIsCurrent(db, db.txs[t]) && TxTimely(db, db.txs[t])
    ensures TxTimely(Next(db, step), Next(db, step).txs[t])
  {
  }

  lemma StepKeepsWorkTimely(db: Db, step: Step)
    requires Inv(db) && Timely(db) && Enabled(db, step)
    ensures WorkTimely(Next(db, step))
  {
    var db' := Next(db, step);
    forall t | t in db'.txs ensures TxTimely(db', db'.txs[t]) {
      if t in db.txs {
        if step.Commit? {
          CommitKeepsTxTimely(db, step.tx, t);
        } else if step.Execute? {
          assert TxTimely(db, db.txs[t]);
          ExecuteKeepsTxTimely(db, step, t);
        } else {
          assert WorkIsCurrent(db, db.txs[t]) && TxTimely(db, db.txs[t]);
          OtherStepKeepsTxTimely(db, step, t);
        }
      }
    }
  }

  lemma NextKeepsTimely(db: Db, step: Step)
    requires Inv(db) && Timely(db) && Enabled(db, step)
    ensures Timely(Next(db, step))
    ensures forall m :: m in db.rows ==> m in Next(db, step).rows && Forward(db.rows[m], Next(db, step).rows[m])
  {
    StepMovesForward(db, step);
    StepKeepsWorkTimely(db, step);
    if step.Commit? {
      assert WorkIsCurrent(db, db.txs[step.tx]);
    }
  }

  lemma {:induction false} ExecKeepsTimely(steps: seq<Step>)
    ensures Timely(Exec(steps))
  {
    if steps != [] {
      ExecKeepsTimely(Front(steps));
      ExecKeepsInv(Front(steps));
      if Enabled(Exec(Front(steps)), Last(steps)) {
        NextKeepsTimely(Exec(Front(steps)), Last(steps));
      }
    }
  }

  // Between any two points of any interleaving.
  lemma {:induction false} TimestampsNeverMoveBack(steps: seq<Step>, k: nat, machine: MachineId)
    requires k <= |steps| && machine in Exec(steps[..k]).rows
    ensures machine in Exec(steps).rows
    ensures Forward(Exec(steps[..k]).rows[machine], Exec(steps).rows[machine])
    ensures ConnectsAndDisconnectsInOrder(Exec(steps).rows[machine])
    decreases |steps|
  {
    ExecKeepsTimely(steps);
    if k == |steps| {
      assert steps[..k] == steps;
    } else {
      var before := Front(steps);
      assert before[..k] == steps[..k];
      TimestampsNeverMoveBack(before, k, machine);
      ExecKeepsTimely(before);
      ExecKeepsInv(before);
      if Enabled(Exec(before), Last(steps)) {
        NextKeepsTimely(Exec(before), Last(steps));
      }
    }
  }

  ghost predicate TokenIsIssued(sessions: map<Sid, Session>, machine: MachineId, token: Time) {
    exists s :: s in sessions && sessions[s].machine == machine && sessions[s].connectedAt == token
  }

  lemma RowHoldsAnIssuedToken(steps: seq<Step>, machine: MachineId)
    requires machine in Exec(steps).rows && Exec(steps).rows[machine].connected.Some?
    ensures TokenIsIssued(Exec(steps).sessions, machine, Exec(steps).rows[machine].connected.value)
  {
    var db := Exec(steps);
    InterleavingsRefineRegister(steps, machine);
    var r := Commands(NewRegister(db.rows[machine].registered), CommittedOps(steps, machine));
    assert r.owner.Some? && r.owner.value in IssuedOn(db.sessions, machine);
    assert db.sessions[r.owner.value].connectedAt == db.rows[machine].connected.value;
  }

  // A token no earlier than the one in the row differs from every token of the machine exactly
  // when it differs from the one in the row.
  lemma TokenIsNewExactlyWhenRowDiffers(steps: seq<Step>, machine: MachineId, token: Time)
    requires machine in Exec(steps).rows && AtMost(Exec(steps).rows[machine].connected, token)
    ensures var db := Exec(steps);
            TokenIsNew(db.sessions, machine, token) <==> db.rows[machine].connected != Some(token)
  {
    ExecKeepsTimely(steps);
    if Exec(steps).rows[machine].connected == Some(token) {
      RowHoldsAnIssuedToken(steps, machine);
    }
  }
}
