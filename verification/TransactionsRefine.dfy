/**
 Every interleaving of transaction steps is, machine by machine, the sequence of its committed
 calls run one after the other, and so a run of the current-owner register.
 */
module TransactionsRefine {
  import opened Basics
  import opened Presence
  import opened EventTable
  import opened Transactions

  function IssuedOn(sessions: map<Sid, Session>, machine: MachineId): map<Sid, Time> {
    map s | s in sessions && sessions[s].machine == machine :: sessions[s].connectedAt
  }

  // The committed state of one machine; uncommitted rows and drawn ids do not show.
  function View(db: Db, machine: MachineId): Machine
    requires machine in db.rows
  {
    Machine(db.rows[machine], LogBelow(db.events, machine, db.nextEvent), IssuedOn(db.sessions, machine))
  }

  function OpOf(tx: TxId, call: Call, at: Readings): Op {
    match call
    case StartCall(_) => Start(tx, at)
    case TouchCall(sid, _) => Touch(sid, at)
    case EndCall(sid, _) => End(sid, at)
  }

  // What the step commits on `machine`: one call at its commit, otherwise nothing.
  ghost function CommittedBy(db: Db, step: Step, machine: MachineId): seq<Op> {
    if step.Commit? && Enabled(db, step) && db.txs[step.tx].call.Machine() == machine then
      [OpOf(step.tx, db.txs[step.tx].call, db.txs[step.tx].phase.at)]
    else []
  }

  lemma CommitElsewhereKeepsLog(db: Db, tx: TxId, machine: MachineId)
    requires Enabled(db, Commit(tx)) && DrawnIdIsOpen(db, db.txs[tx]) && db.txs[tx].call.Machine() != machine
    ensures LogBelow(Next(db, Commit(tx)).events, machine, db.nextEvent) == LogBelow(db.events, machine, db.nextEvent)
  {
    var t := db.txs[tx];
    if t.phase.Announced? {
      LogBelowFrame(db.events, t.phase.event, Event(t.call.Machine(), t.phase.status), machine, db.nextEvent);
    }
  }

  lemma CommitElsewhereKeepsTokens(db: Db, tx: TxId, machine: MachineId)
    requires Enabled(db, Commit(tx)) && SessionsFenced(db) && db.txs[tx].call.Machine() != machine
    ensures IssuedOn(Next(db, Commit(tx)).sessions, machine) == IssuedOn(db.sessions, machine)
  {
  }

  lemma CommitElsewhereShowsNothing(db: Db, tx: TxId, machine: MachineId)
    requires Inv(db) && Enabled(db, Commit(tx)) && machine in db.rows && db.txs[tx].call.Machine() != machine
    ensures machine in Next(db, Commit(tx)).rows && View(Next(db, Commit(tx)), machine) == View(db, machine)
  {
    assert DrawnIdIsOpen(db, db.txs[tx]);
    CommitElsewhereKeepsLog(db, tx, machine);
    CommitElsewhereKeepsTokens(db, tx, machine);
  }

  lemma UncommittedStepShowsNothing(db: Db, step: Step, machine: MachineId)
    requires Inv(db) && Enabled(db, step) && machine in db.rows
    requires CommittedBy(db, step, machine) == []
    ensures machine in Next(db, step).rows && View(Next(db, step), machine) == View(db, machine)
  {
    if step.Commit? {
      CommitElsewhereShowsNothing(db, step.tx, machine);
    } else if step.Insert? {
      LogBelowSkips(db.events, machine, db.nextEvent, Next(db, step).nextEvent);
    }
  }

  lemma CommitAppendsItsEvent(db: Db, tx: TxId)
    requires Inv(db) && Enabled(db, Commit(tx))
    ensures var t := db.txs[tx];
            LogBelow(Next(db, Commit(tx)).events, t.call.Machine(), db.nextEvent) ==
            LogBelow(db.events, t.call.Machine(), db.nextEvent) +
            if t.phase.Announced? then [t.phase.status] else []
  {
    var t := db.txs[tx];
    assert DrawnIdIsOpen(db, t);
    if t.phase.Announced? {
      InsertAppends(db.events, t.phase.event, Event(t.call.Machine(), t.phase.status), db.nextEvent);
    }
  }

  lemma CommitIssuesItsToken(db: Db, tx: TxId)
    requires Inv(db) && Enabled(db, Commit(tx))
    ensures var t := db.txs[tx];
            var issued := IssuedOn(db.sessions, t.call.Machine());
            IssuedOn(Next(db, Commit(tx)).sessions, t.call.Machine()) ==
            if t.call.StartCall? then issued[tx := t.phase.at.connected] else issued
  {
    assert WorkIsCurrent(db, db.txs[tx]);
  }

  lemma CommitIsOneAtomicCall(db: Db, tx: TxId)
    requires Inv(db) && Enabled(db, Commit(tx))
    ensures var machine := db.txs[tx].call.Machine();
            && machine in db.rows && machine in Next(db, Commit(tx)).rows
            && var op := OpOf(tx, db.txs[tx].call, db.txs[tx].phase.at);
            && Admissible(View(db, machine), op)
            && View(Next(db, Commit(tx)), machine) == Apply(View(db, machine), op)
  {
    var call := db.txs[tx].call;
    assert WorkIsCurrent(db, db.txs[tx]);
    CommitAppendsItsEvent(db, tx);
    CommitIssuesItsToken(db, tx);
    if !call.StartCall? {
      var issued := IssuedOn(db.sessions, call.Machine());
      assert call.sid in issued && issued[call.sid] == call.session.connectedAt;
    }
  }

  /* ---- Runs ---- */

  // A step that is not enabled waits: it changes nothing.
  ghost function Take(db: Db, step: Step): Db {
    if Enabled(db, step) then Next(db, step) else db
  }

  ghost function Exec(steps: seq<Step>): Db {
    if steps == [] then EMPTY else Take(Exec(Front(steps)), Last(steps))
  }

  ghost function CommittedOps(steps: seq<Step>, machine: MachineId): seq<Op> {
    if steps == [] then []
    else CommittedOps(Front(steps), machine) + CommittedBy(Exec(Front(steps)), Last(steps), machine)
  }

  lemma {:induction false} ExecKeepsInv(steps: seq<Step>)
    ensures Inv(Exec(steps))
  {
    if steps != [] {
      ExecKeepsInv(Front(steps));
      if Enabled(Exec(Front(steps)), Last(steps)) {
        NextKeepsInv(Exec(Front(steps)), Last(steps));
      }
    }
  }

  lemma RegisteredIsConstant(m: Machine, op: Op)
    ensures Apply(m, op).row.registered == m.row.registered
  {
  }

  // The committed state of a machine is that of its committed calls, in commit order, run one at
  // a time on a freshly enrolled machine.  Calls that rolled back or are still open, and calls
  // on other machines, do not occur in that list.
  lemma {:induction false} InterleavingsAreAtomic(steps: seq<Step>, machine: MachineId)
    ensures var db, ops := Exec(steps), CommittedOps(steps, machine);
            && (machine !in db.rows ==> ops == [])
            && (machine in db.rows ==>
                  && Legal(NewMachine(db.rows[machine].registered), ops)
                  && View(db, machine) == Run(NewMachine(db.rows[machine].registered), ops))
  {
    if steps != [] {
      var before, step := Exec(Front(steps)), Last(steps);
      InterleavingsAreAtomic(Front(steps), machine);
      ExecKeepsInv(Front(steps));
      if Enabled(before, step) {
        StepExtendsRun(before, step, machine, CommittedOps(Front(steps), machine));
      } else {
        assert CommittedOps(steps, machine) == CommittedOps(Front(steps), machine);
      }
    }
  }

  lemma OnlyEnrollAddsMachines(db: Db, step: Step)
    requires Inv(db) && Enabled(db, step)
    ensures Next(db, step).rows.Keys == db.rows.Keys + if step.Enroll? then {step.machine} else {}
  {
    if step.Commit? {
      assert WorkIsCurrent(db, db.txs[step.tx]);
    }
  }

  lemma StepExtendsRun(db: Db, step: Step, machine: MachineId, ops: seq<Op>)
    requires Inv(db) && Enabled(db, step)
    requires machine !in db.rows ==> ops == []
    requires machine in db.rows ==>
               && Legal(NewMachine(db.rows[machine].registered), ops)
               && View(db, machine) == Run(NewMachine(db.rows[machine].registered), ops)
    ensures var db', ops' := Next(db, step), ops + CommittedBy(db, step, machine);
            && (machine !in db'.rows ==> ops' == [])
            && (machine in db'.rows ==>
                  && Legal(NewMachine(db'.rows[machine].registered), ops')
                  && View(db', machine) == Run(NewMachine(db'.rows[machine].registered), ops'))
  {
    var more := CommittedBy(db, step, machine);
    OnlyEnrollAddsMachines(db, step);
    if more != [] {
      CommitIsOneAtomicCall(db, step.tx);
      RegisteredIsConstant(View(db, machine), more[0]);
      assert Front(ops + more) == ops;
    } else {
      assert ops + more == ops;
      if machine in db.rows {
        UncommittedStepShowsNothing(db, step, machine);
      } else if machine in Next(db, step).rows {
        EnrolledMachineIsNew(db, step.machine, step.now);
      }
    }
  }

  lemma {:induction false} NoEventsBelow(events: map<EventId, Event>, machine: MachineId, n: nat)
    requires forall id :: id in events ==> events[id].machine != machine
    ensures LogBelow(events, machine, n) == []
  {
    if n > 0 {
      NoEventsBelow(events, machine, n - 1);
    }
  }

  lemma EnrolledMachineIsNew(db: Db, machine: MachineId, now: Time)
    requires Inv(db) && Enabled(db, Enroll(machine, now))
    ensures View(Next(db, Enroll(machine, now)), machine) == NewMachine(now)
  {
    NoEventsBelow(db.events, machine, db.nextEvent);
    assert IssuedOn(db.sessions, machine) == map[];
  }

  // Any interleaving of any number of concurrent calls refines the current-owner register.
  lemma InterleavingsRefineRegister(steps: seq<Step>, machine: MachineId)
    requires machine in Exec(steps).rows
    ensures var db := Exec(steps);
            Shows(View(db, machine),
                  Commands(NewRegister(db.rows[machine].registered), CommittedOps(steps, machine)))
  {
    InterleavingsAreAtomic(steps, machine);
    RunRefinesRegister(Exec(steps).rows[machine].registered, CommittedOps(steps, machine));
  }

  // Two transactions never both hold the row of one machine.
  lemma WritersExclude(steps: seq<Step>, t: TxId, u: TxId, machine: MachineId)
    requires var txs := Exec(steps).txs;
             t in txs && u in txs && HoldsLock(txs[t], machine) && HoldsLock(txs[u], machine)
    ensures t == u
  {
    ExecKeepsInv(steps);
  }

  /* ---- Each call takes effect at most once ---- */

  ghost function CommitsOf(steps: seq<Step>, tx: TxId): nat {
    if steps == [] then 0
    else
      CommitsOf(Front(steps), tx) +
      if Last(steps) == Commit(tx) && Enabled(Exec(Front(steps)), Commit(tx)) then 1 else 0
  }

  // A transaction that rolled back, or has not finished, committed nothing.
  lemma {:induction false} CommittedOnceOrNever(steps: seq<Step>, tx: TxId)
    ensures var txs := Exec(steps).txs;
            CommitsOf(steps, tx) == if tx in txs && txs[tx].phase.Committed? then 1 else 0
  {
    if steps != [] {
      CommittedOnceOrNever(Front(steps), tx);
    }
  }
}
