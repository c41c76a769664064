/**
 Concurrent StartSession, TouchSession and EndSession calls as transactions over one database,
 one small step at a time: begin, run the statement that takes the row lock, insert the event,
 commit or roll back.  Any number of transactions may be between any two of their steps.

 A transaction works on a private row until it commits.  A statement that matches no committed
 row takes no lock.  Of time only this is assumed: a statement that changes a row reads no time
 earlier than what the committed statements before it read for that row.  Statements on different
 rows, statements that match no row and statements that roll back are not ordered in time at all.
 */
module Transactions {
  import opened Basics
  import opened Presence
  import opened EventTable

  type TxId = Sid  // a session is identified by the transaction that started it

  datatype Session = Session(machine: MachineId, connectedAt: Time)

  datatype Call =
    | StartCall(on: MachineId)
    | TouchCall(sid: Sid, session: Session)
    | EndCall(sid: Sid, session: Session)
  {
    function Machine(): MachineId {
      if StartCall? then on else session.machine
    }
  }

  datatype Phase =
    | Begun
    | Matched(at: Readings, row: Row, announce: Option<Status>)
    | Announced(at: Readings, row: Row, event: EventId, status: Status)
    | Unmatched(at: Readings)
    | Committed
    | Aborted

  datatype Tx = Tx(call: Call, phase: Phase)

  datatype Db = Db(
    rows: map<MachineId, Row>,
    events: map<EventId, Event>,
    nextEvent: EventId,
    sessions: map<Sid, Session>,  // what committed StartSession calls returned
    txs: map<TxId, Tx>,
    floors: map<MachineId, Time>)  // the latest reading committed for each row

  datatype Step =
    | Enroll(machine: MachineId, now: Time)
    | Begin(tx: TxId, call: Call)
    | Execute(tx: TxId, at: Readings)
    | Insert(tx: TxId)
    | Commit(tx: TxId)
    | Abort(tx: TxId)

  predicate Matches(call: Call, row: Row) {
    match call
    case StartCall(_) => true
    case TouchCall(_, session) => TouchMatches(row, session.connectedAt)
    case EndCall(_, session) => EndMatches(row, session.connectedAt)
  }

  // The new row and the event to insert, if any.
  function Plan(call: Call, row: Row, at: Readings): (Row, Option<Status>) {
    match call
    case StartCall(_) => (Started(row, at), if row.status != Online then Some(Online) else None)
    case TouchCall(_, _) => (Touched(row, at), None)
    case EndCall(_, _) => (Ended(row, at), Some(Offline))
  }

  predicate NotBefore(at: Readings, floor: Time) {
    floor <= at.connected && floor <= at.seen && floor <= at.disconnected && floor <= at.updated
  }

  function Latest(at: Readings): (t: Time)
    ensures at.connected <= t && at.seen <= t && at.disconnected <= t && at.updated <= t
    ensures t in {at.connected, at.seen, at.disconnected, at.updated}
  {
    var a := if at.connected <= at.seen then at.seen else at.connected;
    var b := if at.disconnected <= at.updated then at.updated else at.disconnected;
    if a <= b then b else a
  }

  ghost predicate TokenIsNew(sessions: map<Sid, Session>, machine: MachineId, token: Time) {
    forall s :: s in sessions && sessions[s].machine == machine ==> sessions[s].connectedAt != token
  }

  // The transaction's statement matched a row and has not been committed or rolled back.
  predicate HoldsLock(t: Tx, machine: MachineId) {
    (t.phase.Matched? || t.phase.Announced?) && t.call.Machine() == machine
  }

  ghost predicate Unlocked(db: Db, machine: MachineId) {
    forall t :: t in db.txs ==> !HoldsLock(db.txs[t], machine)
  }

  ghost predicate Enabled(db: Db, step: Step) {
    match step
    case Enroll(machine, _) => machine !in db.rows
    case Begin(tx, call) =>
      && tx !in db.txs
      && (!call.StartCall? ==> call.sid in db.sessions && db.sessions[call.sid] == call.session)
    case Execute(tx, at) =>
      && tx in db.txs && db.txs[tx].phase.Begun?
      && var call := db.txs[tx].call;
      && call.Machine() in db.rows  // otherwise StartSession finds no row and can only roll back
      && (Matches(call, db.rows[call.Machine()]) ==>
            Unlocked(db, call.Machine()) && (call.Machine() in db.floors ==> NotBefore(at, db.floors[call.Machine()])))
      && (call.StartCall? ==> TokenIsNew(db.sessions, call.Machine(), at.connected))
    case Insert(tx) =>
      tx in db.txs && db.txs[tx].phase.Matched? && db.txs[tx].phase.announce.Some?
    case Commit(tx) =>
      && tx in db.txs
      && var phase := db.txs[tx].phase;
      && (phase.Announced? || phase.Unmatched? || (phase.Matched? && phase.announce.None?))
    case Abort(tx) =>
      tx in db.txs && !db.txs[tx].phase.Committed? && !db.txs[tx].phase.Aborted?
  }

  function To(db: Db, tx: TxId, phase: Phase): map<TxId, Tx>
    requires tx in db.txs
  {
    db.txs[tx := Tx(db.txs[tx].call, phase)]
  }

  function Next(db: Db, step: Step): Db
    requires Enabled(db, step)
  {
    match step
    case Enroll(machine, now) => db.(rows := db.rows[machine := NewRow(now)], floors := db.floors[machine := now])
    case Begin(tx, call) => db.(txs := db.txs[tx := Tx(call, Begun)])
    case Execute(tx, at) =>
      var call := db.txs[tx].call;
      var row := db.rows[call.Machine()];
      var plan := Plan(call, row, at);
      db.(txs := To(db, tx, if Matches(call, row) then Matched(at, plan.0, plan.1) else Unmatched(at)))
    case Insert(tx) =>
      var phase := db.txs[tx].phase;
      db.(txs := To(db, tx, Announced(phase.at, phase.row, db.nextEvent, phase.announce.value)),
          nextEvent := db.nextEvent + 1)
    case Commit(tx) =>
      var call, phase := db.txs[tx].call, db.txs[tx].phase;
      if phase.Unmatched? then db.(txs := To(db, tx, Committed))
      else
        db.(rows := db.rows[call.Machine() := phase.row],
            events := if phase.Announced? then db.events[phase.event := Event(call.Machine(), phase.status)] else db.events,
            sessions := if call.StartCall? then db.sessions[tx := Session(call.Machine(), phase.at.connected)] else db.sessions,
            txs := To(db, tx, Committed),
            floors := db.floors[call.Machine() := Latest(phase.at)])
    case Abort(tx) => db.(txs := To(db, tx, Aborted))
  }

  const EMPTY := Db(map[], map[], 0, map[], map[], map[])

  // Statements on different rows may read the clock in overlapping intervals: each order is
  // possible whenever the other is, and leads to the same state.
  lemma StatementsOnDifferentRowsCommute(db: Db, t: TxId, u: TxId, at: Readings, at': Readings)
    requires t in db.txs && u in db.txs && db.txs[t].call.Machine() != db.txs[u].call.Machine()
    requires Enabled(db, Execute(t, at)) && Enabled(db, Execute(u, at'))
    ensures Enabled(Next(db, Execute(t, at)), Execute(u, at')) && Enabled(Next(db, Execute(u, at')), Execute(t, at))
    ensures Next(Next(db, Execute(t, at)), Execute(u, at')) == Next(Next(db, Execute(u, at')), Execute(t, at))
  {
    var a, b := Next(db, Execute(t, at)), Next(db, Execute(u, at'));
    forall x | x in db.txs
      ensures HoldsLock(a.txs[x], db.txs[u].call.Machine()) ==> HoldsLock(db.txs[x], db.txs[u].call.Machine())
      ensures HoldsLock(b.txs[x], db.txs[t].call.Machine()) ==> HoldsLock(db.txs[x], db.txs[t].call.Machine())
    {
    }
    assert Next(a, Execute(u, at')).txs == Next(b, Execute(t, at)).txs;
  }

  /* ---- What every step keeps ---- */

  // At most one transaction has written each row.
  ghost predicate LocksExclude(db: Db) {
    forall t, u, m :: t in db.txs && u in db.txs && HoldsLock(db.txs[t], m) && HoldsLock(db.txs[u], m) ==> t == u
  }

  // The committed row under a transaction is still the one its statement read.
  ghost predicate WorkIsCurrent(db: Db, t: Tx) {
    var call, phase := t.call, t.phase;
    && (!call.StartCall? ==> call.sid in db.sessions && db.sessions[call.sid] == call.session)
    && (phase.Matched? || phase.Announced? || phase.Unmatched? ==> call.Machine() in db.rows)
    && (phase.Matched? || phase.Announced? ==>
          && Matches(call, db.rows[call.Machine()])
          && Plan(call, db.rows[call.Machine()], phase.at) ==
             (phase.row, if phase.Matched? then phase.announce else Some(phase.status))
          && (call.StartCall? ==> TokenIsNew(db.sessions, call.Machine(), phase.at.connected)))
    && (phase.Unmatched? ==> !Matches(call, db.rows[call.Machine()]))
  }

  ghost predicate AllWorkIsCurrent(db: Db) {
    forall t :: t in db.txs ==> WorkIsCurrent(db, db.txs[t])
  }

  // A drawn id is above every committed id of its machine and taken by nobody else.
  ghost predicate DrawnIdIsOpen(db: Db, t: Tx) {
    t.phase.Announced? ==>
      && t.phase.event < db.nextEvent
      && t.phase.event !in db.events
      && forall id :: id in db.events && db.events[id].machine == t.call.Machine() ==> id < t.phase.event
  }

  ghost predicate EventIdsDrawn(db: Db) {
    forall id :: id in db.events ==> id < db.nextEvent && db.events[id].machine in db.rows
  }

  ghost predicate DrawnIdsDiffer(db: Db) {
    forall t, u :: t in db.txs && u in db.txs && t != u && db.txs[t].phase.Announced? && db.txs[u].phase.Announced? ==>
      db.txs[t].phase.event != db.txs[u].phase.event
  }

  ghost predicate IdsInOrder(db: Db) {
    EventIdsDrawn(db) && DrawnIdsDiffer(db) && forall t :: t in db.txs ==> DrawnIdIsOpen(db, db.txs[t])
  }

  ghost predicate SessionsFenced(db: Db) {
    && (forall s :: s in db.sessions ==> s in db.txs && db.txs[s].phase.Committed? && db.sessions[s].machine in db.rows)
    && (forall a, b :: a in db.sessions && b in db.sessions && db.sessions[a] == db.sessions[b] ==> a == b)
  }

  ghost predicate Inv(db: Db) {
    LocksExclude(db) && AllWorkIsCurrent(db) && IdsInOrder(db) && SessionsFenced(db)
  }

  lemma NextKeepsLocks(db: Db, step: Step)
    requires Inv(db) && Enabled(db, step)
    ensures LocksExclude(Next(db, step))
  {
    var db' := Next(db, step);
    if step.Execute? && Matches(db.txs[step.tx].call, db.rows[db.txs[step.tx].call.Machine()]) {
      assert Unlocked(db, db.txs[step.tx].call.Machine());
    }
    forall t, u, m | t in db'.txs && u in db'.txs && HoldsLock(db'.txs[t], m) && HoldsLock(db'.txs[u], m)
      ensures t == u
    {
    }
  }

  lemma NextKeepsWork(db: Db, step: Step)
    requires Inv(db) && Enabled(db, step)
    ensures AllWorkIsCurrent(Next(db, step))
  {
    var db' := Next(db, step);
    forall t | t in db'.txs ensures WorkIsCurrent(db', db'.txs[t]) {
      if step.Commit? {
        assert WorkIsCurrent(db, db.txs[step.tx]);
        CommitKeepsWork(db, step.tx, t);
      } else if t in db.txs {
        assert WorkIsCurrent(db, db.txs[t]);
      }
    }
  }

  lemma CommitKeepsWork(db: Db, tx: TxId, t: TxId)
    requires Inv(db) && Enabled(db, Commit(tx)) && t in db.txs
    ensures WorkIsCurrent(Next(db, Commit(tx)), Next(db, Commit(tx)).txs[t])
  {
    var db' := Next(db, Commit(tx));
    assert WorkIsCurrent(db, db.txs[tx]);
    assert WorkIsCurrent(db, db.txs[t]);
    var m := db.txs[tx].call.Machine();
    if t != tx && !db.txs[tx].phase.Unmatched? {
      assert HoldsLock(db.txs[tx], m);
      assert !HoldsLock(db.txs[t], m);
    }
  }

  lemma NextKeepsEventIds(db: Db, step: Step)
    requires EventIdsDrawn(db) && Enabled(db, step)
    requires step.Commit? ==> WorkIsCurrent(db, db.txs[step.tx]) && DrawnIdIsOpen(db, db.txs[step.tx])
    ensures EventIdsDrawn(Next(db, step))
  {
  }

  lemma NextKeepsIdsApart(db: Db, step: Step)
    requires DrawnIdsDiffer(db) && Enabled(db, step) && forall t :: t in db.txs ==> DrawnIdIsOpen(db, db.txs[t])
    ensures DrawnIdsDiffer(Next(db, step))
  {
  }

  // Another transaction with a drawn id is on another machine, and its id is another one.
  lemma CommitKeepsIdOpen(db: Db, tx: TxId, t: TxId)
    requires LocksExclude(db) && DrawnIdsDiffer(db) && Enabled(db, Commit(tx)) && t in db.txs && DrawnIdIsOpen(db, db.txs[t])
    ensures DrawnIdIsOpen(Next(db, Commit(tx)), Next(db, Commit(tx)).txs[t])
  {
    if t != tx && db.txs[t].phase.Announced? && db.txs[tx].phase.Announced? {
      assert HoldsLock(db.txs[t], db.txs[t].call.Machine());
      assert !HoldsLock(db.txs[tx], db.txs[t].call.Machine());
    }
  }

  lemma OtherStepKeepsIdOpen(db: Db, step: Step, t: TxId)
    requires EventIdsDrawn(db) && Enabled(db, step) && !step.Commit? && t in db.txs && DrawnIdIsOpen(db, db.txs[t])
    ensures DrawnIdIsOpen(Next(db, step), Next(db, step).txs[t])
  {
  }

  lemma NextKeepsIds(db: Db, step: Step)
    requires LocksExclude(db) && AllWorkIsCurrent(db) && IdsInOrder(db) && Enabled(db, step)
    ensures IdsInOrder(Next(db, step))
  {
    var db' := Next(db, step);
    if step.Commit? { assert WorkIsCurrent(db, db.txs[step.tx]); }
    NextKeepsEventIds(db, step);
    NextKeepsIdsApart(db, step);
    forall t | t in db'.txs ensures DrawnIdIsOpen(db', db'.txs[t]) {
      if t in db.txs {
        if step.Commit? {
          CommitKeepsIdOpen(db, step.tx, t);
        } else {
          OtherStepKeepsIdOpen(db, step, t);
        }
      }
    }
  }

  lemma NextKeepsSessions(db: Db, step: Step)
    requires SessionsFenced(db) && Enabled(db, step)
    requires step.Commit? ==> WorkIsCurrent(db, db.txs[step.tx])
    ensures SessionsFenced(Next(db, step))
  {
  }

  lemma NextKeepsInv(db: Db, step: Step)
    requires Inv(db) && Enabled(db, step)
    ensures Inv(Next(db, step))
  {
    NextKeepsLocks(db, step);
    NextKeepsWork(db, step);
    NextKeepsIds(db, step);
    if step.Commit? { assert WorkIsCurrent(db, db.txs[step.tx]); }
    NextKeepsSessions(db, step);
  }
}
