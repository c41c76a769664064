/**
 The handlers of Fleet over the small-step database of Transactions: a call takes as many steps as
 its transaction, other handlers and transactions run in between, and the handler learns the
 outcome only when the call returns.  Every run of this system is a run of Fleet.
 */
module Concurrent {
  import opened Basics
  import opened Presence
  import opened Base64Url
  import opened Credentials
  import T = Telemetry
  import S = Stream
  import X = Transactions
  import R = TransactionsRefine
  import F = Fleet

  datatype System = System(
    db: X.Db,
    identities: map<Uuid, Identity>,
    samples: T.Table,
    handlers: map<Sid, S.Handler>,
    granted: map<Sid, Identity>,
    running: map<Sid, X.TxId>,  // the transaction of the call a handler is waiting for
    caller: map<X.TxId, Sid>)

  datatype Step =
    | Enroll(machine: MachineId, agent: Uuid, hash: seq<Byte>, now: Time)
    | Revoke(agent: Uuid)
    | Connect(h: Sid)
    | Receive(h: Sid, received: S.Received)
    | Lookup(h: Sid, fault: bool)
    | Record(h: Sid, fault: bool, at: Readings)  // one statement, and so one step
    | Begin(h: Sid, tx: X.TxId)
    | Run(step: X.Step)                          // a transaction moves
    | Return(h: Sid)

  const EMPTY := System(X.EMPTY, map[], map[], map[], map[], map[], map[])

  predicate Calls(h: S.Handler) {
    h.Opening? || h.Touching? || h.Closing?
  }

  function CallOf(s: System, h: Sid): X.Call
    requires h in s.handlers && Calls(s.handlers[h]) && (s.handlers[h].Opening? ==> h in s.granted)
  {
    match s.handlers[h]
    case Opening(_) => X.StartCall(s.granted[h].machine)
    case Touching(session) => X.TouchCall(h, X.Session(session.machine, session.connectedAt))
    case Closing(session, _) => X.EndCall(h, X.Session(session.machine, session.connectedAt))
  }

  predicate Finished(db: X.Db, tx: X.TxId) {
    tx in db.txs && (db.txs[tx].phase.Committed? || db.txs[tx].phase.Aborted?)
  }

  ghost predicate Enabled(env: Env, s: System, step: Step) {
    match step
    case Enroll(machine, agent, _, now) => X.Enabled(s.db, X.Enroll(machine, now)) && agent !in s.identities
    case Revoke(agent) => agent in s.identities
    case Connect(h) => h !in s.handlers && h !in s.db.txs
    case Receive(h, _) => h in s.handlers && S.Receives(s.handlers[h])
    case Lookup(h, _) => h in s.handlers && s.handlers[h].Opening? && h !in s.granted
    case Record(h, _, _) => h in s.handlers && s.handlers[h].Recording?
    case Begin(h, tx) =>
      && h in s.handlers && h !in s.running && Calls(s.handlers[h])
      // The session is known by the transaction that starts it.
      && (if s.handlers[h].Opening? then h in s.granted && tx == h else tx !in s.handlers)
      && X.Enabled(s.db, X.Begin(tx, CallOf(s, h)))
    case Run(step) => (step.Execute? || step.Insert? || step.Commit? || step.Abort?) && X.Enabled(s.db, step)
    case Return(h) => h in s.handlers && h in s.running && Calls(s.handlers[h]) && Finished(s.db, s.running[h]) &&
                      (s.handlers[h].Opening? ==> h in s.granted)
  }

  // The handler once it has the outcome of its transaction.
  function Answered(s: System, h: Sid): S.Handler
    requires h in s.handlers && h in s.running && Calls(s.handlers[h]) && Finished(s.db, s.running[h])
    requires s.handlers[h].Opening? ==> h in s.granted
  {
    var ok := s.db.txs[s.running[h]].phase.Committed?;
    var openReply :=
      if s.handlers[h].Opening? && ok && h in s.db.sessions then
        S.Opened(S.Session(s.granted[h].machine, s.granted[h].agent, s.db.sessions[h].connectedAt))
      else S.OpenFailed;
    S.OnReply(s.handlers[h], S.Reply(openReply, S.RecordFailed, ok))
  }

  function AfterRecord(s: System, h: Sid, fault: bool): S.Handler
    requires h in s.handlers && s.handlers[h].Recording?
  {
    var sample := s.handlers[h].sample;
    S.OnReply(s.handlers[h], S.Reply(S.OpenFailed,
                                     if !T.ValidSample(sample) then S.Invalid else if fault then S.RecordFailed else S.Recorded,
                                     !fault))
  }

  function Next(env: Env, s: System, step: Step): System
    requires Enabled(env, s, step)
  {
    match step
    case Enroll(machine, agent, hash, now) =>
      s.(db := X.Next(s.db, X.Enroll(machine, now)),
         identities := s.identities[agent := Identity(machine, agent, hash, false)])
    case Revoke(agent) => s.(identities := s.identities[agent := s.identities[agent].(revoked := true)])
    case Connect(h) => s.(handlers := s.handlers[h := S.Waiting])
    case Receive(h, received) => s.(handlers := s.handlers[h := S.OnReceived(s.handlers[h], received)])
    case Lookup(h, fault) =>
      var early := S.LookupReply(env, s.identities, s.handlers[h].credentials, fault);
      if early.Some? then s.(handlers := s.handlers[h := S.OnReply(s.handlers[h], S.Reply(early.value, S.RecordFailed, false))])
      else s.(granted := s.granted[h := Authenticate(env, s.identities, s.handlers[h].credentials).value])
    case Record(h, fault, at) =>
      s.(samples := T.Record(s.samples, T.Attempt(s.handlers[h].sample, at.updated, fault)),
         handlers := s.handlers[h := AfterRecord(s, h, fault)])
    case Begin(h, tx) =>
      s.(db := X.Next(s.db, X.Begin(tx, CallOf(s, h))), running := s.running[h := tx], caller := s.caller[tx := h])
    case Run(step) => s.(db := X.Next(s.db, step))
    case Return(h) => s.(handlers := s.handlers[h := Answered(s, h)], running := s.running - {h})
  }

  /* ---- What every step keeps ---- */

  // The transaction a handler waits for carries the handler's call.
  ghost predicate WaitsForItsCall(s: System, h: Sid)
    requires h in s.running
  {
    && h in s.handlers && Calls(s.handlers[h]) && (s.handlers[h].Opening? ==> h in s.granted)
    && var tx := s.running[h];
    && tx in s.db.txs && s.db.txs[tx].call == CallOf(s, h)
    && tx in s.caller && s.caller[tx] == h
    && (s.handlers[h].Opening? ==> tx == h)
  }

  // Every unfinished transaction has a handler waiting for it.
  ghost predicate IsAwaited(s: System, tx: X.TxId)
    requires tx in s.db.txs
  {
    && tx in s.caller
    && (!Finished(s.db, tx) ==> s.caller[tx] in s.running && s.running[s.caller[tx]] == tx)
  }

  ghost predicate Linked(s: System) {
    && (forall h :: h in s.running ==> WaitsForItsCall(s, h))
    && (forall tx :: tx in s.db.txs ==> IsAwaited(s, tx))
  }

  ghost predicate Inv(s: System) {
    X.Inv(s.db) && Linked(s)
  }

  // The handler as Fleet sees it: its call is over as soon as its transaction is.
  function Settled(s: System, h: Sid): S.Handler
    requires h in s.handlers
  {
    if h in s.running && Calls(s.handlers[h]) && Finished(s.db, s.running[h]) && (s.handlers[h].Opening? ==> h in s.granted) then
      Answered(s, h)
    else s.handlers[h]
  }

  function Machines(db: X.Db): map<MachineId, Machine> {
    map m | m in db.rows :: R.View(db, m)
  }

  function Handlers(s: System): map<Sid, S.Handler> {
    map h | h in s.handlers :: Settled(s, h)
  }

  function Abs(s: System): F.Fleet {
    F.Fleet(s.identities, Machines(s.db), s.samples, Handlers(s), s.granted)
  }

  // The step Fleet takes, if any.
  function FleetStep(s: System, step: Step): Option<F.Step> {
    match step
    case Enroll(machine, agent, hash, now) => Some(F.Enroll(machine, agent, hash, now))
    case Revoke(agent) => Some(F.Revoke(agent))
    case Connect(h) => Some(F.Connect(h))
    case Receive(h, received) => Some(F.Receive(h, received))
    case Lookup(h, fault) => Some(F.Lookup(h, fault))
    case Record(h, fault, at) => Some(F.Serve(h, fault, at))
    case Begin(_, _) => None
    case Return(_) => None
    case Run(Commit(tx)) =>
      if tx in s.caller && tx in s.db.txs && !Finished(s.db, tx) && !s.db.txs[tx].phase.Begun? then
        Some(F.Serve(s.caller[tx], false, s.db.txs[tx].phase.at))
      else None
    case Run(Abort(tx)) => if tx in s.caller then Some(F.Serve(s.caller[tx], true, Readings(0, 0, 0, 0))) else None
    case Run(_) => None
  }
}
