/** Every run of Concurrent is a run of Fleet. */
module ConcurrentRefine {
  import opened Basics
  import opened Presence
  import opened Credentials
  import T = Telemetry
  import S = Stream
  import X = Transactions
  import R = TransactionsRefine
  import F = Fleet
  import FT = FleetTheorems
  import opened Concurrent

  /* ---- The invariant ---- */

  lemma TransactionStepKeepsCalls(db: X.Db, step: X.Step, tx: X.TxId)
    requires X.Enabled(db, step) && tx in db.txs
    ensures var db' := X.Next(db, step);
            && tx in db'.txs && db'.txs[tx].call == db.txs[tx].call
            && (Finished(db, tx) ==> db'.txs[tx] == db.txs[tx])
            && (!step.Enroll? && !step.Begin? && step.tx != tx ==> db'.txs[tx] == db.txs[tx])
  {
  }

  lemma TransactionStepKeepsWaiting(s: System, s': System, step: X.Step, h: Sid)
    requires Linked(s) && X.Enabled(s.db, step) && s' == s.(db := X.Next(s.db, step)) && h in s.running
    ensures WaitsForItsCall(s', h)
  {
    assert WaitsForItsCall(s, h);
    TransactionStepKeepsCalls(s.db, step, s.running[h]);
  }

  lemma SameCallIsAwaited(s: System, s': System, h: Sid)
    requires h in s.running && WaitsForItsCall(s, h)
    requires h in s'.running && s'.running[h] == s.running[h]
    requires h in s'.handlers && s'.handlers[h] == s.handlers[h]
    requires h in s.granted ==> h in s'.granted && s'.granted[h] == s.granted[h]
    requires s.running[h] in s'.db.txs && s'.db.txs[s.running[h]] == s.db.txs[s.running[h]]
    requires s.running[h] in s'.caller && s'.caller[s.running[h]] == h
    ensures WaitsForItsCall(s', h)
  {
  }

  lemma CallStepKeepsWaiting(env: Env, s: System, step: Step, h: Sid)
    requires Linked(s) && Enabled(env, s, step) && (step.Begin? || step.Return?)
    requires h in Next(env, s, step).running && h in s.running
    ensures WaitsForItsCall(Next(env, s, step), h)
  {
    assert WaitsForItsCall(s, h);
    SameCallIsAwaited(s, Next(env, s, step), h);
  }

  // A handler that moves outside any transaction is not waiting for one.
  lemma ActorWaitsForNothing(env: Env, s: System, step: Step)
    requires Linked(s) && Enabled(env, s, step) && (step.Connect? || step.Receive? || step.Lookup? || step.Record?)
    ensures step.h !in s.running
  {
  }

  predicate OnlyMoves(s: System, s': System, h: Sid) {
    && s' == s.(handlers := s'.handlers, granted := s'.granted, samples := s'.samples)
    && (forall k :: k in s.handlers && k != h ==> k in s'.handlers && s'.handlers[k] == s.handlers[k])
    && (forall k :: k in s.granted && k != h ==> k in s'.granted && s'.granted[k] == s.granted[k])
  }

  lemma LookupMovesAlone(env: Env, s: System, h: Sid, fault: bool)
    requires Enabled(env, s, Lookup(h, fault))
    ensures OnlyMoves(s, Next(env, s, Lookup(h, fault)), h)
  {
  }

  lemma ActorMovesAlone(env: Env, s: System, step: Step)
    requires Enabled(env, s, step) && (step.Connect? || step.Receive? || step.Lookup? || step.Record?)
    ensures OnlyMoves(s, Next(env, s, step), step.h)
  {
    if step.Lookup? { LookupMovesAlone(env, s, step.h, step.fault); }
  }

  lemma ActorKeepsOthersWaiting(env: Env, s: System, step: Step, h: Sid)
    requires Linked(s) && Enabled(env, s, step) && (step.Connect? || step.Receive? || step.Lookup? || step.Record?)
    requires h in s.running && h != step.h
    ensures h in Next(env, s, step).running && WaitsForItsCall(Next(env, s, step), h)
  {
    assert WaitsForItsCall(s, h);
    ActorMovesAlone(env, s, step);
    SameCallIsAwaited(s, Next(env, s, step), h);
  }

  lemma OutsideStepKeepsWaiting(env: Env, s: System, step: Step, h: Sid)
    requires Linked(s) && Enabled(env, s, step) && !step.Run? && !step.Begin? && !step.Return?
    requires h in s.running
    ensures h in Next(env, s, step).running && WaitsForItsCall(Next(env, s, step), h)
  {
    if step.Enroll? || step.Revoke? {
      assert WaitsForItsCall(s, h);
      SameCallIsAwaited(s, Next(env, s, step), h);
    } else {
      ActorWaitsForNothing(env, s, step);
      ActorKeepsOthersWaiting(env, s, step, h);
    }
  }

  lemma StepKeepsAwaited(env: Env, s: System, step: Step, tx: X.TxId)
    requires Linked(s) && Enabled(env, s, step) && tx in s.db.txs
    ensures tx in Next(env, s, step).db.txs && IsAwaited(Next(env, s, step), tx)
  {
    assert IsAwaited(s, tx);
    if step.Run? {
      TransactionStepKeepsCalls(s.db, step.step, tx);
    }
  }

  lemma NextKeepsInv(env: Env, s: System, step: Step)
    requires Inv(s) && Enabled(env, s, step)
    ensures Inv(Next(env, s, step))
  {
    var s' := Next(env, s, step);
    if step.Enroll? { X.NextKeepsInv(s.db, X.Enroll(step.machine, step.now)); }
    if step.Begin? { X.NextKeepsInv(s.db, X.Begin(step.tx, CallOf(s, step.h))); }
    if step.Run? { X.NextKeepsInv(s.db, step.step); }
    forall h | h in s'.running ensures WaitsForItsCall(s', h) {
      if step.Run? {
        TransactionStepKeepsWaiting(s, s', step.step, h);
      } else if !step.Begin? && !step.Return? {
        OutsideStepKeepsWaiting(env, s, step, h);
      } else if h in s.running {
        CallStepKeepsWaiting(env, s, step, h);
      }
    }
    forall tx | tx in s'.db.txs ensures IsAwaited(s', tx) {
      if tx in s.db.txs {
        StepKeepsAwaited(env, s, step, tx);
      }
    }
  }

  /* ---- Steps Fleet does not see ---- */

  lemma QuietTransactionStep(db: X.Db, step: X.Step)
    requires X.Inv(db) && X.Enabled(db, step) && !step.Enroll? && !step.Commit?
    ensures Machines(X.Next(db, step)) == Machines(db)
  {
    R.OnlyEnrollAddsMachines(db, step);
    forall m | m in db.rows ensures R.View(X.Next(db, step), m) == R.View(db, m) {
      R.UncommittedStepShowsNothing(db, step, m);
    }
  }

  // A transaction's step is noticed by no handler but the one that waits for it.
  lemma OthersStaySettled(env: Env, s: System, step: X.Step, h: Sid)
    requires Linked(s) && Enabled(env, s, Run(step)) && h in s.handlers
    requires h in s.running ==> s.running[h] != step.tx
    ensures Settled(Next(env, s, Run(step)), h) == Settled(s, h)
  {
    if h in s.running {
      assert WaitsForItsCall(s, h);
      TransactionStepKeepsCalls(s.db, step, s.running[h]);
    }
  }

  lemma QuietTransactionKeepsSettled(env: Env, s: System, step: X.Step, h: Sid)
    requires Linked(s) && Enabled(env, s, Run(step)) && (step.Execute? || step.Insert?) && h in s.handlers
    ensures Settled(Next(env, s, Run(step)), h) == Settled(s, h)
  {
    if h !in s.running || s.running[h] != step.tx {
      OthersStaySettled(env, s, step, h);
    }
  }

  lemma BeginKeepsSettled(env: Env, s: System, step: Step, h: Sid)
    requires Linked(s) && Enabled(env, s, step) && step.Begin? && h in s.handlers
    ensures Settled(Next(env, s, step), h) == Settled(s, h)
  {
    assert h in s.running ==> WaitsForItsCall(s, h);
  }

  lemma BeginKeepsHandlers(env: Env, s: System, step: Step)
    requires Linked(s) && Enabled(env, s, step) && step.Begin?
    ensures Handlers(Next(env, s, step)) == Handlers(s)
  {
    forall h | h in s.handlers ensures Settled(Next(env, s, step), h) == Settled(s, h) {
      BeginKeepsSettled(env, s, step, h);
    }
  }

  lemma ReturnKeepsHandlers(env: Env, s: System, h: Sid)
    requires Linked(s) && Enabled(env, s, Return(h))
    ensures Handlers(Next(env, s, Return(h))) == Handlers(s)
  {
    var s' := Next(env, s, Return(h));
    assert Settled(s', h) == Settled(s, h);
    forall k | k in s.handlers && k != h ensures k in s'.handlers && Settled(s', k) == Settled(s, k) {
    }
  }

  lemma QuietStepIsNoCommit(env: Env, s: System, step: Step)
    requires Linked(s) && Enabled(env, s, step) && FleetStep(s, step).None?
    ensures step.Begin? || step.Return? || (step.Run? && (step.step.Execute? || step.step.Insert?))
  {
    if step.Run? { assert IsAwaited(s, step.step.tx); }
  }

  lemma QuietTransactionKeepsHandlers(env: Env, s: System, step: X.Step)
    requires Linked(s) && Enabled(env, s, Run(step)) && (step.Execute? || step.Insert?)
    ensures Handlers(Next(env, s, Run(step))) == Handlers(s)
  {
    forall h | h in s.handlers ensures Settled(Next(env, s, Run(step)), h) == Settled(s, h) {
      QuietTransactionKeepsSettled(env, s, step, h);
    }
  }

  lemma QuietStepIsInvisible(env: Env, s: System, step: Step)
    requires Inv(s) && Enabled(env, s, step) && FleetStep(s, step).None?
    ensures Abs(Next(env, s, step)) == Abs(s)
  {
    QuietStepIsNoCommit(env, s, step);
    if step.Begin? {
      BeginKeepsHandlers(env, s, step);
      QuietTransactionStep(s.db, X.Begin(step.tx, CallOf(s, step.h)));
    } else if step.Run? {
      QuietTransactionKeepsHandlers(env, s, step.step);
      QuietTransactionStep(s.db, step.step);
    } else {
      ReturnKeepsHandlers(env, s, step.h);
    }
  }

  /* ---- Steps outside any transaction ---- */

  lemma EnrollMachines(db: X.Db, machine: MachineId, now: Time)
    requires X.Inv(db) && X.Enabled(db, X.Enroll(machine, now))
    ensures Machines(X.Next(db, X.Enroll(machine, now))) == Machines(db)[machine := NewMachine(now)]
  {
    var step := X.Enroll(machine, now);
    R.OnlyEnrollAddsMachines(db, step);
    R.EnrolledMachineIsNew(db, machine, now);
    forall m | m in db.rows ensures R.View(X.Next(db, step), m) == R.View(db, m) {
      R.UncommittedStepShowsNothing(db, step, m);
    }
  }

  ghost predicate SameCalls(s: System, s': System) {
    s'.running == s.running && s'.db.txs == s.db.txs && s'.db.sessions == s.db.sessions
  }

  lemma RowStepKeepsHandlers(s: System, s': System)
    requires SameCalls(s, s') && s'.handlers == s.handlers && s'.granted == s.granted
    ensures Handlers(s') == Handlers(s)
  {
    forall h | h in s.handlers ensures Settled(s', h) == Settled(s, h) {
    }
  }

  lemma BystandersStaySettled(s: System, s': System, actor: Sid)
    requires SameCalls(s, s') && actor in s'.handlers && s'.handlers == s.handlers[actor := s'.handlers[actor]]
    requires forall h :: h != actor ==>
               (h in s'.granted <==> h in s.granted) && (h in s.granted ==> s'.granted[h] == s.granted[h])
    ensures Handlers(s') == Handlers(s)[actor := Settled(s', actor)]
  {
    forall h | h in s.handlers && h != actor ensures Settled(s', h) == Settled(s, h) {
    }
  }

  lemma ActorIsSettled(env: Env, s: System, step: Step)
    requires Linked(s) && Enabled(env, s, step) && (step.Connect? || step.Receive? || step.Lookup? || step.Record?)
    ensures Settled(Next(env, s, step), step.h) == Next(env, s, step).handlers[step.h]
    ensures !step.Connect? ==> Settled(s, step.h) == s.handlers[step.h]
  {
    assert step.h in s.running ==> WaitsForItsCall(s, step.h);
  }

  lemma RowStepIsFleetStep(env: Env, s: System, step: Step)
    requires Inv(s) && Enabled(env, s, step) && (step.Enroll? || step.Revoke?)
    ensures var fs := FleetStep(s, step).value;
            F.Enabled(env, Abs(s), fs) && Abs(Next(env, s, step)) == F.Next(env, Abs(s), fs)
  {
    RowStepKeepsHandlers(s, Next(env, s, step));
    if step.Enroll? { EnrollMachines(s.db, step.machine, step.now); }
  }

  lemma MessageStepIsFleetStep(env: Env, s: System, step: Step)
    requires Linked(s) && Enabled(env, s, step) && (step.Connect? || step.Receive?)
    ensures var fs := FleetStep(s, step).value;
            F.Enabled(env, Abs(s), fs) && Abs(Next(env, s, step)) == F.Next(env, Abs(s), fs)
  {
    BystandersStaySettled(s, Next(env, s, step), step.h);
    ActorIsSettled(env, s, step);
  }

  lemma LookupKeepsHandlers(env: Env, s: System, h: Sid, fault: bool)
    requires Linked(s) && Enabled(env, s, Lookup(h, fault))
    ensures Settled(s, h) == s.handlers[h]
    ensures var s' := Next(env, s, Lookup(h, fault)); Handlers(s') == Handlers(s)[h := s'.handlers[h]]
  {
    ActorIsSettled(env, s, Lookup(h, fault));
    if S.LookupReply(env, s.identities, s.handlers[h].credentials, fault).Some? {
      BystandersStaySettled(s, Next(env, s, Lookup(h, fault)), h);
    } else {
      BystandersStaySettled(s, Next(env, s, Lookup(h, fault)), h);
    }
  }

  // What a lookup does, said once for both systems.
  lemma LookupOutcome(env: Env, s: System, f: F.Fleet, h: Sid, fault: bool)
    requires Enabled(env, s, Lookup(h, fault)) && F.Enabled(env, f, F.Lookup(h, fault))
    requires f.handlers[h] == s.handlers[h] && f.identities == s.identities && f.granted == s.granted
    ensures var s', f' := Next(env, s, Lookup(h, fault)), F.Next(env, f, F.Lookup(h, fault));
            && s' == s.(handlers := s'.handlers, granted := s'.granted)
            && f' == f.(handlers := f.handlers[h := s'.handlers[h]], granted := s'.granted)
  {
    if S.LookupReply(env, s.identities, s.handlers[h].credentials, fault).None? {
      assert f.handlers[h := f.handlers[h]] == f.handlers;
    }
  }

  lemma LookupIsFleetStep(env: Env, s: System, h: Sid, fault: bool)
    requires Linked(s) && Enabled(env, s, Lookup(h, fault))
    ensures var fs := F.Lookup(h, fault);
            F.Enabled(env, Abs(s), fs) && Abs(Next(env, s, Lookup(h, fault))) == F.Next(env, Abs(s), fs)
  {
    LookupKeepsHandlers(env, s, h, fault);
    LookupOutcome(env, s, Abs(s), h, fault);
  }

  lemma RecordIsFleetStep(env: Env, s: System, h: Sid, fault: bool, at: Readings)
    requires Linked(s) && Enabled(env, s, Record(h, fault, at))
    ensures var fs := F.Serve(h, fault, at);
            F.Enabled(env, Abs(s), fs) && Abs(Next(env, s, Record(h, fault, at))) == F.Next(env, Abs(s), fs)
  {
    BystandersStaySettled(s, Next(env, s, Record(h, fault, at)), h);
    ActorIsSettled(env, s, Record(h, fault, at));
  }

  /* ---- A transaction ends ---- */

  // The call an open transaction makes is the one Fleet sees its handler waiting for.
  lemma OpenTransactionIsPendingCall(s: System, tx: X.TxId)
    requires Linked(s) && tx in s.db.txs && !Finished(s.db, tx)
    ensures tx in s.caller && var h := s.caller[tx];
            && h in s.running && s.running[h] == tx && WaitsForItsCall(s, h)
            && Settled(s, h) == s.handlers[h]
            && F.CallIsPending(Abs(s), h)
  {
    assert IsAwaited(s, tx) && WaitsForItsCall(s, s.caller[tx]);
  }

  lemma EndTouchesOneHandler(env: Env, s: System, step: X.Step)
    requires Linked(s) && Enabled(env, s, Run(step)) && (step.Commit? || step.Abort?)
    ensures step.tx in s.caller && var h, s' := s.caller[step.tx], Next(env, s, Run(step));
            h in s.handlers && Handlers(s') == Handlers(s)[h := Settled(s', h)]
  {
    OpenTransactionIsPendingCall(s, step.tx);
    var h, s' := s.caller[step.tx], Next(env, s, Run(step));
    forall k | k in s.handlers && k != h ensures Settled(s', k) == Settled(s, k) {
      assert k in s.running ==> WaitsForItsCall(s, k);
      OthersStaySettled(env, s, step, k);
    }
  }

  lemma CommitPublishesItsSession(db: X.Db, tx: X.TxId)
    requires X.Enabled(db, X.Commit(tx)) && X.WorkIsCurrent(db, db.txs[tx])
    ensures var db', call := X.Next(db, X.Commit(tx)), db.txs[tx].call;
            && tx in db'.txs && db'.txs[tx].phase.Committed?
            && (call.StartCall? ==>
                  && call.on in db.rows && tx in db'.sessions
                  && db'.sessions[tx] == X.Session(call.on, db.txs[tx].phase.at.connected))
  {
  }

  // What the handler learns when its call returns is what Fleet answers at once.
  lemma EndedCallAnswers(s: System, s': System, tx: X.TxId, fault: bool, at: Readings)
    requires Linked(s) && tx in s.db.txs && !Finished(s.db, tx)
    requires s' == s.(db := s'.db) && Finished(s'.db, tx) && (fault <==> s'.db.txs[tx].phase.Aborted?)
    requires !fault && s.db.txs[tx].call.StartCall? ==>
               && s.db.txs[tx].call.on in s.db.rows && tx in s'.db.sessions
               && s'.db.sessions[tx] == X.Session(s.db.txs[tx].call.on, at.connected)
    ensures tx in s.caller && F.CallIsPending(Abs(s), s.caller[tx])
    ensures var h := s.caller[tx];
            h in s'.handlers && Settled(s', h) == S.OnReply(s.handlers[h], F.ReplyOf(Abs(s), h, fault, at))
  {
    OpenTransactionIsPendingCall(s, tx);
  }

  lemma CommitLeavesOtherMachines(db: X.Db, tx: X.TxId, k: MachineId)
    requires X.Inv(db) && X.Enabled(db, X.Commit(tx)) && k in db.rows && k != db.txs[tx].call.Machine()
    ensures k in X.Next(db, X.Commit(tx)).rows && R.View(X.Next(db, X.Commit(tx)), k) == R.View(db, k)
  {
    R.CommitElsewhereShowsNothing(db, tx, k);
  }

  lemma OneMachineChanges(db: X.Db, db': X.Db, m: MachineId)
    requires m in db.rows && db'.rows.Keys == db.rows.Keys
    requires forall k :: k in db.rows && k != m ==> R.View(db', k) == R.View(db, k)
    ensures Machines(db') == Machines(db)[m := R.View(db', m)]
  {
  }

  lemma CommitMachines(db: X.Db, tx: X.TxId)
    requires X.Inv(db) && X.Enabled(db, X.Commit(tx))
    ensures var call, at := db.txs[tx].call, db.txs[tx].phase.at;
            && call.Machine() in db.rows
            && Machines(X.Next(db, X.Commit(tx))) ==
               Machines(db)[call.Machine() := Apply(R.View(db, call.Machine()), R.OpOf(tx, call, at))]
  {
    var m, db' := db.txs[tx].call.Machine(), X.Next(db, X.Commit(tx));
    R.CommitIsOneAtomicCall(db, tx);
    R.OnlyEnrollAddsMachines(db, X.Commit(tx));
    forall k | k in db.rows && k != m ensures R.View(db', k) == R.View(db, k) {
      CommitLeavesOtherMachines(db, tx, k);
    }
    OneMachineChanges(db, db', m);
  }

  // What Fleet does to the machines for a pending call is the call of the transaction.
  lemma PendingCallOnMachines(s: System, tx: X.TxId, at: Readings)
    requires Linked(s) && tx in s.db.txs && !Finished(s.db, tx) && X.WorkIsCurrent(s.db, s.db.txs[tx])
    requires s.db.txs[tx].call.Machine() in s.db.rows
    ensures tx in s.caller && F.CallIsPending(Abs(s), s.caller[tx])
    ensures var call := s.db.txs[tx].call;
            F.MachinesAfter(Abs(s), s.caller[tx], false, at) ==
            Machines(s.db)[call.Machine() := Apply(R.View(s.db, call.Machine()), R.OpOf(tx, call, at))]
  {
    OpenTransactionIsPendingCall(s, tx);
    var call, h := s.db.txs[tx].call, s.caller[tx];
    assert call == CallOf(s, h);
    if !call.StartCall? {
      var issued := R.IssuedOn(s.db.sessions, call.Machine());
      assert call.sid in issued && issued[call.sid] == call.session.connectedAt;
    }
  }

  lemma EndedCallIsPending(env: Env, s: System, tx: X.TxId, fault: bool, at: Readings)
    requires Inv(s) && tx in s.db.txs && !Finished(s.db, tx)
    requires fault || (X.Enabled(s.db, X.Commit(tx)) && at == s.db.txs[tx].phase.at)
    ensures tx in s.caller && F.Enabled(env, Abs(s), F.Serve(s.caller[tx], fault, at))
  {
    OpenTransactionIsPendingCall(s, tx);
    if !fault { R.CommitIsOneAtomicCall(s.db, tx); }
  }

  lemma CommitOnMachines(env: Env, s: System, tx: X.TxId)
    requires Inv(s) && Enabled(env, s, Run(X.Commit(tx)))
    ensures X.WorkIsCurrent(s.db, s.db.txs[tx])
    ensures var at := s.db.txs[tx].phase.at;
            && tx in s.caller && F.CallIsPending(Abs(s), s.caller[tx])
            && F.Enabled(env, Abs(s), F.Serve(s.caller[tx], false, at))
            && Machines(X.Next(s.db, X.Commit(tx))) == F.MachinesAfter(Abs(s), s.caller[tx], false, at)
  {
    assert X.WorkIsCurrent(s.db, s.db.txs[tx]);
    OpenTransactionIsPendingCall(s, tx);
    EndedCallIsPending(env, s, tx, false, s.db.txs[tx].phase.at);
    CommitMachines(s.db, tx);
    PendingCallOnMachines(s, tx, s.db.txs[tx].phase.at);
  }

  lemma CommitOnHandlers(env: Env, s: System, tx: X.TxId)
    requires Linked(s) && Enabled(env, s, Run(X.Commit(tx))) && X.WorkIsCurrent(s.db, s.db.txs[tx])
    ensures tx in s.caller && F.CallIsPending(Abs(s), s.caller[tx])
    ensures var h := s.caller[tx];
            Handlers(Next(env, s, Run(X.Commit(tx)))) ==
            Handlers(s)[h := S.OnReply(s.handlers[h], F.ReplyOf(Abs(s), h, false, s.db.txs[tx].phase.at))]
  {
    CommitPublishesItsSession(s.db, tx);
    EndedCallAnswers(s, Next(env, s, Run(X.Commit(tx))), tx, false, s.db.txs[tx].phase.at);
    EndTouchesOneHandler(env, s, X.Commit(tx));
  }

  // The parts of a served call put together.
  lemma ServedInParts(env: Env, s: System, s': System, h: Sid, fault: bool, at: Readings)
    requires F.Enabled(env, Abs(s), F.Serve(h, fault, at)) && Settled(s, h) == s.handlers[h] && Calls(s.handlers[h])
    requires s' == s.(db := s'.db)
    requires Machines(s'.db) == F.MachinesAfter(Abs(s), h, fault, at)
    requires Handlers(s') == Handlers(s)[h := S.OnReply(s.handlers[h], F.ReplyOf(Abs(s), h, fault, at))]
    ensures Abs(s') == F.Next(env, Abs(s), F.Serve(h, fault, at))
  {
  }

  lemma CommitIsServe(env: Env, s: System, tx: X.TxId)
    requires Inv(s) && Enabled(env, s, Run(X.Commit(tx)))
    ensures tx in s.caller
    ensures var fs := F.Serve(s.caller[tx], false, s.db.txs[tx].phase.at);
            && F.Enabled(env, Abs(s), fs)
            && Abs(Next(env, s, Run(X.Commit(tx)))) == F.Next(env, Abs(s), fs)
  {
    OpenTransactionIsPendingCall(s, tx);
    CommitOnMachines(env, s, tx);
    CommitOnHandlers(env, s, tx);
    ServedInParts(env, s, Next(env, s, Run(X.Commit(tx))), s.caller[tx], false, s.db.txs[tx].phase.at);
  }

  lemma AbortIsFailedServe(env: Env, s: System, tx: X.TxId, at: Readings)
    requires Inv(s) && Enabled(env, s, Run(X.Abort(tx)))
    ensures tx in s.caller
    ensures var fs := F.Serve(s.caller[tx], true, at);
            && F.Enabled(env, Abs(s), fs)
            && Abs(Next(env, s, Run(X.Abort(tx)))) == F.Next(env, Abs(s), fs)
  {
    var s' := Next(env, s, Run(X.Abort(tx)));
    OpenTransactionIsPendingCall(s, tx);
    EndedCallIsPending(env, s, tx, true, at);
    QuietTransactionStep(s.db, X.Abort(tx));
    EndedCallAnswers(s, s', tx, true, at);
    EndTouchesOneHandler(env, s, X.Abort(tx));
    ServedInParts(env, s, s', s.caller[tx], true, at);
  }

  lemma StepIsFleetStepOrNothing(env: Env, s: System, step: Step)
    requires Inv(s) && Enabled(env, s, step)
    ensures var fs := FleetStep(s, step);
            if fs.None? then Abs(Next(env, s, step)) == Abs(s)
            else F.Enabled(env, Abs(s), fs.value) && Abs(Next(env, s, step)) == F.Next(env, Abs(s), fs.value)
  {
    if FleetStep(s, step).None? {
      QuietStepIsInvisible(env, s, step);
    } else {
      match step
      case Enroll(_, _, _, _) => RowStepIsFleetStep(env, s, step);
      case Revoke(_) => RowStepIsFleetStep(env, s, step);
      case Lookup(h, fault) => LookupIsFleetStep(env, s, h, fault);
      case Record(h, fault, at) => RecordIsFleetStep(env, s, h, fault, at);
      case Run(Commit(tx)) => CommitIsServe(env, s, tx);
      case Run(Abort(tx)) => AbortIsFailedServe(env, s, tx, Readings(0, 0, 0, 0));
      case _ => MessageStepIsFleetStep(env, s, step);
    }
  }

  /* ---- Runs ---- */

  ghost function Take(env: Env, s: System, step: Step): System {
    if Enabled(env, s, step) then Next(env, s, step) else s
  }

  ghost function Exec(env: Env, steps: seq<Step>): System {
    if steps == [] then EMPTY else Take(env, Exec(env, Front(steps)), Last(steps))
  }

  ghost function FleetSteps(env: Env, steps: seq<Step>): seq<F.Step> {
    if steps == [] then []
    else
      var s := Exec(env, Front(steps));
      var fs := if Enabled(env, s, Last(steps)) then FleetStep(s, Last(steps)) else None;
      FleetSteps(env, Front(steps)) + if fs.Some? then [fs.value] else []
  }

  // Handlers whose calls are interleaved transactions reach exactly states of Fleet.
  lemma {:induction false} ConcurrentRefinesFleet(env: Env, steps: seq<Step>)
    ensures Inv(Exec(env, steps))
    ensures Abs(Exec(env, steps)) == F.Exec(env, FleetSteps(env, steps))
  {
    if steps != [] {
      ConcurrentRefinesFleet(env, Front(steps));
      var s, before := Exec(env, Front(steps)), FleetSteps(env, Front(steps));
      assert before + [] == before;
      if Enabled(env, s, Last(steps)) {
        NextKeepsInv(env, s, Last(steps));
        StepIsFleetStepOrNothing(env, s, Last(steps));
        var fs := FleetStep(s, Last(steps));
        if fs.Some? {
          assert Front(before + [fs.value]) == before;
        }
      }
    }
  }

  // Whatever transactions are under way: a committed row is online exactly while the handler of
  // the session in it is unclosed, where a handler's call is over once its transaction is.
  lemma OnlineIffOwnerUnclosed(env: Env, steps: seq<Step>, m: MachineId)
    requires m in Exec(env, steps).db.rows
    ensures var s := Exec(env, steps);
            && (s.db.rows[m].status == Online ==> exists h :: F.Owns(R.View(s.db, m), h))
            && forall h :: F.Owns(R.View(s.db, m), h) ==>
                 h in s.handlers && (s.db.rows[m].status == Online <==> F.Unclosed(Settled(s, h)))
  {
    ConcurrentRefinesFleet(env, steps);
    var s, f := Exec(env, steps), F.Exec(env, FleetSteps(env, steps));
    FT.OnlineIffOwnerUnclosed(env, FleetSteps(env, steps), m);
    assert f.machines[m] == R.View(s.db, m);
    forall h | F.Owns(R.View(s.db, m), h)
      ensures h in s.handlers && (s.db.rows[m].status == Online <==> F.Unclosed(Settled(s, h)))
    {
      assert h in f.handlers && f.handlers[h] == Settled(s, h);
    }
  }

  // In particular a row is never left online by handlers that have all returned, except by a
  // CloseSession that reported an error.
  lemma OnlineRowHasALiveOrFailedHandler(env: Env, steps: seq<Step>, m: MachineId) returns (h: Sid)
    requires m in Exec(env, steps).db.rows && Exec(env, steps).db.rows[m].status == Online
    ensures var s := Exec(env, steps);
            && h in s.handlers && F.Owns(R.View(s.db, m), h)
            && (!S.Returned(s.handlers[h]) || (s.handlers[h].Done? && s.handlers[h].closeFailed))
  {
    OnlineIffOwnerUnclosed(env, steps, m);
    var s := Exec(env, steps);
    h :| F.Owns(R.View(s.db, m), h);
    ConcurrentRefinesFleet(env, steps);
    if h in s.running { assert WaitsForItsCall(s, h); }
  }

  lemma StepExtendsFleetRun(env: Env, steps: seq<Step>, step: Step)
    requires Enabled(env, Exec(env, steps), step)
    ensures var s, before := Exec(env, steps), FleetSteps(env, steps);
            var fs := FleetStep(s, step);
            && Abs(s) == F.Exec(env, before)
            && Abs(Next(env, s, step)) == if fs.Some? then F.Exec(env, before + [fs.value]) else Abs(s)
  {
    var s, before := Exec(env, steps), FleetSteps(env, steps);
    ConcurrentRefinesFleet(env, steps);
    StepIsFleetStepOrNothing(env, s, step);
    var fs := FleetStep(s, step);
    if fs.Some? { assert Front(before + [fs.value]) == before; }
  }

  // However the transactions interleave, no step changes last_seen_at of a row that is not online.
  lemma LastSeenMovesOnlyOnline(env: Env, steps: seq<Step>, step: Step, m: MachineId)
    requires m in Exec(env, steps).db.rows && Enabled(env, Exec(env, steps), step)
    ensures var rows, rows' := Exec(env, steps).db.rows, Next(env, Exec(env, steps), step).db.rows;
            m in rows' && (rows'[m].seen != rows[m].seen ==> rows'[m].status == Online)
  {
    var s, s' := Exec(env, steps), Next(env, Exec(env, steps), step);
    StepExtendsFleetRun(env, steps, step);
    assert Abs(s).machines[m].row == s.db.rows[m];
    if FleetStep(s, step).Some? {
      FT.LastSeenMovesOnlyOnline(env, FleetSteps(env, steps), FleetStep(s, step).value, m);
    }
    assert m in Abs(s').machines && Abs(s').machines[m].row == s'.db.rows[m];
  }

  /* ---- No handler is stuck ---- */

  // A handler whose OpenSession has not begun is named by no transaction.
  predicate UnstartedIsFresh(s: System, h: Sid) {
    h in s.handlers && (s.handlers[h].Waiting? || (s.handlers[h].Opening? && h !in s.running)) ==> h !in s.db.txs
  }

  lemma TransactionStepKeepsFresh(env: Env, s: System, step: Step, h: Sid)
    requires Enabled(env, s, step) && (step.Run? || step.Begin? || step.Return?) && UnstartedIsFresh(s, h)
    ensures UnstartedIsFresh(Next(env, s, step), h)
  {
    if step.Run? {
      assert step.step.tx in s.db.txs;
    }
  }

  lemma StepKeepsFresh(env: Env, s: System, step: Step, h: Sid)
    requires Linked(s) && Enabled(env, s, step) && UnstartedIsFresh(s, h)
    ensures UnstartedIsFresh(Next(env, s, step), h)
  {
    if step.Run? || step.Begin? || step.Return? {
      TransactionStepKeepsFresh(env, s, step, h);
    } else if !step.Enroll? && !step.Revoke? {
      ActorWaitsForNothing(env, s, step);
      if h != step.h { ActorMovesAlone(env, s, step); }
    }
  }

  lemma {:induction false} RunKeepsFresh(env: Env, steps: seq<Step>, h: Sid)
    ensures UnstartedIsFresh(Exec(env, steps), h)
  {
    if steps != [] {
      RunKeepsFresh(env, Front(steps), h);
      ConcurrentRefinesFleet(env, Front(steps));
      if Enabled(env, Exec(env, Front(steps)), Last(steps)) {
        StepKeepsFresh(env, Exec(env, Front(steps)), Last(steps), h);
      }
    }
  }

  // In every reachable state a handler that has a call to make can begin it: its session is always
  // one the database knows.
  lemma EveryCallCanBegin(env: Env, steps: seq<Step>, h: Sid, tx: X.TxId)
    requires var s := Exec(env, steps);
             && h in s.handlers && h !in s.running && Calls(s.handlers[h])
             && (if s.handlers[h].Opening? then h in s.granted && tx == h else tx !in s.handlers && tx !in s.db.txs)
    ensures Enabled(env, Exec(env, steps), Begin(h, tx))
  {
    var s := Exec(env, steps);
    ConcurrentRefinesFleet(env, steps);
    RunKeepsFresh(env, steps, h);
    if !s.handlers[h].Opening? {
      F.ExecKeepsInv(env, FleetSteps(env, steps));
      assert Abs(s).handlers[h] == s.handlers[h];
      assert F.SessionIsIssued(Abs(s), h);
      assert h in R.IssuedOn(s.db.sessions, s.handlers[h].session.machine);
    }
  }
}
