/**
 What the handlers over the small-step database can do: every call that begins can commit or roll
 back and return, and every run of Fleet whose clock does not run backwards happens.
 */
module ConcurrentProgress {
  import opened Basics
  import opened Presence
  import opened Credentials
  import S = Stream
  import X = Transactions
  import R = TransactionsRefine
  import P = TransactionsProgress
  import F = Fleet
  import FI = FleetIndependence
  import FT = FleetTheorems
  import opened Concurrent
  import opened ConcurrentRefine

  ghost function Perform(env: Env, s: System, steps: seq<Step>): System {
    if steps == [] then s else Take(env, Perform(env, s, Front(steps)), Last(steps))
  }

  ghost predicate Performs(env: Env, s: System, steps: seq<Step>) {
    steps == [] || (Performs(env, s, Front(steps)) && Enabled(env, Perform(env, s, Front(steps)), Last(steps)))
  }

  lemma {:induction false} PerformAppends(env: Env, before: seq<Step>, steps: seq<Step>)
    ensures Exec(env, before + steps) == Perform(env, Exec(env, before), steps)
  {
    if steps == [] {
      assert before + steps == before;
    } else {
      PerformAppends(env, before, Front(steps));
      assert Front(before + steps) == before + Front(steps) && Last(before + steps) == Last(steps);
    }
  }

  lemma {:induction false} PerformInTwoParts(env: Env, s: System, a: seq<Step>, b: seq<Step>)
    ensures Perform(env, s, a + b) == Perform(env, Perform(env, s, a), b)
    ensures Performs(env, s, a + b) <==> Performs(env, s, a) && Performs(env, Perform(env, s, a), b)
  {
    if b == [] {
      assert a + b == a;
    } else {
      PerformInTwoParts(env, s, a, Front(b));
      assert Front(a + b) == a + Front(b) && Last(a + b) == Last(b);
    }
  }

  lemma PerformOne(env: Env, s: System, step: Step)
    requires Enabled(env, s, step)
    ensures Performs(env, s, [step]) && Perform(env, s, [step]) == Next(env, s, step)
  {
    assert Front([step]) == [];
  }

  /* ---- One call ---- */

  function Runs(steps: seq<X.Step>): seq<Step> {
    if steps == [] then [] else Runs(Front(steps)) + [Run(Last(steps))]
  }

  predicate IsMove(x: X.Step) {
    x.Execute? || x.Insert? || x.Commit? || x.Abort?
  }

  // A transaction moves under the handlers as it does alone.
  lemma {:induction false} TransactionMoves(env: Env, s: System, steps: seq<X.Step>)
    requires P.Performs(s.db, steps) && forall i :: 0 <= i < |steps| ==> IsMove(steps[i])
    ensures Performs(env, s, Runs(steps)) && Perform(env, s, Runs(steps)) == s.(db := P.Perform(s.db, steps))
  {
    if steps != [] {
      TransactionMoves(env, s, Front(steps));
      assert Front(Runs(steps)) == Runs(Front(steps)) && Last(Runs(steps)) == Run(Last(steps));
      assert IsMove(Last(steps));
    }
  }

  lemma {:induction false} PerformKeepsInv(env: Env, s: System, steps: seq<Step>)
    requires Inv(s)
    ensures Inv(Perform(env, s, steps))
  {
    if steps != [] {
      PerformKeepsInv(env, s, Front(steps));
      if Enabled(env, Perform(env, s, Front(steps)), Last(steps)) {
        NextKeepsInv(env, Perform(env, s, Front(steps)), Last(steps));
      }
    }
  }

  // Up to the commit nothing shows.
  lemma {:induction false} QuietMovesAreInvisible(env: Env, s: System, steps: seq<X.Step>)
    requires Inv(s) && P.Performs(s.db, steps) && forall i :: 0 <= i < |steps| ==> steps[i].Execute? || steps[i].Insert?
    ensures Abs(s.(db := P.Perform(s.db, steps))) == Abs(s) && Inv(s.(db := P.Perform(s.db, steps)))
  {
    if steps == [] {
      assert s.(db := P.Perform(s.db, steps)) == s;
    } else {
      QuietMovesAreInvisible(env, s, Front(steps));
      var s1 := s.(db := P.Perform(s.db, Front(steps)));
      assert Enabled(env, s1, Run(Last(steps)));
      QuietStepIsInvisible(env, s1, Run(Last(steps)));
      NextKeepsInv(env, s1, Run(Last(steps)));
      assert Next(env, s1, Run(Last(steps))) == s.(db := P.Perform(s.db, steps));
    }
  }

  lemma StatementServes(env: Env, s: System, h: Sid, tx: X.TxId, at: Readings)
    requires Inv(s) && h in s.running && s.running[h] == tx && P.CanExecute(s.db, tx, at)
    ensures var s' := s.(db := P.Perform(s.db, P.RemainingSteps(s.db, tx, at)));
            && F.Enabled(env, Abs(s), F.Serve(h, false, at))
            && Abs(s') == F.Next(env, Abs(s), F.Serve(h, false, at))
  {
    assert WaitsForItsCall(s, h);
    var xs := P.RemainingSteps(s.db, tx, at);
    P.ReadyToCommit(s.db, tx, at);
    QuietMovesAreInvisible(env, s, Front(xs));
    var s1 := s.(db := P.Perform(s.db, Front(xs)));
    CommitIsServe(env, s1, tx);
    assert Next(env, s1, Run(X.Commit(tx))) == s.(db := P.Perform(s.db, xs));
  }

  // Begin, the statement, its event if it has one, the commit, and the return of the call.
  ghost function CallSteps(s: System, h: Sid, tx: X.TxId, at: Readings): seq<Step>
    requires h in s.handlers && Calls(s.handlers[h]) && (s.handlers[h].Opening? ==> h in s.granted)
    requires P.IsUncontended(s.db, tx, CallOf(s, h), at)
  {
    P.BeginAllowsExecute(s.db, tx, CallOf(s, h), at);
    [Begin(h, tx)] + Runs(P.RemainingSteps(X.Next(s.db, X.Begin(tx, CallOf(s, h))), tx, at)) + [Return(h)]
  }

  // The system when the transaction has committed and the call has not returned yet.
  ghost function Unreturned(s: System, h: Sid, tx: X.TxId, at: Readings): System
    requires h in s.handlers && Calls(s.handlers[h]) && (s.handlers[h].Opening? ==> h in s.granted)
    requires P.IsUncontended(s.db, tx, CallOf(s, h), at)
  {
    s.(db := P.Perform(s.db, P.StepsOf(s.db, tx, CallOf(s, h), at)), running := s.running[h := tx], caller := s.caller[tx := h])
  }

  // A handler whose call has begun.
  function Begun(s: System, h: Sid, tx: X.TxId): System
    requires h in s.handlers && Calls(s.handlers[h]) && (s.handlers[h].Opening? ==> h in s.granted)
    requires X.Enabled(s.db, X.Begin(tx, CallOf(s, h)))
  {
    s.(db := X.Next(s.db, X.Begin(tx, CallOf(s, h))), running := s.running[h := tx], caller := s.caller[tx := h])
  }

  lemma CallBegins(env: Env, s: System, h: Sid, tx: X.TxId)
    requires Inv(s) && Enabled(env, s, Begin(h, tx))
    ensures Next(env, s, Begin(h, tx)) == Begun(s, h, tx)
    ensures Inv(Begun(s, h, tx)) && Abs(Begun(s, h, tx)) == Abs(s)
  {
    QuietStepIsInvisible(env, s, Begin(h, tx));
    NextKeepsInv(env, s, Begin(h, tx));
  }

  lemma BegunThenMoved(s: System, h: Sid, tx: X.TxId, at: Readings)
    requires h in s.handlers && Calls(s.handlers[h]) && (s.handlers[h].Opening? ==> h in s.granted)
    requires P.IsUncontended(s.db, tx, CallOf(s, h), at)
    ensures X.Enabled(s.db, X.Begin(tx, CallOf(s, h))) && P.CanExecute(Begun(s, h, tx).db, tx, at)
    ensures var s1 := Begun(s, h, tx);
            var xs := P.RemainingSteps(s1.db, tx, at);
            && P.Performs(s1.db, xs) && s1.(db := P.Perform(s1.db, xs)) == Unreturned(s, h, tx, at)
            && forall i :: 0 <= i < |xs| ==> IsMove(xs[i])
  {
    var call := CallOf(s, h);
    P.BeginAllowsExecute(s.db, tx, call, at);
    var s1 := Begun(s, h, tx);
    P.StatementEnds(s1.db, tx, at);
    P.PerformFirst(s.db, X.Begin(tx, call), P.RemainingSteps(s1.db, tx, at), call.Machine());
  }

  lemma CommittedCallReturns(env: Env, s: System, h: Sid, tx: X.TxId, at: Readings)
    requires h in s.handlers && Calls(s.handlers[h]) && (s.handlers[h].Opening? ==> h in s.granted)
    requires P.IsUncontended(s.db, tx, CallOf(s, h), at)
    ensures Enabled(env, Unreturned(s, h, tx, at), Return(h))
  {
    P.UncontendedCallEnds(s.db, tx, CallOf(s, h), at);
  }

  lemma PerformInThreeParts(env: Env, s: System, a: Step, b: seq<Step>, c: Step)
    requires Enabled(env, s, a) && Performs(env, Next(env, s, a), b) && Enabled(env, Perform(env, Next(env, s, a), b), c)
    ensures Performs(env, s, [a] + b + [c])
    ensures Perform(env, s, [a] + b + [c]) == Next(env, Perform(env, Next(env, s, a), b), c)
  {
    PerformOne(env, s, a);
    PerformInTwoParts(env, s, [a], b);
    PerformOne(env, Perform(env, Next(env, s, a), b), c);
    PerformInTwoParts(env, s, [a] + b, [c]);
  }

  // Whenever a call can begin and nobody is in its way, it can commit and return.
  lemma UncontendedCallReaches(env: Env, s: System, h: Sid, tx: X.TxId, at: Readings)
    requires Inv(s) && Enabled(env, s, Begin(h, tx)) && P.IsUncontended(s.db, tx, CallOf(s, h), at)
    ensures var s' := Unreturned(s, h, tx, at);
            && Inv(s') && Performs(env, s, CallSteps(s, h, tx, at)) && Enabled(env, s', Return(h))
            && Perform(env, s, CallSteps(s, h, tx, at)) == Next(env, s', Return(h))
  {
    CallBegins(env, s, h, tx);
    BegunThenMoved(s, h, tx, at);
    var s1 := Begun(s, h, tx);
    var xs := P.RemainingSteps(s1.db, tx, at);
    TransactionMoves(env, s1, xs);
    PerformKeepsInv(env, s1, Runs(xs));
    CommittedCallReturns(env, s, h, tx, at);
    PerformInThreeParts(env, s, Begin(h, tx), Runs(xs), Return(h));
  }

  // And what Fleet sees of it is the call answered at once.
  lemma UncontendedCallShows(env: Env, s: System, h: Sid, tx: X.TxId, at: Readings)
    requires Inv(s) && Enabled(env, s, Begin(h, tx)) && P.IsUncontended(s.db, tx, CallOf(s, h), at)
    ensures F.Enabled(env, Abs(s), F.Serve(h, false, at))
    ensures Abs(Perform(env, s, CallSteps(s, h, tx, at))) == F.Next(env, Abs(s), F.Serve(h, false, at))
  {
    CallBegins(env, s, h, tx);
    BegunThenMoved(s, h, tx, at);
    StatementServes(env, Begun(s, h, tx), h, tx, at);
    UncontendedCallReaches(env, s, h, tx, at);
    QuietStepIsInvisible(env, Unreturned(s, h, tx, at), Return(h));
  }

  // A call that fails: its transaction rolls back before its statement.
  function FailingSteps(h: Sid, tx: X.TxId): seq<Step> {
    [Begin(h, tx)] + [Run(X.Abort(tx))] + [Return(h)]
  }

  lemma FinishedCallReturns(env: Env, s: System, h: Sid)
    requires h in s.running && h in s.handlers && Calls(s.handlers[h]) && (s.handlers[h].Opening? ==> h in s.granted)
    requires Finished(s.db, s.running[h])
    ensures Enabled(env, s, Return(h))
  {
  }

  lemma BegunCallRollsBack(env: Env, s: System, h: Sid, tx: X.TxId)
    requires Inv(s) && h in s.running && s.running[h] == tx && tx in s.db.txs && s.db.txs[tx].phase.Begun?
    ensures Enabled(env, s, Run(X.Abort(tx))) && Enabled(env, Next(env, s, Run(X.Abort(tx))), Return(h))
    ensures Inv(Next(env, s, Run(X.Abort(tx))))
  {
    assert WaitsForItsCall(s, h);
    NextKeepsInv(env, s, Run(X.Abort(tx)));
    var s1 := Next(env, s, Run(X.Abort(tx)));
    assert s1 == s.(db := X.Next(s.db, X.Abort(tx)));
    FinishedCallReturns(env, s1, h);
  }

  lemma RolledBackCallShows(env: Env, s: System, h: Sid, tx: X.TxId, at: Readings)
    requires Inv(s) && h in s.running && s.running[h] == tx && tx in s.db.txs && s.db.txs[tx].phase.Begun?
    ensures F.Enabled(env, Abs(s), F.Serve(h, true, at))
    ensures Enabled(env, s, Run(X.Abort(tx))) && Enabled(env, Next(env, s, Run(X.Abort(tx))), Return(h))
    ensures Abs(Next(env, Next(env, s, Run(X.Abort(tx))), Return(h))) == F.Next(env, Abs(s), F.Serve(h, true, at))
  {
    BegunCallRollsBack(env, s, h, tx);
    assert WaitsForItsCall(s, h);
    AbortIsFailedServe(env, s, tx, at);
    QuietStepIsInvisible(env, Next(env, s, Run(X.Abort(tx))), Return(h));
  }

  // Whenever a call can begin, it can also fail and return.
  lemma CallCanFail(env: Env, s: System, h: Sid, tx: X.TxId, at: Readings)
    requires Inv(s) && Enabled(env, s, Begin(h, tx))
    ensures Performs(env, s, FailingSteps(h, tx))
    ensures F.Enabled(env, Abs(s), F.Serve(h, true, at))
    ensures Abs(Perform(env, s, FailingSteps(h, tx))) == F.Next(env, Abs(s), F.Serve(h, true, at))
  {
    CallBegins(env, s, h, tx);
    RolledBackCallShows(env, Begun(s, h, tx), h, tx, at);
    PerformOne(env, Begun(s, h, tx), Run(X.Abort(tx)));
    PerformInThreeParts(env, s, Begin(h, tx), [Run(X.Abort(tx))], Return(h));
  }

  /* ---- Every run of Fleet happens ---- */

  function ReadingsOf(step: F.Step): Option<Readings> {
    match step
    case Enroll(_, _, _, now) => Some(Readings(now, now, now, now))
    case Serve(_, _, at) => Some(at)
    case _ => None
  }

  // The latest reading of the last step that read the clock.
  function Ceiling(steps: seq<F.Step>): Option<Time> {
    if steps == [] then None
    else if ReadingsOf(Last(steps)).Some? then Some(X.Latest(ReadingsOf(Last(steps)).value))
    else Ceiling(Front(steps))
  }

  predicate IsAfter(step: F.Step, ceiling: Option<Time>) {
    ReadingsOf(step).Some? && ceiling.Some? ==> X.NotBefore(ReadingsOf(step).value, ceiling.value)
  }

  // The clock does not run backwards.
  predicate InTime(steps: seq<F.Step>) {
    steps == [] || (InTime(Front(steps)) && IsAfter(Last(steps), Ceiling(Front(steps))))
  }

  // No call is under way; transactions of sessions have small ids and all others large ones.
  ghost predicate Resting(s: System, bound: nat, n: nat) {
    && s.running == map[]
    && (forall t :: t in s.db.txs ==> Finished(s.db, t) && t < bound + n && (t < bound ==> t in s.handlers))
    && (forall h :: h in s.handlers ==> h < bound)
  }

  ghost predicate FloorsBelow(db: X.Db, ceiling: Option<Time>) {
    forall m :: m in db.floors ==> ceiling.Some? && db.floors[m] <= ceiling.value
  }

  lemma RestingShowsHandlers(s: System)
    requires s.running == map[]
    ensures Handlers(s) == s.handlers
  {
  }

  // Steps that are one step in both systems.
  function Mirror(step: F.Step): Step {
    match step
    case Enroll(machine, agent, hash, now) => Enroll(machine, agent, hash, now)
    case Revoke(agent) => Revoke(agent)
    case Connect(h) => Connect(h)
    case Receive(h, received) => Receive(h, received)
    case Lookup(h, fault) => Lookup(h, fault)
    case Serve(h, fault, at) => Record(h, fault, at)
  }

  lemma MirroredStepHappens(env: Env, s: System, fs: F.Step)
    requires Inv(s) && s.running == map[] && F.Enabled(env, Abs(s), fs)
    requires fs.Serve? ==> s.handlers[fs.h].Recording?
    requires fs.Connect? ==> fs.h !in s.db.txs
    ensures Enabled(env, s, Mirror(fs)) && Abs(Next(env, s, Mirror(fs))) == F.Next(env, Abs(s), fs)
  {
    RestingShowsHandlers(s);
    StepIsFleetStepOrNothing(env, s, Mirror(fs));
  }

  lemma MirroredStepRests(env: Env, s: System, fs: F.Step, bound: nat, n: nat)
    requires Resting(s, bound, n) && Enabled(env, s, Mirror(fs)) && (fs.Connect? ==> fs.h < bound)
    ensures Resting(Next(env, s, Mirror(fs)), bound, n + 1)
  {
  }

  lemma MirroredStepKeepsFloors(env: Env, s: System, fs: F.Step, ceiling: Option<Time>)
    requires Enabled(env, s, Mirror(fs)) && FloorsBelow(s.db, ceiling) && IsAfter(fs, ceiling)
    ensures FloorsBelow(Next(env, s, Mirror(fs)).db,
                        if ReadingsOf(fs).Some? then Some(X.Latest(ReadingsOf(fs).value)) else ceiling)
  {
  }

  lemma GrantedTokenIsNew(s: System, env: Env, h: Sid, at: Readings)
    requires h in s.granted && s.granted[h].machine in s.db.rows && s.running == map[]
    requires h in s.handlers && s.handlers[h].Opening? && F.Enabled(env, Abs(s), F.Serve(h, false, at))
    ensures forall k :: k in s.db.sessions && s.db.sessions[k].machine == s.granted[h].machine ==>
              s.db.sessions[k].connectedAt != at.connected
  {
    var m := s.granted[h].machine;
    RestingShowsHandlers(s);
    assert Abs(s).machines[m].issued == R.IssuedOn(s.db.sessions, m);
    forall k | k in s.db.sessions && s.db.sessions[k].machine == m ensures s.db.sessions[k].connectedAt != at.connected {
      assert k in R.IssuedOn(s.db.sessions, m);
    }
  }

  lemma RestingCallCanBegin(env: Env, steps: seq<Step>, h: Sid, tx: X.TxId, bound: nat, n: nat)
    requires var s := Exec(env, steps);
             && Resting(s, bound, n) && h in s.handlers && Calls(s.handlers[h]) && (s.handlers[h].Opening? ==> h in s.granted)
             && tx == if s.handlers[h].Opening? then h else bound + n
    ensures Enabled(env, Exec(env, steps), Begin(h, tx))
  {
    EveryCallCanBegin(env, steps, h, tx);
  }

  lemma BeginIsUncontended(env: Env, s: System, h: Sid, tx: X.TxId, at: Readings, bound: nat, n: nat, ceiling: Option<Time>)
    requires Resting(s, bound, n) && FloorsBelow(s.db, ceiling) && (ceiling.Some? ==> X.NotBefore(at, ceiling.value))
    requires Enabled(env, s, Begin(h, tx)) && CallOf(s, h).Machine() in s.db.rows
    requires s.handlers[h].Opening? ==>
               forall k :: k in s.db.sessions && s.db.sessions[k].machine == s.granted[h].machine ==>
                 s.db.sessions[k].connectedAt != at.connected
    ensures P.IsUncontended(s.db, tx, CallOf(s, h), at)
  {
  }

  // In a resting state the machine of every call is known and free.
  lemma CallIsUncontended(env: Env, steps: seq<Step>, h: Sid, tx: X.TxId, at: Readings, bound: nat, n: nat, ceiling: Option<Time>)
    requires var s := Exec(env, steps);
             && Resting(s, bound, n) && FloorsBelow(s.db, ceiling) && (ceiling.Some? ==> X.NotBefore(at, ceiling.value))
             && h in s.handlers && Calls(s.handlers[h]) && (s.handlers[h].Opening? ==> h in s.granted)
             && F.Enabled(env, Abs(s), F.Serve(h, false, at))
             && tx == if s.handlers[h].Opening? then h else bound + n
    ensures var s := Exec(env, steps); Enabled(env, s, Begin(h, tx)) && P.IsUncontended(s.db, tx, CallOf(s, h), at)
  {
    var s := Exec(env, steps);
    RestingCallCanBegin(env, steps, h, tx, bound, n);
    CallsMachineIsKnown(env, steps, h);
    if s.handlers[h].Opening? { GrantedTokenIsNew(s, env, h, at); }
    BeginIsUncontended(env, s, h, tx, at, bound, n, ceiling);
  }

  lemma CallsMachineIsKnown(env: Env, steps: seq<Step>, h: Sid)
    requires var s := Exec(env, steps);
             s.running == map[] && h in s.handlers && Calls(s.handlers[h]) && (s.handlers[h].Opening? ==> h in s.granted)
    ensures CallOf(Exec(env, steps), h).Machine() in Exec(env, steps).db.rows
  {
    var s := Exec(env, steps);
    ConcurrentRefinesFleet(env, steps);
    RestingShowsHandlers(s);
    FT.GrantedMachineExists(env, FleetSteps(env, steps), h);
    F.ExecKeepsInv(env, FleetSteps(env, steps));
    assert F.SessionIsIssued(Abs(s), h);
  }

  // A call has come and gone.
  lemma RestsAgain(s: System, s': System, tx: X.TxId, bound: nat, n: nat)
    requires Resting(s, bound, n) && s'.running == map[] && s'.handlers.Keys == s.handlers.Keys
    requires tx in s'.db.txs && Finished(s'.db, tx) && s'.db.txs == s.db.txs[tx := s'.db.txs[tx]]
    requires tx < bound + n + 1 && (tx < bound ==> tx in s.handlers)
    ensures Resting(s', bound, n + 1)
  {
  }

  lemma ReturnLeaves(env: Env, s: System, h: Sid)
    requires Enabled(env, s, Return(h))
    ensures var s' := Next(env, s, Return(h));
            s'.db == s.db && s'.handlers.Keys == s.handlers.Keys && s'.running == s.running - {h}
  {
  }

  lemma ServedCallLeaves(env: Env, s: System, h: Sid, tx: X.TxId, at: Readings)
    requires Inv(s) && Enabled(env, s, Begin(h, tx)) && P.IsUncontended(s.db, tx, CallOf(s, h), at)
    ensures var s' := Perform(env, s, CallSteps(s, h, tx, at));
            s'.db == P.Perform(s.db, P.StepsOf(s.db, tx, CallOf(s, h), at)) && s'.handlers.Keys == s.handlers.Keys &&
            s'.running == s.running[h := tx] - {h}
  {
    UncontendedCallReaches(env, s, h, tx, at);
    ReturnLeaves(env, Unreturned(s, h, tx, at), h);
  }

  lemma ServedCallRests(env: Env, s: System, h: Sid, tx: X.TxId, at: Readings, bound: nat, n: nat)
    requires Resting(s, bound, n) && Inv(s) && Enabled(env, s, Begin(h, tx)) && P.IsUncontended(s.db, tx, CallOf(s, h), at)
    requires tx == if s.handlers[h].Opening? then h else bound + n
    ensures Resting(Perform(env, s, CallSteps(s, h, tx, at)), bound, n + 1)
  {
    ServedCallLeaves(env, s, h, tx, at);
    P.UncontendedCallEnds(s.db, tx, CallOf(s, h), at);
    RestsAgain(s, Perform(env, s, CallSteps(s, h, tx, at)), tx, bound, n);
  }

  lemma ServedCallKeepsFloors(env: Env, s: System, h: Sid, tx: X.TxId, at: Readings, ceiling: Option<Time>)
    requires Inv(s) && Enabled(env, s, Begin(h, tx)) && P.IsUncontended(s.db, tx, CallOf(s, h), at)
    requires FloorsBelow(s.db, ceiling) && (ceiling.Some? ==> X.NotBefore(at, ceiling.value))
    ensures FloorsBelow(Perform(env, s, CallSteps(s, h, tx, at)).db, Some(X.Latest(at)))
  {
    UncontendedCallReaches(env, s, h, tx, at);
    P.UncontendedCallTakesEffect(s.db, tx, CallOf(s, h), at);
  }

  lemma FailedCallEnds(env: Env, s: System, h: Sid, tx: X.TxId)
    requires Inv(s) && Enabled(env, s, Begin(h, tx))
    ensures var s1 := Begun(s, h, tx);
            && Enabled(env, s1, Run(X.Abort(tx))) && Enabled(env, Next(env, s1, Run(X.Abort(tx))), Return(h))
            && Perform(env, s, FailingSteps(h, tx)) == Next(env, Next(env, s1, Run(X.Abort(tx))), Return(h))
  {
    CallBegins(env, s, h, tx);
    BegunCallRollsBack(env, Begun(s, h, tx), h, tx);
    PerformOne(env, Begun(s, h, tx), Run(X.Abort(tx)));
    PerformInThreeParts(env, s, Begin(h, tx), [Run(X.Abort(tx))], Return(h));
  }

  lemma RollbackLeaves(env: Env, s: System, h: Sid, tx: X.TxId)
    requires h in s.handlers && Calls(s.handlers[h]) && (s.handlers[h].Opening? ==> h in s.granted)
    requires X.Enabled(s.db, X.Begin(tx, CallOf(s, h))) && Enabled(env, Begun(s, h, tx), Run(X.Abort(tx)))
    ensures var s2 := Next(env, Begun(s, h, tx), Run(X.Abort(tx)));
            && s2.handlers == s.handlers && s2.running == s.running[h := tx] && s2.db.floors == s.db.floors
            && s2.db.txs == s.db.txs[tx := X.Tx(CallOf(s, h), X.Aborted)]
  {
    assert s.db.txs[tx := X.Tx(CallOf(s, h), X.Begun)][tx := X.Tx(CallOf(s, h), X.Aborted)] ==
           s.db.txs[tx := X.Tx(CallOf(s, h), X.Aborted)];
  }

  lemma FailedCallRests(env: Env, s: System, h: Sid, tx: X.TxId, bound: nat, n: nat, ceiling: Option<Time>, at: Readings)
    requires Resting(s, bound, n) && Inv(s) && Enabled(env, s, Begin(h, tx))
    requires tx == if s.handlers[h].Opening? then h else bound + n
    requires FloorsBelow(s.db, ceiling) && (ceiling.Some? ==> X.NotBefore(at, ceiling.value))
    ensures Resting(Perform(env, s, FailingSteps(h, tx)), bound, n + 1)
    ensures FloorsBelow(Perform(env, s, FailingSteps(h, tx)).db, Some(X.Latest(at)))
  {
    FailedCallEnds(env, s, h, tx);
    RollbackLeaves(env, s, h, tx);
    var s2, s3 := Next(env, Begun(s, h, tx), Run(X.Abort(tx))), Perform(env, s, FailingSteps(h, tx));
    ReturnLeaves(env, s2, h);
    assert s3.running == s.running[h := tx] - {h} == map[];
    RestsAgain(s, s3, tx, bound, n);
  }

  // The system after `steps` has done what Fleet does in `fsteps`, and rests.
  ghost predicate Mirrors(env: Env, s: System, fsteps: seq<F.Step>, bound: nat) {
    && Abs(s) == F.Exec(env, fsteps)
    && Resting(s, bound, |fsteps|)
    && FloorsBelow(s.db, Ceiling(fsteps))
  }

  predicate IsBelow(step: F.Step, bound: nat) {
    step.Connect? ==> step.h < bound
  }

  // What is to be shown of `more`: it can be performed, and mirrors one more step of Fleet.
  ghost predicate MirrorsStep(env: Env, s: System, more: seq<Step>, fs: F.Step, bound: nat, n: nat) {
    var s' := Perform(env, s, more);
    && Performs(env, s, more)
    && F.Enabled(env, Abs(s), fs) && Abs(s') == F.Next(env, Abs(s), fs)
    && Resting(s', bound, n + 1)
  }

  function CeilingAfter(fs: F.Step, ceiling: Option<Time>): Option<Time> {
    if ReadingsOf(fs).Some? then Some(X.Latest(ReadingsOf(fs).value)) else ceiling
  }

  lemma OutsideStepHappens(env: Env, s: System, fs: F.Step, bound: nat, n: nat, ceiling: Option<Time>)
    requires Inv(s) && Resting(s, bound, n) && F.Enabled(env, Abs(s), fs) && IsBelow(fs, bound)
    requires fs.Serve? ==> fs.h in s.handlers && s.handlers[fs.h].Recording?
    requires FloorsBelow(s.db, ceiling) && IsAfter(fs, ceiling)
    ensures MirrorsStep(env, s, [Mirror(fs)], fs, bound, n)
    ensures FloorsBelow(Perform(env, s, [Mirror(fs)]).db, CeilingAfter(fs, ceiling))
  {
    RestingShowsHandlers(s);
    MirroredStepHappens(env, s, fs);
    MirroredStepRests(env, s, fs, bound, n);
    MirroredStepKeepsFloors(env, s, fs, ceiling);
    PerformOne(env, s, Mirror(fs));
  }

  lemma FailedCallHappens(env: Env, s: System, h: Sid, tx: X.TxId, at: Readings, bound: nat, n: nat, ceiling: Option<Time>)
    requires Inv(s) && Resting(s, bound, n) && Enabled(env, s, Begin(h, tx))
    requires tx == if s.handlers[h].Opening? then h else bound + n
    requires FloorsBelow(s.db, ceiling) && IsAfter(F.Serve(h, true, at), ceiling)
    ensures MirrorsStep(env, s, FailingSteps(h, tx), F.Serve(h, true, at), bound, n)
    ensures FloorsBelow(Perform(env, s, FailingSteps(h, tx)).db, CeilingAfter(F.Serve(h, true, at), ceiling))
  {
    CallCanFail(env, s, h, tx, at);
    FailedCallRests(env, s, h, tx, bound, n, ceiling, at);
  }

  lemma ServedCallHappens(env: Env, s: System, h: Sid, tx: X.TxId, at: Readings, bound: nat, n: nat, ceiling: Option<Time>)
    requires Inv(s) && Resting(s, bound, n) && Enabled(env, s, Begin(h, tx)) && P.IsUncontended(s.db, tx, CallOf(s, h), at)
    requires tx == if s.handlers[h].Opening? then h else bound + n
    requires FloorsBelow(s.db, ceiling) && IsAfter(F.Serve(h, false, at), ceiling)
    ensures MirrorsStep(env, s, CallSteps(s, h, tx, at), F.Serve(h, false, at), bound, n)
    ensures FloorsBelow(Perform(env, s, CallSteps(s, h, tx, at)).db, CeilingAfter(F.Serve(h, false, at), ceiling))
  {
    UncontendedCallReaches(env, s, h, tx, at);
    UncontendedCallShows(env, s, h, tx, at);
    ServedCallRests(env, s, h, tx, at, bound, n);
    ServedCallKeepsFloors(env, s, h, tx, at, ceiling);
  }

  lemma MirrorsOneMore(env: Env, s: System, more: seq<Step>, fsteps: seq<F.Step>, fs: F.Step, bound: nat)
    requires Mirrors(env, s, fsteps, bound) && MirrorsStep(env, s, more, fs, bound, |fsteps|)
    requires FloorsBelow(Perform(env, s, more).db, CeilingAfter(fs, Ceiling(fsteps)))
    ensures Mirrors(env, Perform(env, s, more), fsteps + [fs], bound)
  {
    assert Front(fsteps + [fs]) == fsteps;
  }

  lemma OneMoreStepHappens(env: Env, steps: seq<Step>, fsteps: seq<F.Step>, fs: F.Step, bound: nat) returns (more: seq<Step>)
    requires Mirrors(env, Exec(env, steps), fsteps, bound)
    requires F.Enabled(env, F.Exec(env, fsteps), fs) && IsAfter(fs, Ceiling(fsteps)) && IsBelow(fs, bound)
    ensures Performs(env, Exec(env, steps), more)
    ensures Mirrors(env, Perform(env, Exec(env, steps), more), fsteps + [fs], bound)
  {
    var s, n, ceiling := Exec(env, steps), |fsteps|, Ceiling(fsteps);
    ConcurrentRefinesFleet(env, steps);
    RestingShowsHandlers(s);
    if fs.Serve? && Calls(s.handlers[fs.h]) {
      var tx := if s.handlers[fs.h].Opening? then fs.h else bound + n;
      RestingCallCanBegin(env, steps, fs.h, tx, bound, n);
      if fs.fault {
        more := FailingSteps(fs.h, tx);
        FailedCallHappens(env, s, fs.h, tx, fs.at, bound, n, ceiling);
      } else {
        CallIsUncontended(env, steps, fs.h, tx, fs.at, bound, n, ceiling);
        more := CallSteps(s, fs.h, tx, fs.at);
        ServedCallHappens(env, s, fs.h, tx, fs.at, bound, n, ceiling);
      }
    } else {
      more := [Mirror(fs)];
      OutsideStepHappens(env, s, fs, bound, n, ceiling);
    }
    MirrorsOneMore(env, s, more, fsteps, fs, bound);
  }

  // Conversely to ConcurrentRefinesFleet: every run of Fleet whose clock does not run backwards is
  // what some run of handlers and small steps comes to, with no call left under way.
  lemma {:induction false} FleetRunsHappen(env: Env, fsteps: seq<F.Step>, bound: nat) returns (steps: seq<Step>)
    requires FI.Valid(env, fsteps) && InTime(fsteps)
    requires forall i :: 0 <= i < |fsteps| ==> IsBelow(fsteps[i], bound)
    ensures Abs(Exec(env, steps)) == F.Exec(env, fsteps)
    ensures Mirrors(env, Exec(env, steps), fsteps, bound)
  {
    steps := [];
    if fsteps != [] {
      var before := FleetRunsHappen(env, Front(fsteps), bound);
      assert IsBelow(Last(fsteps), bound);
      var more := OneMoreStepHappens(env, before, Front(fsteps), Last(fsteps), bound);
      steps := before + more;
      PerformAppends(env, before, more);
      assert Front(fsteps) + [Last(fsteps)] == fsteps;
    }
  }
}
