/**
 Any number of stream handlers over one database.  A handler's calls are atomic here, as
 ConcurrentRefine proves they can be taken to be; between two calls every other handler may run,
 agents may enroll, and identities may be revoked.  A store call succeeds or reports an error and
 has no effect.
 */
module Fleet {
  import opened Basics
  import opened Presence
  import opened Base64Url
  import opened Credentials
  import T = Telemetry
  import opened Stream

  datatype Fleet = Fleet(
    identities: map<Uuid, Identity>,
    machines: map<MachineId, Machine>,
    samples: T.Table,
    handlers: map<Sid, Handler>,
    granted: map<Sid, Identity>)  // what a handler's lookup found

  const EMPTY := Fleet(map[], map[], map[], map[], map[])

  datatype Step =
    | Enroll(machine: MachineId, agent: Uuid, hash: seq<Byte>, now: Time)
    | Revoke(agent: Uuid)
    | Connect(h: Sid)
    | Receive(h: Sid, received: Received)
    | Lookup(h: Sid, fault: bool)               // the first half of the handler's OpenSession
    | Serve(h: Sid, fault: bool, at: Readings)  // its second half, or any other call, is answered

  predicate CallIsPending(f: Fleet, h: Sid) {
    h in f.handlers && !Returned(f.handlers[h]) && !Receives(f.handlers[h]) && (f.handlers[h].Opening? ==> h in f.granted)
  }

  function ReplyOf(f: Fleet, h: Sid, fault: bool, at: Readings): Reply
    requires CallIsPending(f, h)
  {
    Reply(
      if f.handlers[h].Opening? then StartReply(f.machines.Keys, f.granted[h], fault, at) else OpenFailed,
      if f.handlers[h].Recording? then
        if !T.ValidSample(f.handlers[h].sample) then Invalid else if fault then RecordFailed else Recorded
      else RecordFailed,
      !fault)
  }

  ghost predicate Enabled(env: Env, f: Fleet, step: Step) {
    match step
    case Enroll(machine, agent, _, _) => machine !in f.machines && agent !in f.identities
    case Revoke(agent) => agent in f.identities
    case Connect(h) => h !in f.handlers
    case Receive(h, _) => h in f.handlers && Receives(f.handlers[h])
    case Lookup(h, _) => h in f.handlers && f.handlers[h].Opening? && h !in f.granted
    case Serve(h, fault, at) =>
      && CallIsPending(f, h)
      // The assumption on the clock.
      && (f.handlers[h].Opening? && StartReply(f.machines.Keys, f.granted[h], fault, at).Opened? ==>
            forall s :: s in f.machines[f.granted[h].machine].issued ==>
              f.machines[f.granted[h].machine].issued[s] != at.connected)
  }

  // The committed effect of the pending call.
  function MachinesAfter(f: Fleet, h: Sid, fault: bool, at: Readings): map<MachineId, Machine>
    requires CallIsPending(f, h)
  {
    match f.handlers[h]
    case Opening(_) =>
      if StartReply(f.machines.Keys, f.granted[h], fault, at).Opened? then
        f.machines[f.granted[h].machine := Apply(f.machines[f.granted[h].machine], Start(h, at))]
      else f.machines
    case Touching(session) =>
      if !fault && session.machine in f.machines then
        f.machines[session.machine := TouchWith(f.machines[session.machine], session.connectedAt, at)]
      else f.machines
    case Closing(session, _) =>
      if !fault && session.machine in f.machines then
        f.machines[session.machine := EndWith(f.machines[session.machine], session.connectedAt, at)]
      else f.machines
    case _ => f.machines
  }

  // The telemetry call the step makes, if any.
  function AttemptBy(f: Fleet, step: Step): Option<T.Attempt> {
    if step.Serve? && step.h in f.handlers && f.handlers[step.h].Recording? then
      Some(T.Attempt(f.handlers[step.h].sample, step.at.updated, step.fault))
    else None
  }

  function SamplesAfter(f: Fleet, step: Step): T.Table {
    var attempt := AttemptBy(f, step);
    if attempt.None? then f.samples else T.Record(f.samples, attempt.value)
  }

  lemma ServingAddsNoMachine(f: Fleet, h: Sid, fault: bool, at: Readings)
    requires CallIsPending(f, h)
    ensures MachinesAfter(f, h, fault, at).Keys == f.machines.Keys
  {
  }

  function Next(env: Env, f: Fleet, step: Step): Fleet
    requires Enabled(env, f, step)
  {
    match step
    case Enroll(machine, agent, hash, now) =>
      f.(machines := f.machines[machine := NewMachine(now)],
         identities := f.identities[agent := Identity(machine, agent, hash, false)])
    case Revoke(agent) => f.(identities := f.identities[agent := f.identities[agent].(revoked := true)])
    case Connect(h) => f.(handlers := f.handlers[h := Waiting])
    case Receive(h, received) => f.(handlers := f.handlers[h := OnReceived(f.handlers[h], received)])
    case Lookup(h, fault) =>
      var early := LookupReply(env, f.identities, f.handlers[h].credentials, fault);
      if early.Some? then f.(handlers := f.handlers[h := OnReply(f.handlers[h], Reply(early.value, RecordFailed, false))])
      else f.(granted := f.granted[h := Authenticate(env, f.identities, f.handlers[h].credentials).value])
    case Serve(h, fault, at) =>
      f.(machines := MachinesAfter(f, h, fault, at),
         samples := SamplesAfter(f, step),
         handlers := f.handlers[h := OnReply(f.handlers[h], ReplyOf(f, h, fault, at))])
  }

  ghost function Take(env: Env, f: Fleet, step: Step): Fleet {
    if Enabled(env, f, step) then Next(env, f, step) else f
  }

  ghost function Exec(env: Env, steps: seq<Step>): Fleet {
    if steps == [] then EMPTY else Take(env, Exec(env, Front(steps)), Last(steps))
  }

  /* ---- What every step keeps ---- */

  function SessionOf(h: Handler): Option<Session> {
    match h
    case Receiving(session) => Some(session)
    case Recording(session, _) => Some(session)
    case Touching(session) => Some(session)
    case Closing(session, _) => Some(session)
    case Done(session, _, _) => Some(session)
    case _ => None
  }

  // The handler is still running, or its CloseSession reported an error.
  predicate Unclosed(h: Handler) {
    SessionOf(h).Some? && (h.Done? ==> h.closeFailed)
  }

  predicate Owns(m: Machine, h: Sid) {
    h in m.issued && m.row.connected == Some(m.issued[h])
  }

  // A handler's session is one the machine issued to it.
  ghost predicate SessionIsIssued(f: Fleet, h: Sid)
    requires h in f.handlers
  {
    var session := SessionOf(f.handlers[h]);
    && (session.Some? ==>
          && session.value.machine in f.machines
          && h in f.machines[session.value.machine].issued
          && f.machines[session.value.machine].issued[h] == session.value.connectedAt)
    && (f.handlers[h].Recording? ==> f.handlers[h].sample.machine == f.handlers[h].session.machine)
  }

  ghost predicate OwnersUnclosed(f: Fleet, m: MachineId)
    requires m in f.machines
  {
    forall h :: Owns(f.machines[m], h) && h in f.handlers ==>
      (f.machines[m].row.status == Online <==> Unclosed(f.handlers[h]))
  }

  ghost predicate MachineIsServed(f: Fleet, m: MachineId)
    requires m in f.machines
  {
    && TokensDistinct(f.machines[m].issued)
    && (forall h :: h in f.machines[m].issued ==>
          h in f.handlers && SessionOf(f.handlers[h]).Some? && SessionOf(f.handlers[h]).value.machine == m)
    && OwnersUnclosed(f, m)
  }

  ghost predicate Inv(f: Fleet) {
    && (forall h :: h in f.handlers ==> SessionIsIssued(f, h))
    && (forall m :: m in f.machines ==> MachineIsServed(f, m))
  }

  // The committed call a step makes on machine `m`.
  function OpBy(f: Fleet, step: Step, m: MachineId): Option<Op> {
    if !step.Serve? || !CallIsPending(f, step.h) then None
    else
      match f.handlers[step.h]
      case Opening(_) =>
        if StartReply(f.machines.Keys, f.granted[step.h], step.fault, step.at).Opened? && f.granted[step.h].machine == m then
          Some(Start(step.h, step.at))
        else None
      case Touching(session) =>
        if !step.fault && session.machine == m then Some(Touch(step.h, step.at)) else None
      case Closing(session, _) =>
        if !step.fault && session.machine == m then Some(End(step.h, step.at)) else None
      case _ => None
  }

  // Passing the session's timestamp is passing the session: the step is that one call.
  lemma StepIsOneCall(env: Env, f: Fleet, step: Step, m: MachineId)
    requires Inv(f) && Enabled(env, f, step) && m in f.machines
    ensures m in Next(env, f, step).machines
    ensures var op := OpBy(f, step, m);
            && Next(env, f, step).machines[m] == (if op.Some? then Apply(f.machines[m], op.value) else f.machines[m])
            && (op.Some? ==> Admissible(f.machines[m], op.value))
  {
    if step.Serve? {
      assert SessionIsIssued(f, step.h);
      if f.handlers[step.h].Opening? {
        assert MachineIsServed(f, m);
      }
    }
  }

  lemma IssuedTokensStay(env: Env, f: Fleet, step: Step, m: MachineId, h: Sid)
    requires Inv(f) && Enabled(env, f, step) && m in f.machines && h in f.machines[m].issued
    ensures var ms := Next(env, f, step).machines;
            m in ms && h in ms[m].issued && ms[m].issued[h] == f.machines[m].issued[h]
  {
    StepIsOneCall(env, f, step, m);
  }

  // A handler keeps its session, and gets one only from OpenSession.
  lemma HandlerKeepsSession(env: Env, f: Fleet, step: Step, h: Sid)
    requires Enabled(env, f, step) && h in f.handlers && SessionIsIssued(f, h)
    ensures var h' := Next(env, f, step).handlers[h];
            && (SessionOf(f.handlers[h]).Some? ==> SessionOf(h') == SessionOf(f.handlers[h]))
            && (SessionOf(h').Some? && SessionOf(f.handlers[h]).None? ==>
                  step.Serve? && step.h == h && CallIsPending(f, h) && f.handlers[h].Opening? &&
                  Opened(SessionOf(h').value) == StartReply(f.machines.Keys, f.granted[h], step.fault, step.at))
            && (h'.Recording? ==> h'.sample.machine == h'.session.machine)
  {
  }

  lemma NextKeepsSession(env: Env, f: Fleet, step: Step, h: Sid)
    requires Inv(f) && Enabled(env, f, step) && h in f.handlers
    ensures SessionIsIssued(Next(env, f, step), h)
  {
    assert SessionIsIssued(f, h);
    HandlerKeepsSession(env, f, step, h);
    var session := SessionOf(f.handlers[h]);
    if session.Some? {
      IssuedTokensStay(env, f, step, session.value.machine, h);
    } else if SessionOf(Next(env, f, step).handlers[h]).Some? {
      StepIsOneCall(env, f, step, SessionOf(Next(env, f, step).handlers[h]).value.machine);
    }
  }

  lemma ServeKeepsIssued(env: Env, f: Fleet, step: Step, m: MachineId, h: Sid)
    requires Inv(f) && Enabled(env, f, step) && step.Serve? && m in f.machines
    requires m in Next(env, f, step).machines && h in Next(env, f, step).machines[m].issued
    ensures var f' := Next(env, f, step);
            h in f'.handlers && SessionOf(f'.handlers[h]).Some? && SessionOf(f'.handlers[h]).value.machine == m
  {
    StepIsOneCall(env, f, step, m);
    if h in f.machines[m].issued {
      assert MachineIsServed(f, m);
      assert SessionIsIssued(f, h);
      HandlerKeepsSession(env, f, step, h);
    }
  }

  lemma ServeKeepsTokensDistinct(env: Env, f: Fleet, step: Step, m: MachineId)
    requires Inv(f) && Enabled(env, f, step) && m in f.machines
    ensures m in Next(env, f, step).machines && TokensDistinct(Next(env, f, step).machines[m].issued)
  {
    StepIsOneCall(env, f, step, m);
    assert MachineIsServed(f, m);
  }

  lemma StartKeepsOwners(env: Env, f: Fleet, step: Step, m: MachineId)
    requires Inv(f) && Enabled(env, f, step) && m in f.machines
    requires OpBy(f, step, m).Some? && OpBy(f, step, m).value.Start?
    ensures m in Next(env, f, step).machines && OwnersUnclosed(Next(env, f, step), m)
  {
    StepIsOneCall(env, f, step, m);
  }

  // Only a successful End closes a handler, and only the one that made it.
  lemma TouchOrEndCloses(env: Env, f: Fleet, step: Step, m: MachineId, h: Sid)
    requires Enabled(env, f, step) && h in f.handlers
    requires OpBy(f, step, m).Some? && !OpBy(f, step, m).value.Start?
    ensures Unclosed(Next(env, f, step).handlers[h]) <==>
            Unclosed(f.handlers[h]) && !(h == step.h && OpBy(f, step, m).value.End?)
  {
  }

  lemma TouchOrEndKeepsOwners(env: Env, f: Fleet, step: Step, m: MachineId)
    requires Inv(f) && Enabled(env, f, step) && m in f.machines
    requires OpBy(f, step, m).Some? && !OpBy(f, step, m).value.Start?
    ensures m in Next(env, f, step).machines && OwnersUnclosed(Next(env, f, step), m)
  {
    StepIsOneCall(env, f, step, m);
    assert SessionIsIssued(f, step.h) && MachineIsServed(f, m);
    var f' := Next(env, f, step);
    forall h | Owns(f'.machines[m], h) && h in f'.handlers
      ensures f'.machines[m].row.status == Online <==> Unclosed(f'.handlers[h])
    {
      assert Owns(f.machines[m], h) && h in f.handlers;
      TouchOrEndCloses(env, f, step, m, h);
      if Owns(f.machines[m], step.h) {
        assert h == step.h;
      }
    }
  }

  lemma CallElsewhereClosesNone(env: Env, f: Fleet, step: Step, m: MachineId, h: Sid)
    requires Enabled(env, f, step) && step.Serve? && OpBy(f, step, m).None?
    requires h in f.handlers && SessionOf(f.handlers[h]).Some? && SessionOf(f.handlers[h]).value.machine == m
    ensures Unclosed(Next(env, f, step).handlers[h]) <==> Unclosed(f.handlers[h])
  {
  }

  // A call on another machine, or one without effect, moves no handler of `m` in or out of its session.
  lemma OtherStepsKeepOwners(env: Env, f: Fleet, step: Step, m: MachineId)
    requires Inv(f) && Enabled(env, f, step) && step.Serve? && m in f.machines
    requires OpBy(f, step, m).None?
    ensures m in Next(env, f, step).machines && OwnersUnclosed(Next(env, f, step), m)
  {
    StepIsOneCall(env, f, step, m);
    assert MachineIsServed(f, m);
    var f' := Next(env, f, step);
    forall h | Owns(f'.machines[m], h) && h in f'.handlers
      ensures f'.machines[m].row.status == Online <==> Unclosed(f'.handlers[h])
    {
      assert Owns(f.machines[m], h) && h in f.handlers;
      CallElsewhereClosesNone(env, f, step, m, h);
    }
  }

  lemma ServeKeepsMachine(env: Env, f: Fleet, step: Step, m: MachineId)
    requires Inv(f) && Enabled(env, f, step) && step.Serve? && m in f.machines
    ensures m in Next(env, f, step).machines && MachineIsServed(Next(env, f, step), m)
  {
    var f' := Next(env, f, step);
    ServeKeepsTokensDistinct(env, f, step, m);
    forall h | h in f'.machines[m].issued
      ensures h in f'.handlers && SessionOf(f'.handlers[h]).Some? && SessionOf(f'.handlers[h]).value.machine == m
    {
      ServeKeepsIssued(env, f, step, m, h);
    }
    if OpBy(f, step, m).None? {
      OtherStepsKeepOwners(env, f, step, m);
    } else if OpBy(f, step, m).value.Start? {
      StartKeepsOwners(env, f, step, m);
    } else {
      TouchOrEndKeepsOwners(env, f, step, m);
    }
  }

  lemma OtherStepKeepsUnclosed(env: Env, f: Fleet, step: Step, h: Sid)
    requires Enabled(env, f, step) && !step.Serve? && h in f.handlers
    ensures var h' := Next(env, f, step).handlers[h];
            SessionOf(h') == SessionOf(f.handlers[h]) && Unclosed(h') == Unclosed(f.handlers[h])
  {
  }

  lemma OtherStepKeepsMachines(env: Env, f: Fleet, step: Step, m: MachineId)
    requires Enabled(env, f, step) && !step.Serve? && m in f.machines
    ensures m in Next(env, f, step).machines && Next(env, f, step).machines[m] == f.machines[m]
    ensures forall h :: h in f.handlers ==> h in Next(env, f, step).handlers
  {
  }

  lemma OtherStepKeepsMachine(env: Env, f: Fleet, step: Step, m: MachineId)
    requires Inv(f) && Enabled(env, f, step) && !step.Serve? && m in Next(env, f, step).machines
    ensures MachineIsServed(Next(env, f, step), m)
  {
    if m in f.machines {
      assert MachineIsServed(f, m);
      OtherStepKeepsMachines(env, f, step, m);
      forall h | h in f.machines[m].issued
        ensures SessionOf(Next(env, f, step).handlers[h]) == SessionOf(f.handlers[h])
        ensures Unclosed(Next(env, f, step).handlers[h]) == Unclosed(f.handlers[h])
      {
        OtherStepKeepsUnclosed(env, f, step, h);
      }
    }
  }

  lemma NextKeepsInv(env: Env, f: Fleet, step: Step)
    requires Inv(f) && Enabled(env, f, step)
    ensures Inv(Next(env, f, step))
  {
    var f' := Next(env, f, step);
    forall h | h in f'.handlers ensures SessionIsIssued(f', h) {
      if h in f.handlers {
        NextKeepsSession(env, f, step, h);
      }
    }
    forall m | m in f'.machines ensures MachineIsServed(f', m) {
      if step.Serve? {
        ServingAddsNoMachine(f, step.h, step.fault, step.at);
        ServeKeepsMachine(env, f, step, m);
      } else {
        OtherStepKeepsMachine(env, f, step, m);
      }
    }
  }

  lemma {:induction false} ExecKeepsInv(env: Env, steps: seq<Step>)
    ensures Inv(Exec(env, steps))
  {
    if steps != [] {
      ExecKeepsInv(env, Front(steps));
      if Enabled(env, Exec(env, Front(steps)), Last(steps)) {
        NextKeepsInv(env, Exec(env, Front(steps)), Last(steps));
      }
    }
  }
}
