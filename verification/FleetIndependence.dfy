/** Machines do not influence each other: everything other machines' handlers do can be erased. */
module FleetIndependence {
  import opened Basics
  import opened Presence
  import opened Credentials
  import T = Telemetry
  import opened Stream
  import opened Fleet

  ghost predicate Valid(env: Env, steps: seq<Step>) {
    steps == [] || (Valid(env, Front(steps)) && Enabled(env, Exec(env, Front(steps)), Last(steps)))
  }

  // Steps that are not enabled wait; leaving them out, every state is that of a valid run.
  lemma {:induction false} EveryStateIsThatOfAValidRun(env: Env, steps: seq<Step>) returns (taken: seq<Step>)
    ensures Valid(env, taken) && Exec(env, taken) == Exec(env, steps)
  {
    taken := [];
    if steps != [] {
      taken := EveryStateIsThatOfAValidRun(env, Front(steps));
      if Enabled(env, Exec(env, Front(steps)), Last(steps)) {
        assert Front(taken + [Last(steps)]) == taken;
        taken := taken + [Last(steps)];
      }
    }
  }

  function Actor(step: Step): Option<Sid> {
    match step
    case Connect(h) => Some(h)
    case Receive(h, _) => Some(h)
    case Lookup(h, _) => Some(h)
    case Serve(h, _, _) => Some(h)
    case _ => None
  }

  predicate ActsFor(step: Step, handlers: set<Sid>) {
    Actor(step).Some? && Actor(step).value in handlers
  }

  function Without(steps: seq<Step>, handlers: set<Sid>): seq<Step> {
    if steps == [] then []
    else Without(Front(steps), handlers) + if ActsFor(Last(steps), handlers) then [] else [Last(steps)]
  }

  predicate IsOn(h: Handler, m: MachineId) {
    SessionOf(h).Some? && SessionOf(h).value.machine == m
  }

  // None of these handlers has a session on `m`.
  ghost predicate Foreign(f: Fleet, handlers: set<Sid>, m: MachineId) {
    forall h :: h in handlers && h in f.handlers ==> !IsOn(f.handlers[h], m)
  }

  function SamplesOf(table: T.Table, m: MachineId): T.Table {
    map k | k in table && k.machine == m :: table[k]
  }

  ghost predicate Includes(a: map<Sid, Time>, b: map<Sid, Time>) {
    forall s :: s in b ==> s in a && a[s] == b[s]
  }

  // Nothing tells the two apart on `m`: its row, log, tokens and samples, and every identity.
  ghost predicate AlikeOn(f: Fleet, g: Fleet, m: MachineId) {
    && f.identities == g.identities
    && f.machines.Keys == g.machines.Keys
    && (m in f.machines ==> f.machines[m] == g.machines[m])
    && (forall k :: k in f.machines ==> Includes(f.machines[k].issued, g.machines[k].issued))
    && SamplesOf(f.samples, m) == SamplesOf(g.samples, m)
  }

  predicate SamePlace(f: Fleet, g: Fleet, h: Sid) {
    && (h in f.handlers <==> h in g.handlers) && (h in f.handlers ==> f.handlers[h] == g.handlers[h])
    && (h in f.granted <==> h in g.granted) && (h in f.granted ==> f.granted[h] == g.granted[h])
  }

  // Every handler that is not foreign is in the same place.
  ghost predicate SameHandlers(f: Fleet, g: Fleet, handlers: set<Sid>) {
    forall h :: h !in handlers ==> SamePlace(f, g, h)
  }

  ghost predicate Alike(f: Fleet, g: Fleet, handlers: set<Sid>, m: MachineId) {
    AlikeOn(f, g, m) && SameHandlers(f, g, handlers)
  }

  lemma SessionsPersist(env: Env, f: Fleet, step: Step, h: Sid, m: MachineId)
    requires Enabled(env, f, step) && h in f.handlers && IsOn(f.handlers[h], m)
    ensures h in Next(env, f, step).handlers && IsOn(Next(env, f, step).handlers[h], m)
  {
  }

  lemma RecordKeepsOtherMachines(table: T.Table, a: T.Attempt, m: MachineId)
    requires a.sample.machine != m
    ensures SamplesOf(T.Record(table, a), m) == SamplesOf(table, m)
  {
  }

  lemma RecordDependsOnItsMachine(t: T.Table, u: T.Table, a: T.Attempt, m: MachineId)
    requires SamplesOf(t, m) == SamplesOf(u, m)
    ensures SamplesOf(T.Record(t, a), m) == SamplesOf(T.Record(u, a), m)
  {
    assert forall k :: k in SamplesOf(t, m) <==> k in t && k.machine == m;
    assert forall k :: k in SamplesOf(u, m) <==> k in u && k.machine == m;
    forall k | k in t && k.machine == m ensures k in u && t[k] == u[k] {
      assert k in SamplesOf(t, m) && SamplesOf(t, m)[k] == t[k];
      assert SamplesOf(u, m)[k] == u[k];
    }
    forall k | k in u && k.machine == m ensures k in t {
      assert k in SamplesOf(u, m);
    }
  }

  // Serving a handler changes the machine of its session after the call, if any.
  lemma ServeChangesOneMachine(env: Env, f: Fleet, step: Step, k: MachineId)
    requires Inv(f) && Enabled(env, f, step) && step.Serve? && k in f.machines
    requires !IsOn(Next(env, f, step).handlers[step.h], k)
    ensures var ms := MachinesAfter(f, step.h, step.fault, step.at); k in ms && ms[k] == f.machines[k]
  {
    assert SessionIsIssued(f, step.h);
  }

  lemma ServeKeepsIssuedTokens(env: Env, f: Fleet, step: Step, k: MachineId)
    requires Inv(f) && Enabled(env, f, step) && step.Serve? && k in f.machines
    ensures var ms := MachinesAfter(f, step.h, step.fault, step.at); k in ms && Includes(ms[k].issued, f.machines[k].issued)
  {
    StepIsOneCall(env, f, step, k);
    assert MachineIsServed(f, k);
  }

  // A foreign handler's call changes nothing on `m`.
  lemma ForeignServeIsInvisible(env: Env, f: Fleet, g: Fleet, step: Step, handlers: set<Sid>, m: MachineId)
    requires Inv(f) && Enabled(env, f, step) && step.Serve? && AlikeOn(f, g, m)
    requires !IsOn(f.handlers[step.h], m) && !IsOn(Next(env, f, step).handlers[step.h], m)
    ensures AlikeOn(Next(env, f, step), g, m)
  {
    assert SessionIsIssued(f, step.h);
    ServingAddsNoMachine(f, step.h, step.fault, step.at);
    if m in f.machines {
      ServeChangesOneMachine(env, f, step, m);
    }
    forall k | k in f.machines ensures Includes(Next(env, f, step).machines[k].issued, g.machines[k].issued) {
      ServeKeepsIssuedTokens(env, f, step, k);
    }
    if AttemptBy(f, step).Some? {
      RecordKeepsOtherMachines(f.samples, AttemptBy(f, step).value, m);
    }
  }

  lemma ForeignStepIsInvisible(env: Env, f: Fleet, g: Fleet, step: Step, handlers: set<Sid>, m: MachineId)
    requires Inv(f) && Enabled(env, f, step) && ActsFor(step, handlers) && Alike(f, g, handlers, m)
    requires Foreign(f, handlers, m) && Foreign(Next(env, f, step), handlers, m)
    ensures Alike(Next(env, f, step), g, handlers, m)
  {
    ActorMovesAlone(env, f, step);
    if step.Serve? {
      ForeignServeIsInvisible(env, f, g, step, handlers, m);
    }
  }

  lemma ActorMovesAlone(env: Env, f: Fleet, step: Step)
    requires Enabled(env, f, step) && Actor(step).Some?
    ensures var f', h := Next(env, f, step), Actor(step).value;
            && (forall k :: k != h ==> (k in f'.handlers <==> k in f.handlers) && (k in f'.granted <==> k in f.granted))
            && (forall k :: k != h && k in f.handlers ==> f'.handlers[k] == f.handlers[k])
            && (forall k :: k != h && k in f.granted ==> f'.granted[k] == f.granted[k])
            && f'.identities == f.identities
            && (!step.Serve? ==> f'.machines == f.machines && f'.samples == f.samples)
  {
  }

  lemma OwnServeIsEnabled(env: Env, f: Fleet, g: Fleet, step: Step, handlers: set<Sid>, m: MachineId)
    requires Enabled(env, f, step) && step.Serve? && !ActsFor(step, handlers) && Alike(f, g, handlers, m)
    ensures Enabled(env, g, step) && f.handlers[step.h] == g.handlers[step.h]
    ensures ReplyOf(f, step.h, step.fault, step.at) == ReplyOf(g, step.h, step.fault, step.at)
  {
    if f.handlers[step.h].Opening? {
      assert f.granted[step.h] == g.granted[step.h];
      if StartReply(f.machines.Keys, f.granted[step.h], step.fault, step.at).Opened? {
        var k := f.granted[step.h].machine;
        assert Includes(f.machines[k].issued, g.machines[k].issued);
      }
    }
  }

  lemma OwnServeOnMachine(env: Env, f: Fleet, g: Fleet, step: Step, handlers: set<Sid>, m: MachineId, k: MachineId)
    requires Enabled(env, f, step) && Enabled(env, g, step) && step.Serve?
    requires !ActsFor(step, handlers) && Alike(f, g, handlers, m) && k in f.machines
    ensures var ms, ns := MachinesAfter(f, step.h, step.fault, step.at), MachinesAfter(g, step.h, step.fault, step.at);
            && k in ms && k in ns && Includes(ms[k].issued, ns[k].issued)
            && (k == m ==> ms[k] == ns[k])
  {
    assert Includes(f.machines[k].issued, g.machines[k].issued);
  }

  lemma OwnServeStaysAlike(env: Env, f: Fleet, g: Fleet, step: Step, handlers: set<Sid>, m: MachineId)
    requires Enabled(env, f, step) && Enabled(env, g, step) && step.Serve?
    requires !ActsFor(step, handlers) && Alike(f, g, handlers, m)
    ensures AlikeOn(Next(env, f, step), Next(env, g, step), m)
  {
    ServingAddsNoMachine(f, step.h, step.fault, step.at);
    ServingAddsNoMachine(g, step.h, step.fault, step.at);
    forall k | k in f.machines
      ensures Includes(Next(env, f, step).machines[k].issued, Next(env, g, step).machines[k].issued)
      ensures k == m ==> Next(env, f, step).machines[k] == Next(env, g, step).machines[k]
    {
      OwnServeOnMachine(env, f, g, step, handlers, m, k);
    }
    OwnServeSamples(env, f, g, step, handlers, m);
  }

  lemma OwnServeSamples(env: Env, f: Fleet, g: Fleet, step: Step, handlers: set<Sid>, m: MachineId)
    requires step.Serve? && step.h in f.handlers && !ActsFor(step, handlers) && Alike(f, g, handlers, m)
    ensures SamplesOf(SamplesAfter(f, step), m) == SamplesOf(SamplesAfter(g, step), m)
  {
    assert f.handlers[step.h] == g.handlers[step.h];
    var a := AttemptBy(f, step);
    if a.Some? {
      RecordDependsOnItsMachine(f.samples, g.samples, a.value, m);
    }
  }

  lemma ServedAlike(env: Env, f: Fleet, g: Fleet, step: Step)
    requires Enabled(env, f, step) && Enabled(env, g, step) && step.Serve? && SamePlace(f, g, step.h)
    requires ReplyOf(f, step.h, step.fault, step.at) == ReplyOf(g, step.h, step.fault, step.at)
    ensures SamePlace(Next(env, f, step), Next(env, g, step), step.h)
  {
    var reply := ReplyOf(f, step.h, step.fault, step.at);
    assert Next(env, f, step).handlers[step.h] == OnReply(f.handlers[step.h], reply);
    assert Next(env, g, step).handlers[step.h] == OnReply(f.handlers[step.h], reply);
  }

  lemma LookupOutcome(env: Env, f: Fleet, h: Sid, fault: bool)
    requires Enabled(env, f, Lookup(h, fault))
    ensures var f', c := Next(env, f, Lookup(h, fault)), f.handlers[h].credentials;
            var early := LookupReply(env, f.identities, c, fault);
            if early.Some? then
              h in f'.handlers && f'.handlers[h] == OnReply(f.handlers[h], Reply(early.value, RecordFailed, false)) && h !in f'.granted
            else
              f'.handlers == f.handlers && h in f'.granted && Authenticate(env, f.identities, c) == Some(f'.granted[h])
  {
  }

  lemma LookedUpAlike(env: Env, f: Fleet, g: Fleet, h: Sid, fault: bool)
    requires Enabled(env, f, Lookup(h, fault)) && Enabled(env, g, Lookup(h, fault)) && SamePlace(f, g, h)
    requires f.identities == g.identities
    ensures SamePlace(Next(env, f, Lookup(h, fault)), Next(env, g, Lookup(h, fault)), h)
  {
    LookupOutcome(env, f, h, fault);
    LookupOutcome(env, g, h, fault);
  }

  lemma ActorMovesTheSame(env: Env, f: Fleet, g: Fleet, step: Step)
    requires Enabled(env, f, step) && Enabled(env, g, step) && Actor(step).Some? && f.identities == g.identities
    requires SamePlace(f, g, Actor(step).value)
    requires step.Serve? ==> ReplyOf(f, step.h, step.fault, step.at) == ReplyOf(g, step.h, step.fault, step.at)
    ensures SamePlace(Next(env, f, step), Next(env, g, step), Actor(step).value)
  {
    match step
    case Serve(_, _, _) => ServedAlike(env, f, g, step);
    case Lookup(h, fault) => LookedUpAlike(env, f, g, h, fault);
    case _ =>
  }

  lemma OthersStayInPlace(env: Env, f: Fleet, g: Fleet, step: Step, k: Sid)
    requires Enabled(env, f, step) && Enabled(env, g, step) && Actor(step).Some? && k != Actor(step).value
    requires SamePlace(f, g, k)
    ensures SamePlace(Next(env, f, step), Next(env, g, step), k)
  {
    ActorMovesAlone(env, f, step);
    ActorMovesAlone(env, g, step);
  }

  lemma OwnStepMovesAlike(env: Env, f: Fleet, g: Fleet, step: Step, handlers: set<Sid>, m: MachineId)
    requires Enabled(env, f, step) && Enabled(env, g, step) && Actor(step).Some?
    requires !ActsFor(step, handlers) && Alike(f, g, handlers, m)
    requires step.Serve? ==> ReplyOf(f, step.h, step.fault, step.at) == ReplyOf(g, step.h, step.fault, step.at)
    ensures SameHandlers(Next(env, f, step), Next(env, g, step), handlers)
  {
    forall k | k !in handlers ensures SamePlace(Next(env, f, step), Next(env, g, step), k) {
      assert SamePlace(f, g, k);
      if k == Actor(step).value {
        ActorMovesTheSame(env, f, g, step);
      } else {
        OthersStayInPlace(env, f, g, step, k);
      }
    }
  }

  lemma RowStepStaysAlike(env: Env, f: Fleet, g: Fleet, step: Step, handlers: set<Sid>, m: MachineId)
    requires Enabled(env, f, step) && Actor(step).None? && Alike(f, g, handlers, m)
    ensures Enabled(env, g, step) && Alike(Next(env, f, step), Next(env, g, step), handlers, m)
  {
    forall h | h !in handlers ensures SamePlace(Next(env, f, step), Next(env, g, step), h) {
      assert SamePlace(f, g, h);
    }
  }

  lemma OwnMessageStaysAlike(env: Env, f: Fleet, g: Fleet, step: Step, handlers: set<Sid>, m: MachineId)
    requires Enabled(env, f, step) && Actor(step).Some? && !step.Serve? && !ActsFor(step, handlers) && Alike(f, g, handlers, m)
    ensures Enabled(env, g, step) && AlikeOn(Next(env, f, step), Next(env, g, step), m)
  {
    assert SamePlace(f, g, Actor(step).value);
    ActorMovesAlone(env, f, step);
    ActorMovesAlone(env, g, step);
  }

  // Every other step can be taken on both sides, and keeps them alike.
  lemma OwnStepStaysAlike(env: Env, f: Fleet, g: Fleet, step: Step, handlers: set<Sid>, m: MachineId)
    requires Enabled(env, f, step) && !ActsFor(step, handlers) && Alike(f, g, handlers, m)
    ensures Enabled(env, g, step) && Alike(Next(env, f, step), Next(env, g, step), handlers, m)
  {
    if Actor(step).None? {
      RowStepStaysAlike(env, f, g, step, handlers, m);
    } else {
      if step.Serve? {
        OwnServeIsEnabled(env, f, g, step, handlers, m);
        OwnServeStaysAlike(env, f, g, step, handlers, m);
      } else {
        OwnMessageStaysAlike(env, f, g, step, handlers, m);
      }
      OwnStepMovesAlike(env, f, g, step, handlers, m);
    }
  }

  lemma {:induction false} ErasingForeignHandlersStaysAlike(env: Env, steps: seq<Step>, handlers: set<Sid>, m: MachineId)
    requires Valid(env, steps) && Foreign(Exec(env, steps), handlers, m)
    ensures Valid(env, Without(steps, handlers))
    ensures Alike(Exec(env, steps), Exec(env, Without(steps, handlers)), handlers, m)
  {
    if steps != [] {
      var f, step := Exec(env, Front(steps)), Last(steps);
      ExecKeepsInv(env, Front(steps));
      forall h | h in handlers && h in f.handlers ensures !IsOn(f.handlers[h], m) {
        if IsOn(f.handlers[h], m) { SessionsPersist(env, f, step, h, m); }
      }
      ErasingForeignHandlersStaysAlike(env, Front(steps), handlers, m);
      var kept := Without(Front(steps), handlers);
      if ActsFor(step, handlers) {
        ForeignStepIsInvisible(env, f, Exec(env, kept), step, handlers, m);
        assert Without(steps, handlers) == kept;
      } else {
        OwnStepStaysAlike(env, f, Exec(env, kept), step, handlers, m);
        assert Front(Without(steps, handlers)) == kept;
      }
    }
  }

  // Erase every step of every handler that is not on machine `m`: the machine's row, events,
  // tokens and telemetry are the same.
  lemma MachinesAreIndependent(env: Env, steps: seq<Step>, handlers: set<Sid>, m: MachineId)
    requires Valid(env, steps) && m in Exec(env, steps).machines
    requires forall h :: h in handlers && h in Exec(env, steps).handlers ==> !IsOn(Exec(env, steps).handlers[h], m)
    ensures Valid(env, Without(steps, handlers))
    ensures var f, g := Exec(env, steps), Exec(env, Without(steps, handlers));
            && m in g.machines && f.machines[m] == g.machines[m]
            && SamplesOf(f.samples, m) == SamplesOf(g.samples, m)
  {
    ErasingForeignHandlersStaysAlike(env, steps, handlers, m);
  }
}
