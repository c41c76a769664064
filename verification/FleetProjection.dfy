/**
 A run seen from one machine: what is left when every handler, enrollment and revocation that does
 not concern the machine is taken out is itself a run, and ends in the machine's part of the state.
 */
module FleetProjection {
  import opened Basics
  import opened Presence
  import opened Base64Url
  import opened Credentials
  import T = Telemetry
  import opened Stream
  import opened Fleet
  import opened FleetIndependence
  import FleetTheorems

  function IdentitiesOf(identities: map<Uuid, Identity>, m: MachineId): map<Uuid, Identity> {
    map a | a in identities && identities[a].machine == m :: identities[a]
  }

  function MachineOf(machines: map<MachineId, Machine>, m: MachineId): map<MachineId, Machine> {
    if m in machines then map[m := machines[m]] else map[]
  }

  // What of the state is about machine `m`.
  function PartOf(f: Fleet, m: MachineId): Fleet {
    Fleet(IdentitiesOf(f.identities, m), MachineOf(f.machines, m), SamplesOf(f.samples, m), f.handlers, f.granted)
  }

  predicate Concerns(f: Fleet, step: Step, m: MachineId) {
    match step
    case Enroll(machine, _, _, _) => machine == m
    case Revoke(agent) => agent in f.identities && f.identities[agent].machine == m
    case _ => true
  }

  ghost function Concerning(env: Env, steps: seq<Step>, m: MachineId): seq<Step> {
    if steps == [] then []
    else
      Concerning(env, Front(steps), m) +
      if Concerns(Exec(env, Front(steps)), Last(steps), m) then [Last(steps)] else []
  }

  // The handler can only ever be on `m`.
  ghost predicate Bound(f: Fleet, h: Sid, m: MachineId)
    requires h in f.handlers
  {
    && !f.handlers[h].Rejecting?
    && (SessionOf(f.handlers[h]).Some? ==> SessionOf(f.handlers[h]).value.machine == m)
    && (h in f.granted ==> f.granted[h].machine == m)
  }

  ghost predicate AllBound(f: Fleet, m: MachineId) {
    forall h :: h in f.handlers ==> Bound(f, h, m)
  }

  lemma BoundBefore(env: Env, f: Fleet, step: Step, m: MachineId, h: Sid)
    requires Enabled(env, f, step) && h in f.handlers && h in Next(env, f, step).handlers && Bound(Next(env, f, step), h, m)
    ensures Bound(f, h, m)
  {
  }

  lemma AllBoundBefore(env: Env, f: Fleet, step: Step, m: MachineId)
    requires Enabled(env, f, step) && AllBound(Next(env, f, step), m)
    ensures AllBound(f, m)
  {
    forall h | h in f.handlers ensures Bound(f, h, m) {
      assert h in Next(env, f, step).handlers;
      assert Bound(Next(env, f, step), h, m);
      BoundBefore(env, f, step, m, h);
    }
  }

  /* ---- One step ---- */

  ghost predicate StepIsLocal(env: Env, f: Fleet, step: Step, m: MachineId)
    requires Enabled(env, f, step)
  {
    if Concerns(f, step, m) then
      Enabled(env, PartOf(f, m), step) && Next(env, PartOf(f, m), step) == PartOf(Next(env, f, step), m)
    else PartOf(Next(env, f, step), m) == PartOf(f, m)
  }

  lemma IdentityUpdateIsLocal(identities: map<Uuid, Identity>, a: Uuid, i: Identity, m: MachineId)
    requires a in identities ==> identities[a].machine == i.machine
    ensures IdentitiesOf(identities[a := i], m) ==
            if i.machine == m then IdentitiesOf(identities, m)[a := i] else IdentitiesOf(identities, m)
  {
  }

  lemma EnrollIsLocal(env: Env, f: Fleet, machine: MachineId, agent: Uuid, hash: seq<Byte>, now: Time, m: MachineId)
    requires Enabled(env, f, Enroll(machine, agent, hash, now))
    ensures StepIsLocal(env, f, Enroll(machine, agent, hash, now), m)
  {
    IdentityUpdateIsLocal(f.identities, agent, Identity(machine, agent, hash, false), m);
  }

  lemma RevokeIsLocal(env: Env, f: Fleet, agent: Uuid, m: MachineId)
    requires Enabled(env, f, Revoke(agent))
    ensures StepIsLocal(env, f, Revoke(agent), m)
  {
    IdentityUpdateIsLocal(f.identities, agent, f.identities[agent].(revoked := true), m);
  }

  lemma MessageIsLocal(env: Env, f: Fleet, step: Step, m: MachineId)
    requires Enabled(env, f, step) && (step.Connect? || step.Receive?)
    ensures StepIsLocal(env, f, step, m)
  {
  }

  // A lookup that ends in a session on `m` found an identity of `m`.
  lemma LookupIsLocal(env: Env, f: Fleet, h: Sid, fault: bool, m: MachineId)
    requires Enabled(env, f, Lookup(h, fault)) && Bound(Next(env, f, Lookup(h, fault)), h, m)
    ensures StepIsLocal(env, f, Lookup(h, fault), m)
  {
    var c := f.handlers[h].credentials;
    assert LookupReply(env, f.identities, c, fault).None?;
    assert Authenticate(env, f.identities, c).value.machine == m;
    assert Authenticate(env, IdentitiesOf(f.identities, m), c) == Authenticate(env, f.identities, c);
  }

  lemma RecordIsLocal(table: T.Table, a: T.Attempt, m: MachineId)
    requires a.sample.machine == m
    ensures SamplesOf(T.Record(table, a), m) == T.Record(SamplesOf(table, m), a)
  {
  }

  // A handler bound to `m` was not refused a session.
  lemma ServeReplyIsLocal(env: Env, f: Fleet, step: Step, m: MachineId)
    requires Enabled(env, f, step) && step.Serve? && Bound(f, step.h, m) && Bound(Next(env, f, step), step.h, m)
    ensures Enabled(env, PartOf(f, m), step)
    ensures ReplyOf(PartOf(f, m), step.h, step.fault, step.at) == ReplyOf(f, step.h, step.fault, step.at)
  {
    if f.handlers[step.h].Opening? {
      assert StartReply(f.machines.Keys, f.granted[step.h], step.fault, step.at).Opened?;
      assert StartReply(MachineOf(f.machines, m).Keys, f.granted[step.h], step.fault, step.at).Opened?;
    }
  }

  lemma ServeMachinesAreLocal(f: Fleet, h: Sid, fault: bool, at: Readings, m: MachineId)
    requires CallIsPending(f, h) && Bound(f, h, m)
    ensures MachinesAfter(PartOf(f, m), h, fault, at) == MachineOf(MachinesAfter(f, h, fault, at), m)
  {
  }

  lemma ServeSamplesAreLocal(f: Fleet, step: Step, m: MachineId)
    requires step.Serve? && CallIsPending(f, step.h) && Bound(f, step.h, m) && SessionIsIssued(f, step.h)
    ensures SamplesAfter(PartOf(f, m), step) == SamplesOf(SamplesAfter(f, step), m)
  {
    if AttemptBy(f, step).Some? {
      RecordIsLocal(f.samples, AttemptBy(f, step).value, m);
    }
  }

  lemma ServeIsLocal(env: Env, f: Fleet, step: Step, m: MachineId)
    requires Enabled(env, f, step) && step.Serve? && SessionIsIssued(f, step.h)
    requires Bound(f, step.h, m) && Bound(Next(env, f, step), step.h, m)
    ensures StepIsLocal(env, f, step, m)
  {
    ServeReplyIsLocal(env, f, step, m);
    ServeMachinesAreLocal(f, step.h, step.fault, step.at, m);
    ServeSamplesAreLocal(f, step, m);
  }

  lemma EveryStepIsLocal(env: Env, f: Fleet, step: Step, m: MachineId)
    requires Inv(f) && Enabled(env, f, step) && AllBound(f, m) && AllBound(Next(env, f, step), m)
    ensures StepIsLocal(env, f, step, m)
  {
    match step
    case Enroll(machine, agent, hash, now) => EnrollIsLocal(env, f, machine, agent, hash, now, m);
    case Revoke(agent) => RevokeIsLocal(env, f, agent, m);
    case Lookup(h, fault) => LookupIsLocal(env, f, h, fault, m);
    case Serve(h, _, _) =>
      assert SessionIsIssued(f, h);
      ServeIsLocal(env, f, step, m);
    case _ => MessageIsLocal(env, f, step, m);
  }

  /* ---- Runs ---- */

  lemma {:induction false} RunIsLocal(env: Env, steps: seq<Step>, m: MachineId)
    requires Valid(env, steps) && AllBound(Exec(env, steps), m)
    ensures Valid(env, Concerning(env, steps, m))
    ensures Exec(env, Concerning(env, steps, m)) == PartOf(Exec(env, steps), m)
  {
    if steps != [] {
      var f, step := Exec(env, Front(steps)), Last(steps);
      var kept := Concerning(env, Front(steps), m);
      ExecKeepsInv(env, Front(steps));
      AllBoundBefore(env, f, step, m);
      RunIsLocal(env, Front(steps), m);
      EveryStepIsLocal(env, f, step, m);
      if Concerns(f, step, m) {
        assert Front(Concerning(env, steps, m)) == kept;
      } else {
        assert Concerning(env, steps, m) == kept;
      }
    }
  }

  lemma OtherStepConnectsNobodyErased(env: Env, f: Fleet, step: Step, handlers: set<Sid>, h: Sid)
    requires h in handlers && !ActsFor(step, handlers) && Enabled(env, f, step) && h !in f.handlers
    ensures h !in Next(env, f, step).handlers
  {
  }

  lemma {:induction false} ErasedHandlersNeverConnect(env: Env, steps: seq<Step>, handlers: set<Sid>, h: Sid)
    requires h in handlers
    ensures h !in Exec(env, Without(steps, handlers)).handlers
  {
    if steps != [] {
      ErasedHandlersNeverConnect(env, Front(steps), handlers, h);
      var kept := Without(Front(steps), handlers);
      if ActsFor(Last(steps), handlers) {
        assert Without(steps, handlers) == kept;
      } else {
        assert Front(Without(steps, handlers)) == kept;
        if Enabled(env, Exec(env, kept), Last(steps)) {
          OtherStepConnectsNobodyErased(env, Exec(env, kept), Last(steps), handlers, h);
        }
      }
    }
  }

  function NotOn(f: Fleet, m: MachineId): set<Sid> {
    set h | h in f.handlers && !IsOn(f.handlers[h], m)
  }

  // The steps of the handlers with a session on `m`, its enrollment, and revocations of its identity.
  ghost function Projection(env: Env, steps: seq<Step>, m: MachineId): seq<Step> {
    Concerning(env, Without(steps, NotOn(Exec(env, steps), m)), m)
  }

  lemma ErasedRunIsValid(env: Env, steps: seq<Step>, handlers: set<Sid>, m: MachineId)
    requires Valid(env, steps) && handlers == NotOn(Exec(env, steps), m)
    ensures Valid(env, Without(steps, handlers))
  {
    ErasingForeignHandlersStaysAlike(env, steps, handlers, m);
  }

  lemma RemainingHandlers(env: Env, steps: seq<Step>, m: MachineId, h: Sid)
    requires Valid(env, steps)
    ensures var f, e := Exec(env, steps), Exec(env, Without(steps, NotOn(Exec(env, steps), m)));
            && (h in e.handlers <==> h in f.handlers && IsOn(f.handlers[h], m))
            && (h in e.handlers ==> e.handlers[h] == f.handlers[h])
  {
    var others := NotOn(Exec(env, steps), m);
    ErasingForeignHandlersStaysAlike(env, steps, others, m);
    if h in others { ErasedHandlersNeverConnect(env, steps, others, h); }
  }

  lemma RemainingRows(env: Env, steps: seq<Step>, m: MachineId)
    requires Valid(env, steps)
    ensures var f, e := Exec(env, steps), Exec(env, Without(steps, NotOn(Exec(env, steps), m)));
            && MachineOf(e.machines, m) == MachineOf(f.machines, m)
            && SamplesOf(e.samples, m) == SamplesOf(f.samples, m)
            && e.identities == f.identities
  {
    ErasingForeignHandlersStaysAlike(env, steps, NotOn(Exec(env, steps), m), m);
  }

  lemma RemainingHandlersAreBound(env: Env, steps: seq<Step>, m: MachineId)
    requires Valid(env, steps)
    ensures AllBound(Exec(env, Without(steps, NotOn(Exec(env, steps), m))), m)
  {
    var others := NotOn(Exec(env, steps), m);
    var e := Exec(env, Without(steps, others));
    forall h | h in e.handlers ensures Bound(e, h, m) {
      RemainingHandlers(env, steps, m, h);
      FleetTheorems.SessionsAreGranted(env, Without(steps, others), h);
    }
  }

  lemma RemainingHandlersAreThoseOnIt(env: Env, steps: seq<Step>, m: MachineId)
    requires Valid(env, steps)
    ensures var f := Exec(env, steps);
            Exec(env, Without(steps, NotOn(f, m))).handlers == map h | h in f.handlers && IsOn(f.handlers[h], m) :: f.handlers[h]
  {
    var f := Exec(env, steps);
    var e := Exec(env, Without(steps, NotOn(f, m)));
    forall h
      ensures (h in e.handlers <==> h in f.handlers && IsOn(f.handlers[h], m)) && (h in e.handlers ==> e.handlers[h] == f.handlers[h])
    {
      RemainingHandlers(env, steps, m, h);
    }
  }

  // A machine's row, events, tokens, samples and identity, and the handlers on it, are those of a
  // run in which nothing but its own steps occurs.
  lemma ProjectionIsARun(env: Env, steps: seq<Step>, m: MachineId)
    requires Valid(env, steps)
    ensures Valid(env, Projection(env, steps, m))
    ensures var f, g := Exec(env, steps), Exec(env, Projection(env, steps, m));
            && g.machines == MachineOf(f.machines, m)
            && g.samples == SamplesOf(f.samples, m)
            && g.identities == IdentitiesOf(f.identities, m)
            && g.handlers == map h | h in f.handlers && IsOn(f.handlers[h], m) :: f.handlers[h]
  {
    var others := NotOn(Exec(env, steps), m);
    RemainingRows(env, steps, m);
    RemainingHandlersAreThoseOnIt(env, steps, m);
    RemainingHandlersAreBound(env, steps, m);
    ErasedRunIsValid(env, steps, others, m);
    RunIsLocal(env, Without(steps, others), m);
  }
}
