/** The three services between the handlers and the stores. */
module Services {
  import opened Basics
  import opened Text
  import opened Presence
  import opened Base64Url
  import opened Credentials
  import opened EnrollmentInput
  import T = Telemetry
  import Stream
  import opened Database

  /* ---- presence/service.go ---- */

  class PresenceService {
    const store: PresenceStore
    const env: Env

    constructor (store: PresenceStore, env: Env)
      ensures this.store == store && this.env == env
    {
      this.store, this.env := store, env;
    }

    // The answer of Stream.OpenReplyOf, and the Start of Presence when it is a session.
    method OpenSession(c: Credentials, at: Readings, findFault: Fault, startFault: Fault,
                       ghost sid: Sid, ghost issued: map<Sid, Time>)
      returns (r: Stream.OpenReply)
      requires store.pool.Valid()
      modifies store.pool`machines, store.pool`events, store.pool`nextEvent
      ensures store.pool.Valid() && store.pool.machines.Keys == old(store.pool.machines).Keys
      ensures var found := Authenticate(env, store.pool.identities, c);
              r == Stream.OpenReplyOf(env, store.pool.identities, store.pool.machines.Keys, c, findFault == AtStatement,
                                      found.Some? && StartFails(startFault, old(store.pool.machines), found.value.machine), at)
      // The same without a name for the specification: who is refused, and what counts as a failure.
      ensures var pool := store.pool;
              var parsed := env.uuid(c.agentId).Some? && TrimSpace(c.secret) != "";
              var a := if parsed then env.uuid(c.agentId).value else "";
              var known := a in pool.identities && !pool.identities[a].revoked && pool.identities[a].hash == env.sha256(c.secret);
              && (r == Stream.Rejected <==> !parsed || (findFault != AtStatement && !known))
              && (r.Opened? <==>
                    && parsed && findFault != AtStatement && known && pool.identities[a].machine in pool.machines
                    && (startFault == NoFault ||
                        (startFault == AtInsert && old(pool.machines)[pool.identities[a].machine].status == Online)))
              && (r.Opened? ==> r.session == Stream.Session(pool.identities[a].machine, pool.identities[a].agent, at.connected))
      ensures !r.Opened? ==> store.pool.machines == old(store.pool.machines) && store.pool.events == old(store.pool.events)
      ensures r.Opened? ==>
                store.pool.View(r.session.machine, issued[sid := at.connected]) ==
                Apply(old(store.pool.View(r.session.machine, issued)), Start(sid, at))
      ensures r.Opened? ==>
                forall m, held :: m in store.pool.machines && m != r.session.machine ==>
                  store.pool.View(m, held) == old(store.pool.View(m, held))
    {
      if env.uuid(c.agentId).None? { return Stream.Rejected; }
      if TrimSpace(c.secret) == "" { return Stream.Rejected; }
      var found := store.FindActiveIdentity(env.uuid(c.agentId).value, findFault);
      if found.Err? { return Stream.OpenFailed; }
      if found.value.None? { return Stream.Rejected; }
      var identity := found.value.value;
      if env.sha256(c.secret) != identity.hash { return Stream.Rejected; }
      var started := store.StartSession(identity.machine, at, startFault, sid, issued);
      if started.Err? { return Stream.OpenFailed; }
      return Stream.Opened(Stream.Session(identity.machine, identity.agent, started.value));
    }

    method RecordActivity(session: Stream.Session, at: Readings, fault: Fault, ghost issued: map<Sid, Time>)
      returns (r: Result<(), ()>)
      modifies store.pool`machines
      ensures r.Ok? <==> fault == NoFault
      ensures store.pool.machines.Keys == old(store.pool.machines).Keys
      ensures r.Err? ==> store.pool.machines == old(store.pool.machines)
      ensures r.Ok? && session.machine in store.pool.machines ==>
                store.pool.View(session.machine, issued) ==
                TouchWith(old(store.pool.View(session.machine, issued)), session.connectedAt, at)
      ensures forall m, held :: m in store.pool.machines && m != session.machine ==>
                store.pool.View(m, held) == old(store.pool.View(m, held))
    {
      r := store.TouchSession(session.machine, session.connectedAt, at, fault, issued);
    }

    method CloseSession(session: Stream.Session, at: Readings, fault: Fault, ghost issued: map<Sid, Time>)
      returns (r: Result<(), ()>)
      requires store.pool.Valid()
      modifies store.pool`machines, store.pool`events, store.pool`nextEvent
      ensures store.pool.Valid() && store.pool.machines.Keys == old(store.pool.machines).Keys
      ensures r.Ok? <==> fault == NoFault || (fault == AtInsert &&
                           (session.machine !in old(store.pool.machines) ||
                            !EndMatches(old(store.pool.machines[session.machine]), session.connectedAt)))
      ensures r.Err? ==> store.pool.machines == old(store.pool.machines) && store.pool.events == old(store.pool.events)
      ensures r.Ok? && session.machine in store.pool.machines ==>
                store.pool.View(session.machine, issued) ==
                EndWith(old(store.pool.View(session.machine, issued)), session.connectedAt, at)
      ensures r.Ok? ==>
                forall m, held :: m in store.pool.machines && m != session.machine ==>
                  store.pool.View(m, held) == old(store.pool.View(m, held))
    {
      r := store.EndSession(session.machine, session.connectedAt, at, fault, issued);
    }
  }

  /* ---- telemetry/service.go ---- */

  class TelemetryService {
    const store: TelemetryStore

    constructor (store: TelemetryStore)
      ensures this.store == store
    {
      this.store := store;
    }

    // A valid sample of a known machine is stored unless the database fails: no CHECK rejects it.
    method Record(sample: T.Sample, now: Time, fault: Fault) returns (r: Stream.RecordReply)
      modifies store.pool`samples
      ensures r.Invalid? <==> !T.ValidSample(sample)
      ensures r.Recorded? <==> T.ValidSample(sample) && fault == NoFault && sample.machine in store.pool.machines
      ensures store.pool.samples ==
              T.Record(old(store.pool.samples), T.Attempt(sample, now, fault != NoFault || sample.machine !in store.pool.machines))
    {
      T.ValidationAgreesWithChecks(sample);
      if TrimSpace(sample.machine) == "" { return Stream.Invalid; }
      if sample.collectedAt == T.ZERO_TIME { return Stream.Invalid; }
      if !sample.cpu.Finite? || sample.cpu.value < 0.0 || sample.cpu.value > 100.0 { return Stream.Invalid; }
      if sample.memoryTotal < 0 { return Stream.Invalid; }
      if sample.memoryUsed < 0 || sample.memoryUsed > sample.memoryTotal { return Stream.Invalid; }
      if sample.diskTotal < 0 { return Stream.Invalid; }
      if sample.diskUsed < 0 || sample.diskUsed > sample.diskTotal { return Stream.Invalid; }
      if sample.uptime < 0 { return Stream.Invalid; }
      var stored := store.Record(sample, now, fault);
      return if stored.Ok? then Stream.Recorded else Stream.RecordFailed;
    }
  }

  /* ---- enrollment/service.go ---- */

  datatype EnrollError = InvalidInput | RandomFailed | EnrollFailed

  datatype Enrolled = Enrolled(machine: MachineId, agent: Uuid, secret: string)

  // io.ReadFull fills the buffer or fails; None is a failing reader.
  method RandomCredential(random: Option<seq<Byte>>) returns (r: Option<string>)
    requires random.Some? ==> |random.value| == 32
    ensures r.Some? <==> random.Some?
    ensures r.Some? ==> |r.value| == 43 && Decode(r.value) == Some(random.value) && TrimSpace(r.value) == r.value != ""
  {
    if random.None? { return None; }
    SecretShape(random.value);
    DecodeEncode(random.value);
    return Some(Encode(random.value));
  }

  class EnrollmentService {
    const store: EnrollmentStore
    const env: Env

    constructor (store: EnrollmentStore, env: Env)
      ensures this.store == store && this.env == env
    {
      this.store, this.env := store, env;
    }

    // With fresh ids and a working database, enrollment succeeds exactly for valid input without
    // NUL characters; and what it returns authenticates at once, as the machine it returns.
    method Enroll(input: Input, random: Option<seq<Byte>>, machine: MachineId, agent: Uuid, now: Time, fault: Fault)
      returns (r: Result<Enrolled, EnrollError>)
      requires random.Some? ==> |random.value| == 32
      modifies store.pool`machines, store.pool`details, store.pool`identities
      ensures r == Err(InvalidInput) <==> Validated(input).None?
      ensures r == Err(RandomFailed) <==> Validated(input).Some? && random.None?
      ensures (machine !in old(store.pool.machines) && agent !in old(store.pool.identities) && fault == NoFault &&
               forall a :: a in old(store.pool.identities) ==> old(store.pool.identities)[a].machine in old(store.pool.machines)) ==>
                (r.Ok? <==> Validated(input).Some? && random.Some? && FreeOfNul(Validated(input).value))
      ensures r.Err? ==> store.pool.machines == old(store.pool.machines) && store.pool.identities == old(store.pool.identities)
      ensures store.pool.details ==
              if r.Ok? then old(store.pool.details)[machine := Validated(input).value] else old(store.pool.details)
      ensures r.Ok? ==>
                && r.value.machine == machine && r.value.agent == agent
                && random.Some? && |r.value.secret| == 43 && Decode(r.value.secret) == random
                && store.pool.machines == old(store.pool.machines)[machine := NewRow(now)]
                && store.pool.identities == old(store.pool.identities)[agent := Identity(machine, agent, env.sha256(r.value.secret), false)]
                && forall id :: env.uuid(id) == Some(agent) ==>
                     Authenticate(env, store.pool.identities, Credentials(id, r.value.secret)) ==
                     Some(store.pool.identities[agent])
    {
      var validated := ValidateInput(input);
      if validated.None? { return Err(InvalidInput); }
      var secret := RandomCredential(random);
      if secret.None? { return Err(RandomFailed); }
      AcceptedInputPassesChecks(input);
      var ids := store.Enroll(validated.value, env.sha256(secret.value), machine, agent, now, fault);
      if ids.Err? { return Err(EnrollFailed); }
      return Ok(Enrolled(ids.value.0, ids.value.1, secret.value));
    }
  }
}
