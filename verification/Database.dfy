/**
 The PostgreSQL tables, and the three stores that run one call at a time on them.  Each store call
 is given the clock readings of its statement and the interaction at which the database fails, if
 any; a failing call rolls back.
 */
module Database {
  import opened Basics
  import opened Text
  import opened Presence
  import opened EventTable
  import opened Base64Url
  import opened Credentials
  import opened EnrollmentInput
  import T = Telemetry

  datatype Fault = NoFault | AtBegin | AtStatement | AtInsert | AtCommit

  class Tables {
    var machines: map<MachineId, Row>
    var details: map<MachineId, Input>  // the text columns, and the capabilities of the machine's identity
    var identities: map<Uuid, Identity>
    var events: map<EventId, Event>
    var nextEvent: EventId
    var samples: T.Table

    constructor ()
      ensures machines == map[] && details == map[] && identities == map[] && events == map[] && nextEvent == 0 && samples == map[]
    {
      machines, details, identities, events, nextEvent, samples := map[], map[], map[], map[], 0, map[];
    }

    // Identity columns never repeat a value.
    ghost predicate Valid()
      reads this
    {
      forall id :: id in events ==> id < nextEvent
    }

    // One machine as Presence sees it, given the tokens its sessions hold.
    ghost function View(machine: MachineId, issued: map<Sid, Time>): Machine
      requires machine in machines
      reads this
    {
      Machine(machines[machine], LogBelow(events, machine, nextEvent), issued)
    }

    method InsertEvent(machine: MachineId, status: Status)
      requires Valid() && machine in machines
      modifies this`events, this`nextEvent
      ensures Valid() && nextEvent == old(nextEvent) + 1
      ensures events == old(events)[old(nextEvent) := Event(machine, status)]
      ensures LogBelow(events, machine, nextEvent) == LogBelow(old(events), machine, old(nextEvent)) + [status]
      ensures forall m :: m != machine ==> LogBelow(events, m, nextEvent) == LogBelow(old(events), m, old(nextEvent))
    {
      ghost var was, n := events, nextEvent;
      events := events[nextEvent := Event(machine, status)];
      nextEvent := nextEvent + 1;
      LogBelowSkips(was, machine, n, n + 1);
      InsertAppends(was, n, Event(machine, status), n + 1);
      forall m | m != machine ensures LogBelow(events, m, nextEvent) == LogBelow(was, m, n) {
        LogBelowSkips(was, m, n, n + 1);
        LogBelowFrame(was, n, Event(machine, status), m, n + 1);
      }
    }

    // Undoes what the transaction wrote; drawn event ids stay drawn.
    method Rollback(machines: map<MachineId, Row>, events: map<EventId, Event>)
      requires forall id :: id in events ==> id < nextEvent
      modifies this`machines, this`events
      ensures this.machines == machines && this.events == events && Valid()
    {
      this.machines, this.events := machines, events;
    }
  }

  /* ---- presence_store.go ---- */

  // A takeover of a live session inserts no event, so its insertion cannot fail.
  predicate StartFails(fault: Fault, machines: map<MachineId, Row>, machine: MachineId) {
    fault != NoFault && !(fault == AtInsert && machine in machines && machines[machine].status == Online)
  }

  class PresenceStore {
    const pool: Tables

    constructor (pool: Tables)
      ensures this.pool == pool
    {
      this.pool := pool;
    }

    method FindActiveIdentity(agent: Uuid, fault: Fault) returns (r: Result<Option<Identity>, ()>)
      ensures r == if fault == AtStatement then Err(()) else Ok(FindActive(pool.identities, agent))
      ensures r.Err? <==> fault == AtStatement
      ensures r.Ok? ==> (r.value.Some? <==> agent in pool.identities && !pool.identities[agent].revoked)
      ensures r.Ok? && r.value.Some? ==> r.value.value == pool.identities[agent]
    {
      if fault == AtStatement { return Err(()); }
      r := Ok(if agent in pool.identities && !pool.identities[agent].revoked then Some(pool.identities[agent]) else None);
    }

    // The new session's token, and the Start of Presence; an error leaves the tables as they were.
    method StartSession(machine: MachineId, at: Readings, fault: Fault, ghost sid: Sid, ghost issued: map<Sid, Time>)
      returns (r: Result<Time, ()>)
      requires pool.Valid()
      modifies pool`machines, pool`events, pool`nextEvent
      ensures pool.Valid()
      ensures r.Ok? <==> machine in old(pool.machines) &&
                         (fault == NoFault || (fault == AtInsert && old(pool.machines[machine].status) == Online))
      ensures r.Err? ==> pool.machines == old(pool.machines) && pool.events == old(pool.events)
      ensures r.Ok? ==>
                && r.value == at.connected && pool.machines.Keys == old(pool.machines).Keys
                && pool.View(machine, issued[sid := r.value]) == Apply(old(pool.View(machine, issued)), Start(sid, at))
                && forall m, held :: m in pool.machines && m != machine ==> pool.View(m, held) == old(pool.View(m, held))
    {
      if fault == AtBegin { return Err(()); }
      var machines, events := pool.machines, pool.events;
      if fault == AtStatement || machine !in pool.machines { return Err(()); }
      var previous := pool.machines[machine].status;
      pool.machines := pool.machines[machine :=
          pool.machines[machine].(status := Online, connected := Some(at.connected), seen := Some(at.seen), updated := at.updated)];
      if previous != Online {
        if fault == AtInsert {
          pool.Rollback(machines, events);
          return Err(());
        }
        pool.InsertEvent(machine, Online);
      }
      if fault == AtCommit {
        pool.Rollback(machines, events);
        return Err(());
      }
      return Ok(at.connected);
    }

    method TouchSession(machine: MachineId, token: Time, at: Readings, fault: Fault, ghost issued: map<Sid, Time>)
      returns (r: Result<(), ()>)
      modifies pool`machines
      ensures r.Ok? <==> fault == NoFault
      ensures pool.machines.Keys == old(pool.machines).Keys
      ensures r.Err? ==> pool.machines == old(pool.machines)
      ensures r.Ok? && machine in pool.machines ==>
                pool.View(machine, issued) == TouchWith(old(pool.View(machine, issued)), token, at)
      ensures forall m, held :: m in pool.machines && m != machine ==> pool.View(m, held) == old(pool.View(m, held))
    {
      if fault != NoFault { return Err(()); }
      if machine in pool.machines && pool.machines[machine].connected == Some(token) {
        pool.machines := pool.machines[machine := pool.machines[machine].(seen := Some(at.seen), updated := at.updated)];
      }
      return Ok(());
    }

    // No matching row is not an error.
    method EndSession(machine: MachineId, token: Time, at: Readings, fault: Fault, ghost issued: map<Sid, Time>)
      returns (r: Result<(), ()>)
      requires pool.Valid()
      modifies pool`machines, pool`events, pool`nextEvent
      ensures pool.Valid() && pool.machines.Keys == old(pool.machines).Keys
      ensures r.Ok? <==> fault == NoFault || (fault == AtInsert &&
                           (machine !in old(pool.machines) || !EndMatches(old(pool.machines[machine]), token)))
      ensures r.Err? ==> pool.machines == old(pool.machines) && pool.events == old(pool.events)
      ensures r.Ok? && machine in pool.machines ==>
                pool.View(machine, issued) == EndWith(old(pool.View(machine, issued)), token, at)
      ensures r.Ok? ==>
                forall m, held :: m in pool.machines && m != machine ==> pool.View(m, held) == old(pool.View(m, held))
    {
      if fault == AtBegin { return Err(()); }
      var machines, events := pool.machines, pool.events;
      if fault == AtStatement { return Err(()); }
      if machine !in pool.machines || pool.machines[machine].connected != Some(token) || pool.machines[machine].status != Online {
        if fault == AtCommit { return Err(()); }
        return Ok(());
      }
      pool.machines := pool.machines[machine :=
          pool.machines[machine].(status := Offline, disconnected := Some(at.disconnected), updated := at.updated)];
      if fault == AtInsert {
        pool.Rollback(machines, events);
        return Err(());
      }
      pool.InsertEvent(machine, Offline);
      if fault == AtCommit {
        pool.Rollback(machines, events);
        return Err(());
      }
      return Ok(());
    }
  }

  /* ---- telemetry_store.go ---- */

  class TelemetryStore {
    const pool: Tables

    constructor (pool: Tables)
      ensures this.pool == pool
    {
      this.pool := pool;
    }

    // The CHECK constraints decide which samples the statement accepts.
    method Record(sample: T.Sample, now: Time, fault: Fault) returns (r: Result<(), ()>)
      modifies pool`samples
      ensures r.Ok? <==> fault == NoFault && sample.machine in pool.machines && T.Storable(sample)
      ensures pool.samples == if r.Ok? then T.Upsert(old(pool.samples), sample, now) else old(pool.samples)
    {
      if fault != NoFault || sample.machine !in pool.machines { return Err(()); }
      var columns := T.Columns(sample, now);
      if columns.None? || !T.Checks(columns.value) { return Err(()); }
      var key := T.KeyOf(sample);
      if key in pool.samples {
        var row := pool.samples[key];
        pool.samples := pool.samples[key :=
            row.(receivedAt := now, cpu := columns.value.cpu, memoryTotal := sample.memoryTotal, memoryUsed := sample.memoryUsed,
                 diskTotal := sample.diskTotal, diskUsed := sample.diskUsed, uptime := sample.uptime)];
      } else {
        pool.samples := pool.samples[key := columns.value];
      }
      return Ok(());
    }
  }

  /* ---- enrollment_store.go ---- */

  // The CHECKs on the text columns of machines.
  predicate MachineChecks(input: Input) {
    && 1 <= |SqlTrim(input.hostname)| <= 255
    && |SqlTrim(input.operatingSystem)| > 0 && |SqlTrim(input.osVersion)| > 0
    && |SqlTrim(input.architecture)| > 0 && |SqlTrim(input.agentVersion)| > 0
  }

  // TEXT and JSONB cannot hold the NUL character.
  predicate NoNul(s: string) {
    '\0' !in s
  }

  predicate FreeOfNul(input: Input) {
    && NoNul(input.hostname) && NoNul(input.operatingSystem) && NoNul(input.osVersion)
    && NoNul(input.architecture) && NoNul(input.agentVersion)
    && forall c :: c in input.capabilities ==> NoNul(c)
  }

  // What the tables take: the five fields hold something besides spaces, the host name at most 255
  // characters of it, and no text holds the character with code 0.
  lemma StorableTextIsExact(input: Input)
    ensures MachineChecks(input) && FreeOfNul(input) <==>
            && SqlTrim(input.hostname) != "" && SqlTrim(input.operatingSystem) != "" && SqlTrim(input.osVersion) != ""
            && SqlTrim(input.architecture) != "" && SqlTrim(input.agentVersion) != ""
            && |SqlTrim(input.hostname)| <= 255
            && HoldsNoZero([input.hostname, input.operatingSystem, input.osVersion, input.architecture, input.agentVersion])
            && HoldsNoZero(input.capabilities)
  {
    var fields := [input.hostname, input.operatingSystem, input.osVersion, input.architecture, input.agentVersion];
    NoZeroIsNoNul(fields);
    NoZeroIsNoNul(input.capabilities);
    assert fields[0] == input.hostname && fields[1] == input.operatingSystem && fields[2] == input.osVersion &&
           fields[3] == input.architecture && fields[4] == input.agentVersion;
  }

  predicate HoldsNoZero(texts: seq<string>) {
    forall i, k :: 0 <= i < |texts| && 0 <= k < |texts[i]| ==> texts[i][k] as int != 0
  }

  lemma NoZeroIsNoNul(texts: seq<string>)
    ensures HoldsNoZero(texts) <==> forall i :: 0 <= i < |texts| ==> NoNul(texts[i])
  {
    if exists i :: 0 <= i < |texts| && !NoNul(texts[i]) {
      var i :| 0 <= i < |texts| && !NoNul(texts[i]);
      var k :| 0 <= k < |texts[i]| && texts[i][k] == '\0';
      assert texts[i][k] as int == 0;
    }
  }

  // Bytes bound characters, and trimmed text has no spaces left to trim.
  lemma AcceptedInputPassesChecks(input: Input)
    requires Validated(input).Some?
    ensures MachineChecks(Validated(input).value)
  {
    AcceptedInputIsNormal(input);
    NormalPassesCheck(Validated(input).value.hostname);
    NormalPassesCheck(Validated(input).value.operatingSystem);
    NormalPassesCheck(Validated(input).value.osVersion);
    NormalPassesCheck(Validated(input).value.architecture);
    NormalPassesCheck(Validated(input).value.agentVersion);
  }

  // The service's validation does not look for NUL, so what it accepts can be unstorable.
  lemma AcceptedInputCanHoldNul()
    ensures var input := Input("a\0b", "x", "x", "x", "x", []);
            Validated(input) == Some(input) && MachineChecks(input) && !FreeOfNul(input)
  {
    var input := Input("a\0b", "x", "x", "x", "x", []);
    Text.NothingToTrim(input.hostname, UnicodeSpace);
    Text.NothingToTrim("x", UnicodeSpace);
    assert input.hostname[1] == '\0';
    assert Validated(input) == Some(input);
    AcceptedInputPassesChecks(input);
  }

  lemma NormalPassesCheck(value: string)
    requires Normal(value, 255)
    ensures 1 <= |SqlTrim(value)| <= 255
  {
    TrimmedIsFixed(value);
  }

  class EnrollmentStore {
    const pool: Tables

    constructor (pool: Tables)
      ensures this.pool == pool
    {
      this.pool := pool;
    }

    // INSERT INTO machines: the primary key, the CHECKs and the text type decide.
    method InsertMachine(input: Input, machine: MachineId, now: Time) returns (ok: bool)
      modifies pool`machines, pool`details
      ensures ok <==>
                machine !in old(pool.machines) && MachineChecks(input) && NoNul(input.hostname) && NoNul(input.operatingSystem) &&
                NoNul(input.osVersion) && NoNul(input.architecture) && NoNul(input.agentVersion)
      ensures pool.machines == if ok then old(pool.machines)[machine := NewRow(now)] else old(pool.machines)
      ensures pool.details == if ok then old(pool.details)[machine := input.(capabilities := [])] else old(pool.details)
    {
      ok := machine !in pool.machines && MachineChecks(input) && NoNul(input.hostname) && NoNul(input.operatingSystem) &&
            NoNul(input.osVersion) && NoNul(input.architecture) && NoNul(input.agentVersion);
      if ok {
        pool.machines := pool.machines[machine := NewRow(now)];
        pool.details := pool.details[machine := input.(capabilities := [])];
      }
    }

    // INSERT INTO agent_identities: the agent id is unique, and so is a machine's active identity.
    method InsertIdentity(capabilities: seq<string>, hash: seq<Byte>, machine: MachineId, agent: Uuid) returns (ok: bool)
      requires machine in pool.details
      modifies pool`identities, pool`details
      ensures ok <==>
                && agent !in old(pool.identities)
                && (!exists a :: a in old(pool.identities) && old(pool.identities)[a].machine == machine && !old(pool.identities)[a].revoked)
                && forall c :: c in capabilities ==> NoNul(c)
      ensures pool.identities ==
              if ok then old(pool.identities)[agent := Identity(machine, agent, hash, false)] else old(pool.identities)
      ensures pool.details ==
              if ok then old(pool.details)[machine := old(pool.details[machine]).(capabilities := capabilities)] else old(pool.details)
    {
      var taken := agent in pool.identities ||
                   exists a :: a in pool.identities && pool.identities[a].machine == machine && !pool.identities[a].revoked;
      ok := !taken && forall c :: c in capabilities ==> NoNul(c);
      if ok {
        pool.identities := pool.identities[agent := Identity(machine, agent, hash, false)];
        pool.details := pool.details[machine := pool.details[machine].(capabilities := capabilities)];
      }
    }

    // Both rows or neither.  `machine` and `agent` are what gen_random_uuid() returned.
    method Enroll(input: Input, hash: seq<Byte>, machine: MachineId, agent: Uuid, now: Time, fault: Fault)
      returns (r: Result<(MachineId, Uuid), ()>)
      modifies pool`machines, pool`details, pool`identities
      ensures r.Ok? <==> fault == NoFault && MachineChecks(input) && FreeOfNul(input) && machine !in old(pool.machines) &&
                         agent !in old(pool.identities) &&
                         !exists a :: a in old(pool.identities) && old(pool.identities)[a].machine == machine && !old(pool.identities)[a].revoked
      ensures r.Ok? ==>
                && r.value == (machine, agent)
                && pool.machines == old(pool.machines)[machine := NewRow(now)]
                && pool.details == old(pool.details)[machine := input]
                && pool.identities == old(pool.identities)[agent := Identity(machine, agent, hash, false)]
      ensures r.Err? ==>
                pool.machines == old(pool.machines) && pool.details == old(pool.details) && pool.identities == old(pool.identities)
    {
      if fault == AtBegin { return Err(()); }
      var machines, details, identities := pool.machines, pool.details, pool.identities;
      if fault == AtStatement { return Err(()); }
      var inserted := InsertMachine(input, machine, now);
      if !inserted { return Err(()); }
      if fault == AtInsert {
        pool.machines, pool.details := machines, details;
        return Err(());
      }
      inserted := InsertIdentity(input.capabilities, hash, machine, agent);
      if !inserted || fault == AtCommit {
        pool.machines, pool.details, pool.identities := machines, details, identities;
        return Err(());
      }
      return Ok((machine, agent));
    }
  }
}
