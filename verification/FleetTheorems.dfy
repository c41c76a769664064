/** What holds in every state the handlers can bring the database to. */
module FleetTheorems {
  import opened Basics
  import opened Text
  import opened Presence
  import PresenceHistory
  import opened Base64Url
  import opened Credentials
  import T = Telemetry
  import opened Stream
  import opened Fleet

  /* ---- Each machine's history is a legal run of its own calls ---- */

  ghost function OpsOn(env: Env, steps: seq<Step>, m: MachineId): seq<Op> {
    if steps == [] then []
    else
      var f := Exec(env, Front(steps));
      var op := if Enabled(env, f, Last(steps)) && m in f.machines then OpBy(f, Last(steps), m) else None;
      OpsOn(env, Front(steps), m) + if op.Some? then [op.value] else []
  }

  ghost predicate IsRunOf(f: Fleet, m: MachineId, ops: seq<Op>) {
    if m in f.machines then
      Legal(NewMachine(f.machines[m].row.registered), ops) && f.machines[m] == Run(NewMachine(f.machines[m].row.registered), ops)
    else ops == []
  }

  lemma StepExtendsRun(env: Env, f: Fleet, step: Step, m: MachineId, ops: seq<Op>)
    requires Inv(f) && Enabled(env, f, step) && IsRunOf(f, m, ops) && m in f.machines
    ensures var op := OpBy(f, step, m); IsRunOf(Next(env, f, step), m, ops + if op.Some? then [op.value] else [])
  {
    StepIsOneCall(env, f, step, m);
    var op := OpBy(f, step, m);
    if op.Some? {
      assert Front(ops + [op.value]) == ops;
    } else {
      assert ops + [] == ops;
    }
  }

  lemma NewMachineIsAnEmptyRun(env: Env, f: Fleet, step: Step, m: MachineId)
    requires Enabled(env, f, step) && m !in f.machines
    ensures IsRunOf(Next(env, f, step), m, [])
  {
    if step.Serve? {
      ServingAddsNoMachine(f, step.h, step.fault, step.at);
    }
  }

  lemma {:induction false} MachineIsARunOfItsCalls(env: Env, steps: seq<Step>, m: MachineId)
    ensures IsRunOf(Exec(env, steps), m, OpsOn(env, steps, m))
  {
    if steps != [] {
      var f, step, before := Exec(env, Front(steps)), Last(steps), OpsOn(env, Front(steps), m);
      MachineIsARunOfItsCalls(env, Front(steps), m);
      ExecKeepsInv(env, Front(steps));
      assert before + [] == before;
      if Enabled(env, f, step) {
        if m in f.machines {
          StepExtendsRun(env, f, step, m, before);
        } else {
          NewMachineIsAnEmptyRun(env, f, step, m);
        }
      }
    }
  }

  // So every property of PresenceHistory holds of every machine of the fleet, this one among them.
  lemma FleetOnlineIffNewestSessionNotEnded(env: Env, steps: seq<Step>, m: MachineId)
    requires m in Exec(env, steps).machines
    ensures Exec(env, steps).machines[m].row.status == Online <==> PresenceHistory.NewestUnended(OpsOn(env, steps, m))
  {
    MachineIsARunOfItsCalls(env, steps, m);
    PresenceHistory.OnlineIffNewestSessionNotEnded(Exec(env, steps).machines[m].row.registered, OpsOn(env, steps, m));
  }

  /* ---- Handlers and their machines ---- */

  // The session whose timestamp is in the row belongs to a handler, and the machine is online
  // exactly while that handler runs or after its CloseSession reported an error.
  lemma OnlineIffOwnerUnclosed(env: Env, steps: seq<Step>, m: MachineId)
    requires m in Exec(env, steps).machines
    ensures var f := Exec(env, steps);
            && (f.machines[m].row.connected.Some? <==> exists h :: Owns(f.machines[m], h))
            && (f.machines[m].row.status == Online ==> exists h :: Owns(f.machines[m], h))
            && forall h :: Owns(f.machines[m], h) ==>
                 && h in f.handlers
                 && (f.machines[m].row.status == Online <==> Unclosed(f.handlers[h]))
  {
    ExecKeepsInv(env, steps);
    var f := Exec(env, steps);
    assert MachineIsServed(f, m);
    MachineIsARunOfItsCalls(env, steps, m);
    RunRefinesRegister(f.machines[m].row.registered, OpsOn(env, steps, m));
    var r := Commands(NewRegister(f.machines[m].row.registered), OpsOn(env, steps, m));
    if r.owner.Some? { assert Owns(f.machines[m], r.owner.value); }
  }

  // TouchSession does not test the status, and no handler makes that matter.
  lemma LastSeenMovesOnlyOnline(env: Env, steps: seq<Step>, step: Step, m: MachineId)
    requires m in Exec(env, steps).machines
    ensures var f, f' := Exec(env, steps), Exec(env, steps + [step]);
            && m in f'.machines
            && (f'.machines[m].row.seen != f.machines[m].row.seen ==> f'.machines[m].row.status == Online)
  {
    var f := Exec(env, steps);
    ExecKeepsInv(env, steps);
    assert Front(steps + [step]) == steps;
    if Enabled(env, f, step) {
      StepIsOneCall(env, f, step, m);
      var op := OpBy(f, step, m);
      if op.Some? && op.value.Touch? {
        assert SessionIsIssued(f, step.h) && MachineIsServed(f, m);
        if TouchMatches(f.machines[m].row, f.machines[m].issued[step.h]) {
          assert Owns(f.machines[m], step.h);
        }
      }
    }
  }

  /* ---- Telemetry ---- */

  ghost function Attempts(env: Env, steps: seq<Step>): seq<T.Attempt> {
    if steps == [] then []
    else
      var f := Exec(env, Front(steps));
      var a := if Enabled(env, f, Last(steps)) then AttemptBy(f, Last(steps)) else None;
      Attempts(env, Front(steps)) + if a.Some? then [a.value] else []
  }

  lemma {:induction false} SamplesAreReplayed(env: Env, steps: seq<Step>)
    ensures Exec(env, steps).samples == T.Replay(map[], Attempts(env, steps))
  {
    if steps != [] {
      SamplesAreReplayed(env, Front(steps));
      var before := Attempts(env, Front(steps));
      var f := Exec(env, Front(steps));
      if Enabled(env, f, Last(steps)) && AttemptBy(f, Last(steps)).Some? {
        assert Front(before + [AttemptBy(f, Last(steps)).value]) == before;
      } else {
        assert before + [] == before;
      }
    }
  }

  // Across all handlers, each key holds the last valid sample whose Record call succeeded.
  lemma TableHoldsLastSampleOfAnyHandler(env: Env, steps: seq<Step>, key: T.Key)
    ensures var table, history := Exec(env, steps).samples, Attempts(env, steps);
            && (key in table <==> exists i :: T.LastSuccess(history, key, i))
            && forall i :: T.LastSuccess(history, key, i) ==>
                 key in table && Some(table[key]) == T.Columns(history[i].sample, history[i].now)
  {
    SamplesAreReplayed(env, steps);
    T.LastWriterWins(Attempts(env, steps), key);
  }

  /* ---- Enrollment and authentication ---- */

  ghost predicate HasIdentity(f: Fleet, m: MachineId) {
    exists a :: a in f.identities && f.identities[a].machine == m
  }

  ghost predicate AgentsMatch(f: Fleet) {
    && (forall a :: a in f.identities ==> f.identities[a].agent == a && f.identities[a].machine in f.machines)
    && (forall a, b :: a in f.identities && b in f.identities && f.identities[a].machine == f.identities[b].machine ==> a == b)
  }

  ghost predicate IdentitiesMatchMachines(f: Fleet) {
    && AgentsMatch(f)
    && (forall m :: m in f.machines ==> HasIdentity(f, m))
  }

  lemma NextKeepsHasIdentity(env: Env, f: Fleet, step: Step, m: MachineId)
    requires Enabled(env, f, step) && m in Next(env, f, step).machines && (m in f.machines ==> HasIdentity(f, m))
    ensures HasIdentity(Next(env, f, step), m)
  {
    var f' := Next(env, f, step);
    if step.Serve? {
      ServingAddsNoMachine(f, step.h, step.fault, step.at);
    }
    if m in f.machines {
      var a :| a in f.identities && f.identities[a].machine == m;
      NextKeepsIdentity(env, f, step, a);
    } else {
      assert f'.identities[step.agent].machine == m;
    }
  }

  lemma OtherStepsKeepIdentities(env: Env, f: Fleet, step: Step)
    requires Enabled(env, f, step) && !step.Enroll? && !step.Revoke?
    ensures Next(env, f, step).identities == f.identities
  {
  }

  lemma NextKeepsAgents(env: Env, f: Fleet, step: Step)
    requires AgentsMatch(f) && Enabled(env, f, step) && f.machines.Keys <= Next(env, f, step).machines.Keys
    ensures AgentsMatch(Next(env, f, step))
  {
    if !step.Enroll? && !step.Revoke? {
      OtherStepsKeepIdentities(env, f, step);
    }
  }

  lemma NextKeepsIdentities(env: Env, f: Fleet, step: Step)
    requires IdentitiesMatchMachines(f) && Enabled(env, f, step)
    ensures IdentitiesMatchMachines(Next(env, f, step))
  {
    var f' := Next(env, f, step);
    NextKeepsMachines(env, f, step);
    NextKeepsAgents(env, f, step);
    forall m | m in f'.machines ensures HasIdentity(f', m) {
      NextKeepsHasIdentity(env, f, step, m);
    }
  }

  // Every machine has exactly one identity, which is active unless it was revoked; agent ids are
  // the keys of the table.
  lemma {:induction false} OneIdentityPerMachine(env: Env, steps: seq<Step>)
    ensures IdentitiesMatchMachines(Exec(env, steps))
  {
    if steps != [] {
      OneIdentityPerMachine(env, Front(steps));
      if Enabled(env, Exec(env, Front(steps)), Last(steps)) {
        NextKeepsIdentities(env, Exec(env, Front(steps)), Last(steps));
      }
    }
  }

  lemma NextKeepsIdentity(env: Env, f: Fleet, step: Step, agent: Uuid)
    requires Enabled(env, f, step) && agent in f.identities
    ensures var f' := Next(env, f, step);
            agent in f'.identities && f'.identities[agent].(revoked := false) == f.identities[agent].(revoked := false)
  {
  }

  lemma NextKeepsMachines(env: Env, f: Fleet, step: Step)
    requires Enabled(env, f, step)
    ensures f.machines.Keys <= Next(env, f, step).machines.Keys
  {
    if step.Serve? {
      ServingAddsNoMachine(f, step.h, step.fault, step.at);
    }
  }

  lemma {:induction false} IdentityPersists(env: Env, before: seq<Step>, after: seq<Step>, agent: Uuid)
    requires agent in Exec(env, before).identities
    ensures var f, f' := Exec(env, before), Exec(env, before + after);
            && agent in f'.identities && f.machines.Keys <= f'.machines.Keys
            && f'.identities[agent].(revoked := false) == f.identities[agent].(revoked := false)
  {
    if after == [] {
      assert before + after == before;
    } else {
      IdentityPersists(env, before, Front(after), agent);
      assert Front(before + after) == before + Front(after) && Last(before + after) == Last(after);
      var f := Exec(env, before + Front(after));
      assert Exec(env, before + after) == Take(env, f, Last(after));
      if Enabled(env, f, Last(after)) {
        NextKeepsIdentity(env, f, Last(after), agent);
        NextKeepsMachines(env, f, Last(after));
      }
    }
  }

  lemma NextKeepsRevoked(env: Env, f: Fleet, step: Step, agent: Uuid)
    requires Enabled(env, f, step) && agent in f.identities && f.identities[agent].revoked
    ensures agent in Next(env, f, step).identities && Next(env, f, step).identities[agent].revoked
  {
  }

  // Once an identity is revoked no lookup finds it again, whatever the secret.
  lemma {:induction false} RevocationIsForGood(env: Env, before: seq<Step>, agent: Uuid, after: seq<Step>, c: Credentials)
    requires Enabled(env, Exec(env, before), Revoke(agent)) && env.uuid(c.agentId) == Some(agent)
    ensures var f := Exec(env, before + [Revoke(agent)] + after);
            agent in f.identities && f.identities[agent].revoked && Authenticate(env, f.identities, c).None?
  {
    var revoked := before + [Revoke(agent)];
    if after == [] {
      assert revoked + after == revoked && Front(revoked) == before;
    } else {
      RevocationIsForGood(env, before, agent, Front(after), c);
      assert Front(revoked + after) == revoked + Front(after) && Last(revoked + after) == Last(after);
      var f := Exec(env, revoked + Front(after));
      if Enabled(env, f, Last(after)) {
        NextKeepsRevoked(env, f, Last(after), agent);
      }
    }
  }

  // In every state reachable after an enrollment, while the identity is not revoked: a stream
  // that names this agent is let in exactly when its secret hashes to the stored value, and then
  // on the enrolled machine.
  lemma EnrollmentIsWhatOpensASession(env: Env, before: seq<Step>, after: seq<Step>, machine: MachineId, agent: Uuid,
                                      secret: string, now: Time, c: Credentials)
    requires Enabled(env, Exec(env, before), Enroll(machine, agent, env.sha256(secret), now))
    requires env.uuid(c.agentId) == Some(agent)
    ensures var f := Exec(env, before + [Enroll(machine, agent, env.sha256(secret), now)] + after);
            var found := Authenticate(env, f.identities, c);
            && machine in f.machines && agent in f.identities
            && (found.Some? <==>
                  !f.identities[agent].revoked && TrimSpace(c.secret) != "" && env.sha256(c.secret) == env.sha256(secret))
            && (found.Some? ==> found.value.machine == machine && found.value.agent == agent)
  {
    var enroll := Enroll(machine, agent, env.sha256(secret), now);
    IdentityIsEnrolled(env, before, enroll);
    IdentityPersists(env, before + [enroll], after, agent);
    AuthenticatesExactly(env, Exec(env, before + [enroll] + after).identities, agent, c);
  }

  lemma IdentityIsEnrolled(env: Env, before: seq<Step>, enroll: Step)
    requires enroll.Enroll? && Enabled(env, Exec(env, before), enroll)
    ensures var f := Exec(env, before + [enroll]);
            && enroll.machine in f.machines.Keys && enroll.agent in f.identities
            && f.identities[enroll.agent] == Identity(enroll.machine, enroll.agent, enroll.hash, false)
  {
    assert Front(before + [enroll]) == before;
  }

  lemma AuthenticatesExactly(env: Env, identities: map<Uuid, Identity>, agent: Uuid, c: Credentials)
    requires agent in identities && env.uuid(c.agentId) == Some(agent)
    ensures Authenticate(env, identities, c) ==
            if !identities[agent].revoked && TrimSpace(c.secret) != "" && env.sha256(c.secret) == identities[agent].hash then
              Some(identities[agent])
            else None
  {
  }

  // The credential the enrollment service generated opens a session; with a collision-free hash,
  // no other secret does.
  lemma IssuedSecretRoundTrip(env: Env, before: seq<Step>, after: seq<Step>, machine: MachineId, agent: Uuid,
                              random: seq<Byte>, now: Time, c: Credentials)
    requires Enabled(env, Exec(env, before), Enroll(machine, agent, env.sha256(Encode(random)), now))
    requires |random| == 32 && env.uuid(c.agentId) == Some(agent)
    ensures var f := Exec(env, before + [Enroll(machine, agent, env.sha256(Encode(random)), now)] + after);
            && agent in f.identities
            && (!f.identities[agent].revoked && c.secret == Encode(random) ==>
                  && Authenticate(env, f.identities, c).Some?
                  && forall at :: OpenReplyOf(env, f.identities, f.machines.Keys, c, false, false, at) ==
                                  Opened(Session(machine, agent, at.connected)))
            && ((forall s :: env.sha256(s) == env.sha256(Encode(random)) ==> s == Encode(random)) ==>
                  Authenticate(env, f.identities, c).Some? ==> c.secret == Encode(random))
  {
    SecretShape(random);
    EnrollmentIsWhatOpensASession(env, before, after, machine, agent, Encode(random), now, c);
  }

  /* ---- Sessions and what was granted ---- */

  ghost predicate GrantIsKept(f: Fleet, h: Sid) {
    && (h in f.granted ==> h in f.handlers)
    && (h in f.handlers && SessionOf(f.handlers[h]).Some? ==>
          h in f.granted && SessionOf(f.handlers[h]).value.machine == f.granted[h].machine)
  }

  lemma NextKeepsGrant(env: Env, f: Fleet, step: Step, h: Sid)
    requires Enabled(env, f, step) && GrantIsKept(f, h)
    ensures GrantIsKept(Next(env, f, step), h)
  {
  }

  // Every session is on the machine of the identity its handler's lookup found.
  lemma {:induction false} SessionsAreGranted(env: Env, steps: seq<Step>, h: Sid)
    ensures GrantIsKept(Exec(env, steps), h)
  {
    if steps != [] {
      SessionsAreGranted(env, Front(steps), h);
      if Enabled(env, Exec(env, Front(steps)), Last(steps)) {
        NextKeepsGrant(env, Exec(env, Front(steps)), Last(steps), h);
      }
    }
  }

  lemma {:induction false} GrantedMachineExists(env: Env, steps: seq<Step>, h: Sid)
    ensures var f := Exec(env, steps); h in f.granted ==> f.granted[h].machine in f.machines
  {
    if steps != [] {
      GrantedMachineExists(env, Front(steps), h);
      OneIdentityPerMachine(env, Front(steps));
      if Enabled(env, Exec(env, Front(steps)), Last(steps)) {
        NextKeepsGrantedMachine(env, Exec(env, Front(steps)), Last(steps), h);
      }
    }
  }

  lemma NextKeepsGrantedMachine(env: Env, f: Fleet, step: Step, h: Sid)
    requires Enabled(env, f, step) && AgentsMatch(f) && (h in f.granted ==> f.granted[h].machine in f.machines)
    ensures var f' := Next(env, f, step); h in f'.granted ==> f'.granted[h].machine in f'.machines
  {
    NextKeepsMachines(env, f, step);
  }

  // In every reachable state a stream that has not returned can go on, whatever it receives and
  // whatever its calls come to, as long as the clock gives a new session a new timestamp.
  lemma NoHandlerIsStuck(env: Env, steps: seq<Step>, h: Sid, received: Received, fault: bool, at: Readings)
    requires h in Exec(env, steps).handlers && !Returned(Exec(env, steps).handlers[h])
    requires var f := Exec(env, steps);
             h in f.granted && f.granted[h].machine in f.machines ==>
               forall s :: s in f.machines[f.granted[h].machine].issued ==> f.machines[f.granted[h].machine].issued[s] != at.connected
    ensures var f := Exec(env, steps);
            && (Receives(f.handlers[h]) ==> Enabled(env, f, Receive(h, received)))
            && (f.handlers[h].Opening? && h !in f.granted ==> Enabled(env, f, Lookup(h, fault)))
            && (!Receives(f.handlers[h]) && (f.handlers[h].Opening? ==> h in f.granted) ==> Enabled(env, f, Serve(h, fault, at)))
  {
    GrantedMachineExists(env, steps, h);
  }

  // A new stream from `f`: connect, send the credentials, have them looked up, start the session.
  ghost predicate StreamReaches(env: Env, f: Fleet, h: Sid, c: Credentials, at: Readings, goal: Handler) {
    && Enabled(env, f, Connect(h))
    && var f1 := Next(env, f, Connect(h));
    && Enabled(env, f1, Receive(h, Got(Some(AuthenticateMessage(c)))))
    && var f2 := Next(env, f1, Receive(h, Got(Some(AuthenticateMessage(c)))));
    && Enabled(env, f2, Lookup(h, false))
    && var f3 := Next(env, f2, Lookup(h, false));
    && Enabled(env, f3, Serve(h, false, at))
    && Next(env, f3, Serve(h, false, at)).handlers[h] == goal
  }

  lemma AcceptedStreamReachesItsSession(env: Env, f: Fleet, h: Sid, c: Credentials, at: Readings)
    requires h !in f.handlers && h !in f.granted && Authenticate(env, f.identities, c).Some?
    requires var m := Authenticate(env, f.identities, c).value.machine;
             m in f.machines && forall s :: s in f.machines[m].issued ==> f.machines[m].issued[s] != at.connected
    ensures var found := Authenticate(env, f.identities, c).value;
            StreamReaches(env, f, h, c, at, Receiving(Session(found.machine, found.agent, at.connected)))
  {
    var f2 := f.(handlers := f.handlers[h := Opening(c)]);
    assert f.handlers[h := Waiting][h := Opening(c)] == f2.handlers;
    LookupGrants(env, f2, h);
  }

  lemma LookupGrants(env: Env, f: Fleet, h: Sid)
    requires h in f.handlers && f.handlers[h].Opening? && h !in f.granted
    requires Authenticate(env, f.identities, f.handlers[h].credentials).Some?
    ensures Next(env, f, Lookup(h, false)) ==
            f.(granted := f.granted[h := Authenticate(env, f.identities, f.handlers[h].credentials).value])
  {
  }

  // Step by step: from every later state a new stream with the issued secret comes to receive
  // messages in a session on the enrolled machine.
  lemma IssuedSecretOpensAStream(env: Env, before: seq<Step>, after: seq<Step>, machine: MachineId, agent: Uuid,
                                 random: seq<Byte>, now: Time, agentId: string, h: Sid, at: Readings)
    requires Enabled(env, Exec(env, before), Enroll(machine, agent, env.sha256(Encode(random)), now))
    requires |random| == 32 && env.uuid(agentId) == Some(agent)
    requires var f := Exec(env, before + [Enroll(machine, agent, env.sha256(Encode(random)), now)] + after);
             && h !in f.handlers
             && (agent in f.identities ==> !f.identities[agent].revoked)
             // The assumption on the clock.
             && (machine in f.machines ==>
                   forall s :: s in f.machines[machine].issued ==> f.machines[machine].issued[s] != at.connected)
    ensures var f := Exec(env, before + [Enroll(machine, agent, env.sha256(Encode(random)), now)] + after);
            StreamReaches(env, f, h, Credentials(agentId, Encode(random)), at, Receiving(Session(machine, agent, at.connected)))
  {
    var steps := before + [Enroll(machine, agent, env.sha256(Encode(random)), now)] + after;
    SecretShape(random);
    EnrollmentIsWhatOpensASession(env, before, after, machine, agent, Encode(random), now, Credentials(agentId, Encode(random)));
    SessionsAreGranted(env, steps, h);
    AcceptedStreamReachesItsSession(env, Exec(env, steps), h, Credentials(agentId, Encode(random)), at);
  }
}
