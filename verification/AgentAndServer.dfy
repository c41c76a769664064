/** The credential's way from the server to the agent's disk and back. */
module AgentAndServer {
  import opened Basics
  import opened Presence
  import opened Base64Url
  import opened Credentials
  import opened IdentityStore
  import opened AgentRun
  import Stream
  import opened Fleet
  import FleetTheorems

  // The agent accepts every enrollment the server answers, saves its identity whole, and with
  // what any later run loads the server opens a session on the enrolled machine, and a new stream
  // comes to receive messages in it, in every state reached since, unless the identity was revoked.
  lemma LoadedIdentityOpensASession(env: Env, before: seq<Step>, after: seq<Step>, machine: MachineId, agent: Uuid,
                                    random: seq<Byte>, now: Time, codec: Codec, files: Files, h: Sid, at: Readings)
    requires Enabled(env, Exec(env, before), Enroll(machine, agent, env.sha256(Encode(random)), now))
    requires |random| == 32 && env.uuid(machine) == Some(machine) && env.uuid(agent) == Some(agent)
    requires RoundTrips(codec)
    requires var identity := IdentityFrom(env.uuid, Response(machine, agent, Encode(random)));
             identity.Some? ==> Published(files) == Some(Complete(codec, identity.value))
    ensures var loaded := LoadFrom(codec, files);
            && loaded == Ok(Some(AgentIdentity(1, machine, agent, Encode(random))))
            && var f := Exec(env, before + [Enroll(machine, agent, env.sha256(Encode(random)), now)] + after);
            && agent in f.identities && machine in f.machines
            && (!f.identities[agent].revoked ==>
                  Stream.OpenReplyOf(env, f.identities, f.machines.Keys,
                                     Credentials(loaded.value.value.agent, loaded.value.value.secret), false, false, at) ==
                  Stream.Opened(Stream.Session(machine, agent, at.connected)))
            && (!f.identities[agent].revoked && h !in f.handlers
                && (forall s :: s in f.machines[machine].issued ==> f.machines[machine].issued[s] != at.connected) ==>
                  FleetTheorems.StreamReaches(env, f, h, Credentials(loaded.value.value.agent, loaded.value.value.secret), at,
                                              Stream.Receiving(Stream.Session(machine, agent, at.connected))))
  {
    SecretShape(random);
    var identity := IdentityFrom(env.uuid, Response(machine, agent, Encode(random))).value;
    assert codec.parse(codec.render(identity) + NEWLINE) == Some(identity);
    assert files[IdentityFile] == Complete(codec, identity);
    FleetTheorems.EnrollmentIsWhatOpensASession(env, before, after, machine, agent, Encode(random), now, Credentials(agent, Encode(random)));
    FleetTheorems.IssuedSecretRoundTrip(env, before, after, machine, agent, random, now, Credentials(agent, Encode(random)));
    var f := Exec(env, before + [Enroll(machine, agent, env.sha256(Encode(random)), now)] + after);
    if !f.identities[agent].revoked && h !in f.handlers
       && forall s :: s in f.machines[machine].issued ==> f.machines[machine].issued[s] != at.connected {
      FleetTheorems.IssuedSecretOpensAStream(env, before, after, machine, agent, random, now, agent, h, at);
    }
  }
}
