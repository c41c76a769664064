/** Agent identities and the check a stream must pass before a session starts. */
module Credentials {
  import opened Basics
  import opened Presence
  import opened Text
  import opened Base64Url

  type Uuid = string  // in canonical form

  datatype Credentials = Credentials(agentId: string, secret: string)

  datatype Identity = Identity(machine: MachineId, agent: Uuid, hash: seq<Byte>, revoked: bool)

  // UUID parsing and SHA-256 are parameters; nothing is assumed of either here.
  datatype Env = Env(uuid: string -> Option<Uuid>, sha256: string -> seq<Byte>)

  predicate WellFormed(env: Env, c: Credentials) {
    env.uuid(c.agentId).Some? && TrimSpace(c.secret) != ""
  }

  function FindActive(identities: map<Uuid, Identity>, agent: Uuid): Option<Identity> {
    if agent in identities && !identities[agent].revoked then Some(identities[agent]) else None
  }

  // None is ErrUnauthenticated.
  function Authenticate(env: Env, identities: map<Uuid, Identity>, c: Credentials): Option<Identity> {
    if !WellFormed(env, c) then None
    else
      var found := FindActive(identities, env.uuid(c.agentId).value);
      if found.Some? && env.sha256(c.secret) == found.value.hash then found else None
  }
}
