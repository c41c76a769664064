/**
 One start of the agent, load or enroll and save, and any history of starts with crashes and power
 failures in between.  One process at a time uses the state directory.
 */
module AgentRun {
  import opened Basics
  import opened Text
  import opened IdentityStore

  /* ---- One run ---- */

  datatype Response = Response(machine: string, agent: string, secret: string)

  // What becomes of the Enroll call: nothing committed, committed but never answered, answered.
  datatype Rpc = NotCommitted | AnswerLost(response: Response) | Answered(response: Response)

  datatype RunEnv = RunEnv(configured: bool, metadata: bool, rpc: Rpc, temporary: nat)

  class Server {
    var requests: nat
    var enrolled: seq<Response>

    constructor ()
      ensures requests == 0 && enrolled == []
    {
      requests, enrolled := 0, [];
    }

    method Enroll(rpc: Rpc) returns (answer: Option<Response>)
      modifies this
      ensures requests == old(requests) + 1
      ensures enrolled == old(enrolled) + if rpc.NotCommitted? then [] else [rpc.response]
      ensures answer == if rpc.Answered? then Some(rpc.response) else None
    {
      requests := requests + 1;
      if !rpc.NotCommitted? {
        enrolled := enrolled + [rpc.response];
      }
      answer := if rpc.Answered? then Some(rpc.response) else None;
    }
  }

  // enrolled_agent_from_response, and the identity the agent builds from it.
  function IdentityFrom(uuid: string -> Option<string>, response: Response): Option<AgentIdentity> {
    if TrimSpace(response.secret) == "" || uuid(response.machine).None? || uuid(response.agent).None? then None
    else Some(AgentIdentity(1, uuid(response.machine).value, uuid(response.agent).value, response.secret))
  }

  // The published file, if any, is complete and on disk.
  ghost predicate Intact(codec: Codec, files: Files) {
    IdentityFile in files ==>
      files[IdentityFile].synced && LoadFrom(codec, files).Ok? && LoadFrom(codec, files).value.Some?
  }

  // What matters of the disk and the server over time.
  datatype World = World(stored: Option<AgentIdentity>, requests: nat, enrolled: seq<Response>)

  ghost function WorldOf(codec: Codec, files: Files, server: Server): World
    requires Intact(codec, files)
    reads server
  {
    World(LoadFrom(codec, files).value, server.requests, server.enrolled)
  }

  // `ready`: the configuration was read and the state could be opened and read.  `clean`: moreover nothing
  // the run would do to enroll can fail.  The rest is what the run did: whether it sent an Enroll
  // request, what the server committed, and the identity the run went on with.
  datatype Observed = Observed(ready: bool, clean: bool, requested: bool, committed: Option<Response>, used: Option<AgentIdentity>)

  ghost predicate RunStep(uuid: string -> Option<string>, w: World, w': World, o: Observed) {
    && w'.requests == w.requests + (if o.requested then 1 else 0)
    && w'.enrolled == w.enrolled + (if o.committed.Some? then [o.committed.value] else [])
    && (o.committed.Some? ==> o.requested)
    && (o.requested || o.clean ==> o.ready)
    && (w.stored.Some? ==>
          && w'.stored == w.stored && !o.requested
          && o.used == if o.ready then w.stored else None)
    && (w.stored.None? ==>
          && (w'.stored.Some? ==> o.committed.Some? && w'.stored == IdentityFrom(uuid, o.committed.value))
          && (o.used.Some? ==> o.used == w'.stored)
          && (o.clean ==> o.used.Some?))
  }

  // Nothing stands in the way of an enrollment.
  ghost predicate NothingFails(uuid: string -> Option<string>, env: RunEnv, files: Files, fates: nat -> Fate, ops: nat) {
    && env.configured && env.metadata
    && env.rpc.Answered? && IdentityFrom(uuid, env.rpc.response).Some?
    && Temporary(env.temporary) !in files && SucceedFrom(fates, ops)
  }

  method Run(d: Directory, server: Server, codec: Codec, uuid: string -> Option<string>, env: RunEnv)
    returns (ghost o: Observed, used: Option<AgentIdentity>)
    requires !d.dead && RoundTrips(codec) && Intact(codec, d.files)
    modifies d`files, d`dead, d`ops, server
    ensures Intact(codec, d.files)
    ensures RunStep(uuid, old(WorldOf(codec, d.files, server)), WorldOf(codec, d.files, server), o)
    // What was observed is what happened.
    ensures o.ready <==> env.configured && d.fates(old(d.ops)).Succeeds? &&
                         (IdentityFile in old(d.files) ==> d.fates(old(d.ops) + 1).Succeeds?)
    ensures o.clean <==> NothingFails(uuid, env, old(d.files), d.fates, old(d.ops))
    ensures o.requested <==> o.ready && IdentityFile !in old(d.files) && env.metadata
    ensures o.committed == if o.requested && !env.rpc.NotCommitted? then Some(env.rpc.response) else None
    ensures o.used == used
    ensures used.Some? ==> !d.dead
    // An identity that was not there before is the server's response, which named two ids that
    // parse and a secret that is not blank.
    ensures IdentityFile !in old(d.files) && (used.Some? || IdentityFile in d.files) ==>
              && env.rpc.Answered?
              && uuid(env.rpc.response.machine).Some? && uuid(env.rpc.response.agent).Some?
              && TrimSpace(env.rpc.response.secret) != ""
    ensures IdentityFile !in old(d.files) && used.Some? ==>
              && used.value.schemaVersion == 1
              && Some(used.value.machine) == uuid(env.rpc.response.machine)
              && Some(used.value.agent) == uuid(env.rpc.response.agent)
              && used.value.secret == env.rpc.response.secret
    ensures IdentityFile !in old(d.files) && IdentityFile in d.files ==>
              codec.parse(d.files[IdentityFile].content) ==
              Some(AgentIdentity(1, uuid(env.rpc.response.machine).value, uuid(env.rpc.response.agent).value, env.rpc.response.secret))
    // And when nothing fails there is one.
    ensures IdentityFile !in old(d.files) && env.configured && env.metadata && env.rpc.Answered?
            && uuid(env.rpc.response.machine).Some? && uuid(env.rpc.response.agent).Some?
            && TrimSpace(env.rpc.response.secret) != "" && Temporary(env.temporary) !in old(d.files)
            && (forall k :: old(d.ops) <= k ==> d.fates(k).Succeeds?) ==>
              used.Some? && IdentityFile in d.files
  {
    o := Observed(env.configured && d.fates(d.ops).Succeeds? && (IdentityFile in d.files ==> d.fates(d.ops + 1).Succeeds?),
                  NothingFails(uuid, env, d.files, d.fates, d.ops), false, None, None);
    used := None;
    if !env.configured { return; }
    var loaded := d.Load(codec);
    if loaded.Err? { return; }
    if loaded.value.Some? {
      used := loaded.value;
      o := o.(used := used);
      return;
    }
    if !env.metadata { return; }
    var answer := server.Enroll(env.rpc);
    o := o.(requested := true, committed := if env.rpc.NotCommitted? then None else Some(env.rpc.response));
    if answer.None? { return; }
    var identity := IdentityFrom(uuid, answer.value);
    if identity.None? { return; }
    var saved := d.SaveNew(codec, identity.value, env.temporary);
    assert codec.parse(codec.render(identity.value) + NEWLINE) == identity;
    if saved.Err? { return; }
    used := identity;
    o := o.(used := used);
  }

  // A power failure keeps the published file whole or loses its name: the directory is not synced
  // after the rename.
  lemma PowerFailureKeepsOrLosesTheIdentity(codec: Codec, before: Files, after: Files)
    requires Intact(codec, before) && Survives(before, after)
    ensures Intact(codec, after)
    ensures LoadFrom(codec, after) == Ok(None) || LoadFrom(codec, after) == LoadFrom(codec, before)
  {
  }

  /* ---- Histories ---- */

  datatype Event = Ran(o: Observed) | PowerFailed

  ghost predicate Step(uuid: string -> Option<string>, w: World, w': World, e: Event) {
    match e
    case Ran(o) => RunStep(uuid, w, w', o)
    case PowerFailed => w'.requests == w.requests && w'.enrolled == w.enrolled && w'.stored in {None, w.stored}
  }

  // A machine that starts without an identity.
  ghost predicate History(uuid: string -> Option<string>, worlds: seq<World>, events: seq<Event>) {
    && |worlds| == |events| + 1
    && worlds[0] == World(None, 0, [])
    && forall k :: 0 <= k < |events| ==> Step(uuid, worlds[k], worlds[k + 1], events[k])
  }

  // An enrollment the server committed and no stored identity stands for any more.
  predicate Loses(w: World, w': World, e: Event) {
    match e
    case Ran(o) => o.committed.Some? && w'.stored.None?
    case PowerFailed => w.stored.Some? && w'.stored.None?
  }

  function Lost(worlds: seq<World>, events: seq<Event>): nat
    requires |worlds| == |events| + 1
  {
    if events == [] then 0
    else
      Lost(Front(worlds), Front(events)) +
      if Loses(worlds[|events| - 1], worlds[|events|], Last(events)) then 1 else 0
  }

  // Committed enrollments are the stored identity, if there is one, plus the lost ones; and the
  // stored identity is the last one the server issued.
  lemma {:induction false} EnrollmentsAreStoredOrLost(uuid: string -> Option<string>, worlds: seq<World>, events: seq<Event>)
    requires History(uuid, worlds, events)
    ensures var w := Last(worlds);
            && |w.enrolled| == (if w.stored.Some? then 1 else 0) + Lost(worlds, events)
            && |w.enrolled| <= w.requests
            && (w.stored.Some? ==> w.enrolled != [] && w.stored == IdentityFrom(uuid, Last(w.enrolled)))
  {
    if events != [] {
      assert History(uuid, Front(worlds), Front(events)) by {
        forall k | 0 <= k < |Front(events)| ensures Step(uuid, Front(worlds)[k], Front(worlds)[k + 1], Front(events)[k]) {
          assert Step(uuid, worlds[k], worlds[k + 1], events[k]);
        }
      }
      EnrollmentsAreStoredOrLost(uuid, Front(worlds), Front(events));
      var n := |events| - 1;
      assert Step(uuid, worlds[n], worlds[n + 1], events[n]);
    }
  }

  // From the moment an identity is stored until a power failure takes it: every run that can open
  // the state uses exactly that identity, no run sends a request, and the server enrolls nothing.
  lemma {:induction false} StoredIdentityIsUsedByEveryLaterRun(uuid: string -> Option<string>, worlds: seq<World>, events: seq<Event>, k: nat, j: nat)
    requires History(uuid, worlds, events) && k <= j < |worlds|
    requires worlds[k].stored.Some?
    requires forall i :: k <= i < j ==> !Loses(worlds[i], worlds[i + 1], events[i])
    ensures worlds[j] == worlds[k]
    ensures forall i :: k <= i < j && events[i].Ran? ==>
              && !events[i].o.requested
              && events[i].o.used == if events[i].o.ready then worlds[k].stored else None
    decreases j
  {
    if k < j {
      StoredIdentityIsUsedByEveryLaterRun(uuid, worlds, events, k, j - 1);
      assert Step(uuid, worlds[j - 1], worlds[j], events[j - 1]);
    }
  }

  // A run in which nothing fails ends with an identity that is stored, used, and, if none was
  // stored before, the one the server issued to it.
  lemma CleanRunEndsWithAnIdentity(uuid: string -> Option<string>, worlds: seq<World>, events: seq<Event>, i: nat)
    requires History(uuid, worlds, events) && i < |events| && events[i].Ran? && events[i].o.clean
    ensures var w, w', o := worlds[i], worlds[i + 1], events[i].o;
            && w'.stored.Some? && o.used == w'.stored
            && (w.stored.None? ==> o.committed.Some? && o.used == IdentityFrom(uuid, o.committed.value) &&
                                   w'.enrolled == w.enrolled + [o.committed.value])
  {
    assert Step(uuid, worlds[i], worlds[i + 1], events[i]);
  }

  // The exception is real: two runs in which no operation of the agent fails, with a power failure
  // in between that takes the file of the first, enroll twice.
  method PowerFailureMakesTheAgentEnrollAgain(d: Directory, server: Server, codec: Codec, uuid: string -> Option<string>,
                                              a: Response, b: Response, first: nat, second: nat)
    requires !d.dead && RoundTrips(codec) && SucceedFrom(d.fates, d.ops)
    requires IdentityFile !in d.files && Temporary(first) !in d.files
    requires IdentityFrom(uuid, a).Some? && IdentityFrom(uuid, b).Some?
    modifies d, server
    ensures server.requests == old(server.requests) + 2
    ensures server.enrolled == old(server.enrolled) + [a, b]
    ensures LoadFrom(codec, d.files) == Ok(IdentityFrom(uuid, b))
  {
    var o, used := Run(d, server, codec, uuid, RunEnv(true, true, Answered(a), first));
    assert LoadFrom(codec, d.files) == Ok(IdentityFrom(uuid, a));
    d.PowerFailure(map[]);
    d.Restart(k => Succeeds);
    o, used := Run(d, server, codec, uuid, RunEnv(true, true, Answered(b), second));
  }
}
