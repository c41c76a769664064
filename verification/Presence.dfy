/**
 The presence columns of one machine, the three SQL statements that change them, and the
 current-owner register they implement.

 A session is fenced by `last_connected_at`: StartSession overwrites it, and TouchSession and
 EndSession compare it with the value their own StartSession returned.  The register below
 compares session identities instead.  The two agree as long as no two sessions of a machine
 were given the same timestamp.
 */
module Presence {
  import opened Basics

  type Time = int  // microseconds, the resolution of TIMESTAMPTZ
  type MachineId = string
  type Sid = nat   // identity of a session; it appears in no table

  datatype Status = Unknown | Online | Offline | Degraded

  datatype Row = Row(
    status: Status,
    registered: Time,
    connected: Option<Time>,
    seen: Option<Time>,
    disconnected: Option<Time>,
    updated: Time)

  // One clock_timestamp() call per assigned column, in no fixed order.
  datatype Readings = Readings(connected: Time, seen: Time, disconnected: Time, updated: Time)

  function NewRow(now: Time): Row {
    Row(Unknown, now, None, None, None, now)
  }

  function Started(row: Row, at: Readings): Row {
    row.(status := Online, connected := Some(at.connected), seen := Some(at.seen), updated := at.updated)
  }

  predicate TouchMatches(row: Row, token: Time) {
    row.connected == Some(token)
  }

  function Touched(row: Row, at: Readings): Row {
    row.(seen := Some(at.seen), updated := at.updated)
  }

  predicate EndMatches(row: Row, token: Time) {
    row.connected == Some(token) && row.status == Online
  }

  function Ended(row: Row, at: Readings): Row {
    row.(status := Offline, disconnected := Some(at.disconnected), updated := at.updated)
  }

  /* ---- One machine as the tables hold it ---- */

  // `log` is the machine's presence events ordered by id; `issued` is the token each of its
  // sessions was given by the StartSession that created it.
  datatype Machine = Machine(row: Row, log: seq<Status>, issued: map<Sid, Time>)

  datatype Op =
    | Start(sid: Sid, at: Readings)
    | Touch(sid: Sid, at: Readings)
    | End(sid: Sid, at: Readings)

  function NewMachine(now: Time): Machine {
    Machine(NewRow(now), [], map[])
  }

  // TouchSession and EndSession as the database sees them: a token, not a session.
  function TouchWith(m: Machine, token: Time, at: Readings): Machine {
    if TouchMatches(m.row, token) then m.(row := Touched(m.row, at)) else m
  }

  function EndWith(m: Machine, token: Time, at: Readings): Machine {
    if EndMatches(m.row, token) then m.(row := Ended(m.row, at), log := m.log + [Offline]) else m
  }

  // One committed store call.
  function Apply(m: Machine, op: Op): Machine {
    match op
    case Start(sid, at) =>
      Machine(
        Started(m.row, at),
        if m.row.status != Online then m.log + [Online] else m.log,
        m.issued[sid := at.connected])
    case Touch(sid, at) => if sid in m.issued then TouchWith(m, m.issued[sid], at) else m
    case End(sid, at) => if sid in m.issued then EndWith(m, m.issued[sid], at) else m
  }

  function Run(m: Machine, ops: seq<Op>): Machine {
    if ops == [] then m else Apply(Run(m, Front(ops)), Last(ops))
  }

  // The assumption on the clock: a Start reads a token no session of this machine already has.
  ghost predicate Admissible(m: Machine, op: Op) {
    op.Start? ==> op.sid !in m.issued && forall s :: s in m.issued ==> m.issued[s] != op.at.connected
  }

  ghost predicate Legal(m: Machine, ops: seq<Op>) {
    ops == [] || (Legal(m, Front(ops)) && Admissible(Run(m, Front(ops)), Last(ops)))
  }

  /* ---- The register it implements ---- */

  datatype Register = Register(
    owner: Option<Sid>,
    live: bool,
    log: seq<Status>,
    registered: Time,
    seen: Option<Time>,
    disconnected: Option<Time>,
    updated: Time)

  function NewRegister(now: Time): Register {
    Register(None, false, [], now, None, None, now)
  }

  // Start takes ownership; Touch and End act for the owner alone.  No timestamp is compared.
  function Command(r: Register, op: Op): Register {
    match op
    case Start(sid, at) =>
      r.(owner := Some(sid), live := true, log := if r.live then r.log else r.log + [Online],
         seen := Some(at.seen), updated := at.updated)
    case Touch(sid, at) =>
      if r.owner == Some(sid) then r.(seen := Some(at.seen), updated := at.updated) else r
    case End(sid, at) =>
      if r.owner == Some(sid) && r.live then
        r.(live := false, log := r.log + [Offline], disconnected := Some(at.disconnected), updated := at.updated)
      else r
  }

  function Commands(r: Register, ops: seq<Op>): Register {
    if ops == [] then r else Command(Commands(r, Front(ops)), Last(ops))
  }

  function StatusOf(r: Register): Status {
    if r.owner.None? then Unknown else if r.live then Online else Offline
  }

  ghost predicate TokensDistinct(issued: map<Sid, Time>) {
    forall a, b :: a in issued && b in issued && issued[a] == issued[b] ==> a == b
  }

  // The columns and the log are those the register prescribes.
  ghost predicate Shows(m: Machine, r: Register) {
    && (r.owner.Some? ==> r.owner.value in m.issued)
    && (r.owner.None? ==> !r.live)
    && m.row == Row(
                  StatusOf(r), r.registered,
                  if r.owner.Some? then Some(m.issued[r.owner.value]) else None,
                  r.seen, r.disconnected, r.updated)
    && m.log == r.log
  }

  // One store call is one register command.
  lemma ApplyRefinesCommand(m: Machine, r: Register, op: Op)
    requires Shows(m, r) && TokensDistinct(m.issued) && Admissible(m, op)
    ensures Shows(Apply(m, op), Command(r, op)) && TokensDistinct(Apply(m, op).issued)
  {
  }

  // Every legal run of store calls is a run of the register.
  lemma {:induction false} RunRefinesRegister(now: Time, ops: seq<Op>)
    requires Legal(NewMachine(now), ops)
    ensures Shows(Run(NewMachine(now), ops), Commands(NewRegister(now), ops))
    ensures TokensDistinct(Run(NewMachine(now), ops).issued)
  {
    if ops != [] {
      RunRefinesRegister(now, Front(ops));
      ApplyRefinesCommand(Run(NewMachine(now), Front(ops)), Commands(NewRegister(now), Front(ops)), Last(ops));
    }
  }

  /* ---- How far the assumption on the clock is needed ---- */

  ghost predicate Agrees(m: Machine, r: Register, op: Op) {
    Shows(Apply(m, op), Command(r, op))
  }

  // `sid` is not the owner but was given the owner's timestamp.
  ghost predicate Collides(m: Machine, r: Register, sid: Sid) {
    r.owner.Some? && r.owner.value in m.issued && sid in m.issued &&
    sid != r.owner.value && m.issued[sid] == m.issued[r.owner.value]
  }

  // Without the assumption, a session's Touch and End still do what the register says exactly
  // when its timestamp is not shared with a different, owning session (for End: a live one).
  lemma FencingExactlyWhenTokensDiffer(m: Machine, r: Register, sid: Sid)
    requires Shows(m, r)
    ensures (forall at :: Agrees(m, r, Touch(sid, at))) <==> !Collides(m, r, sid)
    ensures (forall at :: Agrees(m, r, End(sid, at))) <==> !(Collides(m, r, sid) && r.live)
  {
    var at := Readings(0, 0, 0, m.row.updated + 1);
    if Collides(m, r, sid) {
      assert !Agrees(m, r, Touch(sid, at));
      assert r.live ==> !Agrees(m, r, End(sid, at));
    }
  }

  // Two Starts of one machine that read the same microsecond: the first session's End takes the
  // second session offline.
  lemma EqualTokensLetAStaleSessionEndTheOwner(now: Time, at: Readings)
    ensures var ops := [Start(1, at), Start(2, at), End(1, at)];
            && Run(NewMachine(now), ops).row.status == Offline
            && StatusOf(Commands(NewRegister(now), ops)) == Online
            && !Legal(NewMachine(now), ops)
  {
    var s1, s2, s3 := [Start(1, at)], [Start(1, at), Start(2, at)], [Start(1, at), Start(2, at), End(1, at)];
    assert Front(s3) == s2 && Front(s2) == s1 && Front(s1) == [];
    var m1 := Run(NewMachine(now), s1);
    assert 1 in m1.issued && m1.issued[1] == at.connected;
    assert !Admissible(m1, Start(2, at));
    assert !Legal(NewMachine(now), s2);
  }

  // TouchSession does not look at `status`: a session that ended still moves last_seen_at.
  lemma TouchAfterEndMovesLastSeen(now: Time, at: Readings, later: Readings)
    requires at.seen != later.seen
    ensures var ended := Run(NewMachine(now), [Start(1, at), End(1, at)]);
            && Legal(NewMachine(now), [Start(1, at), End(1, at)])
            && ended.row.status == Offline
            && Apply(ended, Touch(1, later)).row.seen != ended.row.seen
  {
    assert Front([Start(1, at), End(1, at)]) == [Start(1, at)];
    assert Front([Start(1, at)]) == [];
    assert Legal(NewMachine(now), [Start(1, at)]);
  }
}
