/**
 What a machine's row and event log say about its whole history of committed calls.  Every
 property is stated on the list of calls alone and proved through the register.
 */
module PresenceHistory {
  import opened Basics
  import opened Presence

  /* ---- Online means: the newest session has not ended ---- */

  ghost predicate NewestStart(ops: seq<Op>, i: int) {
    0 <= i < |ops| && ops[i].Start? && forall j :: i < j < |ops| ==> !ops[j].Start?
  }

  ghost predicate EndedAfter(ops: seq<Op>, i: int)
    requires 0 <= i < |ops|
  {
    exists j :: i < j < |ops| && ops[j].End? && ops[j].sid == ops[i].sid
  }

  ghost predicate NewestUnended(ops: seq<Op>) {
    exists i :: NewestStart(ops, i) && !EndedAfter(ops, i)
  }

  lemma {:induction false} RegisterFollowsNewestStart(now: Time, ops: seq<Op>)
    ensures var r := Commands(NewRegister(now), ops);
            && (r.owner.Some? <==> exists i :: NewestStart(ops, i))
            && (r.owner.None? ==> !r.live)
            && forall i :: NewestStart(ops, i) ==> r.owner == Some(ops[i].sid) && (r.live <==> !EndedAfter(ops, i))
  {
    if ops != [] {
      var before, op, n := Front(ops), Last(ops), |ops| - 1;
      RegisterFollowsNewestStart(now, before);
      assert ops == before + [op];
      if op.Start? {
        assert NewestStart(ops, n) && !EndedAfter(ops, n);
      } else {
        forall i ensures NewestStart(ops, i) <==> NewestStart(before, i) {
          if NewestStart(before, i) { assert ops[i] == before[i]; }
          if NewestStart(ops, i) { assert before[i] == ops[i]; }
        }
        forall i | NewestStart(before, i)
          ensures EndedAfter(ops, i) <==> EndedAfter(before, i) || (op.End? && op.sid == ops[i].sid)
        {
          if EndedAfter(before, i) {
            var j :| i < j < n && before[j].End? && before[j].sid == before[i].sid;
            assert ops[j] == before[j];
          }
          if op.End? && op.sid == ops[i].sid { assert ops[n] == op; }
          if EndedAfter(ops, i) && !(op.End? && op.sid == ops[i].sid) {
            var j :| i < j < |ops| && ops[j].End? && ops[j].sid == ops[i].sid;
            assert before[j] == ops[j];
          }
        }
      }
    }
  }

  // Whatever older, overlapping sessions did before or do later.
  lemma OnlineIffNewestSessionNotEnded(now: Time, ops: seq<Op>)
    requires Legal(NewMachine(now), ops)
    ensures Run(NewMachine(now), ops).row.status == Online <==> NewestUnended(ops)
  {
    RunRefinesRegister(now, ops);
    RegisterFollowsNewestStart(now, ops);
  }

  // "Online exactly when some session is open" is not what the code promises: session 1 is
  // still open here.
  lemma OfflineWithAnOpenSession(now: Time, a: Readings, b: Readings, c: Readings)
    requires a.connected != b.connected
    ensures var ops := [Start(1, a), Start(2, b), End(2, c)];
            && Legal(NewMachine(now), ops)
            && Run(NewMachine(now), ops).row.status == Offline
            && !EndedAfter(ops, 0)
  {
    var s1, s2, s3 := [Start(1, a)], [Start(1, a), Start(2, b)], [Start(1, a), Start(2, b), End(2, c)];
    assert Front(s3) == s2 && Front(s2) == s1 && Front(s1) == [];
    assert Legal(NewMachine(now), s1);
    assert Legal(NewMachine(now), s2);
  }

  ghost predicate SomeOpen(ops: seq<Op>) {
    exists i :: 0 <= i < |ops| && ops[i].Start? && !EndedAfter(ops, i)
  }

  // The newest session has ended and an older one has not.
  ghost predicate OutlivesNewest(ops: seq<Op>, i: int, j: int) {
    0 <= i < j && NewestStart(ops, j) && EndedAfter(ops, j) && ops[i].Start? && !EndedAfter(ops, i)
  }

  // "Online exactly when some session is open" holds exactly of the histories in which no older
  // session outlives the newest one.
  lemma OnlineMeansSomeOpenExactlyUnlessOutlived(now: Time, ops: seq<Op>)
    requires Legal(NewMachine(now), ops)
    ensures (Run(NewMachine(now), ops).row.status == Online <==> SomeOpen(ops)) <==> !exists i, j :: OutlivesNewest(ops, i, j)
    ensures (Run(NewMachine(now), ops).row.status == Online <==> SomeOpen(ops)) <==> NewestUnended(ops) || !SomeOpen(ops)
  {
    OnlineIffNewestSessionNotEnded(now, ops);
    if SomeOpen(ops) && !NewestUnended(ops) {
      var i :| 0 <= i < |ops| && ops[i].Start? && !EndedAfter(ops, i);
      var j := NewestStartExists(ops, i);
      assert OutlivesNewest(ops, i, j);
    }
    if NewestUnended(ops) {
      var k :| NewestStart(ops, k) && !EndedAfter(ops, k);
      forall i, j ensures !OutlivesNewest(ops, i, j) {
        assert NewestStart(ops, j) ==> j == k;
      }
    }
  }

  lemma {:induction false} NewestStartExists(ops: seq<Op>, i: int) returns (j: int)
    requires 0 <= i < |ops| && ops[i].Start?
    ensures i <= j && NewestStart(ops, j)
    decreases |ops| - i
  {
    j := i;
    if k :| i < k < |ops| && ops[k].Start? {
      j := NewestStartExists(ops, k);
    }
  }

  /* ---- last_seen_at ---- */

  // A session that is the newest and has ended.
  ghost predicate NewestButEnded(ops: seq<Op>, sid: Sid) {
    exists i :: NewestStart(ops, i) && ops[i].sid == sid && EndedAfter(ops, i)
  }

  // A heartbeat moves last_seen_at of an online machine only, unless it comes from the newest
  // session after that session's own End; then it does for every other clock reading.
  lemma TouchNeedsOnlineExactlyUnlessNewestEnded(now: Time, ops: seq<Op>, sid: Sid)
    requires Legal(NewMachine(now), ops)
    ensures var m := Run(NewMachine(now), ops);
            (forall at :: Apply(m, Touch(sid, at)).row.seen != m.row.seen ==> m.row.status == Online) <==> !NewestButEnded(ops, sid)
  {
    var m, r := Run(NewMachine(now), ops), Commands(NewRegister(now), ops);
    RunRefinesRegister(now, ops);
    RegisterFollowsNewestStart(now, ops);
    if NewestButEnded(ops, sid) {
      var seen := if m.row.seen.Some? then m.row.seen.value + 1 else 0;
      assert Apply(m, Touch(sid, Readings(0, seen, 0, 0))).row.seen == Some(seen);
    } else {
      forall at | Apply(m, Touch(sid, at)).row.seen != m.row.seen ensures m.row.status == Online {
        assert r.owner == Some(sid);
      }
    }
  }

  /* ---- The event log ---- */

  // The log is a function of its length: online, offline, online, ...
  ghost predicate Alternates(log: seq<Status>) {
    forall k :: 0 <= k < |log| ==> log[k] == if k % 2 == 0 then Online else Offline
  }

  ghost predicate LogFits(r: Register) {
    && Alternates(r.log)
    && (r.owner.None? ==> !r.live)
    && (r.log == [] <==> r.owner.None?)
    && (r.log != [] ==> Last(r.log) == StatusOf(r))
  }

  lemma CommandKeepsLogFitting(r: Register, op: Op)
    requires LogFits(r)
    ensures LogFits(Command(r, op))
  {
  }

  lemma {:induction false} RegisterLogFits(now: Time, ops: seq<Op>)
    ensures LogFits(Commands(NewRegister(now), ops))
  {
    if ops != [] {
      RegisterLogFits(now, Front(ops));
      CommandKeepsLogFitting(Commands(NewRegister(now), Front(ops)), Last(ops));
    }
  }

  lemma LogAlternatesAndEndsInStatus(now: Time, ops: seq<Op>)
    requires Legal(NewMachine(now), ops)
    ensures var m := Run(NewMachine(now), ops);
            && Alternates(m.log)
            && (m.log == [] <==> m.row.status == Unknown)
            && (m.log != [] ==> Last(m.log) == m.row.status)
            && m.row.status in {Unknown, Online, Offline}
  {
    RunRefinesRegister(now, ops);
    RegisterLogFits(now, ops);
  }

  /* ---- Counting calls and events ---- */

  function Count(log: seq<Status>, s: Status): nat {
    if log == [] then 0 else Count(Front(log), s) + if Last(log) == s then 1 else 0
  }

  function Starts(ops: seq<Op>): nat {
    if ops == [] then 0 else Starts(Front(ops)) + if Last(ops).Start? then 1 else 0
  }

  // Starts that found the newest session still open.
  ghost function Takeovers(ops: seq<Op>): nat {
    if ops == [] then 0
    else Takeovers(Front(ops)) + if Last(ops).Start? && NewestUnended(Front(ops)) then 1 else 0
  }

  // ops[j] is the first End of the session that is the newest at that point.
  ghost predicate EffectiveEnd(ops: seq<Op>, j: nat) {
    j < |ops| && ops[j].End? &&
    exists i :: NewestStart(ops[..j], i) && ops[i].sid == ops[j].sid && !EndedAfter(ops[..j], i)
  }

  ghost function EffectiveEnds(ops: seq<Op>): nat {
    if ops == [] then 0
    else EffectiveEnds(Front(ops)) + if EffectiveEnd(ops, |ops| - 1) then 1 else 0
  }

  lemma CountAppend(log: seq<Status>, x: Status, s: Status)
    ensures Count(log + [x], s) == Count(log, s) + if x == s then 1 else 0
  {
    assert Front(log + [x]) == log;
  }

  // The register at the end of `before` decides which kind of call the next one is.
  lemma NextCallIsDecided(now: Time, before: seq<Op>, op: Op)
    ensures var r := Commands(NewRegister(now), before);
            && (NewestUnended(before) <==> r.live)
            && (EffectiveEnd(before + [op], |before|) <==> op.End? && r.owner == Some(op.sid) && r.live)
  {
    var ops := before + [op];
    RegisterFollowsNewestStart(now, before);
    assert ops[..|before|] == before;
    forall i | NewestStart(before, i) ensures ops[i] == before[i] {}
  }

  lemma LogAfterCall(now: Time, before: seq<Op>, op: Op)
    ensures var r, r' := Commands(NewRegister(now), before), Command(Commands(NewRegister(now), before), op);
            && Count(r'.log, Online) == Count(r.log, Online) + (if op.Start? && !r.live then 1 else 0)
            && Count(r'.log, Offline) == Count(r.log, Offline) + if op.End? && r.owner == Some(op.sid) && r.live then 1 else 0
  {
    var log := Commands(NewRegister(now), before).log;
    CountAppend(log, Online, Online);
    CountAppend(log, Online, Offline);
    CountAppend(log, Offline, Online);
    CountAppend(log, Offline, Offline);
  }

  lemma {:induction false} RegisterCountsCalls(now: Time, ops: seq<Op>)
    ensures var log := Commands(NewRegister(now), ops).log;
            Starts(ops) == Count(log, Online) + Takeovers(ops) && EffectiveEnds(ops) == Count(log, Offline)
  {
    if ops != [] {
      assert ops == Front(ops) + [Last(ops)];
      RegisterCountsCalls(now, Front(ops));
      NextCallIsDecided(now, Front(ops), Last(ops));
      LogAfterCall(now, Front(ops), Last(ops));
    }
  }

  // Every Start is an online event or a takeover; every effective End is an offline event.
  lemma EventsCountStartsAndEnds(now: Time, ops: seq<Op>)
    requires Legal(NewMachine(now), ops)
    ensures Starts(ops) == Count(Run(NewMachine(now), ops).log, Online) + Takeovers(ops)
    ensures EffectiveEnds(ops) == Count(Run(NewMachine(now), ops).log, Offline)
  {
    RunRefinesRegister(now, ops);
    RegisterCountsCalls(now, ops);
  }

  lemma {:induction false} StartedSessionsAreIssued(m: Machine, ops: seq<Op>)
    requires Legal(m, ops)
    ensures forall i :: 0 <= i < |ops| && ops[i].Start? ==> ops[i].sid in Run(m, ops).issued
    ensures forall i, j :: 0 <= i < j < |ops| && ops[i].Start? && ops[j].Start? ==> ops[i].sid != ops[j].sid
  {
    if ops != [] {
      StartedSessionsAreIssued(m, Front(ops));
    }
  }

  lemma OneEffectiveEndPerSession(m: Machine, ops: seq<Op>, i: nat, j: nat)
    requires Legal(m, ops)
    requires i < j < |ops| && EffectiveEnd(ops, i) && ops[i].sid == ops[j].sid
    ensures !EffectiveEnd(ops, j)
  {
    StartedSessionsAreIssued(m, ops);
    var a :| NewestStart(ops[..i], a) && ops[a].sid == ops[i].sid && !EndedAfter(ops[..i], a);
    assert ops[..i][a] == ops[a];
    forall b | NewestStart(ops[..j], b) && ops[b].sid == ops[j].sid ensures EndedAfter(ops[..j], b) {
      assert ops[..j][b] == ops[b];
      assert ops[..j][i] == ops[i];
    }
  }

  /* ---- Stale calls can be erased ---- */

  function Newest(ops: seq<Op>): Option<Sid> {
    if ops == [] then None else if Last(ops).Start? then Some(Last(ops).sid) else Newest(Front(ops))
  }

  // A Touch or End that arrives after a newer session of the machine was started.
  predicate Stale(before: seq<Op>, op: Op) {
    !op.Start? && Newest(before) != Some(op.sid)
  }

  function EraseStale(ops: seq<Op>): seq<Op> {
    if ops == [] then []
    else EraseStale(Front(ops)) + if Stale(Front(ops), Last(ops)) then [] else [Last(ops)]
  }

  lemma {:induction false} NewestIsNewestStart(ops: seq<Op>)
    ensures forall i :: NewestStart(ops, i) ==> Newest(ops) == Some(ops[i].sid)
    ensures Newest(ops).Some? ==> exists i :: NewestStart(ops, i)
  {
    if ops != [] {
      var before, n := Front(ops), |ops| - 1;
      NewestIsNewestStart(before);
      if Last(ops).Start? {
        assert NewestStart(ops, n);
      } else {
        forall i ensures NewestStart(ops, i) <==> NewestStart(before, i) {
          if NewestStart(before, i) { assert ops[i] == before[i]; }
          if NewestStart(ops, i) { assert before[i] == ops[i]; }
        }
        if Newest(before).Some? {
          var i :| NewestStart(before, i);
          assert NewestStart(ops, i);
        }
      }
    }
  }

  // The calls that are erased are exactly the Touches and Ends of sessions that are not the newest
  // when they arrive.
  lemma ErasedAreExactlyTheStale(before: seq<Op>, op: Op)
    ensures EraseStale([]) == []
    ensures EraseStale(before + [op]) ==
            EraseStale(before) +
            if !op.Start? && !(exists i :: NewestStart(before, i) && before[i].sid == op.sid) then [] else [op]
  {
    NewestIsNewestStart(before);
    assert Front(before + [op]) == before;
    if Newest(before).Some? {
      var i :| NewestStart(before, i);
      assert Newest(before) == Some(before[i].sid);
    }
  }

  lemma {:induction false} OwnerIsNewest(now: Time, ops: seq<Op>)
    ensures Commands(NewRegister(now), ops).owner == Newest(ops)
  {
    if ops != [] {
      OwnerIsNewest(now, Front(ops));
    }
  }

  // Erasing every stale call gives the same row, the same log and the same tokens, and no
  // erased run needs more of the clock.
  lemma {:induction false} StaleCallsLeaveNoTrace(now: Time, ops: seq<Op>)
    requires Legal(NewMachine(now), ops)
    ensures Legal(NewMachine(now), EraseStale(ops))
    ensures Run(NewMachine(now), EraseStale(ops)) == Run(NewMachine(now), ops)
  {
    if ops != [] {
      var before, op := Front(ops), Last(ops);
      StaleCallsLeaveNoTrace(now, before);
      if Stale(before, op) {
        RunRefinesRegister(now, before);
        OwnerIsNewest(now, before);
        assert EraseStale(ops) == EraseStale(before);
      } else {
        assert Front(EraseStale(ops)) == EraseStale(before);
      }
    }
  }

  // Erasing again erases nothing: no stale call is left.
  lemma {:induction false} NothingStaleIsLeft(ops: seq<Op>)
    ensures Newest(EraseStale(ops)) == Newest(ops)
    ensures EraseStale(EraseStale(ops)) == EraseStale(ops)
  {
    if ops != [] {
      var before, op := Front(ops), Last(ops);
      NothingStaleIsLeft(before);
      if Stale(before, op) {
        assert EraseStale(ops) == EraseStale(before);
      } else {
        assert Front(EraseStale(ops)) == EraseStale(before);
      }
    }
  }
}
