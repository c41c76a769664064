/** Telemetry samples: validation, the keyed upsert, and what the table holds after any history. */
module Telemetry {
  import opened Basics
  import opened Text
  import opened Presence

  datatype Float = NaN | Infinite(negative: bool) | Finite(value: real)

  // google.protobuf.Timestamp
  datatype Timestamp = Timestamp(seconds: int, nanos: int) {
    predicate CheckValid() {
      -62135596800 <= seconds <= 253402300799 && 0 <= nanos <= 999999999
    }

    function Nanoseconds(): int {
      seconds * 1000000000 + nanos
    }
  }

  // time.Time{}: 0001-01-01T00:00:00Z, which CheckValid accepts.
  const ZERO_TIME := Timestamp(-62135596800, 0).Nanoseconds()

  datatype Sample = Sample(
    machine: MachineId,
    collectedAt: int,  // nanoseconds since 1970
    cpu: Float,
    memoryTotal: int,
    memoryUsed: int,
    diskTotal: int,
    diskUsed: int,
    uptime: int)

  predicate ValidSample(s: Sample) {
    && TrimSpace(s.machine) != ""
    && s.collectedAt != ZERO_TIME
    && s.cpu.Finite? && 0.0 <= s.cpu.value <= 100.0
    && 0 <= s.memoryTotal && 0 <= s.memoryUsed <= s.memoryTotal
    && 0 <= s.diskTotal && 0 <= s.diskUsed <= s.diskTotal
    && 0 <= s.uptime
  }

  /* ---- The table ---- */

  // TIMESTAMPTZ keeps microseconds: the nanoseconds below are dropped.
  datatype Key = Key(machine: MachineId, collectedAt: Time)

  // NUMERIC(5, 2) as a number of hundredths, or NUMERIC's own NaN.
  datatype Numeric = NotANumber | Hundredths(h: int)

  datatype Stored = Stored(
    receivedAt: Time,
    cpu: Numeric,
    memoryTotal: int,
    memoryUsed: int,
    diskTotal: int,
    diskUsed: int,
    uptime: int)

  type Table = map<Key, Stored>

  function KeyOf(s: Sample): Key {
    Key(s.machine, s.collectedAt / 1000)
  }

  // To the nearest hundredth, halves away from zero.
  function RoundToHundredths(x: real): int {
    if x >= 0.0 then (x * 100.0 + 0.5).Floor else -((-x * 100.0 + 0.5).Floor)
  }

  // None where the value does not fit the column.
  function ToNumeric(f: Float): Option<Numeric> {
    match f
    case NaN => Some(NotANumber)
    case Infinite(_) => None
    case Finite(x) =>
      var h := RoundToHundredths(x);
      if -100000 < h < 100000 then Some(Hundredths(h)) else None
  }

  // The CHECK constraints of telemetry_samples; NaN is above every number.
  predicate Checks(r: Stored) {
    && r.cpu.Hundredths? && 0 <= r.cpu.h <= 10000
    && 0 <= r.memoryTotal && 0 <= r.memoryUsed <= r.memoryTotal
    && 0 <= r.diskTotal && 0 <= r.diskUsed <= r.diskTotal
    && 0 <= r.uptime
  }

  function Columns(s: Sample, now: Time): Option<Stored> {
    var cpu := ToNumeric(s.cpu);
    if cpu.None? then None
    else Some(Stored(now, cpu.value, s.memoryTotal, s.memoryUsed, s.diskTotal, s.diskUsed, s.uptime))
  }

  predicate Storable(s: Sample) {
    var r := Columns(s, 0);
    r.Some? && Checks(r.value)
  }

  // Where the Go validation and the CHECKs part: a CPU usage that rounds into range is stored
  // but not accepted, and the schema knows neither blank machines nor the zero time.
  lemma ValidationAgreesWithChecks(s: Sample)
    ensures ValidSample(s) ==> Storable(s)
    ensures Storable(s) <==>
            && s.cpu.Finite? && -0.005 < s.cpu.value < 100.005
            && 0 <= s.memoryUsed <= s.memoryTotal && 0 <= s.diskUsed <= s.diskTotal && 0 <= s.uptime
    ensures Storable(s) && !ValidSample(s) <==>
            && s.cpu.Finite? && -0.005 < s.cpu.value < 100.005
            && 0 <= s.memoryUsed <= s.memoryTotal && 0 <= s.diskUsed <= s.diskTotal && 0 <= s.uptime
            && (s.cpu.value < 0.0 || s.cpu.value > 100.0 || TrimSpace(s.machine) == "" || s.collectedAt == ZERO_TIME)
  {
    if s.cpu.Finite? {
      RoundsIntoRangeExactlyWhen(s.cpu.value);
    }
  }

  // The nearest hundredth, halves away from zero.
  lemma RoundsToNearest(x: real)
    ensures x >= 0.0 ==> RoundToHundredths(x) as real - 0.5 <= x * 100.0 < RoundToHundredths(x) as real + 0.5
    ensures RoundToHundredths(-x) == -RoundToHundredths(x)
  {
    var y := (if x >= 0.0 then x else -x) * 100.0 + 0.5;
    assert y.Floor as real <= y < y.Floor as real + 1.0;
    assert x == 0.0 ==> y.Floor == 0;
  }

  lemma RoundsIntoRangeExactlyWhen(x: real)
    ensures 0 <= RoundToHundredths(x) <= 10000 <==> -0.005 < x < 100.005
  {
    if x >= 0.0 {
      var y := x * 100.0 + 0.5;
      assert y.Floor as real <= y < y.Floor as real + 1.0;
    } else {
      var y := -x * 100.0 + 0.5;
      assert y.Floor as real <= y < y.Floor as real + 1.0;
    }
  }

  // INSERT ... ON CONFLICT (machine_id, collected_at) DO UPDATE
  function Upsert(table: Table, s: Sample, now: Time): Table
    requires Storable(s)
  {
    table[KeyOf(s) := Columns(s, now).value]
  }

  // The row a sample leaves, and that no other row changes.
  lemma UpsertWritesOneRow(t: Table, s: Sample, now: Time)
    requires Storable(s)
    ensures var t', k := Upsert(t, s, now), Key(s.machine, s.collectedAt / 1000);
            && t'.Keys == t.Keys + {k}
            && (forall j :: j in t && j != k ==> t'[j] == t[j])
            && t'[k].receivedAt == now
            && t'[k].cpu.Hundredths?
            && (s.cpu.value >= 0.0 ==> t'[k].cpu.h as real - 0.5 <= s.cpu.value * 100.0 < t'[k].cpu.h as real + 0.5)
            && (s.cpu.value < 0.0 ==> t'[k].cpu.h == 0)
            && t'[k].memoryTotal == s.memoryTotal && t'[k].memoryUsed == s.memoryUsed
            && t'[k].diskTotal == s.diskTotal && t'[k].diskUsed == s.diskUsed && t'[k].uptime == s.uptime
  {
    ValidationAgreesWithChecks(s);
    RoundsToNearest(s.cpu.value);
    RoundsToNearest(-s.cpu.value);
  }

  /* ---- Histories of Record calls ---- */

  // One call of the service: the sample, the clock, and whether the database failed.
  datatype Attempt = Attempt(sample: Sample, now: Time, fault: bool)

  predicate Succeeds(a: Attempt) {
    ValidSample(a.sample) && !a.fault
  }

  function Record(table: Table, a: Attempt): Table {
    if Succeeds(a) then
      ValidationAgreesWithChecks(a.sample);
      Upsert(table, a.sample, a.now)
    else table
  }

  function Replay(table: Table, history: seq<Attempt>): Table {
    if history == [] then table else Record(Replay(table, Front(history)), Last(history))
  }

  ghost predicate LastSuccess(history: seq<Attempt>, key: Key, i: int) {
    && 0 <= i < |history| && Succeeds(history[i]) && KeyOf(history[i].sample) == key
    && forall j :: i < j < |history| && Succeeds(history[j]) ==> KeyOf(history[j].sample) != key
  }

  // The table maps each key to the last successful sample recorded for it, and holds no other key.
  lemma {:induction false} LastWriterWins(history: seq<Attempt>, key: Key)
    ensures var table := Replay(map[], history);
            && (key in table <==> exists i :: LastSuccess(history, key, i))
            && forall i :: LastSuccess(history, key, i) ==>
                 key in table && Some(table[key]) == Columns(history[i].sample, history[i].now)
  {
    if history != [] {
      var before, a, n := Front(history), Last(history), |history| - 1;
      LastWriterWins(before, key);
      assert history == before + [a];
      if Succeeds(a) && KeyOf(a.sample) == key {
        assert LastSuccess(history, key, n);
      } else {
        forall i ensures LastSuccess(history, key, i) <==> LastSuccess(before, key, i) {
          if LastSuccess(before, key, i) { assert history[i] == before[i]; }
          if LastSuccess(history, key, i) { assert before[i] == history[i]; }
        }
      }
    }
  }

  lemma {:induction false} ReplayAppend(table: Table, a: seq<Attempt>, b: seq<Attempt>)
    ensures Replay(table, a + b) == Replay(Replay(table, a), b)
  {
    if b == [] {
      assert a + b == a;
    } else {
      ReplayAppend(table, a, Front(b));
      assert Front(a + b) == a + Front(b);
    }
  }

  lemma RecordsCommute(t: Table, a: Attempt, b: Attempt)
    requires KeyOf(a.sample) != KeyOf(b.sample)
    ensures Record(Record(t, a), b) == Record(Record(t, b), a)
  {
  }

  // Swapping two neighbours with different keys changes nothing, whatever comes around them.
  lemma DifferentKeysCommute(before: seq<Attempt>, a: Attempt, b: Attempt, after: seq<Attempt>)
    requires KeyOf(a.sample) != KeyOf(b.sample)
    ensures Replay(map[], before + [a, b] + after) == Replay(map[], before + [b, a] + after)
  {
    ReplayAppend(map[], before + [a, b], after);
    ReplayAppend(map[], before + [b, a], after);
    ReplayAppend(map[], before, [a, b]);
    ReplayAppend(map[], before, [b, a]);
    ReplayPair(Replay(map[], before), a, b);
    ReplayPair(Replay(map[], before), b, a);
    RecordsCommute(Replay(map[], before), a, b);
  }

  lemma ReplayPair(table: Table, a: Attempt, b: Attempt)
    ensures Replay(table, [a, b]) == Record(Record(table, a), b)
  {
    assert Front([a, b]) == [a] && Front([a]) == [];
    assert Replay(table, [a]) == Record(Replay(table, []), a);
  }

  ghost predicate SameApartFromReceived(t: Table, u: Table) {
    && t.Keys == u.Keys
    && forall k :: k in t ==> t[k].(receivedAt := 0) == u[k].(receivedAt := 0)
  }

  // Sending a key's latest sample again changes its received_at at most.
  lemma ReplayingTheLatestIsIdempotent(history: seq<Attempt>, i: int, again: Attempt)
    requires 0 <= i < |history| && LastSuccess(history, KeyOf(again.sample), i)
    requires again.sample == history[i].sample
    ensures SameApartFromReceived(Replay(map[], history + [again]), Replay(map[], history))
  {
    LastWriterWins(history, KeyOf(again.sample));
    assert Front(history + [again]) == history;
  }

  // The table keeps microseconds while samples carry nanoseconds: a second sample of a machine
  // replaces the first exactly when both fall into one microsecond.
  lemma LaterSampleReplacesExactlyWithinAMicrosecond(t: Table, a: Sample, b: Sample, now: Time, later: Time)
    requires Storable(a) && Storable(b) && a.machine == b.machine && KeyOf(a) !in t
    ensures Upsert(Upsert(t, a, now), b, later) == Upsert(t, b, later) <==>
            a.collectedAt / 1000 == b.collectedAt / 1000
  {
    if KeyOf(a) != KeyOf(b) {
      assert KeyOf(a) in Upsert(Upsert(t, a, now), b, later) && KeyOf(a) !in Upsert(t, b, later);
    }
  }

  // Such pairs exist among the samples the service accepts.
  lemma TwoValidSamplesCanShareARow()
    ensures var a := Sample("m", 1000, Finite(0.0), 1, 1, 1, 1, 1);
            var b := a.(collectedAt := 1999, uptime := 2);
            ValidSample(a) && ValidSample(b) && a.collectedAt != b.collectedAt && KeyOf(a) == KeyOf(b)
  {
    NothingToTrim("m", UnicodeSpace);
  }
}
