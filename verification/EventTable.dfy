/**
 The presence event table.  Ids come from an identity column: drawn when the row is inserted,
 never reused, and not returned when the inserting transaction rolls back.
 */
module EventTable {
  import opened Presence

  type EventId = nat

  datatype Event = Event(machine: MachineId, status: Status)

  // The statuses of `machine`'s events with an id below `n`, in id order.
  function LogBelow(events: map<EventId, Event>, machine: MachineId, n: nat): seq<Status> {
    if n == 0 then []
    else
      LogBelow(events, machine, n - 1) +
      if n - 1 in events && events[n - 1].machine == machine then [events[n - 1].status] else []
  }

  // Ids with no event of this machine may be skipped.
  lemma {:induction false} LogBelowSkips(events: map<EventId, Event>, machine: MachineId, n: nat, n': nat)
    requires n <= n'
    requires forall id :: id in events && events[id].machine == machine ==> id < n
    ensures LogBelow(events, machine, n') == LogBelow(events, machine, n)
  {
    if n < n' {
      LogBelowSkips(events, machine, n, n' - 1);
    }
  }

  // Inserting an event leaves the part of every log below its id, and every other machine's log.
  lemma {:induction false} LogBelowFrame(events: map<EventId, Event>, id: EventId, e: Event, machine: MachineId, n: nat)
    requires id !in events && (n <= id || e.machine != machine)
    ensures LogBelow(events[id := e], machine, n) == LogBelow(events, machine, n)
  {
    if n > 0 {
      LogBelowFrame(events, id, e, machine, n - 1);
    }
  }

  // An event whose id is above every id of its machine goes to the end of the machine's log.
  lemma InsertAppends(events: map<EventId, Event>, id: EventId, e: Event, n: nat)
    requires id !in events && id < n
    requires forall k :: k in events && events[k].machine == e.machine ==> k < id
    ensures LogBelow(events[id := e], e.machine, n) == LogBelow(events, e.machine, n) + [e.status]
  {
    LogBelowSkips(events, e.machine, id, n);
    LogBelowSkips(events[id := e], e.machine, id + 1, n);
    LogBelowFrame(events, id, e, e.machine, id);
  }
}
