/** The history properties of one machine, for every interleaving of concurrent calls. */
module TransactionsHistory {
  import opened Basics
  import opened Presence
  import opened PresenceHistory
  import opened Transactions
  import opened TransactionsRefine

  // After any interleaving: the machine is online exactly when its most recently committed
  // StartSession has no committed EndSession of its own; its events alternate, start with online
  // and end in its status; and the calls that came too late can be dropped from the history.
  lemma CommittedStateTellsTheHistory(steps: seq<Step>, machine: MachineId)
    requires machine in Exec(steps).rows
    ensures var m := View(Exec(steps), machine);
            var ops := CommittedOps(steps, machine);
            && (m.row.status == Online <==> NewestUnended(ops))
            && Alternates(m.log) && (m.log == [] <==> m.row.status == Unknown)
            && (m.log != [] ==> Last(m.log) == m.row.status)
            && Starts(ops) == Count(m.log, Online) + Takeovers(ops)
            && EffectiveEnds(ops) == Count(m.log, Offline)
            && m == Run(NewMachine(m.row.registered), EraseStale(ops))
  {
    InterleavingsAreAtomic(steps, machine);
    var now, ops := Exec(steps).rows[machine].registered, CommittedOps(steps, machine);
    OnlineIffNewestSessionNotEnded(now, ops);
    LogAlternatesAndEndsInStatus(now, ops);
    EventsCountStartsAndEnds(now, ops);
    StaleCallsLeaveNoTrace(now, ops);
  }
}
