/**
 StreamUpdates: one authenticated stream of an agent.  The handler is given as an automaton that
 either waits for the stream or is about to call the presence tracker or the telemetry recorder;
 the imperative method below is proved to make exactly the automaton's calls.
 */
module Stream {
  import opened Basics
  import opened Text
  import opened Presence
  import opened Credentials
  import opened Telemetry

  datatype Session = Session(machine: MachineId, agent: Uuid, connectedAt: Time)

  datatype Update = Update(
    collectedAt: Option<Timestamp>,
    cpu: Float,
    memoryTotal: int,
    memoryUsed: int,
    diskTotal: int,
    diskUsed: int,
    uptime: int)

  datatype Message =
    | AuthenticateMessage(credentials: Credentials)
    | HeartbeatMessage
    | TelemetryMessage(update: Update)
    | EmptyMessage

  // One result of stream.Recv(); a message may be nil.
  datatype Received = Got(message: Option<Message>) | EndOfStream | Broken

  // Finished is whatever SendAndClose returns, Transport the error Recv returned.
  datatype Code = Finished | InvalidArgument | Unauthenticated | Internal | Transport

  datatype Call =
    | Open(credentials: Credentials)
    | Record(sample: Sample)
    | Activity(session: Session)
    | Close(session: Session)

  datatype OpenReply = Opened(session: Session) | Rejected | OpenFailed
  datatype RecordReply = Recorded | Invalid | RecordFailed

  // What the collaborators would answer to the next call, whichever it is.
  datatype Reply = Reply(open: OpenReply, record: RecordReply, ok: bool)

  // The machine is the session's: the message does not name one.
  function SampleOf(session: Session, update: Update): Option<Sample> {
    if update.collectedAt.None? || !update.collectedAt.value.CheckValid() then None
    else
      Some(Sample(session.machine, update.collectedAt.value.Nanoseconds(), update.cpu, update.memoryTotal,
                  update.memoryUsed, update.diskTotal, update.diskUsed, update.uptime))
  }

  // The sample of a message is accepted by the recorder exactly for these readings, and its row
  // then holds the message's own numbers under the session's machine, the CPU usage to the nearest
  // hundredth.
  lemma MessageReachesItsRow(session: Session, update: Update, now: Time)
    ensures SampleOf(session, update).Some? <==>
              && update.collectedAt.Some?
              && -62135596800 <= update.collectedAt.value.seconds <= 253402300799
              && 0 <= update.collectedAt.value.nanos <= 999999999
    ensures SampleOf(session, update).Some? ==>
              var sample := SampleOf(session, update).value;
              && (ValidSample(sample) <==>
                    && TrimSpace(session.machine) != "" && update.collectedAt.value != Timestamp(-62135596800, 0)
                    && update.cpu.Finite? && 0.0 <= update.cpu.value <= 100.0
                    && 0 <= update.memoryUsed <= update.memoryTotal && 0 <= update.diskUsed <= update.diskTotal
                    && 0 <= update.uptime)
              && (ValidSample(sample) ==>
                    && KeyOf(sample) == Key(session.machine, update.collectedAt.value.seconds * 1000000 + update.collectedAt.value.nanos / 1000)
                    && Columns(sample, now).Some?
                    && var row := Columns(sample, now).value;
                    && row.receivedAt == now
                    && row.cpu.Hundredths?
                    && row.cpu.h as real - 0.5 <= update.cpu.value * 100.0 < row.cpu.h as real + 0.5
                    && row.memoryTotal == update.memoryTotal && row.memoryUsed == update.memoryUsed
                    && row.diskTotal == update.diskTotal && row.diskUsed == update.diskUsed && row.uptime == update.uptime)
  {
    if SampleOf(session, update).Some? {
      var t, sample := update.collectedAt.value, SampleOf(session, update).value;
      assert (t.seconds * 1000000000 + t.nanos) / 1000 == t.seconds * 1000000 + t.nanos / 1000;
      ValidationAgreesWithChecks(sample);
      if sample.cpu.Finite? { RoundsToNearest(sample.cpu.value); }
    }
  }

  // The first half of OpenSession, up to the comparison of the hashes; None goes on to start a
  // session for the identity that Authenticate found.
  function LookupReply(env: Env, identities: map<Uuid, Identity>, c: Credentials, fault: bool): Option<OpenReply> {
    if !WellFormed(env, c) then Some(Rejected)
    else if fault then Some(OpenFailed)
    else if Authenticate(env, identities, c).None? then Some(Rejected)
    else None
  }

  // The second half: a session for `identity`, unless its machine is missing or the call fails.
  function StartReply(machines: set<MachineId>, identity: Identity, fault: bool, at: Readings): OpenReply {
    if fault || identity.machine !in machines then OpenFailed
    else Opened(Session(identity.machine, identity.agent, at.connected))
  }

  // Both halves with nothing in between; the faults are those of the two store calls.
  function OpenReplyOf(env: Env, identities: map<Uuid, Identity>, machines: set<MachineId>, c: Credentials,
                       findFault: bool, startFault: bool, at: Readings): OpenReply
  {
    var early := LookupReply(env, identities, c, findFault);
    if early.Some? then early.value
    else StartReply(machines, Authenticate(env, identities, c).value, startFault, at)
  }

  // Who is let in, in terms of the request and the table alone.
  lemma OpenReplyIsExact(env: Env, identities: map<Uuid, Identity>, machines: set<MachineId>, c: Credentials,
                         findFault: bool, startFault: bool, at: Readings)
    ensures var parsed := env.uuid(c.agentId).Some? && TrimSpace(c.secret) != "";
            var a := if parsed then env.uuid(c.agentId).value else "";
            var known := a in identities && !identities[a].revoked && identities[a].hash == env.sha256(c.secret);
            var r := OpenReplyOf(env, identities, machines, c, findFault, startFault, at);
            && (r == Rejected <==> !parsed || (!findFault && !known))
            && (r == OpenFailed <==> parsed && (findFault || (known && (startFault || identities[a].machine !in machines))))
            && (r.Opened? ==> r.session == Session(identities[a].machine, identities[a].agent, at.connected))
            && (LookupReply(env, identities, c, findFault) == Some(Rejected) <==> !parsed || (!findFault && !known))
            && (LookupReply(env, identities, c, findFault) == Some(OpenFailed) <==> parsed && findFault)
            && (LookupReply(env, identities, c, findFault).None? <==> parsed && !findFault && known)
            && (parsed && known ==> Authenticate(env, identities, c) == Some(identities[a]))
  {
  }

  /* ---- The automaton ---- */

  datatype Handler =
    | Waiting
    | Opening(credentials: Credentials)
    | Receiving(session: Session)
    | Recording(session: Session, sample: Sample)
    | Touching(session: Session)
    | Closing(session: Session, code: Code)
    | Rejecting(code: Code)                                    // returned without a session
    | Done(session: Session, code: Code, closeFailed: bool)    // returned after closing it

  predicate Returned(h: Handler) {
    h.Rejecting? || h.Done?
  }

  predicate Receives(h: Handler) {
    h.Waiting? || h.Receiving?
  }

  function OnReceived(h: Handler, r: Received): Handler
    requires Receives(h)
  {
    match h
    case Waiting =>
      (match r
       case EndOfStream => Rejecting(InvalidArgument)
       case Broken => Rejecting(Transport)
       case Got(m) =>
         if m.Some? && m.value.AuthenticateMessage? then Opening(m.value.credentials) else Rejecting(InvalidArgument))
    case Receiving(session) =>
      (match r
       case EndOfStream => Closing(session, Finished)
       case Broken => Closing(session, Transport)
       case Got(None) => Closing(session, InvalidArgument)
       case Got(Some(m)) =>
         match m
         case HeartbeatMessage => Touching(session)
         case AuthenticateMessage(_) => Closing(session, InvalidArgument)
         case TelemetryMessage(update) =>
           var sample := SampleOf(session, update);
           if sample.None? then Closing(session, InvalidArgument) else Recording(session, sample.value)
         case EmptyMessage => Closing(session, InvalidArgument))
  }

  function NextCall(h: Handler): Call
    requires !Returned(h) && !Receives(h)
  {
    match h
    case Opening(credentials) => Open(credentials)
    case Recording(_, sample) => Record(sample)
    case Touching(session) => Activity(session)
    case Closing(session, _) => Close(session)
  }

  function OnReply(h: Handler, reply: Reply): Handler
    requires !Returned(h) && !Receives(h)
  {
    match h
    case Opening(_) =>
      (match reply.open
       case Opened(session) => Receiving(session)
       case Rejected => Rejecting(Unauthenticated)
       case OpenFailed => Rejecting(Internal))
    case Recording(session, _) =>
      (match reply.record
       case Recorded => Touching(session)
       case Invalid => Closing(session, InvalidArgument)
       case RecordFailed => Closing(session, Internal))
    case Touching(session) => if reply.ok then Receiving(session) else Closing(session, Internal)
    case Closing(session, code) =>
      // Only at the end of the stream is the error of CloseSession reported.
      Done(session, if code == Finished && !reply.ok then Internal else code, !reply.ok)
  }

  function Rank(h: Handler): nat {
    match h
    case Waiting => 2 case Opening(_) => 5 case Recording(_, _) => 4 case Touching(_) => 3
    case Receiving(_) => 2 case Closing(_, _) => 1 case Rejecting(_) => 0 case Done(_, _, _) => 0
  }

  // The code returned and the calls made from `h` on.  The stream breaks when `inbox` is used up;
  // `replies(n)` is what the n-th call is answered.
  function Drive(h: Handler, inbox: seq<Received>, replies: nat -> Reply, n: nat): (Code, seq<Call>)
    decreases |inbox|, Rank(h)
  {
    if Returned(h) then (h.code, [])
    else if Receives(h) then
      if inbox == [] then Drive(OnReceived(h, Broken), [], replies, n)
      else Drive(OnReceived(h, inbox[0]), inbox[1..], replies, n)
    else
      var rest := Drive(OnReply(h, replies(n)), inbox, replies, n + 1);
      (rest.0, [NextCall(h)] + rest.1)
  }

  /* ---- The method ---- */

  // The stream, the presence tracker and the telemetry recorder of one handler.
  class Collaborators {
    var inbox: seq<Received>
    var calls: seq<Call>
    const replies: nat -> Reply

    constructor (inbox: seq<Received>, replies: nat -> Reply)
      ensures this.inbox == inbox && this.replies == replies && calls == []
    {
      this.inbox, this.replies, calls := inbox, replies, [];
    }

    method Recv() returns (r: Received)
      modifies this`inbox
      ensures if old(inbox) == [] then r == Broken && inbox == [] else r == old(inbox)[0] && inbox == old(inbox)[1..]
    {
      if inbox == [] {
        r := Broken;
      } else {
        r, inbox := inbox[0], inbox[1..];
      }
    }

    method Make(call: Call) returns (reply: Reply)
      modifies this`calls
      ensures calls == old(calls) + [call] && reply == replies(|old(calls)|)
    {
      reply := replies(|calls|);
      calls := calls + [call];
    }
  }

  // What the handler is committed to when it has made the calls in `made`.
  ghost predicate OnCourse(goal: (Code, seq<Call>), h: Handler, inbox: seq<Received>, replies: nat -> Reply, made: seq<Call>) {
    goal.0 == Drive(h, inbox, replies, |made|).0 && goal.1 == made + Drive(h, inbox, replies, |made|).1
  }

  lemma CallStaysOnCourse(goal: (Code, seq<Call>), h: Handler, inbox: seq<Received>, replies: nat -> Reply, made: seq<Call>)
    requires OnCourse(goal, h, inbox, replies, made) && !Returned(h) && !Receives(h)
    ensures var h' := OnReply(h, replies(|made|));
            && OnCourse(goal, h', inbox, replies, made + [NextCall(h)])
            && (Returned(h') ==> goal == (h'.code, made + [NextCall(h)]))
  {
    var rest := Drive(OnReply(h, replies(|made|)), inbox, replies, |made| + 1);
    assert made + ([NextCall(h)] + rest.1) == made + [NextCall(h)] + rest.1;
    assert made + [NextCall(h)] + [] == made + [NextCall(h)];
  }

  // One telemetry message of the loop; None to go on.
  method HandleTelemetry(c: Collaborators, session: Session, update: Update, ghost goal: (Code, seq<Call>)) returns (failure: Option<Code>)
    requires OnCourse(goal, OnReceived(Receiving(session), Got(Some(TelemetryMessage(update)))), c.inbox, c.replies, c.calls)
    modifies c`calls
    ensures failure.None? ==> OnCourse(goal, Receiving(session), c.inbox, c.replies, c.calls)
    ensures failure.Some? ==>
              failure.value != Finished && OnCourse(goal, Closing(session, failure.value), c.inbox, c.replies, c.calls)
  {
    var sample := SampleOf(session, update);
    if sample.None? { return Some(InvalidArgument); }
    CallStaysOnCourse(goal, Recording(session, sample.value), c.inbox, c.replies, c.calls);
    var reply := c.Make(Record(sample.value));
    match reply.record {
      case Invalid => return Some(InvalidArgument);
      case RecordFailed => return Some(Internal);
      case Recorded =>
        CallStaysOnCourse(goal, Touching(session), c.inbox, c.replies, c.calls);
        reply := c.Make(Activity(session));
        return if reply.ok then None else Some(Internal);
    }
  }

  method StreamUpdates(c: Collaborators) returns (code: Code)
    requires c.calls == []
    modifies c
    ensures (code, c.calls) == Drive(Waiting, old(c.inbox), c.replies, 0)
  {
    ghost var goal := Drive(Waiting, c.inbox, c.replies, 0);
    var received := c.Recv();
    if received.EndOfStream? { return InvalidArgument; }
    if received.Broken? { return Transport; }
    if received.message.None? || !received.message.value.AuthenticateMessage? { return InvalidArgument; }

    var credentials := received.message.value.credentials;
    assert OnCourse(goal, Opening(credentials), c.inbox, c.replies, c.calls);
    CallStaysOnCourse(goal, Opening(credentials), c.inbox, c.replies, c.calls);
    var reply := c.Make(Open(credentials));
    match reply.open {
      case Rejected => return Unauthenticated;
      case OpenFailed => return Internal;
      case Opened(session) =>
        var closed := false;
        code := Finished;
        var returned := false;
        while !returned
          invariant !returned ==> !closed && OnCourse(goal, Receiving(session), c.inbox, c.replies, c.calls)
          invariant returned && !closed ==> code != Finished && OnCourse(goal, Closing(session, code), c.inbox, c.replies, c.calls)
          invariant closed ==> (code, c.calls) == goal
          decreases !returned, |c.inbox|
        {
          var received := c.Recv();
          match received {
            case EndOfStream =>
              CallStaysOnCourse(goal, Closing(session, Finished), c.inbox, c.replies, c.calls);
              closed := true;
              var reply := c.Make(Close(session));
              returned, code := true, if reply.ok then Finished else Internal;
            case Broken => returned, code := true, Transport;
            case Got(None) => returned, code := true, InvalidArgument;
            case Got(Some(HeartbeatMessage)) =>
              CallStaysOnCourse(goal, Touching(session), c.inbox, c.replies, c.calls);
              var reply := c.Make(Activity(session));
              if !reply.ok { returned, code := true, Internal; }
            case Got(Some(AuthenticateMessage(_))) => returned, code := true, InvalidArgument;
            case Got(Some(TelemetryMessage(update))) =>
              var failure := HandleTelemetry(c, session, update, goal);
              if failure.Some? { returned, code := true, failure.value; }
            case Got(Some(EmptyMessage)) => returned, code := true, InvalidArgument;
          }
        }
        // The deferred closeSession.
        if !closed {
          CallStaysOnCourse(goal, Closing(session, code), c.inbox, c.replies, c.calls);
          closed := true;
          reply := c.Make(Close(session));
        }
    }
  }
}
