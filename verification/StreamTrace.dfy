/**
 What StreamUpdates does over a whole stream, stated on the messages alone: which calls it makes,
 which samples are stored, and which code it returns, for every list of received messages and
 every pattern of failing calls.
 */
module StreamTrace {
  import opened Basics
  import opened Telemetry
  import opened Stream

  // The calls one message is worth; none for anything that ends the loop by itself.
  function CallsFor(session: Session, r: Received): seq<Call> {
    match r
    case Got(Some(HeartbeatMessage)) => [Activity(session)]
    case Got(Some(TelemetryMessage(update))) =>
      var sample := SampleOf(session, update);
      if sample.None? then [] else [Call.Record(sample.value), Activity(session)]
    case _ => []
  }

  // All of them succeed, the first being the n-th call of the stream.
  predicate Passes(session: Session, r: Received, replies: nat -> Reply, n: nat) {
    match |CallsFor(session, r)|
    case 0 => false
    case 1 => replies(n).ok
    case _ => replies(n).record.Recorded? && replies(n + 1).ok
  }

  function AllCalls(session: Session, rs: seq<Received>): seq<Call> {
    if rs == [] then [] else CallsFor(session, rs[0]) + AllCalls(session, rs[1..])
  }

  function FirstCallOf(session: Session, inbox: seq<Received>, n: nat, k: nat): nat
    requires k <= |inbox|
  {
    n + |AllCalls(session, inbox[..k])|
  }

  // k messages pass, each making its calls after those of the one before, and the next does not;
  // k == |inbox| when the stream broke after its last message.
  predicate StopsAt(session: Session, inbox: seq<Received>, replies: nat -> Reply, n: nat, k: nat) {
    if inbox == [] then k == 0
    else if Passes(session, inbox[0], replies, n) then
      k > 0 && StopsAt(session, inbox[1..], replies, n + |CallsFor(session, inbox[0])|, k - 1)
    else k == 0
  }

  // Where the loop stops.
  function StopIndex(session: Session, inbox: seq<Received>, replies: nat -> Reply, n: nat): (k: nat)
    ensures k <= |inbox| && StopsAt(session, inbox, replies, n, k)
  {
    if inbox != [] && Passes(session, inbox[0], replies, n) then
      1 + StopIndex(session, inbox[1..], replies, n + |CallsFor(session, inbox[0])|)
    else 0
  }

  function StoppedBy(inbox: seq<Received>, k: nat): Received
    requires k <= |inbox|
  {
    if k == |inbox| then Broken else inbox[k]
  }

  // What is still called for the message that stops the loop.
  function FailingCalls(session: Session, r: Received, replies: nat -> Reply, n: nat): seq<Call> {
    var calls := CallsFor(session, r);
    if |calls| == 2 && !replies(n).record.Recorded? then calls[..1] else calls
  }

  // The first failure decides; `close` is the number of the CloseSession call.
  function StopCode(session: Session, r: Received, replies: nat -> Reply, n: nat, close: nat): Code {
    match r
    case EndOfStream => if replies(close).ok then Finished else Internal
    case Broken => Transport
    case Got(_) =>
      if CallsFor(session, r) == [] || (|CallsFor(session, r)| == 2 && replies(n).record.Invalid?) then InvalidArgument
      else Internal
  }

  lemma FirstCallShifts(session: Session, inbox: seq<Received>, n: nat, k: nat)
    requires 0 < k <= |inbox|
    ensures FirstCallOf(session, inbox, n, k) ==
            FirstCallOf(session, inbox[1..], n + |CallsFor(session, inbox[0])|, k - 1)
    ensures AllCalls(session, inbox[..k]) == CallsFor(session, inbox[0]) + AllCalls(session, inbox[1..][..k - 1])
  {
    assert inbox[..k][1..] == inbox[1..][..k - 1];
  }

  // Every message before the stop makes all its calls in order, the stopping message makes its
  // calls up to the one that failed, and then the session is closed once.
  predicate LoopComesTo(session: Session, inbox: seq<Received>, replies: nat -> Reply, n: nat, k: nat)
    requires k <= |inbox|
  {
    var stop, m := StoppedBy(inbox, k), FirstCallOf(session, inbox, n, k);
    var failing := FailingCalls(session, stop, replies, m);
    Drive(Receiving(session), inbox, replies, n) ==
    (StopCode(session, stop, replies, m, m + |failing|), AllCalls(session, inbox[..k]) + failing + [Close(session)])
  }

  lemma PassingMessageComesFirst(session: Session, inbox: seq<Received>, replies: nat -> Reply, n: nat, k: nat)
    requires 0 < k <= |inbox| && Passes(session, inbox[0], replies, n)
    requires LoopComesTo(session, inbox[1..], replies, n + |CallsFor(session, inbox[0])|, k - 1)
    ensures LoopComesTo(session, inbox, replies, n, k)
  {
    LoopPasses(session, inbox, replies, n);
    FirstCallShifts(session, inbox, n, k);
    var stop, m := StoppedBy(inbox, k), FirstCallOf(session, inbox, n, k);
    var calls, more := CallsFor(session, inbox[0]), AllCalls(session, inbox[1..][..k - 1]);
    var failing := FailingCalls(session, stop, replies, m);
    assert stop == StoppedBy(inbox[1..], k - 1);
    assert calls + (more + failing + [Close(session)]) == calls + more + failing + [Close(session)];
  }

  // Every message before the stop makes all its calls in order, the stopping message makes its
  // calls up to the one that failed, and then the session is closed once.
  lemma {:induction false} LoopMakesExactlyTheseCalls(session: Session, inbox: seq<Received>, replies: nat -> Reply, n: nat, k: nat)
    requires k <= |inbox| && StopsAt(session, inbox, replies, n, k)
    ensures LoopComesTo(session, inbox, replies, n, k)
    decreases k
  {
    if k == 0 {
      LoopStops(session, inbox, replies, n);
      assert inbox[..0] == [];
      var failing := FailingCalls(session, StoppedBy(inbox, 0), replies, n);
      assert [] + failing + [Close(session)] == failing + [Close(session)];
    } else {
      LoopMakesExactlyTheseCalls(session, inbox[1..], replies, n + |CallsFor(session, inbox[0])|, k - 1);
      PassingMessageComesFirst(session, inbox, replies, n, k);
    }
  }

  // One reply at a time.
  lemma DriveAfterCall(h: Handler, inbox: seq<Received>, replies: nat -> Reply, n: nat)
    requires !Returned(h) && !Receives(h)
    ensures var rest := Drive(OnReply(h, replies(n)), inbox, replies, n + 1);
            && Drive(h, inbox, replies, n) == (rest.0, [NextCall(h)] + rest.1)
            && (h.Closing? ==> Drive(h, inbox, replies, n) == (OnReply(h, replies(n)).code, [NextCall(h)]))
  {
    if h.Closing? {
      assert Drive(OnReply(h, replies(n)), inbox, replies, n + 1) == (OnReply(h, replies(n)).code, []);
      assert [NextCall(h)] + [] == [NextCall(h)];
    }
  }

  lemma LoopStops(session: Session, inbox: seq<Received>, replies: nat -> Reply, n: nat)
    requires StopsAt(session, inbox, replies, n, 0)
    ensures var stop := StoppedBy(inbox, 0);
            var failing := FailingCalls(session, stop, replies, n);
            Drive(Receiving(session), inbox, replies, n) ==
            (StopCode(session, stop, replies, n, n + |failing|), failing + [Close(session)])
  {
    var stop, tail := StoppedBy(inbox, 0), if inbox == [] then [] else inbox[1..];
    var h := OnReceived(Receiving(session), stop);
    assert Drive(Receiving(session), inbox, replies, n) == Drive(h, tail, replies, n);
    DriveAfterCall(h, tail, replies, n);
    var failing := FailingCalls(session, stop, replies, n);
    if h.Closing? {
      assert failing + [Close(session)] == [Close(session)];
    } else {
      var h' := OnReply(h, replies(n));
      assert !h'.Receiving?;
      DriveAfterCall(h', tail, replies, n + 1);
      if h'.Closing? {
        assert failing == [NextCall(h)];
      } else {
        DriveAfterCall(OnReply(h', replies(n + 1)), tail, replies, n + 2);
        assert failing == [NextCall(h), NextCall(h')];
        assert [NextCall(h)] + ([NextCall(h')] + [Close(session)]) == [NextCall(h), NextCall(h')] + [Close(session)];
      }
    }
  }

  lemma LoopPasses(session: Session, inbox: seq<Received>, replies: nat -> Reply, n: nat)
    requires inbox != [] && Passes(session, inbox[0], replies, n)
    ensures var rest := Drive(Receiving(session), inbox[1..], replies, n + |CallsFor(session, inbox[0])|);
            Drive(Receiving(session), inbox, replies, n) == (rest.0, CallsFor(session, inbox[0]) + rest.1)
  {
    var h := OnReceived(Receiving(session), inbox[0]);
    assert Drive(Receiving(session), inbox, replies, n) == Drive(h, inbox[1..], replies, n);
    DriveAfterCall(h, inbox[1..], replies, n);
    if h.Recording? {
      DriveAfterCall(OnReply(h, replies(n)), inbox[1..], replies, n + 1);
      var rest := Drive(Receiving(session), inbox[1..], replies, n + 2).1;
      assert [NextCall(h)] + ([Activity(session)] + rest) == [NextCall(h), Activity(session)] + rest;
    }
  }

  /* ---- The stored samples ---- */

  // The samples among `calls` that were answered Recorded, the first call being the n-th.
  function StoredSamples(calls: seq<Call>, replies: nat -> Reply, n: nat): seq<Sample> {
    if calls == [] then []
    else
      (if calls[0].Record? && replies(n).record.Recorded? then [calls[0].sample] else []) +
      StoredSamples(calls[1..], replies, n + 1)
  }

  function ImageOf(session: Session, r: Received): seq<Sample> {
    match r
    case Got(Some(TelemetryMessage(update))) =>
      var sample := SampleOf(session, update);
      if sample.Some? then [sample.value] else []
    case _ => []
  }

  // The images of the telemetry messages, in order.
  function Images(session: Session, rs: seq<Received>): seq<Sample> {
    if rs == [] then [] else ImageOf(session, rs[0]) + Images(session, rs[1..])
  }

  lemma {:induction false} StoredSamplesAppend(a: seq<Call>, b: seq<Call>, replies: nat -> Reply, n: nat)
    ensures StoredSamples(a + b, replies, n) == StoredSamples(a, replies, n) + StoredSamples(b, replies, n + |a|)
  {
    if a == [] {
      assert a + b == b;
    } else {
      StoredSamplesAppend(a[1..], b, replies, n + 1);
      assert (a + b)[0] == a[0] && (a + b)[1..] == a[1..] + b;
      assert n + 1 + |a[1..]| == n + |a|;
    }
  }

  lemma {:induction false} PassingMessagesStoreTheirImages(session: Session, inbox: seq<Received>, replies: nat -> Reply, n: nat, k: nat)
    requires k <= |inbox| && StopsAt(session, inbox, replies, n, k)
    ensures StoredSamples(AllCalls(session, inbox[..k]), replies, n) == Images(session, inbox[..k])
    decreases k
  {
    if k > 0 {
      var calls := CallsFor(session, inbox[0]);
      PassingMessagesStoreTheirImages(session, inbox[1..], replies, n + |calls|, k - 1);
      FirstCallShifts(session, inbox, n, k);
      StoredSamplesAppend(calls, AllCalls(session, inbox[1..][..k - 1]), replies, n);
      assert inbox[..k][1..] == inbox[1..][..k - 1];
      assert inbox[..k][0] == inbox[0];
      PassingMessageStoresItsImage(session, inbox[0], replies, n);
    }
  }

  lemma PassingMessageStoresItsImage(session: Session, r: Received, replies: nat -> Reply, n: nat)
    requires Passes(session, r, replies, n)
    ensures StoredSamples(CallsFor(session, r), replies, n) == ImageOf(session, r)
  {
    var calls := CallsFor(session, r);
    assert calls[1..] == if |calls| == 2 then [calls[1]] else [];
    if |calls| == 2 {
      assert [calls[1]][1..] == [];
      assert StoredSamples([calls[1]], replies, n + 1) == [];
    }
  }

  // The stored samples are the images of the messages before the stop, and the stopping
  // message's own image if it was stored before its activity call failed.
  lemma StoredSamplesAreTheImages(session: Session, inbox: seq<Received>, replies: nat -> Reply, n: nat, k: nat)
    requires k <= |inbox| && StopsAt(session, inbox, replies, n, k)
    ensures var stop, m := StoppedBy(inbox, k), FirstCallOf(session, inbox, n, k);
            StoredSamples(Drive(Receiving(session), inbox, replies, n).1, replies, n) ==
            Images(session, inbox[..k]) + if replies(m).record.Recorded? then ImageOf(session, stop) else []
  {
    var stop, m := StoppedBy(inbox, k), FirstCallOf(session, inbox, n, k);
    var all, failing := AllCalls(session, inbox[..k]), FailingCalls(session, stop, replies, m);
    LoopMakesExactlyTheseCalls(session, inbox, replies, n, k);
    PassingMessagesStoreTheirImages(session, inbox, replies, n, k);
    StoredInTwoParts(all, failing, session, replies, n);
    FailingMessageStores(session, stop, replies, m);
  }

  lemma StoredInTwoParts(all: seq<Call>, failing: seq<Call>, session: Session, replies: nat -> Reply, n: nat)
    ensures StoredSamples(all + failing + [Close(session)], replies, n) ==
            StoredSamples(all, replies, n) + StoredSamples(failing, replies, n + |all|)
  {
    StoredSamplesAppend(all + failing, [Close(session)], replies, n);
    StoredSamplesAppend(all, failing, replies, n);
    assert [Close(session)][1..] == [];
    assert StoredSamples([Close(session)], replies, n + |all + failing|) == [];
  }

  lemma FailingMessageStores(session: Session, r: Received, replies: nat -> Reply, n: nat)
    ensures StoredSamples(FailingCalls(session, r, replies, n), replies, n) ==
            if replies(n).record.Recorded? then ImageOf(session, r) else []
  {
    var failing := FailingCalls(session, r, replies, n);
    if |failing| == 2 {
      assert failing[1..] == [failing[1]] && [failing[1]][1..] == [];
      assert StoredSamples([failing[1]], replies, n + 1) == [];
    } else if |failing| == 1 {
      assert failing[1..] == [];
    }
  }

  /* ---- The shape of the trace ---- */

  // (Activity | Record Activity)*, where only the last call before Close may have failed.
  ghost predicate LoopShape(calls: seq<Call>, session: Session, replies: nat -> Reply, n: nat) {
    if calls == [Close(session)] then true
    else if calls == [] then false
    else if calls[0] == Activity(session) then
      if replies(n).ok then LoopShape(calls[1..], session, replies, n + 1) else calls[1..] == [Close(session)]
    else if calls[0].Record? && calls[0].sample.machine == session.machine then
      if replies(n).record.Recorded? then
        |calls| > 1 && calls[1] == Activity(session) && LoopShape(calls[1..], session, replies, n + 1)
      else calls[1..] == [Close(session)]
    else false
  }

  lemma {:induction false} DriveHasLoopShape(h: Handler, inbox: seq<Received>, replies: nat -> Reply, n: nat)
    requires h.Receiving? || h.Touching? || h.Closing? || (h.Recording? && h.sample.machine == h.session.machine)
    ensures var calls := Drive(h, inbox, replies, n).1;
            && calls != [] && LoopShape(calls, h.session, replies, n)
            && (h.Touching? ==> calls[0] == Activity(h.session))
            && (h.Closing? ==> calls == [Close(h.session)])
    decreases |inbox|, Rank(h)
  {
    if h.Receiving? {
      DriveHasLoopShape(OnReceived(h, if inbox == [] then Broken else inbox[0]), if inbox == [] then [] else inbox[1..], replies, n);
    } else if !h.Closing? {
      DriveHasLoopShape(OnReply(h, replies(n)), inbox, replies, n + 1);
    }
  }

  function Closes(calls: seq<Call>): nat {
    if calls == [] then 0 else (if calls[0].Close? then 1 else 0) + Closes(calls[1..])
  }

  lemma {:induction false} LoopShapeClosesOnce(calls: seq<Call>, session: Session, replies: nat -> Reply, n: nat)
    requires LoopShape(calls, session, replies, n)
    ensures Closes(calls) == 1 && Last(calls) == Close(session)
  {
    if calls[1..] == [Close(session)] {
      assert calls[1..][1..] == [];
    } else if |calls| > 1 {
      LoopShapeClosesOnce(calls[1..], session, replies, n + 1);
    }
  }

  // For every stream and every pattern of failures: nothing, or one Open; and after an Open that
  // succeeded, and only then, the loop and exactly one Close, also when that Close fails.
  lemma StreamIsOpenedAndClosedOnce(inbox: seq<Received>, replies: nat -> Reply)
    ensures var calls := Drive(Waiting, inbox, replies, 0).1;
            && (calls != [] <==> inbox != [] && inbox[0].Got? && inbox[0].message.Some? && inbox[0].message.value.AuthenticateMessage?)
            && (calls != [] ==> calls[0] == Open(inbox[0].message.value.credentials))
            && (calls != [] && !replies(0).open.Opened? ==> |calls| == 1)
            && (calls != [] && replies(0).open.Opened? ==> LoopShape(calls[1..], replies(0).open.session, replies, 1))
            && Closes(calls) == if calls != [] && replies(0).open.Opened? then 1 else 0
  {
    if inbox != [] && OnReceived(Waiting, inbox[0]).Opening? {
      var authenticated := OnReply(OnReceived(Waiting, inbox[0]), replies(0));
      var calls, rest := Drive(Waiting, inbox, replies, 0).1, Drive(authenticated, inbox[1..], replies, 1).1;
      assert calls[1..] == rest;
      if replies(0).open.Opened? {
        DriveHasLoopShape(authenticated, inbox[1..], replies, 1);
        LoopShapeClosesOnce(rest, authenticated.session, replies, 1);
      }
    }
  }

  /* ---- The whole stream ---- */

  predicate Authenticates(r: Received) {
    r.Got? && r.message.Some? && r.message.value.AuthenticateMessage?
  }

  // The loop's code and calls, its first call being the n-th of the stream.
  function LoopOutcome(session: Session, inbox: seq<Received>, replies: nat -> Reply, n: nat): (Code, seq<Call>) {
    var k := StopIndex(session, inbox, replies, n);
    var stop, m := StoppedBy(inbox, k), FirstCallOf(session, inbox, n, k);
    var failing := FailingCalls(session, stop, replies, m);
    (StopCode(session, stop, replies, m, m + |failing|), AllCalls(session, inbox[..k]) + failing + [Close(session)])
  }

  // The code and the calls of a stream, from its messages and the replies alone.
  function StreamOutcome(inbox: seq<Received>, replies: nat -> Reply): (Code, seq<Call>) {
    if inbox == [] || inbox[0].Broken? then (Transport, [])
    else if !Authenticates(inbox[0]) then (InvalidArgument, [])
    else
      var open := Open(inbox[0].message.value.credentials);
      match replies(0).open
      case Rejected => (Unauthenticated, [open])
      case OpenFailed => (Internal, [open])
      case Opened(session) =>
        var loop := LoopOutcome(session, inbox[1..], replies, 1);
        (loop.0, [open] + loop.1)
  }

  // The samples a stream stores.
  function StoredByStream(inbox: seq<Received>, replies: nat -> Reply): seq<Sample> {
    if inbox == [] || !Authenticates(inbox[0]) || !replies(0).open.Opened? then []
    else
      var session, rest := replies(0).open.session, inbox[1..];
      var k := StopIndex(session, rest, replies, 1);
      Images(session, rest[..k]) +
      if replies(FirstCallOf(session, rest, 1, k)).record.Recorded? then ImageOf(session, StoppedBy(rest, k)) else []
  }

  lemma StreamHasItsOutcome(inbox: seq<Received>, replies: nat -> Reply)
    ensures Drive(Waiting, inbox, replies, 0) == StreamOutcome(inbox, replies)
  {
    if inbox != [] && Authenticates(inbox[0]) {
      var h := Opening(inbox[0].message.value.credentials);
      assert Drive(Waiting, inbox, replies, 0) == Drive(h, inbox[1..], replies, 0);
      DriveAfterCall(h, inbox[1..], replies, 0);
      if replies(0).open.Opened? {
        var session := replies(0).open.session;
        LoopMakesExactlyTheseCalls(session, inbox[1..], replies, 1, StopIndex(session, inbox[1..], replies, 1));
      } else {
        assert [NextCall(h)] + [] == [NextCall(h)];
      }
    }
  }

  lemma StreamStoresItsImages(inbox: seq<Received>, replies: nat -> Reply)
    ensures StoredSamples(Drive(Waiting, inbox, replies, 0).1, replies, 0) == StoredByStream(inbox, replies)
  {
    StreamHasItsOutcome(inbox, replies);
    if inbox != [] && Authenticates(inbox[0]) {
      var open := Open(inbox[0].message.value.credentials);
      assert [open][1..] == [];
      assert StoredSamples([open], replies, 0) == [];
      if replies(0).open.Opened? {
        var session, rest := replies(0).open.session, inbox[1..];
        var k := StopIndex(session, rest, replies, 1);
        LoopMakesExactlyTheseCalls(session, rest, replies, 1, k);
        StoredSamplesAreTheImages(session, rest, replies, 1, k);
        StoredSamplesAppend([open], LoopOutcome(session, rest, replies, 1).1, replies, 0);
      }
    }
  }

  // One run of the handler, on any stream and under any pattern of replies.
  method ServeStream(inbox: seq<Received>, replies: nat -> Reply) returns (code: Code, calls: seq<Call>)
    ensures (code, calls) == StreamOutcome(inbox, replies)
    ensures StoredSamples(calls, replies, 0) == StoredByStream(inbox, replies)
    ensures Closes(calls) == if calls != [] && replies(0).open.Opened? then 1 else 0
  {
    var c := new Collaborators(inbox, replies);
    code := StreamUpdates(c);
    calls := c.calls;
    StreamHasItsOutcome(inbox, replies);
    StreamStoresItsImages(inbox, replies);
    StreamIsOpenedAndClosedOnce(inbox, replies);
  }
}
