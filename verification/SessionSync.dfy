/** Inbox synchronisation.  Replies carry no request id, so at most one
    synchronisation may be in flight, and its answer must not get lost. */
module SessionSync {
  import opened Protocol
  import opened Session
  import opened SessionInvariants

  // ---- no command while an answer is outstanding -------------------------------

  /** Whether the step met the answer of the synchronisation in flight. */
  predicate Settled(now: Moment) {
    now.consumed.Some? && SettledBy(now.at, now.consumed.value)
  }

  /** A synchronisation command was issued and neither answered nor reset since. */
  predicate Outstanding(t: Trace) {
    match t
    case Empty => false
    case Then(past, now) =>
      now.issued == Some(SyncCommand) || (Outstanding(past) && !Settled(now) && !now.reset)
  }

  /** No command of any kind is issued while a synchronisation is outstanding. */
  predicate SyncSafe(t: Trace) {
    match t
    case Empty => true
    case Then(past, now) => (now.issued.Some? ==> !Outstanding(past)) && SyncSafe(past)
  }

  ghost predicate SyncTracked(m: Machine) {
    (Outstanding(m.trace) <==> m.state.sync.AwaitingResponse?) && SyncSafe(m.trace)
  }

  lemma PulledKeepsSyncTracked(m: Machine, i: Input)
    requires Sound(m) && SyncTracked(m) && Allowed(m.phase, i) && IsReading(m.phase) && !i.NothingReady?
    ensures SyncTracked(Step(m, i))
  {
    hide StoresGood, OnReply, OnSyncPacket, OnDrained, OnAckPacket, OnIdlePacket;
    ReceiveFits(Fresh(m), i);
    match Pull(Fresh(m), i)
    case GotPacket(p) => PacketKeepsSyncTracked(m, i, p);
    case _ =>
  }

  lemma PacketKeepsSyncTracked(m: Machine, i: Input, p: Packet)
    requires Sound(m) && SyncTracked(m) && Allowed(m.phase, i) && IsReading(m.phase)
    requires Pull(Fresh(m), i) == GotPacket(p)
    ensures SyncTracked(Step(m, i))
  {
    hide StoresGood, OnPulled;
    ReceiveFits(Fresh(m), i);
    PacketEffect(Receive(Fresh(m), i), p);
  }

  lemma OtherStepKeepsSyncTracked(m: Machine, i: Input)
    requires Sound(m) && SyncTracked(m) && Allowed(m.phase, i) && (i.NothingReady? || !IsReading(m.phase))
    ensures SyncTracked(Step(m, i))
  {}

  /** In every run, a synchronisation is outstanding exactly while the session says
      so, and nothing is written before its answer or a reset. */
  lemma {:induction false} SyncIsSafe(inputs: seq<Input>)
    requires Legal(Initial, inputs)
    ensures SyncTracked(After(Initial, inputs))
    decreases |inputs|
  {
    if inputs != [] {
      var front := inputs[..|inputs| - 1];
      var m, i := After(Initial, front), inputs[|inputs| - 1];
      RunIsSound(front);
      SyncIsSafe(front);
      if IsReading(m.phase) && !i.NothingReady? {
        PulledKeepsSyncTracked(m, i);
      } else {
        OtherStepKeepsSyncTracked(m, i);
      }
    }
  }

  // ---- the same, per transport session ------------------------------------------

  /** Like Outstanding, but only an answer or a newly opened transport counts. */
  predicate Unanswered(t: Trace) {
    match t
    case Empty => false
    case Then(past, now) =>
      now.issued == Some(SyncCommand) || (Unanswered(past) && !Settled(now) && !now.linked)
  }

  predicate SessionSafe(t: Trace) {
    match t
    case Empty => true
    case Then(past, now) => (now.issued.Some? ==> !Unanswered(past) || now.linked) && SessionSafe(past)
  }

  /** A caller may connect when offline or when no answer is awaited. */
  predicate ConnectsSafely(m: Machine, inputs: seq<Input>)
    requires Legal(m, inputs)
    decreases |inputs|
  {
    if inputs == [] then true
    else
      var front := inputs[..|inputs| - 1];
      var before := After(m, front).state;
      && ConnectsSafely(m, front)
      && (inputs[|inputs| - 1] == Start(Connect) ==> !before.connected || before.sync.Idle?)
  }

  ghost predicate SessionTracked(m: Machine) {
    (Unanswered(m.trace) ==> m.state.sync.AwaitingResponse? || !m.state.connected) && SessionSafe(m.trace)
  }

  lemma PulledKeepsSessionTracked(m: Machine, i: Input)
    requires Sound(m) && SessionTracked(m) && Allowed(m.phase, i) && IsReading(m.phase) && !i.NothingReady?
    ensures SessionTracked(Step(m, i))
  {
    hide StoresGood, OnReply, OnSyncPacket, OnDrained, OnAckPacket, OnIdlePacket;
    var t := Receive(Fresh(m), i);
    ReceiveFits(Fresh(m), i);
    match Pull(Fresh(m), i)
    case GotPacket(p) => PacketEffect(t, p);
    case _ =>
  }

  lemma OtherStepKeepsSessionTracked(m: Machine, i: Input)
    requires Sound(m) && SessionTracked(m) && Allowed(m.phase, i) && (i.NothingReady? || !IsReading(m.phase))
    requires i == Start(Connect) ==> !m.state.connected || m.state.sync.Idle?
    ensures SessionTracked(Step(m, i))
  {}

  /** If every connect is begun offline or with no answer awaited, nothing is
      written to a transport whose synchronisation is unanswered. */
  lemma {:induction false} SyncIsSafePerSession(inputs: seq<Input>)
    requires Legal(Initial, inputs) && ConnectsSafely(Initial, inputs)
    ensures SessionTracked(After(Initial, inputs))
    decreases |inputs|
  {
    if inputs != [] {
      var front := inputs[..|inputs| - 1];
      var m, i := After(Initial, front), inputs[|inputs| - 1];
      RunIsSound(front);
      SyncIsSafePerSession(front);
      if IsReading(m.phase) && !i.NothingReady? {
        PulledKeepsSessionTracked(m, i);
      } else {
        OtherStepKeepsSessionTracked(m, i);
      }
    }
  }

  lemma {:induction false} OutstandingIsUnanswered(inputs: seq<Input>)
    requires Legal(Initial, inputs)
    ensures Outstanding(After(Initial, inputs).trace) ==> Unanswered(After(Initial, inputs).trace)
    decreases |inputs|
  {
    if inputs != [] {
      var front := inputs[..|inputs| - 1];
      var m, i := After(Initial, front), inputs[|inputs| - 1];
      RunIsSound(front);
      SyncIsSafe(front);
      OutstandingIsUnanswered(front);
      LinkedWhenOpening(m, i);
    }
  }

  lemma LinkedWhenOpening(m: Machine, i: Input)
    requires Allowed(m.phase, i)
    ensures Step(m, i).trace.now.linked ==> m.phase.Opening?
  {
    if IsReading(m.phase) && Pull(Fresh(m), i).GotPacket? && m.phase.Reading? {
      var t := Receive(Fresh(m), i);
      assert OnReply(t, m.phase.request, m.phase.contacts, Pull(Fresh(m), i).packet).now.linked == t.now.linked;
    }
  }

  /** A connect that does not open the transport: it fails, or its caller drops it. */
  predicate FailsToOpen(i: Input) { i.OpenFailed? || i.Drop? }

  /** A request the session would write. */
  predicate Writable(op: Op) { op.Send? && Callable(op) && 1 <= op.size <= MAX_PAYLOAD }

  lemma FailedConnectForgets(m: Machine, i: Input, op: Op)
    requires m.phase.Ready? && m.state.connected && Unanswered(m.trace)
    requires FailsToOpen(i) && (Writable(op) || op.SyncNext?)
    ensures var opening := Step(m, Start(Connect));
            && opening.phase.Opening?
            && var failed := Step(opening, i);
            && failed.phase.Ready?
            && var next := Step(failed, Start(op));
            if op.Send? then !SessionSafe(next.trace)
            else next.phase.Draining? && !SessionSafe(Step(next, NothingReady).trace)
  {
    var failed := Step(Step(m, Start(Connect)), i);
    assert Unanswered(failed.trace.past);
    assert Unanswered(failed.trace) && failed.state.sync.Idle? && failed.state.connected;
    if op.SyncNext? {
      assert Unanswered(Step(failed, Start(op)).trace);
    }
  }

  /** What a caller does to write on the forgotten session. */
  function Misused(inputs: seq<Input>, i: Input, op: Op): seq<Input> {
    inputs + [Start(Connect)] + [i] + [Start(op)] + if op.SyncNext? then [NothingReady] else []
  }

  /** The condition of SyncIsSafePerSession is needed: connecting a connected client
      forgets the awaited answer, and if the transport then does not open, the next
      request or synchronisation goes out on the old one. */
  lemma ConnectWhileAwaitingIsUnsafe(inputs: seq<Input>, i: Input, op: Op)
    requires Legal(Initial, inputs)
    requires After(Initial, inputs).phase.Ready?
    requires After(Initial, inputs).state.connected && After(Initial, inputs).state.sync.AwaitingResponse?
    requires FailsToOpen(i) && (Writable(op) || op.SyncNext?)
    ensures Legal(Initial, Misused(inputs, i, op))
    ensures !SessionSafe(After(Initial, Misused(inputs, i, op)).trace)
  {
    hide Step, SessionSafe, Unanswered, After, Legal;
    SyncIsSafe(inputs);
    OutstandingIsUnanswered(inputs);
    FailedConnectForgets(After(Initial, inputs), i, op);
    AfterOneMore(Initial, inputs, Start(Connect));
    AfterOneMore(Initial, inputs + [Start(Connect)], i);
    var begun := inputs + [Start(Connect)] + [i] + [Start(op)];
    AfterOneMore(Initial, inputs + [Start(Connect)] + [i], Start(op));
    if op.SyncNext? { AfterOneMore(Initial, begun, NothingReady); } else { assert begun + [] == begun; }
  }

  // ---- a synchronisation that fails --------------------------------------------------

  /** Failures that say nothing about the answer: it may still come. */
  predicate Inconclusive(i: Input) {
    || i.Drop? || i == WriteFailed(false) || i == ReadFailed(false) || i == Arrived(Garbled) || i.ReadTimeout?
  }

  /** A drain that finds too many packets also gives up without an answer. */
  predicate Overflows(phase: Phase, i: Input) {
    phase.Draining? && i.Arrived? && i.raw.Decoded? && !Settles(i.raw.packet)
  }

  /** A synchronisation that ends while an answer is awaited leaves the session awaiting
      exactly after an inconclusive failure, which changes nothing else either. */
  lemma EndedSyncStaysAwaiting(m: Machine, i: Input)
    requires Sound(m) && Allowed(m.phase, i) && m.state.sync.AwaitingResponse?
    requires m.phase.SyncWriting? || m.phase.SyncReading? || m.phase.Draining?
    requires Step(m, i).phase.Ready?
    ensures var after := Step(m, i).state;
            && (after.sync.AwaitingResponse? <==> Inconclusive(i) || Overflows(m.phase, i))
            && (after.sync.AwaitingResponse? ==> after.connected && after.deferred.None?)
            && (Inconclusive(i) ==> after == m.state)
  {
    hide StoresGood;
    if IsReading(m.phase) && Pull(Fresh(m), i).GotPacket? {
      ReceiveFits(Fresh(m), i);
      PacketEffect(Receive(Fresh(m), i), Pull(Fresh(m), i).packet);
    }
  }

  /** No step met an answer or reset the session. */
  predicate Undecided(m: Machine, inputs: seq<Input>)
    requires Legal(m, inputs)
    decreases |inputs|
  {
    if inputs == [] then true
    else
      var now := After(m, inputs).trace.now;
      Undecided(m, inputs[..|inputs| - 1]) && !Settled(now) && !now.reset
  }

  lemma {:induction false} StaysOutstanding(m: Machine, inputs: seq<Input>)
    requires Outstanding(m.trace) && Legal(m, inputs) && Undecided(m, inputs)
    ensures Outstanding(After(m, inputs).trace)
    decreases |inputs|
  {
    if inputs != [] { StaysOutstanding(m, inputs[..|inputs| - 1]); }
  }

  /** From then on every request is refused, with nothing written and nothing changed,
      until an answer or a reset. */
  lemma RequestsAreRefusedUntilAnswered(inputs: seq<Input>, more: seq<Input>, r: Request, size: nat)
    requires Legal(Initial, inputs) && After(Initial, inputs).state.sync.AwaitingResponse?
    requires Legal(After(Initial, inputs), more) && Undecided(After(Initial, inputs), more)
    requires After(After(Initial, inputs), more).phase.Ready? && Callable(Send(r, size))
    ensures var m := After(After(Initial, inputs), more);
            var refused := Step(m, Start(Send(r, size)));
            && m.state.sync.AwaitingResponse? && refused.state == m.state && refused.phase.Ready?
            && refused.trace.now.ending == Returned(Failed(ProtocolInvariant)) && refused.trace.now.issued.None?
  {
    hide Undecided, Outstanding;
    SyncIsSafe(inputs);
    StaysOutstanding(After(Initial, inputs), more);
    RunsCompose(Initial, inputs, more);
    SyncIsSafe(inputs + more);
    RunIsSound(inputs + more);
  }

  // ---- no answer is lost ------------------------------------------------------------

  /** The answer was not lost: whoever synchronises gets it now or next. */
  ghost predicate HandedOver(m: Machine, after: Machine, answer: Answer, ready: ReadySync) {
    && after.state.sync.Idle? && after.trace.Then?
    && if m.phase.SyncReading? || m.phase.Draining? then after.trace.now.ending == Returned(answer)
       else after.state.deferred == Some(ready)
  }

  ghost predicate AnswerKept(m: Machine, after: Machine, p: Packet)
    requires Settles(p)
  {
    match p
    case ContactMsg(x) =>
      var message := Message(x.text, Some(m.state.nextId));
      HandedOver(m, after, Inbox(Some(message)), ReadyMessage(message))
    case ChannelMsg(x) =>
      var message := Message(x.text, Some(m.state.nextId));
      HandedOver(m, after, Inbox(Some(message)), ReadyMessage(message))
    case NoMoreMsgs => HandedOver(m, after, Inbox(None), ReadyEmpty)
    case Refusal(_) => HandedOver(m, after, Failed(ProtocolInvariant), ReadyError)
  }

  /** A packet that answers the synchronisation in flight is returned by the operation
      that synchronises or kept for the next one, except exactly for a refusal that an
      acknowledgement wait comes across: then the session goes on awaiting. */
  lemma AnswerIsKept(m: Machine, p: Packet)
    requires Sound(m) && Allowed(m.phase, Arrived(Decoded(p)))
    requires m.state.sync.AwaitingResponse? && Settles(p)
    ensures var after := Step(m, Arrived(Decoded(p)));
            && (AnswerKept(m, after, p) <==> !(p.Refusal? && m.phase.AckReading?))
            && (p.Refusal? && m.phase.AckReading? ==>
                  && after.state.sync.AwaitingResponse? && after.state.deferred.None?
                  && after.phase.Ready? && after.trace.now.ending == Returned(Failed(ProtocolInvariant)))
  {
    hide StoresGood;
    ReceiveFits(Fresh(m), Arrived(Decoded(p)));
    PacketEffect(Receive(Fresh(m), Arrived(Decoded(p))), Stamped(p, m.state.nextId));
  }

  /** No synchronisation or connect is begun, and the connection holds. */
  predicate LeftAlone(m: Machine, inputs: seq<Input>)
    requires Legal(m, inputs)
    decreases |inputs|
  {
    if inputs == [] then true
    else
      var front := inputs[..|inputs| - 1];
      && LeftAlone(m, front)
      && inputs[|inputs| - 1] !in {Start(SyncNext), Start(Connect)}
      && (After(m, front).state.connected ==> After(m, inputs).state.connected)
  }

  lemma StepKeepsDeferred(m: Machine, i: Input)
    requires Sound(m) && Allowed(m.phase, i) && m.state.deferred.Some?
    requires i != Start(SyncNext) && i != Start(Connect) && Step(m, i).state.connected
    ensures Step(m, i).state.deferred == m.state.deferred
  {
    if IsReading(m.phase) && Pull(Fresh(m), i).GotPacket? {
      ReceiveFits(Fresh(m), i);
      PacketEffect(Receive(Fresh(m), i), Pull(Fresh(m), i).packet);
    }
  }

  lemma {:induction false} DeferredSurvives(m: Machine, inputs: seq<Input>)
    requires Sound(m) && m.state.deferred.Some? && Legal(m, inputs) && LeftAlone(m, inputs)
    ensures Sound(After(m, inputs)) && After(m, inputs).state.deferred == m.state.deferred
    decreases |inputs|
  {
    if inputs != [] {
      var front := inputs[..|inputs| - 1];
      DeferredSurvives(m, front);
      StepKeepsSound(After(m, front), inputs[|inputs| - 1]);
      StepKeepsDeferred(After(m, front), inputs[|inputs| - 1]);
    }
  }

  /** A synchronisation answer that another reader comes across is returned by the
      next synchronisation, at once and without touching the transport, unless the
      connection is lost or reset in between. */
  lemma DeferredAnswerIsReturned(inputs: seq<Input>, p: Packet, more: seq<Input>)
    requires Legal(Initial, inputs) && Allowed(After(Initial, inputs).phase, Arrived(Decoded(p)))
    requires var m := After(Initial, inputs);
             && m.state.sync.AwaitingResponse? && SettledBy(m.phase, p)
             && !m.phase.SyncReading? && !m.phase.Draining?
             && Legal(Step(m, Arrived(Decoded(p))), more)
             && LeftAlone(Step(m, Arrived(Decoded(p))), more)
             && After(Step(m, Arrived(Decoded(p))), more).phase.Ready?
    ensures var m := After(Initial, inputs);
            var now := Step(After(Step(m, Arrived(Decoded(p))), more), Start(SyncNext)).trace.now;
            && now.consumed.None? && now.issued.None?
            && match p
               case ContactMsg(x) => now.ending == Returned(Inbox(Some(Message(x.text, Some(m.state.nextId)))))
               case ChannelMsg(x) => now.ending == Returned(Inbox(Some(Message(x.text, Some(m.state.nextId)))))
               case NoMoreMsgs => now.ending == Returned(Inbox(None))
               case _ => now.ending == Returned(Failed(ProtocolInvariant))
  {
    var m := After(Initial, inputs);
    RunIsSound(inputs);
    AnswerIsKept(m, p);
    ReceiveFits(Fresh(m), Arrived(Decoded(p)));
    PacketEffect(Receive(Fresh(m), Arrived(Decoded(p))), Stamped(p, m.state.nextId));
    StepKeepsSound(m, Arrived(Decoded(p)));
    DeferredSurvives(Step(m, Arrived(Decoded(p))), more);
  }
}
