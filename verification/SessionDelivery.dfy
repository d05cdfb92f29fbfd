/** Inbox messages: every parsed message gets an observation id of its own, is
    broadcast exactly once, and is returned by at most one synchronisation. */
module SessionDelivery {
  import opened Protocol
  import opened Session
  import opened SessionInvariants

  // ---- subsequences -----------------------------------------------------------

  /** `a` is what remains of `b` after leaving out some elements. */
  ghost predicate Subsequence<T>(a: seq<T>, b: seq<T>)
    decreases |b|
  {
    || a == []
    || (b != [] && Subsequence(a, b[..|b| - 1]))
    || (b != [] && a[|a| - 1] == b[|b| - 1] && Subsequence(a[..|a| - 1], b[..|b| - 1]))
  }

  lemma {:induction false} SubsequenceSkip<T>(a: seq<T>, b: seq<T>, x: T)
    requires Subsequence(a, b)
    ensures Subsequence(a, b + [x])
  {
    assert (b + [x])[..|b + [x]| - 1] == b;
  }

  lemma {:induction false} SubsequenceTake<T>(a: seq<T>, b: seq<T>, x: T)
    requires Subsequence(a, b)
    ensures Subsequence(a + [x], b + [x])
  {
    assert (a + [x])[..|a + [x]| - 1] == a;
    assert (b + [x])[..|b + [x]| - 1] == b;
  }

  lemma {:induction false} SubsequenceDropLast<T>(a: seq<T>, b: seq<T>)
    requires Subsequence(a, b) && a != []
    ensures Subsequence(a[..|a| - 1], b)
    decreases |b|
  {
    var c := b[..|b| - 1];
    assert b == c + [b[|b| - 1]];
    if Subsequence(a, c) { SubsequenceDropLast(a, c); }
    SubsequenceSkip(a[..|a| - 1], c, b[|b| - 1]);
  }

  /** Elements of a subsequence come from strictly increasing positions. */
  lemma {:induction false} SubsequencePositions<T>(a: seq<T>, b: seq<T>) returns (at: seq<nat>)
    requires Subsequence(a, b)
    ensures |at| == |a|
    ensures forall k :: 0 <= k < |a| ==> at[k] < |b| && b[at[k]] == a[k]
    ensures forall j, k :: 0 <= j < k < |a| ==> at[j] < at[k]
    decreases |b|
  {
    if a == [] {
      at := [];
    } else if Subsequence(a, b[..|b| - 1]) {
      at := SubsequencePositions(a, b[..|b| - 1]);
    } else {
      at := SubsequencePositions(a[..|a| - 1], b[..|b| - 1]);
      at := at + [|b| - 1];
    }
  }

  // ---- the message history of a trace --------------------------------------------

  function MessagesIn(p: Option<Packet>): seq<Message> {
    if p.Some? && IsMessage(p.value) then [p.value.message] else []
  }

  function MessageReturned(e: Ending): seq<Message> {
    match e
    case Returned(Inbox(Some(m))) => [m]
    case _ => []
  }

  function Held(s: State): seq<Message> {
    match s.deferred
    case Some(ReadyMessage(m)) => [m]
    case _ => []
  }

  function ParsedMessages(t: Trace): seq<Message> {
    match t
    case Empty => []
    case Then(past, now) => ParsedMessages(past) + MessagesIn(now.consumed)
  }

  function BroadcastMessages(t: Trace): seq<Message> {
    match t
    case Empty => []
    case Then(past, now) => BroadcastMessages(past) + MessagesIn(now.published)
  }

  function ReturnedMessages(t: Trace): seq<Message> {
    match t
    case Empty => []
    case Then(past, now) => ReturnedMessages(past) + MessageReturned(now.ending)
  }

  /** The id of the k-th message ever parsed: 1, 2, ... and, after 2^64 - 1 messages,
      1 again; zero is skipped. */
  function IdOf(k: nat): nat { 1 + k % 0xFFFF_FFFF_FFFF_FFFF }

  ghost predicate Delivering(m: Machine) {
    var parsed := ParsedMessages(m.trace);
    && BroadcastMessages(m.trace) == parsed
    && Subsequence(ReturnedMessages(m.trace) + Held(m.state), parsed)
    && m.state.nextId == IdOf(|parsed|)
    && forall k :: 0 <= k < |parsed| ==> parsed[k].observation == Some(IdOf(k))
  }

  // ---- one step ------------------------------------------------------------------

  /** The four ways a step can move a message. */
  ghost predicate Moves(before: seq<Message>, consumed: seq<Message>, returned: seq<Message>, after: seq<Message>) {
    || (returned == [] && (after == before || after == []))
    || (consumed == [] && returned == before && after == [])
    || (before == [] && returned == consumed && after == [])
    || (before == [] && returned == [] && after == consumed)
  }

  lemma PulledMoves(m: Machine, p: Packet)
    requires Sound(m) && Allowed(m.phase, Arrived(Decoded(p)))
    ensures var now := Step(m, Arrived(Decoded(p))).trace.now;
            && now.consumed == Some(Stamped(p, m.state.nextId))
            && MessagesIn(now.published) == MessagesIn(now.consumed)
            && Moves(Held(m.state), MessagesIn(now.consumed), MessageReturned(now.ending),
                Held(Step(m, Arrived(Decoded(p))).state))
  {
    var t := Receive(Fresh(m), Arrived(Decoded(p)));
    var q := Stamped(p, m.state.nextId);
    ReceiveFits(Fresh(m), Arrived(Decoded(p)));
    PacketEffect(t, q);
    if m.phase.Reading? { ReplyShares(t, m.phase.request, m.phase.contacts, q); }
  }

  lemma ReplyShares(t: Turn, r: Request, contacts: seq<nat>, p: Packet)
    requires t.now.published.None? && t.now.ending.Continues?
    ensures var now := OnReply(t, r, contacts, p).now;
            && MessagesIn(now.published) == MessagesIn(Some(p))
            && MessageReturned(now.ending) == []
  {}

  /** A step that consumes no packet can only hand over or lose a held message. */
  ghost predicate MovesNothingNew(m: Machine, after: Machine) {
    && after.trace.Then? && after.trace.now.consumed.None? && after.trace.now.published.None?
    && after.state.nextId == m.state.nextId
    && Moves(Held(m.state), [], MessageReturned(after.trace.now.ending), Held(after.state))
  }

  lemma BeginMoves(m: Machine, op: Op)
    requires Sound(m) && m.phase.Ready? && Callable(op)
    ensures MovesNothingNew(m, Step(m, Start(op)))
  {}

  lemma FaultMoves(m: Machine, i: Input)
    requires Sound(m) && IsReading(m.phase) && Allowed(m.phase, i) && !(i.Arrived? && i.raw.Decoded?)
    ensures MovesNothingNew(m, Step(m, i))
  {}

  lemma OtherMoves(m: Machine, i: Input)
    requires Sound(m) && Allowed(m.phase, i) && !(i.Arrived? && i.raw.Decoded?)
    ensures MovesNothingNew(m, Step(m, i))
  {
    if m.phase.Ready? { BeginMoves(m, i.op); }
    else if IsReading(m.phase) { FaultMoves(m, i); }
  }

  // ---- whole runs ------------------------------------------------------------------

  lemma {:induction false} SubsequenceMoves(returned: seq<Message>, held: seq<Message>, parsed: seq<Message>,
                         consumed: seq<Message>, out: seq<Message>, held': seq<Message>)
    requires Subsequence(returned + held, parsed) && Moves(held, consumed, out, held')
    requires |consumed| <= 1 && |held| <= 1
    ensures Subsequence(returned + out + held', parsed + consumed)
  {
    DroppingHeld(returned, held, parsed);
    var next := returned + out + held';
    if consumed == [] {
      assert next == returned + held || next == returned by { MovedTo(returned, held, consumed, out, held'); }
      assert parsed + consumed == parsed;
    } else {
      assert next == returned + held || next == returned || next == returned + consumed by {
        MovedTo(returned, held, consumed, out, held');
      }
      SkippingOne(returned + held, returned, parsed, consumed);
    }
  }

  lemma MovedTo(returned: seq<Message>, held: seq<Message>, consumed: seq<Message>, out: seq<Message>,
                held': seq<Message>)
    requires Moves(held, consumed, out, held')
    ensures var next := returned + out + held';
            next == returned + held || next == returned || next == returned + consumed
  {
    assert returned + [] == returned;
  }

  lemma {:induction false} SkippingOne(kept: seq<Message>, returned: seq<Message>, parsed: seq<Message>,
                                       consumed: seq<Message>)
    requires Subsequence(kept, parsed) && Subsequence(returned, parsed) && |consumed| == 1
    ensures Subsequence(kept, parsed + consumed)
    ensures Subsequence(returned, parsed + consumed)
    ensures Subsequence(returned + consumed, parsed + consumed)
  {
    assert consumed == [consumed[0]];
    SubsequenceSkip(kept, parsed, consumed[0]);
    SubsequenceSkip(returned, parsed, consumed[0]);
    SubsequenceTake(returned, parsed, consumed[0]);
  }

  lemma {:induction false} DroppingHeld(returned: seq<Message>, held: seq<Message>, parsed: seq<Message>)
    requires Subsequence(returned + held, parsed) && |held| <= 1
    ensures Subsequence(returned, parsed)
  {
    if held == [] {
      assert returned + held == returned;
    } else {
      SubsequenceDropLast(returned + held, parsed);
      assert (returned + held)[..|returned + held| - 1] == returned;
    }
  }

  lemma NextIdIsIdOf(k: nat)
    ensures NextIdAfter(IdOf(k)) == IdOf(k + 1)
    ensures 1 <= IdOf(k) < 0x1_0000_0000_0000_0000
  {}

  lemma StepKeepsDelivering(m: Machine, i: Input)
    requires Sound(m) && Delivering(m) && Allowed(m.phase, i)
    ensures Delivering(Step(m, i))
  {
    hide Delivering, NextIdAfter, Moves, OnReply, Retain, Track, Forget, Register, Sound, Cleared;
    if i.Arrived? && i.raw.Decoded? {
      PulledMoves(m, i.raw.packet);
      PacketEffectOnId(m, i.raw.packet);
    } else {
      OtherMoves(m, i);
    }
    Extended(m, Step(m, i));
  }

  /** Appending a step's moment to the history. */
  lemma {:induction false} Extended(m: Machine, after: Machine)
    requires Delivering(m) && after.trace.Then? && after.trace.past == m.trace
    requires var now := after.trace.now;
             && MessagesIn(now.published) == MessagesIn(now.consumed)
             && Moves(Held(m.state), MessagesIn(now.consumed), MessageReturned(now.ending), Held(after.state))
             && (forall x <- MessagesIn(now.consumed) :: x.observation == Some(m.state.nextId))
             && after.state.nextId
             == (if MessagesIn(now.consumed) == [] then m.state.nextId else NextIdAfter(m.state.nextId))
    ensures Delivering(after)
  {
    hide NextIdAfter, IdOf, Subsequence, Moves;
    var now := after.trace.now;
    NextIdIsIdOf(|ParsedMessages(m.trace)|);
    SubsequenceMoves(ReturnedMessages(m.trace), Held(m.state), ParsedMessages(m.trace),
                     MessagesIn(now.consumed), MessageReturned(now.ending), Held(after.state));
  }

  lemma PacketEffectOnId(m: Machine, p: Packet)
    requires Sound(m) && Allowed(m.phase, Arrived(Decoded(p)))
    ensures Step(m, Arrived(Decoded(p))).state.nextId
         == (if IsMessage(p) then NextIdAfter(m.state.nextId) else m.state.nextId)
  {
    ReceiveFits(Fresh(m), Arrived(Decoded(p)));
    PacketEffect(Receive(Fresh(m), Arrived(Decoded(p))), Stamped(p, m.state.nextId));
  }

  /** Over every run the broadcast messages are exactly the parsed ones in order, the
      messages returned by synchronisation are a subsequence of them, and the k-th
      parsed message carries the k-th id. */
  lemma {:induction false} MessagesAreDelivered(inputs: seq<Input>)
    requires Legal(Initial, inputs)
    ensures Delivering(After(Initial, inputs))
    decreases |inputs|
  {
    if inputs != [] {
      var front := inputs[..|inputs| - 1];
      RunIsSound(front);
      MessagesAreDelivered(front);
      StepKeepsDelivering(After(Initial, front), inputs[|inputs| - 1]);
    }
  }

  /** No two messages of a window of 2^64 - 1 share an id. */
  lemma IdsAreDistinct(j: nat, k: nat)
    requires j < k < j + 0xFFFF_FFFF_FFFF_FFFF
    ensures IdOf(j) != IdOf(k)
  {}

  ghost predicate DistinctIds(ms: seq<Message>) {
    forall j, k :: 0 <= j < k < |ms| ==> ms[j].observation != ms[k].observation
  }

  /** Before the counter wraps, each id is broadcast once and returned at most once. */
  lemma EachMessageOnce(inputs: seq<Input>)
    requires Legal(Initial, inputs)
    requires |ParsedMessages(After(Initial, inputs).trace)| < 0x1_0000_0000_0000_0000
    ensures var t := After(Initial, inputs).trace;
            && DistinctIds(BroadcastMessages(t))
            && DistinctIds(ReturnedMessages(t))
            && (forall m <- BroadcastMessages(t) :: m.observation.Some? && m.observation.value != 0)
  {
    var after := After(Initial, inputs);
    var parsed := ParsedMessages(after.trace);
    MessagesAreDelivered(inputs);
    forall j, k | 0 <= j < k < |parsed| ensures parsed[j].observation != parsed[k].observation {
      IdsAreDistinct(j, k);
    }
    var all := ReturnedMessages(after.trace) + Held(after.state);
    var at := SubsequencePositions(all, parsed);
    var returned := ReturnedMessages(after.trace);
    forall j, k | 0 <= j < k < |returned| ensures returned[j].observation != returned[k].observation {
      assert returned[j] == all[j] && returned[k] == all[k];
    }
  }

  // ---- connection events ---------------------------------------------------------------

  function Signals(t: Trace, e: Event): nat {
    match t
    case Empty => 0
    case Then(past, now) => Signals(past, e) + if now.signal == Some(e) then 1 else 0
  }

  /** How often the client went from connected to disconnected during a run. */
  function Falls(m: Machine, inputs: seq<Input>): nat
    requires Legal(m, inputs)
    decreases |inputs|
  {
    if inputs == [] then 0
    else
      var front := inputs[..|inputs| - 1];
      Falls(m, front) + if After(m, front).state.connected && !After(m, inputs).state.connected then 1 else 0
  }

  lemma StepSignals(m: Machine, i: Input)
    requires Sound(m) && Allowed(m.phase, i)
    ensures Step(m, i).trace.now.signal == Some(Disconnected) <==> m.state.connected && !Step(m, i).state.connected
  {
    hide Retain, Track, StoresGood;
    if IsReading(m.phase) && Pull(Fresh(m), i).GotPacket? {
      var t := Receive(Fresh(m), i);
      ReceiveFits(Fresh(m), i);
      PacketEffect(t, Pull(Fresh(m), i).packet);
      if m.phase.Reading? {
        assert OnReply(t, m.phase.request, m.phase.contacts, Pull(Fresh(m), i).packet).now.signal != Some(Disconnected);
      }
    }
  }

  /** Exactly one Disconnected event per connected-to-disconnected transition. */
  lemma {:induction false} DisconnectedEventsMatchFalls(inputs: seq<Input>)
    requires Legal(Initial, inputs)
    ensures Signals(After(Initial, inputs).trace, Disconnected) == Falls(Initial, inputs)
    decreases |inputs|
  {
    if inputs != [] {
      var front := inputs[..|inputs| - 1];
      RunIsSound(front);
      DisconnectedEventsMatchFalls(front);
      StepSignals(After(Initial, front), inputs[|inputs| - 1]);
    }
  }
}
