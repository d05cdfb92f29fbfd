/** The books of the acknowledgements: every one that was due is returned, waiting, or
    lost for one of three reasons. */
module SessionLedger {
  import opened Protocol
  import opened AckStore
  import opened Session
  import opened SessionInvariants
  import opened SessionAcks
  import opened SessionAnswers

  // ---- the completed store is a function of the history too -----------------------------

  /** An acknowledgement of a tracked code, read by anyone but its own waiter. */
  predicate CompletesCode(past: Trace, now: Moment) {
    && now.consumed.Some? && now.consumed.value.Ack? && now.at != AckReading(now.consumed.value.code)
    && Has(PendingHistory(past), now.consumed.value.code)
  }

  function CompletedHistory(t: Trace): Store {
    match t
    case Empty => []
    case Then(past, now) =>
      var xs := CompletedHistory(past);
      if now.reset then []
      else if TracksSend(now) then Without(xs, now.consumed.value.expectedAck)
      else if CompletesCode(past, now) then
        Remember(xs, Tracked(now.consumed.value.code, now.consumed.value.tripTime))
      else match now.began
           case Some(WaitForAck(code, true)) => Without(xs, code)
           case _ => xs
  }

  ghost predicate Booked(m: Machine) {
    m.state.pending == PendingHistory(m.trace) && m.state.completed == CompletedHistory(m.trace)
  }

  lemma PacketKeepsBooks(m: Machine, p: Packet)
    requires Sound(m) && IsReading(m.phase) && Booked(m)
    ensures Step(m, Arrived(Decoded(p))).state.completed == CompletedHistory(Step(m, Arrived(Decoded(p))).trace)
  {
    hide Step, Good, Apart, Remember, PendingHistory;
    PacketStores(m, p);
    PacketHistory(m, p);
    StepRecords(m, Arrived(Decoded(p)));
    PacketBegins(m, p);
    if p.Ack? { AckStores(m.state, m.phase, p); }
    if p.Refusal? && m.phase.AckReading? { WithoutAbsent(m.state.completed, m.phase.code); }
  }

  lemma PacketBegins(m: Machine, p: Packet)
    requires Sound(m) && IsReading(m.phase)
    ensures Step(m, Arrived(Decoded(p))).trace.now.began.None?
  {
    hide StoresGood;
    ReceiveFits(Fresh(m), Arrived(Decoded(p)));
    PacketEffect(Receive(Fresh(m), Arrived(Decoded(p))), Stamped(p, m.state.nextId));
  }

  lemma OtherBegins(m: Machine, i: Input)
    requires Allowed(m.phase, i) && !(i.Arrived? && i.raw.Decoded?)
    ensures Step(m, i).trace.now.began == if i.Start? then Some(i.op) else None
  {
    hide OnReply, OnSyncPacket, OnDrained, OnAckPacket, OnIdlePacket, Forget, Cleared, Without;
  }

  lemma OtherKeepsBooks(m: Machine, i: Input)
    requires Sound(m) && Allowed(m.phase, i) && Booked(m) && !(i.Arrived? && i.raw.Decoded?)
    ensures Step(m, i).state.completed == CompletedHistory(Step(m, i).trace)
  {
    hide Step, Good, Apart, Remember, PendingHistory;
    OtherStores(m, i);
    OtherHistory(m, i);
    OtherBegins(m, i);
    StepRecords(m, i);
    if m.phase.AckReading? { WithoutAbsent(m.state.completed, m.phase.code); }
  }

  /** In every run both stores, in order, are what the history says. */
  lemma {:induction false} StoresFollowHistory(inputs: seq<Input>)
    requires Legal(Initial, inputs)
    ensures Booked(After(Initial, inputs))
    decreases |inputs|
  {
    hide Step, CompletedHistory, PendingHistory;
    PendingFollowsHistory(inputs);
    if inputs == [] {
      EmptyBooks();
    } else {
      var front := inputs[..|inputs| - 1];
      var m, i := After(Initial, front), inputs[|inputs| - 1];
      RunIsSound(front);
      StoresFollowHistory(front);
      if i.Arrived? && i.raw.Decoded? { PacketKeepsBooks(m, i.raw.packet); } else { OtherKeepsBooks(m, i); }
    }
  }

  lemma EmptyBooks()
    ensures Booked(Initial)
  {}

  // ---- the ledger ------------------------------------------------------------------------------

  /** Was an acknowledgement of this code due here: read by the wait for it, or while it
      was tracked? */
  predicate Due(past: Trace, now: Moment, code: AckCode) {
    && now.consumed.Some? && now.consumed.value.Ack? && now.consumed.value.code == code
    && (now.at == AckReading(code) || Has(PendingHistory(past), code))
  }

  predicate ReturnedHere(now: Moment, code: AckCode) {
    now.ending.Returned? && now.ending.answer.Acked? && now.ending.answer.ack.code == code
  }

  /** Was a waiting acknowledgement of this code lost here: to a reset of the session, to a
      new send with the same code, or, as the oldest of 256, to another completion? */
  predicate LostHere(past: Trace, now: Moment, code: AckCode) {
    && Has(CompletedHistory(past), code)
    && (|| now.reset
        || (TracksSend(now) && now.consumed.value.expectedAck == code)
        || (CompletesCode(past, now) && |CompletedHistory(past)| == 256 && CompletedHistory(past)[0].code == code))
  }

  function AcksDue(t: Trace, code: AckCode): nat {
    match t
    case Empty => 0
    case Then(past, now) => AcksDue(past, code) + if Due(past, now, code) then 1 else 0
  }

  function AcksReturned(t: Trace, code: AckCode): nat {
    match t
    case Empty => 0
    case Then(past, now) => AcksReturned(past, code) + if ReturnedHere(now, code) then 1 else 0
  }

  function AcksLost(t: Trace, code: AckCode): nat {
    match t
    case Empty => 0
    case Then(past, now) => AcksLost(past, code) + if LostHere(past, now, code) then 1 else 0
  }

  function Waiting(s: State, code: AckCode): nat { if Has(s.completed, code) then 1 else 0 }

  ghost predicate AcksBalanced(m: Machine, code: AckCode) {
    AcksReturned(m.trace, code) + Waiting(m.state, code) + AcksLost(m.trace, code) == AcksDue(m.trace, code)
  }

  /** One step balances its own books. */
  ghost predicate Balances(m: Machine, after: Machine, code: AckCode) {
    && after.trace.Then? && after.trace.past == m.trace
    && (if ReturnedHere(after.trace.now, code) then 1 else 0) + Waiting(after.state, code) +
       (if LostHere(m.trace, after.trace.now, code) then 1 else 0)
       == Waiting(m.state, code) + if Due(m.trace, after.trace.now, code) then 1 else 0
  }

  /** What remembering a new code does to the others: only the oldest of a full store goes. */
  lemma {:induction false} RememberHas(xs: Store, e: Tracked, code: AckCode)
    requires Good(xs) && !Has(xs, e.code)
    ensures Has(Remember(xs, e), code) <==>
            code == e.code || (Has(xs, code) && !(|xs| == 256 && xs[0].code == code))
  {
    WithoutAbsent(xs, e.code);
    var r := Remember(xs, e);
    if |xs| == 256 {
      assert r == xs[1..] + [e];
      assert forall i :: 0 <= i < |xs| - 1 ==> r[i] == xs[i + 1];
      assert r[255] == e;
      if Has(xs, code) && xs[0].code != code {
        var i :| 0 <= i < |xs| && xs[i].code == code;
        assert r[i - 1].code == code;
      }
    } else {
      assert r == xs + [e];
      assert forall i :: 0 <= i < |xs| ==> r[i] == xs[i];
      assert r[|xs|] == e;
    }
  }

  lemma AckBalances(m: Machine, p: Packet, code: AckCode)
    requires Sound(m) && IsReading(m.phase) && Booked(m) && p.Ack?
    ensures Balances(m, Step(m, Arrived(Decoded(p))), code)
  {
    hide Step, Remember, PendingHistory, CompletedHistory, Good;
    PacketStores(m, p);
    AckStores(m.state, m.phase, p);
    PacketHistory(m, p);
    PacketAnswers(m, p);
    StepRecords(m, Arrived(Decoded(p)));
    if m.phase == AckReading(p.code) {
      AckWaitAnswers(m, p);
    } else if Has(m.state.pending, p.code) {
      assert !Has(m.state.completed, p.code);
      RememberHas(m.state.completed, Tracked(p.code, p.tripTime), code);
    }
  }

  lemma PacketBalances(m: Machine, p: Packet, code: AckCode)
    requires Sound(m) && IsReading(m.phase) && Booked(m) && !p.Ack?
    ensures Balances(m, Step(m, Arrived(Decoded(p))), code)
  {
    hide Step, Remember, PendingHistory, CompletedHistory, Good, Apart;
    PacketStores(m, p);
    PacketHistory(m, p);
    PacketAnswers(m, p);
    StepRecords(m, Arrived(Decoded(p)));
    if p.MsgSent? { WithoutHas(m.state.completed, p.expectedAck); }
    if m.phase.AckReading? { WithoutHas(m.state.completed, m.phase.code); }
  }

  lemma OtherBalances(m: Machine, i: Input, code: AckCode)
    requires Sound(m) && Allowed(m.phase, i) && Booked(m) && !(i.Arrived? && i.raw.Decoded?)
    ensures Balances(m, Step(m, i), code)
  {
    hide Step, Remember, PendingHistory, CompletedHistory, Good, Apart;
    OtherStores(m, i);
    OtherHistory(m, i);
    OtherAnswers(m, i);
    StepRecords(m, i);
    if m.phase.Ready? && i.op.WaitForAck? {
      WithoutHas(m.state.completed, i.op.code);
      if i.op.timeoutValid { StoredAckIsReturned(m, i.op.code); }
    }
    if m.phase.AckReading? { WithoutHas(m.state.completed, m.phase.code); }
  }

  /** A wait for a completed code is answered at once, with what was stored. */
  lemma StoredAckIsReturned(m: Machine, code: AckCode)
    requires Sound(m) && m.phase.Ready?
    ensures var now := Step(m, Start(WaitForAck(code, true))).trace.now;
            Has(m.state.completed, code) ==>
              now.ending == Returned(Acked(Find(m.state.completed, code).value)) && !now.reset
  {
    hide Good, Apart;
  }

  /** Over every run and for every code: of the acknowledgements that were due, each is
      returned by exactly one wait, still waiting, or lost for a named reason. */
  lemma {:induction false} AcksAreAccountedFor(inputs: seq<Input>, code: AckCode)
    requires Legal(Initial, inputs)
    ensures AcksBalanced(After(Initial, inputs), code)
    decreases |inputs|
  {
    hide Step, Booked, Sound, ReturnedHere, LostHere, Due, Waiting;
    if inputs == [] {
      NothingDue(code);
    } else {
      var front := inputs[..|inputs| - 1];
      var m, i := After(Initial, front), inputs[|inputs| - 1];
      RunIsSound(front);
      StoresFollowHistory(front);
      AcksAreAccountedFor(front, code);
      if !(i.Arrived? && i.raw.Decoded?) { OtherBalances(m, i, code); }
      else if i.raw.packet.Ack? { AckBalances(m, i.raw.packet, code); }
      else { PacketBalances(m, i.raw.packet, code); }
    }
  }

  lemma NothingDue(code: AckCode)
    ensures AcksBalanced(Initial, code)
  {}
}
