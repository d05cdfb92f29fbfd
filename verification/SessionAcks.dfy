/** Acknowledgements: one consumed for a pending code waits for its waiter, is
    returned at most once, and a finished wait leaves nothing behind. */
module SessionAcks {
  import opened Protocol
  import opened AckStore
  import opened Session
  import opened SessionInvariants

  // ---- what a step does to the stores -------------------------------------------------

  /** The tracking effect of a packet: request loops track what they pass on and the
      receipt of a tracked send; an acknowledgement wait tracks acknowledgements only. */
  function StoresAfterPacket(s: State, phase: Phase, p: Packet): State {
    match phase
    case Reading(r, _) =>
      if Judge(r, p).Pass? then Track(s, p)
      else if r == Direct(true) && p.MsgSent? then Register(s, Tracked(p.expectedAck, p.timeoutMs))
      else s
    case AckReading(code) => (
      match p
      case Ack(c, _) => if c == code then s.(pending := Without(s.pending, code)) else Track(s, p)
      case Refusal(_) => Forget(s, code)
      case _ => s
    )
    case _ => Track(s, p)
  }

  /** The tracking effect of everything else. */
  function StoresAfterOther(m: Machine, i: Input): State
    requires Allowed(m.phase, i)
  {
    if Step(m, i).trace.now.reset then Cleared(m.state)
    else if m.phase.AckReading? && !i.Drop? then Forget(m.state, m.phase.code)
    else match i
         case Start(WaitForAck(code, true)) => m.state.(completed := Without(m.state.completed, code))
         case _ => m.state
  }

  predicate SameStores(a: State, b: State) { a.pending == b.pending && a.completed == b.completed }

  /** What any reader does with an acknowledgement. */
  lemma AckStores(s: State, phase: Phase, p: Packet)
    requires p.Ack?
    ensures var after := StoresAfterPacket(s, phase, p);
            if phase == AckReading(p.code) then
              after.completed == s.completed && after.pending == Without(s.pending, p.code)
            else if Has(s.pending, p.code) then
              && after.pending == Without(s.pending, p.code)
              && after.completed == Remember(s.completed, Tracked(p.code, p.tripTime))
            else after == s
  {}

  lemma ReplyStores(t: Turn, r: Request, contacts: seq<nat>, p: Packet)
    ensures SameStores(OnReply(t, r, contacts, p).state, StoresAfterPacket(t.state, Reading(r, contacts), p))
  {}

  lemma PacketStores(m: Machine, p: Packet)
    requires IsReading(m.phase)
    ensures SameStores(Step(m, Arrived(Decoded(p))).state, StoresAfterPacket(m.state, m.phase, p))
  {
    hide OnReply, Begin;
    var q := Stamped(p, m.state.nextId);
    var t := Receive(Fresh(m), Arrived(Decoded(p)));
    if m.phase.Reading? { ReplyStores(t, m.phase.request, m.phase.contacts, q); }
  }

  lemma {:induction false} WithoutAbsent(xs: Store, code: AckCode)
    requires !Has(xs, code)
    ensures Without(xs, code) == xs
  {
    if xs != [] {
      assert xs[0].code != code;
      forall i | 0 <= i < |xs[1..]| ensures xs[1..][i].code != code { assert xs[1..][i] == xs[i + 1]; }
      WithoutAbsent(xs[1..], code);
    }
  }

  lemma BeginStores(m: Machine, op: Op)
    requires Sound(m) && m.phase.Ready? && Callable(op)
    ensures SameStores(Step(m, Start(op)).state, StoresAfterOther(m, Start(op)))
  {
    if op.WaitForAck? && !Has(m.state.completed, op.code) { WithoutAbsent(m.state.completed, op.code); }
  }

  lemma OtherStores(m: Machine, i: Input)
    requires Sound(m) && Allowed(m.phase, i) && !(i.Arrived? && i.raw.Decoded?)
    ensures SameStores(Step(m, i).state, StoresAfterOther(m, i))
  {
    if m.phase.Ready? { BeginStores(m, i.op); }
    else if IsReading(m.phase) { FaultStores(m, i); }
  }

  lemma FaultStores(m: Machine, i: Input)
    requires Sound(m) && IsReading(m.phase) && Allowed(m.phase, i) && !(i.Arrived? && i.raw.Decoded?)
    ensures SameStores(Step(m, i).state, StoresAfterOther(m, i))
  {
    hide Good, Apart, Begin, BeginRequest, OnReply, OnSyncPacket, OnDrained, OnAckPacket, OnIdlePacket;
    if m.phase.AckReading? { AckFaultStores(m, i); }
  }

  lemma AckFaultStores(m: Machine, i: Input)
    requires m.phase.AckReading? && Allowed(m.phase, i) && !(i.Arrived? && i.raw.Decoded?)
    ensures SameStores(Step(m, i).state, StoresAfterOther(m, i))
  {
    hide OnAckPacket;
    assert Without([], m.phase.code) == [];
  }

  // ---- a finished wait leaves nothing behind ----------------------------------------

  /** Whatever ends a wait, the code is in neither store afterwards; a dropped wait
      changes nothing at all. */
  lemma FinishedWaitForgets(m: Machine, i: Input)
    requires Sound(m) && m.phase.AckReading? && Allowed(m.phase, i)
    ensures var after := Step(m, i);
            && (after.trace.now.ending.Returned? ==>
                  !Has(after.state.pending, m.phase.code) && !Has(after.state.completed, m.phase.code))
            && (i.Drop? ==> after.state == m.state)
            && (after.phase.Ready? <==> !after.trace.now.ending.Continues?)
  {
    var code := m.phase.code;
    ReceiveFits(Fresh(m), i);
    var t := Receive(Fresh(m), i);
    ForgetKeepsStores(t.state, code);
  }

  /** A wait answered at once, refused or begun offline leaves nothing behind either,
      if its timeout was valid. */
  lemma ImmediateWaitForgets(m: Machine, code: AckCode)
    requires Sound(m) && m.phase.Ready?
    ensures var after := Step(m, Start(WaitForAck(code, true)));
            after.trace.now.ending.Returned? ==> !Has(after.state.pending, code) && !Has(after.state.completed, code)
  {
    ForgetKeepsStores(m.state, code);
  }

  // ---- which acknowledgements are returned ----------------------------------------------

  /** The packet that the step consumes, and the only acknowledgement it can return. */
  lemma PacketAnswers(m: Machine, p: Packet)
    requires Sound(m) && IsReading(m.phase)
    ensures var now := Step(m, Arrived(Decoded(p))).trace.now;
            && now.consumed == Some(Stamped(p, m.state.nextId))
            && (now.ending.Returned? && now.ending.answer.Acked? ==>
                  p.Ack? && m.phase == AckReading(p.code) && now.ending.answer.ack == Tracked(p.code, p.tripTime))
  {
    var q := Stamped(p, m.state.nextId);
    var t := Receive(Fresh(m), Arrived(Decoded(p)));
    ReceiveFits(Fresh(m), Arrived(Decoded(p)));
    PacketEffect(t, q);
    if m.phase.Reading? {
      var now := OnReply(t, m.phase.request, m.phase.contacts, q).now;
      assert now.ending.Returned? ==> !now.ending.answer.Acked?;
    }
  }

  lemma OtherAnswers(m: Machine, i: Input)
    requires Sound(m) && Allowed(m.phase, i) && !(i.Arrived? && i.raw.Decoded?)
    ensures var now := Step(m, i).trace.now;
            && now.consumed.None?
            && (now.ending.Returned? && now.ending.answer.Acked? ==>
                  && m.phase.Ready? && i.op.WaitForAck? && i.op.timeoutValid && !now.reset
                  && now.ending.answer.ack.code == i.op.code && Has(m.state.completed, i.op.code))
  {}

  // ---- no acknowledgement is lost --------------------------------------------------------

  /** How many entries are younger than the one with this code. */
  function Younger(xs: Store, code: AckCode): nat {
    if xs == [] then 0 else if xs[0].code == code then |xs| - 1 else Younger(xs[1..], code)
  }

  lemma {:induction false} WithoutKeepsOthers(xs: Store, gone: AckCode, code: AckCode)
    requires gone != code
    ensures Find(Without(xs, gone), code) == Find(xs, code)
    ensures Younger(Without(xs, gone), code) <= Younger(xs, code)
  {
    if xs != [] {
      WithoutKeepsOthers(xs[1..], gone, code);
      var w := Without(xs, gone);
      if xs[0].code != gone {
        assert w[1..] == Without(xs[1..], gone);
      }
    }
  }

  lemma {:induction false} AppendKeepsOthers(xs: Store, e: Tracked, code: AckCode)
    requires e.code != code && Has(xs, code)
    ensures Find(xs + [e], code) == Find(xs, code)
    ensures Younger(xs + [e], code) == Younger(xs, code) + 1
  {
    assert (xs + [e])[0] == xs[0];
    if xs[0].code != code {
      assert (xs + [e])[1..] == xs[1..] + [e];
      assert Find(xs, code) == Find(xs[1..], code);
      AppendKeepsOthers(xs[1..], e, code);
    }
  }

  /** Remembering another code makes an entry one older, and evicts it only once it
      is the oldest of a full store. */
  lemma {:induction false} RememberKeepsOthers(xs: Store, e: Tracked, code: AckCode)
    requires Good(xs) && e.code != code && Has(xs, code) && Younger(xs, code) < CAPACITY - 1
    ensures Find(Remember(xs, e), code) == Find(xs, code)
    ensures Younger(Remember(xs, e), code) <= Younger(xs, code) + 1
  {
    var w := Without(xs, e.code);
    WithoutKeepsOthers(xs, e.code, code);
    AppendKeepsOthers(w, e, code);
    if |w| == CAPACITY {
      assert w[0].code != code;
      assert (w + [e])[1..] == Remember(xs, e);
    }
  }

  lemma {:induction false} RememberFinds(xs: Store, e: Tracked)
    ensures Find(Remember(xs, e), e.code) == Some(e) && Younger(Remember(xs, e), e.code) == 0
  {
    var cut := KeepLast(Without(xs, e.code), CAPACITY - 1);
    assert Remember(xs, e) == cut + [e];
    FindsAppended(cut, e);
  }

  lemma {:induction false} FindsAppended(w: Store, e: Tracked)
    requires forall x <- w :: x.code != e.code
    ensures Find(w + [e], e.code) == Some(e) && Younger(w + [e], e.code) == 0
  {
    if w != [] {
      assert (w + [e])[1..] == w[1..] + [e];
      assert w[0] in w;
      FindsAppended(w[1..], e);
    }
  }

  /** The step turns a pending code into a completed one. */
  predicate Completes(m: Machine, i: Input) {
    match i
    case Arrived(Decoded(Ack(c, _))) => Has(m.state.pending, c) && m.phase != AckReading(c)
    case _ => false
  }

  /** The step tracks the code afresh: a receipt for it, unless the receipt belongs to
      an untracked send or is met by an acknowledgement wait. */
  predicate Retracks(m: Machine, i: Input, code: AckCode) {
    match i
    case Arrived(Decoded(MsgSent(c, _))) =>
      c == code && !m.phase.AckReading?
      && !(m.phase.Reading? && (m.phase.request == Direct(false) || m.phase.request.Remote?))
    case _ => false
  }

  /** Nobody else claims the code: no valid wait for it, no fresh tracking, no reset. */
  predicate Unclaimed(m: Machine, i: Input, code: AckCode)
    requires Allowed(m.phase, i)
  {
    && i != Start(WaitForAck(code, true)) && i != Start(Connect)
    && !Retracks(m, i, code)
    && Step(m, i).state.connected
  }

  ghost predicate Keeps(before: Store, after: Store, code: AckCode, more: nat) {
    && Find(after, code) == Find(before, code)
    && Younger(after, code) <= Younger(before, code) + more
  }

  lemma {:induction false} ReceiptKeeps(s: State, phase: Phase, p: Packet, code: AckCode)
    requires p.MsgSent? && p.expectedAck != code
    ensures Keeps(s.completed, StoresAfterPacket(s, phase, p).completed, code, 0)
  {
    WithoutKeepsOthers(s.completed, p.expectedAck, code);
    assert Track(s, p) == Register(s, Tracked(p.expectedAck, p.timeoutMs));
  }

  lemma {:induction false} TrackedAckKeeps(s: State, e: Tracked, code: AckCode)
    requires StoresGood(s) && Has(s.completed, code) && Has(s.pending, e.code)
    requires Younger(s.completed, code) < CAPACITY - 1
    ensures Keeps(s.completed, Remember(s.completed, e), code, 1)
  {
    assert e.code != code by { assert Apart(s); }
    RememberKeepsOthers(s.completed, e, code);
  }

  lemma {:induction false} AckKeeps(s: State, phase: Phase, p: Packet, code: AckCode)
    requires StoresGood(s) && Has(s.completed, code) && p.Ack?
    requires Has(s.pending, p.code) && phase != AckReading(p.code) ==> Younger(s.completed, code) < CAPACITY - 1
    ensures Keeps(s.completed, StoresAfterPacket(s, phase, p).completed, code,
                  if Has(s.pending, p.code) && phase != AckReading(p.code) then 1 else 0)
  {
    hide StoresAfterPacket, StoresGood, Younger, Remember, Find;
    AckStores(s, phase, p);
    if Has(s.pending, p.code) && phase != AckReading(p.code) { TrackedAckKeeps(s, Tracked(p.code, p.tripTime), code); }
  }

  /** An entry is safe until it is the oldest of a full store and another completes. */
  lemma {:induction false} StoresKeep(s: State, phase: Phase, p: Packet, code: AckCode)
    requires StoresGood(s) && Has(s.completed, code)
    requires phase != AckReading(code)
    requires p.MsgSent? && p.expectedAck == code ==>
               phase.AckReading? || (phase.Reading? && (phase.request == Direct(false) || phase.request.Remote?))
    requires p.Ack? && Has(s.pending, p.code) && phase != AckReading(p.code) ==>
            Younger(s.completed, code) < CAPACITY - 1
    ensures Keeps(s.completed, StoresAfterPacket(s, phase, p).completed, code,
                  if p.Ack? && Has(s.pending, p.code) && phase != AckReading(p.code) then 1 else 0)
  {
    hide Good, Apart, Younger, Remember, Find, Without, Has;
    if p.MsgSent? && p.expectedAck != code { ReceiptKeeps(s, phase, p, code); }
    else if p.Ack? { AckKeeps(s, phase, p, code); }
    else if p.Refusal? && phase.AckReading? { WithoutKeepsOthers(s.completed, phase.code, code); }
  }

  lemma StepKeepsAck(m: Machine, i: Input, code: AckCode)
    requires Sound(m) && Has(m.state.completed, code)
    requires Allowed(m.phase, i) && Unclaimed(m, i, code)
    requires Completes(m, i) ==> Younger(m.state.completed, code) < CAPACITY - 1
    ensures Keeps(m.state.completed, Step(m, i).state.completed, code, if Completes(m, i) then 1 else 0)
  {
    if i.Arrived? && i.raw.Decoded? {
      PacketStores(m, i.raw.packet);
      StoresKeep(m.state, m.phase, i.raw.packet, code);
    } else {
      OtherStores(m, i);
      OnlyLossResets(m, i);
      if m.phase.AckReading? { WithoutKeepsOthers(m.state.completed, m.phase.code, code); }
      if m.phase.Ready? && i.op.WaitForAck? && i.op.code != code {
        WithoutKeepsOthers(m.state.completed, i.op.code, code);
      }
    }
  }

  lemma OnlyLossResets(m: Machine, i: Input)
    requires Allowed(m.phase, i) && !(i.Arrived? && i.raw.Decoded?)
    ensures Step(m, i).trace.now.reset ==> i == Start(Connect) || !Step(m, i).state.connected
  {}

  /** An acknowledgement of a pending code is kept, whoever reads it. */
  lemma ConsumedAckIsKept(m: Machine, code: AckCode, tripTime: nat)
    requires Sound(m) && IsReading(m.phase) && m.phase != AckReading(code) && Has(m.state.pending, code)
    ensures var after := Step(m, Arrived(Decoded(Ack(code, tripTime)))).state;
            Find(after.completed, code) == Some(Tracked(code, tripTime)) && Younger(after.completed, code) == 0
  {
    PacketStores(m, Ack(code, tripTime));
    AckStores(m.state, m.phase, Ack(code, tripTime));
    RememberFinds(m.state.completed, Tracked(code, tripTime));
  }

  // ---- whole runs ----------------------------------------------------------------------------

  predicate UnclaimedThroughout(m: Machine, inputs: seq<Input>, code: AckCode)
    requires Legal(m, inputs)
    decreases |inputs|
  {
    if inputs == [] then true
    else
      var front := inputs[..|inputs| - 1];
      UnclaimedThroughout(m, front, code) && Unclaimed(After(m, front), inputs[|inputs| - 1], code)
  }

  function Completions(m: Machine, inputs: seq<Input>): nat
    requires Legal(m, inputs)
    decreases |inputs|
  {
    if inputs == [] then 0
    else
      var front := inputs[..|inputs| - 1];
      Completions(m, front) + if Completes(After(m, front), inputs[|inputs| - 1]) then 1 else 0
  }

  lemma {:induction false} AckSurvives(m: Machine, inputs: seq<Input>, code: AckCode)
    requires Sound(m) && Has(m.state.completed, code) && Younger(m.state.completed, code) == 0
    requires Legal(m, inputs) && UnclaimedThroughout(m, inputs, code) && Completions(m, inputs) < 256
    ensures Sound(After(m, inputs))
    ensures Keeps(m.state.completed, After(m, inputs).state.completed, code, Completions(m, inputs))
    decreases |inputs|
  {
    if inputs != [] {
      var front := inputs[..|inputs| - 1];
      AckSurvives(m, front, code);
      var before, i := After(m, front), inputs[|inputs| - 1];
      StepKeepsSound(before, i);
      StepKeepsAck(before, i, code);
    }
  }

  lemma KeptAckIsReturned(m: Machine, e: Tracked)
    requires m.phase.Ready? && m.state.connected && Find(m.state.completed, e.code) == Some(e)
    ensures var now := Step(m, Start(WaitForAck(e.code, true))).trace.now;
            now.ending == Returned(Acked(e)) && now.consumed.None? && now.issued.None?
  {}

  /** An acknowledgement of a pending code, read by anyone but its own waiter, is
      returned by the next wait for the code without reading, provided the connection
      holds, the code is not tracked afresh and fewer than 256 others complete. */
  lemma NoAckLost(inputs: seq<Input>, code: AckCode, tripTime: nat, more: seq<Input>)
    requires Legal(Initial, inputs)
    requires var m := After(Initial, inputs);
             && IsReading(m.phase) && m.phase != AckReading(code) && Has(m.state.pending, code)
             && var read := Step(m, Arrived(Decoded(Ack(code, tripTime))));
             && Legal(read, more) && UnclaimedThroughout(read, more, code) && Completions(read, more) < 256
             && After(read, more).phase.Ready? && After(read, more).state.connected
    ensures var read := Step(After(Initial, inputs), Arrived(Decoded(Ack(code, tripTime))));
            var now := Step(After(read, more), Start(WaitForAck(code, true))).trace.now;
            now.ending == Returned(Acked(Tracked(code, tripTime))) && now.consumed.None? && now.issued.None?
  {
    var m := After(Initial, inputs);
    var read := Step(m, Arrived(Decoded(Ack(code, tripTime))));
    RunIsSound(inputs);
    ConsumedAckIsKept(m, code, tripTime);
    StepKeepsSound(m, Arrived(Decoded(Ack(code, tripTime))));
    AckSurvives(read, more, code);
    KeptAckIsReturned(After(read, more), Tracked(code, tripTime));
  }

  // ---- the pending store is a function of the history ---------------------------------------

  /** The step tracked a send: its receipt was consumed, by anyone but an untracked
      send or an acknowledgement wait. */
  predicate TracksSend(now: Moment) {
    && now.consumed.Some? && now.consumed.value.MsgSent?
    && !now.at.AckReading?
    && !(now.at.Reading? && (now.at.request == Direct(false) || now.at.request.Remote?))
  }

  /** "Remove, append, keep the last 256", over everything that ever happened. */
  function PendingHistory(t: Trace): Store {
    match t
    case Empty => []
    case Then(past, now) =>
      var xs := PendingHistory(past);
      if now.reset then []
      else if TracksSend(now) then Remember(xs, Tracked(now.consumed.value.expectedAck, now.consumed.value.timeoutMs))
      else if now.consumed.Some? && now.consumed.value.Ack? then Without(xs, now.consumed.value.code)
      else if now.at.AckReading? && now.ending.Returned? then Without(xs, now.at.code)
      else xs
  }

  lemma PacketKeepsPendingHistory(m: Machine, p: Packet)
    requires Sound(m) && IsReading(m.phase) && m.state.pending == PendingHistory(m.trace)
    ensures Step(m, Arrived(Decoded(p))).state.pending == PendingHistory(Step(m, Arrived(Decoded(p))).trace)
  {
    PacketStores(m, p);
    PacketHistory(m, p);
    if p.Ack? {
      AckStores(m.state, m.phase, p);
      if !Has(m.state.pending, p.code) { WithoutAbsent(m.state.pending, p.code); }
    }
  }

  lemma StepKeepsPendingHistory(m: Machine, i: Input)
    requires Sound(m) && Allowed(m.phase, i) && m.state.pending == PendingHistory(m.trace)
    ensures Step(m, i).state.pending == PendingHistory(Step(m, i).trace)
  {
    if i.Arrived? && i.raw.Decoded? {
      PacketKeepsPendingHistory(m, i.raw.packet);
    } else {
      OtherStores(m, i);
      OtherHistory(m, i);
    }
  }

  lemma PacketHistory(m: Machine, p: Packet)
    requires Sound(m) && IsReading(m.phase)
    ensures var now := Step(m, Arrived(Decoded(p))).trace.now;
            && now.at == m.phase && !now.reset && now.consumed == Some(Stamped(p, m.state.nextId))
            && (m.phase.AckReading? && !p.Ack? ==> (now.ending.Returned? <==> p.Refusal?))
  {
    var q := Stamped(p, m.state.nextId);
    var t := Receive(Fresh(m), Arrived(Decoded(p)));
    ReceiveFits(Fresh(m), Arrived(Decoded(p)));
    PacketEffect(t, q);
  }

  lemma OtherHistory(m: Machine, i: Input)
    requires Sound(m) && Allowed(m.phase, i) && !(i.Arrived? && i.raw.Decoded?)
    ensures var now := Step(m, i).trace.now;
            && now.at == m.phase && now.consumed.None?
            && (m.phase.AckReading? ==> (now.ending.Returned? <==> !i.Drop?))
  {}

  /** In every run the tracked codes, in order, are what the history says. */
  lemma {:induction false} PendingFollowsHistory(inputs: seq<Input>)
    requires Legal(Initial, inputs)
    ensures After(Initial, inputs).state.pending == PendingHistory(After(Initial, inputs).trace)
    ensures Good(After(Initial, inputs).state.pending)
    decreases |inputs|
  {
    RunIsSound(inputs);
    if inputs != [] {
      var front := inputs[..|inputs| - 1];
      RunIsSound(front);
      PendingFollowsHistory(front);
      StepKeepsPendingHistory(After(Initial, front), inputs[|inputs| - 1]);
    }
  }
}
