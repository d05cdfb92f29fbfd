/** What every step of the session keeps. */
module SessionInvariants {
  import opened Protocol
  import opened AckStore
  import opened Session

  // ---- the inductive invariant -----------------------------------------------

  ghost predicate Apart(s: State) {
    forall c: AckCode :: !(Has(s.pending, c) && Has(s.completed, c))
  }

  ghost predicate StoresGood(s: State) {
    Good(s.pending) && Good(s.completed) && Apart(s)
  }

  /** Offline nothing is tracked; while an answer is awaited none is deferred. */
  ghost predicate SyncGood(s: State) {
    && (!s.connected ==> s == Cleared(s))
    && (s.sync.AwaitingResponse? ==> s.deferred.None?)
    && 1 <= s.nextId < ID_MODULUS
  }

  ghost predicate PhaseFits(s: State, phase: Phase) {
    match phase
    case Ready => true
    case Opening => s == Cleared(s)
    case Writing(_) => s.connected && s.sync.Idle?
    case Reading(_, _) => s.connected && s.sync.Idle?
    case Aborting(_) => true
    case Closing(_) => true
    case Idling => s.connected
    case Draining(_) => s.connected && s.deferred.None?
    case SyncWriting => s.connected && s.sync.AwaitingResponse?
    case SyncReading => s.connected && s.sync.AwaitingResponse?
    case AckReading(code) => s.connected && !Has(s.completed, code)
  }

  ghost predicate Sound(m: Machine) { Fits(m.state, m.phase) }

  ghost predicate Fits(s: State, phase: Phase) {
    StoresGood(s) && SyncGood(s) && PhaseFits(s, phase)
  }

  // ---- acknowledgement stores ------------------------------------------------

  lemma WithoutHas(xs: Store, code: AckCode)
    ensures forall c: AckCode :: Has(Without(xs, code), c) <==> Has(xs, c) && c != code
  {
    var w := Without(xs, code);
    forall c: AckCode ensures Has(w, c) <==> Has(xs, c) && c != code {
      HasIn(w, c);
      HasIn(xs, c);
    }
  }

  lemma RegisterKeepsStores(s: State, t: Tracked)
    requires StoresGood(s)
    ensures StoresGood(Register(s, t))
  {
    WithoutKeepsDistinct(s.completed, t.code);
    WithoutHas(s.completed, t.code);
    RememberIsGood(s.pending, t);
  }

  lemma TrackKeepsStores(s: State, p: Packet)
    requires StoresGood(s)
    ensures StoresGood(Track(s, p))
  {
    match p
    case MsgSent(code, timeoutMs) => RegisterKeepsStores(s, Tracked(code, timeoutMs));
    case Ack(code, tripTime) =>
      WithoutKeepsDistinct(s.pending, code);
      WithoutHas(s.pending, code);
      RememberIsGood(s.completed, Tracked(code, tripTime));
    case _ =>
  }

  lemma ForgetKeepsStores(s: State, code: AckCode)
    requires StoresGood(s)
    ensures StoresGood(Forget(s, code))
    ensures !Has(Forget(s, code).pending, code) && !Has(Forget(s, code).completed, code)
    ensures StoresGood(s.(pending := Without(s.pending, code)))
    ensures StoresGood(s.(completed := Without(s.completed, code)))
  {
    WithoutKeepsDistinct(s.pending, code);
    WithoutHas(s.pending, code);
    WithoutKeepsDistinct(s.completed, code);
    WithoutHas(s.completed, code);
  }

  /** Only an acknowledgement of a pending code can complete a code. */
  lemma TrackCompletes(s: State, p: Packet, c: AckCode)
    requires StoresGood(s) && !Has(s.completed, c) && !(p.Ack? && p.code == c)
    ensures !Has(Track(s, p).completed, c)
  {
    match p
    case MsgSent(code, _) => WithoutHas(s.completed, code);
    case Ack(code, tripTime) => RememberIsGood(s.completed, Tracked(code, tripTime));
    case _ =>
  }

  // ---- the step lemma ----------------------------------------------------------

  lemma ReceiveFits(t: Turn, i: Input)
    requires Fits(t.state, t.phase)
    ensures StoresGood(Receive(t, i).state) && SyncGood(Receive(t, i).state)
    ensures Receive(t, i).phase == t.phase
    ensures !Pull(t, i).Broken? ==> PhaseFits(Receive(t, i).state, t.phase)
  {}

  lemma PassOnFits(t: Turn, p: Packet)
    requires StoresGood(t.state) && SyncGood(t.state) && t.state.connected
    ensures StoresGood(PassOn(t, p).state) && SyncGood(PassOn(t, p).state) && PassOn(t, p).state.connected
    ensures PassOn(t, p).phase == t.phase
    ensures t.state.sync.Idle? || !Settles(p) ==>
              PassOn(t, p).state.sync == t.state.sync && PassOn(t, p).state.deferred == t.state.deferred
  {
    TrackKeepsStores(Retain(t.state, p), p);
  }

  lemma ReplyFits(t: Turn, r: Request, contacts: seq<nat>, p: Packet)
    requires Fits(t.state, t.phase) && t.phase == Reading(r, contacts)
    ensures Fits(OnReply(t, r, contacts, p).state, OnReply(t, r, contacts, p).phase)
  {
    match Judge(r, p)
    case Pass => PassOnFits(t, p);
    case Claim => if p.MsgSent? { RegisterKeepsStores(t.state, Tracked(p.expectedAck, p.timeoutMs)); }
    case _ =>
  }

  lemma AckPacketFits(t: Turn, code: AckCode, p: Packet)
    requires Fits(t.state, t.phase) && t.phase == AckReading(code)
    ensures Fits(OnAckPacket(t, code, p).state, OnAckPacket(t, code, p).phase)
  {
    ForgetKeepsStores(t.state, code);
    if p.Ack? && p.code != code {
      PassOnFits(t, p);
      TrackCompletes(Retain(t.state, p), p, code);
    }
  }

  lemma PulledFits(t: Turn, pulled: Pulled)
    requires StoresGood(t.state) && SyncGood(t.state) && IsReading(t.phase)
    requires !pulled.Broken? ==> PhaseFits(t.state, t.phase)
    ensures Fits(OnPulled(t, t.phase, pulled).state, OnPulled(t, t.phase, pulled).phase)
  {
    match pulled
    case Abandoned =>
    case GotPacket(p) =>
      if t.phase.Reading? { ReplyFits(t, t.phase.request, t.phase.contacts, p); }
      else if t.phase.AckReading? { AckPacketFits(t, t.phase.code, p); }
      else { PassOnFits(t, p); }
    case Broken(e) =>
      if t.phase.AckReading? { ForgetKeepsStores(t.state, t.phase.code); }
  }

  lemma BeginKeepsSound(m: Machine, op: Op)
    requires Sound(m) && m.phase.Ready? && Callable(op)
    ensures Sound(Step(m, Start(op)))
  {
    if op.WaitForAck? { ForgetKeepsStores(m.state, op.code); }
  }

  lemma StepKeepsSound(m: Machine, i: Input)
    requires Sound(m) && Allowed(m.phase, i)
    ensures Sound(Step(m, i))
  {
    hide OnPulled, Begin;
    if IsReading(m.phase) && !i.NothingReady? {
      ReceiveFits(Fresh(m), i);
      PulledFits(Receive(Fresh(m), i), Pull(Fresh(m), i));
    } else if m.phase.Ready? {
      BeginKeepsSound(m, i.op);
    }
  }

  // ---- runs --------------------------------------------------------------------------

  lemma AfterOneMore(m: Machine, inputs: seq<Input>, i: Input)
    requires Legal(m, inputs)
    requires Allowed(After(m, inputs).phase, i)
    ensures Legal(m, inputs + [i])
    ensures After(m, inputs + [i]) == Step(After(m, inputs), i)
  {
    hide Step, Allowed;
    assert (inputs + [i])[..|inputs + [i]| - 1] == inputs;
  }

  lemma LastStep(m: Machine, inputs: seq<Input>)
    requires inputs != [] && Legal(m, inputs)
    ensures var front, i := inputs[..|inputs| - 1], inputs[|inputs| - 1];
            Legal(m, front) && Allowed(After(m, front).phase, i) && After(m, inputs) == Step(After(m, front), i)
  {
    hide Step, Allowed;
  }

  lemma {:induction false} RunsCompose(m: Machine, inputs: seq<Input>, more: seq<Input>)
    requires Legal(m, inputs) && Legal(After(m, inputs), more)
    ensures Legal(m, inputs + more) && After(m, inputs + more) == After(After(m, inputs), more)
    decreases |more|
  {
    if more == [] {
      assert inputs + more == inputs;
    } else {
      LastStep(After(m, inputs), more);
      RunsCompose(m, inputs, more[..|more| - 1]);
      ComposeOne(m, inputs, more);
    }
  }

  lemma ComposeOne(m: Machine, inputs: seq<Input>, more: seq<Input>)
    requires more != [] && Legal(m, inputs) && Legal(After(m, inputs), more)
    requires var front := more[..|more| - 1];
             && Legal(After(m, inputs), front) && Legal(m, inputs + front)
             && After(m, inputs + front) == After(After(m, inputs), front)
    ensures Legal(m, inputs + more) && After(m, inputs + more) == After(After(m, inputs), more)
  {
    hide Step, Allowed, After, Legal;
    var front, i := more[..|more| - 1], more[|more| - 1];
    LastStep(After(m, inputs), more);
    AfterOneMore(m, inputs + front, i);
    assert inputs + more == inputs + front + [i];
  }

  /** Every state a legal run reaches is sound. */
  lemma {:induction false} RunIsSound(inputs: seq<Input>)
    requires Legal(Initial, inputs)
    ensures Sound(After(Initial, inputs))
    decreases |inputs|
  {
    if inputs != [] {
      var front := inputs[..|inputs| - 1];
      RunIsSound(front);
      StepKeepsSound(After(Initial, front), inputs[|inputs| - 1]);
    }
  }

  // ---- what handling a packet may change ------------------------------------------

  /** Whether a packet met in this phase answers the synchronisation in flight.  A
      refusal that an acknowledgement wait comes across is taken for its own. */
  predicate SettledBy(phase: Phase, p: Packet) {
    Settles(p) && !(p.Refusal? && phase.AckReading?)
  }

  /** Handling a packet touches the synchronisation state only if the packet answers
      it, and leaves alone everything the step did before. */
  lemma PacketEffect(t: Turn, p: Packet)
    requires Fits(t.state, t.phase) && IsReading(t.phase)
    ensures var u := OnPulled(t, t.phase, GotPacket(p));
            && u.state.connected == t.state.connected
            && u.state.nextId == t.state.nextId
            && u.state.sync == (if SettledBy(t.phase, p) then Idle else t.state.sync)
            && u.state.deferred ==
               (if (t.phase.Idling? || t.phase.AckReading?) && t.state.sync.AwaitingResponse? && SettledBy(t.phase, p)
                then Some(ReadyFor(p)) else t.state.deferred)
            && u.now == t.now.(published := u.now.published, signal := u.now.signal, ending := u.now.ending)
  {
    if t.phase.Reading? { ReplyEffect(t, t.phase.request, t.phase.contacts, p); }
  }

  lemma ReplyEffect(t: Turn, r: Request, contacts: seq<nat>, p: Packet)
    requires t.state.sync.Idle?
    ensures var u := OnReply(t, r, contacts, p);
            && u.state == t.state.(pending := u.state.pending, completed := u.state.completed)
            && u.now == t.now.(published := u.now.published, signal := u.now.signal, ending := u.now.ending)
  {}
}
