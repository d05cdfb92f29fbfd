/** What every operation answers, packet by packet and failure by failure, and which
    answers may be mistaken for which: none. */
module SessionAnswers {
  import opened Protocol
  import opened AckStore
  import opened Session
  import opened SessionInvariants
  import opened SessionDelivery

  // ---- parsing -------------------------------------------------------------------------

  /** Parsing a message sets its id and nothing else; other packets are left alone. */
  lemma ParsingOnlyStamps(m: Machine, p: Packet)
    requires IsReading(m.phase)
    ensures var now := Step(m, Arrived(Decoded(p))).trace.now;
            match p
            case ContactMsg(x) => now.consumed == Some(ContactMsg(Message(x.text, Some(m.state.nextId))))
            case ChannelMsg(x) => now.consumed == Some(ChannelMsg(Message(x.text, Some(m.state.nextId))))
            case _ => now.consumed == Some(p)
  {
    hide Retain, Track, Forget, OnReply;
    if m.phase.Reading? { ReplyKeepsConsumed(m, p); }
  }

  lemma ReplyKeepsConsumed(m: Machine, p: Packet)
    requires m.phase.Reading?
    ensures Step(m, Arrived(Decoded(p))).trace.now.consumed == Some(Stamped(p, m.state.nextId))
  {
    hide Retain, Track, Register, Stamped, Observed;
  }

  // ---- waiting for an inbox answer ---------------------------------------------------------

  /** A synchronisation that reads a packet: a message is returned with its id, an empty
      queue as none, a refusal as an error, and anything else is waited over. */
  lemma SyncAnswers(m: Machine, p: Packet)
    requires m.phase.SyncReading? || m.phase.Draining?
    ensures var after := Step(m, Arrived(Decoded(p)));
            match p
            case ContactMsg(x) =>
              after.trace.now.ending == Returned(Inbox(Some(Message(x.text, Some(m.state.nextId)))))
            case ChannelMsg(x) =>
              after.trace.now.ending == Returned(Inbox(Some(Message(x.text, Some(m.state.nextId)))))
            case NoMoreMsgs => after.trace.now.ending == Returned(Inbox(None))
            case Refusal(_) => after.trace.now.ending == Returned(Failed(ProtocolInvariant))
            case _ =>
              if m.phase.SyncReading? then after.trace.now.ending.Continues? && after.phase == SyncReading
              else if m.phase.index < 256 then
                after.trace.now.ending.Continues? && after.phase == Draining(m.phase.index + 1)
              else after.trace.now.ending == Returned(Failed(ProtocolInvariant))
  {
    hide Retain, Track;
  }

  /** A synchronisation that finds an answer kept for it. */
  lemma DeferredAnswers(m: Machine)
    requires m.phase.Ready? && m.state.connected && m.state.deferred.Some?
    ensures var after := Step(m, Start(SyncNext));
            && after.state.deferred.None? && after.trace.now.issued.None? && after.trace.now.consumed.None?
            && match m.state.deferred.value
               case ReadyMessage(x) => after.trace.now.ending == Returned(Inbox(Some(x)))
               case ReadyEmpty => after.trace.now.ending == Returned(Inbox(None))
               case ReadyError => after.trace.now.ending == Returned(Failed(ProtocolInvariant))
  {}

  // ---- waiting for an acknowledgement --------------------------------------------------------

  /** A wait that reads its own acknowledgement returns it; a refusal ends it; anything
      else is waited over. */
  lemma AckWaitAnswers(m: Machine, p: Packet)
    requires m.phase.AckReading?
    ensures var after := Step(m, Arrived(Decoded(p)));
            if p.Ack? && p.code == m.phase.code then
              after.trace.now.ending == Returned(Acked(Tracked(m.phase.code, p.tripTime)))
            else if p.Refusal? then after.trace.now.ending == Returned(Failed(ProtocolInvariant))
            else after.trace.now.ending.Continues? && after.phase == m.phase
  {
    hide Retain, Track, Forget;
  }

  // ---- the idle reader --------------------------------------------------------------------------

  /** Packets that have no public form. */
  predicate Private(p: Packet) {
    || p.Okay? || p.Refusal? || p.Disabled?
    || (p.Data? && p.kind in {ContactStart, PrivateKey, SignStart})
  }

  /** The idle reader hands out every packet it reads: a message as such, with its id, any
      other packet that has a public form as a notice. */
  lemma IdleAnswers(m: Machine, p: Packet)
    requires m.phase.Idling?
    ensures var ending := Step(m, Arrived(Decoded(p))).trace.now.ending;
            match p
            case ContactMsg(x) => ending == Returned(Heard(Some(Incoming(Message(x.text, Some(m.state.nextId))))))
            case ChannelMsg(x) => ending == Returned(Heard(Some(Incoming(Message(x.text, Some(m.state.nextId))))))
            case _ => ending == Returned(Heard(if Private(p) then None else Some(Notice(p))))
  {
    hide Retain, Track;
  }

  // ---- requests -------------------------------------------------------------------------------------

  /** The request goes on waiting and the packet is published. */
  ghost predicate WaitsOver(m: Machine, p: Packet, after: Machine) {
    && after.trace.Then? && after.trace.now.ending.Continues? && after.phase == m.phase
    && after.trace.now.published == after.trace.now.consumed
  }

  lemma SimpleAnswers(m: Machine, p: Packet)
    requires m.phase.Reading? && m.phase.request == Simple
    ensures var after := Step(m, Arrived(Decoded(p)));
            match p
            case Okay(_) => after.trace.now.ending == Returned(Done)
            case Refusal(_) => after.trace.now.ending == Returned(Failed(DeviceRejected))
            case Disabled => after.trace.now.ending == Returned(Failed(FeatureDisabled))
            case _ => WaitsOver(m, p, after)
  {
    hide Retain, Track, Register;
  }

  lemma HasConnectionAnswers(m: Machine, p: Packet)
    requires m.phase.Reading? && m.phase.request == HasConnection
    ensures var after := Step(m, Arrived(Decoded(p)));
            match p
            case Okay(_) => after.trace.now.ending == Returned(Presence(true))
            case Refusal(reason) =>
              after.trace.now.ending == Returned(if reason == Some(2) then Presence(false) else Failed(DeviceRejected))
            case _ => WaitsOver(m, p, after)
  {
    hide Retain, Track, Register;
  }

  lemma QueryAnswers(m: Machine, p: Packet)
    requires m.phase.Reading? && m.phase.request.Query?
    ensures var after := Step(m, Arrived(Decoded(p)));
            var kind := m.phase.request.kind;
            match p
            case Refusal(_) => after.trace.now.ending == Returned(Failed(DeviceRejected))
            case Disabled => after.trace.now.ending == Returned(Failed(FeatureDisabled))
            case Contact(_) =>
              if kind == ContactCard then after.trace.now.ending == Returned(Reply(p)) else WaitsOver(m, p, after)
            case Data(k, _, _) =>
              if k == kind && kind != ContactCard then after.trace.now.ending == Returned(Reply(p))
              else WaitsOver(m, p, after)
            case _ => WaitsOver(m, p, after)
  {
    hide Retain, Track, Register;
  }

  lemma DeviceQueryAnswers(m: Machine, p: Packet)
    requires m.phase.Reading? && m.phase.request == DeviceQuery
    ensures var after := Step(m, Arrived(Decoded(p)));
            if p.Refusal? then after.trace.now.ending == Returned(Failed(ProtocolInvariant))
            else if p.Data? && p.kind == DeviceInfo then after.trace.now.ending == Returned(Reply(p))
            else WaitsOver(m, p, after)
  {
    hide Retain, Track, Register;
  }

  lemma SendAnswers(m: Machine, p: Packet)
    requires m.phase.Reading? && m.phase.request.Direct?
    ensures var after := Step(m, Arrived(Decoded(p)));
            match p
            case MsgSent(code, timeoutMs) => after.trace.now.ending == Returned(Tracking(Tracked(code, timeoutMs)))
            case Refusal(_) => after.trace.now.ending == Returned(Failed(DeviceRejected))
            case _ => WaitsOver(m, p, after)
  {
    hide Retain, Track, Register;
  }

  lemma ListingAnswers(m: Machine, p: Packet)
    requires m.phase.Reading? && m.phase.request == GetContacts
    ensures var after := Step(m, Arrived(Decoded(p)));
            match p
            case Contact(c) =>
              after.trace.now.ending.Continues? && after.phase == Reading(GetContacts, m.phase.contacts + [c])
            case ContactEnd(lastmod) =>
              after.trace.now.ending == Returned(ContactList(m.phase.contacts, Some(lastmod)))
            case NoMoreMsgs => after.trace.now.ending == Returned(ContactList(m.phase.contacts, None))
            case Refusal(_) => after.trace.now.ending == Returned(Failed(ProtocolInvariant))
            case _ => WaitsOver(m, p, after)
  {
    hide Retain, Track, Register;
  }

  /** The handshake; inside connect and reconnect a refusal closes the transport first. */
  lemma HandshakeAnswers(m: Machine, p: Packet)
    requires m.phase.Reading? && m.phase.request.AppStart?
    ensures var after := Step(m, Arrived(Decoded(p)));
            match p
            case SelfInfo(name) =>
              && after.trace.now.ending == Returned(Info(name))
              && after.trace.now.signal == (if m.phase.request.nested then Some(Connected) else None)
            case Refusal(_) =>
              if m.phase.request.nested then
                after.trace.now.ending.Continues? && after.phase == Aborting(ProtocolInvariant)
              else after.trace.now.ending == Returned(Failed(ProtocolInvariant))
            case _ => WaitsOver(m, p, after)
  {
    hide Retain, Track, Register;
  }

  /** A remote request first waits for its receipt ... */
  lemma RemoteReceiptAnswers(m: Machine, p: Packet)
    requires m.phase.Reading? && m.phase.request.Remote?
    ensures var after := Step(m, Arrived(Decoded(p)));
            var r := m.phase.request;
            match p
            case MsgSent(code, _) =>
              && after.trace.now.ending.Continues?
              && after.phase == Reading(RemoteReply(r.kind, r.failure, if r.tag.Some? then r.tag.value else code), [])
            case Refusal(_) => after.trace.now.ending == Returned(Failed(DeviceRejected))
            case _ => WaitsOver(m, p, after)
  {
    hide Retain, Track, Register;
  }

  /** ... and then for the answer of its kind with its tag, and for no other. */
  lemma RemoteReplyAnswers(m: Machine, p: Packet)
    requires m.phase.Reading? && m.phase.request.RemoteReply?
    ensures var after := Step(m, Arrived(Decoded(p)));
            var r := m.phase.request;
            match p
            case Data(kind, tag, _) =>
              if tag != r.wanted then WaitsOver(m, p, after)
              else if kind == r.kind then after.trace.now.ending == Returned(Reply(p))
              else if r.failure == Some(kind) then after.trace.now.ending == Returned(Failed(AuthenticationFailed))
              else WaitsOver(m, p, after)
            case Refusal(_) => after.trace.now.ending == Returned(Failed(DeviceRejected))
            case Disabled => after.trace.now.ending == Returned(Failed(FeatureDisabled))
            case _ => WaitsOver(m, p, after)
  {
    hide Retain, Track, Register;
  }

  // ---- failures ---------------------------------------------------------------------------------------

  /** A read that brings no packet fails the operation with the error of that read, and
      the connection is lost exactly on a close or a terminal error. */
  lemma ReadFailureAnswers(m: Machine, i: Input)
    requires IsReading(m.phase) && Allowed(m.phase, i)
    requires !(i.Arrived? && i.raw.Decoded?) && !i.Drop? && !i.NothingReady?
    ensures var after := Step(m, i);
            var e := if i.PeerClosed? then NotConnected
                     else if i.ReadFailed? then TransportFault
                     else if i.ReadTimeout? then TimedOut else ParseFault;
            && (if m.phase.Reading? && m.phase.request == AppStart(true)
                then after.phase == Aborting(e) && after.trace.now.ending.Continues?
                else after.phase.Ready? && after.trace.now.ending == Returned(Failed(e)))
            && after.state.connected == (m.state.connected && !(i.PeerClosed? || i == ReadFailed(true)))
            && after.trace.now.consumed.None? && after.trace.now.published.None?
  {
    hide OnReply, OnSyncPacket, OnDrained, OnAckPacket, OnIdlePacket;
  }

  lemma WriteAnswers(m: Machine, i: Input)
    requires (m.phase.Writing? || m.phase.SyncWriting?) && Allowed(m.phase, i) && !i.Drop?
    ensures var after := Step(m, i);
            if i.WriteOk? then
              && after.trace.now.ending.Continues? && after.state == m.state
              && after.phase == (if m.phase.SyncWriting? then SyncReading
                                 else if m.phase.request == Reboot then Closing(true)
                                 else Reading(m.phase.request, []))
            else
              && after.state.connected == (m.state.connected && !i.terminal)
              && if m.phase.Writing? && m.phase.request == AppStart(true) then after.phase == Aborting(TransportFault)
                 else after.phase.Ready? && after.trace.now.ending == Returned(Failed(TransportFault))
  {}

  /** Opening a transport leads to the handshake; closing one always disconnects. */
  lemma TransportAnswers(m: Machine, i: Input)
    requires (m.phase.Opening? || m.phase.Closing? || m.phase.Aborting?) && Allowed(m.phase, i) && !i.Drop?
    ensures var after := Step(m, i);
            match m.phase
            case Opening =>
              if i.OpenFailed? then after.trace.now.ending == Returned(Failed(TransportFault)) && after.state == m.state
              else
                && after.state.connected && after.trace.now.linked
                && (m.state.sync.Idle? ==>
                      after.phase == Writing(AppStart(true)) &&
                      after.trace.now.issued == Some(RequestCommand(AppStart(true))))
            case Aborting(e) => after.trace.now.ending == Returned(Failed(e)) && !after.state.connected
            case Closing(reboot) =>
              && !after.state.connected
              && after.trace.now.ending == Returned(if reboot || i.ok then Done else Failed(TransportFault))
            case _ => true
  {}

  /** A dropped operation ends there and then, and leaves the session as it was. */
  lemma DropsChangeNothing(m: Machine)
    requires Allowed(m.phase, Drop)
    ensures var after := Step(m, Drop);
            && after.phase.Ready? && after.state == m.state && after.trace.now.ending == Dropped
            && after.trace.now.issued.None? && after.trace.now.published.None? && after.trace.now.signal.None?
  {
    hide OnReply, OnSyncPacket, OnDrained, OnAckPacket, OnIdlePacket;
  }

  // ---- beginnings ----------------------------------------------------------------------------------------

  /** A request is written exactly if the client is connected, awaits no inbox answer and
      the command has between 1 and 176 bytes; each obstacle has its own error. */
  lemma RequestsBegin(m: Machine, r: Request, size: nat)
    requires m.phase.Ready? && Callable(Send(r, size))
    ensures var after := Step(m, Start(Send(r, size)));
            && after.state == m.state && after.trace.now.began == Some(Send(r, size))
            && if !m.state.connected then after.trace.now.ending == Returned(Failed(NotConnected))
               else if m.state.sync.AwaitingResponse? || size == 0 then
                 after.trace.now.ending == Returned(Failed(ProtocolInvariant))
               else if size > 176 then after.trace.now.ending == Returned(Failed(ParseFault))
               else
                 && after.phase == Writing(r) && after.trace.now.ending.Continues?
                 && after.trace.now.issued == Some(RequestCommand(r))
  {}

  lemma OperationsBegin(m: Machine, op: Op)
    requires m.phase.Ready? && Callable(op) && !op.Send?
    ensures var after := Step(m, Start(op));
            && after.trace.now.began == Some(op) && after.trace.now.issued.None?
            && (op.Connect? || op.Reconnect? ==> after.phase == Opening && after.state.pending == [])
            && (op.Reconnect? ==> !after.state.connected)
            && (op.Connect? ==> after.state.connected == m.state.connected)
            && (op.Disconnect? ==> after.phase == Closing(false) && after.state == m.state)
            && (!m.state.connected && (op.NextEvent? || op.SyncNext? || (op.WaitForAck? && op.timeoutValid)) ==>
                  after.trace.now.ending == Returned(Failed(NotConnected)) && after.state == m.state)
            && (op.WaitForAck? && !op.timeoutValid ==>
                  after.trace.now.ending == Returned(Failed(InvalidArgument)) && after.state == m.state)
            && (m.state.connected && op.NextEvent? ==> after.phase == Idling && after.state == m.state)
            && (m.state.connected && op.SyncNext? && m.state.deferred.None? ==>
                  after.phase == Draining(0) && after.state == m.state)
            && (m.state.connected && op.WaitForAck? && op.timeoutValid && !Has(m.state.completed, op.code) ==>
                  after.phase == AckReading(op.code) && after.state == m.state)
  {}

  /** Once nothing more is ready, a synchronisation is requested unless one is in flight. */
  lemma DrainEnds(m: Machine)
    requires m.phase.Draining?
    ensures var after := Step(m, NothingReady);
            && after.trace.now.ending.Continues? && after.state == m.state.(sync := AwaitingResponse)
            && if m.state.sync.AwaitingResponse? then after.phase == SyncReading && after.trace.now.issued.None?
               else after.phase == SyncWriting && after.trace.now.issued == Some(SyncCommand)
  {}

  // ---- answers belong to their operation, over runs -----------------------------------------------------

  /** The operation begun last. */
  function Latest(t: Trace): Option<Op> {
    match t
    case Empty => None
    case Then(past, now) => if now.began.Some? then now.began else Latest(past)
  }

  /** The code of the first receipt read since it began. */
  function Receipt(t: Trace): Option<AckCode> {
    match t
    case Empty => None
    case Then(past, now) =>
      if now.began.Some? then None
      else if Receipt(past).Some? then Receipt(past)
      else match now.consumed
           case Some(MsgSent(code, _)) => Some(code)
           case _ => None
  }

  /** The tag a remote request waits for: the one it was given, or its receipt's code. */
  ghost predicate Awaits(tag: Option<nat>, receipt: Option<AckCode>, wanted: nat) {
    if tag.Some? then wanted == tag.value else receipt == Some(wanted)
  }

  /** Which operation each await point belongs to. */
  ghost predicate Belongs(phase: Phase, latest: Option<Op>, receipt: Option<AckCode>) {
    match phase
    case Ready => true
    case Opening => (latest == Some(Connect) || latest == Some(Reconnect)) && receipt.None?
    case Aborting(_) => latest == Some(Connect) || latest == Some(Reconnect)
    case Closing(reboot) =>
      if reboot then latest.Some? && latest.value.Send? && latest.value.request == Reboot
      else latest == Some(Disconnect)
    case Idling => latest == Some(NextEvent)
    case Draining(_) => latest == Some(SyncNext)
    case SyncWriting => latest == Some(SyncNext)
    case SyncReading => latest == Some(SyncNext)
    case AckReading(code) => latest == Some(WaitForAck(code, true))
    case Writing(r) => OwnRequest(r, latest) && !r.RemoteReply? && receipt.None?
    case Reading(r, _) =>
      if r.RemoteReply? then
        && latest.Some? && latest.value.Send? && latest.value.request.Remote?
        && latest.value.request.kind == r.kind && latest.value.request.failure == r.failure
        && Awaits(latest.value.request.tag, receipt, r.wanted)
      else OwnRequest(r, latest) && (r.Remote? ==> receipt.None?)
  }

  ghost predicate OwnRequest(r: Request, latest: Option<Op>) {
    if r == AppStart(true) then latest == Some(Connect) || latest == Some(Reconnect)
    else latest.Some? && latest.value.Send? && latest.value.request == r
  }

  /** Every reply handed to a remote request is of its kind and carries its tag. */
  ghost predicate Correlated(t: Trace) {
    match t
    case Empty => true
    case Then(past, now) =>
      && Correlated(past)
      && (now.ending.Returned? && now.ending.answer.Reply? && Latest(t).Some? && Latest(t).value.Send?
          && Latest(t).value.request.Remote? ==>
            && var p, r := now.ending.answer.packet, Latest(t).value.request;
            && p.Data? && p.kind == r.kind && Awaits(r.tag, Receipt(past), p.tag) && now.consumed == Some(p))
  }

  ghost predicate Attributed(m: Machine) {
    Belongs(m.phase, Latest(m.trace), Receipt(m.trace)) && Correlated(m.trace)
  }

  lemma ReplyMoves(m: Machine, p: Packet)
    requires m.phase.Reading?
    ensures var after := Step(m, Arrived(Decoded(p)));
            var now, r := after.trace.now, m.phase.request;
            && now.began.None? && now.consumed == Some(Stamped(p, m.state.nextId))
            && (|| after.phase.Ready? || after.phase == m.phase
                || (r == GetContacts && after.phase.Reading? && after.phase.request == GetContacts)
                || (r == AppStart(true) && after.phase.Aborting?)
                || (r.Remote? && p.MsgSent? && after.phase ==
                    Reading(RemoteReply(r.kind, r.failure, if r.tag.Some? then r.tag.value else p.expectedAck), [])))
            && (r.Remote? && p.MsgSent? ==> !after.phase.Ready? && after.phase != m.phase)
            && (now.ending.Returned? && now.ending.answer.Reply? ==>
                  && now.ending.answer.packet == p && !r.Remote?
                  && (r.RemoteReply? ==> p.Data? && p.kind == r.kind && p.tag == r.wanted))
  {
    hide Retain, Track, Register;
  }

  lemma ReplyKeepsAttributed(m: Machine, p: Packet)
    requires Attributed(m) && m.phase.Reading?
    ensures Attributed(Step(m, Arrived(Decoded(p))))
  {
    hide Step;
    ReplyMoves(m, p);
    StepRecords(m, Arrived(Decoded(p)));
  }

  lemma StepRecords(m: Machine, i: Input)
    requires Allowed(m.phase, i)
    ensures Step(m, i).trace.Then? && Step(m, i).trace.past == m.trace
  {}

  /** Other packets and failures end an operation or leave it where it is. */
  lemma ReadMoves(m: Machine, i: Input)
    requires IsReading(m.phase) && Allowed(m.phase, i) && !i.NothingReady?
    requires !(m.phase.Reading? && i.Arrived? && i.raw.Decoded?)
    ensures var after := Step(m, i);
            && after.trace.now.began.None?
            && (|| after.phase.Ready? || after.phase == m.phase
                || (m.phase.Draining? && after.phase.Draining?)
                || (m.phase.Reading? && m.phase.request == AppStart(true) && after.phase.Aborting?))
            && (after.trace.now.ending.Returned? ==> !after.trace.now.ending.answer.Reply?)
            && (m.phase.Reading? ==> after.trace.now.consumed.None?)
  {
    hide Retain, Track, Forget, OnReply;
  }

  lemma ReadKeepsAttributed(m: Machine, i: Input)
    requires Attributed(m) && IsReading(m.phase) && Allowed(m.phase, i) && !i.NothingReady?
    requires !(m.phase.Reading? && i.Arrived? && i.raw.Decoded?)
    ensures Attributed(Step(m, i))
  {
    hide Step;
    ReadMoves(m, i);
    StepRecords(m, i);
  }

  lemma OtherKeepsAttributed(m: Machine, i: Input)
    requires Attributed(m) && Allowed(m.phase, i) && (!IsReading(m.phase) || i.NothingReady?)
    ensures Attributed(Step(m, i))
  {
    hide Cleared, Forget, Without, OnReply, OnPulled, BeginRequest;
    if m.phase.Ready? { BeginKeepsAttributed(m, i.op); } else if m.phase.Opening? { OpenKeepsAttributed(m, i); }
  }

  lemma OpenKeepsAttributed(m: Machine, i: Input)
    requires Attributed(m) && Allowed(m.phase, i) && m.phase.Opening?
    ensures Attributed(Step(m, i))
  {
    hide Correlated;
    NoReply(m, i);
  }

  lemma BeginKeepsAttributed(m: Machine, op: Op)
    requires Attributed(m) && m.phase.Ready? && Callable(op)
    ensures Attributed(Step(m, Start(op)))
  {
    hide Correlated;
    NoReply(m, Start(op));
  }

  lemma NoReply(m: Machine, i: Input)
    requires Correlated(m.trace) && Allowed(m.phase, i) && (m.phase.Ready? || m.phase.Opening?)
    ensures Correlated(Step(m, i).trace)
  {
    hide Cleared, Without;
  }

  /** In every run, each await point belongs to the operation begun last, and every reply
      a remote request returns is the packet just read, of its kind, with the tag it was
      given or the code of its own receipt. */
  lemma {:induction false} AnswersAreAttributed(inputs: seq<Input>)
    requires Legal(Initial, inputs)
    ensures Attributed(After(Initial, inputs))
    decreases |inputs|
  {
    hide Attributed, Step;
    if inputs == [] {
      InitialIsAttributed();
    } else {
      var front := inputs[..|inputs| - 1];
      var m, i := After(Initial, front), inputs[|inputs| - 1];
      AnswersAreAttributed(front);
      if !IsReading(m.phase) || i.NothingReady? { OtherKeepsAttributed(m, i); }
      else if m.phase.Reading? && i.Arrived? && i.raw.Decoded? { ReplyKeepsAttributed(m, i.raw.packet); }
      else { ReadKeepsAttributed(m, i); }
    }
  }

  lemma InitialIsAttributed()
    ensures Attributed(Initial)
  {}

  // ---- Connected events, over runs ----------------------------------------------------------------------

  /** How many connects and reconnects have succeeded. */
  function Greeted(t: Trace): nat {
    match t
    case Empty => 0
    case Then(past, now) =>
      Greeted(past) +
      if Latest(t) in {Some(Connect), Some(Reconnect)} && now.ending.Returned? && now.ending.answer.Info? then 1 else 0
  }

  lemma StepSignalsConnected(m: Machine, i: Input)
    requires Attributed(m) && Allowed(m.phase, i)
    ensures var now := Step(m, i).trace.now;
            now.signal == Some(Connected) <==>
            && Latest(Step(m, i).trace) in {Some(Connect), Some(Reconnect)}
            && now.ending.Returned? && now.ending.answer.Info?
  {
    hide Step, Correlated;
    StepRecords(m, i);
    if m.phase.Reading? && i.Arrived? && i.raw.Decoded? {
      ReplySignals(m, i.raw.packet);
      assert Latest(Step(m, i).trace) == Latest(m.trace);
      assert OwnRequest(m.phase.request, Latest(m.trace)) || m.phase.request.RemoteReply?;
    } else {
      OthersSignalNothing(m, i);
    }
  }

  lemma OthersSignalNothing(m: Machine, i: Input)
    requires Allowed(m.phase, i) && !(m.phase.Reading? && i.Arrived? && i.raw.Decoded?)
    ensures var now := Step(m, i).trace.now;
            now.signal != Some(Connected) && !(now.ending.Returned? && now.ending.answer.Info?)
  {
    hide Retain, Track, Forget, OnReply, Cleared, Without, EventOf, BeginRequest;
    if m.phase.Ready? || m.phase.Opening? { StartsSignalNothing(m, i); }
  }

  lemma StartsSignalNothing(m: Machine, i: Input)
    requires Allowed(m.phase, i) && (m.phase.Ready? || m.phase.Opening?)
    ensures var now := Step(m, i).trace.now;
            now.signal != Some(Connected) && !(now.ending.Returned? && now.ending.answer.Info?)
  {
    hide Cleared, Without;
  }

  lemma ReplySignals(m: Machine, p: Packet)
    requires m.phase.Reading?
    ensures var now := Step(m, Arrived(Decoded(p))).trace.now;
            && now.began.None?
            && (now.signal == Some(Connected) <==>
                  m.phase.request == AppStart(true) && now.ending.Returned? && now.ending.answer.Info?)
            && (now.ending.Returned? && now.ending.answer.Info? ==> m.phase.request.AppStart?)
  {
    hide Retain, Track, Register;
  }

  /** A Connected event is published exactly when a connect or reconnect succeeds. */
  lemma {:induction false} ConnectedEventsMatchSuccesses(inputs: seq<Input>)
    requires Legal(Initial, inputs)
    ensures Signals(After(Initial, inputs).trace, Connected) == Greeted(After(Initial, inputs).trace)
    decreases |inputs|
  {
    hide Step, Attributed;
    if inputs != [] {
      var front := inputs[..|inputs| - 1];
      var m, i := After(Initial, front), inputs[|inputs| - 1];
      ConnectedEventsMatchSuccesses(front);
      AnswersAreAttributed(front);
      StepSignalsConnected(m, i);
      StepRecords(m, i);
    }
  }
}
