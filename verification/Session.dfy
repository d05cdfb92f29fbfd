/** The client session as a small-step machine.

    An operation of the client is an `async` function.  It gives up control only
    where it awaits the transport, and there it may also be dropped for good.  The
    machine therefore has one phase per await point; each input is the answer of an
    adversarial transport to that await (or the start of the next operation), and
    each step runs the code up to the following await.  Everything observable is
    logged in the trace. */
module Session {
  import opened Protocol
  import opened AckStore

  const MAX_PAYLOAD: nat := 176
  const DRAIN_CAPACITY: nat := 256
  const ID_MODULUS: nat := 0x1_0000_0000_0000_0000

  datatype SyncState = Idle | AwaitingResponse

  datatype ReadySync = ReadyMessage(message: Message) | ReadyEmpty | ReadyError

  datatype State = State(
    connected: bool,
    pending: Store,
    completed: Store,
    nextId: nat,
    sync: SyncState,
    deferred: Option<ReadySync>)

  /** A command whose reply is awaited; each constructor has its own idea of which
      packet is the reply and which packet refuses the request. */
  datatype Request =
    | AppStart(nested: bool)     // the handshake, on its own or inside connect/reconnect
    | GetContacts
    | DeviceQuery
    | Direct(tracked: bool)      // expects MsgSent
    | Simple                     // expects OK
    | Query(kind: ReplyKind)
    | HasConnection
    | Remote(kind: ReplyKind, failure: Option<ReplyKind>, tag: Option<nat>)   // MsgSent, then ...
    | RemoteReply(kind: ReplyKind, failure: Option<ReplyKind>, wanted: nat)   // ... the tagged answer
    | Reboot                     // no reply: the transport is closed after the write

  datatype Op =
    | Connect
    | Reconnect
    | Disconnect
    | NextEvent
    | SyncNext
    | WaitForAck(code: AckCode, timeoutValid: bool)
    | Send(request: Request, size: nat)

  datatype Phase =
    | Ready
    | Opening
    | Writing(request: Request)
    | Reading(request: Request, contacts: seq<nat>)
    | Aborting(error: Error)      // closing the transport after a failed handshake
    | Closing(reboot: bool)
    | Idling                      // the idle reader
    | Draining(index: nat)        // non-blocking reads before a synchronisation
    | SyncWriting
    | SyncReading
    | AckReading(code: AckCode)

  datatype Raw = Garbled | Decoded(packet: Packet)

  datatype Input =
    | Start(op: Op)
    | OpenOk | OpenFailed
    | WriteOk | WriteFailed(terminal: bool)
    | Arrived(raw: Raw) | PeerClosed | ReadFailed(terminal: bool) | ReadTimeout
    | NothingReady
    | CloseDone(ok: bool)
    | Drop

  datatype Answer =
    | Done
    | Info(name: string)
    | Heard(event: Option<Event>)
    | Inbox(message: Option<Message>)
    | Acked(ack: Tracked)
    | ContactList(contacts: seq<nat>, lastmod: Option<nat>)
    | Tracking(tracking: Tracked)
    | Reply(packet: Packet)
    | Presence(online: bool)
    | Failed(error: Error)

  datatype Command = SyncCommand | RequestCommand(request: Request)

  datatype Ending = Continues | Returned(answer: Answer) | Dropped

  /** What one step did, as seen from outside.  The code between two awaits runs
      without interruption, so a step consumes, publishes and issues at most once. */
  datatype Moment = Moment(
    at: Phase,
    began: Option<Op>,
    reset: bool,                   // all tracking was cleared
    linked: bool,                  // a transport session was established
    consumed: Option<Packet>,
    published: Option<Packet>,
    signal: Option<Event>,         // Connected or Disconnected
    issued: Option<Command>,       // handed to the transport; it may reach the wire
    ending: Ending)

  datatype Trace = Empty | Then(past: Trace, now: Moment)

  datatype Machine = Machine(state: State, phase: Phase, trace: Trace)

  const Initial: Machine := Machine(State(false, [], [], 1, Idle, None), Ready, Empty)

  /** A step in progress. */
  datatype Turn = Turn(state: State, phase: Phase, now: Moment)

  function Quiet(phase: Phase): Moment {
    Moment(phase, None, false, false, None, None, None, None, Continues)
  }

  function Fresh(m: Machine): Turn { Turn(m.state, m.phase, Quiet(m.phase)) }

  function Commit(m: Machine, t: Turn): Machine {
    Machine(t.state, t.phase, Then(m.trace, t.now))
  }

  // ---- session state -------------------------------------------------------

  function Cleared(s: State): State {
    s.(pending := [], completed := [], sync := Idle, deferred := None)
  }

  function NextIdAfter(id: nat): nat {
    var next := (id + 1) % ID_MODULUS;
    if next == 0 then 1 else next
  }

  function Stamped(p: Packet, id: nat): Packet {
    match p
    case ContactMsg(m) => ContactMsg(m.(observation := Some(id)))
    case ChannelMsg(m) => ChannelMsg(m.(observation := Some(id)))
    case _ => p
  }

  function Observed(s: State, p: Packet): State {
    if IsMessage(p) then s.(nextId := NextIdAfter(s.nextId)) else s
  }

  function ReadyFor(p: Packet): ReadySync
    requires Settles(p)
  {
    match p
    case ContactMsg(m) => ReadyMessage(m)
    case ChannelMsg(m) => ReadyMessage(m)
    case NoMoreMsgs => ReadyEmpty
    case Refusal(_) => ReadyError
  }

  function ReadyAnswer(r: ReadySync): Answer {
    match r
    case ReadyMessage(m) => Inbox(Some(m))
    case ReadyEmpty => Inbox(None)
    case ReadyError => Failed(ProtocolInvariant)
  }

  /** A synchronisation answer that another reader came across is kept. */
  function Retain(s: State, p: Packet): State {
    if s.sync.AwaitingResponse? && Settles(p)
    then s.(deferred := Some(ReadyFor(p)), sync := Idle)
    else s
  }

  function Register(s: State, t: Tracked): State {
    s.(completed := Without(s.completed, t.code), pending := Remember(s.pending, t))
  }

  function Track(s: State, p: Packet): State {
    match p
    case MsgSent(code, timeoutMs) => Register(s, Tracked(code, timeoutMs))
    case Ack(code, tripTime) =>
      if Has(s.pending, code)
      then s.(pending := Without(s.pending, code),
              completed := Remember(s.completed, Tracked(code, tripTime)))
      else s
    case _ => s
  }

  function Forget(s: State, code: AckCode): State {
    s.(pending := Without(s.pending, code), completed := Without(s.completed, code))
  }

  // ---- building blocks of the steps ----------------------------------------

  function Finish(t: Turn, answer: Answer): Turn {
    t.(phase := Ready, now := t.now.(ending := Returned(answer)))
  }

  function Abandon(t: Turn): Turn {
    t.(phase := Ready, now := t.now.(ending := Dropped))
  }

  function Lose(t: Turn): Turn {
    t.(state := Cleared(t.state).(connected := false),
       now := t.now.(reset := true, signal := if t.state.connected then Some(Disconnected) else t.now.signal))
  }

  function Publish(t: Turn, p: Packet): Turn {
    t.(state := Retain(t.state, p), now := t.now.(published := Some(p)))
  }

  function PassOn(t: Turn, p: Packet): Turn {
    var shared := Publish(t, p);
    shared.(state := Track(shared.state, p))
  }

  function Announce(t: Turn): Turn { t.(now := t.now.(signal := Some(Connected))) }

  function Issue(t: Turn, command: Command): Turn {
    t.(now := t.now.(issued := Some(command)))
  }

  datatype Pulled = GotPacket(packet: Packet) | Broken(error: Error) | Abandoned

  /** What a resolved read does to the session before its caller looks at it. */
  function Receive(t: Turn, i: Input): Turn {
    match i
    case Arrived(Decoded(p)) =>
      t.(state := Observed(t.state, p), now := t.now.(consumed := Some(Stamped(p, t.state.nextId))))
    case PeerClosed => Lose(t)
    case ReadFailed(true) => Lose(t)
    case _ => t
  }

  /** What the caller of that read is told. */
  function Pull(t: Turn, i: Input): Pulled {
    match i
    case Arrived(Garbled) => Broken(ParseFault)
    case Arrived(Decoded(p)) => GotPacket(Stamped(p, t.state.nextId))
    case PeerClosed => Broken(NotConnected)
    case ReadFailed(_) => Broken(TransportFault)
    case ReadTimeout => Broken(TimedOut)
    case _ => Abandoned
  }

  // ---- request loops --------------------------------------------------------

  datatype Judgement = Claim | Collect | Refuse(error: Error) | Pass

  predicate Matches(kind: ReplyKind, p: Packet) {
    if kind.ContactCard? then p.Contact? else p.Data? && p.kind == kind
  }

  function Judge(r: Request, p: Packet): (j: Judgement)
    ensures j.Collect? <==> r.GetContacts? && p.Contact?
    ensures IsMessage(p) ==> j.Pass?
  {
    match r
    case AppStart(_) =>
      if p.SelfInfo? then Claim else if p.Refusal? then Refuse(ProtocolInvariant) else Pass
    case GetContacts =>
      if p.Contact? then Collect
      else if p.ContactEnd? || p.NoMoreMsgs? then Claim
      else if p.Refusal? then Refuse(ProtocolInvariant) else Pass
    case DeviceQuery =>
      if Matches(DeviceInfo, p) then Claim
      else if p.Refusal? then Refuse(ProtocolInvariant) else Pass
    case Direct(_) =>
      if p.MsgSent? then Claim else if p.Refusal? then Refuse(DeviceRejected) else Pass
    case Remote(_, _, _) =>
      if p.MsgSent? then Claim else if p.Refusal? then Refuse(DeviceRejected) else Pass
    case Simple =>
      if p.Okay? then Claim else RefusedOrPassed(p)
    case Query(kind) =>
      if Matches(kind, p) then Claim else RefusedOrPassed(p)
    case HasConnection =>
      if p.Okay? || p == Refusal(Some(2)) then Claim
      else if p.Refusal? then Refuse(DeviceRejected) else Pass
    case RemoteReply(kind, failure, wanted) =>
      if p.Data? && p.kind == kind && p.tag == wanted then Claim
      else if p.Data? && failure == Some(p.kind) && p.tag == wanted then Refuse(AuthenticationFailed)
      else RefusedOrPassed(p)
    case Reboot => Pass
  }

  function RefusedOrPassed(p: Packet): Judgement {
    if p.Disabled? then Refuse(FeatureDisabled)
    else if p.Refusal? then Refuse(DeviceRejected) else Pass
  }

  function FailRequest(t: Turn, r: Request, e: Error): Turn {
    if r == AppStart(true) then t.(phase := Aborting(e)) else Finish(t, Failed(e))
  }

  function Complete(t: Turn, r: Request, contacts: seq<nat>, p: Packet): Turn
    requires Judge(r, p).Claim?
  {
    match r
    case AppStart(nested) =>
      var shared := Publish(t, p);
      Finish(if nested then Announce(shared) else shared, Info(p.name))
    case GetContacts =>
      Finish(t, ContactList(contacts, if p.ContactEnd? then Some(p.lastmod) else None))
    case Direct(tracked) =>
      var tracking := Tracked(p.expectedAck, p.timeoutMs);
      Finish(if tracked then t.(state := Register(t.state, tracking)) else t, Tracking(tracking))
    case Remote(kind, failure, tag) =>
      var wanted := if tag.Some? then tag.value else p.expectedAck;
      t.(phase := Reading(RemoteReply(kind, failure, wanted), []))
    case HasConnection => Finish(t, Presence(p.Okay?))
    case Simple => Finish(t, Done)
    case _ => Finish(t, Reply(p))
  }

  function OnReply(t: Turn, r: Request, contacts: seq<nat>, p: Packet): Turn {
    match Judge(r, p)
    case Claim => Complete(t, r, contacts, p)
    case Collect => t.(phase := Reading(r, contacts + [p.contact]))
    case Refuse(e) => FailRequest(t, r, e)
    case Pass => PassOn(t, p)
  }

  // ---- synchronisation and acknowledgement waits ----------------------------

  function OnSyncPacket(t: Turn, p: Packet): Turn {
    if Settles(p) then
      var settled := t.(state := t.state.(sync := Idle));
      Finish(if IsMessage(p) then Publish(settled, p) else settled, ReadyAnswer(ReadyFor(p)))
    else PassOn(t, p)
  }

  function OnDrained(t: Turn, index: nat, p: Packet): Turn {
    if Settles(p) then OnSyncPacket(t, p)
    else if index >= DRAIN_CAPACITY then Finish(PassOn(t, p), Failed(ProtocolInvariant))
    else PassOn(t, p).(phase := Draining(index + 1))
  }

  function AfterDrain(t: Turn): Turn {
    if t.state.sync.AwaitingResponse? then t.(phase := SyncReading)
    else Issue(t.(state := t.state.(sync := AwaitingResponse), phase := SyncWriting), SyncCommand)
  }

  function FailAck(t: Turn, code: AckCode, e: Error): Turn {
    Finish(t.(state := Forget(t.state, code)), Failed(e))
  }

  function OnAckPacket(t: Turn, code: AckCode, p: Packet): Turn {
    match p
    case Ack(c, tripTime) =>
      if c == code then
        var settled := t.(state := t.state.(pending := Without(t.state.pending, code)));
        Finish(Publish(settled, p), Acked(Tracked(c, tripTime)))
      else PassOn(t, p)
    case Refusal(_) => FailAck(t, code, ProtocolInvariant)
    case _ => Publish(t, p)
  }

  function OnIdlePacket(t: Turn, p: Packet): Turn {
    Finish(PassOn(t, p), Heard(EventOf(p)))
  }

  // ---- the transition function ----------------------------------------------

  function BeginRequest(t: Turn, r: Request, size: nat): Turn {
    if !t.state.connected then FailRequest(t, r, NotConnected)
    else if t.state.sync.AwaitingResponse? then FailRequest(t, r, ProtocolInvariant)
    else if size == 0 then FailRequest(t, r, ProtocolInvariant)
    else if size > MAX_PAYLOAD then FailRequest(t, r, ParseFault)
    else Issue(t.(phase := Writing(r)), RequestCommand(r))
  }

  function Begin(t: Turn, op: Op): Turn {
    var b := t.(now := t.now.(began := Some(op)));
    match op
    case Connect => b.(state := Cleared(b.state), phase := Opening, now := b.now.(reset := true))
    case Reconnect => Lose(b).(phase := Opening)
    case Disconnect => b.(phase := Closing(false))
    case NextEvent => if b.state.connected then b.(phase := Idling) else Finish(b, Failed(NotConnected))
    case SyncNext =>
      if !b.state.connected then Finish(b, Failed(NotConnected))
      else if b.state.deferred.Some? then
        Finish(b.(state := b.state.(deferred := None)), ReadyAnswer(b.state.deferred.value))
      else b.(phase := Draining(0))
    case WaitForAck(code, timeoutValid) =>
      if !timeoutValid then Finish(b, Failed(InvalidArgument))
      else if !b.state.connected then Finish(b, Failed(NotConnected))
      else
        var found := Find(b.state.completed, code);
        if found.Some?
        then Finish(b.(state := b.state.(completed := Without(b.state.completed, code))), Acked(found.value))
        else b.(phase := AckReading(code))
    case Send(request, size) => BeginRequest(b, request, size)
  }

  /** Requests a caller can start; the other two are stages inside an operation. */
  predicate Callable(op: Op) {
    op.Send? ==> op.request != AppStart(true) && !op.request.RemoteReply?
  }

  /** The ways an operation can wait. */
  datatype Await = ForCaller | ForOpen | ForWrite | ForRead | ForTimedRead | ForPoll | ForClose

  function AwaitOf(phase: Phase): Await {
    match phase
    case Ready => ForCaller
    case Opening => ForOpen
    case Writing(_) => ForWrite
    case SyncWriting => ForWrite
    case Reading(_, _) => ForTimedRead
    case SyncReading => ForTimedRead
    case AckReading(_) => ForTimedRead
    case Idling => ForRead
    case Draining(_) => ForPoll
    case Aborting(_) => ForClose
    case Closing(_) => ForClose
  }

  /** The answers a transport can give.  A non-blocking poll cannot be dropped. */
  predicate Answers(a: Await, i: Input) {
    match a
    case ForCaller => i.Start? && Callable(i.op)
    case ForOpen => i.OpenOk? || i.OpenFailed? || i.Drop?
    case ForWrite => i.WriteOk? || i.WriteFailed? || i.Drop?
    case ForRead => i.Arrived? || i.PeerClosed? || i.ReadFailed? || i.Drop?
    case ForTimedRead => i.Arrived? || i.PeerClosed? || i.ReadFailed? || i.ReadTimeout? || i.Drop?
    case ForPoll => i.Arrived? || i.PeerClosed? || i.ReadFailed? || i.NothingReady?
    case ForClose => i.CloseDone? || i.Drop?
  }

  predicate Allowed(phase: Phase, i: Input) { Answers(AwaitOf(phase), i) }

  /** Phases that wait for, or poll for, a packet. */
  predicate IsReading(phase: Phase) {
    phase.Reading? || phase.SyncReading? || phase.AckReading? || phase.Idling? || phase.Draining?
  }

  /** A request reads after its write, except that a reboot closes the transport. */
  function Written(t: Turn, r: Request): Turn {
    if r.Reboot? then t.(phase := Closing(true)) else t.(phase := Reading(r, []))
  }

  function OnPulled(t: Turn, phase: Phase, pulled: Pulled): Turn {
    match pulled
    case Abandoned => Abandon(t)
    case GotPacket(p) => (
      match phase
      case Reading(r, contacts) => OnReply(t, r, contacts, p)
      case SyncReading => OnSyncPacket(t, p)
      case Draining(index) => OnDrained(t, index, p)
      case AckReading(code) => OnAckPacket(t, code, p)
      case _ => OnIdlePacket(t, p)
    )
    case Broken(e) => (
      match phase
      case Reading(r, _) => FailRequest(t, r, e)
      case AckReading(code) => FailAck(t, code, e)
      case _ => Finish(t, Failed(e))
    )
  }

  function Advance(t: Turn, i: Input): Turn
    requires Allowed(t.phase, i)
  {
    match t.phase
    case Ready => Begin(t, i.op)
    case Opening => (
      match i
      case OpenOk =>
        BeginRequest(t.(state := t.state.(connected := true), now := t.now.(linked := true)), AppStart(true), 1)
      case OpenFailed => Finish(t, Failed(TransportFault))
      case _ => Abandon(t)
    )
    case Writing(r) => (
      match i
      case WriteOk => Written(t, r)
      case WriteFailed(terminal) => FailRequest(if terminal then Lose(t) else t, r, TransportFault)
      case _ => Abandon(t)
    )
    case SyncWriting => (
      match i
      case WriteOk => t.(phase := SyncReading)
      case WriteFailed(terminal) => Finish(if terminal then Lose(t) else t, Failed(TransportFault))
      case _ => Abandon(t)
    )
    case Aborting(e) => if i.Drop? then Abandon(t) else Finish(Lose(t), Failed(e))
    case Closing(reboot) =>
      if i.Drop? then Abandon(t)
      else Finish(Lose(t), if reboot || i.ok then Done else Failed(TransportFault))
    case Draining(_) =>
      if i.NothingReady? then AfterDrain(t)
      else OnPulled(Receive(t, i), t.phase, Pull(t, i))
    case _ => OnPulled(Receive(t, i), t.phase, Pull(t, i))
  }

  function Step(m: Machine, i: Input): Machine
    requires Allowed(m.phase, i)
  {
    Commit(m, Advance(Fresh(m), i))
  }

  // ---- runs -----------------------------------------------------------------

  /** The machine after a sequence of inputs; inputs no await point could yield
      make a sequence illegal. */
  function After(m: Machine, inputs: seq<Input>): Machine
    requires Legal(m, inputs)
    decreases |inputs|
  {
    if inputs == [] then m
    else
      var front := inputs[..|inputs| - 1];
      Step(After(m, front), inputs[|inputs| - 1])
  }

  predicate Legal(m: Machine, inputs: seq<Input>)
    decreases |inputs|, 1
  {
    if inputs == [] then true
    else
      var front := inputs[..|inputs| - 1];
      Legal(m, front) && Allowed(After(m, front).phase, inputs[|inputs| - 1])
  }
}
