/** Packets, events and errors of the companion protocol, as far as the client
    session distinguishes them.  Byte layouts are abstracted away: a transport
    read yields either an unparsable buffer or one of the packets below. */
module Protocol {

  datatype Option<+T> = None | Some(value: T)

  /** A four-byte acknowledgement code, read as a number. */
  type AckCode = c: nat | c < 0x1_0000_0000

  /** A decoded inbox message.  The parser leaves the observation id empty; the
      session assigns it, so that clones of one packet can be recognised. */
  datatype Message = Message(text: string, observation: Option<nat>)

  /** One entry of the acknowledgement stores: what was tracked for a send
      (the suggested timeout) or what its acknowledgement carried. */
  datatype Tracked = Tracked(code: AckCode, value: nat)

  /** Reply kinds that the session passes through without looking inside. */
  datatype ReplyKind =
    | CurrentTime | ContactUri | Battery | DeviceInfo | Signature | ChannelInfo
    | TuningParams | CustomVariables | AdvertPath | DeviceStats | AutoAddConfig
    | AllowedRepeatFrequencies | DefaultFloodScope | MessagesWaiting
    | LoginSuccess | LoginFailed | RemoteStatus | TelemetryResponse
    | BinaryResponse | ControlData | PathDiscovery | UnknownCode
    | ContactCard                               // matches a Contact packet
    | ContactStart | PrivateKey | SignStart     // never turned into an event

  datatype Packet =
    | Okay(value: Option<nat>)
    | Refusal(reason: Option<nat>)
    | Disabled
    | SelfInfo(name: string)
    | Contact(contact: nat)
    | ContactEnd(lastmod: nat)
    | MsgSent(expectedAck: AckCode, timeoutMs: nat)
    | ContactMsg(message: Message)
    | ChannelMsg(message: Message)
    | NoMoreMsgs
    | Ack(code: AckCode, tripTime: nat)
    | Data(kind: ReplyKind, tag: nat, body: nat)

  datatype Event =
    | Connected
    | Disconnected
    | Incoming(message: Message)
    | Notice(packet: Packet)      // every other packet with a public form

  datatype Error =
    | NotConnected | TimedOut | TransportFault | ParseFault
    | ProtocolInvariant | DeviceRejected | FeatureDisabled | InvalidArgument
    | AuthenticationFailed

  predicate IsMessage(p: Packet) { p.ContactMsg? || p.ChannelMsg? }

  /** The packets that answer an inbox synchronisation request. */
  predicate Settles(p: Packet) { IsMessage(p) || p.NoMoreMsgs? || p.Refusal? }

  /** The public event a packet turns into, if any. */
  function EventOf(p: Packet): Option<Event> {
    match p
    case Okay(_) => None
    case Refusal(_) => None
    case Disabled => None
    case ContactMsg(m) => Some(Incoming(m))
    case ChannelMsg(m) => Some(Incoming(m))
    case Data(kind, _, _) =>
      if kind.ContactStart? || kind.PrivateKey? || kind.SignStart? then None else Some(Notice(p))
    case _ => Some(Notice(p))
  }
}
