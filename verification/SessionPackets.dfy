/** Packet conservation: a consumed packet is the reply or refusal of the running
    operation, or it is handed to publication, once and in arrival order. */
module SessionPackets {
  import opened Protocol
  import opened Session

  /** The packets a request takes for its own, by request and packet.  The handshake
      publishes its reply as well. */
  predicate TakenBy(r: Request, p: Packet) {
    match r
    case AppStart(_) => p.Refusal?
    case GetContacts => p.Contact? || p.ContactEnd? || p.NoMoreMsgs? || p.Refusal?
    case DeviceQuery => (p.Data? && p.kind == DeviceInfo) || p.Refusal?
    case Direct(_) => p.MsgSent? || p.Refusal?
    case Simple => p.Okay? || p.Refusal? || p.Disabled?
    case Query(kind) =>
      (if kind == ContactCard then p.Contact? else p.Data? && p.kind == kind) || p.Refusal? || p.Disabled?
    case HasConnection => p.Okay? || p.Refusal?
    case Remote(_, _, _) => p.MsgSent? || p.Refusal?
    case RemoteReply(kind, failure, wanted) =>
      || (p.Data? && p.tag == wanted && (p.kind == kind || failure == Some(p.kind)))
      || p.Refusal? || p.Disabled?
    case Reboot => false
  }

  /** Packets an operation keeps to itself. */
  predicate Kept(at: Phase, p: Packet) {
    match at
    case Reading(r, _) => TakenBy(r, p)
    case SyncReading => p.NoMoreMsgs? || p.Refusal?
    case Draining(_) => p.NoMoreMsgs? || p.Refusal?
    case AckReading(_) => p.Refusal?
    case _ => false
  }

  function SharedPackets(t: Trace): seq<Packet> {
    match t
    case Empty => []
    case Then(past, now) =>
      SharedPackets(past) +
      if now.consumed.Some? && !Kept(now.at, now.consumed.value) then [now.consumed.value] else []
  }

  function PublishedPackets(t: Trace): seq<Packet> {
    match t
    case Empty => []
    case Then(past, now) =>
      PublishedPackets(past) + if now.published.Some? then [now.published.value] else []
  }

  lemma ReplyPublishes(t: Turn, r: Request, contacts: seq<nat>, p: Packet)
    requires t.now.published.None?
    ensures OnReply(t, r, contacts, p).now.published == if Kept(Reading(r, contacts), p) then None else Some(p)
  {}

  lemma StepPublishes(m: Machine, i: Input)
    requires Allowed(m.phase, i)
    ensures var now := Step(m, i).trace.now;
            && now.at == m.phase
            && (now.consumed.Some? <==> i.Arrived? && i.raw.Decoded?)
            && now.published == if now.consumed.Some? && !Kept(now.at, now.consumed.value) then now.consumed else None
  {
    if IsReading(m.phase) && Pull(Fresh(m), i).GotPacket? {
      PacketPublishes(m, i);
    }
  }

  lemma PacketPublishes(m: Machine, i: Input)
    requires Allowed(m.phase, i) && IsReading(m.phase) && Pull(Fresh(m), i).GotPacket?
    ensures var now := Step(m, i).trace.now;
            && now.at == m.phase
            && now.consumed == Some(Pull(Fresh(m), i).packet)
            && now.published == if Kept(now.at, now.consumed.value) then None else now.consumed
  {
    var t, p := Receive(Fresh(m), i), Pull(Fresh(m), i).packet;
    if m.phase.Reading? {
      ReplyPublishes(t, m.phase.request, m.phase.contacts, p);
      ReplyKeepsPast(t, m.phase.request, m.phase.contacts, p);
    }
  }

  lemma ReplyKeepsPast(t: Turn, r: Request, contacts: seq<nat>, p: Packet)
    ensures var now := OnReply(t, r, contacts, p).now;
            now.at == t.now.at && now.consumed == t.now.consumed
  {}

  /** For every interleaving, the published packets are exactly the consumed packets
      that no operation kept, in the order they arrived. */
  lemma {:induction false} PacketsAreConserved(inputs: seq<Input>)
    requires Legal(Initial, inputs)
    ensures PublishedPackets(After(Initial, inputs).trace) == SharedPackets(After(Initial, inputs).trace)
    decreases |inputs|
  {
    if inputs != [] {
      var front := inputs[..|inputs| - 1];
      PacketsAreConserved(front);
      StepPublishes(After(Initial, front), inputs[|inputs| - 1]);
    }
  }

  /** A packet that a request keeps ends it, unless it is one contact of a listing or
      the receipt that precedes a remote answer. */
  lemma KeptPacketEnds(m: Machine, p: Packet)
    requires m.phase.Reading? && Kept(m.phase, p)
    ensures var after := Step(m, Arrived(Decoded(p)));
            || after.trace.now.ending.Returned?
            || after.phase.Aborting?
            || (m.phase.request.GetContacts? && p.Contact?
                && after.phase == Reading(GetContacts, m.phase.contacts + [p.contact]))
            || (m.phase.request.Remote? && p.MsgSent? && after.phase.Reading? && after.phase.request.RemoteReply?)
  {
    assert Stamped(p, m.state.nextId) == p;
  }

  // ---- contact listings -----------------------------------------------------------

  /** The contacts received since the running operation began. */
  function Collected(t: Trace): seq<nat> {
    match t
    case Empty => []
    case Then(past, now) =>
      if now.began.Some? then []
      else match now.consumed
           case Some(Contact(c)) => Collected(past) + [c]
           case _ => Collected(past)
  }

  /** The packet ends a listing whose last-modified marker is the given one. */
  predicate Terminates(p: Packet, lastmod: Option<nat>) {
    if p.ContactEnd? then lastmod == Some(p.lastmod) else p.NoMoreMsgs? && lastmod.None?
  }

  /** Every contact list handed out is the contacts received for it, ended by the
      terminator whose marker it carries. */
  predicate SnapshotsExact(t: Trace) {
    match t
    case Empty => true
    case Then(past, now) =>
      && SnapshotsExact(past)
      && (now.ending.Returned? && now.ending.answer.ContactList? ==>
            && now.ending.answer.contacts == Collected(past)
            && now.consumed.Some? && Terminates(now.consumed.value, now.ending.answer.lastmod))
  }

  ghost predicate Collecting(m: Machine) {
    && SnapshotsExact(m.trace)
    && (m.phase == Writing(GetContacts) ==> Collected(m.trace) == [])
    && (m.phase.Reading? && m.phase.request.GetContacts? ==> m.phase.contacts == Collected(m.trace))
  }

  lemma ReplyCollects(t: Turn, r: Request, contacts: seq<nat>, p: Packet)
    requires t.now.ending.Continues? && t.phase == Reading(r, contacts)
    ensures var u := OnReply(t, r, contacts, p);
            && u.now.began == t.now.began
            && (u.now.ending.Returned? && u.now.ending.answer.ContactList? ==>
                  && r.GetContacts? && u.now.ending.answer.contacts == contacts
                  && Terminates(p, u.now.ending.answer.lastmod))
            && !u.phase.Writing?
            && (u.phase.Reading? && u.phase.request.GetContacts? ==>
                  r.GetContacts? && u.phase.contacts == if p.Contact? then contacts + [p.contact] else contacts)
  {
    hide Retain, Track, Register;
  }

  /** Steps outside the request loops neither begin to collect nor answer with a list. */
  lemma OtherCollects(m: Machine, i: Input)
    requires Allowed(m.phase, i) && !(m.phase.Reading? && Pull(Fresh(m), i).GotPacket?)
    ensures var after := Step(m, i);
            && (after.trace.now.ending.Returned? ==> !after.trace.now.ending.answer.ContactList?)
            && (after.phase == Writing(GetContacts) ==> after.trace.now.began.Some?)
            && (after.phase.Reading? && after.phase.request.GetContacts? ==>
                  && m.phase == Writing(GetContacts) && after.phase.contacts == []
                  && after.trace.now.began.None? && after.trace.now.consumed.None?)
  {
    hide Retain, Track, Forget, Cleared, OnReply, Begin;
    if m.phase.Ready? { BeginCollects(Fresh(m), i.op); }
  }

  lemma BeginCollects(t: Turn, op: Op)
    requires t.now.ending.Continues? && t.phase.Ready?
    ensures var u := Begin(t, op);
            && u.now.began.Some? && !u.phase.Reading?
            && (u.now.ending.Returned? ==> !u.now.ending.answer.ContactList?)
  {
    hide Cleared;
  }

  lemma StepKeepsCollecting(m: Machine, i: Input)
    requires Collecting(m) && Allowed(m.phase, i)
    ensures Collecting(Step(m, i))
  {
    if m.phase.Reading? && Pull(Fresh(m), i).GotPacket? {
      var t, p := Receive(Fresh(m), i), Pull(Fresh(m), i).packet;
      ReplyCollects(t, m.phase.request, m.phase.contacts, p);
      ReplyKeepsPast(t, m.phase.request, m.phase.contacts, p);
    } else {
      OtherCollects(m, i);
    }
  }

  lemma {:induction false} ContactListsAreExact(inputs: seq<Input>)
    requires Legal(Initial, inputs)
    ensures SnapshotsExact(After(Initial, inputs).trace) && Collecting(After(Initial, inputs))
    decreases |inputs|
  {
    if inputs != [] {
      var front := inputs[..|inputs| - 1];
      ContactListsAreExact(front);
      StepKeepsCollecting(After(Initial, front), inputs[|inputs| - 1]);
    }
  }
}
