/** The client object: the fields and methods of the source, with each `async`
    method run against a script of transport answers.  Every method is proved to do
    what the session machine does: same writes, same packets consumed, same events,
    same state and same result. */
module ClientObject {
  import opened Protocol
  import opened AckStore
  import opened Session

  // ---- running an operation against a script --------------------------------------

  /** What the next await yields.  An operation whose script has no fitting answer is
      never resumed: its future is dropped there (a poll finds nothing ready). */
  function Resolve(a: Await, script: seq<Input>): (r: (Input, seq<Input>))
    ensures a != ForCaller ==> Answers(a, r.0)
    ensures script != [] ==> |r.1| < |script|
    ensures script == [] ==> r.1 == [] && (r.0.Drop? || r.0.NothingReady?)
  {
    if script != [] && Answers(a, script[0]) then (script[0], script[1..])
    else (if a.ForPoll? then NothingReady else Drop, if script == [] then [] else script[1..])
  }

  function Rank(phase: Phase): nat {
    if phase.Ready? then 0 else if phase.Draining? then 2 else 1
  }

  /** The machine once the running operation has ended, and the rest of the script. */
  function Drive(m: Machine, script: seq<Input>): (Machine, seq<Input>)
    decreases |script|, Rank(m.phase)
  {
    if m.phase.Ready? then (m, script)
    else
      var (i, rest) := Resolve(AwaitOf(m.phase), script);
      Drive(Step(m, i), rest)
  }

  // ---- a store kept as a map and an order queue --------------------------------------

  ghost predicate Represents(entries: map<AckCode, Tracked>, order: seq<AckCode>) {
    && |order| <= CAPACITY
    && (forall i, j :: 0 <= i < j < |order| ==> order[i] != order[j])
    && (forall c :: c in entries <==> c in order)
    && (forall c :: c in entries ==> entries[c].code == c)
  }

  ghost function Contents(entries: map<AckCode, Tracked>, order: seq<AckCode>): (xs: Store)
    requires forall c :: c in order ==> c in entries
    ensures |xs| == |order|
  {
    if order == [] then [] else [entries[order[0]]] + Contents(entries, order[1..])
  }

  function Retained(order: seq<AckCode>, code: AckCode): (r: seq<AckCode>)
    ensures |r| <= |order|
    ensures forall c :: c in r <==> c in order && c != code
  {
    if order == [] then []
    else if order[0] == code then Retained(order[1..], code)
    else [order[0]] + Retained(order[1..], code)
  }

  lemma {:induction false} RetainedIsDistinct(order: seq<AckCode>, code: AckCode)
    requires forall i, j :: 0 <= i < j < |order| ==> order[i] != order[j]
    ensures forall i, j :: 0 <= i < j < |Retained(order, code)| ==> Retained(order, code)[i] != Retained(order, code)[j]
  {
    if order != [] {
      RetainedIsDistinct(order[1..], code);
      var r := Retained(order[1..], code);
      forall i | 0 <= i < |r| ensures r[i] != order[0] { assert r[i] in order[1..]; }
    }
  }

  lemma {:induction false} RetainedContents(entries: map<AckCode, Tracked>, order: seq<AckCode>, code: AckCode)
    requires forall c :: c in order ==> c in entries && entries[c].code == c
    ensures Contents(entries - {code}, Retained(order, code)) == Without(Contents(entries, order), code)
  {
    if order != [] {
      RetainedContents(entries, order[1..], code);
      assert Contents(entries, order)[1..] == Contents(entries, order[1..]);
      assert entries[order[0]].code == order[0];
      if order[0] != code {
        assert Retained(order, code)[1..] == Retained(order[1..], code);
      }
    }
  }

  lemma DiscardRepresents(entries: map<AckCode, Tracked>, order: seq<AckCode>, code: AckCode)
    requires Represents(entries, order)
    ensures Represents(entries - {code}, Retained(order, code))
    ensures Contents(entries - {code}, Retained(order, code)) == Without(Contents(entries, order), code)
  {
    RetainedIsDistinct(order, code);
    RetainedContents(entries, order, code);
  }

  lemma {:induction false} ContentsAgree(a: map<AckCode, Tracked>, b: map<AckCode, Tracked>, order: seq<AckCode>)
    requires forall c :: c in order ==> c in a && c in b && a[c] == b[c]
    ensures Contents(a, order) == Contents(b, order)
  {
    if order != [] { ContentsAgree(a, b, order[1..]); }
  }

  lemma {:induction false} ContentsAppend(entries: map<AckCode, Tracked>, order: seq<AckCode>, code: AckCode)
    requires forall c :: c in order + [code] ==> c in entries
    ensures code in order + [code]
    ensures forall c :: c in order ==> c in order + [code]
    ensures Contents(entries, order + [code]) == Contents(entries, order) + [entries[code]]
  {
    assert (order + [code])[|order|] == code;
    forall c | c in order ensures c in order + [code] {}
    if order != [] {
      assert (order + [code])[1..] == order[1..] + [code];
      ContentsAppend(entries, order[1..], code);
    }
  }

  lemma {:induction false} LookupFinds(entries: map<AckCode, Tracked>, order: seq<AckCode>, code: AckCode)
    requires forall c :: c in order ==> c in entries && entries[c].code == c
    ensures Find(Contents(entries, order), code) == if code in order then Some(entries[code]) else None
  {
    if order != [] {
      LookupFinds(entries, order[1..], code);
      assert Contents(entries, order)[1..] == Contents(entries, order[1..]);
      assert entries[order[0]].code == order[0];
    }
  }

  lemma EvictRepresents(entries: map<AckCode, Tracked>, order: seq<AckCode>)
    requires Represents(entries, order) && order != []
    ensures Represents(entries - {order[0]}, order[1..])
    ensures Contents(entries - {order[0]}, order[1..]) == Contents(entries, order)[1..]
  {
    ContentsAgree(entries, entries - {order[0]}, order[1..]);
  }

  lemma InsertRepresents(entries: map<AckCode, Tracked>, order: seq<AckCode>, e: Tracked)
    requires Represents(entries, order) && e.code !in entries && |order| < CAPACITY
    ensures Represents(entries[e.code := e], order + [e.code])
    ensures Contents(entries[e.code := e], order + [e.code]) == Contents(entries, order) + [e]
  {
    assert forall c :: c in order + [e.code] <==> c in order || c == e.code;
    ContentsAgree(entries, entries[e.code := e], order);
    ContentsAppend(entries[e.code := e], order, e.code);
  }

  /** Discarding, evicting while full and appending is Remember. */
  lemma RememberInSteps(before: Store, left: Store, e: Tracked)
    requires |before| <= CAPACITY
    requires var kept := Without(before, e.code); left == if |kept| < CAPACITY then kept else kept[1..]
    ensures left + [e] == Remember(before, e)
  {}

  /** The two stores are updated by the same code: discard, evict, append. */
  method RememberIn(entries: map<AckCode, Tracked>, order: seq<AckCode>, e: Tracked)
    returns (entries': map<AckCode, Tracked>, order': seq<AckCode>)
    requires Represents(entries, order)
    ensures Represents(entries', order')
    ensures Contents(entries', order') == Remember(Contents(entries, order), e)
  {
    DiscardRepresents(entries, order, e.code);
    entries', order' := entries - {e.code}, Retained(order, e.code);
    ghost var kept := Without(Contents(entries, order), e.code);
    while |order'| >= CAPACITY
      invariant Represents(entries', order') && e.code !in entries'
      invariant Contents(entries', order') == kept || (|kept| == CAPACITY && Contents(entries', order') == kept[1..])
      decreases |order'|
    {
      var oldest := order'[0];
      EvictRepresents(entries', order');
      order' := order'[1..];
      entries' := entries' - {oldest};
    }
    RememberInSteps(Contents(entries, order), Contents(entries', order'), e);
    InsertRepresents(entries', order', e);
    order' := order' + [e.code];
    entries' := entries'[e.code := e];
  }

  // ---- the request loops, packet by packet ---------------------------------------------------

  /** A request ends with the answer, or passes the packet on. */
  function Outcome(t: Turn, p: Packet, answer: Option<Answer>): Turn {
    if answer.Some? then Finish(t, answer.value) else PassOn(t, p)
  }

  function SimpleAnswer(p: Packet): Option<Answer> {
    match p
    case Okay(_) => Some(Done)
    case Disabled => Some(Failed(FeatureDisabled))
    case Refusal(_) => Some(Failed(DeviceRejected))
    case _ => None
  }

  function QueryAnswer(kind: ReplyKind, p: Packet): Option<Answer> {
    match p
    case Disabled => Some(Failed(FeatureDisabled))
    case Refusal(_) => Some(Failed(DeviceRejected))
    case Contact(_) => if kind.ContactCard? then Some(Reply(p)) else None
    case Data(k, _, _) => if k == kind && !kind.ContactCard? then Some(Reply(p)) else None
    case _ => None
  }

  function DeviceQueryAnswer(p: Packet): Option<Answer> {
    match p
    case Data(DeviceInfo, _, _) => Some(Reply(p))
    case Refusal(_) => Some(Failed(ProtocolInvariant))
    case _ => None
  }

  function HasConnectionAnswer(p: Packet): Option<Answer> {
    match p
    case Okay(_) => Some(Presence(true))
    case Refusal(Some(2)) => Some(Presence(false))
    case Refusal(_) => Some(Failed(DeviceRejected))
    case _ => None
  }

  function RemoteAnswer(kind: ReplyKind, failure: Option<ReplyKind>, wanted: nat, p: Packet): Option<Answer> {
    match p
    case Data(k, tag, _) =>
      if k == kind && tag == wanted then Some(Reply(p))
      else if failure == Some(k) && tag == wanted then Some(Failed(AuthenticationFailed))
      else None
    case Refusal(_) => Some(Failed(DeviceRejected))
    case Disabled => Some(Failed(FeatureDisabled))
    case _ => None
  }

  lemma RepliesAgree(t: Turn, p: Packet)
    ensures OnReply(t, Simple, [], p) == Outcome(t, p, SimpleAnswer(p))
    ensures OnReply(t, DeviceQuery, [], p) == Outcome(t, p, DeviceQueryAnswer(p))
    ensures OnReply(t, HasConnection, [], p) == Outcome(t, p, HasConnectionAnswer(p))
  {}

  lemma QueryRepliesAgree(t: Turn, kind: ReplyKind, p: Packet)
    ensures OnReply(t, Query(kind), [], p) == Outcome(t, p, QueryAnswer(kind, p))
  {}

  lemma RemoteRepliesAgree(t: Turn, kind: ReplyKind, failure: Option<ReplyKind>, wanted: nat, p: Packet)
    ensures OnReply(t, RemoteReply(kind, failure, wanted), [], p)
            == Outcome(t, p, RemoteAnswer(kind, failure, wanted, p))
  {}

  lemma SendRepliesAgree(t: Turn, tracked: bool, p: Packet)
    ensures OnReply(t, Direct(tracked), [], p) ==
              match p
              case MsgSent(code, timeoutMs) =>
                var e := Tracked(code, timeoutMs);
                Finish(if tracked then t.(state := Register(t.state, e)) else t, Tracking(e))
              case Refusal(_) => Finish(t, Failed(DeviceRejected))
              case _ => PassOn(t, p)
  {}

  lemma RemoteReceiptsAgree(t: Turn, kind: ReplyKind, failure: Option<ReplyKind>, tag: Option<nat>, p: Packet)
    ensures OnReply(t, Remote(kind, failure, tag), [], p) ==
              match p
              case MsgSent(code, _) =>
                t.(phase := Reading(RemoteReply(kind, failure, if tag.Some? then tag.value else code), []))
              case Refusal(_) => Finish(t, Failed(DeviceRejected))
              case _ => PassOn(t, p)
  {}

  lemma ContactRepliesAgree(t: Turn, contacts: seq<nat>, p: Packet)
    ensures OnReply(t, GetContacts, contacts, p) ==
              match p
              case Contact(c) => t.(phase := Reading(GetContacts, contacts + [c]))
              case ContactEnd(lastmod) => Finish(t, ContactList(contacts, Some(lastmod)))
              case NoMoreMsgs => Finish(t, ContactList(contacts, None))
              case Refusal(_) => Finish(t, Failed(ProtocolInvariant))
              case _ => PassOn(t, p)
  {}

  lemma HandshakeRepliesAgree(t: Turn, nested: bool, p: Packet)
    ensures OnReply(t, AppStart(nested), [], p) ==
              match p
              case SelfInfo(name) =>
                Finish(if nested then Announce(Publish(t, p)) else Publish(t, p), Info(name))
              case Refusal(_) => FailRequest(t, AppStart(nested), ProtocolInvariant)
              case _ => PassOn(t, p)
  {}

  // ---- the client ------------------------------------------------------------------------

  datatype Sent = SendOk | SendFailed(error: Error) | SendDropped

  type Goal = (Machine, seq<Input>)

  class Client {
    var connected: bool
    var pendingAcks: map<AckCode, Tracked>
    var pendingAckOrder: seq<AckCode>
    var completedAcks: map<AckCode, Tracked>
    var completedAckOrder: seq<AckCode>
    var nextMessageObservationId: nat
    var syncState: SyncState
    var deferredSync: Option<ReadySync>

    /** The answers the transport is going to give, in order. */
    var script: seq<Input>

    /** Everything observable so far, and what the code since the last await did. */
    ghost var trace: Trace
    ghost var now: Moment

    ghost predicate Valid()
      reads this
    {
      Represents(pendingAcks, pendingAckOrder) && Represents(completedAcks, completedAckOrder)
    }

    ghost function Pending(): Store
      reads this
      requires Valid()
    {
      Contents(pendingAcks, pendingAckOrder)
    }

    ghost function Completed(): Store
      reads this
      requires Valid()
    {
      Contents(completedAcks, completedAckOrder)
    }

    ghost function Abstract(): State
      reads this
      requires Valid()
    {
      State(connected, Pending(), Completed(), nextMessageObservationId, syncState, deferredSync)
    }

    /** The session between two operations. */
    ghost function Resting(): Machine
      reads this
      requires Valid()
    {
      Machine(Abstract(), Ready, trace)
    }

    /** The step in progress, if it were to stop in the given phase. */
    ghost function Here(phase: Phase): Turn
      reads this
      requires Valid()
    {
      Turn(Abstract(), phase, now)
    }

    /** Completing the step in progress as `t` leads to the goal. */
    ghost predicate LeadsTo(t: Turn, goal: Goal)
      reads this
    {
      Drive(Machine(t.state, t.phase, Then(trace, t.now)), script) == goal
    }

    /** Nothing changed but the acknowledgement stores. */
    twostate predicate OnlyStores()
      reads this
    {
      && connected == old(connected) && nextMessageObservationId == old(nextMessageObservationId)
      && syncState == old(syncState) && deferredSync == old(deferredSync)
      && script == old(script) && trace == old(trace) && now == old(now)
    }

    constructor (answers: seq<Input>)
      ensures Valid() && Resting() == Initial && script == answers
    {
      connected := false;
      pendingAcks, pendingAckOrder := map[], [];
      completedAcks, completedAckOrder := map[], [];
      nextMessageObservationId := 1;
      syncState := Idle;
      deferredSync := None;
      script := answers;
      trace := Empty;
    }

    // ---- acknowledgement stores ---------------------------------------------------------

    method DiscardPendingAck(code: AckCode)
      requires Valid()
      modifies this
      ensures Valid() && OnlyStores()
      ensures Pending() == Without(old(Pending()), code) && Completed() == old(Completed())
      ensures code !in pendingAcks
    {
      DiscardRepresents(pendingAcks, pendingAckOrder, code);
      pendingAcks := pendingAcks - {code};
      pendingAckOrder := Retained(pendingAckOrder, code);
    }

    method DiscardCompletedAck(code: AckCode)
      requires Valid()
      modifies this
      ensures Valid() && OnlyStores()
      ensures Completed() == Without(old(Completed()), code) && Pending() == old(Pending())
      ensures code !in completedAcks
    {
      DiscardRepresents(completedAcks, completedAckOrder, code);
      completedAcks := completedAcks - {code};
      completedAckOrder := Retained(completedAckOrder, code);
    }

    method TakePendingAck(code: AckCode) returns (taken: Option<Tracked>)
      requires Valid()
      modifies this
      ensures Valid() && OnlyStores()
      ensures taken == Find(old(Pending()), code) && (taken.Some? <==> Has(old(Pending()), code))
      ensures Pending() == (if taken.Some? then Without(old(Pending()), code) else old(Pending()))
      ensures Completed() == old(Completed())
    {
      LookupFinds(pendingAcks, pendingAckOrder, code);
      if code in pendingAcks {
        taken := Some(pendingAcks[code]);
        DiscardPendingAck(code);
      } else {
        taken := None;
      }
    }

    method TakeCompletedAck(code: AckCode) returns (taken: Option<Tracked>)
      requires Valid()
      modifies this
      ensures Valid() && OnlyStores()
      ensures taken == Find(old(Completed()), code)
      ensures Completed() == (if taken.Some? then Without(old(Completed()), code) else old(Completed()))
      ensures Pending() == old(Pending())
    {
      LookupFinds(completedAcks, completedAckOrder, code);
      if code in completedAcks {
        taken := Some(completedAcks[code]);
        DiscardCompletedAck(code);
      } else {
        taken := None;
      }
    }

    method RememberPendingAck(e: Tracked)
      requires Valid()
      modifies this
      ensures Valid() && OnlyStores()
      ensures Pending() == Remember(old(Pending()), e) && Completed() == old(Completed())
    {
      pendingAcks, pendingAckOrder := RememberIn(pendingAcks, pendingAckOrder, e);
    }

    method RememberCompletedAck(e: Tracked)
      requires Valid()
      modifies this
      ensures Valid() && OnlyStores()
      ensures Completed() == Remember(old(Completed()), e) && Pending() == old(Pending())
    {
      completedAcks, completedAckOrder := RememberIn(completedAcks, completedAckOrder, e);
    }

    method UpdateTracking(p: Packet)
      requires Valid()
      modifies this
      ensures Valid() && OnlyStores() && Abstract() == Track(old(Abstract()), p)
    {
      hide Contents, Represents, Without, Remember, Has;
      match p
      case MsgSent(code, timeoutMs) =>
        DiscardCompletedAck(code);
        RememberPendingAck(Tracked(code, timeoutMs));
      case Ack(code, tripTime) =>
        var taken := TakePendingAck(code);
        if taken.Some? { RememberCompletedAck(Tracked(code, tripTime)); }
      case _ =>
    }

    // ---- events and resets -----------------------------------------------------------------

    method RetainSyncResponse(p: Packet)
      requires Valid()
      modifies `syncState, `deferredSync
      ensures Valid() && Abstract() == Retain(old(Abstract()), p)
    {
      if syncState.AwaitingResponse? && Settles(p) {
        deferredSync := Some(ReadyFor(p));
        syncState := Idle;
      }
    }

    method PublishEvent(p: Packet)
      requires Valid()
      modifies `syncState, `deferredSync, `now
      ensures Valid() && Here(Ready) == Publish(old(Here(Ready)), p)
    {
      RetainSyncResponse(p);
      now := now.(published := Some(p));
    }

    method ClearTracking()
      modifies this
      ensures Valid() && OnlyStores() && Pending() == [] && Completed() == []
    {
      pendingAcks, pendingAckOrder := map[], [];
      completedAcks, completedAckOrder := map[], [];
    }

    method MarkDisconnected()
      requires Valid()
      modifies this
      ensures Valid() && trace == old(trace) && script == old(script)
      ensures Here(Ready) == Lose(old(Here(Ready)))
    {
      ClearTracking();
      syncState, deferredSync := Idle, None;
      now := now.(reset := true, signal := if connected then Some(Disconnected) else now.signal);
      connected := false;
    }

    // ---- awaiting the transport ---------------------------------------------------------------

    /** Gives control away in the given phase until the transport answers. */
    method Resume(a: Await, ghost phase: Phase) returns (i: Input)
      requires AwaitOf(phase) == a
      modifies `script, `trace, `now
      ensures (i, script) == Resolve(a, old(script))
      ensures trace == Then(old(trace), old(now)) && now == Quiet(phase)
    {
      trace, now := Then(trace, now), Quiet(phase);
      if script != [] && Answers(a, script[0]) {
        i, script := script[0], script[1..];
      } else {
        i := if a.ForPoll? then NothingReady else Drop;
        script := if script == [] then [] else script[1..];
      }
    }

    method Return(answer: Answer, ghost goal: Goal) returns (r: Ending)
      requires Valid() && LeadsTo(Finish(Here(Ready), answer), goal)
      modifies `trace, `now
      ensures Valid() && (Resting(), script) == goal && trace.Then? && r == trace.now.ending
    {
      now := now.(ending := Returned(answer));
      trace := Then(trace, now);
      r := Returned(answer);
    }

    method Vanish(ghost goal: Goal) returns (r: Ending)
      requires Valid() && LeadsTo(Abandon(Here(Ready)), goal)
      modifies `trace, `now
      ensures Valid() && (Resting(), script) == goal && trace.Then? && r == trace.now.ending
    {
      now := now.(ending := Dropped);
      trace := Then(trace, now);
      r := Dropped;
    }

    method ParsePacket(raw: Packet) returns (p: Packet)
      requires Valid()
      modifies `nextMessageObservationId, `now
      ensures Valid() && Abstract() == Observed(old(Abstract()), raw)
      ensures p == Stamped(raw, old(nextMessageObservationId)) && now == old(now).(consumed := Some(p))
    {
      p := Stamped(raw, nextMessageObservationId);
      if IsMessage(raw) {
        nextMessageObservationId := (nextMessageObservationId + 1) % ID_MODULUS;
        if nextMessageObservationId == 0 { nextMessageObservationId := 1; }
      }
      now := now.(consumed := Some(p));
    }

    method HandleRead(i: Input, ghost phase: Phase) returns (pulled: Pulled)
      requires Valid()
      modifies this
      ensures Valid() && script == old(script) && trace == old(trace)
      ensures Here(phase) == Receive(old(Here(phase)), i) && pulled == Pull(old(Here(phase)), i)
    {
      match i
      case Arrived(Garbled) => pulled := Broken(ParseFault);
      case Arrived(Decoded(raw)) =>
        var p := ParsePacket(raw);
        pulled := GotPacket(p);
      case PeerClosed => MarkDisconnected(); pulled := Broken(NotConnected);
      case ReadFailed(terminal) =>
        if terminal { MarkDisconnected(); }
        pulled := Broken(TransportFault);
      case ReadTimeout => pulled := Broken(TimedOut);
      case _ => pulled := Abandoned;
    }

    method ReadNextPacket(a: Await, ghost phase: Phase, ghost goal: Goal) returns (pulled: Pulled)
      requires Valid() && IsReading(phase) && !phase.Draining? && AwaitOf(phase) == a
      requires LeadsTo(Here(phase), goal)
      modifies this
      ensures Valid() && LeadsTo(OnPulled(Here(phase), phase, pulled), goal)
      ensures pulled.GotPacket? ==> |script| < |old(script)|
    {
      hide Contents, Represents, OnPulled;
      var i := Resume(a, phase);
      pulled := HandleRead(i, phase);
    }

    /** A read that does not wait: Abandoned means that nothing was ready. */
    method TryRead(ghost phase: Phase, ghost goal: Goal) returns (pulled: Pulled)
      requires Valid() && phase.Draining? && LeadsTo(Here(phase), goal)
      modifies this
      ensures Valid()
      ensures LeadsTo(if pulled.Abandoned? then AfterDrain(Here(phase)) else OnPulled(Here(phase), phase, pulled), goal)
    {
      hide Contents, Represents, OnPulled, AfterDrain;
      var i := Resume(ForPoll, phase);
      pulled := HandleRead(i, phase);
    }

    method WriteRaw(command: Command, size: nat, ghost phase: Phase) returns (sent: Sent)
      requires Valid() && AwaitOf(phase).ForWrite?
      modifies this
      ensures Valid()
      ensures size == 0 ==> sent == SendFailed(ProtocolInvariant)
      ensures size > MAX_PAYLOAD ==> sent == SendFailed(ParseFault)
      ensures size == 0 || size > MAX_PAYLOAD ==>
                Here(phase) == old(Here(phase)) && script == old(script) && trace == old(trace)
      ensures 0 < size <= MAX_PAYLOAD ==>
                var (i, rest) := Resolve(ForWrite, old(script));
                && script == rest && trace == Then(old(trace), old(now).(issued := Some(command)))
                && sent == (if i.WriteOk? then SendOk
                            else if i.WriteFailed? then SendFailed(TransportFault)
                            else SendDropped)
                && var waited := Turn(old(Abstract()), phase, Quiet(phase));
                   Here(phase) == if i == WriteFailed(true) then Lose(waited) else waited
    {
      if size == 0 { return SendFailed(ProtocolInvariant); }
      if size > MAX_PAYLOAD { return SendFailed(ParseFault); }
      now := now.(issued := Some(command));
      var i := Resume(ForWrite, phase);
      match i
      case WriteOk => sent := SendOk;
      case WriteFailed(terminal) =>
        if terminal { MarkDisconnected(); }
        sent := SendFailed(TransportFault);
      case _ => sent := SendDropped;
    }

    /** Writes a request, unless a synchronisation answer is outstanding. */
    method SendRaw(r: Request, size: nat, ghost goal: Goal) returns (sent: Sent)
      requires Valid() && connected && LeadsTo(BeginRequest(Here(Ready), r, size), goal)
      modifies this
      ensures Valid()
      ensures match sent
              case SendOk => LeadsTo(Written(Here(Writing(r)), r), goal)
              case SendFailed(e) => LeadsTo(FailRequest(Here(Ready), r, e), goal)
              case SendDropped => LeadsTo(Abandon(Here(Ready)), goal)
    {
      hide Contents, Represents, Written;
      if syncState.AwaitingResponse? { return SendFailed(ProtocolInvariant); }
      sent := WriteRaw(RequestCommand(r), size, Writing(r));
    }

    // ---- request loops --------------------------------------------------------------------------

    /** The method did exactly what the machine does for the operation. */
    twostate predicate Performs(op: Op, r: Ending)
      requires old(Valid()) && Callable(op)
      reads this
    {
      && Valid() && (Resting(), script) == Drive(Step(old(Resting()), Start(op)), old(script))
      && trace.Then? && r == trace.now.ending
    }

    /** Starts a request; a result means that it ended before its reply was read. */
    method StartRequest(r: Request, size: nat, ghost goal: Goal) returns (ended: Option<Ending>)
      requires Valid() && !r.Reboot? && r != AppStart(true) && Callable(Send(r, size))
      requires goal == Drive(Step(Resting(), Start(Send(r, size))), script)
      modifies this
      ensures Valid()
      ensures ended.Some? ==> (Resting(), script) == goal && trace.Then? && ended.value == trace.now.ending
      ensures ended.None? ==> LeadsTo(Here(Reading(r, [])), goal)
    {
      now := Quiet(Ready).(began := Some(Send(r, size)));
      if !connected {
        var e := Return(Failed(NotConnected), goal);
        return Some(e);
      }
      var sent := SendRaw(r, size, goal);
      match sent
      case SendOk => ended := None;
      case SendFailed(error) => var e := Return(Failed(error), goal); ended := Some(e);
      case SendDropped => var e := Vanish(goal); ended := Some(e);
    }

    /** One read of a request loop. */
    method PullReply(r: Request, ghost contacts: seq<nat>, ghost goal: Goal) returns (pulled: Pulled)
      requires Valid() && LeadsTo(Here(Reading(r, contacts)), goal)
      modifies this
      ensures Valid()
      ensures match pulled
              case Abandoned => LeadsTo(Abandon(Here(Ready)), goal)
              case Broken(e) => LeadsTo(FailRequest(Here(Ready), r, e), goal)
              case GotPacket(p) =>
                && LeadsTo(OnReply(Here(Reading(r, contacts)), r, contacts, p), goal)
                && |script| < |old(script)|
    {
      hide OnReply;
      hide Drive;
      pulled := ReadNextPacket(ForTimedRead, Reading(r, contacts), goal);
    }

    /** The same for a request whose failure ends the operation; a result means that
        it ended. */
    method ReadReply(r: Request, ghost contacts: seq<nat>, ghost goal: Goal) returns (p: Packet, ended: Option<Ending>)
      requires Valid() && r != AppStart(true) && LeadsTo(Here(Reading(r, contacts)), goal)
      modifies this
      ensures Valid()
      ensures ended.Some? ==> (Resting(), script) == goal && trace.Then? && ended.value == trace.now.ending
      ensures ended.None? ==>
                && LeadsTo(OnReply(Here(Reading(r, contacts)), r, contacts, p), goal)
                && |script| < |old(script)|
    {
      hide OnReply;
      hide Drive;
      p := Disabled;
      var pulled := PullReply(r, contacts, goal);
      match pulled
      case Abandoned => var e := Vanish(goal); ended := Some(e);
      case Broken(error) => var e := Return(Failed(error), goal); ended := Some(e);
      case GotPacket(got) => p, ended := got, None;
    }

    /** Publishes a packet that is not the awaited one, and tracks it. */
    method PassPacketOn(p: Packet)
      requires Valid()
      modifies this
      ensures Valid() && script == old(script) && trace == old(trace)
      ensures Here(Ready) == PassOn(old(Here(Ready)), p)
    {
      PublishEvent(p);
      UpdateTracking(p);
    }

    /** Ends the request with the answer, or passes the packet on. */
    method Conclude(ghost r: Request, ghost contacts: seq<nat>, p: Packet, answer: Option<Answer>, ghost goal: Goal)
      returns (ended: Option<Ending>)
      requires Valid() && LeadsTo(Outcome(Here(Reading(r, contacts)), p, answer), goal)
      modifies this
      ensures Valid() && script == old(script)
      ensures ended.Some? ==> (Resting(), script) == goal && trace.Then? && ended.value == trace.now.ending
      ensures ended.None? ==> LeadsTo(Here(Reading(r, contacts)), goal)
    {
      if answer.Some? {
        var e := Return(answer.value, goal);
        ended := Some(e);
      } else {
        PassPacketOn(p);
        ended := None;
      }
    }

    method SendCommandExpectOk(size: nat) returns (r: Ending)
      requires Valid()
      modifies this
      ensures Performs(Send(Simple, size), r)
    {
      hide OnReply;
      ghost var goal := Drive(Step(Resting(), Start(Send(Simple, size))), script);
      var started := StartRequest(Simple, size, goal);
      if started.Some? { return started.value; }
      while true
        invariant Valid() && LeadsTo(Here(Reading(Simple, [])), goal)
        decreases |script|
      {
        var p, ended := ReadReply(Simple, [], goal);
        if ended.Some? { return ended.value; }
        RepliesAgree(Here(Reading(Simple, [])), p);
        ended := Conclude(Simple, [], p, SimpleAnswer(p), goal);
        if ended.Some? { return ended.value; }
      }
    }

    method SendCommandExpect(kind: ReplyKind, size: nat) returns (r: Ending)
      requires Valid()
      modifies this
      ensures Performs(Send(Query(kind), size), r)
    {
      hide OnReply;
      ghost var goal := Drive(Step(Resting(), Start(Send(Query(kind), size))), script);
      var started := StartRequest(Query(kind), size, goal);
      if started.Some? { return started.value; }
      while true
        invariant Valid() && LeadsTo(Here(Reading(Query(kind), [])), goal)
        decreases |script|
      {
        var p, ended := ReadReply(Query(kind), [], goal);
        if ended.Some? { return ended.value; }
        QueryRepliesAgree(Here(Reading(Query(kind), [])), kind, p);
        ended := Conclude(Query(kind), [], p, QueryAnswer(kind, p), goal);
        if ended.Some? { return ended.value; }
      }
    }

    method QueryDeviceInfo(size: nat) returns (r: Ending)
      requires Valid()
      modifies this
      ensures Performs(Send(DeviceQuery, size), r)
    {
      hide OnReply;
      ghost var goal := Drive(Step(Resting(), Start(Send(DeviceQuery, size))), script);
      var started := StartRequest(DeviceQuery, size, goal);
      if started.Some? { return started.value; }
      while true
        invariant Valid() && LeadsTo(Here(Reading(DeviceQuery, [])), goal)
        decreases |script|
      {
        var p, ended := ReadReply(DeviceQuery, [], goal);
        if ended.Some? { return ended.value; }
        RepliesAgree(Here(Reading(DeviceQuery, [])), p);
        ended := Conclude(DeviceQuery, [], p, DeviceQueryAnswer(p), goal);
        if ended.Some? { return ended.value; }
      }
    }

    method HasConnectionTo(size: nat) returns (r: Ending)
      requires Valid()
      modifies this
      ensures Performs(Send(HasConnection, size), r)
    {
      hide OnReply;
      ghost var goal := Drive(Step(Resting(), Start(Send(HasConnection, size))), script);
      var started := StartRequest(HasConnection, size, goal);
      if started.Some? { return started.value; }
      while true
        invariant Valid() && LeadsTo(Here(Reading(HasConnection, [])), goal)
        decreases |script|
      {
        var p, ended := ReadReply(HasConnection, [], goal);
        if ended.Some? { return ended.value; }
        RepliesAgree(Here(Reading(HasConnection, [])), p);
        ended := Conclude(HasConnection, [], p, HasConnectionAnswer(p), goal);
        if ended.Some? { return ended.value; }
      }
    }

    /** Sends a message and awaits its receipt; a tracked send remembers the code. */
    method SendCommandExpectMsgSent(tracked: bool, size: nat) returns (r: Ending)
      requires Valid()
      modifies this
      ensures Performs(Send(Direct(tracked), size), r)
    {
      hide OnReply;
      ghost var goal := Drive(Step(Resting(), Start(Send(Direct(tracked), size))), script);
      var started := StartRequest(Direct(tracked), size, goal);
      if started.Some? { return started.value; }
      while true
        invariant Valid() && LeadsTo(Here(Reading(Direct(tracked), [])), goal)
        decreases |script|
      {
        var p, ended := ReadReply(Direct(tracked), [], goal);
        if ended.Some? { return ended.value; }
        SendRepliesAgree(Here(Reading(Direct(tracked), [])), tracked, p);
        match p
        case MsgSent(code, timeoutMs) =>
          if tracked {
            DiscardCompletedAck(code);
            RememberPendingAck(Tracked(code, timeoutMs));
          }
          r := Return(Tracking(Tracked(code, timeoutMs)), goal);
          return;
        case Refusal(_) => r := Return(Failed(DeviceRejected), goal); return;
        case _ => PassPacketOn(p);
      }
    }

    /** Lists contacts up to the terminator. */
    method CollectContacts(size: nat) returns (r: Ending)
      requires Valid()
      modifies this
      ensures Performs(Send(GetContacts, size), r)
    {
      hide OnReply;
      ghost var goal := Drive(Step(Resting(), Start(Send(GetContacts, size))), script);
      var started := StartRequest(GetContacts, size, goal);
      if started.Some? { return started.value; }
      var contacts: seq<nat> := [];
      while true
        invariant Valid() && LeadsTo(Here(Reading(GetContacts, contacts)), goal)
        decreases |script|
      {
        var p, ended := ReadReply(GetContacts, contacts, goal);
        if ended.Some? { return ended.value; }
        ContactRepliesAgree(Here(Reading(GetContacts, contacts)), contacts, p);
        match p
        case Contact(c) => contacts := contacts + [c];
        case ContactEnd(lastmod) => r := Return(ContactList(contacts, Some(lastmod)), goal); return;
        case NoMoreMsgs => r := Return(ContactList(contacts, None), goal); return;
        case Refusal(_) => r := Return(Failed(ProtocolInvariant), goal); return;
        case _ => PassPacketOn(p);
      }
    }

    /** Awaits the tagged answer of a remote node. */
    method WaitForPacket(kind: ReplyKind, failure: Option<ReplyKind>, wanted: nat, ghost goal: Goal) returns (r: Ending)
      requires Valid() && LeadsTo(Here(Reading(RemoteReply(kind, failure, wanted), [])), goal)
      modifies this
      ensures Valid() && (Resting(), script) == goal && trace.Then? && r == trace.now.ending
    {
      hide OnReply;
      while true
        invariant Valid() && LeadsTo(Here(Reading(RemoteReply(kind, failure, wanted), [])), goal)
        decreases |script|
      {
        var p, ended := ReadReply(RemoteReply(kind, failure, wanted), [], goal);
        if ended.Some? { return ended.value; }
        RemoteRepliesAgree(Here(Reading(RemoteReply(kind, failure, wanted), [])), kind, failure, wanted, p);
        ended := Conclude(RemoteReply(kind, failure, wanted), [], p, RemoteAnswer(kind, failure, wanted, p), goal);
        if ended.Some? { return ended.value; }
      }
    }

    /** Sends a remote request, untracked, and awaits the answer with the wanted tag
        (by default the code of its receipt). */
    method RemoteRequest(kind: ReplyKind, failure: Option<ReplyKind>, tag: Option<nat>, size: nat) returns (r: Ending)
      requires Valid()
      modifies this
      ensures Performs(Send(Remote(kind, failure, tag), size), r)
    {
      hide OnReply;
      ghost var request := Remote(kind, failure, tag);
      ghost var goal := Drive(Step(Resting(), Start(Send(request, size))), script);
      var started := StartRequest(Remote(kind, failure, tag), size, goal);
      if started.Some? { return started.value; }
      while true
        invariant Valid() && LeadsTo(Here(Reading(request, [])), goal)
        decreases |script|
      {
        var p, ended := ReadReply(Remote(kind, failure, tag), [], goal);
        if ended.Some? { return ended.value; }
        RemoteReceiptsAgree(Here(Reading(request, [])), kind, failure, tag, p);
        match p
        case MsgSent(code, _) =>
          r := WaitForPacket(kind, failure, if tag.Some? then tag.value else code, goal);
          return;
        case Refusal(_) => r := Return(Failed(DeviceRejected), goal); return;
        case _ => PassPacketOn(p);
      }
    }

    // ---- connecting and disconnecting -----------------------------------------------------------

    /** The APP_START exchange: greeted, failed, or (with neither) dropped. */
    ghost predicate Greeted(nested: bool, greeting: Option<string>, error: Option<Error>, goal: Goal)
      reads this
      requires Valid()
    {
      if greeting.Some? then
        LeadsTo(Finish(if nested then Announce(Here(Ready)) else Here(Ready), Info(greeting.value)), goal)
      else if error.Some? then LeadsTo(FailRequest(Here(Ready), AppStart(nested), error.value), goal)
      else LeadsTo(Abandon(Here(Ready)), goal)
    }

    method Handshake(nested: bool, ghost goal: Goal) returns (greeting: Option<string>, error: Option<Error>)
      requires Valid() && LeadsTo(BeginRequest(Here(Ready), AppStart(nested), 1), goal)
      modifies this
      ensures Valid() && Greeted(nested, greeting, error, goal)
    {
      hide Drive;
      if !connected { return None, Some(NotConnected); }
      var sent := SendRaw(AppStart(nested), 1, goal);
      if sent.SendOk? {
        greeting, error := AwaitGreeting(nested, goal);
      } else {
        greeting, error := None, if sent.SendFailed? then Some(sent.error) else None;
      }
    }

    method AwaitGreeting(nested: bool, ghost goal: Goal) returns (greeting: Option<string>, error: Option<Error>)
      requires Valid() && LeadsTo(Here(Reading(AppStart(nested), [])), goal)
      modifies this
      ensures Valid() && Greeted(nested, greeting, error, goal)
    {
      hide Contents, Represents, Track, Retain;
      hide OnReply;
      hide Drive;
      while true
        invariant Valid() && LeadsTo(Here(Reading(AppStart(nested), [])), goal)
        decreases |script|
      {
        var pulled := PullReply(AppStart(nested), [], goal);
        if pulled.Abandoned? { return None, None; }
        if pulled.Broken? { return None, Some(pulled.error); }
        var p := pulled.packet;
        HandshakeRepliesAgree(Here(Reading(AppStart(nested), [])), nested, p);
        match p
        case SelfInfo(name) => PublishEvent(p); return Some(name), None;
        case Refusal(_) => return None, Some(ProtocolInvariant);
        case _ => PassPacketOn(p);
      }
    }

    method InitSession() returns (r: Ending)
      requires Valid()
      modifies this
      ensures Performs(Send(AppStart(false), 1), r)
    {
      ghost var op := Send(AppStart(false), 1);
      ghost var goal := Drive(Step(Resting(), Start(op)), script);
      now := Quiet(Ready).(began := Some(op));
      var greeting, error := Handshake(false, goal);
      if greeting.Some? { r := Return(Info(greeting.value), goal); }
      else if error.Some? { r := Return(Failed(error.value), goal); }
      else { r := Vanish(goal); }
    }

    /** Opens the transport and shakes hands; a failed handshake closes it again. */
    method OpenAndGreet(ghost goal: Goal) returns (r: Ending)
      requires Valid() && LeadsTo(Here(Opening), goal)
      modifies this
      ensures Valid() && (Resting(), script) == goal && trace.Then? && r == trace.now.ending
    {
      hide Contents, Represents;
      var i := Resume(ForOpen, Opening);
      if i.OpenFailed? { r := Return(Failed(TransportFault), goal); return; }
      if i.Drop? { r := Vanish(goal); return; }
      connected := true;
      now := now.(linked := true);
      var greeting, error := Handshake(true, goal);
      if greeting.Some? {
        now := now.(signal := Some(Connected));
        r := Return(Info(greeting.value), goal);
      } else if error.Some? {
        r := AbortOpen(error.value, goal);
      } else {
        r := Vanish(goal);
      }
    }

    method AbortOpen(error: Error, ghost goal: Goal) returns (r: Ending)
      requires Valid() && LeadsTo(Here(Aborting(error)), goal)
      modifies this
      ensures Valid() && (Resting(), script) == goal && trace.Then? && r == trace.now.ending
    {
      var i := Resume(ForClose, Aborting(error));
      if i.Drop? { r := Vanish(goal); return; }
      MarkDisconnected();
      r := Return(Failed(error), goal);
    }

    method ConnectTransport() returns (r: Ending)
      requires Valid()
      modifies this
      ensures Performs(Connect, r)
    {
      ghost var goal := Drive(Step(Resting(), Start(Connect)), script);
      now := Quiet(Ready).(began := Some(Connect), reset := true);
      ClearTracking();
      syncState, deferredSync := Idle, None;
      r := OpenAndGreet(goal);
    }

    method ReconnectTransport() returns (r: Ending)
      requires Valid()
      modifies this
      ensures Performs(Reconnect, r)
    {
      ghost var goal := Drive(Step(Resting(), Start(Reconnect)), script);
      now := Quiet(Ready).(began := Some(Reconnect));
      MarkDisconnected();
      r := OpenAndGreet(goal);
    }

    method DisconnectTransport() returns (r: Ending)
      requires Valid()
      modifies this
      ensures Performs(Disconnect, r)
    {
      ghost var goal := Drive(Step(Resting(), Start(Disconnect)), script);
      now := Quiet(Ready).(began := Some(Disconnect));
      r := CloseTransport(false, goal);
    }

    /** Closes the transport; whatever comes of it, the session is over. */
    method CloseTransport(reboot: bool, ghost goal: Goal) returns (r: Ending)
      requires Valid() && LeadsTo(Here(Closing(reboot)), goal)
      modifies this
      ensures Valid() && (Resting(), script) == goal && trace.Then? && r == trace.now.ending
    {
      var i := Resume(ForClose, Closing(reboot));
      if i.Drop? { r := Vanish(goal); return; }
      MarkDisconnected();
      r := Return(if reboot || i.ok then Done else Failed(TransportFault), goal);
    }

    /** Writes a command that takes the device down, then closes the transport. */
    method SendDisconnectCommand(size: nat) returns (r: Ending)
      requires Valid()
      modifies this
      ensures Performs(Send(Reboot, size), r)
    {
      ghost var goal := Drive(Step(Resting(), Start(Send(Reboot, size))), script);
      now := Quiet(Ready).(began := Some(Send(Reboot, size)));
      if !connected { r := Return(Failed(NotConnected), goal); return; }
      var sent := SendRaw(Reboot, size, goal);
      if sent.SendFailed? { r := Return(Failed(sent.error), goal); return; }
      if sent.SendDropped? { r := Vanish(goal); return; }
      r := CloseTransport(true, goal);
    }

    // ---- idle reader, synchronisation, acknowledgement waits ------------------------------------------

    method NextEventOrNone() returns (r: Ending)
      requires Valid()
      modifies this
      ensures Performs(NextEvent, r)
    {
      hide Contents, Represents, OnIdlePacket;
      ghost var goal := Drive(Step(Resting(), Start(NextEvent)), script);
      now := Quiet(Ready).(began := Some(NextEvent));
      if !connected { r := Return(Failed(NotConnected), goal); return; }
      var pulled := ReadNextPacket(ForRead, Idling, goal);
      match pulled
      case Abandoned => r := Vanish(goal);
      case Broken(e) => r := Return(Failed(e), goal);
      case GotPacket(p) => r := Hear(p, goal);
    }

    method Hear(p: Packet, ghost goal: Goal) returns (r: Ending)
      requires Valid() && LeadsTo(OnIdlePacket(Here(Idling), p), goal)
      modifies this
      ensures Valid() && (Resting(), script) == goal && trace.Then? && r == trace.now.ending
    {
      hide Drive;
      RetainSyncResponse(p);
      UpdateTracking(p);
      now := now.(published := Some(p));
      r := Return(Heard(EventOf(p)), goal);
    }

    method WaitForSyncResponse(ghost goal: Goal) returns (r: Ending)
      requires Valid() && LeadsTo(Here(SyncReading), goal)
      modifies this
      ensures Valid() && (Resting(), script) == goal && trace.Then? && r == trace.now.ending
    {
      while true
        invariant Valid() && LeadsTo(Here(SyncReading), goal)
        decreases |script|
      {
        var pulled := ReadNextPacket(ForTimedRead, SyncReading, goal);
        match pulled
        case Abandoned => r := Vanish(goal); return;
        case Broken(e) => r := Return(Failed(e), goal); return;
        case GotPacket(p) =>
          var ended := SettleSync(p, SyncReading, goal);
          if ended.Some? { return ended.value; }
      }
    }

    /** A message or a terminal packet answers the synchronisation. */
    method SettleSync(p: Packet, ghost phase: Phase, ghost goal: Goal) returns (ended: Option<Ending>)
      requires Valid() && LeadsTo(OnSyncPacket(Here(phase), p), goal)
      modifies this
      ensures Valid() && script == old(script)
      ensures ended.Some? ==> (Resting(), script) == goal && trace.Then? && ended.value == trace.now.ending
      ensures ended.None? ==>
                && LeadsTo(Here(phase), goal) && trace == old(trace)
                && Here(phase) == PassOn(old(Here(phase)), p)
      ensures ended.Some? <==> Settles(p)
    {
      if Settles(p) {
        syncState := Idle;
        if IsMessage(p) { PublishEvent(p); }
        var e := Return(ReadyAnswer(ReadyFor(p)), goal);
        ended := Some(e);
      } else {
        PassPacketOn(p);
        ended := None;
      }
    }

    /** Publishes what is already buffered.  A message or a terminal packet among it is
        taken for the answer of an earlier synchronisation. */
    method DrainReadyPackets(ghost goal: Goal) returns (ended: Option<Ending>, ghost index: nat)
      requires Valid() && LeadsTo(Here(Draining(0)), goal)
      modifies this
      ensures Valid()
      ensures ended.Some? ==> (Resting(), script) == goal && trace.Then? && ended.value == trace.now.ending
      ensures ended.None? ==> LeadsTo(AfterDrain(Here(Draining(index))), goal)
    {
      hide Drive;
      var k := 0;
      while true
        invariant Valid() && k <= DRAIN_CAPACITY && LeadsTo(Here(Draining(k)), goal)
        decreases DRAIN_CAPACITY - k
      {
        var pulled := TryRead(Draining(k), goal);
        index := k;
        match pulled
        case Abandoned => return None, index;
        case Broken(e) => var r := Return(Failed(e), goal); return Some(r), index;
        case GotPacket(p) =>
          ended := Drained(p, k, goal);
          if ended.Some? { return; }
          k := k + 1;
      }
    }

    method Drained(p: Packet, k: nat, ghost goal: Goal) returns (ended: Option<Ending>)
      requires Valid() && k <= DRAIN_CAPACITY && LeadsTo(OnDrained(Here(Draining(k)), k, p), goal)
      modifies this
      ensures Valid()
      ensures ended.Some? ==> (Resting(), script) == goal && trace.Then? && ended.value == trace.now.ending
      ensures ended.None? ==> k < DRAIN_CAPACITY && LeadsTo(Here(Draining(k + 1)), goal)
    {
      hide Drive;
      if Settles(p) {
        ended := SettleSync(p, Draining(k), goal);
      } else {
        PassPacketOn(p);
        if k == DRAIN_CAPACITY {
          var r := Return(Failed(ProtocolInvariant), goal);
          ended := Some(r);
        } else {
          ended := None;
        }
      }
    }

    method SyncNextMessage() returns (r: Ending)
      requires Valid()
      modifies this
      ensures Performs(SyncNext, r)
    {
      ghost var goal := Drive(Step(Resting(), Start(SyncNext)), script);
      hide Drive;
      now := Quiet(Ready).(began := Some(SyncNext));
      if !connected { r := Return(Failed(NotConnected), goal); return; }
      if deferredSync.Some? {
        var ready := deferredSync.value;
        deferredSync := None;
        r := Return(ReadyAnswer(ready), goal);
        return;
      }
      var ended, index := DrainReadyPackets(goal);
      if ended.Some? { return ended.value; }
      r := RequestSync(index, goal);
    }

    /** Waits for the outstanding answer, or asks for one. */
    method RequestSync(ghost index: nat, ghost goal: Goal) returns (r: Ending)
      requires Valid() && LeadsTo(AfterDrain(Here(Draining(index))), goal)
      modifies this
      ensures Valid() && (Resting(), script) == goal && trace.Then? && r == trace.now.ending
    {
      hide Contents, Represents;
      if syncState.AwaitingResponse? {
        r := WaitForSyncResponse(goal);
        return;
      }
      syncState := AwaitingResponse;
      var sent := WriteRaw(SyncCommand, 1, SyncWriting);
      match sent
      case SendOk => r := WaitForSyncResponse(goal);
      case SendFailed(e) => r := Return(Failed(e), goal);
      case SendDropped => r := Vanish(goal);
    }

    /** Waits for the acknowledgement of a code.  Every failure forgets the code. */
    method WaitForAckOf(code: AckCode, timeoutValid: bool) returns (r: Ending)
      requires Valid()
      modifies this
      ensures Performs(WaitForAck(code, timeoutValid), r)
    {
      ghost var op := WaitForAck(code, timeoutValid);
      ghost var goal := Drive(Step(Resting(), Start(op)), script);
      hide Drive;
      now := Quiet(Ready).(began := Some(op));
      if !timeoutValid { r := Return(Failed(InvalidArgument), goal); return; }
      if !connected { r := Return(Failed(NotConnected), goal); return; }
      var taken := TakeCompletedAck(code);
      if taken.Some? { r := Return(Acked(taken.value), goal); return; }
      r := AwaitAck(code, goal);
    }

    method AwaitAck(code: AckCode, ghost goal: Goal) returns (r: Ending)
      requires Valid() && LeadsTo(Here(AckReading(code)), goal)
      modifies this
      ensures Valid() && (Resting(), script) == goal && trace.Then? && r == trace.now.ending
    {
      hide Drive;
      hide OnAckPacket;
      while true
        invariant Valid() && LeadsTo(Here(AckReading(code)), goal)
        decreases |script|
      {
        var pulled := ReadNextPacket(ForTimedRead, AckReading(code), goal);
        match pulled
        case Abandoned => r := Vanish(goal); return;
        case Broken(e) => r := GiveUpOnAck(code, e, goal); return;
        case GotPacket(p) =>
          var ended := MeetWhileAwaitingAck(code, p, goal);
          if ended.Some? { return ended.value; }
      }
    }

    method MeetWhileAwaitingAck(code: AckCode, p: Packet, ghost goal: Goal) returns (ended: Option<Ending>)
      requires Valid() && LeadsTo(OnAckPacket(Here(AckReading(code)), code, p), goal)
      modifies this
      ensures Valid() && script == old(script)
      ensures ended.Some? ==> (Resting(), script) == goal && trace.Then? && ended.value == trace.now.ending
      ensures ended.None? ==> LeadsTo(Here(AckReading(code)), goal)
    {
      hide Contents, Represents, Without, Track, Retain, Forget;
      hide Drive;
      match p
      case Ack(c, tripTime) =>
        if c == code {
          DiscardPendingAck(code);
          PublishEvent(p);
          var e := Return(Acked(Tracked(c, tripTime)), goal);
          return Some(e);
        }
        PassPacketOn(p);
        ended := None;
      case Refusal(_) =>
        var e := GiveUpOnAck(code, ProtocolInvariant, goal);
        ended := Some(e);
      case _ =>
        PublishEvent(p);
        ended := None;
    }

    method GiveUpOnAck(code: AckCode, error: Error, ghost goal: Goal) returns (r: Ending)
      requires Valid() && LeadsTo(FailAck(Here(AckReading(code)), code, error), goal)
      modifies this
      ensures Valid() && script == old(script)
      ensures (Resting(), script) == goal && trace.Then? && r == trace.now.ending
    {
      hide Drive;
      DiscardPendingAck(code);
      DiscardCompletedAck(code);
      r := Return(Failed(error), goal);
    }
  }
}
