/** The inbox over whole runs: exactly which messages synchronisations return. */
module SessionInbox {
  import opened Protocol
  import opened Session
  import opened SessionInvariants
  import opened SessionSync
  import opened SessionDelivery

  /** What was returned, and what is kept for the next synchronisation. */
  datatype Mail = Mail(returned: seq<Message>, kept: seq<Message>)

  /** The messages that answered a synchronisation: one read by the synchronising
      operation itself is returned by it; one read by anyone else while an answer is
      outstanding is kept, and returned when the next synchronisation begins, unless the
      session is reset before. */
  function MailOf(t: Trace): Mail {
    match t
    case Empty => Mail([], [])
    case Then(past, now) =>
      var mail, got := MailOf(past), MessagesIn(now.consumed);
      if now.reset then mail.(kept := [])
      else if got != [] then
        if now.at.SyncReading? || now.at.Draining? then mail.(returned := mail.returned + got)
        else if Outstanding(past) then mail.(kept := got)
        else mail
      else if now.began == Some(SyncNext) then Mail(mail.returned + mail.kept, [])
      else mail
  }

  ghost predicate Posted(m: Machine) {
    ReturnedMessages(m.trace) == MailOf(m.trace).returned && Held(m.state) == MailOf(m.trace).kept
  }

  /** What one packet does to the returned and the kept message. */
  lemma PacketPosts(m: Machine, p: Packet)
    requires Sound(m) && IsReading(m.phase)
    ensures var after := Step(m, Arrived(Decoded(p)));
            var now, got := after.trace.now, MessagesIn(after.trace.now.consumed);
            && now.at == m.phase && now.began.None? && !now.reset
            && (if got != [] && (m.phase.SyncReading? || m.phase.Draining?)
                then MessageReturned(now.ending) == got && Held(after.state) == Held(m.state)
                else if got != [] && m.state.sync.AwaitingResponse?
                then MessageReturned(now.ending) == [] && Held(after.state) == got
                else MessageReturned(now.ending) == [] && Held(after.state) == Held(m.state))
  {
    hide Track, Register, StoresGood;
    ReceiveFits(Fresh(m), Arrived(Decoded(p)));
    PacketEffect(Receive(Fresh(m), Arrived(Decoded(p))), Stamped(p, m.state.nextId));
    if m.phase.Reading? {
      var t := Receive(Fresh(m), Arrived(Decoded(p)));
      ReplyShares(t, m.phase.request, m.phase.contacts, Stamped(p, m.state.nextId));
    }
  }

  /** Everything else: a synchronisation that begins returns what is kept, and a reset
      forgets it. */
  ghost predicate PostsNothingNew(m: Machine, after: Machine) {
    && after.trace.Then?
    && var now := after.trace.now;
    && now.consumed.None?
    && if now.reset then MessageReturned(now.ending) == [] && Held(after.state) == []
       else if now.began == Some(SyncNext)
       then MessageReturned(now.ending) == Held(m.state) && Held(after.state) == []
       else MessageReturned(now.ending) == [] && Held(after.state) == Held(m.state)
  }

  lemma BeginPosts(m: Machine, op: Op)
    requires Sound(m) && m.phase.Ready? && Callable(op)
    ensures PostsNothingNew(m, Step(m, Start(op)))
  {
    hide StoresGood;
  }

  lemma FaultPosts(m: Machine, i: Input)
    requires IsReading(m.phase) && Allowed(m.phase, i) && !(i.Arrived? && i.raw.Decoded?)
    ensures PostsNothingNew(m, Step(m, i))
  {
    hide OnReply, OnSyncPacket, OnDrained, OnAckPacket, OnIdlePacket;
  }

  lemma OtherPosts(m: Machine, i: Input)
    requires Sound(m) && Allowed(m.phase, i) && !(i.Arrived? && i.raw.Decoded?)
    ensures PostsNothingNew(m, Step(m, i))
  {
    hide StoresGood, OnPulled, Begin;
    if m.phase.Ready? { BeginPosts(m, i.op); } else if IsReading(m.phase) { FaultPosts(m, i); }
  }

  lemma StepPosts(m: Machine, i: Input)
    requires Sound(m) && SyncTracked(m) && Posted(m) && Allowed(m.phase, i)
    ensures Posted(Step(m, i))
  {
    hide Step, Sound, Outstanding, MessagesIn, MessageReturned, Held;
    StepExtends(m, i);
    if i.Arrived? && i.raw.Decoded? { PacketPosts(m, i.raw.packet); } else { OtherPosts(m, i); }
    NoMessages();
  }

  lemma NoMessages()
    ensures MessagesIn(None) == []
  {}

  lemma StepExtends(m: Machine, i: Input)
    requires Allowed(m.phase, i)
    ensures Step(m, i).trace.Then? && Step(m, i).trace.past == m.trace
    ensures Step(m, i).trace.now.at == m.phase
  {
    hide Retain, Track, Forget, Register;
  }

  /** In every run, synchronisations have returned exactly the messages that answered
      one, in order, except those a reset caught waiting; and what waits now is the
      latest of them not yet returned. */
  lemma {:induction false} ExactlyTheAnswersAreReturned(inputs: seq<Input>)
    requires Legal(Initial, inputs)
    ensures Posted(After(Initial, inputs))
    decreases |inputs|
  {
    hide Posted, SyncTracked, Sound, Step;
    if inputs == [] {
      InitialIsPosted();
    } else {
      var front := inputs[..|inputs| - 1];
      RunIsSound(front);
      SyncIsSafe(front);
      ExactlyTheAnswersAreReturned(front);
      StepPosts(After(Initial, front), inputs[|inputs| - 1]);
    }
  }

  lemma InitialIsPosted()
    ensures Posted(Initial)
  {}
}
