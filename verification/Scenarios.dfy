/** Small concrete runs: the situations the run theorems speak of do occur. */
module Scenarios {
  import opened Protocol
  import opened AckStore
  import opened Session
  import opened SessionInvariants
  import opened SessionSync
  import opened SessionAcks
  import opened SessionDelivery
  import T = IncomingTracker
  import EndToEnd

  /** A client that has connected and is idle. */
  lemma Connecting() returns (inputs: seq<Input>, m: Machine)
    ensures Legal(Initial, inputs) && After(Initial, inputs) == m
    ensures m.phase.Ready? && m.state == State(true, [], [], 1, Idle, None) && ParsedMessages(m.trace) == []
  {
    hide After, Legal;
    Beginning();
    AfterOneMore(Initial, [], Start(Connect));
    inputs := [] + [Start(Connect)];
    var opening := Step(Initial, Start(Connect));
    AfterOneMore(Initial, inputs, OpenOk);
    inputs := inputs + [OpenOk];
    var writing := Step(opening, OpenOk);
    AfterOneMore(Initial, inputs, WriteOk);
    inputs := inputs + [WriteOk];
    var reading := Step(writing, WriteOk);
    AfterOneMore(Initial, inputs, Arrived(Decoded(SelfInfo("node"))));
    inputs := inputs + [Arrived(Decoded(SelfInfo("node")))];
    m := Step(reading, Arrived(Decoded(SelfInfo("node"))));
  }

  lemma Beginning()
    ensures Legal(Initial, []) && After(Initial, []) == Initial
  {}

  /** ... has sent a message and is to be acknowledged with this code ... */
  lemma Sending(code: AckCode) returns (inputs: seq<Input>, m: Machine)
    ensures Legal(Initial, inputs) && After(Initial, inputs) == m
    ensures m.phase.Ready? && m.state == State(true, [Tracked(code, 9)], [], 1, Idle, None)
  {
    hide After, Legal;
    var start, ready := Connecting();
    AfterOneMore(Initial, start, Start(Send(Direct(true), 1)));
    inputs := start + [Start(Send(Direct(true), 1))];
    var writing := Step(ready, Start(Send(Direct(true), 1)));
    AfterOneMore(Initial, inputs, WriteOk);
    inputs := inputs + [WriteOk];
    var reading := Step(writing, WriteOk);
    AfterOneMore(Initial, inputs, Arrived(Decoded(MsgSent(code, 9))));
    inputs := inputs + [Arrived(Decoded(MsgSent(code, 9)))];
    m := Step(reading, Arrived(Decoded(MsgSent(code, 9))));
  }

  /** ... meets the acknowledgement in its idle reader: a later wait has it. */
  lemma AckMetByIdleReader(code: AckCode) returns (inputs: seq<Input>)
    ensures Legal(Initial, inputs) && After(Initial, inputs).phase.Idling?
    ensures var read := Step(After(Initial, inputs), Arrived(Decoded(Ack(code, 7))));
            && read.phase.Ready?
            && Step(read, Start(WaitForAck(code, true))).trace.now.ending == Returned(Acked(Tracked(code, 7)))
  {
    hide After, Legal, Find, Without, Remember;
    var start, sent := Sending(code);
    AfterOneMore(Initial, start, Start(NextEvent));
    inputs := start + [Start(NextEvent)];
    var idling := Step(sent, Start(NextEvent));
    assert idling.phase.Idling? && idling.state.pending[0].code == code;
    var read := Step(idling, Arrived(Decoded(Ack(code, 7))));
    NothingMore(read, code);
    NoAckLost(inputs, code, 7, []);
  }

  lemma NothingMore(m: Machine, code: AckCode)
    ensures Legal(m, []) && After(m, []) == m && LeftAlone(m, [])
    ensures UnclaimedThroughout(m, [], code) && Completions(m, []) == 0
  {}

  /** A client that has just issued a synchronisation ... */
  lemma Synchronising() returns (inputs: seq<Input>, m: Machine)
    ensures Legal(Initial, inputs) && After(Initial, inputs) == m
    ensures m.phase.SyncWriting? && m.state == State(true, [], [], 1, AwaitingResponse, None)
  {
    hide After, Legal, OnReply, OnPulled;
    var start, ready := Connecting();
    AfterOneMore(Initial, start, Start(SyncNext));
    inputs := start + [Start(SyncNext)];
    var draining := Step(ready, Start(SyncNext));
    AfterOneMore(Initial, inputs, NothingReady);
    inputs := inputs + [NothingReady];
    m := Step(draining, NothingReady);
  }

  /** ... and drops it while it waits for the answer ... */
  lemma Awaiting() returns (inputs: seq<Input>, m: Machine)
    ensures Legal(Initial, inputs) && After(Initial, inputs) == m
    ensures m.phase.Ready? && m.state == State(true, [], [], 1, AwaitingResponse, None)
  {
    hide After, Legal, OnReply;
    var start, writing := Synchronising();
    AfterOneMore(Initial, start, WriteOk);
    inputs := start + [WriteOk];
    var reading := Step(writing, WriteOk);
    AfterOneMore(Initial, inputs, Drop);
    inputs := inputs + [Drop];
    m := Step(reading, Drop);
  }

  /** ... and whose idle reader meets the answer: the next synchronisation returns it. */
  lemma AnswerMetByIdleReader(p: Packet) returns (inputs: seq<Input>)
    requires Settles(p)
    ensures Legal(Initial, inputs) && After(Initial, inputs).phase.Idling?
            && After(Initial, inputs).state.sync.AwaitingResponse?
    ensures var read := Step(After(Initial, inputs), Arrived(Decoded(p)));
            && read.phase.Ready?
            && var ending := Step(read, Start(SyncNext)).trace.now.ending;
            match p
            case ContactMsg(x) => ending == Returned(Inbox(Some(Message(x.text, Some(1)))))
            case ChannelMsg(x) => ending == Returned(Inbox(Some(Message(x.text, Some(1)))))
            case NoMoreMsgs => ending == Returned(Inbox(None))
            case _ => ending == Returned(Failed(ProtocolInvariant))
  {
    hide After, Legal, Track;
    var start, m := Awaiting();
    AfterOneMore(Initial, start, Start(NextEvent));
    inputs := start + [Start(NextEvent)];
    var idling := Step(m, Start(NextEvent));
    assert idling.phase.Idling? && idling.state == m.state;
    NothingMore(Step(idling, Arrived(Decoded(p))), 0);
    DeferredAnswerIsReturned(inputs, p, []);
  }

  /** ... but a refusal met by an acknowledgement wait is taken for the wait's own: the
      synchronisation goes on awaiting an answer that has already come. */
  lemma RefusalMetByAckWait(code: AckCode) returns (inputs: seq<Input>)
    ensures Legal(Initial, inputs)
    ensures var m := After(Initial, inputs);
            && m.phase == AckReading(code) && m.state.sync.AwaitingResponse?
            && var after := Step(m, Arrived(Decoded(Refusal(None))));
            && after.phase.Ready? && after.trace.now.ending == Returned(Failed(ProtocolInvariant))
            && after.state.sync.AwaitingResponse? && after.state.deferred.None?
  {
    hide After, Legal;
    var start, m := Awaiting();
    AfterOneMore(Initial, start, Start(WaitForAck(code, true)));
    inputs := start + [Start(WaitForAck(code, true))];
    RunIsSound(inputs);
    AnswerIsKept(Step(m, Start(WaitForAck(code, true))), Refusal(None));
  }

  /** A message pushed to an idle client. */
  lemma Hearing(text: string) returns (inputs: seq<Input>, m: Machine)
    ensures Legal(Initial, inputs) && After(Initial, inputs) == m
    ensures ParsedMessages(m.trace) == [Message(text, Some(1))]
  {
    hide After, Legal, OnReply, Track;
    var start, ready := Connecting();
    AfterOneMore(Initial, start, Start(NextEvent));
    inputs := start + [Start(NextEvent)];
    var idling := Step(ready, Start(NextEvent));
    var packet := Arrived(Decoded(ContactMsg(Message(text, None))));
    AfterOneMore(Initial, inputs, packet);
    inputs := inputs + [packet];
    m := Step(idling, packet);
  }

  /** A consumer that sees its broadcast accepts it once. */
  lemma PushedMessageIsAccepted(text: string) returns (inputs: seq<Input>, obs: seq<EndToEnd.Sighting>)
    ensures Legal(Initial, inputs) && EndToEnd.Watches(obs, After(Initial, inputs).trace)
    ensures T.Accepted(EndToEnd.Actions(obs), 1) == 1
  {
    hide After, Legal, ParsedMessages, BroadcastMessages, ReturnedMessages, T.Accepted, EndToEnd.Actions, EndToEnd.From;
    var m;
    inputs, m := Hearing(text);
    var seen := Message(text, Some(1));
    obs := [EndToEnd.Saw(seen, T.Live)];
    MessagesAreDelivered(inputs);
    OneSighting(obs, seen);
    SubsequenceTake([], [], seen);
    assert [] + [seen] == [seen];
  }

  lemma OneSighting(obs: seq<EndToEnd.Sighting>, seen: Message)
    requires obs == [EndToEnd.Saw(seen, T.Live)] && seen.observation == Some(1)
    ensures EndToEnd.From(obs, T.Live) == [seen] && EndToEnd.From(obs, T.Queue) == []
    ensures T.Accepted(EndToEnd.Actions(obs), 1) == 1
  {
    assert obs[..0] == [];
    assert EndToEnd.Actions(obs) == [T.Observe(T.Occurrence(1, T.Live))];
  }
}
