/** Whatever is done with a client object is a run of the session machine, so the run
    theorems hold of the object. */
module ClientRuns {
  import opened Protocol
  import opened Session
  import opened SessionInvariants
  import opened SessionSync
  import opened SessionDelivery
  import opened SessionPackets
  import opened SessionLedger
  import opened SessionInbox
  import opened SessionAnswers
  import opened ClientObject

  /** Driving an operation to its end only adds inputs to the run. */
  lemma {:induction false} DriveExtendsRun(inputs: seq<Input>, script: seq<Input>) returns (longer: seq<Input>)
    requires Legal(Initial, inputs)
    ensures Legal(Initial, longer) && After(Initial, longer) == Drive(After(Initial, inputs), script).0
    decreases |script|, Rank(After(Initial, inputs).phase)
  {
    hide After, Legal;
    var m := After(Initial, inputs);
    longer := inputs;
    if !m.phase.Ready? {
      var (i, rest) := Resolve(AwaitOf(m.phase), script);
      AfterOneMore(Initial, inputs, i);
      DriveDescends(m, script);
      longer := DriveExtendsRun(inputs + [i], rest);
    }
  }

  lemma DriveDescends(m: Machine, script: seq<Input>)
    requires !m.phase.Ready?
    ensures var (i, rest) := Resolve(AwaitOf(m.phase), script);
            Allowed(m.phase, i) && (|rest| < |script| || (|rest| == |script| && Rank(Step(m, i).phase) < Rank(m.phase)))
  {}

  /** The operations a caller has; the handshake command has a fixed size. */
  predicate Offered(op: Op) { Callable(op) && (op.Send? && op.request.AppStart? ==> op.size == 1) }

  method Perform(client: Client, op: Op) returns (r: Ending)
    requires client.Valid() && Offered(op)
    modifies client
    ensures client.Performs(op, r)
  {
    hide Drive, Step;
    match op
    case Connect => r := client.ConnectTransport();
    case Reconnect => r := client.ReconnectTransport();
    case Disconnect => r := client.DisconnectTransport();
    case NextEvent => r := client.NextEventOrNone();
    case SyncNext => r := client.SyncNextMessage();
    case WaitForAck(code, timeoutValid) => r := client.WaitForAckOf(code, timeoutValid);
    case Send(request, size) =>
      match request
      case AppStart(_) => r := client.InitSession();
      case GetContacts => r := client.CollectContacts(size);
      case DeviceQuery => r := client.QueryDeviceInfo(size);
      case Direct(tracked) => r := client.SendCommandExpectMsgSent(tracked, size);
      case Simple => r := client.SendCommandExpectOk(size);
      case Query(kind) => r := client.SendCommandExpect(kind, size);
      case HasConnection => r := client.HasConnectionTo(size);
      case Remote(kind, failure, tag) => r := client.RemoteRequest(kind, failure, tag, size);
      case Reboot => r := client.SendDisconnectCommand(size);
  }

  /** What the run theorems say of a client object. */
  ghost predicate Trustworthy(m: Machine) {
    && Sound(m) && SyncTracked(m) && Delivering(m)
    && PublishedPackets(m.trace) == SharedPackets(m.trace) && SnapshotsExact(m.trace)
    && (forall code: AckCode :: AcksBalanced(m, code)) && Booked(m)
    && Posted(m) && Attributed(m)
  }

  lemma RunIsTrustworthy(inputs: seq<Input>)
    requires Legal(Initial, inputs)
    ensures Trustworthy(After(Initial, inputs))
  {
    hide After, Legal, Sound, SyncTracked, Delivering, PublishedPackets, SharedPackets, SnapshotsExact;
    hide AcksBalanced, Booked, Posted, Attributed;
    RunIsSound(inputs);
    SyncIsSafe(inputs);
    MessagesAreDelivered(inputs);
    PacketsAreConserved(inputs);
    ContactListsAreExact(inputs);
    StoresFollowHistory(inputs);
    ExactlyTheAnswersAreReturned(inputs);
    AnswersAreAttributed(inputs);
    forall code: AckCode ensures AcksBalanced(After(Initial, inputs), code) { AcksAreAccountedFor(inputs, code); }
  }

  /** Any operations, in any order, against any transport. */
  method UseClient(ops: seq<Op>, answers: seq<Input>) returns (client: Client, endings: seq<Ending>)
    requires forall op <- ops :: Offered(op)
    ensures client.Valid() && Trustworthy(client.Resting()) && |endings| == |ops|
  {
    hide Trustworthy, Drive, After, Legal, Step;
    client := new Client(answers);
    endings := [];
    ghost var inputs: seq<Input> := [];
    StartsEmpty();
    for k := 0 to |ops|
      invariant client.Valid() && fresh(client) && |endings| == k
      invariant Legal(Initial, inputs) && After(Initial, inputs) == client.Resting()
    {
      var op := ops[k];
      assert Offered(op);
      ghost var script := client.script;
      AfterOneMore(Initial, inputs, Start(op));
      var r := Perform(client, op);
      inputs := DriveExtendsRun(inputs + [Start(op)], script);
      endings := endings + [r];
    }
    RunIsTrustworthy(inputs);
  }

  lemma StartsEmpty()
    ensures Legal(Initial, []) && After(Initial, []) == Initial
  {}
}
