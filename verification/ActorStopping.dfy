/** How the actor rests after an idle read error, and how it leaves its client when it
    stops. */
module ActorStopping {
  import opened Protocol
  import S = Session
  import opened SessionAnswers
  import opened ActorMachine
  import opened ActorProofs

  // ---- resting --------------------------------------------------------------------------

  /** An idle read that fails without losing the connection sends the actor to rest, and a
      resting actor does not read. */
  lemma FailedIdleReadRests(a: Actor, i: S.Input, capacity: nat)
    requires Healthy(a) && Enabled(capacity, a.core, IdleRead(i))
    ensures var b := Next(a, IdleRead(i), capacity);
            var failed := !(i.Arrived? && i.raw.Decoded?);
            && (b.core.mode == Backoff <==> failed && !i.PeerClosed? && i != S.ReadFailed(true))
            && (b.core.mode == Listening <==> !failed || i.PeerClosed? || i == S.ReadFailed(true))
            && (b.core.mode == Backoff ==> forall j :: !Enabled(capacity, b.core, IdleRead(j)))
  {
    hide S.Retain, S.Track, S.Cleared;
    var idling := S.Step(a.core.client, S.Start(S.NextEvent));
    OperationsBegin(a.core.client, S.NextEvent);
    assert idling.phase == S.Idling && idling.state.connected;
    if i.Arrived? && i.raw.Decoded? { IdleAnswers(idling, i.raw.packet); } else { ReadFailureAnswers(idling, i); }
  }

  // ---- stopping -------------------------------------------------------------------------

  /** Did the last close take too long? */
  ghost predicate LastCloseTimedOut(events: seq<Move>, capacity: nat)
    requires Legal(events, capacity)
    decreases |events|
  {
    events != [] &&
    var front := events[..|events| - 1];
    || LastCloseTimedOut(front, capacity)
    || (After(front, capacity).core.mode.LastClose? && events[|events| - 1] == CloseTimeout)
  }

  /** The actor is closing only a client that is connected. */
  ghost predicate ClosesForCause(c: Core) { c.mode.LastClose? ==> c.client.state.connected }

  lemma LeaveCloses(t: Shift)
    requires t.core.client.phase.Ready?
    ensures var u := Leave(t).core;
            && (u.mode.Stopped? || u.mode.LastClose?)
            && u.client.state == t.core.client.state
            && (u.mode.LastClose? <==> t.core.client.state.connected)
  {}

  lemma SettleCloses(t: Shift, q: Queued)
    ensures var u := Settle(t, q).core;
            && (u.mode.Stopped? || u.mode.LastClose? ==> (u.mode.LastClose? <==> u.client.state.connected))
  {
    if t.core.client.phase.Ready? { LeaveCloses(Conclude(t, q, Outcome(t.core.client))); }
  }

  /** One step that stops the actor, or begins the last close. */
  ghost predicate StopsProperly(a: Actor, e: Move, b: Actor) {
    && ClosesForCause(b.core)
    && (a.core.mode.Stopped? ==> b.core.mode.Stopped? && b.core.client == a.core.client)
    && (!a.core.mode.Stopped? && b.core.mode.Stopped? ==>
          (b.core.client.state.connected <==> a.core.mode.LastClose? && e == CloseTimeout))
    && (a.core.mode.LastClose? && e == CloseTimeout ==> b.core.mode.Stopped?)
  }

  lemma TakeStopsProperly(a: Actor, capacity: nat)
    requires Healthy(a) && Enabled(capacity, a.core, Take)
    ensures StopsProperly(a, Take, Next(a, Take, capacity))
  {
    hide S.Step, Settle, Leave;
    var t := Poised(a);
    var q := a.core.queue[0];
    var took := t.(core := t.core.(queue := t.core.queue[1..], seen := t.core.cancels),
                   note := t.note.(taken := Some(q)));
    if q.Generation() == a.core.cancels % GENERATIONS {
      var started := took.(note := took.note.(started := true));
      match q.job
      case Operation(op) =>
        SettleCloses(started.(core := started.core.(client := S.Step(started.core.client, S.Start(op)))), q);
      case Shutdown =>
        if !a.core.client.state.connected { LeaveCloses(Conclude(started, q, Completed(S.Done))); }
    }
  }

  lemma CloseStopsProperly(a: Actor, e: Move, capacity: nat)
    requires Healthy(a) && ClosesForCause(a.core) && Enabled(capacity, a.core, e)
    requires e.CloseAnswer? || e.CloseTimeout? || e.ShutdownTimeout?
    ensures StopsProperly(a, e, Next(a, e, capacity))
  {
    hide S.Retain, S.Track, S.Cleared, Leave;
    var c, t := a.core, Poised(a);
    DropsChangeNothing(c.client);
    match e
    case CloseAnswer(ok) => TransportAnswers(c.client, S.CloseDone(ok));
    case CloseTimeout =>
      if c.mode.Severing? { LeaveCloses(t.(core := c.(client := S.Step(c.client, S.Drop)))); }
    case ShutdownTimeout =>
      var dropped := t.(core := c.(client := S.Step(c.client, S.Drop)));
      LeaveCloses(Conclude(dropped, c.mode.job, Completed(S.Failed(TimedOut))));
    case _ =>
  }

  lemma OtherStopsProperly(a: Actor, e: Move, capacity: nat)
    requires Healthy(a) && ClosesForCause(a.core) && Enabled(capacity, a.core, e)
    requires !(e.CloseAnswer? || e.CloseTimeout? || e.ShutdownTimeout? || e.Take?)
    ensures StopsProperly(a, e, Next(a, e, capacity))
  {
    hide S.Step, Settle, Leave;
    var c, t := a.core, Poised(a);
    match e
    case HangUp => LeaveCloses(t);
    case Resume(i) => SettleCloses(t.(core := c.(client := S.Step(c.client, i))), c.mode.job);
    case _ =>
  }

  /** In every run, an actor that has stopped has left its client disconnected, unless the
      last close took too long. */
  lemma {:induction false} StoppedIsDisconnected(events: seq<Move>, capacity: nat)
    requires Legal(events, capacity)
    ensures var c := After(events, capacity).core;
            && (c.mode.Stopped? ==> (c.client.state.connected <==> LastCloseTimedOut(events, capacity)))
            && (!c.mode.Stopped? ==> !LastCloseTimedOut(events, capacity))
            && ClosesForCause(c)
    decreases |events|
  {
    hide Healthy, Next;
    if events != [] {
      var front, e := events[..|events| - 1], events[|events| - 1];
      var a := After(front, capacity);
      RunIsHealthy(front, capacity);
      StoppedIsDisconnected(front, capacity);
      match e
      case Take => TakeStopsProperly(a, capacity);
      case CloseAnswer(_) => CloseStopsProperly(a, e, capacity);
      case CloseTimeout => CloseStopsProperly(a, e, capacity);
      case ShutdownTimeout => CloseStopsProperly(a, e, capacity);
      case _ => OtherStopsProperly(a, e, capacity);
    }
  }
}
