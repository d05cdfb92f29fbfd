/** The client inside the actor goes through a legal run of the session machine, so what
    holds over every session run holds of the managed client. */
module ActorRuns {
  import opened Protocol
  import S = Session
  import opened SessionInvariants
  import opened ActorMachine
  import opened ActorProofs
  import ClientRuns

  /** Some legal run of the session machine leads here. */
  ghost predicate Reached(m: S.Machine) {
    exists inputs: seq<S.Input> :: S.Legal(S.Initial, inputs) && S.After(S.Initial, inputs) == m
  }

  lemma StartIsReached()
    ensures Reached(S.Initial)
  {
    assert S.Legal(S.Initial, []) && S.After(S.Initial, []) == S.Initial;
  }

  lemma StepIsReached(m: S.Machine, i: S.Input)
    requires Reached(m) && S.Allowed(m.phase, i)
    ensures Reached(S.Step(m, i))
  {
    hide S.Step, S.After, S.Legal;
    var inputs: seq<S.Input> :| S.Legal(S.Initial, inputs) && S.After(S.Initial, inputs) == m;
    AfterOneMore(S.Initial, inputs, i);
  }

  lemma LeaveIsReached(t: Shift)
    requires Reached(t.core.client) && t.core.client.phase.Ready?
    ensures Reached(Leave(t).core.client)
  {
    hide S.Step, Reached;
    StepIsReached(t.core.client, S.Start(S.Disconnect));
  }

  lemma SettleIsReached(t: Shift, q: Queued)
    requires Reached(t.core.client)
    ensures Reached(Settle(t, q).core.client)
  {
    hide S.Step, Reached, Leave;
    if t.core.client.phase.Ready? { LeaveIsReached(Conclude(t, q, Outcome(t.core.client))); }
  }

  lemma LaunchIsReached(t: Shift, q: Queued)
    requires Reached(t.core.client) && t.core.client.phase.Ready? && Runnable(q.job)
    ensures Reached(Launch(t, q).core.client)
  {
    hide S.Step, Reached, Leave, Settle;
    if q.job.Operation? {
      StepIsReached(t.core.client, S.Start(q.job.op));
      SettleIsReached(t.(core := t.core.(client := S.Step(t.core.client, S.Start(q.job.op)))), q);
    } else {
      StepIsReached(t.core.client, S.Start(S.Disconnect));
      LeaveIsReached(Conclude(t, q, Completed(S.Done)));
    }
  }

  lemma TakeIsReached(t: Shift)
    requires Reached(t.core.client) && t.core.client.phase.Ready?
    requires t.core.queue != [] && Runnable(t.core.queue[0].job)
    ensures Reached(TakeNext(t).core.client)
  {
    hide S.Step, Reached, Launch;
    var c, q := t.core, t.core.queue[0];
    var took := t.(core := c.(queue := c.queue[1..], seen := c.cancels), note := t.note.(taken := Some(q)));
    LaunchIsReached(took.(note := took.note.(started := true)), q);
  }

  lemma DropIsReached(m: S.Machine)
    requires Sound(m) && Reached(m) && S.Allowed(m.phase, S.Drop)
    ensures var dropped := S.Step(m, S.Drop);
            dropped.phase.Ready? && Reached(dropped) && Reached(S.Step(dropped, S.Start(S.Disconnect)))
  {
    hide S.Step, Reached;
    DropsToReady(m);
    StepIsReached(m, S.Drop);
    StepIsReached(S.Step(m, S.Drop), S.Start(S.Disconnect));
  }

  lemma NextIsReached(a: Actor, e: Move, capacity: nat)
    requires Healthy(a) && Enabled(capacity, a.core, e) && Reached(a.core.client)
    ensures Reached(Next(a, e, capacity).core.client)
  {
    hide S.Step, Reached, Leave, Settle, TakeNext, Sound;
    var c, t := a.core, Poised(a);
    match e
    case Take => TakeIsReached(t);
    case HangUp => LeaveIsReached(t);
    case IdleRead(i) =>
      IdleReadEnds(c.client, i);
      StepIsReached(c.client, S.Start(S.NextEvent));
      StepIsReached(S.Step(c.client, S.Start(S.NextEvent)), i);
    case Resume(i) =>
      StepIsReached(c.client, i);
      SettleIsReached(t.(core := c.(client := S.Step(c.client, i))), c.mode.job);
    case ShutdownTimeout =>
      DropIsReached(c.client);
      var dropped := t.(core := c.(client := S.Step(c.client, S.Drop)));
      LeaveIsReached(Conclude(dropped, c.mode.job, Completed(S.Failed(TimedOut))));
    case Interrupt => DropIsReached(c.client);
    case CloseAnswer(ok) => StepIsReached(c.client, S.CloseDone(ok));
    case CloseTimeout =>
      DropIsReached(c.client);
      LeaveIsReached(t.(core := c.(client := S.Step(c.client, S.Drop))));
    case _ =>
  }

  /** In every run of the actor, the client's history is a legal session run ... */
  lemma {:induction false} ClientRunIsLegal(events: seq<Move>, capacity: nat)
    requires Legal(events, capacity)
    ensures Reached(After(events, capacity).core.client)
    decreases |events|
  {
    hide Reached, Next, Healthy;
    StartIsReached();
    if events != [] {
      var front := events[..|events| - 1];
      RunIsHealthy(front, capacity);
      ClientRunIsLegal(front, capacity);
      NextIsReached(After(front, capacity), events[|events| - 1], capacity);
    }
  }

  /** ... so the session theorems hold of the managed client. */
  lemma ManagedClientIsTrustworthy(events: seq<Move>, capacity: nat)
    requires Legal(events, capacity)
    ensures ClientRuns.Trustworthy(After(events, capacity).core.client)
  {
    hide ClientRuns.Trustworthy, After, Legal, S.After, S.Legal;
    ClientRunIsLegal(events, capacity);
    var m := After(events, capacity).core.client;
    var inputs: seq<S.Input> :| S.Legal(S.Initial, inputs) && S.After(S.Initial, inputs) == m;
    ClientRuns.RunIsTrustworthy(inputs);
  }
}
