/** What callers of the managed client are told: the answer of their own operation, or
    that the actor stopped. */
module ActorAnswers {
  import opened Protocol
  import S = Session
  import opened SessionInvariants
  import opened SessionAnswers
  import opened ActorMachine
  import opened ActorProofs

  // ---- an operation that ends has an answer -------------------------------------------------

  /** Unless it is dropped, an operation ends with an answer. */
  lemma EndsWithAnswer(m: S.Machine, i: S.Input)
    requires S.Allowed(m.phase, i) && !i.Drop?
    ensures S.Step(m, i).trace.Then? && S.Step(m, i).trace.past == m.trace
    ensures S.Step(m, i).phase.Ready? ==> S.Step(m, i).trace.now.ending.Returned?
  {
    hide S.Retain, S.Track, S.Forget, S.Register, S.OnReply, S.Cleared;
    if m.phase.Reading? && i.Arrived? && i.raw.Decoded? { ReplyEndsWithAnswer(m, i.raw.packet); }
  }

  lemma ReplyEndsWithAnswer(m: S.Machine, p: Packet)
    requires m.phase.Reading?
    ensures var after := S.Step(m, S.Arrived(S.Decoded(p)));
            after.phase.Ready? ==> after.trace.now.ending.Returned?
  {
    hide S.Retain, S.Track, S.Register;
  }

  lemma BeginsOrContinues(m: S.Machine, i: S.Input)
    requires S.Allowed(m.phase, i)
    ensures var after := S.Step(m, i);
            after.trace.Then? && Latest(after.trace) == if i.Start? then Some(i.op) else Latest(m.trace)
  {
    hide S.Retain, S.Track, S.Forget, S.Register, S.OnReply, S.Cleared;
    if m.phase.Reading? && i.Arrived? && i.raw.Decoded? { ReplyMoves(m, i.raw.packet); }
  }

  // ---- what one step answers ---------------------------------------------------------------------

  /** Those who are told that the actor stopped. */
  ghost predicate Late(rs: seq<Response>) { forall r <- rs :: r.result == ActorStopped }

  /** The answer to a finished request: that of the client's operation, begun for it; a
      shutdown reports its disconnect, or that it took too long. */
  ghost predicate RightAnswer(b: Actor, e: Move, q: Queued, answer: S.Answer) {
    var t := b.core.client.trace;
    match q.job
    case Operation(op) => t.Then? && t.now.ending == S.Returned(answer) && Latest(t) == Some(op)
    case Shutdown =>
      if e.ShutdownTimeout? then answer == S.Failed(TimedOut)
      else if e.Take? then answer == S.Done
      else t.Then? && t.now.ending == S.Returned(answer) && Latest(t) == Some(S.Disconnect)
  }

  /** The one request that a step ends gets the right answer; everyone else the step
      answers is told that the actor stopped. */
  ghost predicate StepAnswers(e: Move, b: Actor) {
    && b.log.Noted?
    && var note := b.log.note;
    if note.finished.Some? then
      && note.responses != [] && note.responses[0].id == note.finished.value.id
      && note.responses[0].result.Completed?
      && RightAnswer(b, e, note.finished.value, note.responses[0].result.answer)
      && Late(note.responses[1..])
    else Late(note.responses)
  }

  lemma StoppedAreLate(queue: seq<Queued>)
    ensures Late(StoppedResponses(queue))
  {}

  lemma LeaveAnswers(t: Shift)
    requires t.core.client.phase.Ready?
    ensures var u := Leave(t);
            && u.note.finished == t.note.finished && t.note.responses <= u.note.responses
            && Late(u.note.responses[|t.note.responses|..])
            && (!t.core.client.state.connected ==> u.core.client == t.core.client)
  {
    hide S.Step;
    StoppedAreLate(t.core.queue);
    assert (t.note.responses + StoppedResponses(t.core.queue))[|t.note.responses|..] == StoppedResponses(t.core.queue);
  }

  lemma SettleAnswers(t: Shift, q: Queued)
    requires t.note.responses == [] && t.note.finished.None?
    requires t.core.client.phase.Ready? ==>
               t.core.client.trace.Then? && t.core.client.trace.now.ending.Returned?
    ensures var u := Settle(t, q);
            if !t.core.client.phase.Ready? then u.note == t.note && u.core.client == t.core.client
            else
              && u.note.finished == Some(q) && u.note.responses != []
              && u.note.responses[0] == Response(q.id, Completed(t.core.client.trace.now.ending.answer))
              && Late(u.note.responses[1..])
              && (q.job.Operation? || !t.core.client.state.connected ==> u.core.client == t.core.client)
  {
    hide S.Step, Leave;
    if t.core.client.phase.Ready? {
      var over := Conclude(t, q, Outcome(t.core.client));
      LeaveAnswers(over);
    }
  }

  /** The client is busy with what the running request asked for. */
  ghost predicate OnTheJob(a: Actor) {
    a.core.mode.Working? ==>
      Latest(a.core.client.trace) ==
      Some(match a.core.mode.job.job case Operation(op) => op case Shutdown => S.Disconnect)
  }

  lemma TakeAnswers(a: Actor, capacity: nat)
    requires Healthy(a) && Enabled(capacity, a.core, Take)
    ensures StepAnswers(Take, Next(a, Take, capacity)) && OnTheJob(Next(a, Take, capacity))
  {
    hide S.Step, Settle, Leave, Sound;
    var c, q := a.core, a.core.queue[0];
    var took := Poised(a);
    took := took.(core := c.(queue := c.queue[1..], seen := c.cancels), note := took.note.(taken := Some(q)));
    if q.Generation() == c.cancels % GENERATIONS {
      took := took.(note := took.note.(started := true));
      match q.job
      case Operation(op) =>
        EndsWithAnswer(c.client, S.Start(op));
        BeginsOrContinues(c.client, S.Start(op));
        SettleAnswers(took.(core := took.core.(client := S.Step(c.client, S.Start(op)))), q);
        SettleModes(took.(core := took.core.(client := S.Step(c.client, S.Start(op)))), q);
      case Shutdown =>
        BeginsOrContinues(c.client, S.Start(S.Disconnect));
        LeaveAnswers(Conclude(took, q, Completed(S.Done)));
        LeaveModes(Conclude(took, q, Completed(S.Done)));
    }
  }

  lemma LeaveModes(t: Shift)
    requires t.core.client.phase.Ready?
    ensures !Leave(t).core.mode.Working?
  {}

  lemma SettleModes(t: Shift, q: Queued)
    ensures Settle(t, q).core.mode.Working? ==> Settle(t, q).core.mode == Working(q)
  {
    hide Leave;
    if t.core.client.phase.Ready? { LeaveModes(Conclude(t, q, Outcome(t.core.client))); }
  }

  lemma ResumeAnswers(a: Actor, i: S.Input, capacity: nat)
    requires Healthy(a) && OnTheJob(a) && Enabled(capacity, a.core, Resume(i))
    ensures StepAnswers(Resume(i), Next(a, Resume(i), capacity)) && OnTheJob(Next(a, Resume(i), capacity))
  {
    hide S.Step, Settle, Leave, Sound;
    var c, q := a.core, a.core.mode.job;
    var t := Poised(a).(core := c.(client := S.Step(c.client, i)));
    EndsWithAnswer(c.client, i);
    BeginsOrContinues(c.client, i);
    SettleAnswers(t, q);
    SettleModes(t, q);
    if q.job.Shutdown? { CloseEnds(c.client, i.ok); }
  }

  lemma OtherAnswersRight(a: Actor, e: Move, capacity: nat)
    requires Healthy(a) && OnTheJob(a) && Enabled(capacity, a.core, e) && !e.Take? && !e.Resume?
    ensures StepAnswers(e, Next(a, e, capacity)) && OnTheJob(Next(a, e, capacity))
  {
    hide S.Step, Leave, Sound, Latest;
    var c, t := a.core, Poised(a);
    match e
    case HangUp =>
      LeaveAnswers(t);
      LeaveModes(t);
    case ShutdownTimeout =>
      DropsToReady(c.client);
      var dropped := t.(core := c.(client := S.Step(c.client, S.Drop)));
      var over := Conclude(dropped, c.mode.job, Completed(S.Failed(TimedOut)));
      LeaveAnswers(over);
      LeaveModes(over);
    case CloseTimeout =>
      DropsToReady(c.client);
      StoppedAreLate(c.queue);
      LeaveAnswers(t.(core := c.(client := S.Step(c.client, S.Drop))));
      LeaveModes(t.(core := c.(client := S.Step(c.client, S.Drop))));
    case CloseAnswer(_) => StoppedAreLate(c.queue);
    case _ =>
  }

  // ---- over whole runs ------------------------------------------------------------------------------

  /** Every step of the run answered rightly. */
  ghost predicate AnswersThroughout(events: seq<Move>, capacity: nat)
    requires Legal(events, capacity)
    decreases |events|
  {
    events == [] ||
    (&& AnswersThroughout(events[..|events| - 1], capacity)
     && StepAnswers(events[|events| - 1], After(events, capacity)))
  }

  /** In every run, a caller is told the answer with which the client ended the operation
      begun for that caller's request, or that the actor stopped: for a request that was
      discarded, broken off or never started, and for no other. */
  lemma {:induction false} CallersGetTheirAnswers(events: seq<Move>, capacity: nat)
    requires Legal(events, capacity)
    ensures AnswersThroughout(events, capacity) && OnTheJob(After(events, capacity))
    decreases |events|
  {
    hide Healthy, Next, StepAnswers, OnTheJob;
    if events == [] {
      Idle();
    } else {
      var front, e := events[..|events| - 1], events[|events| - 1];
      var a := After(front, capacity);
      RunIsHealthy(front, capacity);
      CallersGetTheirAnswers(front, capacity);
      match e
      case Take => TakeAnswers(a, capacity);
      case Resume(i) => ResumeAnswers(a, i, capacity);
      case _ => OtherAnswersRight(a, e, capacity);
    }
  }

  lemma Idle()
    ensures OnTheJob(Spawned)
  {}
}
