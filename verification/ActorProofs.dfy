/** What holds over every run of the actor. */
module ActorProofs {
  import opened Protocol
  import S = Session
  import opened SessionInvariants
  import opened SessionDelivery
  import opened ActorMachine

  // ---- the client stays in step with the actor --------------------------------------

  ghost predicate Healthy(a: Actor) { Aligned(a.core) && Sound(a.core.client) && a.core.seen <= a.core.cancels }

  lemma StartDisconnect(m: S.Machine)
    requires Sound(m) && m.phase.Ready?
    ensures Sound(S.Step(m, S.Start(S.Disconnect))) && S.Step(m, S.Start(S.Disconnect)).phase == S.Closing(false)
    ensures S.Step(m, S.Start(S.Disconnect)).state == m.state
  {
    StepKeepsSound(m, S.Start(S.Disconnect));
  }

  lemma DropsToReady(m: S.Machine)
    requires Sound(m) && S.Allowed(m.phase, S.Drop)
    ensures Sound(S.Step(m, S.Drop)) && S.Step(m, S.Drop).phase.Ready? && S.Step(m, S.Drop).state == m.state
  {
    StepKeepsSound(m, S.Drop);
  }

  lemma CloseEnds(m: S.Machine, ok: bool)
    requires Sound(m) && m.phase == S.Closing(false)
    ensures var after := S.Step(m, S.CloseDone(ok));
            Sound(after) && after.phase.Ready? && !after.state.connected && after.state == S.Cleared(after.state)
  {
    StepKeepsSound(m, S.CloseDone(ok));
  }

  lemma IdleReadEnds(m: S.Machine, i: S.Input)
    requires Sound(m) && m.phase.Ready? && m.state.connected && S.Allowed(S.Idling, i) && !i.Drop?
    ensures var listening := S.Step(m, S.Start(S.NextEvent));
            && listening.phase.Idling? && Sound(listening)
            && var after := S.Step(listening, i); Sound(after) && after.phase.Ready?
  {
    var listening := S.Step(m, S.Start(S.NextEvent));
    StepKeepsSound(m, S.Start(S.NextEvent));
    StepKeepsSound(listening, i);
  }

  lemma LeaveIsHealthy(t: Shift, log: Log)
    requires t.core.client.phase.Ready? && Sound(t.core.client) && t.core.seen <= t.core.cancels
    requires (forall q <- t.core.queue :: Runnable(q.job)) && (forall q <- t.core.senders :: Runnable(q.job))
    ensures Healthy(Actor(Leave(t).core, log))
  {
    StartDisconnect(t.core.client);
  }

  lemma SettleIsHealthy(t: Shift, q: Queued, log: Log)
    requires Sound(t.core.client) && t.core.seen <= t.core.cancels && Runnable(q.job)
    requires q.job.Shutdown? ==> t.core.client.phase.Ready? || t.core.client.phase == S.Closing(false)
    requires (forall q <- t.core.queue :: Runnable(q.job)) && (forall q <- t.core.senders :: Runnable(q.job))
    ensures Healthy(Actor(Settle(t, q).core, log))
  {
    if t.core.client.phase.Ready? {
      LeaveIsHealthy(Conclude(t, q, Outcome(t.core.client)), log);
    }
  }

  lemma TakeIsHealthy(a: Actor)
    requires Healthy(a) && Attentive(a.core.mode) && a.core.queue != []
    ensures Healthy(Actor(TakeNext(Poised(a)).core, a.log))
  {
    hide Settle;
    hide Leave;
    var q := a.core.queue[0];
    var c := a.core.(queue := a.core.queue[1..], seen := a.core.cancels);
    if q.Generation() == a.core.cancels % GENERATIONS {
      var t := Shift(c, Poised(a).note.(taken := Some(q), started := true));
      if q.job.Operation? {
        StepKeepsSound(c.client, S.Start(q.job.op));
        SettleIsHealthy(t.(core := c.(client := S.Step(c.client, S.Start(q.job.op)))), q, a.log);
      } else {
        StartDisconnect(c.client);
        LeaveIsHealthy(Conclude(t, q, Completed(S.Done)), a.log);
      }
    }
  }

  /** Steps of callers, as opposed to steps of the actor. */
  predicate ByCaller(e: Move) { e.Stamp? || e.Enqueue? || e.Cancel? || e.DropHandles? }

  lemma CallerIsHealthy(a: Actor, e: Move, capacity: nat)
    requires Healthy(a) && Enabled(capacity, a.core, e) && ByCaller(e)
    ensures Healthy(Next(a, e, capacity))
  {}

  lemma CloseIsHealthy(a: Actor, e: Move, capacity: nat)
    requires Healthy(a) && Enabled(capacity, a.core, e) && (e.CloseAnswer? || e.CloseTimeout? || e.ShutdownTimeout?)
    ensures Healthy(Next(a, e, capacity))
  {
    hide S.Step;
    hide Leave;
    var c := a.core;
    DropsToReady(c.client);
    var dropped := Poised(a).(core := c.(client := S.Step(c.client, S.Drop)));
    LeaveIsHealthy(dropped, a.log);
    match e
    case CloseAnswer(ok) => CloseEnds(c.client, ok);
    case ShutdownTimeout => LeaveIsHealthy(Conclude(dropped, c.mode.job, Completed(S.Failed(TimedOut))), a.log);
    case _ =>
  }

  lemma ResumeIsHealthy(a: Actor, i: S.Input, capacity: nat)
    requires Healthy(a) && Enabled(capacity, a.core, Resume(i))
    ensures Healthy(Next(a, Resume(i), capacity))
  {
    hide S.Step;
    hide Settle;
    var c := a.core;
    StepKeepsSound(c.client, i);
    if c.mode.job.job.Shutdown? { CloseEnds(c.client, i.ok); }
    SettleIsHealthy(Poised(a).(core := c.(client := S.Step(c.client, i))), c.mode.job, a.log);
  }

  lemma NextIsHealthy(a: Actor, e: Move, capacity: nat)
    requires Healthy(a) && Enabled(capacity, a.core, e)
    ensures Healthy(Next(a, e, capacity))
  {
    hide S.Step;
    hide Leave;
    hide Settle;
    hide TakeNext;
    var c := a.core;
    if ByCaller(e) { CallerIsHealthy(a, e, capacity); }
    else if e.CloseAnswer? || e.CloseTimeout? || e.ShutdownTimeout? { CloseIsHealthy(a, e, capacity); }
    else {
      match e
      case Take => TakeIsHealthy(a);
      case HangUp => LeaveIsHealthy(Poised(a), a.log);
      case IdleRead(i) => IdleReadEnds(c.client, i);
      case Resume(i) => ResumeIsHealthy(a, i, capacity);
      case Interrupt =>
        DropsToReady(c.client);
        StartDisconnect(S.Step(c.client, S.Drop));
      case _ =>
    }
  }

  /** The side condition of Legal never cuts a run short. */
  lemma {:induction false} RunIsHealthy(events: seq<Move>, capacity: nat)
    requires Legal(events, capacity)
    ensures Healthy(After(events, capacity))
    decreases |events|
  {
    if events != [] {
      var front := events[..|events| - 1];
      RunIsHealthy(front, capacity);
      NextIsHealthy(After(front, capacity), events[|events| - 1], capacity);
    }
  }

  // ---- the history of a run --------------------------------------------------------------

  function Optional<T>(o: Option<T>): seq<T> { if o.Some? then [o.value] else [] }

  function Accepted(log: Log): seq<Queued> {
    match log
    case Nothing => []
    case Noted(past, note) => Accepted(past) + Optional(note.accepted)
  }

  function Taken(log: Log): seq<Queued> {
    match log
    case Nothing => []
    case Noted(past, note) => Taken(past) + Optional(note.taken)
  }

  function StartedOf(note: Note): Option<Queued> { if note.started then note.taken else None }

  function Started(log: Log): seq<Queued> {
    match log
    case Nothing => []
    case Noted(past, note) => Started(past) + Optional(StartedOf(note))
  }

  /** The request whose operation is running, as far as the history tells. */
  function ActiveIn(log: Log): Option<Queued> {
    match log
    case Nothing => None
    case Noted(past, note) =>
      if note.finished.Some? || note.interrupted.Some? then None
      else if note.started then note.taken else ActiveIn(past)
  }

  /** An operation that may have written was broken off, and none started since. */
  predicate Ambiguous(log: Log) {
    match log
    case Nothing => false
    case Noted(past, note) =>
      if note.started then false
      else if note.interrupted.Some? then !IsAckWait(note.interrupted.value)
      else Ambiguous(past)
  }

  predicate IsAckWait(q: Queued) { q.job.Operation? && q.job.op.WaitForAck? }

  predicate ShutDown(log: Log) {
    match log
    case Nothing => false
    case Noted(past, note) => ShutDown(past) || (note.finished.Some? && note.finished.value.job.Shutdown?)
  }

  // ---- what each step notes ----------------------------------------------------------------

  function Tail(queue: seq<Queued>, mode: Mode): seq<Queued> { if mode.Stopped? then [] else queue }

  function LateResponses(queue: seq<Queued>, mode: Mode): seq<Response> {
    if mode.Stopped? then StoppedResponses(queue) else []
  }

  /** Only client and mode changed, except that stopping empties the queue. */
  ghost predicate Carries(c: Core, d: Core) {
    d == c.(client := d.client, mode := d.mode, queue := Tail(c.queue, d.mode))
  }

  lemma LeaveNotes(t: Shift)
    requires t.core.client.phase.Ready?
    ensures var u := Leave(t);
            && Carries(t.core, u.core) && (u.core.mode.LastClose? || u.core.mode.Stopped?)
            && u.note == t.note.(responses := t.note.responses + LateResponses(t.core.queue, u.core.mode))
  {
    hide S.Step;
  }

  /** The request goes on running, or it ends with one response of its own. */
  ghost predicate Serves(t: Shift, u: Shift, q: Queued) {
    && Carries(t.core, u.core)
    && if u.core.mode == Working(q) then u.note == t.note
       else
         && (if q.job.Shutdown? then u.core.mode.LastClose? || u.core.mode.Stopped? else u.core.mode.Listening?)
         && exists r :: u.note == t.note.(finished := Some(q),
                                          responses := t.note.responses + [Response(q.id, r)]
                                              + LateResponses(t.core.queue, u.core.mode))
  }

  lemma SettleNotes(t: Shift, q: Queued)
    ensures Serves(t, Settle(t, q), q)
  {
    hide S.Step;
    hide Leave;
    if t.core.client.phase.Ready? {
      var r := Outcome(t.core.client);
      var over := Conclude(t, q, r);
      LeaveNotes(over);
      assert Settle(t, q).note == t.note.(finished := Some(q),
               responses := t.note.responses + [Response(q.id, r)]
                   + LateResponses(t.core.queue, Settle(t, q).core.mode));
    }
  }

  lemma LaunchNotes(t: Shift, q: Queued)
    requires t.core.client.phase.Ready? && Runnable(q.job)
    ensures Serves(t, Launch(t, q), q)
  {
    hide S.Step;
    hide Leave;
    hide Settle;
    match q.job
    case Operation(op) => SettleNotes(t.(core := t.core.(client := S.Step(t.core.client, S.Start(op)))), q);
    case Shutdown =>
      if !t.core.client.state.connected {
        LeaveNotes(Conclude(t, q, Completed(S.Done)));
        assert Launch(t, q).note == t.note.(finished := Some(q),
                 responses := t.note.responses + [Response(q.id, Completed(S.Done))]
                     + LateResponses(t.core.queue, Launch(t, q).core.mode));
      }
  }

  function Blank(a: Actor): Note { Poised(a).note }

  ghost predicate Leaves(a: Actor, d: Core, note: Note) {
    && Carries(a.core, d) && (d.mode.LastClose? || d.mode.Stopped?)
    && note == Blank(a).(responses := Blank(a).responses + LateResponses(a.core.queue, d.mode))
  }

  /** Everything a step does, but for the client's own part in it. */
  ghost predicate Described(a: Actor, e: Move, b: Actor) {
    && b.log.Noted? && b.log.past == a.log
    && var c, d, note, blank := a.core, b.core, b.log.note, Blank(a);
    match e
    case Stamp(job) =>
      note == blank && d == c.(senders := c.senders + [Queued(c.requests, job, c.cancels)], requests := c.requests + 1)
    case Enqueue(k) =>
      && k < |c.senders|
      && var q := c.senders[k];
         if c.mode.Stopped?
         then d == c.(senders := Removed(c.senders, k)) && note == blank.(responses := [Response(q.id, ActorStopped)])
         else d == c.(senders := Removed(c.senders, k), queue := c.queue + [q]) && note == blank.(accepted := Some(q))
    case Cancel => note == blank && d == c.(cancels := c.cancels + 1)
    case DropHandles => note == blank && d == c.(closed := true)
    case Take =>
      && c.queue != [] && Attentive(c.mode)
      && var q := c.queue[0];
         var took := c.(queue := c.queue[1..], seen := c.cancels);
         if q.Generation() != c.cancels % GENERATIONS
         then
           && d == took.(mode := Listening)
           && note == blank.(taken := Some(q), responses := [Response(q.id, ActorStopped)])
         else Serves(Shift(took, blank.(taken := Some(q), started := true)), Shift(d, note), q)
    case HangUp => Attentive(c.mode) && Leaves(a, d, note)
    case Notice => Attentive(c.mode) && note == blank && d == c.(seen := c.cancels, mode := Listening)
    case IdleRead(_) =>
      && c.mode.Listening? && c.client.state.connected
      && note == blank && Attentive(d.mode) && d == c.(client := d.client, mode := d.mode)
    case Wake => c.mode.Backoff? && note == blank && d == c.(mode := Listening)
    case Resume(_) => c.mode.Working? && Serves(Shift(c, blank), Shift(d, note), c.mode.job)
    case ShutdownTimeout =>
      && c.mode.Working? && c.mode.job.job.Shutdown? && d.mode != c.mode
      && Serves(Shift(c, blank), Shift(d, note), c.mode.job)
    case Interrupt =>
      && c.mode.Working?
      && var q := c.mode.job;
      && note == blank.(interrupted := Some(q), responses := [Response(q.id, ActorStopped)])
      && d == c.(client := d.client, seen := c.cancels, mode := if IsAckWait(q) then Listening else Severing)
      && d.client.state == c.client.state
    case CloseAnswer(_) =>
      && (c.mode.Severing? || c.mode.LastClose?)
      && !d.client.state.connected && d.client.state == S.Cleared(d.client.state)
      && if c.mode.Severing? then note == blank && d == c.(client := d.client, mode := Listening)
         else Leaves(a, d, note) && d.mode.Stopped?
    case CloseTimeout => (c.mode.Severing? || c.mode.LastClose?) && Leaves(a, d, note)
  }

  lemma TakeDescribed(a: Actor, capacity: nat)
    requires Healthy(a) && Enabled(capacity, a.core, Take)
    ensures Described(a, Take, Next(a, Take, capacity))
  {
    hide S.Step;
    hide Launch;
    var c := a.core;
    var q := c.queue[0];
    var took := Shift(c.(queue := c.queue[1..], seen := c.cancels), Blank(a).(taken := Some(q), started := true));
    LaunchNotes(took, q);
    assert Blank(a).responses + [Response(q.id, ActorStopped)] == [Response(q.id, ActorStopped)];
  }

  lemma ShutdownTimeoutDescribed(a: Actor, capacity: nat)
    requires Healthy(a) && Enabled(capacity, a.core, ShutdownTimeout)
    ensures Described(a, ShutdownTimeout, Next(a, ShutdownTimeout, capacity))
  {
    hide S.Step;
    hide Leave;
    var c := a.core;
    var q := c.mode.job;
    DropsToReady(c.client);
    var dropped := Poised(a).(core := c.(client := S.Step(c.client, S.Drop)));
    LeaveNotes(Conclude(dropped, q, Completed(S.Failed(TimedOut))));
    var b := Next(a, ShutdownTimeout, capacity);
    assert b.log.note == Blank(a).(finished := Some(q),
             responses := Blank(a).responses + [Response(q.id, Completed(S.Failed(TimedOut)))]
                 + LateResponses(c.queue, b.core.mode));
  }

  lemma CallerDescribed(a: Actor, e: Move, capacity: nat)
    requires Healthy(a) && Enabled(capacity, a.core, e) && ByCaller(e)
    ensures Described(a, e, Next(a, e, capacity))
  {}

  lemma ResumeDescribed(a: Actor, i: S.Input, capacity: nat)
    requires Healthy(a) && Enabled(capacity, a.core, Resume(i))
    ensures Described(a, Resume(i), Next(a, Resume(i), capacity))
  {
    hide S.Step;
    hide Settle;
    SettleNotes(Poised(a).(core := a.core.(client := S.Step(a.core.client, i))), a.core.mode.job);
  }

  lemma CloseDescribed(a: Actor, e: Move, capacity: nat)
    requires Healthy(a) && Enabled(capacity, a.core, e) && (e.CloseAnswer? || e.CloseTimeout?)
    ensures Described(a, e, Next(a, e, capacity))
  {
    hide S.Step;
    hide Leave;
    if e.CloseAnswer? {
      CloseEnds(a.core.client, e.ok);
    } else {
      DropsToReady(a.core.client);
      LeaveNotes(Poised(a).(core := a.core.(client := S.Step(a.core.client, S.Drop))));
    }
  }

  lemma InterruptDescribed(a: Actor, capacity: nat)
    requires Healthy(a) && Enabled(capacity, a.core, Interrupt)
    ensures Described(a, Interrupt, Next(a, Interrupt, capacity))
  {
    hide S.Step;
    DropsToReady(a.core.client);
    StartDisconnect(S.Step(a.core.client, S.Drop));
  }

  lemma NextDescribed(a: Actor, e: Move, capacity: nat)
    requires Healthy(a) && Enabled(capacity, a.core, e)
    ensures Described(a, e, Next(a, e, capacity))
  {
    hide S.Step;
    hide Leave;
    hide Settle;
    hide TakeNext;
    hide BreakOff;
    if ByCaller(e) { CallerDescribed(a, e, capacity); }
    else if e.CloseAnswer? || e.CloseTimeout? { CloseDescribed(a, e, capacity); }
    else if e.Resume? { ResumeDescribed(a, e.i, capacity); }
    else if e.Interrupt? { InterruptDescribed(a, capacity); }
    else if e.Take? { TakeDescribed(a, capacity); }
    else if e.ShutdownTimeout? { ShutdownTimeoutDescribed(a, capacity); }
    else if e.HangUp? { LeaveNotes(Poised(a)); }
  }

  // ---- first come, first served ------------------------------------------------------------

  ghost predicate Ordered(a: Actor) {
    var taken, accepted := Taken(a.log), Accepted(a.log);
    && taken + a.core.queue <= accepted
    && (!a.core.mode.Stopped? ==> taken + a.core.queue == accepted)
    && Subsequence(Started(a.log), taken)
  }

  lemma {:induction false} NextKeepsStarted(a: Actor, b: Actor)
    requires Subsequence(Started(a.log), Taken(a.log)) && b.log.Noted? && b.log.past == a.log
    ensures Subsequence(Started(b.log), Taken(b.log))
  {
    var note := b.log.note;
    if note.taken.Some? {
      var q := note.taken.value;
      assert Taken(b.log) == Taken(a.log) + [q];
      if note.started {
        assert Started(b.log) == Started(a.log) + [q];
        SubsequenceTake(Started(a.log), Taken(a.log), q);
      } else {
        assert Started(b.log) == Started(a.log);
        SubsequenceSkip(Started(a.log), Taken(a.log), q);
      }
    } else {
      assert Taken(b.log) == Taken(a.log) && Started(b.log) == Started(a.log);
    }
  }

  /** The queue loses its head to a take, gains an accepted request at its end, or is
      emptied for good. */
  ghost predicate QueueMoves(c: Core, d: Core, note: Note) {
    && (c.mode.Stopped? ==> d.mode.Stopped? && note.taken.None? && note.accepted.None?)
    && (note.started ==> note.taken.Some?)
    && if note.taken.Some? then
         && note.accepted.None? && c.queue != [] && note.taken.value == c.queue[0]
         && d.queue == Tail(c.queue[1..], d.mode)
       else if note.accepted.Some? then d.queue == c.queue + [note.accepted.value] && d.mode == c.mode
       else d.queue == c.queue || (d.mode.Stopped? && d.queue == [])
  }

  lemma QueueEffect(a: Actor, e: Move, b: Actor)
    requires Described(a, e, b)
    ensures b.log.Noted? && b.log.past == a.log && QueueMoves(a.core, b.core, b.log.note)
  {}

  lemma {:induction false} NextKeepsOrdered(a: Actor, e: Move, b: Actor)
    requires Ordered(a) && Described(a, e, b)
    ensures Ordered(b)
  {
    hide Subsequence;
    hide Described;
    QueueEffect(a, e, b);
    NextKeepsStarted(a, b);
    QueueKeepsOrder(a, b);
  }

  lemma {:induction false} QueueKeepsOrder(a: Actor, b: Actor)
    requires Ordered(a) && b.log.Noted? && b.log.past == a.log && QueueMoves(a.core, b.core, b.log.note)
    requires Subsequence(Started(b.log), Taken(b.log))
    ensures Ordered(b)
  {
    hide Subsequence;
    var note := b.log.note;
    var taken := Taken(a.log);
    if note.taken.Some? {
      assert Taken(b.log) + a.core.queue[1..] == taken + a.core.queue;
      assert Taken(b.log) <= taken + a.core.queue;
      assert Accepted(b.log) == Accepted(a.log);
    } else if note.accepted.Some? {
      assert Taken(b.log) == taken;
      assert taken + b.core.queue == taken + a.core.queue + [note.accepted.value];
    } else {
      assert Taken(b.log) == taken && Accepted(b.log) == Accepted(a.log);
      assert taken <= taken + a.core.queue;
    }
  }

  // ---- one operation at a time ------------------------------------------------------------------

  function JobOf(mode: Mode): Option<Queued> { if mode.Working? then Some(mode.job) else None }

  predicate Over(mode: Mode) { mode.LastClose? || mode.Stopped? }

  predicate Severed(s: S.State) { !s.connected && s == S.Cleared(s) }

  /** How the running operation and the mode move together. */
  ghost predicate ModeMoves(c: Core, d: Core, note: Note) {
    && note.session == c.client.state && note.cancels == c.cancels
    && (note.started ==> Attentive(c.mode))
    && (note.taken.Some? ==> (note.started <==> note.taken.value.Generation() == c.cancels % GENERATIONS))
    && (note.finished.Some? ==> note.finished == (if note.started then note.taken else JobOf(c.mode)))
    && (note.interrupted.Some? ==>
          !note.started && note.finished.None? && note.interrupted == JobOf(c.mode)
          && d.mode == if IsAckWait(note.interrupted.value) then Listening else Severing)
    && JobOf(d.mode) == (if note.finished.Some? || note.interrupted.Some? then None
                         else if note.started then note.taken else JobOf(c.mode))
    && (Over(c.mode) ==> Over(d.mode))
    && (note.finished.Some? && note.finished.value.job.Shutdown? ==> Over(d.mode))
    && (c.mode.Severing? ==> d.mode.Severing? || Over(d.mode) || Severed(d.client.state))
    && (Attentive(c.mode) && Severed(c.client.state) && !note.started ==> Over(d.mode) || Severed(d.client.state))
  }

  lemma ModeEffect(a: Actor, e: Move, b: Actor)
    requires Described(a, e, b)
    ensures b.log.Noted? && b.log.past == a.log && ModeMoves(a.core, b.core, b.log.note)
  {}

  /** Operations never overlap: one starts only when none is running, and what ends or
      is broken off is the one that was running. */
  predicate OneAtATime(log: Log) {
    match log
    case Nothing => true
    case Noted(past, note) =>
      && OneAtATime(past)
      && (note.started ==> ActiveIn(past).None? && note.taken.Some?)
      && (note.finished.Some? ==> note.finished == (if note.started then note.taken else ActiveIn(past)))
      && (note.interrupted.Some? ==> !note.started && note.interrupted == ActiveIn(past))
  }

  /** A request is started exactly if no cancellation, modulo 2^64, came after its
      stamp. */
  predicate StartsAreCurrent(log: Log) {
    match log
    case Nothing => true
    case Noted(past, note) =>
      && StartsAreCurrent(past)
      && (note.taken.Some? ==>
            (note.started <==>
             note.taken.value.stamp % 0x1_0000_0000_0000_0000 == note.cancels % 0x1_0000_0000_0000_0000))
  }

  /** After an operation that may have written is broken off, the next one starts on a
      disconnected client with nothing tracked. */
  predicate StartsAreUnambiguous(log: Log) {
    match log
    case Nothing => true
    case Noted(past, note) =>
      StartsAreUnambiguous(past) && (note.started && Ambiguous(past) ==> Severed(note.session))
  }

  predicate NothingStartsAfterShutdown(log: Log) {
    match log
    case Nothing => true
    case Noted(past, note) => NothingStartsAfterShutdown(past) && (note.started ==> !ShutDown(past))
  }

  ghost predicate Disciplined(a: Actor) {
    && ActiveIn(a.log) == JobOf(a.core.mode) && OneAtATime(a.log)
    && StartsAreCurrent(a.log)
    && (Ambiguous(a.log) ==>
          || a.core.mode.Severing? || Over(a.core.mode)
          || (Attentive(a.core.mode) && Severed(a.core.client.state)))
    && StartsAreUnambiguous(a.log)
    && (ShutDown(a.log) ==> Over(a.core.mode)) && NothingStartsAfterShutdown(a.log)
  }

  lemma NextKeepsDisciplined(a: Actor, e: Move, b: Actor)
    requires Disciplined(a) && Described(a, e, b)
    ensures Disciplined(b)
  {
    hide Described;
    ModeEffect(a, e, b);
    QueueEffect(a, e, b);
    MovesKeepDisciplined(a, b);
  }

  lemma MovesKeepDisciplined(a: Actor, b: Actor)
    requires Disciplined(a) && b.log.Noted? && b.log.past == a.log
    requires ModeMoves(a.core, b.core, b.log.note) && QueueMoves(a.core, b.core, b.log.note)
    ensures Disciplined(b)
  {}

  // ---- every caller gets one result -----------------------------------------------------------------

  function Count(qs: seq<Queued>, id: nat): nat {
    if qs == [] then 0 else (if qs[0].id == id then 1 else 0) + Count(qs[1..], id)
  }

  function CountResponses(rs: seq<Response>, id: nat): nat {
    if rs == [] then 0 else (if rs[0].id == id then 1 else 0) + CountResponses(rs[1..], id)
  }

  function Responses(log: Log): seq<Response> {
    match log
    case Nothing => []
    case Noted(past, note) => Responses(past) + note.responses
  }

  lemma {:induction false} CountAppend(a: seq<Queued>, b: seq<Queued>, id: nat)
    ensures Count(a + b, id) == Count(a, id) + Count(b, id)
  {
    if a == [] { assert a + b == b; } else { assert (a + b)[1..] == a[1..] + b; CountAppend(a[1..], b, id); }
  }

  lemma {:induction false} CountResponsesAppend(a: seq<Response>, b: seq<Response>, id: nat)
    ensures CountResponses(a + b, id) == CountResponses(a, id) + CountResponses(b, id)
  {
    if a == [] { assert a + b == b; } else { assert (a + b)[1..] == a[1..] + b; CountResponsesAppend(a[1..], b, id); }
  }

  lemma CountOne(r: Response, id: nat)
    ensures CountResponses([r], id) == if r.id == id then 1 else 0
    ensures CountResponses([], id) == 0
  {
    assert [r][1..] == [];
  }

  lemma {:induction false} CountStopped(queue: seq<Queued>, id: nat)
    ensures CountResponses(StoppedResponses(queue), id) == Count(queue, id)
  {
    if queue != [] {
      assert StoppedResponses(queue)[1..] == StoppedResponses(queue[1..]);
      CountStopped(queue[1..], id);
    }
  }

  lemma {:induction false} CountRemoved(s: seq<Queued>, k: nat, id: nat)
    requires k < |s|
    ensures Count(Removed(s, k), id) + (if s[k].id == id then 1 else 0) == Count(s, id)
  {
    CountAppend(s[..k], s[k + 1..], id);
    CountAppend(s[..k], s[k..], id);
    assert s == s[..k] + s[k..];
    assert s[k..][1..] == s[k + 1..];
  }

  /** How often the id is still to be answered: by a waiting sender, a queued request
      or the running one. */
  function Open(c: Core, id: nat): nat {
    Count(c.senders, id) + Count(c.queue, id) + if c.mode.Working? && c.mode.job.id == id then 1 else 0
  }

  ghost predicate Answering(a: Actor, id: nat) {
    CountResponses(Responses(a.log), id) + Open(a.core, id) == if id < a.core.requests then 1 else 0
  }

  lemma {:induction false} CountLate(queue: seq<Queued>, mode: Mode, id: nat)
    ensures CountResponses(LateResponses(queue, mode), id) + Count(Tail(queue, mode), id) == Count(queue, id)
  {
    CountStopped(queue, id);
  }

  lemma {:induction false} ServesOnce(t: Shift, u: Shift, q: Queued, id: nat)
    requires Serves(t, u, q) && t.note.responses == []
    ensures CountResponses(u.note.responses, id) + Count(u.core.queue, id)
            + (if u.core.mode.Working? && u.core.mode.job.id == id then 1 else 0)
         == Count(t.core.queue, id) + if q.id == id then 1 else 0
    ensures u.core.senders == t.core.senders && u.core.requests == t.core.requests
  {
    if u.core.mode != Working(q) {
      var r :| u.note == t.note.(finished := Some(q),
                 responses := t.note.responses + [Response(q.id, r)] + LateResponses(t.core.queue, u.core.mode));
      var late := LateResponses(t.core.queue, u.core.mode);
      assert u.note.responses == [Response(q.id, r)] + late;
      assert u.note.responses[1..] == late;
      CountLate(t.core.queue, u.core.mode, id);
    }
  }

  /** A step moves an id from waiting to answered, or adds a new one to the waiting. */
  ghost predicate MovesId(a: Actor, e: Move, b: Actor, id: nat) {
    && b.log.Noted? && b.log.past == a.log
    && CountResponses(b.log.note.responses, id) + Open(b.core, id)
       == Open(a.core, id) + (if e.Stamp? && id == a.core.requests then 1 else 0)
    && b.core.requests == a.core.requests + if e.Stamp? then 1 else 0
  }

  lemma {:induction false} CallerMovesId(a: Actor, e: Move, b: Actor, id: nat)
    requires Described(a, e, b) && ByCaller(e)
    ensures MovesId(a, e, b, id)
  {
    var c := a.core;
    if e.Stamp? { CountAppend(c.senders, [Queued(c.requests, e.job, c.cancels)], id); }
    else if e.Enqueue? {
      CountRemoved(c.senders, e.index, id);
      CountAppend(c.queue, [c.senders[e.index]], id);
    }
  }

  lemma {:induction false} ActorMovesId(a: Actor, e: Move, b: Actor, id: nat)
    requires Described(a, e, b) && !ByCaller(e)
    ensures MovesId(a, e, b, id)
  {
    hide Serves;
    var c := a.core;
    if e.Take? {
      TakeMovesId(a, b, id);
    } else if e.Resume? || e.ShutdownTimeout? {
      ServesOnce(Shift(c, Blank(a)), Shift(b.core, b.log.note), c.mode.job, id);
    } else if e.HangUp? || e.CloseAnswer? || e.CloseTimeout? {
      LeaveMovesId(a, e, b, id);
    } else {
      CountOne(Response(if c.mode.Working? then c.mode.job.id else 0, ActorStopped), id);
    }
  }

  lemma {:induction false} TakeMovesId(a: Actor, b: Actor, id: nat)
    requires Described(a, Take, b)
    ensures MovesId(a, Take, b, id)
  {
    hide Serves;
    var c := a.core;
    var q := c.queue[0];
    var took := c.(queue := c.queue[1..], seen := c.cancels);
    CountOne(Response(q.id, ActorStopped), id);
    if q.Generation() == c.cancels % GENERATIONS {
      ServesOnce(Shift(took, Blank(a).(taken := Some(q), started := true)), Shift(b.core, b.log.note), q, id);
    }
  }

  lemma {:induction false} LeaveMovesId(a: Actor, e: Move, b: Actor, id: nat)
    requires Described(a, e, b) && (e.HangUp? || e.CloseAnswer? || e.CloseTimeout?)
    ensures MovesId(a, e, b, id)
  {
    hide Serves, LateResponses, Tail, Count, CountResponses;
    var c := a.core;
    CountOne(Response(0, ActorStopped), id);
    CountLate(c.queue, b.core.mode, id);
    assert Blank(a).responses + LateResponses(c.queue, b.core.mode) == LateResponses(c.queue, b.core.mode);
  }

  lemma {:induction false} NextKeepsAnswering(a: Actor, e: Move, b: Actor, id: nat)
    requires Answering(a, id) && Described(a, e, b)
    ensures Answering(b, id)
  {
    hide Described;
    if ByCaller(e) { CallerMovesId(a, e, b, id); } else { ActorMovesId(a, e, b, id); }
    CountResponsesAppend(Responses(a.log), b.log.note.responses, id);
  }

  // ---- no request is accepted or started twice ---------------------------------------------------------

  ghost predicate AcceptedOnce(a: Actor, id: nat) {
    Count(Accepted(a.log), id) + Count(a.core.senders, id) <= if id < a.core.requests then 1 else 0
  }

  lemma {:induction false} NextKeepsAcceptedOnce(a: Actor, e: Move, b: Actor, id: nat)
    requires AcceptedOnce(a, id) && Described(a, e, b)
    ensures AcceptedOnce(b, id)
  {
    if ByCaller(e) {
      var c := a.core;
      CountAppend(Accepted(a.log), Optional(b.log.note.accepted), id);
      if e.Stamp? { CountAppend(c.senders, [Queued(c.requests, e.job, c.cancels)], id); }
      else if e.Enqueue? { CountRemoved(c.senders, e.index, id); }
    } else {
      ActorAcceptsNothing(a, e, b);
      assert Accepted(b.log) == Accepted(a.log);
    }
  }

  lemma ActorAcceptsNothing(a: Actor, e: Move, b: Actor)
    requires Described(a, e, b) && !ByCaller(e)
    ensures b.log.Noted? && b.log.past == a.log && b.log.note.accepted.None?
    ensures b.core.senders == a.core.senders && b.core.requests == a.core.requests
  {}

  lemma {:induction false} CountSubsequence(xs: seq<Queued>, ys: seq<Queued>, id: nat)
    requires Subsequence(xs, ys)
    ensures Count(xs, id) <= Count(ys, id)
    decreases |ys|
  {
    if xs != [] {
      var y := ys[..|ys| - 1];
      assert ys == y + [ys[|ys| - 1]];
      CountAppend(y, [ys[|ys| - 1]], id);
      if Subsequence(xs, y) {
        CountSubsequence(xs, y, id);
      } else {
        var x := xs[..|xs| - 1];
        assert xs == x + [xs[|xs| - 1]];
        CountAppend(x, [xs[|xs| - 1]], id);
        CountSubsequence(x, y, id);
      }
    }
  }

  // ---- only jobs write ------------------------------------------------------------------------------------

  function CommandsIssued(t: S.Trace): nat {
    match t
    case Empty => 0
    case Then(past, now) => CommandsIssued(past) + if now.issued.Some? then 1 else 0
  }

  lemma ReadsIssueNothing(m: S.Machine, i: S.Input)
    requires Sound(m) && S.Allowed(m.phase, i)
    requires m.phase.Idling? || m.phase.Closing? || i.Drop? || i == S.Start(S.Disconnect) || i == S.Start(S.NextEvent)
    ensures CommandsIssued(S.Step(m, i).trace) == CommandsIssued(m.trace)
  {}

  /** Nothing reaches the transport outside the operation of a started request. */
  lemma OnlyJobsWrite(a: Actor, e: Move, capacity: nat)
    requires Healthy(a) && Enabled(capacity, a.core, e)
    ensures CommandsIssued(Next(a, e, capacity).core.client.trace) != CommandsIssued(a.core.client.trace) ==>
              e.Resume? || (e.Take? && Next(a, e, capacity).log.note.started)
  {
    hide S.Step;
    hide CommandsIssued;
    var c := a.core;
    match e
    case HangUp => ReadsIssueNothing(c.client, S.Start(S.Disconnect));
    case IdleRead(i) =>
      IdleReadEnds(c.client, i);
      ReadsIssueNothing(c.client, S.Start(S.NextEvent));
      ReadsIssueNothing(S.Step(c.client, S.Start(S.NextEvent)), i);
    case ShutdownTimeout => ClosingIssuesNothing(c.client);
    case Interrupt => ClosingIssuesNothing(c.client);
    case CloseAnswer(ok) => ReadsIssueNothing(c.client, S.CloseDone(ok));
    case CloseTimeout => ClosingIssuesNothing(c.client);
    case Take =>
      hide Launch;
      var q := c.queue[0];
      if q.Generation() == c.cancels % GENERATIONS {
        LaunchNotes(Shift(c.(queue := c.queue[1..], seen := c.cancels), Blank(a).(taken := Some(q), started := true)),
            q);
      }
    case _ =>
  }

  lemma ClosingIssuesNothing(m: S.Machine)
    requires Sound(m) && S.Allowed(m.phase, S.Drop)
    ensures var dropped := S.Step(m, S.Drop);
            && CommandsIssued(dropped.trace) == CommandsIssued(m.trace)
            && dropped.phase.Ready?
            && CommandsIssued(S.Step(dropped, S.Start(S.Disconnect)).trace) == CommandsIssued(m.trace)
  {
    hide S.Step;
    hide CommandsIssued;
    ReadsIssueNothing(m, S.Drop);
    DropsToReady(m);
    ReadsIssueNothing(S.Step(m, S.Drop), S.Start(S.Disconnect));
  }

  // ---- whole runs ------------------------------------------------------------------------------------------

  lemma {:induction false} RunHolds(events: seq<Move>, capacity: nat, id: nat)
    requires Legal(events, capacity)
    ensures var a := After(events, capacity);
            Healthy(a) && Ordered(a) && Disciplined(a) && Answering(a, id) && AcceptedOnce(a, id)
    decreases |events|
  {
    hide Described;
    hide Healthy;
    hide Next;
    RunIsHealthy(events, capacity);
    if events != [] {
      var front := events[..|events| - 1];
      var a, e := After(front, capacity), events[|events| - 1];
      RunIsHealthy(front, capacity);
      RunHolds(front, capacity, id);
      NextDescribed(a, e, capacity);
      var b := Next(a, e, capacity);
      NextKeepsOrdered(a, e, b);
      NextKeepsDisciplined(a, e, b);
      NextKeepsAnswering(a, e, b, id);
      NextKeepsAcceptedOnce(a, e, b, id);
    }
  }

  /** Requests are started in the order they were accepted, each at most once. */
  lemma StartedInOrderAtMostOnce(events: seq<Move>, capacity: nat, id: nat)
    requires Legal(events, capacity)
    ensures var log := After(events, capacity).log;
            && Subsequence(Started(log), Taken(log)) && Taken(log) <= Accepted(log)
            && Count(Started(log), id) <= 1
  {
    hide Legal, After, Accepted, Taken, Started, Subsequence, Disciplined, Answering, Healthy;
    RunHolds(events, capacity, id);
    var a := After(events, capacity);
    var taken, accepted := Taken(a.log), Accepted(a.log);
    CountSubsequence(Started(a.log), taken, id);
    assert taken <= accepted;
    assert accepted == taken + accepted[|taken|..];
    CountAppend(taken, accepted[|taken|..], id);
  }

  /** Operations never overlap, stale requests are discarded, an interrupted write is
      never followed by another on the same session, and shutdown is final. */
  lemma RunsAreDisciplined(events: seq<Move>, capacity: nat)
    requires Legal(events, capacity)
    ensures var log := After(events, capacity).log;
            OneAtATime(log) && StartsAreCurrent(log) && StartsAreUnambiguous(log) && NothingStartsAfterShutdown(log)
  {
    RunHolds(events, capacity, 0);
  }

  /** Every request made is answered at most once, and exactly once when the actor has
      stopped and nobody waits to enqueue. */
  lemma EveryCallerGetsOneResult(events: seq<Move>, capacity: nat, id: nat)
    requires Legal(events, capacity)
    ensures var a := After(events, capacity);
            && CountResponses(Responses(a.log), id) <= 1
            && (a.core.mode.Stopped? && a.core.senders == [] && id < a.core.requests ==>
                  CountResponses(Responses(a.log), id) == 1)
  {
    RunHolds(events, capacity, id);
    StoppedIsEmpty(events, capacity);
  }

  lemma {:induction false} StoppedIsEmpty(events: seq<Move>, capacity: nat)
    requires Legal(events, capacity)
    ensures After(events, capacity).core.mode.Stopped? ==> After(events, capacity).core.queue == []
    decreases |events|
  {
    hide Described;
    if events != [] {
      var front := events[..|events| - 1];
      var a, e := After(front, capacity), events[|events| - 1];
      RunIsHealthy(front, capacity);
      StoppedIsEmpty(front, capacity);
      NextDescribed(a, e, capacity);
      StopsEmpty(a, e, Next(a, e, capacity));
    }
  }

  lemma StopsEmpty(a: Actor, e: Move, b: Actor)
    requires Described(a, e, b) && (a.core.mode.Stopped? ==> a.core.queue == [])
    ensures b.core.mode.Stopped? ==> b.core.queue == []
  {}

  /** An interrupted acknowledgement wait leaves the session as it was, with the code
      still tracked; any other interruption goes on to close the transport. */
  lemma InterruptedWaitKeepsSession(a: Actor, capacity: nat)
    requires Healthy(a) && Enabled(capacity, a.core, Interrupt)
    ensures var b := Next(a, Interrupt, capacity);
            && b.core.client.state == a.core.client.state
            && (if IsAckWait(a.core.mode.job) then b.core.mode.Listening? && b.core.client.phase.Ready?
                else b.core.mode.Severing? && b.core.client.phase == S.Closing(false))
  {
    hide Described;
    InterruptDescribed(a, capacity);
    NextIsHealthy(a, Interrupt, capacity);
    assert Described(a, Interrupt, Next(a, Interrupt, capacity));
    ModeEffect(a, Interrupt, Next(a, Interrupt, capacity));
    InterruptKeepsState(a, Next(a, Interrupt, capacity));
  }

  lemma InterruptKeepsState(a: Actor, b: Actor)
    requires Described(a, Interrupt, b)
    ensures b.core.client.state == a.core.client.state && b.log.Noted? && b.log.note.interrupted.Some?
  {}

  ghost predicate Past(qs: seq<Queued>, cancels: nat) { forall q <- qs :: q.stamp <= cancels }

  ghost predicate Timely(a: Actor) { Past(a.core.queue, a.core.cancels) && Past(a.core.senders, a.core.cancels) }

  lemma NextKeepsTimely(a: Actor, e: Move, b: Actor)
    requires Timely(a) && Described(a, e, b)
    ensures Timely(b)
  {
    var c, d := a.core, b.core;
    assert d.cancels >= c.cancels;
    if e.Enqueue? { assert c.senders[e.index] in c.senders; }
    if c.queue != [] { assert forall q <- c.queue[1..] :: q in c.queue; }
    assert d.queue == c.queue || d.queue == [] || e.Enqueue? || (e.Take? && d.queue == c.queue[1..]);
  }

  lemma {:induction false} StampsArePast(events: seq<Move>, capacity: nat)
    requires Legal(events, capacity)
    ensures Timely(After(events, capacity))
    decreases |events|
  {
    hide Described, Healthy, Next;
    if events != [] {
      var front := events[..|events| - 1];
      var a, e := After(front, capacity), events[|events| - 1];
      RunIsHealthy(front, capacity);
      StampsArePast(front, capacity);
      NextDescribed(a, e, capacity);
      NextKeepsTimely(a, e, Next(a, e, capacity));
    }
  }

  /** In every run, a taken request is started exactly if no cancellation came after its
      stamp (before 2^64 of them did); a discarded one leaves the client untouched. */
  lemma DiscardedExactlyIfCancelled(events: seq<Move>, capacity: nat)
    requires Legal(events, capacity)
    requires var c := After(events, capacity).core;
             Enabled(capacity, c, Take) && c.cancels < c.queue[0].stamp + 0x1_0000_0000_0000_0000
    ensures var a := After(events, capacity);
            && Aligned(a.core)
            && var b := Next(a, Take, capacity);
            && b.log.note.taken == Some(a.core.queue[0])
            && (b.log.note.started <==> a.core.cancels == a.core.queue[0].stamp)
            && (!b.log.note.started ==> b.core.client == a.core.client)
  {
    hide After;
    var a := After(events, capacity);
    RunIsHealthy(events, capacity);
    StampsArePast(events, capacity);
    TakeDescribed(a, capacity);
    ModeEffect(a, Take, Next(a, Take, capacity));
    SameGeneration(a.core.queue[0].stamp, a.core.cancels);
  }

  lemma SameGeneration(stamp: nat, cancels: nat)
    requires stamp <= cancels < stamp + 0x1_0000_0000_0000_0000
    ensures stamp % 0x1_0000_0000_0000_0000 == cancels % 0x1_0000_0000_0000_0000 <==> stamp == cancels
  {}
}
