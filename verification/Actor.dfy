/** The actor that owns a client, as a machine over its atomic steps.

    Callers and the actor run concurrently: a caller stamps its request with the
    cancellation generation, waits for room in the queue and enqueues it; the actor
    takes requests one at a time, runs each as an operation of the session machine,
    and drops the running one when a cancellation arrives.  Every interleaving of
    these steps is a run. */
module ActorMachine {
  import opened Protocol
  import opened Session

  const GENERATIONS: nat := 0x1_0000_0000_0000_0000

  datatype Job = Operation(op: Op) | Shutdown

  /** A request.  `stamp` counts the cancellations before it was stamped; the code
      only has the stamp modulo 2^64, its generation. */
  datatype Queued = Queued(id: nat, job: Job, stamp: nat) {
    function Generation(): nat { stamp % GENERATIONS }
  }

  datatype Mode =
    | Listening                 // waiting for a command, a cancellation or a packet
    | Backoff                   // the same, resting after an idle read error
    | Working(job: Queued)      // an operation is running
    | Severing                  // closing the transport after an interruption
    | LastClose                 // the loop was left; closing the transport
    | Stopped

  datatype Result = Completed(answer: Answer) | ActorStopped

  datatype Response = Response(id: nat, result: Result)

  datatype Core = Core(
    client: Machine,
    mode: Mode,
    queue: seq<Queued>,
    senders: seq<Queued>,       // stamped, waiting for room in the queue
    requests: nat,              // requests made so far; also the next id
    cancels: nat,
    seen: nat,                  // cancellations the actor has noticed
    closed: bool)               // every handle was dropped

  /** What one step did. */
  datatype Note = Note(
    accepted: Option<Queued>,
    taken: Option<Queued>,
    started: bool,              // the taken request was started, not discarded
    session: State,             // the session when the step began
    cancels: nat,               // cancellations when the step began
    interrupted: Option<Queued>,
    finished: Option<Queued>,
    responses: seq<Response>)

  datatype Log = Nothing | Noted(past: Log, note: Note)

  datatype Actor = Actor(core: Core, log: Log)

  const Spawned: Actor := Actor(Core(Initial, Listening, [], [], 0, 0, 0, false), Nothing)

  datatype Move =
    | Stamp(job: Job)
    | Enqueue(index: nat)
    | Cancel
    | DropHandles
    | Take
    | HangUp
    | Notice
    | IdleRead(i: Input)
    | Wake
    | Resume(i: Input)
    | ShutdownTimeout
    | Interrupt
    | CloseAnswer(ok: bool)
    | CloseTimeout

  datatype Shift = Shift(core: Core, note: Note)

  // ---- the actor's own code ------------------------------------------------------

  function Respond(t: Shift, q: Queued, r: Result): Shift {
    t.(note := t.note.(responses := t.note.responses + [Response(q.id, r)]))
  }

  function Conclude(t: Shift, q: Queued, r: Result): Shift {
    var answered := Respond(t, q, r);
    answered.(note := answered.note.(finished := Some(q)))
  }

  function StoppedResponses(queue: seq<Queued>): (rs: seq<Response>)
    ensures |rs| == |queue|
    ensures forall k :: 0 <= k < |queue| ==> rs[k] == Response(queue[k].id, ActorStopped)
  {
    if queue == [] then [] else [Response(queue[0].id, ActorStopped)] + StoppedResponses(queue[1..])
  }

  /** The command receiver goes away: queued callers learn that the actor stopped. */
  function Stop(t: Shift): Shift {
    t.(core := t.core.(mode := Stopped, queue := []),
       note := t.note.(responses := t.note.responses + StoppedResponses(t.core.queue)))
  }

  /** Leaving the loop: one more bounded disconnect if the client is still connected. */
  function Leave(t: Shift): Shift
    requires t.core.client.phase.Ready?
  {
    if t.core.client.state.connected
    then t.(core := t.core.(client := Step(t.core.client, Start(Disconnect)), mode := LastClose))
    else Stop(t)
  }

  function Outcome(m: Machine): Result {
    if m.trace.Then? && m.trace.now.ending.Returned? then Completed(m.trace.now.ending.answer) else ActorStopped
  }

  /** The operation ended, or keeps running. */
  function Settle(t: Shift, q: Queued): Shift {
    if !t.core.client.phase.Ready? then t.(core := t.core.(mode := Working(q)))
    else
      var over := Conclude(t, q, Outcome(t.core.client));
      if q.job.Shutdown? then Leave(over) else over.(core := over.core.(mode := Listening))
  }

  predicate Runnable(job: Job) { job.Operation? ==> Callable(job.op) }

  function Launch(t: Shift, q: Queued): Shift
    requires t.core.client.phase.Ready? && Runnable(q.job)
  {
    match q.job
    case Operation(op) => Settle(t.(core := t.core.(client := Step(t.core.client, Start(op)))), q)
    case Shutdown =>
      if t.core.client.state.connected
      then t.(core := t.core.(client := Step(t.core.client, Start(Disconnect)), mode := Working(q)))
      else Leave(Conclude(t, q, Completed(Done)))
  }

  /** The head of the queue is started, or discarded if a cancellation came after it
      was stamped. */
  function TakeNext(t: Shift): Shift
    requires t.core.queue != [] && t.core.client.phase.Ready? && Runnable(t.core.queue[0].job)
  {
    var q := t.core.queue[0];
    var took := t.(core := t.core.(queue := t.core.queue[1..], seen := t.core.cancels),
                   note := t.note.(taken := Some(q)));
    if q.Generation() != t.core.cancels % GENERATIONS
    then Respond(took.(core := took.core.(mode := Listening)), q, ActorStopped)
    else Launch(took.(note := took.note.(started := true)), q)
  }

  /** The idle reader met an error but the connection is alive. */
  predicate NeedsRest(m: Machine) {
    m.state.connected && m.trace.Then? && m.trace.now.ending.Returned? && m.trace.now.ending.answer.Failed?
  }

  function ReadIdly(t: Shift, i: Input): Shift
    requires t.core.client.phase.Ready? && t.core.client.state.connected && Allowed(Idling, i) && !i.Drop?
  {
    var client := Step(Step(t.core.client, Start(NextEvent)), i);
    t.(core := t.core.(client := client, mode := if NeedsRest(client) then Backoff else Listening))
  }

  /** The running operation is dropped; unless it was an acknowledgement wait, the
      transport may have seen half of it and is closed. */
  function BreakOff(t: Shift, q: Queued): Shift
    requires Allowed(t.core.client.phase, Drop)
  {
    var dropped := Step(t.core.client, Drop);
    var broken := Respond(t, q, ActorStopped);
    var marked := broken.(note := broken.note.(interrupted := Some(q)));
    if q.job.Operation? && q.job.op.WaitForAck?
    then marked.(core := t.core.(client := dropped, seen := t.core.cancels, mode := Listening))
    else marked.(core := t.core.(client := Step(dropped, Start(Disconnect)), seen := t.core.cancels, mode := Severing))
  }

  // ---- steps ----------------------------------------------------------------------------

  predicate Attentive(mode: Mode) { mode.Listening? || mode.Backoff? }

  predicate Enabled(capacity: nat, c: Core, e: Move) {
    match e
    case Stamp(job) => !c.closed && Runnable(job)
    case Enqueue(index) => index < |c.senders| && (c.mode.Stopped? || |c.queue| < capacity)
    case Cancel => !c.closed
    case DropHandles => c.senders == []
    case Take => Attentive(c.mode) && c.queue != []
    case HangUp => Attentive(c.mode) && c.queue == [] && c.closed
    case Notice => Attentive(c.mode) && c.seen != c.cancels
    case IdleRead(i) => c.mode.Listening? && c.client.state.connected && Allowed(Idling, i) && !i.Drop?
    case Wake => c.mode.Backoff?
    case Resume(i) => c.mode.Working? && Allowed(c.client.phase, i) && !i.Drop?
    case ShutdownTimeout => c.mode.Working? && c.mode.job.job.Shutdown?
    case Interrupt => c.mode.Working? && c.seen != c.cancels && !c.client.phase.Draining?
    case CloseAnswer(_) => c.mode.Severing? || c.mode.LastClose?
    case CloseTimeout => c.mode.Severing? || c.mode.LastClose?
  }

  /** The client is between operations exactly when the actor is not running one. */
  predicate Aligned(c: Core) {
    && (match c.mode
        case Working(q) =>
          && !c.client.phase.Ready? && Runnable(q.job)
          && (q.job.Shutdown? ==> c.client.phase == Closing(false))
        case Severing => c.client.phase == Closing(false)
        case LastClose => c.client.phase == Closing(false)
        case _ => c.client.phase.Ready?)
    && (forall q <- c.queue :: Runnable(q.job))
    && (forall q <- c.senders :: Runnable(q.job))
  }

  function Removed<T>(s: seq<T>, k: nat): seq<T>
    requires k < |s|
  {
    s[..k] + s[k + 1..]
  }

  function Act(t: Shift, e: Move, capacity: nat): Shift
    requires Aligned(t.core) && Enabled(capacity, t.core, e)
  {
    var c := t.core;
    match e
    case Stamp(job) =>
      t.(core := c.(senders := c.senders + [Queued(c.requests, job, c.cancels)], requests := c.requests + 1))
    case Enqueue(index) =>
      var q := c.senders[index];
      var sent := t.(core := c.(senders := Removed(c.senders, index)));
      if c.mode.Stopped? then Respond(sent, q, ActorStopped)
      else sent.(core := sent.core.(queue := c.queue + [q]), note := sent.note.(accepted := Some(q)))
    case Cancel => t.(core := c.(cancels := c.cancels + 1))
    case DropHandles => t.(core := c.(closed := true))
    case Take => TakeNext(t)
    case HangUp => Leave(t)
    case Notice => t.(core := c.(seen := c.cancels, mode := Listening))
    case IdleRead(i) => ReadIdly(t, i)
    case Wake => t.(core := c.(mode := Listening))
    case Resume(i) => Settle(t.(core := c.(client := Step(c.client, i))), c.mode.job)
    case ShutdownTimeout =>
      Leave(Conclude(t.(core := c.(client := Step(c.client, Drop))), c.mode.job, Completed(Failed(TimedOut))))
    case Interrupt => BreakOff(t, c.mode.job)
    case CloseAnswer(ok) =>
      var shut := t.(core := c.(client := Step(c.client, CloseDone(ok))));
      if c.mode.Severing? then shut.(core := shut.core.(mode := Listening)) else Stop(shut)
    case CloseTimeout =>
      var shut := t.(core := c.(client := Step(c.client, Drop)));
      if c.mode.Severing? then Leave(shut) else Stop(shut)
  }

  function Poised(a: Actor): Shift {
    Shift(a.core, Note(None, None, false, a.core.client.state, a.core.cancels, None, None, []))
  }

  function Next(a: Actor, e: Move, capacity: nat): Actor
    requires Aligned(a.core) && Enabled(capacity, a.core, e)
  {
    var t := Act(Poised(a), e, capacity);
    Actor(t.core, Noted(a.log, t.note))
  }

  // ---- runs --------------------------------------------------------------------------------

  predicate Legal(events: seq<Move>, capacity: nat)
    decreases |events|, 1
  {
    if events == [] then true
    else
      var front := events[..|events| - 1];
      && Legal(front, capacity)
      && Aligned(After(front, capacity).core)
      && Enabled(capacity, After(front, capacity).core, events[|events| - 1])
  }

  function After(events: seq<Move>, capacity: nat): Actor
    requires Legal(events, capacity)
    decreases |events|
  {
    if events == [] then Spawned
    else Next(After(events[..|events| - 1], capacity), events[|events| - 1], capacity)
  }
}
