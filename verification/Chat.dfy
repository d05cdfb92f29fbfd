/** Line chat: keeping the count of announced reconnects aligned with the unread events,
    and never submitting a message the user did not ask for.

    The device, the workflow hooks and the terminal are an oracle: every await takes the
    next `Reply`, which also carries the events that arrive meanwhile. */
module ChatSession {
  import opened Protocol

  const EVENT_CAPACITY: nat := 256
  const RECONNECT_ATTEMPTS: nat := 3

  datatype Target = ChannelTarget(index: nat) | ContactTarget(name: string, prefix: seq<nat>)

  datatype Draft = Draft(target: Target, text: string)

  datatype Line =
    | Blank | Help | Quit | Contacts | History | Malformed
    | To(query: string)
    | Channel(index: nat)
    | Send                 // submit the retained draft again
    | Discard              // drop the retained draft
    | Say(text: string)

  /** Where a prepared message goes: a channel index, or a contact to look up. */
  datatype Destination = OnChannel(index: nat) | ByContact(query: string)

  datatype SendResult = Accepted(tracked: bool) | LinkLost | Rejected

  /** What an await yields.  `Failure` stands for every error that ends the chat, including
      an interrupt; a result of the wrong kind counts as one too. */
  datatype Result =
    | Done
    | Prepared(destination: Destination, text: string)
    | Listed(resolved: Option<Target>)
    | Sent(result: SendResult)
    | Acknowledged | Expired
    | Dropped                                      // an error that calls for a reconnect
    | LinkUp
    | LinkFailed(late: bool, retryable: bool)      // a failed attempt, late if after the link was up
    | Synced(message: bool)
    | Failure

  /** What an await is for. */
  datatype Call =
    | Hook                                       // a hook, a delay or a write to the terminal
    | Preparing
    | Listing(again: bool, required: bool)       // repeated after a reconnect; must resolve
    | Sending
    | Acknowledging
    | Linking
    | Syncing

  /** A result of the wrong kind counts as a failure. */
  function Fitting(c: Call, r: Result): Result {
    match c
    case Hook => if r.Done? then r else Failure
    case Preparing => if r.Prepared? then r else Failure
    case Listing(_, _) => if r.Listed? || r.Dropped? then r else Failure
    case Sending => if r.Sent? then r else Failure
    case Acknowledging => if r.Acknowledged? || r.Expired? || r.Dropped? then r else Failure
    case Linking => if r.LinkUp? || r.LinkFailed? then r else Failure
    case Syncing => if r.Synced? || r.Dropped? then r else Failure
  }

  /** Results that end the chat: a failure, a second loss of the link during one lookup, a
      message that cannot be resolved or is rejected, a link that cannot be retried, and the
      third failed attempt in a row. */
  predicate Fatal(c: Call, r: Result, tries: nat) {
    || r.Failure?
    || (c.Listing? && r.Dropped? && c.again)
    || (c.Listing? && r.Listed? && r.resolved.None? && c.required)
    || r == Sent(Rejected)
    || (c.Linking? && r.LinkFailed? && (!r.retryable || tries + 1 == 3))
  }

  /** Results that call for a reconnect. */
  predicate Loss(c: Call, r: Result) {
    || (c.Listing? && r.Dropped? && !c.again)
    || (c.Acknowledging? && r.Dropped?)
    || r == Sent(LinkLost)
  }

  /** Only a reconnect publishes `Connected`. */
  type Unsolicited = e: Event | e != Connected witness Disconnected

  datatype Reply = Reply(arriving: seq<Unsolicited>, result: Result)

  /** One turn of the select loop: an interrupt, or events arriving and perhaps a line. */
  datatype Wake = Interrupt | Ready(arriving: seq<Unsolicited>, line: Option<Line>)

  /** What the loop finds when it wakes. */
  datatype Turn = Stopped | Eventful | Typed(line: Line) | Quiet

  /** The events that arrive; a link that is down cannot fall. */
  function Landed(arriving: seq<Unsolicited>, up: bool): seq<Event> {
    if arriving == [] then []
    else if arriving[0] != Disconnected then [arriving[0]] + Landed(arriving[1..], up)
    else if up then [Disconnected] + Landed(arriving[1..], false)
    else Landed(arriving[1..], false)
  }

  function StaysUp(arriving: seq<Unsolicited>, up: bool): bool { up && Disconnected !in arriving }

  datatype Flow = Continue | Leave | SessionReconnected(count: nat) | Failed

  function Reconnects(flow: Flow): nat { if flow.SessionReconnected? then flow.count else 0 }

  // ---- history ------------------------------------------------------------------------

  datatype Note =
    | Took(line: Line)
    | Prepares(destination: Destination, text: string)
    | Lists(resolved: Option<Target>)
    | Submitted(draft: Draft, result: SendResult)
    | Reads(event: Event, behind: nat, reconnecting: bool, sound: bool)
    | Lag

  datatype Log = Nothing | Noted(past: Log, note: Note)

  function Connecteds(queue: seq<Event>): nat {
    if queue == [] then 0 else (if queue[0] == Connected then 1 else 0) + Connecteds(queue[1..])
  }

  lemma {:induction false} ConnectedsAppend(queue: seq<Event>, e: Event)
    ensures Connecteds(queue + [e]) == Connecteds(queue) + if e == Connected then 1 else 0
  {
    if queue == [] {
      assert queue + [e] == [e];
    } else {
      ConnectedsAppend(queue[1..], e);
      assert (queue + [e])[1..] == queue[1..] + [e];
    }
  }

  /** The draft the history calls for keeping: the last submission, if it failed with a
      reconnectable error and was neither sent again nor discarded since. */
  ghost function RetainedBy(log: Log): Option<Draft> {
    match log
    case Nothing => None
    case Noted(past, note) =>
      match note
      case Submitted(draft, result) => if result == LinkLost then Some(draft) else None
      case Took(line) => if line == Send || line == Discard then None else RetainedBy(past)
      case _ => RetainedBy(past)
  }

  /** May `draft` be submitted now?  Either the user has just asked for the retained draft,
      or has just written a message while none was retained, and the draft is that message
      as prepared and resolved. */
  ghost predicate Requested(log: Log, draft: Draft) {
    log.Noted? &&
    match log.note
    case Took(line) => line == Send && RetainedBy(log.past) == Some(draft)
    case Prepares(destination, text) =>
      && destination.OnChannel? && Composing(log.past)
      && draft == Draft(ChannelTarget(destination.index), text)
    case Lists(resolved) =>
      && log.past.Noted? && log.past.note.Prepares? && log.past.note.destination.ByContact?
      && Composing(log.past.past) && resolved.Some? && draft == Draft(resolved.value, log.past.note.text)
    case _ => false
  }

  ghost predicate Composing(log: Log) {
    log.Noted? && log.note.Took? && log.note.line.Say? && RetainedBy(log.past) == None
  }

  ghost predicate Justified(log: Log) {
    match log
    case Nothing => true
    case Noted(past, note) => Justified(past) && (note.Submitted? ==> Requested(past, note.draft))
  }

  /** A `Disconnected` starts a reconnect exactly when no completed reconnect is still
      announced behind it. */
  ghost predicate WellReconnected(log: Log) {
    match log
    case Nothing => true
    case Noted(past, note) =>
      && WellReconnected(past)
      && (note.Reads? && note.sound && note.event == Disconnected ==> (note.reconnecting <==> note.behind == 0))
      && (note.Reads? && note.event != Disconnected ==> !note.reconnecting)
      && (note.Reads? && LagFree(past) ==> note.sound)
  }

  ghost predicate LagFree(log: Log) { log.Noted? ==> log.note != Lag && LagFree(log.past) }

  ghost function LinesTaken(log: Log): seq<Line> {
    if log.Nothing? then [] else LinesTaken(log.past) + if log.note.Took? then [log.note.line] else []
  }

  ghost function EventsRead(log: Log): nat {
    if log.Nothing? then 0 else EventsRead(log.past) + if log.note.Reads? || log.note.Lag? then 1 else 0
  }

  function LinesOf(turns: seq<Turn>): seq<Line> {
    if turns == [] then []
    else
      var last := turns[|turns| - 1];
      LinesOf(turns[..|turns| - 1]) + if last.Typed? then [last.line] else []
  }

  function EventTurns(turns: seq<Turn>): nat {
    if turns == [] then 0 else EventTurns(turns[..|turns| - 1]) + if turns[|turns| - 1].Eventful? then 1 else 0
  }

  lemma TurnsGrow(turns: seq<Turn>, t: Turn)
    ensures LinesOf(turns + [t]) == LinesOf(turns) + if t.Typed? then [t.line] else []
    ensures EventTurns(turns + [t]) == EventTurns(turns) + if t.Eventful? then 1 else 0
  {
    assert (turns + [t])[..|turns|] == turns;
  }

  /** Whether the link is up, by the last of these events that says so. */
  function LinkAlive(events: seq<Event>): bool {
    if events == [] then true
    else
      var last := events[|events| - 1];
      if last == Connected then true else if last == Disconnected then false else LinkAlive(events[..|events| - 1])
  }

  lemma LinkAliveAppend(events: seq<Event>, e: Event)
    ensures LinkAlive(events + [e]) ==
            if e == Connected then true else if e == Disconnected then false else LinkAlive(events)
  {
    assert (events + [e])[..|events|] == events;
  }

  lemma Silence()
    ensures LinkAlive([]) && Connecteds([]) == 0
  {
  }

  lemma SliceGrows(events: seq<Event>, from: nat, to: nat)
    requires from <= to < |events|
    ensures events[from..to + 1] == events[from..to] + [events[to]]
  {
  }

  /** The queue holds the latest events, in the order they were published. */
  ghost predicate Ordered(queue: seq<Event>, published: seq<Event>) {
    |queue| <= |published| && queue == published[|published| - |queue|..]
  }

  /** What the outside has done: every event published, link losses and fatal results
      reported, and failed attempts since the link was last up. */
  datatype World = World(published: seq<Event>, losses: nat, trouble: bool, tries: nat)

  // ---- consequences ------------------------------------------------------------------------

  ghost function Submissions(log: Log): nat {
    if log.Nothing? then 0 else Submissions(log.past) + if log.note.Submitted? then 1 else 0
  }

  ghost function Requests(log: Log): nat {
    if log.Nothing? then 0
    else Requests(log.past) + if log.note.Took? && (log.note.line.Say? || log.note.line == Send) then 1 else 0
  }

  /** A request not yet followed by a submission. */
  ghost predicate Unspent(log: Log) {
    log.Noted? &&
    match log.note
    case Took(line) => line.Say? || line == Send
    case Submitted(_, _) => false
    case _ => Unspent(log.past)
  }

  /** Submissions never outnumber the messages and /send lines of the user. */
  lemma {:induction false} NoSelfReplay(log: Log)
    requires Justified(log)
    ensures Submissions(log) + (if Unspent(log) then 1 else 0) <= Requests(log)
  {
    if log.Noted? {
      NoSelfReplay(log.past);
      if log.note.Submitted? { RequestedIsUnspent(log.past, log.note.draft); }
    }
  }

  lemma {:induction false} RequestedIsUnspent(log: Log, draft: Draft)
    requires Requested(log, draft)
    ensures Unspent(log)
    ensures !log.note.Took? ==> LatestLine(log).Say? && RetainedBy(BeforeLine(log)) == None
  {
    if log.note.Lists? {
      assert Unspent(log.past.past);
      assert BeforeLine(log.past) == BeforeLine(log.past.past);
      assert LatestLine(log.past) == LatestLine(log.past.past);
      assert Unspent(log.past);
    }
  }

  /** A line the session has to submit something for: a message while nothing is retained,
      or /send while something is. */
  ghost predicate CallsFor(past: Log, line: Line) {
    (line.Say? && RetainedBy(past) == None) || (line == Send && RetainedBy(past).Some?)
  }

  /** The last line calls for a submission that has not been made. */
  ghost predicate Owing(log: Log) {
    log.Noted? &&
    match log.note
    case Took(line) => CallsFor(log.past, line)
    case Submitted(_, _) => false
    case _ => Owing(log.past)
  }

  /** No line was taken, and no event read, while a submission was owing. */
  ghost predicate Served(log: Log) {
    log.Noted? ==> Served(log.past) && (log.note.Took? || log.note.Reads? || log.note == Lag ==> !Owing(log.past))
  }

  ghost function Calls(log: Log): nat {
    if log.Nothing? then 0
    else Calls(log.past) + if log.note.Took? && CallsFor(log.past, log.note.line) then 1 else 0
  }

  /** Every line that calls for a submission gets exactly one: what was submitted is
      what was asked for, no less and no more. */
  lemma {:induction false} SubmittedExactlyAsAsked(log: Log)
    requires Justified(log) && Served(log)
    ensures Submissions(log) + (if Owing(log) then 1 else 0) == Calls(log)
  {
    if log.Noted? {
      SubmittedExactlyAsAsked(log.past);
      if log.note.Submitted? { RequestedIsOwing(log.past, log.note.draft); }
    }
  }

  lemma {:induction false} RequestedIsOwing(log: Log, draft: Draft)
    requires Requested(log, draft)
    ensures Owing(log)
  {
    if log.note.Lists? {
      assert Owing(log.past.past);
      assert Owing(log.past);
    }
  }

  ghost function LastSubmission(log: Log): Option<Note> {
    if log.Nothing? then None else if log.note.Submitted? then Some(log.note) else LastSubmission(log.past)
  }

  /** What is retained is the last submission, verbatim, and that one failed reconnectably. */
  lemma {:induction false} RetainedIsLastFailure(log: Log)
    requires RetainedBy(log).Some?
    ensures LastSubmission(log) == Some(Submitted(RetainedBy(log).value, LinkLost))
  {
    if !log.note.Submitted? { RetainedIsLastFailure(log.past); }
  }

  ghost function BeforeLine(log: Log): Log {
    if log.Nothing? then Nothing else if log.note.Took? then log.past else BeforeLine(log.past)
  }

  ghost function LatestLine(log: Log): Line {
    if log.Nothing? then Blank else if log.note.Took? then log.note.line else LatestLine(log.past)
  }

  /** Every submission is a message written while nothing was retained, or the /send of
      exactly what failed last. */
  lemma SubmissionIsNewOrVerbatim(log: Log, draft: Draft)
    requires Requested(log, draft)
    ensures var before := BeforeLine(log);
      || (LatestLine(log).Say? && RetainedBy(before) == None)
      || (LatestLine(log) == Send && LastSubmission(before) == Some(Submitted(draft, LinkLost)))
  {
    RequestedIsUnspent(log, draft);
    if log.note.Took? { RetainedIsLastFailure(log.past); }
  }

  /** Exactly one submission was added, of this draft. */
  ghost predicate SubmittedSince(before: Log, log: Log, draft: Draft) {
    log.Noted? && log.past == before && log.note.Submitted? && log.note.draft == draft
  }

  // ---- the session -----------------------------------------------------------------------------

  class Chat {
    var target: Target
    var retained: Option<Draft>
    var pendingConfirmations: nat
    var queue: seq<Event>          // published and not yet read
    var lagged: bool               // the receiver lost events since its last read
    var connected: bool
    var replies: seq<Reply>
    var wakes: seq<Wake>
    ghost var log: Log
    ghost var world: World
    ghost var turns: seq<Turn>
    ghost var owed: nat            // reconnects made but not yet counted
    ghost var started: nat         // reconnects begun
    ghost var sound: bool          // nothing was lost that the count does not know of

    ghost predicate Counting()
      reads this
    {
      && |queue| <= EVENT_CAPACITY
      && (sound ==> pendingConfirmations + owed == Connecteds(queue))
      && (LagFree(log) && !lagged ==> sound)
      && Ordered(queue, world.published)
    }

    ghost predicate Recorded()
      reads this
    {
      Justified(log) && WellReconnected(log) && Served(log)
    }

    /** Between two turns of the loop. */
    ghost predicate AtRest()
      reads this
    {
      && Counting() && Recorded() && owed == 0 && retained == RetainedBy(log) && !Owing(log)
      && !world.trouble && world.tries == 0
    }

    /** Every turn was acted on: lines in the order they came, events one by one. */
    ghost predicate InStep()
      reads this
    {
      LinesTaken(log) == LinesOf(turns) && EventsRead(log) == EventTurns(turns)
    }

    /** How many of the published events are no longer in the queue. */
    ghost function Position(): int
      reads this
    {
      |world.published| - |queue|
    }

    constructor (target: Target, queue: seq<Event>, lagged: bool, connected: bool, replies: seq<Reply>,
                 wakes: seq<Wake>)
      requires |queue| <= 256
      ensures Counting() && Recorded() && retained == RetainedBy(log) && log == Nothing && InStep()
      ensures this.queue == queue && this.wakes == wakes && this.replies == replies && pendingConfirmations == 0
      ensures !world.trouble && world.tries == 0
    {
      this.target, this.retained, this.pendingConfirmations := target, None, 0;
      this.queue, this.lagged, this.connected := queue, lagged, connected;
      this.replies, this.wakes := replies, wakes;
      this.log, this.owed, this.started, this.sound := Nothing, Connecteds(queue), 0, !lagged;
      this.world, this.turns := World(queue, 0, false, 0), [];
    }

    // ---- events ------------------------------------------------------------------------

    /** Publishes one event; a full channel drops its oldest. */
    method Publish(e: Event)
      requires Counting()
      modifies `queue, `lagged, `sound, `owed, `world
      ensures Counting() && owed == old(owed) + if e == Connected then 1 else 0
      ensures world == old(world).(published := old(world.published) + [e])
      ensures !lagged ==> Connecteds(queue) == old(Connecteds(queue)) + if e == Connected then 1 else 0
      ensures |old(queue)| < 256 ==>
                queue == old(queue) + [e] && unchanged(`lagged, `sound) && Position() == old(Position())
      ensures |old(queue)| == 256 ==> queue == old(queue)[1..] + [e] && lagged && !sound
    {
      ConnectedsAppend(queue, e);
      if e == Connected { owed := owed + 1; }
      if |queue| == EVENT_CAPACITY {
        queue, lagged, sound := queue[1..], true, false;
      }
      queue := queue + [e];
      world := world.(published := world.published + [e]);
    }

    /** Events of the device, in order. */
    method Arrive(arriving: seq<Unsolicited>)
      requires Counting()
      modifies `queue, `lagged, `sound, `owed, `connected, `world
      ensures Counting() && owed == old(owed) && connected == StaysUp(arriving, old(connected))
      ensures world == old(world).(published := old(world.published) + Landed(arriving, old(connected)))
      ensures !lagged ==> !old(lagged) && Position() == old(Position())
      ensures !lagged ==> Connecteds(queue) == old(Connecteds(queue))
    {
      hide Ordered, Connecteds;
      ghost var all := Landed(arriving, connected);
      assert old(world.published) + all == world.published + Landed(arriving[0..], connected);
      for i := 0 to |arriving|
        invariant Counting() && owed == old(owed)
        invariant connected == (old(connected) && Disconnected !in arriving[..i])
        invariant old(world.published) + all == world.published + Landed(arriving[i..], connected)
        invariant world == old(world).(published := world.published)
        invariant !lagged ==> !old(lagged) && Position() == old(Position())
        invariant !lagged ==> Connecteds(queue) == old(Connecteds(queue))
      {
        ghost var rest := arriving[i..];
        assert rest[0] == arriving[i] && rest[1..] == arriving[i + 1..];
        assert arriving[..i + 1] == arriving[..i] + [arriving[i]];
        if arriving[i] != Disconnected {
          Publish(arriving[i]);
        } else if connected {
          connected := false;
          Publish(Disconnected);
        }
      }
      assert arriving[..|arriving|] == arriving && arriving[|arriving|..] == [];
    }

    /** The answer of the outside to an await, and what happens meanwhile. */
    method Ask(c: Call) returns (r: Result)
      requires Counting()
      modifies `queue, `lagged, `sound, `owed, `connected, `replies, `world
      ensures Counting() && owed == old(owed) && (!lagged ==> !old(lagged) && Position() == old(Position()))
      ensures old(replies) == [] ==> r == Failure && replies == [] && connected == old(connected)
      ensures old(replies) != [] ==>
                && r == Fitting(c, old(replies)[0].result) && replies == old(replies)[1..]
                && connected == StaysUp(old(replies)[0].arriving, old(connected))
      ensures world == World(
                old(world.published) +
                (if old(replies) == [] then [] else Landed(old(replies)[0].arriving, old(connected))),
                old(world.losses) + if Loss(c, r) then 1 else 0,
                old(world.trouble) || Fatal(c, r, old(world.tries)),
                if !c.Linking? then old(world.tries) else if r.LinkUp? then 0 else old(world.tries) + 1)
      ensures !lagged ==> Connecteds(queue) == old(Connecteds(queue))
    {
      hide Ordered, Connecteds, Landed;
      r := Failure;
      assert world.published + [] == world.published;
      if replies != [] {
        var reply := replies[0];
        replies := replies[1..];
        Arrive(reply.arriving);
        r := Fitting(c, reply.result);
      }
      world := world.(
        losses := world.losses + if Loss(c, r) then 1 else 0,
        trouble := world.trouble || Fatal(c, r, world.tries),
        tries := if !c.Linking? then world.tries else if r.LinkUp? then 0 else world.tries + 1);
    }

    /** A hook, a delay or a write to the terminal. */
    method Proceed() returns (ok: bool)
      requires Counting() && !world.trouble
      modifies `queue, `lagged, `sound, `owed, `connected, `replies, `world
      ensures Counting() && owed == old(owed) && (!lagged ==> !old(lagged) && Position() == old(Position()))
      ensures ok <==> !world.trouble
      ensures world.losses == old(world.losses) && world.tries == old(world.tries)
      ensures !lagged ==> Connecteds(queue) == old(Connecteds(queue))
      ensures old(world.published) <= world.published
      ensures |replies| <= |old(replies)| && (ok ==> |replies| < |old(replies)|)
    {
      hide Ordered, Connecteds, Landed;
      var r := Ask(Hook);
      ok := r != Failure;
    }

    // ---- reconnecting --------------------------------------------------------------------

    /** One attempt of the client: it marks itself disconnected, announcing it if it was
        connected; a link that comes up is announced, and so is one that falls again
        before the session is restored. */
    method Attempt() returns (r: Result)
      requires Counting() && !world.trouble
      modifies `queue, `lagged, `sound, `owed, `connected, `replies, `world
      ensures Counting() && owed == old(owed) + if r == LinkUp then 1 else 0
      ensures r.LinkUp? || r.LinkFailed? || r.Failure?
      ensures connected == r.LinkUp? && (world.trouble <==> Fatal(Linking, r, old(world.tries)))
      ensures world.losses == old(world.losses) && world.tries == if r.LinkUp? then 0 else old(world.tries) + 1
      ensures world.published ==
              old(world.published) + (if old(connected) then [Disconnected] else []) +
              (if old(replies) == [] then [] else Landed(old(replies)[0].arriving, false)) +
              (if r.LinkUp? then [Connected] else if r.LinkFailed? && r.late then [Disconnected] else [])
    {
      hide Ordered, Connecteds, Landed;
      if connected {
        connected := false;
        Publish(Disconnected);
      }
      r := Ask(Linking);
      if r == LinkUp {
        connected := true;
        Publish(Connected);
      } else if r.LinkFailed? && r.late {
        Publish(Disconnected);
      }
    }

    method ReconnectDevice() returns (ok: bool)
      requires Counting() && !world.trouble && world.tries == 0
      modifies `queue, `lagged, `sound, `owed, `connected, `replies, `world
      ensures Counting() && owed == old(owed) + if ok then 1 else 0
      ensures (ok <==> !world.trouble) && (ok ==> connected && world.tries == 0)
      ensures world.losses == old(world.losses)
    {
      hide Ordered, Connecteds, Landed;
      for attempt := 0 to RECONNECT_ATTEMPTS
        invariant Counting() && owed == old(owed) && !world.trouble && world.tries == attempt < 3
        invariant world.losses == old(world.losses)
      {
        if attempt > 0 {
          var waited := Proceed();
          if !waited { return false; }
        }
        var r := Attempt();
        if r == LinkUp { return true; }
        if !(r.LinkFailed? && r.retryable && attempt + 1 < RECONNECT_ATTEMPTS) { return false; }
      }
      ok := false;
    }

    /** Restores the session, unless a hook fails, the attempts do or the user interrupts. */
    method ReconnectSession() returns (ok: bool)
      requires Counting() && !world.trouble && world.tries == 0
      modifies `queue, `lagged, `sound, `owed, `connected, `replies, `world, `started
      ensures Counting() && (ok ==> owed == old(owed) + 1) && started == old(started) + 1
      ensures (ok <==> !world.trouble) && (ok ==> world.tries == 0)
      ensures world.losses == old(world.losses)
    {
      started := started + 1;
      ok := Proceed();
      if !ok { return; }
      ok := ReconnectDevice();
      if !ok { return; }
      ok := Proceed();
    }

    // ---- lines ---------------------------------------------------------------------------

    /** Reconnects were begun exactly for the losses reported. */
    twostate predicate Matched()
      reads this
    {
      started - old(started) == world.losses - old(world.losses)
    }

    method ListContacts(required: bool) returns (resolved: Option<Option<Target>>, reconnected: bool)
      requires Counting() && Recorded() && !world.trouble && world.tries == 0
      modifies `queue, `lagged, `sound, `owed, `connected, `replies, `log, `world, `started
      ensures Counting() && Recorded() && RetainedBy(log) == old(RetainedBy(log))
      ensures Owing(log) == old(Owing(log)) && Submissions(log) == old(Submissions(log))
      ensures LinesTaken(log) == old(LinesTaken(log)) && EventsRead(log) == old(EventsRead(log))
      ensures Matched()
      ensures resolved.Some? && (required ==> resolved.value.Some?) <==> !world.trouble
      ensures resolved.Some? ==> log == Noted(old(log), Lists(resolved.value)) && world.tries == 0
      ensures resolved.Some? ==>
                owed - old(owed) == started - old(started) == if reconnected then 1 else 0
    {
      hide Ordered, Connecteds, Landed, StaysUp;
      reconnected := false;
      resolved := None;
      var r := Ask(Listing(false, required));
      if r == Dropped {
        var ok := ReconnectSession();
        if !ok { return; }
        reconnected := true;
        r := Ask(Listing(true, required));
      }
      if r.Listed? {
        log := Noted(log, Lists(r.resolved));
        resolved := Some(r.resolved);
      }
    }

    /** The acknowledgement of an accepted message. */
    method AwaitAck() returns (ok: bool, reconnected: bool)
      requires Counting() && !world.trouble && world.tries == 0
      modifies `queue, `lagged, `sound, `owed, `connected, `replies, `world, `started
      ensures Counting() && (ok ==> owed == old(owed) + if reconnected then 1 else 0)
      ensures Matched() && started == old(started) + (if reconnected then 1 else 0)
      ensures (ok <==> !world.trouble) && (ok ==> world.tries == 0)
    {
      hide Ordered, Connecteds, Landed, StaysUp;
      var r := Ask(Acknowledging);
      reconnected := false;
      ok := true;
      if r == Acknowledged || r == Expired {
        ok := Proceed();
      } else if r == Dropped {
        reconnected := true;
        ok := ReconnectSession();
      } else {
        ok := false;
      }
    }

    method SendMessage(draft: Draft) returns (result: SendResult)
      requires Counting() && Recorded() && Requested(log, draft) && !world.trouble
      modifies `queue, `lagged, `sound, `owed, `connected, `replies, `log, `world
      ensures Counting() && Recorded() && owed == old(owed)
      ensures log == Noted(old(log), Submitted(draft, result))
      ensures (result == Rejected <==> world.trouble) && world.tries == old(world.tries)
      ensures world.losses == old(world.losses) + if result == LinkLost then 1 else 0
    {
      hide Ordered, Connecteds, Landed, StaysUp;
      var r := Ask(Sending);
      result := if r.Sent? then r.result else Rejected;
      log := Noted(log, Submitted(draft, result));
    }

    method SubmitDraft(draft: Draft) returns (flow: Flow)
      requires Counting() && Recorded() && retained == None && Requested(log, draft)
      requires !world.trouble && world.tries == 0
      modifies `queue, `lagged, `sound, `owed, `connected, `replies, `log, `world, `retained, `started
      ensures Counting() && Recorded() && flow != Leave && Matched()
      ensures flow == Failed <==> world.trouble
      ensures retained.Some? ==> retained == RetainedBy(log)
      ensures flow != Failed ==> owed == old(owed) + Reconnects(flow) && retained == RetainedBy(log)
      ensures flow != Failed ==> SubmittedSince(old(log), log, draft) && world.tries == 0
      ensures flow != Failed ==> started == old(started) + Reconnects(flow)
    {
      hide Ordered, Connecteds, Fatal, Loss, Fitting;
      var ok := Proceed();
      if !ok { return Failed; }
      var result := SendMessage(draft);
      match result
      case Accepted(tracked) =>
        ok := Proceed();
        if !ok { return Failed; }
        if !tracked { return Continue; }
        var acknowledged, reconnected := AwaitAck();
        if !acknowledged { return Failed; }
        ok := Proceed();
        if !ok { return Failed; }
        flow := if reconnected then SessionReconnected(1) else Continue;
      case LinkLost =>
        ok := ReconnectSession();
        if !ok { return Failed; }
        retained := Some(draft);
        ok := Proceed();
        flow := if ok then SessionReconnected(1) else Failed;
      case Rejected =>
        flow := Failed;
    }

    /** Where a prepared message goes, looking the contact up if need be. */
    method Resolve(destination: Destination, text: string) returns (target: Option<Target>, reconnected: bool)
      requires Counting() && Recorded() && !world.trouble && world.tries == 0
      requires log.Noted? && log.note == Prepares(destination, text) && Composing(log.past)
      modifies `queue, `lagged, `sound, `owed, `connected, `replies, `log, `world, `started
      ensures Counting() && Recorded() && RetainedBy(log) == old(RetainedBy(log)) && Matched()
      ensures Submissions(log) == old(Submissions(log))
      ensures LinesTaken(log) == old(LinesTaken(log)) && EventsRead(log) == old(EventsRead(log))
      ensures target.Some? <==> !world.trouble
      ensures target.Some? ==> Requested(log, Draft(target.value, text)) && world.tries == 0
      ensures target.Some? ==>
                owed - old(owed) == started - old(started) == if reconnected then 1 else 0
    {
      hide Ordered, Connecteds, Fatal, Loss, Fitting;
      if destination.OnChannel? { return Some(ChannelTarget(destination.index)), false; }
      var resolved;
      resolved, reconnected := ListContacts(true);
      target := if resolved.Some? then resolved.value else None;
    }

    /** A line that is a message: refused while a draft is retained. */
    method Compose(text: string) returns (flow: Flow)
      requires Counting() && Recorded() && retained == RetainedBy(log) && log.Noted? && log.note == Took(Say(text))
      requires !world.trouble && world.tries == 0
      modifies `queue, `lagged, `sound, `owed, `connected, `replies, `log, `world, `retained, `started
      ensures Counting() && Recorded() && flow != Leave && Matched()
      ensures flow == Failed <==> world.trouble
      ensures retained.Some? ==> retained == RetainedBy(log)
      ensures flow != Failed ==> owed == old(owed) + Reconnects(flow) && retained == RetainedBy(log)
      ensures flow != Failed ==> started == old(started) + Reconnects(flow) && world.tries == 0
      ensures old(retained).Some? ==> log == old(log) && retained == old(retained)
      ensures flow != Failed ==> !Owing(log)
      ensures flow != Failed && old(retained).None? ==>
                Submissions(log) == old(Submissions(log)) + 1 && log.note.Submitted?
      ensures LinesTaken(log) == old(LinesTaken(log)) || flow == Failed
      ensures EventsRead(log) == old(EventsRead(log)) || flow == Failed
    {
      hide Ordered, Connecteds, Landed, StaysUp;
      if retained.Some? {
        var ok := Proceed();
        return if ok then Continue else Failed;
      }
      var r := Ask(Preparing);
      if !r.Prepared? { return Failed; }
      log := Noted(log, Prepares(r.destination, r.text));
      var target, reconnected := Resolve(r.destination, r.text);
      if target == None { return Failed; }
      if reconnected {
        var ok := Proceed();
        if !ok { return Failed; }
      }
      flow := SubmitDraft(Draft(target.value, r.text));
      if reconnected {
        flow := match flow
          case Continue => SessionReconnected(1)
          case SessionReconnected(count) => SessionReconnected(count + 1)
          case other => other;
      }
    }

    method LookUp(line: Line) returns (flow: Flow)
      requires Counting() && Recorded() && retained == RetainedBy(log) && (line.To? || line == Contacts)
      requires !world.trouble && world.tries == 0
      modifies `queue, `lagged, `sound, `owed, `connected, `replies, `log, `world, `target, `started
      ensures Counting() && Recorded() && flow != Leave && RetainedBy(log) == old(RetainedBy(log)) && Matched()
      ensures flow == Failed <==> world.trouble
      ensures Owing(log) == old(Owing(log)) && Submissions(log) == old(Submissions(log))
      ensures LinesTaken(log) == old(LinesTaken(log)) && EventsRead(log) == old(EventsRead(log))
      ensures flow != Failed ==> owed == old(owed) + Reconnects(flow) && started == old(started) + Reconnects(flow)
      ensures flow != Failed ==>
                && log.Noted? && log.past == old(log) && log.note.Lists? && world.tries == 0
                && target == if line.To? && log.note.resolved.Some? then log.note.resolved.value else old(target)
      ensures target == old(target) || (line.To? && log == Noted(old(log), Lists(Some(target))))
    {
      hide Ordered, Connecteds, Justified, WellReconnected, Served;
      var resolved, reconnected := ListContacts(false);
      if resolved == None { return Failed; }
      if reconnected {
        var said := Proceed();
        if !said { return Failed; }
      }
      if line.To? && resolved.value.Some? { target := resolved.value.value; }
      var ok := Proceed();
      if !ok { return Failed; }
      flow := if reconnected then SessionReconnected(1) else Continue;
    }

    /** /send: the retained draft is taken and submitted, whatever the target is now. */
    method Resubmit() returns (flow: Flow)
      requires Counting() && Recorded() && log.Noted? && log.note == Took(Send) && retained == RetainedBy(log.past)
      requires !world.trouble && world.tries == 0
      modifies `queue, `lagged, `sound, `owed, `connected, `replies, `log, `world, `retained, `started
      ensures Counting() && Recorded() && flow != Leave && Matched()
      ensures flow == Failed <==> world.trouble
      ensures retained.Some? ==> retained == RetainedBy(log)
      ensures flow != Failed ==> owed == old(owed) + Reconnects(flow) && retained == RetainedBy(log)
      ensures flow != Failed ==> started == old(started) + Reconnects(flow) && world.tries == 0
      ensures flow != Failed && old(retained).Some? ==> SubmittedSince(old(log), log, old(retained).value)
      ensures old(retained).None? ==> log == old(log)
    {
      hide Ordered, Connecteds;
      var draft := retained;
      retained := None;
      if draft == None {
        flow := Tell();
      } else {
        flow := SubmitDraft(draft.value);
      }
    }

    method HandleLine(line: Line) returns (flow: Flow)
      requires AtRest()
      modifies `queue, `lagged, `sound, `owed, `connected, `replies, `log, `world, `retained, `target, `started
      ensures Counting() && Recorded() && (retained.Some? ==> retained == RetainedBy(log)) && Matched()
      ensures flow == Failed <==> world.trouble
      ensures flow != Failed ==> owed == Reconnects(flow) && retained == RetainedBy(log) && world.tries == 0
      ensures flow != Failed ==> started == old(started) + Reconnects(flow)
      ensures flow != Failed ==> !Owing(log)
      ensures flow != Failed ==>
                LinesTaken(log) == old(LinesTaken(log)) + [line] && EventsRead(log) == old(EventsRead(log))
      ensures flow != Failed ==>
                Submissions(log) == old(Submissions(log)) + if CallsFor(old(log), line) then 1 else 0
      ensures flow != Failed && line == Send && old(retained).Some? ==>
                SubmittedSince(Noted(old(log), Took(line)), log, old(retained).value)
      ensures flow == Leave <==> line == Quit
      ensures !(line.To? || line.Channel?) ==> target == old(target)
      ensures line.Channel? ==> target == ChannelTarget(line.index)
      ensures flow != Failed && line.To? ==>
                && log.Noted? && log.past == Noted(old(log), Took(line)) && log.note.Lists?
                && target == if log.note.resolved.Some? then log.note.resolved.value else old(target)
      ensures !(line.Say? || line == Send || line == Discard) ==> retained == old(retained)
      ensures line == Discard ==> retained == None
      ensures line.Say? && old(retained).Some? ==> retained == old(retained) && log == Noted(old(log), Took(line))
    {
      hide Ordered, Connecteds, Requested;
      log := Noted(log, Took(line));
      match line
      case Blank =>
        flow := Continue;
      case Quit =>
        flow := Leave;
      case Contacts =>
        flow := LookUp(line);
      case To(_) =>
        flow := LookUp(line);
      case Channel(index) =>
        target := ChannelTarget(index);
        flow := Tell();
      case Send =>
        flow := Resubmit();
      case Discard =>
        retained := None;
        flow := Tell();
      case Say(text) =>
        flow := Compose(text);
      case _ =>
        flow := Tell();
    }

    /** Only output. */
    method Tell() returns (flow: Flow)
      requires Counting() && !world.trouble
      modifies `queue, `lagged, `sound, `owed, `connected, `replies, `world
      ensures Counting() && owed == old(owed) && (flow == Continue || flow == Failed)
      ensures (flow == Failed <==> world.trouble) && world.losses == old(world.losses)
      ensures world.tries == old(world.tries)
    {
      var ok := Proceed();
      flow := if ok then Continue else Failed;
    }

    // ---- the loop -------------------------------------------------------------------------

    /** What one event, just taken off the queue, leads to. */
    method React(e: Event) returns (ok: bool)
      requires |queue| < EVENT_CAPACITY && owed == 0 && (LagFree(log) && !lagged ==> sound)
      requires Ordered(queue, world.published)
      requires sound ==> pendingConfirmations == Connecteds(queue) + if e == Connected then 1 else 0
      requires !world.trouble && world.tries == 0
      modifies `queue, `lagged, `sound, `owed, `connected, `replies, `world, `pendingConfirmations, `started
      ensures Counting() && (ok ==> owed == 0 && world.tries == 0) && (ok <==> !world.trouble)
      ensures started == old(started) + if e == Disconnected && old(pendingConfirmations) == 0 then 1 else 0
      ensures ok ==> pendingConfirmations ==
                       if e == Connected && old(pendingConfirmations) > 0 then old(pendingConfirmations) - 1
                       else if e == Disconnected && old(pendingConfirmations) == 0 then 1
                       else old(pendingConfirmations)
    {
      hide Ordered;
      ok := true;
      if e == Connected && pendingConfirmations > 0 {
        pendingConfirmations := pendingConfirmations - 1;
      } else if e == Disconnected && pendingConfirmations == 0 {
        ok := ReconnectSession();
        if !ok { return; }
        pendingConfirmations, owed := pendingConfirmations + 1, owed - 1;
        ok := Proceed();
      } else if e.Incoming? || e.Notice? {
        ok := Proceed();
      }
    }

    /** Reads one event, the oldest.  After a lag the count restarts from nothing, which is
        right exactly when no announcement is left to read. */
    method ReadEvent() returns (ok: bool)
      requires AtRest() && (lagged || queue != [])
      modifies `queue, `lagged, `sound, `owed, `connected, `replies, `log, `world, `pendingConfirmations, `started
      ensures Counting() && Recorded() && RetainedBy(log) == old(RetainedBy(log))
      ensures (ok ==> AtRest()) && (ok <==> !world.trouble)
      ensures LinesTaken(log) == old(LinesTaken(log)) && EventsRead(log) == old(EventsRead(log)) + 1
      ensures !old(lagged) ==>
                && log.Noted? && log.past == old(log) && log.note.Reads? && log.note.event == old(queue[0])
                && log.note.behind == old(Connecteds(queue[1..])) && log.note.sound == old(sound)
                && log.note.reconnecting == (started > old(started))
      ensures old(lagged) ==> log == Noted(old(log), Lag) && pendingConfirmations == 0
      ensures old(lagged) && !lagged ==>
                (pendingConfirmations == Connecteds(queue) <==> old(Connecteds(queue)) == 0)
    {
      if lagged {
        log := Noted(log, Lag);
        lagged, pendingConfirmations := false, 0;
        sound := Connecteds(queue) == 0;
        ok := Proceed();
        return;
      }
      var e := queue[0];
      queue := queue[1..];
      ghost var begun, behind, trusted := started, Connecteds(queue), sound;
      ok := React(e);
      log := Noted(log, Reads(e, behind, started > begun, trusted));
    }

    // ---- loading the inbox before the loop ---------------------------------------------------

    /** Takes the oldest event off the queue. */
    method TakeEvent() returns (e: Event)
      requires Counting() && LagFree(log) && pendingConfirmations == 0 && !lagged && queue != []
      modifies `queue, `owed
      ensures Counting() && |queue| < |old(queue)|
      ensures Position() == old(Position()) + 1 && e == world.published[old(Position())]
    {
      e := queue[0];
      queue := queue[1..];
      if e == Connected { owed := owed - 1; }
    }

    /** Reads events until none is left, and says whether the link is up by what was read. */
    method DrainEvents() returns (ok: bool, active: bool, ghost read: seq<Event>)
      requires Counting() && LagFree(log) && pendingConfirmations == 0 && !world.trouble
      modifies `queue, `lagged, `sound, `owed, `connected, `replies, `world
      ensures Counting() && |replies| <= |old(replies)| && world.tries == old(world.tries)
      ensures ok <==> !world.trouble && !lagged
      ensures ok ==> owed == 0 && queue == [] && active == LinkAlive(read)
      ensures old(world.published) <= world.published
      ensures ok ==> read == world.published[old(Position())..]
    {
      hide Connecteds, LinkAlive;
      ok, active, read := false, true, [];
      assert LinkAlive([]) && Connecteds([]) == 0 by { Silence(); }
      while lagged || queue != []
        invariant Counting() && |replies| <= |old(replies)| && !world.trouble && world.tries == old(world.tries)
        invariant active == LinkAlive(read) && old(world.published) <= world.published
        invariant !lagged ==> old(Position()) <= Position() && read == world.published[old(Position())..Position()]
        decreases |replies|, |queue|
      {
        if lagged { return; }
        ghost var at := Position();
        var e := TakeEvent();
        LinkAliveAppend(read, e);
        SliceGrows(world.published, old(Position()), at);
        read := read + [e];
        if e == Connected {
          active := true;
        } else if e == Disconnected {
          active := false;
        } else {
          var said := Proceed();
          if !said { return; }
        }
      }
      ok := true;
    }

    /** Synchronises until the inbox is empty, reading all events after each answer. */
    method PollIncoming() returns (loaded: bool, lost: bool, ghost synced: seq<bool>)
      requires Counting() && LagFree(log) && pendingConfirmations == 0 && !world.trouble && world.tries == 0
      modifies `queue, `lagged, `sound, `owed, `connected, `replies, `world
      ensures Counting() && (loaded ==> owed == 0) && !(loaded && lost) && world.tries == 0
      ensures loaded || lost ==> !world.trouble
      ensures !loaded && !lost ==> world.trouble || lagged
      ensures loaded ==> synced != [] && !synced[|synced| - 1] && (forall k :: 0 <= k < |synced| - 1 ==> synced[k])
    {
      hide Connecteds, Ordered, Landed, LinkAlive;
      loaded, lost, synced := false, false, [];
      while true
        invariant Counting() && !world.trouble && world.tries == 0 && forall k :: 0 <= k < |synced| ==> synced[k]
        decreases |replies|
      {
        var r := Ask(Syncing);
        if !r.Synced? { return false, r == Dropped, synced; }
        synced := synced + [r.message];
        var drained, active;
        ghost var read;
        drained, active, read := DrainEvents();
        if !drained { return false, false, synced; }
        if r.message {
          var said := Proceed();
          if !said { return false, false, synced; }
        }
        if !active { return false, true, synced; }
        if !r.message { return true, false, synced; }
      }
    }

    /** A link lost while loading is restored once. */
    method LoadInbox() returns (ok: bool)
      requires Counting() && LagFree(log) && pendingConfirmations == 0 && !world.trouble && world.tries == 0
      modifies `queue, `lagged, `sound, `owed, `connected, `replies, `world, `started
      ensures Counting() && (ok ==> owed == 0 && !world.trouble && world.tries == 0)
      ensures started <= old(started) + 1
      ensures !ok ==> world.trouble || lagged || started == old(started) + 1
    {
      var lost;
      ghost var synced;
      ok, lost, synced := PollIncoming();
      if lost {
        ok := ReconnectSession();
        if !ok { return; }
        ok := Proceed();
        if !ok { return; }
        ok, lost, synced := PollIncoming();
      }
    }

    /** A whole chat, from any events left unread by the connection set-up. */
    method RunChat() returns (ok: bool)
      requires Counting() && Recorded() && log == Nothing && retained == None && pendingConfirmations == 0
      requires InStep() && !world.trouble && world.tries == 0
      modifies this
      ensures Recorded()
      ensures retained.Some? ==> retained == RetainedBy(log)
      ensures ok ==> Submissions(log) == Calls(log) && InStep()
      ensures ok && LagFree(log) && !lagged ==> pendingConfirmations == Connecteds(queue)
    {
      ok := LoadInbox();
      if ok { ok := RunLines(); }
      SubmittedExactlyAsAsked(log);
    }

    /** Waits for the next turn: events come before lines. */
    method NextTurn() returns (turn: Turn)
      requires Counting() && wakes != []
      modifies `queue, `lagged, `sound, `owed, `connected, `world, `wakes, `turns
      ensures Counting() && owed == old(owed) && wakes == old(wakes)[1..] && turns == old(turns) + [turn]
      ensures world == old(world).(published := world.published)
      ensures turn == Stopped <==> old(wakes)[0] == Interrupt
      ensures turn != Stopped ==>
                turn == if lagged || queue != [] then Eventful
                        else if old(wakes)[0].line.Some? then Typed(old(wakes)[0].line.value) else Quiet
    {
      var wake := wakes[0];
      wakes := wakes[1..];
      turn := Stopped;
      if wake != Interrupt {
        Arrive(wake.arriving);
        turn := if lagged || queue != [] then Eventful
                else if wake.line.Some? then Typed(wake.line.value) else Quiet;
      }
      turns := turns + [turn];
    }

    /** A line, and the count of the reconnects it made. */
    method TakeLine(line: Line) returns (flow: Flow)
      requires AtRest()
      modifies `queue, `lagged, `sound, `owed, `connected, `replies, `log, `world, `retained, `target, `started,
               `pendingConfirmations
      ensures Counting() && Recorded() && (retained.Some? ==> retained == RetainedBy(log))
      ensures (flow == Failed <==> world.trouble) && (flow == Leave <==> line == Quit)
      ensures flow != Failed ==> AtRest()
      ensures flow != Failed ==>
                LinesTaken(log) == old(LinesTaken(log)) + [line] && EventsRead(log) == old(EventsRead(log))
      ensures flow != Failed ==>
                pendingConfirmations - old(pendingConfirmations) == started - old(started) ==
                world.losses - old(world.losses)
    {
      hide Ordered, Connecteds, Justified, WellReconnected, Served, LagFree;
      flow := HandleLine(line);
      if flow != Failed {
        pendingConfirmations, owed := pendingConfirmations + Reconnects(flow), owed - Reconnects(flow);
      }
    }

    /** The chat loop: it ends on an interrupt, an error or a request to leave. */
    method RunLines() returns (ok: bool)
      requires AtRest() && InStep()
      modifies this
      ensures Counting() && Recorded()
      ensures retained.Some? ==> retained == RetainedBy(log)
      ensures ok ==> AtRest() && InStep()
      ensures ok ==> wakes == [] || (turns != [] && turns[|turns| - 1] == Typed(Quit))
      ensures !ok ==> world.trouble || (turns != [] && turns[|turns| - 1] == Stopped)
      ensures ok && LagFree(log) && !lagged ==> pendingConfirmations == Connecteds(queue)
    {
      hide Ordered, Connecteds, Justified, WellReconnected, Served, LagFree;
      while wakes != []
        invariant AtRest() && InStep()
        decreases |wakes|
      {
        ghost var before := turns;
        var turn := NextTurn();
        TurnsGrow(before, turn);
        match turn
        case Stopped => return false;
        case Eventful =>
          ok := ReadEvent();
          if !ok { return; }
        case Typed(line) =>
          var flow := TakeLine(line);
          if flow == Failed { return false; }
          if flow == Leave { return true; }
        case Quiet =>
      }
      ok := true;
    }
  }
}
