/** From the transport to the consumer: a parsed message is accepted once, however its
    two views interleave. */
module EndToEnd {
  import opened Protocol
  import S = Session
  import opened SessionDelivery
  import T = IncomingTracker

  /** What happens at the consumer: it sees a message, or a connection scope begins and
      the tracker is cleared. */
  datatype Sighting = Saw(message: Message, origin: T.Origin) | Reset

  /** The messages among the sightings that came from one origin. */
  function From(obs: seq<Sighting>, origin: T.Origin): seq<Message> {
    if obs == [] then []
    else
      var last := obs[|obs| - 1];
      From(obs[..|obs| - 1], origin) + if last.Saw? && last.origin == origin then [last.message] else []
  }

  /** The tracker actions for a sequence of sightings.  A message without an id is
      accepted without consulting the tracker. */
  function Actions(obs: seq<Sighting>): seq<T.Action> {
    if obs == [] then [] else Actions(obs[..|obs| - 1]) + ActionsOf(obs[|obs| - 1])
  }

  function ActionsOf(s: Sighting): seq<T.Action> {
    match s
    case Saw(m, origin) =>
      if m.observation.Some? then [T.Observe(T.Occurrence(m.observation.value, origin))] else []
    case Reset => [T.Clear]
  }

  function WithId(ms: seq<Message>, id: nat): nat {
    if ms == [] then 0
    else WithId(ms[..|ms| - 1], id) + if ms[|ms| - 1].observation == Some(id) then 1 else 0
  }

  /** A consumer sees some of the broadcasts and some of the returns of a session, each
      in order, interleaved in any way. */
  ghost predicate Watches(obs: seq<Sighting>, t: S.Trace) {
    && Subsequence(From(obs, T.Live), BroadcastMessages(t))
    && Subsequence(From(obs, T.Queue), ReturnedMessages(t))
  }

  lemma {:induction false} DistinctMeansOnce(ms: seq<Message>, id: nat)
    requires DistinctIds(ms)
    ensures WithId(ms, id) <= 1
    ensures WithId(ms, id) == 1 ==> exists k :: 0 <= k < |ms| && ms[k].observation == Some(id)
  {
    if ms != [] {
      var front := ms[..|ms| - 1];
      DistinctMeansOnce(front, id);
    }
  }

  lemma SubsequenceIsDistinct(a: seq<Message>, b: seq<Message>)
    requires Subsequence(a, b) && DistinctIds(b)
    ensures DistinctIds(a)
  {
    var at := SubsequencePositions(a, b);
  }

  lemma WithIdAppend(ms: seq<Message>, m: Message, id: nat)
    ensures WithId(ms + [m], id) == WithId(ms, id) + if m.observation == Some(id) then 1 else 0
  {
    assert (ms + [m])[..|ms|] == ms;
  }

  lemma {:induction false} SeenIsWithId(obs: seq<Sighting>, id: nat, origin: T.Origin)
    ensures T.Seen(Actions(obs), id, origin) == WithId(From(obs, origin), id)
  {
    hide T.Seen, WithId;
    if obs == [] {
      NothingSeen(id, origin);
    } else {
      var front, last := obs[..|obs| - 1], obs[|obs| - 1];
      SeenIsWithId(front, id, origin);
      if last.Saw? { WithIdAppend(From(front, origin), last.message, id); }
      if ActionsOf(last) != [] { T.SeenAppend(Actions(front), ActionsOf(last)[0], id, origin); }
      assert From(front, origin) + [] == From(front, origin);
      assert Actions(front) + [] == Actions(front);
    }
  }

  lemma NothingSeen(id: nat, origin: T.Origin)
    ensures T.Seen([], id, origin) == 0 && WithId([], id) == 0
  {}

  /** Before the id counter wraps: an id has at most two views; once viewed it is
      accepted, and exactly once unless it was forgotten, by a new connection scope or an
      eviction, between its two views. */
  lemma AcceptedExactlyOnce(inputs: seq<S.Input>, obs: seq<Sighting>, id: nat)
    requires S.Legal(S.Initial, inputs)
    requires var t := S.After(S.Initial, inputs).trace; |ParsedMessages(t)| < 0x1_0000_0000_0000_0000 && Watches(obs, t)
    ensures var run := Actions(obs);
            var views := T.Seen(run, id, T.Live) + T.Seen(run, id, T.Queue);
            && views <= 2
            && (views == 0 ==> T.Accepted(run, id) == 0)
            && (views > 0 ==> T.Accepted(run, id) == if T.Separated(run, id) then 2 else 1)
            && (T.Separated(run, id) ==> views == 2)
  {
    hide Subsequence, DistinctIds, WithId, T.Separated, T.Dropped, T.Seen, T.Accepted;
    var t := S.After(S.Initial, inputs).trace;
    EachMessageOnce(inputs);
    SubsequenceIsDistinct(From(obs, T.Live), BroadcastMessages(t));
    SubsequenceIsDistinct(From(obs, T.Queue), ReturnedMessages(t));
    DistinctMeansOnce(From(obs, T.Live), id);
    DistinctMeansOnce(From(obs, T.Queue), id);
    SeenIsWithId(obs, id, T.Live);
    SeenIsWithId(obs, id, T.Queue);
    T.AcceptedAgainExactlyIfSeparated(Actions(obs), id);
  }
}
