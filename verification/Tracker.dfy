/** The consumer's correlation of live broadcasts with queue returns: two views of one
    packet, one acceptance. */
module IncomingTracker {
  import opened Protocol

  const CAPACITY: nat := 256

  datatype Origin = Live | Queue

  datatype Occurrence = Occurrence(id: nat, origin: Origin)

  type Held = seq<Occurrence>

  // ---- one observation -----------------------------------------------------------

  predicate Opposite(x: Occurrence, o: Occurrence) { x.id == o.id && x.origin != o.origin }

  /** The first entry that is the other view of the same packet, or the length. */
  function Position(held: Held, o: Occurrence): (k: nat)
    ensures k <= |held|
    ensures forall j :: 0 <= j < k ==> !Opposite(held[j], o)
    ensures k < |held| ==> Opposite(held[k], o)
  {
    if held == [] then 0
    else if Opposite(held[0], o) then 0
    else
      var k := Position(held[1..], o);
      assert forall j :: 1 <= j < k + 1 ==> held[j] == held[1..][j - 1];
      k + 1
  }

  predicate Paired(held: Held, o: Occurrence) { Position(held, o) < |held| }

  predicate Evicts(held: Held, o: Occurrence) { !Paired(held, o) && |held| == CAPACITY }

  /** The second view of a packet cancels the first; any other view is remembered. */
  function Observed(held: Held, o: Occurrence): Held {
    var k := Position(held, o);
    if k < |held| then held[..k] + held[k + 1..]
    else (if |held| == CAPACITY then held[1..] else held) + [o]
  }

  class Tracker {
    var occurrences: Held

    constructor ()
      ensures occurrences == []
    {
      occurrences := [];
    }

    method Observe(id: Option<nat>, origin: Origin) returns (isNew: bool)
      modifies this
      ensures id.None? ==> isNew && occurrences == old(occurrences)
      ensures id.Some? ==>
                && (isNew <==> !Paired(old(occurrences), Occurrence(id.value, origin)))
                && occurrences == Observed(old(occurrences), Occurrence(id.value, origin))
    {
      if id.None? { return true; }
      var o := Occurrence(id.value, origin);
      var k := 0;
      while k < |occurrences| && !Opposite(occurrences[k], o)
        invariant k <= |occurrences| && occurrences == old(occurrences)
        invariant forall j :: 0 <= j < k ==> !Opposite(occurrences[j], o)
      {
        k := k + 1;
      }
      assert k == Position(occurrences, o);
      if k < |occurrences| {
        occurrences := occurrences[..k] + occurrences[k + 1..];
        return false;
      }
      if |occurrences| == CAPACITY { occurrences := occurrences[1..]; }
      occurrences := occurrences + [o];
      return true;
    }

    method Clear()
      modifies this
      ensures occurrences == []
    {
      occurrences := [];
    }
  }

  // ---- runs ---------------------------------------------------------------------------

  datatype Action = Observe(o: Occurrence) | Clear

  function After(run: seq<Action>): Held {
    if run == [] then []
    else
      var held := After(run[..|run| - 1]);
      match run[|run| - 1]
      case Observe(o) => Observed(held, o)
      case Clear => []
  }

  /** How often the id was observed with this origin. */
  function Seen(run: seq<Action>, id: nat, origin: Origin): nat {
    if run == [] then 0
    else Seen(run[..|run| - 1], id, origin) + if run[|run| - 1] == Observe(Occurrence(id, origin)) then 1 else 0
  }

  function Accepted(run: seq<Action>, id: nat): nat {
    if run == [] then 0
    else
      var front := run[..|run| - 1];
      Accepted(front, id) +
      match run[|run| - 1]
      case Observe(o) => if o.id == id && !Paired(After(front), o) then 1 else 0
      case Clear => 0
  }

  /** No clear, and no eviction of an entry of this id. */
  predicate Undisturbed(run: seq<Action>, id: nat) {
    if run == [] then true
    else
      var front := run[..|run| - 1];
      && Undisturbed(front, id)
      && match run[|run| - 1]
         case Observe(o) => Evicts(After(front), o) ==> After(front)[0].id != id
         case Clear => false
  }

  // ---- what the tracker holds -------------------------------------------------------------

  function CountOf(held: Held, o: Occurrence): nat {
    if held == [] then 0 else (if held[0] == o then 1 else 0) + CountOf(held[1..], o)
  }

  lemma {:induction false} CountAppend(a: Held, b: Held, o: Occurrence)
    ensures CountOf(a + b, o) == CountOf(a, o) + CountOf(b, o)
  {
    if a == [] { assert a + b == b; } else { assert (a + b)[1..] == a[1..] + b; CountAppend(a[1..], b, o); }
  }

  lemma {:induction false} CountZero(held: Held, o: Occurrence)
    requires forall j :: 0 <= j < |held| ==> held[j] != o
    ensures CountOf(held, o) == 0
  {
    if held != [] { CountZero(held[1..], o); }
  }

  function Other(origin: Origin): Origin { if origin.Live? then Queue else Live }

  /** The effect of an observation on the count of any entry. */
  lemma {:induction false} ObservedCounts(held: Held, o: Occurrence, x: Occurrence)
    requires |held| <= CAPACITY
    ensures var paired := Occurrence(o.id, Other(o.origin));
            if Paired(held, o) then
              && CountOf(held, paired) > 0
              && CountOf(Observed(held, o), x) == CountOf(held, x) - (if x == paired then 1 else 0)
            else
              && CountOf(held, paired) == 0
              && CountOf(Observed(held, o), x) == CountOf(held, x) + (if x == o then 1 else 0)
                                                - (if Evicts(held, o) && held[0] == x then 1 else 0)
  {
    var k := Position(held, o);
    var paired := Occurrence(o.id, Other(o.origin));
    if k < |held| {
      assert held[k] == paired;
      RemovedCount(held, k, x);
      RemovedCount(held, k, paired);
    } else {
      CountZero(held, paired);
      CountAppend(if |held| == CAPACITY then held[1..] else held, [o], x);
    }
  }

  lemma {:induction false} RemovedCount(held: Held, k: nat, x: Occurrence)
    requires k < |held|
    ensures CountOf(held[..k] + held[k + 1..], x) == CountOf(held, x) - if held[k] == x then 1 else 0
  {
    assert held == held[..k] + held[k..];
    assert held[k..][1..] == held[k + 1..];
    CountAppend(held[..k], held[k + 1..], x);
    CountAppend(held[..k], held[k..], x);
  }

  ghost predicate NeverBoth(held: Held, id: nat) {
    CountOf(held, Occurrence(id, Live)) == 0 || CountOf(held, Occurrence(id, Queue)) == 0
  }

  /** The tracker stays within its capacity and never holds both views of an id. */
  lemma {:induction false} HeldIsSound(run: seq<Action>, id: nat)
    ensures |After(run)| <= 256 && NeverBoth(After(run), id)
  {
    if run != [] {
      var front, last := run[..|run| - 1], run[|run| - 1];
      HeldIsSound(front, id);
      if last.Observe? {
        ObservedCounts(After(front), last.o, Occurrence(id, Live));
        ObservedCounts(After(front), last.o, Occurrence(id, Queue));
      }
    }
  }

  // ---- the counting law ----------------------------------------------------------------------

  function Max(a: int, b: int): int { if a < b then b else a }

  /** What the acceptances still owe to each origin is covered by the held entries. */
  ghost predicate Covered(run: seq<Action>, id: nat) {
    && Accepted(run, id) - Seen(run, id, Live) >= CountOf(After(run), Occurrence(id, Queue))
    && Accepted(run, id) - Seen(run, id, Queue) >= CountOf(After(run), Occurrence(id, Live))
  }

  lemma {:induction false} AcceptedCovers(run: seq<Action>, id: nat)
    ensures Covered(run, id)
  {
    if run != [] {
      var front, last := run[..|run| - 1], run[|run| - 1];
      AcceptedCovers(front, id);
      if last.Observe? {
        HeldIsSound(front, id);
        ObservedCounts(After(front), last.o, Occurrence(id, Live));
        ObservedCounts(After(front), last.o, Occurrence(id, Queue));
      }
    }
  }

  /** No view is lost: acceptances never fall behind either origin. */
  lemma NothingIsLost(run: seq<Action>, id: nat)
    ensures Accepted(run, id) >= Max(Seen(run, id, Live), Seen(run, id, Queue))
  {
    AcceptedCovers(run, id);
  }

  lemma {:induction false} AcceptedAreViews(run: seq<Action>, id: nat)
    ensures Accepted(run, id) <= Seen(run, id, Live) + Seen(run, id, Queue)
  {
    if run != [] {
      AcceptedAreViews(run[..|run| - 1], id);
      var last := run[|run| - 1];
      if last.Observe? && last.o.id == id {
        if last.o.origin.Live? {
          assert last.o == Occurrence(id, Live);
        } else {
          assert last.o == Occurrence(id, Queue);
        }
      }
    }
  }

  lemma SeenAppend(run: seq<Action>, a: Action, id: nat, origin: Origin)
    ensures Seen(run + [a], id, origin) == Seen(run, id, origin) + if a == Observe(Occurrence(id, origin)) then 1 else 0
  {
    assert (run + [a])[..|run|] == run;
  }

  ghost predicate Exact(run: seq<Action>, id: nat) {
    && Accepted(run, id) == Max(Seen(run, id, Live), Seen(run, id, Queue))
    && CountOf(After(run), Occurrence(id, Live)) - CountOf(After(run), Occurrence(id, Queue))
       == Seen(run, id, Live) - Seen(run, id, Queue)
  }

  /** Nothing is doubled either: without a clear and without evicting the id, the
      acceptances are exactly the larger of the two counts. */
  lemma {:induction false} NothingIsDoubled(run: seq<Action>, id: nat)
    requires Undisturbed(run, id)
    ensures Exact(run, id)
  {
    if run != [] {
      var front, last := run[..|run| - 1], run[|run| - 1];
      NothingIsDoubled(front, id);
      HeldIsSound(front, id);
      HeldIsSound(run, id);
      ObservedCounts(After(front), last.o, Occurrence(id, Live));
      ObservedCounts(After(front), last.o, Occurrence(id, Queue));
    }
  }

  // ---- one view of each kind ------------------------------------------------------------------

  predicate Holds(held: Held, id: nat) {
    CountOf(held, Occurrence(id, Live)) > 0 || CountOf(held, Occurrence(id, Queue)) > 0
  }

  /** A held view of this id was forgotten, by a clear or an eviction. */
  predicate Dropped(run: seq<Action>, id: nat) {
    run != [] &&
    var front := run[..|run| - 1];
    || Dropped(front, id)
    || match run[|run| - 1]
       case Observe(o) => Evicts(After(front), o) && After(front)[0].id == id
       case Clear => Holds(After(front), id)
  }

  /** ... before another view of it came. */
  predicate Separated(run: seq<Action>, id: nat) {
    run != [] &&
    var front, last := run[..|run| - 1], run[|run| - 1];
    Separated(front, id) || (last.Observe? && last.o.id == id && Dropped(front, id))
  }

  ghost predicate Tallied(run: seq<Action>, id: nat) {
    var live, queued := Seen(run, id, Live), Seen(run, id, Queue);
    var waiting := if Dropped(run, id) then 0 else 1;
    if live + queued == 0 then
      Accepted(run, id) == 0 && !Dropped(run, id) && !Separated(run, id) && !Holds(After(run), id)
    else if live + queued == 1 then
      && Accepted(run, id) == 1 && !Separated(run, id)
      && CountOf(After(run), Occurrence(id, Live)) == (if live == 1 then waiting else 0)
      && CountOf(After(run), Occurrence(id, Queue)) == (if queued == 1 then waiting else 0)
    else Accepted(run, id) == if Separated(run, id) then 2 else 1
  }

  /** An id seen at most once from each origin is accepted once, and again exactly if its
      first view was forgotten before the second came. */
  lemma {:induction false} AcceptedAgainExactlyIfSeparated(run: seq<Action>, id: nat)
    requires Seen(run, id, Live) <= 1 && Seen(run, id, Queue) <= 1
    ensures Tallied(run, id)
  {
    if run != [] {
      var front, last := run[..|run| - 1], run[|run| - 1];
      AcceptedAgainExactlyIfSeparated(front, id);
      if last.Observe? { TallyObserved(run, id); }
    }
  }

  lemma {:induction false} TallyObserved(run: seq<Action>, id: nat)
    requires run != [] && run[|run| - 1].Observe? && Tallied(run[..|run| - 1], id)
    requires Seen(run, id, Live) <= 1 && Seen(run, id, Queue) <= 1
    ensures Tallied(run, id)
  {
    var front, o := run[..|run| - 1], run[|run| - 1].o;
    HeldIsSound(front, id);
    ObservedCounts(After(front), o, Occurrence(id, Live));
    ObservedCounts(After(front), o, Occurrence(id, Queue));
  }

  // ---- how long a view waits for the other --------------------------------------------------------

  /** Acceptances, of any id, during the second part of a run. */
  function AcceptedDuring(run: seq<Action>, more: seq<Action>): nat {
    if more == [] then 0
    else
      var front := more[..|more| - 1];
      AcceptedDuring(run, front) +
      match more[|more| - 1]
      case Observe(o) => if Paired(After(run + front), o) then 0 else 1
      case Clear => 0
  }

  /** Neither a clear nor a view of this id. */
  predicate Elsewhere(more: seq<Action>, id: nat) {
    forall a <- more :: a.Observe? && a.o.id != id
  }

  /** A view that was just remembered is still held while fewer than 256 other
      observations are accepted. */
  lemma {:induction false} ViewIsKept(run: seq<Action>, x: Occurrence, more: seq<Action>) returns (at: nat)
    requires run != [] && run[|run| - 1] == Observe(x) && !Paired(After(run[..|run| - 1]), x)
    requires Elsewhere(more, x.id) && AcceptedDuring(run, more) < 256
    ensures at < |After(run + more)| && After(run + more)[at] == x
    ensures |After(run + more)| - 1 - at <= AcceptedDuring(run, more)
    decreases |more|
  {
    if more == [] {
      assert run + more == run;
      at := |After(run)| - 1;
    } else {
      var front, last := more[..|more| - 1], more[|more| - 1];
      assert (run + more)[..|run + more| - 1] == run + front;
      assert (run + more)[|run + more| - 1] == last;
      assert Elsewhere(front, x.id);
      at := ViewIsKept(run, x, front);
      HeldIsSound(run + front, x.id);
      var held, o := After(run + front), last.o;
      assert o.id != x.id by { assert last in more; }
      var k := Position(held, o);
      if k < |held| {
        if k < at { at := at - 1; }
      } else if |held| == CAPACITY {
        at := at - 1;
      }
    }
  }

  /** So the other view, arriving in that window, is recognised and not accepted. */
  lemma SecondViewIsRecognised(run: seq<Action>, x: Occurrence, more: seq<Action>)
    requires run != [] && run[|run| - 1] == Observe(x) && !Paired(After(run[..|run| - 1]), x)
    requires Elsewhere(more, x.id) && AcceptedDuring(run, more) < 256
    ensures Paired(After(run + more), Occurrence(x.id, Other(x.origin)))
  {
    var at := ViewIsKept(run, x, more);
    assert Opposite(After(run + more)[at], Occurrence(x.id, Other(x.origin)));
  }
}
