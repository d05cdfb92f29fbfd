/** Spelling suggestions: the two-row edit distance and the choice of the closest name. */
module Suggestions {
  import opened Protocol

  // ---- edit distance ---------------------------------------------------------------------

  function Min(a: nat, b: nat): nat { if a <= b then a else b }

  function Front(s: string): string requires s != "" { s[..|s| - 1] }

  function Last(s: string): char requires s != "" { s[|s| - 1] }

  function Mismatch(a: string, b: string): nat
    requires a != "" && b != ""
  {
    if Last(a) == Last(b) then 0 else 1
  }

  /** Levenshtein distance, by the last characters. */
  function Distance(a: string, b: string): nat
    decreases |a| + |b|
  {
    if a == "" then |b|
    else if b == "" then |a|
    else Min(Min(Distance(Front(a), b) + 1, Distance(a, Front(b)) + 1), Distance(Front(a), Front(b)) + Mismatch(a, b))
  }

  ghost predicate IsRow(row: array<nat>, a: string, right: string, n: nat)
    requires n <= |right| + 1 == row.Length
    reads row
  {
    forall j :: 0 <= j < n ==> row[j] == Distance(a, right[..j])
  }

  lemma {:induction false} FirstRow(right: string, j: nat)
    requires j <= |right|
    ensures Distance("", right[..j]) == j
  {}

  lemma {:induction false} FirstColumn(a: string)
    ensures Distance(a, "") == |a|
  {}

  lemma {:induction false} Unfolded(a: string, b: string)
    requires a != "" && b != ""
    ensures Distance(a, b) ==
            Min(Min(Distance(Front(a), b) + 1, Distance(a, Front(b)) + 1), Distance(Front(a), Front(b))
                + Mismatch(a, b))
  {
    hide Min, Mismatch, Front;
  }

  lemma {:induction false} Cell(left: string, right: string, i: nat, j: nat)
    requires i < |left| && j < |right|
    ensures Distance(left[..i + 1], right[..j + 1]) ==
            Min(Min(Distance(left[..i], right[..j + 1]) + 1, Distance(left[..i + 1], right[..j]) + 1),
                Distance(left[..i], right[..j]) + if left[i] != right[j] then 1 else 0)
  {
    hide Distance, Min;
    assert Front(left[..i + 1]) == left[..i] && Front(right[..j + 1]) == right[..j];
    Unfolded(left[..i + 1], right[..j + 1]);
  }

  method EditDistance(left: string, right: string) returns (d: nat)
    ensures d == Distance(left, right)
  {
    hide Distance, Min;
    var previous := new nat[|right| + 1](i => i);
    var current := new nat[|right| + 1](_ => 0);
    forall j | 0 <= j <= |right| ensures Distance("", right[..j]) == j { FirstRow(right, j); }
    assert left[..0] == "";
    for i := 0 to |left|
      invariant previous != current && fresh(previous) && fresh(current)
      invariant previous.Length == current.Length == |right| + 1
      invariant IsRow(previous, left[..i], right, |right| + 1)
    {
      FillRow(previous, current, left, right, i);
      previous, current := current, previous;
    }
    assert left[..|left|] == left && right[..|right|] == right;
    d := previous[|right|];
  }

  /** One pass of the inner loop. */
  method FillRow(previous: array<nat>, current: array<nat>, left: string, right: string, i: nat)
    requires i < |left| && previous != current && previous.Length == current.Length == |right| + 1
    requires IsRow(previous, left[..i], right, |right| + 1)
    modifies current
    ensures IsRow(current, left[..i + 1], right, |right| + 1)
  {
    hide Distance, Min;
    current[0] := i + 1;
    assert Distance(left[..i + 1], right[..0]) == i + 1 by { FirstColumn(left[..i + 1]); }
    for j := 0 to |right|
      invariant IsRow(current, left[..i + 1], right, j + 1)
    {
      var substitution := previous[j] + if left[i] != right[j] then 1 else 0;
      current[j + 1] := Min(Min(previous[j + 1] + 1, current[j] + 1), substitution);
      Cell(left, right, i, j);
    }
  }

  // ---- it is a metric ------------------------------------------------------------------------

  lemma {:induction false} DistanceIsSymmetric(a: string, b: string)
    ensures Distance(a, b) == Distance(b, a)
    decreases |a| + |b|
  {
    if a != "" && b != "" {
      DistanceIsSymmetric(Front(a), b);
      DistanceIsSymmetric(a, Front(b));
      DistanceIsSymmetric(Front(a), Front(b));
    }
  }

  lemma {:induction false} DistanceIsZeroOnlyIfEqual(a: string, b: string)
    ensures Distance(a, b) == 0 <==> a == b
    decreases |a| + |b|
  {
    if a != "" && b != "" {
      DistanceIsZeroOnlyIfEqual(Front(a), Front(b));
      assert a == Front(a) + [Last(a)] && b == Front(b) + [Last(b)];
    }
  }

  lemma {:induction false} DistanceAtLeastLengths(a: string, b: string)
    ensures |a| <= Distance(a, b) + |b| && |b| <= Distance(a, b) + |a|
    ensures Distance(a, b) <= |a| + |b|
    decreases |a| + |b|
  {
    if a != "" && b != "" {
      DistanceAtLeastLengths(Front(a), b);
      DistanceAtLeastLengths(a, Front(b));
      DistanceAtLeastLengths(Front(a), Front(b));
    }
  }

  lemma {:induction false} ByLength(a: string, b: string, c: string)
    ensures a == "" || b == "" || c == "" ==> Distance(a, c) <= Distance(a, b) + Distance(b, c)
  {
    DistanceAtLeastLengths(a, b);
    DistanceAtLeastLengths(b, c);
    DistanceAtLeastLengths(a, c);
    FirstColumn(a);
    FirstColumn(b);
  }

  lemma {:induction false} TriangleInequality(a: string, b: string, c: string)
    ensures Distance(a, c) <= Distance(a, b) + Distance(b, c)
    decreases |a| + |b| + |c|
  {
    hide Distance;
    ByLength(a, b, c);
    if a != "" && b != "" && c != "" {
      Unfolded(a, b);
      Unfolded(b, c);
      Unfolded(a, c);
      TriangleInequality(Front(a), b, c);
      TriangleInequality(a, b, Front(c));
      TriangleInequality(a, Front(b), c);
      TriangleInequality(a, Front(b), Front(c));
      TriangleInequality(Front(a), Front(b), c);
      TriangleInequality(Front(a), Front(b), Front(c));
    }
  }

  // ---- it is the length of the shortest edit script ---------------------------------------------

  datatype Edit = Insert(at: nat, c: char) | Delete(at: nat) | Replace(at: nat, c: char)

  predicate Applies(e: Edit, s: string) { if e.Insert? then e.at <= |s| else e.at < |s| }

  function Apply(e: Edit, s: string): string
    requires Applies(e, s)
  {
    match e
    case Insert(at, c) => s[..at] + [c] + s[at..]
    case Delete(at) => s[..at] + s[at + 1..]
    case Replace(at, c) => s[..at] + [c] + s[at + 1..]
  }

  /** Where a script takes `s`, if all its edits apply. */
  function Run(es: seq<Edit>, s: string): Option<string> {
    if es == [] then Some(s)
    else match Run(es[..|es| - 1], s)
      case None => None
      case Some(t) => if Applies(es[|es| - 1], t) then Some(Apply(es[|es| - 1], t)) else None
  }

  lemma {:induction false} AppendedEdit(es: seq<Edit>, e: Edit, s: string, t: string)
    requires Run(es, s) == Some(t) && Applies(e, t)
    ensures Run(es + [e], s) == Some(Apply(e, t))
  {
    assert (es + [e])[..|es|] == es;
  }

  lemma {:induction false} TailIsUntouched(es: seq<Edit>, s: string, t: string, tail: string)
    requires Run(es, s) == Some(t)
    ensures Run(es, s + tail) == Some(t + tail)
  {
    if es != [] {
      var e := es[|es| - 1];
      var u := Run(es[..|es| - 1], s).value;
      TailIsUntouched(es[..|es| - 1], s, u, tail);
      EditIgnoresTail(e, u, tail);
    }
  }

  lemma {:induction false} EditIgnoresTail(e: Edit, u: string, tail: string)
    requires Applies(e, u)
    ensures Applies(e, u + tail) && Apply(e, u + tail) == Apply(e, u) + tail
  {
    assert (u + tail)[..e.at] == u[..e.at];
    assert (u + tail)[e.at..] == u[e.at..] + tail;
    if !e.Insert? { assert (u + tail)[e.at + 1..] == u[e.at + 1..] + tail; }
  }

  /** A script of that length exists ... */
  lemma {:induction false} ShortestScript(a: string, b: string) returns (es: seq<Edit>)
    ensures |es| == Distance(a, b) && Run(es, a) == Some(b)
    decreases |a| + |b|
  {
    if a == "" && b == "" {
      es := [];
    } else if a == "" || (b != "" && Distance(a, b) == Distance(a, Front(b)) + 1) {
      es := ShortestScript(a, Front(b));
      es := Inserted(es, a, b);
    } else if b == "" || Distance(a, b) == Distance(Front(a), b) + 1 {
      es := ShortestScript(Front(a), b);
      if b == "" { FirstColumn(Front(a)); }
      es := Deleted(es, a, b);
    } else {
      es := ShortestScript(Front(a), Front(b));
      es := Replaced(es, a, b);
    }
  }

  lemma {:induction false} Inserted(es: seq<Edit>, a: string, b: string) returns (fs: seq<Edit>)
    requires b != "" && Run(es, a) == Some(Front(b))
    ensures |fs| == |es| + 1 && Run(fs, a) == Some(b)
  {
    var e := Insert(|b| - 1, Last(b));
    AppendedEdit(es, e, a, Front(b));
    assert Apply(e, Front(b)) == b;
    fs := es + [e];
  }

  lemma {:induction false} Deleted(es: seq<Edit>, a: string, b: string) returns (fs: seq<Edit>)
    requires a != "" && Run(es, Front(a)) == Some(b)
    ensures |fs| == |es| + 1 && Run(fs, a) == Some(b)
  {
    var e, tail := Delete(|b|), [Last(a)];
    assert a == Front(a) + tail;
    TailIsUntouched(es, Front(a), b, tail);
    AppendedEdit(es, e, a, b + tail);
    assert Apply(e, b + tail) == b;
    fs := es + [e];
  }

  lemma {:induction false} Replaced(es: seq<Edit>, a: string, b: string) returns (fs: seq<Edit>)
    requires a != "" && b != "" && Run(es, Front(a)) == Some(Front(b))
    ensures |fs| == |es| + Mismatch(a, b) && Run(fs, a) == Some(b)
  {
    hide Run;
    var e, tail := Replace(|b| - 1, Last(b)), [Last(a)];
    assert a == Front(a) + tail;
    TailIsUntouched(es, Front(a), Front(b), tail);
    if Last(a) == Last(b) {
      assert Front(b) + tail == b;
      fs := es;
    } else {
      AppendedEdit(es, e, a, Front(b) + tail);
      assert Apply(e, Front(b) + tail) == b;
      fs := es + [e];
    }
  }

  lemma {:induction false} CommonTail(x: string, y: string, tail: string)
    ensures Distance(x + tail, y + tail) <= Distance(x, y)
    decreases |tail|
  {
    if tail == "" {
      assert x + tail == x && y + tail == y;
    } else {
      CommonTail(x, y, Front(tail));
      assert Front(x + tail) == x + Front(tail) && Front(y + tail) == y + Front(tail);
    }
  }

  lemma {:induction false} ChangeAtEnd(u: string, c: char, d: char)
    ensures Distance(u, u + [c]) <= 1 && Distance(u + [c], u) <= 1 && Distance(u + [c], u + [d]) <= 1
  {
    hide Distance;
    DistanceIsZeroOnlyIfEqual(u, u);
    assert Front(u + [c]) == u && Front(u + [d]) == u;
    Unfolded(u + [c], u + [d]);
    DistanceIsSymmetric(u, u + [c]);
    if u == "" { FirstColumn([c]); } else { Unfolded(u + [c], u); }
  }

  lemma {:induction false} OneEditIsClose(e: Edit, s: string)
    requires Applies(e, s)
    ensures Distance(s, Apply(e, s)) <= 1
  {
    hide Distance;
    var u := s[..e.at];
    match e
    case Insert(at, c) =>
      ChangeAtEnd(u, c, c);
      CommonTail(u, u + [c], s[at..]);
      assert s == u + s[at..];
    case Delete(at) =>
      ChangeAtEnd(u, s[at], s[at]);
      CommonTail(u + [s[at]], u, s[at + 1..]);
      assert s == u + [s[at]] + s[at + 1..];
    case Replace(at, c) =>
      ChangeAtEnd(u, s[at], c);
      CommonTail(u + [s[at]], u + [c], s[at + 1..]);
      assert s == u + [s[at]] + s[at + 1..];
  }

  /** ... and no script is shorter. */
  lemma {:induction false} NoShorterScript(es: seq<Edit>, a: string, b: string)
    requires Run(es, a) == Some(b)
    ensures Distance(a, b) <= |es|
  {
    if es == [] {
      DistanceIsZeroOnlyIfEqual(a, b);
    } else {
      var t := Run(es[..|es| - 1], a).value;
      NoShorterScript(es[..|es| - 1], a, t);
      OneEditIsClose(es[|es| - 1], t);
      TriangleInequality(a, t, b);
    }
  }

  // ---- suggestions -----------------------------------------------------------------------------

  /** Lexicographic order of strings by code point. */
  predicate AtMost(a: string, b: string) {
    a == "" || (b != "" && (a[0] < b[0] || (a[0] == b[0] && AtMost(a[1..], b[1..]))))
  }

  lemma {:induction false} AtMostIsTotal(a: string, b: string)
    ensures AtMost(a, b) || AtMost(b, a)
    ensures AtMost(a, b) && AtMost(b, a) ==> a == b
  {
    if a != "" && b != "" {
      AtMostIsTotal(a[1..], b[1..]);
      assert a == [a[0]] + a[1..] && b == [b[0]] + b[1..];
    }
  }

  lemma {:induction false} AtMostIsTransitive(a: string, b: string, c: string)
    requires AtMost(a, b) && AtMost(b, c)
    ensures AtMost(a, c)
  {
    if a != "" && a[0] == b[0] == c[0] { AtMostIsTransitive(a[1..], b[1..], c[1..]); }
  }

  /** The first difference decides; where there is none, the shorter comes first. */
  lemma {:induction false} FirstDifferenceDecides(a: string, b: string, k: nat)
    requires k <= |a| && k <= |b| && a[..k] == b[..k]
    ensures k == |a| ==> AtMost(a, b)
    ensures k == |b| < |a| ==> !AtMost(a, b)
    ensures k < |a| && k < |b| && a[k] != b[k] ==> (AtMost(a, b) <==> a[k] < b[k])
    decreases k
  {
    if k > 0 {
      assert a[0] == a[..k][0] && b[0] == b[..k][0];
      assert a[1..][..k - 1] == a[..k][1..] && b[1..][..k - 1] == b[..k][1..];
      FirstDifferenceDecides(a[1..], b[1..], k - 1);
    }
  }

  /** What a query is compared by; `lower` is the library's lower-casing. */
  datatype Search = Search(query: string, lower: string -> string) {
    function To(candidate: string): nat { Distance(lower(query), lower(candidate)) }

    /** A third of the query's length, rounded up, at least 1 and at most 3. */
    function Bound(): nat {
      var third := (|lower(query)| + 2) / 3;
      if third < 1 then 1 else if third > 3 then 3 else third
    }

    /** By distance, then lower-cased, then as written. */
    predicate Precedes(a: string, b: string) {
      || To(a) < To(b)
      || (To(a) == To(b) &&
          if lower(a) != lower(b) then AtMost(lower(a), lower(b)) else AtMost(a, b))
    }

    /** The closer one comes first; of two equally close, the first difference of their
        lower-cased forms decides; of two alike in that, the first difference as written. */
    lemma {:induction false} PrecedesDecides(a: string, b: string, k: nat)
      ensures Distance(lower(query), lower(a)) < Distance(lower(query), lower(b)) ==>
                Precedes(a, b) && !Precedes(b, a)
      ensures Distance(lower(query), lower(a)) == Distance(lower(query), lower(b)) &&
              k < |lower(a)| && k < |lower(b)| && lower(a)[..k] == lower(b)[..k] && lower(a)[k] != lower(b)[k] ==>
                (Precedes(a, b) <==> lower(a)[k] < lower(b)[k])
      ensures lower(a) == lower(b) && k < |a| && k < |b| && a[..k] == b[..k] && a[k] != b[k] ==>
                (Precedes(a, b) <==> a[k] < b[k])
    {
      hide Distance;
      if k < |lower(a)| && k < |lower(b)| && lower(a)[..k] == lower(b)[..k] {
        FirstDifferenceDecides(lower(a), lower(b), k);
      }
      if k < |a| && k < |b| && a[..k] == b[..k] { FirstDifferenceDecides(a, b, k); }
    }

    lemma {:induction false} PrecedesIsTotal(a: string, b: string)
      ensures Precedes(a, b) || Precedes(b, a)
      ensures Precedes(a, b) && Precedes(b, a) ==> a == b
    {
      AtMostIsTotal(lower(a), lower(b));
      AtMostIsTotal(a, b);
    }

    lemma {:induction false} PrecedesIsTransitive(a: string, b: string, c: string)
      requires Precedes(a, b) && Precedes(b, c)
      ensures Precedes(a, c)
    {
      if To(a) == To(b) == To(c) {
        AtMostIsTotal(lower(a), lower(b));
        AtMostIsTotal(lower(b), lower(c));
        if AtMost(lower(a), lower(b)) && AtMost(lower(b), lower(c)) {
          AtMostIsTransitive(lower(a), lower(b), lower(c));
        }
        AtMostIsTotal(lower(a), lower(c));
        if AtMost(a, b) && AtMost(b, c) { AtMostIsTransitive(a, b, c); }
      }
    }

    /** `best` is the least of the candidates within the bound, if there are any. */
    ghost predicate IsBest(candidates: seq<string>, best: Option<string>) {
      match best
      case None => forall c <- candidates :: To(c) > Bound()
      case Some(b) =>
        b in candidates && To(b) <= Bound() && forall c <- candidates :: To(c) <= Bound() ==> Precedes(b, c)
    }

    /** The least candidate of a list, the earlier one first. */
    function Least(candidates: seq<string>): (best: Option<string>)
      ensures IsBest(candidates, best)
    {
      if candidates == [] then None
      else
        var n := |candidates| - 1;
        var c, best := candidates[n], Least(candidates[..n]);
        assert candidates == candidates[..n] + [c];
        if To(c) > Bound() then best
        else if best == None then
          PrecedesIsTotal(c, c);
          Some(c)
        else
          PrecedesIsTotal(best.value, c);
          if Precedes(best.value, c) then best
          else
            assert forall d <- candidates[..n] :: To(d) <= Bound() ==> Precedes(c, d) by {
              forall d | d in candidates[..n] && To(d) <= Bound() ensures Precedes(c, d) {
                PrecedesIsTransitive(c, best.value, d);
              }
            }
            PrecedesIsTotal(c, c);
            Some(c)
    }

    function Closest(candidates: seq<string>): (best: Option<string>)
      ensures query == "" ==> best == None
      ensures query != "" ==>
                var n := |lower(query)|;
                var bound := if n <= 3 then 1 else if n <= 6 then 2 else 3;
                match best
                case None => forall c <- candidates :: Distance(lower(query), lower(c)) > bound
                case Some(b) =>
                  && b in candidates && Distance(lower(query), lower(b)) <= bound
                  && forall c <- candidates :: Distance(lower(query), lower(c)) <= bound ==> Precedes(b, c)
    {
      if query == "" then None else Least(candidates)
    }

    /** The answer depends only on which candidates there are. */
    lemma {:induction false} ClosestIsUnique(candidates: seq<string>, shuffled: seq<string>)
      requires forall c :: c in candidates <==> c in shuffled
      ensures Closest(candidates) == Closest(shuffled)
    {
      var a, b := Closest(candidates), Closest(shuffled);
      if a.Some? && b.Some? { PrecedesIsTotal(a.value, b.value); }
    }
  }
}
