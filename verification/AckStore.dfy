/** The abstract value of one acknowledgement store: the tracked codes, oldest
    first.  The client keeps such a store as a hash map plus an order deque. */
module AckStore {
  import opened Protocol

  const CAPACITY: nat := 256

  type Store = seq<Tracked>

  predicate Has(xs: Store, code: AckCode) {
    exists i :: 0 <= i < |xs| && xs[i].code == code
  }

  function Without(xs: Store, code: AckCode): (r: Store)
    ensures |r| <= |xs|
    ensures forall e :: e in r <==> e in xs && e.code != code
  {
    if xs == [] then []
    else if xs[0].code == code then Without(xs[1..], code)
    else [xs[0]] + Without(xs[1..], code)
  }

  function KeepLast(xs: Store, n: nat): (r: Store)
    ensures |r| <= n
  {
    if |xs| <= n then xs else xs[|xs| - n..]
  }

  /** Remove the code, append the entry, keep the newest CAPACITY. */
  function Remember(xs: Store, e: Tracked): Store {
    KeepLast(Without(xs, e.code) + [e], CAPACITY)
  }

  function Find(xs: Store, code: AckCode): (r: Option<Tracked>)
    ensures r.Some? <==> Has(xs, code)
    ensures r.Some? ==> r.value in xs && r.value.code == code
  {
    if xs == [] then None
    else if xs[0].code == code then
      assert Has(xs, code) by { assert xs[0].code == code; }
      Some(xs[0])
    else
      assert Has(xs, code) <==> Has(xs[1..], code) by {
        if Has(xs, code) {
          var i :| 0 <= i < |xs| && xs[i].code == code;
          assert xs[1..][i - 1].code == code;
        }
      }
      Find(xs[1..], code)
  }

  ghost predicate Distinct(xs: Store) {
    forall i, j :: 0 <= i < j < |xs| ==> xs[i].code != xs[j].code
  }

  ghost predicate Good(xs: Store) { |xs| <= 256 && Distinct(xs) }

  lemma {:induction false} WithoutKeepsDistinct(xs: Store, code: AckCode)
    requires Distinct(xs)
    ensures Distinct(Without(xs, code))
  {
    if xs != [] {
      var rest := xs[1..];
      WithoutKeepsDistinct(rest, code);
      if xs[0].code != code {
        var r := Without(rest, code);
        forall i | 0 <= i < |r| ensures r[i].code != xs[0].code {
          assert r[i] in rest;
          var k :| 0 <= k < |rest| && rest[k] == r[i];
          assert rest[k] == xs[k + 1];
        }
      }
    }
  }

  lemma HasIn(xs: Store, code: AckCode)
    ensures Has(xs, code) <==> exists e :: e in xs && e.code == code
  {}

  lemma RememberIsGood(xs: Store, e: Tracked)
    requires Good(xs)
    ensures Good(Remember(xs, e)) && Has(Remember(xs, e), e.code)
    ensures forall c: AckCode :: Has(Remember(xs, e), c) ==> c == e.code || Has(xs, c)
  {
    WithoutKeepsDistinct(xs, e.code);
    var w := Without(xs, e.code);
    assert w + [e] == Remember(xs, e) || (w + [e])[1..] == Remember(xs, e);
    var r := Remember(xs, e);
    assert r[|r| - 1] == e;
    forall c: AckCode | Has(r, c) ensures c == e.code || Has(xs, c) {
      var i :| 0 <= i < |r| && r[i].code == c;
      assert r[i] in w + [e];
      if r[i] != e { assert r[i] in xs; }
    }
  }
}
