/** The round-robin choice of a worker for each new router. */
module RoundRobin {
  import opened Common

  class RoundRobinStrategy {
    var counter: nat

    constructor ()
      ensures counter == 0
    {
      counter := 0;
    }

    /** `None` is the error for an empty list, which leaves the counter alone. */
    method Pick(ids: seq<int>) returns (picked: Option<int>)
      modifies this
      ensures ids == [] ==> picked == None && counter == old(counter)
      ensures ids != [] ==> picked == Some(ids[old(counter) % |ids|]) == Some(Choice(old(counter), ids))
      ensures ids != [] ==> counter == old(counter) + 1
    {
      if |ids| == 0 { return None; }
      RemainderIsModulo(counter, |ids|);
      var idx := counter % |ids|;
      counter := counter + 1;
      picked := Some(ids[idx]);
    }
  }

  function Choice(counter: nat, ids: seq<int>): int
    requires ids != []
  {
    ids[Remainder(counter, |ids|)]
  }

  /** `m` picks on one list, from a counter that need not start at 0. */
  function Picks(counter: nat, ids: seq<int>, m: nat): (picks: seq<int>)
    requires ids != []
    ensures |picks| == m
  {
    if m == 0 then [] else Picks(counter, ids, m - 1) + [Choice(counter + m - 1, ids)]
  }

  ghost predicate Distinct(ids: seq<int>) {
    forall i, j :: 0 <= i < j < |ids| ==> ids[i] != ids[j]
  }

  /** How many of the numbers below `x` leave remainder `k` when divided by `n`. */
  function Hits(k: nat, n: nat, x: nat): nat
    requires k < n
  {
    if x == 0 then 0 else Hits(k, n, x - 1) + (if Remainder(x - 1, n) == k then 1 else 0)
  }

  function Remainder(x: nat, n: nat): (r: nat)
    requires n > 0
    ensures r < n
  {
    if x < n then x else Remainder(x - n, n)
  }

  lemma {:induction false} RemainderIsModulo(x: nat, n: nat)
    requires n > 0
    ensures Remainder(x, n) == x % n
  {
    if x < n {
      QuotientIs(x, n, 0, x);
    } else {
      RemainderIsModulo(x - n, n);
      var q, r := (x - n) / n, (x - n) % n;
      assert x == n * q + r + n == n * (q + 1) + r;
      QuotientIs(x, n, q + 1, r);
    }
  }

  lemma {:induction false} QuotientIs(a: nat, n: nat, q: nat, r: nat)
    requires n > 0 && a == n * q + r && r < n
    ensures a / n == q && a % n == r
  {
    var d := a / n - q;
    assert n * d == n * (a / n) - n * q;
    Multiple(n, d);
  }

  /** A nonzero multiple of `n` is at least `n` away from 0. */
  lemma {:induction false} Multiple(n: nat, d: int)
    ensures d >= 1 ==> n * d >= n
    ensures d <= -1 ==> n * d + n <= 0
  {}

  lemma {:induction false} DivideNext(a: nat, n: nat)
    requires n > 0
    ensures (a + 1) / n == a / n + (if (a + 1) % n == 0 then 1 else 0)
  {
    var q, r := a / n, a % n;
    assert a == n * q + r;
    if r == n - 1 {
      assert a + 1 == n * (q + 1);
      QuotientIs(a + 1, n, q + 1, 0);
    } else {
      QuotientIs(a + 1, n, q, r + 1);
    }
  }

  lemma {:induction false} RemainderShift(x: nat, n: nat, k: nat)
    requires k < n
    ensures (x + n - k) % n == 0 <==> x % n == k
  {
    var q, r := x / n, x % n;
    assert x == n * q + r;
    if r >= k {
      assert n * (q + 1) == n * q + n;
      QuotientIs(x + n - k, n, q + 1, r - k);
    } else {
      QuotientIs(x + n - k, n, q, r + n - k);
    }
  }

  lemma {:induction false} HitsInClosedForm(k: nat, n: nat, x: nat)
    requires k < n
    ensures Hits(k, n, x) == (x + n - 1 - k) / n
  {
    if x == 0 {
      QuotientIs(n - 1 - k, n, 0, n - 1 - k);
    } else {
      HitsInClosedForm(k, n, x - 1);
      DivideNext(x + n - 2 - k, n);
      RemainderShift(x - 1, n, k);
      RemainderIsModulo(x - 1, n);
    }
  }

  function Times(s: seq<int>, id: int): nat {
    if s == [] then 0 else Times(s[..|s| - 1], id) + (if s[|s| - 1] == id then 1 else 0)
  }

  lemma {:induction false} TimesIsMultiplicity(s: seq<int>, id: int)
    ensures multiset(s)[id] == Times(s, id)
  {
    if s != [] {
      TimesIsMultiplicity(s[..|s| - 1], id);
      assert s == s[..|s| - 1] + [s[|s| - 1]];
    }
  }

  /** The picks of the id at position `k` are the counter values that leave remainder `k`. */
  lemma {:induction false} PicksOfOne(counter: nat, ids: seq<int>, m: nat, k: nat)
    requires Distinct(ids) && k < |ids|
    ensures Times(Picks(counter, ids, m), ids[k]) == Hits(k, |ids|, counter + m) - Hits(k, |ids|, counter)
  {
    if m == 0 {
      assert Picks(counter, ids, m) == [];
    } else {
      var fewer, all := Times(Picks(counter, ids, m - 1), ids[k]), Times(Picks(counter, ids, m), ids[k]);
      var start, x := Hits(k, |ids|, counter), counter + m - 1;
      assert fewer == Hits(k, |ids|, x) - start by {
        PicksOfOne(counter, ids, m - 1, k);
        assert counter + (m - 1) == x;
      }
      assert all - fewer == Hits(k, |ids|, x + 1) - Hits(k, |ids|, x) by {
        OnePickMore(counter, ids, m, k);
      }
    }
  }

  lemma {:induction false} OnePickMore(counter: nat, ids: seq<int>, m: nat, k: nat)
    requires Distinct(ids) && k < |ids| && m > 0
    ensures Times(Picks(counter, ids, m), ids[k]) - Times(Picks(counter, ids, m - 1), ids[k])
            == Hits(k, |ids|, counter + m) - Hits(k, |ids|, counter + m - 1)
  {
    var j := Remainder(counter + m - 1, |ids|);
    var before := Picks(counter, ids, m - 1);
    assert (before + [ids[j]])[..|before|] == before;
    SamePosition(ids, j, k);
  }

  lemma {:induction false} SamePosition(ids: seq<int>, j: nat, k: nat)
    requires Distinct(ids) && j < |ids| && k < |ids|
    ensures ids[j] == ids[k] <==> j == k
  {
    if j < k { assert ids[j] != ids[k]; } else if k < j { assert ids[k] != ids[j]; }
  }

  /** Fairness: over `m` picks every listed id is chosen floor(m/n) or ceil(m/n) times. */
  lemma {:induction false} PickedFairly(counter: nat, ids: seq<int>, m: nat, id: int)
    requires Distinct(ids) && id in ids
    ensures var picked, n := multiset(Picks(counter, ids, m))[id], |ids|;
            m / n <= picked <= m / n + (if m % n == 0 then 0 else 1)
  {
    var k: nat :| k < |ids| && ids[k] == id;
    PicksOfOne(counter, ids, m, k);
    TimesIsMultiplicity(Picks(counter, ids, m), id);
    HitsBetween(k, |ids|, counter, m);
  }

  lemma {:induction false} HitsBetween(k: nat, n: nat, x: nat, m: nat)
    requires k < n
    ensures m / n <= Hits(k, n, x + m) - Hits(k, n, x) <= m / n + (if m % n == 0 then 0 else 1)
  {
    HitsInClosedForm(k, n, x);
    HitsInClosedForm(k, n, x + m);
    DivideSum(x + n - 1 - k, m, n);
  }

  lemma {:induction false} DivideSum(a: nat, m: nat, n: nat)
    requires n > 0
    ensures a / n + m / n <= (a + m) / n <= a / n + m / n + (if m % n == 0 then 0 else 1)
  {
    SumOfParts(a / n, a % n, m / n, m % n, n);
    assert a == n * (a / n) + a % n && m == n * (m / n) + m % n;
  }

  lemma {:induction false} SumOfParts(p: nat, r: nat, q: nat, s: nat, n: nat)
    requires r < n && s < n
    ensures var total := n * p + r + (n * q + s); total / n == if r + s < n then p + q else p + q + 1
  {
    assert n * (p + q) == n * p + n * q;
    if r + s < n {
      QuotientIs(n * p + r + (n * q + s), n, p + q, r + s);
    } else {
      assert n * (p + q + 1) == n * (p + q) + n;
      QuotientIs(n * p + r + (n * q + s), n, p + q + 1, r + s - n);
    }
  }

  /** Any `n` consecutive picks on `n` distinct ids are a permutation of them. */
  lemma {:induction false} ConsecutivePicksPermute(counter: nat, ids: seq<int>)
    requires Distinct(ids) && ids != []
    ensures multiset(Picks(counter, ids, |ids|)) == multiset(ids)
  {
    var picks := Picks(counter, ids, |ids|);
    PicksAreListed(counter, ids, |ids|);
    forall id ensures multiset(picks)[id] == multiset(ids)[id] {
      if id in ids {
        PickedFairly(counter, ids, |ids|, id);
        QuotientIs(|ids|, |ids|, 1, 0);
        OccursOnce(ids, id);
      } else {
        assert id !in multiset(ids) && id !in multiset(picks);
      }
    }
  }

  lemma {:induction false} PicksAreListed(counter: nat, ids: seq<int>, m: nat)
    requires ids != []
    ensures forall i :: 0 <= i < m ==> Picks(counter, ids, m)[i] in ids
  {
    if m > 0 { PicksAreListed(counter, ids, m - 1); }
  }

  lemma {:induction false} OccursOnce(ids: seq<int>, id: int)
    requires Distinct(ids) && id in ids
    ensures multiset(ids)[id] == 1
  {
    var k: nat :| k < |ids| && ids[k] == id;
    assert ids == ids[..k] + [id] + ids[k + 1..];
    assert id !in multiset(ids[..k]) && id !in multiset(ids[k + 1..]);
  }
}
