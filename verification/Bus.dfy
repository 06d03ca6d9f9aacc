/** The in-process bus: `publish` synchronously calls every current consumer of a queue, in registration order, over a
    set that a consumer may shrink by cancelling itself or others while it is being called.  A callback is named by a
    number; `cancels` says what it cancels when called. */
module Bus {

  ghost predicate Distinct(cs: seq<int>) {
    forall i, j :: 0 <= i < j < |cs| ==> cs[i] != cs[j]
  }

  function Without(cs: seq<int>, gone: set<int>): (rest: seq<int>)
    ensures forall c :: c in rest <==> c in cs && c !in gone
    ensures |rest| <= |cs|
    ensures Distinct(cs) ==> Distinct(rest)
  {
    if cs == [] then []
    else
      var rest := Without(cs[1..], gone);
      assert cs == [cs[0]] + cs[1..];
      if cs[0] in gone then rest else [cs[0]] + rest
  }

  function CancelledBy(cancels: map<int, set<int>>, c: int): set<int> {
    if c in cancels then cancels[c] else {}
  }

  /** The callbacks that get the message. */
  function Called(cs: seq<int>, cancels: map<int, set<int>>): (called: seq<int>)
    ensures forall c :: c in called ==> c in cs
    decreases |cs|
  {
    if cs == [] then []
    else [cs[0]] + Called(Without(cs[1..], CancelledBy(cancels, cs[0])), cancels)
  }

  /** What is left registered of `cs` after these were called. */
  function Left(cs: seq<int>, called: seq<int>, cancels: map<int, set<int>>): seq<int> {
    if called == [] then cs
    else Without(Left(cs, called[..|called| - 1], cancels), CancelledBy(cancels, called[|called| - 1]))
  }

  /** Each of them gets it once, in that order. */
  function Deliveries(called: seq<int>, payload: int): (calls: seq<(int, int)>)
    ensures |calls| == |called| && forall i :: 0 <= i < |called| ==> calls[i] == (called[i], payload)
  {
    if called == [] then [] else Deliveries(called[..|called| - 1], payload) + [(called[|called| - 1], payload)]
  }

  // ----- Who is called -----

  ghost predicate Before(cs: seq<int>, a: int, b: int) {
    exists i, j :: 0 <= i < j < |cs| && cs[i] == a && cs[j] == b
  }

  lemma {:induction false} BeforeFromTheHead(cs: seq<int>, a: int, b: int)
    requires cs != [] && Distinct(cs)
    ensures Before(cs, a, b) <==> (a == cs[0] && b in cs[1..]) || Before(cs[1..], a, b)
  {
    if Before(cs, a, b) {
      var i, j :| 0 <= i < j < |cs| && cs[i] == a && cs[j] == b;
      assert cs[1..][j - 1] == b && (i > 0 ==> cs[1..][i - 1] == a);
    }
    if a == cs[0] && b in cs[1..] {
      var j: nat :| j < |cs[1..]| && cs[1..][j] == b;
      assert cs[j + 1] == b;
    }
    if Before(cs[1..], a, b) {
      var i, j :| 0 <= i < j < |cs[1..]| && cs[1..][i] == a && cs[1..][j] == b;
      assert cs[i + 1] == a && cs[j + 1] == b;
    }
  }

  lemma {:induction false} OrderIsKept(cs: seq<int>, gone: set<int>, a: int, b: int)
    requires Distinct(cs)
    ensures Before(Without(cs, gone), a, b) <==> Before(cs, a, b) && a !in gone && b !in gone
    decreases |cs|
  {
    if cs == [] {
      assert Without(cs, gone) == [];
    } else {
      OrderIsKept(cs[1..], gone, a, b);
      BeforeFromTheHead(cs, a, b);
      if cs[0] !in gone {
        BeforeFromTheHead(Without(cs, gone), a, b);
        assert Without(cs, gone)[1..] == Without(cs[1..], gone);
      } else {
        OnlyOwnElements(Without(cs, gone), a, b);
      }
    }
  }

  lemma {:induction false} OnlyOwnElements(cs: seq<int>, a: int, b: int)
    ensures Before(cs, a, b) ==> a in cs && b in cs
  {}

  /** A registered callback is called exactly when no callback that is called before it cancels it. */
  lemma {:induction false} CalledUnlessCancelled(cs: seq<int>, cancels: map<int, set<int>>, c: int)
    requires Distinct(cs) && c in cs
    ensures c in Called(cs, cancels)
            <==> forall d :: d in Called(cs, cancels) && Before(cs, d, c) ==> c !in CancelledBy(cancels, d)
    decreases |cs|
  {
    var h := cs[0];
    var gone := CancelledBy(cancels, h);
    var rest := Without(cs[1..], gone);
    assert cs == [h] + cs[1..];
    forall d
      ensures Before(cs, d, c) <==> (d == h && c in cs[1..]) || Before(cs[1..], d, c)
    {
      BeforeFromTheHead(cs, d, c);
    }
    forall d
      ensures Before(rest, d, c) <==> Before(cs[1..], d, c) && d !in gone && c !in gone
    {
      OrderIsKept(cs[1..], gone, d, c);
    }
    forall d ensures Before(cs[1..], d, c) ==> d in cs[1..] && c in cs[1..] { OnlyOwnElements(cs[1..], d, c); }
    assert Called(cs, cancels) == [h] + Called(rest, cancels);
    if c in rest {
      CalledUnlessCancelled(rest, cancels, c);
    } else if c != h {
      assert h in Called(cs, cancels) && Before(cs, h, c);
    }
  }

  /** Nobody is called twice. */
  lemma {:induction false} CalledOnce(cs: seq<int>, cancels: map<int, set<int>>)
    requires Distinct(cs)
    ensures Distinct(Called(cs, cancels))
    decreases |cs|
  {
    if cs != [] {
      var rest := Without(cs[1..], CancelledBy(cancels, cs[0]));
      CalledOnce(rest, cancels);
      assert cs[0] !in cs[1..];
    }
  }

  /** The calls come in the order of registration. */
  lemma {:induction false} CalledInOrder(cs: seq<int>, cancels: map<int, set<int>>, a: int, b: int)
    requires Distinct(cs) && Before(Called(cs, cancels), a, b)
    ensures Before(cs, a, b)
    decreases |cs|
  {
    if cs != [] {
      var gone := CancelledBy(cancels, cs[0]);
      var rest := Without(cs[1..], gone);
      CalledOnce(cs, cancels);
      BeforeFromTheHead(Called(cs, cancels), a, b);
      assert Called(cs, cancels)[1..] == Called(rest, cancels);
      if Before(Called(rest, cancels), a, b) {
        CalledInOrder(rest, cancels, a, b);
        OrderIsKept(cs[1..], gone, a, b);
      }
      BeforeFromTheHead(cs, a, b);
    }
  }

  /** What stays registered is what nobody called has cancelled. */
  lemma {:induction false} LeftUnlessCancelled(cs: seq<int>, called: seq<int>, cancels: map<int, set<int>>, c: int)
    ensures c in Left(cs, called, cancels) <==> c in cs && forall d :: d in called ==> c !in CancelledBy(cancels, d)
    decreases |called|
  {
    if called != [] {
      var n := |called| - 1;
      LeftUnlessCancelled(cs, called[..n], cancels, c);
      assert called == called[..n] + [called[n]];
    }
  }

  class InProcessBus {
    var consumers: map<string, seq<int>> // per queue, in registration order
    var calls: seq<(int, int)>           // callback and payload

    constructor ()
      ensures Valid() && calls == [] && consumers == map[]
    {
      consumers, calls := map[], [];
    }

    ghost predicate Valid()
      reads this
    {
      forall q :: q in consumers ==> Distinct(consumers[q])
    }

    function Of(queue: string): seq<int>
      reads this
    {
      if queue in consumers then consumers[queue] else []
    }

    /** A callback set: consuming twice registers once. */
    method Consume(queue: string, callback: int)
      requires Valid()
      modifies this`consumers
      ensures Valid() && Of(queue) == if callback in old(Of(queue)) then old(Of(queue)) else old(Of(queue)) + [callback]
      ensures consumers - {queue} == old(consumers) - {queue}
    {
      var current := Of(queue);
      if callback !in current { consumers := consumers[queue := current + [callback]]; }
    }

    /** The function `consume` returns. */
    method Cancel(queue: string, callback: int)
      requires Valid()
      modifies this`consumers
      ensures Valid() && Of(queue) == Without(old(Of(queue)), {callback})
      ensures consumers - {queue} == old(consumers) - {queue}
    {
      consumers := consumers[queue := Without(Of(queue), {callback})];
    }

    /** One callback runs, and the ones it cancels leave the set. */
    method Call(queue: string, c: int, payload: int, gone: set<int>)
      requires Valid()
      modifies this
      ensures calls == old(calls) + [(c, payload)]
      ensures Valid() && Of(queue) == Without(old(Of(queue)), gone) && consumers - {queue} == old(consumers) - {queue}
    {
      calls := calls + [(c, payload)];
      consumers := consumers[queue := Without(Of(queue), gone)];
    }

    method Publish(queue: string, payload: int, cancels: map<int, set<int>>)
      requires Valid()
      modifies this
      ensures calls == old(calls) + Deliveries(Called(old(Of(queue)), cancels), payload)
      ensures Valid() && consumers - {queue} == old(consumers) - {queue}
      ensures Of(queue) == Left(old(Of(queue)), Called(old(Of(queue)), cancels), cancels)
    {
      var rest := Of(queue); // not visited yet
      ghost var start, called := rest, [];
      while rest != []
        invariant Valid() && consumers - {queue} == old(consumers) - {queue}
        invariant called + Called(rest, cancels) == Called(start, cancels)
        invariant Of(queue) == Left(start, called, cancels)
        invariant calls == old(calls) + Deliveries(called, payload)
        decreases |rest|
      {
        var c := rest[0];
        Call(queue, c, payload, CancelledBy(cancels, c));
        OneMoreCalled(rest, cancels, called);
        OneMoreLeft(start, called, c, cancels);
        OneMoreDelivery(old(calls), called, c, payload);
        called := called + [c];
        rest := Without(rest[1..], CancelledBy(cancels, c));
      }
      assert called + [] == called;
    }
  }

  lemma {:induction false} OneMoreCalled(rest: seq<int>, cancels: map<int, set<int>>, called: seq<int>)
    requires rest != []
    ensures called + Called(rest, cancels)
            == (called + [rest[0]]) + Called(Without(rest[1..], CancelledBy(cancels, rest[0])), cancels)
  {
    var more := Called(Without(rest[1..], CancelledBy(cancels, rest[0])), cancels);
    assert Called(rest, cancels) == [rest[0]] + more;
    assert called + ([rest[0]] + more) == (called + [rest[0]]) + more;
  }

  lemma {:induction false} OneMoreLeft(cs: seq<int>, called: seq<int>, c: int, cancels: map<int, set<int>>)
    ensures Left(cs, called + [c], cancels) == Without(Left(cs, called, cancels), CancelledBy(cancels, c))
  {
    assert (called + [c])[..|called|] == called;
  }

  lemma {:induction false} OneMoreDelivery(log: seq<(int, int)>, called: seq<int>, c: int, payload: int)
    ensures log + Deliveries(called + [c], payload) == (log + Deliveries(called, payload)) + [(c, payload)]
  {
    assert (called + [c])[..|called|] == called;
  }
}
