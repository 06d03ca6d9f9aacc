/** The wrapping counter that names routers, transports and members. */
module IdGenerator {

  const MAX_COUNTER: nat := 0x1F_FFFF_FFFF_FFFF // Number.MAX_SAFE_INTEGER

  /** The n-th id (from 0) a generator hands out when its counter starts at `start`. */
  function NthId(start: nat, n: nat): nat {
    (start + n) % MAX_COUNTER
  }

  class ProcessCounterIdGenerator {
    var counter: nat

    constructor ()
      ensures Valid() && counter == 0
    {
      counter := 0;
    }

    ghost predicate Valid()
      reads this
    {
      counter < MAX_COUNTER
    }

    method Next() returns (id: nat)
      requires Valid()
      modifies this
      ensures Valid() && id == NthId(old(counter), 0)
      ensures forall n: nat :: NthId(counter, n) == NthId(old(counter), n + 1)
    {
      id := counter;
      counter := (counter + 1) % MAX_COUNTER;
      forall n: nat ensures NthId(counter, n) == NthId(old(counter), n + 1) {
        AddedBeforeWrapping(old(counter) + 1, n);
      }
    }
  }

  lemma {:induction false} AddedBeforeWrapping(a: nat, n: nat)
    ensures (a % MAX_COUNTER + n) % MAX_COUNTER == (a + n) % MAX_COUNTER
  {
    assert a + n == (a % MAX_COUNTER + n) + MAX_COUNTER * (a / MAX_COUNTER);
    MultiplesVanish(a % MAX_COUNTER + n, a / MAX_COUNTER);
  }

  lemma {:induction false} MultiplesVanish(a: nat, k: nat)
    ensures (a + MAX_COUNTER * k) % MAX_COUNTER == a % MAX_COUNTER
  {
    if k > 0 {
      MultiplesVanish(a, k - 1);
      assert a + MAX_COUNTER * k == (a + MAX_COUNTER * (k - 1)) + MAX_COUNTER;
    }
  }

  /** Two calls return the same id exactly when a whole number of wraps lies between them. */
  lemma {:induction false} ReusedExactlyAfterAWrap(start: nat, i: nat, j: nat)
    requires i <= j
    ensures NthId(start, i) == NthId(start, j) <==> (j - i) % MAX_COUNTER == 0
    ensures i < j < i + MAX_COUNTER ==> NthId(start, i) != NthId(start, j)
  {
    var d := j - i;
    AddedBeforeWrapping(start + i, d);
    AddedBeforeWrapping(d, (start + i) % MAX_COUNTER);
    var a, b := (start + i) % MAX_COUNTER, d % MAX_COUNTER;
    assert (a + d) % MAX_COUNTER == (start + j) % MAX_COUNTER;
    assert (b + a) % MAX_COUNTER == (start + j) % MAX_COUNTER;
    if a + b < MAX_COUNTER {
      assert (a + b) % MAX_COUNTER == a + b;
    } else {
      assert (a + b) % MAX_COUNTER == a + b - MAX_COUNTER;
    }
  }
}
