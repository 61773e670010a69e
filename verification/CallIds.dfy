/** The wrapping call ID generator of core/callIDs/call_id_generator.c. */
module CallIds {
  import opened Arithmetic

  const INT_MAX := 0x7fff_ffff

  /** The generator's step: what one call makes of the counter, and hands out. */
  function Next(callId: int): int {
    if callId < INT_MAX then callId + 1 else 1
  }

  /** The counter after `draws` calls on a generator that starts at 0. */
  function CounterAfter(draws: nat): int {
    if draws == 0 then 0 else Next(CounterAfter(draws - 1))
  }

  lemma {:induction false} KthId(k: nat)
    requires k > 0
    ensures CounterAfter(k) == (k - 1) % INT_MAX + 1
    ensures 1 <= CounterAfter(k) <= INT_MAX
  {
    if k > 1 {
      KthId(k - 1);
      var q, r := (k - 2) / INT_MAX, (k - 2) % INT_MAX;
      assert k - 1 == INT_MAX * q + (r + 1);
      if r + 1 == INT_MAX {
        assert k - 1 == INT_MAX * (q + 1);
      }
    }
  }

  /** The IDs count up from 1 to the largest C int and begin again. */
  lemma IdsCountUp(k: nat)
    requires k > 0
    ensures CounterAfter(1) == 1
    ensures CounterAfter(k + 1) == if CounterAfter(k) == 2_147_483_647 then 1 else CounterAfter(k) + 1
  {
    KthId(k);
  }

  /** Two draws return the same ID exactly when their numbers differ by a multiple of INT_MAX. */
  lemma SameIdIff(i: nat, j: nat)
    requires i > 0 && j > 0
    ensures CounterAfter(i) == CounterAfter(j) <==> (i - j) % INT_MAX == 0
  {
    KthId(i);
    KthId(j);
    SameRemainder(i - 1, j - 1, INT_MAX);
  }

  lemma SameRemainder(a: int, b: int, m: int)
    requires m > 0
    ensures a % m == b % m <==> (a - b) % m == 0
  {
    var p, q, t := a / m, b / m, (a - b) / m;
    assert a == m * p + a % m && b == m * q + b % m;
    if a % m == b % m {
      assert a - b == m * (p - q);
      MultipleIff(a - b, p - q, m);
    } else if (a - b) % m == 0 {
      assert a % m - b % m == m * (t - (p - q));
      SmallMultiple(a % m - b % m, t - (p - q), m);
    }
  }

  lemma MultipleIff(d: int, q: int, m: int)
    requires m > 0 && d == m * q
    ensures d % m == 0
  {
    var t := d / m;
    assert d == m * t + d % m;
    assert d % m == m * (q - t);
    SmallMultiple(d % m, q - t, m);
  }

  lemma SmallMultiple(d: int, q: int, m: int)
    requires m > 0 && -m < d < m && d == m * q
    ensures d == 0
  {
    MultipleGrows(q, m);
  }

  /** Any INT_MAX consecutive IDs are distinct. */
  lemma WindowIsDistinct(i: nat, j: nat)
    requires 0 < i < j && j - i < INT_MAX
    ensures CounterAfter(i) != CounterAfter(j)
  {
    SameIdIff(j, i);
  }

  class CallIdGenerator {
    var callId: int
    ghost var draws: nat

    ghost predicate Valid()
      reads this
    {
      callId == CounterAfter(draws)
    }

    constructor Init()
      ensures Valid() && draws == 0
    {
      callId := 0;
      draws := 0;
    }

    method Generate() returns (result: int)
      requires Valid()
      modifies this
      ensures Valid() && draws == old(draws) + 1
      ensures result == CounterAfter(draws) && 1 <= result <= INT_MAX
    {
      if callId < INT_MAX {
        callId := callId + 1;
      } else {
        callId := 1;
      }
      result := callId;
      draws := draws + 1;
      KthId(draws);
    }
  }
}
