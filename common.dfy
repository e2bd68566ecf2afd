/** Shared vocabulary of the model: an optional value, real-valued helpers for
    the arithmetic the simulator writes inline, and the order-independent sum
    of a dictionary's values (`sum(d.values())`). */
module Common {

  datatype Option<+T> = None | Some(value: T)

  function Abs(x: real): (r: real)
    ensures r >= 0.0 && (r == x || r == -x)
  {
    if x < 0.0 then -x else x
  }

  function Min(x: real, y: real): (r: real)
    ensures r <= x && r <= y && (r == x || r == y)
  {
    if x <= y then x else y
  }

  function Max(x: real, y: real): (r: real)
    ensures r >= x && r >= y && (r == x || r == y)
  {
    if x >= y then x else y
  }

  /** The facts about a real quotient that the ratios of the model rely on. */
  lemma QuotientFacts(x: real, y: real)
    requires y != 0.0
    ensures (x / y) * y == x
    ensures x >= 0.0 && y > 0.0 ==> x / y >= 0.0
    ensures 0.0 <= x <= y ==> x / y <= 1.0
  {
  }

  /** Sum of a list of reals, as Python's `sum(list)`. */
  function SeqSum(s: seq<real>): real
  {
    if s == [] then 0.0 else SeqSum(s[..|s| - 1]) + s[|s| - 1]
  }

  /** Sum of the values of a dictionary. The sum of reals does not depend on the
      order in which the keys are visited; MapSumRemove states this. */
  ghost function MapSum<K>(m: map<K, real>): real
    decreases |m|
  {
    if |m| == 0 then 0.0
    else
      var k := Pick(m);
      m[k] + MapSum(m - {k})
  }

  /** Some key of a non-empty map. */
  ghost function Pick<K>(m: map<K, real>): (k: K)
    requires |m| > 0
    ensures k in m
  {
    assert m.Keys != {};
    var k :| k in m; k
  }

  /** Any key may be taken out first: the sum is independent of visiting order. */
  lemma {:induction false} MapSumRemove<K>(m: map<K, real>, k: K)
    requires k in m
    ensures MapSum(m) == m[k] + MapSum(m - {k})
    decreases |m|
  {
    var j := Pick(m);
    if j != k {
      var mj, mk := m - {j}, m - {k};
      assert |mj| < |m| && |mk| < |m|;
      assert k in mj && j in mk;
      MapSumRemove(mj, k);
      MapSumRemove(mk, j);
      assert mj - {k} == mk - {j};
    }
  }

  /** Changing one entry changes the sum by exactly the difference. */
  lemma MapSumUpdate<K>(m: map<K, real>, k: K, x: real)
    requires k in m
    ensures MapSum(m[k := x]) == MapSum(m) - m[k] + x
  {
    var m' := m[k := x];
    MapSumRemove(m, k);
    MapSumRemove(m', k);
    assert m' - {k} == m - {k};
  }

  /** Adding x to one entry adds x to the sum. */
  lemma MapSumAdd<K>(m: map<K, real>, k: K, x: real)
    requires k in m
    ensures MapSum(m[k := m[k] + x]) == MapSum(m) + x
  {
    MapSumUpdate(m, k, m[k] + x);
  }

  /** Subtracting x from one entry subtracts x from the sum. */
  lemma MapSumSub<K>(m: map<K, real>, k: K, x: real)
    requires k in m
    ensures MapSum(m[k := m[k] - x]) == MapSum(m) - x
  {
    MapSumUpdate(m, k, m[k] - x);
  }

  /** Every value non-negative makes the sum non-negative. */
  lemma {:induction false} MapSumNonNegative<K>(m: map<K, real>)
    requires forall k :: k in m ==> m[k] >= 0.0
    ensures MapSum(m) >= 0.0
    decreases |m|
  {
    if |m| > 0 {
      var k :| k in m;
      MapSumRemove(m, k);
      MapSumNonNegative(m - {k});
    }
  }

  /** `sum(d.values())`: visits the keys in some order and accumulates. */
  method SumValues<K>(m: map<K, real>) returns (s: real)
    ensures s == MapSum(m)
  {
    s := 0.0;
    var rest := m;
    while rest != map[]
      invariant rest.Keys <= m.Keys
      invariant forall k :: k in rest ==> rest[k] == m[k]
      invariant s + MapSum(rest) == MapSum(m)
      decreases |rest|
    {
      var k :| k in rest;
      MapSumRemove(rest, k);
      s := s + rest[k];
      rest := rest - {k};
    }
  }
}
