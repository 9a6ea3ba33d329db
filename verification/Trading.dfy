/** Vocabulary shared by every part of the model: sides, real arithmetic with
    Python's rounding, and sums over dictionaries. */
module Trading {

  datatype Option<+T> = None | Some(value: T)

  datatype Side = Buy | Sell

  function Opposite(side: Side): Side {
    if side.Buy? then Sell else Buy
  }

  function Max(a: real, b: real): (m: real)
    ensures m >= a && m >= b && (m == a || m == b)
  {
    if a >= b then a else b
  }

  function Min(a: real, b: real): (m: real)
    ensures m <= a && m <= b && (m == a || m == b)
  {
    if a <= b then a else b
  }

  function Abs(a: real): (m: real)
    ensures m >= 0.0 && (m == a || m == -a)
  {
    if a >= 0.0 then a else -a
  }

  /** Python's round(): nearest integer, ties to the even one. */
  function Round(x: real): (n: int)
    ensures Abs(x - n as real) <= 0.5
    ensures Abs(x - n as real) == 0.5 ==> n % 2 == 0
  {
    var down := x.Floor;
    var fraction := x - down as real;
    if fraction < 0.5 || (fraction == 0.5 && down % 2 == 0) then down else down + 1
  }

  /** A whole number of cents. */
  predicate WholeCents(x: real) {
    (x * 100.0).Floor as real == x * 100.0
  }

  /** Python's round(x, 2): the nearest whole number of cents, ties to the even one. */
  function RoundCents(x: real): (r: real)
    ensures (r * 100.0).Floor as real == r * 100.0 && -0.005 <= x - r <= 0.005
    ensures x - r == 0.005 || x - r == -0.005 ==> (r * 100.0).Floor % 2 == 0
    ensures x >= 0.0 ==> r >= 0.0
    ensures x > 0.005 ==> r > 0.0
    ensures x <= 0.0 ==> r <= 0.0
  {
    var n := Round(x * 100.0);
    InCents(x, n);
    n as real / 100.0
  }

  lemma InCents(x: real, n: int)
    requires -0.5 <= x * 100.0 - n as real <= 0.5
    ensures var r := n as real / 100.0;
      && r * 100.0 == n as real && (r * 100.0).Floor == n
      && -0.005 <= x - r <= 0.005 && (x - r) * 100.0 == x * 100.0 - n as real
    ensures x >= 0.0 ==> n >= 0
    ensures x > 0.005 ==> n > 0
    ensures x <= 0.0 ==> n <= 0
  {
    var r := n as real / 100.0;
    assert r * 100.0 == n as real;
  }

  lemma RoundCentsMonotone(x: real, y: real)
    requires x <= y
    ensures RoundCents(x) <= RoundCents(y)
  {
    var down, down' := (x * 100.0).Floor, (y * 100.0).Floor;
    assert down <= down';
  }

  /** A rounded amount is left as it is. */
  lemma RoundCentsTwice(x: real)
    ensures RoundCents(RoundCents(x)) == RoundCents(x)
  {
    var n := Round(x * 100.0);
    assert n as real / 100.0 * 100.0 == n as real;
    assert Round(n as real) == n;
  }

  /** The dictionary lookup `d.get(key, 0.0)`. */
  function Lookup<K>(m: map<K, real>, key: K): real {
    if key in m then m[key] else 0.0
  }

  /** The sum of a dictionary's values. */
  ghost function SumValues<K>(m: map<K, real>): real
    decreases |m|
  {
    if m == map[] then 0.0
    else
      var k :| k in m;
      m[k] + SumValues(m - {k})
  }

  /** Any key may be taken out first. */
  lemma {:induction false} SumWithout<K>(m: map<K, real>, key: K)
    requires key in m
    ensures SumValues(m) == m[key] + SumValues(m - {key})
    decreases |m|
  {
    var first :| first in m && SumValues(m) == m[first] + SumValues(m - {first});
    if first != key {
      SumWithout(m - {first}, key);
      SumWithout(m - {key}, first);
      assert m - {first} - {key} == m - {key} - {first};
    }
  }

  lemma SumSplit<K>(m: map<K, real>, key: K)
    ensures SumValues(m) == Lookup(m, key) + SumValues(m - {key})
  {
    if key in m {
      SumWithout(m, key);
    } else {
      assert m - {key} == m;
    }
  }

  /** Writing one entry moves the sum by that entry's change. */
  lemma SumUpdated<K>(m: map<K, real>, key: K, value: real)
    ensures SumValues(m[key := value]) == SumValues(m) - Lookup(m, key) + value
  {
    SumSplit(m[key := value], key);
    SumSplit(m, key);
    assert m[key := value] - {key} == m - {key};
  }

  /** The sum of `f` over a dictionary's items. */
  ghost function SumOf<K, V>(m: map<K, V>, f: (K, V) -> real): real {
    SumValues(Applied(m, f))
  }

  function Applied<K, V>(m: map<K, V>, f: (K, V) -> real): map<K, real> {
    map k | k in m :: f(k, m[k])
  }

  lemma SumOfWithout<K, V>(m: map<K, V>, f: (K, V) -> real, key: K)
    requires key in m
    ensures SumOf(m, f) == f(key, m[key]) + SumOf(m - {key}, f)
  {
    SumWithout(Applied(m, f), key);
    assert Applied(m, f) - {key} == Applied(m - {key}, f);
  }

  lemma SumOfUpdated<K, V>(m: map<K, V>, f: (K, V) -> real, key: K, value: V)
    ensures SumOf(m[key := value], f)
         == SumOf(m, f) - (if key in m then f(key, m[key]) else 0.0) + f(key, value)
  {
    SumUpdated(Applied(m, f), key, f(key, value));
    assert Applied(m[key := value], f) == Applied(m, f)[key := f(key, value)];
  }

  /** Sums add up item by item. */
  lemma {:induction false} SumOfAdded<K, V>(m: map<K, V>, f: (K, V) -> real, g: (K, V) -> real, h: (K, V) -> real)
    requires forall k | k in m :: f(k, m[k]) == g(k, m[k]) + h(k, m[k])
    ensures SumOf(m, f) == SumOf(m, g) + SumOf(m, h)
    decreases |m|
  {
    if m != map[] {
      var k :| k in m;
      SumOfWithout(m, f, k);
      SumOfWithout(m, g, k);
      SumOfWithout(m, h, k);
      SumOfAdded(m - {k}, f, g, h);
    }
  }

  /** Items that weigh nothing may be left out. */
  lemma {:induction false} SumOfPart<K, V>(m: map<K, V>, part: map<K, V>, f: (K, V) -> real)
    requires forall k | k in part :: k in m && part[k] == m[k]
    requires forall k | k in m && k !in part :: f(k, m[k]) == 0.0
    ensures SumOf(m, f) == SumOf(part, f)
    decreases |m|
  {
    if m != map[] {
      var k :| k in m;
      SumOfWithout(m, f, k);
      if k in part {
        SumOfWithout(part, f, k);
      } else {
        assert part - {k} == part;
      }
      SumOfPart(m - {k}, part - {k}, f);
    } else {
      assert part == m;
    }
  }

  lemma SumOfSame<K, V>(m: map<K, V>, f: (K, V) -> real, g: (K, V) -> real)
    requires forall k | k in m :: f(k, m[k]) == g(k, m[k])
    ensures SumOf(m, f) == SumOf(m, g)
  {
    assert Applied(m, f) == Applied(m, g);
  }

  /** The sum of a list. */
  function Sum(xs: seq<real>): real {
    if |xs| == 0 then 0.0 else Sum(xs[..|xs| - 1]) + xs[|xs| - 1]
  }
}
