/**
 * The few JavaScript built-ins the game logic relies on, with their
 * JavaScript meaning written out: the truncating `%` operator,
 * `Math.round`, the `Math.floor(Math.random() * n)` index idiom, and the
 * `filter` and `find` methods of arrays.
 */
module JsBuiltins {
  import opened Wrappers

  /** JavaScript `a % b` for a positive divisor: the remainder takes the sign of the dividend. */
  function Rem(a: int, b: int): (r: int)
    requires b > 0
    ensures -b < r < b
    ensures a >= 0 ==> r >= 0
    ensures a < 0 ==> r <= 0
    ensures (a - r) % b == 0
  {
    if a >= 0 then
      var q := a / b;
      assert a - a % b == q * b;
      ModUnique(a - a % b, b, q, 0);
      a % b
    else
      var q := (-a) / b;
      assert a + (-a) % b == (-q) * b;
      ModUnique(a + (-a) % b, b, -q, 0);
      -((-a) % b)
  }

  lemma MulAtLeast(d: int, n: int)
    requires d >= 1 && n > 0
    ensures d * n >= n
  {
    if d > 1 {
      MulAtLeast(d - 1, n);
      assert d * n == (d - 1) * n + n;
    }
  }

  /** Dafny's `%` is Euclidean: x == q * n + r with r in [0, n) makes r the remainder. */
  lemma ModUnique(x: int, n: int, q: int, r: int)
    requires n > 0 && 0 <= r < n
    requires x == q * n + r
    ensures x % n == r
  {
    var q', r' := x / n, x % n;
    assert x == q' * n + r';
    assert (q - q') * n == r' - r;
    if q > q' {
      MulAtLeast(q - q', n);
    } else if q < q' {
      MulAtLeast(q' - q, n);
    }
  }

  /** Two integers that differ by a multiple of n have the same Euclidean remainder. */
  lemma ModCongruent(x: int, y: int, n: int)
    requires n > 0 && (x - y) % n == 0
    ensures x % n == y % n
  {
    var k, q := (x - y) / n, y / n;
    assert x - y == k * n + 0;
    assert y == q * n + y % n;
    assert x == (k + q) * n + y % n;
    ModUnique(x, n, k + q, y % n);
  }

  /** Adding to a remainder and reducing again is the same as adding first. */
  lemma ModShift(x: int, y: int, n: int)
    requires n > 0
    ensures (x % n + y) % n == (x + y) % n
  {
    ModUnique(x - x % n, n, x / n, 0);
    ModCongruent(x + y, x % n + y, n);
  }

  /** JavaScript `Math.round`: the nearest integer, halves rounded up (towards +infinity). */
  function Round(x: real): (r: int)
    ensures r as real - 0.5 <= x < r as real + 0.5
  {
    (x + 0.5).Floor
  }

  /** `Math.floor(random * length)` with `random` drawn by `Math.random()` from [0, 1). */
  function RandomIndex(random: real, length: nat): (k: nat)
    requires 0.0 <= random < 1.0
    requires length > 0
    ensures k < length
  {
    var x := random * length as real;
    assert 0.0 <= x < length as real by {
      assert random * length as real < 1.0 * length as real;
    }
    x.Floor
  }

  /** Every index can be drawn: `random == k / length` selects index k. */
  lemma RandomIndexOnto(k: nat, length: nat)
    requires k < length
    ensures 0.0 <= k as real / length as real < 1.0
    ensures RandomIndex(k as real / length as real, length) == k
  {
    var r := k as real / length as real;
    assert r * length as real == k as real;
  }

  /** A die throw: `Math.floor(Math.random() * 6) + 1`. */
  function RollDie(random: real): (n: int)
    requires 0.0 <= random < 1.0
    ensures 1 <= n <= 6
  {
    RandomIndex(random, 6) + 1
  }

  /** `Array.prototype.filter`: the elements that satisfy `keep`, in their original order. */
  function Filter<T>(s: seq<T>, keep: T -> bool): (r: seq<T>)
    ensures |r| <= |s|
    ensures forall x :: x in r ==> x in s && keep(x)
    ensures forall x :: x in s && keep(x) ==> x in r
  {
    if s == [] then []
    else if keep(s[0]) then [s[0]] + Filter(s[1..], keep)
    else Filter(s[1..], keep)
  }

  /** Filtering a concatenation filters each part and keeps the parts in order. */
  lemma {:induction false} FilterAppend<T>(a: seq<T>, b: seq<T>, keep: T -> bool)
    ensures Filter(a + b, keep) == Filter(a, keep) + Filter(b, keep)
  {
    if a == [] {
      assert a + b == b;
    } else {
      assert (a + b)[1..] == a[1..] + b;
      FilterAppend(a[1..], b, keep);
    }
  }

  /** Filtering keeps everything exactly when every element passes. */
  lemma {:induction false} FilterAll<T>(s: seq<T>, keep: T -> bool)
    ensures (Filter(s, keep) == s) <==> (forall i :: 0 <= i < |s| ==> keep(s[i]))
  {
    if s != [] {
      FilterAll(s[1..], keep);
      if !keep(s[0]) {
        assert |Filter(s, keep)| < |s| by {
          assert Filter(s, keep) == Filter(s[1..], keep);
        }
      } else {
        assert forall i :: 1 <= i < |s| ==> s[i] == s[1..][i - 1];
      }
    }
  }

  /** `Array.prototype.find`: the first element that satisfies `test`, if any. */
  function Find<T>(s: seq<T>, test: T -> bool): (r: Option<T>)
    ensures r.None? <==> forall i :: 0 <= i < |s| ==> !test(s[i])
    ensures r.Some? ==> exists i :: 0 <= i < |s| && s[i] == r.value && test(s[i]) &&
                                    forall j :: 0 <= j < i ==> !test(s[j])
  {
    if s == [] then None
    else if test(s[0]) then Some(s[0])
    else
      var r := Find(s[1..], test);
      assert forall i :: 1 <= i < |s| ==> s[i] == s[1..][i - 1];
      r
  }
}
