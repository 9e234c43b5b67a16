/** The parts of Python and NumPy the oscillator scripts are built on, over the reals:
    `2 ** x` and `np.sin` (uninterpreted), `np.pi`, the float `% 1`, `np.linspace`
    without its end point, `np.cumsum`, array-scalar arithmetic and the exceptions
    the scripts can raise. */
module Runtime {

  /** The two transcendental operations the scripts call, Python's `2 ** x` and
      `np.sin`. Any pair of real functions is a value of this type; `Lawful` lists
      the only facts about them that the model relies on. */
  datatype Primitives = Primitives(pow2: real -> real, sin: real -> real)

  ghost predicate Lawful(m: Primitives) {
    && m.pow2(0.0) == 1.0
    && m.pow2(1.0) == 2.0
    && (forall x :: 0.0 < m.pow2(x))
    && (forall x, y {:trigger Below(x, y)} :: Below(x, y) ==> m.pow2(x) < m.pow2(y))
    && (forall x :: -1.0 <= m.sin(x) <= 1.0)
  }

  /** `x < y`, named so that the monotonicity law of `pow2` is used only where a
      proof mentions it. */
  ghost predicate Below(x: real, y: real) {
    x < y
  }

  /** The laws above can all hold at once: a piecewise rational stand-in for `2 ** x`
      and the constant zero for `sin` satisfy them. */
  lemma LawfulPrimitivesExist()
    ensures exists m :: Lawful(m)
  {
    var p := (x: real) => if x <= 0.0 then 1.0 / (1.0 - x) else 1.0 + x;
    var m := Primitives(p, (x: real) => 0.0);
    forall x: real, y: real | Below(x, y)
      ensures p(x) < p(y)
    {
      if y <= 0.0 {
        StandInIncreasing(x, y);
      } else if x <= 0.0 {
        assert p(x) <= 1.0 by { StandInAtMostOne(x); }
      }
    }
    forall x: real ensures 0.0 < p(x) {
      if x <= 0.0 { assert 0.0 < 1.0 - x; }
    }
    assert Lawful(m);
  }

  lemma StandInIncreasing(x: real, y: real)
    requires x < y <= 0.0
    ensures 1.0 / (1.0 - x) < 1.0 / (1.0 - y)
  {
    var a, b := 1.0 - x, 1.0 - y;
    assert 1.0 <= b < a;
    assert 1.0 / a * a == 1.0 && 1.0 / b * b == 1.0;
    var d := 1.0 / b - 1.0 / a;
    assert d * (a * b) == a - b;
    assert 0.0 < a * b;
  }

  lemma StandInAtMostOne(x: real)
    requires x <= 0.0
    ensures 1.0 / (1.0 - x) <= 1.0
  {
    var a := 1.0 - x;
    assert 1.0 / a * a == 1.0;
  }

  lemma DivideKeepsOrder(x: real, y: real, r: real)
    requires x <= y && 0.0 < r
    ensures x / r <= y / r
  {
    assert y / r - x / r == (y - x) / r;
  }

  lemma DivideKeepsStrictOrder(x: real, y: real, r: real)
    requires x < y && 0.0 < r
    ensures x / r < y / r
  {
    assert y / r - x / r == (y - x) / r;
  }

  /** Multiplying by a non-negative factor keeps order; `cx` and `cy` name the
      two products so that callers can pass them in whatever form they have. */
  lemma ScaleKeepsOrder(c: real, x: real, y: real, cx: real, cy: real)
    requires 0.0 <= c && x <= y && cx == c * x && cy == c * y
    ensures cx <= cy
  {
    assert c * y - c * x == c * (y - x);
  }

  lemma ScaleKeepsStrictOrder(c: real, x: real, y: real, cx: real, cy: real)
    requires 0.0 < c && x < y && cx == c * x && cy == c * y
    ensures cx < cy
  {
    assert c * y - c * x == c * (y - x);
  }

  /** `np.pi` */
  const PI: real := 3.141592653589793

  /** Python's `x % 1` on a float: what is left of `x` once its whole cycles are
      removed. */
  function Frac(x: real): (r: real)
    ensures 0.0 <= r < 1.0
    ensures (x - r).Floor as real == x - r
  {
    x - x.Floor as real
  }

  /** Removing whole cycles first does not change the result of `% 1`, and a value
      already in [0, 1) is left as it is. */
  lemma FracDropsWholeCycles(x: real, k: int)
    ensures Frac(x + k as real) == Frac(x)
    ensures 0.0 <= x < 1.0 ==> Frac(x) == x
  {
    var f := x.Floor;
    assert f as real <= x < f as real + 1.0;
    assert (x + k as real).Floor == f + k;
    if 0.0 <= x < 1.0 {
      assert f == 0;
    }
  }

  /** Left-to-right sum of a sequence. */
  function Sum(s: seq<real>): real
  {
    if s == [] then 0.0 else Sum(s[..|s| - 1]) + s[|s| - 1]
  }

  /** `np.cumsum`: entry i is the sum of the first i + 1 entries. */
  function CumSum(s: seq<real>): (c: seq<real>)
    ensures |c| == |s|
  {
    seq(|s|, i requires 0 <= i < |s| => Sum(s[..i + 1]))
  }

  /** The running sum starts with the first entry, adds one entry per step and
      ends with the sum of the whole sequence. */
  lemma CumSumSteps(s: seq<real>)
    ensures var c := CumSum(s);
      && (|s| > 0 ==> c[0] == s[0] && c[|s| - 1] == Sum(s))
      && (forall i :: 0 < i < |s| ==> c[i] == c[i - 1] + s[i])
  {
    if |s| > 0 {
      assert s[..|s|] == s;
      assert s[..1][..0] == [];
      assert Sum(s[..1]) == s[0];
    }
    forall i | 0 < i < |s| {
      CumSumStep(s, i);
    }
  }

  lemma CumSumStep(s: seq<real>, i: nat)
    requires 0 < i < |s|
    ensures CumSum(s)[i] == CumSum(s)[i - 1] + s[i]
  {
    var prefix := s[..i + 1];
    assert prefix[..i] == s[..i];
    assert prefix[i] == s[i];
    assert Sum(prefix) == Sum(s[..i]) + s[i];
  }

  /** `array * scalar` */
  function Scaled(s: seq<real>, k: real): (r: seq<real>)
    ensures |r| == |s|
  {
    seq(|s|, i requires 0 <= i < |s| => s[i] * k)
  }

  /** `scalar + array` */
  function Offset(s: seq<real>, k: real): (r: seq<real>)
    ensures |r| == |s|
  {
    seq(|s|, i requires 0 <= i < |s| => k + s[i])
  }

  /** `np.linspace(start, stop, num, endpoint=False)`: `num` points from `start`,
      each a step of (stop - start) / num after the previous one. */
  function Linspace(start: real, stop: real, num: nat): (r: seq<real>)
    ensures |r| == num
  {
    seq(num, i requires 0 <= i < num => start + i as real * ((stop - start) / num as real))
  }

  /** The exceptions `next_data` can raise: `np.linspace` rejects a negative
      number of samples, and indexing `time_array[1]` fails on fewer than two. */
  datatype Error = ValueError | IndexError

  datatype Result<T> = Ok(value: T) | Err(error: Error)
}
