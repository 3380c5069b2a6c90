/** Small shared vocabulary: optional values (Python's None / pandas NaN),
    the error outcomes the Python code raises, real-number helpers that
    mirror Python's builtins, and string joining. */
module Common {

  /** `None` stands for a missing value: pandas NaN, a missing dict key,
      or Python's None. */
  datatype Option<+T> = None | Some(value: T)

  /** `d.get(key, default)`: the value when present, the default otherwise. */
  function OrElse<T>(o: Option<T>, d: T): (r: T)
    ensures o.Some? ==> r == o.value
    ensures o.None? ==> r == d
  {
    if o.Some? then o.value else d
  }

  /** The exceptions the modelled Python code raises and (usually) swallows. */
  datatype PyError = NameError(name: string) | ZeroDivision | AttributeError(attr: string)

  datatype Result<+T> = Ok(value: T) | Err(error: PyError)

  /** `x > t` in Python/NumPy, where a NaN operand makes the comparison False. */
  predicate Above(x: Option<real>, t: real) { x.Some? && x.value > t }

  /** `x < t` with the same NaN rule. */
  predicate Below(x: Option<real>, t: real) { x.Some? && x.value < t }

  /** Python's truthiness of an optional float: None and 0.0 are both falsy. */
  predicate Truthy(x: Option<real>) { x.Some? && x.value != 0.0 }

  function Min(a: real, b: real): (r: real)
    ensures r <= a && r <= b && (r == a || r == b)
  {
    if b < a then b else a
  }

  function Max(a: real, b: real): (r: real)
    ensures r >= a && r >= b && (r == a || r == b)
  {
    if b > a then b else a
  }

  function Abs(x: real): (r: real)
    ensures r >= 0.0 && (r == x || r == -x)
  {
    if x < 0.0 then -x else x
  }

  function Sum(xs: seq<real>): real
  {
    if xs == [] then 0.0 else Sum(xs[..|xs| - 1]) + xs[|xs| - 1]
  }

  lemma {:induction false} SumAppend(xs: seq<real>, x: real)
    ensures Sum(xs + [x]) == Sum(xs) + x
  {
    assert (xs + [x])[..|xs|] == xs;
  }

  /** `xs[-n:]` for a positive `n` (also `df.tail(n)`): the last
      min(n, |xs|) entries, order kept. */
  function Last<T>(xs: seq<T>, n: nat): (r: seq<T>)
    ensures |r| == if |xs| < n then |xs| else n
    ensures r == xs[|xs| - |r|..]
  {
    if |xs| > n then xs[|xs| - n..] else xs
  }

  /** Two non-negative factors have a non-negative product. */
  lemma NonNegativeProduct(a: real, b: real)
    requires a >= 0.0 && b >= 0.0
    ensures a * b >= 0.0
  {}

  /** Two positive factors have a positive product. */
  lemma PositiveProduct(a: real, b: real)
    requires a > 0.0 && b > 0.0
    ensures a * b > 0.0
  {}

  /** A ratio over a positive divisor gives the dividend back, and exceeds 1
      exactly when the dividend exceeds the divisor. */
  lemma RatioAboveOne(w: real, l: real)
    requires l > 0.0
    ensures (w / l) * l == w
    ensures w / l > 1.0 <==> w > l
  {
    var f := w / l;
    if f > 1.0 { PositiveProduct(f - 1.0, l); }
    else { ScaleMonotone(f, 1.0, l); }
  }

  /** The size of a non-negative amount over a negative one, as in
      `abs(avg_win / avg_loss)`, scales the negated divisor back to the
      amount. */
  lemma NegatedRatio(w: real, m: real)
    requires w >= 0.0 && m < 0.0
    ensures Abs(w / m) * -m == w
    ensures Abs(w / m) > 1.0 <==> w > -m
  {
    assert w / m == -(w / -m);
    RatioAboveOne(w, -m);
  }

  /** Scaling by a non-negative factor keeps the order. */
  lemma ScaleMonotone(a: real, b: real, c: real)
    requires a <= b && c >= 0.0
    ensures a * c <= b * c && c * a <= c * b
  {
    assert (b - a) * c >= 0.0;
  }

  /** No element occurs twice (the keys of a dict in insertion order). */
  predicate Distinct<T(==)>(xs: seq<T>)
  {
    forall i, j :: 0 <= i < j < |xs| ==> xs[i] != xs[j]
  }

  /** `xs` without the elements of `gone`, order kept. */
  function Drop(xs: seq<string>, gone: set<string>): (r: seq<string>)
    ensures forall x :: x in r <==> x in xs && x !in gone
    ensures |r| <= |xs|
    ensures Distinct(xs) ==> Distinct(r)
  {
    if xs == [] then []
    else (if xs[0] in gone then [] else [xs[0]]) + Drop(xs[1..], gone)
  }

  lemma {:induction false} DropNothing(xs: seq<string>)
    ensures Drop(xs, {}) == xs
  {
    if xs != [] {
      DropNothing(xs[1..]);
    }
  }

  lemma {:induction false} DropTwice(xs: seq<string>, a: set<string>, b: set<string>)
    ensures Drop(Drop(xs, a), b) == Drop(xs, a + b)
  {
    if xs != [] {
      var x, tail := xs[0], xs[1..];
      DropTwice(tail, a, b);
      var d1 := Drop(tail, a);
      if x in a {
        assert Drop(xs, a) == d1;
      } else {
        var d := [x] + d1;
        assert Drop(xs, a) == d;
        assert d[0] == x && d[1..] == d1;
        assert Drop(d, b) == (if x in b then [] else [x]) + Drop(d1, b);
      }
    }
  }

  /** Python's `sep.join(parts)`. */
  function Join(parts: seq<string>, sep: string): string
  {
    if parts == [] then ""
    else if |parts| == 1 then parts[0]
    else parts[0] + sep + Join(parts[1..], sep)
  }

  /** `[p for p in parts if p]`: the non-empty strings, in order. */
  function NonEmpty(parts: seq<string>): (r: seq<string>)
    ensures |r| <= |parts|
    ensures forall i :: 0 <= i < |r| ==> r[i] != ""
    ensures forall p :: p in r <==> p in parts && p != ""
  {
    if parts == [] then []
    else if parts[0] == "" then NonEmpty(parts[1..])
    else [parts[0]] + NonEmpty(parts[1..])
  }

  /** `max(xs)` of a non-empty list. */
  function MaxOf(xs: seq<real>): (m: real)
    requires xs != []
    ensures forall k :: 0 <= k < |xs| ==> xs[k] <= m
    ensures m in xs
  {
    if |xs| == 1 then xs[0]
    else
      var init := xs[..|xs| - 1];
      assert forall k :: 0 <= k < |init| ==> init[k] == xs[k];
      Max(MaxOf(init), xs[|xs| - 1])
  }

  /** `min(xs)` of a non-empty list. */
  function MinOf(xs: seq<real>): (m: real)
    requires xs != []
    ensures forall k :: 0 <= k < |xs| ==> m <= xs[k]
    ensures m in xs
  {
    if |xs| == 1 then xs[0]
    else
      var init := xs[..|xs| - 1];
      assert forall k :: 0 <= k < |init| ==> init[k] == xs[k];
      Min(MinOf(init), xs[|xs| - 1])
  }

  /** A NumPy float64 quotient: dividing by zero yields +inf, -inf or NaN
      (0/0) instead of raising. */
  datatype Quotient = Exact(v: real) | PlusInf | MinusInf | NotANumber

  function NpDiv(a: real, b: real): (q: Quotient)
    ensures b != 0.0 <==> q.Exact?
    ensures b == 0.0 ==> (q == PlusInf <==> a > 0.0) && (q == MinusInf <==> a < 0.0)
  {
    if b != 0.0 then Exact(a / b)
    else if a > 0.0 then PlusInf
    else if a < 0.0 then MinusInf
    else NotANumber
  }

  /** A float64 quotient scaled by a positive factor: infinities and NaN
      are kept. */
  function QScale(q: Quotient, c: real): (r: Quotient)
    requires c > 0.0
    ensures r.Exact? <==> q.Exact?
    ensures !q.Exact? ==> r == q
  {
    if q.Exact? then Exact(q.v * c) else q
  }

  /** `q < t` on a float64 quotient (False for NaN). */
  predicate QLess(q: Quotient, t: real)
  {
    q == MinusInf || (q.Exact? && q.v < t)
  }

  /** `q > t` on a float64 quotient (False for NaN). */
  predicate QGreater(q: Quotient, t: real)
  {
    q == PlusInf || (q.Exact? && q.v > t)
  }

  /** For a positive denominator, comparing the quotient with `t` is
      comparing the numerator with `t` times the denominator. */
  lemma NpDivCompare(a: real, b: real, t: real)
    requires b > 0.0
    ensures QLess(NpDiv(a, b), t) <==> a < t * b
    ensures QGreater(NpDiv(a, b), t) <==> a > t * b
  {
    var q := a / b;
    assert a == q * b;
    if q < t { assert q * b < t * b; }
    if q > t { assert q * b > t * b; }
    if q == t { assert q * b == t * b; }
  }

  /** Python's `round(x)`: to the nearest integer, halves to the even one. */
  function RoundHalfEven(x: real): (r: int)
    ensures -0.5 <= (r as real) - x <= 0.5
    ensures (r as real) - x == 0.5 || (r as real) - x == -0.5 ==> r % 2 == 0
  {
    var f := x.Floor;
    var d := x - (f as real);
    if d < 0.5 then f
    else if d > 0.5 then f + 1
    else if f % 2 == 0 then f else f + 1
  }
}
