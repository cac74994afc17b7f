/** Keyframes compiled to per-frame expressions of the filter language, and the number-valued twins that must agree
    with them.  Expressions are trees; `Eval` is their meaning. */
module Keyframes {

  datatype Expr =
    | Num(value: real)
    | Time
    | Width
    | Height
    | Add(a: Expr, b: Expr)
    | Sub(a: Expr, b: Expr)
    | Mul(a: Expr, b: Expr)
    | Div(a: Expr, b: Expr)
    | MaxOf(a: Expr, b: Expr)
    | Clip(a: Expr, lo: real, hi: real)
    | IfLess(a: Expr, b: Expr, yes: Expr, no: Expr)
    | CosPi(a: Expr)

  /** The time of the frame and the size of the source; `cosPi` maps x to the cosine of x half turns. */
  datatype Env = Env(t: real, iw: real, ih: real, cosPi: real -> real)

  ghost predicate Cosine(cosPi: real -> real) {
    cosPi(0.0) == 1.0 && forall x :: -1.0 <= cosPi(x) <= 1.0
  }

  function Clamp(x: real, lo: real, hi: real): real {
    if x < lo then lo else if x > hi then hi else x
  }

  function Max(a: real, b: real): real {
    if a < b then b else a
  }

  /** No division by zero on the branches taken. */
  predicate Defined(e: Expr, v: Env) {
    match e
    case Num(_) => true
    case Time => true
    case Width => true
    case Height => true
    case Div(a, b) => Defined(a, v) && Defined(b, v) && Eval(b, v) != 0.0
    case Clip(a, _, _) => Defined(a, v)
    case CosPi(a) => Defined(a, v)
    case IfLess(a, b, yes, no) =>
      Defined(a, v) && Defined(b, v) && if Eval(a, v) < Eval(b, v) then Defined(yes, v) else Defined(no, v)
    case Add(a, b) => Defined(a, v) && Defined(b, v)
    case Sub(a, b) => Defined(a, v) && Defined(b, v)
    case Mul(a, b) => Defined(a, v) && Defined(b, v)
    case MaxOf(a, b) => Defined(a, v) && Defined(b, v)
  }

  function Eval(e: Expr, v: Env): real {
    match e
    case Num(value) => value
    case Time => v.t
    case Width => v.iw
    case Height => v.ih
    case Add(a, b) => Eval(a, v) + Eval(b, v)
    case Sub(a, b) => Eval(a, v) - Eval(b, v)
    case Mul(a, b) => Product(Eval(a, v), Eval(b, v))
    case Div(a, b) => Quotient(Eval(a, v), Eval(b, v))
    case MaxOf(a, b) => Max(Eval(a, v), Eval(b, v))
    case Clip(a, lo, hi) => Clamp(Eval(a, v), lo, hi)
    case IfLess(a, b, yes, no) => if Eval(a, v) < Eval(b, v) then Eval(yes, v) else Eval(no, v)
    case CosPi(a) => v.cosPi(Eval(a, v))
  }

  function Product(a: real, b: real): real {
    a * b
  }

  /** Division; by zero it has no meaning here, see `Defined`. */
  function Quotient(a: real, b: real): real {
    if b == 0.0 then 0.0 else a / b
  }

  // ── easing ──

  datatype Interp = EaseIn | EaseOut | EaseInOut | Cos | Linear

  /** The eased fraction as an expression of the fraction p. */
  function Ease(interp: Interp, p: Expr): Expr {
    match interp
    case EaseIn => Mul(p, p)
    case EaseOut => Sub(Num(1.0), Mul(Sub(Num(1.0), p), Sub(Num(1.0), p)))
    case EaseInOut => Mul(Mul(p, p), Sub(Num(3.0), Mul(Num(2.0), p)))
    case Cos => Sub(Num(0.5), Mul(Num(0.5), CosPi(p)))
    case Linear => p
  }

  /** What easing means for a number. */
  function Eased(interp: Interp, p: real, cosPi: real -> real): real {
    match interp
    case EaseIn => p * p
    case EaseOut => 1.0 - (1.0 - p) * (1.0 - p)
    case EaseInOut => p * p * (3.0 - 2.0 * p)
    case Cos => 0.5 - 0.5 * cosPi(p)
    case Linear => p
  }

  /** A share of a non-negative amount is between nothing and all of it. */
  lemma Share(a: real, x: real)
    requires a >= 0.0 && 0.0 <= x <= 1.0
    ensures 0.0 <= Product(a, x) <= a
  {
  }

  lemma NotNegative(a: real, b: real)
    requires a >= 0.0 && b >= 0.0
    ensures a * b >= 0.0
  {
  }

  /** Easing starts at zero and stays within the interval. */
  lemma EasedStays(interp: Interp, p: real, cosPi: real -> real)
    requires Cosine(cosPi) && 0.0 <= p <= 1.0
    ensures 0.0 <= Eased(interp, p, cosPi) <= 1.0
    ensures Eased(interp, 0.0, cosPi) == 0.0
  {
    var q := 1.0 - p;
    Share(p, p);
    Share(q, q);
    match interp
    case EaseOut => assert Eased(interp, p, cosPi) == 1.0 - q * q;
    case EaseInOut =>
      assert 1.0 - p * p * (3.0 - 2.0 * p) == (q * q) * (1.0 + 2.0 * p);
      NotNegative(q * q, 1.0 + 2.0 * p);
      NotNegative(p * p, 3.0 - 2.0 * p);
    case _ =>
  }

  // ── the compiled curve ──

  datatype Key = Key(t: real, v: real, interp: Interp)

  ghost predicate Increasing(keys: seq<Key>) {
    forall i, j :: 0 <= i < j < |keys| ==> keys[i].t < keys[j].t
  }

  /** The fraction of an interval as an expression; an interval of no length counts as over. */
  function Fraction(a: Key, b: Key): Expr {
    if b.t - a.t <= 0.0 then Num(1.0) else Clip(Div(Sub(Time, Num(a.t)), Num(b.t - a.t)), 0.0, 1.0)
  }

  function Lerp(a: Key, b: Key): Expr {
    Add(Num(a.v), Mul(Sub(Num(b.v), Num(a.v)), Ease(a.interp, Fraction(a, b))))
  }

  /** The chain of conditionals for the keyframes from the i-th on. */
  function From(keys: seq<Key>, i: nat): Expr
    requires i < |keys|
    decreases |keys| - i
  {
    if i == |keys| - 1 then Num(keys[i].v)
    else IfLess(Time, Num(keys[i + 1].t), Lerp(keys[i], keys[i + 1]), From(keys, i + 1))
  }

  /** The compiler builds the chain from the last keyframe back. */
  method Piecewise(keys: seq<Key>) returns (e: Expr)
    requires keys != []
    ensures e == From(keys, 0)
  {
    if |keys| == 1 {
      return Num(keys[0].v);
    }
    e := Num(keys[|keys| - 1].v);
    var i := |keys| - 1;
    while i > 0
      invariant 0 <= i < |keys| && e == From(keys, i)
    {
      i := i - 1;
      e := IfLess(Time, Num(keys[i + 1].t), Lerp(keys[i], keys[i + 1]), e);
    }
  }

  /** The value between two keyframes at a time. */
  function Mixed(a: Key, b: Key, t: real, cosPi: real -> real): real
    requires a.t < b.t
  {
    Blend(a.v, b.v, Eased(a.interp, Elapsed(a, b, t), cosPi))
  }

  function Elapsed(a: Key, b: Key, t: real): real
    requires a.t < b.t
  {
    Clamp(Quotient(t - a.t, b.t - a.t), 0.0, 1.0)
  }

  function Blend(x: real, y: real, e: real): real {
    x + Product(y - x, e)
  }

  lemma BlendStays(x: real, y: real, e: real)
    requires 0.0 <= e <= 1.0
    ensures x <= Blend(x, y, e) <= y || y <= Blend(x, y, e) <= x
  {
    if x <= y {
      Share(y - x, e);
    } else {
      Share(x - y, e);
      Negated(x - y, e);
    }
  }

  lemma Negated(a: real, b: real)
    ensures Product(-a, b) == -Product(a, b)
  {
  }

  lemma EaseMeans(interp: Interp, p: Expr, v: Env)
    ensures Eval(Ease(interp, p), v) == Eased(interp, Eval(p, v), v.cosPi)
  {
    match interp
    case EaseOut => EaseOutMeans(p, v);
    case EaseInOut => EaseInOutMeans(p, v);
    case Cos => assert Eval(Mul(Num(0.5), CosPi(p)), v) == 0.5 * v.cosPi(Eval(p, v));
    case _ =>
  }

  lemma EaseOutMeans(p: Expr, v: Env)
    ensures Eval(Ease(EaseOut, p), v) == Eased(EaseOut, Eval(p, v), v.cosPi)
  {
    var one := Sub(Num(1.0), p);
    assert Eval(one, v) == 1.0 - Eval(p, v);
    assert Eval(Mul(one, one), v) == Product(1.0 - Eval(p, v), 1.0 - Eval(p, v));
  }

  lemma EaseInOutMeans(p: Expr, v: Env)
    ensures Eval(Ease(EaseInOut, p), v) == Eased(EaseInOut, Eval(p, v), v.cosPi)
  {
    var x := Eval(p, v);
    var double := Mul(Num(2.0), p);
    assert Eval(double, v) == Product(2.0, x);
    var rest := Sub(Num(3.0), double);
    assert Eval(rest, v) == 3.0 - Product(2.0, x);
    assert Eval(Mul(p, p), v) == Product(x, x);
    assert Eval(Mul(Mul(p, p), rest), v) == Product(Product(x, x), 3.0 - Product(2.0, x));
  }

  /** The shapes of the compiled easings between start and end: ease-in stays below the straight line and ease-out
      above it, each the mirror of the other; ease-in-out stays below it up to the middle and is its own mirror; the
      cosine ramp is half the way at every p where the cosine is 0, and mirrors as the cosine does. */
  lemma EasingsHaveTheirShapes(e: Expr, m: Expr, v: Env)
    requires 0.0 < Eval(e, v) < 1.0 && Eval(m, v) == 1.0 - Eval(e, v)
    ensures var p := Eval(e, v);
      && Eval(Ease(Linear, e), v) == p
      && Eval(Ease(EaseIn, e), v) < p < Eval(Ease(EaseOut, e), v)
      && Eval(Ease(EaseIn, e), v) + Eval(Ease(EaseOut, m), v) == 1.0
      && Eval(Ease(EaseInOut, e), v) + Eval(Ease(EaseInOut, m), v) == 1.0
      && (p < 0.5 ==> Eval(Ease(EaseInOut, e), v) < p)
      && (v.cosPi(p) == 0.0 ==> Eval(Ease(Cos, e), v) == 0.5)
      && (v.cosPi(1.0 - p) == -v.cosPi(p) ==> Eval(Ease(Cos, e), v) + Eval(Ease(Cos, m), v) == 1.0)
  {
    hide Eased, Eval, Ease;
    EaseMeans(Linear, e, v);
    EaseMeans(EaseIn, e, v);
    EaseMeans(EaseOut, e, v);
    EaseMeans(EaseOut, m, v);
    EaseMeans(EaseInOut, e, v);
    EaseMeans(EaseInOut, m, v);
    EaseMeans(Cos, e, v);
    EaseMeans(Cos, m, v);
    EasedShapes(Eval(e, v), v.cosPi);
  }

  lemma EasedShapes(p: real, cosPi: real -> real)
    requires 0.0 < p < 1.0
    ensures Eased(Linear, p, cosPi) == p
    ensures Eased(EaseIn, p, cosPi) < p < Eased(EaseOut, p, cosPi)
    ensures Eased(EaseIn, p, cosPi) + Eased(EaseOut, 1.0 - p, cosPi) == 1.0
    ensures Eased(EaseInOut, p, cosPi) + Eased(EaseInOut, 1.0 - p, cosPi) == 1.0
    ensures p < 0.5 ==> Eased(EaseInOut, p, cosPi) < p
    ensures cosPi(p) == 0.0 ==> Eased(Cos, p, cosPi) == 0.5
    ensures cosPi(1.0 - p) == -cosPi(p) ==> Eased(Cos, p, cosPi) + Eased(Cos, 1.0 - p, cosPi) == 1.0
  {
    var q := 1.0 - p;
    Shrinks(p, p);
    Shrinks(q, q);
    assert Eased(EaseOut, p, cosPi) == 1.0 - q * q && Eased(EaseOut, q, cosPi) == 1.0 - p * p;
    if p < 0.5 {
      assert p * p * (3.0 - 2.0 * p) - p == -(p * q) * (1.0 - 2.0 * p);
      Grows(p, q);
      Grows(p * q, 1.0 - 2.0 * p);
    }
  }

  lemma Shrinks(a: real, x: real)
    requires a > 0.0 && 0.0 < x < 1.0
    ensures 0.0 < a * x < a
  {
  }

  lemma Grows(a: real, b: real)
    requires a > 0.0 && b > 0.0
    ensures a * b > 0.0 && -a * b < 0.0
  {
  }

  /** Every easing ends at one; the cosine ramp does when the cosine of a half turn is -1. */
  lemma EasingsEnd(e: Expr, v: Env, interp: Interp)
    requires Eval(e, v) == 1.0 && (interp.Cos? ==> v.cosPi(1.0) == -1.0)
    ensures Eval(Ease(interp, e), v) == 1.0
  {
    EaseMeans(interp, e, v);
  }

  lemma FractionMeans(a: Key, b: Key, v: Env)
    requires a.t < b.t
    ensures Eval(Fraction(a, b), v) == Elapsed(a, b, v.t)
  {
    var past := Sub(Time, Num(a.t));
    assert Eval(past, v) == v.t - a.t;
    var length := b.t - a.t;
    assert Eval(Num(length), v) == length;
    var share := Div(past, Num(length));
    assert Eval(share, v) == Quotient(v.t - a.t, length);
    assert Fraction(a, b) == Clip(share, 0.0, 1.0);
  }

  lemma LerpMeans(a: Key, b: Key, v: Env)
    requires a.t < b.t
    ensures Eval(Lerp(a, b), v) == Mixed(a, b, v.t, v.cosPi)
  {
    var rise, eased := Sub(Num(b.v), Num(a.v)), Ease(a.interp, Fraction(a, b));
    FractionMeans(a, b, v);
    EaseMeans(a.interp, Fraction(a, b), v);
    assert Eval(rise, v) == b.v - a.v;
    assert Eval(Mul(rise, eased), v) == Product(Eval(rise, v), Eval(eased, v));
  }

  lemma ShareOf(x: real, d: real)
    requires d > 0.0
    ensures x <= 0.0 ==> Quotient(x, d) <= 0.0
    ensures 0.0 <= x <= d ==> 0.0 <= Quotient(x, d) <= 1.0
  {
    assert (x / d) * d == x;
  }

  lemma MixedAtStart(a: Key, b: Key, t: real, cosPi: real -> real)
    requires a.t < b.t && t <= a.t && Cosine(cosPi)
    ensures Mixed(a, b, t, cosPi) == a.v
  {
    ShareOf(t - a.t, b.t - a.t);
    EasedStays(a.interp, 0.0, cosPi);
  }

  /** Between two keyframes the curve stays between their values. */
  lemma MixedStays(a: Key, b: Key, t: real, cosPi: real -> real)
    requires a.t < b.t && Cosine(cosPi)
    ensures a.v <= Mixed(a, b, t, cosPi) <= b.v || b.v <= Mixed(a, b, t, cosPi) <= a.v
  {
    EasedStays(a.interp, Elapsed(a, b, t), cosPi);
    BlendStays(a.v, b.v, Eased(a.interp, Elapsed(a, b, t), cosPi));
  }

  /** The keyframe whose interval holds t: none before the first, the last one from its time on. */
  function Slot(keys: seq<Key>, t: real): int {
    if keys == [] then -1 else if keys[|keys| - 1].t <= t then |keys| - 1 else Slot(keys[..|keys| - 1], t)
  }

  /** The curve the keyframes stand for: held outside, eased between neighbours. */
  function Curve(keys: seq<Key>, t: real, cosPi: real -> real): real
    requires keys != [] && Increasing(keys)
  {
    var i := Slot(keys, t);
    if i < 0 then keys[0].v
    else if i >= |keys| - 1 then keys[|keys| - 1].v
    else Mixed(keys[i], keys[i + 1], t, cosPi)
  }

  lemma {:induction false} SlotHolds(keys: seq<Key>, t: real)
    ensures var i := Slot(keys, t);
      && -1 <= i < |keys|
      && (i >= 0 ==> keys[i].t <= t)
      && (forall j :: i < j < |keys| ==> t < keys[j].t)
  {
    if keys != [] && !(keys[|keys| - 1].t <= t) {
      SlotHolds(keys[..|keys| - 1], t);
    }
  }

  lemma {:induction false} FromMeans(keys: seq<Key>, i: nat, v: Env)
    requires Increasing(keys) && Cosine(v.cosPi) && i < |keys|
    ensures var s := Slot(keys, v.t);
      Eval(From(keys, i), v) ==
      if s >= |keys| - 1 then keys[|keys| - 1].v
      else if s < i then keys[i].v
      else Mixed(keys[s], keys[s + 1], v.t, v.cosPi)
    decreases |keys| - i
  {
    SlotHolds(keys, v.t);
    if i < |keys| - 1 {
      FromMeans(keys, i + 1, v);
      LerpMeans(keys[i], keys[i + 1], v);
      if v.t <= keys[i].t {
        MixedAtStart(keys[i], keys[i + 1], v.t, v.cosPi);
      }
    }
  }

  /** Compilation preserves meaning: the expression is the clamped, eased curve at every time. */
  lemma CompiledMeansTheCurve(keys: seq<Key>, v: Env)
    requires keys != [] && Increasing(keys) && Cosine(v.cosPi)
    ensures Eval(From(keys, 0), v) == Curve(keys, v.t, v.cosPi)
  {
    FromMeans(keys, 0, v);
    SlotHolds(keys, v.t);
  }

  /** Between two keyframes the compiled curve goes from the one value to the other as the easing of the first tells, at
      the fraction of the time that has passed; at that fraction zero and one it is at the values themselves. */
  lemma CurveFollowsTheEasing(keys: seq<Key>, i: nat, v: Env) returns (p: real)
    requires Increasing(keys) && Cosine(v.cosPi) && i + 1 < |keys| && keys[i].t <= v.t < keys[i + 1].t
    ensures p * (keys[i + 1].t - keys[i].t) == v.t - keys[i].t && 0.0 <= p < 1.0
    ensures Eval(From(keys, 0), v) ==
              keys[i].v + (keys[i + 1].v - keys[i].v) * Eval(Ease(keys[i].interp, Num(p)), v)
  {
    hide Eval, From, Curve, Ease, Eased, Mixed;
    p := Passed(keys[i], keys[i + 1], v.t, v.cosPi);
    CompiledMeansTheCurve(keys, v);
    CurveBetween(keys, i, v.t, v.cosPi);
    EaseMeans(keys[i].interp, Num(p), v);
    NumMeans(p, v);
  }

  lemma NumMeans(x: real, v: Env)
    ensures Eval(Num(x), v) == x
  {
  }

  lemma CurveBetween(keys: seq<Key>, i: nat, t: real, cosPi: real -> real)
    requires keys != [] && Increasing(keys) && i + 1 < |keys| && keys[i].t <= t < keys[i + 1].t
    ensures Curve(keys, t, cosPi) == Mixed(keys[i], keys[i + 1], t, cosPi)
  {
    SlotIs(keys, i, t);
  }

  /** The fraction of the time passed, and the value it gives. */
  lemma Passed(a: Key, b: Key, t: real, cosPi: real -> real) returns (p: real)
    requires a.t <= t < b.t
    ensures p * (b.t - a.t) == t - a.t && 0.0 <= p < 1.0
    ensures Mixed(a, b, t, cosPi) == a.v + (b.v - a.v) * Eased(a.interp, p, cosPi)
  {
    hide Eased;
    p := (t - a.t) / (b.t - a.t);
    PassedFraction(t - a.t, b.t - a.t, p);
    assert Elapsed(a, b, t) == p;
  }

  lemma PassedFraction(x: real, d: real, p: real)
    requires d > 0.0 && 0.0 <= x < d && p == x / d
    ensures p * d == x && 0.0 <= p < 1.0 && Quotient(x, d) == p
  {
  }

  lemma SlotIs(keys: seq<Key>, i: nat, t: real)
    requires keys != [] && Increasing(keys) && i + 1 < |keys| && keys[i].t <= t < keys[i + 1].t
    ensures Slot(keys, t) == i
  {
    SlotHolds(keys, t);
  }

  /** The curve hits every keyframe, is held outside them, and in between stays between its neighbours' values. */
  lemma CurveHitsAndStays(keys: seq<Key>, cosPi: real -> real, i: nat, t: real)
    requires Increasing(keys) && Cosine(cosPi) && i < |keys|
    ensures Curve(keys, keys[i].t, cosPi) == keys[i].v
    ensures t <= keys[0].t ==> Curve(keys, t, cosPi) == keys[0].v
    ensures t >= keys[|keys| - 1].t ==> Curve(keys, t, cosPi) == keys[|keys| - 1].v
    ensures i + 1 < |keys| && keys[i].t <= t <= keys[i + 1].t ==>
      var c := Curve(keys, t, cosPi);
      keys[i].v <= c <= keys[i + 1].v || keys[i + 1].v <= c <= keys[i].v
  {
    CurveHits(keys, cosPi, i);
    SlotHolds(keys, t);
    if t == keys[0].t {
      CurveHits(keys, cosPi, 0);
    }
    if i + 1 < |keys| && keys[i].t <= t <= keys[i + 1].t {
      if t == keys[i + 1].t {
        CurveHits(keys, cosPi, i + 1);
      } else {
        assert Slot(keys, t) == i;
        MixedStays(keys[i], keys[i + 1], t, cosPi);
      }
    }
  }

  lemma CurveHits(keys: seq<Key>, cosPi: real -> real, i: nat)
    requires Increasing(keys) && Cosine(cosPi) && i < |keys|
    ensures Curve(keys, keys[i].t, cosPi) == keys[i].v
  {
    SlotHolds(keys, keys[i].t);
    assert Slot(keys, keys[i].t) == i;
    if i + 1 < |keys| {
      MixedAtStart(keys[i], keys[i + 1], keys[i].t, cosPi);
    }
  }

  /** Whatever the keyframes, even with times out of order, the expression never divides by zero. */
  lemma {:induction false} CompiledIsDefined(keys: seq<Key>, i: nat, v: Env)
    requires i < |keys|
    ensures Defined(From(keys, i), v)
    decreases |keys| - i
  {
    if i < |keys| - 1 {
      CompiledIsDefined(keys, i + 1, v);
      LerpIsDefined(keys[i], keys[i + 1], v);
    }
  }

  lemma LerpIsDefined(a: Key, b: Key, v: Env)
    ensures Defined(Lerp(a, b), v)
  {
    var p := Fraction(a, b);
    if b.t - a.t > 0.0 {
      var length := b.t - a.t;
      assert Eval(Num(length), v) == length != 0.0;
      assert Defined(Sub(Time, Num(a.t)), v);
      assert Defined(Div(Sub(Time, Num(a.t)), Num(length)), v);
    }
    assert Defined(p, v);
    EaseIsDefined(a.interp, p, v);
    var rise := Sub(Num(b.v), Num(a.v));
    assert Defined(rise, v) && Defined(Mul(rise, Ease(a.interp, p)), v);
  }

  lemma EaseIsDefined(interp: Interp, p: Expr, v: Env)
    requires Defined(p, v)
    ensures Defined(Ease(interp, p), v)
  {
    var one, twice := Sub(Num(1.0), p), Mul(Num(2.0), p);
    assert Defined(one, v) && Defined(twice, v);
    var three := Sub(Num(3.0), twice);
    assert Defined(three, v);
    assert Defined(CosPi(p), v);
  }

  // ── the punch curve and its number-valued twin ──

  function BumpExpr(punches: seq<Key>): Expr {
    if punches == [] then Num(0.0) else From(punches, 0)
  }

  /** Insertion after every keyframe that is not later: a stable sort by time. */
  function Inserted(sorted: seq<Key>, k: Key): seq<Key> {
    if sorted == [] || sorted[|sorted| - 1].t <= k.t then sorted + [k]
    else Inserted(sorted[..|sorted| - 1], k) + [sorted[|sorted| - 1]]
  }

  function SortedByTime(keys: seq<Key>): seq<Key> {
    if keys == [] then [] else Inserted(SortedByTime(keys[..|keys| - 1]), keys[|keys| - 1])
  }

  lemma {:induction false} SortingKeeps(keys: seq<Key>)
    requires Increasing(keys)
    ensures SortedByTime(keys) == keys
  {
    if keys != [] {
      SortingKeeps(keys[..|keys| - 1]);
      assert keys[..|keys| - 1] + [keys[|keys| - 1]] == keys;
    }
  }

  /** The interpolation of one pair, as the code computes it. */
  function PairValue(a: Key, b: Key, t: real): real {
    var span := b.t - a.t;
    var p := if span <= 0.0 then 0.0 else Clamp(Quotient(t - a.t, span), 0.0, 1.0);
    a.v + Product(b.v - a.v, p)
  }

  /** The first pair that holds t decides; nothing held falls back to the last value. */
  function FirstPair(pts: seq<Key>, t: real): real
    requires pts != []
  {
    if |pts| == 1 then pts[0].v
    else if pts[0].t <= t <= pts[1].t then PairValue(pts[0], pts[1], t)
    else FirstPair(pts[1..], t)
  }

  function BumpValue(punches: seq<Key>, t: real): real {
    var pts := SortedByTime(punches);
    if pts == [] then 0.0
    else if t <= pts[0].t then pts[0].v
    else if t >= pts[|pts| - 1].t then pts[|pts| - 1].v
    else FirstPair(pts, t)
  }

  method BumpValueAt(t: real, punches: seq<Key>) returns (bump: real)
    ensures bump == BumpValue(punches, t)
  {
    var pts := SortedByTime(punches);
    if pts == [] {
      return 0.0;
    }
    if t <= pts[0].t {
      return pts[0].v;
    }
    if t >= pts[|pts| - 1].t {
      return pts[|pts| - 1].v;
    }
    var i := 0;
    while i + 1 < |pts|
      invariant 0 <= i < |pts| && FirstPair(pts, t) == FirstPair(pts[i..], t)
    {
      var a, b := pts[i], pts[i + 1];
      if a.t <= t <= b.t {
        return PairValue(a, b, t);
      }
      assert pts[i..][1..] == pts[i + 1..];
      i := i + 1;
    }
    return pts[|pts| - 1].v;
  }

  ghost predicate Straight(keys: seq<Key>) {
    forall i :: 0 <= i < |keys| ==> keys[i].interp == Linear
  }

  lemma {:induction false} FirstPairMeans(pts: seq<Key>, i: nat, t: real, cosPi: real -> real)
    requires Increasing(pts) && Straight(pts) && Cosine(cosPi) && i < |pts|
    requires pts[i].t < t < pts[|pts| - 1].t || pts[i].t == t < pts[|pts| - 1].t
    ensures FirstPair(pts[i..], t) == Curve(pts, t, cosPi)
    decreases |pts| - i
  {
    var rest := pts[i..];
    assert rest[0] == pts[i] && rest[1] == pts[i + 1] && rest[1..] == pts[i + 1..];
    SlotHolds(pts, t);
    if t < pts[i + 1].t {
      assert Slot(pts, t) == i;
    } else if t == pts[i + 1].t {
      CurveHits(pts, cosPi, i + 1);
      PairEnds(pts[i], pts[i + 1]);
    } else {
      FirstPairMeans(pts, i + 1, t, cosPi);
    }
  }

  lemma WholeShare(d: real)
    requires d != 0.0
    ensures Quotient(d, d) == 1.0
  {
  }

  lemma PairEnds(a: Key, b: Key)
    requires a.t < b.t
    ensures PairValue(a, b, b.t) == b.v
  {
    var d := b.t - a.t;
    WholeShare(d);
    assert Product(b.v - a.v, 1.0) == b.v - a.v;
  }

  /** The number-valued twin agrees with the evaluated expression at every time. */
  lemma TwinsAgree(punches: seq<Key>, v: Env)
    requires Increasing(punches) && Straight(punches) && Cosine(v.cosPi)
    ensures Eval(BumpExpr(punches), v) == BumpValue(punches, v.t)
  {
    if punches != [] {
      SortingKeeps(punches);
      CompiledMeansTheCurve(punches, v);
      CurveHitsAndStays(punches, v.cosPi, 0, v.t);
      if punches[0].t < v.t < punches[|punches| - 1].t {
        assert punches[0..] == punches;
        FirstPairMeans(punches, 0, v.t, v.cosPi);
      }
    }
  }

  ghost predicate Agree(punches: seq<Key>, cosPi: real -> real) {
    forall v: Env :: v.cosPi == cosPi ==> Eval(BumpExpr(punches), v) == BumpValue(punches, v.t)
  }

  /** Two punches that do not come in strictly increasing order: the twins agree exactly when it does not matter,
      as the expression takes the list as it comes. */
  lemma TwinsNeedTheOrder(a: Key, b: Key, cosPi: real -> real)
    requires Straight([a, b]) && Cosine(cosPi)
    ensures Agree([a, b], cosPi) <==> a.t < b.t || a.v == b.v
  {
    if a.t < b.t {
      forall v: Env | v.cosPi == cosPi ensures Eval(BumpExpr([a, b]), v) == BumpValue([a, b], v.t) {
        TwinsAgree([a, b], v);
      }
    } else {
      PairOutOfOrder(a, b, cosPi);
    }
  }

  lemma SortedPair(a: Key, b: Key)
    ensures SortedByTime([a, b]) == if a.t <= b.t then [a, b] else [b, a]
  {
    assert [a, b][..1] == [a] && [a][..0] == [];
    assert SortedByTime([a]) == Inserted([], a) == [a];
    assert a.t > b.t ==> Inserted([a], b) == Inserted([], b) + [a];
  }

  lemma ConstantPair(a: Key, b: Key, v: Env)
    requires a.interp == Linear && b.t <= a.t
    ensures Eval(BumpExpr([a, b]), v) == b.v
  {
    var rise := Sub(Num(b.v), Num(a.v));
    assert Eval(rise, v) == b.v - a.v;
    assert Ease(a.interp, Fraction(a, b)) == Num(1.0);
    assert Eval(Mul(rise, Num(1.0)), v) == Product(b.v - a.v, 1.0);
    assert Eval(Lerp(a, b), v) == b.v;
    assert Eval(From([a, b], 1), v) == b.v;
  }

  lemma LevelPair(a: Key, b: Key, t: real)
    requires a.v == b.v
    ensures BumpValue([a, b], t) == b.v
  {
    SortedPair(a, b);
    if a.t <= b.t {
      LevelSorted([a, b], t);
    } else {
      LevelSorted([b, a], t);
    }
  }

  lemma LevelSorted(pts: seq<Key>, t: real)
    requires |pts| == 2 && pts[0].v == pts[1].v
    ensures FirstPair(pts, t) == pts[0].v
  {
    LevelValue(pts[0], pts[1], t);
    assert pts[1..] == [pts[1]];
  }

  lemma LevelValue(a: Key, b: Key, t: real)
    requires a.v == b.v
    ensures PairValue(a, b, t) == a.v
  {
    var rise := b.v - a.v;
    assert rise == 0.0 && forall p: real :: Product(rise, p) == 0.0;
  }

  lemma PairOutOfOrder(a: Key, b: Key, cosPi: real -> real)
    requires Straight([a, b]) && Cosine(cosPi) && b.t <= a.t
    ensures Agree([a, b], cosPi) <==> a.v == b.v
  {
    assert [a, b][0].interp == Linear;
    SortedPair(a, b);
    var v := Env(a.t, 0.0, 0.0, cosPi);
    ConstantPair(a, b, v);
    assert BumpValue([a, b], v.t) == a.v;
    if a.v == b.v {
      forall v: Env | v.cosPi == cosPi ensures Eval(BumpExpr([a, b]), v) == BumpValue([a, b], v.t) {
        ConstantPair(a, b, v);
        LevelPair(a, b, v.t);
      }
    }
  }
}
