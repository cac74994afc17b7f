/** Breakpoints at equal times: when the number-valued twin of the punch curve still agrees with the expression. */
module KeyframeTies {
  import opened Keyframes

  /** Times never go back; equal times are ties. */
  ghost predicate Ascending(keys: seq<Key>) {
    forall i, j :: 0 <= i < j < |keys| ==> keys[i].t <= keys[j].t
  }

  /** From a to b all times are equal, and no key before or after has that time. */
  predicate Tied(keys: seq<Key>, a: nat, b: nat) {
    && a <= b < |keys| && keys[a].t == keys[b].t
    && (a > 0 ==> keys[a - 1].t < keys[a].t)
    && (b + 1 < |keys| ==> keys[b].t < keys[b + 1].t)
  }

  /** Every tied group but a final one starts and ends at one value, as does a first group that is also the final one;
      and a tie at the very start is level. */
  ghost predicate Level(keys: seq<Key>) {
    && (forall a: nat, b: nat :: Tied(keys, a, b) && (a == 0 || b + 1 < |keys|) ==> keys[a].v == keys[b].v)
    && (|keys| > 1 && keys[0].t == keys[1].t ==> keys[0].v == keys[1].v)
  }

  // ── what the expression gives ──

  lemma {:induction false} PastTheLast(keys: seq<Key>, i: nat, v: Env)
    requires Ascending(keys) && i < |keys| && v.t >= keys[|keys| - 1].t
    ensures Eval(From(keys, i), v) == keys[|keys| - 1].v
    decreases |keys| - i
  {
    if i < |keys| - 1 {
      PastTheLast(keys, i + 1, v);
    }
  }

  lemma {:induction false} InInterval(keys: seq<Key>, i: nat, k: nat, v: Env)
    requires Ascending(keys) && i <= k && k + 1 < |keys| && v.t < keys[k + 1].t && (i == k || keys[k].t <= v.t)
    ensures Eval(From(keys, i), v) == Eval(Lerp(keys[k], keys[k + 1]), v)
    decreases k - i
  {
    if i < k {
      assert keys[i + 1].t <= keys[k].t;
      InInterval(keys, i + 1, k, v);
    }
  }

  /** An interval without length gives its end. */
  lemma FlatInterval(a: Key, b: Key, v: Env)
    requires a.interp == Linear && a.t == b.t
    ensures Eval(Lerp(a, b), v) == b.v
  {
    var rise := Sub(Num(b.v), Num(a.v));
    assert Eval(rise, v) == b.v - a.v;
    assert Ease(a.interp, Fraction(a, b)) == Num(1.0);
    assert Eval(Mul(rise, Num(1.0)), v) == Product(b.v - a.v, 1.0);
  }

  lemma IntervalStart(a: Key, b: Key, v: Env)
    requires a.t < b.t && v.t <= a.t && Cosine(v.cosPi)
    ensures Eval(Lerp(a, b), v) == a.v
  {
    LerpMeans(a, b, v);
    MixedAtStart(a, b, v.t, v.cosPi);
  }

  lemma IntervalValue(a: Key, b: Key, v: Env)
    requires a.t < b.t && a.interp == Linear
    ensures Eval(Lerp(a, b), v) == PairValue(a, b, v.t)
  {
    LerpMeans(a, b, v);
  }

  // ── what the twin gives ──

  lemma {:induction false} SortingKeepsTies(keys: seq<Key>)
    requires Ascending(keys)
    ensures SortedByTime(keys) == keys
  {
    if keys != [] {
      SortingKeepsTies(keys[..|keys| - 1]);
      assert keys[..|keys| - 1] + [keys[|keys| - 1]] == keys;
    }
  }

  lemma {:induction false} PairFound(pts: seq<Key>, i: nat, j: nat, t: real)
    requires Ascending(pts) && i <= j && j + 1 < |pts| && pts[j].t < t <= pts[j + 1].t
    ensures FirstPair(pts[i..], t) == PairValue(pts[j], pts[j + 1], t)
    decreases j - i
  {
    var rest := pts[i..];
    assert rest[0] == pts[i] && rest[1] == pts[i + 1] && rest[1..] == pts[i + 1..];
    if i < j {
      assert pts[i + 1].t <= pts[j].t;
      PairFound(pts, i + 1, j, t);
    }
  }

  lemma TwinInside(keys: seq<Key>, j: nat, t: real)
    requires Ascending(keys) && j + 1 < |keys| && keys[0].t < t < keys[|keys| - 1].t
    requires keys[j].t < t <= keys[j + 1].t
    ensures BumpValue(keys, t) == PairValue(keys[j], keys[j + 1], t)
  {
    SortingKeepsTies(keys);
    PairFound(keys, 0, j, t);
    assert keys[0..] == keys;
  }

  /** At the time of an inner group the expression gives the group's last value and the twin its first. */
  lemma AtTheGroup(keys: seq<Key>, a: nat, b: nat, v: Env)
    requires Ascending(keys) && Straight(keys) && Cosine(v.cosPi)
    requires Tied(keys, a, b) && b + 1 < |keys| && v.t == keys[a].t
    ensures Eval(BumpExpr(keys), v) == keys[b].v && BumpValue(keys, v.t) == keys[a].v
  {
    InInterval(keys, 0, b, v);
    IntervalStart(keys[b], keys[b + 1], v);
    SortingKeepsTies(keys);
    if a > 0 {
      assert keys[0].t <= keys[a - 1].t && keys[b + 1].t <= keys[|keys| - 1].t;
      TwinInside(keys, a - 1, v.t);
      PairEnds(keys[a - 1], keys[a]);
    }
  }

  // ── agreement ──

  /** The last key not later than t, and the last one earlier than t. */
  lemma {:induction false} Neighbours(keys: seq<Key>, t: real) returns (i: nat, j: nat)
    requires Ascending(keys) && keys != [] && keys[0].t < t < keys[|keys| - 1].t
    ensures i + 1 < |keys| && keys[i].t <= t < keys[i + 1].t
    ensures j <= i && keys[j].t < t <= keys[j + 1].t
  {
    j := 0;
    while keys[j + 1].t < t
      invariant j + 1 < |keys| && keys[j].t < t
      decreases |keys| - j
    {
      j := j + 1;
    }
    i := j;
    while keys[i + 1].t <= t
      invariant j <= i && i + 1 < |keys| && keys[i].t <= t
      decreases |keys| - i
    {
      i := i + 1;
    }
  }

  lemma AgreeInside(keys: seq<Key>, v: Env)
    requires Ascending(keys) && Straight(keys) && Cosine(v.cosPi) && Level(keys)
    requires keys != [] && keys[0].t < v.t < keys[|keys| - 1].t
    ensures Eval(BumpExpr(keys), v) == BumpValue(keys, v.t)
  {
    var i, j := Neighbours(keys, v.t);
    if i == j {
      InInterval(keys, 0, i, v);
      IntervalValue(keys[i], keys[i + 1], v);
      TwinInside(keys, j, v.t);
    } else {
      assert keys[j + 1].t <= keys[i].t;
      assert Tied(keys, j + 1, i);
      AtTheGroup(keys, j + 1, i, v);
    }
  }

  lemma AgreeOutside(keys: seq<Key>, v: Env)
    requires Ascending(keys) && Straight(keys) && Cosine(v.cosPi) && Level(keys)
    requires keys != [] && !(keys[0].t < v.t < keys[|keys| - 1].t)
    ensures Eval(BumpExpr(keys), v) == BumpValue(keys, v.t)
  {
    SortingKeepsTies(keys);
    if v.t >= keys[|keys| - 1].t {
      PastTheLast(keys, 0, v);
      if v.t <= keys[0].t {
        assert keys[0].t <= keys[|keys| - 1].t;
        assert Tied(keys, 0, |keys| - 1);
      }
    } else if v.t == keys[0].t {
      var b := GroupEnd(keys);
      AtTheGroup(keys, 0, b, v);
    } else if |keys| > 1 {
      assert keys[0].t <= keys[1].t;
      InInterval(keys, 0, 0, v);
      if keys[0].t == keys[1].t {
        FlatInterval(keys[0], keys[1], v);
      } else {
        IntervalStart(keys[0], keys[1], v);
      }
    }
  }

  lemma GroupEnd(keys: seq<Key>) returns (b: nat)
    requires Ascending(keys) && keys != [] && keys[0].t < keys[|keys| - 1].t
    ensures Tied(keys, 0, b) && b + 1 < |keys|
  {
    b := 0;
    while keys[b + 1].t == keys[0].t
      invariant b + 1 < |keys| && keys[b].t == keys[0].t
      decreases |keys| - b
    {
      b := b + 1;
    }
  }

  /** Exactly when the twins agree at every time, for any number of breakpoints in time order, ties included. */
  lemma TwinsAgreeExactly(keys: seq<Key>, cosPi: real -> real)
    requires Ascending(keys) && Straight(keys) && Cosine(cosPi)
    ensures Agree(keys, cosPi) <==> Level(keys)
  {
    if Level(keys) {
      forall v: Env | v.cosPi == cosPi ensures Eval(BumpExpr(keys), v) == BumpValue(keys, v.t) {
        if keys != [] {
          if keys[0].t < v.t < keys[|keys| - 1].t {
            AgreeInside(keys, v);
          } else {
            AgreeOutside(keys, v);
          }
        }
      }
    } else {
      TwinsDisagree(keys, cosPi);
    }
  }

  lemma TwinsDisagree(keys: seq<Key>, cosPi: real -> real)
    requires Ascending(keys) && Straight(keys) && Cosine(cosPi) && !Level(keys)
    ensures !Agree(keys, cosPi)
  {
    SortingKeepsTies(keys);
    if |keys| > 1 && keys[0].t == keys[1].t && keys[0].v != keys[1].v {
      var v := Env(keys[0].t - 1.0, 0.0, 0.0, cosPi);
      InInterval(keys, 0, 0, v);
      FlatInterval(keys[0], keys[1], v);
      assert Eval(BumpExpr(keys), v) != BumpValue(keys, v.t);
    } else {
      var a: nat, b: nat :| Tied(keys, a, b) && (a == 0 || b + 1 < |keys|) && keys[a].v != keys[b].v;
      var v := Env(keys[a].t, 0.0, 0.0, cosPi);
      if b + 1 < |keys| {
        AtTheGroup(keys, a, b, v);
      } else {
        PastTheLast(keys, 0, v);
      }
      assert Eval(BumpExpr(keys), v) != BumpValue(keys, v.t);
    }
  }
}
