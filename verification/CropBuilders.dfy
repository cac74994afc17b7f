/** The crop rectangles built from keyframes: per-frame expressions for the GPU, plain numbers for the CPU fallback,
    which shows the first keyframe only. */
module CropBuilders {
  import opened Keyframes

  const FLOOR := 1.001

  // ── motion segments: a rectangle per keyframe ──

  datatype Rect = Rect(x: real, y: real, w: real, h: real)

  datatype MotionKey = MotionKey(t: real, rect: Rect)

  datatype Component = X | Y | W | H

  function Part(r: Rect, c: Component): real {
    match c
    case X => r.x
    case Y => r.y
    case W => r.w
    case H => r.h
  }

  function Scale(c: Component): Expr {
    if c.X? || c.W? then Width else Height
  }

  function Track(keys: seq<MotionKey>, c: Component, interp: Interp): (r: seq<Key>)
    ensures |r| == |keys| && forall i :: 0 <= i < |keys| ==> r[i] == Key(keys[i].t, Part(keys[i].rect, c), interp)
  {
    seq(|keys|, i requires 0 <= i < |keys| => Key(keys[i].t, Part(keys[i].rect, c), interp))
  }

  function AnimExpr(keys: seq<MotionKey>, c: Component, interp: Interp): Expr
    requires keys != []
  {
    Mul(From(Track(keys, c, interp), 0), Scale(c))
  }

  /** The animated crop passes through every keyframe's rectangle, scaled to pixels. */
  lemma AnimationPassesThroughKeyframes(keys: seq<MotionKey>, c: Component, interp: Interp, i: nat, v: Env)
    requires i < |keys| && Cosine(v.cosPi) && v.t == keys[i].t
    requires forall a, b :: 0 <= a < b < |keys| ==> keys[a].t < keys[b].t
    ensures Eval(AnimExpr(keys, c, interp), v) == Product(Eval(Scale(c), v), Part(keys[i].rect, c))
  {
    var track := Track(keys, c, interp);
    CompiledMeansTheCurve(track, v);
    CurveHits(track, v.cosPi, i);
  }

  /** The CPU fallback of a motion segment: the first keyframe's rectangle, as fractions of the source. */
  function StaticCrop(keys: seq<MotionKey>): Rect
    requires keys != []
  {
    keys[0].rect
  }

  /** The static crop is the animated one up to the first keyframe's time. */
  lemma MotionCropsAgree(keys: seq<MotionKey>, c: Component, interp: Interp, v: Env)
    requires keys != [] && Cosine(v.cosPi) && v.t <= keys[0].t
    requires forall a, b :: 0 <= a < b < |keys| ==> keys[a].t < keys[b].t
    ensures Eval(AnimExpr(keys, c, interp), v) == Product(Eval(Scale(c), v), Part(StaticCrop(keys), c))
  {
    var track := Track(keys, c, interp);
    CompiledMeansTheCurve(track, v);
    CurveHitsAndStays(track, v.cosPi, 0, v.t);
  }

  // ── zoom segments: a ramp, a centre and punches ──

  datatype ZoomKey = ZoomKey(t: real, z: real, headX: real, eyeY: real, interp: Interp)

  datatype Geom = Geom(sw: real, sh: real, cropX: real, cropY: real, coverW: real, coverH: real)

  datatype Attr = Zoom | HeadX | EyeY

  function Value(k: ZoomKey, a: Attr): real {
    match a
    case Zoom => k.z
    case HeadX => k.headX
    case EyeY => k.eyeY
  }

  function Along(keys: seq<ZoomKey>, a: Attr): (r: seq<Key>)
    ensures |r| == |keys| && forall i :: 0 <= i < |keys| ==> r[i] == Key(keys[i].t, Value(keys[i], a), keys[i].interp)
  {
    seq(|keys|, i requires 0 <= i < |keys| => Key(keys[i].t, Value(keys[i], a), keys[i].interp))
  }

  function ZExpr(keys: seq<ZoomKey>, punches: seq<Key>): Expr
    requires keys != []
  {
    MaxOf(Num(FLOOR), Mul(From(Along(keys, Zoom), 0), Add(Num(1.0), BumpExpr(punches))))
  }

  /** One offset of the crop: where the side starts, its centre less the share of the window before it. */
  function OffsetExpr(start: real, center: Expr, side: real, share: real, z: Expr, cover: real, scale: Expr): Expr {
    var window := Div(Num(side), z);
    Mul(Div(Sub(Add(Num(start), Mul(center, Num(side))), Mul(Num(share), window)), Num(cover)), scale)
  }

  function ExtentExpr(side: real, z: Expr, cover: real, scale: Expr): Expr {
    Mul(Div(Div(Num(side), z), Num(cover)), scale)
  }

  function GpuCrop(keys: seq<ZoomKey>, g: Geom, ax: real, ay: real, punches: seq<Key>, c: Component): Expr
    requires keys != []
  {
    var z := ZExpr(keys, punches);
    match c
    case X => OffsetExpr(g.cropX, From(Along(keys, HeadX), 0), g.sw, ax, z, g.coverW, Width)
    case Y => OffsetExpr(g.cropY, From(Along(keys, EyeY), 0), g.sh, ay, z, g.coverH, Height)
    case W => ExtentExpr(g.sw, z, g.coverW, Width)
    case H => ExtentExpr(g.sh, z, g.coverH, Height)
  }

  function Offset(start: real, center: real, side: real, share: real, z: real, cover: real): real {
    Quotient(start + Product(center, side) - Product(share, Quotient(side, z)), cover)
  }

  /** The static crop, as fractions of the source, at the first keyframe. */
  function CpuCrop(keys: seq<ZoomKey>, g: Geom, ax: real, ay: real, punches: seq<Key>): Rect
    requires keys != []
  {
    var k := keys[0];
    var z := Max(FLOOR, Product(k.z, 1.0 + BumpValue(punches, k.t)));
    Rect(Offset(g.cropX, k.headX, g.sw, ax, z, g.coverW),
         Offset(g.cropY, k.eyeY, g.sh, ay, z, g.coverH),
         Quotient(Quotient(g.sw, z), g.coverW),
         Quotient(Quotient(g.sh, z), g.coverH))
  }

  ghost predicate InOrder(keys: seq<ZoomKey>) {
    keys != [] && forall i, j :: 0 <= i < j < |keys| ==> keys[i].t < keys[j].t
  }

  lemma AlongStarts(keys: seq<ZoomKey>, a: Attr, v: Env)
    requires InOrder(keys) && Cosine(v.cosPi) && v.t == keys[0].t
    ensures Eval(From(Along(keys, a), 0), v) == Value(keys[0], a)
  {
    CompiledMeansTheCurve(Along(keys, a), v);
    CurveHits(Along(keys, a), v.cosPi, 0);
  }

  lemma ZoomStarts(keys: seq<ZoomKey>, punches: seq<Key>, v: Env)
    requires InOrder(keys) && Cosine(v.cosPi) && v.t == keys[0].t
    requires Increasing(punches) && Straight(punches)
    ensures Eval(ZExpr(keys, punches), v) == Max(FLOOR, Product(keys[0].z, 1.0 + BumpValue(punches, keys[0].t)))
  {
    AlongStarts(keys, Zoom, v);
    TwinsAgree(punches, v);
    var lift := Add(Num(1.0), BumpExpr(punches));
    assert Eval(lift, v) == 1.0 + BumpValue(punches, v.t);
    var raised := Mul(From(Along(keys, Zoom), 0), lift);
    assert Eval(raised, v) == Product(keys[0].z, Eval(lift, v));
  }

  lemma OffsetMeans(start: real, center: Expr, side: real, share: real, z: Expr, cover: real, scale: Expr, v: Env)
    ensures Eval(OffsetExpr(start, center, side, share, z, cover, scale), v) ==
            Product(Offset(start, Eval(center, v), side, share, Eval(z, v), cover), Eval(scale, v))
  {
    var window := Div(Num(side), z);
    assert Eval(window, v) == Quotient(side, Eval(z, v));
    var before := Mul(Num(share), window);
    assert Eval(before, v) == Product(share, Eval(window, v));
    var at := Mul(center, Num(side));
    assert Eval(at, v) == Product(Eval(center, v), side);
    var from := Add(Num(start), at);
    assert Eval(from, v) == start + Eval(at, v);
    assert Eval(Sub(from, before), v) == Eval(from, v) - Eval(before, v);
    assert Eval(Div(Sub(from, before), Num(cover)), v) == Quotient(Eval(Sub(from, before), v), cover);
  }

  lemma ExtentMeans(side: real, z: Expr, cover: real, scale: Expr, v: Env)
    ensures Eval(ExtentExpr(side, z, cover, scale), v) ==
            Product(Quotient(Quotient(side, Eval(z, v)), cover), Eval(scale, v))
  {
    var window := Div(Num(side), z);
    assert Eval(window, v) == Quotient(side, Eval(z, v));
    assert Eval(Div(window, Num(cover)), v) == Quotient(Eval(window, v), cover);
  }

  /** The CPU crop is the GPU crop at the first keyframe's time: same floor, same punch, same rectangle. */
  lemma CropsAgree(keys: seq<ZoomKey>, g: Geom, ax: real, ay: real, punches: seq<Key>, c: Component, v: Env)
    requires InOrder(keys) && Cosine(v.cosPi) && v.t == keys[0].t
    requires Increasing(punches) && Straight(punches)
    ensures Eval(GpuCrop(keys, g, ax, ay, punches, c), v) ==
            Product(Part(CpuCrop(keys, g, ax, ay, punches), c), Eval(Scale(c), v))
  {
    var z := ZExpr(keys, punches);
    ZoomStarts(keys, punches, v);
    match c
    case X =>
      AlongStarts(keys, HeadX, v);
      OffsetMeans(g.cropX, From(Along(keys, HeadX), 0), g.sw, ax, z, g.coverW, Width, v);
    case Y =>
      AlongStarts(keys, EyeY, v);
      OffsetMeans(g.cropY, From(Along(keys, EyeY), 0), g.sh, ay, z, g.coverH, Height, v);
    case W => ExtentMeans(g.sw, z, g.coverW, Width, v);
    case H => ExtentMeans(g.sh, z, g.coverH, Height, v);
  }

  // ── what the crop shows ──

  /** The zoom at a time: the ramp raised by the punch, and never below the floor. */
  lemma ZoomMeans(keys: seq<ZoomKey>, punches: seq<Key>, v: Env)
    requires InOrder(keys) && Cosine(v.cosPi) && Increasing(punches)
    ensures var ramp := Curve(Along(keys, Zoom), v.t, v.cosPi);
      var bump := if punches == [] then 0.0 else Curve(punches, v.t, v.cosPi);
      Eval(ZExpr(keys, punches), v) == (if ramp * (1.0 + bump) > FLOOR then ramp * (1.0 + bump) else FLOOR)
  {
    CompiledMeansTheCurve(Along(keys, Zoom), v);
    if punches != [] {
      CompiledMeansTheCurve(punches, v);
    }
    var lift := Add(Num(1.0), BumpExpr(punches));
    assert Eval(lift, v) == 1.0 + Eval(BumpExpr(punches), v);
    var raised := Mul(From(Along(keys, Zoom), 0), lift);
    assert Eval(raised, v) == Product(Eval(From(Along(keys, Zoom), 0), v), Eval(lift, v));
  }

  /** A point at a share of the window: offset and extent put it where the centre says. */
  lemma PointAtShare(start: real, center: real, side: real, share: real, z: real, cover: real, scale: real)
    requires z > 0.0 && cover != 0.0
    ensures var x := Product(Offset(start, center, side, share, z, cover), scale);
      var w := Product(Quotient(Quotient(side, z), cover), scale);
      && (x + share * w) * cover == (start + center * side) * scale
      && w * cover * z == side * scale
  {
    var window := side / z;
    var from := start + center * side - share * window;
    Undone(from, cover);
    Undone(window, cover);
    Undone(side, z);
    Scaled(from / cover, scale, cover, from);
    Scaled(window / cover, scale, cover, window);
    var x, w := from / cover * scale, window / cover * scale;
    assert (x + share * w) * cover == x * cover + share * (w * cover);
    assert x * cover == from * scale && w * cover == window * scale;
    assert share * (window * scale) == share * window * scale;
    assert window * scale * z == window * z * scale;
  }

  lemma Undone(a: real, d: real)
    requires d != 0.0
    ensures a / d * d == a
  {
  }

  lemma Scaled(q: real, scale: real, d: real, a: real)
    requires q * d == a
    ensures q * scale * d == a * scale
  {
  }

  lemma FramedAlong(start: real, center: Expr, side: real, share: real, z: Expr, cover: real, scale: Expr, v: Env)
    requires Eval(z, v) > 0.0 && cover != 0.0
    ensures var x := Eval(OffsetExpr(start, center, side, share, z, cover, scale), v);
      var w := Eval(ExtentExpr(side, z, cover, scale), v);
      && (x + share * w) * cover == (start + Eval(center, v) * side) * Eval(scale, v)
      && w * cover * Eval(z, v) == side * Eval(scale, v)
  {
    hide Eval, Offset;
    OffsetMeans(start, center, side, share, z, cover, scale, v);
    ExtentMeans(side, z, cover, scale, v);
    PointAtShare(start, Eval(center, v), side, share, Eval(z, v), cover, Eval(scale, v));
  }

  lemma SidesMean(v: Env)
    ensures Eval(Width, v) == v.iw && Eval(Height, v) == v.ih
  {
  }

  /** At every time the crop shows the window the keyframes ask for: the head is at its share of the width and the eyes
      at theirs of the height, and the window is the visible side divided by the zoom, all in source pixels. */
  lemma CropFramesTheHead(keys: seq<ZoomKey>, g: Geom, ax: real, ay: real, punches: seq<Key>, v: Env)
    requires InOrder(keys) && Cosine(v.cosPi) && g.coverW != 0.0 && g.coverH != 0.0
    ensures var z := Eval(ZExpr(keys, punches), v);
      var x, y := Eval(GpuCrop(keys, g, ax, ay, punches, X), v), Eval(GpuCrop(keys, g, ax, ay, punches, Y), v);
      var w, h := Eval(GpuCrop(keys, g, ax, ay, punches, W), v), Eval(GpuCrop(keys, g, ax, ay, punches, H), v);
      && (x + ax * w) * g.coverW == (g.cropX + Curve(Along(keys, HeadX), v.t, v.cosPi) * g.sw) * v.iw
      && (y + ay * h) * g.coverH == (g.cropY + Curve(Along(keys, EyeY), v.t, v.cosPi) * g.sh) * v.ih
      && w * g.coverW * z == g.sw * v.iw && h * g.coverH * z == g.sh * v.ih
  {
    hide Eval, ZExpr, OffsetExpr, ExtentExpr, Curve;
    var z := ZExpr(keys, punches);
    SidesMean(v);
    ZoomHasAFloor(keys, punches, v);
    CompiledMeansTheCurve(Along(keys, HeadX), v);
    CompiledMeansTheCurve(Along(keys, EyeY), v);
    FramedAlong(g.cropX, From(Along(keys, HeadX), 0), g.sw, ax, z, g.coverW, Width, v);
    FramedAlong(g.cropY, From(Along(keys, EyeY), 0), g.sh, ay, z, g.coverH, Height, v);
  }

  // ── the floor keeps the expressions meaningful ──

  /** The zoom never falls below its floor, whatever the ramp and the punches do. */
  lemma ZoomHasAFloor(keys: seq<ZoomKey>, punches: seq<Key>, v: Env)
    requires keys != []
    ensures Eval(ZExpr(keys, punches), v) >= FLOOR && Defined(ZExpr(keys, punches), v)
  {
    CompiledIsDefined(Along(keys, Zoom), 0, v);
    if punches != [] {
      CompiledIsDefined(punches, 0, v);
    }
    var bump := BumpExpr(punches);
    assert Defined(bump, v);
    var lift := Add(Num(1.0), bump);
    assert Defined(lift, v);
    assert Defined(Mul(From(Along(keys, Zoom), 0), lift), v);
  }

  /** At every time, whatever the keyframes and punches, no crop expression divides by zero. */
  lemma CropIsDefined(keys: seq<ZoomKey>, g: Geom, ax: real, ay: real, punches: seq<Key>, c: Component, v: Env)
    requires keys != [] && g.coverW != 0.0 && g.coverH != 0.0
    ensures Defined(GpuCrop(keys, g, ax, ay, punches, c), v)
  {
    var z := ZExpr(keys, punches);
    ZoomHasAFloor(keys, punches, v);
    match c
    case X =>
      CompiledIsDefined(Along(keys, HeadX), 0, v);
      OffsetIsDefined(g.cropX, From(Along(keys, HeadX), 0), g.sw, ax, z, g.coverW, Width, v);
    case Y =>
      CompiledIsDefined(Along(keys, EyeY), 0, v);
      OffsetIsDefined(g.cropY, From(Along(keys, EyeY), 0), g.sh, ay, z, g.coverH, Height, v);
    case W => ExtentIsDefined(g.sw, z, g.coverW, Width, v);
    case H => ExtentIsDefined(g.sh, z, g.coverH, Height, v);
  }

  lemma OffsetIsDefined(start: real, center: Expr, side: real, share: real, z: Expr, cover: real, scale: Expr, v: Env)
    requires Defined(center, v) && Defined(z, v) && Eval(z, v) != 0.0 && cover != 0.0 && Defined(scale, v)
    ensures Defined(OffsetExpr(start, center, side, share, z, cover, scale), v)
  {
    var window := Div(Num(side), z);
    assert Defined(window, v);
    var before := Mul(Num(share), window);
    assert Defined(before, v);
    var at := Mul(center, Num(side));
    assert Defined(at, v);
    var from := Add(Num(start), at);
    assert Defined(from, v);
    assert Defined(Sub(from, before), v) && Eval(Num(cover), v) == cover;
    assert Defined(Div(Sub(from, before), Num(cover)), v);
  }

  lemma ExtentIsDefined(side: real, z: Expr, cover: real, scale: Expr, v: Env)
    requires Defined(z, v) && Eval(z, v) != 0.0 && cover != 0.0 && Defined(scale, v)
    ensures Defined(ExtentExpr(side, z, cover, scale), v)
  {
    var window := Div(Num(side), z);
    assert Defined(window, v) && Eval(Num(cover), v) == cover;
    assert Defined(Div(window, Num(cover)), v);
  }
}
