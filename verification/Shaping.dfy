/**
 Output calibration of a controller state: radial dead zone and saturation for the two sticks,
 thresholds for the triggers. Arithmetic is over the reals; the length of a stick vector is a
 parameter, constrained to be one.
 */
module Shaping {
  const STATE_COUNT: nat := 21
  const R2: nat := 4
  const L2: nat := 7
  const RX: nat := 9
  const RY: nat := 10
  const LX: nat := 11
  const LY: nat := 12

  /** A stick's calibration, in percent. */
  datatype Stick = Stick(deadzone: int, range: int, diagonal: int)

  datatype Profile = Profile(invertRy: bool, ltThreshold: int, rtThreshold: int, left: Stick, right: Stick)

  const NEUTRAL_STICK: Stick := Stick(0, 100, 100)
  const NEUTRAL: Profile := Profile(false, 0, 0, NEUTRAL_STICK, NEUTRAL_STICK)

  function ClampInt(v: int, lo: int, hi: int): int {
    if v < lo then lo else if v > hi then hi else v
  }

  function AbsReal(x: real): (a: real)
    ensures a >= 0.0
  {
    if x < 0.0 then -x else x
  }

  function MaxReal(a: real, b: real): real {
    if a > b then a else b
  }

  function MinReal(a: real, b: real): real {
    if a > b then b else a
  }

  predicate LengthOf(mag: real, x: real, y: real) {
    mag >= 0.0 && mag * mag == x * x + y * y
  }

  /** C's conversion to int: toward zero. */
  function Truncate(r: real): int {
    if r >= 0.0 then r.Floor else -((-r).Floor)
  }

  function Percent(p: int): real {
    p as real / 100.0
  }

  function Dead(s: Stick): (d: real)
    ensures 0.0 <= d < 1.0
  {
    Percent(ClampInt(s.deadzone, 0, 99))
  }

  /** Between the reach on an axis and the reach half way between two. */
  function Between(axis: real, diag: real, diagonality: real): real {
    axis + (diag - axis) * diagonality
  }

  /** How far this stick can be expected to go in this direction; always beyond the dead zone. */
  function Saturation(s: Stick, diagonality: real): (sat: real)
    ensures sat > Dead(s)
  {
    var axis := Percent(ClampInt(s.range, 1, 100));
    var diag := Percent(ClampInt(s.diagonal, 1, 100));
    var sat := Between(axis, diag, diagonality);
    if sat <= Dead(s) then Dead(s) + 0.01 else sat
  }

  /** The fraction of the live travel that is used. */
  function Travel(mag: real, dead: real, sat: real): (t: real)
    requires sat > dead
    ensures 0.0 <= t <= 1.0
  {
    var t := (mag - dead) / (sat - dead);
    if t > 1.0 then 1.0 else if t < 0.0 then 0.0 else t
  }

  const TINY: real := 0.0001

  function Peak(x: real, y: real): (p: real)
    ensures p >= 0.0
  {
    MaxReal(AbsReal(x), AbsReal(y))
  }

  function Diagonality(x: real, y: real): real {
    if Peak(x, y) > TINY then MinReal(AbsReal(x), AbsReal(y)) / Peak(x, y) else 0.0
  }

  function TravelOf(x: real, y: real, mag: real, s: Stick): (t: real)
    ensures 0.0 <= t <= 1.0
  {
    Travel(mag, Dead(s), Saturation(s, Diagonality(x, y)))
  }

  /** One component scaled and rounded away from zero on the half, before any clamp. */
  function Component(v: real, scale: real): int {
    Truncate(v * scale + (if v < 0.0 then -0.5 else 0.5))
  }

  function Scale(x: real, y: real, mag: real, s: Stick): real {
    if Peak(x, y) > TINY then TravelOf(x, y, mag, s) * 100.0 / Peak(x, y) else 0.0
  }

  predicate AtRest(mag: real, s: Stick) {
    mag < TINY || mag <= Dead(s)
  }

  function ShapeStick(x: real, y: real, mag: real, s: Stick): (int, int) {
    if AtRest(mag, s) then (0, 0)
    else
      var scale := Scale(x, y, mag, s);
      (ClampInt(Component(x, scale), -100, 100), ClampInt(Component(y, scale), -100, 100))
  }

  // ------------------------------------------------------------------ what the numbers are

  /** A component is its share of the peak, times the travel: rounded half up, with its own sign. */
  function Share(v: real, peak: real, t: real): (n: int)
    requires peak > 0.0 && AbsReal(v) <= peak && 0.0 <= t <= 1.0
  {
    var n := (100.0 * t * (AbsReal(v) / peak) + 0.5).Floor;
    if v < 0.0 then -n else n
  }

  lemma ShareBounds(v: real, peak: real, t: real)
    requires peak > 0.0 && AbsReal(v) <= peak && 0.0 <= t <= 1.0
    ensures -100 <= Share(v, peak, t) <= 100
    ensures 0.0 <= AbsReal(v) / peak <= 1.0
  {
    var q := AbsReal(v) / peak;
    QuotientBounds(AbsReal(v), peak);
    ProductBounds(t, q);
  }

  lemma QuotientBounds(a: real, b: real)
    requires 0.0 <= a <= b && b > 0.0
    ensures 0.0 <= a / b <= 1.0
  {
  }

  lemma ProductShrinks(t: real, q: real)
    requires 0.0 <= t && 0.0 <= q <= 1.0
    ensures 0.0 <= t * q <= t
  {
    assert t - t * q == t * (1.0 - q);
  }

  lemma ProductBounds(t: real, q: real)
    requires 0.0 <= t <= 1.0 && 0.0 <= q <= 1.0
    ensures 0.0 <= 100.0 * t * q <= 100.0
  {
    ProductShrinks(100.0 * t, q);
  }

  lemma ComponentIsShare(v: real, peak: real, t: real)
    requires peak > 0.0 && AbsReal(v) <= peak && 0.0 <= t <= 1.0
    ensures Component(v, t * 100.0 / peak) == Share(v, peak, t)
  {
    var q := AbsReal(v) / peak;
    QuotientBounds(AbsReal(v), peak);
    ProductBounds(t, q);
    assert AbsReal(v) * (t * 100.0 / peak) == 100.0 * t * q;
    if v < 0.0 {
      assert v * (t * 100.0 / peak) == -(AbsReal(v) * (t * 100.0 / peak));
    }
  }

  /** Outside the dead zone and the near-zero cutoff, both outputs are shares, and no clamp acts. */
  lemma Outputs(x: real, y: real, mag: real, s: Stick)
    requires LengthOf(mag, x, y) && !AtRest(mag, s) && Peak(x, y) > TINY
    ensures var t := TravelOf(x, y, mag, s);
            ShapeStick(x, y, mag, s) == (Share(x, Peak(x, y), t), Share(y, Peak(x, y), t))
    ensures var scale := Scale(x, y, mag, s);
            ShapeStick(x, y, mag, s) == (Component(x, scale), Component(y, scale))
  {
    var t := TravelOf(x, y, mag, s);
    ComponentIsShare(x, Peak(x, y), t);
    ComponentIsShare(y, Peak(x, y), t);
    ShareBounds(x, Peak(x, y), t);
    ShareBounds(y, Peak(x, y), t);
  }

  lemma SelfQuotient(p: real)
    requires p > 0.0
    ensures p / p == 1.0
  {
  }

  lemma ShareOfPeak(v: real, p: real, t: real)
    requires p > 0.0 && AbsReal(v) == p && 0.0 <= t <= 1.0
    ensures Share(v, p, t) == if v < 0.0 then -((100.0 * t + 0.5).Floor) else (100.0 * t + 0.5).Floor
  {
    SelfQuotient(p);
    assert 100.0 * t * 1.0 == 100.0 * t;
  }

  /** The larger component carries the travel exactly: the percentage, rounded half up. */
  lemma PeakIsTravel(x: real, y: real, mag: real, s: Stick)
    requires LengthOf(mag, x, y) && !AtRest(mag, s) && Peak(x, y) > TINY
    ensures var t := TravelOf(x, y, mag, s);
            var n := (100.0 * t + 0.5).Floor;
            var (px, py) := ShapeStick(x, y, mag, s);
            && (AbsReal(x) == Peak(x, y) ==> px == if x < 0.0 then -n else n)
            && (AbsReal(y) == Peak(x, y) ==> py == if y < 0.0 then -n else n)
  {
    hide ShapeStick, TravelOf, AtRest, LengthOf, Share, Scale, Component;
    Outputs(x, y, mag, s);
    var t := TravelOf(x, y, mag, s);
    if AbsReal(x) == Peak(x, y) {
      ShareOfPeak(x, Peak(x, y), t);
    }
    if AbsReal(y) == Peak(x, y) {
      ShareOfPeak(y, Peak(x, y), t);
    }
  }

  /** Inside the cutoff nothing comes out, whatever the dead zone. */
  lemma CutoffIsZero(x: real, y: real, mag: real, s: Stick)
    requires Peak(x, y) <= TINY
    ensures ShapeStick(x, y, mag, s) == (0, 0)
  {
    assert x * 0.0 == 0.0 && y * 0.0 == 0.0;
  }

  lemma SquareGrows(a: real, b: real)
    requires 0.0 <= a < b
    ensures a * a < b * b
  {
    assert b * b - a * a == (b - a) * (b + a);
    PositiveProduct(b - a, b + a);
  }

  lemma PositiveProduct(a: real, b: real)
    requires a > 0.0 && b > 0.0
    ensures a * b > 0.0
  {
  }

  /** The length is determined by the stick, so the parameter stands for the square root. */
  lemma LengthIsUnique(a: real, b: real, x: real, y: real)
    requires LengthOf(a, x, y) && LengthOf(b, x, y)
    ensures a == b
  {
    if a < b {
      SquareGrows(a, b);
    } else if b < a {
      SquareGrows(b, a);
    }
  }

  lemma MirrorParts(x: real, y: real, mag: real, s: Stick)
    requires LengthOf(mag, x, y)
    ensures LengthOf(mag, -x, y) && LengthOf(mag, x, -y)
    ensures Peak(-x, y) == Peak(x, y) == Peak(x, -y)
    ensures TravelOf(-x, y, mag, s) == TravelOf(x, y, mag, s) == TravelOf(x, -y, mag, s)
  {
    hide Saturation, Travel;
    assert (-x) * (-x) == x * x && (-y) * (-y) == y * y;
    assert Diagonality(-x, y) == Diagonality(x, y) == Diagonality(x, -y);
  }

  /** Mirroring an axis mirrors its output and leaves the other alone. */
  lemma OddInEachAxis(x: real, y: real, mag: real, s: Stick)
    requires LengthOf(mag, x, y)
    ensures LengthOf(mag, -x, y) && LengthOf(mag, x, -y)
    ensures var (px, py) := ShapeStick(x, y, mag, s);
            ShapeStick(-x, y, mag, s) == (-px, py) && ShapeStick(x, -y, mag, s) == (px, -py)
  {
    hide TravelOf, LengthOf, Share, Scale, Component, Dead;
    MirrorParts(x, y, mag, s);
    if Peak(x, y) <= TINY {
      CutoffIsZero(x, y, mag, s);
      CutoffIsZero(-x, y, mag, s);
      CutoffIsZero(x, -y, mag, s);
    } else if !AtRest(mag, s) {
      Outputs(x, y, mag, s);
      Outputs(-x, y, mag, s);
      Outputs(x, -y, mag, s);
      ShareOdd(x, Peak(x, y), TravelOf(x, y, mag, s));
      ShareOdd(y, Peak(x, y), TravelOf(x, y, mag, s));
    }
  }

  lemma ShareOdd(v: real, peak: real, t: real)
    requires peak > 0.0 && AbsReal(v) <= peak && 0.0 <= t <= 1.0
    ensures Share(-v, peak, t) == -Share(v, peak, t)
  {
    if v == 0.0 {
      assert 0.0 / peak == 0.0;
      assert 100.0 * t * 0.0 == 0.0;
    }
  }

  /** The two axes are treated alike. */
  lemma SymmetricInAxes(x: real, y: real, mag: real, s: Stick)
    requires LengthOf(mag, x, y)
    ensures LengthOf(mag, y, x)
    ensures var (px, py) := ShapeStick(x, y, mag, s); ShapeStick(y, x, mag, s) == (py, px)
  {
  }

  function AbsInt(n: int): nat {
    if n < 0 then -n else n
  }

  lemma TravelGrows(m: real, n: real, dead: real, sat: real)
    requires m <= n && dead < sat
    ensures Travel(m, dead, sat) <= Travel(n, dead, sat)
  {
    DivideGrows(m - dead, n - dead, sat - dead);
  }

  lemma DivideGrows(a: real, b: real, d: real)
    requires a <= b && d > 0.0
    ensures a / d <= b / d
  {
  }

  lemma ShareSize(v: real, p: real, t: real, r: real)
    requires p > 0.0 && AbsReal(v) <= p && 0.0 <= t <= 1.0 && r == AbsReal(v) / p
    ensures AbsInt(Share(v, p, t)) == (100.0 * t * r + 0.5).Floor && 0.0 <= r <= 1.0
  {
    QuotientBounds(AbsReal(v), p);
    ProductBounds(t, r);
  }

  lemma ShareGrows(v: real, p: real, t: real, w: real, q: real, u: real)
    requires p > 0.0 && AbsReal(v) <= p && 0.0 <= t <= u <= 1.0
    requires q > 0.0 && AbsReal(w) <= q && AbsReal(w) / q == AbsReal(v) / p
    ensures AbsInt(Share(v, p, t)) <= AbsInt(Share(w, q, u))
  {
    hide Share, AbsReal;
    var r := AbsReal(v) / p;
    ShareSize(v, p, t, r);
    ShareSize(w, q, u, r);
    ProductGrows(100.0 * t, 100.0 * u, r);
    FloorGrows(100.0 * t * r + 0.5, 100.0 * u * r + 0.5);
  }

  lemma FloorGrows(a: real, b: real)
    requires a <= b
    ensures a.Floor <= b.Floor
  {
  }

  lemma ProductGrows(a: real, b: real, r: real)
    requires a <= b && r >= 0.0
    ensures a * r <= b * r
  {
    assert (b - a) * r >= 0.0;
  }

  lemma ScaledQuotient(a: real, b: real, k: real)
    requires b > 0.0 && k > 0.0
    ensures (k * a) / (k * b) == a / b
  {
    var q := a / b;
    assert a == q * b;
    assert k * a == q * (k * b);
  }

  lemma ScaledParts(x: real, y: real, mag: real, k: real)
    requires LengthOf(mag, x, y) && k >= 1.0
    ensures LengthOf(k * mag, k * x, k * y) && mag <= k * mag
    ensures AbsReal(k * x) == k * AbsReal(x) && AbsReal(k * y) == k * AbsReal(y)
    ensures Peak(k * x, k * y) == k * Peak(x, y) >= Peak(x, y)
  {
    assert (k * mag) * (k * mag) == (k * k) * (mag * mag);
    assert (k * x) * (k * x) == (k * k) * (x * x);
    assert (k * y) * (k * y) == (k * k) * (y * y);
    assert (k * k) * (x * x + y * y) == (k * k) * (x * x) + (k * k) * (y * y);
    ScaleGrows(mag, k);
    ScaleGrows(Peak(x, y), k);
    ScaleCompares(AbsReal(x), AbsReal(y), k);
  }

  lemma ScaleGrows(a: real, k: real)
    requires a >= 0.0 && k >= 1.0
    ensures a <= k * a
  {
  }

  lemma ScaleCompares(a: real, b: real, k: real)
    requires k >= 1.0
    ensures a > b <==> k * a > k * b
  {
  }

  lemma DiagonalityOnRay(x: real, y: real, k: real)
    requires Peak(x, y) > TINY && k >= 1.0
    requires AbsReal(k * x) == k * AbsReal(x) && AbsReal(k * y) == k * AbsReal(y)
    requires Peak(k * x, k * y) == k * Peak(x, y) >= Peak(x, y)
    ensures Diagonality(k * x, k * y) == Diagonality(x, y)
  {
    ScaleCompares(AbsReal(x), AbsReal(y), k);
    ScaledQuotient(MinReal(AbsReal(x), AbsReal(y)), Peak(x, y), k);
  }

  lemma RestOnRay(a: real, b: real, s: Stick)
    requires a <= b && AtRest(b, s)
    ensures AtRest(a, s)
  {
  }

  lemma RestIsZero(x: real, y: real, mag: real, s: Stick)
    requires AtRest(mag, s)
    ensures ShapeStick(x, y, mag, s) == (0, 0)
  {
  }

  lemma TravelOnRay(x: real, y: real, mag: real, k: real, s: Stick)
    requires LengthOf(mag, x, y) && k >= 1.0 && Peak(x, y) > TINY
    ensures TravelOf(x, y, mag, s) <= TravelOf(k * x, k * y, k * mag, s)
  {
    hide Saturation, Travel, Diagonality, AbsReal, LengthOf;
    ScaledParts(x, y, mag, k);
    DiagonalityOnRay(x, y, k);
    TravelGrows(mag, k * mag, Dead(s), Saturation(s, Diagonality(x, y)));
  }

  /** The share of one component grows with the travel as the whole vector is stretched. */
  lemma ShareOnRay(v: real, p: real, t: real, k: real, u: real)
    requires p > 0.0 && k >= 1.0 && AbsReal(v) <= p && 0.0 <= t <= u <= 1.0
    requires AbsReal(k * v) == k * AbsReal(v)
    ensures k * p > 0.0 && AbsReal(k * v) <= k * p
    ensures AbsInt(Share(v, p, t)) <= AbsInt(Share(k * v, k * p, u))
  {
    hide AbsReal, Share;
    ScaledQuotient(AbsReal(v), p, k);
    ScaleGrows(p, k);
    ProductGrows(AbsReal(v), p, k);
    assert AbsReal(k * v) / (k * p) == AbsReal(v) / p;
    ShareGrows(v, p, t, k * v, k * p, u);
  }

  /** Pushing the stick further the same way never makes either output smaller. */
  lemma MonotoneAlongRays(x: real, y: real, mag: real, k: real, s: Stick)
    requires LengthOf(mag, x, y) && k >= 1.0
    ensures LengthOf(k * mag, k * x, k * y)
    ensures var (px, py) := ShapeStick(x, y, mag, s);
            var (qx, qy) := ShapeStick(k * x, k * y, k * mag, s);
            AbsInt(px) <= AbsInt(qx) && AbsInt(py) <= AbsInt(qy)
  {
    hide LengthOf, Share, Scale, Component, AbsReal, AtRest, ShapeStick, TravelOf;
    ScaledParts(x, y, mag, k);
    var p := Peak(x, y);
    if AtRest(mag, s) {
      RestIsZero(x, y, mag, s);
    } else if p <= TINY {
      CutoffIsZero(x, y, mag, s);
    } else {
      if AtRest(k * mag, s) {
        RestOnRay(mag, k * mag, s);
      }
      TravelOnRay(x, y, mag, k, s);
      Outputs(x, y, mag, s);
      Outputs(k * x, k * y, k * mag, s);
      var t, u := TravelOf(x, y, mag, s), TravelOf(k * x, k * y, k * mag, s);
      ShareOnRay(x, p, t, k, u);
      ShareOnRay(y, p, t, k, u);
      var q := Peak(k * x, k * y);
      assert q == k * p;
      assert ShapeStick(x, y, mag, s) == (Share(x, p, t), Share(y, p, t));
      assert ShapeStick(k * x, k * y, k * mag, s) == (Share(k * x, q, u), Share(k * y, q, u));
    }
  }

  // ------------------------------------------------------------------ a whole state

  /** One signed byte; negating the lowest one wraps to itself. */
  predicate Int8(v: int) {
    -128 <= v <= 127
  }

  predicate StateOk(st: seq<int>) {
    |st| == STATE_COUNT && forall i :: 0 <= i < STATE_COUNT ==> Int8(st[i])
  }

  function Negated(v: int): int {
    if v == -128 then -128 else -v
  }

  /** The lengths of the two sticks of a state, as fractions of full deflection. */
  predicate Lengths(st: seq<int>, left: real, right: real)
    requires |st| == STATE_COUNT
  {
    LengthOf(left, Percent(st[LX]), Percent(st[LY])) && LengthOf(right, Percent(st[RX]), Percent(st[RY]))
  }

  function Trigger(v: int, threshold: int): int {
    if threshold > 0 then (if v > threshold then 100 else 0) else v
  }

  function ShapedStick(x: int, y: int, mag: real, s: Stick): (int, int) {
    if s == NEUTRAL_STICK then (x, y) else ShapeStick(Percent(x), Percent(y), mag, s)
  }

  /** The shaped state: sticks and triggers recalibrated, everything else as it was. */
  function ShapedState(p: Profile, st: seq<int>, left: real, right: real): (r: seq<int>)
    requires |st| == STATE_COUNT
    ensures |r| == STATE_COUNT
    ensures forall i :: 0 <= i < STATE_COUNT && i !in {L2, R2, LX, LY, RX, RY} ==> r[i] == st[i]
  {
    var (lx, ly) := ShapedStick(st[LX], st[LY], left, p.left);
    var (rx, ry) := ShapedStick(st[RX], st[RY], right, p.right);
    st[L2 := Trigger(st[L2], p.ltThreshold)][R2 := Trigger(st[R2], p.rtThreshold)]
      [LX := lx][LY := ly][RX := rx][RY := if p.invertRy then Negated(ry) else ry]
  }

  /** The neutral profile is an exact pass-through of the whole state. */
  lemma NeutralIsIdentity(st: seq<int>, left: real, right: real)
    requires |st| == STATE_COUNT
    ensures ShapedState(NEUTRAL, st, left, right) == st
  {
    var r := ShapedState(NEUTRAL, st, left, right);
    assert forall i :: 0 <= i < STATE_COUNT ==> r[i] == st[i];
  }

  /** Inverting the right stick twice is not inverting it at all. */
  lemma InversionUndoes(p: Profile, st: seq<int>, left: real, right: real)
    requires StateOk(st)
    ensures var plain := ShapedState(p.(invertRy := false), st, left, right);
            var inverted := ShapedState(p.(invertRy := true), st, left, right);
            inverted[RY := Negated(inverted[RY])] == plain
  {
    var plain := ShapedState(p.(invertRy := false), st, left, right);
    var inverted := ShapedState(p.(invertRy := true), st, left, right);
    assert Negated(Negated(plain[RY])) == plain[RY];
    assert inverted == plain[RY := Negated(plain[RY])];
  }

  /** One stick of a state, recalibrated into the output unless its profile is neutral. */
  method ShapeStickInto(s: Stick, input: array<int>, x: nat, y: nat, mag: real, output: array<int>)
    requires input.Length == STATE_COUNT && output.Length == STATE_COUNT && input != output
    requires x < STATE_COUNT && y < STATE_COUNT && x != y && output[x] == input[x] && output[y] == input[y]
    modifies output
    ensures var r := ShapedStick(input[x], input[y], mag, s);
            output[..] == old(output[..])[x := r.0][y := r.1]
  {
    hide ShapeStick, Percent;
    if s != NEUTRAL_STICK {
      var shaped := ShapeStick(Percent(input[x]), Percent(input[y]), mag, s);
      output[x], output[y] := shaped.0, shaped.1;
    }
  }

  /** Copies the input and overwrites what the profile recalibrates. */
  method ShapeInto(p: Profile, input: array<int>, left: real, right: real, output: array<int>)
    requires input.Length == STATE_COUNT && output.Length == STATE_COUNT && input != output
    requires Lengths(input[..], left, right)
    modifies output
    ensures output[..] == ShapedState(p, input[..], left, right)
  {
    hide ShapedStick;
    forall i | 0 <= i < STATE_COUNT {
      output[i] := input[i];
    }
    assert output[..] == input[..];
    if p.ltThreshold > 0 {
      output[L2] := if input[L2] > p.ltThreshold then 100 else 0;
    }
    if p.rtThreshold > 0 {
      output[R2] := if input[R2] > p.rtThreshold then 100 else 0;
    }
    ShapeStickInto(p.left, input, LX, LY, left, output);
    ShapeStickInto(p.right, input, RX, RY, right, output);
    if p.invertRy {
      output[RY] := Negated(output[RY]);
    }
  }
}
