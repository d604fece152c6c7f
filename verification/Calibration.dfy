/**
 Stick calibration in percent of full deflection: how far a stick has to be pushed, and what comes out.
 Settings, deflections and outputs are whole numbers; only the length of the push is a square root.
 */
module Calibration {
  import opened Shaping

  /** Settings in range. */
  predicate Sane(s: Stick) {
    0 <= s.deadzone <= 99 && 1 <= s.range <= 100 && 1 <= s.diagonal <= 100
  }

  function Size(v: int): nat {
    if v < 0 then -v else v
  }

  function Larger(a: nat, b: nat): nat {
    if a < b then b else a
  }

  function Smaller(a: nat, b: nat): nat {
    if a < b then a else b
  }

  function Sloping(r: int, slope: int, q: real): real {
    r as real + slope as real * q
  }

  /** How many percent the stick goes that way: `range` on an axis, `diagonal` half way between two. */
  function Reach(a: nat, b: nat, s: Stick): real
    requires a + b > 0
  {
    var reach := Sloping(s.range, s.diagonal - s.range, Smaller(a, b) as real / Larger(a, b) as real);
    if reach <= s.deadzone as real then s.deadzone as real + 1.0 else reach
  }

  /** How many percent of its live travel a stick pushed by w percent has gone. */
  function Gone(w: real, reach: real, d: real): real
    requires reach > d
  {
    if w <= d then 0.0 else if w >= reach then 100.0 else 100.0 * (w - d) / (reach - d)
  }

  /** One component of that: its proportion of the larger one, to the nearest percent, halves going up. */
  function Felt(v: int, largest: nat, gone: real): int
    requires largest > 0
  {
    var n := (gone * (Size(v) as real / largest as real) + 0.5).Floor;
    if v < 0 then -n else n
  }

  /** The push, in percent. */
  predicate Push(w: real, x: int, y: int) {
    w >= 0.0 && w * w == (x * x + y * y) as real
  }

  /** What a stick at (x, y) percent puts out. */
  function Shaped(x: int, y: int, w: real, s: Stick): (int, int) {
    ShapeStick(Percent(x), Percent(y), w / 100.0, s)
  }

  // ------------------------------------------------------------------ hundredths

  lemma Hundredth(a: real, b: real)
    requires b > 0.0
    ensures (a / 100.0) / (b / 100.0) == a / b
  {
    var q := a / b;
    assert a == q * b;
    assert a / 100.0 == q * (b / 100.0);
  }

  lemma LengthInPercent(x: int, y: int, w: real)
    requires Push(w, x, y)
    ensures LengthOf(w / 100.0, Percent(x), Percent(y))
  {
    var m, p, q := w / 100.0, Percent(x), Percent(y);
    assert 10000.0 * (m * m) == w * w;
    assert 10000.0 * (p * p) == (x as real) * (x as real) == (x * x) as real;
    assert 10000.0 * (q * q) == (y as real) * (y as real) == (y * y) as real;
  }

  lemma PartsInPercent(x: int, y: int)
    requires x != 0 || y != 0
    ensures AbsReal(Percent(x)) == Size(x) as real / 100.0 && AbsReal(Percent(y)) == Size(y) as real / 100.0
    ensures Peak(Percent(x), Percent(y)) == Larger(Size(x), Size(y)) as real / 100.0 > TINY
    ensures Diagonality(Percent(x), Percent(y))
            == Smaller(Size(x), Size(y)) as real / Larger(Size(x), Size(y)) as real
  {
    Hundredth(Smaller(Size(x), Size(y)) as real, Larger(Size(x), Size(y)) as real);
  }

  lemma ReachInPercent(a: nat, b: nat, s: Stick)
    requires Sane(s) && a + b > 0
    ensures Dead(s) == s.deadzone as real / 100.0
    ensures Saturation(s, Smaller(a, b) as real / Larger(a, b) as real) == Reach(a, b, s) / 100.0
    ensures Reach(a, b, s) > s.deadzone as real
  {
    hide Between, Sloping;
    BetweenInPercent(s.range, s.diagonal, Smaller(a, b) as real / Larger(a, b) as real);
  }

  lemma BetweenInPercent(r: int, g: int, q: real)
    ensures Between(Percent(r), Percent(g), q) == Sloping(r, g - r, q) / 100.0
  {
    var slope := Percent(g) - Percent(r);
    assert 100.0 * slope == (g - r) as real;
    assert 100.0 * (slope * q) == (100.0 * slope) * q;
  }

  lemma TravelInPercent(w: real, reach: real, d: real)
    requires reach > d && w > d
    ensures 100.0 * Travel(w / 100.0, d / 100.0, reach / 100.0) == Gone(w, reach, d)
  {
    Hundredth(w - d, reach - d);
    assert w / 100.0 - d / 100.0 == (w - d) / 100.0;
    assert reach / 100.0 - d / 100.0 == (reach - d) / 100.0;
    Whole(w - d, reach - d);
    assert 100.0 * ((w - d) / (reach - d)) == 100.0 * (w - d) / (reach - d);
  }

  lemma Whole(a: real, b: real)
    requires a > 0.0 && b > 0.0
    ensures a / b > 0.0 && (a >= b <==> a / b >= 1.0)
  {
    var q := a / b;
    assert a == q * b;
    if q < 1.0 {
      PositiveProduct(1.0 - q, b);
    }
  }

  lemma ShareInPercent(v: int, largest: nat, t: real)
    requires largest > 0 && Size(v) <= largest && 0.0 <= t <= 1.0
    requires AbsReal(Percent(v)) == Size(v) as real / 100.0
    ensures largest as real / 100.0 > 0.0 && AbsReal(Percent(v)) <= largest as real / 100.0
    ensures Share(Percent(v), largest as real / 100.0, t) == Felt(v, largest, 100.0 * t)
  {
    Hundredth(Size(v) as real, largest as real);
  }

  lemma NotZero(x: int, y: int, w: real)
    requires Push(w, x, y) && (x != 0 || y != 0)
    ensures w >= 1.0
  {
    SquareIsPositive(x);
    SquareIsPositive(y);
    SquareBelowOne(w);
  }

  lemma SquareBelowOne(w: real)
    requires w >= 0.0
    ensures w < 1.0 ==> w * w < 1.0
  {
    if w < 1.0 {
      ProductShrinks(w, w);
    }
  }

  lemma SquareIsPositive(v: int)
    ensures if v == 0 then v * v == 0 else v * v >= 1
  {
    if v > 0 {
      assert v * v >= v;
    } else if v < 0 {
      assert v * v >= -v;
    }
  }

  // ------------------------------------------------------------------ the calibration

  /**
   Inside the dead zone nothing; beyond it each component has its proportion of the travel gone, which is
   counted from the dead zone to the reach in that direction and is full from there on.
   */
  lemma CalibratedExactly(x: int, y: int, w: real, s: Stick)
    requires Sane(s) && Push(w, x, y) && (x != 0 || y != 0)
    ensures Reach(Size(x), Size(y), s) > s.deadzone as real
    ensures var largest := Larger(Size(x), Size(y));
            var gone := Gone(w, Reach(Size(x), Size(y), s), s.deadzone as real);
            Shaped(x, y, w, s)
            == if w <= s.deadzone as real then (0, 0) else (Felt(x, largest, gone), Felt(y, largest, gone))
  {
    hide ShapeStick, Travel, Saturation, Diagonality, Peak, AbsReal, Share, Felt, Reach, Percent, Scale, Component,
      Gone;
    LengthInPercent(x, y, w);
    PartsInPercent(x, y);
    ReachInPercent(Size(x), Size(y), s);
    NotZero(x, y, w);
    if w <= s.deadzone as real {
      RestIsZero(Percent(x), Percent(y), w / 100.0, s);
    } else {
      var t := TravelOf(Percent(x), Percent(y), w / 100.0, s);
      Outputs(Percent(x), Percent(y), w / 100.0, s);
      TravelInPercent(w, Reach(Size(x), Size(y), s), s.deadzone as real);
      ShareInPercent(x, Larger(Size(x), Size(y)), t);
      ShareInPercent(y, Larger(Size(x), Size(y)), t);
    }
  }

  /** A stick at rest puts out nothing. */
  lemma CentreIsZero(w: real, s: Stick)
    requires Push(w, 0, 0)
    ensures Shaped(0, 0, w, s) == (0, 0)
  {
    CutoffIsZero(Percent(0), Percent(0), w / 100.0, s);
  }

  /** A setting out of range counts as the nearest one in range. */
  lemma OutOfRange(x: int, y: int, w: real, s: Stick, sane: Stick)
    requires Sane(sane)
    requires s.deadzone == sane.deadzone
               || (s.deadzone < 0 && sane.deadzone == 0) || (s.deadzone > 99 && sane.deadzone == 99)
    requires s.range == sane.range || (s.range < 1 && sane.range == 1) || (s.range > 100 && sane.range == 100)
    requires s.diagonal == sane.diagonal
               || (s.diagonal < 1 && sane.diagonal == 1) || (s.diagonal > 100 && sane.diagonal == 100)
    ensures Shaped(x, y, w, s) == Shaped(x, y, w, sane)
  {
    hide ShapeStick, Diagonality, Component, Peak;
    SameSettings(s, sane, Diagonality(Percent(x), Percent(y)));
    SameShape(Percent(x), Percent(y), w / 100.0, s, sane);
  }

  lemma SameSettings(s: Stick, sane: Stick, q: real)
    requires ClampInt(s.deadzone, 0, 99) == ClampInt(sane.deadzone, 0, 99)
    requires ClampInt(s.range, 1, 100) == ClampInt(sane.range, 1, 100)
    requires ClampInt(s.diagonal, 1, 100) == ClampInt(sane.diagonal, 1, 100)
    ensures Dead(s) == Dead(sane) && Saturation(s, q) == Saturation(sane, q)
  {
    hide ClampInt, Percent, Between;
  }

  lemma SameShape(x: real, y: real, mag: real, s: Stick, sane: Stick)
    requires Dead(s) == Dead(sane) && Saturation(s, Diagonality(x, y)) == Saturation(sane, Diagonality(x, y))
    ensures ShapeStick(x, y, mag, s) == ShapeStick(x, y, mag, sane)
  {
    hide Diagonality, Component, Peak, Dead, Saturation;
  }

  // ------------------------------------------------------------------ in whole numbers

  /** Rounding half up picks the whole number whose half-open interval around it holds the value. */
  lemma RoundsTo(v: real, n: int)
    requires (2 * n - 1) as real <= 2.0 * v < (2 * n + 1) as real
    ensures (v + 0.5).Floor == n
  {
  }

  /** From the dead zone to the range in proportion, to the nearest percent, halves going up. */
  function OutOnAxis(n: int, d: int, r: int): int
    requires d < r
  {
    if n <= d then 0 else if n >= r then 100 else (200 * (n - d) + (r - d)) / (2 * (r - d))
  }

  /** On an axis. */
  lemma OnAxis(v: int, s: Stick)
    requires Sane(s) && s.deadzone < s.range && v != 0
    ensures var n, out := Size(v), OutOnAxis(Size(v), s.deadzone, s.range);
            Shaped(v, 0, n as real, s) == (if v < 0 then -out else out, 0)
            && Shaped(0, v, n as real, s) == (0, if v < 0 then -out else out)
  {
    hide Gone, Felt, Shaped, Reach, Push, OutOnAxis;
    var n, d, r := Size(v), s.deadzone, s.range;
    AxisPush(v);
    CalibratedExactly(v, 0, n as real, s);
    CalibratedExactly(0, v, n as real, s);
    AxisReach(n, s);
    FeltNothing(n, Gone(n as real, r as real, d as real));
    AxisFelt(v, d, r);
  }

  lemma AxisPush(v: int)
    ensures Push(Size(v) as real, v, 0) && Push(Size(v) as real, 0, v)
  {
    assert v * v == Size(v) * Size(v);
    assert (Size(v) * Size(v)) as real == Size(v) as real * Size(v) as real;
  }

  lemma AxisReach(n: nat, s: Stick)
    requires n > 0 && s.deadzone < s.range
    ensures Reach(n, 0, s) == s.range as real == Reach(0, n, s)
  {
    assert 0.0 / n as real == 0.0;
    assert (s.diagonal - s.range) as real * 0.0 == 0.0;
  }

  lemma FeltNothing(largest: nat, gone: real)
    requires largest > 0
    ensures Felt(0, largest, gone) == 0
  {
    assert 0.0 / largest as real == 0.0;
    assert gone * 0.0 == 0.0;
  }

  /** The larger component feels all of the travel. */
  lemma FeltWhole(v: int, largest: nat, gone: real)
    requires largest > 0 && Size(v) == largest
    ensures Felt(v, largest, gone) == if v < 0 then -((gone + 0.5).Floor) else (gone + 0.5).Floor
  {
    SelfQuotient(largest as real);
    assert gone * 1.0 == gone;
  }

  lemma AxisFelt(v: int, d: int, r: int)
    requires 0 <= d < r && v != 0
    ensures var n, out := Size(v), OutOnAxis(Size(v), d, r);
            if n <= d then out == 0
            else Felt(v, n, Gone(n as real, r as real, d as real)) == if v < 0 then -out else out
  {
    hide Felt;
    var n := Size(v);
    FeltWhole(v, n, Gone(n as real, r as real, d as real));
    if d < n < r {
      QuotientRounds(n - d, r - d);
      assert (100 * (n - d)) as real == 100.0 * (n as real - d as real);
    }
  }

  lemma QuotientRounds(a: nat, b: nat)
    requires b > 0
    ensures ((100 * a) as real / b as real + 0.5).Floor == (200 * a + b) / (2 * b)
  {
    var out := (200 * a + b) / (2 * b);
    var v := (100 * a) as real / b as real;
    assert (100 * a) as real == v * b as real;
    assert 2 * b * out <= 200 * a + b < 2 * b * out + 2 * b;
    FromIntegers(a, b, out);
    Lower((2 * out - 1) as real, 2.0 * v, b as real);
    Upper(2.0 * v, (2 * out + 1) as real, b as real);
    RoundsTo(v, out);
  }

  lemma FromIntegers(a: nat, b: nat, out: int)
    requires 2 * b * out <= 200 * a + b < 2 * b * out + 2 * b
    ensures (2 * out - 1) as real * b as real <= (200 * a) as real < (2 * out + 1) as real * b as real
  {
    assert (2 * out - 1) as real * b as real == ((2 * out - 1) * b) as real;
    assert (2 * out + 1) as real * b as real == ((2 * out + 1) * b) as real;
    assert (2 * out - 1) * b == 2 * b * out - b && (2 * out + 1) * b == 2 * b * out + b;
  }

  lemma Lower(a: real, b: real, k: real)
    requires k > 0.0 && a * k <= b * k
    ensures a <= b
  {
    if a > b {
      PositiveProduct(a - b, k);
    }
  }

  lemma Upper(a: real, b: real, k: real)
    requires k > 0.0 && a * k < b * k
    ensures a < b
  {
    if a >= b {
      ProductGrows(b, a, k);
    }
  }

  /** Whether k percent of a length is at most a push, in whole numbers: both sides squared. */
  predicate AtMost(k: int, square: int) {
    k <= 0 || k * k <= square
  }

  lemma SquaresCompare(k: int, w: real, square: int)
    requires w >= 0.0 && w * w == square as real
    ensures k as real <= w <==> AtMost(k, square)
  {
    var r := k as real;
    if k > 0 {
      assert (k * k) as real == r * r;
      if w < r {
        SquareGrows(w, r);
      } else if r < w {
        SquareGrows(r, w);
      }
    }
  }

  function Along(a: int, b: int, largest: nat, least: nat): int {
    a * largest + b * least
  }

  /** The live travel in this direction, from the dead zone to the reach, times the larger deflection. */
  function Live(largest: nat, least: nat, s: Stick): int {
    var live := Along(s.range - s.deadzone, s.diagonal - s.range, largest, least);
    if live <= 0 then largest else live
  }

  lemma LiveIsReach(a: nat, b: nat, s: Stick)
    requires Sane(s) && a + b > 0
    ensures Live(Larger(a, b), Smaller(a, b), s) > 0
    ensures (Reach(a, b, s) - s.deadzone as real) * Larger(a, b) as real
            == Live(Larger(a, b), Smaller(a, b), s) as real
  {
    hide Sloping, Along;
    var p, l := Larger(a, b), Smaller(a, b);
    var q := l as real / p as real;
    assert q * p as real == l as real;
    ReachTimes(p, l, q, s.range, s.diagonal - s.range, s.deadzone);
  }

  lemma ReachTimes(p: nat, l: nat, q: real, r: int, slope: int, d: int)
    requires p > 0 && q * p as real == l as real
    ensures (Sloping(r, slope, q) - d as real) * p as real == Along(r - d, slope, p, l) as real
    ensures Sloping(r, slope, q) <= d as real <==> Along(r - d, slope, p, l) <= 0
  {
    var over := Sloping(r, slope, q) - d as real;
    Distribute((r - d) as real, slope as real, q, p as real);
    assert ((r - d) * p) as real == (r - d) as real * p as real;
    assert (slope * l) as real == slope as real * l as real;
    SameSign(over, p as real);
  }

  lemma Distribute(a: real, b: real, q: real, p: real)
    ensures (a + b * q) * p == a * p + b * (q * p)
  {
  }

  lemma SameSign(a: real, k: real)
    requires k > 0.0
    ensures a * k <= 0.0 <==> a <= 0.0
  {
    if a > 0.0 {
      PositiveProduct(a, k);
    } else {
      ProductGrows(a, 0.0, k);
    }
  }

  /** At least k percent come out exactly when (2k - 1) / 200 of the live travel is gone. */
  lemma GoneAtLeast(w: real, reach: real, d: real, k: int)
    requires reach > d && 1 <= k <= 100
    ensures (Gone(w, reach, d) + 0.5).Floor >= k
            <==> 200.0 * (w - d) >= (2 * k - 1) as real * (reach - d)
  {
    var half := (2 * k - 1) as real;
    if w <= d {
      PositiveProduct(half, reach - d);
    } else if w >= reach {
      FullTravel(w - d, reach - d, half);
    } else {
      PartTravel(w - d, reach - d, half);
      AtLeast(Gone(w, reach, d), k);
    }
  }

  lemma AtLeast(gone: real, k: int)
    ensures (gone + 0.5).Floor >= k <==> 2.0 * gone >= (2 * k - 1) as real
  {
  }

  lemma FullTravel(a: real, live: real, half: real)
    requires a >= live > 0.0 && half <= 199.0
    ensures 200.0 * a >= half * live
  {
    ProductGrows(half, 199.0, live);
  }

  lemma PartTravel(a: real, live: real, half: real)
    requires live > 0.0
    ensures 2.0 * (100.0 * a / live) >= half <==> 200.0 * a >= half * live
  {
    var gone := 100.0 * a / live;
    assert gone * live == 100.0 * a;
    assert 2.0 * gone * live == 200.0 * a;
    Compares(half, 2.0 * gone, live);
  }

  lemma Compares(a: real, b: real, k: real)
    requires k > 0.0
    ensures a <= b <==> a * k <= b * k
  {
    if a <= b {
      ProductGrows(a, b, k);
    } else {
      PositiveProduct(a - b, k);
    }
  }

  /**
   Whether a push to (x, y) is at least the dead zone and (2k - 1) / 200 of the live travel, both sides
   scaled to whole numbers and squared, since the push is a square root.
   */
  predicate Enough(x: int, y: int, s: Stick, k: int) {
    var p, l := Larger(Size(x), Size(y)), Smaller(Size(x), Size(y));
    AtMost(200 * s.deadzone * p + (2 * k - 1) * Live(p, l, s), 40000 * p * p * (x * x + y * y))
  }

  lemma EnoughIsThreshold(x: int, y: int, w: real, s: Stick, k: int)
    requires Sane(s) && Push(w, x, y) && (x != 0 || y != 0)
    ensures Enough(x, y, s, k)
            <==> 200.0 * (w - s.deadzone as real)
                 >= (2 * k - 1) as real * (Reach(Size(x), Size(y), s) - s.deadzone as real)
  {
    hide AtMost, Reach, Live;
    var p, l, d := Larger(Size(x), Size(y)), Smaller(Size(x), Size(y)), s.deadzone as real;
    LiveIsReach(Size(x), Size(y), s);
    ThresholdSquared(p, w, s.deadzone, Reach(Size(x), Size(y), s) - d, Live(p, l, s), x * x + y * y, 2 * k - 1);
  }

  /**
   In any direction and in whole numbers: the larger component puts out at least k percent exactly when
   the push is enough for that, and its sign is the stick's.
   */
  lemma InAnyDirection(x: int, y: int, w: real, s: Stick, k: int)
    requires Sane(s) && Push(w, x, y) && (x != 0 || y != 0) && 1 <= k <= 100
    ensures var p := Larger(Size(x), Size(y));
            var (px, py) := Shaped(x, y, w, s);
            && (Size(x) == p ==> (Size(px) >= k <==> Enough(x, y, s, k)) && (px == 0 || (px < 0 <==> x < 0)))
            && (Size(y) == p ==> (Size(py) >= k <==> Enough(x, y, s, k)) && (py == 0 || (py < 0 <==> y < 0)))
  {
    hide Gone, Felt, Reach, Shaped, Push, Percent, Enough;
    var p, d := Larger(Size(x), Size(y)), s.deadzone as real;
    var reach := Reach(Size(x), Size(y), s);
    CalibratedExactly(x, y, w, s);
    GoneAtLeast(w, reach, d, k);
    GoneNothing(w, reach, d);
    FeltAtLeast(x, p, Gone(w, reach, d), k);
    FeltAtLeast(y, p, Gone(w, reach, d), k);
    EnoughIsThreshold(x, y, w, s, k);
  }

  lemma FeltAtLeast(v: int, largest: nat, gone: real, k: int)
    requires largest > 0 && (gone + 0.5).Floor >= 0
    ensures var out := Felt(v, largest, gone);
            Size(v) == largest ==> (Size(out) >= k <==> (gone + 0.5).Floor >= k) && (out == 0 || (out < 0 <==> v < 0))
  {
    hide Felt;
    if Size(v) == largest {
      FeltWhole(v, largest, gone);
    }
  }

  lemma GoneNothing(w: real, reach: real, d: real)
    requires reach > d
    ensures w <= d ==> Gone(w, reach, d) == 0.0
    ensures (Gone(w, reach, d) + 0.5).Floor >= 0
  {
    if d < w < reach {
      Whole(100.0 * (w - d), reach - d);
    }
  }

  lemma ThresholdSquared(p: nat, w: real, d: int, over: real, live: int, square: int, half: int)
    requires p > 0 && w >= 0.0 && w * w == square as real && over * p as real == live as real
    ensures AtMost(200 * d * p + half * live, 40000 * p * p * square)
            <==> 200.0 * (w - d as real) >= half as real * over
  {
    hide AtMost;
    HalfOver(half, over, p, live);
    WideLess(w, d, p);
    WideSquare(p, w, square);
    Threshold(200 * d * p, half * live, 200.0 * (w - d as real), half as real * over, p as real,
              200.0 * p as real * w, 40000 * p * p * square);
  }

  lemma Threshold(a: int, b: int, e: real, f: real, p: real, wide: real, square: int)
    requires p > 0.0 && f * p == b as real && e * p == wide - a as real
    requires wide >= 0.0 && wide * wide == square as real
    ensures AtMost(a + b, square) <==> e >= f
  {
    Compares(f, e, p);
    SquaresCompare(a + b, wide, square);
  }

  lemma HalfOver(half: int, over: real, p: nat, live: int)
    requires over * p as real == live as real
    ensures half as real * over * p as real == (half * live) as real
  {
    assert half as real * over * p as real == half as real * (over * p as real);
  }

  lemma WideLess(w: real, d: int, p: nat)
    ensures 200.0 * (w - d as real) * p as real == 200.0 * p as real * w - (200 * d * p) as real
  {
    assert (d * p) as real == d as real * p as real;
  }

  lemma WideSquare(p: nat, w: real, square: int)
    requires w >= 0.0 && w * w == square as real
    ensures 200.0 * p as real * w >= 0.0
    ensures (200.0 * p as real * w) * (200.0 * p as real * w) == (40000 * p * p * square) as real
  {
    assert (200.0 * p as real * w) * (200.0 * p as real * w) == 40000.0 * (p as real * p as real) * (w * w);
    assert p as real * p as real == (p * p) as real;
    assert (p * p) as real * square as real == (p * p * square) as real;
  }

  /** Half way between two axes the diagonal setting takes the place of the range. */
  lemma OnDiagonal(v: int, w: real, s: Stick, k: int)
    requires Sane(s) && s.deadzone < s.diagonal && v != 0 && Push(w, v, v) && 1 <= k <= 100
    ensures var d, g := s.deadzone, s.diagonal;
            var (px, py) := Shaped(v, v, w, s);
            px == py && (Size(px) >= k <==> AtMost(200 * d + (2 * k - 1) * (g - d), 80000 * v * v))
  {
    hide Gone, Felt, Reach, Shaped, Push, AtMost, Percent, Enough;
    CalibratedExactly(v, v, w, s);
    InAnyDirection(v, v, w, s, k);
    EnoughOnDiagonal(v, s, k);
  }

  lemma EnoughOnDiagonal(v: int, s: Stick, k: int)
    requires s.deadzone < s.diagonal && v != 0
    ensures var d, g := s.deadzone, s.diagonal;
            Enough(v, v, s, k) <==> AtMost(200 * d + (2 * k - 1) * (g - d), 80000 * v * v)
  {
    hide AtMost, Live;
    var n, d, g := Size(v), s.deadzone, s.diagonal;
    LiveOnDiagonal(n, s);
    Regroup(d, n, g - d, 2 * k - 1);
    SquareRegroup(v, n);
    ScaledAtMost(200 * d + (2 * k - 1) * (g - d), n, 80000 * v * v);
  }

  lemma Regroup(d: int, n: nat, live: int, half: int)
    ensures 200 * d * n + half * (live * n) == (200 * d + half * live) * n
  {
    assert half * (live * n) == (half * live) * n;
    assert 200 * d * n == (200 * d) * n;
  }

  lemma SquareRegroup(v: int, n: nat)
    requires n == Size(v)
    ensures 40000 * n * n * (v * v + v * v) == 80000 * v * v * n * n
  {
    var q := n * n;
    assert v * v == q;
    assert 40000 * n * n == 40000 * q;
    assert 80000 * v * v * n * n == (80000 * q) * q;
    assert 40000 * q * (q + q) == (80000 * q) * q;
  }

  lemma LiveOnDiagonal(n: nat, s: Stick)
    requires n > 0 && s.deadzone < s.diagonal
    ensures Live(n, n, s) == (s.diagonal - s.deadzone) * n > 0
  {
    assert (s.range - s.deadzone) * n + (s.diagonal - s.range) * n == (s.diagonal - s.deadzone) * n;
  }

  lemma ScaledAtMost(t: int, n: nat, square: int)
    requires n > 0
    ensures AtMost(t * n, square * n * n) <==> AtMost(t, square)
  {
    if t > 0 {
      assert t * n > 0;
      assert (t * n) * (t * n) == (t * t) * (n * n);
      assert square * n * n == square * (n * n);
      assert t * t <= square <==> (t * t) * (n * n) <= square * (n * n);
    } else {
      assert t * n <= 0;
    }
  }

  // ------------------------------------------------------------------ a whole state

  /** Where the triggers and the sticks are in a state, and what a profile makes of them. */
  lemma StateInPercent(p: Profile, st: seq<int>, left: real, right: real)
    requires |st| == 21 && p.left != NEUTRAL_STICK && p.right != NEUTRAL_STICK
    ensures var r := ShapedState(p, st, left / 100.0, right / 100.0);
            && (r[11], r[12]) == Shaped(st[11], st[12], left, p.left)
            && r[9] == Shaped(st[9], st[10], right, p.right).0
            && r[7] == (if p.ltThreshold <= 0 then st[7] else if st[7] > p.ltThreshold then 100 else 0)
            && r[4] == (if p.rtThreshold <= 0 then st[4] else if st[4] > p.rtThreshold then 100 else 0)
            && var ry := Shaped(st[9], st[10], right, p.right).1;
               r[10] == (if !p.invertRy then ry else if ry == -128 then -128 else -ry)
  {
    hide ShapeStick, Percent;
  }
}
