/** The world: its extent, the pixel spacing of its grid, its two situations, and the
    mapping from corners to canvas pixels. */
module Worlds {
  import opened Grid
  import opened Situations
  import opened WorldPlan

  /** The margin, in pixels, between the grid and each edge of the canvas. */
  const Margin: int := 50

  datatype Point = Point(x: int, y: int)

  datatype World = World(
    avenueCount: int,
    streetCount: int,
    pixelsBetweenStreets: int,
    pixelsBetweenAvenues: int,
    initialSituation: Situation,
    goalSituation: Situation)

  lemma DivisionBounds(a: int, b: int)
    requires a >= 0 && b > 0
    ensures a / b >= 0
    ensures (a / b) * b <= a < (a / b + 1) * b
  {
    assert a == (a / b) * b + a % b;
    assert (a / b + 1) * b == (a / b) * b + b;
  }

  function Abs(x: int): nat {
    if x < 0 then -x else x
  }

  /** Swift's `Int` division, which rounds toward zero: the magnitude is the floor of the
      magnitudes' quotient and the sign is the product of the signs. */
  function Quotient(a: int, b: int): (q: int)
    requires b != 0
    ensures Abs(q) * Abs(b) <= Abs(a) < (Abs(q) + 1) * Abs(b)
    ensures (a < 0) == (b < 0) ==> q >= 0
    ensures (a < 0) != (b < 0) ==> q <= 0
  {
    DivisionBounds(Abs(a), Abs(b));
    var magnitude := Abs(a) / Abs(b);
    if (a < 0) == (b < 0) then magnitude else -magnitude
  }

  /** The convenience initializer: spreads the grid over the canvas minus its margins.
      A plan one avenue or one street wide divides by zero. */
  function FromCanvas(width: int, height: int, plan: Plan): (w: World)
    requires plan.avenueCount != 1 && plan.streetCount != 1
    ensures w.avenueCount == plan.avenueCount && w.streetCount == plan.streetCount
    ensures w.initialSituation == plan.initialSituation && w.goalSituation == plan.goalSituation
    ensures height >= 2 * Margin && plan.streetCount >= 2 ==>
      w.pixelsBetweenStreets >= 0
      && w.pixelsBetweenStreets * (plan.streetCount - 1) <= height - 2 * Margin
      < (w.pixelsBetweenStreets + 1) * (plan.streetCount - 1)
    ensures width >= 2 * Margin && plan.avenueCount >= 2 ==>
      w.pixelsBetweenAvenues >= 0
      && w.pixelsBetweenAvenues * (plan.avenueCount - 1) <= width - 2 * Margin
      < (w.pixelsBetweenAvenues + 1) * (plan.avenueCount - 1)
  {
    var pixelsBetweenStreets := Quotient(height - (Margin + Margin), plan.streetCount - 1);
    var pixelsBetweenAvenues := Quotient(width - (Margin + Margin), plan.avenueCount - 1);
    World(plan.avenueCount, plan.streetCount, pixelsBetweenStreets, pixelsBetweenAvenues,
          plan.initialSituation, plan.goalSituation)
  }

  /** The pixel of a corner; streets grow upward on the canvas, whose y grows downward. */
  function PointOnGrid(w: World, l: GridLocation): Point {
    Point(Margin + w.pixelsBetweenAvenues * l.avenue,
          Margin + w.pixelsBetweenStreets * (w.streetCount - l.street - 1))
  }

  lemma MultiplyStrictlyMonotone(k: int, a: int, b: int)
    requires k > 0
    ensures a < b <==> k * a < k * b
  {
    if a < b {
      assert k * b - k * a == k * (b - a);
    } else {
      assert k * a - k * b == k * (a - b);
    }
  }

  /** With positive spacings, x grows with the avenue and y shrinks as the street grows, so
      distinct corners land on distinct pixels; the top street and avenue 0 lie on the
      margins. */
  lemma PointOnGridOrder(w: World, a: GridLocation, b: GridLocation)
    requires w.pixelsBetweenAvenues > 0 && w.pixelsBetweenStreets > 0
    ensures a.avenue < b.avenue <==> PointOnGrid(w, a).x < PointOnGrid(w, b).x
    ensures a.street < b.street <==> PointOnGrid(w, a).y > PointOnGrid(w, b).y
    ensures PointOnGrid(w, a) == PointOnGrid(w, b) <==> a == b
    ensures a.street == w.streetCount - 1 ==> PointOnGrid(w, a).y == Margin
    ensures a.avenue == 0 ==> PointOnGrid(w, a).x == Margin
  {
    MultiplyStrictlyMonotone(w.pixelsBetweenAvenues, a.avenue, b.avenue);
    MultiplyStrictlyMonotone(w.pixelsBetweenAvenues, b.avenue, a.avenue);
    MultiplyStrictlyMonotone(w.pixelsBetweenStreets, w.streetCount - b.street - 1, w.streetCount - a.street - 1);
    MultiplyStrictlyMonotone(w.pixelsBetweenStreets, w.streetCount - a.street - 1, w.streetCount - b.street - 1);
  }

  lemma ScaledWithin(k: int, i: int, n: int, limit: int)
    requires k >= 0 && 0 <= i <= n && k * n <= limit
    ensures 0 <= k * i <= limit
  {
    assert k * n - k * i == k * (n - i);
  }

  /** A world whose spacings fit (count - 1) gaps inside the margins puts every corner
      0..count-1 within the margins of the canvas. */
  lemma CornerOnCanvas(w: World, width: int, height: int, l: GridLocation)
    requires w.avenueCount >= 2 && w.streetCount >= 2
    requires 0 <= w.pixelsBetweenAvenues && w.pixelsBetweenAvenues * (w.avenueCount - 1) <= width - 2 * Margin
    requires 0 <= w.pixelsBetweenStreets && w.pixelsBetweenStreets * (w.streetCount - 1) <= height - 2 * Margin
    requires 0 <= l.avenue < w.avenueCount && 0 <= l.street < w.streetCount
    ensures Margin <= PointOnGrid(w, l).x <= width - Margin
    ensures Margin <= PointOnGrid(w, l).y <= height - Margin
  {
    ScaledWithin(w.pixelsBetweenAvenues, l.avenue, w.avenueCount - 1, width - 2 * Margin);
    ScaledWithin(w.pixelsBetweenStreets, w.streetCount - l.street - 1, w.streetCount - 1, height - 2 * Margin);
  }

  /** Every corner of a world built from a canvas at least 100 pixels each way lands inside
      the canvas, within the margins. */
  lemma GridFitsCanvas(width: int, height: int, plan: Plan, l: GridLocation)
    requires plan.avenueCount >= 2 && plan.streetCount >= 2
    requires width >= 2 * Margin && height >= 2 * Margin
    requires 0 <= l.avenue < plan.avenueCount && 0 <= l.street < plan.streetCount
    ensures Margin <= PointOnGrid(FromCanvas(width, height, plan), l).x <= width - Margin
    ensures Margin <= PointOnGrid(FromCanvas(width, height, plan), l).y <= height - Margin
  {
    CornerOnCanvas(FromCanvas(width, height, plan), width, height, l);
  }
}
