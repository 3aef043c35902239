/** Walls between corners. A wall is only ever stored above (north of) or to the right
    (east of) a corner; a wall south or west of a corner is the same physical wall as the
    one above or right of the neighbouring corner. */
module Walls {
  import opened Grid
  import opened Compass

  datatype Side = Above | Right

  datatype WallLocation = WallLocation(gridLocation: GridLocation, side: Side)

  /** A set of stored walls. */
  datatype WallLocations = WallLocations(walls: set<WallLocation>) {
    function AddWall(at: WallLocation): WallLocations {
      WallLocations(walls + {at})
    }
  }

  /** The direction, seen from its corner, in which a stored wall lies. */
  function SideDirection(side: Side): CompassDirection {
    match side
    case Above => North
    case Right => East
  }

  /** The physical wall a stored wall denotes: the pair of corners it separates. */
  function Edge(w: WallLocation): set<GridLocation> {
    {w.gridLocation, Forward(w.gridLocation, SideDirection(w.side))}
  }

  /** The stored form of the wall on side d of corner l. */
  function Canonical(l: GridLocation, d: CompassDirection): (w: WallLocation)
    ensures Edge(w) == {l, Forward(l, d)}
  {
    match d
    case North => WallLocation(l, Above)
    case East => WallLocation(l, Right)
    case South => WallLocation(GridLocation(l.avenue, l.street - 1), Above)
    case West => WallLocation(GridLocation(l.avenue - 1, l.street), Right)
  }

  /** South and west walls are stored on the neighbouring corner. */
  lemma CanonicalSouthWest(l: GridLocation)
    ensures Canonical(l, South) == WallLocation(GridLocation(l.avenue, l.street - 1), Above)
    ensures Canonical(l, West) == WallLocation(GridLocation(l.avenue - 1, l.street), Right)
  {
  }

  /** Distinct stored walls denote distinct physical walls. */
  lemma {:induction false} EdgeInjective(w1: WallLocation, w2: WallLocation)
    ensures Edge(w1) == Edge(w2) <==> w1 == w2
  {
    if Edge(w1) == Edge(w2) {
      var p1, q1 := w1.gridLocation, Forward(w1.gridLocation, SideDirection(w1.side));
      var p2, q2 := w2.gridLocation, Forward(w2.gridLocation, SideDirection(w2.side));
      assert p1 in Edge(w2) && q1 in Edge(w2);
      assert p2 in Edge(w1);
    }
  }

  /** The stored form of a wall is the only stored wall that denotes it. */
  lemma CanonicalIsUnique(l: GridLocation, d: CompassDirection, w: WallLocation)
    ensures Edge(w) == {l, Forward(l, d)} <==> w == Canonical(l, d)
  {
    EdgeInjective(w, Canonical(l, d));
  }

  /** The wall on side d of l and the wall on the opposite side of the neighbour are stored
      alike: a wall south of (a, s) is the wall above (a, s - 1). */
  lemma CanonicalBothSides(l: GridLocation, d: CompassDirection)
    ensures Canonical(Forward(l, d), Opposite(d)) == Canonical(l, d)
  {
    ForwardThenBack(l, d);
    assert Edge(Canonical(Forward(l, d), Opposite(d))) == Edge(Canonical(l, d));
    EdgeInjective(Canonical(Forward(l, d), Opposite(d)), Canonical(l, d));
  }

  /** Canonicalising a stored wall gives it back. */
  lemma CanonicalIdempotent(w: WallLocation)
    ensures Canonical(w.gridLocation, SideDirection(w.side)) == w
  {
  }
}
