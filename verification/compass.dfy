/** The four headings of Karel, their bearings in degrees, the turn permutations and the
    corner one step ahead. */
module Compass {
  import opened Grid

  datatype CompassDirection = North | East | South | West

  /** Bearing in degrees, clockwise from north. */
  function Bearing(d: CompassDirection): (degrees: int)
    ensures 0 <= degrees < 360 && degrees % 90 == 0
  {
    match d
    case North => 0
    case East => 90
    case South => 180
    case West => 270
  }

  lemma BearingInjective(a: CompassDirection, b: CompassDirection)
    ensures Bearing(a) == Bearing(b) <==> a == b
  {
  }

  /** The heading after a quarter turn counter-clockwise. */
  function Left(d: CompassDirection): CompassDirection {
    match d
    case North => West
    case East => North
    case South => East
    case West => South
  }

  /** The heading after a quarter turn clockwise. */
  function Right(d: CompassDirection): CompassDirection {
    match d
    case North => East
    case East => South
    case South => West
    case West => North
  }

  function Opposite(d: CompassDirection): CompassDirection {
    Left(Left(d))
  }

  /** Left is the rotation by -90 degrees and Right by +90 degrees, modulo a full turn;
      they are inverse permutations and four lefts are the identity. */
  lemma TurnPermutations(d: CompassDirection)
    ensures Bearing(Left(d)) == (Bearing(d) + 270) % 360
    ensures Bearing(Right(d)) == (Bearing(d) + 90) % 360
    ensures Right(Left(d)) == d && Left(Right(d)) == d
    ensures Left(Left(Left(Left(d)))) == d
    ensures Left(d) != d && Opposite(d) != d
  {
  }

  /** The lower-case case name, as Swift prints an enum value. */
  function Name(d: CompassDirection): (r: string)
    ensures |r| > 0 && forall i :: 0 <= i < |r| ==> 'a' <= r[i] <= 'z'
  {
    match d
    case North => "north"
    case East => "east"
    case South => "south"
    case West => "west"
  }

  /** Distinct headings print differently. */
  lemma NameInjective(a: CompassDirection, b: CompassDirection)
    ensures Name(a) == Name(b) <==> a == b
  {
  }

  /** The neighbouring corner one step in direction d; no bounds or wall check. */
  function Forward(l: GridLocation, d: CompassDirection): (r: GridLocation)
    ensures d == North || d == South ==> r.avenue == l.avenue
    ensures d == East || d == West ==> r.street == l.street
    ensures (r.avenue - l.avenue) + (r.street - l.street) == (if d == North || d == East then 1 else -1)
  {
    match d
    case North => GridLocation(l.avenue, l.street + 1)
    case East => GridLocation(l.avenue + 1, l.street)
    case South => GridLocation(l.avenue, l.street - 1)
    case West => GridLocation(l.avenue - 1, l.street)
  }

  /** Stepping forward and then in the opposite direction returns to the start. */
  lemma ForwardThenBack(l: GridLocation, d: CompassDirection)
    ensures Forward(Forward(l, d), Opposite(d)) == l
    ensures Forward(l, d) != l
  {
  }
}
