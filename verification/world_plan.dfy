/** The world plan: dimensions, walls built from straight segments, and the initial and
    goal situations. */
module WorldPlan {
  import opened Wrappers
  import opened Grid
  import opened Compass
  import opened Walls
  import opened Situations

  /** x lies between a and b inclusive, in either order. */
  predicate Within(x: int, a: int, b: int) {
    (a <= x <= b) || (b <= x <= a)
  }

  /** The walls above the corners of a street, for avenues lo through hi. */
  function AboveRow(street: int, lo: int, hi: int): (run: set<WallLocation>)
    ensures forall w :: w in run <==> w.side == Above && w.gridLocation.street == street && lo <= w.gridLocation.avenue <= hi
  {
    set avenue | lo <= avenue <= hi :: WallLocation(GridLocation(avenue, street), Above)
  }

  /** The walls right of the corners of an avenue, for streets lo through hi. */
  function RightColumn(avenue: int, lo: int, hi: int): (run: set<WallLocation>)
    ensures forall w :: w in run <==> w.side == Right && w.gridLocation.avenue == avenue && lo <= w.gridLocation.street <= hi
  {
    set street | lo <= street <= hi :: WallLocation(GridLocation(avenue, street), Right)
  }

  /** The walls a horizontal segment from `from` through `through` stands for. */
  function HorizontalRun(from: GridLocation, through: GridLocation): (run: set<WallLocation>)
    ensures forall w :: w in run <==> w.side == Above && w.gridLocation.street == from.street && Within(w.gridLocation.avenue, from.avenue, through.avenue)
  {
    if from.avenue <= through.avenue then AboveRow(from.street, from.avenue, through.avenue)
    else AboveRow(from.street, through.avenue, from.avenue)
  }

  /** The walls a vertical segment from `from` through `through` stands for. */
  function VerticalRun(from: GridLocation, through: GridLocation): (run: set<WallLocation>)
    ensures forall w :: w in run <==> w.side == Right && w.gridLocation.avenue == from.avenue && Within(w.gridLocation.street, from.street, through.street)
  {
    if from.street <= through.street then RightColumn(from.avenue, from.street, through.street)
    else RightColumn(from.avenue, through.street, from.street)
  }

  function Signum(x: int): (r: int)
    ensures r == -1 || r == 0 || r == 1
    ensures (r < 0 <==> x < 0) && (r == 0 <==> x == 0)
  {
    if x < 0 then -1 else if x == 0 then 0 else 1
  }

  /** Adds an above wall at every avenue from `from` through `through` on their common
      street, walking with a stride of +1 or -1. */
  method AddHorizontalWallSegment(wallLocations: WallLocations, from: GridLocation, through: GridLocation)
    returns (r: Result<WallLocations>)
    ensures r.Fatal? <==> from.street != through.street
    ensures r.Ok? ==> r.value.walls == wallLocations.walls + HorizontalRun(from, through)
  {
    if from.street != through.street {
      return Fatal("Streets must be the same for horizontal segments");
    }
    var increment := Signum(through.avenue - from.avenue);
    var result := wallLocations;
    if increment == 0 {
      result := result.AddWall(WallLocation(from, Above));
      assert HorizontalRun(from, through) == {WallLocation(from, Above)};
    } else {
      var avenue := from.avenue;
      while (increment > 0 && avenue <= through.avenue) || (increment < 0 && avenue >= through.avenue)
        invariant increment > 0 ==> from.avenue <= avenue <= through.avenue + 1
        invariant increment < 0 ==> through.avenue - 1 <= avenue <= from.avenue
        invariant increment > 0 ==> result.walls == wallLocations.walls + AboveRow(from.street, from.avenue, avenue - 1)
        invariant increment < 0 ==> result.walls == wallLocations.walls + AboveRow(from.street, avenue + 1, from.avenue)
        decreases (through.avenue - avenue) * increment
      {
        result := result.AddWall(WallLocation(GridLocation(avenue, from.street), Above));
        avenue := avenue + increment;
      }
    }
    return Ok(result);
  }

  /** Adds a right wall at every street from `from` through `through` on their common
      avenue, walking with a stride of +1 or -1. */
  method AddVerticalWallSegment(wallLocations: WallLocations, from: GridLocation, through: GridLocation)
    returns (r: Result<WallLocations>)
    ensures r.Fatal? <==> from.avenue != through.avenue
    ensures r.Ok? ==> r.value.walls == wallLocations.walls + VerticalRun(from, through)
  {
    if from.avenue != through.avenue {
      return Fatal("Avenues must be the same for vertical segments");
    }
    var increment := Signum(through.street - from.street);
    var result := wallLocations;
    if increment == 0 {
      result := result.AddWall(WallLocation(from, Right));
      assert VerticalRun(from, through) == {WallLocation(from, Right)};
    } else {
      var street := from.street;
      while (increment > 0 && street <= through.street) || (increment < 0 && street >= through.street)
        invariant increment > 0 ==> from.street <= street <= through.street + 1
        invariant increment < 0 ==> through.street - 1 <= street <= from.street
        invariant increment > 0 ==> result.walls == wallLocations.walls + RightColumn(from.avenue, from.street, street - 1)
        invariant increment < 0 ==> result.walls == wallLocations.walls + RightColumn(from.avenue, street + 1, from.street)
        decreases (through.street - street) * increment
      {
        result := result.AddWall(WallLocation(GridLocation(from.avenue, street), Right));
        street := street + increment;
      }
    }
    return Ok(result);
  }

  /** A segment on one street is horizontal (a single corner included), otherwise one on one
      avenue is vertical; a diagonal segment is fatal. */
  method AddWallSegment(wallLocations: WallLocations, from: GridLocation, through: GridLocation)
    returns (r: Result<WallLocations>)
    ensures from.street == through.street ==> r == Ok(WallLocations(wallLocations.walls + HorizontalRun(from, through)))
    ensures from.street != through.street && from.avenue == through.avenue ==> r == Ok(WallLocations(wallLocations.walls + VerticalRun(from, through)))
    ensures r.Fatal? <==> from.street != through.street && from.avenue != through.avenue
  {
    if from.street == through.street {
      r := AddHorizontalWallSegment(wallLocations, from, through);
    } else if from.avenue == through.avenue {
      r := AddVerticalWallSegment(wallLocations, from, through);
    } else {
      r := Fatal("Unable to create a wall segment across diagonals");
    }
  }

  /** A segment does not depend on the order of its end points; a one-corner segment is one
      wall at that corner. */
  lemma RunsAreSymmetric(from: GridLocation, through: GridLocation)
    ensures from.street == through.street ==> HorizontalRun(from, through) == HorizontalRun(through, from)
    ensures from.avenue == through.avenue ==> VerticalRun(from, through) == VerticalRun(through, from)
    ensures HorizontalRun(from, from) == {WallLocation(from, Above)}
    ensures VerticalRun(from, from) == {WallLocation(from, Right)}
  {
    assert HorizontalRun(from, from) == {WallLocation(from, Above)};
    assert VerticalRun(from, from) == {WallLocation(from, Right)};
  }

  /** What a world plan supplies: its extent, its walls and its two situations. */
  datatype Plan = Plan(
    avenueCount: int,
    streetCount: int,
    wallLocations: WallLocations,
    initialSituation: Situation,
    goalSituation: Situation)

  /** The plan every world starts from unless overridden. */
  function DefaultPlan(): Plan {
    var initial := Situation(GridLocation(1, 3), North, 0, map[GridLocation(3, 2) := 1]);
    Plan(10, 10, WallLocations({}), initial, initial)
  }

  /** The default plan is a wall-free 10 x 10 world with Karel at (1, 3) facing north with an
      empty bag, one beeper at (3, 2), and a goal equal to the initial situation. */
  lemma DefaultPlanValues()
    ensures DefaultPlan().avenueCount == 10 && DefaultPlan().streetCount == 10
    ensures DefaultPlan().wallLocations.walls == {}
    ensures DefaultPlan().initialSituation.karelGridLocation == GridLocation(1, 3)
    ensures DefaultPlan().initialSituation.karelCompassDirection == North
    ensures DefaultPlan().initialSituation.karelBeeperCount == 0
    ensures DefaultPlan().initialSituation.gridLocationBeeperCounts == map[GridLocation(3, 2) := 1]
    ensures ListedLocations(DefaultPlan().initialSituation.gridLocationBeeperCounts) == [GridLocation(3, 2)]
    ensures Equivalent(DefaultPlan().goalSituation, DefaultPlan().initialSituation)
  {
    var counts := DefaultPlan().initialSituation.gridLocationBeeperCounts;
    var keys := ListedLocations(counts);
    assert GridLocation(3, 2) in keys;
    assert |NonZeroKeys(counts)| == 1 by {
      assert NonZeroKeys(counts) == {GridLocation(3, 2)};
    }
  }
}
