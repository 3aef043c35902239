/** The scene's pure decisions: which layer is shown, the grading verdict when execution
    ends, how a key press is handled, and the split of walls into above and right walls. */
module Scene {
  import opened Wrappers
  import opened Walls
  import opened Situations
  import opened Worlds

  datatype ShowMode = Running | Goal

  function Toggled(mode: ShowMode): (r: ShowMode)
    ensures r != mode
  {
    match mode
    case Running => Goal
    case Goal => Running
  }

  lemma ToggledTwice(mode: ShowMode)
    ensures Toggled(Toggled(mode)) == mode
  {
  }

  /** What the scene knows: the mode it shows, whether it runs under the mission manager
      (an environment flag), the key the mission manager expects, and its world once set up. */
  datatype MainScene = MainScene(
    showMode: ShowMode,
    missionManagerMode: bool,
    missionManagerKey: Option<string>,
    world: Option<World>)

  /** A run meets its goal when it was not terminated and ends in the goal situation. */
  function GoalMet(wasTerminated: bool, goal: Situation, current: Situation): (met: bool)
    ensures met ==> !wasTerminated
    ensures !wasTerminated ==> (met <==> Equivalent(goal, current))
  {
    !wasTerminated && Equivalent(goal, current)
  }

  /** The handler called once execution ends, given the situation the run left behind.
      Under the mission manager it yields the verdict; otherwise there is nothing to decide. */
  function ExecutionCompleted(scene: MainScene, wasTerminated: bool, current: Situation): (r: Result<Option<bool>>)
    ensures scene.world.None? ==> r.Fatal?
    ensures scene.world.Some? && !scene.missionManagerMode ==> r == Ok(None)
    ensures scene.world.Some? && scene.missionManagerMode ==>
      (r.Fatal? <==> scene.missionManagerKey.None?)
      && (r.Ok? ==> r.value == Some(GoalMet(wasTerminated, scene.world.value.goalSituation, current)))
  {
    if scene.world.None? then Fatal("world is required in executionCompeltedHandler")
    else if scene.missionManagerMode then
      var goalMet := GoalMet(wasTerminated, scene.world.value.goalSituation, current);
      if scene.missionManagerKey.None? then Fatal("key required in merlinMissionManagerMode")
      else Ok(Some(goalMet))
    else Ok(None)
  }

  /** A terminated run never passes. */
  lemma TerminatedRunFails(scene: MainScene, current: Situation)
    ensures ExecutionCompleted(scene, true, current) != Ok(Some(true))
  {
  }

  /** What a key press asks of Karel's animation speed. */
  datatype SpeedChange = Unchanged | Faster | Slower

  /** Handles a key press: ignored under the mission manager; otherwise Space toggles the
      shown layer and KeyF / KeyS speed the animation up or slow it down. */
  function OnKeyDown(scene: MainScene, code: string): (r: Result<(MainScene, SpeedChange)>)
    ensures r.Fatal? <==> scene.world.None?
    ensures r.Ok? && scene.missionManagerMode ==> r.value == (scene, Unchanged)
    ensures r.Ok? && !scene.missionManagerMode ==>
      && (code == "Space" ==> r.value == (scene.(showMode := Toggled(scene.showMode)), Unchanged))
      && (code == "KeyF" ==> r.value == (scene, Faster))
      && (code == "KeyS" ==> r.value == (scene, Slower))
      && (code != "Space" && code != "KeyF" && code != "KeyS" ==> r.value == (scene, Unchanged))
  {
    if scene.world.None? then Fatal("world is required in onKeyDown")
    else if scene.missionManagerMode then Ok((scene, Unchanged))
    else if code == "Space" then Ok((scene.(showMode := Toggled(scene.showMode)), Unchanged))
    else if code == "KeyF" then Ok((scene, Faster))
    else if code == "KeyS" then Ok((scene, Slower))
    else Ok((scene, Unchanged))
  }

  /** Pressing Space twice shows the same layer as before. */
  lemma SpaceTwice(scene: MainScene)
    requires scene.world.Some?
    ensures OnKeyDown(OnKeyDown(scene, "Space").value.0, "Space") == Ok((scene, Unchanged))
  {
  }

  function AboveWalls(walls: set<WallLocation>): set<WallLocation> {
    set w | w in walls && w.side == Above
  }

  function RightWalls(walls: set<WallLocation>): set<WallLocation> {
    set w | w in walls && w.side == Right
  }

  /** Setting up the above walls and then the right walls sets up every wall exactly once. */
  lemma WallFiltersPartition(walls: set<WallLocation>)
    ensures AboveWalls(walls) + RightWalls(walls) == walls
    ensures AboveWalls(walls) * RightWalls(walls) == {}
  {
    forall w | w in walls
      ensures w in AboveWalls(walls) + RightWalls(walls)
    {
      if w.side == Above {
        assert w in AboveWalls(walls);
      } else {
        assert w in RightWalls(walls);
      }
    }
  }
}
