/** The instruction API a learner's program calls. Each motion arms one animation on Karel
    and then waits for exactly one finish notification; sequentially that is one arm step
    followed by one completed frame. */
module Executor {
  import opened Wrappers
  import opened Grid
  import opened Compass
  import opened Robot

  datatype KarelExecutor = KarelExecutor(karel: Option<Karel>)

  /** Between instructions Karel, when set, is at rest and will notify the executor. */
  predicate Ready(e: KarelExecutor) {
    e.karel.Some? ==> AtRest(e.karel.value) && e.karel.value.hasDidFinishNotification
  }

  /** Attaches Karel and installs the executor's finish notification. */
  function SetKarel(e: KarelExecutor, k: Karel): (r: KarelExecutor)
    requires AtRest(k)
    ensures Ready(r) && r.karel.Some?
    ensures r.karel.value.currentGridLocation == k.currentGridLocation
    ensures r.karel.value.currentDirection == k.currentDirection
  {
    KarelExecutor(Some(SetDidFinishNotification(k)))
  }

  /** The frame that completes the one animation just armed. */
  function Complete(armed: Karel, translation: bool): Karel {
    Calculate(armed, translation, !translation).karel
  }

  /** `move()`: one step forward, whatever lies ahead. Karel being at rest, arming cannot
      meet a pending translation. */
  function Move(e: KarelExecutor): (r: Result<KarelExecutor>)
    requires Ready(e)
    ensures r.Fatal? <==> e.karel.None?
    ensures r.Ok? ==> Ready(r.value) && r.value.karel.Some?
    ensures r.Ok? ==> r.value.karel.value.currentGridLocation == Forward(e.karel.value.currentGridLocation, e.karel.value.currentDirection)
    ensures r.Ok? ==> r.value.karel.value.currentDirection == e.karel.value.currentDirection
  {
    if e.karel.None? then Fatal("karel is required for move()")
    else
      var armed := AnimateForward(e.karel.value).value;
      Ok(KarelExecutor(Some(Complete(armed, true))))
  }

  /** `turnLeft()`: a quarter turn counter-clockwise. */
  function TurnLeft(e: KarelExecutor): (r: Result<KarelExecutor>)
    requires Ready(e)
    ensures r.Fatal? <==> e.karel.None?
    ensures r.Ok? ==> Ready(r.value) && r.value.karel.Some?
    ensures r.Ok? ==> r.value.karel.value.currentDirection == Left(e.karel.value.currentDirection)
    ensures r.Ok? ==> r.value.karel.value.currentGridLocation == e.karel.value.currentGridLocation
  {
    if e.karel.None? then Fatal("karel is required for turnLeft()")
    else
      var armed := AnimateTurnLeft(e.karel.value).value;
      Ok(KarelExecutor(Some(Complete(armed, false))))
  }

  /** The default `run()`: only reports that there is nothing to do. */
  function Run(e: KarelExecutor): KarelExecutor {
    e
  }

  /** Not yet implemented: changes nothing. */
  function PutDownBeeper(e: KarelExecutor): KarelExecutor {
    e
  }

  /** Not yet implemented: changes nothing. */
  function PickUpBeeper(e: KarelExecutor): KarelExecutor {
    e
  }

  /** Not yet implemented: always false. */
  function IsFrontClear(e: KarelExecutor): bool {
    false
  }

  function IsLeftClear(e: KarelExecutor): bool {
    false
  }

  function IsRightClear(e: KarelExecutor): bool {
    false
  }

  function IsBeeperHere(e: KarelExecutor): bool {
    false
  }

  /** `isFacingNorth()` and its three siblings. */
  function IsFacingDirection(e: KarelExecutor, d: CompassDirection, name: string): (r: Result<bool>)
    ensures r.Fatal? <==> e.karel.None?
    ensures r.Ok? ==> (r.value <==> IsFacing(e.karel.value, d))
  {
    if e.karel.None? then Fatal("karel is required for " + name) else Ok(IsFacing(e.karel.value, d))
  }

  function IsFacingNorth(e: KarelExecutor): Result<bool> {
    IsFacingDirection(e, North, "isFacingNorth()")
  }

  function IsFacingEast(e: KarelExecutor): Result<bool> {
    IsFacingDirection(e, East, "isFacingEast()")
  }

  function IsFacingSouth(e: KarelExecutor): Result<bool> {
    IsFacingDirection(e, South, "isFacingSouth()")
  }

  function IsFacingWest(e: KarelExecutor): Result<bool> {
    IsFacingDirection(e, West, "isFacingWest()")
  }

  /** The stub instructions and the default program leave the executor as it was, and the
      stub queries answer false whatever the world holds. */
  lemma StubInstructions(e: KarelExecutor)
    ensures Run(e) == e && PutDownBeeper(e) == e && PickUpBeeper(e) == e
    ensures !IsFrontClear(e) && !IsLeftClear(e) && !IsRightClear(e) && !IsBeeperHere(e)
  {
  }

  /** With Karel set, exactly one of the four facing queries answers true, the one naming
      Karel's committed heading; without Karel each of them is fatal. */
  lemma ExactlyOneFacing(e: KarelExecutor)
    ensures e.karel.None? ==> IsFacingNorth(e).Fatal? && IsFacingEast(e).Fatal? && IsFacingSouth(e).Fatal? && IsFacingWest(e).Fatal?
    ensures e.karel.Some? ==>
      var answers := [IsFacingNorth(e), IsFacingEast(e), IsFacingSouth(e), IsFacingWest(e)];
      && (forall i :: 0 <= i < 4 ==> answers[i].Ok?)
      && (forall i, j :: 0 <= i < j < 4 && answers[i].value && answers[j].value ==> false)
      && (exists i :: 0 <= i < 4 && answers[i].value)
      && (IsFacingNorth(e).value <==> e.karel.value.currentDirection == North)
  {
    if e.karel.Some? {
      var answers := [IsFacingNorth(e), IsFacingEast(e), IsFacingSouth(e), IsFacingWest(e)];
      var i := match e.karel.value.currentDirection
        case North => 0 case East => 1 case South => 2 case West => 3;
      assert answers[i].value;
    }
  }

  /** The state-changing instructions a straight-line program issues. */
  datatype Instruction = MoveInstruction | TurnLeftInstruction | PutDownBeeperInstruction | PickUpBeeperInstruction

  function Step(e: KarelExecutor, i: Instruction): (r: Result<KarelExecutor>)
    requires Ready(e)
    ensures r.Ok? ==> Ready(r.value)
  {
    match i
    case MoveInstruction => Move(e)
    case TurnLeftInstruction => TurnLeft(e)
    case PutDownBeeperInstruction => Ok(PutDownBeeper(e))
    case PickUpBeeperInstruction => Ok(PickUpBeeper(e))
  }

  /** Runs a program instruction by instruction, stopping at the first fatal one. */
  function Execute(e: KarelExecutor, program: seq<Instruction>): (r: Result<KarelExecutor>)
    requires Ready(e)
    ensures r.Ok? ==> Ready(r.value)
    decreases |program|
  {
    if program == [] then Ok(e)
    else
      var next :- Step(e, program[0]);
      Execute(next, program[1..])
  }

  /** Where a program takes Karel, computed on corners and headings alone. */
  function Walk(l: GridLocation, d: CompassDirection, program: seq<Instruction>): (GridLocation, CompassDirection)
    decreases |program|
  {
    if program == [] then (l, d)
    else
      match program[0]
      case MoveInstruction => Walk(Forward(l, d), d, program[1..])
      case TurnLeftInstruction => Walk(l, Left(d), program[1..])
      case _ => Walk(l, d, program[1..])
  }

  /** With Karel set, every program runs to its end without a fatal error -- in particular no
      animation is ever armed while another is pending -- and leaves Karel at rest where the
      walk on corners and headings says. */
  lemma {:induction false} ExecuteFollowsWalk(e: KarelExecutor, program: seq<Instruction>)
    requires Ready(e) && e.karel.Some?
    ensures Execute(e, program).Ok?
    ensures var k := Execute(e, program).value.karel;
      && k.Some? && AtRest(k.value)
      && (k.value.currentGridLocation, k.value.currentDirection)
         == Walk(e.karel.value.currentGridLocation, e.karel.value.currentDirection, program)
    decreases |program|
  {
    if program != [] {
      var next := Step(e, program[0]);
      assert next.Ok? && next.value.karel.Some?;
      ExecuteFollowsWalk(next.value, program[1..]);
    }
  }
}
