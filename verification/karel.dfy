/** Karel's state machine: a current and a next location and heading, and two independent
    pending-animation slots, one for translation and one for rotation. Arming a slot sets
    only the next values; completing it commits next into current and notifies. */
module Robot {
  import opened Wrappers
  import opened Grid
  import opened Compass

  /** A pending translation between two corners. */
  datatype TranslationTween = TranslationTween(from: GridLocation, to: GridLocation)

  /** A pending rotation between two angles, in degrees clockwise from north. */
  datatype RotationTween = RotationTween(fromDegrees: int, toDegrees: int)

  datatype Karel = Karel(
    currentGridLocation: GridLocation,
    nextGridLocation: GridLocation,
    currentRotation: int,
    nextRotation: int,
    currentDirection: CompassDirection,
    nextDirection: CompassDirection,
    tweenTranslate: Option<TranslationTween>,
    tweenRotate: Option<RotationTween>,
    hasDidFinishNotification: bool)

  /** A freshly constructed Karel: at (1, 1), facing north, idle, nobody to notify. */
  const Initial: Karel := Karel(One, One, 0, 0, North, North, None, None, false)

  /** No animation is pending and the committed values agree with the targets. */
  predicate AtRest(k: Karel) {
    && k.tweenTranslate.None? && k.tweenRotate.None?
    && k.currentGridLocation == k.nextGridLocation
    && k.currentDirection == k.nextDirection
    && k.currentRotation == k.nextRotation == Bearing(k.currentDirection)
  }

  function SetDidFinishNotification(k: Karel): (r: Karel)
    ensures r.hasDidFinishNotification
    ensures r.(hasDidFinishNotification := k.hasDidFinishNotification) == k
    ensures AtRest(k) ==> AtRest(r)
  {
    k.(hasDidFinishNotification := true)
  }

  /** Places Karel at a heading at once, without animation. */
  function Rotate(k: Karel, target: CompassDirection): (r: Karel)
    ensures r.currentDirection == target && r.nextDirection == target
    ensures r.currentRotation == Bearing(target) && r.nextRotation == Bearing(target)
    ensures r.currentGridLocation == k.currentGridLocation && r.nextGridLocation == k.nextGridLocation
    ensures r.tweenTranslate == k.tweenTranslate && r.tweenRotate == k.tweenRotate
    ensures r.hasDidFinishNotification == k.hasDidFinishNotification
    ensures AtRest(k) ==> AtRest(r)
  {
    k.(currentRotation := Bearing(target), currentDirection := target,
       nextRotation := Bearing(target), nextDirection := target)
  }

  /** Places Karel on a corner at once, without animation. */
  function MoveTo(k: Karel, target: GridLocation): (r: Karel)
    ensures r.currentGridLocation == target && r.nextGridLocation == target
    ensures r.currentDirection == k.currentDirection && r.nextDirection == k.nextDirection
    ensures r.currentRotation == k.currentRotation && r.nextRotation == k.nextRotation
    ensures r.tweenTranslate == k.tweenTranslate && r.tweenRotate == k.tweenRotate
    ensures r.hasDidFinishNotification == k.hasDidFinishNotification
    ensures AtRest(k) ==> AtRest(r)
  {
    k.(currentGridLocation := target, nextGridLocation := target)
  }

  /** The angles a rotation animates between. Turning between north and west passes
      through 360 degrees rather than sweeping three quarters of a turn. */
  function RotationEndpoints(current: CompassDirection, currentRotation: int, target: CompassDirection): RotationTween {
    if current == North && target == West then RotationTween(360, Bearing(West))
    else if current == West && target == North then RotationTween(currentRotation, 360)
    else RotationTween(currentRotation, Bearing(target))
  }

  /** Arms a rotation toward `target`; fatal while another rotation is pending. */
  function AnimateToDirection(k: Karel, target: CompassDirection): (r: Result<Karel>)
    ensures r.Fatal? <==> k.tweenRotate.Some?
    ensures r.Ok? ==> r.value.nextDirection == target && r.value.nextRotation == Bearing(target)
    ensures r.Ok? ==> r.value.tweenRotate == Some(RotationEndpoints(k.currentDirection, k.currentRotation, target))
    ensures r.Ok? ==> r.value.currentDirection == k.currentDirection && r.value.currentRotation == k.currentRotation
    ensures r.Ok? ==> r.value.currentGridLocation == k.currentGridLocation && r.value.nextGridLocation == k.nextGridLocation
    ensures r.Ok? ==> r.value.tweenTranslate == k.tweenTranslate
    ensures r.Ok? ==> r.value.hasDidFinishNotification == k.hasDidFinishNotification
  {
    if k.tweenRotate.Some? then
      Fatal("Requested to animate rotation but animation already in progress")
    else
      Ok(k.(nextRotation := Bearing(target), nextDirection := target,
            tweenRotate := Some(RotationEndpoints(k.currentDirection, k.currentRotation, target))))
  }

  /** Arms a translation toward `target`; fatal while another translation is pending. */
  function AnimateToLocation(k: Karel, target: GridLocation): (r: Result<Karel>)
    ensures r.Fatal? <==> k.tweenTranslate.Some?
    ensures r.Ok? ==> r.value.nextGridLocation == target
    ensures r.Ok? ==> r.value.tweenTranslate == Some(TranslationTween(k.currentGridLocation, target))
    ensures r.Ok? ==> r.value.currentGridLocation == k.currentGridLocation
    ensures r.Ok? ==> r.value.currentDirection == k.currentDirection && r.value.nextDirection == k.nextDirection
    ensures r.Ok? ==> r.value.currentRotation == k.currentRotation && r.value.nextRotation == k.nextRotation
    ensures r.Ok? ==> r.value.tweenRotate == k.tweenRotate
    ensures r.Ok? ==> r.value.hasDidFinishNotification == k.hasDidFinishNotification
  {
    if k.tweenTranslate.Some? then
      Fatal("Requested to animate translation but animation already in progress")
    else
      Ok(k.(nextGridLocation := target,
            tweenTranslate := Some(TranslationTween(k.currentGridLocation, target))))
  }

  /** Arms a translation to the corner ahead, whatever lies there. */
  function AnimateForward(k: Karel): Result<Karel> {
    AnimateToLocation(k, Forward(k.currentGridLocation, k.currentDirection))
  }

  function AnimateTurnLeft(k: Karel): Result<Karel> {
    AnimateToDirection(k, Left(k.currentDirection))
  }

  function AnimateTurnRight(k: Karel): Result<Karel> {
    AnimateToDirection(k, Right(k.currentDirection))
  }

  /** Karel's heading as last committed; a pending rotation does not count yet. */
  function IsFacing(k: Karel, direction: CompassDirection): (r: bool)
    ensures r <==> k.currentDirection == direction
  {
    direction == k.currentDirection
  }

  /** Arming a rotation does not change what `isFacing` answers: until the frame that
      completes the rotation, Karel still reports the old heading. */
  lemma PendingTurnReportsOld(k: Karel, target: CompassDirection, d: CompassDirection)
    requires k.tweenRotate.None?
    ensures AnimateToDirection(k, target).Ok?
    ensures IsFacing(AnimateToDirection(k, target).value, d) == IsFacing(k, d)
  {
  }

  /** The state after one frame, and how many finish notifications the frame fired. */
  datatype Frame = Frame(karel: Karel, notifications: nat)

  /** One frame of `calculate`: each pending animation that the clock reports completed is
      committed, its slot cleared, and the notification fired once for it. */
  function Calculate(k: Karel, translationCompleted: bool, rotationCompleted: bool): (f: Frame)
    ensures var committed := k.tweenTranslate.Some? && translationCompleted;
      && (committed ==> f.karel.currentGridLocation == k.nextGridLocation && f.karel.tweenTranslate.None?)
      && (!committed ==> f.karel.currentGridLocation == k.currentGridLocation && f.karel.tweenTranslate == k.tweenTranslate)
    ensures var committed := k.tweenRotate.Some? && rotationCompleted;
      && (committed ==> f.karel.currentDirection == k.nextDirection && f.karel.currentRotation == k.nextRotation && f.karel.tweenRotate.None?)
      && (!committed ==> f.karel.currentDirection == k.currentDirection && f.karel.currentRotation == k.currentRotation && f.karel.tweenRotate == k.tweenRotate)
    ensures f.karel.nextGridLocation == k.nextGridLocation && f.karel.nextDirection == k.nextDirection && f.karel.nextRotation == k.nextRotation
    ensures f.karel.hasDidFinishNotification == k.hasDidFinishNotification
    ensures f.notifications == if k.hasDidFinishNotification then
      (if k.tweenTranslate.Some? && translationCompleted then 1 else 0) + (if k.tweenRotate.Some? && rotationCompleted then 1 else 0)
      else 0
  {
    var notice: nat := if k.hasDidFinishNotification then 1 else 0;
    var afterTranslation :=
      if k.tweenTranslate.Some? && translationCompleted then
        Frame(k.(tweenTranslate := None, currentGridLocation := k.nextGridLocation), notice)
      else Frame(k, 0);
    var t := afterTranslation.karel;
    if t.tweenRotate.Some? && rotationCompleted then
      Frame(t.(tweenRotate := None, currentRotation := t.nextRotation, currentDirection := t.nextDirection),
            afterTranslation.notifications + notice)
    else afterTranslation
  }

  /** A rotation can be armed while a translation is pending and vice versa: the two slots
      are independent. */
  lemma SlotsAreIndependent(k: Karel, l: GridLocation, d: CompassDirection)
    requires k.tweenTranslate.Some? && k.tweenRotate.None?
    ensures AnimateToDirection(k, d).Ok?
    ensures AnimateToLocation(AnimateToDirection(k, d).value, l).Fatal?
  {
  }

  /** From rest, the endpoints of a left turn are 90 degrees apart counter-clockwise and those
      of a right turn 90 degrees apart clockwise. */
  lemma QuarterTurns(k: Karel)
    requires AtRest(k)
    ensures AnimateTurnLeft(k).Ok? && AnimateTurnRight(k).Ok?
    ensures AnimateTurnLeft(k).value.tweenRotate.value.toDegrees - AnimateTurnLeft(k).value.tweenRotate.value.fromDegrees == -90
    ensures AnimateTurnRight(k).value.tweenRotate.value.toDegrees - AnimateTurnRight(k).value.tweenRotate.value.fromDegrees == 90
  {
  }

  /** Arming a move from rest and completing it lands Karel on the corner ahead, back at
      rest with the same heading, after exactly one notification. */
  lemma ForwardThenComplete(k: Karel)
    requires AtRest(k) && k.hasDidFinishNotification
    ensures AnimateForward(k).Ok?
    ensures var f := Calculate(AnimateForward(k).value, true, false);
      && f.karel.currentGridLocation == Forward(k.currentGridLocation, k.currentDirection)
      && f.karel.currentDirection == k.currentDirection
      && AtRest(f.karel) && f.karel.hasDidFinishNotification
      && f.notifications == 1
  {
  }

  /** Arming a turn from rest and completing it faces Karel left (or right) of the old
      heading, back at rest on the same corner, after exactly one notification. */
  lemma TurnThenComplete(k: Karel)
    requires AtRest(k) && k.hasDidFinishNotification
    ensures AnimateTurnLeft(k).Ok? && AnimateTurnRight(k).Ok?
    ensures var f := Calculate(AnimateTurnLeft(k).value, false, true);
      && f.karel.currentDirection == Left(k.currentDirection)
      && f.karel.currentGridLocation == k.currentGridLocation
      && AtRest(f.karel) && f.karel.hasDidFinishNotification
      && f.notifications == 1
    ensures var f := Calculate(AnimateTurnRight(k).value, false, true);
      && f.karel.currentDirection == Right(k.currentDirection)
      && f.karel.currentGridLocation == k.currentGridLocation
      && AtRest(f.karel) && f.karel.hasDidFinishNotification
      && f.notifications == 1
  {
  }
}
