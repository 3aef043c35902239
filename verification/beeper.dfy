/** The counter a beeper on a corner keeps. */
module Beepers {
  import opened Wrappers
  import opened Grid

  datatype Beeper = Beeper(gridLocation: GridLocation, countIndicator: int)

  function NewBeeper(gridLocation: GridLocation, initialCount: int): (b: Beeper)
    ensures Count(b) == initialCount && b.gridLocation == gridLocation
  {
    Beeper(gridLocation, initialCount)
  }

  function Count(b: Beeper): int {
    b.countIndicator
  }

  /** Adds `count` beepers, one when no count is given. */
  function Increment(b: Beeper, count: int := 1): (r: Beeper)
    ensures Count(r) == Count(b) + count && r.gridLocation == b.gridLocation
  {
    b.(countIndicator := b.countIndicator + count)
  }

  /** Removes one beeper; fatal when there is none. */
  function Decrement(b: Beeper): (r: Result<Beeper>)
    ensures r.Fatal? <==> Count(b) < 1
    ensures r.Ok? ==> Count(r.value) == Count(b) - 1 && r.value.gridLocation == b.gridLocation
  {
    if b.countIndicator >= 1 then Ok(b.(countIndicator := b.countIndicator - 1))
    else Fatal("No beepers to remove")
  }

  /** Adding one beeper and then removing one gives back the same beeper, exactly when the
      count was not negative to begin with. */
  lemma IncrementThenDecrement(b: Beeper)
    ensures Decrement(Increment(b)) == Ok(b) <==> Count(b) >= 0
  {
  }

  datatype BeeperOperation = Add(count: int) | Take

  function Apply(b: Beeper, operations: seq<BeeperOperation>): Result<Beeper>
    decreases |operations|
  {
    if operations == [] then Ok(b)
    else
      match operations[0]
      case Add(count) => Apply(Increment(b, count), operations[1..])
      case Take =>
        var taken :- Decrement(b);
        Apply(taken, operations[1..])
  }

  /** Adds minus takes. */
  function Balance(operations: seq<BeeperOperation>): int
    decreases |operations|
  {
    if operations == [] then 0
    else (match operations[0] case Add(count) => count case Take => -1) + Balance(operations[1..])
  }

  /** Starting from a non-negative count and adding only non-negative amounts, a beeper's
      count never goes negative: any run that survives ends at the start plus the balance,
      and it survives whenever no prefix of it takes more than it has. */
  lemma {:induction false} CountNeverNegative(b: Beeper, operations: seq<BeeperOperation>)
    requires Count(b) >= 0
    requires forall i :: 0 <= i < |operations| && operations[i].Add? ==> operations[i].count >= 0
    ensures Apply(b, operations).Ok? ==> Count(Apply(b, operations).value) == Count(b) + Balance(operations) >= 0
    ensures (forall k :: 0 <= k <= |operations| ==> Count(b) + Balance(operations[..k]) >= 0) ==> Apply(b, operations).Ok?
    decreases |operations|
  {
    if operations != [] {
      var rest := operations[1..];
      forall k | 0 <= k <= |rest|
        ensures Balance(operations[..k + 1]) == Balance(operations[..1]) + Balance(rest[..k])
      {
        assert operations[..k + 1][1..] == rest[..k];
      }
      match operations[0]
      case Add(count) =>
        CountNeverNegative(Increment(b, count), rest);
      case Take =>
        if Count(b) >= 1 {
          CountNeverNegative(Decrement(b).value, rest);
        } else {
          assert Balance(operations[..1]) == -1;
        }
    }
  }
}
