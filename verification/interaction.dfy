/** The layer holding Karel and the beepers, keyed by corner; at most one beeper object per
    corner. */
module Interaction {
  import opened Wrappers
  import opened Grid
  import opened Robot
  import opened Beepers

  datatype InteractionLayer = InteractionLayer(karel: Karel, gridBeepers: map<GridLocation, Beeper>)

  function NewLayer(): (layer: InteractionLayer)
    ensures layer.gridBeepers == map[] && layer.karel == Initial
  {
    InteractionLayer(Initial, map[])
  }

  /** Places a new beeper on an empty corner; fatal when the corner already has one. */
  function AddBeeper(layer: InteractionLayer, gridLocation: GridLocation, initialCount: int): (r: Result<InteractionLayer>)
    ensures r.Fatal? <==> gridLocation in layer.gridBeepers
    ensures r.Ok? ==> r.value.gridBeepers.Keys == layer.gridBeepers.Keys + {gridLocation}
    ensures r.Ok? ==> r.value.gridBeepers[gridLocation] == NewBeeper(gridLocation, initialCount)
    ensures r.Ok? ==> forall l :: l in layer.gridBeepers ==> r.value.gridBeepers[l] == layer.gridBeepers[l]
    ensures r.Ok? ==> r.value.karel == layer.karel
  {
    if gridLocation in layer.gridBeepers then
      Fatal("The specificed location " + Grid.Description(gridLocation) + " already contains a beeper.")
    else
      Ok(layer.(gridBeepers := layer.gridBeepers[gridLocation := NewBeeper(gridLocation, initialCount)]))
  }

  /** Takes the beeper off a corner; fatal when the corner has none. */
  function RemoveBeeper(layer: InteractionLayer, gridLocation: GridLocation): (r: Result<InteractionLayer>)
    ensures r.Fatal? <==> gridLocation !in layer.gridBeepers
    ensures r.Ok? ==> r.value.gridBeepers.Keys == layer.gridBeepers.Keys - {gridLocation}
    ensures r.Ok? ==> forall l :: l in r.value.gridBeepers ==> r.value.gridBeepers[l] == layer.gridBeepers[l]
    ensures r.Ok? ==> r.value.karel == layer.karel
  {
    if gridLocation !in layer.gridBeepers then
      Fatal("The specified location " + Grid.Description(gridLocation) + " does not contain a beeper.")
    else
      Ok(layer.(gridBeepers := layer.gridBeepers - {gridLocation}))
  }

  /** Adding a beeper to an empty corner and removing it again restores the layer. */
  lemma AddThenRemove(layer: InteractionLayer, gridLocation: GridLocation, initialCount: int)
    requires gridLocation !in layer.gridBeepers
    ensures AddBeeper(layer, gridLocation, initialCount).Ok?
    ensures RemoveBeeper(AddBeeper(layer, gridLocation, initialCount).value, gridLocation) == Ok(layer)
  {
    var added := AddBeeper(layer, gridLocation, initialCount).value;
    assert added.gridBeepers - {gridLocation} == layer.gridBeepers;
  }
}
