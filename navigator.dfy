/**
 Arrow-key navigation through the layer list: the tree is walked into a list
 of identifiers, the first identifier that is selected is the anchor, and the
 neighbour above or below it is selected.
 */
module Navigator {
  import opened Wrappers
  import opened Commands
  import opened Layers

  /** Position of the first element of `ids` that is in `selected`, or -1 (lodash `findIndex`). */
  function FirstIndex(ids: seq<string>, selected: set<string>): (index: int)
    ensures -1 <= index < |ids|
    ensures index == -1 <==> forall i :: 0 <= i < |ids| ==> ids[i] !in selected
    ensures index >= 0 ==> ids[index] in selected && forall j :: 0 <= j < index ==> ids[j] !in selected
  {
    if ids == [] then -1
    else if ids[0] in selected then 0
    else
      var k := FirstIndex(ids[1..], selected);
      if k == -1 then -1 else k + 1
  }

  /** `findIndex` over the identifier list, scanning from the front. */
  method FindIndex(layerIds: seq<string>, selected: set<string>) returns (index: int)
    ensures index == FirstIndex(layerIds, selected)
  {
    var i := 0;
    while i < |layerIds|
      invariant 0 <= i <= |layerIds|
      invariant forall j :: 0 <= j < i ==> layerIds[j] !in selected
    {
      if layerIds[i] in selected {
        return i;
      }
      i := i + 1;
    }
    return -1;
  }

  /** Pushes the identifier of every layer onto a fresh list in the order the tree is walked. */
  method CollectIds(vl: Layer) returns (layerIds: seq<string>)
    ensures layerIds == Flatten(vl)
  {
    layerIds := [];
    var pending := [vl];
    assert FlattenForest(pending) == Flatten(vl) + FlattenForest([]);
    while pending != []
      invariant layerIds + FlattenForest(pending) == Flatten(vl)
      decreases |FlattenForest(pending)|
    {
      var layer := pending[0];
      FlattenForestAppend(layer.children, pending[1..]);
      layerIds := layerIds + [layer.id];
      pending := layer.children + pending[1..];
    }
  }

  /**
   The selection command an arrow key leads to, given the walked identifiers
   and the selected set. Down stops one short of the end: `index + 1` must be
   below `|ids| - 1`.
   */
  function Navigate(ids: seq<string>, selected: set<string>, direction: Direction, shiftKey: bool): (r: Option<Command>)
    ensures |selected| == 0 ==> r == None
    ensures r.Some? ==> r.value.SelectLayer? && r.value.clearExisting == !shiftKey && r.value.id in ids
  {
    if |selected| == 0 then None
    else
      var index := FirstIndex(ids, selected);
      match direction
      case Up => if index > 0 then Some(SelectLayer(ids[index - 1], !shiftKey)) else None
      case Down => if index + 1 < |ids| - 1 then Some(SelectLayer(ids[index + 1], !shiftKey)) else None
  }

  /** `i` is the anchor: the first walked identifier that is selected. */
  ghost predicate IsAnchor(ids: seq<string>, selected: set<string>, i: int)
  {
    0 <= i < |ids| && ids[i] in selected && forall j :: 0 <= j < i ==> ids[j] !in selected
  }

  /** Up selects the layer just before the anchor, unless the anchor is the first walked layer. */
  lemma UpFromAnchor(ids: seq<string>, selected: set<string>, shiftKey: bool, i: int)
    requires IsAnchor(ids, selected, i)
    ensures Navigate(ids, selected, Up, shiftKey) ==
      if i > 0 then Some(SelectLayer(ids[i - 1], !shiftKey)) else None
  {
  }

  /** Down selects the layer just after the anchor only while that is not the last walked layer. */
  lemma DownFromAnchor(ids: seq<string>, selected: set<string>, shiftKey: bool, i: int)
    requires IsAnchor(ids, selected, i)
    ensures Navigate(ids, selected, Down, shiftKey) ==
      if i + 1 < |ids| - 1 then Some(SelectLayer(ids[i + 1], !shiftKey)) else None
  {
  }

  /** Down from the second-to-last walked layer does nothing. */
  lemma DownFromSecondToLastIsNoop(ids: seq<string>, selected: set<string>, shiftKey: bool)
    requires |ids| >= 2 && IsAnchor(ids, selected, |ids| - 2)
    ensures Navigate(ids, selected, Down, shiftKey) == None
  {
    DownFromAnchor(ids, selected, shiftKey, |ids| - 2);
  }

  /** With distinct identifiers, Down never selects the last walked layer. */
  lemma DownNeverReachesLast(ids: seq<string>, selected: set<string>, shiftKey: bool)
    requires |ids| > 0
    requires forall i, j :: 0 <= i < j < |ids| ==> ids[i] != ids[j]
    ensures Navigate(ids, selected, Down, shiftKey).Some? ==>
      Navigate(ids, selected, Down, shiftKey).value.id != ids[|ids| - 1]
  {
  }

  /** A selection that no walked layer is part of: Up does nothing, Down selects the first walked layer. */
  lemma SelectionOutsideWalk(ids: seq<string>, selected: set<string>, shiftKey: bool)
    requires |selected| > 0
    requires forall i :: 0 <= i < |ids| ==> ids[i] !in selected
    ensures Navigate(ids, selected, Up, shiftKey) == None
    ensures Navigate(ids, selected, Down, shiftKey) ==
      if |ids| >= 2 then Some(SelectLayer(ids[0], !shiftKey)) else None
  {
  }

  /** A concrete tree: pre-order places the group before its children, and the last layer is out of reach. */
  lemma NavigationExample()
    ensures Flatten(Layer("vl", [Layer("g", [Layer("p1", []), Layer("p2", [])]), Layer("p3", [])]))
      == ["vl", "g", "p1", "p2", "p3"]
    ensures Navigate(["vl", "g", "p1", "p2", "p3"], {"g"}, Up, false) == Some(SelectLayer("vl", true))
    ensures Navigate(["vl", "g", "p1", "p2", "p3"], {"g"}, Down, true) == Some(SelectLayer("p1", false))
    ensures Navigate(["vl", "g", "p1", "p2", "p3"], {"p2", "g"}, Down, false) == Some(SelectLayer("p1", true))
    ensures Navigate(["vl", "g", "p1", "p2", "p3"], {"p2"}, Down, false) == None
    ensures Navigate(["vl", "g", "p1", "p2", "p3"], {"vl"}, Up, false) == None
  {
  }
}
