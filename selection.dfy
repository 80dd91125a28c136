/** Turning the current layer-tree node into the overlay's active layers
    (tool/maptool.py, `setLayers` with its helpers `setTreeLayer` and
    `setTreeGroup`). The tree itself belongs to the host: a node is known by
    its kind, its name and its visibility flag. */
module Selection {
  import opened Common
  import opened Text

  /** One entry of a group's `findLayers()`: a layer node's layer and its flag. */
  datatype LayerEntry = LayerEntry(layer: Layer, visible: bool)

  /** A layer node, a group node (with the layer nodes found beneath it, in
      tree order), or any other kind of node. */
  datatype NodeKind = LayerNode(layer: Layer) | GroupNode(found: seq<LayerEntry>) | OtherNode

  class TreeNode {
    const kind: NodeKind
    const name: string
    var visible: bool

    constructor (kind: NodeKind, name: string, visible: bool)
      ensures this.kind == kind && this.name == name && this.visible == visible
    {
      this.kind := kind;
      this.name := name;
      this.visible := visible;
    }
  }

  /** A `QModelIndex` of the layer-tree view, with the node `index2node`
      finds for it (`null` for an index the view has no node for). */
  datatype ModelIndex = ModelIndex(node: TreeNode?)

  /** The layers of a group whose layer nodes are checked visible, in tree order. */
  function VisibleLayers(found: seq<LayerEntry>): (r: seq<Layer>)
    ensures |r| <= |found|
    ensures forall l :: l in r <==> exists i :: 0 <= i < |found| && found[i].visible && found[i].layer == l
  {
    if found == [] then []
    else
      var rest := VisibleLayers(found[1..]);
      assert forall i :: 1 <= i < |found| ==> found[i] == found[1..][i - 1];
      if found[0].visible then [found[0].layer] + rest else rest
  }

  /** The filter keeps tree order: the visible layers of two runs of entries
      are those of the first run followed by those of the second. */
  lemma {:induction false} VisibleLayersAppend(a: seq<LayerEntry>, b: seq<LayerEntry>)
    ensures VisibleLayers(a + b) == VisibleLayers(a) + VisibleLayers(b)
  {
    if a == [] {
      assert a + b == b;
    } else {
      assert (a + b)[0] == a[0] && (a + b)[1..] == a[1..] + b;
      VisibleLayersAppend(a[1..], b);
    }
  }

  const NotSpatialFormat := "Active layer '{}' need be a spatial layer."
  const EmptyGroupFormat := "Active group '{}' need at least one item with visible checked"

  /** What selecting a node other than the tree root leads to: keep the current
      selection (with a warning or silently), or make these layers active. */
  datatype Resolution = Keep(warning: Option<string>) | Select(layers: seq<Layer>)

  /** `layer in active`: map layers compare as the same host object, which the
      model identifies by the layer's id. */
  predicate IsActive(layer: Layer, active: seq<Layer>)
  {
    exists i :: 0 <= i < |active| && active[i].id == layer.id
  }

  function Resolve(kind: NodeKind, name: string, active: seq<Layer>): (r: Resolution)
    ensures r.Select? ==> r.layers != []
    ensures kind.LayerNode? ==>
      && (r.Select? <==> !IsActive(kind.layer, active) && kind.layer.spatial)
      && (r.Select? ==> r.layers == [kind.layer])
      && (IsActive(kind.layer, active) ==> r == Keep(None))
      && (!IsActive(kind.layer, active) && !kind.layer.spatial ==>
            r == Keep(Some(FillIn(NotSpatialFormat, kind.layer.name))))
    ensures kind.GroupNode? ==>
      && (r.Select? <==> exists i :: 0 <= i < |kind.found| && kind.found[i].visible)
      && (r.Select? ==> r.layers == VisibleLayers(kind.found))
      && (r.Keep? ==> r == Keep(Some(FillIn(EmptyGroupFormat, name))))
    ensures kind.OtherNode? ==> r == Keep(None)
  {
    match kind
    case LayerNode(layer) =>
      if IsActive(layer, active) then Keep(None)
      else if !layer.spatial then Keep(NotSpatialWarning(layer).warning)
      else Select([layer])
    case GroupNode(found) =>
      var layers := VisibleLayers(found);
      assert forall i :: 0 <= i < |found| && found[i].visible ==> found[i].layer in layers;
      if layers == [] then
        Keep(Some(FillIn(EmptyGroupFormat, name)))
      else
        assert layers[0] in layers;
        Select(layers)
    case OtherNode => Keep(None)
  }

  // The warning for a layer without spatial content is pushed through
  // `self.msgBar` titled `self.pluginName`, two attributes the tool never
  // defines; everywhere else it uses `self.msg_bar` and `self.title`.

  /** The attributes a tool instance carries once constructed. */
  const ToolAttributes: set<string> := {
    "title", "canvas", "view", "msg_bar", "project", "magnifier_map",
    "magnifier_config_widget", "enabled_magnifier", "widget_magnifier",
    "current_magnifier", "_signal_slot" }

  /** How a slot ends: normally, having pushed a warning, or by raising
      `AttributeError` for the missing attribute. */
  datatype SlotExit = Returned(warning: Option<string>) | Raised(missingAttribute: string)

  /** `self.<bar>.pushWarning(self.<title>, text)`: the bar is looked up first. */
  function PushWarning(bar: string, title: string, text: string): (e: SlotExit)
    ensures e.Returned? <==> bar in ToolAttributes && title in ToolAttributes
    ensures e.Returned? ==> e.warning == Some(text)
    ensures e.Raised? ==> e.missingAttribute !in ToolAttributes
  {
    if bar !in ToolAttributes then Raised(bar)
    else if title !in ToolAttributes then Raised(title)
    else Returned(Some(text))
  }

  /** The non-spatial warning as written: the lookup of `self.msgBar` fails,
      so the slot raises instead of warning. */
  function NotSpatialWarningAsWritten(layer: Layer): (e: SlotExit)
    ensures e == Raised("msgBar")
  {
    assert "msgBar" !in ToolAttributes;
    PushWarning("msgBar", "pluginName", FillIn(NotSpatialFormat, layer.name))
  }

  /** The non-spatial warning through the attributes the tool has. */
  function NotSpatialWarning(layer: Layer): (e: SlotExit)
    ensures e == Returned(Some(FillIn(NotSpatialFormat, layer.name)))
  {
    PushWarning("msg_bar", "title", FillIn(NotSpatialFormat, layer.name))
  }
}
