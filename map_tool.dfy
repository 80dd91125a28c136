/** The magnifier map tool (tool/maptool.py, class MagnifierTool): the
    controller that switches the magnifier on and off, follows the layer-tree
    selection, and routes mouse events to the overlay and the widget. */
module Tool {
  import opened Common
  import opened Text
  import opened Overlay
  import opened Selection
  import opened Config

  /** The tool's flags, the overlay and the widget's label and visibility. */
  datatype ToolState = ToolState(
    enabled: bool,
    widgetMagnifier: bool,
    current: Option<string>,
    overlay: OverlayState,
    layerLabel: string,
    widgetShown: bool)

  function LabelText(current: Option<string>): string
  {
    if current.Some? then current.value else ""
  }

  /** What the tool's handlers keep true: the widget is shown exactly while
      its flag is set, which needs an enabled tool with active layers; a
      disabled tool has no active layers; the label shows the current name. */
  predicate Consistent(t: ToolState)
  {
    && t.widgetShown == t.widgetMagnifier
    && (t.widgetMagnifier ==> t.enabled && t.overlay.layers != [])
    && (!t.enabled ==> t.overlay.layers == [])
    && t.layerLabel == LabelText(t.current)
  }

  /** The effect of `disable`. */
  function Disabled(t: ToolState): (r: ToolState)
    ensures !r.enabled && !r.widgetMagnifier && !r.widgetShown
    ensures r.overlay == Cleared(t.overlay)
    ensures r.current == t.current && r.layerLabel == t.layerLabel
    ensures Consistent(t) ==> Consistent(r)
  {
    t.(enabled := false, widgetMagnifier := false, widgetShown := false, overlay := Cleared(t.overlay))
  }

  /** The effect of `finished` in `setLayers`: the layers become active, the
      node's name becomes the current name and label, and a render starts. */
  function Selected(t: ToolState, name: string, layers: seq<Layer>, canvas: Canvas): (r: ToolState)
    requires layers != []
    ensures r.overlay == StartRender(t.overlay.(layers := layers), canvas)
    ensures r.overlay.layers == layers && r.overlay.image.None?
    ensures |r.overlay.jobs| == |t.overlay.jobs| + 1 && r.overlay.jobs[|t.overlay.jobs|].layers == layers
    ensures r.current == Some(name) && r.layerLabel == name
    ensures r.enabled == t.enabled && r.widgetMagnifier == t.widgetMagnifier && r.widgetShown == t.widgetShown
    ensures Consistent(t) && t.enabled ==> Consistent(r)
  {
    t.(current := Some(name), layerLabel := name, overlay := StartRender(t.overlay.(layers := layers), canvas))
  }

  /** Whether `setLayers` gets past its guards to a node that is not the root. */
  predicate Reaches(enabled: bool, current: Option<ModelIndex>, root: TreeNode)
  {
    enabled && current.Some? && current.value.node != null && current.value.node != root
  }

  /** The effect of `setLayers`: ignored while disabled or without a node;
      the root disables the tool; any other node is resolved. */
  function AfterSetLayers(t: ToolState, current: Option<ModelIndex>, root: TreeNode, canvas: Canvas): (r: ToolState)
    ensures !t.enabled || current.None? || current.value.node == null ==> r == t
    ensures t.enabled && current.Some? && current.value.node == root ==> r == Disabled(t)
    ensures Reaches(t.enabled, current, root) ==>
      var n := current.value.node;
      var res := Resolve(n.kind, n.name, t.overlay.layers);
      && (res.Keep? ==> r == t)
      && (res.Select? ==> r == Selected(t, n.name, res.layers, canvas))
      && (res.Select? ==> r.overlay.layers == res.layers && r.current == Some(n.name) && r.layerLabel == n.name)
    ensures r.overlay.layers != t.overlay.layers ==>
      r.overlay.layers == [] || (r.overlay.image.None? && |r.overlay.jobs| == |t.overlay.jobs| + 1)
    ensures Consistent(t) ==> Consistent(r)
  {
    if !t.enabled || current.None? || current.value.node == null then t
    else if current.value.node == root then Disabled(t)
    else
      var node := current.value.node;
      match Resolve(node.kind, node.name, t.overlay.layers)
      case Keep(_) => t
      case Select(layers) => Selected(t, node.name, layers, canvas)
  }

  /** The warning `setLayers` pushes, if any. */
  function SelectionWarning(t: ToolState, current: Option<ModelIndex>, root: TreeNode): (w: Option<string>)
    ensures w.Some? ==> Reaches(t.enabled, current, root)
    ensures Reaches(t.enabled, current, root) ==>
      var n := current.value.node;
      && (n.kind.LayerNode? && !IsActive(n.kind.layer, t.overlay.layers) && !n.kind.layer.spatial ==>
            w == Some(FillIn(NotSpatialFormat, n.kind.layer.name)))
      && (n.kind.GroupNode? && (forall i :: 0 <= i < |n.kind.found| ==> !n.kind.found[i].visible) ==>
            w == Some(FillIn(EmptyGroupFormat, n.name)))
      && (n.kind.LayerNode? && (IsActive(n.kind.layer, t.overlay.layers) || n.kind.layer.spatial) ==> w.None?)
      && (n.kind.GroupNode? && (exists i :: 0 <= i < |n.kind.found| && n.kind.found[i].visible) ==> w.None?)
      && (n.kind.OtherNode? ==> w.None?)
  {
    if Reaches(t.enabled, current, root) then
      match Resolve(current.value.node.kind, current.value.node.name, t.overlay.layers)
      case Keep(warning) => warning
      case Select(_) => None
    else None
  }

  /** The effect of `canvasReleaseEvent`: the widget flag flips, and the widget
      with it, only while the tool is enabled with active layers. */
  function Released(t: ToolState): (r: ToolState)
    ensures r.widgetMagnifier != t.widgetMagnifier <==> t.enabled && t.overlay.layers != []
    ensures r.(widgetMagnifier := t.widgetMagnifier, widgetShown := t.widgetShown) == t
    ensures Consistent(t) ==> Consistent(r)
  {
    if !t.enabled || t.overlay.layers == [] then t
    else t.(widgetMagnifier := !t.widgetMagnifier, widgetShown := !t.widgetMagnifier)
  }

  /** The effect of `canvasMoveEvent`: the cursor reaches the overlay only
      while the tool is enabled, has layers and the widget is hidden. */
  function Moved(t: ToolState, p: Point): (r: ToolState)
    ensures t.enabled && t.overlay.layers != [] && !t.widgetMagnifier ==> r.overlay == PixelPointSet(t.overlay, p)
    ensures !(t.enabled && t.overlay.layers != [] && !t.widgetMagnifier) ==> r == t
    ensures r.(overlay := t.overlay) == t
    ensures Consistent(t) ==> Consistent(r)
  {
    if !t.enabled || t.overlay.layers == [] || t.widgetMagnifier then t
    else t.(overlay := PixelPointSet(t.overlay, p))
  }

  /** Two releases in a row leave the widget as they found it. */
  lemma {:induction false} ReleaseTwiceRestores(t: ToolState)
    requires Consistent(t)
    ensures Released(Released(t)) == t
  {
  }

  /** A failed selection (one that warns) changes nothing. */
  lemma {:induction false} WarningKeepsState(t: ToolState, current: Option<ModelIndex>, root: TreeNode, canvas: Canvas)
    requires SelectionWarning(t, current, root).Some?
    ensures AfterSetLayers(t, current, root, canvas) == t
  {
    var node := current.value.node;
    assert Resolve(node.kind, node.name, t.overlay.layers).Keep?;
  }

  /** The guards of `setLayers`: a call that does not get past them pushes no
      warning and either changes nothing or (at the root) disables the tool; a
      call that does keeps the tool enabled and the widget as it was. */
  lemma {:induction false} SetLayersGuards(t: ToolState, current: Option<ModelIndex>, root: TreeNode, canvas: Canvas)
    ensures !Reaches(t.enabled, current, root) ==>
      && SelectionWarning(t, current, root) == None
      && (AfterSetLayers(t, current, root, canvas) == t || AfterSetLayers(t, current, root, canvas) == Disabled(t))
    ensures Reaches(t.enabled, current, root) ==>
      var r := AfterSetLayers(t, current, root, canvas);
      r.enabled && r.widgetMagnifier == t.widgetMagnifier && r.widgetShown == t.widgetShown
  {
  }

  const MissingLayersText := "Missing layers required for tool."

  class MagnifierTool {
    const title: string
    const magnifierMap: MagnifierMap
    const configWidget: MagnifierConfigWidget
    var enabledMagnifier: bool
    var widgetMagnifier: bool
    var currentMagnifier: Option<string>

    function State(): ToolState
      reads this, magnifierMap, configWidget
    {
      ToolState(enabledMagnifier, widgetMagnifier, currentMagnifier, magnifierMap.State(),
                configWidget.layerLabel, configWidget.shown)
    }

    ghost predicate Valid()
      reads this, magnifierMap, configWidget
    {
      configWidget.magnifierMap == magnifierMap && Consistent(State())
    }

    constructor (title: string)
      ensures Valid() && fresh(magnifierMap) && fresh(configWidget)
      ensures State() == ToolState(false, false, None, OverlayState([], None, None, 2, 2, None, []), "", false)
      ensures configWidget.zoomValues == [1, 2, 4, 6] && configWidget.magnifierValues == [1, 2, 3, 4, 5]
    {
      var zoomFactor, magnifierFactor := 2, 2;
      var overlay := new MagnifierMap(zoomFactor, magnifierFactor);
      var widget := new MagnifierConfigWidget(overlay, [1, 2, 4, 6], zoomFactor, [1, 2, 3, 4, 5], magnifierFactor);
      this.title := title;
      magnifierMap := overlay;
      configWidget := widget;
      enabledMagnifier := false;
      widgetMagnifier := false;
      currentMagnifier := None;
    }

    /** `canExecute`: the tool needs the project to have at least one layer,
        and warns otherwise. */
    method CanExecute(projectLayerCount: nat) returns (ok: bool, warning: Option<string>)
      ensures ok <==> projectLayerCount > 0
      ensures warning.Some? <==> !ok
      ensures warning == if ok then None else Some(MissingLayersText)
    {
      if projectLayerCount == 0 {
        return false, Some(MissingLayersText);
      }
      return true, None;
    }

    method Disable()
      requires Valid()
      modifies this, magnifierMap, configWidget
      ensures Valid()
      ensures State() == Disabled(old(State()))
      ensures forall w, h :: magnifierMap.Paint(w, h).None?
    {
      magnifierMap.Clear();
      enabledMagnifier := false;
      widgetMagnifier := false;
      configWidget.shown := false;
    }

    /** `finished` in `setLayers`, with the visibility flicker: the node is
        checked visible while the render is started, then set back. */
    method ApplySelection(node: TreeNode, layers: seq<Layer>, canvas: Canvas)
      requires Valid() && enabledMagnifier && layers != []
      modifies this, magnifierMap, configWidget, node
      ensures Valid()
      ensures State() == Selected(old(State()), node.name, layers, canvas)
      ensures node.visible == old(node.visible)
    {
      magnifierMap.layers := layers;
      currentMagnifier := Some(node.name);
      configWidget.layerLabel := node.name;
      var isChecked := node.visible;
      if !isChecked {
        node.visible := true;
      }
      magnifierMap.SetImage(canvas);
      if !isChecked {
        node.visible := false;
      }
    }

    method SetLayers(current: Option<ModelIndex>, root: TreeNode, canvas: Canvas) returns (warning: Option<string>)
      requires Valid()
      modifies this, magnifierMap, configWidget, if current.Some? && current.value.node != null then {current.value.node} else {}
      ensures Valid()
      ensures State() == AfterSetLayers(old(State()), current, root, canvas)
      ensures warning == SelectionWarning(old(State()), current, root)
      ensures current.Some? && current.value.node != null ==> current.value.node.visible == old(current.value.node.visible)
    {
      warning := None;
      if !enabledMagnifier || current.None? {
        return;
      }
      var node := current.value.node;
      if node == null {
        return;
      }
      if node == root {
        Disable();
        return;
      }
      match Resolve(node.kind, node.name, magnifierMap.layers)
      case Keep(w) =>
        warning := w;
      case Select(layers) =>
        ApplySelection(node, layers, canvas);
    }

    /** `activate`: enable the tool and take up the view's current index. */
    method Activate(current: Option<ModelIndex>, root: TreeNode, canvas: Canvas) returns (warning: Option<string>)
      requires Valid()
      modifies this, magnifierMap, configWidget, if current.Some? && current.value.node != null then {current.value.node} else {}
      ensures Valid()
      ensures State() == AfterSetLayers(old(State()).(enabled := true), current, root, canvas)
      ensures warning == SelectionWarning(old(State()).(enabled := true), current, root)
      ensures current.Some? && current.value.node != null ==> current.value.node.visible == old(current.value.node.visible)
    {
      enabledMagnifier := true;
      warning := SetLayers(current, root, canvas);
    }

    method Deactivate()
      requires Valid()
      modifies this, magnifierMap, configWidget
      ensures Valid()
      ensures State() == Disabled(old(State()))
    {
      Disable();
    }

    method CanvasReleaseEvent()
      requires Valid()
      modifies this, configWidget
      ensures Valid()
      ensures State() == Released(old(State()))
    {
      if !enabledMagnifier || magnifierMap.layers == [] {
        return;
      }
      widgetMagnifier := !widgetMagnifier;
      configWidget.shown := widgetMagnifier;
    }

    method CanvasMoveEvent(p: Point)
      requires Valid()
      modifies magnifierMap
      ensures Valid()
      ensures State() == Moved(old(State()), p)
    {
      if !enabledMagnifier || magnifierMap.layers == [] || widgetMagnifier {
        return;
      }
      magnifierMap.SetPixelPoint(p);
    }
  }
}
