# Magnifier: a Dafny model

A model of the QGIS "Magnifier" plugin. The plugin draws a round lens over the
map canvas. The lens follows the cursor and shows the active layer, or the
visible layers of the active group, enlarged. The model covers four pieces:

- **The overlay** (`Overlay`, tool/magnifiermap.py). It holds the active layers,
  the cursor pixel, the oversized raster and the zoom and magnifier factors.
  Starting a render is one event and finishing it is another. Painting is a
  function that gives the lens rectangle and the draw offset, or nothing.
  `Geometry` holds the integer lens arithmetic.
- **The tool** (`Tool`, tool/maptool.py). A state machine over the enabled
  flag, the widget flag, the current name and the overlay. It turns a
  layer-tree selection into active layers through `Selection`: the root,
  a layer node or a group node.
- **The configuration widget** (`Config`, tool/magnifierconfigwidget.py). It
  builds the two combo boxes, with labels like `4x` and a tooltip. Its two
  index-checked handlers set the factors. `Text` models `f"{v}x"`,
  `','.join` and, as their inverse, `str.split`.
- **The plugin entry point** (`Plugin`, __init__.py). It toggles the checkable
  action between the magnifier tool and the previously active map tool.

The methods of the overlay, the widget and the tool state their new state as
a function of the old one, written `State() == F(old(State()))`. The
functions `F` on the snapshot datatypes `OverlayState` and `ToolState` carry
the properties. The plugin's two handlers are small enough to state each
field against its old value directly. The main one
is `Consistent`: the widget is shown only while the tool is enabled with
active layers, and a disabled tool has no layers. Every tool transition
preserves it.

The model follows the code in four places where a reader might expect
otherwise:

- **Stale completions.** The code has no generation counter. Any completed
  render overwrites the stored raster, including an old job finishing after a
  newer one, or a job finishing after the tool was disabled
  (`Overlay.LateCompletionWins`, `Overlay.CompletionAfterClear`).
- **Re-selecting a layer.** A layer node is skipped when its layer is anywhere
  in the active list, where layers compare as the same host object (the model
  compares their ids). That includes a member of the active group, not only a
  re-selection of the same single layer.
- **Spatiality in groups.** Group selection does not check spatiality.
- **Non-spatial warning.** The warning for a non-spatial layer raises in the
  code (see Findings).

## Model

| member | source | states |
|---|---|---|
| `Overlay.MagnifierMap.constructor` | tool/magnifiermap.py:44-54 | the overlay starts with no layers, cursor or raster and the given factors |
| `Overlay.MagnifierMap.Clear` | tool/magnifiermap.py:56-60 | the new state is `Cleared` of the old one |
| `Overlay.Cleared` | tool/magnifiermap.py:56-60 | layers empty, cursor and raster unset; the factors, extent and job list are unchanged |
| `Overlay.MagnifierMap.SetPixelPoint` | tool/magnifiermap.py:62-67 | the new state is `PixelPointSet` of the old one |
| `Overlay.PixelPointSet` | tool/magnifiermap.py:62-67 | no change while the raster is unset; otherwise the cursor becomes the point and nothing else changes |
| `Geometry.InCanvas` | tool/magnifiermap.py:77 | the cursor passes the bounds test iff both coordinates lie within the canvas, edges included; a passing test implies a canvas of non-negative size |
| `Overlay.MagnifierMap.Paint` | tool/magnifiermap.py:69-93 | a lens is drawn exactly when there are layers, a cursor and a raster, and the cursor is inside the canvas with its edges; the lens square has side `LensDiameter` and sits `LensRadius` up-left of the cursor; the offset brings raster pixel `x*zoom` back to screen pixel `x` |
| `Geometry.TruncDiv` | tool/magnifiermap.py:81 | `int()` of a quotient rounds toward zero: bounds of the quotient for either sign |
| `Geometry.Min` | tool/magnifiermap.py:80 | the result is the smaller of the two sides |
| `Geometry.LensDiameter` | tool/magnifiermap.py:80-81 | `d` is the truncation of min(w,h)*factor/10: `10d <= min*factor < 10d+10` when non-negative, the mirror bounds when negative |
| `Geometry.LensRadius` | tool/magnifiermap.py:82 | `2r <= d <= 2r+1` |
| `Geometry.LensRect` | tool/magnifiermap.py:83-87 | a `d` by `d` square whose centre is the cursor to within one pixel, and which contains the cursor when `d >= 0` |
| `Geometry.DrawOffset` | tool/magnifiermap.py:91-92 | `offset + c*zoom == c`, so the map point under the cursor stays put; the offset is 0 at zoom 1 or at `c == 0` |
| `Geometry.DiameterExample` | tool/magnifiermap.py:80-82 | an 800 x 600 canvas with factor 3 gives diameter 180 and radius 90 |
| `Geometry.OffsetExample` | tool/magnifiermap.py:91-92 | zoom 4 at (100, 50) draws at (-300, -150) |
| `Overlay.MagnifierMap.SetImage` | tool/magnifiermap.py:125-134 | the new state is `StartRender` of the old one |
| `Overlay.StartRender` | tool/magnifiermap.py:102-134 | no layers: no change; otherwise the raster is unset, the item takes the canvas extent, and one job is appended for the layers over the canvas extent at canvas size times zoom; nothing else changes |
| `Overlay.MagnifierMap.Finished` | tool/magnifiermap.py:116-123 | the new state is `Completed` of the old one |
| `Overlay.Completed` | tool/magnifiermap.py:116-123 | the raster becomes the finished job's image and nothing else changes |
| `Overlay.LateCompletionWins` | tool/magnifiermap.py:121 | when two renders of different extents are pending and the older finishes last, the older raster stays and the newer one is lost |
| `Overlay.CompletionAfterClear` | tool/magnifiermap.py:121 | a completion after `clear` stores a raster although there are no layers |
| `Selection.VisibleLayers` | tool/maptool.py:154 | a layer is in the result iff some found entry with that layer is checked visible; no longer than the entries |
| `Selection.VisibleLayersAppend` | tool/maptool.py:154 | the filter keeps tree order: it distributes over concatenation |
| `Selection.Resolve` | tool/maptool.py:139-163 | layer node: selected as `[layer]` iff not already active (by identity) and spatial, skipped silently if active, kept with the non-spatial warning naming the layer otherwise; group: selected iff some entry is visible, as the visible layers, else kept with the empty-group warning naming the group; other nodes: kept silently; a selection is never empty |
| `Selection.PushWarning` | tool/maptool.py:147 | a warning is pushed iff both looked-up attributes exist; otherwise the missing one is raised |
| `Selection.NotSpatialWarningAsWritten` | tool/maptool.py:144-149 | as written, the non-spatial warning raises for the missing `msgBar` |
| `Selection.NotSpatialWarning` | tool/maptool.py:144-149 | through `msg_bar` and `title` the warning names the layer and returns |
| `Text.NatToDecimal` | tool/magnifierconfigwidget.py:46 | non-empty, all digits, no leading zero |
| `Text.IntToDecimal` | tool/magnifierconfigwidget.py:46 | non-empty and free of `,` and `x` |
| `Text.DecimalRoundTrip` | tool/magnifierconfigwidget.py:46 | reading the digits back gives the number |
| `Text.IntRoundTrip` | tool/magnifierconfigwidget.py:46 | `str(v)` is an integer literal that reads back as `v` |
| `Text.Label` | tool/magnifierconfigwidget.py:46 | a label is non-empty and has no comma |
| `Text.LabelRoundTrip` | tool/magnifierconfigwidget.py:52 | `f"{v}x"` reads back as `v` |
| `Text.Join` | tool/magnifierconfigwidget.py:53 | `sep.join`: splitting the result at the separator gives the parts back when there is a part and none holds the separator |
| `Text.FillIn` | tool/magnifierconfigwidget.py:53 | `format` with one argument: a format without a `{}` placeholder comes back unchanged |
| `Text.FillInPlaceholder` | tool/magnifierconfigwidget.py:53 | `format` puts its argument exactly where `{}` stood |
| `Config.Labels` | tool/magnifierconfigwidget.py:52 | one label `f"{v}x"` per value, in order, each reading back as its value |
| `Config.ToolTip` | tool/magnifierconfigwidget.py:53 | the zoom tooltip is "Zoom factor (" + the comma-joined labels + ")", the magnifier one "Magnifier factor (" + the same + ")" |
| `Config.IndexOf` | tool/magnifierconfigwidget.py:48-50 | `values.index(v)`: a position holding `v` with no earlier one |
| `Config.ToolTipListsValues` | tool/magnifierconfigwidget.py:52-54 | for any title whose first `{` opens its placeholder, the tooltip is the title's text around the comma-joined labels, and cutting them at commas gives each value back in order |
| `Config.CreateComboBox` | tool/magnifierconfigwidget.py:42-56 | one item per value in order, text `f"{v}x"` and data `v`; the first position of the current value is selected when present, else the default; the tooltip lists the labels |
| `Config.MagnifierConfigWidget.constructor` | tool/magnifierconfigwidget.py:58-77 | both combo boxes select the initial factors and carry their tooltips; the label is empty |
| `Config.ZoomChanged` | tool/magnifierconfigwidget.py:85-89 | out-of-range index: no change; otherwise the overlay is `StartRender` at the indexed zoom: the zoom is the indexed value, and with layers the raster is unset and a job at the new zoom is appended; layers, cursor and magnifier factor are kept |
| `Config.MagnifierConfigWidget.OnZoomValueChanged` | tool/magnifierconfigwidget.py:84-89 | the overlay's new state is `ZoomChanged` of the old one |
| `Config.MagnifierChanged` | tool/magnifierconfigwidget.py:92-95 | only the magnifier factor may change: to the indexed value in range, else kept; layers, raster, zoom and jobs never change |
| `Config.MagnifierConfigWidget.OnMagnifierValueChanged` | tool/magnifierconfigwidget.py:91-95 | the overlay's new state is `MagnifierChanged` of the old one |
| `Tool.MagnifierTool.constructor` | tool/maptool.py:52-75 | factors 2 and 2, zoom values 1,2,4,6, magnifier values 1..5, everything off, and the invariant holds |
| `Tool.MagnifierTool.CanExecute` | tool/maptool.py:110-115 | the tool may run iff the project has a layer, and otherwise warns "Missing layers required for tool." |
| `Tool.Disabled` | tool/maptool.py:117-122 | both flags off, widget hidden, overlay cleared as by `clear`; name and label kept; the invariant is preserved |
| `Tool.MagnifierTool.Disable` | tool/maptool.py:117-122 | the new state is `Disabled` of the old one, and no lens can be painted afterwards |
| `Tool.Selected` | tool/maptool.py:126-137 | the overlay is `StartRender` of the old overlay with the new layers: they become active with a fresh render of them; name and label become the node's name; the flags are kept |
| `Tool.MagnifierTool.ApplySelection` | tool/maptool.py:126-137 | the new state is `Selected` of the old one and the node's visibility flag is what it was before |
| `Tool.AfterSetLayers` | tool/maptool.py:165-182 | no change while disabled or without an index or node; the root disables; another node that `Resolve` keeps changes nothing, one it selects gives exactly `Selected` (its layers active with a new render of them even when they were already active, its name current and the label, cursor and factors kept); changed layers are either cleared or come with a new render; the invariant is preserved |
| `Tool.SetLayersGuards` | tool/maptool.py:165-175 | a call stopped by the guards or at the root pushes no warning and either changes nothing or disables the tool; a call past them leaves the tool enabled and the widget as it was |
| `Tool.SelectionWarning` | tool/maptool.py:144-161 | a warning is only issued for a node past the guards; there, a non-active non-spatial layer warns with its name, a group without visible entries warns with the group's name, and every other node warns nothing |
| `Tool.WarningKeepsState` | tool/maptool.py:144-161 | a selection that warns changes nothing |
| `Tool.MagnifierTool.SetLayers` | tool/maptool.py:124-182 | the new state is `AfterSetLayers` of the old one, the warning is `SelectionWarning`, and the node's visibility is restored |
| `Tool.MagnifierTool.Activate` | tool/maptool.py:185-191 | the tool is enabled and then the current index is selected; the node's visibility flag is what it was before |
| `Tool.MagnifierTool.Deactivate` | tool/maptool.py:193-199 | the new state is `Disabled` of the old one |
| `Tool.Released` | tool/maptool.py:206-212 | the widget flag flips iff the tool is enabled with layers, and the widget follows it; nothing else changes |
| `Tool.ReleaseTwiceRestores` | tool/maptool.py:206-212 | two releases in a row restore the state |
| `Tool.MagnifierTool.CanvasReleaseEvent` | tool/maptool.py:206-212 | the new state is `Released` of the old one |
| `Tool.Moved` | tool/maptool.py:214-219 | the cursor reaches the overlay iff the tool is enabled, has layers and the widget is hidden; nothing else changes |
| `Tool.MagnifierTool.CanvasMoveEvent` | tool/maptool.py:214-219 | the new state is `Moved` of the old one |
| `Plugin.MagnifierPlugin.constructor` | __init__.py:46-63 | action unchecked, canvas tool recorded as previous |
| `Plugin.MagnifierPlugin.OnClicked` | __init__.py:86-97 | the action takes the checked state it was toggled to; checking without project layers unchecks it again, keeps the tools and warns of the missing layers; checking with layers leaves it checked, records the current tool as previous and installs the magnifier; unchecking leaves it unchecked and restores the previous tool |
| `Plugin.MagnifierPlugin.OnMapToolSet` | __init__.py:99-102 | the action is unchecked iff the tool being left is the magnifier tool; the tools are untouched |

## Findings

| source | as written | input that shows it | evidently intended | confidence | as-written member | corrected member |
|---|---|---|---|---|---|---|
| tool/maptool.py:147 | the non-spatial warning is pushed through `self.msgBar` with title `self.pluginName`, and the tool defines neither attribute | select, with the tool enabled, a layer node whose layer is not active and has no geometry (a plain table) | `self.msg_bar.pushWarning(self.title, msg)`, as the group warning does | high, not executed | `Selection.NotSpatialWarningAsWritten` | `Selection.NotSpatialWarning` |

The state is unchanged either way, because the lookup happens before any
assignment. `Selection.Resolve` and the tool use the corrected warning.

## Left out

- Qt painting is not modelled: the elliptic clip region, `drawImage`, antialiasing, pen and brush. `Paint` returns the draw record instead: the lens square, which also bounds the outline, the offset and the raster.
- The renderer is not modelled: `QgsMapRendererParallelJob`, its map settings (destination CRS, device pixel ratio, transparent background) and the optional "retro" downscale and dithering. A raster is known only by the request it was rendered for. In retro mode the raster is scaled to a third of its size (tool/magnifiermap.py:119) but still drawn at the same offset (tool/magnifiermap.py:93), so the offset law of `Paint` does not describe the drawn picture in that mode.
- `Overlay.MagnifierMap.Finished`: the host only delivers completions of jobs that were started. That is why it requires `k < |jobs|`. A job completing twice is not excluded.
- `Geometry.LensDiameter`: the code divides in floating point and then truncates. The model divides exactly and then truncates, which can differ from the float result when a rounding error crosses an integer.
- The cursor is modelled as integer pixels. The code applies `int()` to the event's pixel point, and the model leaves that conversion out.
- The host's map canvas is left out. `setMapTool` calling `activate` and `deactivate`, and its `mapToolSet` signal, are not wired. `Plugin.MagnifierPlugin.OnClicked` only assigns the canvas tool. `OnMapToolSet`, `Activate` and `Deactivate` are separate events.
- Signals and slots are left out: the `_connect` table, `creatingImage` and `finishedImage`, and `updateCanvas` repaint requests.
- Host status surfaces are left out: message-bar `clearWidgets` and info messages, and the cursor shape. Warnings are returned as values.
- The layer tree belongs to the host. `index2node`, `findLayers`, node names, layer identity (a layer's id) and spatiality are inputs of the model. Which node an index resolves to is not modelled.
- `Config.CreateComboBox`: a new combo box selects its first item once an item is added, and has no selection when empty. This is Qt behaviour, stated here as an assumption.
- `tr()` translation is left out. Titles and warnings use their English source text. `format` is modelled for a single `{}` placeholder.
- `initGui`, `unload` and `classFactory` are left out: icons, menus, toolbar registration and widget layout. tool/translate.py is not part of this model.
