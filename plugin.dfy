/** The plugin entry point (__init__.py, class MagnifierPlugin): the checkable
    toolbar action that swaps the magnifier tool in and out of the canvas. */
module Plugin {
  import opened Common
  import opened Tool

  /** A map tool as the canvas holds it: the magnifier tool, or another one. */
  datatype MapToolRef = MagnifierToolRef | OtherTool(id: nat)

  class MagnifierPlugin {
    const maptool: MagnifierTool
    /** Whether the toolbar action is checked. */
    var actionChecked: bool
    /** The canvas's current map tool. */
    var canvasTool: Option<MapToolRef>
    /** The tool to go back to when the action is unchecked. */
    var previousTool: Option<MapToolRef>

    /** The state `initGui` leaves: an unchecked action, and the canvas's tool
        recorded as the previous one. */
    constructor (maptool: MagnifierTool, canvasTool: Option<MapToolRef>)
      ensures this.maptool == maptool && !actionChecked
      ensures this.canvasTool == canvasTool && previousTool == canvasTool
    {
      this.maptool := maptool;
      actionChecked := false;
      this.canvasTool := canvasTool;
      previousTool := canvasTool;
    }

    /** `on_Clicked`: `enabled` is the checked state the action has already
        toggled to when it emits `triggered`. Checking it installs the
        magnifier tool when the project has layers and unchecks it again
        otherwise; unchecking it puts the previously recorded tool back. */
    method OnClicked(enabled: bool, projectLayerCount: nat) returns (warning: Option<string>)
      modifies this
      ensures enabled && projectLayerCount == 0 ==>
        !actionChecked && canvasTool == old(canvasTool) && previousTool == old(previousTool)
        && warning == Some(MissingLayersText)
      ensures enabled && projectLayerCount > 0 ==>
        actionChecked && previousTool == old(canvasTool)
        && canvasTool == Some(MagnifierToolRef) && warning.None?
      ensures !enabled ==>
        !actionChecked && canvasTool == old(previousTool)
        && previousTool == old(previousTool) && warning.None?
    {
      actionChecked := enabled;  // a checkable action toggles before it emits `triggered(checked)`
      warning := None;
      if enabled {
        var ok;
        ok, warning := maptool.CanExecute(projectLayerCount);
        if !ok {
          actionChecked := false;
          return;
        }
        previousTool := canvasTool;
        canvasTool := Some(MagnifierToolRef);
        return;
      }
      canvasTool := previousTool;
    }

    /** `on_MapToolSet`: leaving the magnifier tool unchecks the action. */
    method OnMapToolSet(newTool: Option<MapToolRef>, oldTool: Option<MapToolRef>)
      modifies this
      ensures actionChecked == (old(actionChecked) && oldTool != Some(MagnifierToolRef))
      ensures canvasTool == old(canvasTool) && previousTool == old(previousTool)
    {
      if oldTool == Some(MagnifierToolRef) {
        actionChecked := false;
      }
    }
  }
}
