/** The configuration widget (tool/magnifierconfigwidget.py): a label with the
    active selection's name and two combo boxes, one per factor, whose handlers
    write the factors into the overlay. */
module Config {
  import opened Common
  import opened Text
  import opened Overlay

  datatype ComboItem = ComboItem(text: string, data: int)

  /** A combo box as the widget leaves it: its items, the selected position
      (-1 for none) and its tooltip. */
  datatype Combo = Combo(items: seq<ComboItem>, currentIndex: int, toolTip: string)

  const ZoomTitle := "Zoom factor ({})"
  const MagnifierTitle := "Magnifier factor ({})"

  /** The label of every value, in order; each reads back as its value. */
  function Labels(values: seq<int>): (ls: seq<string>)
    ensures |ls| == |values|
    ensures forall i :: 0 <= i < |values| ==>
      ls[i] == Label(values[i]) && IsLabel(ls[i]) && LabelValue(ls[i]) == values[i]
  {
    assert forall i :: 0 <= i < |values| ==>
      IsLabel(Label(values[i])) && LabelValue(Label(values[i])) == values[i] by {
      forall i | 0 <= i < |values| {
        LabelRoundTrip(values[i]);
      }
    }
    seq(|values|, i requires 0 <= i < |values| => Label(values[i]))
  }

  /** The tooltip of a combo box: the title with the labels, comma-joined, in
      place of its placeholder. */
  function ToolTip(titleFormat: string, values: seq<int>): (t: string)
    ensures titleFormat == ZoomTitle ==> t == "Zoom factor (" + Join(Labels(values), ',') + ")"
    ensures titleFormat == MagnifierTitle ==> t == "Magnifier factor (" + Join(Labels(values), ',') + ")"
  {
    if titleFormat == ZoomTitle then
      assert ZoomTitle == "Zoom factor (" + "{}" + ")";
      ToolTipListsValues("Zoom factor (", ")", values);
      FillIn(titleFormat, Join(Labels(values), ','))
    else if titleFormat == MagnifierTitle then
      assert MagnifierTitle == "Magnifier factor (" + "{}" + ")";
      ToolTipListsValues("Magnifier factor (", ")", values);
      FillIn(titleFormat, Join(Labels(values), ','))
    else
      FillIn(titleFormat, Join(Labels(values), ','))
  }

  /** `values.index(v)`: the first position holding `v`. */
  function IndexOf(values: seq<int>, v: int): (i: nat)
    requires v in values
    ensures i < |values| && values[i] == v
    ensures forall j :: 0 <= j < i ==> values[j] != v
  {
    if values[0] == v then 0 else 1 + IndexOf(values[1..], v)
  }

  /** A title whose first `{` opens its placeholder yields a tooltip made of
      the text before the placeholder, one label per value joined by commas,
      and the text after it; cut at the commas, the labels read back as the
      values. */
  lemma {:induction false} ToolTipListsValues(before: string, after: string, values: seq<int>)
    requires '{' !in before
    ensures FillIn(before + "{}" + after, Join(Labels(values), ',')) == before + Join(Labels(values), ',') + after
    ensures |values| > 0 ==>
      var pieces := Split(Join(Labels(values), ','), ',');
      && |pieces| == |values|
      && forall i :: 0 <= i < |values| ==> IsLabel(pieces[i]) && LabelValue(pieces[i]) == values[i]
  {
    var ls := Labels(values);
    FillInPlaceholder(before, after, Join(ls, ','));
    forall i | 0 <= i < |ls|
      ensures ',' !in ls[i]
    {
      assert ls[i] == IntToDecimal(values[i]) + "x";
    }
  }

  /** `createComboBox`: one item per value, labelled `f"{v}x"` and carrying `v`;
      the position of `currentVal` selected when it is one of the values, and
      otherwise the combo box's own default (its first item, or none). */
  method CreateComboBox(titleFormat: string, values: seq<int>, currentVal: int) returns (combo: Combo)
    ensures |combo.items| == |values|
    ensures forall i :: 0 <= i < |values| ==>
      combo.items[i].data == values[i] && combo.items[i].text == Label(values[i])
    ensures currentVal in values ==>
      && 0 <= combo.currentIndex < |values| && values[combo.currentIndex] == currentVal
      && forall j :: 0 <= j < combo.currentIndex ==> values[j] != currentVal
    ensures currentVal !in values ==> combo.currentIndex == if values == [] then -1 else 0
    ensures combo.toolTip == ToolTip(titleFormat, values)
  {
    var items: seq<ComboItem> := [];
    var current: int := -1;
    for k := 0 to |values|
      invariant |items| == k
      invariant forall i :: 0 <= i < k ==> items[i] == ComboItem(Label(values[i]), values[i])
      invariant current == if k == 0 then -1 else 0
    {
      items := items + [ComboItem(Label(values[k]), values[k])];
      if current == -1 {
        current := 0;  // a combo box selects the first item added to it
      }
    }
    if currentVal in values {
      current := IndexOf(values, currentVal);
    }
    var lbls := Labels(values);
    combo := Combo(items, current, FillIn(titleFormat, Join(lbls, ',')));
  }

  /** The effect of `on_ZoomValueChanged` on the overlay: an index inside the
      zoom values sets the zoom factor and starts a new render at that zoom;
      any other index changes nothing. */
  function ZoomChanged(zoomValues: seq<int>, index: int, s: OverlayState, canvas: Canvas): (r: OverlayState)
    ensures !(0 <= index < |zoomValues|) ==> r == s
    ensures 0 <= index < |zoomValues| ==> r == StartRender(s.(zoomFactor := zoomValues[index]), canvas)
    ensures 0 <= index < |zoomValues| ==>
      && r.zoomFactor == zoomValues[index]
      && r.layers == s.layers && r.pixelPoint == s.pixelPoint && r.magnifierFactor == s.magnifierFactor
      && (s.layers == [] ==> r.image == s.image && r.jobs == s.jobs)
      && (s.layers != [] ==>
            && r.image.None?
            && |r.jobs| == |s.jobs| + 1
            && r.jobs[|s.jobs|].outputWidth == canvas.width * zoomValues[index]
            && r.jobs[|s.jobs|].outputHeight == canvas.height * zoomValues[index])
  {
    if 0 <= index < |zoomValues| then StartRender(s.(zoomFactor := zoomValues[index]), canvas) else s
  }

  /** The effect of `on_MagnifierValueChanged` on the overlay: only the
      magnifier factor may change; no render is started. */
  function MagnifierChanged(magnifierValues: seq<int>, index: int, s: OverlayState): (r: OverlayState)
    ensures r.(magnifierFactor := s.magnifierFactor) == s
    ensures r.magnifierFactor == if 0 <= index < |magnifierValues| then magnifierValues[index] else s.magnifierFactor
  {
    if 0 <= index < |magnifierValues| then s.(magnifierFactor := magnifierValues[index]) else s
  }

  class MagnifierConfigWidget {
    const magnifierMap: MagnifierMap
    const zoomValues: seq<int>
    const magnifierValues: seq<int>
    const zoomCombo: Combo
    const magnifierCombo: Combo
    /** The text of the active-layer label. */
    var layerLabel: string
    /** Whether the widget is shown in the status bar. */
    var shown: bool

    constructor (magnifierMap: MagnifierMap, zoomValues: seq<int>, zoomValue: int,
                 magnifierValues: seq<int>, magnifierValue: int)
      ensures this.magnifierMap == magnifierMap
      ensures this.zoomValues == zoomValues && this.magnifierValues == magnifierValues
      ensures zoomCombo.toolTip == ToolTip(ZoomTitle, zoomValues)
      ensures magnifierCombo.toolTip == ToolTip(MagnifierTitle, magnifierValues)
      ensures zoomValue in zoomValues ==>
        0 <= zoomCombo.currentIndex < |zoomValues| && zoomValues[zoomCombo.currentIndex] == zoomValue
      ensures magnifierValue in magnifierValues ==>
        0 <= magnifierCombo.currentIndex < |magnifierValues| && magnifierValues[magnifierCombo.currentIndex] == magnifierValue
      ensures layerLabel == "" && !shown
    {
      this.magnifierMap := magnifierMap;
      this.zoomValues := zoomValues;
      this.magnifierValues := magnifierValues;
      layerLabel := "";
      shown := false;
      var comboZoom := CreateComboBox(ZoomTitle, zoomValues, zoomValue);
      var comboMagnifier := CreateComboBox(MagnifierTitle, magnifierValues, magnifierValue);
      zoomCombo := comboZoom;
      magnifierCombo := comboMagnifier;
    }

    method OnZoomValueChanged(index: int, canvas: Canvas)
      modifies magnifierMap
      ensures magnifierMap.State() == ZoomChanged(zoomValues, index, old(magnifierMap.State()), canvas)
    {
      if 0 <= index < |zoomValues| {
        magnifierMap.zoomFactor := zoomValues[index];
        magnifierMap.SetImage(canvas);
      }
    }

    method OnMagnifierValueChanged(index: int)
      modifies magnifierMap
      ensures magnifierMap.State() == MagnifierChanged(magnifierValues, index, old(magnifierMap.State()))
    {
      if 0 <= index < |magnifierValues| {
        magnifierMap.magnifierFactor := magnifierValues[index];
      }
    }
  }
}
