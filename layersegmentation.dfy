/**
 * The layer-segmentation marker module (BScanLayerSegmentation): a store of
 * segmentation lines, one entry per B-scan holding one line of samples per
 * line type, and the editing state around it: the edit method (pen, spline
 * or none), the line type being edited, the visibility of the lines and of
 * the thickness map, and keyboard dispatch.
 *
 * Calls into the edit methods (segLineChanged) and Qt signals are recorded
 * in an event log. The B-scan the marker manager shows (getActBScanNr) and
 * the series it holds are passed in.
 */
module LayerSegmentation {
  import opened Wrappers
  import opened OctData
  import opened MarkerBase
  import opened PropertyTree

  // Qt key codes
  const KEY_0 := 0x30
  const KEY_9 := 0x39
  const KEY_E := 0x45
  const KEY_Q := 0x51
  const KEY_T := 0x54
  const KEY_W := 0x57

  datatype SegMethod = NoMethod | Pen | Spline

  /** The lines of one B-scan and whether they were copied from the series. */
  datatype BScanSegData = BScanSegData(lines: seq<SegLine>, filled: bool)

  /** A segmentation line handed to an edit method: the B-scan and the line type. */
  datatype LineRef = LineRef(bscan: nat, lineType: nat)

  datatype Colormap = HSV | Yellow

  datatype LayerSegEvent =
    | EditorLine(editor: SegMethod, line: Option<LineRef>)
    | SegLineIdChanged(lineType: nat)
    | SegMethodChanged
    | SegLineVisibleChanged(visible: bool)
    | RequestFullUpdate
    | RequestSloOverlayUpdate
    | LegendColormap(colormap: Option<Colormap>)

  /** What the thickness-map computation needs from outside: the shown B-scan, the distance map and the image it yields. */
  datatype ThicknessInputs = ThicknessInputs(bscanPresent: bool, distMapAvailable: bool, image: seq<real>)

  /** The editing state, apart from the line store. */
  datatype EditView = EditView(
    editMethod: SegMethod,
    lineType: nat,
    showLines: bool,
    showThickness: bool,
    thicknessImage: seq<real>,
    events: seq<LayerSegEvent>)

  // ---------------------------------------------------------------------------
  // The line store

  /** std::vector::resize: truncate, or extend with `fill`. */
  function Resize(s: SegLine, n: nat, fill: Sample): (r: SegLine)
    ensures |r| == n
    ensures forall i :: 0 <= i < n && i < |s| ==> r[i] == s[i]
    ensures forall i :: |s| <= i < n ==> r[i] == fill
  {
    if n <= |s| then s[..n] else s + seq(n - |s|, _ => fill)
  }

  /** The entry of a B-scan after resetMarkers: every line resized from empty, so value-initialised. */
  function BlankScan(numTypes: nat, width: nat): (r: BScanSegData)
    ensures |r.lines| == numTypes && !r.filled
    ensures forall t :: 0 <= t < numTypes ==> |r.lines[t]| == width
    ensures forall t, i :: 0 <= t < numTypes && 0 <= i < width ==> r.lines[t][i] == Defined(0.0)
  {
    BScanSegData(seq(numTypes, _ => Resize([], width, Defined(0.0))), false)
  }

  /** The lines after resetMarkers: one blank entry per B-scan, as wide as that B-scan. */
  function ResetLines(s: Series, numTypes: nat): (r: seq<BScanSegData>)
    requires AllPresent(s)
    ensures |r| == |s.bscans|
    ensures forall i :: 0 <= i < |r| ==> r[i] == BlankScan(numTypes, s.bscans[i].value.width)
  {
    seq(|s.bscans|, i requires 0 <= i < |s.bscans| => BlankScan(numTypes, s.bscans[i].value.width))
  }

  /** A line copied from the series, made as wide as the B-scan: cut, or padded with NaN. */
  function Padded(src: SegLine, width: nat): (r: SegLine)
    ensures |r| == width
    ensures forall i :: 0 <= i < width && i < |src| ==> r[i] == src[i]
    ensures forall i :: |src| <= i < width ==> r[i] == Undefined
  {
    Resize(src, width, Undefined)
  }

  function PaddedLines(src: seq<SegLine>, width: nat): (r: seq<SegLine>)
    ensures |r| == |src|
    ensures forall t :: 0 <= t < |src| ==> r[t] == Padded(src[t], width)
  {
    seq(|src|, t requires 0 <= t < |src| => Padded(src[t], width))
  }

  /** The lines after copySegLinesFromOctData(n): entry n taken from the B-scan if it exists. */
  function CopiedLines(lines: seq<BScanSegData>, series: Option<Series>, n: nat): (r: seq<BScanSegData>)
    requires GetBScan(series, n).Some? ==> n < |lines|
    ensures |r| == |lines|
    ensures forall i :: 0 <= i < |lines| && i != n ==> r[i] == lines[i]
    ensures GetBScan(series, n).None? ==> r == lines
    ensures GetBScan(series, n).Some? ==>
      var b := GetBScan(series, n).value;
      r[n].filled && |r[n].lines| == |b.segmentLines| &&
      forall t :: 0 <= t < |b.segmentLines| ==>
        |r[n].lines[t]| == b.width &&
        (forall i :: 0 <= i < b.width && i < |b.segmentLines[t]| ==> r[n].lines[t][i] == b.segmentLines[t][i]) &&
        (forall i :: |b.segmentLines[t]| <= i < b.width ==> r[n].lines[t][i] == Undefined)
  {
    match GetBScan(series, n)
    case None => lines
    case Some(b) => lines[n := BScanSegData(PaddedLines(b.segmentLines, b.width), true)]
  }

  /** The lines after copySegLinesFromOctDataWhenNotFilled(n). */
  function CopiedWhenNotFilled(lines: seq<BScanSegData>, series: Option<Series>, n: nat): (r: seq<BScanSegData>)
    ensures |r| == |lines|
    ensures n >= |lines| || lines[n].filled ==> r == lines
  {
    if n < |lines| && !lines[n].filled then CopiedLines(lines, series, n) else lines
  }

  /** Copying when not filled is idempotent: a copied entry is filled, an entry with no B-scan stays as it is. */
  lemma CopiedWhenNotFilledTwice(lines: seq<BScanSegData>, series: Option<Series>, n: nat)
    ensures CopiedWhenNotFilled(CopiedWhenNotFilled(lines, series, n), series, n) == CopiedWhenNotFilled(lines, series, n)
  {
  }

  /** The B-scan widths the series holds, from its present B-scans. */
  predicate IsMaxWidth(series: Option<Series>, w: nat) {
    (series.Some? ==> forall i :: 0 <= i < |series.value.bscans| && series.value.bscans[i].Some? ==> series.value.bscans[i].value.width <= w) &&
    (w == 0 || (series.Some? && exists i :: 0 <= i < |series.value.bscans| && series.value.bscans[i].Some? && series.value.bscans[i].value.width == w))
  }

  /** getMaxBscanWidth: the largest width of a present B-scan, 0 without a series. */
  method GetMaxBscanWidth(series: Option<Series>) returns (maxBscanWidth: nat)
    ensures IsMaxWidth(series, maxBscanWidth)
  {
    if series.None? {
      return 0;
    }
    var bscans := series.value.bscans;
    maxBscanWidth := 0;
    for i := 0 to |bscans|
      invariant forall j :: 0 <= j < i && bscans[j].Some? ==> bscans[j].value.width <= maxBscanWidth
      invariant maxBscanWidth == 0 || exists j :: 0 <= j < i && bscans[j].Some? && bscans[j].value.width == maxBscanWidth
    {
      if bscans[i].Some? {
        if maxBscanWidth < bscans[i].value.width {
          maxBscanWidth := bscans[i].value.width;
        }
      }
    }
  }

  /**
   * The padding loop of copySegLinesFromOctData: resize (new positions
   * value-initialised), then overwrite the positions past the old size with NaN.
   */
  method PadSegLine(src: SegLine, bscanWidth: nat) returns (segline: SegLine)
    ensures segline == Padded(src, bscanWidth)
  {
    var seglineSize := |src|;
    segline := Resize(src, bscanWidth, Defined(0.0));
    var i := seglineSize;
    while i < bscanWidth
      invariant |segline| == bscanWidth
      invariant forall j :: 0 <= j < bscanWidth && j < seglineSize ==> segline[j] == src[j]
      invariant forall j :: seglineSize <= j < i && j < bscanWidth ==> segline[j] == Undefined
    {
      segline := segline[i := Undefined];
      i := i + 1;
    }
  }

  /** The body of copySegLinesFromOctData for one entry: take the B-scan's lines, mark filled, fit every line to the width. */
  method CopyScan(entry: BScanSegData, b: BScan, numTypes: nat) returns (segData: BScanSegData)
    requires |b.segmentLines| == numTypes
    ensures segData == BScanSegData(PaddedLines(b.segmentLines, b.width), true)
  {
    segData := entry;
    segData := segData.(lines := b.segmentLines);
    segData := segData.(filled := true);

    var bscanWidth := b.width;
    for t := 0 to numTypes
      invariant |segData.lines| == numTypes && segData.filled
      invariant forall u :: 0 <= u < t ==> segData.lines[u] == Padded(b.segmentLines[u], bscanWidth)
      invariant forall u :: t <= u < numTypes ==> segData.lines[u] == b.segmentLines[u]
    {
      var segline := PadSegLine(segData.lines[t], bscanWidth);
      segData := segData.(lines := segData.lines[t := segline]);
    }
  }

  // ---------------------------------------------------------------------------
  // The editing state machine

  function SetSegMethodSpec(v: EditView, m: SegMethod, actBScan: nat): (r: EditView)
    ensures r.editMethod == m
    ensures v.editMethod == m ==> r == v
    ensures r.lineType == v.lineType && r.showLines == v.showLines
    ensures r.showThickness == v.showThickness && r.thicknessImage == v.thicknessImage
  {
    if v.editMethod == m then v
    else
      var released := if v.editMethod != NoMethod then [EditorLine(v.editMethod, None)] else [];
      var attached := if m != NoMethod then [EditorLine(m, Some(LineRef(actBScan, v.lineType)))] else [];
      v.(editMethod := m, events := v.events + released + attached + [SegMethodChanged, RequestFullUpdate])
  }

  function SetActEditLinetypeSpec(v: EditView, t: nat, actBScan: nat): (r: EditView)
    ensures r.lineType == t
    ensures v.lineType == t ==> r == v
    ensures r.editMethod == v.editMethod && r.showLines == v.showLines
    ensures r.showThickness == v.showThickness && r.thicknessImage == v.thicknessImage
  {
    if t == v.lineType then v
    else
      var notified := if v.editMethod != NoMethod then [EditorLine(v.editMethod, Some(LineRef(actBScan, t))), SegLineIdChanged(t)] else [];
      v.(lineType := t, events := v.events + notified + [RequestFullUpdate])
  }

  function ChangeSeglineIdSpec(v: EditView, numTypes: nat, index: nat, actBScan: nat): (r: EditView)
    ensures index < numTypes ==> r.lineType == index
    ensures index >= numTypes ==> r == v
    ensures r.editMethod == v.editMethod && r.showLines == v.showLines
    ensures r.showThickness == v.showThickness && r.thicknessImage == v.thicknessImage
  {
    if index < numTypes then SetActEditLinetypeSpec(v, index, actBScan) else v
  }

  function SetLinesVisibleSpec(v: EditView, visible: bool): (r: EditView)
    ensures r.showLines == visible
    ensures v.showLines == visible ==> r == v
    ensures r.editMethod == v.editMethod && r.lineType == v.lineType
    ensures r.showThickness == v.showThickness && r.thicknessImage == v.thicknessImage
  {
    if visible != v.showLines then v.(showLines := visible, events := v.events + [SegLineVisibleChanged(visible), RequestFullUpdate])
    else v
  }

  function SetThicknessVisibleSpec(v: EditView, visible: bool): (r: EditView)
    ensures r.showThickness == visible
    ensures v.showThickness == visible ==> r == v
    ensures r.editMethod == v.editMethod && r.lineType == v.lineType
    ensures r.showLines == v.showLines && r.thicknessImage == v.thicknessImage
  {
    if visible != v.showThickness then v.(showThickness := visible, events := v.events + [RequestSloOverlayUpdate])
    else v
  }

  /** generateThicknessmap: without a colormap, a shown B-scan or a distance map the image and its visibility stay. */
  function GenerateThicknessmapSpec(v: EditView, colormap: Option<Colormap>, inputs: ThicknessInputs): (r: EditView)
    ensures colormap.None? || !inputs.bscanPresent || !inputs.distMapAvailable ==>
              r.thicknessImage == v.thicknessImage && r.showThickness == v.showThickness
    ensures colormap.Some? && inputs.bscanPresent && inputs.distMapAvailable ==>
              r.thicknessImage == inputs.image && r.showThickness
    ensures r.editMethod == v.editMethod && r.lineType == v.lineType && r.showLines == v.showLines
    ensures |r.events| > |v.events| && r.events[|r.events| - 1] == LegendColormap(colormap)
  {
    var drawn :=
      if colormap.Some? && inputs.bscanPresent && inputs.distMapAvailable then
        v.(thicknessImage := inputs.image, showThickness := true, events := v.events + [RequestSloOverlayUpdate])
      else v;
    drawn.(events := drawn.events + [LegendColormap(colormap)])
  }

  predicate IsDigitKey(key: int) {
    KEY_0 <= key <= KEY_9
  }

  /** keyPressEvent in a release build: the new state and whether the key was handled. */
  function KeyPressSpec(v: EditView, numTypes: nat, key: int, actBScan: nat, colormap: Option<Colormap>,
                        inputs: ThicknessInputs, editorHandles: bool): (r: (EditView, bool))
    ensures IsDigitKey(key) ==> r.0 == ChangeSeglineIdSpec(v, numTypes, key - KEY_0, actBScan)
    ensures key == KEY_Q ==> r.1 && r.0 == SetSegMethodSpec(v, Pen, actBScan) && r.0.editMethod == Pen
    ensures key == KEY_W ==> r.1 && r.0 == SetSegMethodSpec(v, Spline, actBScan) && r.0.editMethod == Spline
    ensures key == KEY_E ==> r.1 && r.0 == SetLinesVisibleSpec(v, !v.showLines) && r.0.showLines == !v.showLines
    ensures key == KEY_T ==> r.1 && r.0 == GenerateThicknessmapSpec(v, colormap, inputs)
    ensures !(key in {KEY_Q, KEY_W, KEY_E, KEY_T}) ==> r.1 == (v.editMethod != NoMethod && editorHandles)
    ensures !IsDigitKey(key) && !(key in {KEY_Q, KEY_W, KEY_E, KEY_T}) ==> r.0 == v
  {
    if IsDigitKey(key) then
      var next := ChangeSeglineIdSpec(v, numTypes, key - KEY_0, actBScan);
      (next, next.editMethod != NoMethod && editorHandles)
    else if key == KEY_Q then (SetSegMethodSpec(v, Pen, actBScan), true)
    else if key == KEY_W then (SetSegMethodSpec(v, Spline, actBScan), true)
    else if key == KEY_E then (SetLinesVisibleSpec(v, !v.showLines), true)
    else if key == KEY_T then (GenerateThicknessmapSpec(v, colormap, inputs), true)
    else (v, v.editMethod != NoMethod && editorHandles)
  }

  /** Pressing E twice shows the lines exactly as before, and changes nothing else but the log. */
  lemma KeyETwice(v: EditView, numTypes: nat, actBScan: nat, colormap: Option<Colormap>, inputs: ThicknessInputs, editorHandles: bool)
    ensures var once := KeyPressSpec(v, numTypes, KEY_E, actBScan, colormap, inputs, editorHandles).0;
      var twice := KeyPressSpec(once, numTypes, KEY_E, actBScan, colormap, inputs, editorHandles).0;
      twice.(events := v.events) == v
  {
  }

  /** The calls and signals of copySegLinesFromOctData(n): the editor lets go of the shown line, and gets it back once copied. */
  function CopyEvents(v: EditView, present: bool, n: nat, actBScan: nat): (r: seq<LayerSegEvent>)
    ensures n != actBScan ==> r == []
  {
    var released := if v.editMethod != NoMethod && n == actBScan then [EditorLine(v.editMethod, None)] else [];
    if !present || n != actBScan then released
    else
      released + (if v.editMethod != NoMethod then [EditorLine(v.editMethod, Some(LineRef(n, v.lineType)))] else []) + [RequestFullUpdate]
  }

  // ---------------------------------------------------------------------------
  // The marker module

  class LayerSegmentationMarker {
    const numTypes: nat
    /** The state this module shares with every marker module. */
    const base: BscanMarker
    var lines: seq<BScanSegData>
    var actEditMethod: SegMethod
    var actEditType: nat
    var showSegmentationlines: bool
    var showThicknessmap: bool
    var thicknessMapImage: seq<real>
    var colormap: Option<Colormap>
    var events: seq<LayerSegEvent>

    predicate Valid()
      reads this
    {
      actEditType < numTypes &&
      forall i :: 0 <= i < |lines| ==> |lines[i].lines| == numTypes
    }

    function View(): EditView
      reads this
    {
      EditView(actEditMethod, actEditType, showSegmentationlines, showThicknessmap, thicknessMapImage, events)
    }

    /** A new module starts with no lines and selects the pen (the manager shows B-scan 0 then). */
    constructor(numTypes: nat)
      requires numTypes > 0
      ensures Valid() && fresh(base)
      ensures this.numTypes == numTypes && lines == [] && colormap.None?
      ensures actEditMethod == Pen && actEditType == 0
      ensures showSegmentationlines && !showThicknessmap && thicknessMapImage == []
      ensures base.markerId == "LayerSegmentation" && !base.isActivated
      ensures base.undoList == [] && base.redoList == []
      ensures base.overridesLoadState && base.overridesNewSeriesLoaded
    {
      this.numTypes := numTypes;
      base := new BscanMarker("LayerSegmentation", "Layer Segmentation", true, true);
      lines := [];
      actEditMethod := NoMethod;
      actEditType := 0;
      showSegmentationlines := true;
      showThicknessmap := false;
      thicknessMapImage := [];
      colormap := None;
      events := [];
      new;
      SetSegMethod(Pen, 0);
    }

    function GetSegMethod(): (m: SegMethod)
      reads this
      ensures m == View().editMethod
    {
      actEditMethod
    }

    method SetSegMethod(m: SegMethod, actBScan: nat)
      requires Valid()
      modifies this
      ensures Valid()
      ensures View() == SetSegMethodSpec(old(View()), m, actBScan)
      ensures GetSegMethod() == m
      ensures lines == old(lines) && colormap == old(colormap)
    {
      if GetSegMethod() == m {
        return;
      }
      if actEditMethod != NoMethod {
        events := events + [EditorLine(actEditMethod, None)];
      }
      actEditMethod := m;
      if actEditMethod != NoMethod {
        events := events + [EditorLine(actEditMethod, Some(LineRef(actBScan, actEditType)))];
      }
      events := events + [SegMethodChanged];
      events := events + [RequestFullUpdate];
    }

    method SetActEditLinetype(t: nat, actBScan: nat)
      requires Valid() && t < numTypes
      modifies this
      ensures Valid()
      ensures View() == SetActEditLinetypeSpec(old(View()), t, actBScan)
      ensures lines == old(lines) && colormap == old(colormap)
    {
      if t == actEditType {
        return;
      }
      actEditType := t;
      if actEditMethod != NoMethod {
        events := events + [EditorLine(actEditMethod, Some(LineRef(actBScan, actEditType)))];
        events := events + [SegLineIdChanged(t)];
      }
      events := events + [RequestFullUpdate];
    }

    method ChangeSeglineId(index: nat, actBScan: nat)
      requires Valid()
      modifies this
      ensures Valid()
      ensures View() == ChangeSeglineIdSpec(old(View()), numTypes, index, actBScan)
      ensures lines == old(lines) && colormap == old(colormap)
    {
      if index < numTypes {
        SetActEditLinetype(index, actBScan);
      }
    }

    method SetSegmentationLinesVisible(visible: bool)
      requires Valid()
      modifies this
      ensures Valid()
      ensures View() == SetLinesVisibleSpec(old(View()), visible)
      ensures lines == old(lines) && colormap == old(colormap)
    {
      if visible != showSegmentationlines {
        showSegmentationlines := visible;
        events := events + [SegLineVisibleChanged(visible)];
        events := events + [RequestFullUpdate];
      }
    }

    method SetThicknessmapVisible(visible: bool)
      requires Valid()
      modifies this
      ensures Valid()
      ensures View() == SetThicknessVisibleSpec(old(View()), visible)
      ensures lines == old(lines) && colormap == old(colormap)
    {
      if visible != showThicknessmap {
        showThicknessmap := visible;
        events := events + [RequestSloOverlayUpdate];
      }
    }

    method GenerateThicknessmap(inputs: ThicknessInputs)
      requires Valid()
      modifies this
      ensures Valid()
      ensures View() == GenerateThicknessmapSpec(old(View()), colormap, inputs)
      ensures lines == old(lines) && colormap == old(colormap)
    {
      if colormap.Some? {
        if inputs.bscanPresent && inputs.distMapAvailable {
          thicknessMapImage := inputs.image;
          showThicknessmap := true;
          events := events + [RequestSloOverlayUpdate];
        }
      }
      events := events + [LegendColormap(colormap)];
    }

    method KeyPressEvent(key: int, actBScan: nat, inputs: ThicknessInputs, editorHandles: bool) returns (handled: bool)
      requires Valid()
      modifies this
      ensures Valid()
      ensures (View(), handled) == KeyPressSpec(old(View()), numTypes, key, actBScan, colormap, inputs, editorHandles)
      ensures lines == old(lines) && colormap == old(colormap)
    {
      if KEY_0 <= key <= KEY_9 {
        ChangeSeglineId(key - KEY_0, actBScan);
      } else {
        if key == KEY_Q {
          SetSegMethod(Pen, actBScan);
          return true;
        } else if key == KEY_W {
          SetSegMethod(Spline, actBScan);
          return true;
        } else if key == KEY_E {
          SetSegmentationLinesVisible(!showSegmentationlines);
          return true;
        } else if key == KEY_T {
          GenerateThicknessmap(inputs);
          return true;
        }
      }
      if actEditMethod != NoMethod {
        return editorHandles;
      }
      return false;
    }

    /** resetMarkers: without a series nothing changes; otherwise one blank entry per B-scan. */
    method ResetMarkers(series: Option<Series>)
      requires Valid()
      requires series.Some? ==> AllPresent(series.value)
      modifies this
      ensures Valid()
      ensures series.None? ==> lines == old(lines)
      ensures series.Some? ==> lines == ResetLines(series.value, numTypes)
      ensures View() == old(View()) && colormap == old(colormap)
    {
      if series.None? {
        return;
      }
      var s := series.value;
      var numBscans := |s.bscans|;
      lines := [];
      lines := seq(numBscans, _ => BScanSegData(seq(numTypes, _ => []), false));
      for i := 0 to numBscans
        invariant View() == old(View()) && colormap == old(colormap)
        invariant |lines| == numBscans
        invariant forall j :: 0 <= j < i ==> lines[j] == BlankScan(numTypes, s.bscans[j].value.width)
        invariant forall j :: i <= j < numBscans ==> lines[j] == BScanSegData(seq(numTypes, _ => []), false)
      {
        var bscanWidth := s.bscans[i].value.width;
        var segData := lines[i];
        for t := 0 to numTypes
          invariant |segData.lines| == numTypes && !segData.filled
          invariant forall u :: 0 <= u < t ==> segData.lines[u] == Resize([], bscanWidth, Defined(0.0))
          invariant forall u :: t <= u < numTypes ==> segData.lines[u] == []
        {
          segData := segData.(lines := segData.lines[t := Resize(segData.lines[t], bscanWidth, Defined(0.0))]);
        }
        assert segData == BlankScan(numTypes, bscanWidth);
        lines := lines[i := segData];
      }
    }

    /** copySegLinesFromOctData(n): take B-scan n's lines from the series, cut or NaN-padded to its width. */
    method CopySegLinesFromOctData(n: nat, series: Option<Series>, actBScan: nat)
      requires Valid() && HasLineTypes(series, numTypes)
      requires GetBScan(series, n).Some? ==> n < |lines|
      modifies this
      ensures Valid()
      ensures lines == CopiedLines(old(lines), series, n)
      ensures View() == old(View()).(events := old(events) + CopyEvents(old(View()), GetBScan(series, n).Some?, n, actBScan))
      ensures colormap == old(colormap)
    {
      if actEditMethod != NoMethod && n == actBScan {
        events := events + [EditorLine(actEditMethod, None)];
      }
      var bscan := GetBScan(series, n);
      if bscan.None? {
        return;
      }
      var segData := CopyScan(lines[n], bscan.value, numTypes);
      lines := lines[n := segData];

      if n == actBScan {
        if actEditMethod != NoMethod {
          events := events + [EditorLine(actEditMethod, Some(LineRef(n, actEditType)))];
        }
        events := events + [RequestFullUpdate];
      }
    }

    method CopySegLinesFromOctDataWhenNotFilled(n: nat, series: Option<Series>, actBScan: nat)
      requires Valid() && HasLineTypes(series, numTypes)
      modifies this
      ensures Valid()
      ensures lines == CopiedWhenNotFilled(old(lines), series, n)
      ensures var copied := n < |old(lines)| && !old(lines)[n].filled;
        View() == old(View()).(events := old(events) + (if copied then CopyEvents(old(View()), GetBScan(series, n).Some?, n, actBScan) else []))
      ensures colormap == old(colormap)
    {
      if n < |lines| {
        var segData := lines[n];
        if !segData.filled {
          CopySegLinesFromOctData(n, series, actBScan);
        }
      }
    }

    /**
     * setActBScan: an active module fills the shown B-scan's lines on first
     * view; the edit method is then handed the line being edited. The
     * source reads lines[bscan] without a bounds check, so the B-scan must
     * exist in the store.
     */
    method SetActBScan(bscan: nat, series: Option<Series>)
      requires Valid() && HasLineTypes(series, numTypes)
      requires bscan < |lines|
      modifies this
      ensures Valid()
      ensures lines == if base.isActivated then CopiedWhenNotFilled(old(lines), series, bscan) else old(lines)
      ensures View() == old(View()).(events := old(events) +
        (if base.isActivated && !old(lines)[bscan].filled
         then CopyEvents(old(View()), GetBScan(series, bscan).Some?, bscan, bscan)
         else []) +
        (if old(actEditMethod) != NoMethod
         then [EditorLine(old(actEditMethod), Some(LineRef(bscan, old(actEditType))))]
         else []))
      ensures colormap == old(colormap)
    {
      if base.isActivated {
        CopySegLinesFromOctDataWhenNotFilled(bscan, series, bscan);
      }
      if actEditMethod != NoMethod {
        events := events + [EditorLine(actEditMethod, Some(LineRef(bscan, actEditType)))];
      }
    }

    /**
     * newSeriesLoaded: drop the thickness image and reset the lines. It does
     * not call the base class, so the undo and redo stacks are kept.
     */
    method NewSeriesLoaded(series: Option<Series>, markerTree: PTree)
      requires Valid()
      requires series.Some? ==> AllPresent(series.value)
      modifies this
      ensures Valid()
      ensures series.None? ==> lines == old(lines)
      ensures series.Some? ==> lines == ResetLines(series.value, numTypes)
      ensures View() == old(View()).(thicknessImage := [])
      ensures base.undoList == old(base.undoList) && base.redoList == old(base.redoList)
    {
      thicknessMapImage := [];
      ResetMarkers(series);
    }
  }
}
