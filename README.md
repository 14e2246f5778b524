# OCT-Marker core, modelled in Dafny

OCT-Marker is a Qt application for annotating optical coherence tomography
(OCT) scans. A series is a stack of B-scans (cross-sectional images) taken
next to a scanning-laser-ophthalmoscope (SLO) fundus image. Marker modules
annotate the B-scans: interval markers label ranges of A-scans, and layer
segmentation draws one line per retinal layer type. A marker manager holds
the shown series, the B-scan in view and the active B-scan and SLO marker
modules. It forwards undo and redo requests and the "changed since last save"
state.

This project models the following parts of that core:

- `PropertyTree` (`ptree.dfy`): the boost property tree the marker files are
  stored in. A node is a data string plus an ordered list of keyed children,
  and a key may repeat. The module models first-match lookup, `erase` and
  `add`.
- `Decimal` (`decimal.dfy`): decimal conversion between 32-bit integers and
  strings, as the tree stores numbers.
- `BScanIntervalPTree` (`intervalptree.dfy`, `intervalptree_lemmas.dfy`):
  saving interval markers into a property tree and loading them back,
  including the legacy `Quality` key. The main result is the round trip:
  parsing a saved tree replays exactly the stored markers.
- `OctData` (`octdata.dfy`): series, B-scans and segmentation lines.
- `MarkerBase` (`markerbase.dfy`): the state every B-scan marker module
  shares (activation, undo and redo stacks) and its default handlers.
- `LayerSegmentation` (`layersegmentation.dfy`): the layer-segmentation
  module. It holds the line store, copies lines from the series with
  padding, and tracks the edit method, the line type being edited, the
  visibility flags and keyboard dispatch.
- `ProgramOptionsType` (`programoptions.dfy`): the boolean, integer and
  string program options. The model covers their value, default and
  variant conversions, and which change signals are emitted.
- `Point2D` (`point2d.dfy`): the 2-D point template for integer points.
- `Conture2D` (`conture2d.dfy`): a contour of points joined by lines. Its
  invariant is that every line is listed at both of its endpoints.
- `OctMarkerManager` (`markermanager.dfy`): the marker manager. It covers
  choosing B-scans, selecting B-scan and SLO marker modules, showing a
  series, loading marker state, and undo/redo forwarding. Its invariant is
  that exactly the selected module is activated.

Qt signals are modelled as append-only event logs on the object that emits
them. Pointers to modules are object references, and an absent module is
`null`.

## Model

| member | source | states |
|---|---|---|
| PropertyTree.Find | src/markermodules/bscanintervalmarker/bscanintervalptree.cpp:37-39 | get_child_optional finds nothing exactly when no child has the key; otherwise it yields the first child under the key |
| PropertyTree.Without | src/markermodules/bscanintervalmarker/bscanintervalptree.cpp:85 | erase keeps only children whose key is not removed, never adding any |
| PropertyTree.FindAppend | src/markermodules/bscanintervalmarker/bscanintervalptree.cpp:37 | lookup in a concatenation finds the first part's child if there is one, else the second part's |
| PropertyTree.WithoutAppend | src/markermodules/bscanintervalmarker/bscanintervalptree.cpp:85 | erase distributes over concatenation |
| PropertyTree.WithoutWithout | src/markermodules/bscanintervalmarker/bscanintervalptree.cpp:85 | erasing two key sets in turn equals erasing their union |
| PropertyTree.WithoutNoneOf | src/markermodules/bscanintervalmarker/bscanintervalptree.cpp:175 | erasing keys that do not occur leaves the children unchanged |
| PropertyTree.WithoutAllOf | src/markermodules/bscanintervalmarker/bscanintervalptree.cpp:85 | erasing every key that occurs leaves no children |
| PropertyTree.FindWithout | src/markermodules/bscanintervalmarker/bscanintervalptree.cpp:85-86 | after erase nothing is found under an erased key, and other keys are found as before |
| PropertyTree.FindFirst | src/markermodules/bscanintervalmarker/bscanintervalptree.cpp:37 | the first child under a key is the one found |
| PropertyTree.WithoutKeysIn | src/markermodules/bscanintervalmarker/bscanintervalptree.cpp:85 | erase introduces no new key |
| PropertyTree.ReplaceKeysTwice | src/markermodules/bscanintervalmarker/bscanintervalptree.cpp:85-86 | erasing keys and then appending children under those keys gives the same children when done twice |
| Decimal.DigitChar | src/markermodules/bscanintervalmarker/bscanintervalptree.cpp:107 | a digit below ten becomes the character with that digit value |
| Decimal.ParseInt | src/markermodules/bscanintervalmarker/bscanintervalptree.cpp:51-63 | get_value<int> accepts exactly an optional `+` or `-` followed by digits whose value fits a 32-bit int, and yields that value (negated after `-`); anything else fails |
| Decimal.NatToStringDigits | src/markermodules/bscanintervalmarker/bscanintervalptree.cpp:107 | lexical_cast of a natural number yields only digits, and their value is the number |
| Decimal.ParseIntToString | src/markermodules/bscanintervalmarker/bscanintervalptree.cpp:121-122 | reading back an int that was written gives the same int |
| Decimal.ParseNatToString | src/markermodules/bscanintervalmarker/bscanintervalptree.cpp:107 | reading back a B-scan index written with lexical_cast gives the index |
| BScanIntervalPTree.FillPTreeMarkerCollection | src/markermodules/bscanintervalmarker/bscanintervalptree.cpp:83-129 | the loops build exactly the collection subtree of FillCollection: the old key is erased and one BScan node per scan with a defined marker is appended, holding one Intervall per defined interval |
| BScanIntervalPTree.FillPTree | src/markermodules/bscanintervalmarker/bscanintervalptree.cpp:163-176 | fills every defined collection in registry order, then erases the legacy Quality key |
| BScanIntervalPTree.ParseBScanIntervalls | src/markermodules/bscanintervalmarker/bscanintervalptree.cpp:55-76 | the interval loop issues the setMarker calls of RunIntervalls; it returns normally exactly when no Start/End/Class lookup failed, and a failure is reported as the thrown error |
| BScanIntervalPTree.ParsePTreeMarkerCollection | src/markermodules/bscanintervalmarker/bscanintervalptree.cpp:35-80 | the BScan loop matches ParseCollection, and returns true whenever it does not throw |
| BScanIntervalPTree.ParsePTree | src/markermodules/bscanintervalmarker/bscanintervalptree.cpp:133-161 | parses every registered collection, then the legacy Quality key into signalQuality; it returns true whenever it does not throw |
| BScanIntervalPTreeLemmas.BScanChildrenAreDefinedScans | src/markermodules/bscanintervalmarker/bscanintervalptree.cpp:88-124 | the BScan nodes written are, in ascending order, exactly the scans holding a defined marker, each with its ID and its Intervall nodes |
| BScanIntervalPTreeLemmas.FillRegistryShape | src/markermodules/bscanintervalmarker/bscanintervalptree.cpp:163-171 | after filling, the tree holds its old children without the collection keys, followed by one node per collection in registry order |
| BScanIntervalPTreeLemmas.FillPTreeShape | src/markermodules/bscanintervalmarker/bscanintervalptree.cpp:163-176 | fillPTree keeps the other children in order, drops the collection and Quality keys, and appends the collections |
| BScanIntervalPTreeLemmas.FillPTreeIdempotent | src/markermodules/bscanintervalmarker/bscanintervalptree.cpp:163-176 | saving twice yields the same tree as saving once |
| BScanIntervalPTreeLemmas.FillPTreeDropsLegacyKey | src/markermodules/bscanintervalmarker/bscanintervalptree.cpp:175 | a saved tree has no Quality child |
| BScanIntervalPTreeLemmas.ParseMissingCollection | src/markermodules/bscanintervalmarker/bscanintervalptree.cpp:37-39 | an absent collection node changes nothing and is not an error |
| BScanIntervalPTreeLemmas.ParseBScanBadId | src/markermodules/bscanintervalmarker/bscanintervalptree.cpp:48-53 | a BScan node with no ID, or with an ID that is not an int or is -1, is skipped |
| BScanIntervalPTreeLemmas.ParseIgnoresOtherKeys | src/markermodules/bscanintervalmarker/bscanintervalptree.cpp:44-58 | children not named BScan, or Intervall at the next level, are skipped |
| BScanIntervalPTreeLemmas.UnknownClassSkipped | src/markermodules/bscanintervalmarker/bscanintervalptree.cpp:66-74 | an interval whose class is unknown is reported as a diagnostic, and parsing goes on with the next interval |
| BScanIntervalPTreeLemmas.MissingFieldThrows | src/markermodules/bscanintervalmarker/bscanintervalptree.cpp:62-64 | an interval missing Start, End or Class stops the parse with an error, after the calls made so far |
| BScanIntervalPTreeLemmas.LegacyKeyNeedsSignalQuality | src/markermodules/bscanintervalmarker/bscanintervalptree.cpp:150-156 | the Quality key is read only when a signalQuality collection is defined, and then into that collection |
| BScanIntervalPTreeLemmas.ExtendsWithTrans | src/markermodules/bscanintervalmarker/bscanintervalptree.cpp:42-77 | extending a parse run, keeping the calls' targets, is transitive |
| BScanIntervalPTreeLemmas.ParseIntervallTargets | src/markermodules/bscanintervalmarker/bscanintervalptree.cpp:60-75 | one interval only appends calls on the parsed collection with a marker name the collection knows |
| BScanIntervalPTreeLemmas.RunIntervallsTargets | src/markermodules/bscanintervalmarker/bscanintervalptree.cpp:55-76 | the interval loop only appends such calls |
| BScanIntervalPTreeLemmas.ParseBScanTargets | src/markermodules/bscanintervalmarker/bscanintervalptree.cpp:44-76 | one BScan node only appends such calls |
| BScanIntervalPTreeLemmas.RunBScansTargets | src/markermodules/bscanintervalmarker/bscanintervalptree.cpp:42-77 | the BScan loop only appends such calls |
| BScanIntervalPTreeLemmas.ParseCollectionTargets | src/markermodules/bscanintervalmarker/bscanintervalptree.cpp:35-80 | parsing a collection only issues setMarker calls on that collection with marker names it defines |
| BScanIntervalPTreeLemmas.RunIntervallsAppend | src/markermodules/bscanintervalmarker/bscanintervalptree.cpp:55-76 | the interval loop over concatenated children runs over the first part, then the second |
| BScanIntervalPTreeLemmas.RunBScansAppend | src/markermodules/bscanintervalmarker/bscanintervalptree.cpp:42-77 | the BScan loop over concatenated children runs over the first part, then the second |
| BScanIntervalPTreeLemmas.IntervallNodeFields | src/markermodules/bscanintervalmarker/bscanintervalptree.cpp:119-123 | reading Start, End and Class from a written Intervall node gives back the interval's bounds and marker name |
| BScanIntervalPTreeLemmas.ParseIntervallNode | src/markermodules/bscanintervalmarker/bscanintervalptree.cpp:60-69 | a written Intervall node is parsed into exactly its setMarker call |
| BScanIntervalPTreeLemmas.RunIntervallChildren | src/markermodules/bscanintervalmarker/bscanintervalptree.cpp:109-127 | the Intervall nodes written for a scan are parsed into one setMarker call per defined interval, in map order |
| BScanIntervalPTreeLemmas.ParseBScanNode | src/markermodules/bscanintervalmarker/bscanintervalptree.cpp:105-127 | a written BScan node is parsed into the calls for its scan's defined intervals |
| BScanIntervalPTreeLemmas.NoDefinedNoCalls | src/markermodules/bscanintervalmarker/bscanintervalptree.cpp:92-103 | a scan with no defined marker contributes no calls |
| BScanIntervalPTreeLemmas.EmittedTwice | src/markermodules/bscanintervalmarker/bscanintervalptree.cpp:69 | issuing two batches of calls equals issuing their concatenation |
| BScanIntervalPTreeLemmas.RunBScanChildren | src/markermodules/bscanintervalmarker/bscanintervalptree.cpp:88-128 | the BScan nodes written for a collection are parsed into that collection's calls, scan by scan |
| BScanIntervalPTreeLemmas.FindBuilt | src/markermodules/bscanintervalmarker/bscanintervalptree.cpp:86 | each collection is found under its own name in the saved children |
| BScanIntervalPTreeLemmas.RegistryTail | src/markermodules/bscanintervalmarker/bscanintervalptree.cpp:138-146 | what holds for every collection still to parse also holds after the first one is done |
| BScanIntervalPTreeLemmas.RunRegistryOnSaved | src/markermodules/bscanintervalmarker/bscanintervalptree.cpp:138-146 | the registry loop over a saved tree issues every stored marker and no error |
| BScanIntervalPTreeLemmas.RoundTrip | src/markermodules/bscanintervalmarker/bscanintervalptree.cpp:35-176 | parsing the tree fillPTree produced replays exactly the stored markers, with no diagnostic and no error |
| OctData.GetBScan | src/manager/octmarkermanager.cpp:341-346 | getActBScan (applied to the series shown and actBScan): a B-scan is returned exactly when a series is shown, the index is in range and the B-scan exists |
| MarkerBase.DefaultRedrawRequest | src/markermodules/bscanmarkerbase.h:44-49 | a default redraw request asks for nothing, over an empty rectangle |
| MarkerBase.UndoMove | src/markermodules/bscanmarkerbase.h:136-137 | an undo step keeps the edit history (undo stack, then the redo stack from its top) and moves the position back by one; a no-op on an empty undo stack |
| MarkerBase.RedoMove | src/markermodules/bscanmarkerbase.h:136-137 | a redo step keeps the edit history and moves the position forward by one; a no-op on an empty redo stack |
| MarkerBase.RedoUndoInverse | src/markermodules/bscanmarkerbase.h:103-104 | redoing right after an undo restores both stacks |
| MarkerBase.UndoRedoInverse | src/markermodules/bscanmarkerbase.h:103-104 | undoing right after a redo restores both stacks |
| MarkerBase.BscanMarker.constructor | src/markermodules/bscanmarkerbase.h:130-137 | a new module is inactive but enabled, with empty undo and redo stacks and nothing changed |
| MarkerBase.BscanMarker.NumUndoSteps | src/markermodules/bscanmarkerbase.h:96 | the height of the undo stack, so zero exactly when it is empty |
| MarkerBase.BscanMarker.NumRedoSteps | src/markermodules/bscanmarkerbase.h:97 | the height of the redo stack, so zero exactly when it is empty |
| MarkerBase.BscanMarker.ClearUndoRedo | src/markermodules/bscanmarkerbase.h:128 | empties both stacks and changes nothing else |
| MarkerBase.BscanMarker.HasChangedSinceLastSave | src/markermodules/bscanmarkerbase.h:76 | the module's unsaved-changes report, which a new module gives as false and which the base handlers keep |
| MarkerBase.BscanMarker.LoadState | src/markermodules/bscanmarkerbase.h:91 | a module keeping the base loadState has both stacks emptied and its changed flag kept; every module keeps its activation, toolbar and step requests |
| MarkerBase.BscanMarker.NewSeriesLoaded | src/markermodules/bscanmarkerbase.h:93-94 | a module keeping the base newSeriesLoaded has both stacks emptied and its changed flag kept; every module keeps its activation, toolbar and step requests |
| MarkerBase.BscanMarker.Destroy | src/markermodules/bscanmarkerbase.h:53 | the destructor empties both stacks |
| MarkerBase.BscanMarker.Activate | src/markermodules/bscanmarkerbase.h:89 | sets the activation flag and emits enabledToolbar with it |
| MarkerBase.BscanMarker.CallUndoStep | src/markermodules/bscanmarkerbase.h:104 | the stacks become UndoMove of the old ones: the newest command moves to the redo stack, and nothing happens on an empty undo stack; activation and toolbar are kept |
| MarkerBase.BscanMarker.CallRedoStep | src/markermodules/bscanmarkerbase.h:103 | the stacks become RedoMove of the old ones: the top redo command moves back to the undo stack, and nothing happens on an empty redo stack; activation and toolbar are kept |
| MarkerBase.BscanMarker.MouseMoveEvent | src/markermodules/bscanmarkerbase.h:65 | the default handler requests no redraw |
| MarkerBase.BscanMarker.MousePressEvent | src/markermodules/bscanmarkerbase.h:66 | the default handler requests no redraw |
| MarkerBase.BscanMarker.MouseReleaseEvent | src/markermodules/bscanmarkerbase.h:67 | the default handler requests no redraw |
| MarkerBase.BscanMarker.ToolTipEvent | src/markermodules/bscanmarkerbase.h:70 | the default handler does not handle the event |
| MarkerBase.BscanMarker.KeyPressEvent | src/markermodules/bscanmarkerbase.h:71 | the default handler does not handle the key |
| MarkerBase.BscanMarker.LeaveWidgetEvent | src/markermodules/bscanmarkerbase.h:72 | the default handler does not handle the event |
| MarkerBase.BscanMarker.DrawSLOOverlayImage | src/markermodules/bscanmarkerbase.h:62-63 | the default module draws no SLO overlay |
| MarkerBase.SloMarker.constructor | src/manager/octmarkermanager.cpp:85 | a new SLO module is inactive and unchanged |
| MarkerBase.SloMarker.Activate | src/manager/octmarkermanager.cpp:224-227 | sets the activation flag and keeps the changed flag |
| LayerSegmentation.Resize | src/markermodules/bscanlayersegmentation/bscanlayersegmentation.cpp:157-164 | vector resize keeps the common prefix and fills the rest |
| LayerSegmentation.BlankScan | src/markermodules/bscanlayersegmentation/bscanlayersegmentation.cpp:159-165 | one unfilled entry holding, for every line type, a line of the B-scan's width with value-initialised samples |
| LayerSegmentation.ResetLines | src/markermodules/bscanlayersegmentation/bscanlayersegmentation.cpp:149-167 | one blank entry per B-scan, of that B-scan's width |
| LayerSegmentation.Padded | src/markermodules/bscanlayersegmentation/bscanlayersegmentation.cpp:292-300 | a copied line has the B-scan's width: the source samples, then undefined samples |
| LayerSegmentation.PaddedLines | src/markermodules/bscanlayersegmentation/bscanlayersegmentation.cpp:288-300 | each line type is padded to the width |
| LayerSegmentation.CopiedLines | src/markermodules/bscanlayersegmentation/bscanlayersegmentation.cpp:278-300 | copying replaces only entry n, with the series' padded lines marked filled, and only when the B-scan exists |
| LayerSegmentation.CopiedWhenNotFilled | src/markermodules/bscanlayersegmentation/bscanlayersegmentation.cpp:352-360 | an entry that is out of range or already filled is left as it is |
| LayerSegmentation.CopiedWhenNotFilledTwice | src/markermodules/bscanlayersegmentation/bscanlayersegmentation.cpp:352-360 | copying when not filled is idempotent |
| LayerSegmentation.GetMaxBscanWidth | src/markermodules/bscanlayersegmentation/bscanlayersegmentation.cpp:391-407 | the result is the largest B-scan width of the series, or 0 when no series is shown |
| LayerSegmentation.PadSegLine | src/markermodules/bscanlayersegmentation/bscanlayersegmentation.cpp:292-300 | the copy loop yields the padded line |
| LayerSegmentation.CopyScan | src/markermodules/bscanlayersegmentation/bscanlayersegmentation.cpp:288-300 | the per-line-type loop yields the padded lines, marked filled |
| LayerSegmentation.SetSegMethodSpec | src/markermodules/bscanlayersegmentation/bscanlayersegmentation.cpp:311-338 | sets the edit method and, only when it changes, notifies the editors; every other field is kept |
| LayerSegmentation.SetActEditLinetypeSpec | src/markermodules/bscanlayersegmentation/bscanlayersegmentation.cpp:170-186 | sets the edited line type, with no effect when it is already the one edited |
| LayerSegmentation.ChangeSeglineIdSpec | src/markermodules/bscanlayersegmentation/bscanlayersegmentation.cpp:464-469 | a line-type index in range selects that line type; one out of range changes nothing |
| LayerSegmentation.SetLinesVisibleSpec | src/markermodules/bscanlayersegmentation/bscanlayersegmentation.cpp:416-424 | sets line visibility, with no effect when unchanged |
| LayerSegmentation.SetThicknessVisibleSpec | src/markermodules/bscanlayersegmentation/bscanlayersegmentation.cpp:426-433 | sets thickness-map visibility, with no effect when unchanged |
| LayerSegmentation.GenerateThicknessmapSpec | src/markermodules/bscanlayersegmentation/bscanlayersegmentation.cpp:232-257 | without a colormap, a B-scan or a distance map the image is left alone; otherwise it is replaced. The legend always gets the colormap |
| LayerSegmentation.KeyPressSpec | src/markermodules/bscanlayersegmentation/bscanlayersegmentation.cpp:189-230 | digits select a line type; Q and W select pen and spline as SetSegMethodSpec does; E toggles the lines as SetLinesVisibleSpec does; T regenerates the thickness map. Other keys go to the active edit method, and are unhandled when there is none |
| LayerSegmentation.KeyETwice | src/markermodules/bscanlayersegmentation/bscanlayersegmentation.cpp:216-218 | pressing E twice restores the line visibility |
| LayerSegmentation.CopyEvents | src/markermodules/bscanlayersegmentation/bscanlayersegmentation.cpp:280-308 | a copy into a B-scan other than the shown one notifies nobody |
| LayerSegmentation.LayerSegmentationMarker.constructor | src/markermodules/bscanlayersegmentation/bscanlayersegmentation.cpp:41-56 | a new module has no lines, edits line type 0 with the pen, shows the lines and hides the thickness map |
| LayerSegmentation.LayerSegmentationMarker.GetSegMethod | src/markermodules/bscanlayersegmentation/bscanlayersegmentation.cpp:341-347 | reports the edit method in use |
| LayerSegmentation.LayerSegmentationMarker.SetSegMethod | src/markermodules/bscanlayersegmentation/bscanlayersegmentation.cpp:311-338 | the new view is SetSegMethodSpec of the old one; the lines are kept |
| LayerSegmentation.LayerSegmentationMarker.SetActEditLinetype | src/markermodules/bscanlayersegmentation/bscanlayersegmentation.cpp:170-186 | the new view is SetActEditLinetypeSpec of the old one; the lines are kept |
| LayerSegmentation.LayerSegmentationMarker.ChangeSeglineId | src/markermodules/bscanlayersegmentation/bscanlayersegmentation.cpp:464-469 | the new view is ChangeSeglineIdSpec of the old one |
| LayerSegmentation.LayerSegmentationMarker.SetSegmentationLinesVisible | src/markermodules/bscanlayersegmentation/bscanlayersegmentation.cpp:416-424 | the new view is SetLinesVisibleSpec of the old one |
| LayerSegmentation.LayerSegmentationMarker.SetThicknessmapVisible | src/markermodules/bscanlayersegmentation/bscanlayersegmentation.cpp:426-433 | the new view is SetThicknessVisibleSpec of the old one |
| LayerSegmentation.LayerSegmentationMarker.GenerateThicknessmap | src/markermodules/bscanlayersegmentation/bscanlayersegmentation.cpp:232-257 | the new view is GenerateThicknessmapSpec of the old one |
| LayerSegmentation.LayerSegmentationMarker.KeyPressEvent | src/markermodules/bscanlayersegmentation/bscanlayersegmentation.cpp:189-230 | the new view and the handled flag are KeyPressSpec of the old view and the key |
| LayerSegmentation.LayerSegmentationMarker.ResetMarkers | src/markermodules/bscanlayersegmentation/bscanlayersegmentation.cpp:149-167 | with a series, the store becomes one blank entry per B-scan; without one it is kept |
| LayerSegmentation.LayerSegmentationMarker.CopySegLinesFromOctData | src/markermodules/bscanlayersegmentation/bscanlayersegmentation.cpp:278-309 | the store becomes CopiedLines of the old one, and the editors are notified only for the shown B-scan |
| LayerSegmentation.LayerSegmentationMarker.CopySegLinesFromOctDataWhenNotFilled | src/markermodules/bscanlayersegmentation/bscanlayersegmentation.cpp:352-360 | the store becomes CopiedWhenNotFilled of the old one |
| LayerSegmentation.LayerSegmentationMarker.SetActBScan | src/markermodules/bscanlayersegmentation/bscanlayersegmentation.cpp:364-372 | an active module copies the new B-scan's lines when not yet filled; the event log grows by exactly the copy's notifications and then, when an edit method is selected, its hand-over of the new line; the rest of the view is kept |
| LayerSegmentation.LayerSegmentationMarker.NewSeriesLoaded | src/markermodules/bscanlayersegmentation/bscanlayersegmentation.cpp:141-146 | the store is reset for the new series and the thickness image is cleared; the undo history is kept |
| ProgramOptionsType.ToBool | src/helper/programoptionstype.h:120 | QVariant::toBool: a bool is itself, an int is true when non-zero, a string is false exactly when empty, "0" or "false" in any case, an invalid variant is false |
| ProgramOptionsType.ToInt | src/helper/programoptionstype.h:179 | QVariant::toInt: an int is itself, a bool is 0 or 1, a string is its parsed value or 0, an invalid variant is 0 |
| ProgramOptionsType.ToString | src/helper/programoptionstype.h:263 | QVariant::toString: a string is itself; an int is written so that it parses back; a bool is written so that it converts back |
| ProgramOptionsType.BoolSignals | src/helper/programoptionstype.h:101-106 | a change emits valueChanged(v), valueChangedInvers(!v), then trueSignal or falseSignal |
| ProgramOptionsType.OptionBool.constructor | src/helper/programoptionstype.h:84-91 | value and default are v, the action is checked as v, and nothing is emitted |
| ProgramOptionsType.OptionBool.IsDefault | src/helper/programoptionstype.h:122 | true exactly when the value equals the default |
| ProgramOptionsType.OptionBool.GetValue | src/helper/programoptionstype.h:114 | the current value, the one SetValue, SetVariant and ResetValue set |
| ProgramOptionsType.OptionBool.GetVariant | src/helper/programoptionstype.h:119 | the variant converts back to the value |
| ProgramOptionsType.OptionBool.SetValue | src/helper/programoptionstype.h:95-126 | the value becomes v, the action stays in step with it, and the three signals are emitted only on a change |
| ProgramOptionsType.OptionBool.SetValueInvers | src/helper/programoptionstype.h:127 | the value becomes !v, signalling as setValue does |
| ProgramOptionsType.OptionBool.ResetValue | src/helper/programoptionstype.h:111 | the value returns to the default, signalling only on a change |
| ProgramOptionsType.OptionBool.SetVariant | src/helper/programoptionstype.h:120 | the value becomes the variant's toBool, signalling only on a change |
| ProgramOptionsType.OptionInt.constructor | src/helper/programoptionstype.h:156-166 | value and default are v; the bounds default to 0, 100 and step 1 |
| ProgramOptionsType.OptionInt.IsDefault | src/helper/programoptionstype.h:183 | true exactly when the value equals the default |
| ProgramOptionsType.OptionInt.GetValue | src/helper/programoptionstype.h:172 | the current value, the one SetValue, SetVariant and ResetValue set |
| ProgramOptionsType.OptionInt.GetVariant | src/helper/programoptionstype.h:178 | the variant converts back to the value |
| ProgramOptionsType.OptionInt.SetValue | src/helper/programoptionstype.h:185 | the value becomes v, unclamped; valueChanged is emitted only on a change |
| ProgramOptionsType.OptionInt.SetVariant | src/helper/programoptionstype.h:179 | the value becomes the variant's toInt, with no signal |
| ProgramOptionsType.OptionInt.ResetValue | src/helper/programoptionstype.h:170 | the value returns to the default and valueChanged is always emitted |
| ProgramOptionsType.OptionString.constructor | src/helper/programoptionstype.h:253 | value and default are v |
| ProgramOptionsType.OptionString.IsDefault | src/helper/programoptionstype.h:265 | true exactly when the value equals the default |
| ProgramOptionsType.OptionString.GetValue | src/helper/programoptionstype.h:259 | the current value, the one SetValue, SetVariant and ResetValue set |
| ProgramOptionsType.OptionString.GetVariant | src/helper/programoptionstype.h:262 | the variant converts back to the value |
| ProgramOptionsType.OptionString.SetValue | src/helper/programoptionstype.h:267 | the value becomes v and valueChanged is always emitted |
| ProgramOptionsType.OptionString.SetVariant | src/helper/programoptionstype.h:263 | the value becomes the variant's toString, with no signal |
| ProgramOptionsType.OptionString.ResetValue | src/helper/programoptionstype.h:257 | the value returns to the default and valueChanged is always emitted |
| Point2D.Point.Plus | src/data_structure/point2d.h:54 | subtracting the added point again gives the original |
| Point2D.Point.Times | src/data_structure/point2d.h:55 | scaling by 0 gives the origin, by 1 the point itself, by -1 its negation; with TimesDistributes it distributes over addition |
| Point2D.Point.Minus | src/data_structure/point2d.h:53 | adding the subtracted point back gives the original |
| Point2D.Point.Equal | src/data_structure/point2d.h:66 | true exactly when both coordinates agree |
| Point2D.Point.NotEqual | src/data_structure/point2d.h:67 | the negation of equality |
| Point2D.Point.Dot | src/data_structure/point2d.h:71 | the dot product with the origin is 0 and with the unit points is the x or y coordinate; DotSymmetric gives symmetry |
| Point2D.Point.NormQuadrat | src/data_structure/point2d.h:70 | the squared norm is non-negative and is the point's dot product with itself |
| Point2D.SquareNonNegative | src/data_structure/point2d.h:70 | a square is non-negative |
| Point2D.DotSymmetric | src/data_structure/point2d.h:71 | the dot product is symmetric |
| Point2D.PlusMinusInverse | src/data_structure/point2d.h:53-54 | addition and subtraction undo each other |
| Point2D.TimesDistributes | src/data_structure/point2d.h:54-71 | scaling distributes over addition and factors out of the dot product |
| Point2D.Point2DInt.constructor | src/data_structure/point2d.h:38 | the point holds the given coordinates |
| Point2D.Point2DInt.Origin | src/data_structure/point2d.h:33-39 | a default point is the origin |
| Point2D.Point2DInt.GetX | src/data_structure/point2d.h:43 | returns the x coordinate |
| Point2D.Point2DInt.GetY | src/data_structure/point2d.h:44 | returns the y coordinate |
| Point2D.Point2DInt.SetX | src/data_structure/point2d.h:46 | changes x only |
| Point2D.Point2DInt.SetY | src/data_structure/point2d.h:47 | changes y only |
| Point2D.Point2DInt.AddAssign | src/data_structure/point2d.h:56 | the point becomes its sum with the other |
| Point2D.Point2DInt.MulAssign | src/data_structure/point2d.h:61 | the point becomes its product with the factor |
| Conture2D.LineNode.AddLineIndex | src/data_structure/conture2d.h:71 | keeps the point and appends the line index |
| Conture2D.NewNode | src/data_structure/conture2d.h:67 | a new node holds the point and no line |
| Conture2D.LineNode.GetPoint | src/data_structure/conture2d.h:70 | the node's point, which adding line indices keeps |
| Conture2D.Line2D.GetNodeAid | src/data_structure/conture2d.h:48 | the first endpoint the line was built with |
| Conture2D.Line2D.GetNodeBid | src/data_structure/conture2d.h:49 | the second endpoint the line was built with |
| Conture2D.Line2D.GetSlope | src/data_structure/conture2d.h:51 | the slope the line was built with |
| Conture2D.Conture.constructor | src/data_structure/conture2d.h:83-86 | an empty contour satisfies the invariant |
| Conture2D.Conture.AddPoint | src/data_structure/conture2d.h:89 | returns the old point count as the new index and appends a node with no lines |
| Conture2D.Conture.AddLine | src/data_structure/conture2d.h:91-106 | equal indices change nothing; an index out of range only writes the diagnostic; otherwise the line is appended and registered at both endpoints. The invariant is kept |
| Conture2D.Conture.Connect | src/data_structure/conture2d.h:99-102 | appends the line, adds its index to exactly its two endpoints, and keeps the invariant |
| Conture2D.Conture.GetPoint | src/data_structure/conture2d.h:108 | returns the point added at that index |
| OctMarkerManager.SetActBScanCalls | src/manager/octmarkermanager.cpp:117-118 | every B-scan module is told the new B-scan, in order |
| OctMarkerManager.SubtreeFor | src/manager/octmarkermanager.cpp:144-146 | a module's subtree is the child under its id, or an empty tree |
| OctMarkerManager.SloMarkerLookupAsWritten | src/manager/octmarkermanager.cpp:216-219 | the bound check as written: it fails with out_of_range exactly for ids valid for B-scan modules but not for SLO modules |
| OctMarkerManager.SloMarkerLookup | src/manager/octmarkermanager.cpp:216-219 | the intended lookup: a module exactly for ids within the SLO modules |
| OctMarkerManager.SloMarkerLookupThrows | src/manager/octmarkermanager.cpp:216-219 | with six B-scan modules and one SLO module, id 1 throws instead of selecting nothing |
| OctMarkerManager.SloMarkerLookupAgrees | src/manager/octmarkermanager.cpp:216-219 | where the code as written does not throw, it agrees with the intended lookup |
| OctMarkerManager.FirstWithId | src/manager/octmarkermanager.cpp:166-178 | the first module with the given id, or none when no module has it |
| OctMarkerManager.MarkerManager.BscanMarkerAt | src/manager/octmarkermanager.cpp:183-188 | a module exactly for ids in range |
| OctMarkerManager.MarkerManager.SloMarkerAt | src/manager/octmarkermanager.cpp:216-219 | a module exactly for ids within the SLO modules |
| OctMarkerManager.MarkerManager.constructor | src/manager/octmarkermanager.cpp:57-89 | all modules are deactivated, then the modules stored in the tool options are selected |
| OctMarkerManager.MarkerManager.ChooseBScan | src/manager/octmarkermanager.cpp:102-123 | an index out of range or equal to the current one changes nothing; otherwise the B-scan is set, every module is told, and the B-scan is announced |
| OctMarkerManager.MarkerManager.InkrementBScan | src/manager/octmarkermanager.h:111 | chooses the current B-scan plus the increment |
| OctMarkerManager.MarkerManager.NextBScan | src/manager/octmarkermanager.h:113 | chooses the next B-scan, with no effect at the last one |
| OctMarkerManager.MarkerManager.PreviousBScan | src/manager/octmarkermanager.h:114 | chooses the previous B-scan, with no effect at the first one |
| OctMarkerManager.MarkerManager.SwitchBscanMarker | src/manager/octmarkermanager.cpp:193-202 | after the switch exactly the new module is activated |
| OctMarkerManager.MarkerManager.SetBscanMarker | src/manager/octmarkermanager.cpp:181-210 | the module with that id, or none, becomes the only active one; the tool option records the id; the save flag only absorbs the old module's changes |
| OctMarkerManager.MarkerManager.ReplaceBscanMarker | src/manager/octmarkermanager.cpp:190-209 | records the old module's changes, switches activation, stores the id and emits bscanChanged, bscanMarkerChanged and undoRedoStateChange |
| OctMarkerManager.MarkerManager.SetBscanMarkerTextID | src/manager/octmarkermanager.cpp:166-178 | selects the first module with the text id; an unknown id changes nothing |
| OctMarkerManager.MarkerManager.SwitchSloMarker | src/manager/octmarkermanager.cpp:224-227 | after the switch exactly the new SLO module is activated |
| OctMarkerManager.MarkerManager.SetSloMarker | src/manager/octmarkermanager.cpp:212-233 | the SLO module with that id, or none, becomes the only active one; only on a change is it announced and stored in the tool option, which signals when its value differs |
| OctMarkerManager.MarkerManager.HasActMarkerChanged | src/manager/octmarkermanager.cpp:322-328 | true exactly when an active B-scan or SLO module reports changes |
| OctMarkerManager.MarkerManager.HasChangedSinceLastSave | src/manager/octmarkermanager.h:64 | true when the manager's flag is set, otherwise when the active module reports changes |
| OctMarkerManager.MarkerManager.ResetChangedSinceLastSaveState | src/manager/octmarkermanager.h:65 | clears the manager's flag, so only the active modules' changes remain |
| OctMarkerManager.MarkerManager.NumUndoSteps | src/manager/octmarkermanager.cpp:360-365 | zero without an active module, otherwise the height of that module's undo stack; a non-zero count belongs to an activated module |
| OctMarkerManager.MarkerManager.NumRedoSteps | src/manager/octmarkermanager.cpp:353-358 | zero without an active module, otherwise the height of that module's redo stack; a non-zero count belongs to an activated module |
| OctMarkerManager.MarkerManager.CallUndoStep | src/manager/octmarkermanager.cpp:373-377 | only the active module takes the undo step (its stacks become UndoMove of the old ones, all others are unchanged); a non-zero undo count drops by one and the redo count grows by one |
| OctMarkerManager.MarkerManager.CallRedoStep | src/manager/octmarkermanager.cpp:367-371 | only the active module takes the redo step (its stacks become RedoMove of the old ones, all others are unchanged); a non-zero redo count drops by one and the undo count grows by one |
| OctMarkerManager.MarkerManager.NotifyNewSeries | src/manager/octmarkermanager.cpp:142-147 | every B-scan module receives the series with its subtree and keeps its activation and toolbar; those keeping the base newSeriesLoaded end with empty undo and redo stacks |
| OctMarkerManager.MarkerManager.LoadMarkerStates | src/manager/octmarkermanager.cpp:276-281 | every B-scan module loads its subtree and keeps its activation and toolbar; those keeping the base loadState end with empty undo and redo stacks |
| OctMarkerManager.MarkerManager.TakeSeries | src/manager/octmarkermanager.cpp:128-162 | stores the series and keeps the unsaved changes in the flag, resets the B-scan to -1 and announces the series; modules keeping the base newSeriesLoaded lose their histories |
| OctMarkerManager.MarkerManager.ShowSeries | src/manager/octmarkermanager.cpp:126-164 | the series is stored and every module is told, which clears the histories of those keeping the base newSeriesLoaded; B-scan 0 is chosen when the series has B-scans, else the B-scan stays at -1 |
| OctMarkerManager.MarkerManager.LoadMarkerStateSlot | src/manager/octmarkermanager.cpp:264-289 | only for the shown series and an existing tree, each module loads its subtree, which clears the histories of those keeping the base loadState |
| OctMarkerManager.MarkerManager.ReloadMarkerStateSlot | src/manager/octmarkermanager.h:99 | loads the marker state again for the shown series, which clears the histories of modules keeping the base loadState |
| OctMarkerManager.AtMostOneActive | src/manager/octmarkermanager.cpp:181-210 | at most one B-scan module is activated |

## Left out

- The concrete marker modules that the manager constructor creates are taken as parameters. Their drawing, widgets, toolbars and graphics scenes are not modelled.
- Qt signals are append-only event logs. Qt's connection machinery is not modelled, so slot invocation order and blocked signals are out of scope.
- The setActBScan calls to the modules are recorded as manager events. The base implementation does nothing; the layer-segmentation module models its own `SetActBScan` separately.
- Series are compared by value, where the source compares pointers.
- `saveMarkerStateSlot` is not modelled, because the default `saveState` does nothing.
- `udateFromMarkerModul`, `updateUndoRedowState` and `bscanChangeRequestFromMarkerModul` are left out. They dispatch on the Qt sender object.
- `handleSloRedrawAfterMarkerChange`, `sloOverlayUpdateFromMarkerModul` and `getExtraImageData` are left out. They only forward drawing requests or expose extra image data.
- The loading of extra series data in `showSeries` (`loadExtraData`) is left out; it does not affect the marker modules.
- `CallUndoStep` and `CallRedoStep` (`MarkerBase.BscanMarker.CallUndoStep`, `MarkerBase.BscanMarker.CallRedoStep` and the manager's forwarding members) move one command between the two stacks, and that is all they promise. The command's effect on the module's data, the module's changed report and the undoRedoChanged signal are not modelled. The base slot bodies are not part of this model, and a command is opaque here.
- The loadState and newSeriesLoaded of SLO modules are left out, because the SLO marker base is not part of this model.
- `OctMarkerManager.MarkerManager.NotifyNewSeries` and `OctMarkerManager.MarkerManager.LoadMarkerStates` promise nothing about the undo and redo stacks or the changed flag of a module that overrides newSeriesLoaded or loadState (segmentation, objects, scan classifier, distance meter, layer segmentation); only its activation, toolbar and step requests are kept. The layer-segmentation override is modelled on its own in `LayerSegmentation.LayerSegmentationMarker.NewSeriesLoaded`.
- The property-tree helper that creates empty subtrees on lookup (get_put) is not part of this model. `SubtreeFor` only reads.
- `OctMarkerManager.MarkerManager.ChooseBScan` requires a shown series whenever the index is non-negative and differs from the current one, because the source dereferences the series pointer without a check there.
- `OctMarkerManager.MarkerManager.ShowSeries` requires a series whenever a marker tree is given. The data manager only supplies a tree together with a series.
- `OctMarkerManager.MarkerManager.SetSloMarker` uses the corrected bound; the bound as written is kept in `SloMarkerLookupAsWritten` (see Findings).
- `Decimal.ParseInt` does not model the whitespace that `get_value<int>` tolerates around a number.
- `BScanIntervalPTreeLemmas.MissingFieldThrows` states only that an error is raised, not which error. A Start node that exists but does not parse gives a data error rather than a path error.
- Missing Start, End or Class fields throw out of the parser (bscanintervalptree.cpp lines 62-64). They are not skipped; the model follows the code.
- The interval marker's internal store (boost interval maps) is a sequence of interval entries in map order. Merging of neighbouring intervals by the interval map is not modelled.
- `LayerSegmentation.LayerSegmentationMarker.ResetMarkers` fills new lines with the value-initialised sample 0.0, as `resize` does. It does not fill with NaN.
- The layer-segmentation module's parsing of its own tree in loadState and newSeriesLoaded (BScanLayerSegPTree) is not part of this model. Neither is the undo history of its edits.
- The thickness-map arithmetic and the distance map are inputs to `GenerateThicknessmapSpec`, not computed. Edit methods (pen, spline) are recorded as events.
- `LayerSegmentation.LayerSegmentationMarker.SetSegMethod`: the source, and the constructor through it, index `lines[actBScan]` even when no lines exist. The model does not index there.
- `LayerSegmentation.LayerSegmentationMarker.ResetMarkers` and `LayerSegmentation.LayerSegmentationMarker.NewSeriesLoaded` require every B-scan slot of the series to be present, because the source reads each B-scan's width without a null check (bscanlayersegmentation.cpp line 161). The model's series may have empty slots, which `GetMaxBscanWidth` does handle.
- `LayerSegmentation.LayerSegmentationMarker.SetActBScan` requires the B-scan to be in the store, because the source reads `lines[bscan]` without a bounds check.
- `LayerSegmentation.KeyPressSpec` leaves out the C key (copy the lines from the OCT data), which is compiled only into debug builds.
- `OptionDouble` and `OptionColor` are left out. They hold floating-point values and colours.
- `ProgramOptionsType.ToBool` models QVariant's string conversion as false for "", "0" and "false" in any case. Other variant types are not modelled.
- `Point2D.Point2DInt.AddAssign`, `Point2D.Point2DInt.MulAssign`, `Point2D.Point.Plus`, `Point2D.Point.Minus`, `Point2D.Point.Times`, `Point2D.Point.Dot` and `Point2D.Point.NormQuadrat` use unbounded integers. `normquadrat` and the dot product compute in int before converting to double. The source's 32-bit overflow is undefined behaviour.
- `euklidDist`, `length`, `normize` and the division operator of the point template are left out. They work on floating point, as does `Point2DBase<double>`, which is not modelled.
- The slope of a contour line is a float in the source. The model stores it as a real, because it is never computed with.
- The error message written by `Conture2D.Conture.AddLine` goes to a diagnostics log instead of stderr.

## Findings

| source | as written | input that shows it | evidently intended | confidence | as-written member | corrected member |
|---|---|---|---|---|---|---|
| src/manager/octmarkermanager.cpp:216-219 | setSloMarker checks the id against the number of B-scan marker modules, then indexes the SLO module list with `at` | six B-scan modules, one SLO module, id 1: the check passes and `at(1)` throws out_of_range | check the id against the number of SLO modules and select none when it is out of range | not executed | OctMarkerManager.SloMarkerLookupAsWritten (counterexample: OctMarkerManager.SloMarkerLookupThrows) | OctMarkerManager.SloMarkerLookup (used by OctMarkerManager.MarkerManager.SetSloMarker) |
