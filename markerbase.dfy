/**
 * The state every B-scan marker module shares (BscanMarkerBase): its
 * identity, whether it is the active tool, and its undo and redo stacks.
 * The default event handlers of the base class are constants.
 */
module MarkerBase {
  import opened PropertyTree
  import opened OctData
  import opened Wrappers

  /** A widget rectangle: the default QRect is the null rectangle at the origin. */
  datatype Rect = Rect(left: int, top: int, width: int, height: int)

  /** What a mouse handler asks the widget to repaint. */
  datatype RedrawRequest = RedrawRequest(redraw: bool, rect: Rect)

  /** A default-constructed RedrawRequest asks for nothing. */
  function DefaultRedrawRequest(): (r: RedrawRequest)
    ensures !r.redraw && r.rect.width == 0 && r.rect.height == 0
  {
    RedrawRequest(false, Rect(0, 0, 0, 0))
  }

  /** An undoable edit of a marker module; what it undoes is up to the module. */
  datatype MarkerCommand = MarkerCommand(description: string)

  /** A request to step the undo history, as received through callUndoStep/callRedoStep. */
  datatype StepRequest = UndoStep | RedoStep

  /** The reverse of a command sequence. */
  function Reversed(s: seq<MarkerCommand>): (r: seq<MarkerCommand>)
    ensures |r| == |s|
  {
    if s == [] then [] else Reversed(s[1..]) + [s[0]]
  }

  lemma {:induction false} ReversedSnoc(s: seq<MarkerCommand>, c: MarkerCommand)
    ensures Reversed(s + [c]) == [c] + Reversed(s)
  {
    if s != [] {
      assert (s + [c])[1..] == s[1..] + [c];
      ReversedSnoc(s[1..], c);
    }
  }

  /**
   * The edit history the two stacks hold: the undo stack oldest first, then
   * the redo stack from its top (the next command to redo) down.
   */
  function Timeline(undo: seq<MarkerCommand>, redo: seq<MarkerCommand>): seq<MarkerCommand> {
    undo + Reversed(redo)
  }

  /**
   * One undo step on the stacks: the newest command moves from the undo
   * stack onto the redo stack; with an empty undo stack nothing happens.
   * The history is kept, only the position in it moves back by one.
   */
  function UndoMove(undo: seq<MarkerCommand>, redo: seq<MarkerCommand>): (r: (seq<MarkerCommand>, seq<MarkerCommand>))
    ensures Timeline(r.0, r.1) == Timeline(undo, redo)
    ensures undo == [] ==> r == (undo, redo)
    ensures undo != [] ==> |r.0| + 1 == |undo| && |r.1| == |redo| + 1
  {
    if undo == [] then (undo, redo)
    else
      var c := undo[|undo| - 1];
      ReversedSnoc(redo, c);
      assert undo == undo[..|undo| - 1] + [c];
      (undo[..|undo| - 1], redo + [c])
  }

  /**
   * One redo step on the stacks: the top of the redo stack moves back onto
   * the undo stack; with an empty redo stack nothing happens. The history is
   * kept, only the position in it moves forward by one.
   */
  function RedoMove(undo: seq<MarkerCommand>, redo: seq<MarkerCommand>): (r: (seq<MarkerCommand>, seq<MarkerCommand>))
    ensures Timeline(r.0, r.1) == Timeline(undo, redo)
    ensures redo == [] ==> r == (undo, redo)
    ensures redo != [] ==> |r.0| == |undo| + 1 && |r.1| + 1 == |redo|
  {
    if redo == [] then (undo, redo)
    else
      var c := redo[|redo| - 1];
      var rest := redo[..|redo| - 1];
      assert redo == rest + [c];
      ReversedSnoc(rest, c);
      (undo + [c], rest)
  }

  /** Redoing what was just undone restores both stacks. */
  lemma RedoUndoInverse(undo: seq<MarkerCommand>, redo: seq<MarkerCommand>)
    requires undo != []
    ensures RedoMove(UndoMove(undo, redo).0, UndoMove(undo, redo).1) == (undo, redo)
  {
    assert undo[..|undo| - 1] + [undo[|undo| - 1]] == undo;
  }

  /** Undoing what was just redone restores both stacks. */
  lemma UndoRedoInverse(undo: seq<MarkerCommand>, redo: seq<MarkerCommand>)
    requires redo != []
    ensures UndoMove(RedoMove(undo, redo).0, RedoMove(undo, redo).1) == (undo, redo)
  {
    assert redo[..|redo| - 1] + [redo[|redo| - 1]] == redo;
  }

  class BscanMarker {
    const markerId: string
    const name: string
    /**
     * Whether the module replaces the base class's loadState and
     * newSeriesLoaded. The base versions only empty the undo and redo
     * stacks; what an override does to them is the module's own business.
     */
    const overridesLoadState: bool
    const overridesNewSeriesLoaded: bool
    var isActivated: bool
    var markerActive: bool
    var undoList: seq<MarkerCommand>
    var redoList: seq<MarkerCommand>
    /**
     * What the module's hasChangedSinceLastSave reports. The base class
     * reports false; modules that override it report their own edits.
     */
    var changedSinceLastSave: bool
    /** The enabledToolbar signals emitted, oldest first. */
    var toolbarSignals: seq<bool>
    /** The undo and redo steps requested from this module, oldest first. */
    var stepRequests: seq<StepRequest>

    constructor(markerId: string, name: string, overridesLoadState: bool := false, overridesNewSeriesLoaded: bool := false)
      ensures this.markerId == markerId && this.name == name
      ensures this.overridesLoadState == overridesLoadState && this.overridesNewSeriesLoaded == overridesNewSeriesLoaded
      ensures !isActivated && markerActive
      ensures undoList == [] && redoList == []
      ensures !HasChangedSinceLastSave()
      ensures toolbarSignals == [] && stepRequests == []
    {
      this.markerId := markerId;
      this.name := name;
      this.overridesLoadState := overridesLoadState;
      this.overridesNewSeriesLoaded := overridesNewSeriesLoaded;
      isActivated := false;
      markerActive := true;
      undoList := [];
      redoList := [];
      changedSinceLastSave := false;
      toolbarSignals := [];
      stepRequests := [];
    }

    /** hasChangedSinceLastSave: the module's report, false for a new module. */
    function HasChangedSinceLastSave(): (r: bool)
      reads this
      ensures r == changedSinceLastSave
    {
      changedSinceLastSave
    }

    function NumUndoSteps(): (n: nat)
      reads this
      ensures n == |undoList|
      ensures n == 0 <==> undoList == []
    {
      |undoList|
    }

    function NumRedoSteps(): (n: nat)
      reads this
      ensures n == |redoList|
      ensures n == 0 <==> redoList == []
    {
      |redoList|
    }

    method ClearUndoRedo()
      modifies this
      ensures undoList == [] && redoList == []
      ensures NumUndoSteps() == 0 && NumRedoSteps() == 0
      ensures isActivated == old(isActivated) && markerActive == old(markerActive)
      ensures changedSinceLastSave == old(changedSinceLastSave)
      ensures toolbarSignals == old(toolbarSignals) && stepRequests == old(stepRequests)
    {
      undoList := [];
      redoList := [];
    }

    /**
     * loadState: the base version ignores the tree and empties both stacks.
     * An overriding module reads its own state from the tree; of that only
     * the activation, the toolbar and the step requests are promised here.
     */
    method LoadState(markerTree: PTree)
      modifies this
      ensures !overridesLoadState ==> NumUndoSteps() == 0 && NumRedoSteps() == 0
      ensures !overridesLoadState ==> changedSinceLastSave == old(changedSinceLastSave)
      ensures isActivated == old(isActivated) && markerActive == old(markerActive)
      ensures toolbarSignals == old(toolbarSignals) && stepRequests == old(stepRequests)
    {
      if !overridesLoadState {
        ClearUndoRedo();
      }
    }

    /**
     * newSeriesLoaded: the base version ignores the series and the tree and
     * empties both stacks. An overriding module resets its own data; of that
     * only the activation, the toolbar and the step requests are promised here.
     */
    method NewSeriesLoaded(series: Option<Series>, markerTree: PTree)
      modifies this
      ensures !overridesNewSeriesLoaded ==> NumUndoSteps() == 0 && NumRedoSteps() == 0
      ensures !overridesNewSeriesLoaded ==> changedSinceLastSave == old(changedSinceLastSave)
      ensures isActivated == old(isActivated) && markerActive == old(markerActive)
      ensures toolbarSignals == old(toolbarSignals) && stepRequests == old(stepRequests)
    {
      if !overridesNewSeriesLoaded {
        ClearUndoRedo();
      }
    }

    /** The destructor empties both stacks. */
    method Destroy()
      modifies this
      ensures NumUndoSteps() == 0 && NumRedoSteps() == 0
      ensures isActivated == old(isActivated) && markerActive == old(markerActive)
      ensures changedSinceLastSave == old(changedSinceLastSave)
      ensures toolbarSignals == old(toolbarSignals) && stepRequests == old(stepRequests)
    {
      ClearUndoRedo();
    }

    /** activate(b): records the state and tells the toolbar. */
    method Activate(b: bool)
      modifies this
      ensures isActivated == b
      ensures toolbarSignals == old(toolbarSignals) + [b]
      ensures undoList == old(undoList) && redoList == old(redoList)
      ensures markerActive == old(markerActive) && changedSinceLastSave == old(changedSinceLastSave)
      ensures stepRequests == old(stepRequests)
    {
      isActivated := b;
      toolbarSignals := toolbarSignals + [b];
    }

    /** callUndoStep: the newest command moves from the undo stack to the redo stack. */
    method CallUndoStep()
      modifies this
      ensures (undoList, redoList) == UndoMove(old(undoList), old(redoList))
      ensures stepRequests == old(stepRequests) + [UndoStep]
      ensures isActivated == old(isActivated) && markerActive == old(markerActive)
      ensures toolbarSignals == old(toolbarSignals)
    {
      var moved := UndoMove(undoList, redoList);
      undoList, redoList, stepRequests := moved.0, moved.1, stepRequests + [UndoStep];
    }

    /** callRedoStep: the top of the redo stack moves back onto the undo stack. */
    method CallRedoStep()
      modifies this
      ensures (undoList, redoList) == RedoMove(old(undoList), old(redoList))
      ensures stepRequests == old(stepRequests) + [RedoStep]
      ensures isActivated == old(isActivated) && markerActive == old(markerActive)
      ensures toolbarSignals == old(toolbarSignals)
    {
      var moved := RedoMove(undoList, redoList);
      undoList, redoList, stepRequests := moved.0, moved.1, stepRequests + [RedoStep];
    }

    // The default handlers: the Qt event arguments do not influence them.

    function MouseMoveEvent(): (r: RedrawRequest)
      ensures r == DefaultRedrawRequest()
    {
      RedrawRequest(false, Rect(0, 0, 0, 0))
    }

    function MousePressEvent(): (r: RedrawRequest)
      ensures r == DefaultRedrawRequest()
    {
      RedrawRequest(false, Rect(0, 0, 0, 0))
    }

    function MouseReleaseEvent(): (r: RedrawRequest)
      ensures r == DefaultRedrawRequest()
    {
      RedrawRequest(false, Rect(0, 0, 0, 0))
    }

    function ToolTipEvent(): (handled: bool)
      ensures !handled
    {
      false
    }

    function KeyPressEvent(key: int): (handled: bool)
      ensures !handled
    {
      false
    }

    function LeaveWidgetEvent(): (handled: bool)
      ensures !handled
    {
      false
    }

    function DrawSLOOverlayImage(alpha: real): (drawn: bool)
      ensures !drawn
    {
      false
    }
  }

  /**
   * An SLO marker module as the marker manager uses it: its identity, its
   * activation and its changed flag.
   */
  class SloMarker {
    const markerId: string
    var isActivated: bool
    var changedSinceLastSave: bool

    constructor(markerId: string)
      ensures this.markerId == markerId && !isActivated && !changedSinceLastSave
    {
      this.markerId := markerId;
      isActivated := false;
      changedSinceLastSave := false;
    }

    method Activate(b: bool)
      modifies this
      ensures isActivated == b && changedSinceLastSave == old(changedSinceLastSave)
    {
      isActivated := b;
    }
  }
}
