/**
 * The marker manager (OctMarkerManager): which B-scan of the loaded series
 * is shown, which B-scan marker module and which SLO marker module is the
 * active tool, whether there are unsaved changes, and the forwarding of
 * undo and redo to the active B-scan marker. Emitted Qt signals and the
 * setActBScan notifications sent to the marker modules are recorded in an
 * event log.
 */
module OctMarkerManager {
  import opened Wrappers
  import opened Decimal
  import opened PropertyTree
  import opened OctData
  import opened MarkerBase
  import opened ProgramOptionsType

  datatype ManagerEvent =
    | MarkerSetActBScan(marker: nat, bscan: int)   // setActBScan sent to bscanMarkerObj[marker]
    | NewBScanShowed(shown: Option<BScan>)
    | BScanChanged(bscan: int)
    | BscanMarkerChanged(active: Option<nat>)      // index of the new active B-scan marker
    | SloMarkerChanged(active: Option<nat>)        // index of the new active SLO marker
    | UndoRedoStateChange
    | NewSeriesShowed(series: Option<Series>)

  /** The setActBScan notifications chooseBScan sends, one per B-scan marker in order. */
  function SetActBScanCalls(numMarkers: nat, bscan: int): (r: seq<ManagerEvent>)
    ensures |r| == numMarkers
    ensures forall i :: 0 <= i < numMarkers ==> r[i] == MarkerSetActBScan(i, bscan)
  {
    seq(numMarkers, i requires 0 <= i < numMarkers => MarkerSetActBScan(i, bscan))
  }

  /** The number of B-scans of the series, as chooseBScan bounds the index with it. */
  function BScanCount(series: Option<Series>): nat {
    if series.Some? then |series.value.bscans| else 0
  }

  /** The marker-tree child a module's state is stored under; an absent child reads as an empty tree. */
  function SubtreeFor(markerTree: PTree, markerId: string): (r: PTree)
    ensures Find(markerTree.children, markerId).Some? ==> r == Find(markerTree.children, markerId).value
    ensures Find(markerTree.children, markerId).None? ==> r == Leaf("")
  {
    Find(markerTree.children, markerId).GetOr(Leaf(""))
  }

  // --- setSloMarker's index check ---------------------------------------------

  /**
   * The SLO marker setSloMarker picks, as written: the id is checked against
   * the number of B-scan markers, and sloMarkerObj.at(id) throws
   * std::out_of_range for an id at or past the number of SLO markers.
   */
  function SloMarkerLookupAsWritten(id: int, numBscanMarkers: nat, numSloMarkers: nat): (r: Result<Option<nat>, string>)
    ensures r.Failure? <==> 0 <= id < numBscanMarkers && numSloMarkers <= id
    ensures r.Success? && r.value.Some? ==> r.value.value == id && id < numSloMarkers
  {
    if id < 0 || id >= numBscanMarkers then Success(None)
    else if id >= numSloMarkers then Failure("std::out_of_range")
    else Success(Some(id as nat))
  }

  /** The SLO marker setSloMarker is meant to pick: the id is checked against the SLO markers. */
  function SloMarkerLookup(id: int, numSloMarkers: nat): (r: Option<nat>)
    ensures r.Some? <==> 0 <= id < numSloMarkers
    ensures r.Some? ==> r.value == id
  {
    if 0 <= id < numSloMarkers then Some(id as nat) else None
  }

  /** With six B-scan markers and one SLO marker, setSloMarker(1) throws. */
  lemma SloMarkerLookupThrows()
    ensures SloMarkerLookupAsWritten(1, 6, 1).Failure?
    ensures SloMarkerLookup(1, 1).None?
  {
  }

  /** Whenever the written check does not throw, it picks what the corrected check picks. */
  lemma SloMarkerLookupAgrees(id: int, numBscanMarkers: nat, numSloMarkers: nat)
    requires numSloMarkers <= numBscanMarkers
    ensures SloMarkerLookupAsWritten(id, numBscanMarkers, numSloMarkers).Success? ==>
      SloMarkerLookupAsWritten(id, numBscanMarkers, numSloMarkers).value == SloMarkerLookup(id, numSloMarkers)
    ensures SloMarkerLookupAsWritten(id, numBscanMarkers, numSloMarkers).Failure? ==>
      SloMarkerLookup(id, numSloMarkers).None?
  {
  }

  /** The first B-scan marker whose marker id is `id`. */
  function FirstWithId(markers: seq<BscanMarker>, id: string): (r: Option<nat>)
    ensures r.None? <==> forall i :: 0 <= i < |markers| ==> markers[i].markerId != id
    ensures r.Some? ==> r.value < |markers| && markers[r.value].markerId == id &&
                        forall i :: 0 <= i < r.value ==> markers[i].markerId != id
  {
    if markers == [] then None
    else if markers[0].markerId == id then Some(0)
    else
      var r := FirstWithId(markers[1..], id);
      if r.Some? then Some(r.value + 1) else None
  }

  predicate Distinct<T(==)>(s: seq<T>) {
    forall i, j :: 0 <= i < j < |s| ==> s[i] != s[j]
  }

  class MarkerManager {
    var actBScan: int
    var series: Option<Series>
    const bscanMarkerObj: seq<BscanMarker>
    var actBscanMarker: BscanMarker?
    var actBscanMarkerId: Int32
    const sloMarkerObj: seq<SloMarker>
    var actSloMarker: SloMarker?
    var actSloMarkerId: Int32
    var stateChangedSinceLastSave: bool
    var events: seq<ManagerEvent>
    /** The program options that remember the selected tools. */
    const bscanMarkerToolId: OptionInt
    const sloMarkerToolId: OptionInt

    function BscanMarkerAt(id: int): (m: BscanMarker?)
      ensures m != null <==> 0 <= id < |bscanMarkerObj|
      ensures m != null ==> m == bscanMarkerObj[id]
    {
      if 0 <= id < |bscanMarkerObj| then bscanMarkerObj[id] else null
    }

    function SloMarkerAt(id: int): (m: SloMarker?)
      ensures m != null <==> SloMarkerLookup(id, |sloMarkerObj|).Some?
      ensures m != null ==> m == sloMarkerObj[id]
    {
      var k := SloMarkerLookup(id, |sloMarkerObj|);
      if k.Some? then sloMarkerObj[k.value] else null
    }

    /**
     * The markers are distinct objects; the active marker is the one the
     * active id names; a marker is activated exactly when it is the active one.
     */
    ghost predicate Valid()
      reads this, bscanMarkerObj, sloMarkerObj
    {
      |bscanMarkerObj| <= INT_MAX &&
      Distinct(bscanMarkerObj) && Distinct(sloMarkerObj) &&
      bscanMarkerToolId != sloMarkerToolId &&
      actBscanMarker == BscanMarkerAt(actBscanMarkerId) &&
      actSloMarker == SloMarkerAt(actSloMarkerId) &&
      (forall i :: 0 <= i < |bscanMarkerObj| ==> (bscanMarkerObj[i].isActivated <==> bscanMarkerObj[i] == actBscanMarker)) &&
      (forall i :: 0 <= i < |sloMarkerObj| ==> (sloMarkerObj[i].isActivated <==> sloMarkerObj[i] == actSloMarker))
    }

    /** What the marker modules remember apart from their activation: undo history, flags, requests. */
    twostate predicate MarkerHistoryKept()
      reads bscanMarkerObj, sloMarkerObj
    {
      (forall i :: 0 <= i < |bscanMarkerObj| ==>
         bscanMarkerObj[i].undoList == old(bscanMarkerObj[i].undoList) &&
         bscanMarkerObj[i].redoList == old(bscanMarkerObj[i].redoList) &&
         bscanMarkerObj[i].changedSinceLastSave == old(bscanMarkerObj[i].changedSinceLastSave) &&
         bscanMarkerObj[i].markerActive == old(bscanMarkerObj[i].markerActive) &&
         bscanMarkerObj[i].stepRequests == old(bscanMarkerObj[i].stepRequests)) &&
      (forall i :: 0 <= i < |sloMarkerObj| ==>
         sloMarkerObj[i].changedSinceLastSave == old(sloMarkerObj[i].changedSinceLastSave))
    }

    /** The marker modules are exactly as they were. */
    twostate predicate MarkersUnchanged()
      reads bscanMarkerObj, sloMarkerObj
    {
      MarkerHistoryKept() &&
      (forall i :: 0 <= i < |bscanMarkerObj| ==>
         bscanMarkerObj[i].isActivated == old(bscanMarkerObj[i].isActivated) &&
         bscanMarkerObj[i].toolbarSignals == old(bscanMarkerObj[i].toolbarSignals)) &&
      (forall i :: 0 <= i < |sloMarkerObj| ==> sloMarkerObj[i].isActivated == old(sloMarkerObj[i].isActivated))
    }

    /** The selection state: shown B-scan, series, active markers, the flag and the log. */
    twostate predicate SelectionUnchanged()
      reads this
    {
      actBScan == old(actBScan) && series == old(series) &&
      actBscanMarker == old(actBscanMarker) && actBscanMarkerId == old(actBscanMarkerId) &&
      actSloMarker == old(actSloMarker) && actSloMarkerId == old(actSloMarkerId) &&
      stateChangedSinceLastSave == old(stateChangedSinceLastSave) && events == old(events)
    }

    /** The state after chooseBScan(bscan). */
    twostate predicate BScanChosen(bscan: int)
      reads this
    {
      series == old(series) &&
      actBscanMarker == old(actBscanMarker) && actBscanMarkerId == old(actBscanMarkerId) &&
      actSloMarker == old(actSloMarker) && actSloMarkerId == old(actSloMarkerId) &&
      stateChangedSinceLastSave == old(stateChangedSinceLastSave) &&
      if bscan == old(actBScan) || bscan < 0 || bscan >= BScanCount(old(series)) then
        actBScan == old(actBScan) && events == old(events)
      else
        actBScan == bscan &&
        events == old(events) + SetActBScanCalls(|bscanMarkerObj|, bscan) +
                  [NewBScanShowed(GetBScan(series, bscan)), BScanChanged(bscan)]
    }

    /** The state after setBscanMarker(id). */
    twostate predicate BscanMarkerSelected(id: Int32)
      reads this, bscanMarkerToolId
    {
      actBscanMarker == BscanMarkerAt(id) &&
      actBScan == old(actBScan) && series == old(series) &&
      actSloMarker == old(actSloMarker) && actSloMarkerId == old(actSloMarkerId) &&
      if old(actBscanMarker) == BscanMarkerAt(id) then
        actBscanMarkerId == old(actBscanMarkerId) &&
        stateChangedSinceLastSave == old(stateChangedSinceLastSave) && events == old(events) &&
        bscanMarkerToolId.value == old(bscanMarkerToolId.value) &&
        bscanMarkerToolId.signals == old(bscanMarkerToolId.signals)
      else
        actBscanMarkerId == id &&
        stateChangedSinceLastSave == (old(stateChangedSinceLastSave) &&
                                      (old(actBscanMarker) != null ==> old(actBscanMarker.changedSinceLastSave))) &&
        events == old(events) + [BScanChanged(actBScan),
                                 BscanMarkerChanged(if 0 <= id < |bscanMarkerObj| then Some(id as nat) else None),
                                 UndoRedoStateChange] &&
        bscanMarkerToolId.value == id &&
        bscanMarkerToolId.signals == old(bscanMarkerToolId.signals) + (if old(bscanMarkerToolId.value) != id then [id] else [])
    }

    /**
     * The constructor: every B-scan marker is deactivated, then the tools
     * the program options remember are selected.
     */
    constructor(bscanMarkers: seq<BscanMarker>, sloMarkers: seq<SloMarker>, bscanToolOption: OptionInt, sloToolOption: OptionInt)
      requires |bscanMarkers| <= INT_MAX && bscanToolOption != sloToolOption
      requires forall i, j :: 0 <= i < j < |bscanMarkers| ==> bscanMarkers[i] != bscanMarkers[j]
      requires forall i, j :: 0 <= i < j < |sloMarkers| ==> sloMarkers[i] != sloMarkers[j]
      requires forall i :: 0 <= i < |sloMarkers| ==> !sloMarkers[i].isActivated
      modifies bscanMarkers, sloMarkers, bscanToolOption, sloToolOption
      ensures Valid()
      ensures bscanMarkerObj == bscanMarkers && sloMarkerObj == sloMarkers
      ensures bscanMarkerToolId == bscanToolOption && sloMarkerToolId == sloToolOption
      ensures actBScan == 0 && series.None? && !stateChangedSinceLastSave
      ensures actBscanMarker == BscanMarkerAt(old(bscanToolOption.value))
      ensures actSloMarker == SloMarkerAt(old(sloToolOption.value))
      ensures actBscanMarkerId == if actBscanMarker != null then old(bscanToolOption.value) else -1
      ensures actSloMarkerId == if actSloMarker != null then old(sloToolOption.value) else -1
    {
      actBScan := 0;
      series := None;
      bscanMarkerObj := bscanMarkers;
      actBscanMarker := null;
      actBscanMarkerId := -1;
      sloMarkerObj := sloMarkers;
      actSloMarker := null;
      actSloMarkerId := -1;
      stateChangedSinceLastSave := false;
      events := [];
      bscanMarkerToolId := bscanToolOption;
      sloMarkerToolId := sloToolOption;
      new;
      for i := 0 to |bscanMarkerObj|
        invariant actBscanMarker == null && actBscanMarkerId == -1 && actSloMarker == null && actSloMarkerId == -1
        invariant actBScan == 0 && series.None? && !stateChangedSinceLastSave
        invariant forall j :: 0 <= j < i ==> !bscanMarkerObj[j].isActivated
        invariant forall j :: 0 <= j < |sloMarkerObj| ==> !sloMarkerObj[j].isActivated
        invariant bscanMarkerToolId.value == old(bscanToolOption.value) && sloMarkerToolId.value == old(sloToolOption.value)
      {
        bscanMarkerObj[i].Activate(false);
      }
      SetBscanMarker(bscanMarkerToolId.value);
      SetSloMarker(sloMarkerToolId.value);
    }

    /** chooseBScan: shows B-scan `bscan` unless it is already shown or out of range. */
    method ChooseBScan(bscan: int)
      requires Valid()
      requires bscan == actBScan || bscan < 0 || series.Some?
      modifies this
      ensures Valid() && BScanChosen(bscan)
      ensures actBScan != old(actBScan) ==> 0 <= actBScan < BScanCount(series)
    {
      if bscan == actBScan {
        return;
      }
      if bscan < 0 {
        return;
      }
      if bscan >= |series.value.bscans| {
        return;
      }
      actBScan := bscan;
      var notified: seq<ManagerEvent> := [];
      for i := 0 to |bscanMarkerObj|
        invariant notified == SetActBScanCalls(i, bscan)
      {
        notified := notified + [MarkerSetActBScan(i, bscan)];
      }
      events := events + notified + [NewBScanShowed(GetBScan(series, actBScan)), BScanChanged(actBScan)];
    }

    /** inkrementBScan: chooseBScan(actBScan + inkrement). */
    method InkrementBScan(inkrement: int)
      requires Valid()
      requires inkrement == 0 || actBScan + inkrement < 0 || series.Some?
      modifies this
      ensures Valid() && BScanChosen(old(actBScan) + inkrement)
    {
      ChooseBScan(actBScan + inkrement);
    }

    /** nextBScan: one B-scan on; at the last B-scan nothing happens. */
    method NextBScan()
      requires Valid()
      requires actBScan + 1 < 0 || series.Some?
      modifies this
      ensures Valid() && BScanChosen(old(actBScan) + 1)
      ensures old(actBScan) + 1 >= BScanCount(series) ==> actBScan == old(actBScan) && events == old(events)
    {
      InkrementBScan(1);
    }

    /** previousBScan: one B-scan back; at the first B-scan nothing happens. */
    method PreviousBScan()
      requires Valid()
      requires actBScan - 1 < 0 || series.Some?
      modifies this
      ensures Valid() && BScanChosen(old(actBScan) - 1)
      ensures old(actBScan) <= 0 ==> actBScan == old(actBScan) && events == old(events)
    {
      InkrementBScan(-1);
    }

    /** Deactivates the old active B-scan marker, then activates the new one. */
    method SwitchBscanMarker(oldMarker: BscanMarker?, newMarker: BscanMarker?)
      requires forall i :: 0 <= i < |bscanMarkerObj| ==> (bscanMarkerObj[i].isActivated <==> bscanMarkerObj[i] == oldMarker)
      modifies bscanMarkerObj
      ensures forall i :: 0 <= i < |bscanMarkerObj| ==> (bscanMarkerObj[i].isActivated <==> bscanMarkerObj[i] == newMarker)
      ensures MarkerHistoryKept()
    {
      if oldMarker != null && oldMarker in bscanMarkerObj {
        oldMarker.Activate(false);
      }
      if newMarker != null && newMarker in bscanMarkerObj {
        newMarker.Activate(true);
      }
    }

    /**
     * setBscanMarker: selects the marker with index `id` (none for an id
     * out of range). When that changes the active marker, the old one is
     * deactivated, the changed-flag is kept only if the old marker had
     * changes, the new one is activated and the option remembers `id`.
     */
    method SetBscanMarker(id: Int32)
      requires Valid()
      modifies this, bscanMarkerObj, bscanMarkerToolId
      ensures Valid() && BscanMarkerSelected(id) && MarkerHistoryKept()
      ensures stateChangedSinceLastSave ==> old(stateChangedSinceLastSave)
    {
      var newMarker: BscanMarker?;
      if id < 0 || id >= |bscanMarkerObj| {
        newMarker := null;
      } else {
        newMarker := bscanMarkerObj[id];
      }
      if newMarker != actBscanMarker {
        ReplaceBscanMarker(id, newMarker);
      }
    }

    /** The part of setBscanMarker that runs when the active marker changes. */
    method ReplaceBscanMarker(id: Int32, newMarker: BscanMarker?)
      requires Valid() && newMarker == BscanMarkerAt(id) && newMarker != actBscanMarker
      modifies this, bscanMarkerObj, bscanMarkerToolId
      ensures Valid() && MarkerHistoryKept()
      ensures actBscanMarker == newMarker && actBscanMarkerId == id
      ensures actBScan == old(actBScan) && series == old(series)
      ensures actSloMarker == old(actSloMarker) && actSloMarkerId == old(actSloMarkerId)
      ensures stateChangedSinceLastSave == (old(stateChangedSinceLastSave) &&
                                            (old(actBscanMarker) != null ==> old(actBscanMarker.changedSinceLastSave)))
      ensures events == old(events) + [BScanChanged(actBScan),
                                       BscanMarkerChanged(if 0 <= id < |bscanMarkerObj| then Some(id as nat) else None),
                                       UndoRedoStateChange]
      ensures bscanMarkerToolId.value == id
      ensures bscanMarkerToolId.signals == old(bscanMarkerToolId.signals) + (if old(bscanMarkerToolId.value) != id then [id] else [])
    {
      var keepFlag := stateChangedSinceLastSave && (actBscanMarker != null ==> actBscanMarker.HasChangedSinceLastSave());
      SwitchBscanMarker(actBscanMarker, newMarker);
      bscanMarkerToolId.SetValue(id);
      actBscanMarkerId, stateChangedSinceLastSave, actBscanMarker, events :=
        id, keepFlag, newMarker,
        events + [BScanChanged(actBScan), BscanMarkerChanged(if newMarker != null then Some(id as nat) else None), UndoRedoStateChange];
    }

    /** setBscanMarkerTextID: selects the first marker whose id is `id`; nothing when none is. */
    method SetBscanMarkerTextID(id: string)
      requires Valid()
      modifies this, bscanMarkerObj, bscanMarkerToolId
      ensures Valid() && MarkerHistoryKept()
      ensures FirstWithId(bscanMarkerObj, id).None? ==>
        SelectionUnchanged() && MarkersUnchanged() && unchanged(bscanMarkerToolId)
      ensures FirstWithId(bscanMarkerObj, id).Some? ==>
        BscanMarkerSelected(FirstWithId(bscanMarkerObj, id).value as Int32)
    {
      var numId := 0;
      while numId < |bscanMarkerObj|
        invariant 0 <= numId <= |bscanMarkerObj|
        invariant forall j :: 0 <= j < numId ==> bscanMarkerObj[j].markerId != id
        invariant unchanged(this) && unchanged(bscanMarkerToolId) && unchanged(bscanMarkerObj) && unchanged(sloMarkerObj)
      {
        if bscanMarkerObj[numId].markerId == id {
          SetBscanMarker(numId);
          return;
        }
        numId := numId + 1;
      }
    }

    /** Deactivates the old active SLO marker, then activates the new one. */
    method SwitchSloMarker(oldMarker: SloMarker?, newMarker: SloMarker?)
      requires forall i :: 0 <= i < |sloMarkerObj| ==> (sloMarkerObj[i].isActivated <==> sloMarkerObj[i] == oldMarker)
      modifies sloMarkerObj
      ensures forall i :: 0 <= i < |sloMarkerObj| ==> (sloMarkerObj[i].isActivated <==> sloMarkerObj[i] == newMarker)
      ensures forall i :: 0 <= i < |sloMarkerObj| ==> sloMarkerObj[i].changedSinceLastSave == old(sloMarkerObj[i].changedSinceLastSave)
    {
      if oldMarker != null && oldMarker in sloMarkerObj {
        oldMarker.Activate(false);
      }
      if newMarker != null && newMarker in sloMarkerObj {
        newMarker.Activate(true);
      }
    }

    /**
     * setSloMarker with the index checked against the SLO markers: selects
     * SLO marker `id` (none out of range), switching activation when that
     * changes the active marker.
     */
    method SetSloMarker(id: Int32)
      requires Valid()
      modifies this, sloMarkerObj, sloMarkerToolId
      ensures Valid() && MarkerHistoryKept()
      ensures actSloMarker == SloMarkerAt(id)
      ensures actBScan == old(actBScan) && series == old(series) && stateChangedSinceLastSave == old(stateChangedSinceLastSave)
      ensures actBscanMarker == old(actBscanMarker) && actBscanMarkerId == old(actBscanMarkerId)
      ensures old(actSloMarker) == SloMarkerAt(id) ==>
        actSloMarkerId == old(actSloMarkerId) && events == old(events) && unchanged(sloMarkerToolId)
      ensures old(actSloMarker) != SloMarkerAt(id) ==>
        actSloMarkerId == id && sloMarkerToolId.value == id &&
        sloMarkerToolId.signals == old(sloMarkerToolId.signals) + (if old(sloMarkerToolId.value) != id then [id] else []) &&
        events == old(events) + [SloMarkerChanged(SloMarkerLookup(id, |sloMarkerObj|))]
    {
      var newMarker: SloMarker?;
      var k := SloMarkerLookup(id, |sloMarkerObj|);
      if k.None? {
        newMarker := null;
      } else {
        newMarker := sloMarkerObj[k.value];
      }
      if newMarker != actSloMarker {
        SwitchSloMarker(actSloMarker, newMarker);
        sloMarkerToolId.SetValue(id);
        actSloMarkerId, actSloMarker, events := id, newMarker, events + [SloMarkerChanged(k)];
      }
    }

    /** hasActMarkerChanged: whether an active marker module reports unsaved changes. */
    function HasActMarkerChanged(): (r: bool)
      requires Valid()
      reads this, bscanMarkerObj, sloMarkerObj
      ensures r <==> (exists i :: 0 <= i < |bscanMarkerObj| && bscanMarkerObj[i].isActivated && bscanMarkerObj[i].changedSinceLastSave) ||
                     (exists i :: 0 <= i < |sloMarkerObj| && sloMarkerObj[i].isActivated && sloMarkerObj[i].changedSinceLastSave)
    {
      var result := false;
      var result := result || (actBscanMarker != null && actBscanMarker.HasChangedSinceLastSave());
      var result := result || (actSloMarker != null && actSloMarker.changedSinceLastSave);
      result
    }

    /** hasChangedSinceLastSave: the manager's flag, or changes in an active marker module. */
    function HasChangedSinceLastSave(): (r: bool)
      requires Valid()
      reads this, bscanMarkerObj, sloMarkerObj
      ensures stateChangedSinceLastSave ==> r
      ensures !stateChangedSinceLastSave ==> (r <==> HasActMarkerChanged())
    {
      if stateChangedSinceLastSave then true else HasActMarkerChanged()
    }

    /** resetChangedSinceLastSaveState: clears only the manager's flag. */
    method ResetChangedSinceLastSaveState()
      requires Valid()
      modifies this
      ensures Valid() && !stateChangedSinceLastSave
      ensures HasChangedSinceLastSave() == HasActMarkerChanged()
      ensures actBScan == old(actBScan) && series == old(series) && events == old(events)
      ensures actBscanMarker == old(actBscanMarker) && actBscanMarkerId == old(actBscanMarkerId)
      ensures actSloMarker == old(actSloMarker) && actSloMarkerId == old(actSloMarkerId)
    {
      stateChangedSinceLastSave := false;
    }

    /** numUndoSteps: those of the active B-scan marker, 0 without one. */
    function NumUndoSteps(): (n: nat)
      requires Valid()
      reads this, bscanMarkerObj, sloMarkerObj
      ensures actBscanMarker == null ==> n == 0
      ensures actBscanMarker != null ==> n == |actBscanMarker.undoList|
      ensures n > 0 ==> exists i :: 0 <= i < |bscanMarkerObj| && bscanMarkerObj[i].isActivated && |bscanMarkerObj[i].undoList| == n
    {
      if actBscanMarker == null then 0 else actBscanMarker.NumUndoSteps()
    }

    /** numRedoSteps: those of the active B-scan marker, 0 without one. */
    function NumRedoSteps(): (n: nat)
      requires Valid()
      reads this, bscanMarkerObj, sloMarkerObj
      ensures actBscanMarker == null ==> n == 0
      ensures actBscanMarker != null ==> n == |actBscanMarker.redoList|
      ensures n > 0 ==> exists i :: 0 <= i < |bscanMarkerObj| && bscanMarkerObj[i].isActivated && |bscanMarkerObj[i].redoList| == n
    {
      if actBscanMarker == null then 0 else actBscanMarker.NumRedoSteps()
    }

    /** callUndoStep: forwarded to the active B-scan marker, if there is one. */
    method CallUndoStep()
      requires Valid()
      modifies bscanMarkerObj
      ensures Valid()
      ensures forall i :: 0 <= i < |bscanMarkerObj| ==>
        bscanMarkerObj[i].stepRequests == old(bscanMarkerObj[i].stepRequests) + (if bscanMarkerObj[i].isActivated then [UndoStep] else []) &&
        bscanMarkerObj[i].isActivated == old(bscanMarkerObj[i].isActivated) &&
        (bscanMarkerObj[i].undoList, bscanMarkerObj[i].redoList) ==
          if bscanMarkerObj[i].isActivated then UndoMove(old(bscanMarkerObj[i].undoList), old(bscanMarkerObj[i].redoList))
          else (old(bscanMarkerObj[i].undoList), old(bscanMarkerObj[i].redoList))
      ensures old(NumUndoSteps()) > 0 ==> NumUndoSteps() + 1 == old(NumUndoSteps()) && NumRedoSteps() == old(NumRedoSteps()) + 1
      ensures old(NumUndoSteps()) == 0 ==> NumRedoSteps() == old(NumRedoSteps())
    {
      if actBscanMarker != null {
        actBscanMarker.CallUndoStep();
      }
    }

    /** callRedoStep: forwarded to the active B-scan marker, if there is one. */
    method CallRedoStep()
      requires Valid()
      modifies bscanMarkerObj
      ensures Valid()
      ensures forall i :: 0 <= i < |bscanMarkerObj| ==>
        bscanMarkerObj[i].stepRequests == old(bscanMarkerObj[i].stepRequests) + (if bscanMarkerObj[i].isActivated then [RedoStep] else []) &&
        bscanMarkerObj[i].isActivated == old(bscanMarkerObj[i].isActivated) &&
        (bscanMarkerObj[i].undoList, bscanMarkerObj[i].redoList) ==
          if bscanMarkerObj[i].isActivated then RedoMove(old(bscanMarkerObj[i].undoList), old(bscanMarkerObj[i].redoList))
          else (old(bscanMarkerObj[i].undoList), old(bscanMarkerObj[i].redoList))
      ensures old(NumRedoSteps()) > 0 ==> NumRedoSteps() + 1 == old(NumRedoSteps()) && NumUndoSteps() == old(NumUndoSteps()) + 1
      ensures old(NumRedoSteps()) == 0 ==> NumUndoSteps() == old(NumUndoSteps())
    {
      if actBscanMarker != null {
        actBscanMarker.CallRedoStep();
      }
    }

    /**
     * Hands every B-scan marker its subtree of the marker tree through
     * newSeriesLoaded; those keeping the base version lose their histories.
     */
    method NotifyNewSeries(s: Option<Series>, markerTree: PTree)
      requires Distinct(bscanMarkerObj)
      modifies bscanMarkerObj
      ensures forall i :: 0 <= i < |bscanMarkerObj| ==>
        bscanMarkerObj[i].isActivated == old(bscanMarkerObj[i].isActivated) &&
        bscanMarkerObj[i].toolbarSignals == old(bscanMarkerObj[i].toolbarSignals) &&
        bscanMarkerObj[i].markerActive == old(bscanMarkerObj[i].markerActive) &&
        bscanMarkerObj[i].stepRequests == old(bscanMarkerObj[i].stepRequests)
      ensures forall i :: 0 <= i < |bscanMarkerObj| && !bscanMarkerObj[i].overridesNewSeriesLoaded ==>
        bscanMarkerObj[i].undoList == [] && bscanMarkerObj[i].redoList == [] &&
        bscanMarkerObj[i].changedSinceLastSave == old(bscanMarkerObj[i].changedSinceLastSave)
    {
      for i := 0 to |bscanMarkerObj|
        invariant forall j :: 0 <= j < |bscanMarkerObj| ==>
          bscanMarkerObj[j].isActivated == old(bscanMarkerObj[j].isActivated) &&
          bscanMarkerObj[j].toolbarSignals == old(bscanMarkerObj[j].toolbarSignals) &&
          bscanMarkerObj[j].markerActive == old(bscanMarkerObj[j].markerActive) &&
          bscanMarkerObj[j].stepRequests == old(bscanMarkerObj[j].stepRequests)
        invariant forall j :: i <= j < |bscanMarkerObj| ==>
          bscanMarkerObj[j].changedSinceLastSave == old(bscanMarkerObj[j].changedSinceLastSave)
        invariant forall j :: 0 <= j < i && !bscanMarkerObj[j].overridesNewSeriesLoaded ==>
          bscanMarkerObj[j].undoList == [] && bscanMarkerObj[j].redoList == [] &&
          bscanMarkerObj[j].changedSinceLastSave == old(bscanMarkerObj[j].changedSinceLastSave)
      {
        bscanMarkerObj[i].NewSeriesLoaded(s, SubtreeFor(markerTree, bscanMarkerObj[i].markerId));
      }
    }

    /**
     * Hands every B-scan marker its subtree of the marker tree through
     * loadState; those keeping the base version lose their histories.
     */
    method LoadMarkerStates(markerTree: PTree)
      requires Distinct(bscanMarkerObj)
      modifies bscanMarkerObj
      ensures forall i :: 0 <= i < |bscanMarkerObj| ==>
        bscanMarkerObj[i].isActivated == old(bscanMarkerObj[i].isActivated) &&
        bscanMarkerObj[i].toolbarSignals == old(bscanMarkerObj[i].toolbarSignals) &&
        bscanMarkerObj[i].markerActive == old(bscanMarkerObj[i].markerActive) &&
        bscanMarkerObj[i].stepRequests == old(bscanMarkerObj[i].stepRequests)
      ensures forall i :: 0 <= i < |bscanMarkerObj| && !bscanMarkerObj[i].overridesLoadState ==>
        bscanMarkerObj[i].undoList == [] && bscanMarkerObj[i].redoList == [] &&
        bscanMarkerObj[i].changedSinceLastSave == old(bscanMarkerObj[i].changedSinceLastSave)
    {
      for i := 0 to |bscanMarkerObj|
        invariant forall j :: 0 <= j < |bscanMarkerObj| ==>
          bscanMarkerObj[j].isActivated == old(bscanMarkerObj[j].isActivated) &&
          bscanMarkerObj[j].toolbarSignals == old(bscanMarkerObj[j].toolbarSignals) &&
          bscanMarkerObj[j].markerActive == old(bscanMarkerObj[j].markerActive) &&
          bscanMarkerObj[j].stepRequests == old(bscanMarkerObj[j].stepRequests)
        invariant forall j :: i <= j < |bscanMarkerObj| ==>
          bscanMarkerObj[j].changedSinceLastSave == old(bscanMarkerObj[j].changedSinceLastSave)
        invariant forall j :: 0 <= j < i && !bscanMarkerObj[j].overridesLoadState ==>
          bscanMarkerObj[j].undoList == [] && bscanMarkerObj[j].redoList == [] &&
          bscanMarkerObj[j].changedSinceLastSave == old(bscanMarkerObj[j].changedSinceLastSave)
      {
        bscanMarkerObj[i].LoadState(SubtreeFor(markerTree, bscanMarkerObj[i].markerId));
      }
    }

    /**
     * The part of showSeries before the first B-scan is chosen: the flag
     * absorbs the active markers' changes, the markers learn of the series,
     * and no B-scan is shown.
     */
    method TakeSeries(s: Option<Series>, markerTree: PTree)
      requires Valid()
      modifies this, bscanMarkerObj
      ensures Valid() && series == s && actBScan == -1
      ensures stateChangedSinceLastSave == old(HasChangedSinceLastSave())
      ensures events == old(events) + [NewSeriesShowed(s)]
      ensures forall i :: 0 <= i < |bscanMarkerObj| && !bscanMarkerObj[i].overridesNewSeriesLoaded ==>
        bscanMarkerObj[i].NumUndoSteps() == 0 && bscanMarkerObj[i].NumRedoSteps() == 0
      ensures actBscanMarker == old(actBscanMarker) && actBscanMarkerId == old(actBscanMarkerId)
      ensures actSloMarker == old(actSloMarker) && actSloMarkerId == old(actSloMarkerId)
    {
      var changed := stateChangedSinceLastSave;
      if actBscanMarker != null && !changed {
        changed := actBscanMarker.HasChangedSinceLastSave();
      }
      if actSloMarker != null && !changed {
        changed := actSloMarker.changedSinceLastSave;
      }
      NotifyNewSeries(s, markerTree);
      series, stateChangedSinceLastSave, events, actBScan := s, changed, events + [NewSeriesShowed(s)], -1;
    }

    /**
     * showSeries: takes the series; without a marker tree nothing else
     * happens. Otherwise the flag absorbs the active markers' changes, every
     * B-scan marker is told about the new series and the first B-scan is
     * chosen; a series without B-scans leaves actBScan at -1.
     */
    method ShowSeries(s: Option<Series>, markerTree: Option<PTree>)
      requires Valid()
      requires markerTree.Some? ==> s.Some?
      modifies this, bscanMarkerObj
      ensures Valid() && series == s
      ensures markerTree.None? ==>
        actBScan == old(actBScan) && events == old(events) &&
        stateChangedSinceLastSave == old(stateChangedSinceLastSave) && MarkersUnchanged()
      ensures markerTree.Some? ==>
        stateChangedSinceLastSave == old(HasChangedSinceLastSave()) &&
        actBScan == (if BScanCount(s) > 0 then 0 else -1) &&
        events == old(events) + [NewSeriesShowed(s)] +
                  (if BScanCount(s) > 0
                   then SetActBScanCalls(|bscanMarkerObj|, 0) + [NewBScanShowed(GetBScan(s, 0)), BScanChanged(0)]
                   else []) &&
        forall i :: 0 <= i < |bscanMarkerObj| && !bscanMarkerObj[i].overridesNewSeriesLoaded ==>
          bscanMarkerObj[i].NumUndoSteps() == 0 && bscanMarkerObj[i].NumRedoSteps() == 0
      ensures actBscanMarker == old(actBscanMarker) && actBscanMarkerId == old(actBscanMarkerId)
      ensures actSloMarker == old(actSloMarker) && actSloMarkerId == old(actSloMarkerId)
    {
      if markerTree.None? {
        series := s;
        return;
      }
      TakeSeries(s, markerTree.value);
      ChooseBScan(0);
    }

    /**
     * loadMarkerStateSlot: for the series shown and a marker tree, every
     * B-scan marker loads its state; the base loadState empties the history.
     */
    method LoadMarkerStateSlot(s: Option<Series>, markerTree: Option<PTree>)
      requires Valid()
      modifies bscanMarkerObj
      ensures Valid()
      ensures series != s || markerTree.None? ==> MarkersUnchanged()
      ensures series == s && markerTree.Some? ==>
        forall i :: 0 <= i < |bscanMarkerObj| && !bscanMarkerObj[i].overridesLoadState ==>
          bscanMarkerObj[i].NumUndoSteps() == 0 && bscanMarkerObj[i].NumRedoSteps() == 0
    {
      if series != s {
        return;
      }
      if markerTree.None? {
        return;
      }
      LoadMarkerStates(markerTree.value);
    }

    /** reloadMarkerStateSlot: loadMarkerStateSlot for the series shown. */
    method ReloadMarkerStateSlot(markerTree: Option<PTree>)
      requires Valid()
      modifies bscanMarkerObj
      ensures Valid()
      ensures markerTree.None? ==> MarkersUnchanged()
      ensures markerTree.Some? ==>
        forall i :: 0 <= i < |bscanMarkerObj| && !bscanMarkerObj[i].overridesLoadState ==>
          bscanMarkerObj[i].NumUndoSteps() == 0 && bscanMarkerObj[i].NumRedoSteps() == 0
    {
      LoadMarkerStateSlot(series, markerTree);
    }
  }

  /** Since a marker is activated exactly when it is the active one, at most one B-scan marker is activated. */
  lemma AtMostOneActive(m: MarkerManager, i: nat, j: nat)
    requires m.Valid() && i < |m.bscanMarkerObj| && j < |m.bscanMarkerObj|
    requires m.bscanMarkerObj[i].isActivated && m.bscanMarkerObj[j].isActivated
    ensures i == j
  {
  }
}
