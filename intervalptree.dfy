/**
 * Persistence of the B-scan interval markers (bscanintervalptree.cpp).
 *
 * Every marker collection (signal quality, ...) keeps, per B-scan, an ordered
 * interval map from [lower, upper) to a marker that may be undefined. Saving
 * writes each collection as
 *   <collection> / BScan { ID, Intervall { Start, End, Class } ... } ...
 * and loading reads that layout back, feeding every interval to the marker
 * store's setMarker, which this model records as a sequence of calls.
 */
module BScanIntervalPTree {
  import opened Wrappers
  import opened Decimal
  import opened PropertyTree

  const BSCAN_KEY := "BScan"
  const ID_KEY := "ID"
  const INTERVALL_KEY := "Intervall"
  const START_KEY := "Start"
  const END_KEY := "End"
  const CLASS_KEY := "Class"
  /** Key under which old files kept the signal-quality markers. */
  const LEGACY_QUALITY_KEY := "Quality"
  const SIGNAL_QUALITY := "signalQuality"

  // ---------------------------------------------------------------------------
  // Data model

  /** One segment of an interval map: [lower, upper) carrying a marker, named by its internal name, or none. */
  datatype MarkerEntry = MarkerEntry(lower: Int32, upper: Int32, marker: Option<string>)

  /** A B-scan's interval map, as iterated: segments in ascending order. */
  type MarkerMap = seq<MarkerEntry>

  /** A registered marker collection: its internal name and the internal names of its markers. */
  datatype IntervalMarker = IntervalMarker(internalName: string, markerNames: seq<string>)

  /** The registry of defined collections, in the iteration order of its std::map. */
  type IntervalMarkerRegistry = seq<IntervalMarker>

  /** The marker store: the number of B-scans and, per collection name, one map per B-scan. */
  datatype IntervalMarkerStore = IntervalMarkerStore(numBScans: nat, markers: map<string, seq<MarkerMap>>)

  predicate DistinctNames(reg: IntervalMarkerRegistry) {
    forall i, j :: 0 <= i < j < |reg| ==> reg[i].internalName != reg[j].internalName
  }

  function Names(reg: IntervalMarkerRegistry): set<string> {
    set i | 0 <= i < |reg| :: reg[i].internalName
  }

  predicate HoldsCollection(store: IntervalMarkerStore, name: string) {
    name in store.markers && |store.markers[name]| == store.numBScans
  }

  predicate HoldsRegistry(store: IntervalMarkerStore, reg: IntervalMarkerRegistry) {
    forall i :: 0 <= i < |reg| ==> HoldsCollection(store, reg[i].internalName)
  }

  /** getMarkers(collection, bscan) */
  function GetMarkers(store: IntervalMarkerStore, name: string, bscan: nat): MarkerMap
    requires HoldsCollection(store, name) && bscan < store.numBScans
  {
    store.markers[name][bscan]
  }

  predicate HasDefinedMarker(m: MarkerMap) {
    exists k :: 0 <= k < |m| && m[k].marker.Some?
  }

  // ---------------------------------------------------------------------------
  // Saving: the tree fillPTree produces

  function IntervallNode(e: MarkerEntry): PTree
    requires e.marker.Some?
  {
    PTree("", [Child(START_KEY, Leaf(IntToString(e.lower))),
               Child(END_KEY, Leaf(IntToString(e.upper))),
               Child(CLASS_KEY, Leaf(e.marker.value))])
  }

  /** One Intervall child per defined segment, in map order. */
  function IntervallChildren(m: MarkerMap): seq<Child> {
    if m == [] then []
    else
      var last := m[|m| - 1];
      IntervallChildren(m[..|m| - 1]) + (if last.marker.Some? then [Child(INTERVALL_KEY, IntervallNode(last))] else [])
  }

  function BScanNode(bscan: nat, m: MarkerMap): PTree {
    PTree("", [Child(ID_KEY, Leaf(NatToString(bscan)))] + IntervallChildren(m))
  }

  /** The BScan children written for B-scans 0 .. n-1 of one collection. */
  function BScanChildren(store: IntervalMarkerStore, name: string, n: nat): seq<Child>
    requires HoldsCollection(store, name) && n <= store.numBScans
  {
    if n == 0 then []
    else
      var m := GetMarkers(store, name, n - 1);
      BScanChildren(store, name, n - 1) + (if HasDefinedMarker(m) then [Child(BSCAN_KEY, BScanNode(n - 1, m))] else [])
  }

  function CollectionNode(store: IntervalMarkerStore, name: string): PTree
    requires HoldsCollection(store, name)
  {
    PTree("", BScanChildren(store, name, store.numBScans))
  }

  /** fillPTreeMarkerCollection: erase the collection key, then append it anew. */
  function FillCollection(tree: PTree, store: IntervalMarkerStore, name: string): PTree
    requires HoldsCollection(store, name)
  {
    PTree(tree.data, Without(tree.children, {name}) + [Child(name, CollectionNode(store, name))])
  }

  function FillRegistry(tree: PTree, store: IntervalMarkerStore, reg: IntervalMarkerRegistry): PTree
    requires HoldsRegistry(store, reg)
  {
    if reg == [] then tree
    else FillCollection(FillRegistry(tree, store, reg[..|reg| - 1]), store, reg[|reg| - 1].internalName)
  }

  /** fillPTree: every registered collection in turn, then the legacy key is erased. */
  function FillPTreeSpec(tree: PTree, store: IntervalMarkerStore, reg: IntervalMarkerRegistry): PTree
    requires HoldsRegistry(store, reg)
  {
    Erase(FillRegistry(tree, store, reg), LEGACY_QUALITY_KEY)
  }

  method FillPTreeMarkerCollection(markerTree: PTree, store: IntervalMarkerStore, name: string) returns (result: PTree)
    requires HoldsCollection(store, name)
    ensures result == FillCollection(markerTree, store, name)
  {
    var erased := Erase(markerTree, name);
    var qualityTree := PTree("", []);
    var bscan := 0;
    while bscan < store.numBScans
      invariant bscan <= store.numBScans
      invariant qualityTree == PTree("", BScanChildren(store, name, bscan))
    {
      var markerMap := GetMarkers(store, name, bscan);
      var bscanEmpty := true;
      var k := 0;
      while k < |markerMap|
        invariant k <= |markerMap|
        invariant bscanEmpty ==> forall j :: 0 <= j < k ==> markerMap[j].marker.None?
        invariant !bscanEmpty ==> HasDefinedMarker(markerMap)
      {
        if markerMap[k].marker.Some? {
          bscanEmpty := false;
          break;
        }
        k := k + 1;
      }
      if bscanEmpty {
        bscan := bscan + 1;
        continue;
      }

      var bscanNode := Add(PTree("", []), ID_KEY, Leaf(NatToString(bscan)));
      k := 0;
      while k < |markerMap|
        invariant k <= |markerMap|
        invariant bscanNode == BScanNode(bscan, markerMap[..k])
      {
        var pair := markerMap[k];
        assert markerMap[..k + 1][..k] == markerMap[..k];
        assert IntervallChildren(markerMap[..k + 1]) == IntervallChildren(markerMap[..k]) +
          (if pair.marker.Some? then [Child(INTERVALL_KEY, IntervallNode(pair))] else []);
        if pair.marker.Some? {
          var intervallNode := PTree("", []);
          intervallNode := Add(intervallNode, START_KEY, Leaf(IntToString(pair.lower)));
          intervallNode := Add(intervallNode, END_KEY, Leaf(IntToString(pair.upper)));
          intervallNode := Add(intervallNode, CLASS_KEY, Leaf(pair.marker.value));
          assert intervallNode == IntervallNode(pair);
          bscanNode := Add(bscanNode, INTERVALL_KEY, intervallNode);
        }
        k := k + 1;
      }
      assert markerMap[..k] == markerMap;
      qualityTree := Add(qualityTree, BSCAN_KEY, bscanNode);
      bscan := bscan + 1;
    }
    result := PTree(erased.data, erased.children + [Child(name, qualityTree)]);
  }

  method FillPTree(markerTree: PTree, store: IntervalMarkerStore, reg: IntervalMarkerRegistry) returns (result: PTree)
    requires HoldsRegistry(store, reg)
    ensures result == FillPTreeSpec(markerTree, store, reg)
  {
    result := markerTree;
    for i := 0 to |reg|
      invariant result == FillRegistry(markerTree, store, reg[..i])
    {
      result := FillPTreeMarkerCollection(result, store, reg[i].internalName);
      assert reg[..i + 1][..i] == reg[..i];
    }
    assert reg[..|reg|] == reg;
    result := Erase(result, LEGACY_QUALITY_KEY);
  }

  // ---------------------------------------------------------------------------
  // Loading

  /** A call of setMarker(start, end, marker, bscan) on the given collection. */
  datatype MarkerCall = SetMarker(collection: string, bscan: int, start: int, end: int, marker: string)

  /** The exceptions get_child and get_value throw. */
  datatype PTreeError = BadPath(path: string) | BadData(path: string, data: string)

  /**
   * What loading has done so far: the setMarker calls issued, the unknown
   * classes reported on the error stream, and the exception that ended it, if any.
   */
  datatype ParseRun = ParseRun(calls: seq<MarkerCall>, unknownClasses: seq<string>, error: Option<PTreeError>)

  /** How parsePTree ends: it returns a value or throws. */
  datatype Outcome = Returned(value: bool) | Threw(error: PTreeError)

  /** get_child(key).get_value<int>() */
  function GetChildInt(t: PTree, key: string): Result<Int32, PTreeError> {
    match Find(t.children, key)
    case None => Failure(BadPath(key))
    case Some(c) =>
      match ParseInt(c.data)
      case None => Failure(BadData(key, c.data))
      case Some(v) => Success(v)
  }

  /** get_child(key).get_value<std::string>() */
  function GetChildString(t: PTree, key: string): Result<string, PTreeError> {
    match Find(t.children, key)
    case None => Failure(BadPath(key))
    case Some(c) => Success(c.data)
  }

  /** One child of a BScan node. */
  function ParseIntervall(st: ParseRun, collection: string, markerNames: seq<string>, bscanId: int, c: Child): ParseRun {
    if c.key != INTERVALL_KEY then st
    else
      match GetChildInt(c.tree, START_KEY)
      case Failure(e) => st.(error := Some(e))
      case Success(start) =>
        match GetChildInt(c.tree, END_KEY)
        case Failure(e) => st.(error := Some(e))
        case Success(end) =>
          match GetChildString(c.tree, CLASS_KEY)
          case Failure(e) => st.(error := Some(e))
          case Success(cls) =>
            if cls in markerNames then st.(calls := st.calls + [SetMarker(collection, bscanId, start, end, cls)])
            else st.(unknownClasses := st.unknownClasses + [cls])
  }

  function RunIntervalls(st: ParseRun, collection: string, markerNames: seq<string>, bscanId: int, cs: seq<Child>): ParseRun
    decreases cs
  {
    if cs == [] || st.error.Some? then st
    else RunIntervalls(ParseIntervall(st, collection, markerNames, bscanId, cs[0]), collection, markerNames, bscanId, cs[1..])
  }

  /** The B-scan id read from a node: none when ID is missing, -1 when it does not parse. */
  function ReadBScanId(t: PTree): Option<int> {
    match Find(t.children, ID_KEY)
    case None => None
    case Some(idNode) => Some(ParseInt(idNode.data).GetOr(-1))
  }

  /** One child of a collection node. */
  function ParseBScan(st: ParseRun, collection: string, markerNames: seq<string>, c: Child): ParseRun {
    if c.key != BSCAN_KEY then st
    else
      match ReadBScanId(c.tree)
      case None => st
      case Some(bscanId) =>
        if bscanId == -1 then st
        else RunIntervalls(st, collection, markerNames, bscanId, c.tree.children)
  }

  function RunBScans(st: ParseRun, collection: string, markerNames: seq<string>, cs: seq<Child>): ParseRun
    decreases cs
  {
    if cs == [] || st.error.Some? then st
    else RunBScans(ParseBScan(st, collection, markerNames, cs[0]), collection, markerNames, cs[1..])
  }

  /** parsePTreeMarkerCollection: read the node under `key` into `collection`. */
  function ParseCollection(st: ParseRun, tree: PTree, key: string, collection: string, markerNames: seq<string>): ParseRun {
    match Find(tree.children, key)
    case None => st
    case Some(node) => RunBScans(st, collection, markerNames, node.children)
  }

  function RunRegistry(st: ParseRun, tree: PTree, reg: IntervalMarkerRegistry): ParseRun
    decreases reg
  {
    if reg == [] || st.error.Some? then st
    else RunRegistry(ParseCollection(st, tree, reg[0].internalName, reg[0].internalName, reg[0].markerNames), tree, reg[1..])
  }

  /** std::map::find on the registry. */
  function FindCollection(reg: IntervalMarkerRegistry, name: string): Option<IntervalMarker> {
    if reg == [] then None
    else if reg[0].internalName == name then Some(reg[0])
    else FindCollection(reg[1..], name)
  }

  const EmptyRun := ParseRun([], [], None)

  /** parsePTree: every registered collection, then the legacy key into signalQuality if that is registered. */
  function ParsePTreeSpec(tree: PTree, reg: IntervalMarkerRegistry): ParseRun {
    var st := RunRegistry(EmptyRun, tree, reg);
    if st.error.Some? then st
    else
      match FindCollection(reg, SIGNAL_QUALITY)
      case None => st
      case Some(sq) => ParseCollection(st, tree, LEGACY_QUALITY_KEY, SIGNAL_QUALITY, sq.markerNames)
  }

  /** The intervals loop of parsePTreeMarkerCollection, for one B-scan node. */
  method ParseBScanIntervalls(intervallPairs: seq<Child>, st: ParseRun, collection: string, markerNames: seq<string>, bscanId: int)
    returns (r: ParseRun, outcome: Outcome)
    requires st.error.None?
    ensures r == RunIntervalls(st, collection, markerNames, bscanId, intervallPairs)
    ensures outcome.Returned? <==> r.error.None?
    ensures outcome.Returned? ==> outcome.value
    ensures outcome.Threw? ==> r.error == Some(outcome.error)
  {
    r := st;
    for k := 0 to |intervallPairs|
      invariant r.error.None?
      invariant RunIntervalls(st, collection, markerNames, bscanId, intervallPairs) ==
                RunIntervalls(r, collection, markerNames, bscanId, intervallPairs[k..])
    {
      assert intervallPairs[k..][1..] == intervallPairs[k + 1..];
      var intervallNodePair := intervallPairs[k];
      if intervallNodePair.key != INTERVALL_KEY {
        continue;
      }
      var intervallNode := intervallNodePair.tree;
      var start := GetChildInt(intervallNode, START_KEY);
      if start.Failure? { r := r.(error := Some(start.error)); return r, Threw(start.error); }
      var end := GetChildInt(intervallNode, END_KEY);
      if end.Failure? { r := r.(error := Some(end.error)); return r, Threw(end.error); }
      var classNode := GetChildString(intervallNode, CLASS_KEY);
      if classNode.Failure? { r := r.(error := Some(classNode.error)); return r, Threw(classNode.error); }
      var intervallClass := classNode.value;

      if intervallClass in markerNames {
        r := r.(calls := r.calls + [SetMarker(collection, bscanId, start.value, end.value, intervallClass)]);
      } else {
        r := r.(unknownClasses := r.unknownClasses + [intervallClass]);
      }
    }
    return r, Returned(true);
  }

  method ParsePTreeMarkerCollection(ptree: PTree, st: ParseRun, key: string, collection: string, markerNames: seq<string>)
    returns (r: ParseRun, outcome: Outcome)
    requires st.error.None?
    ensures r == ParseCollection(st, ptree, key, collection, markerNames)
    ensures outcome.Returned? <==> r.error.None?
    ensures outcome.Returned? ==> outcome.value
    ensures outcome.Threw? ==> r.error == Some(outcome.error)
  {
    r := st;
    var bscansNode := Find(ptree.children, key);
    if bscansNode.None? {
      return r, Returned(true);
    }
    var bscanPairs := bscansNode.value.children;
    for b := 0 to |bscanPairs|
      invariant r.error.None?
      invariant ParseCollection(st, ptree, key, collection, markerNames) == RunBScans(r, collection, markerNames, bscanPairs[b..])
    {
      var bscanPair := bscanPairs[b];
      assert bscanPairs[b..][1..] == bscanPairs[b + 1..];
      if bscanPair.key != BSCAN_KEY {
        continue;
      }
      var idNodeOpt := Find(bscanPair.tree.children, ID_KEY);
      if idNodeOpt.None? {
        continue;
      }
      var bscanId := ParseInt(idNodeOpt.value.data).GetOr(-1);
      if bscanId == -1 {
        continue;
      }
      var intervallsOutcome;
      r, intervallsOutcome := ParseBScanIntervalls(bscanPair.tree.children, r, collection, markerNames, bscanId);
      if intervallsOutcome.Threw? {
        return r, intervallsOutcome;
      }
    }
    return r, Returned(true);
  }

  method ParsePTree(ptree: PTree, reg: IntervalMarkerRegistry) returns (r: ParseRun, outcome: Outcome)
    ensures r == ParsePTreeSpec(ptree, reg)
    ensures outcome.Returned? <==> r.error.None?
    ensures outcome.Returned? ==> outcome.value
    ensures outcome.Threw? ==> r.error == Some(outcome.error)
  {
    var result := true;
    r := EmptyRun;
    for i := 0 to |reg|
      invariant r.error.None? && result
      invariant RunRegistry(EmptyRun, ptree, reg) == RunRegistry(r, ptree, reg[i..])
    {
      assert reg[i..][1..] == reg[i + 1..];
      var collectionOutcome;
      r, collectionOutcome := ParsePTreeMarkerCollection(ptree, r, reg[i].internalName, reg[i].internalName, reg[i].markerNames);
      if collectionOutcome.Threw? {
        return r, collectionOutcome;
      }
      result := result && collectionOutcome.value;
    }

    var signalQuality := FindCollection(reg, SIGNAL_QUALITY);
    if signalQuality.Some? {
      var collectionOutcome;
      r, collectionOutcome := ParsePTreeMarkerCollection(ptree, r, LEGACY_QUALITY_KEY, SIGNAL_QUALITY, signalQuality.value.markerNames);
      if collectionOutcome.Threw? {
        return r, collectionOutcome;
      }
      result := result && collectionOutcome.value;
    }
    return r, Returned(result);
  }
}
