/**
 * Properties of the interval-marker persistence: what saving writes, that
 * saving twice is saving once, how loading treats malformed input, and that
 * loading what was saved issues exactly the setMarker calls for the saved
 * markers.
 */
module BScanIntervalPTreeLemmas {
  import opened Wrappers
  import opened Decimal
  import opened PropertyTree
  import opened BScanIntervalPTree

  // ---------------------------------------------------------------------------
  // The setMarker calls a store stands for, defined from the store alone

  function Emitted(st: ParseRun, calls: seq<MarkerCall>): ParseRun {
    st.(calls := st.calls + calls)
  }

  /** One call per defined segment, in map order. */
  function MapCalls(collection: string, bscan: nat, m: MarkerMap): seq<MarkerCall> {
    if m == [] then []
    else
      var last := m[|m| - 1];
      MapCalls(collection, bscan, m[..|m| - 1]) +
        (if last.marker.Some? then [SetMarker(collection, bscan, last.lower, last.upper, last.marker.value)] else [])
  }

  function CollectionCalls(store: IntervalMarkerStore, name: string, n: nat): seq<MarkerCall>
    requires HoldsCollection(store, name) && n <= store.numBScans
  {
    if n == 0 then []
    else CollectionCalls(store, name, n - 1) + MapCalls(name, n - 1, GetMarkers(store, name, n - 1))
  }

  function StoreCalls(store: IntervalMarkerStore, reg: IntervalMarkerRegistry): seq<MarkerCall>
    requires HoldsRegistry(store, reg)
  {
    if reg == [] then []
    else CollectionCalls(store, reg[0].internalName, store.numBScans) + StoreCalls(store, reg[1..])
  }

  /** Every defined marker of the map is one the collection knows by name. */
  predicate MarkersKnown(m: MarkerMap, markerNames: seq<string>) {
    forall k :: 0 <= k < |m| && m[k].marker.Some? ==> m[k].marker.value in markerNames
  }

  predicate CollectionKnown(store: IntervalMarkerStore, c: IntervalMarker) {
    HoldsCollection(store, c.internalName) &&
    forall s :: 0 <= s < store.numBScans ==> MarkersKnown(GetMarkers(store, c.internalName, s), c.markerNames)
  }

  predicate RegistryKnown(store: IntervalMarkerStore, reg: IntervalMarkerRegistry) {
    forall i :: 0 <= i < |reg| ==> CollectionKnown(store, reg[i])
  }

  /** The collection children fillPTree appends, one per registered collection in registry order. */
  function Built(store: IntervalMarkerStore, reg: IntervalMarkerRegistry): (b: seq<Child>)
    requires HoldsRegistry(store, reg)
    ensures |b| == |reg|
  {
    seq(|reg|, k requires 0 <= k < |reg| => Child(reg[k].internalName, CollectionNode(store, reg[k].internalName)))
  }

  /** The B-scans that hold a defined marker, ascending. */
  function DefinedScans(store: IntervalMarkerStore, name: string, n: nat): seq<nat>
    requires HoldsCollection(store, name) && n <= store.numBScans
  {
    if n == 0 then []
    else DefinedScans(store, name, n - 1) + (if HasDefinedMarker(GetMarkers(store, name, n - 1)) then [n - 1] else [])
  }

  // ---------------------------------------------------------------------------
  // Saving

  /**
   * The BScan children of a collection are exactly the B-scans holding a
   * defined marker, in ascending order, each written as its BScan node.
   */
  lemma {:induction false} BScanChildrenAreDefinedScans(store: IntervalMarkerStore, name: string, n: nat)
    requires HoldsCollection(store, name) && n <= store.numBScans
    ensures var ids := DefinedScans(store, name, n);
      var cs := BScanChildren(store, name, n);
      |cs| == |ids| &&
      (forall i :: 0 <= i < |ids| ==>
        ids[i] < n && HasDefinedMarker(GetMarkers(store, name, ids[i])) &&
        cs[i] == Child(BSCAN_KEY, BScanNode(ids[i], GetMarkers(store, name, ids[i])))) &&
      (forall i, j :: 0 <= i < j < |ids| ==> ids[i] < ids[j]) &&
      (forall s :: 0 <= s < n && HasDefinedMarker(GetMarkers(store, name, s)) ==> s in ids)
  {
    if n > 0 {
      BScanChildrenAreDefinedScans(store, name, n - 1);
    }
  }

  lemma NamesSnoc(reg: IntervalMarkerRegistry)
    requires reg != []
    ensures Names(reg) == Names(reg[..|reg| - 1]) + {reg[|reg| - 1].internalName}
  {
    var prefix := reg[..|reg| - 1];
    forall x | x in Names(reg) ensures x in Names(prefix) + {reg[|reg| - 1].internalName} {
      var i :| 0 <= i < |reg| && reg[i].internalName == x;
      if i < |reg| - 1 { assert prefix[i] == reg[i]; }
    }
    forall x | x in Names(prefix) ensures x in Names(reg) {
      var i :| 0 <= i < |prefix| && prefix[i].internalName == x;
      assert reg[i] == prefix[i];
    }
  }

  /** The collection children appended are keyed by the registered names, in registry order. */
  lemma BuiltKeys(store: IntervalMarkerStore, reg: IntervalMarkerRegistry)
    requires HoldsRegistry(store, reg)
    ensures forall k :: 0 <= k < |reg| ==> Built(store, reg)[k].key == reg[k].internalName && reg[k].internalName in Names(reg)
  {
  }

  lemma BuiltSnoc(store: IntervalMarkerStore, reg: IntervalMarkerRegistry)
    requires HoldsRegistry(store, reg) && reg != []
    ensures HoldsRegistry(store, reg[..|reg| - 1])
    ensures Built(store, reg) == Built(store, reg[..|reg| - 1]) +
              [Child(reg[|reg| - 1].internalName, CollectionNode(store, reg[|reg| - 1].internalName))]
  {
    var prefix := reg[..|reg| - 1];
    assert HoldsRegistry(store, prefix) by {
      forall i | 0 <= i < |prefix| ensures HoldsCollection(store, prefix[i].internalName) {
        assert prefix[i] == reg[i];
      }
    }
  }

  /** fillPTreeMarkerCollection on a tree of the shape fillPTree builds keeps that shape. */
  lemma FillCollectionStep(data: string, cs: seq<Child>, store: IntervalMarkerStore, prefix: IntervalMarkerRegistry, name: string)
    requires HoldsRegistry(store, prefix) && HoldsCollection(store, name)
    requires name !in Names(prefix)
    ensures FillCollection(PTree(data, Without(cs, Names(prefix)) + Built(store, prefix)), store, name) ==
            PTree(data, Without(cs, Names(prefix) + {name}) + Built(store, prefix) + [Child(name, CollectionNode(store, name))])
  {
    var before := Built(store, prefix);
    BuiltKeys(store, prefix);
    WithoutAppend(Without(cs, Names(prefix)), before, {name});
    WithoutWithout(cs, Names(prefix), {name});
    WithoutNoneOf(before, {name});
  }

  lemma {:induction false} FillRegistryShape(tree: PTree, store: IntervalMarkerStore, reg: IntervalMarkerRegistry)
    requires DistinctNames(reg) && HoldsRegistry(store, reg)
    ensures FillRegistry(tree, store, reg) == PTree(tree.data, Without(tree.children, Names(reg)) + Built(store, reg))
  {
    if reg == [] {
      assert Names(reg) == {};
      WithoutNoneOf(tree.children, {});
    } else {
      var prefix := reg[..|reg| - 1];
      var name := reg[|reg| - 1].internalName;
      BuiltSnoc(store, reg);
      assert DistinctNames(prefix);
      FillRegistryShape(tree, store, prefix);
      NamesSnoc(reg);
      assert name !in Names(prefix);
      FillCollectionStep(tree.data, tree.children, store, prefix, name);
    }
  }

  lemma FillPTreeShape(tree: PTree, store: IntervalMarkerStore, reg: IntervalMarkerRegistry)
    requires DistinctNames(reg) && HoldsRegistry(store, reg)
    ensures FillPTreeSpec(tree, store, reg) ==
            PTree(tree.data, Without(tree.children, Names(reg) + {LEGACY_QUALITY_KEY}) + Without(Built(store, reg), {LEGACY_QUALITY_KEY}))
  {
    FillRegistryShape(tree, store, reg);
    WithoutAppend(Without(tree.children, Names(reg)), Built(store, reg), {LEGACY_QUALITY_KEY});
    WithoutWithout(tree.children, Names(reg), {LEGACY_QUALITY_KEY});
  }

  /** Saving erases and rebuilds every collection key, so saving the saved tree again changes nothing. */
  lemma FillPTreeIdempotent(tree: PTree, store: IntervalMarkerStore, reg: IntervalMarkerRegistry)
    requires DistinctNames(reg) && HoldsRegistry(store, reg)
    ensures FillPTreeSpec(FillPTreeSpec(tree, store, reg), store, reg) == FillPTreeSpec(tree, store, reg)
  {
    var keys := Names(reg) + {LEGACY_QUALITY_KEY};
    var built := Without(Built(store, reg), {LEGACY_QUALITY_KEY});
    var once := FillPTreeSpec(tree, store, reg);
    FillPTreeShape(tree, store, reg);
    FillPTreeShape(once, store, reg);
    BuiltKeys(store, reg);
    WithoutKeysIn(Built(store, reg), {LEGACY_QUALITY_KEY}, keys);
    ReplaceKeysTwice(tree.children, keys, built);
  }

  /** After saving, the legacy key occurs nowhere among the top-level children. */
  lemma FillPTreeDropsLegacyKey(tree: PTree, store: IntervalMarkerStore, reg: IntervalMarkerRegistry)
    requires HoldsRegistry(store, reg)
    ensures Find(FillPTreeSpec(tree, store, reg).children, LEGACY_QUALITY_KEY).None?
  {
  }

  // ---------------------------------------------------------------------------
  // Loading: the defensive paths

  /** A missing collection key is not an error: nothing happens. */
  lemma ParseMissingCollection(st: ParseRun, tree: PTree, key: string, collection: string, markerNames: seq<string>)
    requires Find(tree.children, key).None?
    ensures ParseCollection(st, tree, key, collection, markerNames) == st
  {
  }

  /** A BScan node without ID, with an unparsable ID or with ID -1 contributes nothing. */
  lemma ParseBScanBadId(st: ParseRun, collection: string, markerNames: seq<string>, t: PTree)
    requires Find(t.children, ID_KEY).None? ||
             ParseInt(Find(t.children, ID_KEY).value.data).None? ||
             ParseInt(Find(t.children, ID_KEY).value.data) == Some(-1)
    ensures ParseBScan(st, collection, markerNames, Child(BSCAN_KEY, t)) == st
  {
  }

  /** Children that are neither BScan (in a collection) nor Intervall (in a BScan) are ignored. */
  lemma ParseIgnoresOtherKeys(st: ParseRun, collection: string, markerNames: seq<string>, bscanId: int, c: Child)
    ensures c.key != BSCAN_KEY ==> ParseBScan(st, collection, markerNames, c) == st
    ensures c.key != INTERVALL_KEY ==> ParseIntervall(st, collection, markerNames, bscanId, c) == st
  {
  }

  /** An unknown class is reported and skipped, and the following intervals are still read. */
  lemma UnknownClassSkipped(st: ParseRun, collection: string, markerNames: seq<string>, bscanId: int, t: PTree, rest: seq<Child>)
    requires st.error.None?
    requires GetChildInt(t, START_KEY).Success? && GetChildInt(t, END_KEY).Success?
    requires GetChildString(t, CLASS_KEY).Success? && GetChildString(t, CLASS_KEY).value !in markerNames
    ensures RunIntervalls(st, collection, markerNames, bscanId, [Child(INTERVALL_KEY, t)] + rest) ==
            RunIntervalls(st.(unknownClasses := st.unknownClasses + [GetChildString(t, CLASS_KEY).value]),
                          collection, markerNames, bscanId, rest)
  {
    assert ([Child(INTERVALL_KEY, t)] + rest)[1..] == rest;
  }

  /** A missing Start, End or Class is not caught: the exception ends the parse and later intervals are not read. */
  lemma MissingFieldThrows(st: ParseRun, collection: string, markerNames: seq<string>, bscanId: int, t: PTree, rest: seq<Child>)
    requires st.error.None?
    requires Find(t.children, START_KEY).None? || Find(t.children, END_KEY).None? || Find(t.children, CLASS_KEY).None?
    ensures var r := RunIntervalls(st, collection, markerNames, bscanId, [Child(INTERVALL_KEY, t)] + rest);
      r.error.Some? && r.calls == st.calls && r.unknownClasses == st.unknownClasses
  {
    assert ([Child(INTERVALL_KEY, t)] + rest)[1..] == rest;
  }

  /** Without a registered signalQuality collection the legacy key is never read. */
  lemma LegacyKeyNeedsSignalQuality(tree: PTree, reg: IntervalMarkerRegistry)
    ensures FindCollection(reg, SIGNAL_QUALITY).None? ==> ParsePTreeSpec(tree, reg) == RunRegistry(EmptyRun, tree, reg)
    ensures FindCollection(reg, SIGNAL_QUALITY).Some? && RunRegistry(EmptyRun, tree, reg).error.None? ==>
      ParsePTreeSpec(tree, reg) ==
        ParseCollection(RunRegistry(EmptyRun, tree, reg), tree, LEGACY_QUALITY_KEY, SIGNAL_QUALITY,
                        FindCollection(reg, SIGNAL_QUALITY).value.markerNames)
  {
  }

  // ---------------------------------------------------------------------------
  // Loading: every call goes to the collection the node is read into, with a marker it knows

  /** `r` keeps the calls of `st` and adds only calls on `collection` with a marker from `markerNames`. */
  predicate ExtendsWith(st: ParseRun, r: ParseRun, collection: string, markerNames: seq<string>) {
    |st.calls| <= |r.calls| && r.calls[..|st.calls|] == st.calls &&
    forall k :: |st.calls| <= k < |r.calls| ==> r.calls[k].collection == collection && r.calls[k].marker in markerNames
  }

  lemma ExtendsWithTrans(a: ParseRun, b: ParseRun, c: ParseRun, collection: string, markerNames: seq<string>)
    requires ExtendsWith(a, b, collection, markerNames) && ExtendsWith(b, c, collection, markerNames)
    ensures ExtendsWith(a, c, collection, markerNames)
  {
    assert c.calls[..|a.calls|] == c.calls[..|b.calls|][..|a.calls|];
  }

  lemma ParseIntervallTargets(st: ParseRun, collection: string, markerNames: seq<string>, bscanId: int, c: Child)
    ensures ExtendsWith(st, ParseIntervall(st, collection, markerNames, bscanId, c), collection, markerNames)
  {
  }

  lemma {:induction false} RunIntervallsTargets(st: ParseRun, collection: string, markerNames: seq<string>, bscanId: int, cs: seq<Child>)
    ensures ExtendsWith(st, RunIntervalls(st, collection, markerNames, bscanId, cs), collection, markerNames)
    decreases cs
  {
    if cs != [] && st.error.None? {
      var next := ParseIntervall(st, collection, markerNames, bscanId, cs[0]);
      ParseIntervallTargets(st, collection, markerNames, bscanId, cs[0]);
      RunIntervallsTargets(next, collection, markerNames, bscanId, cs[1..]);
      ExtendsWithTrans(st, next, RunIntervalls(next, collection, markerNames, bscanId, cs[1..]), collection, markerNames);
    }
  }

  lemma ParseBScanTargets(st: ParseRun, collection: string, markerNames: seq<string>, c: Child)
    ensures ExtendsWith(st, ParseBScan(st, collection, markerNames, c), collection, markerNames)
  {
    if c.key == BSCAN_KEY && ReadBScanId(c.tree).Some? && ReadBScanId(c.tree).value != -1 {
      RunIntervallsTargets(st, collection, markerNames, ReadBScanId(c.tree).value, c.tree.children);
    }
  }

  lemma {:induction false} RunBScansTargets(st: ParseRun, collection: string, markerNames: seq<string>, cs: seq<Child>)
    ensures ExtendsWith(st, RunBScans(st, collection, markerNames, cs), collection, markerNames)
    decreases cs
  {
    if cs != [] && st.error.None? {
      var next := ParseBScan(st, collection, markerNames, cs[0]);
      ParseBScanTargets(st, collection, markerNames, cs[0]);
      RunBScansTargets(next, collection, markerNames, cs[1..]);
      ExtendsWithTrans(st, next, RunBScans(next, collection, markerNames, cs[1..]), collection, markerNames);
    }
  }

  /** Reading one collection node (the legacy key included) only feeds the collection it is read into. */
  lemma ParseCollectionTargets(st: ParseRun, tree: PTree, key: string, collection: string, markerNames: seq<string>)
    ensures ExtendsWith(st, ParseCollection(st, tree, key, collection, markerNames), collection, markerNames)
  {
    if Find(tree.children, key).Some? {
      RunBScansTargets(st, collection, markerNames, Find(tree.children, key).value.children);
    }
  }

  // ---------------------------------------------------------------------------
  // Round trip

  lemma {:induction false} RunIntervallsAppend(st: ParseRun, collection: string, markerNames: seq<string>, bscanId: int, a: seq<Child>, b: seq<Child>)
    ensures RunIntervalls(st, collection, markerNames, bscanId, a + b) ==
            RunIntervalls(RunIntervalls(st, collection, markerNames, bscanId, a), collection, markerNames, bscanId, b)
    decreases a
  {
    if a == [] {
      assert a + b == b;
    } else if st.error.None? {
      assert (a + b)[0] == a[0];
      assert (a + b)[1..] == a[1..] + b;
      RunIntervallsAppend(ParseIntervall(st, collection, markerNames, bscanId, a[0]), collection, markerNames, bscanId, a[1..], b);
    }
  }

  lemma {:induction false} RunBScansAppend(st: ParseRun, collection: string, markerNames: seq<string>, a: seq<Child>, b: seq<Child>)
    ensures RunBScans(st, collection, markerNames, a + b) ==
            RunBScans(RunBScans(st, collection, markerNames, a), collection, markerNames, b)
    decreases a
  {
    if a == [] {
      assert a + b == b;
    } else if st.error.None? {
      assert (a + b)[0] == a[0];
      assert (a + b)[1..] == a[1..] + b;
      RunBScansAppend(ParseBScan(st, collection, markerNames, a[0]), collection, markerNames, a[1..], b);
    }
  }

  /** The Start, End and Class children of a written Intervall node read back as the segment. */
  lemma IntervallNodeFields(e: MarkerEntry)
    requires e.marker.Some?
    ensures GetChildInt(IntervallNode(e), START_KEY) == Success(e.lower)
    ensures GetChildInt(IntervallNode(e), END_KEY) == Success(e.upper)
    ensures GetChildString(IntervallNode(e), CLASS_KEY) == Success(e.marker.value)
  {
    var node := IntervallNode(e);
    FindFirst(node.children, 0, START_KEY);
    FindFirst(node.children, 1, END_KEY);
    FindFirst(node.children, 2, CLASS_KEY);
    ParseIntToString(e.lower);
    ParseIntToString(e.upper);
  }

  lemma ParseIntervallNode(st: ParseRun, collection: string, markerNames: seq<string>, bscanId: int, e: MarkerEntry)
    requires st.error.None? && e.marker.Some? && e.marker.value in markerNames
    ensures ParseIntervall(st, collection, markerNames, bscanId, Child(INTERVALL_KEY, IntervallNode(e))) ==
            Emitted(st, [SetMarker(collection, bscanId, e.lower, e.upper, e.marker.value)])
  {
    IntervallNodeFields(e);
  }

  lemma {:induction false} RunIntervallChildren(st: ParseRun, collection: string, markerNames: seq<string>, bscan: nat, m: MarkerMap)
    requires st.error.None? && MarkersKnown(m, markerNames)
    ensures RunIntervalls(st, collection, markerNames, bscan, IntervallChildren(m)) == Emitted(st, MapCalls(collection, bscan, m))
  {
    if m != [] {
      var prefix := m[..|m| - 1];
      var last := m[|m| - 1];
      assert MarkersKnown(prefix, markerNames) by {
        forall k | 0 <= k < |prefix| && prefix[k].marker.Some? ensures prefix[k].marker.value in markerNames {
          assert prefix[k] == m[k];
        }
      }
      RunIntervallChildren(st, collection, markerNames, bscan, prefix);
      var tail := if last.marker.Some? then [Child(INTERVALL_KEY, IntervallNode(last))] else [];
      var tailCalls := if last.marker.Some? then [SetMarker(collection, bscan, last.lower, last.upper, last.marker.value)] else [];
      assert IntervallChildren(m) == IntervallChildren(prefix) + tail;
      assert MapCalls(collection, bscan, m) == MapCalls(collection, bscan, prefix) + tailCalls;
      RunIntervallsAppend(st, collection, markerNames, bscan, IntervallChildren(prefix), tail);
      var mid := Emitted(st, MapCalls(collection, bscan, prefix));
      if last.marker.Some? {
        assert last == m[|m| - 1];
        ParseIntervallNode(mid, collection, markerNames, bscan, last);
        assert tail[1..] == [];
      }
      assert RunIntervalls(mid, collection, markerNames, bscan, tail) == Emitted(mid, tailCalls);
      EmittedTwice(st, MapCalls(collection, bscan, prefix), tailCalls);
    }
  }

  lemma ParseBScanNode(st: ParseRun, collection: string, markerNames: seq<string>, bscan: nat, m: MarkerMap)
    requires st.error.None? && bscan <= INT_MAX && MarkersKnown(m, markerNames)
    ensures ParseBScan(st, collection, markerNames, Child(BSCAN_KEY, BScanNode(bscan, m))) == Emitted(st, MapCalls(collection, bscan, m))
  {
    var node := BScanNode(bscan, m);
    ParseNatToString(bscan);
    assert node.children[0] == Child(ID_KEY, Leaf(NatToString(bscan)));
    assert ReadBScanId(node) == Some(bscan);
    assert node.children[1..] == IntervallChildren(m);
    RunIntervallChildren(st, collection, markerNames, bscan, m);
  }

  lemma {:induction false} NoDefinedNoCalls(collection: string, bscan: nat, m: MarkerMap)
    requires !HasDefinedMarker(m)
    ensures MapCalls(collection, bscan, m) == []
  {
    if m != [] {
      assert !HasDefinedMarker(m[..|m| - 1]) by {
        var prefix := m[..|m| - 1];
        forall k | 0 <= k < |prefix| ensures prefix[k].marker.None? {
          assert prefix[k] == m[k];
        }
      }
      NoDefinedNoCalls(collection, bscan, m[..|m| - 1]);
    }
  }

  lemma EmittedTwice(st: ParseRun, a: seq<MarkerCall>, b: seq<MarkerCall>)
    ensures Emitted(Emitted(st, a), b) == Emitted(st, a + b)
  {
    assert st.calls + a + b == st.calls + (a + b);
  }

  lemma {:induction false} RunBScanChildren(st: ParseRun, store: IntervalMarkerStore, c: IntervalMarker, n: nat)
    requires st.error.None? && CollectionKnown(store, c) && n <= store.numBScans <= INT_MAX + 1
    ensures RunBScans(st, c.internalName, c.markerNames, BScanChildren(store, c.internalName, n)) ==
            Emitted(st, CollectionCalls(store, c.internalName, n))
  {
    if n > 0 {
      var name := c.internalName;
      var m := GetMarkers(store, name, n - 1);
      assert MarkersKnown(m, c.markerNames);
      RunBScanChildren(st, store, c, n - 1);
      var mid := Emitted(st, CollectionCalls(store, name, n - 1));
      var tail := if HasDefinedMarker(m) then [Child(BSCAN_KEY, BScanNode(n - 1, m))] else [];
      assert BScanChildren(store, name, n) == BScanChildren(store, name, n - 1) + tail;
      RunBScansAppend(st, name, c.markerNames, BScanChildren(store, name, n - 1), tail);
      if HasDefinedMarker(m) {
        ParseBScanNode(mid, name, c.markerNames, n - 1, m);
        assert tail[1..] == [];
        assert RunBScans(mid, name, c.markerNames, tail) == Emitted(mid, MapCalls(name, n - 1, m));
      } else {
        NoDefinedNoCalls(name, n - 1, m);
        assert RunBScans(mid, name, c.markerNames, tail) == Emitted(mid, MapCalls(name, n - 1, m));
      }
      EmittedTwice(st, CollectionCalls(store, name, n - 1), MapCalls(name, n - 1, m));
    }
  }

  lemma FindBuilt(store: IntervalMarkerStore, reg: IntervalMarkerRegistry, i: nat)
    requires DistinctNames(reg) && HoldsRegistry(store, reg) && i < |reg|
    ensures Find(Built(store, reg), reg[i].internalName) == Some(CollectionNode(store, reg[i].internalName))
  {
    BuiltKeys(store, reg);
    FindFirst(Built(store, reg), i, reg[i].internalName);
  }

  predicate SavedIn(tree: PTree, store: IntervalMarkerStore, sub: IntervalMarkerRegistry)
    requires HoldsRegistry(store, sub)
  {
    forall i :: 0 <= i < |sub| ==> Find(tree.children, sub[i].internalName) == Some(CollectionNode(store, sub[i].internalName))
  }

  lemma RegistryTail(tree: PTree, store: IntervalMarkerStore, sub: IntervalMarkerRegistry)
    requires sub != [] && RegistryKnown(store, sub) && HoldsRegistry(store, sub) && SavedIn(tree, store, sub)
    ensures RegistryKnown(store, sub[1..]) && HoldsRegistry(store, sub[1..]) && SavedIn(tree, store, sub[1..])
  {
    forall i | 0 <= i < |sub[1..]| ensures sub[1..][i] == sub[i + 1] { }
  }

  lemma {:induction false} RunRegistryOnSaved(st: ParseRun, tree: PTree, store: IntervalMarkerStore, sub: IntervalMarkerRegistry)
    requires st.error.None? && store.numBScans <= INT_MAX + 1
    requires RegistryKnown(store, sub) && HoldsRegistry(store, sub) && SavedIn(tree, store, sub)
    ensures RunRegistry(st, tree, sub) == Emitted(st, StoreCalls(store, sub))
    decreases sub
  {
    if sub != [] {
      var c := sub[0];
      assert CollectionKnown(store, c);
      assert Find(tree.children, c.internalName) == Some(CollectionNode(store, c.internalName));
      RunBScanChildren(st, store, c, store.numBScans);
      var next := Emitted(st, CollectionCalls(store, c.internalName, store.numBScans));
      assert ParseCollection(st, tree, c.internalName, c.internalName, c.markerNames) == next;
      RegistryTail(tree, store, sub);
      RunRegistryOnSaved(next, tree, store, sub[1..]);
      EmittedTwice(st, CollectionCalls(store, c.internalName, store.numBScans), StoreCalls(store, sub[1..]));
    }
  }

  /**
   * Loading a saved tree issues exactly one setMarker call per defined
   * segment of the store: collection by collection in registry order, B-scan
   * by B-scan ascending, segment by segment in map order; nothing is reported
   * unknown and nothing is thrown.
   */
  lemma RoundTrip(tree: PTree, store: IntervalMarkerStore, reg: IntervalMarkerRegistry)
    requires DistinctNames(reg) && LEGACY_QUALITY_KEY !in Names(reg)
    requires HoldsRegistry(store, reg) && RegistryKnown(store, reg)
    requires store.numBScans <= INT_MAX + 1
    ensures ParsePTreeSpec(FillPTreeSpec(tree, store, reg), reg) == ParseRun(StoreCalls(store, reg), [], None)
  {
    var saved := FillPTreeSpec(tree, store, reg);
    var keys := Names(reg) + {LEGACY_QUALITY_KEY};
    var built := Built(store, reg);
    FillPTreeShape(tree, store, reg);
    assert forall k :: 0 <= k < |built| ==> built[k].key != LEGACY_QUALITY_KEY by {
      forall k | 0 <= k < |built| ensures built[k].key != LEGACY_QUALITY_KEY {
        assert built[k].key == reg[k].internalName && reg[k].internalName in Names(reg);
      }
    }
    WithoutNoneOf(built, {LEGACY_QUALITY_KEY});
    assert saved.children == Without(tree.children, keys) + built;
    forall i | 0 <= i < |reg|
      ensures Find(saved.children, reg[i].internalName) == Some(CollectionNode(store, reg[i].internalName))
    {
      assert reg[i].internalName in keys;
      FindAppend(Without(tree.children, keys), built, reg[i].internalName);
      FindWithout(tree.children, keys, reg[i].internalName);
      FindBuilt(store, reg, i);
    }
    RunRegistryOnSaved(EmptyRun, saved, store, reg);
    assert Find(saved.children, LEGACY_QUALITY_KEY).None?;
  }
}
