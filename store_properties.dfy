/** What the getter, the setter, `set_resolution`, `get_all_tags` and
    `_add_data` promise, proved about the value model of the store. */
module StoreProperties {
  import opened Errors
  import opened Matrices
  import opened Resolution
  import opened Aggregation
  import opened Store

  lemma Levels()
    ensures Level("off") == Off && Level("signals") == SignalsLevel
    ensures Level("processes") == ProcessesLevel && Level("types") == Types
    ensures Level("pathways") == Pathways
  {
    ResolutionNumbers();
  }

  /** The pieces the setter works on: those of the store, or none yet. */
  function PieceAt(s: StoreState, t: string): seq<Entry> {
    var p := PiecesOf(Initialise(s).storage);
    if t in p then p[t] else []
  }

  // ---------------------------------------------------------------------
  // The setter
  // ---------------------------------------------------------------------

  /** A write at `pathways` under a new (type, tag) appends the array to
      that type's pathways, marks the store initialised and changes nothing
      else. */
  lemma WriteStoresPathway(s: StoreState, a: Matrix)
    requires Layout(s) && s.resolution == "pathways"
    requires s.dtype.Some? && s.dtype.value in PTypes
    requires !HasTag(PieceAt(s, s.dtype.value), s.tag)
    ensures var o := Write(s, Array(a));
      var t := s.dtype.value;
      && o.error == None
      && o.state == s.(initialized := true, storage := o.state.storage)
      && o.state.storage == Tagged(PiecesOf(Initialise(s).storage)[t := PieceAt(s, t) + [Entry(s.tag, a)]])
  {
  }

  /** The getter at the address just written returns that very array. */
  lemma WriteReadsBack(s: StoreState, a: Matrix)
    requires Layout(s) && s.resolution == "pathways"
    requires s.dtype.Some? && s.dtype.value in PTypes && s.tag.Some?
    requires !HasTag(PieceAt(s, s.dtype.value), s.tag)
    ensures Read(Write(s, Array(a)).state) == Ok(Some(a))
  {
    var t := s.dtype.value;
    var piece := PieceAt(s, t);
    var es := piece + [Entry(s.tag, a)];
    WriteStoresPathway(s, a);
    assert es[..|es| - 1] == piece;
    assert Lookup(es, s.tag) == Ok(a);
  }

  /** Pathways of other types are not touched by a write. */
  lemma WriteFrame(s: StoreState, a: Matrix, u: string)
    requires Layout(s) && s.resolution == "pathways"
    requires s.dtype.Some? && u != s.dtype.value
    ensures var p, q := PiecesOf(s.storage), PiecesOf(Write(s, Array(a)).state.storage);
      (u in q <==> u in p) && (u in p ==> q[u] == p[u])
  {
  }

  /** A (type, tag) that is already stored is rejected and nothing changes. */
  lemma DuplicateTagRejected(s: StoreState, v: Value)
    requires Layout(s) && s.resolution == "pathways" && v.Array?
    requires s.dtype.Some? && s.dtype.value in PTypes
    requires HasTag(PieceAt(s, s.dtype.value), s.tag)
    ensures Write(s, v) == Outcome(s, Some(TagExists))
  {
    assert s.initialized;
  }

  /** A write at `pathways` whose address is not a pathway type fails; the
      initialisation it made first persists. */
  lemma WrongTypeRejected(s: StoreState, v: Value)
    requires s.resolution == "pathways" && v.Array?
    requires s.dtype.None? || s.dtype.value !in PTypes
    ensures Write(s, v).error == Some(WrongPathwaysType)
    ensures Write(s, v).state.initialized
    ensures PiecesOf(Write(s, v).state.storage) == PiecesOf(Initialise(s).storage)
  {
  }

  /** Assigning anything but an array raises TypeError, after the store has
      been initialised. */
  lemma NonArrayRejected(s: StoreState)
    ensures Write(s, NonArray).error == Some(NotAnArray)
    ensures Write(s, NonArray).state.initialized
    ensures Write(s, NonArray).state.(storage := s.storage, initialized := s.initialized) == s
    ensures !s.initialized ==> Write(s, NonArray).state.storage == EmptyStorage(s.resolution)
  {
  }

  /** Every write, successful or not, leaves the store initialised, and a
      first write starts from an empty store. */
  lemma FirstWriteInitialises(s: StoreState, v: Value)
    requires Layout(s) && !s.initialized
    ensures Write(s, v).state.initialized
    ensures s.resolution == "pathways" && v.Array? && s.dtype.Some? && s.dtype.value in PTypes ==>
      Write(s, v).state.storage == Tagged(map[s.dtype.value := [Entry(s.tag, v.contents)]])
  {
    if s.resolution == "pathways" && v.Array? && s.dtype.Some? && s.dtype.value in PTypes {
      assert [] + [Entry(s.tag, v.contents)] == [Entry(s.tag, v.contents)];
      assert map[][s.dtype.value := [Entry(s.tag, v.contents)]] == map[s.dtype.value := [Entry(s.tag, v.contents)]];
    }
  }

  /** Below `pathways` the setter stores nothing: an uninitialised store is
      emptied and marked initialised, an initialised one is left alone. */
  lemma SilentNonStore(s: StoreState, a: Matrix)
    requires Layout(s) && s.resolution != "pathways"
    ensures Write(s, Array(a)).error == None
    ensures s.initialized ==> Write(s, Array(a)).state == s
    ensures !s.initialized ==> Write(s, Array(a)).state == s.(initialized := true, storage := Summed(map[]))
    ensures Layout(Write(s, Array(a)).state)
  {
  }

  lemma WriteKeepsLayout(s: StoreState, v: Value)
    requires Layout(s)
    ensures Layout(Write(s, v).state)
  {
    if v.Array? && s.resolution == "pathways" && s.dtype.Some? && s.dtype.value in PTypes
       && !HasTag(PieceAt(s, s.dtype.value), s.tag) {
      WriteStoresPathway(s, v.contents);
    }
  }

  // ---------------------------------------------------------------------
  // The getter
  // ---------------------------------------------------------------------

  /** As written, a spectrum that was never assigned data has no `_d__data`
      attribute, so every read of it raises AttributeError. */
  lemma FreshReadFails(dims: Option<(nat, nat)>, flag: Flag)
    ensures Read(SetDataFlag(Fresh(dims), flag).state) == Err(MissingAttribute)
    ensures AllTags(Fresh(dims)) == Err(MissingAttribute)
  {
  }

  /** A read at `pathways` of a store that exists but is not initialised
      returns the 1x1 zero sentinel. */
  lemma UninitialisedReadsSentinel(s: StoreState)
    requires s.resolution == "pathways" && !s.initialized && !s.storage.Absent?
    requires s.dtype.Some? && s.dtype.value in PTypes
    ensures Read(s) == Ok(Some(Sentinel))
  {
  }

  /** The store of a spectrum at `pathways` that is not initialised was
      never assigned, so the sentinel branch of the getter is never taken. */
  lemma UninitialisedStoreIsAbsent(s: StoreState)
    requires Layout(s) && s.resolution == "pathways" && !s.initialized
    ensures s.storage.Absent?
    ensures Read(s) == Err(MissingAttribute)
  {
  }

  /** The store of a spectrum lowered to `types` before any data arrived:
      every type holds a 1x1 zero array. */
  function SentinelLeaves(names: set<string>): map<string, Matrix> {
    map t | t in names :: Sentinel
  }

  lemma {:induction false} SentinelSum(xs: seq<Matrix>)
    requires forall k :: 0 <= k < |xs| ==> xs[k] == Sentinel
    ensures AddAll(Sentinel, xs) == Ok(Sentinel)
    decreases |xs|
  {
    if xs != [] {
      SentinelSum(xs[..|xs| - 1]);
      AddIntoZeros(Sentinel);
    }
  }

  /** Lowering a store that was never written to `types` initialises
      nothing and fills every type with the sentinel. */
  lemma UninitialisedLowering(dims: Option<(nat, nat)>)
    ensures SetResolution(Fresh(dims), "types") ==
      Outcome(Fresh(dims).(resolution := "types", storage := Summed(SentinelLeaves(set t | t in PTypes))), None)
  {
    Levels();
    var f := Fresh(dims);
    LeafMapExact(f, Types, PTypes);
    var m := LeafMap(f, Types, PTypes).value;
    assert m == SentinelLeaves(set t | t in PTypes);
  }

  /** After such a lowering every type, process and signal reads as the
      sentinel; the lowering to `processes` or `signals` that may follow
      keeps only sentinels. */
  lemma UninitialisedReadsAfterLowering(s: StoreState, name: string, to: nat)
    requires s.resolution == "types" && !s.initialized
    requires s.storage == Summed(SentinelLeaves(set t | t in PTypes))
    requires to == ProcessesLevel || to == SignalsLevel
    ensures name in PTypes || name in Processes || name in Signals ==>
      Read(s.(dtype := Some(name))) == Ok(Some(Sentinel))
    ensures (to == ProcessesLevel ==> name in Processes) && (to == SignalsLevel ==> name in Signals) ==>
      Aggregate(s, to, name) == Ok(Sentinel)
  {
    var a := LeavesOf(s.storage);
    if name in Processes {
      PresentLeavesAll(a, Processes[name]);
      SentinelSum(Lookups(a, Processes[name]));
    }
    if name in Signals {
      PresentLeavesAll(a, Signals[name]);
      SentinelSum(Lookups(a, Signals[name]));
    }
  }

  /** A tagged read returns the array stored under that tag, or raises
      KeyError when the type has no such tag. */
  lemma TaggedRead(s: StoreState, k: nat)
    requires Layout(s) && s.resolution == "pathways" && s.initialized
    requires s.dtype.Some? && s.dtype.value in PiecesOf(s.storage) && s.tag.Some?
    ensures var piece := PiecesOf(s.storage)[s.dtype.value];
      && (k < |piece| && piece[k].tag == s.tag ==> Read(s) == Ok(Some(piece[k].value)))
      && (!HasTag(piece, s.tag) ==> Read(s) == Err(MissingKey))
  {
    var piece := PiecesOf(s.storage)[s.dtype.value];
    var r := Lookup(piece, s.tag);
    if k < |piece| && piece[k].tag == s.tag {
      var l :| 0 <= l < |piece| && piece[l].tag == s.tag && piece[l].value == r.value;
      assert UniqueTags(piece);
      assert l == k;
    }
  }

  /** A tagless read sums, sample by sample, every pathway of the type. */
  lemma TaglessReadSums(s: StoreState, n: nat, m: nat)
    requires Layout(s) && s.resolution == "pathways" && s.initialized && s.dims == Some((n, m))
    requires s.dtype.Some? && s.dtype.value in PiecesOf(s.storage) && s.tag.None?
    requires PiecesShaped(PiecesOf(s.storage), n, m)
    ensures Read(s).Ok? && Read(s).value.Some?
    ensures var r := Read(s).value.value;
      && r.rows == n && r.cols == m
      && forall i, j :: 0 <= i < n && 0 <= j < m ==>
           r.cells[i][j] == TypeSample(PiecesOf(s.storage), s.dtype.value, i, j, n, m)
  {
    var p := PiecesOf(s.storage);
    var t := s.dtype.value;
    var piece := p[t];
    var first, rest := piece[0].value, Values(piece[1..]);
    TypeValuesShaped(p, t, n, m);
    assert AllShaped(rest, n, m);
    AddAllExact(first, rest);
    assert Values(piece) == [first] + rest;
    forall i, j | 0 <= i < n && 0 <= j < m
      ensures EntrySum(Values(piece), i, j) == first.cells[i][j] + EntrySum(rest, i, j)
    {
      EntrySumAppend([first], rest, i, j);
      assert [first][..0] == [];
      assert EntrySum([first], i, j) == EntrySum([first][..0], i, j) + first.cells[i][j];
    }
  }

  /** A pathway type that was never written reads as axis-sized zeros. */
  lemma UnwrittenTypeReadsZeros(s: StoreState, n: nat, m: nat)
    requires s.resolution == "pathways" && s.initialized && !s.storage.Absent? && s.dims == Some((n, m))
    requires s.dtype.Some? && s.dtype.value in PTypes && s.dtype.value !in PiecesOf(s.storage)
    ensures Read(s) == Ok(Some(Zeros(n, m)))
  {
  }

  /** Any read at `off` raises "not implemented". */
  lemma ReadAtOffFails(s: StoreState)
    requires s.resolution == "off" && !s.storage.Absent?
    ensures Read(s) == Err(NotImplemented)
  {
  }

  /** Reading "total" at `types` resolution of an initialised store raises,
      because `_types_to_total` calls `_types_to_processes` without `obj`. */
  lemma TypesTotalFails(s: StoreState)
    requires s.resolution == "types" && s.initialized && !s.storage.Absent? && s.dims.Some?
    requires s.dtype == Some("total")
    ensures Read(s) == Err(MissingArgument)
  {
    assert "total" !in PTypes;
  }

  // ---------------------------------------------------------------------
  // set_resolution
  // ---------------------------------------------------------------------

  /** Unknown names and raising the resolution are rejected before the
      state changes. */
  lemma SetResolutionRejects(s: StoreState, target: string)
    requires Layout(s)
    ensures target !in Resolutions ==> SetResolution(s, target) == Outcome(s, Some(UnknownResolution))
    ensures target in Resolutions && Level(target) > Level(s.resolution) ==>
      SetResolution(s, target) == Outcome(s, Some(LowerToHigher))
  {
  }

  /** Setting the current resolution again changes nothing. */
  lemma SameLevelIsIdentity(s: StoreState)
    requires Layout(s)
    ensures SetResolution(s, s.resolution) == Outcome(s, None)
  {
  }

  /** A lowering succeeds only along the five supported moves; every other
      one is refused with "Cannot convert", leaving the state unchanged. */
  lemma OnlySupportedLowerings(s: StoreState, target: string)
    requires Layout(s) && target in Resolutions && Level(target) < Level(s.resolution)
    ensures SetResolution(s, target).error == None ==> Supported(Level(s.resolution), Level(target))
    ensures !Supported(Level(s.resolution), Level(target)) ==>
      SetResolution(s, target) == Outcome(s, Some(CannotConvert(Level(s.resolution), Level(target))))
  {
  }

  /** A failed call leaves the whole state unchanged; a successful one sets
      the requested resolution, which is never higher than the old one, and
      keeps the address and the initialisation flag. */
  lemma SetResolutionOutcome(s: StoreState, target: string)
    requires Layout(s)
    ensures var o := SetResolution(s, target);
      && (o.error.Some? ==> o.state == s)
      && (o.error.None? ==> o.state == s.(resolution := target, storage := o.state.storage)
                            && target in Resolutions && Level(target) <= Level(s.resolution))
  {
  }

  /** The lowerings to `off` compute the total but keep the old store. */
  lemma LoweringToOffKeepsStore(s: StoreState)
    requires Layout(s) && (s.resolution == "signals" || s.resolution == "processes")
    ensures SetResolution(s, "off").error == None ==> SetResolution(s, "off").state == s.(resolution := "off")
  {
    Levels();
  }

  /** The lowered store is a dictionary of arrays keyed exactly by the names
      of the new level, each computed by the matching sum. */
  lemma {:induction false} LeafMapExact(s: StoreState, to: nat, names: seq<string>)
    requires forall k :: 0 <= k < |names| ==> Aggregate(s, to, names[k]).Ok?
    ensures LeafMap(s, to, names).Ok?
    ensures forall x :: x in LeafMap(s, to, names).value <==> x in names
    ensures forall x :: x in names ==> LeafMap(s, to, names).value[x] == Aggregate(s, to, x).value
    decreases |names|
  {
    if names != [] {
      var init := names[..|names| - 1];
      assert forall k :: 0 <= k < |init| ==> init[k] == names[k];
      LeafMapExact(s, to, init);
      forall x | x in names
        ensures x in init || x == names[|names| - 1]
      {
        var k :| 0 <= k < |names| && names[k] == x;
        if k < |names| - 1 {
          assert init[k] == x;
        }
      }
    }
  }

  /** `PresentLeaves` keeps every key when all of them are stored. */
  lemma {:induction false} PresentLeavesAll(a: map<string, Matrix>, keys: seq<string>)
    requires forall k :: k in keys ==> k in a
    ensures PresentLeaves(a, keys) == Lookups(a, keys)
    decreases |keys|
  {
    if keys != [] {
      var init := keys[..|keys| - 1];
      assert forall k :: k in init ==> k in keys;
      PresentLeavesAll(a, init);
      assert Lookups(a, keys) == Lookups(a, init) + [a[keys[|keys| - 1]]];
    }
  }

  /** Lowering keeps the store in its expected shape. */
  lemma SetResolutionKeepsLayout(s: StoreState, target: string)
    requires Layout(s)
    ensures Layout(SetResolution(s, target).state)
  {
    Levels();
  }

  /** The lowered arrays of a store of sentinels are sentinels. */
  lemma SentinelLowering(s: StoreState, to: nat, names: seq<string>)
    requires s.resolution == "types" && !s.initialized
    requires s.storage == Summed(SentinelLeaves(set t | t in PTypes))
    requires (to == ProcessesLevel && names == ProcessNames) || (to == SignalsLevel && names == SignalNames)
    ensures LeafMap(s, to, names).Ok?
    ensures forall x :: x in LeafMap(s, to, names).value <==> x in names
    ensures forall x :: x in names ==> LeafMap(s, to, names).value[x] == Sentinel
  {
    forall k | 0 <= k < |names|
      ensures Aggregate(s, to, names[k]) == Ok(Sentinel)
    {
      TableKeys();
      UninitialisedReadsAfterLowering(s, names[k], to);
    }
    LeafMapExact(s, to, names);
  }

  /** The lowering from `types` of a store that was never written. */
  lemma UninitialisedLoweringFromTypes(s: StoreState, target: string)
    requires s.resolution == "types" && !s.initialized
    requires s.storage == Summed(SentinelLeaves(set t | t in PTypes))
    requires target == "processes" || target == "signals"
    ensures SetResolution(s, target).error == None
    ensures SetResolution(s, target).state == s.(resolution := target, storage := SetResolution(s, target).state.storage)
    ensures SetResolution(s, target).state.storage.Summed?
  {
    Levels();
    if target == "processes" {
      SentinelLowering(s, ProcessesLevel, ProcessNames);
    } else {
      SentinelLowering(s, SignalsLevel, SignalNames);
    }
  }

  /** The lowering to `off` of a store of sentinels. */
  lemma UninitialisedLoweringToOff(s: StoreState)
    requires s.resolution == "processes" || s.resolution == "signals"
    requires !s.initialized && s.storage.Summed?
    ensures SetResolution(s, "off") == Outcome(s.(resolution := "off"), None)
  {
    Levels();
  }

  /** The doctest of `set_resolution`: starting from fresh spectra,
      pathways -> types -> processes succeeds, processes -> signals and
      processes -> types are refused, processes -> off and types -> signals
      -> off succeed. */
  lemma SetResolutionDoctest(dims: Option<(nat, nat)>)
    ensures var a1 := SetResolution(Fresh(dims), "types");
      var a2 := SetResolution(a1.state, "processes");
      var a3 := SetResolution(a2.state, "signals");
      var a4 := SetResolution(a3.state, "types");
      var a5 := SetResolution(a4.state, "off");
      var b2 := SetResolution(a1.state, "signals");
      var b3 := SetResolution(b2.state, "off");
      && a1.error == None && a1.state.resolution == "types"
      && a2.error == None && a2.state.resolution == "processes"
      && a3 == Outcome(a2.state, Some(CannotConvert(2, 1)))
      && a4 == Outcome(a2.state, Some(LowerToHigher))
      && a5.error == None && a5.state.resolution == "off"
      && b2.error == None && b2.state.resolution == "signals"
      && b3.error == None && b3.state.resolution == "off"
  {
    Levels();
    UninitialisedLowering(dims);
    var a1 := SetResolution(Fresh(dims), "types");
    UninitialisedLoweringFromTypes(a1.state, "processes");
    UninitialisedLoweringFromTypes(a1.state, "signals");
    var a2 := SetResolution(a1.state, "processes");
    var b2 := SetResolution(a1.state, "signals");
    assert SetResolution(a2.state, "signals") == Outcome(a2.state, Some(CannotConvert(2, 1)));
    assert SetResolution(a2.state, "types") == Outcome(a2.state, Some(LowerToHigher));
    UninitialisedLoweringToOff(a2.state);
    UninitialisedLoweringToOff(b2.state);
  }

  // ---------------------------------------------------------------------
  // Tags and _add_data
  // ---------------------------------------------------------------------

  lemma {:induction false} TagsOfMembers(p: Pieces, types: seq<string>, x: (string, Option<string>))
    ensures x in TagsOf(p, types) <==> x.0 in types && x.0 in p && HasTag(p[x.0], x.1)
    decreases |types|
  {
    if types != [] {
      var init := types[..|types| - 1];
      var t := types[|types| - 1];
      TagsOfMembers(p, init, x);
      assert types == init + [t];
      if x.0 == t && t in p && HasTag(p[t], x.1) {
        var k :| 0 <= k < |p[t]| && p[t][k].tag == x.1;
        var tail := seq(|p[t]|, k requires 0 <= k < |p[t]| => (t, p[t][k].tag));
        assert tail[k] == x;
      }
    }
  }

  /** At `pathways` resolution `get_all_tags` lists exactly the stored
      (type, tag) addresses. */
  lemma AllTagsListsAddresses(s: StoreState, x: (string, Option<string>))
    requires Layout(s) && s.resolution == "pathways" && s.initialized
    ensures AllTags(s).Ok?
    ensures x in AllTags(s).value <==> x.0 in PiecesOf(s.storage) && HasTag(PiecesOf(s.storage)[x.0], x.1)
  {
    TagsOfMembers(s.storage.pieces, PTypes, x);
  }

  /** Once lowered to `types` with every type stored, `get_all_tags`
      fails; at `processes` and `signals` it finds no pathway types. */
  lemma AllTagsBelowPathways(s: StoreState)
    requires Layout(s) && s.resolution != "pathways"
    ensures (forall t :: t in LeavesOf(s.storage) ==> t !in PTypes) ==> AllTags(s) == Ok([])
    ensures PTypes[0] in LeavesOf(s.storage) ==> AllTags(s) == Err(MissingAttribute)
  {
  }

  /** `_add_data` at `pathways` stores under the (dtype, tag) address it
      sets, and the getter at that address returns the array. */
  lemma AddDataStores(s: StoreState, a: Matrix, dtype: string, tag: string)
    requires Layout(s) && s.resolution == "pathways" && dtype in PTypes
    requires !HasTag(PieceAt(s, dtype), Some(tag))
    ensures var o := AddData(s, Array(a), None, dtype, Some(tag));
      && o.error == None
      && o.state.dtype == Some(dtype) && o.state.tag == Some(tag) && o.state.addressLength == 2
      && Layout(o.state)
      && Read(o.state) == Ok(Some(a))
  {
    var f := SetDataFlag(s, Listed([Some(dtype), Some(tag)])).state;
    WriteStoresPathway(f, a);
  }

  /** `_add_data` refuses a finer resolution than is stored, a dtype that
      is not a pathway type and a missing tag, without changing anything;
      data of a coarser resolution are silently dropped. */
  lemma AddDataRejects(s: StoreState, v: Value, res: string, dtype: string, tag: Option<string>)
    requires Layout(s)
    ensures res in Resolutions && Level(res) > Level(s.resolution) ==>
      AddData(s, v, Some(res), dtype, tag) == Outcome(s, Some(NotEnoughResolution))
    ensures res !in Resolutions ==> AddData(s, v, Some(res), dtype, tag) == Outcome(s, Some(UnknownResolution))
    ensures s.resolution == "pathways" && dtype !in PTypes ==>
      AddData(s, v, None, dtype, tag) == Outcome(s, Some(UnknownPathwayKind))
    ensures s.resolution == "pathways" && dtype in PTypes && tag.None? ==>
      AddData(s, v, None, dtype, tag) == Outcome(s, Some(TagNotSpecified))
    ensures res in Resolutions && res != "pathways" && Level(res) <= Level(s.resolution) ==>
      AddData(s, v, Some(res), dtype, tag) == Outcome(s, None)
  {
  }
}
