/** Lowering the resolution loses detail but not the total: the arrays of
    each coarser level are sums of the stored pathways over the blocks of
    the process and signal tables, and because those tables partition the
    eight pathway types, the total spectrum read at `pathways`, after
    pathways -> types -> processes and after pathways -> types -> signals is
    the same array. */
module Totals {
  import opened Errors
  import opened Matrices
  import opened Resolution
  import opened Aggregation
  import opened Store
  import opened StoreProperties

  /** An initialised `pathways` store whose arrays all have the axes' shape. */
  predicate Populated(s: StoreState, n: nat, m: nat) {
    && Layout(s) && s.resolution == "pathways" && s.initialized && s.dims == Some((n, m))
    && PiecesShaped(PiecesOf(s.storage), n, m)
  }

  /** Sample (i, j) summed over the pathways of a block of types. */
  function BlockSample(p: Pieces, block: seq<string>, i: nat, j: nat, n: nat, m: nat): real
    requires PiecesShaped(p, n, m) && i < n && j < m
  {
    TypeArraysShaped(p, block, n, m);
    EntrySum(TypeArrays(p, block), i, j)
  }

  /** The arrays of a lowered store of `types`: one per pathway type, each
      the sum of that type's pathways. */
  ghost predicate TypeArraysOf(a: map<string, Matrix>, p: Pieces, n: nat, m: nat)
    requires PiecesShaped(p, n, m)
  {
    && (forall x :: x in a <==> x in PTypes)
    && (forall t :: t in a ==> a[t].rows == n && a[t].cols == m)
    && (forall t, i, j :: t in a && 0 <= i < n && 0 <= j < m ==> a[t].cells[i][j] == TypeSample(p, t, i, j, n, m))
  }

  // ---------------------------------------------------------------------
  // pathways -> types
  // ---------------------------------------------------------------------

  /** Each array of the `types` store is, sample by sample, the sum of the
      type's pathways; a type without pathways becomes axis-sized zeros. */
  lemma TypeLeafSums(s: StoreState, n: nat, m: nat, t: string)
    requires Populated(s, n, m)
    ensures Aggregate(s, Types, t).Ok?
    ensures Aggregate(s, Types, t).value.rows == n && Aggregate(s, Types, t).value.cols == m
    ensures forall i, j :: 0 <= i < n && 0 <= j < m ==>
      Aggregate(s, Types, t).value.cells[i][j] == TypeSample(PiecesOf(s.storage), t, i, j, n, m)
    ensures t !in PiecesOf(s.storage) ==> Aggregate(s, Types, t).value == Zeros(n, m)
  {
    var p := PiecesOf(s.storage);
    TypeValuesShaped(p, t, n, m);
    AddAllFromZeros(n, m, TypeValues(p, t));
  }

  /** pathways -> types succeeds and replaces the store by one array per
      pathway type; nothing else changes. */
  lemma LoweringToTypes(s: StoreState, n: nat, m: nat)
    requires Populated(s, n, m)
    ensures var o := SetResolution(s, "types");
      && o.error == None
      && o.state == s.(resolution := "types", storage := o.state.storage)
      && o.state.storage.Summed?
      && TypeArraysOf(o.state.storage.arrays, PiecesOf(s.storage), n, m)
  {
    Levels();
    forall k | 0 <= k < |PTypes|
      ensures Aggregate(s, Types, PTypes[k]).Ok?
    {
      TypeLeafSums(s, n, m, PTypes[k]);
    }
    LeafMapExact(s, Types, PTypes);
    forall t | t in PTypes {
      TypeLeafSums(s, n, m, t);
    }
  }

  /** The tagless getter and the lowering agree: the array a type gets at
      `types` resolution is what a tagless read of that type returned. */
  lemma TaglessReadIsTypeArray(s: StoreState, n: nat, m: nat)
    requires Populated(s, n, m)
    requires s.dtype.Some? && s.dtype.value in PiecesOf(s.storage) && s.tag.None?
    ensures Aggregate(s, Types, s.dtype.value).Ok?
    ensures Read(s) == Ok(Some(Aggregate(s, Types, s.dtype.value).value))
  {
    TaglessReadSums(s, n, m);
    TypeLeafSums(s, n, m, s.dtype.value);
    Extensionality(Read(s).value.value, Aggregate(s, Types, s.dtype.value).value);
  }

  // ---------------------------------------------------------------------
  // types -> processes / signals
  // ---------------------------------------------------------------------

  /** A state at `types` resolution holding the lowered arrays of p. */
  ghost predicate LoweredFrom(s3: StoreState, p: Pieces, n: nat, m: nat) {
    && PiecesShaped(p, n, m)
    && Layout(s3) && s3.resolution == "types" && s3.initialized && s3.dims == Some((n, m))
    && TypeArraysOf(LeavesOf(s3.storage), p, n, m)
  }

  /** Adding up the lowered arrays of a block of types gives the sum of the
      block's pathways. */
  lemma LookupsSample(a: map<string, Matrix>, p: Pieces, n: nat, m: nat, block: seq<string>, i: nat, j: nat)
    requires PiecesShaped(p, n, m) && i < n && j < m
    requires forall t :: t in block ==> t in a && a[t].rows == n && a[t].cols == m
    requires forall t :: t in block ==> a[t].cells[i][j] == TypeSample(p, t, i, j, n, m)
    ensures AllShaped(Lookups(a, block), n, m)
    ensures EntrySum(Lookups(a, block), i, j) == BlockSample(p, block, i, j, n, m)
  {
    var xs := Lookups(a, block);
    assert forall k :: 0 <= k < |xs| ==> block[k] in block;
    BlockSampleOf(xs, p, block, i, j, n, m);
  }

  /** Arrays holding, sample by sample, the sums of the types of a block
      add up to the block's sample. */
  lemma {:induction false} BlockSampleOf(xs: seq<Matrix>, p: Pieces, block: seq<string>, i: nat, j: nat, n: nat, m: nat)
    requires PiecesShaped(p, n, m) && i < n && j < m && |xs| == |block| && AllShaped(xs, n, m)
    requires forall k :: 0 <= k < |xs| ==> xs[k].cells[i][j] == TypeSample(p, block[k], i, j, n, m)
    ensures EntrySum(xs, i, j) == BlockSample(p, block, i, j, n, m)
    decreases |xs|
  {
    if xs != [] {
      var l := |xs| - 1;
      var ys, init := xs[..l], block[..l];
      assert EntrySum(ys, i, j) == BlockSample(p, init, i, j, n, m) by {
        assert forall k :: 0 <= k < l ==> ys[k] == xs[k] && init[k] == block[k];
        BlockSampleOf(ys, p, init, i, j, n, m);
      }
      assert EntrySum(xs, i, j) == EntrySum(ys, i, j) + xs[l].cells[i][j];
      assert xs[l].cells[i][j] == TypeSample(p, block[l], i, j, n, m);
      BlockSampleStep(p, block, i, j, n, m);
    }
  }

  /** A block's sample is its first types' sample plus its last type's. */
  lemma BlockSampleStep(p: Pieces, block: seq<string>, i: nat, j: nat, n: nat, m: nat)
    requires PiecesShaped(p, n, m) && i < n && j < m && block != []
    ensures BlockSample(p, block, i, j, n, m)
      == BlockSample(p, block[..|block| - 1], i, j, n, m) + TypeSample(p, block[|block| - 1], i, j, n, m)
  {
    var init, last := block[..|block| - 1], block[|block| - 1];
    TypeArraysShaped(p, init, n, m);
    TypeValuesShaped(p, last, n, m);
    assert TypeArrays(p, block) == TypeArrays(p, init) + TypeValues(p, last);
    EntrySumAppend(TypeArrays(p, init), TypeValues(p, last), i, j);
  }

  lemma LookupsShaped(a: map<string, Matrix>, p: Pieces, n: nat, m: nat, block: seq<string>)
    requires PiecesShaped(p, n, m) && TypeArraysOf(a, p, n, m)
    requires forall t :: t in block ==> t in PTypes
    ensures AllShaped(Lookups(a, block), n, m)
  {
  }

  /** A block of the lowered `types` arrays, added into axis-sized zeros. */
  lemma BlockSum(a: map<string, Matrix>, p: Pieces, n: nat, m: nat, block: seq<string>)
    requires PiecesShaped(p, n, m) && TypeArraysOf(a, p, n, m)
    requires forall t :: t in block ==> t in PTypes
    ensures AddAll(Zeros(n, m), PresentLeaves(a, block)).Ok?
    ensures var r := AddAll(Zeros(n, m), PresentLeaves(a, block)).value;
      && r.rows == n && r.cols == m
      && forall i, j :: 0 <= i < n && 0 <= j < m ==> r.cells[i][j] == BlockSample(p, block, i, j, n, m)
  {
    PresentLeavesAll(a, block);
    LookupsShaped(a, p, n, m, block);
    AddAllFromZeros(n, m, Lookups(a, block));
    forall i, j | 0 <= i < n && 0 <= j < m
      ensures EntrySum(Lookups(a, block), i, j) == BlockSample(p, block, i, j, n, m)
    {
      LookupsSample(a, p, n, m, block, i, j);
    }
  }

  /** The array of one process or signal, computed from the `types` store:
      sample by sample, the sum of the block's pathways. */
  lemma BlockFromTypes(s3: StoreState, p: Pieces, n: nat, m: nat, to: nat, name: string)
    requires LoweredFrom(s3, p, n, m)
    requires (to == ProcessesLevel && name in Processes) || (to == SignalsLevel && name in Signals)
    ensures var block := if to == ProcessesLevel then Processes[name] else Signals[name];
      && Aggregate(s3, to, name).Ok?
      && Aggregate(s3, to, name).value.rows == n && Aggregate(s3, to, name).value.cols == m
      && forall i, j :: 0 <= i < n && 0 <= j < m ==>
           Aggregate(s3, to, name).value.cells[i][j] == BlockSample(p, block, i, j, n, m)
  {
    var block := if to == ProcessesLevel then Processes[name] else Signals[name];
    assert Aggregate(s3, to, name) == AddAll(Zeros(n, m), PresentLeaves(LeavesOf(s3.storage), block));
    BlockSum(LeavesOf(s3.storage), p, n, m, block);
  }

  /** The arrays of a lowered `processes` (or `signals`) store. */
  ghost predicate BlockArraysOf(a: map<string, Matrix>, p: Pieces, n: nat, m: nat, table: map<string, seq<string>>)
    requires PiecesShaped(p, n, m)
  {
    && (forall x :: x in a <==> x in table)
    && (forall x :: x in a ==> a[x].rows == n && a[x].cols == m)
    && (forall x, i, j :: x in a && 0 <= i < n && 0 <= j < m ==> a[x].cells[i][j] == BlockSample(p, table[x], i, j, n, m))
  }

  /** types -> processes and types -> signals succeed and store one array
      per process (signal), the sum of its block of types. */
  lemma LoweringFromTypes(s3: StoreState, p: Pieces, n: nat, m: nat, target: string)
    requires LoweredFrom(s3, p, n, m) && (target == "processes" || target == "signals")
    ensures var o := SetResolution(s3, target);
      var table := if target == "processes" then Processes else Signals;
      && o.error == None
      && o.state == s3.(resolution := target, storage := o.state.storage)
      && o.state.storage.Summed?
      && BlockArraysOf(o.state.storage.arrays, p, n, m, table)
  {
    Levels();
    TableKeys();
    var to := if target == "processes" then ProcessesLevel else SignalsLevel;
    var names := if target == "processes" then ProcessNames else SignalNames;
    forall k | 0 <= k < |names|
      ensures Aggregate(s3, to, names[k]).Ok?
    {
      BlockFromTypes(s3, p, n, m, to, names[k]);
    }
    LeafMapExact(s3, to, names);
    forall x | x in names {
      BlockFromTypes(s3, p, n, m, to, x);
    }
  }

  // ---------------------------------------------------------------------
  // The three totals
  // ---------------------------------------------------------------------

  lemma {:induction false} RequiredSumAll(st: Storage, acc: Matrix, keys: seq<string>)
    requires st.Summed? && forall k :: k in keys ==> k in st.arrays
    ensures RequiredSum(st, acc, keys) == AddAll(acc, Lookups(st.arrays, keys))
    decreases |keys|
  {
    if keys != [] {
      var init := keys[..|keys| - 1];
      assert forall k :: k in init ==> k in keys;
      RequiredSumAll(st, acc, init);
      var ys := Lookups(st.arrays, keys);
      assert ys[..|ys| - 1] == Lookups(st.arrays, init);
    }
  }

  /** The process blocks add up to the total. */
  lemma ProcessBlocksAddUp(p: Pieces, n: nat, m: nat, i: nat, j: nat)
    requires PiecesShaped(p, n, m) && i < n && j < m
    ensures BlockSample(p, Processes["GSB"], i, j, n, m) + BlockSample(p, Processes["SE"], i, j, n, m)
      + BlockSample(p, Processes["ESA"], i, j, n, m) + BlockSample(p, Processes["DC"], i, j, n, m)
      == GrandSample(p, i, j, n, m)
  {
    var t := PTypes;
    assert Processes["GSB"] == [t[0], t[1]] && Processes["SE"] == [t[2], t[3]];
    assert Processes["ESA"] == [t[4], t[5]] && Processes["DC"] == [t[6], t[7]];
    SamplePair(p, t[0], t[1], i, j, n, m);
    SamplePair(p, t[2], t[3], i, j, n, m);
    SamplePair(p, t[4], t[5], i, j, n, m);
    SamplePair(p, t[6], t[7], i, j, n, m);
  }

  /** The signal blocks add up to the total. */
  lemma SignalBlocksAddUp(p: Pieces, n: nat, m: nat, i: nat, j: nat)
    requires PiecesShaped(p, n, m) && i < n && j < m
    ensures BlockSample(p, Signals["REPH"], i, j, n, m) + BlockSample(p, Signals["NONR"], i, j, n, m)
      + BlockSample(p, Signals["DC"], i, j, n, m)
      == GrandSample(p, i, j, n, m)
  {
    var t := PTypes;
    assert Signals["REPH"] == [t[1], t[2], t[4]] && Signals["NONR"] == [t[0], t[3], t[5]];
    assert Signals["DC"] == [t[6], t[7]];
    SamplePair(p, t[6], t[7], i, j, n, m);
    SampleTriple(p, t[1], t[2], t[4], i, j, n, m);
    SampleTriple(p, t[0], t[3], t[5], i, j, n, m);
  }

  /** `_processes_to_total` adds the four process arrays into zeros. */
  lemma ProcessesTotalIsSum(s2: StoreState, n: nat, m: nat)
    requires s2.initialized && s2.dims == Some((n, m)) && s2.storage.Summed?
    requires forall x :: x in ProcessNames ==> x in s2.storage.arrays
    ensures var a := s2.storage.arrays;
      ProcessesToTotal(s2) == AddAll(Zeros(n, m), [a["GSB"], a["SE"], a["ESA"], a["DC"]])
  {
    RequiredSumAll(s2.storage, Zeros(n, m), ProcessNames);
    var a := s2.storage.arrays;
    assert Lookups(a, ProcessNames) == [a["GSB"], a["SE"], a["ESA"], a["DC"]];
  }

  /** `_signals_to_total` adds the three signal arrays into zeros. */
  lemma SignalsTotalIsSum(s1: StoreState, n: nat, m: nat)
    requires s1.initialized && s1.dims == Some((n, m)) && s1.storage.Summed?
    requires forall x :: x in SignalNames ==> x in s1.storage.arrays
    ensures var a := s1.storage.arrays;
      SignalsToTotal(s1) == AddAll(Zeros(n, m), [a["REPH"], a["NONR"], a["DC"]])
  {
    RequiredSumAll(s1.storage, Zeros(n, m), SignalNames);
    var a := s1.storage.arrays;
    assert Lookups(a, SignalNames) == [a["REPH"], a["NONR"], a["DC"]];
  }

  /** `_processes_to_total` of the lowered `processes` store. */
  lemma ProcessesTotalSums(s2: StoreState, p: Pieces, n: nat, m: nat)
    requires PiecesShaped(p, n, m) && s2.initialized && s2.dims == Some((n, m)) && s2.storage.Summed?
    requires BlockArraysOf(s2.storage.arrays, p, n, m, Processes)
    ensures ProcessesToTotal(s2).Ok?
    ensures ProcessesToTotal(s2).value.rows == n && ProcessesToTotal(s2).value.cols == m
    ensures forall i, j :: 0 <= i < n && 0 <= j < m ==> ProcessesToTotal(s2).value.cells[i][j] == GrandSample(p, i, j, n, m)
  {
    var a := s2.storage.arrays;
    TableKeys();
    ProcessesTotalIsSum(s2, n, m);
    var ys := [a["GSB"], a["SE"], a["ESA"], a["DC"]];
    AddAllFromZeros(n, m, ys);
    forall i, j | 0 <= i < n && 0 <= j < m
      ensures EntrySum(ys, i, j) == GrandSample(p, i, j, n, m)
    {
      ProcessSampleAt(a, p, n, m, i, j);
    }
  }

  lemma ProcessSampleAt(a: map<string, Matrix>, p: Pieces, n: nat, m: nat, i: nat, j: nat)
    requires PiecesShaped(p, n, m) && i < n && j < m
    requires forall x :: x in ProcessNames ==> x in a && a[x].rows == n && a[x].cols == m
    requires forall x :: x in ProcessNames ==> a[x].cells[i][j] == BlockSample(p, Processes[x], i, j, n, m)
    ensures EntrySum([a["GSB"], a["SE"], a["ESA"], a["DC"]], i, j) == GrandSample(p, i, j, n, m)
  {
    assert "GSB" in ProcessNames && "SE" in ProcessNames && "ESA" in ProcessNames && "DC" in ProcessNames;
    EntrySumQuad(a["GSB"], a["SE"], a["ESA"], a["DC"], i, j);
    ProcessBlocksAddUp(p, n, m, i, j);
  }

  /** `_signals_to_total` of the lowered `signals` store. */
  lemma SignalsTotalSums(s1: StoreState, p: Pieces, n: nat, m: nat)
    requires PiecesShaped(p, n, m) && s1.initialized && s1.dims == Some((n, m)) && s1.storage.Summed?
    requires BlockArraysOf(s1.storage.arrays, p, n, m, Signals)
    ensures SignalsToTotal(s1).Ok?
    ensures SignalsToTotal(s1).value.rows == n && SignalsToTotal(s1).value.cols == m
    ensures forall i, j :: 0 <= i < n && 0 <= j < m ==> SignalsToTotal(s1).value.cells[i][j] == GrandSample(p, i, j, n, m)
  {
    var a := s1.storage.arrays;
    TableKeys();
    SignalsTotalIsSum(s1, n, m);
    var ys := [a["REPH"], a["NONR"], a["DC"]];
    AddAllFromZeros(n, m, ys);
    forall i, j | 0 <= i < n && 0 <= j < m
      ensures EntrySum(ys, i, j) == GrandSample(p, i, j, n, m)
    {
      SignalSampleAt(a, p, n, m, i, j);
    }
  }

  lemma SignalSampleAt(a: map<string, Matrix>, p: Pieces, n: nat, m: nat, i: nat, j: nat)
    requires PiecesShaped(p, n, m) && i < n && j < m
    requires forall x :: x in SignalNames ==> x in a && a[x].rows == n && a[x].cols == m
    requires forall x :: x in SignalNames ==> a[x].cells[i][j] == BlockSample(p, Signals[x], i, j, n, m)
    ensures EntrySum([a["REPH"], a["NONR"], a["DC"]], i, j) == GrandSample(p, i, j, n, m)
  {
    assert "REPH" in SignalNames && "NONR" in SignalNames && "DC" in SignalNames;
    EntrySumTriple(a["REPH"], a["NONR"], a["DC"], i, j);
    SignalBlocksAddUp(p, n, m, i, j);
  }

  /** `_pathways_to_signals` sums a signal's block of pathways. */
  lemma PathwaysSignalSums(s: StoreState, n: nat, m: nat, signal: string)
    requires Populated(s, n, m) && signal in Signals
    ensures PathwaysToSignals(s, signal).Ok?
    ensures PathwaysToSignals(s, signal).value.rows == n && PathwaysToSignals(s, signal).value.cols == m
    ensures forall i, j :: 0 <= i < n && 0 <= j < m ==>
      PathwaysToSignals(s, signal).value.cells[i][j] == BlockSample(PiecesOf(s.storage), Signals[signal], i, j, n, m)
  {
    TypeArraysShaped(PiecesOf(s.storage), Signals[signal], n, m);
    AddAllFromZeros(n, m, TypeArrays(PiecesOf(s.storage), Signals[signal]));
  }

  /** `_pathways_to_processes` sums a process's block of pathways. */
  lemma PathwaysProcessSums(s: StoreState, n: nat, m: nat, process: string)
    requires Populated(s, n, m) && process in Processes
    ensures PathwaysToProcesses(s, process).Ok?
    ensures PathwaysToProcesses(s, process).value.rows == n && PathwaysToProcesses(s, process).value.cols == m
    ensures forall i, j :: 0 <= i < n && 0 <= j < m ==>
      PathwaysToProcesses(s, process).value.cells[i][j] == BlockSample(PiecesOf(s.storage), Processes[process], i, j, n, m)
  {
    TypeArraysShaped(PiecesOf(s.storage), Processes[process], n, m);
    AddAllFromZeros(n, m, TypeArrays(PiecesOf(s.storage), Processes[process]));
  }

  /** Folding the signals in is adding up their arrays. */
  lemma {:induction false} SignalsFoldAll(s: StoreState, acc: Matrix, names: seq<string>, xs: seq<Matrix>)
    requires |xs| == |names| && forall k :: 0 <= k < |names| ==> PathwaysToSignals(s, names[k]) == Ok(xs[k])
    ensures SignalsFold(s, acc, names) == AddAll(acc, xs)
    decreases |names|
  {
    if names != [] {
      var init := names[..|names| - 1];
      assert forall k :: 0 <= k < |init| ==> init[k] == names[k];
      SignalsFoldAll(s, acc, init, xs[..|xs| - 1]);
    }
  }

  /** The three signal arrays of the stored pathways, axis-sized. */
  lemma SignalArraysShaped(s: StoreState, n: nat, m: nat)
    requires Populated(s, n, m)
    ensures PathwaysToSignals(s, "REPH").Ok? && PathwaysToSignals(s, "NONR").Ok? && PathwaysToSignals(s, "DC").Ok?
    ensures AllShaped([PathwaysToSignals(s, "REPH").value, PathwaysToSignals(s, "NONR").value, PathwaysToSignals(s, "DC").value], n, m)
  {
    PathwaysSignalSums(s, n, m, "REPH");
    PathwaysSignalSums(s, n, m, "NONR");
    PathwaysSignalSums(s, n, m, "DC");
  }

  /** The three signal arrays of the stored pathways add up, sample by
      sample, to the total. */
  lemma SignalSamplesAddUp(s: StoreState, n: nat, m: nat, i: nat, j: nat)
    requires Populated(s, n, m) && i < n && j < m
    requires PathwaysToSignals(s, "REPH").Ok? && PathwaysToSignals(s, "NONR").Ok? && PathwaysToSignals(s, "DC").Ok?
    requires AllShaped([PathwaysToSignals(s, "REPH").value, PathwaysToSignals(s, "NONR").value, PathwaysToSignals(s, "DC").value], n, m)
    ensures EntrySum([PathwaysToSignals(s, "REPH").value, PathwaysToSignals(s, "NONR").value, PathwaysToSignals(s, "DC").value], i, j)
      == GrandSample(PiecesOf(s.storage), i, j, n, m)
  {
    var r, nr, dc := PathwaysToSignals(s, "REPH").value, PathwaysToSignals(s, "NONR").value, PathwaysToSignals(s, "DC").value;
    PathwaysSignalSums(s, n, m, "REPH");
    PathwaysSignalSums(s, n, m, "NONR");
    PathwaysSignalSums(s, n, m, "DC");
    EntrySumTriple(r, nr, dc, i, j);
    SignalBlocksAddUp(PiecesOf(s.storage), n, m, i, j);
  }

  lemma TotalIsSignalSum(s: StoreState, n: nat, m: nat)
    requires s.initialized && s.dims == Some((n, m))
    requires PathwaysToSignals(s, "REPH").Ok? && PathwaysToSignals(s, "NONR").Ok? && PathwaysToSignals(s, "DC").Ok?
    ensures PathwaysToTotal(s) == AddAll(Zeros(n, m),
      [PathwaysToSignals(s, "REPH").value, PathwaysToSignals(s, "NONR").value, PathwaysToSignals(s, "DC").value])
  {
    SignalsFoldAll(s, Zeros(n, m), SignalNames,
      [PathwaysToSignals(s, "REPH").value, PathwaysToSignals(s, "NONR").value, PathwaysToSignals(s, "DC").value]);
  }

  /** `_pathways_to_total`: the signals of the stored pathways, added up. */
  lemma PathwaysTotalSums(s: StoreState, n: nat, m: nat)
    requires Populated(s, n, m)
    ensures PathwaysToTotal(s).Ok?
    ensures PathwaysToTotal(s).value.rows == n && PathwaysToTotal(s).value.cols == m
    ensures forall i, j :: 0 <= i < n && 0 <= j < m ==>
      PathwaysToTotal(s).value.cells[i][j] == GrandSample(PiecesOf(s.storage), i, j, n, m)
  {
    SignalArraysShaped(s, n, m);
    TotalIsSignalSum(s, n, m);
    var ys := [PathwaysToSignals(s, "REPH").value, PathwaysToSignals(s, "NONR").value, PathwaysToSignals(s, "DC").value];
    AddAllFromZeros(n, m, ys);
    forall i, j | 0 <= i < n && 0 <= j < m
      ensures EntrySum(ys, i, j) == GrandSample(PiecesOf(s.storage), i, j, n, m)
    {
      SignalSamplesAddUp(s, n, m, i, j);
    }
  }

  /** pathways -> types yields a store lowered from the stored pathways. */
  lemma TypesAreLowered(s: StoreState, n: nat, m: nat)
    requires Populated(s, n, m)
    ensures LoweredFrom(SetResolution(s, "types").state, PiecesOf(s.storage), n, m)
  {
    LoweringToTypes(s, n, m);
    SetResolutionKeepsLayout(s, "types");
  }

  /** The total after pathways -> types -> processes is the total read at
      `pathways`. */
  lemma ProcessesRouteTotal(s: StoreState, n: nat, m: nat)
    requires Populated(s, n, m)
    ensures var s2 := SetResolution(SetResolution(s, "types").state, "processes");
      && s2.error == None && PathwaysToTotal(s).Ok?
      && ProcessesToTotal(s2.state) == PathwaysToTotal(s)
  {
    var p := PiecesOf(s.storage);
    TypesAreLowered(s, n, m);
    var s3 := SetResolution(s, "types").state;
    LoweringFromTypes(s3, p, n, m, "processes");
    var s2 := SetResolution(s3, "processes").state;
    PathwaysTotalSums(s, n, m);
    ProcessesTotalSums(s2, p, n, m);
    Extensionality(ProcessesToTotal(s2).value, PathwaysToTotal(s).value);
  }

  /** The total after pathways -> types -> signals is the total read at
      `pathways`. */
  lemma SignalsRouteTotal(s: StoreState, n: nat, m: nat)
    requires Populated(s, n, m)
    ensures var s1 := SetResolution(SetResolution(s, "types").state, "signals");
      && s1.error == None && PathwaysToTotal(s).Ok?
      && SignalsToTotal(s1.state) == PathwaysToTotal(s)
  {
    var p := PiecesOf(s.storage);
    TypesAreLowered(s, n, m);
    var s3 := SetResolution(s, "types").state;
    LoweringFromTypes(s3, p, n, m, "signals");
    var s1 := SetResolution(s3, "signals").state;
    PathwaysTotalSums(s, n, m);
    SignalsTotalSums(s1, p, n, m);
    Extensionality(SignalsToTotal(s1).value, PathwaysToTotal(s).value);
  }

  /** The total spectrum is independent of the route: reading "total" at
      `pathways`, after pathways -> types -> processes, and after
      pathways -> types -> signals gives the same array. */
  lemma TotalIsPathIndependent(s: StoreState, n: nat, m: nat)
    requires Populated(s, n, m)
    ensures var s3 := SetResolution(s, "types").state;
      var s2 := SetResolution(s3, "processes");
      var s1 := SetResolution(s3, "signals");
      && s2.error == None && s1.error == None
      && PathwaysToTotal(s).Ok?
      && ProcessesToTotal(s2.state) == PathwaysToTotal(s)
      && SignalsToTotal(s1.state) == PathwaysToTotal(s)
  {
    ProcessesRouteTotal(s, n, m);
    SignalsRouteTotal(s, n, m);
  }

  /** What the getter returns for the address "total" at the three
      resolutions where a total is read. */
  lemma ReadTotal(s: StoreState)
    requires s.dtype == Some("total") && !s.storage.Absent?
    ensures s.resolution == "pathways" ==> Read(s) == Found(PathwaysToTotal(s))
    ensures s.resolution == "processes" ==> Read(s) == Found(ProcessesToTotal(s))
    ensures s.resolution == "signals" ==> Read(s) == Found(SignalsToTotal(s))
  {
    assert "total" !in PTypes && "total" !in Processes && "total" !in Signals;
  }

  /** The same, as the getter reports it with the address "total". */
  lemma TotalReadIsPathIndependent(s: StoreState, n: nat, m: nat)
    requires Populated(s, n, m) && s.dtype == Some("total")
    ensures var s3 := SetResolution(s, "types").state;
      var s2 := SetResolution(s3, "processes").state;
      var s1 := SetResolution(s3, "signals").state;
      && Read(s).Ok? && Read(s).value.Some?
      && Read(s2) == Read(s) && Read(s1) == Read(s)
  {
    TotalIsPathIndependent(s, n, m);
    var s3 := SetResolution(s, "types").state;
    SetResolutionOutcome(s, "types");
    SetResolutionKeepsLayout(s, "types");
    SetResolutionOutcome(s3, "processes");
    SetResolutionOutcome(s3, "signals");
    SetResolutionKeepsLayout(s3, "processes");
    SetResolutionKeepsLayout(s3, "signals");
    ReadTotal(s);
    ReadTotal(SetResolution(s3, "processes").state);
    ReadTotal(SetResolution(s3, "signals").state);
  }
}
