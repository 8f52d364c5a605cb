/** The storage behind a 2D spectrum and the zero-initialised sums of
    twod2.py:134-325 that turn finer data into coarser views. */
module Aggregation {
  import opened Errors
  import opened Matrices
  import opened Resolution

  /** One stored Liouville pathway: its tag (possibly `None`) and its array. */
  datatype Entry = Entry(tag: Option<string>, value: Matrix)

  /** At `pathways` resolution: pathway type -> the pathways of that type, in
      the order in which they were stored (Python dictionaries keep it). */
  type Pieces = map<string, seq<Entry>>

  /** The attribute `_d__data`: never assigned, a dictionary of pathway
      dictionaries (pathways resolution), or a dictionary of arrays (types,
      processes and signals resolution, and `off`, which keeps the old one). */
  datatype Storage = Absent | Tagged(pieces: Pieces) | Summed(arrays: map<string, Matrix>)

  /** What the store getter, setter and the sums read of a spectrum. */
  datatype StoreState = StoreState(
    resolution: string,          // storage_resolution
    initialized: bool,           // storage_initialized
    storage: Storage,            // _d__data
    dtype: Option<string>,       // current_dtype
    tag: Option<string>,         // current_tag
    addressLength: nat,          // address_length
    dims: Option<(nat, nat)>)    // (xaxis.length, yaxis.length); None while an axis is None

  function PiecesOf(st: Storage): Pieces {
    if st.Tagged? then st.pieces else map[]
  }

  function LeavesOf(st: Storage): map<string, Matrix> {
    if st.Summed? then st.arrays else map[]
  }

  function Values(es: seq<Entry>): (vs: seq<Matrix>)
    ensures |vs| == |es| && forall k :: 0 <= k < |es| ==> vs[k] == es[k].value
  {
    seq(|es|, k requires 0 <= k < |es| => es[k].value)
  }

  /** The arrays stored under one type; none when the type was never written. */
  function TypeValues(p: Pieces, t: string): seq<Matrix> {
    if t in p then Values(p[t]) else []
  }

  /** The arrays of all pathways of the listed types, type after type. */
  function TypeArrays(p: Pieces, types: seq<string>): seq<Matrix>
    decreases |types|
  {
    if types == [] then []
    else TypeArrays(p, types[..|types| - 1]) + TypeValues(p, types[|types| - 1])
  }

  /** The arrays stored under those of `keys` that are present. */
  function PresentLeaves(a: map<string, Matrix>, keys: seq<string>): seq<Matrix>
    decreases |keys|
  {
    if keys == [] then []
    else
      var last := keys[|keys| - 1];
      PresentLeaves(a, keys[..|keys| - 1]) + (if last in a then [a[last]] else [])
  }

  /** The arrays stored under `keys`, all of which are present. */
  function Lookups(a: map<string, Matrix>, keys: seq<string>): (r: seq<Matrix>)
    requires forall k :: k in keys ==> k in a
    ensures |r| == |keys| && forall k :: 0 <= k < |keys| ==> r[k] == a[keys[k]]
  {
    seq(|keys|, k requires 0 <= k < |keys| => a[keys[k]])
  }

  /** `numpy.zeros((self.xaxis.length, self.yaxis.length))`. */
  function AxisZeros(dims: Option<(nat, nat)>): (r: Result<Matrix>)
    ensures r.Ok? <==> dims.Some?
    ensures r.Ok? ==> r.value == Zeros(dims.value.0, dims.value.1)
  {
    if dims.None? then Err(MissingAttribute) else Ok(Zeros(dims.value.0, dims.value.1))
  }

  /** The 1x1 zero array returned in place of data that is not initialised. */
  const Sentinel: Matrix := Zeros(1, 1)

  /** The start of most sums: axis-sized zeros once storage is initialised. */
  function Start(s: StoreState): Result<Matrix> {
    if s.initialized then AxisZeros(s.dims) else Ok(Sentinel)
  }

  /** `_pathways_to_processes`: returns the sentinel before checking the name. */
  function PathwaysToProcesses(s: StoreState, process: string): Result<Matrix> {
    if !s.initialized then Ok(Sentinel)
    else
      var acc :- AxisZeros(s.dims);
      if process !in Processes then Err(UnknownProcess)
      else AddAll(acc, TypeArrays(PiecesOf(s.storage), Processes[process]))
  }

  /** `_pathways_to_signals` */
  function PathwaysToSignals(s: StoreState, signal: string): Result<Matrix> {
    var acc :- Start(s);
    if signal !in Signals then Err(UnknownSignal)
    else AddAll(acc, TypeArrays(PiecesOf(s.storage), Signals[signal]))
  }

  /** `data += _pathways_to_signals(obj, signal)` for each of the listed signals. */
  function SignalsFold(s: StoreState, acc: Matrix, names: seq<string>): Result<Matrix>
    decreases |names|
  {
    if names == [] then Ok(acc)
    else
      var a :- SignalsFold(s, acc, names[..|names| - 1]);
      var x :- PathwaysToSignals(s, names[|names| - 1]);
      AddInto(a, x)
  }

  /** `_pathways_to_total` */
  function PathwaysToTotal(s: StoreState): Result<Matrix> {
    var acc :- Start(s);
    SignalsFold(s, acc, SignalNames)
  }

  /** `_types_to_processes`: types that are not stored are skipped. */
  function TypesToProcesses(s: StoreState, process: string): Result<Matrix> {
    var acc :- Start(s);
    if process !in Processes then Err(MissingKey)
    else AddAll(acc, PresentLeaves(LeavesOf(s.storage), Processes[process]))
  }

  /** `_types_to_signals` */
  function TypesToSignals(s: StoreState, signal: string): Result<Matrix> {
    var acc :- Start(s);
    if signal !in Signals then Err(MissingKey)
    else AddAll(acc, PresentLeaves(LeavesOf(s.storage), Signals[signal]))
  }

  /** `data += obj._d__data[key]` for each key, where a missing key raises. */
  function RequiredSum(st: Storage, acc: Matrix, keys: seq<string>): Result<Matrix>
    decreases |keys|
  {
    if keys == [] then Ok(acc)
    else
      var a :- RequiredSum(st, acc, keys[..|keys| - 1]);
      var last := keys[|keys| - 1];
      if st.Absent? then Err(MissingAttribute)
      else if last !in LeavesOf(st) then Err(MissingKey)
      else AddInto(a, LeavesOf(st)[last])
  }

  /** `_signals_to_total` */
  function SignalsToTotal(s: StoreState): Result<Matrix> {
    if !s.initialized then Ok(Sentinel)
    else
      var acc :- AxisZeros(s.dims);
      RequiredSum(s.storage, acc, SignalNames)
  }

  /** `_processes_to_total` */
  function ProcessesToTotal(s: StoreState): Result<Matrix> {
    if !s.initialized then Ok(Sentinel)
    else
      var acc :- AxisZeros(s.dims);
      RequiredSum(s.storage, acc, ProcessNames)
  }

  /** `_types_to_total`: once storage is initialised its first call
      `_types_to_processes(process)` lacks the `obj` argument and raises. */
  function TypesToTotal(s: StoreState): (r: Result<Matrix>)
    ensures s.initialized && s.dims.Some? ==> r == Err(MissingArgument)
    ensures !s.initialized ==> r == Ok(Sentinel)
  {
    if !s.initialized then Ok(Sentinel)
    else
      var _ :- AxisZeros(s.dims);
      Err(MissingArgument)
  }

  // ---------------------------------------------------------------------
  // What the sums are: sample by sample, sums of the stored samples.
  // ---------------------------------------------------------------------

  /** Every stored pathway array has the shape (n, m). */
  predicate PiecesShaped(p: Pieces, n: nat, m: nat) {
    forall t, k :: t in p && 0 <= k < |p[t]| ==> p[t][k].value.rows == n && p[t][k].value.cols == m
  }

  lemma TypeValuesShaped(p: Pieces, t: string, n: nat, m: nat)
    requires PiecesShaped(p, n, m)
    ensures AllShaped(TypeValues(p, t), n, m)
  {
  }

  lemma {:induction false} TypeArraysShaped(p: Pieces, types: seq<string>, n: nat, m: nat)
    requires PiecesShaped(p, n, m)
    ensures AllShaped(TypeArrays(p, types), n, m)
    decreases |types|
  {
    if types != [] {
      TypeArraysShaped(p, types[..|types| - 1], n, m);
      TypeValuesShaped(p, types[|types| - 1], n, m);
    }
  }

  /** Sample (i, j) summed over the pathways of one type. */
  function TypeSample(p: Pieces, t: string, i: nat, j: nat, n: nat, m: nat): real
    requires PiecesShaped(p, n, m) && i < n && j < m
  {
    TypeValuesShaped(p, t, n, m);
    EntrySum(TypeValues(p, t), i, j)
  }

  lemma {:induction false} TypeArraysAppend(p: Pieces, xs: seq<string>, ys: seq<string>)
    ensures TypeArrays(p, xs + ys) == TypeArrays(p, xs) + TypeArrays(p, ys)
    decreases |ys|
  {
    if ys == [] {
      assert xs + ys == xs;
    } else {
      var zs, init, last := xs + ys, ys[..|ys| - 1], ys[|ys| - 1];
      assert zs[..|zs| - 1] == xs + init;
      assert zs[|zs| - 1] == last;
      TypeArraysAppend(p, xs, init);
      calc {
        TypeArrays(p, zs);
        TypeArrays(p, xs + init) + TypeValues(p, last);
        (TypeArrays(p, xs) + TypeArrays(p, init)) + TypeValues(p, last);
        TypeArrays(p, xs) + (TypeArrays(p, init) + TypeValues(p, last));
        TypeArrays(p, xs) + TypeArrays(p, ys);
      }
    }
  }

  lemma TypeArraysSingle(p: Pieces, t: string)
    ensures TypeArrays(p, [t]) == TypeValues(p, t)
  {
    assert [t][..0] == [];
  }

  lemma TypeArraysPair(p: Pieces, a: string, b: string)
    ensures TypeArrays(p, [a, b]) == TypeValues(p, a) + TypeValues(p, b)
  {
    assert [a, b] == [a] + [b];
    TypeArraysAppend(p, [a], [b]);
    TypeArraysSingle(p, a);
    TypeArraysSingle(p, b);
  }

  lemma TypeArraysTriple(p: Pieces, a: string, b: string, c: string)
    ensures TypeArrays(p, [a, b, c]) == TypeValues(p, a) + TypeValues(p, b) + TypeValues(p, c)
  {
    assert [a, b, c] == [a, b] + [c];
    TypeArraysAppend(p, [a, b], [c]);
    TypeArraysPair(p, a, b);
    TypeArraysSingle(p, c);
  }

  /** Sample (i, j) of the pathways of two (three) types. */
  lemma SamplePair(p: Pieces, a: string, b: string, i: nat, j: nat, n: nat, m: nat)
    requires PiecesShaped(p, n, m) && i < n && j < m
    ensures AllShaped(TypeArrays(p, [a, b]), n, m)
    ensures EntrySum(TypeArrays(p, [a, b]), i, j) == TypeSample(p, a, i, j, n, m) + TypeSample(p, b, i, j, n, m)
  {
    TypeArraysPair(p, a, b);
    TypeValuesShaped(p, a, n, m);
    TypeValuesShaped(p, b, n, m);
    EntrySumAppend(TypeValues(p, a), TypeValues(p, b), i, j);
  }

  lemma SampleTriple(p: Pieces, a: string, b: string, c: string, i: nat, j: nat, n: nat, m: nat)
    requires PiecesShaped(p, n, m) && i < n && j < m
    ensures AllShaped(TypeArrays(p, [a, b, c]), n, m)
    ensures EntrySum(TypeArrays(p, [a, b, c]), i, j) ==
      TypeSample(p, a, i, j, n, m) + TypeSample(p, b, i, j, n, m) + TypeSample(p, c, i, j, n, m)
  {
    TypeArraysTriple(p, a, b, c);
    TypeValuesShaped(p, a, n, m);
    TypeValuesShaped(p, b, n, m);
    TypeValuesShaped(p, c, n, m);
    EntrySumAppend(TypeValues(p, a), TypeValues(p, b), i, j);
    EntrySumAppend(TypeValues(p, a) + TypeValues(p, b), TypeValues(p, c), i, j);
  }

  /** Sample (i, j) of the total of all stored pathways: the sum over the
      eight types of their sums. */
  function GrandSample(p: Pieces, i: nat, j: nat, n: nat, m: nat): real
    requires PiecesShaped(p, n, m) && i < n && j < m
  {
    var t := PTypes;
    TypeSample(p, t[0], i, j, n, m) + TypeSample(p, t[1], i, j, n, m)
    + TypeSample(p, t[2], i, j, n, m) + TypeSample(p, t[3], i, j, n, m)
    + TypeSample(p, t[4], i, j, n, m) + TypeSample(p, t[5], i, j, n, m)
    + TypeSample(p, t[6], i, j, n, m) + TypeSample(p, t[7], i, j, n, m)
  }

  lemma EntrySumPair(a: Matrix, b: Matrix, i: nat, j: nat)
    requires i < a.rows && j < a.cols && i < b.rows && j < b.cols
    ensures EntrySum([a, b], i, j) == a.cells[i][j] + b.cells[i][j]
  {
    assert [a, b][..1] == [a];
    assert [a][..0] == [];
    assert EntrySum([a], i, j) == a.cells[i][j] by {
      assert EntrySum([a][..0], i, j) == 0.0;
    }
  }

  lemma EntrySumTriple(a: Matrix, b: Matrix, c: Matrix, i: nat, j: nat)
    requires i < a.rows && j < a.cols && i < b.rows && j < b.cols && i < c.rows && j < c.cols
    ensures EntrySum([a, b, c], i, j) == a.cells[i][j] + b.cells[i][j] + c.cells[i][j]
  {
    assert [a, b, c][..2] == [a, b];
    EntrySumPair(a, b, i, j);
  }

  lemma EntrySumQuad(a: Matrix, b: Matrix, c: Matrix, d: Matrix, i: nat, j: nat)
    requires i < a.rows && j < a.cols && i < b.rows && j < b.cols
    requires i < c.rows && j < c.cols && i < d.rows && j < d.cols
    ensures EntrySum([a, b, c, d], i, j) == a.cells[i][j] + b.cells[i][j] + c.cells[i][j] + d.cells[i][j]
  {
    assert [a, b, c, d][..3] == [a, b, c];
    EntrySumTriple(a, b, c, i, j);
  }
}
