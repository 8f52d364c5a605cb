/** The resolution-aware store of a 2D spectrum as a state machine on
    values: the getter and setter of `twodspectrum_dictionary`
    (twod2.py:328-507), `set_data_flag`, `get_all_tags`, `set_resolution`,
    `_convert_resolution` and `_add_data` (twod2.py:662-923). */
module Store {
  import opened Errors
  import opened Matrices
  import opened Resolution
  import opened Aggregation

  /** What is assigned to the store: a numpy array or anything else. */
  datatype Value = Array(contents: Matrix) | NonArray

  /** The state after an operation, and the exception it raised, if any
      (assignments made before the exception stay made). */
  datatype Outcome = Outcome(state: StoreState, error: Option<Error>)

  /** The state of a freshly constructed spectrum (twod2.py:540-557),
      given the shape its axes will have. */
  function Fresh(dims: Option<(nat, nat)>): StoreState {
    StoreState("pathways", false, Absent, None, None, 1, dims)
  }

  function Level(res: string): nat
    requires res in Resolutions
  {
    IndexOf(Resolutions, res)
  }

  // ---------------------------------------------------------------------
  // The shape the store keeps between operations.
  // ---------------------------------------------------------------------

  predicate HasTag(es: seq<Entry>, tag: Option<string>) {
    exists k :: 0 <= k < |es| && es[k].tag == tag
  }

  predicate UniqueTags(es: seq<Entry>) {
    forall k, l :: 0 <= k < l < |es| ==> es[k].tag != es[l].tag
  }

  /** At `pathways` the store is absent until the first write and a
      dictionary of non-empty pathway dictionaries keyed by pathway types
      afterwards; below `pathways` it is always a dictionary of arrays. */
  predicate Layout(s: StoreState) {
    && s.resolution in Resolutions
    && (s.resolution == "pathways" ==>
          && (s.initialized <==> s.storage.Tagged?)
          && (!s.initialized ==> s.storage.Absent?)
          && (s.storage.Tagged? ==> forall t :: t in s.storage.pieces ==>
                t in PTypes && |s.storage.pieces[t]| > 0 && UniqueTags(s.storage.pieces[t])))
    && (s.resolution != "pathways" ==> s.storage.Summed?)
  }

  // ---------------------------------------------------------------------
  // The getter.
  // ---------------------------------------------------------------------

  /** `piece[tag]` */
  function Lookup(es: seq<Entry>, tag: Option<string>): (r: Result<Matrix>)
    ensures r.Ok? <==> HasTag(es, tag)
    ensures r.Ok? ==> exists k :: 0 <= k < |es| && es[k].tag == tag && es[k].value == r.value
    ensures r.Err? ==> r.error == MissingKey
    decreases |es|
  {
    if es == [] then Err(MissingKey)
    else if es[|es| - 1].tag == tag then Ok(es[|es| - 1].value)
    else
      var r := Lookup(es[..|es| - 1], tag);
      assert HasTag(es, tag) ==> HasTag(es[..|es| - 1], tag) by {
        if HasTag(es, tag) {
          var k :| 0 <= k < |es| && es[k].tag == tag;
          assert es[..|es| - 1][k].tag == tag;
        }
      }
      r
  }

  /** The tagless read: the first pathway copied, the others added to it. */
  function SumOfType(piece: seq<Entry>): Result<Matrix> {
    if piece == [] then Err(UnboundAccumulator)
    else AddAll(piece[0].value, Values(piece[1..]))
  }

  function Found(r: Result<Matrix>): (o: Result<Option<Matrix>>)
    ensures r.Ok? <==> o.Ok?
    ensures r.Ok? ==> o.value == Some(r.value)
    ensures r.Err? ==> o.error == r.error
  {
    if r.Err? then Err(r.error) else Ok(Some(r.value))
  }

  function PathwaysRead(s: StoreState): Result<Option<Matrix>> {
    var d := s.dtype;
    if d.Some? && d.value in PTypes then
      if !s.initialized then Ok(Some(Sentinel))
      else if d.value !in PiecesOf(s.storage) then Found(AxisZeros(s.dims))
      else
        var piece := PiecesOf(s.storage)[d.value];
        if s.tag.Some? then Found(Lookup(piece, s.tag)) else Found(SumOfType(piece))
    else if d.Some? && d.value in Processes then Found(PathwaysToProcesses(s, d.value))
    else if d.Some? && d.value in Signals then Found(PathwaysToSignals(s, d.value))
    else if d == Some("total") then Found(PathwaysToTotal(s))
    else Ok(None)
  }

  /** `storage[key]` on a dictionary of arrays. */
  function Stored(s: StoreState, key: string): Result<Option<Matrix>> {
    if key in LeavesOf(s.storage) then Ok(Some(LeavesOf(s.storage)[key])) else Err(MissingKey)
  }

  /** The store getter: `Ok(None)` is the `None` returned for a dtype the
      current resolution does not know. */
  function Read(s: StoreState): Result<Option<Matrix>> {
    var d := s.dtype;
    if s.storage.Absent? then Err(MissingAttribute)
    else if s.resolution == "pathways" then PathwaysRead(s)
    else if s.resolution == "types" then
      if d.Some? && d.value in PTypes then Stored(s, d.value)
      else if d.Some? && d.value in Processes then Found(TypesToProcesses(s, d.value))
      else if d.Some? && d.value in Signals then Found(TypesToSignals(s, d.value))
      else if d == Some("total") then Found(TypesToTotal(s))
      else Ok(None)
    else if s.resolution == "processes" then
      if d.Some? && d.value in Processes then Stored(s, d.value)
      else if d == Some("total") then Found(ProcessesToTotal(s))
      else Ok(None)
    else if s.resolution == "signals" then
      if d.Some? && d.value in Signals then Stored(s, d.value)
      else if d == Some("total") then Found(SignalsToTotal(s))
      else Ok(None)
    else Err(NotImplemented)
  }

  // ---------------------------------------------------------------------
  // The setter.
  // ---------------------------------------------------------------------

  /** The empty dictionary the first write assigns. */
  function EmptyStorage(resolution: string): Storage {
    if resolution == "pathways" then Tagged(map[]) else Summed(map[])
  }

  /** The first assignment creates an empty store and marks it initialised,
      whatever is being assigned. */
  function Initialise(s: StoreState): (r: StoreState)
    ensures r.initialized
    ensures r == s.(storage := r.storage, initialized := true)
    ensures s.initialized ==> r == s
  {
    if s.initialized then s else s.(storage := EmptyStorage(s.resolution), initialized := true)
  }

  /** The store setter. The shape check of twod2.py:497-499 follows a
      `raise` and is never reached, so any array is accepted. */
  function Write(s: StoreState, v: Value): Outcome {
    var s1 := Initialise(s);
    if v.NonArray? then Outcome(s1, Some(NotAnArray))
    else if s1.resolution != "pathways" then Outcome(s1, None)
    else if s1.dtype.None? || s1.dtype.value !in PTypes then Outcome(s1, Some(WrongPathwaysType))
    else
      var t := s1.dtype.value;
      var p := PiecesOf(s1.storage);
      var piece := if t in p then p[t] else [];
      if HasTag(piece, s1.tag) then Outcome(s1, Some(TagExists))
      else Outcome(s1.(storage := Tagged(p[t := piece + [Entry(s1.tag, v.contents)]])), None)
  }

  // ---------------------------------------------------------------------
  // The address, the tag listing and _add_data.
  // ---------------------------------------------------------------------

  /** The argument of `set_data_flag`: a single value or a Python list. */
  datatype Flag = Plain(name: Option<string>) | Listed(items: seq<Option<string>>)

  /** `set_data_flag`: `flag[0]` of an empty list raises before anything is
      assigned; `flag[1]` of a one-element list raises after `current_dtype`
      has been assigned. */
  function SetDataFlag(s: StoreState, flag: Flag): Outcome {
    match flag
    case Plain(n) => Outcome(s.(dtype := n, tag := None, addressLength := 1), None)
    case Listed(items) =>
      if |items| == 0 then Outcome(s, Some(FlagIndex))
      else if |items| == 1 then Outcome(s.(dtype := items[0]), Some(FlagTooShort))
      else Outcome(s.(dtype := items[0], tag := items[1], addressLength := 2), None)
  }

  /** `[type, tag]` for every stored pathway of the listed types. */
  function TagsOf(p: Pieces, types: seq<string>): seq<(string, Option<string>)>
    decreases |types|
  {
    if types == [] then []
    else
      var t := types[|types| - 1];
      TagsOf(p, types[..|types| - 1]) +
        (if t in p then seq(|p[t]|, k requires 0 <= k < |p[t]| => (t, p[t][k].tag)) else [])
  }

  /** `get_all_tags`: on a dictionary of arrays a stored type makes
      `pdict.keys()` fail; an absent store fails at once. */
  function AllTags(s: StoreState): Result<seq<(string, Option<string>)>> {
    match s.storage
    case Absent => Err(MissingAttribute)
    case Tagged(p) => Ok(TagsOf(p, PTypes))
    case Summed(a) => if exists t :: t in PTypes && t in a then Err(MissingAttribute) else Ok([])
  }

  /** `_add_data`: only `pathways` data are added, through the flag and the
      setter; any other resolution that passes the check does nothing. */
  function AddData(s: StoreState, v: Value, resolution: Option<string>, dtype: string, tag: Option<string>): Outcome {
    if resolution.Some? && resolution.value !in Resolutions then Outcome(s, Some(UnknownResolution))
    else if resolution.Some? && s.resolution !in Resolutions then Outcome(s, Some(UnknownResolution))
    else if resolution.Some? && Level(resolution.value) > Level(s.resolution) then Outcome(s, Some(NotEnoughResolution))
    else
      var res := if resolution.Some? then resolution.value else s.resolution;
      if res != "pathways" then Outcome(s, None)
      else if dtype !in PTypes then Outcome(s, Some(UnknownPathwayKind))
      else if tag.None? then Outcome(s, Some(TagNotSpecified))
      else Write(SetDataFlag(s, Listed([Some(dtype), tag])).state, v)
  }

  // ---------------------------------------------------------------------
  // Lowering the resolution.
  // ---------------------------------------------------------------------

  /** One array of the lowered store: the sum of a type's pathways (1x1
      zeros when there was never a store), or a process or signal sum. */
  function Aggregate(s: StoreState, to: nat, name: string): Result<Matrix> {
    if to == Types then
      if s.storage.Absent? then Ok(Sentinel)
      else
        var z :- AxisZeros(s.dims);
        AddAll(z, TypeValues(PiecesOf(s.storage), name))
    else if to == ProcessesLevel then TypesToProcesses(s, name)
    else TypesToSignals(s, name)
  }

  /** The loop `storage[name] = ...` over the listed names. */
  function LeafMap(s: StoreState, to: nat, names: seq<string>): Result<map<string, Matrix>>
    decreases |names|
  {
    if names == [] then Ok(map[])
    else
      var m :- LeafMap(s, to, names[..|names| - 1]);
      var x :- Aggregate(s, to, names[|names| - 1]);
      Ok(m[names[|names| - 1] := x])
  }

  /** `_convert_resolution`: the new store, or the exception. The lowerings
      to `off` compute the total and then keep the old store. */
  function ConvertStorage(s: StoreState, from: nat, to: nat): Result<Storage> {
    if from == Pathways && to == Types then
      var m :- LeafMap(s, Types, PTypes);
      Ok(Summed(m))
    else if from == Types && to == ProcessesLevel then
      var m :- LeafMap(s, ProcessesLevel, ProcessNames);
      Ok(Summed(m))
    else if from == Types && to == SignalsLevel then
      var m :- LeafMap(s, SignalsLevel, SignalNames);
      Ok(Summed(m))
    else if from == SignalsLevel && to == Off then
      var _ :- SignalsToTotal(s);
      Ok(s.storage)
    else if from == ProcessesLevel && to == Off then
      var _ :- ProcessesToTotal(s);
      Ok(s.storage)
    else Err(CannotConvert(from, to))
  }

  /** `set_resolution` */
  function SetResolution(s: StoreState, target: string): Outcome {
    if target !in Resolutions || s.resolution !in Resolutions then Outcome(s, Some(UnknownResolution))
    else
      var from, to := Level(s.resolution), Level(target);
      if from < to then Outcome(s, Some(LowerToHigher))
      else if from == to then Outcome(s.(resolution := target), None)
      else
        match ConvertStorage(s, from, to)
        case Err(e) => Outcome(s, Some(e))
        case Ok(st) => Outcome(s.(storage := st, resolution := target), None)
  }
}
