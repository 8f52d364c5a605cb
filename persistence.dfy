/** What `save` writes and `load` reads back (twod2.py:1233-1307), as an
    abstract record instead of an HDF5 file. */
module Persistence {
  import opened Errors
  import opened Matrices
  import opened Axes

  /** The attributes of an axis subgroup: `start`, `length`, `step`. */
  datatype AxisGroup = AxisGroup(start: real, length: nat, step: real)

  /** The "spectrum" group: attributes `t2` and `keeps`, the datasets by
      name, and the axis subgroups by name. */
  datatype Record = Record(t2: real, keeps: seq<int>, datasets: map<string, Matrix>, axes: map<string, AxisGroup>)

  /** The part of a spectrum that `save` and `load` touch. */
  datatype Persisted = Persisted(
    t2: real, keepPathways: bool, keepStypes: bool,
    reph2D: Option<Matrix>, nonr2D: Option<Matrix>, data: Option<Matrix>,
    xaxis: Option<Axis>, yaxis: Option<Axis>)

  datatype LoadOutcome = LoadOutcome(state: Persisted, error: Option<Error>)

  function KeepFlag(b: bool): int {
    if b then 1 else 0
  }

  /** `_save_axis`: `atype` and `time_start` are not written. */
  function AxisRecord(a: Axis): AxisGroup {
    AxisGroup(a.start, a.length, a.step)
  }

  /** `_load_axis`: `FrequencyAxis(start, length, step)`, with the
      constructor's defaults for the rest. */
  function AxisOf(g: AxisGroup): Axis {
    Axis(g.start, g.length, g.step, None, None)
  }

  /** The datasets `_save_data` creates; h5py refuses `data=None`. */
  function SavedData(p: Persisted): Result<map<string, Matrix>> {
    if p.keepStypes then
      if p.reph2D.None? || p.nonr2D.None? then Err(NoneArray)
      else Ok(map["reph2D" := p.reph2D.value, "nonr2D" := p.nonr2D.value])
    else if p.data.None? then Err(NoneArray)
    else Ok(map["data" := p.data.value])
  }

  /** `save`: attributes, then data, then both axes. */
  function Save(p: Persisted): Result<Record> {
    var ds :- SavedData(p);
    if p.xaxis.None? || p.yaxis.None? then Err(MissingAttribute)
    else Ok(Record(p.t2, [KeepFlag(p.keepPathways), KeepFlag(p.keepStypes)], ds,
                   map["xaxis" := AxisRecord(p.xaxis.value), "yaxis" := AxisRecord(p.yaxis.value)]))
  }

  /** `_load_data`, steered by the `keep_stypes` just loaded. */
  function LoadData(p: Persisted, r: Record): LoadOutcome {
    if p.keepStypes then
      if "reph2D" !in r.datasets then LoadOutcome(p, Some(MissingKey))
      else
        var p1 := p.(reph2D := Some(r.datasets["reph2D"]));
        if "nonr2D" !in r.datasets then LoadOutcome(p1, Some(MissingKey))
        else LoadOutcome(p1.(nonr2D := Some(r.datasets["nonr2D"])), None)
    else if "data" !in r.datasets then LoadOutcome(p, Some(MissingKey))
    else LoadOutcome(p.(data := Some(r.datasets["data"])), None)
  }

  /** The attributes `load` reads first: `t2`, then `keeps[0]` and
      `keeps[1]`. */
  function LoadHeader(p: Persisted, r: Record): LoadOutcome {
    var p1 := p.(t2 := r.t2);
    if |r.keeps| == 0 then LoadOutcome(p1, Some(IndexOutOfRange))
    else
      var p2 := p1.(keepPathways := r.keeps[0] == 1);
      if |r.keeps| == 1 then LoadOutcome(p2, Some(IndexOutOfRange))
      else LoadOutcome(p2.(keepStypes := r.keeps[1] == 1), None)
  }

  /** The axes `load` reads last: `xaxis`, then `yaxis`. */
  function LoadAxes(p: Persisted, r: Record): LoadOutcome {
    if "xaxis" !in r.axes then LoadOutcome(p, Some(MissingKey))
    else
      var p1 := p.(xaxis := Some(AxisOf(r.axes["xaxis"])));
      if "yaxis" !in r.axes then LoadOutcome(p1, Some(MissingKey))
      else LoadOutcome(p1.(yaxis := Some(AxisOf(r.axes["yaxis"]))), None)
  }

  /** `load`: each assignment made before a missing entry stays made. */
  function Load(p: Persisted, r: Record): LoadOutcome {
    var o1 := LoadHeader(p, r);
    if o1.error.Some? then o1
    else
      var o2 := LoadData(o1.state, r);
      if o2.error.Some? then o2
      else LoadAxes(o2.state, r)
  }

  /** Saving fails exactly when an axis or a dataset to be written is None. */
  lemma SaveFails(p: Persisted)
    ensures Save(p).Err? <==>
      p.xaxis.None? || p.yaxis.None? ||
      (if p.keepStypes then p.reph2D.None? || p.nonr2D.None? else p.data.None?)
  {
  }

  /** Loading what was saved, into any spectrum q, restores t2, both flags,
      the saved arrays and each axis's start, length and step; the arrays
      that were not saved keep q's values, and the axes come back without
      `atype` and `time_start`. */
  lemma SaveLoadRoundTrip(p: Persisted, q: Persisted)
    requires Save(p).Ok?
    ensures var o := Load(q, Save(p).value);
      && o.error == None
      && o.state.t2 == p.t2 && o.state.keepPathways == p.keepPathways && o.state.keepStypes == p.keepStypes
      && (p.keepStypes ==> o.state.reph2D == p.reph2D && o.state.nonr2D == p.nonr2D && o.state.data == q.data)
      && (!p.keepStypes ==> o.state.data == p.data && o.state.reph2D == q.reph2D && o.state.nonr2D == q.nonr2D)
      && o.state.xaxis == Some(AxisOf(AxisRecord(p.xaxis.value)))
      && o.state.yaxis == Some(AxisOf(AxisRecord(p.yaxis.value)))
  {
  }

  /** A loaded axis samples the saved axis's frequencies, and has lost its
      `atype` and `time_start`. */
  lemma LoadedAxisSamples(a: Axis)
    ensures var b := AxisOf(AxisRecord(a));
      && b.length == a.length && b.atype.None? && b.timeStart.None?
      && forall k: nat :: Point(b, k) == Point(a, k)
  {
  }
}
