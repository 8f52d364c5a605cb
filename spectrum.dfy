/** The class TwoDSpectrum (twod2.py:515-1307) with its fields updated in
    place; every method is proved against the value-level model of the
    store (module Store), of the data fields (module SpectrumData) and of
    the saved record (module Persistence). */
module Spectrum {
  import opened Errors
  import opened Matrices
  import opened Resolution
  import opened Aggregation
  import opened Store
  import opened Axes
  import opened SpectrumData
  import opened Persistence
  import StoreProperties

  /** `for x in xs: acc += x` on a copy of acc. */
  method SumInto(acc: Matrix, xs: seq<Matrix>) returns (r: Result<Matrix>)
    ensures r == AddAll(acc, xs)
  {
    var a := acc;
    var k := 0;
    while k < |xs|
      invariant 0 <= k <= |xs|
      invariant AddAll(acc, xs[..k]) == Ok(a)
    {
      assert xs[..k + 1][..k] == xs[..k];
      var step := AddInto(a, xs[k]);
      if step.Err? {
        AddAllAppend(acc, xs[..k + 1], xs[k + 1..]);
        assert xs[..k + 1] + xs[k + 1..] == xs;
        return step;
      }
      a := step.value;
      k := k + 1;
    }
    assert xs[..k] == xs;
    return Ok(a);
  }

  /** The tagless read of one pathway type: the first pathway copied, each
      further one added to it. */
  method SumPieces(piece: seq<Entry>) returns (r: Result<Matrix>)
    ensures r == SumOfType(piece)
  {
    if |piece| == 0 {
      return Err(UnboundAccumulator);
    }
    var data := piece[0].value;
    var k := 1;
    while k < |piece|
      invariant 1 <= k <= |piece|
      invariant AddAll(piece[0].value, Values(piece[1..k])) == Ok(data)
    {
      assert Values(piece[1..k + 1])[..k - 1] == Values(piece[1..k]);
      var step := AddInto(data, piece[k].value);
      if step.Err? {
        AddAllAppend(piece[0].value, Values(piece[1..k + 1]), Values(piece[k + 1..]));
        assert Values(piece[1..k + 1]) + Values(piece[k + 1..]) == Values(piece[1..]);
        return step;
      }
      data := step.value;
      k := k + 1;
    }
    assert piece[1..k] == piece[1..];
    return Ok(data);
  }

  /** A lowering that fails on one name fails with the same exception for
      the whole list. */
  lemma {:induction false} LeafMapFailsOnward(s: StoreState, to: nat, names: seq<string>, k: nat)
    requires k <= |names| && LeafMap(s, to, names[..k]).Err?
    ensures LeafMap(s, to, names) == LeafMap(s, to, names[..k])
    decreases |names| - k
  {
    if k == |names| {
      assert names[..k] == names;
    } else {
      var init := names[..|names| - 1];
      assert init[..k] == names[..k];
      LeafMapFailsOnward(s, to, init, k);
    }
  }

  class TwoDSpectrum {
    var xaxis: Option<Axis>
    var yaxis: Option<Axis>
    var reph2D: Option<Matrix>
    var nonr2D: Option<Matrix>
    var data: Option<Matrix>
    var dtype: Option<string>
    var storageResolution: string
    var storageInitialized: bool
    var storage: Storage
    var currentDtype: Option<string>
    var currentTag: Option<string>
    var addressLength: nat
    var keepPathways: bool
    var keepStypes: bool
    var t2: real

    /** `(xaxis.length, yaxis.length)` while both axes are set. */
    function Dims(): Option<(nat, nat)>
      reads this
    {
      if xaxis.Some? && yaxis.Some? then Some((xaxis.value.length, yaxis.value.length)) else None
    }

    /** The resolution-aware store `d__data` and the address it is read at. */
    function Dictionary(): StoreState
      reads this
    {
      StoreState(storageResolution, storageInitialized, storage, currentDtype, currentTag, addressLength, Dims())
    }

    function Fields(): DataFields
      reads this
    {
      DataFields(dtype, data, reph2D, nonr2D)
    }

    function Saved(): Persisted
      reads this
    {
      Persisted(t2, keepPathways, keepStypes, reph2D, nonr2D, data, xaxis, yaxis)
    }

    ghost predicate Valid()
      reads this
    {
      Layout(Dictionary())
    }

    constructor(keepPathways: bool, keepStypes: bool)
      ensures Valid()
      ensures Dictionary() == Fresh(None) && Fields() == EmptyFields
      ensures Saved() == Persisted(-1.0, keepPathways, keepStypes, None, None, None, None, None)
    {
      this.keepPathways := keepPathways;
      this.keepStypes := keepStypes;
      t2 := -1.0;
      xaxis, yaxis := None, None;
      reph2D, nonr2D, data := None, None, None;
      dtype := None;
      storageResolution := "pathways";
      storageInitialized := false;
      storage := Absent;
      currentDtype, currentTag := None, None;
      addressLength := 1;
    }

    /** `set_axis_1` */
    method SetAxis1(axis: Option<Axis>)
      requires Valid()
      modifies this
      ensures Valid()
      ensures Saved() == old(Saved()).(xaxis := axis)
      ensures Dictionary() == old(Dictionary()).(dims := Dims()) && Fields() == old(Fields())
    {
      xaxis := axis;
    }

    /** `set_axis_3` */
    method SetAxis3(axis: Option<Axis>)
      requires Valid()
      modifies this
      ensures Valid()
      ensures Saved() == old(Saved()).(yaxis := axis)
      ensures Dictionary() == old(Dictionary()).(dims := Dims()) && Fields() == old(Fields())
    {
      yaxis := axis;
    }

    /** `set_t2` */
    method SetT2(t: real)
      requires Valid()
      modifies this
      ensures Valid()
      ensures Saved() == old(Saved()).(t2 := t)
      ensures Dictionary() == old(Dictionary()) && Fields() == old(Fields())
    {
      t2 := t;
    }

    // -------------------------------------------------------------------
    // The data fields and their lock
    // -------------------------------------------------------------------

    /** `set_data_type` */
    method SetDataType(d: string) returns (err: Option<Error>)
      requires Valid()
      modifies this
      ensures Valid()
      ensures DataOutcome(Fields(), err) == SpectrumData.SetDataType(old(Fields()), d)
      ensures Dictionary() == old(Dictionary()) && Saved() == old(Saved())
    {
      if d in DTypes {
        dtype := Some(d);
        return None;
      }
      return Some(UnknownDataType);
    }

    /** Stores v as the data of the known type d. */
    method PutField(d: string, v: Option<Matrix>)
      requires Valid() && d in DTypes
      modifies this
      ensures Valid()
      ensures Fields() == WithField(old(Fields()), d, v)
      ensures Dictionary() == old(Dictionary())
      ensures Saved() == old(Saved()).(reph2D := reph2D, nonr2D := nonr2D, data := data)
    {
      if d == "Tot" {
        data := v;
      } else if d == "Reph" {
        reph2D := v;
      } else {
        nonr2D := v;
      }
    }

    /** `set_data` */
    method SetData(a: Matrix, d: string) returns (err: Option<Error>)
      requires Valid()
      modifies this
      ensures Valid()
      ensures DataOutcome(Fields(), err) == SpectrumData.SetData(old(Fields()), a, d)
      ensures Dictionary() == old(Dictionary())
      ensures Saved() == old(Saved()).(reph2D := reph2D, nonr2D := nonr2D, data := data)
    {
      if dtype.None? {
        if d in DTypes {
          dtype := Some(d);
        }
      } else if d != dtype.value {
        return Some(IncorrectDataType);
      }
      if d in DTypes {
        PutField(d, Some(a));
        return None;
      }
      return Some(UnknownTypeOfData);
    }

    /** `add_data`, with its guard on the argument as written. */
    method AddData(a: Matrix, d: Option<string>) returns (err: Option<Error>)
      requires Valid()
      modifies this
      ensures Valid()
      ensures DataOutcome(Fields(), err) == SpectrumData.AddData(old(Fields()), a, d)
      ensures Dictionary() == old(Dictionary())
      ensures Saved() == old(Saved()).(reph2D := reph2D, nonr2D := nonr2D, data := data)
    {
      if d.None? {
        // the guard `dtype is None` holds, `None in self.dtypes` does not,
        // and `"Unknow type of data: " + None` raises
        return Some(UnknownTypeOfData);
      }
      if d != dtype {
        return Some(IncorrectDataType);
      }
      if d.value !in DTypes {
        return Some(UnknownTypeOfData);
      }
      var field := Field(Fields(), d.value);
      var acc := if field.None? then Zeros(a.rows, a.cols) else field.value;
      PutField(d.value, Some(acc));
      var sum := AddInto(acc, a);
      if sum.Err? {
        return Some(sum.error);
      }
      PutField(d.value, Some(sum.value));
      return None;
    }

    /** `get_value_at(x, y)`, given the indices the axes' `locate` returned
        for x and y. */
    method GetValueAt(ix: nat, iy: nat) returns (r: Result<Option<real>>)
      ensures dtype.None? ==> r == Err(NoData)
      ensures dtype.Some? && (xaxis.None? || yaxis.None?) ==> r == Err(MissingAttribute)
      ensures dtype.Some? && xaxis.Some? && yaxis.Some? ==> r == ValueAt(Fields(), ix, iy)
    {
      if dtype.None? {
        return Err(NoData);
      }
      if xaxis.None? || yaxis.None? {
        return Err(MissingAttribute);
      }
      if dtype.value !in DTypes {
        return Ok(None);
      }
      var arr := Field(Fields(), dtype.value);
      if arr.None? {
        return Err(NoneArray);
      }
      if ix >= arr.value.rows || iy >= arr.value.cols {
        return Err(IndexOutOfRange);
      }
      return Ok(Some(arr.value.cells[ix][iy]));
    }

    /** `devide_by` */
    method DevideBy(v: real) returns (err: Option<Error>)
      requires Valid() && v != 0.0
      modifies this
      ensures Valid()
      ensures DataOutcome(Fields(), err) == SpectrumData.DevideBy(old(Fields()), v)
      ensures Dictionary() == old(Dictionary())
      ensures Saved() == old(Saved()).(reph2D := reph2D, nonr2D := nonr2D)
    {
      if reph2D.None? {
        return Some(NoneArray);
      }
      reph2D := Some(Divide(reph2D.value, v));
      if nonr2D.None? {
        return Some(NoneArray);
      }
      nonr2D := Some(Divide(nonr2D.value, v));
      return None;
    }

    /** `trim_to(window)`, given the indices the axes' `locate` returned
        for the window's edges; `None` does nothing. */
    method TrimTo(window: Option<Window>)
      requires Valid() && xaxis.Some? && yaxis.Some?
      requires window.Some? ==>
        Trimmable(xaxis.value, window.value.i1Min, window.value.i1Max) &&
        Trimmable(yaxis.value, window.value.i3Min, window.value.i3Max)
      modifies this
      ensures Valid()
      ensures window.None? ==> Saved() == old(Saved()) && Fields() == old(Fields())
      ensures window.Some? ==>
        var w := window.value;
        && xaxis == Some(Trimmed(old(xaxis.value), w.i1Min, w.i1Max))
        && yaxis == Some(Trimmed(old(yaxis.value), w.i3Min, w.i3Max))
        && Fields() == TrimFields(old(Fields()), keepStypes, w)
      ensures t2 == old(t2) && keepPathways == old(keepPathways) && keepStypes == old(keepStypes)
      ensures Dictionary() == old(Dictionary()).(dims := Dims())
    {
      if window.None? {
        return;
      }
      var w := window.value;
      xaxis := Some(Trimmed(xaxis.value, w.i1Min, w.i1Max));
      yaxis := Some(Trimmed(yaxis.value, w.i3Min, w.i3Max));
      TrimData(w);
    }

    /** The slicing half of `trim_to`: the arrays that are not None. */
    method TrimData(w: Window)
      requires Valid() && 1 <= w.i1Min && 1 <= w.i3Min
      modifies this
      ensures Valid()
      ensures Fields() == TrimFields(old(Fields()), keepStypes, w)
      ensures Saved() == old(Saved()).(reph2D := reph2D, nonr2D := nonr2D, data := data)
      ensures Dictionary() == old(Dictionary())
    {
      if keepStypes {
        if reph2D.Some? {
          reph2D := TrimArray(reph2D, w);
        }
        if nonr2D.Some? {
          nonr2D := TrimArray(nonr2D, w);
        }
      } else {
        if data.Some? {
          data := TrimArray(data, w);
        }
      }
    }

    // -------------------------------------------------------------------
    // save and load
    // -------------------------------------------------------------------

    /** `save`: the record written, or the exception. */
    method Save() returns (r: Result<Record>)
      ensures r == Persistence.Save(Saved())
    {
      var ds: map<string, Matrix>;
      if keepStypes {
        if reph2D.None? || nonr2D.None? {
          return Err(NoneArray);
        }
        ds := map["reph2D" := reph2D.value, "nonr2D" := nonr2D.value];
      } else {
        if data.None? {
          return Err(NoneArray);
        }
        ds := map["data" := data.value];
      }
      if xaxis.None? || yaxis.None? {
        return Err(MissingAttribute);
      }
      var keeps := [if keepPathways then 1 else 0, if keepStypes then 1 else 0];
      return Ok(Record(t2, keeps, ds, map["xaxis" := AxisRecord(xaxis.value), "yaxis" := AxisRecord(yaxis.value)]));
    }

    /** `_load_data`, steered by the `keep_stypes` already loaded. */
    method LoadDatasets(rec: Record) returns (err: Option<Error>)
      requires Valid()
      modifies this
      ensures Valid()
      ensures LoadOutcome(Saved(), err) == Persistence.LoadData(old(Saved()), rec)
      ensures dtype == old(dtype) && Dictionary() == old(Dictionary())
    {
      if keepStypes {
        if "reph2D" !in rec.datasets {
          return Some(MissingKey);
        }
        reph2D := Some(rec.datasets["reph2D"]);
        if "nonr2D" !in rec.datasets {
          return Some(MissingKey);
        }
        nonr2D := Some(rec.datasets["nonr2D"]);
      } else {
        if "data" !in rec.datasets {
          return Some(MissingKey);
        }
        data := Some(rec.datasets["data"]);
      }
      return None;
    }

    /** The attributes `load` reads first. */
    method LoadHeader(rec: Record) returns (err: Option<Error>)
      requires Valid()
      modifies this
      ensures Valid()
      ensures LoadOutcome(Saved(), err) == Persistence.LoadHeader(old(Saved()), rec)
      ensures dtype == old(dtype) && Dictionary() == old(Dictionary())
    {
      t2 := rec.t2;
      if |rec.keeps| == 0 {
        return Some(IndexOutOfRange);
      }
      keepPathways := rec.keeps[0] == 1;
      if |rec.keeps| == 1 {
        return Some(IndexOutOfRange);
      }
      keepStypes := rec.keeps[1] == 1;
      return None;
    }

    /** The axes `load` reads last. */
    method LoadAxes(rec: Record) returns (err: Option<Error>)
      requires Valid()
      modifies this
      ensures Valid()
      ensures LoadOutcome(Saved(), err) == Persistence.LoadAxes(old(Saved()), rec)
      ensures dtype == old(dtype)
      ensures Dictionary() == old(Dictionary()).(dims := Dims())
    {
      if "xaxis" !in rec.axes {
        return Some(MissingKey);
      }
      xaxis := Some(AxisOf(rec.axes["xaxis"]));
      if "yaxis" !in rec.axes {
        return Some(MissingKey);
      }
      yaxis := Some(AxisOf(rec.axes["yaxis"]));
      return None;
    }

    /** `load`: what was read before a missing entry stays assigned. */
    method Load(rec: Record) returns (err: Option<Error>)
      requires Valid()
      modifies this
      ensures Valid()
      ensures LoadOutcome(Saved(), err) == Persistence.Load(old(Saved()), rec)
      ensures dtype == old(dtype)
      ensures Dictionary() == old(Dictionary()).(dims := Dims())
    {
      err := LoadHeader(rec);
      if err.Some? {
        return;
      }
      err := LoadDatasets(rec);
      if err.Some? {
        return;
      }
      err := LoadAxes(rec);
    }

    // -------------------------------------------------------------------
    // The store: address, getter, setter
    // -------------------------------------------------------------------

    /** `set_data_flag` */
    method SetDataFlag(flag: Flag) returns (err: Option<Error>)
      requires Valid()
      modifies this
      ensures Valid()
      ensures Outcome(Dictionary(), err) == Store.SetDataFlag(old(Dictionary()), flag)
      ensures Fields() == old(Fields()) && Saved() == old(Saved())
    {
      match flag
      case Plain(n) =>
        currentDtype := n;
        currentTag := None;
        addressLength := 1;
        return None;
      case Listed(items) =>
        if |items| == 0 {
          return Some(FlagIndex);
        }
        currentDtype := items[0];
        if |items| == 1 {
          return Some(FlagTooShort);
        }
        currentTag := items[1];
        addressLength := 2;
        return None;
    }

    /** The store getter: `Ok(None)` is the `None` returned for a dtype the
        current resolution does not know. */
    method Get() returns (r: Result<Option<Matrix>>)
      ensures r == Read(Dictionary())
    {
      var s := Dictionary();
      var d := currentDtype;
      if storage.Absent? {
        return Err(MissingAttribute);
      }
      if storageResolution == "pathways" {
        if d.Some? && d.value in PTypes {
          if !storageInitialized {
            return Ok(Some(Sentinel));
          }
          var p := PiecesOf(storage);
          if d.value !in p {
            return Found(AxisZeros(Dims()));
          }
          if currentTag.Some? {
            return Found(Lookup(p[d.value], currentTag));
          }
          var sum := SumPieces(p[d.value]);
          return Found(sum);
        } else if d.Some? && d.value in Processes {
          return Found(PathwaysToProcesses(s, d.value));
        } else if d.Some? && d.value in Signals {
          return Found(PathwaysToSignals(s, d.value));
        } else if d == Some("total") {
          return Found(PathwaysToTotal(s));
        }
        return Ok(None);
      } else if storageResolution == "types" {
        if d.Some? && d.value in PTypes {
          return Stored(s, d.value);
        } else if d.Some? && d.value in Processes {
          return Found(TypesToProcesses(s, d.value));
        } else if d.Some? && d.value in Signals {
          return Found(TypesToSignals(s, d.value));
        } else if d == Some("total") {
          return Found(TypesToTotal(s));
        }
        return Ok(None);
      } else if storageResolution == "processes" {
        if d.Some? && d.value in Processes {
          return Stored(s, d.value);
        } else if d == Some("total") {
          return Found(ProcessesToTotal(s));
        }
        return Ok(None);
      } else if storageResolution == "signals" {
        if d.Some? && d.value in Signals {
          return Stored(s, d.value);
        } else if d == Some("total") {
          return Found(SignalsToTotal(s));
        }
        return Ok(None);
      }
      return Err(NotImplemented);
    }

    /** The store setter. */
    method Put(v: Value) returns (err: Option<Error>)
      requires Valid()
      modifies this
      ensures Valid()
      ensures Outcome(Dictionary(), err) == Write(old(Dictionary()), v)
      ensures Fields() == old(Fields()) && Saved() == old(Saved())
    {
      StoreProperties.WriteKeepsLayout(Dictionary(), v);
      if !storageInitialized {
        storage := EmptyStorage(storageResolution);
        storageInitialized := true;
      }
      if v.NonArray? {
        return Some(NotAnArray);
      }
      if storageResolution != "pathways" {
        return None;
      }
      if currentDtype.None? || currentDtype.value !in PTypes {
        return Some(WrongPathwaysType);
      }
      var t := currentDtype.value;
      var p := PiecesOf(storage);
      var piece := if t in p then p[t] else [];
      if HasTag(piece, currentTag) {
        return Some(TagExists);
      }
      storage := Tagged(p[t := piece + [Entry(currentTag, v.contents)]]);
      return None;
    }

    /** `get_all_tags` */
    method GetAllTags() returns (r: Result<seq<(string, Option<string>)>>)
      ensures r == AllTags(Dictionary())
    {
      var tags: seq<(string, Option<string>)> := [];
      var k := 0;
      while k < |PTypes|
        invariant 0 <= k <= |PTypes|
        invariant storage.Tagged? ==> tags == TagsOf(storage.pieces, PTypes[..k])
        invariant storage.Summed? ==> tags == [] && forall i :: 0 <= i < k ==> PTypes[i] !in storage.arrays
        invariant storage.Absent? ==> k == 0
      {
        var typ := PTypes[k];
        assert PTypes[..k + 1][..k] == PTypes[..k];
        match storage {
          case Absent =>
            return Err(MissingAttribute);
          case Summed(a) =>
            if typ in a {
              return Err(MissingAttribute);
            }
          case Tagged(p) =>
            var entries := if typ in p then p[typ] else [];
            var i := 0;
            while i < |entries|
              invariant 0 <= i <= |entries|
              invariant tags == TagsOf(p, PTypes[..k]) + seq(i, j requires 0 <= j < i => (typ, entries[j].tag))
            {
              tags := tags + [(typ, entries[i].tag)];
              i := i + 1;
            }
            assert typ in p ==> seq(i, j requires 0 <= j < i => (typ, entries[j].tag))
                                == seq(|p[typ]|, j requires 0 <= j < |p[typ]| => (typ, p[typ][j].tag));
        }
        k := k + 1;
      }
      assert PTypes[..k] == PTypes;
      if storage.Summed? {
        forall t | t in PTypes
          ensures t !in storage.arrays
        {
          var i :| 0 <= i < |PTypes| && PTypes[i] == t;
        }
      }
      return Ok(tags);
    }

    /** `_add_data`: only `pathways` data are added, through the flag and
        the setter. */
    method AddPathwayData(v: Value, resolution: Option<string>, pathwayType: string, tag: Option<string>)
      returns (err: Option<Error>)
      requires Valid()
      modifies this
      ensures Valid()
      ensures Outcome(Dictionary(), err) == Store.AddData(old(Dictionary()), v, resolution, pathwayType, tag)
      ensures Fields() == old(Fields()) && Saved() == old(Saved())
    {
      var res := storageResolution;
      if resolution.Some? {
        if resolution.value !in Resolutions {
          return Some(UnknownResolution);
        }
        if Level(resolution.value) > Level(storageResolution) {
          return Some(NotEnoughResolution);
        }
        res := resolution.value;
      }
      if res != "pathways" {
        return None;
      }
      if pathwayType !in PTypes {
        return Some(UnknownPathwayKind);
      }
      if tag.None? {
        return Some(TagNotSpecified);
      }
      err := SetDataFlag(Listed([Some(pathwayType), tag]));
      err := Put(v);
    }

    // -------------------------------------------------------------------
    // Lowering the resolution
    // -------------------------------------------------------------------

    /** One run of `storage[name] = <sum>` over the names of the lower
        level, into a fresh dictionary. */
    method LowerTo(to: nat, names: seq<string>) returns (r: Result<map<string, Matrix>>)
      ensures r == LeafMap(Dictionary(), to, names)
    {
      var s := Dictionary();
      var m: map<string, Matrix> := map[];
      var dataPresent := true;
      var k := 0;
      while k < |names|
        invariant 0 <= k <= |names|
        invariant LeafMap(s, to, names[..k]) == Ok(m)
        invariant !s.storage.Absent? ==> dataPresent
      {
        assert names[..k + 1][..k] == names[..k];
        var name := names[k];
        var x: Result<Matrix>;
        if to == Types {
          // the pathways of one type
          var pdict: seq<Entry> := [];
          if s.storage.Absent? {
            dataPresent := false;
          } else if name in PiecesOf(s.storage) {
            pdict := PiecesOf(s.storage)[name];
          }
          var zeros: Matrix := Sentinel;
          if dataPresent {
            var z := AxisZeros(s.dims);
            if z.Err? {
              LeafMapFailsOnward(s, to, names, k + 1);
              return Err(z.error);
            }
            zeros := z.value;
          }
          assert Values(pdict) == TypeValues(PiecesOf(s.storage), name);
          x := SumInto(zeros, Values(pdict));
        } else if to == ProcessesLevel {
          x := TypesToProcesses(s, name);
        } else {
          x := TypesToSignals(s, name);
        }
        if x.Err? {
          LeafMapFailsOnward(s, to, names, k + 1);
          return Err(x.error);
        }
        m := m[name := x.value];
        k := k + 1;
      }
      assert names[..k] == names;
      return Ok(m);
    }

    /** `_convert_resolution`: the new store, or the exception with the
        store left as it was. */
    method ConvertResolution(from: nat, to: nat) returns (err: Option<Error>)
      requires Valid() && from == Level(storageResolution)
      modifies this
      ensures ConvertStorage(old(Dictionary()), from, to).Ok? ==>
        err == None && storage == ConvertStorage(old(Dictionary()), from, to).value
      ensures ConvertStorage(old(Dictionary()), from, to).Err? ==>
        err == Some(ConvertStorage(old(Dictionary()), from, to).error) && storage == old(storage)
      ensures Dictionary() == old(Dictionary()).(storage := storage)
      ensures Fields() == old(Fields()) && Saved() == old(Saved())
    {
      var next := ConvertedStorage(from, to);
      if next.Err? {
        return Some(next.error);
      }
      storage := next.value;
      return None;
    }

    /** The storage `_convert_resolution` computes; at `off` that is the
        storage already there, once the total has been formed. */
    method ConvertedStorage(from: nat, to: nat) returns (next: Result<Storage>)
      ensures next == ConvertStorage(Dictionary(), from, to)
    {
      StoreProperties.Levels();
      var s := Dictionary();
      if from == Pathways && to == Types {
        var m := LowerTo(Types, PTypes);
        next := if m.Err? then Err(m.error) else Ok(Summed(m.value));
      } else if from == Types && to == ProcessesLevel {
        var m := LowerTo(ProcessesLevel, ProcessNames);
        next := if m.Err? then Err(m.error) else Ok(Summed(m.value));
      } else if from == Types && to == SignalsLevel {
        var m := LowerTo(SignalsLevel, SignalNames);
        next := if m.Err? then Err(m.error) else Ok(Summed(m.value));
      } else if from == SignalsLevel && to == Off {
        var total := SignalsToTotal(s);
        next := if total.Err? then Err(total.error) else Ok(storage);
      } else if from == ProcessesLevel && to == Off {
        var total := ProcessesToTotal(s);
        next := if total.Err? then Err(total.error) else Ok(storage);
      } else {
        next := Err(CannotConvert(from, to));
      }
    }

    /** `set_resolution` */
    method SetResolution(resolution: string) returns (err: Option<Error>)
      requires Valid()
      modifies this
      ensures Valid()
      ensures Outcome(Dictionary(), err) == Store.SetResolution(old(Dictionary()), resolution)
      ensures Fields() == old(Fields()) && Saved() == old(Saved())
    {
      StoreProperties.SetResolutionKeepsLayout(Dictionary(), resolution);
      if resolution !in Resolutions {
        return Some(UnknownResolution);
      }
      var resOld, resNew := Level(storageResolution), Level(resolution);
      if resOld < resNew {
        return Some(LowerToHigher);
      } else if resOld > resNew {
        err := ConvertResolution(resOld, resNew);
        if err.Some? {
          return err;
        }
      }
      storageResolution := resolution;
      return None;
    }
  }
}
