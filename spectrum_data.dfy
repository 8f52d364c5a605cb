/** The plain data of a TwoDSpectrum and what `set_data_type`, `set_data`,
    `add_data`, `get_value_at`, `devide_by` and `trim_to` do to it
    (twod2.py:576-659, 968-997, 1158-1218). */
module SpectrumData {
  import opened Errors
  import opened Matrices
  import opened Resolution
  import opened Axes

  /** `dtype` (the lock) and the three data fields. */
  datatype DataFields = DataFields(dtype: Option<string>, data: Option<Matrix>, reph2D: Option<Matrix>, nonr2D: Option<Matrix>)

  datatype DataOutcome = DataOutcome(fields: DataFields, error: Option<Error>)

  /** The data of a freshly constructed spectrum. */
  const EmptyFields: DataFields := DataFields(None, None, None, None)

  /** The field that holds data of type d. */
  function Field(f: DataFields, d: string): Option<Matrix> {
    if d == "Tot" then f.data else if d == "Reph" then f.reph2D else if d == "Nonr" then f.nonr2D else None
  }

  /** f with the field of a known type d replaced. */
  function WithField(f: DataFields, d: string, v: Option<Matrix>): (r: DataFields)
    requires d in DTypes
    ensures Field(r, d) == v && r.dtype == f.dtype
    ensures forall e :: e in DTypes && e != d ==> Field(r, e) == Field(f, e)
  {
    if d == "Tot" then f.(data := v) else if d == "Reph" then f.(reph2D := v) else f.(nonr2D := v)
  }

  /** `set_data_type` */
  function SetDataType(f: DataFields, d: string): DataOutcome {
    if d in DTypes then DataOutcome(f.(dtype := Some(d)), None) else DataOutcome(f, Some(UnknownDataType))
  }

  /** `set_data`: the first call of a known type fixes the lock, later calls
      must match it. */
  function SetData(f: DataFields, a: Matrix, d: string): DataOutcome {
    if f.dtype.Some? && d != f.dtype.value then DataOutcome(f, Some(IncorrectDataType))
    else
      var f1 := if f.dtype.None? && d in DTypes then f.(dtype := Some(d)) else f;
      if d in DTypes then DataOutcome(WithField(f1, d, Some(a)), None)
      else DataOutcome(f1, Some(UnknownTypeOfData))
  }

  /** `field += a`, after a field that is None has been set to zeros of a's
      shape; a failed addition leaves the field as it was. */
  function Accumulate(field: Option<Matrix>, a: Matrix): (Option<Matrix>, Option<Error>) {
    var acc := if field.None? then Zeros(a.rows, a.cols) else field.value;
    match AddInto(acc, a)
    case Ok(r) => (Some(r), None)
    case Err(e) => (Some(acc), Some(e))
  }

  /** `add_data`, as written: its guard tests the argument (`dtype is None`)
      instead of the lock, so the lock is never set here and a dtype that
      differs from the lock, an unset lock included, is refused. `None`
      fails while the error message is built. */
  function AddData(f: DataFields, a: Matrix, d: Option<string>): DataOutcome {
    if d.None? then DataOutcome(f, Some(UnknownTypeOfData))
    else if f.dtype != d then DataOutcome(f, Some(IncorrectDataType))
    else if d.value !in DTypes then DataOutcome(f, Some(UnknownTypeOfData))
    else
      var (v, e) := Accumulate(Field(f, d.value), a);
      DataOutcome(WithField(f, d.value, v), e)
  }

  // ---------------------------------------------------------------------
  // The lock
  // ---------------------------------------------------------------------

  /** Data of a known type fix the lock of a fresh spectrum and are stored
      in that type's field; nothing else changes. */
  lemma SetDataFixesLock(f: DataFields, a: Matrix, d: string)
    requires f.dtype.None? && d in DTypes
    ensures var o := SetData(f, a, d);
      && o.error == None && o.fields.dtype == Some(d) && Field(o.fields, d) == Some(a)
      && forall e :: e in DTypes && e != d ==> Field(o.fields, e) == Field(f, e)
  {
  }

  /** Once set, the lock is only changed by `set_data_type`: `set_data` and
      `add_data` keep it, and refuse data of another type without changing
      anything. */
  lemma LockIsSticky(f: DataFields, a: Matrix, d: string)
    requires f.dtype.Some?
    ensures SetData(f, a, d).fields.dtype == f.dtype
    ensures AddData(f, a, Some(d)).fields.dtype == f.dtype
    ensures d != f.dtype.value ==> SetData(f, a, d) == DataOutcome(f, Some(IncorrectDataType))
    ensures d != f.dtype.value ==> AddData(f, a, Some(d)) == DataOutcome(f, Some(IncorrectDataType))
    ensures d == f.dtype.value && d in DTypes ==>
      SetData(f, a, d) == DataOutcome(WithField(f, d, Some(a)), None)
  {
  }

  /** As written, `add_data` never succeeds on a spectrum whose lock is not
      set, so data cannot be accumulated into a fresh spectrum. */
  lemma FreshAddDataFails(f: DataFields, a: Matrix, d: Option<string>)
    requires f.dtype.None?
    ensures AddData(f, a, d).error.Some?
    ensures AddData(f, a, d).fields == f
  {
  }

  /** With the lock matching, two additions into an empty field give the
      sample-wise sum of the two arrays. */
  lemma AddDataTwice(f: DataFields, a: Matrix, b: Matrix, d: string)
    requires f.dtype == Some(d) && d in DTypes && Field(f, d).None? && SameShape(a, b)
    ensures var o1 := AddData(f, a, Some(d));
      var o2 := AddData(o1.fields, b, Some(d));
      && o1.error == None && o2.error == None && o2.fields.dtype == f.dtype
      && Field(o2.fields, d).Some?
      && Field(o2.fields, d).value.rows == a.rows && Field(o2.fields, d).value.cols == a.cols
      && (forall i, j :: 0 <= i < a.rows && 0 <= j < a.cols ==>
            Field(o2.fields, d).value.cells[i][j] == a.cells[i][j] + b.cells[i][j])
      && forall e :: e in DTypes && e != d ==> Field(o2.fields, e) == Field(f, e)
  {
    AddIntoZeros(a);
  }

  /** An addition whose shape cannot be broadcast fails and keeps the data. */
  lemma AddDataShapeMismatch(f: DataFields, a: Matrix, d: string)
    requires f.dtype == Some(d) && d in DTypes && Field(f, d).Some? && !Broadcasts(a, Field(f, d).value)
    ensures AddData(f, a, Some(d)) == DataOutcome(f, Some(ShapeMismatch))
  {
    assert WithField(f, d, Field(f, d)) == f;
  }

  // ---------------------------------------------------------------------
  // get_value_at
  // ---------------------------------------------------------------------

  /** `get_value_at(x, y)`, given the indices `ix`, `iy` that the axes'
      `locate` returned for x and y. A lock outside Tot/Reph/Nonr (which
      no operation sets) returns None. */
  function ValueAt(f: DataFields, ix: nat, iy: nat): (r: Result<Option<real>>)
    ensures f.dtype.None? ==> r == Err(NoData)
    ensures r.Ok? && r.value.Some? ==>
      && f.dtype.Some? && Field(f, f.dtype.value).Some?
      && ix < Field(f, f.dtype.value).value.rows && iy < Field(f, f.dtype.value).value.cols
      && r.value.value == Field(f, f.dtype.value).value.cells[ix][iy]
    ensures f.dtype.Some? && f.dtype.value in DTypes && Field(f, f.dtype.value).None? ==> r == Err(NoneArray)
  {
    if f.dtype.None? then Err(NoData)
    else if f.dtype.value !in DTypes then Ok(None)
    else
      var arr := Field(f, f.dtype.value);
      if arr.None? then Err(NoneArray)
      else if ix >= arr.value.rows || iy >= arr.value.cols then Err(IndexOutOfRange)
      else Ok(Some(arr.value.cells[ix][iy]))
  }

  /** A value read back after `set_data` is the stored sample. */
  lemma ValueAtAfterSetData(f: DataFields, a: Matrix, d: string, ix: nat, iy: nat)
    requires (f.dtype.None? || f.dtype == Some(d)) && d in DTypes
    ensures var g := SetData(f, a, d).fields;
      && (ix < a.rows && iy < a.cols ==> ValueAt(g, ix, iy) == Ok(Some(a.cells[ix][iy])))
      && (ix >= a.rows || iy >= a.cols ==> ValueAt(g, ix, iy) == Err(IndexOutOfRange))
  {
  }

  // ---------------------------------------------------------------------
  // devide_by
  // ---------------------------------------------------------------------

  /** `devide_by(val)`: the rephasing part is divided first, so a missing
      non-rephasing part fails after it has been divided. */
  function DevideBy(f: DataFields, v: real): (r: DataOutcome)
    requires v != 0.0
    ensures r.fields.dtype == f.dtype && r.fields.data == f.data
    ensures r.error.None? <==> f.reph2D.Some? && f.nonr2D.Some?
    ensures r.error.None? ==> r.fields.reph2D.Some? && SameShape(r.fields.reph2D.value, f.reph2D.value)
    ensures r.error.None? ==> r.fields.nonr2D.Some? && SameShape(r.fields.nonr2D.value, f.nonr2D.value)
    ensures r.error.None? ==> forall i, j :: 0 <= i < f.reph2D.value.rows && 0 <= j < f.reph2D.value.cols ==>
      r.fields.reph2D.value.cells[i][j] * v == f.reph2D.value.cells[i][j]
    ensures r.error.None? ==> forall i, j :: 0 <= i < f.nonr2D.value.rows && 0 <= j < f.nonr2D.value.cols ==>
      r.fields.nonr2D.value.cells[i][j] * v == f.nonr2D.value.cells[i][j]
  {
    if f.reph2D.None? then DataOutcome(f, Some(NoneArray))
    else
      var f1 := f.(reph2D := Some(Divide(f.reph2D.value, v)));
      if f.nonr2D.None? then DataOutcome(f1, Some(NoneArray))
      else DataOutcome(f1.(nonr2D := Some(Divide(f.nonr2D.value, v))), None)
  }

  /** Dividing by u and then by v is dividing by u * v. */
  lemma DevideByTwice(f: DataFields, u: real, v: real)
    requires u != 0.0 && v != 0.0 && f.reph2D.Some? && f.nonr2D.Some?
    ensures DevideBy(DevideBy(f, u).fields, v) == DevideBy(f, u * v)
  {
    DivideTwice(f.reph2D.value, u, v);
    DivideTwice(f.nonr2D.value, u, v);
  }

  // ---------------------------------------------------------------------
  // trim_to
  // ---------------------------------------------------------------------

  /** The indices `locate` returned for w1_min, w1_max, w3_min and w3_max. */
  datatype Window = Window(i1Min: nat, i1Max: nat, i3Min: nat, i3Max: nat)

  /** `array[i1_min-1:i1_max+1, i3_min-1:i3_max+1]` of an array that is not None. */
  function TrimArray(arr: Option<Matrix>, w: Window): Option<Matrix>
    requires 1 <= w.i1Min && 1 <= w.i3Min
  {
    if arr.None? then None else Some(Slice(arr.value, w.i1Min - 1, w.i1Max + 1, w.i3Min - 1, w.i3Max + 1))
  }

  /** The data `trim_to` slices: both signal parts when `keep_stypes`, the
      total otherwise. */
  function TrimFields(f: DataFields, keepStypes: bool, w: Window): DataFields
    requires 1 <= w.i1Min && 1 <= w.i3Min
  {
    if keepStypes then f.(reph2D := TrimArray(f.reph2D, w), nonr2D := TrimArray(f.nonr2D, w))
    else f.(data := TrimArray(f.data, w))
  }

  /** A trimmed array that covered both axes covers the trimmed axes, and
      every sample stays at the same pair of frequencies. */
  lemma TrimKeepsSamples(arr: Matrix, x: Axis, y: Axis, w: Window)
    requires Trimmable(x, w.i1Min, w.i1Max) && Trimmable(y, w.i3Min, w.i3Max)
    requires arr.rows == x.length && arr.cols == y.length
    ensures var r := TrimArray(Some(arr), w).value;
      var x1, y1 := Trimmed(x, w.i1Min, w.i1Max), Trimmed(y, w.i3Min, w.i3Max);
      && r.rows == x1.length && r.cols == y1.length
      && forall i, j :: 0 <= i < r.rows && 0 <= j < r.cols ==>
           var k, l := w.i1Min - 1 + i, w.i3Min - 1 + j;
           && k < arr.rows && l < arr.cols
           && Point(x1, i) == Point(x, k) && Point(y1, j) == Point(y, l)
           && r.cells[i][j] == arr.cells[k][l]
  {
  }

  /** `trim_to` touches only the data it slices. */
  lemma TrimFieldsFrame(f: DataFields, keepStypes: bool, w: Window)
    requires 1 <= w.i1Min && 1 <= w.i3Min
    ensures TrimFields(f, keepStypes, w).dtype == f.dtype
    ensures keepStypes ==> TrimFields(f, keepStypes, w).data == f.data
    ensures !keepStypes ==> TrimFields(f, keepStypes, w).reph2D == f.reph2D && TrimFields(f, keepStypes, w).nonr2D == f.nonr2D
    ensures forall d :: d in DTypes && Field(f, d).None? ==> Field(TrimFields(f, keepStypes, w), d).None?
  {
  }
}
