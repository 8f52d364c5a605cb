/** The calculators of 2D spectra (twod2.py:1310-1894): the `tc` cursor
    over the waiting times, the mock calculator's line shapes for single
    Liouville pathways, and the way both hand their arrays to a
    TwoDSpectrum. The response functions, their Fourier transforms and the
    peak functions are not computed here: the arrays of the exact
    calculator and the peak function of the mock one are parameters. */
module Calculators {
  import opened Errors
  import opened Matrices
  import opened Axes
  import opened SpectrumData
  import opened Spectrum

  /** The attributes of a LiouvillePathway that `calculate_pathway` reads. */
  datatype Pathway = Pathway(
    order: int, relaxOrder: int, frequency: seq<real>, pref: real,
    widths: seq<real>, dephs: seq<real>, pathwayType: string)

  /** Line widths and dephasing rates along omega_1 (x) and omega_3 (y). */
  datatype Widths = Widths(widthx: real, widthy: real, dephx: real, dephy: real)

  /** The parameters of one pathway's peak. */
  datatype Params = Params(cen1: real, cen3: real, pref: real, widths: Widths)

  /** A line shape: (shape name, frequency, centre, width) to the peak's factor. */
  type Profile = (string, real, real, real) -> real

  /** `xs[i]` on a Python list: negative indices count from the end. */
  function PyIndex(xs: seq<real>, i: int): (r: Result<real>)
    ensures r.Ok? <==> -|xs| <= i < |xs|
    ensures r.Ok? ==> r.value == xs[if i < 0 then i + |xs| else i]
    ensures r.Err? ==> r.error == IndexOutOfRange
  {
    if 0 <= i < |xs| then Ok(xs[i])
    else if -|xs| <= i < 0 then Ok(xs[i + |xs|])
    else Err(IndexOutOfRange)
  }

  function Abs(x: real): (r: real)
    ensures r >= 0.0 && (r == x || r == -x)
  {
    if x < 0.0 then -x else x
  }

  /** A negative width or dephasing rate stands for the calculator's default. */
  function OrDefault(v: real, default: real): real {
    if v < 0.0 then default else v
  }

  /** The widths `calculate_pathway` selects, in the order it reads them;
      the test for `dephy` reads `widths[3]`, as written. */
  function SelectWidths(p: Pathway, d: Widths): Result<Widths> {
    var w1 :- PyIndex(p.widths, 1);
    var w3 :- PyIndex(p.widths, 3);
    var e1 :- PyIndex(p.dephs, 1);
    var dephy :- if w3 < 0.0 then Ok(d.dephy) else PyIndex(p.dephs, 3);
    Ok(Widths(OrDefault(w1, d.widthx), OrDefault(w3, d.widthy), OrDefault(e1, d.dephx), dephy))
  }

  /** The widths a line shape uses: Gaussian the line widths, Lorentzian
      the dephasing rates. */
  function ShapeWidths(shape: string, w: Widths): Result<(real, real)> {
    if shape == "Gaussian" then Ok((w.widthx, w.widthy))
    else if shape == "Lorentzian" then Ok((w.dephx, w.dephy))
    else Err(UnknownLineShape)
  }

  /** The omega_1 at which a pathway's i-th column is evaluated: rephasing
      pathways are mirrored. */
  function Omega1(rephasing: bool, oa1: Axis, i: nat): real {
    if rephasing then -Point(oa1, i) else Point(oa1, i)
  }

  /** The sample that `array[:, i] = ...` writes into row k. */
  function Sample(profile: Profile, shape: string, prm: Params, wx: real, wy: real,
                  rephasing: bool, oa1: Axis, oa3: Axis, i: nat, k: nat): real {
    prm.pref * profile(shape, Omega1(rephasing, oa1, i), prm.cen1, wx) * profile(shape, Point(oa3, k), prm.cen3, wy)
  }

  /** The array of shape (N1, N3) whose i-th column is assigned the peak
      along omega_3 for i over omega_1. numpy accepts the assignment only
      while i < N3 and the column (of length N1) takes a vector of length
      N3, so all columns are filled exactly when N1 == N3, or none is
      there to fill. */
  function ColumnFill(profile: Profile, shape: string, prm: Params, wx: real, wy: real,
                      rephasing: bool, oa1: Axis, oa3: Axis): (r: Result<Matrix>)
    ensures r.Ok? <==> oa1.length == 0 || oa1.length == oa3.length
    ensures r.Ok? ==> r.value.rows == oa1.length && r.value.cols == oa3.length
  {
    var n1, n3 := oa1.length, oa3.length;
    if n1 == 0 then Ok(Zeros(0, n3))
    else if n3 == 0 then Err(IndexOutOfRange)
    else if n3 != n1 && n3 != 1 then Err(ShapeMismatch)
    else if n3 != n1 then Err(IndexOutOfRange)
    else
      Ok(Dense(n1, n3, seq(n1, k requires 0 <= k < n1 =>
           seq(n3, i requires 0 <= i < n3 => Sample(profile, shape, prm, wx, wy, rephasing, oa1, oa3, i, k)))))
  }

  /** `calculate_pathway`: `Ok(None)` is the `None` returned for a pathway
      type other than R and NR. */
  function CalculatePathway(p: Pathway, d: Widths, allPositive: bool, shape: string,
                            oa1: Option<Axis>, oa3: Option<Axis>, profile: Profile): (r: Result<Option<Matrix>>)
    ensures r.Ok? && (p.pathwayType == "R" || p.pathwayType == "NR") ==> r.value.Some?
    ensures r.Ok? && p.pathwayType != "R" && p.pathwayType != "NR" ==> r.value.None?
  {
    var noe := 1 + p.order + p.relaxOrder;
    var cen1 :- PyIndex(p.frequency, 0);
    var cen3 :- PyIndex(p.frequency, noe - 2);
    var pref := if allPositive then Abs(p.pref) else p.pref;
    if oa1.None? || oa3.None? then Err(MissingAttribute)
    else
      var w :- SelectWidths(p, d);
      if p.pathwayType != "R" && p.pathwayType != "NR" then Ok(None)
      else
        var (wx, wy) :- ShapeWidths(shape, w);
        var m :- ColumnFill(profile, shape, Params(cen1, cen3, pref, w), wx, wy, p.pathwayType == "R", oa1.value, oa3.value);
        Ok(Some(m))
  }

  /** The loop `for i1 in range(N1): array[:, i1] = ...` on zeros of shape
      (N1, N3). */
  method FillColumns(profile: Profile, shape: string, prm: Params, wx: real, wy: real,
                     rephasing: bool, oa1: Axis, oa3: Axis) returns (r: Result<Matrix>)
    ensures r == ColumnFill(profile, shape, prm, wx, wy, rephasing, oa1, oa3)
  {
    var n1, n3 := oa1.length, oa3.length;
    var rows := Zeros(n1, n3).cells;
    var i1 := 0;
    while i1 < n1
      invariant 0 <= i1 <= n1
      invariant |rows| == n1 && forall k :: 0 <= k < n1 ==> |rows[k]| == n3
      invariant n3 == n1 ==> forall k, i :: 0 <= k < n1 && 0 <= i < i1 ==>
        rows[k][i] == Sample(profile, shape, prm, wx, wy, rephasing, oa1, oa3, i, k)
      invariant i1 > 0 ==> n3 == n1 || (n3 == 1 && i1 == 1)
    {
      if i1 >= n3 {
        return Err(IndexOutOfRange);
      }
      if n3 != n1 && n3 != 1 {
        return Err(ShapeMismatch);
      }
      var k := 0;
      while k < n1
        invariant 0 <= k <= n1
        invariant |rows| == n1 && forall l :: 0 <= l < n1 ==> |rows[l]| == n3
        invariant n3 == n1 ==> forall l, i :: 0 <= l < n1 && 0 <= i < i1 ==>
          rows[l][i] == Sample(profile, shape, prm, wx, wy, rephasing, oa1, oa3, i, l)
        invariant n3 == n1 ==> forall l :: 0 <= l < k ==>
          rows[l][i1] == Sample(profile, shape, prm, wx, wy, rephasing, oa1, oa3, i1, l)
      {
        var v := Sample(profile, shape, prm, wx, wy, rephasing, oa1, oa3, i1, if n3 == 1 then 0 else k);
        rows := rows[k := rows[k][i1 := v]];
        k := k + 1;
      }
      i1 := i1 + 1;
    }
    if n1 == 0 {
      assert rows == Zeros(0, n3).cells;
      return Ok(Zeros(0, n3));
    }
    var spec := ColumnFill(profile, shape, prm, wx, wy, rephasing, oa1, oa3).value;
    forall k | 0 <= k < n1
      ensures rows[k] == spec.cells[k]
    {
      assert |rows[k]| == |spec.cells[k]|;
    }
    assert rows == spec.cells;
    return Ok(Dense(n1, n3, rows));
  }

  /** `calculate_pathway` as the method the calculators call. */
  method ComputePathway(p: Pathway, d: Widths, allPositive: bool, shape: string,
                        oa1: Option<Axis>, oa3: Option<Axis>, profile: Profile) returns (r: Result<Option<Matrix>>)
    ensures r == CalculatePathway(p, d, allPositive, shape, oa1, oa3, profile)
  {
    var noe := 1 + p.order + p.relaxOrder;
    var cen1 := PyIndex(p.frequency, 0);
    if cen1.Err? {
      return Err(cen1.error);
    }
    var cen3 := PyIndex(p.frequency, noe - 2);
    if cen3.Err? {
      return Err(cen3.error);
    }
    var pref := if allPositive then Abs(p.pref) else p.pref;
    if oa1.None? || oa3.None? {
      return Err(MissingAttribute);
    }
    var w := SelectWidths(p, d);
    if w.Err? {
      return Err(w.error);
    }
    if p.pathwayType != "R" && p.pathwayType != "NR" {
      return Ok(None);
    }
    var ws := ShapeWidths(shape, w.value);
    if ws.Err? {
      return Err(ws.error);
    }
    var m := FillColumns(profile, shape, Params(cen1.value, cen3.value, pref, w.value), ws.value.0, ws.value.1,
                         p.pathwayType == "R", oa1.value, oa3.value);
    if m.Err? {
      return Err(m.error);
    }
    return Ok(Some(m.value));
  }

  // ---------------------------------------------------------------------
  // Properties of the parameter selection and of the fill
  // ---------------------------------------------------------------------

  /** The widths can be selected exactly when the pathway lists at least
      two widths of which index 3 exists, two dephasings, and a fourth
      dephasing whenever `widths[3]` is not negative. */
  lemma SelectWidthsSucceeds(p: Pathway, d: Widths)
    ensures SelectWidths(p, d).Ok? <==>
      |p.widths| >= 4 && |p.dephs| >= 2 && (p.widths[3] >= 0.0 ==> |p.dephs| >= 4)
  {
  }

  /** A negative entry selects the default; a non-negative one is used as
      it is. `dephy` follows `widths[3]`: with `widths[3] < 0` the default
      is taken whatever `dephs[3]` says, and otherwise `dephs[3]` is taken
      even when it is negative. */
  lemma SelectedWidths(p: Pathway, d: Widths)
    requires SelectWidths(p, d).Ok?
    ensures var w := SelectWidths(p, d).value;
      && (p.widths[1] < 0.0 ==> w.widthx == d.widthx) && (p.widths[1] >= 0.0 ==> w.widthx == p.widths[1])
      && (p.widths[3] < 0.0 ==> w.widthy == d.widthy) && (p.widths[3] >= 0.0 ==> w.widthy == p.widths[3])
      && (p.dephs[1] < 0.0 ==> w.dephx == d.dephx) && (p.dephs[1] >= 0.0 ==> w.dephx == p.dephs[1])
      && (p.widths[3] < 0.0 ==> w.dephy == d.dephy) && (p.widths[3] >= 0.0 ==> w.dephy == p.dephs[3])
  {
  }

  /** The centres are `frequency[0]` and `frequency[noe - 2]`, the latter
      counted from the end when `order + relax_order < 1`; with
      `all_positive` the prefactor is `|pref|`. */
  lemma PeakParameters(p: Pathway, d: Widths, allPositive: bool, shape: string,
                       oa1: Axis, oa3: Axis, profile: Profile, i: nat, k: nat)
    requires (p.pathwayType == "R" || p.pathwayType == "NR") && shape == "Gaussian"
    requires oa1.length == oa3.length && i < oa1.length && k < oa1.length
    requires CalculatePathway(p, d, allPositive, shape, Some(oa1), Some(oa3), profile).Ok?
    ensures var m := CalculatePathway(p, d, allPositive, shape, Some(oa1), Some(oa3), profile).value.value;
      var noe := 1 + p.order + p.relaxOrder;
      var j := if noe - 2 < 0 then noe - 2 + |p.frequency| else noe - 2;
      var w := SelectWidths(p, d).value;
      var pref := if allPositive then Abs(p.pref) else p.pref;
      && 0 <= j < |p.frequency|
      && m.cells[k][i] ==
           pref * profile(shape, Omega1(p.pathwayType == "R", oa1, i), p.frequency[0], w.widthx)
                * profile(shape, Point(oa3, k), p.frequency[j], w.widthy)
  {
  }

  /** The fill stores omega_1 along the second index and omega_3 along the
      first: the sample at (ix, iy) belongs to omega_1 = oa1[iy] and
      omega_3 = oa3[ix]; the same line-shape factors with the two indices
      exchanged give the array transposed. */
  lemma FillIsTransposed(profile: Profile, shape: string, prm: Params, wx: real, wy: real,
                         rephasing: bool, oa1: Axis, oa3: Axis, ix: nat, iy: nat)
    requires oa1.length == oa3.length && ix < oa1.length && iy < oa1.length
    ensures ColumnFill(profile, shape, prm, wx, wy, rephasing, oa1, oa3).Ok?
    ensures ColumnFill(profile, shape, prm, wx, wy, rephasing, oa1, oa3).value.cells[ix][iy]
      == prm.pref * profile(shape, Omega1(rephasing, oa1, iy), prm.cen1, wx) * profile(shape, Point(oa3, ix), prm.cen3, wy)
  {
  }

  /** The axis with every frequency negated. */
  function Mirror(a: Axis): (r: Axis)
    ensures r.length == a.length && forall k: nat :: Point(r, k) == -Point(a, k)
  {
    var r := Axis(-a.start, a.length, -a.step, a.atype, a.timeStart);
    assert forall k: nat :: Point(r, k) == -a.start + (k as real) * (-a.step);
    r
  }

  /** Filling with the rephasing sign is filling, without it, over the
      mirrored omega_1 axis. */
  lemma FillOnMirror(profile: Profile, shape: string, prm: Params, wx: real, wy: real, oa1: Axis, oa3: Axis)
    ensures ColumnFill(profile, shape, prm, wx, wy, true, oa1, oa3)
         == ColumnFill(profile, shape, prm, wx, wy, false, Mirror(oa1), oa3)
  {
    var r1 := ColumnFill(profile, shape, prm, wx, wy, true, oa1, oa3);
    var r2 := ColumnFill(profile, shape, prm, wx, wy, false, Mirror(oa1), oa3);
    if r1.Ok? && oa1.length > 0 {
      var m1, m2 := r1.value, r2.value;
      forall k | 0 <= k < m1.rows
        ensures m1.cells[k] == m2.cells[k]
      {
        forall i | 0 <= i < m1.cols
          ensures m1.cells[k][i] == m2.cells[k][i]
        {
          assert Omega1(true, oa1, i) == Omega1(false, Mirror(oa1), i);
        }
      }
      assert m1.cells == m2.cells;
    }
  }

  /** A rephasing pathway gives the non-rephasing pathway's array on the
      mirrored omega_1 axis. */
  lemma RephasingIsMirrored(p: Pathway, d: Widths, allPositive: bool, shape: string,
                            oa1: Axis, oa3: Axis, profile: Profile)
    requires p.pathwayType == "R"
    ensures CalculatePathway(p, d, allPositive, shape, Some(oa1), Some(oa3), profile)
         == CalculatePathway(p.(pathwayType := "NR"), d, allPositive, shape, Some(Mirror(oa1)), Some(oa3), profile)
  {
    var noe := 1 + p.order + p.relaxOrder;
    var pref := if allPositive then Abs(p.pref) else p.pref;
    var q := p.(pathwayType := "NR");
    assert SelectWidths(q, d) == SelectWidths(p, d);
    if PyIndex(p.frequency, 0).Ok? && PyIndex(p.frequency, noe - 2).Ok? && SelectWidths(p, d).Ok?
       && ShapeWidths(shape, SelectWidths(p, d).value).Ok? {
      var prm := Params(PyIndex(p.frequency, 0).value, PyIndex(p.frequency, noe - 2).value, pref, SelectWidths(p, d).value);
      var ws := ShapeWidths(shape, SelectWidths(p, d).value).value;
      FillOnMirror(profile, shape, prm, ws.0, ws.1, oa1, oa3);
    }
  }

  // ---------------------------------------------------------------------
  // The mock calculator
  // ---------------------------------------------------------------------

  /** What `bootstrap` fixes for the calculation of the spectra. */
  datatype Mode = Mode(shape: string, allPositive: bool)

  /** MockTwoDSpectrumCalculator. `t2data` is the waiting-time axis's
      data; an attribute that is unset or None is `None` here. */
  class MockCalculator {
    var tc: int
    var t2data: seq<real>
    var oa1: Option<Axis>
    var oa3: Option<Axis>
    var widths: Widths
    var mode: Option<Mode>
    var pathways: Option<seq<Pathway>>

    /** The defaults of all four widths are the same converted value. */
    constructor(t2data: seq<real>, defaultWidth: real)
      ensures this.t2data == t2data && tc == 0 && oa1.None? && oa3.None?
      ensures widths == Widths(defaultWidth, defaultWidth, defaultWidth, defaultWidth)
      ensures mode.None? && pathways.None?
    {
      this.t2data := t2data;
      tc := 0;
      oa1, oa3 := None, None;
      widths := Widths(defaultWidth, defaultWidth, defaultWidth, defaultWidth);
      mode := None;
      pathways := None;
    }

    /** `bootstrap`, given the frequency axes already shifted by `rwa`. */
    method Bootstrap(oa1: Axis, oa3: Axis, pathways: Option<seq<Pathway>>, shape: string, allPositive: bool)
      modifies this
      ensures tc == 0 && this.oa1 == Some(oa1) && this.oa3 == Some(oa3)
      ensures this.pathways == pathways && mode == Some(Mode(shape, allPositive))
      ensures t2data == old(t2data) && widths == old(widths)
    {
      this.oa1, this.oa3 := Some(oa1), Some(oa3);
      this.pathways := pathways;
      mode := Some(Mode(shape, allPositive));
      tc := 0;
    }

    /** `set_width` */
    method SetWidth(v: real)
      modifies this
      ensures widths == old(widths).(widthx := v, widthy := v)
      ensures tc == old(tc) && t2data == old(t2data) && oa1 == old(oa1) && oa3 == old(oa3)
      ensures mode == old(mode) && pathways == old(pathways)
    {
      widths := widths.(widthx := v, widthy := v);
    }

    /** `set_deph` */
    method SetDeph(v: real)
      modifies this
      ensures widths == old(widths).(dephx := v, dephy := v)
      ensures tc == old(tc) && t2data == old(t2data) && oa1 == old(oa1) && oa3 == old(oa3)
      ensures mode == old(mode) && pathways == old(pathways)
    {
      widths := widths.(dephx := v, dephy := v);
    }

    /** `set_pathways` */
    method SetPathways(ps: Option<seq<Pathway>>)
      modifies this
      ensures pathways == ps
      ensures tc == old(tc) && t2data == old(t2data) && oa1 == old(oa1) && oa3 == old(oa3)
      ensures mode == old(mode) && widths == old(widths)
    {
      pathways := ps;
    }

    /** The loop over the pathways shared by `calculate_one` and
        `calculate`: R data go to the rephasing part, NR data to the
        non-rephasing part, through `add_data`. As written, `add_data`
        refuses data while the spectrum's dtype is not set, so the loop
        completes only when there is no pathway. */
    method AddPathways(s: TwoDSpectrum, profile: Profile) returns (err: Option<Error>)
      requires s.Valid() && s.Fields() == EmptyFields
      modifies s
      ensures s.Valid() && s.Fields() == EmptyFields
      ensures s.Saved() == old(s.Saved()) && s.Dictionary() == old(s.Dictionary())
      ensures err.None? <==> pathways == Some([])
    {
      if pathways.None? {
        return Some(NoneArray);
      }
      var ps := pathways.value;
      if |ps| == 0 {
        return None;
      }
      var pwy := ps[0];
      if mode.None? {
        return Some(MissingAttribute);
      }
      var d := ComputePathway(pwy, widths, mode.value.allPositive, mode.value.shape, oa1, oa3, profile);
      if d.Err? {
        return Some(d.error);
      }
      if pwy.pathwayType == "R" {
        err := s.AddData(d.value.value, Some("Reph"));
      } else if pwy.pathwayType == "NR" {
        err := s.AddData(d.value.value, Some("Nonr"));
      } else {
        return Some(UnknownPathwayType);
      }
      assert err.Some?;
    }

    /** `calculate_one(tc)`: a spectrum on the calculator's frequency axes
        at waiting time `t2axis.data[tc]`. */
    method CalculateOne(tc: int, profile: Profile) returns (r: Result<TwoDSpectrum>)
      ensures r.Ok? <==> pathways == Some([]) && -|t2data| <= tc < |t2data|
      ensures r.Ok? ==> fresh(r.value) && r.value.Valid() && r.value.Fields() == EmptyFields
      ensures r.Ok? ==> r.value.t2 == PyIndex(t2data, tc).value
      ensures r.Ok? ==> r.value.xaxis == oa1 && r.value.yaxis == oa3
    {
      var s := new TwoDSpectrum(false, true);
      s.SetAxis1(oa1);
      s.SetAxis3(oa3);
      var err := AddPathways(s, profile);
      if err.Some? {
        return Err(err.value);
      }
      var t := PyIndex(t2data, tc);
      if t.Err? {
        return Err(t.error);
      }
      s.SetT2(t.value);
      return Ok(s);
    }

    /** `calculate_next`: the cursor advances only when the spectrum was
        calculated. */
    method CalculateNext(profile: Profile) returns (r: Result<TwoDSpectrum>)
      modifies this
      ensures r.Ok? <==> pathways == Some([]) && -|t2data| <= old(tc) < |t2data|
      ensures r.Ok? ==> fresh(r.value) && r.value.t2 == PyIndex(t2data, old(tc)).value
      ensures tc == if r.Ok? then old(tc) + 1 else old(tc)
      ensures t2data == old(t2data) && oa1 == old(oa1) && oa3 == old(oa3)
      ensures widths == old(widths) && mode == old(mode) && pathways == old(pathways)
    {
      r := CalculateOne(tc, profile);
      if r.Ok? {
        tc := tc + 1;
      }
    }

    /** `calculate`: one spectrum for all pathways, at waiting time 0. */
    method Calculate(profile: Profile) returns (r: Result<TwoDSpectrum>)
      ensures r.Ok? <==> pathways == Some([])
      ensures r.Ok? ==> fresh(r.value) && r.value.t2 == 0.0 && r.value.Fields() == EmptyFields
    {
      var s := new TwoDSpectrum(false, true);
      s.SetAxis1(oa1);
      s.SetAxis3(oa3);
      var err := AddPathways(s, profile);
      if err.Some? {
        return Err(err.value);
      }
      s.SetT2(0.0);
      return Ok(s);
    }
  }

  // ---------------------------------------------------------------------
  // The exact calculator
  // ---------------------------------------------------------------------

  /** TwoDSpectrumCalculator: only the cursor, the waiting times and the
      frequency axes of the spectra it creates. */
  class Calculator {
    var tc: int
    var t2data: seq<real>
    var oa1: Option<Axis>
    var oa3: Option<Axis>

    constructor(t2data: seq<real>)
      ensures this.t2data == t2data && tc == 0 && oa1.None? && oa3.None?
    {
      this.t2data := t2data;
      tc := 0;
      oa1, oa3 := None, None;
    }

    /** The end of `bootstrap`: the frequency axes are set and the cursor
        reset. */
    method Bootstrap(oa1: Axis, oa3: Axis)
      modifies this
      ensures tc == 0 && this.oa1 == Some(oa1) && this.oa3 == Some(oa3) && t2data == old(t2data)
    {
      this.oa1, this.oa3 := Some(oa1), Some(oa3);
      tc := 0;
    }

    /** `calculate_one(tc)`, given the transformed responses: the second
        `set_data` meets the dtype lock the first one set, so no spectrum
        is ever returned. */
    method CalculateOne(tc: int, reph: Matrix, nonr: Matrix) returns (r: Result<TwoDSpectrum>)
      ensures r.Err?
      ensures r.error == if -|t2data| <= tc < |t2data| then IncorrectDataType else IndexOutOfRange
    {
      var tt2 := PyIndex(t2data, tc);
      if tt2.Err? {
        return Err(tt2.error);
      }
      var s := new TwoDSpectrum(false, true);
      s.SetAxis1(oa1);
      s.SetAxis3(oa3);
      var err := s.SetData(reph, "Reph");
      assert err.None?;
      err := s.SetData(nonr, "Nonr");
      // the lock is now "Reph": this call raises, and `set_t2` and the
      // return that follow it are never reached
      assert err == Some(IncorrectDataType);
      return Err(err.value);
    }

    /** `calculate_next`: since `calculate_one` always raises, the cursor
        never advances. */
    method CalculateNext(reph: Matrix, nonr: Matrix) returns (r: Result<TwoDSpectrum>)
      modifies this
      ensures r.Err? && tc == old(tc)
      ensures t2data == old(t2data) && oa1 == old(oa1) && oa3 == old(oa3)
    {
      // the increment that follows the call is never reached
      r := CalculateOne(tc, reph, nonr);
    }
  }
}
