/** Two-dimensional numpy arrays as values: zero arrays, the in-place
    `acc += x` with numpy's broadcasting rule, division by a scalar, basic
    slicing, and sums of many arrays taken one sample at a time. */
module Matrices {
  import opened Errors

  /** A dense array of `rows` x `cols` samples, stored row by row. */
  datatype Dense = Dense(rows: nat, cols: nat, cells: seq<seq<real>>)

  predicate Rectangular(d: Dense) {
    |d.cells| == d.rows && forall i :: 0 <= i < |d.cells| ==> |d.cells[i]| == d.cols
  }

  /** The arrays whose samples agree with their declared shape. */
  type Matrix = d: Dense | Rectangular(d) witness Dense(0, 0, [])

  predicate SameShape(a: Matrix, b: Matrix) {
    a.rows == b.rows && a.cols == b.cols
  }

  /** numpy.zeros((r, c)) */
  function Zeros(r: nat, c: nat): (z: Matrix)
    ensures z.rows == r && z.cols == c
    ensures forall i, j :: 0 <= i < r && 0 <= j < c ==> z.cells[i][j] == 0.0
  {
    Dense(r, c, seq(r, _ => seq(c, _ => 0.0)))
  }

  /** numpy accepts `acc += x` when every dimension of x equals that of acc
      or is 1 (a dimension of 1 is repeated). */
  predicate Broadcasts(x: Matrix, acc: Matrix) {
    (x.rows == acc.rows || x.rows == 1) && (x.cols == acc.cols || x.cols == 1)
  }

  /** The index of x that numpy reads for position k of a dimension of size n. */
  function Spread(n: nat, k: nat): nat {
    if n == 1 then 0 else k
  }

  /** `acc += x`: the shape of acc is kept; x is broadcast or the operation
      fails before anything is changed. */
  function AddInto(acc: Matrix, x: Matrix): (r: Result<Matrix>)
    ensures r.Ok? <==> Broadcasts(x, acc)
    ensures r.Ok? ==> SameShape(r.value, acc)
    ensures r.Ok? ==> forall i, j :: 0 <= i < acc.rows && 0 <= j < acc.cols ==>
      r.value.cells[i][j] == acc.cells[i][j] + x.cells[Spread(x.rows, i)][Spread(x.cols, j)]
    ensures SameShape(x, acc) ==> r.Ok? && forall i, j :: 0 <= i < acc.rows && 0 <= j < acc.cols ==>
      r.value.cells[i][j] == acc.cells[i][j] + x.cells[i][j]
  {
    if Broadcasts(x, acc) then
      Ok(Dense(acc.rows, acc.cols,
        seq(acc.rows, i requires 0 <= i < acc.rows =>
          seq(acc.cols, j requires 0 <= j < acc.cols =>
            acc.cells[i][j] + x.cells[Spread(x.rows, i)][Spread(x.cols, j)]))))
    else
      Err(ShapeMismatch)
  }

  /** Two arrays of one shape are equal when all their samples are. */
  lemma Extensionality(a: Matrix, b: Matrix)
    requires SameShape(a, b)
    requires forall i, j :: 0 <= i < a.rows && 0 <= j < a.cols ==> a.cells[i][j] == b.cells[i][j]
    ensures a == b
  {
    forall i | 0 <= i < a.rows
      ensures a.cells[i] == b.cells[i]
    {
      assert |a.cells[i]| == |b.cells[i]|;
    }
  }

  /** Adding into a zero array of x's own shape gives x back. */
  lemma AddIntoZeros(x: Matrix)
    ensures AddInto(Zeros(x.rows, x.cols), x) == Ok(x)
  {
    var r := AddInto(Zeros(x.rows, x.cols), x);
    Extensionality(r.value, x);
  }

  /** `a / v` sample by sample (numpy true division). */
  function Divide(a: Matrix, v: real): (r: Matrix)
    requires v != 0.0
    ensures SameShape(r, a)
    ensures forall i, j :: 0 <= i < a.rows && 0 <= j < a.cols ==> r.cells[i][j] * v == a.cells[i][j]
  {
    Dense(a.rows, a.cols,
      seq(a.rows, i requires 0 <= i < a.rows =>
        seq(a.cols, j requires 0 <= j < a.cols => a.cells[i][j] / v)))
  }

  /** Dividing by u and then by v is dividing by u * v. */
  lemma DivideTwice(a: Matrix, u: real, v: real)
    requires u != 0.0 && v != 0.0
    ensures Divide(Divide(a, u), v) == Divide(a, u * v)
  {
    var l, r := Divide(Divide(a, u), v), Divide(a, u * v);
    forall i, j | 0 <= i < a.rows && 0 <= j < a.cols
      ensures l.cells[i][j] == r.cells[i][j]
    {
      var x := a.cells[i][j];
      assert Divide(a, u).cells[i][j] * u == x;
      assert l.cells[i][j] * v == Divide(a, u).cells[i][j];
      assert r.cells[i][j] * (u * v) == x;
      assert l.cells[i][j] * (u * v) == x;
    }
    Extensionality(l, r);
  }

  /** Python clamps a non-negative slice bound to the length. */
  function Clamp(k: nat, n: nat): nat {
    if k <= n then k else n
  }

  /** The number of indices in `[lo:hi]` of a dimension of size n. */
  function Span(lo: nat, hi: nat, n: nat): nat {
    if Clamp(lo, n) <= Clamp(hi, n) then Clamp(hi, n) - Clamp(lo, n) else 0
  }

  /** numpy basic slicing `a[r0:r1, c0:c1]` with non-negative bounds. */
  function Slice(a: Matrix, r0: nat, r1: nat, c0: nat, c1: nat): (s: Matrix)
    ensures s.rows == Span(r0, r1, a.rows) && s.cols == Span(c0, c1, a.cols)
    ensures forall i, j :: 0 <= i < s.rows && 0 <= j < s.cols ==>
      Clamp(r0, a.rows) + i < a.rows && Clamp(c0, a.cols) + j < a.cols &&
      s.cells[i][j] == a.cells[Clamp(r0, a.rows) + i][Clamp(c0, a.cols) + j]
  {
    var rs, cs := Span(r0, r1, a.rows), Span(c0, c1, a.cols);
    var i0, j0 := Clamp(r0, a.rows), Clamp(c0, a.cols);
    Dense(rs, cs,
      seq(rs, i requires 0 <= i < rs =>
        seq(cs, j requires 0 <= j < cs => a.cells[i0 + i][j0 + j])))
  }

  predicate AllShaped(xs: seq<Matrix>, r: nat, c: nat) {
    forall k :: 0 <= k < |xs| ==> xs[k].rows == r && xs[k].cols == c
  }

  /** `for x in xs: acc += x`, stopping at the first failure. */
  function AddAll(acc: Matrix, xs: seq<Matrix>): (r: Result<Matrix>)
    ensures r.Ok? ==> SameShape(r.value, acc)
    decreases |xs|
  {
    if xs == [] then Ok(acc)
    else
      var a :- AddAll(acc, xs[..|xs| - 1]);
      AddInto(a, xs[|xs| - 1])
  }

  /** The accumulation continued with ys, unless it has already failed. */
  function Continue(r: Result<Matrix>, ys: seq<Matrix>): Result<Matrix> {
    if r.Err? then r else AddAll(r.value, ys)
  }

  lemma {:induction false} AddAllAppend(acc: Matrix, xs: seq<Matrix>, ys: seq<Matrix>)
    ensures AddAll(acc, xs + ys) == Continue(AddAll(acc, xs), ys)
    decreases |ys|
  {
    if ys == [] {
      assert xs + ys == xs;
    } else {
      var zs := xs + ys;
      assert zs[..|zs| - 1] == xs + ys[..|ys| - 1];
      assert zs[|zs| - 1] == ys[|ys| - 1];
      AddAllAppend(acc, xs, ys[..|ys| - 1]);
    }
  }

  /** Sample (i, j) summed over all arrays of xs. */
  function EntrySum(xs: seq<Matrix>, i: nat, j: nat): real
    requires forall k :: 0 <= k < |xs| ==> i < xs[k].rows && j < xs[k].cols
    decreases |xs|
  {
    if xs == [] then 0.0 else EntrySum(xs[..|xs| - 1], i, j) + xs[|xs| - 1].cells[i][j]
  }

  lemma EntrySumSingle(x: Matrix, i: nat, j: nat)
    requires i < x.rows && j < x.cols
    ensures EntrySum([x], i, j) == x.cells[i][j]
  {
    assert [x][..0] == [];
  }

  lemma {:induction false} EntrySumAppend(xs: seq<Matrix>, ys: seq<Matrix>, i: nat, j: nat)
    requires forall k :: 0 <= k < |xs| ==> i < xs[k].rows && j < xs[k].cols
    requires forall k :: 0 <= k < |ys| ==> i < ys[k].rows && j < ys[k].cols
    ensures forall k :: 0 <= k < |xs + ys| ==> i < (xs + ys)[k].rows && j < (xs + ys)[k].cols
    ensures EntrySum(xs + ys, i, j) == EntrySum(xs, i, j) + EntrySum(ys, i, j)
    decreases |ys|
  {
    if ys == [] {
      assert xs + ys == xs;
    } else {
      var zs := xs + ys;
      assert zs[..|zs| - 1] == xs + ys[..|ys| - 1];
      EntrySumAppend(xs, ys[..|ys| - 1], i, j);
    }
  }

  /** When every array has the accumulator's shape the accumulation cannot
      fail, and each sample is the accumulator's plus the sum over xs. */
  lemma {:induction false} AddAllExact(acc: Matrix, xs: seq<Matrix>)
    requires AllShaped(xs, acc.rows, acc.cols)
    ensures AddAll(acc, xs).Ok?
    ensures forall i, j :: 0 <= i < acc.rows && 0 <= j < acc.cols ==>
      AddAll(acc, xs).value.cells[i][j] == acc.cells[i][j] + EntrySum(xs, i, j)
    decreases |xs|
  {
    if xs != [] {
      var init := xs[..|xs| - 1];
      AddAllExact(acc, init);
      var a := AddAll(acc, init).value;
      assert SameShape(xs[|xs| - 1], a);
    }
  }

  /** The array whose every sample is the sum of the samples of xs over a
      zero start: what a zero-initialised accumulation produces. */
  lemma AddAllFromZeros(r: nat, c: nat, xs: seq<Matrix>)
    requires AllShaped(xs, r, c)
    ensures AddAll(Zeros(r, c), xs).Ok?
    ensures SameShape(AddAll(Zeros(r, c), xs).value, Zeros(r, c))
    ensures forall i, j :: 0 <= i < r && 0 <= j < c ==>
      AddAll(Zeros(r, c), xs).value.cells[i][j] == EntrySum(xs, i, j)
  {
    AddAllExact(Zeros(r, c), xs);
  }
}
