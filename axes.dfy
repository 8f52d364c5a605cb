/** Frequency axes as a 2D spectrum uses them. */
module Axes {
  import opened Errors

  /** A FrequencyAxis: `length` samples from `start` in steps of `step`,
      and the two attributes `trim_to` passes on (`atype`, `time_start`);
      `None` stands for the constructor's default. */
  datatype Axis = Axis(start: real, length: nat, step: real, atype: Option<string>, timeStart: Option<real>)

  /** `axis.data[k]`: the k-th frequency of the axis. */
  function Point(a: Axis, k: nat): real {
    a.start + (k as real) * a.step
  }

  /** The indices `trim_to` derives from two located indices of a window
      edge: one sample of margin on each side, starting at index >= 0 and
      ending within the axis. */
  predicate Trimmable(a: Axis, lo: nat, hi: nat) {
    1 <= lo && lo <= hi + 2 && hi + 1 <= a.length
  }

  /** `FrequencyAxis(axis.data[lo-1], (hi+1) - (lo-1), axis.step, atype=..., time_start=...)`:
      the new axis samples exactly the old frequencies lo-1 .. hi. */
  function Trimmed(a: Axis, lo: nat, hi: nat): (r: Axis)
    requires Trimmable(a, lo, hi)
    ensures r.length == hi - lo + 2 && r.step == a.step
    ensures r.atype == a.atype && r.timeStart == a.timeStart
    ensures forall k :: 0 <= k < r.length ==> Point(r, k) == Point(a, lo - 1 + k)
  {
    var r := Axis(Point(a, lo - 1), (hi + 1) - (lo - 1), a.step, a.atype, a.timeStart);
    assert forall k: nat :: Point(r, k) == a.start + ((lo - 1) as real) * a.step + (k as real) * a.step;
    r
  }
}
