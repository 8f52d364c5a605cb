/** The fixed taxonomy of Liouville pathways (twod2.py:51-65) and the
    five-level ladder of storage resolutions (twod2.py:70-110, 789-867). */
module Resolution {
  import opened Errors

  /** The eight pathway types. */
  const PTypes: seq<string> := ["R1g", "R2g", "R3g", "R4g", "R1fs", "R2fs", "R3fs", "R4fs"]

  /** The processes, in the order in which the dictionary is iterated. */
  const ProcessNames: seq<string> := ["GSB", "SE", "ESA", "DC"]

  const Processes: map<string, seq<string>> := map[
    "GSB" := [PTypes[0], PTypes[1]],
    "SE" := [PTypes[2], PTypes[3]],
    "ESA" := [PTypes[4], PTypes[5]],
    "DC" := [PTypes[6], PTypes[7]]]

  /** The signals, in the order in which the dictionary is iterated. */
  const SignalNames: seq<string> := ["REPH", "NONR", "DC"]

  const Signals: map<string, seq<string>> := map[
    "REPH" := [PTypes[1], PTypes[2], PTypes[4]],
    "NONR" := [PTypes[0], PTypes[3], PTypes[5]],
    "DC" := [PTypes[6], PTypes[7]]]

  /** The storage resolutions; a level is its index in this list. */
  const Resolutions: seq<string> := ["off", "signals", "processes", "types", "pathways"]

  const Pathways: nat := 4
  const Types: nat := 3
  const ProcessesLevel: nat := 2
  const SignalsLevel: nat := 1
  const Off: nat := 0

  /** The data types a TwoDSpectrum can hold. */
  const DTypes: seq<string> := ["Tot", "Reph", "Nonr"]

  predicate Distinct(s: seq<string>) {
    forall i, j :: 0 <= i < j < |s| ==> s[i] != s[j]
  }

  /** `list.index`: the first position of x in s. */
  function IndexOf(s: seq<string>, x: string): (k: nat)
    requires x in s
    ensures k < |s| && s[k] == x
    ensures forall i :: 0 <= i < k ==> s[i] != x
  {
    if s[0] == x then 0 else 1 + IndexOf(s[1..], x)
  }

  /** `_resolution2number`: the level of a resolution name, or an error. */
  function ResolutionToNumber(res: string): (r: Result<nat>)
    ensures r.Ok? <==> res in Resolutions
    ensures r.Ok? ==> r.value < |Resolutions| && Resolutions[r.value] == res
  {
    if res in Resolutions then Ok(IndexOf(Resolutions, res)) else Err(UnknownResolution)
  }

  /** The conversion table of the docstring, read off the function. */
  lemma ResolutionNumbers()
    ensures ResolutionToNumber("off") == Ok(Off)
    ensures ResolutionToNumber("signals") == Ok(SignalsLevel)
    ensures ResolutionToNumber("processes") == Ok(ProcessesLevel)
    ensures ResolutionToNumber("types") == Ok(Types)
    ensures ResolutionToNumber("pathways") == Ok(Pathways)
  {
    var names := Resolutions;
    assert Distinct(names);
    forall k: nat | k < |names|
      ensures ResolutionToNumber(names[k]) == Ok(k)
    {
      var r := ResolutionToNumber(names[k]);
      assert names[r.value] == names[k];
    }
    assert names[0] == "off" && names[1] == "signals" && names[2] == "processes";
    assert names[3] == "types" && names[4] == "pathways";
  }

  /** The lowerings `_convert_resolution` performs: pathways to types,
      types to processes or signals, processes or signals to off. */
  predicate Supported(from: nat, to: nat) {
    || (from == Pathways && to == Types)
    || (from == Types && to == ProcessesLevel)
    || (from == Types && to == SignalsLevel)
    || (from == SignalsLevel && to == Off)
    || (from == ProcessesLevel && to == Off)
  }

  /** A sequence of levels in which each step is a supported lowering. */
  predicate Chain(ls: seq<nat>) {
    forall k :: 0 <= k < |ls| - 1 ==> Supported(ls[k], ls[k + 1])
  }

  lemma ChainTail(ls: seq<nat>)
    requires |ls| > 0 && Chain(ls)
    ensures Chain(ls[1..])
  {
    forall k | 0 <= k < |ls[1..]| - 1
      ensures Supported(ls[1..][k], ls[1..][k + 1])
    {
      assert Supported(ls[k + 1], ls[k + 2]);
    }
  }

  /** Every chain that takes the store from `n` down to `off` is one of the
      routes the ladder allows: the only way down from `pathways` is through
      `types`, and from `types` through exactly one of `processes` and
      `signals`. */
  lemma {:induction false} ChainsToOff(ls: seq<nat>)
    requires |ls| > 0 && Chain(ls) && ls[0] == Pathways && ls[|ls| - 1] == Off
    ensures ls == [Pathways, Types, ProcessesLevel, Off] || ls == [Pathways, Types, SignalsLevel, Off]
  {
    assert |ls| > 1;
    assert ls[1] == Types by { assert Supported(ls[0], ls[1]); }
    assert |ls| > 2;
    assert ls[2] == ProcessesLevel || ls[2] == SignalsLevel by { assert Supported(ls[1], ls[2]); }
    assert |ls| > 3;
    assert ls[3] == Off by { assert Supported(ls[2], ls[3]); }
    assert |ls| > 4 ==> Supported(ls[3], ls[4]);
  }

  /** Each of the process and signal tables partitions the eight types:
      the process blocks, concatenated in dictionary order, are the types
      in their own order; the signal blocks hold exactly the types and, in
      all, as many entries as there are types, so (the types being
      distinct) each type is in exactly one signal block, once. */
  lemma TablesPartitionTypes()
    ensures Processes["GSB"] + Processes["SE"] + Processes["ESA"] + Processes["DC"] == PTypes
    ensures |Signals["REPH"] + Signals["NONR"] + Signals["DC"]| == |PTypes|
    ensures forall x :: x in Signals["REPH"] + Signals["NONR"] + Signals["DC"] <==> x in PTypes
  {
    var t := PTypes;
    assert Signals["REPH"] + Signals["NONR"] + Signals["DC"] == [t[1], t[2], t[4], t[0], t[3], t[5], t[6], t[7]];
    assert t == [t[0], t[1], t[2], t[3], t[4], t[5], t[6], t[7]];
  }

  lemma TableKeys()
    ensures forall p :: p in Processes <==> p in ProcessNames
    ensures forall s :: s in Signals <==> s in SignalNames
  {
  }

  /** The eight type names are pairwise different (they differ in their
      second character or in their length). */
  lemma TypesDistinct()
    ensures Distinct(PTypes)
  {
    forall i, j | 0 <= i < j < |PTypes|
      ensures PTypes[i] != PTypes[j]
    {
      assert PTypes[i][1] != PTypes[j][1] || |PTypes[i]| != |PTypes[j]|;
    }
  }
}
