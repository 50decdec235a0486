/** The simulation parameters: the module-level default table and the way
    each call merges its keyword overrides into it. */
module Parameters {

  /** A parameter value as Python holds it: an `int`, a `float`, or an array. */
  datatype ParamValue = Int(i: int) | Float(f: real) | Array(a: seq<real>)

  type Table = map<string, ParamValue>

  /** The options every simulation reads from the table. */
  const RecognizedOptions: set<string> :=
    {"energy_spacing", "iterations", "simulations", "cv_fold", "regularizer_widths"}

  predicate HasRecognizedOptions(t: Table)
  {
    RecognizedOptions <= t.Keys
  }

  /** What is known exactly of `np.logspace(-3, -1, 10)`: ten positive,
      increasing widths from `0.001` to `0.1`, each the geometric mean of its
      neighbours. The eight interior values are irrational powers of ten, so
      they are not computed here. */
  predicate LogspaceWidths(w: seq<real>)
  {
    |w| == 10 && w[0] == 0.001 && w[9] == 0.1 &&
    (forall i :: 0 <= i < 10 ==> w[i] > 0.0) &&
    (forall i :: 0 <= i < 9 ==> w[i] < w[i + 1]) &&
    (forall i :: 1 <= i < 9 ==> w[i - 1] * w[i + 1] == w[i] * w[i])
  }

  /** The module's default table, with `logWidths` standing for the values of
      `np.logspace(-3, -1, 10)`. */
  function DefaultParameters(logWidths: seq<real>): (t: Table)
    requires LogspaceWidths(logWidths)
    ensures t.Keys == RecognizedOptions
    ensures t["simulations"].Int? && t["cv_fold"].Int?
    ensures t["simulations"].i > 0 && t["cv_fold"].i > 1
    ensures t["regularizer_widths"].Array? && 0.0 !in t["regularizer_widths"].a
  {
    map[
      "energy_spacing" := Float(0.005),
      "iterations" := Float(1000.0),
      "simulations" := Int(1000),
      "cv_fold" := Int(4),
      "regularizer_widths" := Array(logWidths)]
  }

  /** The interpreter-wide state the merge writes into: the table bound to
      the module name of the defaults. */
  datatype ModuleState = ModuleState(defaults: Table)

  /** `dict.update`: every override key takes the override value, every other
      key keeps its value. */
  function Update(t: Table, overrides: Table): (r: Table)
    ensures r.Keys == t.Keys + overrides.Keys
    ensures forall k :: k in overrides ==> r[k] == overrides[k]
    ensures forall k :: k in t && k !in overrides ==> r[k] == t[k]
  {
    t + overrides
  }

  /** `parameters = DEFAULT_PARAMETERS; parameters.update(kwargs)`. The local
      name aliases the module table, so the merged table becomes the new
      defaults: the first component is the state afterwards, the second the
      table the call reads. */
  function MergeParameters(st: ModuleState, overrides: Table): (res: (ModuleState, Table))
    ensures res.0.defaults == res.1
    ensures res.1.Keys == st.defaults.Keys + overrides.Keys
    ensures forall k :: k in overrides ==> res.1[k] == overrides[k]
    ensures forall k :: k in st.defaults && k !in overrides ==> res.1[k] == st.defaults[k]
  {
    var merged := Update(st.defaults, overrides);
    (ModuleState(merged), merged)
  }

  /** An override given to one call is still in force in a later call that
      does not mention the key. */
  lemma OverridesOutliveTheirCall(st: ModuleState, first: Table, second: Table, key: string)
    requires key in first && key !in second
    ensures var after := MergeParameters(st, first).0;
            key in MergeParameters(after, second).1 && MergeParameters(after, second).1[key] == first[key]
  {
  }

  /** Merging never loses an option, so every lookup of a recognised option
      after a merge finds a value. */
  lemma MergeKeepsRecognizedOptions(st: ModuleState, overrides: Table)
    requires HasRecognizedOptions(st.defaults)
    ensures HasRecognizedOptions(MergeParameters(st, overrides).0.defaults)
  {
  }
}
