/** The orchestration: merging parameters, the convergence study (one solver
    per regularisation width, the unregularised one always included), and the
    cross-validated run whose result is filed under its key. */
module RunAnalyze {
  import opened Results
  import opened Sums
  import opened SimErrors
  import opened SimulatePax
  import opened Parameters
  import opened Solvers
  import opened ResultStore

  datatype RunError =
    | SimulationFailed(cause: SimError)
    | NotAnInteger(option: string)   // `range` refuses a non-integer replicate count
    | NonFiniteValidation            // the mean of no replicates is NaN

  /** The number of replicates `range(simulations)` produces: a negative
      integer gives none, anything but an integer is refused. */
  function ReplicateCount(v: ParamValue): (r: Result<nat, RunError>)
    ensures r.Success? <==> v.Int?
    ensures r.Failure? ==> r.error == NotAnInteger("simulations")
    ensures r.Success? && v.i >= 0 ==> r.value == v.i
    ensures r.Success? && v.i < 0 ==> r.value == 0
  {
    match v
    case Int(i) => Success(if i < 0 then 0 else i)
    case _ => Failure(NotAnInteger("simulations"))
  }

  /** The widths `np.append` sees once it flattens the option: a scalar is a
      one-element grid. */
  function WidthList(v: ParamValue): seq<real>
  {
    match v
    case Int(i) => [i as real]
    case Float(f) => [f]
    case Array(a) => a
  }

  /** `np.append([0], widths)`: zero first, then the given widths in order. */
  function ConvergenceGrid(v: ParamValue): (g: seq<real>)
    ensures |g| == |WidthList(v)| + 1
    ensures g[0] == 0.0
    ensures forall i :: 0 <= i < |WidthList(v)| ==> g[i + 1] == WidthList(v)[i]
  {
    [0.0] + WidthList(v)
  }

  /** The zero is added even when the grid already holds one: the grid always
      has exactly one more zero than the option. */
  lemma ZeroPrependedEvenIfPresent(v: ParamValue)
    ensures multiset(ConvergenceGrid(v)) == multiset(WidthList(v)) + multiset{0.0}
    ensures multiset(ConvergenceGrid(v))[0.0] == multiset(WidthList(v))[0.0] + 1
  {
  }

  /** With the default widths, which hold no zero, the grid has exactly one
      zero, so the unregularised solver runs once. */
  lemma DefaultGridHasOneZero(logWidths: seq<real>)
    requires LogspaceWidths(logWidths)
    ensures multiset(ConvergenceGrid(DefaultParameters(logWidths)["regularizer_widths"]))[0.0] == 1
  {
    var widths := DefaultParameters(logWidths)["regularizer_widths"];
    ZeroPrependedEvenIfPresent(widths);
    assert 0.0 !in multiset(WidthList(widths));
  }

  /** Width zero selects the unregularised solver; any other width the
      regularised one, with that width and logging on. Both get the same
      setup. */
  function RunSingleDeconvolver(setup: Setup, width: real): (d: Deconvolver)
    ensures d.setup == setup
    ensures d.Unregularised? <==> width == 0.0
    ensures d.Regularised? ==> d.width == width && d.logging
  {
    if width == 0.0 then Unregularised(setup)
    else Regularised(setup, width, true)
  }

  predicate Rectangular(ys: seq<seq<real>>)
  {
    forall k :: 0 <= k < |ys| ==> |ys[k]| == |ys[0]|
  }

  /** The sum of column `i` over all replicates. */
  function ColumnSum(ys: seq<seq<real>>, i: nat): real
    requires forall k :: 0 <= k < |ys| ==> i < |ys[k]|
    decreases |ys|
  {
    if |ys| == 0 then 0.0 else ys[0][i] + ColumnSum(ys[1..], i)
  }

  /** Column `i` of the replicate matrix: value `i` of every replicate. */
  function Column(ys: seq<seq<real>>, i: nat): (c: seq<real>)
    requires forall k :: 0 <= k < |ys| ==> i < |ys[k]|
    ensures |c| == |ys|
    ensures forall k :: 0 <= k < |ys| ==> c[k] == ys[k][i]
  {
    seq(|ys|, k requires 0 <= k < |ys| => ys[k][i])
  }

  lemma {:induction false} ColumnSumIsSum(ys: seq<seq<real>>, i: nat)
    requires forall k :: 0 <= k < |ys| ==> i < |ys[k]|
    ensures ColumnSum(ys, i) == Sum(Column(ys, i))
    decreases |ys|
  {
    if |ys| > 0 {
      assert Column(ys, i)[1..] == Column(ys[1..], i);
      ColumnSumIsSum(ys[1..], i);
    }
  }

  /** `np.mean(ys, axis=0)`: the element-wise mean of the replicates. With no
      replicates NumPy returns NaN, reported as `NonFiniteValidation`. */
  function ReplicateMean(ys: seq<seq<real>>): (r: Result<seq<real>, RunError>)
    requires Rectangular(ys)
    ensures r.Success? <==> |ys| > 0
    ensures r.Failure? ==> r.error == NonFiniteValidation
    ensures r.Success? ==> |r.value| == |ys[0]|
    ensures r.Success? ==> forall i :: 0 <= i < |ys[0]| ==> r.value[i] * |ys| as real == Sum(Column(ys, i))
  {
    if |ys| == 0 then Failure(NonFiniteValidation)
    else
      var mean := seq(|ys[0]|, i requires 0 <= i < |ys[0]| => ColumnSum(ys, i) / |ys| as real);
      assert forall i :: 0 <= i < |ys[0]| ==> mean[i] * |ys| as real == Sum(Column(ys, i)) by {
        forall i | 0 <= i < |ys[0]|
          ensures mean[i] * |ys| as real == Sum(Column(ys, i))
        {
          ColumnSumIsSum(ys, i);
          DivideThenMultiply(ColumnSum(ys, i), |ys| as real);
        }
      }
      Success(mean)
  }

  lemma CancelFactor(a: real, b: real, n: real)
    requires n != 0.0 && a * n == n * b
    ensures a == b
  {
  }

  lemma DivideThenMultiply(v: real, n: real)
    requires n != 0.0
    ensures v / n * n == v
  {
  }

  lemma {:induction false} ColumnSumOfCopies(ys: seq<seq<real>>, v: seq<real>, i: nat)
    requires i < |v|
    requires forall k :: 0 <= k < |ys| ==> ys[k] == v
    ensures ColumnSum(ys, i) == |ys| as real * v[i]
    decreases |ys|
  {
    if |ys| > 0 {
      ColumnSumOfCopies(ys[1..], v, i);
    }
  }

  /** The mean of identical replicates is that replicate. */
  lemma MeanOfIdenticalReplicates(ys: seq<seq<real>>, v: seq<real>)
    requires |ys| > 0
    requires forall k :: 0 <= k < |ys| ==> ys[k] == v
    ensures ReplicateMean(ys) == Success(v)
  {
    var mean := ReplicateMean(ys).value;
    assert |mean| == |v| by {
      assert ys[0] == v;
    }
    forall i | 0 <= i < |v|
      ensures mean[i] == v[i]
    {
      ColumnSumOfCopies(ys, v, i);
      ColumnSumIsSum(ys, i);
      CancelFactor(mean[i], v[i], |ys| as real);
    }
    assert mean == v;
  }

  lemma {:induction false} ColumnSumBounds(ys: seq<seq<real>>, i: nat, lo: real, hi: real)
    requires forall k :: 0 <= k < |ys| ==> i < |ys[k]| && lo <= ys[k][i] <= hi
    ensures |ys| as real * lo <= ColumnSum(ys, i) <= |ys| as real * hi
    decreases |ys|
  {
    if |ys| > 0 {
      ColumnSumBounds(ys[1..], i, lo, hi);
      var rest := |ys[1..]| as real;
      assert |ys| as real * lo == rest * lo + lo;
      assert |ys| as real * hi == rest * hi + hi;
    }
  }

  /** Each mean value lies between the smallest and largest replicate value
      in its column. */
  lemma MeanWithinBounds(ys: seq<seq<real>>, i: nat, lo: real, hi: real)
    requires Rectangular(ys) && |ys| > 0 && i < |ys[0]|
    requires forall k :: 0 <= k < |ys| ==> lo <= ys[k][i] <= hi
    ensures lo <= ReplicateMean(ys).value[i] <= hi
  {
    ColumnSumBounds(ys, i, lo, hi);
    var n := |ys| as real;
    var total := ColumnSum(ys, i);
    assert ReplicateMean(ys).value[i] == total / n;
    MeanOfBoundedTotal(total, n, lo, hi);
  }

  lemma MeanOfBoundedTotal(total: real, n: real, lo: real, hi: real)
    requires n > 0.0 && n * lo <= total <= n * hi
    ensures lo <= total / n <= hi
  {
    assert total / n * n == total;
  }

  /** One fit per grid width, in grid order, all on the same setup and data. */
  function FitsOverGrid(setup: Setup, grid: seq<real>, data: seq<seq<real>>): (fits: seq<Fit>)
    ensures |fits| == |grid|
    ensures forall i :: 0 <= i < |grid| ==> fits[i] == Fit(RunSingleDeconvolver(setup, grid[i]), data)
  {
    seq(|grid|, i requires 0 <= i < |grid| => Fit(RunSingleDeconvolver(setup, grid[i]), data))
  }

  /** The primary and validation simulations of the convergence study, or
      the first error. */
  datatype StudyData = StudyData(primary: PresetSimulation, validation: PresetSimulation, validationY: seq<real>)

  function StudySimulations(
    params: Table, key: Key, presets: Presets,
    draw: PoissonDraw, validationDraw: PoissonDraw, validationCounts: real): (r: Result<StudyData, RunError>)
    requires HasRecognizedOptions(params)
    requires validationCounts > 0.0
    ensures r.Success? ==> params["simulations"].Int?
    ensures r.Success? <==>
              var n := ReplicateCount(params["simulations"]);
              n.Success? && n.value > 0 &&
              SimulateFromPresets(Pow10(key.exponent), key.rixs, key.photoemission, n.value,
                                  params["energy_spacing"], presets, draw).Success? &&
              SimulateFromPresets(validationCounts, key.rixs, key.photoemission, n.value,
                                  params["energy_spacing"], presets, validationDraw).Success?
    ensures r.Success? ==>
              SimulateFromPresets(Pow10(key.exponent), key.rixs, key.photoemission, ReplicateCount(params["simulations"]).value,
                                  params["energy_spacing"], presets, draw) == Success(r.value.primary)
    ensures r.Success? ==>
              SimulateFromPresets(validationCounts, key.rixs, key.photoemission, ReplicateCount(params["simulations"]).value,
                                  params["energy_spacing"], presets, validationDraw) == Success(r.value.validation)
    ensures r.Success? ==> |r.value.primary.pax.ys| == ReplicateCount(params["simulations"]).value > 0
    ensures r.Success? ==> r.value.validation.xray == presets.rixs(key.rixs, params["energy_spacing"])
    ensures r.Success? ==> Rectangular(r.value.validation.pax.ys)
    ensures r.Success? ==> ReplicateMean(r.value.validation.pax.ys) == Success(r.value.validationY)
    ensures r.Success? ==> forall k :: 0 <= k < |r.value.primary.pax.ys| ==>
              |r.value.primary.pax.ys[k]| == |r.value.validationY|
  {
    var n :- ReplicateCount(params["simulations"]);
    var spacing := params["energy_spacing"];
    var primary :- SimulateFromPresets(Pow10(key.exponent), key.rixs, key.photoemission, n, spacing, presets, draw)
                     .MapFailure(e => SimulationFailed(e));
    var validation :- SimulateFromPresets(validationCounts, key.rixs, key.photoemission, n, spacing, presets, validationDraw)
                        .MapFailure(e => SimulationFailed(e));
    assert Rectangular(validation.pax.ys);
    var validationY :- ReplicateMean(validation.pax.ys);
    Success(StudyData(primary, validation, validationY))
  }

  /** The fits the convergence study makes from a merged table: a primary and
      an independent validation simulation (its own draws, its own count
      budget), the validation replicates averaged, and one fit per grid width.
      The ground truth passed on is the validation simulation's RIXS curve,
      which the name `xray_xy` is rebound to. */
  function ConvergenceFits(
    params: Table, key: Key, presets: Presets,
    draw: PoissonDraw, validationDraw: PoissonDraw, validationCounts: real): (r: Result<seq<Fit>, RunError>)
    requires HasRecognizedOptions(params)
    requires validationCounts > 0.0
    ensures r.Success? <==> StudySimulations(params, key, presets, draw, validationDraw, validationCounts).Success?
    ensures r.Failure? ==> r == Failure(StudySimulations(params, key, presets, draw, validationDraw, validationCounts).error)
    ensures r.Success? ==> params["simulations"].Int?
    ensures r.Success? ==> |r.value| == |WidthList(params["regularizer_widths"])| + 1
    ensures r.Success? ==> r.value[0].deconvolver.Unregularised?
    ensures r.Success? ==> forall i :: 0 <= i < |WidthList(params["regularizer_widths"])| ==>
              r.value[i + 1].deconvolver == RunSingleDeconvolver(r.value[0].deconvolver.setup, WidthList(params["regularizer_widths"])[i])
    ensures r.Success? ==> forall i :: 0 <= i < |r.value| ==> r.value[i].data == r.value[0].data
    ensures r.Success? ==> r.value[0].deconvolver.setup.iterations == params["iterations"]
    ensures r.Success? ==> r.value[0].deconvolver.setup.groundTruth == presets.rixs(key.rixs, params["energy_spacing"]).y
    ensures r.Success? ==> |r.value[0].data| == ReplicateCount(params["simulations"]).value > 0
    ensures r.Success? ==> forall k :: 0 <= k < |r.value[0].data| ==>
              |r.value[0].data[k]| == |r.value[0].deconvolver.setup.validation|
    ensures r.Success? ==>
              var study := StudySimulations(params, key, presets, draw, validationDraw, validationCounts);
              var setup := r.value[0].deconvolver.setup;
              study.Success? &&
              r.value[0].data == study.value.primary.pax.ys &&
              setup.validation == study.value.validationY &&
              setup.impulseX == study.value.primary.impulseResponse.x &&
              setup.impulseY == study.value.primary.impulseResponse.y &&
              setup.paxX == study.value.primary.pax.x
  {
    var study :- StudySimulations(params, key, presets, draw, validationDraw, validationCounts);
    var setup := Setup(study.primary.impulseResponse.x, study.primary.impulseResponse.y, study.primary.pax.x,
                       params["iterations"], study.validation.xray.y, study.validationY);
    Success(FitsOverGrid(setup, ConvergenceGrid(params["regularizer_widths"]), study.primary.pax.ys))
  }

  /** `assess_convergence`: merge the overrides into the module defaults, then
      run the convergence study on the merged table. The merge happens, and
      persists, whatever the study's outcome. */
  function AssessConvergence(
    st: ModuleState, key: Key, overrides: Table, presets: Presets,
    draw: PoissonDraw, validationDraw: PoissonDraw, validationCounts: real): (res: (ModuleState, Result<seq<Fit>, RunError>))
    requires HasRecognizedOptions(st.defaults)
    requires validationCounts > 0.0
    ensures res.0 == MergeParameters(st, overrides).0
    ensures forall k :: k in overrides ==> k in res.0.defaults && res.0.defaults[k] == overrides[k]
    ensures HasRecognizedOptions(res.0.defaults)
    ensures res.1 == ConvergenceFits(res.0.defaults, key, presets, draw, validationDraw, validationCounts)
    ensures res.1.Success? ==> |res.1.value| == |WidthList(res.0.defaults["regularizer_widths"])| + 1
    ensures res.1.Success? ==> res.1.value[0].deconvolver.Unregularised?
    ensures res.1.Success? ==> forall i :: 0 <= i < |WidthList(res.0.defaults["regularizer_widths"])| ==>
              res.1.value[i + 1].deconvolver ==
              RunSingleDeconvolver(res.1.value[0].deconvolver.setup, WidthList(res.0.defaults["regularizer_widths"])[i])
  {
    var (st', params) := MergeParameters(st, overrides);
    MergeKeepsRecognizedOptions(st, overrides);
    (st', ConvergenceFits(params, key, presets, draw, validationDraw, validationCounts))
  }

  /** The cross-validated run on a merged table: simulate at `10 ** exponent`
      counts, build the grid-search solver from the widths as given (no zero is
      added), and bundle it with the simulated measurement. */
  function GridRun(params: Table, key: Key, presets: Presets, draw: PoissonDraw): (r: Result<Bundle, RunError>)
    requires HasRecognizedOptions(params)
    ensures r.Success? ==> params["simulations"].Int?
    ensures r.Success? ==> r.value.deconvolver.regularizerWidths == params["regularizer_widths"]
    ensures r.Success? ==> r.value.deconvolver.cvFold == params["cv_fold"]
    ensures r.Success? ==> r.value.deconvolver.iterations == params["iterations"]
    ensures r.Success? ==> r.value.deconvolver.paxX == r.value.paxSpectra.x
    ensures r.Success? ==> |r.value.paxSpectra.ys| == ReplicateCount(params["simulations"]).value
    ensures r.Success? <==>
              ReplicateCount(params["simulations"]).Success? &&
              SimulateFromPresets(Pow10(key.exponent), key.rixs, key.photoemission, ReplicateCount(params["simulations"]).value,
                                  params["energy_spacing"], presets, draw).Success?
    ensures r.Success? ==>
              var sim := SimulateFromPresets(Pow10(key.exponent), key.rixs, key.photoemission,
                                             ReplicateCount(params["simulations"]).value,
                                             params["energy_spacing"], presets, draw).value;
              r.value.paxSpectra == sim.pax &&
              r.value.deconvolver.impulseX == sim.impulseResponse.x &&
              r.value.deconvolver.impulseY == sim.impulseResponse.y
    ensures r.Success? ==> r.value.deconvolver.groundTruth == presets.rixs(key.rixs, params["energy_spacing"]).y
  {
    var n :- ReplicateCount(params["simulations"]);
    var sim :- SimulateFromPresets(Pow10(key.exponent), key.rixs, key.photoemission, n, params["energy_spacing"], presets, draw)
                 .MapFailure(e => SimulationFailed(e));
    var solver := GridDeconvolver(sim.impulseResponse.x, sim.impulseResponse.y, sim.pax.x,
                                  params["regularizer_widths"], params["iterations"], sim.xray.y, params["cv_fold"]);
    Success(Bundle(solver, sim.pax))
  }

  /** `run`: merge the overrides, do the cross-validated run, and save its
      bundle at the key's path. On failure no file is written; the merge has
      happened regardless. The result is then what `load` finds under the key. */
  function Run(
    st: ModuleState, fs: FileSystem, dir: string, key: Key, overrides: Table,
    presets: Presets, draw: PoissonDraw): (res: (ModuleState, FileSystem, Result<Bundle, RunError>))
    requires HasRecognizedOptions(st.defaults)
    ensures res.0 == MergeParameters(st, overrides).0
    ensures HasRecognizedOptions(res.0.defaults)
    ensures res.2 == GridRun(res.0.defaults, key, presets, draw)
    ensures res.2.Failure? ==> res.1 == fs
    ensures res.2.Success? ==> Load(res.1, dir, key) == Success(res.2.value)
    ensures res.2.Success? ==> res.1.Keys == fs.Keys + {ResultPath(dir, key)}
    ensures res.2.Success? ==> forall p :: p in fs && p != ResultPath(dir, key) ==> res.1[p] == fs[p]
  {
    var (st', params) := MergeParameters(st, overrides);
    MergeKeepsRecognizedOptions(st, overrides);
    match GridRun(params, key, presets, draw)
    case Failure(e) => (st', fs, Failure(e))
    case Success(bundle) => (st', Save(fs, dir, key, bundle), Success(bundle))
  }
}
