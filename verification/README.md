# PAX simulation model

A Dafny model of the core of a PAX simulation package, plus proofs about it. The package
synthesises noisy measured spectra from a RIXS source curve and a
photoemission broadening curve. It then drives an external deconvolution
solver, either over a grid of regularisation widths (the convergence study)
or through a cross-validated grid search whose result is saved to disk.

Two source files are modelled.

- `pax_deconvolve/pax_simulations/simulate_pax.py` covers the measurement:
  - the impulse response: the photoemission axis negated, its intensities
    reversed and normalised to unit sum;
  - the valid-mode convolution of the RIXS intensities with that kernel;
  - the single-photon scale that shares a fixed count budget among the
    replicates;
  - Poisson shot noise, drawn through an abstract oracle;
  - the kinetic-energy axis.
- `pax_simulations/run_analyze_save_load.py` covers the orchestration:
  - the default parameter table, which every call mutates in place;
  - the convergence grid, which always gets a leading zero;
  - the dispatch between the unregularised and the regularised solver;
  - the mean of the validation replicates;
  - the result path derived from the key, with save and load.

Intensities and energies are exact `real`s. Curves are `Spectrum(x, y)`
records. Python exceptions become `Failure` values of a `Result`.

Modules:

- `Results`: the `Result` type.
- `Sums`: sums over sequences and integer ranges, with their lemmas.
- `SimErrors`: the ways a simulation fails.
- `Convolution`: the valid-mode convolution and the full-convolution
  reference it is proved against.
- `SimulatePax`: the measurement model.
- `Parameters`: the default table and the merge.
- `Solvers`: records of the solver constructor calls.
- `ResultStore`: the file path, save and load.
- `RunAnalyze`: the convergence study and the cross-validated run.

Three external things are parameters of the model:

- The Poisson generator is a function `(replicate, element, rate) -> nat`.
  Distinct replicate indices stand for independent draws. The validation
  simulation is given a second, separate generator.
- The preset curve generators are the two functions of a `Presets` record.
- The results directory is a string argument.

Points of behaviour worth knowing, all modelled as the code has them:

- A photoemission curve whose intensities sum to zero does not raise. NumPy
  divides by zero and returns NaN/Inf intensities, reported here as
  `NonFiniteKernel`.
- The zero width is prepended to the convergence grid unconditionally, so a
  zero already in the grid appears twice.
- `DEFAULT_PARAMETERS` is shared and updated in place by every `run` and
  `assess_convergence` call, so overrides persist into later calls. The
  model keeps this as explicit module state.
- The ground truth that `assess_convergence` passes to the solvers comes
  from the validation simulation, because `xray_xy` is rebound on line 42.
  Since the presets are pure functions of their arguments, this is the same
  curve as the primary one.

## Model

| member | source | states |
|---|---|---|
| SimulatePax.ImpulseResponse | pax_deconvolve/pax_simulations/simulate_pax.py:45-52 | the kernel axis is the photoemission axis negated in place, with the same length and no reordering; kernel value `i` is photoemission value `n-1-i` divided by the photoemission sum, even though the code normalises by the sum of the reversed array; it fails exactly when a non-empty curve sums to zero |
| SimulatePax.ImpulseResponseUnitSum | pax_deconvolve/pax_simulations/simulate_pax.py:49-51 | for a non-empty curve with non-zero sum, the kernel sums to exactly 1 |
| SimulatePax.ImpulseResponseNonNegative | pax_deconvolve/pax_simulations/simulate_pax.py:49-51 | non-negative photoemission intensities give non-negative kernel values |
| Convolution.ValidConvolve | pax_deconvolve/pax_simulations/simulate_pax.py:33-35 | valid-mode convolution has `max(la, lb) - min(la, lb) + 1` entries; an empty operand is refused, and only an empty operand |
| Convolution.ValidIsFullOverlap | pax_deconvolve/pax_simulations/simulate_pax.py:33-35 | entry `k` of the valid convolution (a sliding dot product with the reversed shorter operand) equals entry `k + min - 1` of the full convolution `sum_i a[i] b[n-i]`, i.e. the positions of full overlap |
| Convolution.FullConvolutionCommutes | pax_deconvolve/pax_simulations/simulate_pax.py:33-35 | the full convolution is symmetric in its operands, which justifies swapping them so the longer comes first |
| Convolution.ValidConvolveCommutes | pax_deconvolve/pax_simulations/simulate_pax.py:33-35 | the valid convolution gives the same result whichever operand is the RIXS curve |
| Convolution.ValidConvolveNonNegative | pax_deconvolve/pax_simulations/simulate_pax.py:33-35 | non-negative operands give a non-negative noiseless spectrum |
| SimulatePax.Noiseless | pax_deconvolve/pax_simulations/simulate_pax.py:32-35 | the noiseless spectrum exists exactly when both curves are non-empty and the photoemission sum is non-zero, an empty operand being reported before a degenerate kernel; it has the valid-mode length, and entry `k` is the full convolution of the RIXS intensities with the impulse response at the full-overlap index `k + min - 1` |
| SimulatePax.ApplyPoissonNoise | pax_deconvolve/pax_simulations/simulate_pax.py:54-62 | noise fails exactly when some rate `data[i] / single_photon` is negative or not finite; otherwise every output value is a whole, non-negative number of photons times `single_photon`, that number being the sampler's draw at that rate |
| SimulatePax.PhotonBudget | pax_deconvolve/pax_simulations/simulate_pax.py:36-37 | with `single_photon = n * sum(noiseless) / counts`, the Poisson means of one replicate sum to `counts / n`, so the `n` replicates together expect `counts` photons |
| SimulatePax.Replicates | pax_deconvolve/pax_simulations/simulate_pax.py:37 | exactly `n` replicates, replicate `k` being the noise applied with the `k`-th independent draw; zero replicates never fail |
| SimulatePax.KineticEnergyAxis | pax_deconvolve/pax_simulations/simulate_pax.py:64-73 | the axis has `max(0, len(pe.x) - len(xray.x) + 1)` points, starts at `xray.x[0] - pe.x[0]` and steps by `xray.x[1] - xray.x[0]`; too-short axes and a zero step are refused |
| SimulatePax.Simulate | pax_deconvolve/pax_simulations/simulate_pax.py:29-43 | it succeeds exactly when the noiseless spectrum exists, the Poisson rates are valid (or there are no replicates) and the axis exists; empty curves and a zero photoemission sum fail first; the result carries the impulse response and the axis, and replicate `k` is the noise applied to the noiseless spectrum at `single_photon = n * sum / counts` with the `k`-th draw |
| SimulatePax.SimulatedValueIsNoisyConvolution | pax_deconvolve/pax_simulations/simulate_pax.py:32-37 | value `i` of replicate `k`, counted in single photons, is the `k`-th draw at the rate given by full-overlap entry `i` of the RIXS curve convolved with the impulse response, divided by `single_photon` |
| SimulatePax.NoiseFailsOnlyOnZeroSignal | pax_deconvolve/pax_simulations/simulate_pax.py:36-37 | for non-negative curves and at least one replicate, the Poisson rates are valid exactly when the noiseless spectrum does not sum to zero |
| SimulatePax.AxisAlignsWithReplicates | pax_deconvolve/pax_simulations/simulate_pax.py:33-43 | when the photoemission curve is at least as long as the RIXS curve, every replicate has one value per axis point |
| SimulatePax.ShortPhotoemissionLeavesAxisEmpty | pax_deconvolve/pax_simulations/simulate_pax.py:69-72 | when the photoemission curve is shorter, the replicates have at least two values but the axis has none |
| SimulatePax.Pow10 | pax_deconvolve/pax_simulations/simulate_pax.py:18 | the count budget `10 ** exponent` is positive for every integer exponent |
| SimulatePax.SimulateFromPresets | pax_deconvolve/pax_simulations/simulate_pax.py:15-27 | the photoemission preset is resolved on the RIXS curve's own axis; the call succeeds exactly when that simulation does, and returns its impulse response and spectra together with the RIXS curve |
| Parameters.DefaultParameters | pax_simulations/run_analyze_save_load.py:21-27 | the default table holds exactly the five recognised options, with a positive integer replicate count, a fold count above one, and a width array that holds no zero |
| Parameters.Update | pax_simulations/run_analyze_save_load.py:34 | after the update every override key has the override value and every other key keeps its value |
| Parameters.MergeParameters | pax_simulations/run_analyze_save_load.py:33-34 | the table a call reads is the module default table afterwards (aliasing); it has the union of the keys, with override values winning |
| Parameters.OverridesOutliveTheirCall | pax_simulations/run_analyze_save_load.py:81-82 | an override given to one call is still in force in a later call that does not repeat the key |
| Parameters.MergeKeepsRecognizedOptions | pax_simulations/run_analyze_save_load.py:33-34 | a merge never removes a recognised option |
| RunAnalyze.ReplicateCount | pax_deconvolve/pax_simulations/simulate_pax.py:37 | `range(simulations)` accepts exactly integer values and yields `simulations` replicates, none for a negative count |
| RunAnalyze.ConvergenceGrid | pax_simulations/run_analyze_save_load.py:50-51 | the grid has one more element than the option; element 0 is zero and element `i+1` is option element `i` |
| RunAnalyze.ZeroPrependedEvenIfPresent | pax_simulations/run_analyze_save_load.py:51 | the grid is the option plus one extra zero as a multiset, so a zero already present is duplicated |
| RunAnalyze.DefaultGridHasOneZero | pax_simulations/run_analyze_save_load.py:50-51 | with the default widths the convergence grid holds exactly one zero, so the unregularised solver runs once |
| RunAnalyze.RunSingleDeconvolver | pax_simulations/run_analyze_save_load.py:54-74 | the unregularised solver is chosen if and only if the width is zero; otherwise the regularised one carries that width with logging on; both get the same setup |
| RunAnalyze.ReplicateMean | pax_simulations/run_analyze_save_load.py:49 | the mean exists exactly when there is at least one replicate, has the replicate length, and value `i` times the replicate count is the sum of column `i` |
| RunAnalyze.MeanOfIdenticalReplicates | pax_simulations/run_analyze_save_load.py:49 | the mean of identical replicates is that replicate |
| RunAnalyze.MeanWithinBounds | pax_simulations/run_analyze_save_load.py:49 | each mean value lies within the bounds of its column |
| RunAnalyze.StudySimulations | pax_simulations/run_analyze_save_load.py:35-49 | it succeeds exactly when the replicate count is a positive integer and both preset simulations succeed; the primary one is the simulation at `10 ** exponent` with the main draws, the validation one at the validation budget with its own draws; the validation curve is the element-wise mean of the validation replicates and has the length of every primary replicate |
| RunAnalyze.ConvergenceFits | pax_simulations/run_analyze_save_load.py:35-52 | the study makes its fits exactly when both simulations and the mean succeed, and otherwise reports their error; one fit per grid element in grid order, the first unregularised; fit `i+1` is the dispatch of option width `i`; all fits share setup and data; the data is the primary replicates; the setup carries the primary impulse response and axis, the configured iterations, the preset ground truth and the mean of the validation replicates |
| RunAnalyze.AssessConvergence | pax_simulations/run_analyze_save_load.py:29-52 | the module defaults are left merged with the overrides; the fits are those of the convergence study on the merged table, made whenever its simulations succeed: one more than there are widths, the first unregularised and fit `i+1` dispatched on width `i` |
| RunAnalyze.GridRun | pax_simulations/run_analyze_save_load.py:83-99 | it succeeds exactly when the replicate count is an integer and the simulation at `10 ** exponent` succeeds; the bundle holds that simulation's spectra; the grid-search solver gets its impulse response and axis, the preset RIXS intensities as ground truth, and the configured widths (no zero added), fold count and iterations |
| RunAnalyze.Run | pax_simulations/run_analyze_save_load.py:78-110 | the defaults are merged whatever the outcome; the result is the grid run on the merged table; on failure no file is written; on success loading the key returns the saved bundle and every other file is unchanged |
| ResultStore.ResultPathFields | pax_simulations/run_analyze_save_load.py:132-138 | in the path, the directory and a slash come first, then the photoemission name, an underscore, the RIXS name, `_rixs_1E`, the exponent's decimal text, and `.pickle` last, each at the stated slice |
| ResultStore.IntTextInjective | pax_simulations/run_analyze_save_load.py:133-137 | distinct integer exponents are written as distinct texts |
| ResultStore.ResultPathInjective | pax_simulations/run_analyze_save_load.py:132-138 | for preset names without underscores, equal paths mean equal keys |
| ResultStore.UnderscoreNamesCollide | pax_simulations/run_analyze_save_load.py:132-138 | with underscores in preset names, two different keys share a path |
| ResultStore.Save | pax_simulations/run_analyze_save_load.py:107-109 | saving writes the bundle at the key's path, replacing any earlier file there, and leaves other paths alone |
| ResultStore.Load | pax_simulations/run_analyze_save_load.py:115-118 | loading succeeds exactly when a file exists at the key's path and returns that file's bundle; otherwise it reports that path as missing |
| ResultStore.LoadAfterSave | pax_simulations/run_analyze_save_load.py:107-117 | `run` and `load` derive the same path from the same key, so loading returns the bundle last saved under it |
| ResultStore.SaveKeepsOtherKeys | pax_simulations/run_analyze_save_load.py:107-117 | for preset names without underscores, saving under one key does not change what loading another key returns |

## Left out

- Poisson sampling is an oracle. The model does not capture the Poisson
  distribution or the independence of draws beyond giving each replicate
  its own stream index.
- Floating point is replaced by exact reals throughout:
  - there is no rounding in the normalisation, in `single_photon` or in
    `np.arange`, whose float stop can add or drop a point;
  - there is no NaN/Inf arithmetic; the places NumPy would produce such
    values are failures;
  - the Poisson sampler's upper limit on the rate is not modelled.
- The FFT path of `scipy.signal.convolve` is replaced by the direct sum. It
  computes the same values up to rounding.
- `10 ** exponent` is exact for an integer exponent. The validation budget
  `10 ** (exponent - 0.33)` is irrational, so it is a positive argument of
  the study.
- `np.logspace(-3, -1, 10)` has irrational interior values, so the default
  width grid is an argument of `DefaultParameters`. Only its length, its
  end points `0.001` and `0.1`, positivity, order and geometric spacing are
  stated.
- The preset curve generators (`model_rixs`, `model_photoemission`) are
  external. They are arbitrary functions here, and unknown preset names are
  not modelled.
- The solvers (`LRDeconvolve`, `LRFisterDeconvolve`, `LRFisterGrid`), their
  `fit` algorithms, fitted state, cross-validation and diagnostic logging
  are not modelled. A solver is the record of its constructor arguments,
  and a fit is the pair of solver and data matrix.
- The `joblib` fan-out runs its tasks one worker at a time. It is modelled
  as the ordered sequence of fits.
- Pickling, file handles, plotting and `print_parameters` (a `pprint` of a
  loaded bundle) are I/O. The file system is a map from path to bundle, and
  serialisation is assumed exact.
- The default keyword arguments `rixs='schlappa'` and `photoemission='ag'`
  are not modelled. Every key names its presets explicitly.
- The default arguments `num_simulations=1` of `simulate` and
  `single_photon=1.0` of `_apply_poisson_noise` are not modelled. Every
  caller in these files passes both explicitly.
- Python's `str` of a float exponent is not modelled. Result keys have
  integer exponents.
- RunAnalyze.ReplicateCount: a non-integer replicate count is reported
  before any simulation error. In Python, an empty convolution operand
  would be raised first.
- SimulatePax.Simulate: when the photoemission sum is zero but there are no
  replicates, Python returns NaN values without raising. The model reports
  a failure in that case too.
