/** The deconvolution solvers as the orchestration constructs them. Their
    algorithms and fitted state are not part of this model: a solver is the
    record of the arguments it was built with. */
module Solvers {
  import opened Parameters

  /** The arguments both iterative variants share: impulse-response axis and
      intensities, measurement axis, iteration budget, ground-truth RIXS
      intensities and the held-out validation curve. */
  datatype Setup = Setup(
    impulseX: seq<real>,
    impulseY: seq<real>,
    paxX: seq<real>,
    iterations: ParamValue,
    groundTruth: seq<real>,
    validation: seq<real>)

  /** The unregularised solver, or the regularised one with its width and its
      logging switch. */
  datatype Deconvolver =
    | Unregularised(setup: Setup)
    | Regularised(setup: Setup, width: real, logging: bool)

  /** One `fit` call: a solver and the replicate matrix, one row per replicate. */
  datatype Fit = Fit(deconvolver: Deconvolver, data: seq<seq<real>>)

  /** The cross-validated grid-search solver, with its arguments in the order
      they are passed. */
  datatype GridDeconvolver = GridDeconvolver(
    impulseX: seq<real>,
    impulseY: seq<real>,
    paxX: seq<real>,
    regularizerWidths: ParamValue,
    iterations: ParamValue,
    groundTruth: seq<real>,
    cvFold: ParamValue)
}
