/** The measurement model: the impulse response built from the photoemission
    curve, its valid-mode convolution with the RIXS curve, shot noise at a fixed
    photon budget, and the kinetic-energy axis of the result. */
module SimulatePax {
  import opened Sums
  import opened Results
  import opened SimErrors
  import opened Convolution
  import opened Parameters

  /** A sampled curve: energies `x` and intensities `y`. */
  datatype Spectrum = Spectrum(x: seq<real>, y: seq<real>)

  /** The curve invariant: one intensity per energy. */
  predicate WellFormed(s: Spectrum)
  {
    |s.x| == |s.y|
  }

  /** A simulated measurement: one kinetic-energy axis and one intensity
      sequence per replicate. */
  datatype PaxSpectra = PaxSpectra(x: seq<real>, ys: seq<seq<real>>)

  datatype Simulation = Simulation(impulseResponse: Spectrum, pax: PaxSpectra)

  /** Negates the photoemission axis (keeping its order) and reverses the
      intensities, normalised by their sum. A zero sum over a non-empty curve
      makes every normalised value NaN or infinite, reported as
      `NonFiniteKernel`. */
  function ImpulseResponse(pe: Spectrum): (r: Result<Spectrum, SimError>)
    ensures r.Failure? <==> |pe.y| > 0 && Sum(pe.y) == 0.0
    ensures r.Failure? ==> r.error == NonFiniteKernel
    ensures r.Success? ==> |r.value.x| == |pe.x|
    ensures r.Success? ==> forall i :: 0 <= i < |pe.x| ==> r.value.x[i] == -pe.x[i]
    ensures r.Success? ==> |r.value.y| == |pe.y|
    ensures r.Success? ==> forall i :: 0 <= i < |pe.y| ==> r.value.y[i] == pe.y[|pe.y| - 1 - i] / Sum(pe.y)
  {
    var x := seq(|pe.x|, i requires 0 <= i < |pe.x| => -pe.x[i]);
    var flipped := Reverse(pe.y);
    var norm := Sum(flipped);
    assert norm == Sum(pe.y) by {
      SumReversed(pe.y, flipped);
    }
    if |flipped| > 0 && norm == 0.0 then Failure(NonFiniteKernel)
    else Success(Spectrum(x, seq(|flipped|, i requires 0 <= i < |flipped| => flipped[i] / norm)))
  }

  /** The impulse response is a unit-area kernel. */
  lemma ImpulseResponseUnitSum(pe: Spectrum)
    requires |pe.y| > 0 && Sum(pe.y) != 0.0
    ensures Sum(ImpulseResponse(pe).value.y) == 1.0
  {
    var y := pe.y;
    var total := Sum(y);
    var scale := 1.0 / total;
    var kernel := ImpulseResponse(pe).value.y;
    var flipped := Reverse(y);
    SumReversed(y, flipped);
    forall i | 0 <= i < |y|
      ensures kernel[i] == flipped[i] * scale
    {
      DivideIsScale(flipped[i], total);
    }
    SumScaled(flipped, kernel, scale);
    InverseCancels(total);
  }

  lemma DivideIsScale(v: real, d: real)
    requires d != 0.0
    ensures v / d == v * (1.0 / d)
  {
  }

  lemma InverseCancels(d: real)
    requires d != 0.0
    ensures d * (1.0 / d) == 1.0
  {
  }

  /** A non-negative photoemission curve gives a non-negative kernel. */
  lemma ImpulseResponseNonNegative(pe: Spectrum)
    requires forall i :: 0 <= i < |pe.y| ==> pe.y[i] >= 0.0
    requires ImpulseResponse(pe).Success?
    ensures forall i :: 0 <= i < |pe.y| ==> ImpulseResponse(pe).value.y[i] >= 0.0
  {
    SumNonNegative(pe.y);
  }

  /** A Poisson sampler for one replicate: element index and rate to count. */
  type Sampler = (nat, real) -> nat

  /** The random stream: replicate index, element index and rate to count.
      Distinct replicate indices stand for independent draws. */
  type PoissonDraw = (nat, nat, real) -> nat

  function ReplicateSampler(draw: PoissonDraw, k: nat): Sampler
  {
    (i, rate) => draw(k, i, rate)
  }

  /** `v` is a whole, non-negative number of photons of size `photon`. */
  predicate IsPhotonMultiple(v: real, photon: real)
  {
    photon != 0.0 && v / photon >= 0.0 && (v / photon).Floor as real == v / photon
  }

  /** Every rate `data[i] / photon` is a valid Poisson mean. A zero `photon`
      makes the rates NaN or infinite, which the sampler refuses. */
  predicate RatesDefined(data: seq<real>, photon: real)
  {
    |data| == 0 || (photon != 0.0 && forall i :: 0 <= i < |data| ==> data[i] / photon >= 0.0)
  }

  /** Shot noise: each value is turned into a photon count with rate
      `data[i] / photon`, then scaled back to intensity units. */
  function ApplyPoissonNoise(data: seq<real>, photon: real, sample: Sampler): (r: Result<seq<real>, SimError>)
    ensures r.Success? <==> RatesDefined(data, photon)
    ensures r.Failure? ==> r.error == InvalidRate
    ensures r.Success? ==> |r.value| == |data|
    ensures r.Success? ==> forall i :: 0 <= i < |data| ==>
              IsPhotonMultiple(r.value[i], photon) && r.value[i] / photon == sample(i, data[i] / photon) as real
  {
    if !RatesDefined(data, photon) then Failure(InvalidRate)
    else
      var noisy := seq(|data|, i requires 0 <= i < |data| => sample(i, data[i] / photon) as real * photon);
      PhotonCountsRecovered(data, photon, sample, noisy);
      Success(noisy)
  }

  lemma PhotonCount(count: nat, photon: real)
    requires photon != 0.0
    ensures (count as real * photon) / photon == count as real
    ensures IsPhotonMultiple(count as real * photon, photon)
  {
  }

  lemma PhotonCountsRecovered(data: seq<real>, photon: real, sample: Sampler, noisy: seq<real>)
    requires |data| == 0 || photon != 0.0
    requires |noisy| == |data|
    requires forall i :: 0 <= i < |data| ==> noisy[i] == sample(i, data[i] / photon) as real * photon
    ensures forall i :: 0 <= i < |data| ==>
              IsPhotonMultiple(noisy[i], photon) && noisy[i] / photon == sample(i, data[i] / photon) as real
  {
    forall i | 0 <= i < |data|
      ensures IsPhotonMultiple(noisy[i], photon) && noisy[i] / photon == sample(i, data[i] / photon) as real
    {
      PhotonCount(sample(i, data[i] / photon), photon);
    }
  }

  function Ceil(v: real): int
  {
    -((-v).Floor)
  }

  /** `np.arange` over exact reals: the points `start + i * step` lying before
      `stop`, `ceil((stop - start) / step)` of them (none if that is negative). */
  function Arange(start: real, stop: real, step: real): (r: seq<real>)
    requires step != 0.0
    ensures |r| == Max(0, Ceil((stop - start) / step))
    ensures forall i :: 0 <= i < |r| ==> r[i] == start + i as real * step
  {
    seq(Max(0, Ceil((stop - start) / step)), i => start + i as real * step)
  }

  /** The kinetic-energy axis of the measurement: it starts at
      `xray.x[0] - pe.x[0]`, steps by the RIXS spacing, and has
      `|pe.x| - |xray.x| + 1` points. */
  function KineticEnergyAxis(xray: Spectrum, pe: Spectrum): (r: Result<seq<real>, SimError>)
    ensures r.Failure? <==> |xray.x| < 2 || |pe.x| == 0 || xray.x[1] == xray.x[0]
    ensures r.Failure? ==> (r.error == MissingAxisPoint <==> |xray.x| < 2 || |pe.x| == 0)
    ensures r.Failure? ==> r.error in {MissingAxisPoint, ZeroStep}
    ensures r.Success? ==> |r.value| == Max(0, |pe.x| - |xray.x| + 1)
    ensures r.Success? && |r.value| > 0 ==> r.value[0] == xray.x[0] - pe.x[0]
    ensures r.Success? ==> forall i :: 0 <= i < |r.value| - 1 ==> r.value[i + 1] - r.value[i] == xray.x[1] - xray.x[0]
  {
    if |xray.x| == 0 || |pe.x| == 0 || |xray.x| < 2 then Failure(MissingAxisPoint)
    else
      var first := xray.x[0] - pe.x[0];
      var spacing := xray.x[1] - xray.x[0];
      var length := |pe.x| - |xray.x| + 1;
      if spacing == 0.0 then Failure(ZeroStep)
      else
        var stop := first + length as real * spacing;
        StepCount(first, stop, length, spacing);
        Success(Arange(first, stop, spacing))
  }

  /** Running from `first` for `length` steps of `spacing` spans exactly
      `length` steps. */
  lemma StepCount(first: real, stop: real, length: int, spacing: real)
    requires spacing != 0.0 && stop == first + length as real * spacing
    ensures (stop - first) / spacing == length as real
    ensures Ceil((stop - first) / spacing) == length
  {
    assert stop - first == length as real * spacing;
  }

  /** The noiseless measurement: the RIXS intensities convolved, in valid mode,
      with the impulse response. An empty operand is refused before the
      kernel's values are looked at. */
  function Noiseless(xray: Spectrum, pe: Spectrum): (r: Result<seq<real>, SimError>)
    ensures r.Success? <==> |xray.y| > 0 && |pe.y| > 0 && Sum(pe.y) != 0.0
    ensures r.Failure? ==> r.error == (if |xray.y| == 0 || |pe.y| == 0 then EmptyOperand else NonFiniteKernel)
    ensures r.Success? ==> |r.value| == Max(|xray.y|, |pe.y|) - Min(|xray.y|, |pe.y|) + 1
    ensures r.Success? ==> forall k :: 0 <= k < |r.value| ==>
              r.value[k] == FullConvolutionAt(xray.y, ImpulseResponse(pe).value.y, k + Min(|xray.y|, |pe.y|) - 1)
  {
    var kernel := ImpulseResponse(pe);
    if |xray.y| == 0 || |pe.y| == 0 then Failure(EmptyOperand)
    else if kernel.Failure? then Failure(NonFiniteKernel)
    else
      var valid := ValidConvolve(xray.y, kernel.value.y);
      assert forall k :: 0 <= k < |valid.value| ==>
               valid.value[k] == FullConvolutionAt(xray.y, kernel.value.y, k + Min(|xray.y|, |pe.y|) - 1) by {
        forall k | 0 <= k < |valid.value|
          ensures valid.value[k] == FullConvolutionAt(xray.y, kernel.value.y, k + Min(|xray.y|, |pe.y|) - 1)
        {
          ValidIsFullOverlap(xray.y, kernel.value.y, k);
        }
      }
      valid
  }

  /** The intensity of one detected photon when `counts` photons are shared
      among `n` replicates. */
  function SinglePhoton(n: nat, noiseless: seq<real>, counts: real): real
    requires counts > 0.0
  {
    n as real * Sum(noiseless) / counts
  }

  /** The Poisson means handed to the sampler. */
  function ExpectedCounts(noiseless: seq<real>, photon: real): (r: seq<real>)
    requires photon != 0.0
    ensures |r| == |noiseless|
    ensures forall i :: 0 <= i < |r| ==> r[i] == noiseless[i] / photon
  {
    seq(|noiseless|, i requires 0 <= i < |noiseless| => noiseless[i] / photon)
  }

  /** The expected photon counts of one replicate sum to `counts / n`, so the
      `n` replicates together expect exactly `counts` photons. */
  lemma PhotonBudget(noiseless: seq<real>, n: nat, counts: real)
    requires counts > 0.0 && n > 0 && Sum(noiseless) != 0.0
    ensures SinglePhoton(n, noiseless, counts) != 0.0
    ensures Sum(ExpectedCounts(noiseless, SinglePhoton(n, noiseless, counts))) == counts / n as real
  {
    var photon := SinglePhoton(n, noiseless, counts);
    var rates := ExpectedCounts(noiseless, photon);
    forall i | 0 <= i < |noiseless|
      ensures rates[i] == noiseless[i] * (1.0 / photon)
    {
    }
    SumScaled(noiseless, rates, 1.0 / photon);
    assert Sum(noiseless) * (1.0 / photon) == counts / n as real;
  }

  /** `n` independent noisy copies of the noiseless measurement. The list
      comprehension stops at its first replicate when the rates are invalid,
      and they are invalid for every replicate alike. */
  function Replicates(noiseless: seq<real>, photon: real, n: nat, draw: PoissonDraw): (r: Result<seq<seq<real>>, SimError>)
    ensures r.Success? <==> n == 0 || RatesDefined(noiseless, photon)
    ensures r.Failure? ==> r.error == InvalidRate
    ensures r.Success? ==> |r.value| == n
    ensures r.Success? ==> forall k :: 0 <= k < n ==>
              ApplyPoissonNoise(noiseless, photon, ReplicateSampler(draw, k)) == Success(r.value[k])
  {
    if n > 0 && !RatesDefined(noiseless, photon) then Failure(InvalidRate)
    else Success(seq(n, k requires 0 <= k < n => ApplyPoissonNoise(noiseless, photon, ReplicateSampler(draw, k)).value))
  }

  /** The whole simulation: impulse response, noiseless spectrum, single-photon
      scale, `n` noisy replicates and the kinetic-energy axis, failing at the
      first step Python would raise at. */
  function Simulate(xray: Spectrum, pe: Spectrum, counts: real, n: nat, draw: PoissonDraw): (r: Result<Simulation, SimError>)
    requires counts > 0.0
    ensures (|xray.y| == 0 || |pe.y| == 0) ==> r == Failure(EmptyOperand)
    ensures |xray.y| > 0 && |pe.y| > 0 && Sum(pe.y) == 0.0 ==> r == Failure(NonFiniteKernel)
    ensures r.Success? <==>
              Noiseless(xray, pe).Success? &&
              (n == 0 || RatesDefined(Noiseless(xray, pe).value, SinglePhoton(n, Noiseless(xray, pe).value, counts))) &&
              KineticEnergyAxis(xray, pe).Success?
    ensures r.Success? ==> ImpulseResponse(pe) == Success(r.value.impulseResponse)
    ensures r.Success? ==> KineticEnergyAxis(xray, pe) == Success(r.value.pax.x)
    ensures r.Success? ==> |r.value.pax.ys| == n
    ensures r.Success? ==> forall k :: 0 <= k < n ==>
              var noiseless := Noiseless(xray, pe).value;
              ApplyPoissonNoise(noiseless, SinglePhoton(n, noiseless, counts), ReplicateSampler(draw, k))
                == Success(r.value.pax.ys[k])
    ensures r.Success? ==> forall k :: 0 <= k < n ==>
              |r.value.pax.ys[k]| == Max(|xray.y|, |pe.y|) - Min(|xray.y|, |pe.y|) + 1
    ensures r.Success? ==> forall k, i :: 0 <= k < n && 0 <= i < |r.value.pax.ys[k]| ==>
              IsPhotonMultiple(r.value.pax.ys[k][i], SinglePhoton(n, Noiseless(xray, pe).value, counts))
  {
    var noiseless :- Noiseless(xray, pe);
    var photon := SinglePhoton(n, noiseless, counts);
    var ys :- Replicates(noiseless, photon, n, draw);
    var x :- KineticEnergyAxis(xray, pe);
    Success(Simulation(ImpulseResponse(pe).value, PaxSpectra(x, ys)))
  }

  /** End to end: value `i` of replicate `k` is a Poisson draw on stream `k`
      at the rate given by full-overlap entry `i` of the RIXS curve convolved
      with the normalised, reversed photoemission curve, counted in single
      photons and scaled back to intensity units. */
  lemma SimulatedValueIsNoisyConvolution(xray: Spectrum, pe: Spectrum, counts: real, n: nat, draw: PoissonDraw, k: nat, i: nat)
    requires counts > 0.0
    requires Simulate(xray, pe, counts, n, draw).Success?
    requires k < n && i < Max(|xray.y|, |pe.y|) - Min(|xray.y|, |pe.y|) + 1
    ensures var noiseless := Noiseless(xray, pe).value;
            var photon := SinglePhoton(n, noiseless, counts);
            var mean := FullConvolutionAt(xray.y, ImpulseResponse(pe).value.y, i + Min(|xray.y|, |pe.y|) - 1);
            photon != 0.0 &&
            Simulate(xray, pe, counts, n, draw).value.pax.ys[k][i] / photon == draw(k, i, mean / photon) as real
  {
    var noiseless := Noiseless(xray, pe).value;
    var photon := SinglePhoton(n, noiseless, counts);
    var noisy := ApplyPoissonNoise(noiseless, photon, ReplicateSampler(draw, k));
    assert noisy == Success(Simulate(xray, pe, counts, n, draw).value.pax.ys[k]);
    assert noisy.value[i] / photon == ReplicateSampler(draw, k)(i, noiseless[i] / photon) as real;
  }

  /** For non-negative curves the only way the noise step can fail is a
      noiseless spectrum that sums to zero. */
  lemma NoiseFailsOnlyOnZeroSignal(xray: Spectrum, pe: Spectrum, counts: real, n: nat)
    requires counts > 0.0 && n > 0
    requires forall i :: 0 <= i < |xray.y| ==> xray.y[i] >= 0.0
    requires forall i :: 0 <= i < |pe.y| ==> pe.y[i] >= 0.0
    requires Noiseless(xray, pe).Success?
    ensures var noiseless := Noiseless(xray, pe).value;
            RatesDefined(noiseless, SinglePhoton(n, noiseless, counts)) <==> Sum(noiseless) != 0.0
  {
    var noiseless := Noiseless(xray, pe).value;
    var kernel := ImpulseResponse(pe).value.y;
    ImpulseResponseNonNegative(pe);
    ValidConvolveNonNegative(xray.y, kernel);
    SumNonNegative(noiseless);
    var photon := SinglePhoton(n, noiseless, counts);
    if Sum(noiseless) != 0.0 {
      assert photon > 0.0;
      forall i | 0 <= i < |noiseless|
        ensures noiseless[i] / photon >= 0.0
      {
      }
    }
  }

  /** When the photoemission curve is at least as long as the RIXS curve, the
      axis has exactly one point per replicate value. */
  lemma AxisAlignsWithReplicates(xray: Spectrum, pe: Spectrum, counts: real, n: nat, draw: PoissonDraw)
    requires counts > 0.0
    requires WellFormed(xray) && WellFormed(pe) && |pe.x| >= |xray.x|
    requires Simulate(xray, pe, counts, n, draw).Success?
    ensures var pax := Simulate(xray, pe, counts, n, draw).value.pax;
            forall k :: 0 <= k < |pax.ys| ==> |pax.ys[k]| == |pax.x|
  {
  }

  /** When the photoemission curve is the shorter one, the replicates still
      have `|xray| - |pe| + 1 >= 2` values but the axis formula gives no points. */
  lemma ShortPhotoemissionLeavesAxisEmpty(xray: Spectrum, pe: Spectrum, counts: real, n: nat, draw: PoissonDraw)
    requires counts > 0.0 && n > 0
    requires WellFormed(xray) && WellFormed(pe) && |pe.x| < |xray.x|
    requires Simulate(xray, pe, counts, n, draw).Success?
    ensures var pax := Simulate(xray, pe, counts, n, draw).value.pax;
            |pax.x| == 0 && |pax.ys[0]| >= 2
  {
  }

  /** `10 ** e` over exact reals. */
  function Pow10(e: int): (p: real)
    ensures p > 0.0
    decreases if e < 0 then -e else e
  {
    if e == 0 then 1.0
    else if e > 0 then 10.0 * Pow10(e - 1)
    else Pow10(e + 1) / 10.0
  }

  /** The preset curve generators, which are not part of this model: a RIXS
      curve from a preset name and an energy spacing, and a photoemission curve
      from a preset name sampled on a given energy axis. */
  datatype Presets = Presets(
    rixs: (string, ParamValue) -> Spectrum,
    photoemission: (string, seq<real>) -> Spectrum)

  /** What `simulate_from_presets` returns: the impulse response, the simulated
      measurement and the RIXS curve it was made from. */
  datatype PresetSimulation = PresetSimulation(impulseResponse: Spectrum, pax: PaxSpectra, xray: Spectrum)

  /** Resolves both presets, the photoemission curve on the RIXS curve's own
      axis, and simulates with `counts` (the caller's `10 ** exponent`). */
  function SimulateFromPresets(
    counts: real, rixs: string, photoemission: string, n: nat,
    energyLoss: ParamValue, presets: Presets, draw: PoissonDraw): (r: Result<PresetSimulation, SimError>)
    requires counts > 0.0
    ensures r.Success? ==> r.value.xray == presets.rixs(rixs, energyLoss)
    ensures var pe := presets.photoemission(photoemission, presets.rixs(rixs, energyLoss).x);
            var sim := Simulate(presets.rixs(rixs, energyLoss), pe, counts, n, draw);
            (r.Success? <==> sim.Success?) &&
            (r.Success? ==> sim.value == Simulation(r.value.impulseResponse, r.value.pax))
  {
    var xray := presets.rixs(rixs, energyLoss);
    var pe := presets.photoemission(photoemission, xray.x);
    var sim :- Simulate(xray, pe, counts, n, draw);
    Success(PresetSimulation(sim.impulseResponse, sim.pax, xray))
  }
}
