/**
 * The control logic of the HKY skyline integrator: the lazily computed HKY
 * normalising constant beta, the choice between the transition and the
 * transversion kernel, and the walk over the epochs of a piecewise-constant
 * population history that sums the kernel's closed form epoch by epoch.
 *
 * `exp` and the closed forms of the two kernels are parameters of the model
 * (function values nothing is assumed about); what is modelled is which
 * kernel is chosen with which indices, at which interval ends it is
 * evaluated, with which epoch sizes, and how the pieces are weighted and
 * summed.
 */
module HKYSkyline {
  import opened IntegratorCache

  // ---------------------------------------------------------------------
  // Substitution model and beta
  // ---------------------------------------------------------------------

  /** Nucleotide states as the frequency model orders them. */
  const A_STATE: int := 0
  const C_STATE: int := 1
  const G_STATE: int := 2
  const T_STATE: int := 3

  /** The base frequencies of the HKY model, in the order A, C, G, T. */
  datatype Frequencies = Frequencies(a: real, c: real, g: real, t: real)

  /** `frequencyModel.getFrequency(state)`. */
  function Frequency(f: Frequencies, state: int): real
    requires 0 <= state < 4
  {
    if state == A_STATE then f.a
    else if state == C_STATE then f.c
    else if state == G_STATE then f.g
    else f.t
  }

  /** The domain of the model: a positive transition/transversion ratio and positive frequencies. */
  predicate PositiveModel(kappa: real, f: Frequencies)
  {
    kappa > 0.0 && f.a > 0.0 && f.c > 0.0 && f.g > 0.0 && f.t > 0.0
  }

  /** The bracket of the normalising constant, `freqR * freqY + kappa * (freqA * freqG + freqC * freqT)`. */
  function RateBracket(kappa: real, f: Frequencies): (r: real)
    requires PositiveModel(kappa, f)
    ensures r > 0.0
  {
    var freqR := f.a + f.g;
    var freqY := f.c + f.t;
    PositiveProduct(freqR, freqY);
    PositiveProduct(f.a, f.g);
    PositiveProduct(f.c, f.t);
    PositiveProduct(kappa, f.a * f.g + f.c * f.t);
    freqR * freqY + kappa * (f.a * f.g + f.c * f.t)
  }

  lemma PositiveProduct(x: real, y: real)
    requires x > 0.0 && y > 0.0
    ensures x * y > 0.0
  {
  }

  /** The value `calculateBeta` stores in `beta`. */
  function Beta(kappa: real, f: Frequencies): (beta: real)
    requires PositiveModel(kappa, f)
    ensures beta > 0.0
  {
    1.0 / (2.0 * RateBracket(kappa, f))
  }

  /** Transitions are the substitutions within the purines (A, G) or within the pyrimidines (C, T). */
  predicate IsTransition(iState: int, jState: int)
  {
    JavaRem(iState, 2) == JavaRem(jState, 2)
  }

  /**
   * The unscaled HKY rate of the substitution x -> y: the target's
   * frequency, times kappa for a transition.
   */
  function RelativeRate(kappa: real, f: Frequencies, x: int, y: int): real
    requires 0 <= x < 4 && 0 <= y < 4
  {
    if x == y then 0.0
    else Frequency(f, y) * (if IsTransition(x, y) then kappa else 1.0)
  }

  /** The total unscaled rate of leaving state x. */
  function OutRate(kappa: real, f: Frequencies, x: int): real
    requires 0 <= x < 4
  {
    RelativeRate(kappa, f, x, A_STATE) + RelativeRate(kappa, f, x, C_STATE)
    + RelativeRate(kappa, f, x, G_STATE) + RelativeRate(kappa, f, x, T_STATE)
  }

  /** The expected unscaled substitution rate at equilibrium. */
  function MeanRate(kappa: real, f: Frequencies): real
  {
    f.a * OutRate(kappa, f, A_STATE) + f.c * OutRate(kappa, f, C_STATE)
    + f.g * OutRate(kappa, f, G_STATE) + f.t * OutRate(kappa, f, T_STATE)
  }

  /**
   * beta is the normalising constant of the HKY generator: scaled by beta,
   * the expected substitution rate at equilibrium is one, so that time is
   * measured in expected substitutions.
   */
  lemma {:induction false} BetaNormalisesRate(kappa: real, f: Frequencies)
    requires PositiveModel(kappa, f)
    ensures Beta(kappa, f) * MeanRate(kappa, f) == 1.0
  {
    var d := RateBracket(kappa, f);
    assert MeanRate(kappa, f) == 2.0 * d by {
      OutRates(kappa, f);
      MeanRateExpanded(kappa, f.a, f.c, f.g, f.t);
    }
    assert Beta(kappa, f) == 1.0 / (2.0 * d);
  }

  /** The rate of leaving each state: the other frequencies, the transition partner's weighted by kappa. */
  lemma OutRates(kappa: real, f: Frequencies)
    ensures OutRate(kappa, f, A_STATE) == f.c + kappa * f.g + f.t
    ensures OutRate(kappa, f, C_STATE) == f.a + f.g + kappa * f.t
    ensures OutRate(kappa, f, G_STATE) == kappa * f.a + f.c + f.t
    ensures OutRate(kappa, f, T_STATE) == f.a + kappa * f.c + f.g
  {
    assert IsTransition(A_STATE, G_STATE) && IsTransition(C_STATE, T_STATE);
    assert !IsTransition(A_STATE, C_STATE) && !IsTransition(A_STATE, T_STATE);
    assert !IsTransition(G_STATE, C_STATE) && !IsTransition(G_STATE, T_STATE);
  }

  lemma MeanRateExpanded(kappa: real, a: real, c: real, g: real, t: real)
    ensures a * (c + kappa * g + t) + c * (a + g + kappa * t) + g * (kappa * a + c + t) + t * (a + kappa * c + g)
            == 2.0 * ((a + g) * (c + t) + kappa * (a * g + c * t))
  {
  }

  /** `beta()` of the composite likelihood, written with the factors of 2 distributed. */
  function CompositeLikelihoodBeta(kappa: real, f: Frequencies): real
    requires PositiveModel(kappa, f)
  {
    var denominator := 2.0 * (f.a + f.g) * (f.c + f.t) + 2.0 * kappa * (f.a * f.g + f.c * f.t);
    assert denominator == 2.0 * RateBracket(kappa, f);
    1.0 / denominator
  }

  /** The composite likelihood's beta and the integrator's beta are the same constant. */
  lemma CompositeLikelihoodBetaAgrees(kappa: real, f: Frequencies)
    requires PositiveModel(kappa, f)
    ensures CompositeLikelihoodBeta(kappa, f) == Beta(kappa, f)
  {
  }

  // ---------------------------------------------------------------------
  // Kernel selection
  // ---------------------------------------------------------------------

  /** Java's `%` on `int`: truncates toward zero, so the remainder takes the sign of `a`. */
  function JavaRem(a: int, b: int): (r: int)
    requires b > 0
    ensures -b < r < b
    ensures a >= 0 ==> r == a % b
    ensures a < 0 ==> r <= 0
  {
    if a >= 0 then a % b else -((-a) % b)
  }

  /** The other purine of a purine, the other pyrimidine of a pyrimidine: `ihat = (i + 2) % 4`. */
  function TransitionPartner(i: int): int
  {
    JavaRem(i + 2, 4)
  }

  /**
   * The kernel `calculateIntegratedProbability` builds: its branch and the
   * state indices the closed form reads frequencies at.
   */
  datatype Kernel =
    | TransitionKernel(i: int, j: int, ihat: int, pm: int)
    | TransversionKernel(j: int)

  /** The kernel chosen for observed states i and j, with the index arithmetic of `transitionH`. */
  function SelectKernel(iState: int, jState: int): (k: Kernel)
    ensures k.TransitionKernel? <==> IsTransition(iState, jState)
    ensures k.TransitionKernel? ==> k.i == iState && k.j == jState
    ensures k.TransversionKernel? ==> k.j == jState
  {
    if JavaRem(iState, 2) == JavaRem(jState, 2) then
      TransitionKernel(iState, jState, TransitionPartner(iState), if iState == jState then -1 else 1)
    else
      TransversionKernel(jState)
  }

  /** For nucleotides, the transition branch is taken for equal states and for A/G and C/T pairs only. */
  lemma TransitionPairs(iState: int, jState: int)
    requires 0 <= iState < 4 && 0 <= jState < 4
    ensures SelectKernel(iState, jState).TransitionKernel? <==>
              || iState == jState
              || (iState == A_STATE && jState == G_STATE) || (iState == G_STATE && jState == A_STATE)
              || (iState == C_STATE && jState == T_STATE) || (iState == T_STATE && jState == C_STATE)
  {
  }

  /**
   * `ihat` is a different state of the same kind (purine or pyrimidine) as
   * `i`, and taking the partner twice returns to `i`; `pm` is -1 exactly
   * when the two states are equal.
   */
  lemma TransitionIndices(iState: int, jState: int)
    requires 0 <= iState < 4 && 0 <= jState < 4 && IsTransition(iState, jState)
    ensures var k := SelectKernel(iState, jState);
            && 0 <= k.ihat < 4
            && k.ihat != iState
            && IsTransition(k.ihat, iState)
            && TransitionPartner(k.ihat) == iState
            && (k.pm == -1 <==> iState == jState)
            && (k.pm == -1 || k.pm == 1)
  {
  }

  /** For nucleotides, the transition partner of a state is the other state of its transition pair. */
  lemma TransitionPartnerIsOtherOfPair(i: int)
    requires 0 <= i < 4
    ensures TransitionPartner(i) == (if i == A_STATE then G_STATE else if i == G_STATE then A_STATE
                                     else if i == C_STATE then T_STATE else C_STATE)
  {
  }

  /** Everything the closed form of a kernel reads besides `t` and `N`. */
  datatype KernelArgs = KernelArgs(kernel: Kernel, tau: real, mu: real, beta: real, kappa: real, freqs: Frequencies)

  /** `H.apply(t, N)`: the closed form, a parameter of the model. */
  type ClosedForm = (KernelArgs, real, real) -> real

  function Abs(x: real): real { if x < 0.0 then -x else x }
  function Max(x: real, y: real): real { if x >= y then x else y }

  /** `tau = |iTime - jTime|`. */
  function Tau(iTime: real, jTime: real): (tau: real)
    ensures tau >= 0.0
    ensures tau == iTime - jTime || tau == jTime - iTime
  {
    Abs(iTime - jTime)
  }

  /** `start = max(iTime, jTime)`: the integral starts at the older observation. */
  function Start(iTime: real, jTime: real): (start: real)
    ensures start >= iTime && start >= jTime
    ensures start == iTime || start == jTime
  {
    Max(iTime, jTime)
  }

  /** Swapping the observation times changes neither tau nor start. */
  lemma TauStartSwapInvariant(iTime: real, jTime: real)
    ensures Tau(jTime, iTime) == Tau(iTime, jTime)
    ensures Start(jTime, iTime) == Start(iTime, jTime)
    ensures Tau(iTime, jTime) == Start(iTime, jTime) - (if iTime <= jTime then iTime else jTime)
  {
  }

  // ---------------------------------------------------------------------
  // Piecewise-constant population history
  // ---------------------------------------------------------------------

  /**
   * A piecewise-constant population: `sizes[e]` is the size in epoch `e`
   * (`getEpochDemographic(e)`), `durations[e]` the duration of each epoch
   * but the last, which lasts forever.
   */
  datatype Demography = Demography(sizes: seq<real>, durations: seq<real>)

  predicate ValidDemography(d: Demography)
  {
    && |d.sizes| >= 1
    && |d.durations| == |d.sizes| - 1
    && forall e :: 0 <= e < |d.sizes| ==> d.sizes[e] > 0.0
  }

  /** A time or +infinity. */
  datatype Bound = Finite(value: real) | Infinite

  function Plus(x: Bound, y: Bound): Bound
  {
    if x.Finite? && y.Finite? then Finite(x.value + y.value) else Infinite
  }

  /** `getEpochDuration(e)`: +infinity for the last epoch. */
  function EpochDuration(d: Demography, e: nat): (r: Bound)
    requires ValidDemography(d) && e < |d.sizes|
    ensures r.Infinite? <==> e == |d.sizes| - 1
  {
    if e < |d.durations| then Finite(d.durations[e]) else Infinite
  }

  /** The time at which epoch e begins: the sum of the durations of the epochs before it. */
  function Boundary(d: Demography, e: nat): real
    requires e <= |d.durations|
  {
    if e == 0 then 0.0 else Boundary(d, e - 1) + d.durations[e - 1]
  }

  /** No epoch but the last has a negative duration. */
  predicate NonNegativeDurations(d: Demography)
  {
    forall x :: 0 <= x < |d.durations| ==> d.durations[x] >= 0.0
  }

  /** With no negative durations, epochs begin in order. */
  lemma {:induction false} BoundaryMonotone(d: Demography, e: nat, e': nat)
    requires NonNegativeDurations(d)
    requires e <= e' <= |d.durations|
    ensures Boundary(d, e) <= Boundary(d, e')
    decreases e' - e
  {
    if e < e' {
      BoundaryMonotone(d, e, e' - 1);
    }
  }

  /** The epoch containing `start`, searched from epoch e upward. */
  function StartEpochFrom(d: Demography, start: real, e: nat): (r: nat)
    requires ValidDemography(d) && e < |d.sizes|
    ensures e <= r < |d.sizes|
    decreases |d.sizes| - e
  {
    if e + 1 < |d.sizes| && Boundary(d, e + 1) <= start then StartEpochFrom(d, start, e + 1) else e
  }

  /** The epoch containing `start`: the first one that ends after it. */
  function StartEpoch(d: Demography, start: real): (r: nat)
    requires ValidDemography(d)
    ensures r < |d.sizes|
  {
    StartEpochFrom(d, start, 0)
  }

  /** e is the epoch containing start: no epoch up to e begins after start, and e ends after start. */
  ghost predicate ContainsStart(d: Demography, start: real, e: nat)
    requires ValidDemography(d)
  {
    && e < |d.sizes|
    && (forall x :: 0 <= x <= e ==> Boundary(d, x) <= start)
    && (e + 1 < |d.sizes| ==> start < Boundary(d, e + 1))
  }

  lemma {:induction false} StartEpochFromFinds(d: Demography, start: real, from: nat, e: nat)
    requires ValidDemography(d) && from <= e && ContainsStart(d, start, e)
    ensures StartEpochFrom(d, start, from) == e
    decreases e - from
  {
    if from < e {
      assert Boundary(d, from + 1) <= start;
      StartEpochFromFinds(d, start, from + 1, e);
    }
  }

  /** The epoch containing a start is unique, and it is the one `StartEpoch` picks. */
  lemma StartEpochCharacterised(d: Demography, start: real, e: nat)
    requires ValidDemography(d) && ContainsStart(d, start, e)
    ensures StartEpoch(d, start) == e
  {
    StartEpochFromFinds(d, start, 0, e);
  }

  // ---------------------------------------------------------------------
  // The integral, epoch by epoch
  // ---------------------------------------------------------------------

  /** The lower end of the piece of epoch e that is integrated over: `start` in the first epoch, else the epoch's start. */
  function Lower(d: Demography, start: real, e0: nat, e: nat): real
    requires e0 <= e <= |d.durations|
  {
    if e == e0 then start else Boundary(d, e)
  }

  /**
   * The variables of the main loop of `integrateIntervals`: the running
   * sum, the weight `g` (the product of the factors `exp(-width/N)` of the
   * epochs passed so far) and the lower end `previous` of the current piece.
   */
  datatype Walk = Walk(integratedP: real, g: real, previous: real)

  /**
   * The contribution of one bounded piece of size-n epoch ending at hi:
   * `g * exp(previous/N) * (H(hi, N) - H(previous, N))` is added, the
   * weight takes the factor `exp(-(hi - previous)/N)`, and the next piece
   * starts at hi.
   */
  function StepEpoch(cf: ClosedForm, exp: real -> real, args: KernelArgs, w: Walk, n: real, hi: real): Walk
    requires n != 0.0
  {
    Walk(w.integratedP + w.g * exp(w.previous / n) * (cf(args, hi, n) - cf(args, w.previous, n)),
         w.g * exp(-(hi - w.previous) / n),
         hi)
  }

  /**
   * The loop variables on reaching epoch e, having started in epoch e0 at
   * `start`: each epoch e0 .. e-1 in turn contributes its piece, with its own
   * size and ending where the next epoch begins.
   */
  function WalkTo(cf: ClosedForm, exp: real -> real, args: KernelArgs, d: Demography, start: real,
                  e0: nat, e: nat): Walk
    requires ValidDemography(d) && e0 <= e <= |d.durations|
  {
    if e == e0 then Walk(0.0, 1.0, start)
    else StepEpoch(cf, exp, args, WalkTo(cf, exp, args, d, start, e0, e - 1), d.sizes[e - 1], Boundary(d, e))
  }

  /**
   * The integral from `start` to +infinity: the bounded epochs from the one
   * holding start, minus the closing term `g * exp(lo/N) * H(lo, N)` of the
   * unbounded last epoch, with the last epoch's size.
   */
  function Integral(cf: ClosedForm, exp: real -> real, args: KernelArgs, d: Demography, start: real): real
    requires ValidDemography(d)
  {
    var w := WalkTo(cf, exp, args, d, start, StartEpoch(d, start), |d.durations|);
    w.integratedP - ClosingTerm(cf, exp, args, w, d.sizes[|d.sizes| - 1])
  }

  /** The closing term of the unbounded last epoch, of size n: `g * exp(previous/N) * H(previous, N)`. */
  function ClosingTerm(cf: ClosedForm, exp: real -> real, args: KernelArgs, w: Walk, n: real): real
    requires n != 0.0
  {
    w.g * exp(w.previous / n) * cf(args, w.previous, n)
  }

  /** On reaching epoch e, `previous` is the lower end of e's piece: start for the first epoch, else where e begins. */
  lemma WalkPreviousIsLower(cf: ClosedForm, exp: real -> real, args: KernelArgs, d: Demography, start: real,
                            e0: nat, e: nat)
    requires ValidDemography(d) && e0 <= e <= |d.durations|
    ensures WalkTo(cf, exp, args, d, start, e0, e).previous == Lower(d, start, e0, e)
  {
  }

  /**
   * When `exp` only takes positive values, the weight stays positive, and
   * when it is at most 1 on non-positive arguments and no epoch has a
   * negative duration, the weight never exceeds 1: `g` is a survival
   * probability.
   */
  lemma {:induction false} WalkWeightIsProbability(cf: ClosedForm, exp: real -> real, args: KernelArgs, d: Demography,
                                                   start: real, e: nat)
    requires ValidDemography(d) && NonNegativeDurations(d) && start >= 0.0
    requires forall x :: 0.0 < exp(x)
    requires forall x :: x <= 0.0 ==> exp(x) <= 1.0
    requires StartEpoch(d, start) <= e <= |d.durations|
    ensures var w := WalkTo(cf, exp, args, d, start, StartEpoch(d, start), e);
            0.0 < w.g <= 1.0
    decreases e
  {
    var e0 := StartEpoch(d, start);
    if e > e0 {
      WalkWeightIsProbability(cf, exp, args, d, start, e - 1);
      LowerEndsAscend(d, start, e - 1, e);
      StepKeepsProbability(cf, exp, args, WalkTo(cf, exp, args, d, start, e0, e - 1), d.sizes[e - 1], Boundary(d, e));
    }
  }

  /** One epoch's factor `exp(-(hi - previous)/N)` lies in (0, 1], so it keeps the weight in (0, 1]. */
  lemma StepKeepsProbability(cf: ClosedForm, exp: real -> real, args: KernelArgs, w: Walk, n: real, hi: real)
    requires forall x :: 0.0 < exp(x)
    requires forall x :: x <= 0.0 ==> exp(x) <= 1.0
    requires 0.0 < w.g <= 1.0 && w.previous <= hi && n > 0.0
    ensures 0.0 < StepEpoch(cf, exp, args, w, n, hi).g <= 1.0
  {
    var x := -(hi - w.previous) / n;
    NonPositiveQuotient(-(hi - w.previous), n);
    assert 0.0 < exp(x) <= 1.0;
    ProbabilityProduct(w.g, exp(x));
    assert StepEpoch(cf, exp, args, w, n, hi).g == w.g * exp(x);
  }

  lemma NonPositiveQuotient(x: real, n: real)
    requires x <= 0.0 && n > 0.0
    ensures x / n <= 0.0
  {
  }

  lemma ProbabilityProduct(p: real, q: real)
    requires 0.0 < p <= 1.0 && 0.0 < q <= 1.0
    ensures 0.0 < p * q <= 1.0
  {
    assert p * q <= 1.0 * q;
  }

  /** When start lies in the last epoch, the loop does not run: only the closing term remains, evaluated at start. */
  lemma StartInLastEpoch(cf: ClosedForm, exp: real -> real, args: KernelArgs, d: Demography, start: real)
    requires ValidDemography(d) && NonNegativeDurations(d)
    requires Boundary(d, |d.durations|) <= start
    ensures var n := d.sizes[|d.sizes| - 1];
            Integral(cf, exp, args, d, start) == -(exp(start / n) * cf(args, start, n))
  {
    var last := |d.durations|;
    forall x | 0 <= x <= last ensures Boundary(d, x) <= start {
      BoundaryMonotone(d, x, last);
    }
    StartEpochCharacterised(d, start, last);
  }

  /**
   * With no negative durations, the lower ends never decrease, and the last
   * one, where the closing term is evaluated, is max(start, start of the
   * last epoch).
   */
  lemma {:induction false} LowerEndsAscend(d: Demography, start: real, e: nat, e': nat)
    requires ValidDemography(d) && start >= 0.0 && NonNegativeDurations(d)
    requires StartEpoch(d, start) <= e <= e' <= |d.durations|
    ensures Lower(d, start, StartEpoch(d, start), e) <= Lower(d, start, StartEpoch(d, start), e')
    ensures Lower(d, start, StartEpoch(d, start), |d.durations|) == Max(start, Boundary(d, |d.durations|))
  {
    var e0 := StartEpoch(d, start);
    StartEpochContains(d, start);
    if e0 < |d.durations| {
      BoundaryMonotone(d, e0 + 1, |d.durations|);
      if e0 < e {
        BoundaryMonotone(d, e0 + 1, e);
      }
      if e < e' {
        BoundaryMonotone(d, e, e');
        if e == e0 {
          BoundaryMonotone(d, e0 + 1, e');
        }
      }
    }
  }

  /** The epoch `StartEpoch` picks contains start. */
  lemma {:induction false} StartEpochContains(d: Demography, start: real)
    requires ValidDemography(d) && start >= 0.0
    ensures ContainsStart(d, start, StartEpoch(d, start))
  {
    StartEpochFromContains(d, start, 0);
  }

  lemma {:induction false} StartEpochFromContains(d: Demography, start: real, from: nat)
    requires ValidDemography(d) && from < |d.sizes|
    requires forall x :: 0 <= x <= from ==> Boundary(d, x) <= start
    ensures ContainsStart(d, start, StartEpochFrom(d, start, from))
    decreases |d.sizes| - from
  {
    if from + 1 < |d.sizes| && Boundary(d, from + 1) <= start {
      StartEpochFromContains(d, start, from + 1);
    }
  }

  // ---------------------------------------------------------------------
  // The calculation the cache memoises
  // ---------------------------------------------------------------------

  /** What `calculateIntegratedProbability` computes for a key, under the given model. */
  function Calculation(cf: ClosedForm, exp: real -> real, kappa: real, f: Frequencies, d: Demography,
                       key: ParameterValue): real
    requires PositiveModel(kappa, f) && ValidDemography(d)
  {
    var args := KernelArgs(SelectKernel(key.iState, key.jState), Tau(key.iTime, key.jTime), key.mu,
                           Beta(kappa, f), kappa, f);
    Integral(cf, exp, args, d, Start(key.iTime, key.jTime))
  }

  /** The calculation of a key, as a function the cache can call. */
  function CalculationOf(cf: ClosedForm, exp: real -> real, kappa: real, f: Frequencies, d: Demography):
    ParameterValue --> real
  {
    key requires PositiveModel(kappa, f) && ValidDemography(d) => Calculation(cf, exp, kappa, f, d, key)
  }

  // ---------------------------------------------------------------------
  // The integrator
  // ---------------------------------------------------------------------

  class HKYSkylineIntegrator {
    /** The memo cache inherited from `Integrator`. */
    const cache: Integrator
    /** The closed forms of the kernels and `Math.exp`. */
    const closedForm: ClosedForm
    const exp: real -> real

    /** The current state of the models this integrator listens to. */
    var hkyKappa: real
    var frequencies: Frequencies
    var demography: Demography

    /** The lazily computed normalising constant and the kappa it was computed with. */
    var betaKnown: bool
    var beta: real
    var kappa: real

    ghost predicate Valid()
      reads this, cache
    {
      && PositiveModel(hkyKappa, frequencies)
      && ValidDemography(demography)
      && cache.Valid()
      && (betaKnown ==> beta == Beta(hkyKappa, frequencies) && kappa == hkyKappa)
      && forall key :: key in cache.probabilities ==>
           cache.probabilities[key] == Calculation(closedForm, exp, hkyKappa, frequencies, demography, key)
    }

    constructor (hkyKappa: real, frequencies: Frequencies, demography: Demography,
                 closedForm: ClosedForm, exp: real -> real)
      requires PositiveModel(hkyKappa, frequencies) && ValidDemography(demography)
      ensures Valid() && fresh(cache)
      ensures this.hkyKappa == hkyKappa && this.frequencies == frequencies && this.demography == demography
      ensures this.closedForm == closedForm && this.exp == exp
      ensures !betaKnown && cache.probabilities == map[]
    {
      cache := new Integrator();
      this.closedForm := closedForm;
      this.exp := exp;
      this.hkyKappa := hkyKappa;
      this.frequencies := frequencies;
      this.demography := demography;
      betaKnown := false;
    }

    /** `calculateBeta`: read kappa and the frequencies and store the normalising constant. */
    method CalculateBeta()
      requires PositiveModel(hkyKappa, frequencies)
      modifies this
      ensures hkyKappa == old(hkyKappa) && frequencies == old(frequencies) && demography == old(demography)
      ensures betaKnown && kappa == hkyKappa && beta == Beta(hkyKappa, frequencies)
    {
      kappa := hkyKappa;
      var freqA := frequencies.a;
      var freqC := frequencies.c;
      var freqG := frequencies.g;
      var freqT := frequencies.t;
      var freqR := freqA + freqG;
      var freqY := freqC + freqT;
      var bracket := freqR * freqY + kappa * (freqA * freqG + freqC * freqT);
      assert bracket == RateBracket(hkyKappa, frequencies);
      beta := 1.0 / (2.0 * bracket);
      betaKnown := true;
    }

    /**
     * `integrateIntervals`: find the epoch holding `start`, add the
     * contribution of each bounded epoch from there on, and subtract the
     * closing term of the last epoch.
     */
    method IntegrateIntervals(args: KernelArgs, start: real) returns (integratedP: real)
      requires ValidDemography(demography) && start >= 0.0
      ensures integratedP == Integral(closedForm, exp, args, demography, start)
    {
      var d := demography;
      var m := |d.sizes|;
      var k, current := FindStartEpoch(d, start);
      var g, previous;
      var cf, ex := closedForm, exp;
      integratedP, g, previous := SumBoundedEpochs(cf, ex, args, d, start, k, current);
      var n := d.sizes[m - 1];
      integratedP := integratedP - ClosingTerm(cf, ex, args, Walk(integratedP, g, previous), n);
    }

    /**
     * `calculateIntegratedProbability`: make sure beta is known, choose the
     * kernel for the two states, and integrate it from the older time.
     */
    method CalculateIntegratedProbability(iState: int, iTime: real, jState: int, jTime: real, mu: real)
      returns (p: real)
      requires Valid() && Max(iTime, jTime) >= 0.0
      modifies this
      ensures Valid() && betaKnown
      ensures hkyKappa == old(hkyKappa) && frequencies == old(frequencies) && demography == old(demography)
      ensures p == Calculation(closedForm, exp, hkyKappa, frequencies, demography,
                               ParameterValue(iState, iTime, jState, jTime, mu))
    {
      if !betaKnown {
        CalculateBeta();
      }
      var tau := Abs(iTime - jTime);
      var kernel;
      if JavaRem(iState, 2) == JavaRem(jState, 2) {
        kernel := TransitionKernel(iState, jState, TransitionPartner(iState), if iState == jState then -1 else 1);
      } else {
        kernel := TransversionKernel(jState);
      }
      var args := KernelArgs(kernel, tau, mu, beta, kappa, frequencies);
      p := IntegrateIntervals(args, Max(iTime, jTime));
    }

    /**
     * The inherited `integratedProbability`, with its call of
     * `calculateIntegratedProbability` dispatched to this class: a hit
     * returns the cached value and changes nothing; a miss computes beta if
     * it is unknown, caches exactly the calculation of this call and returns
     * it. Every cached value is the calculation under the current models.
     */
    method IntegratedProbability(iState: int, iTime: real, jState: int, jTime: real, mu: real)
      returns (p: real)
      requires Valid() && Max(iTime, jTime) >= 0.0
      modifies this, cache
      ensures Valid()
      ensures hkyKappa == old(hkyKappa) && frequencies == old(frequencies) && demography == old(demography)
      ensures var key := ParameterValue(iState, iTime, jState, jTime, mu);
              && ContainsKey(cache.probabilities, key)
              && p == Get(cache.probabilities, key)
              && (old(ContainsKey(cache.probabilities, key)) ==>
                    cache.probabilities == old(cache.probabilities) && betaKnown == old(betaKnown))
              && (!old(ContainsKey(cache.probabilities, key)) ==>
                    && betaKnown
                    && p == Calculation(closedForm, exp, hkyKappa, frequencies, demography, key)
                    && cache.probabilities == old(cache.probabilities)[key := p])
              && (p == Calculation(closedForm, exp, hkyKappa, frequencies, demography, key)
                  || p == Calculation(closedForm, exp, hkyKappa, frequencies, demography, Swapped(key)))
    {
      var value := ParameterValue(iState, iTime, jState, jTime, mu);
      if !ContainsKey(cache.probabilities, value) {
        var q := CalculateIntegratedProbability(iState, iTime, jState, jTime, mu);
        cache.Put(value, q);
      }
      p := Get(cache.probabilities, value);
    }

    /** `handleModelChangedEvent`: the substitution or population model changed. */
    method HandleModelChangedEvent()
      requires PositiveModel(hkyKappa, frequencies) && ValidDemography(demography)
      modifies this, cache
      ensures Valid() && !betaKnown && cache.probabilities == map[]
      ensures hkyKappa == old(hkyKappa) && frequencies == old(frequencies) && demography == old(demography)
    {
      cache.HandleModelChangedEvent();
      betaKnown := false;
    }

    /** `handleVariableChangedEvent`: a parameter of a listened-to model changed. */
    method HandleVariableChangedEvent()
      requires PositiveModel(hkyKappa, frequencies) && ValidDemography(demography)
      modifies this, cache
      ensures Valid() && !betaKnown && cache.probabilities == map[]
      ensures hkyKappa == old(hkyKappa) && frequencies == old(frequencies) && demography == old(demography)
    {
      cache.HandleVariableChangedEvent();
      betaKnown := false;
    }

    /** `storeState`: nothing to store. */
    method StoreState()
      requires Valid()
      ensures Valid()
    {
    }

    /** `restoreState`: the proposal was rejected; forget the cache and beta. */
    method RestoreState()
      requires PositiveModel(hkyKappa, frequencies) && ValidDemography(demography)
      modifies this, cache
      ensures Valid() && !betaKnown && cache.probabilities == map[]
      ensures hkyKappa == old(hkyKappa) && frequencies == old(frequencies) && demography == old(demography)
    {
      cache.RestoreState();
      betaKnown := false;
    }

    /** `acceptState`: nothing to do. */
    method AcceptState()
      requires Valid()
      ensures Valid()
    {
    }

    /**
     * A change of kappa or the frequencies, followed by the event the
     * substitution model fires: afterwards every cached value and beta
     * (once recomputed) agree with the new model.
     */
    method SetSubstitutionModel(newKappa: real, newFrequencies: Frequencies)
      requires Valid() && PositiveModel(newKappa, newFrequencies)
      modifies this, cache
      ensures Valid() && !betaKnown && cache.probabilities == map[]
      ensures hkyKappa == newKappa && frequencies == newFrequencies && demography == old(demography)
    {
      hkyKappa := newKappa;
      frequencies := newFrequencies;
      HandleModelChangedEvent();
    }

    /** A change of the population history, followed by the event the population model fires. */
    method SetDemography(newDemography: Demography)
      requires Valid() && ValidDemography(newDemography)
      modifies this, cache
      ensures Valid() && !betaKnown && cache.probabilities == map[]
      ensures hkyKappa == old(hkyKappa) && frequencies == old(frequencies) && demography == newDemography
    {
      demography := newDemography;
      HandleModelChangedEvent();
    }
  }

  /**
   * The main loop of `integrateIntervals`: from the epoch holding `start`,
   * add the contribution of each bounded epoch, scaling the weight `g` by
   * the survival through it and moving `previous` to its end.
   */
  method SumBoundedEpochs(cf: ClosedForm, exp: real -> real, args: KernelArgs, d: Demography, start: real,
                          k: nat, current: Bound)
    returns (integratedP: real, g: real, previous: real)
    requires ValidDemography(d) && 1 <= k <= |d.sizes|
    requires k < |d.sizes| ==> current == Finite(Boundary(d, k))
    ensures Walk(integratedP, g, previous) == WalkTo(cf, exp, args, d, start, k - 1, |d.durations|)
  {
    var m := |d.sizes|;
    ghost var e0: nat := k - 1;
    previous := start;
    g := 1.0;
    integratedP := 0.0;
    var current := current;
    var i := k;
    while i < m
      invariant k <= i <= m
      invariant i < m ==> current == Finite(Boundary(d, i))
      invariant Walk(integratedP, g, previous) == WalkTo(cf, exp, args, d, start, e0, i - 1)
    {
      // one epoch's update of integratedP, g and previous
      var next := StepEpoch(cf, exp, args, Walk(integratedP, g, previous), d.sizes[i - 1], current.value);
      assert next == WalkTo(cf, exp, args, d, start, e0, i);
      integratedP, g, previous := next.integratedP, next.g, next.previous;
      current := Plus(current, EpochDuration(d, i));
      i := i + 1;
    }
  }

  /**
   * The search loop of `integrateIntervals`: the first k whose epochs
   * 0 .. k-1 end after `start`, with `current` the end of epoch k-1.
   */
  method FindStartEpoch(d: Demography, start: real) returns (k: nat, current: Bound)
    requires ValidDemography(d) && start >= 0.0
    ensures 1 <= k <= |d.sizes|
    ensures k - 1 == StartEpoch(d, start)
    ensures k < |d.sizes| ==> current == Finite(Boundary(d, k))
  {
    var m := |d.sizes|;
    k := 0;
    current := Finite(0.0);
    while current.Finite? && current.value <= start
      invariant k <= m
      invariant k < m ==> current == Finite(Boundary(d, k))
      invariant k == m ==> current == Infinite
      invariant forall x :: 0 <= x < k ==> Boundary(d, x) <= start
      decreases m - k
    {
      current := Plus(current, EpochDuration(d, k));
      k := k + 1;
    }
    StartEpochCharacterised(d, start, k - 1);
  }
}
