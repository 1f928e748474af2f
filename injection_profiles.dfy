/**
 * The three injection profiles: pure maps from run progress (in percent) to the
 * fraction of the configured clients that should be active.  Doubles are
 * modelled as `real`; rounding is not modelled.
 */
module InjectionProfiles {

  /**
   * Java's `(int)` cast of a double: truncation toward zero.  (The cast also
   * saturates at the bounds of `int`; that is not modelled.)
   */
  function Trunc(x: real): (k: int)
    ensures 0.0 <= x ==> k as real <= x < k as real + 1.0
    ensures x < 0.0 ==> k as real - 1.0 < x <= k as real
  {
    if x >= 0.0 then x.Floor else -((-x).Floor)
  }

  /** Truncation is non-decreasing. */
  lemma TruncMonotone(x: real, y: real)
    requires x <= y
    ensures Trunc(x) <= Trunc(y)
  {
  }

  /** Truncation leaves whole numbers unchanged. */
  lemma TruncOfInt(n: int)
    ensures Trunc(n as real) == n
  {
  }

  /** The profiles the load tester offers (the classes implementing InjectionProfile). */
  datatype InjectionProfile =
    | BigBang                                     // BigBangInjectionProfile
    | IncreasingClients                           // IncreasingClientsInjectionProfile
    | IncreasingClientsWithStep(numberOfSteps: nat) // IncreasingClientsWithStepInjectionProfile

  /** BigBangInjectionProfile.getValue: full load from the first moment on. */
  function BigBangValue(progressInPercentage: real): (r: real)
    ensures r == 1.0
  {
    1.0
  }

  /** IncreasingClientsInjectionProfile.getValue: a linear ramp. */
  function IncreasingValue(progressInPercentage: real): (r: real)
    ensures r * 100.0 == progressInPercentage
  {
    progressInPercentage / 100.0
  }

  /** The step index `(int)((p / 100) * (N + 1))` of the stepped ramp. */
  function Step(numberOfSteps: nat, progressInPercentage: real): int
  {
    Trunc((progressInPercentage / 100.0) * (numberOfSteps + 1) as real)
  }

  /** The k-th of the N + 2 levels the stepped ramp can produce. */
  function Level(numberOfSteps: nat, k: int): real
  {
    k as real / (numberOfSteps + 1) as real
  }

  /** IncreasingClientsWithStepInjectionProfile.getValue: the step index scaled back by N + 1. */
  function SteppedValue(numberOfSteps: nat, progressInPercentage: real): (r: real)
    ensures r * (numberOfSteps + 1) as real == Step(numberOfSteps, progressInPercentage) as real
  {
    Level(numberOfSteps, Step(numberOfSteps, progressInPercentage))
  }

  /** InjectionProfile.getValue, dispatched on the profile in use. */
  function Value(profile: InjectionProfile, progressInPercentage: real): (r: real)
    ensures profile.BigBang? ==> r == 1.0
    ensures profile.IncreasingClients? ==> r * 100.0 == progressInPercentage
    ensures profile.IncreasingClientsWithStep? ==>
      r * (profile.numberOfSteps + 1) as real == Step(profile.numberOfSteps, progressInPercentage) as real
  {
    match profile
    case BigBang => BigBangValue(progressInPercentage)
    case IncreasingClients => IncreasingValue(progressInPercentage)
    case IncreasingClientsWithStep(n) => SteppedValue(n, progressInPercentage)
  }

  // ---------------------------------------------------------------------------
  // Constant profile
  // ---------------------------------------------------------------------------

  /** The constant profile ignores its input, and its value lies in [0, 1]. */
  lemma BigBangConstant(p: real, q: real)
    ensures BigBangValue(p) == BigBangValue(q) == 1.0
    ensures 0.0 <= BigBangValue(p) <= 1.0
  {
  }

  // ---------------------------------------------------------------------------
  // Linear profile
  // ---------------------------------------------------------------------------

  /** The linear ramp starts at 0, reaches 1 at 100 percent, and stays in [0, 1] in between. */
  lemma IncreasingEndpointsAndRange(p: real)
    ensures IncreasingValue(0.0) == 0.0 && IncreasingValue(100.0) == 1.0
    ensures 0.0 <= p <= 100.0 ==> 0.0 <= IncreasingValue(p) <= 1.0
  {
  }

  /** The linear ramp is strictly increasing. */
  lemma IncreasingStrictlyMonotone(p: real, q: real)
    requires p < q
    ensures IncreasingValue(p) < IncreasingValue(q)
  {
  }

  /** There is no clamping: progress beyond 100 percent asks for more than full load. */
  lemma IncreasingNotClamped(p: real)
    requires p > 100.0
    ensures IncreasingValue(p) > 1.0
  {
  }

  // ---------------------------------------------------------------------------
  // Stepped profile
  // ---------------------------------------------------------------------------

  /** Scaling progress by the positive factor N + 1 keeps its order. */
  lemma ScaleMonotone(n: nat, p: real, q: real)
    requires p <= q
    ensures (p / 100.0) * (n + 1) as real <= (q / 100.0) * (n + 1) as real
  {
    var f := (n + 1) as real;
    assert p / 100.0 <= q / 100.0;
    assert (q / 100.0 - p / 100.0) * f >= 0.0;
  }

  /** For progress in [0, 100] the step index lies in [0, N + 1]. */
  lemma {:induction false} StepBounds(n: nat, p: real)
    requires 0.0 <= p <= 100.0
    ensures 0 <= Step(n, p) <= n + 1
    ensures p < 100.0 ==> Step(n, p) <= n
  {
    var f := (n + 1) as real;
    var x := (p / 100.0) * f;
    ScaleMonotone(n, 0.0, p);
    ScaleMonotone(n, p, 100.0);
    assert (100.0 / 100.0) * f == f;
    assert 0.0 <= x <= f;
    var k := Step(n, p);
    assert k == Trunc(x);
    assert k as real <= x < k as real + 1.0;
    if p < 100.0 {
      assert x < f by {
        assert (1.0 - p / 100.0) * f > 0.0;
      }
    }
  }

  /** Dividing by the positive N + 1 keeps the order of step indices. */
  lemma LevelMonotone(n: nat, j: int, k: int)
    requires j <= k
    ensures Level(n, j) <= Level(n, k)
  {
    var f := (n + 1) as real;
    assert Level(n, k) - Level(n, j) == (k - j) as real / f;
  }

  /** `getValue(p) = trunc(p/100 * (N+1)) / (N+1)`, with the truncation characterised exactly. */
  lemma SteppedValueIsQuantised(n: nat, p: real)
    requires 0.0 <= p
    ensures SteppedValue(n, p) * (n + 1) as real == Step(n, p) as real
    ensures Step(n, p) as real <= (p / 100.0) * (n + 1) as real < Step(n, p) as real + 1.0
  {
    ScaleMonotone(n, 0.0, p);
  }

  /** At zero progress the stepped ramp asks for no load. */
  lemma SteppedAtZero(n: nat)
    ensures SteppedValue(n, 0.0) == 0.0
  {
  }

  /** While the run is in progress the stepped ramp stays in [0, N/(N+1)]: full load is never asked for. */
  lemma SteppedBelowFull(n: nat, p: real)
    requires 0.0 <= p < 100.0
    ensures 0.0 <= SteppedValue(n, p) <= Level(n, n)
    ensures SteppedValue(n, p) < 1.0
  {
    StepBounds(n, p);
    LevelMonotone(n, 0, Step(n, p));
    LevelMonotone(n, Step(n, p), n);
    assert Level(n, n) < 1.0;
  }

  /** At exactly 100 percent the stepped ramp gives 1, because trunc(N + 1) = N + 1. */
  lemma SteppedAtFull(n: nat)
    ensures SteppedValue(n, 100.0) == 1.0
  {
    var f := (n + 1) as real;
    assert (100.0 / 100.0) * f == f;
    TruncOfInt(n + 1);
    assert Step(n, 100.0) == n + 1;
    assert Level(n, n + 1) == f / f == 1.0;
  }

  /** The stepped ramp is non-decreasing. */
  lemma SteppedMonotone(n: nat, p: real, q: real)
    requires p <= q
    ensures SteppedValue(n, p) <= SteppedValue(n, q)
  {
    ScaleMonotone(n, p, q);
    TruncMonotone((p / 100.0) * (n + 1) as real, (q / 100.0) * (n + 1) as real);
    LevelMonotone(n, Step(n, p), Step(n, q));
  }

  /** The N + 2 levels 0/(N+1), 1/(N+1), ..., (N+1)/(N+1). */
  function Levels(n: nat): (ls: seq<real>)
    ensures |ls| == n + 2
    ensures forall k :: 0 <= k < |ls| ==> ls[k] == Level(n, k)
  {
    seq(n + 2, k => Level(n, k))
  }

  /**
   * Every value on [0, 100] is one of the N + 2 levels, so at most N + 2
   * distinct load fractions ever occur.
   */
  lemma SteppedValueIsALevel(n: nat, p: real)
    requires 0.0 <= p <= 100.0
    ensures SteppedValue(n, p) in Levels(n)
  {
    StepBounds(n, p);
    var k := Step(n, p);
    assert Levels(n)[k] == SteppedValue(n, p);
  }

  /** With no steps the stepped ramp asks for no load at all before the end of the run. */
  lemma SteppedWithoutSteps(p: real)
    requires 0.0 <= p < 100.0
    ensures SteppedValue(0, p) == 0.0
  {
    StepBounds(0, p);
  }

  // ---------------------------------------------------------------------------
  // All profiles
  // ---------------------------------------------------------------------------

  /** Every profile honours the documented range [0, 1] on progress in [0, 100]. */
  lemma ValueInRange(profile: InjectionProfile, p: real)
    requires 0.0 <= p <= 100.0
    ensures 0.0 <= Value(profile, p) <= 1.0
  {
    match profile
    case BigBang =>
    case IncreasingClients =>
    case IncreasingClientsWithStep(n) =>
      if p < 100.0 {
        SteppedBelowFull(n, p);
      } else {
        SteppedAtFull(n);
      }
  }

  /** Every profile is non-decreasing in the progress. */
  lemma ValueMonotone(profile: InjectionProfile, p: real, q: real)
    requires p <= q
    ensures Value(profile, p) <= Value(profile, q)
  {
    match profile
    case BigBang =>
    case IncreasingClients =>
    case IncreasingClientsWithStep(n) => SteppedMonotone(n, p, q);
  }
}
