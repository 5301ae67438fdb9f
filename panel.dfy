/**
 * One simulated solar panel: its clock, stochastic failure onset, health,
 * biphasic degradation, soiling and cleaning, and realised output.
 *
 * Every random draw the panel makes (`random()`, `gauss`, `uniform`) is an
 * argument of the method that makes it, and the exponential in the rain
 * formula is supplied as a value. Floats are reals.
 */
module Panels {

  /** Hours in a year: the boundary of the first degradation phase. */
  const HoursInYear: int := 8760
  /** The floor below which `cleanliness` is clamped. */
  const MinCleanliness: real := 0.8
  /** Rain (mm) below this has no cleaning effect, only cementation. */
  const RainThreshold: real := 2.0
  /** Cleanliness lost to a light rain. */
  const CementationEffect: real := 0.005
  /** A heavy downpour removes at most this fraction of the dirt. */
  const MaxEffect: real := 0.70
  /** Cap on the amplification of the fluctuation as health drops. */
  const InstabilityCap: real := 10.0
  /** Keeps the amplification finite at health 0. */
  const HealthEpsilon: real := 0.000001

  function Min(a: real, b: real): real { if a <= b then a else b }
  function Max(a: real, b: real): real { if a <= b then b else a }

  lemma MulNonNegative(a: real, b: real)
    requires 0.0 <= a && 0.0 <= b
    ensures 0.0 <= a * b
  {
  }

  lemma MulPositive(a: real, b: real)
    requires 0.0 < a && 0.0 < b
    ensures 0.0 < a * b
  {
  }

  lemma MulMonotone(k: real, a: real, b: real)
    requires 0.0 <= k && a <= b
    ensures k * a <= k * b
  {
  }

  /**
   * An annual rate turned into the per-hour rate the panel stores; the
   * literal 8760.0 is `HoursInYear`, written out so that the arithmetic
   * stays linear.
   */
  function PerHour(annual: real): (r: real)
    ensures r * 8760.0 == annual
  {
    annual / 8760.0
  }

  // ---------------------------------------------------------------------
  // Failure onset

  /** `b` to the natural power `n`. */
  function Pow(b: real, n: nat): real
  {
    if n == 0 then 1.0 else b * Pow(b, n - 1)
  }

  lemma {:induction false} PowOfOne(n: nat)
    ensures Pow(1.0, n) == 1.0
  {
    if n > 0 {
      PowOfOne(n - 1);
    }
  }

  lemma {:induction false} PowInUnitInterval(b: real, n: nat)
    requires 0.0 <= b <= 1.0
    ensures 0.0 <= Pow(b, n) <= 1.0
  {
    if n > 0 {
      PowInUnitInterval(b, n - 1);
      var p := Pow(b, n - 1);
      MulNonNegative(b, p);
      MulMonotone(p, b, 1.0);
      assert p * b <= p * 1.0;
      assert p * 1.0 == p;
      assert p <= 1.0;
      assert Pow(b, n) == b * p;
    }
  }

  /** Powers of a base in [0, 1] shrink as the exponent grows. */
  lemma {:induction false} PowAntitone(b: real, m: nat, n: nat)
    requires 0.0 <= b <= 1.0
    requires m <= n
    ensures Pow(b, n) <= Pow(b, m)
    decreases n - m
  {
    if m < n {
      PowAntitone(b, m + 1, n);
      PowInUnitInterval(b, m);
      var p := Pow(b, m);
      assert b * p <= 1.0 * p;
    }
  }

  /**
   * The cumulative probability that a panel with the given hourly failure
   * rate has started failing after `hours` hours of operation; for a rate
   * that is a probability, the hazard is one too.
   */
  function Hazard(failureRate: real, hours: nat): (h: real)
    ensures 0.0 <= failureRate <= 1.0 ==> 0.0 <= h <= 1.0
  {
    assert 0.0 <= failureRate <= 1.0 ==> 0.0 <= Pow(1.0 - failureRate, hours) <= 1.0 by {
      if 0.0 <= failureRate <= 1.0 { PowInUnitInterval(1.0 - failureRate, hours); }
    }
    1.0 - Pow(1.0 - failureRate, hours)
  }

  /** The onset test gets easier to pass the longer the panel has run. */
  lemma HazardGrowsWithHours(failureRate: real, m: nat, n: nat)
    requires 0.0 <= failureRate <= 1.0
    requires m <= n
    ensures Hazard(failureRate, m) <= Hazard(failureRate, n)
  {
    PowAntitone(1.0 - failureRate, m, n);
  }

  /** A panel whose failure rate is 0 never starts failing on a draw in [0, 1). */
  lemma ZeroRateNeverFails(hours: nat, draw: real)
    requires 0.0 <= draw
    ensures Hazard(0.0, hours) == 0.0
    ensures !StartsFailing(false, draw, 0.0, hours)
  {
    PowOfOne(hours);
  }

  /** Whether the panel is failing after the onset check with `draw`. */
  function StartsFailing(failing: bool, draw: real, failureRate: real, hours: nat): (f: bool)
    ensures failing ==> f
    ensures f != failing ==> draw < Hazard(failureRate, hours)
    ensures !failing && draw < Hazard(failureRate, hours) ==> f
  {
    failing || draw < Hazard(failureRate, hours)
  }

  // ---------------------------------------------------------------------
  // Health

  /**
   * Health after the progression step. The loss scales with the cumulative
   * `hours`, not with the hours of the current step.
   */
  function HealthAfter(health: real, failing: bool, progressionRate: real, hours: nat): (h: real)
    ensures !failing ==> h == health
    ensures failing ==> h >= 0.0
    ensures progressionRate >= 0.0 && health >= 0.0 ==> 0.0 <= h <= health
  {
    if failing then
      assert progressionRate >= 0.0 ==> progressionRate * hours as real >= 0.0;
      Max(0.0, health - progressionRate * hours as real)
    else
      health
  }

  // ---------------------------------------------------------------------
  // Degradation

  /**
   * The two halves of a cumulative hour count that lies past half a year but
   * inside the first year: the hours "left in year one" and the rest.
   */
  function YearOneSplit(hours: int): (split: (int, int))
    requires hours < HoursInYear < hours + hours
    ensures split.0 + split.1 == hours
    ensures 0 < split.0 < hours && 0 < split.1 < hours
  {
    var hoursLeftInYearOne := HoursInYear - hours;
    (hoursLeftInYearOne, hours - hoursLeftInYearOne)
  }

  /**
   * Degradation added by one step of the biphasic model. The case test
   * uses the cumulative `hours` twice (`hours + hours <= 8760`) where a
   * step length was evidently meant; the model keeps that test.
   */
  function DegradationToAdd(hours: nat, firstPhaseRate: real, annualRate: real): (r: real)
    ensures 0.0 <= firstPhaseRate && 0.0 <= annualRate ==> 0.0 <= r
  {
    if hours >= HoursInYear then
      assert 0.0 <= annualRate ==> 0.0 <= hours as real * annualRate by {
        if 0.0 <= annualRate { MulNonNegative(hours as real, annualRate); }
      }
      hours as real * annualRate
    else if hours + hours <= HoursInYear then
      assert 0.0 <= firstPhaseRate ==> 0.0 <= hours as real * firstPhaseRate by {
        if 0.0 <= firstPhaseRate { MulNonNegative(hours as real, firstPhaseRate); }
      }
      hours as real * firstPhaseRate
    else
      var split := YearOneSplit(hours);
      assert 0.0 <= firstPhaseRate && 0.0 <= annualRate ==>
               0.0 <= split.0 as real * firstPhaseRate + split.1 as real * annualRate by {
        if 0.0 <= firstPhaseRate && 0.0 <= annualRate {
          MulNonNegative(split.0 as real, firstPhaseRate);
          MulNonNegative(split.1 as real, annualRate);
        }
      }
      split.0 as real * firstPhaseRate + split.1 as real * annualRate
  }

  /**
   * Whatever branch applies, the degradation added is the cumulative hours
   * charged at a blend of the two phase rates: it lies between the hours
   * times the smaller rate and the hours times the larger one.
   */
  lemma DegradationIsBlend(hours: nat, firstPhaseRate: real, annualRate: real)
    ensures hours as real * Min(firstPhaseRate, annualRate)
            <= DegradationToAdd(hours, firstPhaseRate, annualRate)
            <= hours as real * Max(firstPhaseRate, annualRate)
  {
    var lo, hi := Min(firstPhaseRate, annualRate), Max(firstPhaseRate, annualRate);
    var h := hours as real;
    if hours >= HoursInYear {
      assert DegradationToAdd(hours, firstPhaseRate, annualRate) == h * annualRate;
      SplitAbove(h, 0.0, h, annualRate, annualRate, lo);
      SplitBelow(h, 0.0, h, annualRate, annualRate, hi);
    } else if hours + hours <= HoursInYear {
      assert DegradationToAdd(hours, firstPhaseRate, annualRate) == h * firstPhaseRate;
      SplitAbove(h, 0.0, h, firstPhaseRate, firstPhaseRate, lo);
      SplitBelow(h, 0.0, h, firstPhaseRate, firstPhaseRate, hi);
    } else {
      var split := YearOneSplit(hours);
      var a, b := split.0 as real, split.1 as real;
      assert DegradationToAdd(hours, firstPhaseRate, annualRate) == a * firstPhaseRate + b * annualRate;
      SplitAbove(a, b, h, firstPhaseRate, annualRate, lo);
      SplitBelow(a, b, h, firstPhaseRate, annualRate, hi);
    }
  }

  /** Charging `a` hours at `f` and `b` at `n` costs at least `a + b` hours at a rate below both. */
  lemma SplitAbove(a: real, b: real, h: real, f: real, n: real, lo: real)
    requires 0.0 <= a && 0.0 <= b && a + b == h && lo <= f && lo <= n
    ensures h * lo <= a * f + b * n
  {
    MulNonNegative(a, f - lo);
    MulNonNegative(b, n - lo);
    assert (a * f + b * n) - h * lo == a * (f - lo) + b * (n - lo);
  }

  /** Charging `a` hours at `f` and `b` at `n` costs at most `a + b` hours at a rate above both. */
  lemma SplitBelow(a: real, b: real, h: real, f: real, n: real, hi: real)
    requires 0.0 <= a && 0.0 <= b && a + b == h && f <= hi && n <= hi
    ensures a * f + b * n <= h * hi
  {
    MulNonNegative(a, hi - f);
    MulNonNegative(b, hi - n);
    assert h * hi - (a * f + b * n) == a * (hi - f) + b * (hi - n);
  }

  /** Accumulated degradation after one step, clamped to at most 1. */
  function DegradationAfter(degradation: real, hours: nat, firstPhaseRate: real, annualRate: real): (d: real)
    ensures d <= 1.0
    ensures firstPhaseRate >= 0.0 && annualRate >= 0.0 && degradation <= 1.0 ==> degradation <= d
  {
    DegradationIsBlend(hours, firstPhaseRate, annualRate);
    assert 0.0 <= Min(firstPhaseRate, annualRate) ==> 0.0 <= hours as real * Min(firstPhaseRate, annualRate);
    Min(1.0, degradation + DegradationToAdd(hours, firstPhaseRate, annualRate))
  }

  // ---------------------------------------------------------------------
  // Soiling and cleaning

  /**
   * Cleanliness after a dirt event of size `dirtAcc` with the panel's own
   * Gaussian `variance`: the room above the floor shrinks by the fraction
   * `dirtAcc + variance`, and the result is clamped to the floor.
   */
  function DirtAfter(cleanliness: real, floor: real, dirtAcc: real, variance: real): (c: real)
    ensures c >= floor
    ensures floor <= cleanliness && 0.0 <= dirtAcc + variance ==> c <= cleanliness
    ensures floor <= cleanliness && dirtAcc + variance <= 1.0 && c > floor ==> c < cleanliness || dirtAcc + variance <= 0.0
  {
    var remainingPotential := cleanliness - floor;
    var lost := remainingPotential * (dirtAcc + variance);
    assert floor <= cleanliness && 0.0 <= dirtAcc + variance ==> lost >= 0.0 by {
      if floor <= cleanliness && 0.0 <= dirtAcc + variance {
        MulNonNegative(remainingPotential, dirtAcc + variance);
      }
    }
    assert floor < cleanliness && 0.0 < dirtAcc + variance ==> lost > 0.0 by {
      if floor < cleanliness && 0.0 < dirtAcc + variance {
        MulPositive(remainingPotential, dirtAcc + variance);
      }
    }
    Max(cleanliness - lost, floor)
  }

  /**
   * Cleanliness after `clean(rainAmount)`. `rainExp` is the value of the
   * exponential in the rain-effectiveness formula, as computed by the
   * caller: the source computes exp(0.15 * rainAmount).
   */
  function CleanAfter(cleanliness: real, floor: real, rainAmount: real, rainExp: real): (c: real)
    ensures rainAmount == 0.0 ==> c == 1.0
    ensures rainAmount != 0.0 && rainAmount < RainThreshold ==>
              c >= floor && c >= cleanliness - CementationEffect &&
              (c == floor || c == cleanliness - CementationEffect)
    ensures rainAmount >= RainThreshold ==> c <= 1.0
    ensures rainAmount >= RainThreshold && cleanliness <= 1.0 && rainExp >= 1.0 ==> c <= cleanliness
    ensures rainAmount >= RainThreshold && cleanliness <= 1.0 && 0.0 < rainExp <= 1.0 ==> cleanliness <= c
  {
    if rainAmount == 0.0 then
      1.0
    else if rainAmount < RainThreshold then
      Max(floor, cleanliness - CementationEffect)
    else
      var rainEffectiveness := MaxEffect * (1.0 - rainExp);
      var dirtToRemove := 1.0 - cleanliness;
      var gain := dirtToRemove * rainEffectiveness;
      assert cleanliness <= 1.0 && rainExp >= 1.0 ==> gain <= 0.0;
      assert cleanliness <= 1.0 && 0.0 < rainExp <= 1.0 ==> gain >= 0.0;
      Min(1.0, cleanliness + gain)
  }

  /**
   * A light rain never makes a panel cleaner: it takes the cementation
   * penalty off, or leaves the panel at its floor.
   */
  lemma LightRainNeverCleans(cleanliness: real, floor: real, rainAmount: real, rainExp: real)
    requires floor <= cleanliness
    requires rainAmount != 0.0 && rainAmount < RainThreshold
    ensures floor <= CleanAfter(cleanliness, floor, rainAmount, rainExp) <= cleanliness
  {
  }

  /**
   * As written, the rain formula uses exp(+0.15 * rain), which is at least
   * 1 + 0.15 * rain. At 20 mm the panel ends up dirtier than its floor.
   */
  lemma HeavyRainBreaksFloor(rainExp: real)
    requires rainExp >= 1.0 + 0.15 * 20.0
    ensures CleanAfter(0.9, MinCleanliness, 20.0, rainExp) < MinCleanliness
  {
    var effectiveness := MaxEffect * (1.0 - rainExp);
    assert effectiveness <= -2.1;
  }

  /**
   * With the decaying exponential exp(-0.15 * rain), which lies in (0, 1],
   * heavy rain cleans: cleanliness rises and stays within [floor, 1].
   */
  lemma DecayingRainKeepsBounds(cleanliness: real, floor: real, rainAmount: real, rainExp: real)
    requires floor <= cleanliness <= 1.0
    requires rainAmount >= RainThreshold
    requires 0.0 < rainExp <= 1.0
    ensures floor <= cleanliness <= CleanAfter(cleanliness, floor, rainAmount, rainExp) <= 1.0
  {
  }

  /**
   * As written, only the farm draw is clamped: the panel's own variance can
   * make the loss fraction negative, and with no farm dirt a variance of
   * -0.0005 lifts a spotless panel above 1.
   */
  lemma NegativeVarianceOvercleans()
    ensures DirtAfter(1.0, MinCleanliness, 0.0, -0.0005) > 1.0
  {
    assert (1.0 - MinCleanliness) * (0.0 + -0.0005) == -0.0001;
  }

  /**
   * With the loss fraction clamped at 0 after the variance is added, a dirt
   * event keeps a panel within [floor, its cleanliness], so never above 1.
   */
  lemma ClampedLossKeepsBounds(cleanliness: real, floor: real, dirtAcc: real, variance: real)
    requires floor <= cleanliness <= 1.0
    ensures floor <= DirtAfter(cleanliness, floor, Max(0.0, dirtAcc + variance), 0.0) <= cleanliness <= 1.0
  {
  }

  // ---------------------------------------------------------------------
  // Output

  /** How much the fluctuation is amplified at the given (positive) health. */
  function InstabilityFactor(health: real): (f: real)
    requires health > 0.0
    ensures 0.0 < f <= InstabilityCap
    ensures health <= 0.1 - HealthEpsilon ==> f == InstabilityCap
  {
    var amplified := 1.0 / (health + HealthEpsilon);
    assert health <= 0.1 - HealthEpsilon ==> amplified >= InstabilityCap by {
      if health <= 0.1 - HealthEpsilon {
        assert (health + HealthEpsilon) * InstabilityCap <= 1.0;
      }
    }
    Min(InstabilityCap, amplified)
  }

  /** `uniform(low, high)` as Python computes it from a unit draw `u`. */
  function Uniform(low: real, high: real, u: real): (x: real)
    ensures low <= high && 0.0 <= u <= 1.0 ==> low <= x <= high
  {
    assert low <= high && 0.0 <= u <= 1.0 ==> 0.0 <= (high - low) * u <= high - low by {
      if low <= high && 0.0 <= u <= 1.0 {
        MulNonNegative(high - low, u);
        MulMonotone(high - low, u, 1.0);
      }
    }
    low + (high - low) * u
  }

  /**
   * The realised output: ideal power times the bare fluctuation draw, the
   * cleanliness and the accumulated degradation (a loss fraction). A panel
   * with no degradation yet, and a zero draw, both produce nothing.
   */
  function OutputValue(idealOutput: real, fluctuationDraw: real, cleanliness: real, degradation: real): (v: real)
    ensures degradation == 0.0 ==> v == 0.0
    ensures fluctuationDraw == 0.0 ==> v == 0.0
  {
    idealOutput * fluctuationDraw * cleanliness * degradation
  }

  /**
   * Because the degradation is a factor of the output rather than
   * `1 - degradation`, a panel with a non-negative product of the other
   * factors produces more as it degrades.
   */
  lemma OutputGrowsWithDegradation(idealOutput: real, fluctuationDraw: real, cleanliness: real, d1: real, d2: real)
    requires idealOutput >= 0.0 && fluctuationDraw >= 0.0 && cleanliness >= 0.0
    requires d1 <= d2
    ensures OutputValue(idealOutput, fluctuationDraw, cleanliness, d1)
            <= OutputValue(idealOutput, fluctuationDraw, cleanliness, d2)
  {
    var k := idealOutput * fluctuationDraw * cleanliness;
    assert k >= 0.0 by {
      assert idealOutput * fluctuationDraw >= 0.0;
    }
    assert k * d1 <= k * d2;
  }

  // ---------------------------------------------------------------------
  // The panel

  /** The construction arguments a farm keeps as its panel template. */
  datatype PanelConfig = PanelConfig(
    maxOutput: real,
    currentDegradation: real,
    fluctuation: real,
    failureRate: real,
    failureProgressionRate: real,
    annualDegradation: real,
    firstPhaseDegradation: real,
    activeHours: nat,
    health: real,
    failing: bool,
    cleanliness: real)

  /** The defaults of the optional construction arguments. */
  function DefaultConfig(maxOutput: real, currentDegradation: real, fluctuation: real,
                         failureRate: real, failureProgressionRate: real,
                         annualDegradation: real, firstPhaseDegradation: real): (cfg: PanelConfig)
    ensures cfg.activeHours == 0 && cfg.health == 1.0 && !cfg.failing && cfg.cleanliness == 1.0
  {
    PanelConfig(maxOutput, currentDegradation, fluctuation, failureRate, failureProgressionRate,
                annualDegradation, firstPhaseDegradation, 0, 1.0, false, 1.0)
  }

  class Panel {
    const panelId: string
    const maxOutput: real
    const fluctuation: real
    const failureRate: real
    const failureProgressionRate: real
    /** Per-hour rate of the first year. */
    const firstPhaseDegradation: real
    /** Per-hour rate after the first year. */
    const annualDegradation: real
    const minCleanliness: real

    var activeHours: nat
    /** -1: not scheduled; 0: replace now; n > 0: days left. */
    var daysToReplace: int
    var currentOutput: real
    var health: real
    var failing: bool
    var cleanliness: real
    var currentDegradation: real

    /** The panel's rates are non-negative, so wear only accumulates. */
    ghost predicate RatesNonNegative()
    {
      failureProgressionRate >= 0.0 && firstPhaseDegradation >= 0.0 && annualDegradation >= 0.0
    }

    /** Every clamped field lies within its documented range. */
    ghost predicate InRange()
      reads this
    {
      0.0 <= health <= 1.0 && 0.0 <= currentDegradation <= 1.0 &&
      minCleanliness <= cleanliness <= 1.0
    }

    /** The state of a panel just built from `cfg` under the id `id`. */
    ghost predicate IsNewFrom(id: string, cfg: PanelConfig)
      reads this
    {
      panelId == id && maxOutput == cfg.maxOutput && fluctuation == cfg.fluctuation &&
      failureRate == cfg.failureRate && failureProgressionRate == cfg.failureProgressionRate &&
      firstPhaseDegradation == PerHour(cfg.firstPhaseDegradation) &&
      annualDegradation == PerHour(cfg.annualDegradation) &&
      minCleanliness == MinCleanliness &&
      activeHours == cfg.activeHours && daysToReplace == -1 && currentOutput == 0.0 &&
      health == cfg.health && failing == cfg.failing && cleanliness == cfg.cleanliness &&
      currentDegradation == cfg.currentDegradation
    }

    constructor (id: string, cfg: PanelConfig)
      ensures IsNewFrom(id, cfg)
    {
      panelId := id;
      maxOutput := cfg.maxOutput;
      fluctuation := cfg.fluctuation;
      failureRate := cfg.failureRate;
      currentDegradation := cfg.currentDegradation;
      failureProgressionRate := cfg.failureProgressionRate;
      firstPhaseDegradation := PerHour(cfg.firstPhaseDegradation);
      annualDegradation := PerHour(cfg.annualDegradation);
      activeHours := cfg.activeHours;
      daysToReplace := -1;
      currentOutput := 0.0;
      health := cfg.health;
      failing := cfg.failing;
      cleanliness := cfg.cleanliness;
      minCleanliness := MinCleanliness;
    }

    /** Advances the panel's clock; no other field changes. */
    method TimeIncrement(hours: nat)
      modifies this`activeHours
      ensures activeHours == old(activeHours) + hours
    {
      activeHours := activeHours + hours;
    }

    /**
     * Starts a failure when the `draw` (a `random()` value, consumed only
     * when the panel is not yet failing) falls below the cumulative hazard,
     * then wears health down if the panel is failing.
     */
    method UpdateHealth(draw: real)
      modifies this`failing, this`health
      ensures failing == StartsFailing(old(failing), draw, failureRate, activeHours)
      ensures health == HealthAfter(old(health), failing, failureProgressionRate, activeHours)
      ensures old(failing) ==> failing
      ensures !failing ==> health == old(health)
      ensures failing ==> health >= 0.0
      ensures failureRate == 0.0 && 0.0 <= draw ==> failing == old(failing)
      ensures RatesNonNegative() && 0.0 <= old(health) <= 1.0 ==> 0.0 <= health <= old(health)
    {
      if !failing {
        if draw < Hazard(failureRate, activeHours) {
          failing := true;
        }
      }
      if failing {
        health := health - failureProgressionRate * activeHours as real;
        health := Max(0.0, health);
      }
      if failureRate == 0.0 && 0.0 <= draw {
        ZeroRateNeverFails(activeHours, draw);
      }
    }

    /** Adds the biphasic degradation for the cumulative hours, clamped to 1. */
    method CalculateDegradation()
      modifies this`currentDegradation
      ensures currentDegradation == DegradationAfter(old(currentDegradation), activeHours,
                                                     firstPhaseDegradation, annualDegradation)
      ensures currentDegradation <= 1.0
      ensures RatesNonNegative() && old(currentDegradation) <= 1.0 ==> old(currentDegradation) <= currentDegradation
    {
      var degradationToAdd := DegradationToAdd(activeHours, firstPhaseDegradation, annualDegradation);
      currentDegradation := currentDegradation + degradationToAdd;
      currentDegradation := Min(1.0, currentDegradation);
    }

    /**
     * Applies a farm-wide dirt event `dirtAcc` with the panel's own Gaussian
     * `variance`, and returns the new cleanliness.
     */
    method CalculateDirtAcc(dirtAcc: real, variance: real) returns (c: real)
      modifies this`cleanliness
      ensures cleanliness == DirtAfter(old(cleanliness), minCleanliness, dirtAcc, variance)
      ensures c == cleanliness && cleanliness >= minCleanliness
      ensures old(InRange()) && 0.0 <= dirtAcc + variance ==> InRange() && cleanliness <= old(cleanliness)
    {
      var remainingPotential := cleanliness - minCleanliness;
      var cleanlinessLost := remainingPotential * (dirtAcc + variance);
      cleanliness := cleanliness - cleanlinessLost;
      cleanliness := Max(cleanliness, minCleanliness);
      c := cleanliness;
    }

    /**
     * Manual cleaning (`rainAmount == 0`) or a rain event. `rainExp` is the
     * value of the exponential in the rain-effectiveness formula.
     */
    method Clean(rainAmount: real, rainExp: real)
      modifies this`cleanliness
      ensures cleanliness == CleanAfter(old(cleanliness), minCleanliness, rainAmount, rainExp)
      ensures rainAmount == 0.0 ==> cleanliness == 1.0
      ensures rainAmount != 0.0 && rainAmount < RainThreshold ==>
                cleanliness == Max(minCleanliness, old(cleanliness) - CementationEffect)
      ensures rainAmount >= RainThreshold ==> cleanliness <= 1.0
      ensures old(InRange()) && (rainAmount < RainThreshold || 0.0 < rainExp <= 1.0) ==> InRange()
    {
      if rainAmount == 0.0 {
        cleanliness := 1.0;
        return;
      }
      if rainAmount < RainThreshold {
        cleanliness := cleanliness - CementationEffect;
        cleanliness := Max(minCleanliness, cleanliness);
        return;
      }
      var rainEffectiveness := MaxEffect * (1.0 - rainExp);
      var dirtToRemove := 1.0 - cleanliness;
      var cleanlinessGain := dirtToRemove * rainEffectiveness;
      cleanliness := cleanliness + cleanlinessGain;
      cleanliness := Min(1.0, cleanliness);
      if old(InRange()) && 0.0 < rainExp <= 1.0 {
        DecayingRainKeepsBounds(old(cleanliness), minCleanliness, rainAmount, rainExp);
      }
    }

    /**
     * One simulation step: advance the clock by `hours`, check failure onset
     * with `failureDraw`, wear health down, and, unless the panel is dead,
     * degrade it and produce `idealOutput` scaled by the fluctuation drawn
     * from the unit draw `u`, the cleanliness and the degradation.
     */
    method CalculateOutput(idealOutput: real, hours: nat, failureDraw: real, u: real) returns (output: real)
      modifies this`activeHours, this`failing, this`health, this`currentDegradation, this`currentOutput
      ensures activeHours == old(activeHours) + hours
      ensures failing == StartsFailing(old(failing), failureDraw, failureRate, activeHours)
      ensures health == HealthAfter(old(health), failing, failureProgressionRate, activeHours)
      ensures health <= 0.0 ==>
                output == 0.0 && currentOutput == 0.0 && currentDegradation == old(currentDegradation)
      ensures health > 0.0 ==>
                currentDegradation == DegradationAfter(old(currentDegradation), activeHours,
                                                       firstPhaseDegradation, annualDegradation) &&
                output == currentOutput &&
                output == OutputValue(idealOutput,
                                      Uniform(-fluctuation * InstabilityFactor(health),
                                              fluctuation * InstabilityFactor(health), u),
                                      cleanliness, currentDegradation)
      ensures old(failing) ==> failing
      ensures failureRate == 0.0 && 0.0 <= failureDraw && !old(failing) ==> !failing
      ensures old(InRange()) && RatesNonNegative() ==> InRange()
    {
      TimeIncrement(hours);
      UpdateHealth(failureDraw);

      if health <= 0.0 {
        currentOutput := 0.0;
        return 0.0;
      }

      CalculateDegradation();

      var instabilityFactor := InstabilityFactor(health);
      var currentFluctuation := fluctuation * instabilityFactor;
      var fluctuationDraw := Uniform(-currentFluctuation, currentFluctuation, u);

      currentOutput := OutputValue(idealOutput, fluctuationDraw, cleanliness, currentDegradation);
      output := currentOutput;
    }

    /**
     * A panel built with the default optional arguments and a degradation
     * in [0, 1] starts within range, healthy, not failing and unscheduled.
     */
    lemma DefaultsInRange(id: string, maxOutput: real, currentDegradation: real, fluctuation: real,
                          failureRate: real, failureProgressionRate: real,
                          annualDegradation: real, firstPhaseDegradation: real)
      requires IsNewFrom(id, DefaultConfig(maxOutput, currentDegradation, fluctuation, failureRate,
                                           failureProgressionRate, annualDegradation, firstPhaseDegradation))
      requires 0.0 <= currentDegradation <= 1.0
      ensures InRange() && health == 1.0 && !failing && activeHours == 0 && daysToReplace == -1
    {
    }

    /** The fluctuation drawn for a healthy panel lies within the amplified amplitude. */
    lemma FluctuationWithinAmplitude(u: real)
      requires health > 0.0 && fluctuation >= 0.0 && 0.0 <= u <= 1.0
      ensures -fluctuation * InstabilityCap
              <= Uniform(-fluctuation * InstabilityFactor(health), fluctuation * InstabilityFactor(health), u)
              <= fluctuation * InstabilityCap
    {
      var f := InstabilityFactor(health);
      assert fluctuation * f <= fluctuation * InstabilityCap;
    }
  }
}
