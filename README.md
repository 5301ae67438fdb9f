# Solaris panel lifecycle model

A Dafny model of the stochastic panel lifecycle of Solaris, a solar-farm
simulator, with proofs about it.

- `panel.dfy`, module `Panels`: one solar panel, `class Panel`. The model covers:
  - its clock and the cumulative failure hazard;
  - one-way failure onset and health wear;
  - the biphasic degradation rule around the 8760-hour year boundary;
  - soiling by a dirt event, and cleaning by hand or by rain;
  - the realised output of one simulation step.

  Each Python method becomes a method of the class, with `modifies` naming exactly the fields it writes. Each method is proved against a pure function, for example `DegradationAfter`, `DirtAfter` or `CleanAfter`. The bounds, monotonicity and one-way facts are proved about those functions.
- `farm.dfy`, module `Farms`: the farm, `class Farm`. The model covers:
  - its map from id to panel;
  - the registry of every id ever issued (`IdRegistry`), an object each farm is given when it is built; the Python class attribute is one registry for all farms;
  - id generation as a retry loop over candidate draws;
  - populating the farm;
  - the replacement counter (−1 means unscheduled, n > 0 means days left, 0 means replace now);
  - replacing due panels;
  - the farm-wide dirt draw applied every hour.

Random draws are arguments of the methods that consume them:
- `random()` for failure onset and for scheduling;
- `uniform` as a unit draw `u`, with `uniform(a, b) = a + (b - a) * u` as Python computes it;
- each `gauss` value;
- each id candidate, as the two letter indices and six digit indices that `random.choices` picks.

An operation that generates ids takes one stream of candidates. Python floats are reals. `(1 - rate) ** hours` is an exact power over a natural exponent. The value of `exp(0.15 * rain)` is a parameter.

The code's own quirks are kept as written:
- health loss and degradation use the cumulative `active_hours`, not the hours of the step;
- the "within year one" test is `active_hours + active_hours <= 8760`;
- the output is `ideal × draw × cleanliness × current_degradation`.

Because of the cumulative hours, a step from 8750 to 8770 hours charges all 8770 hours at the annual rate. It does not split the step into 10 hours at each rate. Because degradation is a factor of the output, output rises as a panel degrades (`OutputGrowsWithDegradation`).

## Model

| member | source | states |
|---|---|---|
| Panels.PerHour | solaris-py/panel/panel.py:50-51 | the stored hourly rate times 8760 gives back the annual rate |
| Panels.Panel.DefaultsInRange | solaris-py/panel/panel.py:22-25 | a panel built with the default optional arguments and a degradation in [0, 1] starts within range: health 1.0, not failing, 0 hours, unscheduled |
| Panels.Panel.constructor | solaris-py/panel/panel.py:43-64 | a new panel holds the given id and arguments, per-hour rates, `days_to_replace = -1`, `current_output = 0.0` and a floor of 0.8 |
| Panels.Panel.TimeIncrement | solaris-py/panel/panel.py:70-72 | `active_hours` grows by exactly `hours`; no other field can change |
| Panels.Hazard | solaris-py/panel/panel.py:81 | for a failure rate in [0, 1] the cumulative hazard `1 - (1 - rate)^hours` lies in [0, 1]; HazardGrowsWithHours and ZeroRateNeverFails state the rest |
| Panels.HazardGrowsWithHours | solaris-py/panel/panel.py:81 | the hazard never decreases as the cumulative hours grow |
| Panels.ZeroRateNeverFails | solaris-py/panel/panel.py:80-82 | with failure rate 0 the hazard is 0, so a draw in [0, 1) never starts a failure |
| Panels.StartsFailing | solaris-py/panel/panel.py:80-82 | a failing panel stays failing; a panel that is not failing starts failing exactly when the draw is below the hazard |
| Panels.HealthAfter | solaris-py/panel/panel.py:86-88 | health is unchanged unless failing; afterwards it is at least 0; with a non-negative progression rate it never increases |
| Panels.Panel.UpdateHealth | solaris-py/panel/panel.py:75-89 | the failure flag is one-way; health ≥ 0 when failing and unchanged otherwise; rate 0 never starts a failure; health stays in [0, old health] for sane rates |
| Panels.YearOneSplit | solaris-py/panel/panel.py:108-114 | past half a year and inside year one, the hours left in year one plus the hours after it make `active_hours`, and both are positive |
| Panels.DegradationToAdd | solaris-py/panel/panel.py:97-114 | with non-negative rates the degradation added in any branch is non-negative; DegradationIsBlend bounds it |
| Panels.DegradationIsBlend | solaris-py/panel/panel.py:97-114 | in every branch the degradation added lies between the hours times the smaller rate and the hours times the larger |
| Panels.DegradationAfter | solaris-py/panel/panel.py:118-119 | accumulated degradation is at most 1 and, with non-negative rates, never decreases |
| Panels.Panel.CalculateDegradation | solaris-py/panel/panel.py:91-119 | only `current_degradation` changes; it is at most 1 and does not decrease for non-negative rates |
| Panels.DirtAfter | solaris-py/panel/panel.py:127-134 | the result is at least the floor; a non-negative loss fraction never cleans; a positive fraction of at most 1 soils a panel above its floor |
| Panels.Panel.CalculateDirtAcc | solaris-py/panel/panel.py:121-135 | only `cleanliness` changes; it stays at or above `min_cleanliness`, is returned, and stays in range without rising for a non-negative loss fraction |
| Panels.CleanAfter | solaris-py/panel/panel.py:140-168 | rain 0 gives exactly 1.0; other rain below 2.0 gives exactly the old value less 0.005, or the floor when that is higher; heavier rain gives at most 1.0, cleaning when the exponential is in (0, 1] and soiling when it is ≥ 1 |
| Panels.NegativeVarianceOvercleans | solaris-py/panel/panel.py:127-134 | as written, a negative panel variance with no farm dirt lifts a panel at 1.0 above 1.0 |
| Panels.ClampedLossKeepsBounds | solaris-py/panel/panel.py:127-134 | with the loss fraction clamped at 0, a dirt event keeps a panel within [floor, its cleanliness] and so at most 1 |
| Panels.LightRainNeverCleans | solaris-py/panel/panel.py:152-155 | a light rain leaves the panel between its floor and its old cleanliness |
| Panels.HeavyRainBreaksFloor | solaris-py/panel/panel.py:157-168 | with the growing exponential exp(+0.15 × rain), 20 mm of rain on a panel at 0.9 drives it below the 0.8 floor |
| Panels.DecayingRainKeepsBounds | solaris-py/panel/panel.py:157-168 | with an exponential in (0, 1], as exp(-0.15 × rain) is, heavy rain raises cleanliness and keeps it in [floor, 1] |
| Panels.Panel.Clean | solaris-py/panel/panel.py:137-168 | only `cleanliness` changes, as CleanAfter says; the range is kept for manual cleaning, light rain and a decaying exponential |
| Panels.InstabilityFactor | solaris-py/panel/panel.py:187 | the amplification lies in (0, 10] and hits the cap of 10 once health is at or below 0.1 - 1e-6 |
| Panels.Uniform | solaris-py/panel/panel.py:189 | a unit draw in [0, 1] yields a value within [low, high] |
| Panels.Panel.FluctuationWithinAmplitude | solaris-py/panel/panel.py:186-189 | the fluctuation drawn by a healthy panel lies within ±10 × `fluctuation` |
| Panels.OutputValue | solaris-py/panel/panel.py:191 | a panel with no degradation yet, or a zero fluctuation draw, produces nothing |
| Panels.OutputGrowsWithDegradation | solaris-py/panel/panel.py:191 | with non-negative other factors, more degradation never lowers the output |
| Panels.Panel.CalculateOutput | solaris-py/panel/panel.py:170-193 | advances the clock, may start a failure (one-way) and wears health; a dead panel outputs 0 without degrading; otherwise the degradation update is applied and the returned value equals the new `current_output`; range invariants are kept |
| Farms.IdFromDraw | solaris-py/farm/farm.py:49 | a candidate draw spells two upper-case letters followed by six digits |
| Farms.DrawRoundTrip | solaris-py/farm/farm.py:49 | reading the draw back from the id recovers it |
| Farms.IdFromDrawInjective | solaris-py/farm/farm.py:49 | distinct draws give distinct ids |
| Farms.FirstFresh | solaris-py/farm/farm.py:49-51 | the retry loop yields a well-formed id that is not registered, and it consumes at least one candidate |
| Farms.FirstFreshNoneIffExhausted | solaris-py/farm/farm.py:50-51 | the loop runs out of candidates exactly when every candidate is already registered |
| Farms.FirstFreshIsFirst | solaris-py/farm/farm.py:49-51 | the id produced is the first unregistered candidate, and generation resumes right after it |
| Farms.Farm.GenerateId | solaris-py/farm/farm.py:47-53 | returns an id not registered before the call that is registered after it, and nothing else is added |
| Farms.GenerateIds | solaris-py/farm/farm.py:39-41 | a successful run of n generations yields n ids |
| Farms.GenerateIdsFresh | solaris-py/farm/farm.py:47-53 | the ids of a run are well formed, none was registered before, and no two are alike |
| Farms.GeneratedIdSet | solaris-py/farm/farm.py:39-41 | the ids of a run of n generations form a set of n ids disjoint from the registry |
| Farms.Farm.GeneratePanel | solaris-py/farm/farm.py:43-45 | builds a panel from the template under a freshly generated and now registered id |
| Farms.Farm.Populate | solaris-py/farm/farm.py:39-41 | the loop files one new panel under each generated id |
| Farms.Farm.constructor | solaris-py/farm/farm.py:16-41 | exactly `num_panels` panels, each stored under its own id; the keys are the generated ids, all new to the registry, and the registry grows by exactly them |
| Farms.ScheduledDays | solaris-py/farm/farm.py:55-64 | a scheduled counter is kept; for non-negative `replacement_days` an unscheduled one stays −1 exactly for draws in [0.04, 0.65], and otherwise lands within one day below and two days above `replacement_days` |
| Farms.Farm.StartReplacement | solaris-py/farm/farm.py:55-65 | the counter changes only if it was −1, then by the four draw bands |
| Farms.ScheduledPanelReplacedOnTime | solaris-py/farm/farm.py:70-81 | a panel scheduled at n days is replaced by call n + 1 of `replace_if_needed` and not before |
| Farms.UnscheduledNeverReplaced | solaris-py/farm/farm.py:70-81 | an unscheduled panel is never replaced, however often the farm checks |
| Farms.NextCounter | solaris-py/farm/farm.py:71-80 | only a counter of 0 retires its panel; a positive counter moves down and stays non-negative; a negative one is kept |
| Farms.Farm.CountDown | solaris-py/farm/farm.py:79-80 | a positive counter drops by exactly 1, −1 stays; only that panel's counter may change |
| Farms.Farm.ReplacePanel | solaris-py/farm/farm.py:73-76 | the due panel is removed and a new panel under the next fresh id takes its place, unscheduled |
| Farms.Farm.RetireDue | solaris-py/farm/farm.py:71-77 | retiring a due panel consumes exactly one of the ids still to be generated |
| Farms.Farm.Visit | solaris-py/farm/farm.py:71-81 | one panel is either retired for a new one, consuming one pending id, or counted down; only its counter may change; other entries keep their panel |
| Farms.Farm.VisitAll | solaris-py/farm/farm.py:70-81 | visiting every panel present at entry, in any order, leaves each one retired or counted down once; only counters may change |
| Farms.Farm.ReplaceIfNeeded | solaris-py/farm/farm.py:67-81 | the panel count is kept; due panels are gone and their ids stay registered; other panels keep their object and move their counter on, and no other field of any panel changes; the new ids are exactly the generated ones, fresh and registered, with new unscheduled panels |
| Farms.FarmDirt | solaris-py/farm/farm.py:86-87 | the farm-wide draw is clamped: a negative draw becomes exactly 0 and a non-negative one is kept |
| Farms.DirtOverHours | solaris-py/farm/farm.py:85-90 | zero hours leave cleanliness as it was; after at least one hour the panel is at or above its floor |
| Farms.DirtOverHoursInRange | solaris-py/farm/farm.py:85-90 | with non-negative loss fractions, a run of hours keeps a panel between its floor and its starting cleanliness |
| Farms.Farm.ApplyDirtEvent | solaris-py/farm/farm.py:89-90 | every panel takes the same clamped farm draw with its own variance; only cleanliness changes |
| Farms.Farm.CalculateDirtAcc | solaris-py/farm/farm.py:83-90 | after `hours` hours every panel's cleanliness is the result of `hours` dirt events, one clamped farm draw per hour shared by all panels |

## Left out

- Logging, and the pvlib module database loaded as a class attribute (`cec_modules_db`), are not modelled.
- The unused farm fields `output_average`, `output_max`, `output_min` and `marked_for_switch` are not modelled. Neither is the panel's `failure_detected`, which the core never reads.
- The random generators are not modelled; their values are arguments. This covers the choice between the module `random` and a seeded `random.Random(random_seed)`.
- The farm's `dirt_mu` (0.001) and `dirt_sigma` (0.0015) are not modelled: they only parametrise the Gaussian whose values are the `dirtDraws` arguments.
- IEEE-754 rounding is not modelled. Neither is the evaluation of `exp` and `**`: reals are exact, and the value of the exponential is supplied.
- Panels.Panel.CalculateDirtAcc: takes the panel's Gaussian variance as an argument instead of drawing `gauss(0, 0.0005)` itself.
- `active_hours`, the `hours` arguments and `num_panels` are natural numbers. A negative `hours`, which Python accepts, is outside the model. So is a negative `num_panels`, for which Python's `range` builds an empty farm.
- `replacement_days` is annotated `float` in the source but is modelled as an `int`, the way the counter uses it.
- Farms.Farm.ReplaceIfNeeded: visits each panel present at entry exactly once, in an arbitrary order.
  - The source pops and inserts into the dict while iterating over `.values()`. The model does not follow CPython's dict iterator through those changes.
  - By CPython's dict iterator (3.8 and later, read, not executed), a round that replaces a panel does not finish. It raises `RuntimeError: dictionary keys changed during iteration` when it reaches the inserted entry. If the insertion resizes the table, it can instead skip the panel after the replaced one.
  - The model states what the loop evidently means: every panel present at entry is retired or counted down once.
- Farms.Farm.GenerateId: retries over a finite stream of candidates and returns `None` when the stream runs out.
  - The farm operations require that the stream holds enough fresh candidates (`GenerateIds(...).Some?`).
  - The unbounded random retry, and its termination, are not modelled.
- Farms.Farm.constructor: takes the `IdRegistry` as an argument. Ids are unique across farms only if every farm is given the same registry object, as the Python class attribute makes them; that sharing is the caller's obligation.
- The shared `panel_config` dict, which the source overwrites with each new id, is a `PanelConfig` value. Each new panel takes the value together with its own id.

## Findings

| source | as written | input that shows it | evidently intended | confidence | as-written member | corrected member |
|---|---|---|---|---|---|---|
| solaris-py/panel/panel.py:159 | `max_effect * (1 - exp(0.15 * rain))`: the exponential grows, so the effectiveness is negative and heavy rain soils the panel with no floor | `clean(20.0)` on a panel at cleanliness 0.9: exp(3.0) ≥ 4, effectiveness ≤ −2.1, and the result is below the 0.8 floor | a decaying exponential, `1 - exp(-0.15 * rain)` in [0, 0.7): heavy rain cleans and cleanliness stays in [floor, 1] | not executed | Panels.HeavyRainBreaksFloor | Panels.DecayingRainKeepsBounds |
| solaris-py/panel/panel.py:127-134 | only the farm draw is clamped at 0 (solaris-py/farm/farm.py:87); the panel's own `gauss(0, 0.0005)` variance is added after the clamp, so the loss fraction can be negative and cleanliness rises above 1.0 | a spotless panel (1.0, floor 0.8), a farm draw clamped to 0 and a variance of −0.0005: the loss is −0.0001 and cleanliness becomes 1.0001 | cleanliness stays in [min_cleanliness, 1.0], as the cap at line 167 intends: clamp the loss fraction `dirt_acc + variance` at 0 | not executed | Panels.NegativeVarianceOvercleans | Panels.ClampedLossKeepsBounds |
