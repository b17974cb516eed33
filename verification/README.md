# Technical-debt aggregation, modelled in Dafny

This project models the debt-aggregation engine of the Sonar technical-debt
plugin. For one resource, three axis calculators each estimate two things:

- the **actual debt**: the work, in days, needed to reach the axis's target;
- the **possible debt**: the ceiling, in days, that the actual debt is measured against.

The three axes are complexity, coverage and duplication. A calculator may
decline to compute its possible debt (the `NoCalculation` signal).

The decorator visits the axes in their fixed order and sums the two debts.
It then computes each axis's share of the total actual debt as a percentage
floored to hundredths, the repartition. Finally it saves:

- the debt in currency;
- the debt in days;
- the debt ratio, only when the possible debt is positive;
- the repartition.

Modules, following the source's structure:

- `Measures`: metric names and a resource's measure snapshot, a map from metric to an optional value.
  - A metric is absent when its key is missing or its value is `None`, as `MeasureUtils.hasValue` says.
  - `Calc` is either a computed value or `NoCalculation`.
- `Settings`: the hours-per-day constant (8, an assumption: see "Left out"), the plugin's default rates and the day conversion.
- `ValueFetcher`: `ComplexityToCoverFetcher`, which computes complexity minus not-covered complexity.
- `ComplexityDebt`, `CoverageDebt`, `DuplicationDebt`: the three axis calculators.
  - The coverage calculator takes its complexity fetcher as a parameter, as in the source.
- `Doubles`: the part of IEEE-754 double division and flooring that the repartition depends on.
  - That is the infinities and NaN produced by a zero divisor.
- `Axes`: the axis list, each axis's name, dependencies and debts, and the closed-form totals of the counted axes.
- `Repartition`: the percentage entries and what they satisfy.
- `TechnicalDebtDecorator`: the two loops of `decorate`, the saved measures, and the declared and generated metrics.

Behaviour of the code that the model keeps, and that a reader might not expect:

- **Declined axes and the totals.** The possible-debt call comes first inside the same `try` as the actual-debt addition (TechnicalDebtDecorator.java:103-107). So when an axis declines, its actual debt is skipped too, and the axis adds to neither total.
- **Declined axes and the repartition.** The repartition loop (TechnicalDebtDecorator.java:114-117) still divides every axis's actual debt by that total, declined or not.
  - A declined axis with positive actual debt can therefore push the repartition past 100 (`DeclinedAxisExceedsHundred`).
  - Against a zero total it is reported at +∞ (`DeclinedAxisReportedAtInfinity`).
- **Zero total.** A total of 0.0 is not special-cased. Axes with positive actual debt get +∞ entries, which stay. Axes with zero actual debt compute 0/0 = NaN, and `NaN > 0` is false, so those entries drop (`ZeroTotal`).
- **Entries of 0.00.** The filter `value > 0` (TechnicalDebtDecorator.java:143) tests the percentage before it is floored. A share in (0, 0.01) is therefore saved as an entry of 0.00 (`TinyShareSavedAsZero`), and the entry bound is [0, 100], not (0, 100].
- **Undeclared dependency.** The declared dependencies omit `NOT_COVERED_COMPLEXITY`, although the complexity calculator and the complexity fetcher read it.
  - `UndeclaredMetricChangesTotals` shows that this metric changes the totals.
- **Negative debts.** Which debts can be negative, for non-negative rates:
  - Complexity: the actual debt is ≥ 0 when the distance measure is ≥ 0. A computed possible debt is always ≥ 0, because a negative overrun declines.
  - Coverage: the actual debt is always ≥ 0, because the gap is clamped at 0 (CoverageDebtCalculator.java:73). The possible debt, 0.8 × c × cost / 8, is ≥ 0 only when c = complexity − not-covered complexity is ≥ 0.
  - Duplication: both debts are ≥ 0 when the line count and the density are ≥ 0.

## Model

| member | source | states |
|---|---|---|
| ValueFetcher.ComplexityToCover | src/main/java/org/sonar/plugins/technicaldebt/axis/ComplexityToCoverFetcher.java:30-47 | Declines exactly when complexity is absent; otherwise the result plus the not-covered complexity (0 when absent) equals the complexity |
| ValueFetcher.AllComplexityToCoverWithoutNotCovered | src/main/java/org/sonar/plugins/technicaldebt/axis/ComplexityToCoverFetcher.java:40-46 | Without a not-covered measure the whole complexity is to be covered |
| ValueFetcher.NegativeWhenNotCoveredExceedsComplexity | src/main/java/org/sonar/plugins/technicaldebt/axis/ComplexityToCoverFetcher.java:42-44 | The subtraction is unguarded: not-covered complexity above the complexity gives a negative value, not a decline |
| ValueFetcher.ReadsOnlyComplexityMeasures | src/main/java/org/sonar/plugins/technicaldebt/axis/ComplexityToCoverFetcher.java:32-43 | Two snapshots that agree on complexity and not-covered complexity give the same result |
| ValueFetcher.FetcherExamples | src/test/java/org/sonar/plugins/technicaldebt/axis/ComplexityToCoverFetcherTest.java:47-75 | The unit-test cases: no complexity declines; complexity 10 gives 10; 10 with 3 not covered gives 7 |
| Settings.Days | src/main/java/org/sonar/plugins/technicaldebt/axis/ComplexityDebtCalculator.java:62-65 | A cost in hours converts to days: days times 8 equals units times hours per unit, and it is non-negative for non-negative inputs |
| ComplexityDebt.ActualDebt | src/main/java/org/sonar/plugins/technicaldebt/axis/ComplexityDebtCalculator.java:54-66 | Zero when the distance metric is absent; otherwise 8 times the debt equals the distance times the method-complexity cost |
| ComplexityDebt.PossibleDebt | src/main/java/org/sonar/plugins/technicaldebt/axis/ComplexityDebtCalculator.java:68-101 | Declines exactly when complexity is absent or complexity minus not-covered complexity is below the file ceiling; otherwise 8 times the debt equals the overrun times the cost, and it is ≥ 0 for a non-negative cost |
| ComplexityDebt.ComplexityToBeCoveredAgreesWithFetcher | src/main/java/org/sonar/plugins/technicaldebt/axis/ComplexityDebtCalculator.java:83-101 | The calculator's private copy of complexity-to-be-covered agrees with the fetcher on every snapshot |
| ComplexityDebt.PossibleDebtThroughFetcher | src/main/java/org/sonar/plugins/technicaldebt/axis/ComplexityDebtCalculator.java:68-81 | The possible debt is the overrun of the fetched complexity over the ceiling converted to days, declining when the fetcher declines or the overrun is negative |
| ComplexityDebt.ZeroOverrunIsZeroDebt | src/main/java/org/sonar/plugins/technicaldebt/axis/ComplexityDebtCalculator.java:70-80 | An overrun of exactly 0 is not negative, so it gives a computed debt of 0 rather than a decline |
| ComplexityDebt.ComplexityExamples | src/test/java/org/sonar/plugins/technicaldebt/axis/ComplexityDebtCalculatorTest.java:52-110 | The unit-test cases at default rates: no complexity declines; overrun 12 gives 12·0.2/8; with 2 not covered (12−2)·0.2/8; one below the ceiling declines; distance 12 gives 12·0.2/8 |
| CoverageDebt.ActualDebt | src/main/java/org/sonar/plugins/technicaldebt/axis/CoverageDebtCalculator.java:55-77 | Zero when coverage is absent or the fetcher declines; otherwise, with gap = (0.8 − coverage/100) × complexity, zero when the gap is ≤ 0 and gap × cost / 8 when positive; never negative for a non-negative cost |
| CoverageDebt.PossibleDebt | src/main/java/org/sonar/plugins/technicaldebt/axis/CoverageDebtCalculator.java:84-99 | Declines exactly when coverage is absent or the fetcher declines; otherwise 8 times the debt equals 0.8 × complexity × cost |
| CoverageDebt.PossibleDebtIgnoresCoverageValue | src/main/java/org/sonar/plugins/technicaldebt/axis/CoverageDebtCalculator.java:86-98 | The possible debt needs coverage present but does not depend on its value |
| CoverageDebt.NoDebtAtTarget | src/main/java/org/sonar/plugins/technicaldebt/axis/CoverageDebtCalculator.java:69-76 | Coverage at or above the 80% target gives no actual debt for a non-negative complexity |
| CoverageDebt.ActualWithinPossible | src/main/java/org/sonar/plugins/technicaldebt/axis/CoverageDebtCalculator.java:55-99 | For non-negative coverage, complexity and cost, the possible debt is computed and bounds the actual debt from above, which is ≥ 0 |
| CoverageDebt.CoverageExamples | src/test/java/org/sonar/plugins/technicaldebt/axis/CoverageDebtCalculatorTest.java:50-105 | The unit-test cases with a fetcher returning 123: no coverage declines and costs nothing; the possible debt is 123·0.8·1.5/8; 81% costs nothing; 79% costs (0.8−0.79)·123·1.5/8 |
| DuplicationDebt.PossibleDebt | src/main/java/org/sonar/plugins/technicaldebt/axis/DuplicationDebtCalculator.java:68-86 | Zero when the line count is absent; otherwise the lines in 50-line blocks times the block cost, in days |
| DuplicationDebt.ActualDebt | src/main/java/org/sonar/plugins/technicaldebt/axis/DuplicationDebtCalculator.java:54-63 | Zero when the density is absent; otherwise density/100 of the possible debt |
| DuplicationDebt.NoLinesNoDebt | src/main/java/org/sonar/plugins/technicaldebt/axis/DuplicationDebtCalculator.java:54-86 | Without a line count both debts are zero, whatever the density |
| DuplicationDebt.ActualWithinPossible | src/main/java/org/sonar/plugins/technicaldebt/axis/DuplicationDebtCalculator.java:54-63 | A density between 0 and 100 puts the actual debt between 0 and a non-negative possible debt |
| DuplicationDebt.DuplicationExamples | src/main/java/org/sonar/plugins/technicaldebt/axis/DuplicationDebtCalculator.java:54-86 | Worked cases at default rates: 345 lines give a possible debt of 345/50·2/8 (the figure of the unit test); a density of 30% of those lines gives 0.3 of it; no line count gives 0 |
| Doubles.Quotient | src/main/java/org/sonar/plugins/technicaldebt/TechnicalDebtDecorator.java:114-117 | Division by a non-zero total is exact; by zero it is +∞ exactly for positive, −∞ exactly for negative and NaN exactly for zero numerators |
| Doubles.FloorHundredths | src/main/java/org/sonar/plugins/technicaldebt/TechnicalDebtDecorator.java:143-144 | A finite value floors to the largest multiple of 0.01 not above it; infinities and NaN pass through unchanged |
| Doubles.FloorHundredthsOfPercentage | src/main/java/org/sonar/plugins/technicaldebt/TechnicalDebtDecorator.java:140-146 | A positive percentage floors to a value in [0, p], and one at most 100 stays at most 100; the floor may be 0 |
| Axes.DependsOnAll | src/main/java/org/sonar/plugins/technicaldebt/TechnicalDebtDecorator.java:70-77 | The concatenated dependencies hold a metric exactly when some axis in the list depends on it |
| Axes.NamesDistinct | src/main/java/org/sonar/plugins/technicaldebt/TechnicalDebtDecorator.java:58-60 | The three axes of the list have distinct names, so repartition keys never collide |
| Axes.DeclaredDependencies | src/main/java/org/sonar/plugins/technicaldebt/TechnicalDebtDecorator.java:70-77 | The declared dependencies are, in order, the distance metric, complexity, coverage, duplicated-lines density and lines; not-covered complexity is not among them |
| Axes.UndeclaredMetricChangesTotals | src/main/java/org/sonar/plugins/technicaldebt/axis/ComplexityDebtCalculator.java:83-105 | Adding only a not-covered complexity measure changes the possible-debt total, so the undeclared metric matters |
| Axes.DebtsNonNegative | src/main/java/org/sonar/plugins/technicaldebt/TechnicalDebtDecorator.java:100-108 | For plausible measures and non-negative costs, every axis's actual debt and its computed possible debt are ≥ 0 |
| Axes.TotalsWhenAllCounted | src/main/java/org/sonar/plugins/technicaldebt/TechnicalDebtDecorator.java:100-108 | When no axis declines, the totals are the plain sums of the three actual and the three possible debts |
| Repartition.EntryIffPositive | src/main/java/org/sonar/plugins/technicaldebt/TechnicalDebtDecorator.java:114-146 | An axis has a repartition entry exactly when its percentage of the total is positive, and its only entry holds that percentage floored to hundredths |
| Repartition.TinyShareSavedAsZero | src/main/java/org/sonar/plugins/technicaldebt/TechnicalDebtDecorator.java:140-146 | A share of 1 day in 20000 is 0.005%: it passes the `value > 0` filter and is saved as an entry of 0.00 |
| Repartition.InAxisOrder | src/main/java/org/sonar/plugins/technicaldebt/TechnicalDebtDecorator.java:114-117 | Entries appear in axis order: Complexity before Coverage before Duplication |
| Repartition.BoundedAgainstOwnSum | src/main/java/org/sonar/plugins/technicaldebt/TechnicalDebtDecorator.java:114-146 | For any three non-negative actual debts measured against their own sum, every entry is finite and within [0, 100] and the entries sum to at most 100 |
| Repartition.BoundedWhenAllCounted | src/main/java/org/sonar/plugins/technicaldebt/TechnicalDebtDecorator.java:114-146 | When every axis is counted with non-negative actual debt, every entry is finite and within [0, 100] and the entries sum to at most 100 |
| Repartition.ZeroTotal | src/main/java/org/sonar/plugins/technicaldebt/TechnicalDebtDecorator.java:114-146 | Against a zero total every entry is +∞, and an axis has an entry exactly when its actual debt is positive |
| Repartition.DeclinedAxisReportedAtInfinity | src/main/java/org/sonar/plugins/technicaldebt/TechnicalDebtDecorator.java:100-117 | A distance of 12 with no complexity: the complexity axis declines, both totals are 0, and the repartition is Complexity=+∞ |
| Repartition.DeclinedAxisExceedsHundred | src/main/java/org/sonar/plugins/technicaldebt/TechnicalDebtDecorator.java:100-117 | With the complexity axis declined but owing 0.1 days and duplication owing the whole total of 1 day, the repartition is Complexity=10 and Duplication=100 |
| TechnicalDebtDecorator.WholeListVisited | src/main/java/org/sonar/plugins/technicaldebt/TechnicalDebtDecorator.java:100-117 | Folding over the whole axis list in visiting order gives the closed-form totals of the counted axes and the closed-form repartition |
| TechnicalDebtDecorator.SumDebts | src/main/java/org/sonar/plugins/technicaldebt/TechnicalDebtDecorator.java:93-108 | The summing loop ends with the totals of actual and possible debt over the axes that do not decline |
| TechnicalDebtDecorator.BuildRepartition | src/main/java/org/sonar/plugins/technicaldebt/TechnicalDebtDecorator.java:113-117 | The repartition loop over every axis yields the closed-form repartition against the summed total |
| TechnicalDebtDecorator.SavedMeasures | src/main/java/org/sonar/plugins/technicaldebt/TechnicalDebtDecorator.java:119-130 | Debt in currency (days × daily rate) then debt in days, then the ratio days/possible × 100 only when the possible debt is positive, then the repartition; every saved metric is a generated one |
| TechnicalDebtDecorator.Decorate | src/main/java/org/sonar/plugins/technicaldebt/TechnicalDebtDecorator.java:92-131 | The two loops and the saves produce exactly the saved measures of the closed-form totals and repartition: four measures when the possible total is positive and three otherwise, ending with the repartition |

## Left out

- Logging, `saveMeasure` and persistence through the decorator context are not modelled. The model returns the saved measures as a sequence.
- The string serialisation of the repartition by `PropertiesBuilder` is not modelled. The repartition is a sequence of key and value entries.
- `shouldExecuteOnProject` always returns true, so it is not modelled.
- Double rounding is not modelled. Values are exact reals, and only the zero-divisor results of IEEE-754 division (±∞, NaN) are kept.
- Reading the rates from `Settings` is a `Config` value. Its defaults are the plugin's (daily rate 500, method complexity 0.2, duplicated blocks 2, uncovered complexity 1.5).
- The default file-complexity ceiling comes from `CxxCppNcssSensor`, which is not part of this model. It is a parameter.
- `AxisDebtCalculator` is not part of this model.
  - The duplication axis's actual and possible debts are taken to be `calculateAbsoluteDebt` and `calculateTotalPossibleDebt`.
  - `HOURS_PER_DAY`, which it declares, is assumed to be 8, one working day.
- The decorator builds the coverage calculator with `settings` alone (TechnicalDebtDecorator.java:59), but CoverageDebtCalculator.java declares only the two-argument constructor. The model passes `ComplexityToCoverFetcher`, the only fetcher.
- The block-based duplication unit tests are not modelled, because they exercise a block-count calculator, not the density-based one in DuplicationDebtCalculator.java.
- The Struts integration test is not modelled, because it needs a running analysis.
- Axes.DebtsNonNegative: requires plausible measures (non-negative values, not-covered complexity at most the complexity) for all three axes at once. The coverage actual debt and the complexity possible debt need no such condition, and their own contracts say so (`CoverageDebt.ActualDebt`, `ComplexityDebt.PossibleDebt`). The others go negative without it.
- DuplicationDebt.DuplicationExamples: only its 345-line case is a unit test (DuplicationDebtCalculatorTest.java:66-79). The no-lines test at DuplicationDebtCalculatorTest.java:81-90 expects `NoCalculation` from the block-based calculator. The model follows DuplicationDebtCalculator.java:71-78, which returns 0.
