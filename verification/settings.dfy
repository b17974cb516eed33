/**
  Cost configuration of the technical-debt engine. Every rate is a number of
  hours per unit of the measured defect; the debt itself is counted in
  developer days.
 */
module Settings {

  /** Working hours in one developer day. */
  const HOURS_PER_DAY: real := 8.0

  /** Default rates registered by the plugin. */
  const DAILY_RATE_DEFAULT: real := 500.0
  const COST_METHOD_COMPLEXITY_DEFAULT: real := 0.2
  const COST_DUPLICATED_BLOCKS_DEFAULT: real := 2.0
  const COST_UNCOVERED_COMPLEXITY_DEFAULT: real := 1.5

  /**
    The settings one analysis run reads: the daily rate of a developer, the
    three hour costs, and the complexity ceiling of a file (an integer
    setting of the complexity analyser).
   */
  datatype Config = Config(
    dailyRate: real,
    costMethodComplexity: real,
    costDuplicatedBlocks: real,
    costUncoveredComplexity: real,
    maxComplexityOfFile: int)

  /** The plugin's default rates with the given complexity ceiling. */
  function DefaultConfig(maxComplexityOfFile: int): Config
  {
    Config(DAILY_RATE_DEFAULT, COST_METHOD_COMPLEXITY_DEFAULT,
           COST_DUPLICATED_BLOCKS_DEFAULT, COST_UNCOVERED_COMPLEXITY_DEFAULT,
           maxComplexityOfFile)
  }

  /**
    The days of work that `units` defects represent when each costs
    `hoursPerUnit` hours: spread over working days, they add up to exactly
    the hours of work.
   */
  function Days(units: real, hoursPerUnit: real): (d: real)
    ensures d * HOURS_PER_DAY == units * hoursPerUnit
    ensures units >= 0.0 && hoursPerUnit >= 0.0 ==> d >= 0.0
  {
    units * hoursPerUnit / HOURS_PER_DAY
  }
}
