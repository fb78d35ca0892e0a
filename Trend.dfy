/** The two series the trend calculator produces. */
module Trend {

  /** `TrendPoint`: a day and a weight in kilograms. */
  datatype TrendPoint = TrendPoint(date: int, weightKg: real)

  /** `WeightTrend`: the per-day averages and the smoothed rolling averages. */
  datatype WeightTrend = WeightTrend(dailyPoints: seq<TrendPoint>, rollingAveragePoints: seq<TrendPoint>)
}
