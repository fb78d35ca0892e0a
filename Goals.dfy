/** A weight goal: a target weight and the day it should be reached. */
module Goals {
  import opened Rounding

  /**
   * `WeightGoal`. Dates are day numbers; the random-UUID and `LocalDate.now()` defaults
   * of the constructor are not modelled, so `id` and `createdAt` are always given.
   */
  datatype WeightGoal = WeightGoal(id: string, targetWeightKg: real, targetDate: int, createdAt: int) {

    /** `targetWeightLbs`: the target in pounds; dividing by the ratio gives the kilograms back. */
    function TargetWeightLbs(): (lbs: real)
      ensures lbs / KG_TO_LB == targetWeightKg
      ensures targetWeightKg > 0.0 ==> lbs > targetWeightKg
    {
      targetWeightKg * KG_TO_LB
    }

    /** `roundedKg`: the target in kilograms to one decimal place. */
    function RoundedKg(): (r: real)
      ensures IsTenths(r) && targetWeightKg - 0.05 < r <= targetWeightKg + 0.05
    {
      RoundToTenthsNearest(targetWeightKg);
      RoundToTenths(targetWeightKg)
    }

    /** `roundedLbs`: the target in pounds to one decimal place. */
    function RoundedLbs(): (r: real)
      ensures IsTenths(r) && TargetWeightLbs() - 0.05 < r <= TargetWeightLbs() + 0.05
    {
      RoundToTenthsNearest(TargetWeightLbs());
      RoundToTenths(TargetWeightLbs())
    }

    /** `daysRemaining`: the number of days to add to `today` to reach the target date. */
    function DaysRemaining(today: int): (n: int)
      ensures today + n == targetDate
    {
      targetDate - today
    }

    /** `isPastDue`: the target date lies before `today`. */
    predicate IsPastDue(today: int) {
      targetDate < today
    }

    /** `isDueToday`: the target date is `today`. */
    predicate IsDueToday(today: int) {
      targetDate == today
    }
  }

  /** A goal is past due exactly when fewer than zero days remain, and due today exactly
      when none remain; it is never both. */
  lemma DueStatusMatchesDaysRemaining(g: WeightGoal, today: int)
    ensures g.IsPastDue(today) <==> g.DaysRemaining(today) < 0
    ensures g.IsDueToday(today) <==> g.DaysRemaining(today) == 0
    ensures !(g.IsPastDue(today) && g.IsDueToday(today))
  {
  }

  /** The rounded target rounds to itself. */
  lemma RoundedKgIdempotent(g: WeightGoal)
    ensures g.(targetWeightKg := g.RoundedKg()).RoundedKg() == g.RoundedKg()
  {
    RoundToTenthsIdempotent(g.targetWeightKg);
  }
}
