/** A stored weight sample and its unit conversions. */
module Entries {
  import opened Rounding

  /**
   * `WeightEntry`. The sample's instant and zone are replaced by `day`, the calendar
   * day (a day number) the trend calculator's zone assigns to the instant.
   */
  datatype WeightEntry = WeightEntry(id: string, weightKg: real, day: int) {

    /** `weightLbs`: the weight in pounds; dividing by the ratio gives the kilograms back. */
    function WeightLbs(): (lbs: real)
      ensures lbs / KG_TO_LB == weightKg
      ensures weightKg > 0.0 ==> lbs > weightKg
    {
      weightKg * KG_TO_LB
    }

    /** `roundedKg`: the kilograms to one decimal place. */
    function RoundedKg(): (r: real)
      ensures IsTenths(r) && weightKg - 0.05 < r <= weightKg + 0.05
    {
      RoundToTenthsNearest(weightKg);
      RoundToTenths(weightKg)
    }

    /** `roundedLbs`: the pounds to one decimal place. */
    function RoundedLbs(): (r: real)
      ensures IsTenths(r) && WeightLbs() - 0.05 < r <= WeightLbs() + 0.05
    {
      RoundToTenthsNearest(WeightLbs());
      RoundToTenths(WeightLbs())
    }
  }

  /** An entry whose weight is already rounded rounds to the same value again. */
  lemma RoundedKgIdempotent(e: WeightEntry)
    ensures e.(weightKg := e.RoundedKg()).RoundedKg() == e.RoundedKg()
  {
    RoundToTenthsIdempotent(e.weightKg);
  }

  /** `roundedLbs` is the only multiple of 0.1 within half a tenth (ties up) of `weightLbs`. */
  lemma RoundedLbsIsNearestTenth(e: WeightEntry, r: real)
    requires IsTenths(r) && e.WeightLbs() - 0.05 < r <= e.WeightLbs() + 0.05
    ensures e.RoundedLbs() == r
  {
    RoundToTenthsUnique(e.WeightLbs(), r);
  }
}
