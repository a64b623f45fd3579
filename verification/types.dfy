/**
 The record types of the nutrition tracker (types.ts).

 A `NutritionData` is the structured estimate the AI service returns for one
 food description; a `LogEntry` is such a record once the user has committed
 it to the daily log, extended with an identifier, a capture time and a
 quantity.
 */
module Types {

  /** An optional value: `None` stands for a field that is absent from the record. */
  datatype Option<+T> = None | Some(value: T) {

    /** The value if present, otherwise `default` (JavaScript's `x || default`
        on a field that is either a number or missing). */
    function GetOr(default: T): T {
      match this
      case Some(v) => v
      case None => default
    }
  }

  /** One analysed food. Quantities are in kcal (calories) and grams (the
      macro-nutrients). The response schema requires calories, protein, fat and
      carbohydrates but not fiber and sugar; the record itself is taken from the
      service unchecked, and the totals guard protein, fat and carbohydrates
      against absence, so those five are optional here and calories is not. */
  datatype NutritionData = NutritionData(
    foodName: string,
    calories: real,
    protein: Option<real>,
    fat: Option<real>,
    carbohydrates: Option<real>,
    fiber: Option<real>,
    sugar: Option<real>,
    servingSize: string,
    healthScore: real,
    summary: string,
    benefits: seq<string>
  )

  /** A committed record: every field of `data`, plus the generated identifier,
      the capture time in epoch milliseconds, and the quantity. */
  datatype LogEntry = LogEntry(data: NutritionData, id: string, timestamp: int, quantity: int)

  /** The documented (but nowhere enforced) range of the health score. */
  predicate ValidHealthScore(d: NutritionData) {
    1.0 <= d.healthScore <= 100.0
  }

  /** A present optional quantity is non-negative. */
  predicate NonNegativeOpt(q: Option<real>) {
    q.Some? ==> q.value >= 0.0
  }

  /** The documented shape of a sensible estimate: non-negative quantities and a
      health score in range. Nothing in the application checks it. */
  predicate WellFormed(d: NutritionData) {
    && d.calories >= 0.0
    && NonNegativeOpt(d.protein)
    && NonNegativeOpt(d.fat)
    && NonNegativeOpt(d.carbohydrates)
    && NonNegativeOpt(d.fiber)
    && NonNegativeOpt(d.sugar)
    && ValidHealthScore(d)
  }
}
