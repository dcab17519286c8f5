/** Game constants of the newer revision (src/utils/constants.ts). Fractional constants are exact rationals. */
module Constants {

  const SECONDS_PER_DAY: int := 60 * 60 * 24
  const DAYS_PER_MONTH: int := 30

  const BASE_FOOD_PRODUCTION_PER_FARMER: real := 1.0
  const BASE_ORE_PRODUCTION_PER_MINER: real := 0.5
  const BASE_WEAPON_PRODUCTION_PER_CRAFTSMAN: real := 0.3
  const BASE_FOOD_CONSUMPTION_PER_PERSON: real := 1.0
  const BASE_FOOD_CONSUMPTION_PER_SOLDIER: real := 1.5

  const BASE_TAX_PER_POPULATION: real := 1.2

  /** A `Record<number, number>` of thresholds, given as its keys sorted from largest to smallest
      together with their coefficients: the order `getCoefficient` walks them in. */
  type CoefficientTable = seq<(int, real)>

  predicate Descending(t: CoefficientTable)
  {
    forall i, j :: 0 <= i < j < |t| ==> t[i].0 > t[j].0
  }

  const EQUIPMENT_COEFFICIENTS: CoefficientTable :=
    [(100, 1.0), (80, 0.9), (60, 0.75), (40, 0.5), (20, 0.3), (0, 0.2)]

  /** There is no entry for threshold 0. */
  const MORALE_COEFFICIENTS: CoefficientTable :=
    [(100, 1.15), (80, 1.0), (60, 0.85), (40, 0.65), (20, 0.4)]

  const SATISFACTION_GROWTH_THRESHOLD: int := 70
  const SATISFACTION_DECLINE_THRESHOLD: int := 30

  const POPULATION_GROWTH_RATE: real := 0.02
  const POPULATION_DECLINE_RATE: real := 0.01
  const STARVATION_DECLINE_RATE: real := 0.05

  const MAX_LOG_ENTRIES: int := 100

  const INITIAL_GOLD: int := 500
  const INITIAL_FOOD: int := 100
  const INITIAL_POPULATION: int := 10
  const INITIAL_SATISFACTION: int := 60
  const INITIAL_MORALE: int := 70
}
