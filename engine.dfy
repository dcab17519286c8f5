/** The older single-file engine (engine.js): the `Calcs` helpers as functions over an engine
    snapshot, and the `GameEngine` class whose methods update that snapshot in place. */
module Engine {
  import opened Common
  import Calculations

  // ---------------------------------------------------------------------------------------------
  // CONSTANTS

  const DAYS_PER_MONTH: int := 30
  const BASE_FOOD_PRODUCTION: real := 1.0
  const BASE_ORE_PRODUCTION: real := 0.5
  const BASE_FOOD_CONSUMPTION_CIVILIAN: real := 1.0
  const BASE_FOOD_CONSUMPTION_SOLDIER: real := 1.5
  const BASE_TAX_PER_POPULATION: real := 1.2
  const TAX_RATE: real := 0.15
  const SOLDIER_UPKEEP: int := 5
  const SATISFACTION_GROWTH: int := 70
  const SATISFACTION_DECLINE: int := 30
  const INITIAL_GOLD: int := 500
  const INITIAL_FOOD: real := 100.0
  const INITIAL_POPULATION: int := 10
  const MAX_LOG_ENTRIES: int := 50
  /** In-game days per real second at speed 1. */
  const DAY_SCALE: real := 0.1
  /** A catalogue build time is divided by this when the order is queued. */
  const BUILD_TIME_DIVISOR: real := 10.0

  // ---------------------------------------------------------------------------------------------
  // The engine snapshot

  datatype Effect = Effect(kind: string, value: int)

  /** An entry of the building catalogue of data.js (data.js is not part of this model). */
  datatype BuildingData = BuildingData(id: string, name: string, goldCost: int, buildTime: int, effect: Effect)

  /** A catalogue entry copied into the built list, stamped with the (fractional) day. */
  datatype BuiltBuilding = BuiltBuilding(data: BuildingData, builtAt: real)

  datatype TechData = TechData(id: string, isResearched: bool, effect: Effect)

  datatype QueuedBuilding = QueuedBuilding(buildingId: string, name: string, remainingTime: real)

  datatype LogKind = Domestic | Important
  datatype LogPriority = NormalPriority | HighPriority

  /** What a log line reports; the source writes these as Japanese sentences. */
  datatype LogMessage =
    | Founding
    | FoodShortage
    | Immigrants(arrived: int)
    | Emigrants(left: int)
    | Bankrupt
    | ConstructionStarted(buildingName: string)
    | ConstructionFinished(buildingName: string)

  /** `day` is the whole day the entry was written on; the opening entry carries no priority. */
  datatype LogEntry = LogEntry(kind: LogKind, message: LogMessage, day: int, priority: Option<LogPriority>)

  /** Food and ore accumulate fractional daily amounts, so they are rationals. */
  datatype EngineResources = EngineResources(gold: int, food: real, ore: real, mana: int, weapons: int)

  datatype EnginePopulation = EnginePopulation(
    total: int, farmers: int, miners: int, craftsmen: int, soldiers: int, unemployed: int)

  /** `totalSoldiers` is `military.totalSoldiers`, the only military field of this revision. */
  datatype EngineState = EngineState(
    day: real,
    gameSpeed: int,
    isPaused: bool,
    resources: EngineResources,
    population: EnginePopulation,
    satisfaction: int,
    buildings: seq<BuiltBuilding>,
    constructionQueue: seq<QueuedBuilding>,
    technologies: seq<TechData>,
    eventLog: seq<LogEntry>,
    totalSoldiers: int)

  predicate EnginePartitioned(p: EnginePopulation)
  {
    p.total == p.farmers + p.miners + p.craftsmen + p.soldiers + p.unemployed
  }

  /** First catalogue entry with the given id (`BUILDINGS.find`). */
  function FindData(catalog: seq<BuildingData>, id: string): (r: Option<BuildingData>)
    ensures r.Some? ==> r.value in catalog && r.value.id == id
    decreases |catalog|
  {
    if catalog == [] then None
    else if catalog[0].id == id then Some(catalog[0])
    else FindData(catalog[1..], id)
  }

  /** The lookup fails exactly when no catalogue entry carries the id. */
  lemma {:induction false} FindDataMissing(catalog: seq<BuildingData>, id: string)
    ensures FindData(catalog, id).None? <==> forall i :: 0 <= i < |catalog| ==> catalog[i].id != id
    decreases |catalog|
  {
    if catalog != [] && catalog[0].id != id {
      FindDataMissing(catalog[1..], id);
      assert forall i :: 1 <= i < |catalog| ==> catalog[i] == catalog[1..][i - 1];
    }
  }

  /** Every queued order names a catalogue entry. */
  predicate Known(catalog: seq<BuildingData>, q: seq<QueuedBuilding>)
  {
    forall i :: 0 <= i < |q| ==> FindData(catalog, q[i].buildingId).Some?
  }

  /** What every reachable engine snapshot satisfies. */
  predicate Inv(s: EngineState, catalog: seq<BuildingData>)
  {
    |s.eventLog| <= MAX_LOG_ENTRIES && Known(catalog, s.constructionQueue)
    && s.resources.food >= 0.0 && s.population.total >= 0
  }

  // ---------------------------------------------------------------------------------------------
  // Calcs

  /** Sum of the effect values of the built buildings whose effect has the given type. */
  function BuildingBonus(bs: seq<BuiltBuilding>, kind: string): (r: int)
    ensures (forall i :: 0 <= i < |bs| ==> bs[i].data.effect.value >= 0) ==> r >= 0
    ensures (forall i :: 0 <= i < |bs| ==> bs[i].data.effect.kind != kind) ==> r == 0
    decreases |bs|
  {
    if bs == [] then 0
    else (if bs[0].data.effect.kind == kind then bs[0].data.effect.value else 0) + BuildingBonus(bs[1..], kind)
  }

  /** Sum of the effect values of the researched technologies whose effect has the given type. */
  function TechBonus(ts: seq<TechData>, kind: string): (r: int)
    ensures (forall i :: 0 <= i < |ts| ==> ts[i].effect.value >= 0) ==> r >= 0
    ensures (forall i :: 0 <= i < |ts| ==> !ts[i].isResearched || ts[i].effect.kind != kind) ==> r == 0
    decreases |ts|
  {
    if ts == [] then 0
    else (if ts[0].isResearched && ts[0].effect.kind == kind then ts[0].effect.value else 0)
         + TechBonus(ts[1..], kind)
  }

  function FoodBonus(s: EngineState): int
  {
    BuildingBonus(s.buildings, "foodProduction") + TechBonus(s.technologies, "farmEfficiency")
  }

  function TaxBonus(s: EngineState): int
  {
    BuildingBonus(s.buildings, "taxBonus") + TechBonus(s.technologies, "taxBonus")
  }

  /** Daily food output: one unit per farmer, raised by the bonus percentage, not rounded. */
  function FoodProduction(s: EngineState): (r: real)
    ensures FoodBonus(s) == 0 ==> r == s.population.farmers as real
    ensures s.population.farmers >= 0 && FoodBonus(s) >= 0 ==> r >= s.population.farmers as real
    ensures s.population.farmers >= 0 && FoodBonus(s) >= -100 ==> r >= 0.0
  {
    var base := s.population.farmers as real * BASE_FOOD_PRODUCTION;
    PercentOf(s.population.farmers, FoodBonus(s));
    base * Calculations.Multiplier(FoodBonus(s))
  }

  /** The daily food output in integers: a hundredth of `farmers * (100 + bonus)`. */
  lemma FoodProductionExact(s: EngineState)
    ensures 100.0 * FoodProduction(s) == (s.population.farmers * (100 + FoodBonus(s))) as real
  {
    PercentOf(s.population.farmers, FoodBonus(s));
  }

  lemma PercentOf(x: int, b: int)
    ensures 100.0 * ((x as real * BASE_FOOD_PRODUCTION) * Calculations.Multiplier(b)) == (x * (100 + b)) as real
    ensures x >= 0 && b >= -100 ==> x * (100 + b) >= 0
    ensures x >= 0 && b >= 0 ==> x * (100 + b) >= 100 * x
  {
    var xr, br := x as real, b as real;
    assert 100.0 * ((xr * 1.0) * (1.0 + br / 100.0)) == xr * (100.0 + br);
    Calculations.MulCast(x, 100 + b);
    if x >= 0 && b >= -100 {
      Calculations.MulNonNegative(x, 100 + b);
    }
    if x >= 0 && b >= 0 {
      Calculations.MulNonNegative(x, b);
      Calculations.Distribute(x, b);
    }
  }

  /** Daily food eaten: one unit per civilian and one and a half per soldier. */
  function FoodConsumption(s: EngineState): (r: real)
    ensures 2.0 * r == (2 * s.population.total + s.totalSoldiers) as real
    ensures s.totalSoldiers >= 0 ==> r >= s.population.total as real
  {
    var civilians := s.population.total - s.totalSoldiers;
    civilians as real * BASE_FOOD_CONSUMPTION_CIVILIAN + s.totalSoldiers as real * BASE_FOOD_CONSUMPTION_SOLDIER
  }

  /** Monthly tax: 1.2 per head, scaled by satisfaction, a 15% rate and the tax bonus, rounded down. */
  function TaxIncome(s: EngineState): (r: int)
    ensures s.satisfaction == 0 || s.population.total == 0 ==> r == 0
    ensures s.population.total >= 0 && s.satisfaction >= 0 && TaxBonus(s) >= -100 ==> r >= 0
  {
    var baseTax := s.population.total as real * BASE_TAX_PER_POPULATION;
    var satisfactionCoef := s.satisfaction as real / 100.0;
    Calculations.TaxFloor(s.population.total, s.satisfaction, TaxBonus(s));
    (baseTax * satisfactionCoef * TAX_RATE * Calculations.Multiplier(TaxBonus(s))).Floor
  }

  /** The tax formula in integers: `floor(18 * total * satisfaction * (100 + bonus) / 1000000)`. */
  lemma TaxIncomeExact(s: EngineState)
    ensures 1000000 * TaxIncome(s) <= 18 * s.population.total * s.satisfaction * (100 + TaxBonus(s))
            < 1000000 * (TaxIncome(s) + 1)
  {
    Calculations.TaxFloor(s.population.total, s.satisfaction, TaxBonus(s));
  }

  /** A more satisfied people never pays less tax, all else equal. */
  lemma {:induction false} TaxMonotoneInSatisfaction(s: EngineState, satisfaction: int)
    requires s.population.total >= 0 && TaxBonus(s) >= -100
    requires 0 <= s.satisfaction <= satisfaction
    ensures TaxIncome(s) <= TaxIncome(s.(satisfaction := satisfaction))
  {
    var t := s.(satisfaction := satisfaction);
    assert TaxBonus(t) == TaxBonus(s);
    TaxIncomeExact(s);
    TaxIncomeExact(t);
    TaxProductMonotone(s.population.total, TaxBonus(s), s.satisfaction, satisfaction);
    ScaledFloorMonotone(18 * s.population.total * s.satisfaction * (100 + TaxBonus(s)),
                        18 * t.population.total * t.satisfaction * (100 + TaxBonus(t)),
                        TaxIncome(s), TaxIncome(t));
  }

  lemma TaxProductMonotone(total: int, bonus: int, lo: int, hi: int)
    requires total >= 0 && bonus >= -100 && 0 <= lo <= hi
    ensures 18 * total * lo * (100 + bonus) <= 18 * total * hi * (100 + bonus)
  {
    var k := 18 * total * (100 + bonus);
    assert k >= 0 by {
      Calculations.MulNonNegative(total, 100 + bonus);
    }
    assert 18 * total * lo * (100 + bonus) == k * lo;
    assert 18 * total * hi * (100 + bonus) == k * hi;
    Calculations.MulNonNegative(k, hi - lo);
  }

  /** Of two values each pinned between consecutive multiples of a million, the smaller has the smaller quotient. */
  lemma ScaledFloorMonotone(a: int, b: int, x: int, y: int)
    requires 1000000 * x <= a < 1000000 * (x + 1)
    requires 1000000 * y <= b < 1000000 * (y + 1)
    requires a <= b
    ensures x <= y
  {
  }

  /** `Math.max(1, foodConsumption)`: the divisor of the food-days ratio. */
  function RationDivisor(s: EngineState): (r: real)
    ensures r >= 1.0
  {
    var c := FoodConsumption(s);
    if c >= 1.0 then c else 1.0
  }

  lemma DaysAtLeast(food: real, c: real, k: real)
    requires c > 0.0
    ensures food / c >= k <==> food >= k * c
  {
    var d := food / c;
    assert d * c == food;
    assert d * c - k * c == (d - k) * c;
    if d >= k {
      assert (d - k) * c >= 0.0;
    } else {
      assert (k - d) * c > 0.0;
    }
  }

  /** Satisfaction from the food stock alone: 70 with a week of food, 60 with three days, 20 with
      less than one day, otherwise 50. */
  function Satisfaction(s: EngineState): (r: int)
    ensures r == 20 || r == 50 || r == 60 || r == 70
    ensures r >= SATISFACTION_GROWTH <==> s.resources.food >= 7.0 * RationDivisor(s)
    ensures r >= 60 <==> s.resources.food >= 3.0 * RationDivisor(s)
    ensures r <= SATISFACTION_DECLINE <==> s.resources.food < RationDivisor(s)
  {
    var consumption := RationDivisor(s);
    var foodDays := s.resources.food / consumption;
    DaysAtLeast(s.resources.food, consumption, 7.0);
    DaysAtLeast(s.resources.food, consumption, 3.0);
    DaysAtLeast(s.resources.food, consumption, 1.0);
    var score := 50 + (if foodDays >= 7.0 then 20 else if foodDays >= 3.0 then 10
                       else if foodDays < 1.0 then -30 else 0);
    Max(0, Min(100, score))
  }

  // ---------------------------------------------------------------------------------------------
  // addLog and addPopulation

  function PriorityOf(kind: LogKind): LogPriority
  {
    if kind == Important then HighPriority else NormalPriority
  }

  /** The log after `unshift` of `e` and, past fifty entries, `pop` of the oldest. */
  function PushLog(log: seq<LogEntry>, e: LogEntry): (r: seq<LogEntry>)
    ensures |r| >= 1 && r[0] == e
    ensures |log| < MAX_LOG_ENTRIES ==> r == [e] + log
    ensures |log| >= MAX_LOG_ENTRIES ==> |r| == |log| && r[1..] == log[..|log| - 1]
    ensures |log| <= MAX_LOG_ENTRIES ==> |r| <= MAX_LOG_ENTRIES
  {
    var l := [e] + log;
    if |l| > MAX_LOG_ENTRIES then l[..|l| - 1] else l
  }

  /** `addLog(message, kind)`: a new newest entry stamped with the whole day. */
  function WithLog(s: EngineState, message: LogMessage, kind: LogKind): (r: EngineState)
    ensures r == s.(eventLog := r.eventLog)
    ensures |r.eventLog| >= 1 && r.eventLog[0] == LogEntry(kind, message, s.day.Floor, Some(PriorityOf(kind)))
    ensures r.eventLog[0].priority == Some(HighPriority) <==> kind == Important
    ensures |s.eventLog| <= MAX_LOG_ENTRIES ==> |r.eventLog| <= MAX_LOG_ENTRIES
  {
    s.(eventLog := PushLog(s.eventLog, LogEntry(kind, message, s.day.Floor, Some(PriorityOf(kind)))))
  }

  /** `addPopulation(amount)`: arrivals join the unemployed; departures leave only from the
      unemployed, at most as many as there are. */
  function PopulationAfter(p: EnginePopulation, amount: int): (r: EnginePopulation)
    ensures r.total == p.total + amount
    ensures r == p.(total := r.total, unemployed := r.unemployed)
    ensures amount > 0 ==> r.unemployed == p.unemployed + amount
    ensures amount <= 0 && p.unemployed >= 0 ==> 0 <= r.unemployed <= p.unemployed
    ensures amount <= 0 && p.unemployed >= -amount ==> r.unemployed == p.unemployed + amount
  {
    if amount > 0 then p.(total := p.total + amount, unemployed := p.unemployed + amount)
    else
      var actualLoss := Min(p.unemployed, if amount < 0 then -amount else amount);
      p.(total := p.total + amount, unemployed := p.unemployed - actualLoss)
  }

  /** The head count stays the sum of the jobs exactly when nobody has to leave from a job. */
  lemma PopulationAfterPartition(p: EnginePopulation, amount: int)
    requires EnginePartitioned(p)
    ensures EnginePartitioned(PopulationAfter(p, amount)) <==> amount > 0 || p.unemployed >= -amount
  {
    if amount <= 0 && p.unemployed < -amount {
      assert PopulationAfter(p, amount).unemployed == p.unemployed - Min(p.unemployed, -amount);
    }
  }

  // ---------------------------------------------------------------------------------------------
  // processDailyUpdate and processMonthlyUpdate

  /** One day of farming, mining and eating; a shortfall empties the granary and is logged. */
  function Daily(s: EngineState): (r: EngineState)
    ensures r == s.(resources := r.resources, eventLog := r.eventLog)
    ensures r.resources == s.resources.(food := r.resources.food, ore := r.resources.ore)
    ensures r.resources.food >= 0.0
    ensures r.resources.ore == s.resources.ore + s.population.miners as real * BASE_ORE_PRODUCTION
    ensures var stock := s.resources.food + (FoodProduction(s) - FoodConsumption(s));
            (stock >= 0.0 ==> r.resources.food == stock && r.eventLog == s.eventLog)
            && (stock < 0.0 ==> r.resources.food == 0.0 && |r.eventLog| >= 1 && r.eventLog[0].message == FoodShortage
                                && r.eventLog == WithLog(s, FoodShortage, Domestic).eventLog)
    ensures |s.eventLog| <= MAX_LOG_ENTRIES ==> |r.eventLog| <= MAX_LOG_ENTRIES
  {
    var foodProd := FoodProduction(s);
    var oreProd := s.population.miners as real * BASE_ORE_PRODUCTION;
    var foodCons := FoodConsumption(s);
    var fed := s.(resources := s.resources.(food := s.resources.food + (foodProd - foodCons),
                                            ore := s.resources.ore + oreProd));
    if fed.resources.food < 0.0 then WithLog(fed.(resources := fed.resources.(food := 0.0)), FoodShortage, Domestic)
    else fed
  }

  /** `Math.ceil(total * 0.02)`: the monthly arrivals of a content people. */
  function Immigration(total: int): (r: int)
    ensures total > 0 ==> r >= 1
    ensures total >= 0 ==> 0 <= r && r as real - 1.0 < total as real * 0.02 <= r as real
  {
    Ceil(total as real * 0.02)
  }

  /** `Math.ceil(total * 0.01)`: the monthly departures of a discontented people. */
  function Emigration(total: int): (r: int)
    ensures total > 0 ==> 1 <= r <= total
    ensures total == 0 ==> r == 0
  {
    Ceil(total as real * 0.01)
  }

  /** The migration step of the monthly update, driven by the freshly computed satisfaction. */
  function Migrated(s: EngineState): (r: EngineState)
    ensures r == s.(population := r.population, eventLog := r.eventLog)
    ensures r.population == (if s.satisfaction >= SATISFACTION_GROWTH
                             then PopulationAfter(s.population, Immigration(s.population.total))
                             else if s.satisfaction <= SATISFACTION_DECLINE
                             then PopulationAfter(s.population, -Emigration(s.population.total))
                             else s.population)
    ensures r.eventLog == (if s.satisfaction >= SATISFACTION_GROWTH
                           then WithLog(s, Immigrants(Immigration(s.population.total)), Domestic).eventLog
                           else if s.satisfaction <= SATISFACTION_DECLINE
                           then WithLog(s, Emigrants(Emigration(s.population.total)), Important).eventLog
                           else s.eventLog)
    ensures |s.eventLog| <= MAX_LOG_ENTRIES ==> |r.eventLog| <= MAX_LOG_ENTRIES
  {
    if s.satisfaction >= SATISFACTION_GROWTH then
      var growth := Immigration(s.population.total);
      WithLog(s.(population := PopulationAfter(s.population, growth)), Immigrants(growth), Domestic)
    else if s.satisfaction <= SATISFACTION_DECLINE then
      var decline := Emigration(s.population.total);
      WithLog(s.(population := PopulationAfter(s.population, -decline)), Emigrants(decline), Important)
    else s
  }

  /** Tax minus soldier upkeep, a satisfaction recount from the food stock, migration and the
      bankruptcy warning. The tax uses last month's satisfaction, as the source computes it first. */
  function Monthly(s: EngineState): (r: EngineState)
    ensures r == s.(resources := r.resources, population := r.population,
                    satisfaction := r.satisfaction, eventLog := r.eventLog)
    ensures r.resources == s.resources.(gold := s.resources.gold + TaxIncome(s) - SOLDIER_UPKEEP * s.totalSoldiers)
    ensures r.satisfaction == Satisfaction(s)
    ensures r.population == (if Satisfaction(s) >= SATISFACTION_GROWTH
                             then PopulationAfter(s.population, Immigration(s.population.total))
                             else if Satisfaction(s) <= SATISFACTION_DECLINE
                             then PopulationAfter(s.population, -Emigration(s.population.total))
                             else s.population)
    ensures r.resources.gold < 0 ==> |r.eventLog| >= 1 && r.eventLog[0].message == Bankrupt
    ensures var moved := if Satisfaction(s) >= SATISFACTION_GROWTH
                         then WithLog(s, Immigrants(Immigration(s.population.total)), Domestic).eventLog
                         else if Satisfaction(s) <= SATISFACTION_DECLINE
                         then WithLog(s, Emigrants(Emigration(s.population.total)), Important).eventLog
                         else s.eventLog;
            r.eventLog == (if r.resources.gold < 0 then WithLog(s.(eventLog := moved), Bankrupt, Important).eventLog
                           else moved)
    ensures |s.eventLog| <= MAX_LOG_ENTRIES ==> |r.eventLog| <= MAX_LOG_ENTRIES
  {
    var tax := TaxIncome(s);
    var maintenance := s.totalSoldiers * SOLDIER_UPKEEP;
    var paid := s.(resources := s.resources.(gold := s.resources.gold + (tax - maintenance)));
    assert Satisfaction(paid) == Satisfaction(s) by {
      assert FoodConsumption(paid) == FoodConsumption(s);
    }
    var rated := paid.(satisfaction := Satisfaction(paid));
    var moved := Migrated(rated);
    if moved.resources.gold < 0 then WithLog(moved, Bankrupt, Important) else moved
  }

  /** The people grow in a month exactly when a week of food is in store. */
  lemma MonthlyGrowthIff(s: EngineState)
    requires s.population.total > 0
    ensures Monthly(s).population.total > s.population.total
            <==> s.resources.food >= 7.0 * RationDivisor(s)
  {
  }

  /** The people shrink in a month exactly when less than a day of food is in store. */
  lemma MonthlyDeclineIff(s: EngineState)
    requires s.population.total > 0
    ensures Monthly(s).population.total < s.population.total
            <==> s.resources.food < RationDivisor(s)
  {
  }

  /** Departures never exceed the people, so the head count stays non-negative. */
  lemma MonthlyKeepsHeadCount(s: EngineState)
    requires s.population.total >= 0
    ensures Monthly(s).population.total >= 0
  {
  }

  // ---------------------------------------------------------------------------------------------
  // updateProgress

  function Decremented(c: QueuedBuilding, dt: real): QueuedBuilding
  {
    c.(remainingTime := c.remainingTime - dt)
  }

  /** The orders still under way, with their time reduced, in queue order. */
  function Survivors(q: seq<QueuedBuilding>, dt: real): (r: seq<QueuedBuilding>)
    ensures |r| <= |q|
    decreases |q|
  {
    if q == [] then []
    else (if q[0].remainingTime - dt > 0.0 then [Decremented(q[0], dt)] else []) + Survivors(q[1..], dt)
  }

  /** The orders that complete, in the order the backward loop meets them (last queued first). */
  function FinishedBackToFront(q: seq<QueuedBuilding>, dt: real): (r: seq<QueuedBuilding>)
    ensures |r| <= |q|
    decreases |q|
  {
    if q == [] then []
    else FinishedBackToFront(q[1..], dt) + (if q[0].remainingTime - dt <= 0.0 then [Decremented(q[0], dt)] else [])
  }

  /** The orders left in the queue still have time to run; the completed ones have none left. */
  lemma {:induction false} ProgressSplitsByTime(q: seq<QueuedBuilding>, dt: real)
    ensures forall i :: 0 <= i < |Survivors(q, dt)| ==> Survivors(q, dt)[i].remainingTime > 0.0
    ensures forall i :: 0 <= i < |FinishedBackToFront(q, dt)| ==> FinishedBackToFront(q, dt)[i].remainingTime <= 0.0
    decreases |q|
  {
    if q != [] {
      ProgressSplitsByTime(q[1..], dt);
    }
  }

  /** Every order either stays in the queue or completes, never both. */
  lemma {:induction false} ProgressConserves(q: seq<QueuedBuilding>, dt: real)
    ensures |Survivors(q, dt)| + |FinishedBackToFront(q, dt)| == |q|
    decreases |q|
  {
    if q != [] {
      ProgressConserves(q[1..], dt);
    }
  }

  /** Orders naming catalogue entries complete into orders naming catalogue entries. */
  lemma {:induction false} FinishedKnown(catalog: seq<BuildingData>, q: seq<QueuedBuilding>, dt: real)
    requires Known(catalog, q)
    ensures Known(catalog, FinishedBackToFront(q, dt))
    ensures Known(catalog, Survivors(q, dt))
    decreases |q|
  {
    if q != [] {
      assert Known(catalog, q[1..]) by {
        forall i | 0 <= i < |q[1..]| ensures FindData(catalog, q[1..][i].buildingId).Some? {
          assert q[1..][i] == q[i + 1];
        }
      }
      FinishedKnown(catalog, q[1..], dt);
      var rest, tail := FinishedBackToFront(q[1..], dt), Survivors(q[1..], dt);
      var head: seq<QueuedBuilding> := if q[0].remainingTime - dt <= 0.0 then [Decremented(q[0], dt)] else [];
      assert Known(catalog, rest + head) by {
        forall i | 0 <= i < |rest + head| ensures FindData(catalog, (rest + head)[i].buildingId).Some? {
          if i < |rest| { assert (rest + head)[i] == rest[i]; } else { assert (rest + head)[i].buildingId == q[0].buildingId; }
        }
      }
      var front: seq<QueuedBuilding> := if q[0].remainingTime - dt > 0.0 then [Decremented(q[0], dt)] else [];
      assert Known(catalog, front + tail) by {
        forall i | 0 <= i < |front + tail| ensures FindData(catalog, (front + tail)[i].buildingId).Some? {
          if i < |front| { assert (front + tail)[i].buildingId == q[0].buildingId; }
          else { assert (front + tail)[i] == tail[i - |front|]; }
        }
      }
    }
  }

  /** One completion: the catalogue entry joins the built list stamped with the current day and a
      completion line is logged. An unknown id cannot be queued (see `StartConstructionEffect`);
      the source would fail on one, the model leaves the state as it is. */
  function CompleteOne(s: EngineState, catalog: seq<BuildingData>, c: QueuedBuilding): (r: EngineState)
    ensures r == s.(buildings := r.buildings, eventLog := r.eventLog)
  {
    match FindData(catalog, c.buildingId)
    case None => s
    case Some(data) =>
      WithLog(s.(buildings := s.buildings + [BuiltBuilding(data, s.day)]), ConstructionFinished(data.name), Domestic)
  }

  /** The buildings that the completions of `finished` add, in that order, stamped with `day`. */
  function BuiltList(catalog: seq<BuildingData>, finished: seq<QueuedBuilding>, day: real): (r: seq<BuiltBuilding>)
    ensures |r| <= |finished|
    decreases |finished|
  {
    if finished == [] then []
    else
      BuiltList(catalog, finished[..|finished| - 1], day)
      + match FindData(catalog, finished[|finished| - 1].buildingId)
        case None => []
        case Some(data) => [BuiltBuilding(data, day)]
  }

  /** Each added building is the catalogue entry its order names, one per order. */
  lemma {:induction false} BuiltListFacts(catalog: seq<BuildingData>, finished: seq<QueuedBuilding>, day: real)
    ensures forall i :: 0 <= i < |BuiltList(catalog, finished, day)| ==>
              BuiltList(catalog, finished, day)[i].builtAt == day && BuiltList(catalog, finished, day)[i].data in catalog
    ensures Known(catalog, finished) ==>
              |BuiltList(catalog, finished, day)| == |finished|
              && forall i :: 0 <= i < |finished| ==>
                   BuiltList(catalog, finished, day)[i].data == FindData(catalog, finished[i].buildingId).value
    decreases |finished|
  {
    if finished != [] {
      var init := finished[..|finished| - 1];
      BuiltListFacts(catalog, init, day);
      if Known(catalog, finished) {
        assert Known(catalog, init) by {
          forall i | 0 <= i < |init| ensures FindData(catalog, init[i].buildingId).Some? {
            assert init[i] == finished[i];
          }
        }
      }
    }
  }

  /** The completions of `finished`, in that order. */
  function CompleteAll(s: EngineState, catalog: seq<BuildingData>, finished: seq<QueuedBuilding>): (r: EngineState)
    ensures r == s.(buildings := r.buildings, eventLog := r.eventLog)
    ensures r.buildings == s.buildings + BuiltList(catalog, finished, s.day)
    ensures |s.eventLog| <= MAX_LOG_ENTRIES ==> |r.eventLog| <= MAX_LOG_ENTRIES
    decreases |finished|
  {
    if finished == [] then s
    else
      var before := CompleteAll(s, catalog, finished[..|finished| - 1]);
      CompleteOne(before, catalog, finished[|finished| - 1])
  }

  /** `updateProgress(deltaSeconds)`: every order loses `deltaSeconds`; the finished ones leave the
      queue and are built, last-queued first, stamped with the current day. */
  function Progress(s: EngineState, catalog: seq<BuildingData>, dt: real): (r: EngineState)
    ensures r == s.(constructionQueue := r.constructionQueue, buildings := r.buildings, eventLog := r.eventLog)
    ensures r.constructionQueue == Survivors(s.constructionQueue, dt)
    ensures r.buildings == s.buildings + BuiltList(catalog, FinishedBackToFront(s.constructionQueue, dt), s.day)
    ensures Inv(s, catalog) ==> Inv(r, catalog)
  {
    var q := s.constructionQueue;
    if Known(catalog, q) then
      FinishedKnown(catalog, q, dt);
      CompleteAll(s, catalog, FinishedBackToFront(q, dt)).(constructionQueue := Survivors(q, dt))
    else
      CompleteAll(s, catalog, FinishedBackToFront(q, dt)).(constructionQueue := Survivors(q, dt))
  }

  /** Under the engine invariant every finished order becomes exactly one building. */
  lemma ProgressBuildsEveryFinishedOrder(s: EngineState, catalog: seq<BuildingData>, dt: real)
    requires Known(catalog, s.constructionQueue)
    ensures |Progress(s, catalog, dt).buildings|
            == |s.buildings| + |s.constructionQueue| - |Progress(s, catalog, dt).constructionQueue|
  {
    FinishedKnown(catalog, s.constructionQueue, dt);
    BuiltListFacts(catalog, FinishedBackToFront(s.constructionQueue, dt), s.day);
    ProgressConserves(s.constructionQueue, dt);
  }

  /** Peeling the order at `i` off the unprocessed suffix `q[i..]`. */
  lemma ProgressStep(q: seq<QueuedBuilding>, i: int, dt: real)
    requires 0 <= i < |q|
    ensures Survivors(q[i..], dt)
            == (if q[i].remainingTime - dt > 0.0 then [Decremented(q[i], dt)] else []) + Survivors(q[i + 1..], dt)
    ensures FinishedBackToFront(q[i..], dt)
            == FinishedBackToFront(q[i + 1..], dt)
               + (if q[i].remainingTime - dt <= 0.0 then [Decremented(q[i], dt)] else [])
  {
    assert q[i..][1..] == q[i + 1..];
  }

  /** One iteration of the backward loop, on the queue alone. */
  lemma QueueStep(q: seq<QueuedBuilding>, i: int, dt: real, cur: seq<QueuedBuilding>)
    requires 0 <= i < |q| && cur == q[..i + 1] + Survivors(q[i + 1..], dt)
    ensures cur[i] == q[i]
    ensures q[i].remainingTime - dt <= 0.0 ==>
              cur[..i] + cur[i + 1..] == q[..i] + Survivors(q[i..], dt)
              && FinishedBackToFront(q[i..], dt) == FinishedBackToFront(q[i + 1..], dt) + [Decremented(q[i], dt)]
    ensures q[i].remainingTime - dt > 0.0 ==>
              cur[i := Decremented(q[i], dt)] == q[..i] + Survivors(q[i..], dt)
              && FinishedBackToFront(q[i..], dt) == FinishedBackToFront(q[i + 1..], dt)
  {
    ProgressStep(q, i, dt);
    assert q[..i + 1] == q[..i] + [q[i]];
    Splice(q[..i], q[i], Survivors(q[i + 1..], dt), cur, Decremented(q[i], dt));
    if q[i].remainingTime - dt > 0.0 {
      assert FinishedBackToFront(q[i + 1..], dt) + [] == FinishedBackToFront(q[i + 1..], dt);
    }
  }

  /** Removing or replacing the element between `front` and `back`. */
  lemma Splice<T>(front: seq<T>, x: T, back: seq<T>, cur: seq<T>, y: T)
    requires cur == front + [x] + back
    ensures |front| < |cur| && cur[|front|] == x
    ensures cur[..|front|] + cur[|front| + 1..] == front + back
    ensures cur[|front| := y] == front + [y] + back
  {
    assert cur[..|front|] == front;
    assert cur[|front| + 1..] == back;
  }

  lemma CompleteAllSnoc(s: EngineState, catalog: seq<BuildingData>, finished: seq<QueuedBuilding>, c: QueuedBuilding)
    ensures CompleteAll(s, catalog, finished + [c]) == CompleteOne(CompleteAll(s, catalog, finished), catalog, c)
  {
    assert (finished + [c])[..|finished|] == finished;
  }

  /** Orders are built from the back of the queue: of two orders that finish together, the later
      one is built first. */
  lemma BackToFrontExample(a: QueuedBuilding, b: QueuedBuilding)
    requires a.remainingTime <= 1.0 && b.remainingTime <= 1.0
    ensures FinishedBackToFront([a, b], 1.0) == [Decremented(b, 1.0), Decremented(a, 1.0)]
    ensures Survivors([a, b], 1.0) == []
  {
    assert [a, b][1..] == [b];
    assert [b][1..] == [];
  }

  // ---------------------------------------------------------------------------------------------
  // tick, startConstruction and createInitialState

  /** `Math.floor(day / 30)`; Dafny's division by a positive divisor rounds down as `floor` does. */
  function MonthOf(day: int): int
  {
    day / DAYS_PER_MONTH
  }

  /** A month can only turn over when a day does. */
  lemma {:induction false} MonthTurnsOnlyWithDay(prevDay: int, currentDay: int)
    ensures MonthOf(currentDay) > MonthOf(prevDay) ==> currentDay > prevDay
  {
    if currentDay <= prevDay {
      assert DAYS_PER_MONTH * MonthOf(currentDay) <= currentDay;
      assert prevDay < DAYS_PER_MONTH * (MonthOf(prevDay) + 1);
    }
  }

  /** Real seconds scaled by the game speed: `deltaTime * gameSpeed`. */
  function Elapsed(deltaTime: real, speed: int): real
  {
    deltaTime * speed as real
  }

  /** The game-state part of `tick` for `deltaTime` real seconds. */
  function TickEffect(s: EngineState, catalog: seq<BuildingData>, deltaTime: real): (r: EngineState)
    ensures s.isPaused ==> r == s
    ensures !s.isPaused ==> r.day == s.day + Elapsed(deltaTime, s.gameSpeed) * DAY_SCALE
    ensures r.gameSpeed == s.gameSpeed && r.isPaused == s.isPaused && r.technologies == s.technologies
    ensures !s.isPaused ==> r == Progress(Calendar(s.(day := r.day), s.day.Floor), catalog, Elapsed(deltaTime, s.gameSpeed))
    ensures Inv(s, catalog) ==> Inv(r, catalog)
  {
    if s.isPaused then s else Advance(s, catalog, Elapsed(deltaTime, s.gameSpeed))
  }

  /** An unpaused tick covering `elapsed` game seconds: the day counter moves on, the day and
      month hooks run, then the construction queue progresses. */
  function Advance(s: EngineState, catalog: seq<BuildingData>, elapsed: real): (r: EngineState)
    ensures r.day == s.day + elapsed * DAY_SCALE
    ensures r.gameSpeed == s.gameSpeed && r.isPaused == s.isPaused && r.technologies == s.technologies
    ensures r == Progress(Calendar(s.(day := r.day), s.day.Floor), catalog, elapsed)
    ensures Inv(s, catalog) ==> Inv(r, catalog)
  {
    Progress(Calendar(s.(day := s.day + elapsed * DAY_SCALE), s.day.Floor), catalog, elapsed)
  }

  /** The daily update when the whole day moved past `prevDay`, then the monthly one when the
      month index did. */
  function Calendar(s: EngineState, prevDay: int): (r: EngineState)
    ensures r == s.(resources := r.resources, population := r.population, satisfaction := r.satisfaction,
                    eventLog := r.eventLog)
    ensures s.resources.food >= 0.0 ==> r.resources.food >= 0.0
    ensures s.population.total >= 0 ==> r.population.total >= 0
    ensures |s.eventLog| <= MAX_LOG_ENTRIES ==> |r.eventLog| <= MAX_LOG_ENTRIES
    ensures s.day.Floor <= prevDay ==> r == s
    ensures s.day.Floor > prevDay && MonthOf(s.day.Floor) <= MonthOf(prevDay) ==> r == Daily(s)
    ensures MonthOf(s.day.Floor) > MonthOf(prevDay) ==> r == Monthly(Daily(s))
  {
    var currentDay := s.day.Floor;
    MonthTurnsOnlyWithDay(prevDay, currentDay);
    var daily := if currentDay > prevDay then Daily(s) else s;
    if MonthOf(currentDay) > MonthOf(prevDay) then Monthly(daily) else daily
  }

  /** A month turning over always comes with that day's update first. */
  lemma TickMonthlyAfterDaily(s: EngineState, deltaTime: real)
    requires !s.isPaused
    requires MonthOf((s.day + Elapsed(deltaTime, s.gameSpeed) * DAY_SCALE).Floor) > MonthOf(s.day.Floor)
    ensures (s.day + Elapsed(deltaTime, s.gameSpeed) * DAY_SCALE).Floor > s.day.Floor
  {
    MonthTurnsOnlyWithDay(s.day.Floor, (s.day + Elapsed(deltaTime, s.gameSpeed) * DAY_SCALE).Floor);
  }

  /** `startConstruction(buildingId)`: pay the gold price and queue the order, or change nothing. */
  function StartConstructionEffect(s: EngineState, catalog: seq<BuildingData>, buildingId: string): (r: EngineState)
    ensures FindData(catalog, buildingId).None? ==> r == s
    ensures FindData(catalog, buildingId).Some? && s.resources.gold < FindData(catalog, buildingId).value.goldCost
            ==> r == s
    ensures FindData(catalog, buildingId).Some? && s.resources.gold >= FindData(catalog, buildingId).value.goldCost
            ==> var b := FindData(catalog, buildingId).value;
                r == s.(resources := r.resources, constructionQueue := r.constructionQueue, eventLog := r.eventLog)
                && r.resources == s.resources.(gold := s.resources.gold - b.goldCost)
                && r.constructionQueue == s.constructionQueue
                                          + [QueuedBuilding(b.id, b.name, b.buildTime as real / BUILD_TIME_DIVISOR)]
                && |r.eventLog| >= 1 && r.eventLog[0].message == ConstructionStarted(b.name)
                && r.eventLog == WithLog(s, ConstructionStarted(b.name), Domestic).eventLog
    ensures r.resources.gold != s.resources.gold ==> r.resources.gold >= 0
    ensures Inv(s, catalog) ==> Inv(r, catalog)
  {
    match FindData(catalog, buildingId)
    case None => s
    case Some(b) =>
      if s.resources.gold >= b.goldCost then
        var order := QueuedBuilding(b.id, b.name, b.buildTime as real / BUILD_TIME_DIVISOR);
        var paid := s.(resources := s.resources.(gold := s.resources.gold - b.goldCost),
                       constructionQueue := s.constructionQueue + [order]);
        assert Known(catalog, s.constructionQueue) ==> Known(catalog, paid.constructionQueue) by {
          if Known(catalog, s.constructionQueue) {
            forall i | 0 <= i < |paid.constructionQueue|
              ensures FindData(catalog, paid.constructionQueue[i].buildingId).Some?
            {
              if i < |s.constructionQueue| {
                assert paid.constructionQueue[i] == s.constructionQueue[i];
              }
            }
          }
        }
        WithLog(paid, ConstructionStarted(b.name), Domestic)
      else s
  }

  /** The opening snapshot; `technologies` stands for the copied technology catalogue of data.js. */
  function InitialEngineState(technologies: seq<TechData>): (r: EngineState)
    ensures r.population.total == INITIAL_POPULATION && EnginePartitioned(r.population)
    ensures r.population == EnginePopulation(10, 5, 0, 0, 2, 3)
    ensures r.totalSoldiers == r.population.soldiers
    ensures r.day == 1.0 && r.gameSpeed == 1 && r.isPaused
    ensures r.resources == EngineResources(INITIAL_GOLD, INITIAL_FOOD, 20.0, 0, 5)
    ensures r.buildings == [] && r.constructionQueue == [] && r.technologies == technologies
    ensures r.eventLog == [LogEntry(Important, Founding, 1, None)]
    ensures forall catalog :: Inv(r, catalog)
  {
    var farmers := (INITIAL_POPULATION as real * 0.5).Floor;
    var soldiers := (INITIAL_POPULATION as real * 0.2).Floor;
    EngineState(
      day := 1.0,
      gameSpeed := 1,
      isPaused := true,
      resources := EngineResources(INITIAL_GOLD, INITIAL_FOOD, 20.0, 0, 5),
      population := EnginePopulation(INITIAL_POPULATION, farmers, 0, 0, soldiers,
                                     INITIAL_POPULATION - (INITIAL_POPULATION as real * 0.7).Floor),
      satisfaction := 60,
      buildings := [],
      constructionQueue := [],
      technologies := technologies,
      eventLog := [LogEntry(Important, Founding, 1, None)],
      totalSoldiers := soldiers)
  }

  // ---------------------------------------------------------------------------------------------
  // GameEngine

  /** The mutable engine; `catalog` stands for the building catalogue of data.js. The frame clock
      (`lastTime`, `requestAnimationFrame`) and the listeners are not modelled. */
  class GameEngine {
    var state: EngineState
    const catalog: seq<BuildingData>

    predicate Valid()
      reads this
    {
      Inv(state, catalog)
    }

    constructor(buildingCatalog: seq<BuildingData>, technologies: seq<TechData>)
      ensures state == InitialEngineState(technologies) && catalog == buildingCatalog
      ensures Valid()
    {
      catalog := buildingCatalog;
      state := InitialEngineState(technologies);
    }

    /** Also called mid-update (while a finished order is being removed), so it keeps the
        invariant when it held rather than demanding it. */
    method AddLog(message: LogMessage, kind: LogKind)
      modifies this
      ensures state == WithLog(old(state), message, kind)
      ensures old(Valid()) ==> Valid()
    {
      var entry := LogEntry(kind, message, state.day.Floor, Some(if kind == Important then HighPriority else NormalPriority));
      var log := [entry] + state.eventLog;
      if |log| > MAX_LOG_ENTRIES {
        log := log[..|log| - 1];
      }
      state := state.(eventLog := log);
    }

    /** A departure larger than the head count would make the total negative, so the invariant
        survives exactly those amounts that leave a non-negative total. */
    method AddPopulation(amount: int)
      modifies this
      ensures state == old(state).(population := PopulationAfter(old(state).population, amount))
      ensures old(Valid()) ==> (Valid() <==> old(state.population.total) + amount >= 0)
    {
      var p := state.population.(total := state.population.total + amount);
      if amount > 0 {
        p := p.(unemployed := p.unemployed + amount);
      } else {
        var actualLoss := Min(p.unemployed, if amount < 0 then -amount else amount);
        p := p.(unemployed := p.unemployed - actualLoss);
      }
      state := state.(population := p);
    }

    method ProcessDailyUpdate()
      modifies this
      requires Valid()
      ensures state == Daily(old(state))
      ensures Valid()
    {
      var foodProd := FoodProduction(state);
      var oreProd := state.population.miners as real * BASE_ORE_PRODUCTION;
      var foodCons := FoodConsumption(state);
      state := state.(resources := state.resources.(food := state.resources.food + (foodProd - foodCons)));
      state := state.(resources := state.resources.(ore := state.resources.ore + oreProd));
      if state.resources.food < 0.0 {
        state := state.(resources := state.resources.(food := 0.0));
        AddLog(FoodShortage, Domestic);
      }
    }

    method ProcessMonthlyUpdate()
      modifies this
      requires Valid()
      ensures state == Monthly(old(state))
      ensures Valid()
    {
      MonthlyKeepsHeadCount(state);
      var tax := TaxIncome(state);
      var maintenance := state.totalSoldiers * SOLDIER_UPKEEP;
      state := state.(resources := state.resources.(gold := state.resources.gold + (tax - maintenance)));
      state := state.(satisfaction := Satisfaction(state));
      if state.satisfaction >= SATISFACTION_GROWTH {
        var growth := Immigration(state.population.total);
        AddPopulation(growth);
        AddLog(Immigrants(growth), Domestic);
      } else if state.satisfaction <= SATISFACTION_DECLINE {
        var decline := Emigration(state.population.total);
        AddPopulation(-decline);
        AddLog(Emigrants(decline), Important);
      }
      if state.resources.gold < 0 {
        AddLog(Bankrupt, Important);
      }
    }

    /** The backward loop over the queue, removing finished orders in place. */
    method UpdateProgress(deltaSeconds: real)
      modifies this
      requires Valid()
      ensures state == Progress(old(state), catalog, deltaSeconds)
      ensures Valid()
    {
      ghost var s0 := state;
      ghost var q := state.constructionQueue;
      var i := |state.constructionQueue|;
      while i > 0
        invariant 0 <= i <= |q|
        invariant state.constructionQueue == q[..i] + Survivors(q[i..], deltaSeconds)
        invariant state == CompleteAll(s0, catalog, FinishedBackToFront(q[i..], deltaSeconds))
                             .(constructionQueue := state.constructionQueue)
      {
        ghost var rest := FinishedBackToFront(q[i..], deltaSeconds);
        i := i - 1;
        QueueStep(q, i, deltaSeconds, state.constructionQueue);
        AdvanceOrder(i, deltaSeconds);
        CompleteAllSnoc(s0, catalog, rest, Decremented(q[i], deltaSeconds));
      }
      assert q[0..] == q;
    }

    /** One pass of the backward loop at index `i`: the order's remaining time drops by
        `deltaSeconds`; a finished order leaves the queue and is built. */
    method AdvanceOrder(i: int, deltaSeconds: real)
      modifies this
      requires 0 <= i < |state.constructionQueue|
      ensures var q := old(state.constructionQueue);
              var entry := Decremented(q[i], deltaSeconds);
              if entry.remainingTime <= 0.0 then
                state == CompleteOne(old(state), catalog, entry).(constructionQueue := q[..i] + q[i + 1..])
              else
                state == old(state).(constructionQueue := q[i := entry])
    {
      var entry := state.constructionQueue[i];
      entry := entry.(remainingTime := entry.remainingTime - deltaSeconds);
      if entry.remainingTime <= 0.0 {
        state := state.(constructionQueue := state.constructionQueue[..i] + state.constructionQueue[i + 1..]);
        var building := FindData(catalog, entry.buildingId);
        if building.Some? {
          var buildingData := building.value;
          state := state.(buildings := state.buildings + [BuiltBuilding(buildingData, state.day)]);
          AddLog(ConstructionFinished(buildingData.name), Domestic);
        }
      } else {
        state := state.(constructionQueue := state.constructionQueue[i := entry]);
      }
    }

    method Tick(deltaTime: real)
      modifies this
      requires Valid()
      ensures state == TickEffect(old(state), catalog, deltaTime)
      ensures Valid()
    {
      if state.isPaused {
        return;
      }
      ghost var s0 := state;
      var elapsed := Elapsed(deltaTime, state.gameSpeed);
      var prevDay := state.day.Floor;
      state := state.(day := state.day + elapsed * DAY_SCALE);
      RunCalendar(prevDay);
      UpdateProgress(elapsed);
      assert state == Advance(s0, catalog, elapsed);
    }

    /** The day and month hooks of a tick, run after the day counter moved on from `prevDay`. */
    method RunCalendar(prevDay: int)
      modifies this
      requires Valid()
      ensures state == Calendar(old(state), prevDay)
      ensures Valid()
    {
      var currentDay := state.day.Floor;
      if currentDay > prevDay {
        ProcessDailyUpdate();
      }
      if MonthOf(currentDay) > MonthOf(prevDay) {
        ProcessMonthlyUpdate();
      }
    }

    method StartConstruction(buildingId: string)
      modifies this
      requires Valid()
      ensures state == StartConstructionEffect(old(state), catalog, buildingId)
      ensures Valid()
    {
      var building := FindData(catalog, buildingId);
      if building.None? {
        return;
      }
      var b := building.value;
      if state.resources.gold >= b.goldCost {
        state := state.(resources := state.resources.(gold := state.resources.gold - b.goldCost));
        state := state.(constructionQueue := state.constructionQueue
                                               + [QueuedBuilding(b.id, b.name, b.buildTime as real / BUILD_TIME_DIVISOR)]);
        AddLog(ConstructionStarted(b.name), Domestic);
      }
    }

    method TogglePause()
      modifies this
      requires Valid()
      ensures state == old(state).(isPaused := !old(state).isPaused)
      ensures Valid()
    {
      state := state.(isPaused := !state.isPaused);
    }

    method SetSpeed(speed: int)
      modifies this
      requires Valid()
      ensures state == old(state).(gameSpeed := speed)
      ensures Valid()
    {
      state := state.(gameSpeed := speed);
    }
  }
}
