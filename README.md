# Egzyda / AXINODE game engine in Dafny

This project models the core of a real-time nation-management game. The player runs a small
country. Farmers, miners, craftsmen, merchants and soldiers produce food, ore and weapons and
cost upkeep. Taxes flow in each month. Satisfaction drives immigration and emigration.
Buildings and technologies are bought into timed queues, and a game clock turns real seconds
into game days.

The repository holds two revisions of that core, and both are modelled side by side:

- **The older single-file engine** (`engine.js`), module `Engine`. Its `Calcs` helpers become
  functions over an engine snapshot (`EngineState`). The `GameEngine` class becomes a Dafny
  `class` with a `state` field that its methods update in place. Each method is proved against
  a specification function (`Daily`, `Monthly`, `Progress`, `TickEffect`, …). The lemmas that
  state what the game promises are proved about those functions.
- **The newer React/TypeScript revision**, one Dafny module per source file:
  - `Constants` and `GameTypes`: the numbers and records of `src/utils/constants.ts` and
    `src/types/`.
  - `Calculations`: the production, consumption, tax, upkeep, combat and satisfaction formulas.
  - `Buildings`: the building catalogue and the availability filter.
  - `InitialState`: the opening position.
  - `GameReducer`: the `useGameState` reducer, which is a pure function from state and action
    to state.
  - `Domestic`: the guards the domestic tab applies before it dispatches an action.
  - `Nations` and `Heroes`: the rival nations, the hireable heroes and specialists, and the
    counters that number them.

Floating-point game quantities are modelled as exact rationals (`real`). `Math.floor` and
`Math.ceil` become `.Floor` and `Common.Ceil`. Where a result is a floor of a product, the
model proves the exact integer bracket it lies in (for example,
`100 * r <= farmers * (100 + bonus) < 100 * (r + 1)`).

## Model

| member | source | states |
|---|---|---|
| Calculations.GetCoefficient | src/utils/calculations.ts:14-25 | the loop over thresholds sorted in descending order returns the coefficient of the first threshold at most `value` (or the table's fallback), which is `Coefficient` |
| Calculations.Coefficient | src/utils/calculations.ts:14-25 | for a descending table: the coefficient of the largest threshold not above `value`; the fallback when every threshold is above it |
| Calculations.CoefficientTablesDescending | src/utils/constants.ts:18-34 | both coefficient tables are sorted by descending threshold, as `getCoefficient` assumes |
| Calculations.LowMoraleCoefficientIsOne | src/utils/calculations.ts:24 | a morale under the lowest key gets the `coefficients[0] \|\| 1` fallback, which is 1 |
| Calculations.EquipmentCoefficientRange | src/utils/constants.ts:18-25 | every equipment rate maps to a coefficient between 0.2 and 1.0 |
| Calculations.MoraleCoefficientRange | src/utils/constants.ts:27-34 | every morale maps to a coefficient between 0.4 and 1.15 |
| Calculations.CalculateFoodProduction | src/utils/calculations.ts:28-54 | with no bonus the output is one food per farmer; a non-negative bonus never lowers it; it is never negative while the bonus is at least -100% |
| Calculations.FoodProductionExact | src/utils/calculations.ts:28-54 | the floored output is pinned: `100*r <= farmers*(100+bonus) < 100*(r+1)`, where the bonus sums buildings, researched technologies and specialists |
| Calculations.CalculateOreProduction | src/utils/calculations.ts:56-72 | with no bonus, half an ore per miner rounded down; never negative |
| Calculations.OreProductionExact | src/utils/calculations.ts:56-72 | `200*r <= miners*(100+bonus) < 200*(r+1)` |
| Calculations.CalculateWeaponProduction | src/utils/calculations.ts:74-100 | with no bonus, 0.3 weapons per craftsman rounded down; never negative |
| Calculations.WeaponProductionExact | src/utils/calculations.ts:74-100 | `1000*r <= 3*craftsmen*(100+bonus) < 1000*(r+1)` |
| Calculations.CalculateManaGeneration | src/utils/calculations.ts:102-114 | the sum of the `manaGeneration` buildings' values plus the sum of the mana-generating heroes' ability values; zero without heroes and mana buildings |
| Calculations.ManaGenerationAddsBuilding | src/utils/calculations.ts:103-105 | one more building raises the generation by its value when it is a mana building and leaves it unchanged otherwise |
| Calculations.ManaGenerationAddsHero | src/utils/calculations.ts:108-110 | one more hero raises the generation by its ability value when the ability generates mana and leaves it unchanged otherwise |
| Calculations.HeroAbilityBonusAppend | src/utils/calculations.ts:108-110 | the filtered sum of hero abilities grows by exactly the appended hero's matching value |
| Calculations.CalculateFoodConsumption | src/utils/calculations.ts:117-122 | one food per citizen plus half per soldier, rounded up |
| Calculations.FoodConsumptionExample | src/utils/calculations.ts:117-122 | 100 citizens and 10 soldiers eat 105 food |
| Calculations.FoodProductionExample | src/utils/calculations.ts:28-54 | ten farmers without a bonus grow ten food |
| Calculations.CalculateManaConsumption | src/utils/calculations.ts:124-134 | the heroes' summed mana costs (a hero without one adds nothing) plus one per mage warrior; without heroes, exactly the mage warriors |
| Calculations.ManaConsumptionAddsHero | src/utils/calculations.ts:125-128 | one more hero raises the consumption by exactly its mana cost, or by nothing when it has none |
| Calculations.HeroManaCostAppend | src/utils/calculations.ts:125-128 | the summed mana cost grows by exactly the appended hero's cost |
| Calculations.CalculateTaxIncome | src/utils/calculations.ts:137-156 | zero at zero satisfaction or an empty population; never negative for sane inputs |
| Calculations.TaxIncomeExact | src/utils/calculations.ts:137-156 | the floored tax is pinned: `10^6*r <= 18*total*satisfaction*(100+bonus) < 10^6*(r+1)` (that is, 1.2 × 0.15 × satisfaction%) |
| Calculations.CalculateMaintenance | src/utils/calculations.ts:158-172 | five gold per soldier plus every specialist's and hero's salary |
| Calculations.CalculateCombatPower | src/utils/calculations.ts:175-184 | the floor of soldiers times the two table coefficients times the technology bonus; never negative for a non-negative army and technology bonus |
| Calculations.ScaledPower | src/utils/calculations.ts:183 | `Math.floor` of the four-way product; never negative when every factor is non-negative |
| Calculations.CombatPowerMonotoneInSoldiers | src/utils/calculations.ts:175-184 | at the same equipment rate, morale and non-negative technology bonus, more soldiers never give less power |
| Calculations.CombatPowerBounds | src/utils/calculations.ts:175-184 | for every equipment rate and morale, the power lies between `0.08 * soldiers * techBonus - 1` and `1.15 * soldiers * techBonus` |
| Calculations.CombatPowerExample | src/utils/calculations.ts:175-184 | 100 soldiers at 85% equipment and 90 morale: coefficients 0.9 and 1.0, power 90 |
| Calculations.EquipmentCoefficient | src/utils/calculations.ts:181 | the equipment factor lies in [0.2, 1.0] |
| Calculations.MoraleCoefficient | src/utils/calculations.ts:182 | the morale factor lies in [0.4, 1.15] |
| Calculations.CalculateEquipmentRate | src/utils/calculations.ts:186-190 | 100 with no soldiers; otherwise the integer percentage `100 * min(soldiers, weapons, armor) / soldiers`, in [0, 100], and exactly 100 if and only if both weapons and armour cover every soldier |
| Calculations.EquipmentBounds | src/utils/calculations.ts:186-190 | for a positive army, the percentage of equipped soldiers is at most 100 and reaches 100 exactly when all are equipped |
| Calculations.CalculateSatisfaction | src/utils/calculations.ts:193-214 | stays within 0..80; reaching the growth threshold requires three days of food and a non-negative net income; in peace, those two guarantee a score above the decline threshold |
| Calculations.FoodDaysAtLeast | src/utils/calculations.ts:197-200 | "at least k days of food" means `food >= k * max(1, consumption)` |
| Calculations.BattlePenalty | src/utils/calculations.ts:209-213 | an active battle costs exactly 10 points, floored at zero |
| Calculations.GetFoodStatus | src/utils/calculations.ts:228-236 | safe if and only if 7 days of food are stored; danger if and only if fewer than 3 |
| Calculations.GetGoldStatus | src/utils/calculations.ts:238-242 | safe if and only if net income is positive; danger if and only if it is below -50 |
| Calculations.GetSatisfactionStatus | src/utils/calculations.ts:244-248 | safe if and only if at least 60; danger if and only if below 40 |
| Buildings.FindById | src/data/buildings.ts:188-190 | finds the first catalogue entry with that id; none exactly when no entry has it |
| Buildings.GetBuildingById | src/data/buildings.ts:188-190 | the lookup in the real catalogue; none exactly when the id is unknown |
| Buildings.CatalogueIdsDistinct | src/data/buildings.ts:3-186 | no two catalogue entries share an id |
| Buildings.AvailableFrom | src/data/buildings.ts:192-213 | the filter keeps catalogue order and keeps exactly the entries whose prerequisites are each a researched technology or an existing building, and whose build limit is not reached |
| Buildings.GetAvailableBuildings | src/data/buildings.ts:192-213 | a building is offered if and only if it is in the catalogue and available |
| Buildings.AvailableMonotoneInResearch | src/data/buildings.ts:198-203 | researching more never removes a building from the offer (the offer grows as a subsequence) |
| Buildings.AvailableBuildingsMonotoneInResearch | src/data/buildings.ts:192-213 | the same for the real catalogue |
| Buildings.MarketLimitedToOne | src/data/buildings.ts:3-186 | the market may be built once |
| Buildings.SecondMarketNeverOffered | src/data/buildings.ts:205-210 | once a market is built it is never offered again |
| Buildings.UnrestrictedBuildingsAlwaysAvailable | src/data/buildings.ts:192-213 | buildings without prerequisites or limit, such as the level-1 farm, are always offered |
| InitialState.CreateInitialTechnologies | src/utils/initialState.ts:12-17 | one unresearched technology per catalogue entry, in order |
| InitialState.CreateInitialState | src/utils/initialState.ts:19-126 | the opening position: 10 people split 5 farmers, 2 soldiers, 3 unemployed; day 1, speed 1, paused; empty queues; one "game started" event; non-negative stocks |
| GameReducer.AddEvent | src/hooks/useGameState.ts:28-38 | the new event goes first, stamped with the current day, and the log keeps at most 100 entries (`MAX_LOG_ENTRIES`) by dropping the oldest; nothing else changes |
| GameReducer.StarvationLoss | src/hooks/useGameState.ts:60 | the loss is the ceiling of 5% of the population over 30 days: at least one person when anyone lives |
| GameReducer.DailyResources | src/hooks/useGameState.ts:42-55 | food changes by production minus consumption and is clamped to 0; ore and weapons grow by their production; mana never goes negative; gold and armour are untouched |
| GameReducer.DailyPopulation | src/hooks/useGameState.ts:57-62 | a shortage removes the loss from both the total and the unemployed (each clamped at 0); the jobs are untouched |
| GameReducer.ProcessDailyUpdate | src/hooks/useGameState.ts:40-84 | the daily resources and population above, and a critical starvation event exactly on a shortage |
| GameReducer.StarvationPartition | src/hooks/useGameState.ts:57-62 | after a starvation day the jobs still add up to the total if and only if the unemployed could absorb the whole loss (or everyone was unemployed) |
| GameReducer.DailyNeverTouchesGold | src/hooks/useGameState.ts:40-84 | the daily update leaves gold, satisfaction and the army alone |
| GameReducer.GrowthAmount | src/hooks/useGameState.ts:114 | growth is the ceiling of 2% of the population |
| GameReducer.DeclineAmount | src/hooks/useGameState.ts:118 | decline is the ceiling of 1% of the population |
| GameReducer.MonthlyPopulation | src/hooks/useGameState.ts:109-121 | high satisfaction adds the growth to the total and the unemployed; low satisfaction removes the decline (total kept at least 1, unemployed at least 0); otherwise no change |
| GameReducer.MonthlyGold | src/hooks/useGameState.ts:88-98 | gold plus net income, floored at 0 |
| GameReducer.ProcessMonthlyUpdate | src/hooks/useGameState.ts:86-148 | gold settles with tax minus upkeep; bankruptcy adds a day and a critical event, solvency resets the count; satisfaction recomputed; income and expense records filled in; nothing else changes |
| GameReducer.MonthlyPartition | src/hooks/useGameState.ts:109-121 | the monthly update keeps the jobs summing to the total unless a decline exceeds the unemployed or would push the total under one |
| GameReducer.GrowthNeedsFoodAndIncome | src/hooks/useGameState.ts:113-116 | the population only grows in a month that starts with three days of food and a non-negative net income |
| GameReducer.AdvanceConstructions | src/hooks/useGameState.ts:153-156 | every order's remaining time drops by the elapsed seconds |
| GameReducer.BuiltFrom | src/hooks/useGameState.ts:165-177 | each finished order found in the catalogue becomes one building stamped with the current day |
| GameReducer.BuiltFromOrders | src/hooks/useGameState.ts:165-177 | every new building comes from a finished order of the same id |
| GameReducer.BuiltFromComplete | src/hooks/useGameState.ts:165-177 | when every finished id is catalogued, each finished order yields a building |
| GameReducer.CompleteBuildings | src/hooks/useGameState.ts:165-178 | completing orders touches only the buildings and the log |
| GameReducer.CompleteBuildingsAppends | src/hooks/useGameState.ts:162-178 | the buildings grow by exactly the built list, in order |
| GameReducer.UpdateConstructions | src/hooks/useGameState.ts:150-186 | with an empty queue nothing changes; otherwise the queue becomes the orders still pending and the buildings gain the finished ones |
| GameReducer.UpdateConstructionsQueue | src/hooks/useGameState.ts:158-160 | the new queue keeps the order of the advanced queue, holds only pending orders and loses none of them |
| GameReducer.UpdateConstructionsBuilds | src/hooks/useGameState.ts:162-185 | no more buildings appear than orders leave the queue, and each new building is dated today and taken from the catalogue |
| GameReducer.AdvanceResearch | src/hooks/useGameState.ts:191-194 | every research order's remaining time drops by the elapsed seconds |
| GameReducer.FindTechIndex | src/hooks/useGameState.ts:203 | `findIndex`: the first technology with the id, or -1 exactly when there is none |
| GameReducer.FindTechIndexByDefs | src/hooks/useGameState.ts:203 | the lookup depends only on the definitions, not on the research flags |
| GameReducer.MarkResearched | src/hooks/useGameState.ts:203-210 | marks exactly the found technology researched and stamps it with the given day; every other stamp and every definition is kept |
| GameReducer.MarkAllResearched | src/hooks/useGameState.ts:202-217 | research is never lost; every finished order's technology becomes researched; nothing becomes researched that was not queued; a technology some finished order finds is stamped with the day, every other keeps its stamp |
| GameReducer.MarksStep | src/hooks/useGameState.ts:204-205 | an order list finds a technology exactly when its head finds it or its tail finds it once the head has been applied |
| GameReducer.CompleteTechnologies | src/hooks/useGameState.ts:202-217 | completing research touches only the technologies and the log |
| GameReducer.CompleteTechnologiesMarks | src/hooks/useGameState.ts:202-217 | the technologies after completion are `MarkAllResearched` of the finished orders |
| GameReducer.UpdateResearch | src/hooks/useGameState.ts:188-225 | with an empty queue nothing changes; otherwise the pending orders stay queued and the finished ones are marked researched |
| GameReducer.UpdateResearchEffect | src/hooks/useGameState.ts:188-225 | the research queue keeps its order and only pending orders; research is never lost; each finished catalogued order is researched; only queued technologies become researched |
| GameReducer.MonthCrossingCrossesDay | src/hooks/useGameState.ts:240-248 | a tick that turns the month also turns the day, so the daily update runs before the monthly one |
| GameReducer.AdvanceDay | src/hooks/useGameState.ts:231-248 | the clock advances by `deltaTime * speed / 86400` days; without a day boundary nothing else changes; on a day boundary inside the month only the daily update runs; on a month boundary the daily update runs and then the monthly one |
| GameReducer.ApplyTick | src/hooks/useGameState.ts:229-256 | a paused game is unchanged; otherwise the state is `AdvanceDay` followed by the construction and then the research queue, both advanced by `deltaTime * speed` seconds, and the state invariant is preserved |
| GameReducer.TickWithinDay | src/hooks/useGameState.ts:229-256 | a tick inside one day leaves resources, population, satisfaction, bankruptcy count, income and expense alone |
| GameReducer.ApplyPopulationUpdate | src/hooks/useGameState.ts:270-283 | the patched fields replace the old ones; the total is recounted as the sum of the six groups; the army's soldier count mirrors the soldiers; nothing else changes |
| GameReducer.StartConstruction | src/hooks/useGameState.ts:285-312 | an unknown id, too little gold, or (when ore is charged) too little ore leaves the state unchanged; otherwise gold and ore are charged and one order with the full build time is appended; stocks never go negative |
| GameReducer.FindTechDefinition | src/hooks/useGameState.ts:321 | the catalogue lookup; none exactly when the id is unknown |
| GameReducer.ResearchTime | src/hooks/useGameState.ts:346-350 | the time is `floor(t * 100 / (100 + bonus))`, never above `t`, and exactly `t` without a bonus |
| GameReducer.StartResearch | src/hooks/useGameState.ts:320-362 | unknown technology, too little gold, too little mana (when charged) or a missing prerequisite leaves the state unchanged; otherwise the cost is paid and one order with the shortened time is appended; stocks never go negative |
| GameReducer.Reduce | src/hooks/useGameState.ts:227-382 | each action does what its case says: tick, speed, pause toggle, the merged resource patch, the population patch, starting and cancelling construction and research (a cancellation removes exactly the indexed order when it exists), an added event, a loaded save, a new game; an unknown action changes nothing |
| GameReducer.PatchResources | src/hooks/useGameState.ts:264-268 | every resource the patch carries replaces the old amount, every other keeps it; an empty patch changes nothing |
| GameReducer.InitialStateValid | src/utils/initialState.ts:19-126 | the opening position satisfies the state invariant (non-negative gold, food and mana, satisfaction 0..100, log within 100, soldiers mirrored) |
| GameReducer.ReducePreservesValid | src/hooks/useGameState.ts:227-382 | every action keeps the invariant, given resource patches that are non-negative and saves that are valid |
| GameReducer.QueuesPreserveValid | src/hooks/useGameState.ts:250-254 | advancing both queues keeps the invariant |
| GameReducer.AdvanceDayPreservesValid | src/hooks/useGameState.ts:231-248 | the clock and the daily and monthly updates keep the invariant |
| GameReducer.ConstructionsPreserveValid | src/hooks/useGameState.ts:150-186 | completing buildings keeps the invariant |
| GameReducer.ResearchPreservesValid | src/hooks/useGameState.ts:188-225 | completing research keeps the invariant |
| GameReducer.CompleteBuildingsLogBounded | src/hooks/useGameState.ts:28-38 | any number of completion events keeps the log within 100 |
| GameReducer.CompleteTechnologiesLogBounded | src/hooks/useGameState.ts:28-38 | the same for research completions |
| Domestic.HandleJobChange | src/components/tabs/DomesticTab.tsx:32-48 | the patch is sent if and only if the unemployed can cover the change; it sets the chosen job to the new value and the unemployed to the old count minus the difference, and nothing else |
| Domestic.JobChangeConservesPopulation | src/components/tabs/DomesticTab.tsx:32-48 | after the reducer applies a slider patch, the total equals the old sum of the six groups, the job has its new value, the unemployed stay non-negative and the other jobs are unchanged |
| Domestic.JobChangeKeepsTotal | src/components/tabs/DomesticTab.tsx:32-48 | from a consistent population, slider moves keep it consistent and keep its total |
| Domestic.ResearchedTechIds | src/components/tabs/DomesticTab.tsx:50 | an id is listed if and only if some researched technology has it |
| Domestic.MaxConstructions | src/components/tabs/DomesticTab.tsx:54-57 | 3 with industrialisation, else 2 with organisation, else 1 (each an if-and-only-if) |
| Domestic.MaxConstructionsMonotone | src/components/tabs/DomesticTab.tsx:54-57 | more research never lowers the cap |
| Domestic.CanBuild | src/components/tabs/DomesticTab.tsx:58 | an empty queue always has room; three queued orders never do |
| Domestic.AffordAgreesWithReducer | src/components/tabs/DomesticTab.tsx:249-251 | for an offered building, `canAfford` holds if and only if the reducer's START_CONSTRUCTION enqueues it (charging its gold); otherwise the reducer changes nothing |
| Domestic.CatalogueLookup | src/data/buildings.ts:188-190 | looking a catalogued building up by its id returns that building |
| Domestic.ButtonKeepsQueueWithinCap | src/components/tabs/DomesticTab.tsx:279-285 | pressing an enabled build button never takes the queue past the cap |
| Nations.TemplatesWellFormed | src/data/nations.ts:13-104 | ten templates with distinct names, positive populations and percentage temperaments |
| Nations.NationIdsDistinct | src/data/nations.ts:111 | different counter values give different `nation_N` ids |
| Nations.NationFrom | src/data/nations.ts:108-124 | a new nation copies its template, is at peace and neutral, has technology level 1, and half its population (floored) as economic power |
| Nations.SliceLength | src/data/nations.ts:129 | `slice(0, count)` keeps `min(count, len)` elements, or drops `-count` from the end when `count` is negative |
| Nations.ShuffledNamesDistinct | src/data/nations.ts:128 | any shuffle of the templates lists distinct names |
| Nations.NumberedNationsDistinct | src/data/nations.ts:126-131 | nations numbered consecutively from a shuffle differ in id and name |
| Nations.PersonalityDescription | src/data/nations.ts:133-145 | every temperament has a non-empty description |
| Nations.PersonalityDescriptionInjective | src/data/nations.ts:133-145 | no two temperaments share a description |
| Nations.NationFactory.constructor | src/data/nations.ts:106 | the counter starts at 0 |
| Nations.NationFactory.CreateAINation | src/data/nations.ts:108-124 | the counter moves on by one and the nation is built with the new number as its id |
| Nations.NationFactory.CreateInitialNations | src/data/nations.ts:126-131 | as many nations as the slice keeps, the i-th from the i-th shuffled template with the i-th next id; ids and names are pairwise distinct; the counter advances by the count |
| Heroes.TemplatesWellFormed | src/data/heroes.ts:18-122 | five heroes and eight specialists with distinct names; only the two mages cost mana |
| Heroes.RollInRange | src/data/heroes.ts:138 | `base + floor(roll * span)` lands in `[base, base + span)` for a draw in [0, 1) |
| Heroes.RollInCovers | src/data/heroes.ts:138 | every value in that range is reached by some draw |
| Heroes.PickIndex | src/data/heroes.ts:155-161 | a draw in [0, 1) picks a valid index of a non-empty list |
| Heroes.GetRandomHeroTemplate | src/data/heroes.ts:155-157 | a draw in [0, 1) returns a hero template from the list |
| Heroes.GetRandomSpecialistTemplate | src/data/heroes.ts:159-161 | a draw in [0, 1) returns a specialist template from the list |
| Heroes.EveryHeroTemplateDrawable | src/data/heroes.ts:155-157 | every hero template is returned by some draw |
| Heroes.EverySpecialistTemplateDrawable | src/data/heroes.ts:159-161 | every specialist template is returned by some draw |
| Heroes.PersonnelIdsDistinct | src/data/heroes.ts:130-146 | hero ids and specialist ids never repeat, and never coincide with each other |
| Heroes.HeroFrom | src/data/heroes.ts:127-141 | a new hero copies the template, starts at level 1 with no experience, undeployed, with loyalty 70..99 |
| Heroes.SpecialistFrom | src/data/heroes.ts:143-153 | a new specialist copies the template, with loyalty 60..99 |
| Heroes.PersonnelFactory.constructor | src/data/heroes.ts:124-125 | both counters start at 0 |
| Heroes.PersonnelFactory.CreateHero | src/data/heroes.ts:127-141 | the hero counter moves on by one and names the hero; the specialist counter is untouched |
| Heroes.PersonnelFactory.CreateSpecialist | src/data/heroes.ts:143-153 | the specialist counter moves on by one and names the specialist; the hero counter is untouched |
| Engine.FindData | engine.js:248 | `BUILDINGS.find`: a found entry is in the catalogue and has the id |
| Engine.FindDataMissing | engine.js:248 | nothing is found exactly when no entry has the id |
| Engine.BuildingBonus | engine.js:41-43 | non-negative for non-negative effects; zero without a building of that effect |
| Engine.TechBonus | engine.js:45-50 | the same for researched technologies |
| Engine.FoodProduction | engine.js:34-53 | one food per farmer without a bonus; a positive bonus never lowers it; never negative |
| Engine.FoodProductionExact | engine.js:34-53 | `100 * food = farmers * (100 + bonus)` exactly (the older engine does not floor) |
| Engine.FoodConsumption | engine.js:56-60 | one per civilian (the total minus the soldiers) and 1.5 per soldier |
| Engine.TaxIncome | engine.js:63-78 | zero at zero satisfaction or population; never negative for sane inputs |
| Engine.TaxIncomeExact | engine.js:63-78 | `10^6*r <= 18*total*satisfaction*(100+bonus) < 10^6*(r+1)` |
| Engine.TaxMonotoneInSatisfaction | engine.js:63-78 | higher satisfaction never lowers the tax |
| Engine.RationDivisor | engine.js:85 | the divisor is at least one |
| Engine.DaysAtLeast | engine.js:86-90 | "at least k days of food" means `food >= k * consumption` |
| Engine.Satisfaction | engine.js:81-94 | the score is 20, 50, 60 or 70; at least the growth threshold if and only if a week of food is stored, at least 60 if and only if three days, at most the decline threshold if and only if less than a day |
| Engine.PushLog | engine.js:309-320 | the entry goes first; the log drops its oldest entry once it holds 50 |
| Engine.WithLog | engine.js:309-320 | only the log changes; the entry carries the day and "high" priority exactly for important entries; the log stays within 50 |
| Engine.PopulationAfter | engine.js:274-284 | the total moves by the amount; a gain goes to the unemployed; a loss takes what it can from the unemployed and never pushes them below 0 |
| Engine.PopulationAfterPartition | engine.js:274-284 | the jobs still add up to the total if and only if the change is a gain or the unemployed cover the loss |
| Engine.Daily | engine.js:196-214 | food moves by production minus consumption, clamped at 0 with a Domestic shortage entry pushed onto the log (and the log untouched otherwise); ore grows by half a unit per miner; nothing else changes |
| Engine.Immigration | engine.js:228 | the ceiling of 2%: at least one newcomer when anyone lives |
| Engine.Emigration | engine.js:232 | the ceiling of 1%: between one and everyone when anyone lives |
| Engine.Migrated | engine.js:226-235 | migration in, out or none according to satisfaction, each with its log entry: an arrivals line of kind Domestic, a departures line of kind Important, or no entry; the log stays within 50 |
| Engine.Monthly | engine.js:216-241 | gold gains tax minus five per soldier; satisfaction is recomputed; the population migrates by the new score with its arrivals or departures entry; a bankrupt treasury then pushes an Important warning on top; the whole log is stated |
| Engine.MonthlyGrowthIff | engine.js:216-241 | the population grows in a month if and only if a week of food is stored |
| Engine.MonthlyDeclineIff | engine.js:216-241 | it shrinks if and only if less than one day of food is stored |
| Engine.MonthlyKeepsHeadCount | engine.js:216-241 | the head count never goes negative |
| Engine.ProgressSplitsByTime | engine.js:243-260 | orders left in the queue still have time left; the finished ones have none |
| Engine.ProgressConserves | engine.js:243-260 | every order either stays or finishes |
| Engine.FinishedKnown | engine.js:243-260 | catalogued orders stay catalogued whether they finish or stay |
| Engine.CompleteOne | engine.js:250-255 | completing an order touches only the buildings and the log |
| Engine.BuiltListFacts | engine.js:250-255 | each new building is dated today and taken from the catalogue; with catalogued orders, one per finished order and with its data |
| Engine.CompleteAll | engine.js:250-255 | the buildings grow by exactly the built list; the log stays within 50 |
| Engine.Progress | engine.js:243-260 | the queue keeps the orders with time left, the buildings gain the finished ones (back to front, as the reverse loop visits them), and the engine invariant is kept |
| Engine.ProgressBuildsEveryFinishedOrder | engine.js:243-260 | with catalogued orders, one building appears for each order that left the queue |
| Engine.BackToFrontExample | engine.js:245 | two orders finishing together are built last-first |
| Engine.MonthTurnsOnlyWithDay | engine.js:171-178 | the monthly hook only runs on a tick that also runs the daily hook |
| Engine.TickEffect | engine.js:152-188 | a paused tick changes nothing; otherwise the day advances by `0.1 * deltaTime * speed` and the state is `Progress` of `Calendar` on the moved clock; speed and technologies stay, and the engine invariant is kept |
| Engine.Advance | engine.js:164-182 | one unpaused step: the day moves on, the calendar hooks run against the previous whole day, then the queue progresses; the invariant is kept |
| Engine.Calendar | engine.js:171-178 | no new whole day: nothing changes; a new day in the same month: exactly `Daily`; a new month: `Daily` then `Monthly`; only resources, population, satisfaction and log change, food and head count stay non-negative and the log within 50 |
| Engine.TickMonthlyAfterDaily | engine.js:171-178 | a tick that turns the month also turns the day |
| Engine.StartConstructionEffect | engine.js:287-306 | an unknown id or too little gold changes nothing; otherwise the gold is paid and one order with a tenth of the build time is queued and a Domestic construction-started entry is pushed onto the log; gold never goes negative |
| Engine.InitialEngineState | engine.js:108-140 | the opening position: 10 people (5 farmers, 2 soldiers, 3 unemployed), 500 gold, day 1, paused, with the founding log entry and the engine invariant |
| Engine.GameEngine.constructor | engine.js:101-106 | the state is the opening position and the invariant holds |
| Engine.GameEngine.AddLog | engine.js:309-320 | the state becomes `WithLog` of the old state, and the engine invariant is kept when it held |
| Engine.GameEngine.AddPopulation | engine.js:274-284 | the state's population becomes `PopulationAfter` of the old one; from a valid state the invariant survives exactly when the new total is not negative |
| Engine.GameEngine.ProcessDailyUpdate | engine.js:196-214 | the state becomes `Daily` of the old state, and the invariant is kept |
| Engine.GameEngine.ProcessMonthlyUpdate | engine.js:216-241 | the state becomes `Monthly` of the old state, and the invariant is kept |
| Engine.GameEngine.UpdateProgress | engine.js:243-260 | the in-place reverse loop over the queue produces `Progress` of the old state, and the invariant is kept |
| Engine.GameEngine.AdvanceOrder | engine.js:246-256 | one loop step: a finished order is spliced out and completed, an unfinished one is written back with less time |
| Engine.GameEngine.Tick | engine.js:152-188 | the state becomes `TickEffect` of the old state (so a day boundary runs the daily update, a month boundary then the monthly one, and the queue progresses), and the invariant is kept |
| Engine.GameEngine.RunCalendar | engine.js:171-178 | the state becomes `Calendar` of the old state: nothing without a new day, the daily update on a new day, the daily and then the monthly update on a new month; the invariant is kept |
| Engine.GameEngine.StartConstruction | engine.js:287-306 | the state becomes `StartConstructionEffect` of the old state, and the invariant is kept |
| Engine.GameEngine.TogglePause | engine.js:263-267 | only the paused flag flips, and the invariant is kept |
| Engine.GameEngine.SetSpeed | engine.js:269-272 | only the speed changes, and the invariant is kept |

## Notes on the code's behaviour

The model follows the code, including these points, which a reader might not expect:

- The reducer's START_CONSTRUCTION checks only the building's existence and its gold and ore
  price (`src/hooks/useGameState.ts:285-312`). The construction cap is enforced only by the
  domestic tab's button (`src/components/tabs/DomesticTab.tsx:58`, `:282`), which
  `Domestic.ButtonKeepsQueueWithinCap` states.
- Starvation lowers the total and takes the same number only from the unemployed
  (`src/hooks/useGameState.ts:59-62`); monthly decline does the same
  (`src/hooks/useGameState.ts:117-120`), and so does the older engine's `addPopulation`
  (`engine.js:274-284`). The jobs can therefore stop adding up to the total;
  `GameReducer.StarvationPartition`, `GameReducer.MonthlyPartition` and
  `Engine.PopulationAfterPartition` say exactly when.
- Tax and upkeep are settled in the monthly update (`src/hooks/useGameState.ts:86-91`); the
  daily update does not touch gold.
- The older engine's satisfaction looks only at the days of food in store
  (`engine.js:81-94`). Income, buildings and battles play no part in it.
- The log holds at most 100 entries in the newer revision (`src/utils/constants.ts:69`) and
  at most 50 in the older engine.

## Left out

- The frame clock is not modelled: `requestAnimationFrame`, `performance.now`, `lastTime`,
  subscribers and `notify`. The elapsed seconds of a frame are a parameter of `Tick`.
- The interface is not modelled: `main.js`, `ui.js`, the React components other than the
  domestic tab's guards, `useGameLoop`, and `useStorage` (saving and loading).
- The technology catalogue of the newer revision (`@/data/technologies`) is not part of this
  model. It is a parameter of `InitialState.CreateInitialState`, `GameReducer.StartResearch`
  and `GameReducer.Reduce`.
- The older engine's catalogue module (`data.js`) is not part of this model. Its building list
  and technologies are parameters of the `Engine.GameEngine` constructor.
- IEEE 754 doubles are modelled as exact rationals, so rounding error is ignored. Every result
  the source floors or ceils is still an integer here.
- Event ids (`Date.now`, `Math.random`), formatted time strings and icons are left out. Messages
  are a datatype carrying the numbers they report, not Japanese text.
- The research queue of the older engine is not modelled, because `updateProgress` never
  processes it.
- `Engine.GameEngine.UpdateProgress`: requires every queued id to be in the catalogue. On an
  unknown id the source would throw while reading the missing building's name. The engine's
  own `startConstruction` only queues catalogued ids, and the engine invariant keeps this.
- `Domestic.HandleJobChange` covers the five jobs with a slider. The tab never passes `total`
  or `unemployed` as the job.
- Randomness: each `Math.random()` draw is a parameter `roll`. The nation shuffle
  (`sort(() => Math.random() - 0.5)`) is a permutation of template indices given as a
  parameter, because a comparator-driven shuffle is not a function of its input.
- The module-level id counters of `nations.ts` and `heroes.ts` are fields of the
  `Nations.NationFactory` and `Heroes.PersonnelFactory` classes.
- Battles, diplomacy, the military tab and the AI's decisions are not modelled. Only the
  formulas in `calculations.ts` that serve them are.
- `formatGameTime` and `formatDay` (display strings) are not modelled.
