/** The state snapshot of the newer revision (the files under src/types) as immutable values. */
module GameTypes {
  import opened Common

  datatype Resources = Resources(gold: int, food: int, ore: int, mana: int, weapons: int, armor: int)

  datatype Population = Population(
    total: int, farmers: int, miners: int, craftsmen: int, merchants: int, soldiers: int, unemployed: int)

  /** Sum of the six job fields; the partition invariant says it equals `total`. */
  function JobSum(p: Population): int
  {
    p.farmers + p.miners + p.craftsmen + p.merchants + p.soldiers + p.unemployed
  }

  predicate Partitioned(p: Population)
  {
    p.total == JobSum(p)
  }

  datatype Income = Income(tax: int, trade: int, total: int)
  datatype Expense = Expense(maintenance: int, other: int, total: int)

  datatype Military = Military(
    totalSoldiers: int, infantry: int, archers: int, cavalry: int, mageWarriors: int, equipmentRate: int)

  datatype PermanentData = PermanentData(totalPlaytime: int, clearCount: int, points: int, upgrades: seq<string>)

  // ----- Buildings (src/types/Building.ts)

  datatype BuildingEffectType =
    | FoodProduction | OreProduction | WeaponProduction | ManaGeneration | Defense
    | TaxBonus | TradeBonus | TrainingSpeed | MoraleBonus | ResearchSpeed | OtherEffect

  datatype BuildingEffect = BuildingEffect(kind: BuildingEffectType, value: nat)

  /** An absent optional cost is 0. */
  datatype BuildingCost = BuildingCost(gold: nat, ore: nat, mana: nat)

  /** `prerequisite` absent is the empty list; `maxCount` absent is 0 (both are falsy in the source's tests). */
  datatype BuildingDefinition = BuildingDefinition(
    id: string, name: string, level: nat, tier: nat, cost: BuildingCost, buildTime: nat,
    effect: BuildingEffect, prerequisite: seq<string>, maxCount: nat)

  datatype Building = Building(def: BuildingDefinition, builtAt: int)

  datatype ConstructionOrder = ConstructionOrder(buildingId: string, startDay: int, remainingTime: real)

  // ----- Technologies (src/types/Technology.ts)

  datatype TechnologyEffect = TechnologyEffect(kind: string, value: int)
  datatype TechnologyCost = TechnologyCost(gold: nat, mana: nat)

  datatype TechnologyDefinition = TechnologyDefinition(
    id: string, name: string, tier: nat, cost: TechnologyCost, researchTime: nat,
    prerequisite: seq<string>, effect: TechnologyEffect)

  datatype Technology = Technology(def: TechnologyDefinition, isResearched: bool, researchedAt: Option<int>)

  datatype ResearchOrder = ResearchOrder(technologyId: string, startDay: int, remainingTime: real)

  // ----- Personnel (src/types/Hero.ts)

  datatype SpecialistType = Blacksmith | Merchant | Farmer | Scholar | General
  datatype Bonus = Bonus(kind: string, value: int)

  datatype Specialist = Specialist(
    id: string, name: string, specialistType: SpecialistType, bonus: Bonus, salary: int, loyalty: int,
    hiredAt: Option<int>)

  datatype Trigger = BattleStart | BattleEnd | Daily | Monthly | Passive
  datatype AbilityEffect = AbilityEffect(kind: string, value: int, trigger: Option<Trigger>)
  datatype SpecialAbility = SpecialAbility(name: string, description: string, effect: AbilityEffect)

  datatype Hero = Hero(
    id: string, name: string, level: int, experience: int, combatPower: int, specialAbility: SpecialAbility,
    salary: int, manaCost: Option<int>, loyalty: int, hiredAt: Option<int>, isDeployed: bool)

  // ----- Rival nations (src/types/AINation.ts)

  datatype NationPersonality =
    | Aggressive | Cautious | Commercial | Isolationist | Opportunist | Honorable | Fanatic | Scientific

  datatype TreatyType = Trade | NonAggression | Alliance
  datatype Treaty = Treaty(kind: TreatyType, duration: int, startedAt: int)

  datatype AINation = AINation(
    id: string, name: string, personality: NationPersonality, population: int, militaryPower: int,
    economicPower: int, techLevel: int, relationWithPlayer: int, treaties: seq<Treaty>, isAtWar: bool,
    warTarget: Option<string>, aggressiveness: int, expansionDesire: int)

  datatype DiplomaticRelation = DiplomaticRelation(nationId: string, relation: int, treaties: seq<Treaty>)

  // ----- Event log (src/types/Event.ts)

  datatype EventType = Military | Diplomatic | Domestic | Tech | Important | Battle
  datatype EventPriority = Low | Normal | High | Critical

  /** What a log line reports; the source renders these as localized text. */
  datatype EventMessage =
    | GameStarted
    | Starvation(deaths: int)
    | Bankruptcy
    | ConstructionCompleted(buildingName: string)
    | ResearchCompleted(technologyName: string)

  datatype GameEvent = GameEvent(day: int, kind: EventType, message: EventMessage, priority: EventPriority)

  // ----- The whole snapshot (src/types/GameState.ts)

  /** `battleActive` stands for `currentBattle !== null`; the battle record itself is not modelled. */
  datatype GameState = GameState(
    day: real,
    gameSpeed: int,
    isPaused: bool,
    resources: Resources,
    population: Population,
    income: Income,
    expense: Expense,
    satisfaction: int,
    morale: int,
    buildings: seq<Building>,
    constructionQueue: seq<ConstructionOrder>,
    technologies: seq<Technology>,
    researchQueue: seq<ResearchOrder>,
    specialists: seq<Specialist>,
    heroes: seq<Hero>,
    reputation: int,
    diplomaticRelations: seq<DiplomaticRelation>,
    military: Military,
    aiNations: seq<AINation>,
    battleActive: bool,
    eventLog: seq<GameEvent>,
    permanent: PermanentData,
    bankruptcyDays: int,
    lowSatisfactionDays: int)
}
