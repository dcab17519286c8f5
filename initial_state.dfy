/** The starting snapshot of the newer revision (src/utils/initialState.ts). */
module InitialState {
  import opened Common
  import opened Constants
  import opened GameTypes

  /** Every catalogue technology, unresearched and otherwise unchanged, in catalogue order. */
  function CreateInitialTechnologies(catalog: seq<TechnologyDefinition>): (r: seq<Technology>)
    ensures |r| == |catalog|
    ensures forall i :: 0 <= i < |r| ==> r[i].def == catalog[i] && !r[i].isResearched && r[i].researchedAt.None?
    decreases |catalog|
  {
    if catalog == [] then []
    else [Technology(catalog[0], false, None)] + CreateInitialTechnologies(catalog[1..])
  }

  /** The new game. `techCatalog` stands for the technology catalogue and `nations` for the
      randomly drawn rival roster, neither of which is part of this model. */
  function CreateInitialState(techCatalog: seq<TechnologyDefinition>, nations: seq<AINation>): (r: GameState)
    ensures r.population == Population(10, 5, 0, 0, 0, 2, 3)
    ensures Partitioned(r.population) && r.population.total == INITIAL_POPULATION
    ensures r.military.totalSoldiers == r.population.soldiers == r.military.infantry
    ensures r.military.archers == r.military.cavalry == r.military.mageWarriors == 0
    ensures r.day == 1.0 && r.gameSpeed == 1 && r.isPaused
    ensures r.buildings == [] && r.constructionQueue == [] && r.researchQueue == [] && !r.battleActive
    ensures r.specialists == [] && r.heroes == []
    ensures r.resources.gold >= 0 && r.resources.food >= 0 && r.resources.ore >= 0
    ensures r.resources.mana >= 0 && r.resources.weapons >= 0 && r.resources.armor >= 0
    ensures r.bankruptcyDays == 0 && r.lowSatisfactionDays == 0
    ensures 0 <= r.satisfaction <= 100
    ensures |r.technologies| == |techCatalog|
    ensures forall i :: 0 <= i < |r.technologies| ==>
              r.technologies[i].def == techCatalog[i] && !r.technologies[i].isResearched
    ensures r.eventLog == [GameEvent(1, Domestic, GameStarted, Normal)]
    ensures r.aiNations == nations
  {
    var initialFarmers := (INITIAL_POPULATION as real * 0.5).Floor;
    var initialSoldiers := (INITIAL_POPULATION as real * 0.2).Floor;
    var initialUnemployed := INITIAL_POPULATION - initialFarmers - initialSoldiers;
    GameState(
      day := 1.0,
      gameSpeed := 1,
      isPaused := true,
      resources := Resources(INITIAL_GOLD, INITIAL_FOOD, 20, 0, 5, 5),
      population := Population(INITIAL_POPULATION, initialFarmers, 0, 0, 0, initialSoldiers, initialUnemployed),
      income := Income(0, 0, 0),
      expense := Expense(0, 0, 0),
      satisfaction := INITIAL_SATISFACTION,
      morale := INITIAL_MORALE,
      buildings := [],
      constructionQueue := [],
      technologies := CreateInitialTechnologies(techCatalog),
      researchQueue := [],
      specialists := [],
      heroes := [],
      reputation := 0,
      diplomaticRelations := [],
      military := Military.Military(initialSoldiers, initialSoldiers, 0, 0, 0, 50),
      aiNations := nations,
      battleActive := false,
      eventLog := [GameEvent(1, Domestic, GameStarted, Normal)],
      permanent := PermanentData(0, 0, 0, []),
      bankruptcyDays := 0,
      lowSatisfactionDays := 0)
  }
}
