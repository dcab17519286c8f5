/** The decisions the domestic tab takes before it dispatches an action
    (src/components/tabs/DomesticTab.tsx): the job sliders and the construction guards. */
module Domestic {
  import opened Common
  import opened GameTypes
  import Buildings
  import GameReducer

  /** The five jobs the tab offers a slider for. */
  datatype Job = Farmers | Miners | Craftsmen | Merchants | Soldiers

  function Workers(p: Population, job: Job): int
  {
    match job
    case Farmers => p.farmers
    case Miners => p.miners
    case Craftsmen => p.craftsmen
    case Merchants => p.merchants
    case Soldiers => p.soldiers
  }

  /** The field of a population patch that belongs to `job`. */
  function PatchField(patch: GameReducer.PopulationPatch, job: Job): Option<int>
  {
    match job
    case Farmers => patch.farmers
    case Miners => patch.miners
    case Craftsmen => patch.craftsmen
    case Merchants => patch.merchants
    case Soldiers => patch.soldiers
  }

  /** `handleJobChange(job, value)`: the difference is taken from (or returned to) the unemployed,
      and the patch is dispatched only when the unemployed would not go negative. */
  function HandleJobChange(p: Population, job: Job, value: int): (r: Option<GameReducer.PopulationPatch>)
    ensures r.Some? <==> value <= Workers(p, job) + p.unemployed
    ensures r.Some? ==> PatchField(r.value, job) == Some(value)
    ensures r.Some? ==> r.value.unemployed == Some(p.unemployed - (value - Workers(p, job)))
    ensures r.Some? ==> r.value.total == None
                        && forall other :: other != job ==> PatchField(r.value, other) == None
  {
    var diff := value - Workers(p, job);
    var newUnemployed := p.unemployed - diff;
    if newUnemployed >= 0 then
      var empty := GameReducer.PopulationPatch(None, None, None, None, None, None, Some(newUnemployed));
      Some(match job
           case Farmers => empty.(farmers := Some(value))
           case Miners => empty.(miners := Some(value))
           case Craftsmen => empty.(craftsmen := Some(value))
           case Merchants => empty.(merchants := Some(value))
           case Soldiers => empty.(soldiers := Some(value)))
    else None
  }

  /** Moving people between a job and the unemployed never changes the head count: the reducer
      recounts `total` to the old sum of the six jobs, the chosen job gets `value`, the unemployed
      stay non-negative and every other job is untouched. */
  lemma {:induction false} JobChangeConservesPopulation(s: GameState, job: Job, value: int)
    requires HandleJobChange(s.population, job, value).Some?
    ensures var r := GameReducer.ApplyPopulationUpdate(s, HandleJobChange(s.population, job, value).value);
            && r.population.total == JobSum(s.population)
            && Workers(r.population, job) == value
            && r.population.unemployed >= 0
            && (forall other :: other != job ==> Workers(r.population, other) == Workers(s.population, other))
            && r.military.totalSoldiers == r.population.soldiers
  {
    var patch := HandleJobChange(s.population, job, value).value;
    var r := GameReducer.ApplyPopulationUpdate(s, patch);
    forall other | other != job
      ensures Workers(r.population, other) == Workers(s.population, other)
    {
      assert PatchField(patch, other) == None;
    }
    assert Workers(r.population, job) == value by {
      assert PatchField(patch, job) == Some(value);
    }
  }

  /** With a partitioned population, accepted slider moves keep it partitioned with the same total. */
  lemma JobChangeKeepsTotal(s: GameState, job: Job, value: int)
    requires Partitioned(s.population)
    requires HandleJobChange(s.population, job, value).Some?
    ensures var r := GameReducer.ApplyPopulationUpdate(s, HandleJobChange(s.population, job, value).value);
            Partitioned(r.population) && r.population.total == s.population.total
  {
    JobChangeConservesPopulation(s, job, value);
  }

  // ---------------------------------------------------------------------------------------------
  // Construction guards

  /** `state.technologies.filter(t => t.isResearched).map(t => t.id)`. */
  function ResearchedTechIds(ts: seq<Technology>): (r: seq<string>)
    ensures |r| <= |ts|
    ensures forall id :: id in r <==> exists i :: 0 <= i < |ts| && ts[i].isResearched && ts[i].def.id == id
    decreases |ts|
  {
    if ts == [] then []
    else
      var rest := ResearchedTechIds(ts[1..]);
      assert forall i :: 1 <= i < |ts| ==> ts[i] == ts[1..][i - 1];
      if ts[0].isResearched then [ts[0].def.id] + rest else rest
  }

  /** How many orders may be in the construction queue at once. */
  function MaxConstructions(researchedTechIds: seq<string>): (r: int)
    ensures 1 <= r <= 3
    ensures r == 3 <==> "industrialization" in researchedTechIds
    ensures r == 2 <==> "industrialization" !in researchedTechIds && "organization" in researchedTechIds
    ensures r == 1 <==> "industrialization" !in researchedTechIds && "organization" !in researchedTechIds
  {
    if "industrialization" in researchedTechIds then 3
    else if "organization" in researchedTechIds then 2
    else 1
  }

  /** Researching more never lowers the cap. */
  lemma MaxConstructionsMonotone(fewer: seq<string>, more: seq<string>)
    requires forall t :: t in fewer ==> t in more
    ensures MaxConstructions(fewer) <= MaxConstructions(more)
  {
    if "industrialization" in fewer {
      assert "industrialization" in more;
    } else if "organization" in fewer {
      assert "organization" in more;
    }
  }

  /** `canBuild`: the queue has room. */
  function CanBuild(s: GameState): (r: bool)
    ensures |s.constructionQueue| == 0 ==> r
    ensures |s.constructionQueue| >= 3 ==> !r
  {
    |s.constructionQueue| < MaxConstructions(ResearchedTechIds(s.technologies))
  }

  /** `canAfford`: enough gold, and enough ore when the building asks for any. */
  predicate CanAfford(s: GameState, b: BuildingDefinition)
  {
    s.resources.gold >= b.cost.gold && (b.cost.ore == 0 || s.resources.ore >= b.cost.ore)
  }

  /** The tab's guard and the reducer's guard agree: for a building offered by the tab, the
      START_CONSTRUCTION action enqueues an order exactly when `canAfford` holds. */
  lemma {:induction false} AffordAgreesWithReducer(s: GameState, b: BuildingDefinition,
                                                   researched: seq<string>, built: seq<string>)
    requires b in Buildings.GetAvailableBuildings(researched, built)
    ensures var r := GameReducer.StartConstruction(s, Buildings.BUILDINGS, b.id);
            (CanAfford(s, b) <==> |r.constructionQueue| == |s.constructionQueue| + 1)
            && (CanAfford(s, b) ==> r.constructionQueue[|s.constructionQueue|].buildingId == b.id
                                    && r.resources.gold == s.resources.gold - b.cost.gold)
            && (!CanAfford(s, b) ==> r == s)
  {
    CatalogueLookup(b);
  }

  /** Looking up an offered building by its id finds that very building. */
  lemma {:induction false} CatalogueLookup(b: BuildingDefinition)
    requires b in Buildings.BUILDINGS
    ensures Buildings.FindById(Buildings.BUILDINGS, b.id) == Some(b)
  {
    Buildings.CatalogueIdsDistinct();
    var k :| 0 <= k < |Buildings.BUILDINGS| && Buildings.BUILDINGS[k] == b;
    var found := Buildings.FindById(Buildings.BUILDINGS, b.id);
    assert found.Some?;
    var j :| 0 <= j < |Buildings.BUILDINGS| && Buildings.BUILDINGS[j] == found.value;
    assert j == k;
  }

  /** Through the tab's enabled button, the queue never grows past the cap. */
  lemma ButtonKeepsQueueWithinCap(s: GameState, b: BuildingDefinition, built: seq<string>)
    requires b in Buildings.GetAvailableBuildings(ResearchedTechIds(s.technologies), built)
    requires CanAfford(s, b) && CanBuild(s)
    ensures var r := GameReducer.StartConstruction(s, Buildings.BUILDINGS, b.id);
            |r.constructionQueue| <= MaxConstructions(ResearchedTechIds(r.technologies))
  {
    AffordAgreesWithReducer(s, b, ResearchedTechIds(s.technologies), built);
  }
}
