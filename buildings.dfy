/** The building catalogue and its lookups (src/data/buildings.ts). */
module Buildings {
  import opened Common
  import opened GameTypes

  function Def(id: string, name: string, level: nat, tier: nat, gold: nat, ore: nat, mana: nat,
               buildTime: nat, kind: BuildingEffectType, value: nat, prerequisite: seq<string>,
               maxCount: nat): BuildingDefinition
  {
    BuildingDefinition(id, name, level, tier, BuildingCost(gold, ore, mana), buildTime,
                       BuildingEffect(kind, value), prerequisite, maxCount)
  }

  const BUILDINGS: seq<BuildingDefinition> := [
    // Tier 1
    Def("farm_lv1", "農場Lv1", 1, 1, 100, 0, 0, 30, FoodProduction, 50, [], 0),
    Def("mine_lv1", "鉱山Lv1", 1, 1, 150, 0, 0, 45, OreProduction, 100, [], 0),
    Def("workshop_lv1", "工房Lv1", 1, 1, 200, 0, 0, 60, WeaponProduction, 50, [], 0),
    // Tier 2
    Def("farm_lv2", "農場Lv2", 2, 2, 500, 20, 0, 90, FoodProduction, 100, ["farm_lv1"], 0),
    Def("mine_lv2", "鉱山Lv2", 2, 2, 600, 30, 0, 100, OreProduction, 200, ["mine_lv1"], 0),
    Def("workshop_lv2", "工房Lv2", 2, 2, 700, 25, 0, 110, WeaponProduction, 100, ["workshop_lv1"], 0),
    Def("market", "市場", 1, 2, 800, 0, 0, 120, TradeBonus, 20, [], 1),
    Def("barracks", "兵舎", 1, 2, 1000, 0, 0, 150, TrainingSpeed, 50, [], 1),
    Def("training_ground", "訓練場", 1, 2, 600, 0, 0, 90, MoraleBonus, 10, [], 1),
    // Tier 3
    Def("farm_lv3", "農場Lv3", 3, 3, 1500, 50, 0, 150, FoodProduction, 150, ["farm_lv2"], 0),
    Def("magic_tower_lv1", "魔法塔Lv1", 1, 3, 3000, 100, 0, 180, ManaGeneration, 10, ["magic_theory"], 1),
    Def("magic_tower_lv2", "魔法塔Lv2", 2, 3, 6000, 200, 100, 240, ManaGeneration, 30, ["magic_tower_lv1"], 1),
    Def("magic_tower_lv3", "魔法塔Lv3", 3, 3, 12000, 400, 300, 300, ManaGeneration, 70, ["magic_tower_lv2"], 1),
    Def("magic_academy", "魔法学院", 1, 3, 5000, 150, 50, 200, ManaGeneration, 20, ["magic_tower_lv1"], 1),
    Def("research_lab", "研究所", 1, 3, 5000, 0, 0, 180, ResearchSpeed, 30, [], 1),
    Def("walls_lv1", "城壁Lv1", 1, 3, 4000, 200, 0, 180, Defense, 50, [], 1)
  ]

  /** First entry of `catalog` with the given id (`Array.prototype.find`). */
  function FindById(catalog: seq<BuildingDefinition>, id: string): (r: Option<BuildingDefinition>)
    ensures r.Some? ==> r.value in catalog && r.value.id == id
    ensures r.None? <==> forall i :: 0 <= i < |catalog| ==> catalog[i].id != id
    ensures r.Some? ==> exists i :: 0 <= i < |catalog| && catalog[i] == r.value
                                    && forall j :: 0 <= j < i ==> catalog[j].id != id
    decreases |catalog|
  {
    if catalog == [] then None
    else if catalog[0].id == id then Some(catalog[0])
    else
      var r := FindById(catalog[1..], id);
      assert r.Some? ==> exists i :: 0 <= i < |catalog[1..]| && catalog[1..][i] == r.value
                                     && forall j :: 0 <= j < i ==> catalog[1..][j].id != id;
      assert r.Some? ==> exists i :: 0 < i < |catalog| && catalog[i] == r.value
                                     && forall j :: 0 <= j < i ==> catalog[j].id != id;
      r
  }

  function GetBuildingById(id: string): (r: Option<BuildingDefinition>)
    ensures r.Some? ==> r.value in BUILDINGS && r.value.id == id
    ensures r.None? <==> forall i :: 0 <= i < |BUILDINGS| ==> BUILDINGS[i].id != id
  {
    FindById(BUILDINGS, id)
  }

  /** The availability test `getAvailableBuildings` applies to one catalogue entry. */
  predicate IsAvailable(b: BuildingDefinition, researchedTechIds: seq<string>, builtBuildingIds: seq<string>)
  {
    (forall p :: p in b.prerequisite ==> p in researchedTechIds || p in builtBuildingIds)
    && (b.maxCount != 0 ==> Count(builtBuildingIds, b.id) < b.maxCount)
  }

  function AvailableFrom(catalog: seq<BuildingDefinition>, researchedTechIds: seq<string>,
                         builtBuildingIds: seq<string>): (r: seq<BuildingDefinition>)
    ensures IsSubsequence(r, catalog)
    ensures forall i :: 0 <= i < |r| ==> IsAvailable(r[i], researchedTechIds, builtBuildingIds)
    ensures forall i :: 0 <= i < |catalog| && IsAvailable(catalog[i], researchedTechIds, builtBuildingIds) ==>
              catalog[i] in r
    decreases |catalog|
  {
    if catalog == [] then []
    else if IsAvailable(catalog[0], researchedTechIds, builtBuildingIds)
    then [catalog[0]] + AvailableFrom(catalog[1..], researchedTechIds, builtBuildingIds)
    else AvailableFrom(catalog[1..], researchedTechIds, builtBuildingIds)
  }

  /** The catalogue entries that can be built now, in catalogue order. */
  function GetAvailableBuildings(researchedTechIds: seq<string>, builtBuildingIds: seq<string>)
    : (r: seq<BuildingDefinition>)
    ensures IsSubsequence(r, BUILDINGS)
    ensures forall b :: b in r <==> b in BUILDINGS && IsAvailable(b, researchedTechIds, builtBuildingIds)
  {
    var r := AvailableFrom(BUILDINGS, researchedTechIds, builtBuildingIds);
    SubsequenceElements(r, BUILDINGS);
    r
  }

  lemma CatalogueIdsDistinct()
    ensures forall i, j :: 0 <= i < j < |BUILDINGS| ==> BUILDINGS[i].id != BUILDINGS[j].id
  {
  }

  /** Researching more technologies, with the built list fixed, never withdraws an offer. */
  lemma {:induction false} AvailableMonotoneInResearch(catalog: seq<BuildingDefinition>, fewer: seq<string>,
                                                       more: seq<string>, built: seq<string>)
    requires forall t :: t in fewer ==> t in more
    ensures IsSubsequence(AvailableFrom(catalog, fewer, built), AvailableFrom(catalog, more, built))
    decreases |catalog|
  {
    if catalog != [] {
      AvailableMonotoneInResearch(catalog[1..], fewer, more, built);
      var a, b := AvailableFrom(catalog[1..], fewer, built), AvailableFrom(catalog[1..], more, built);
      if IsAvailable(catalog[0], fewer, built) {
        assert IsAvailable(catalog[0], more, built);
        assert ([catalog[0]] + a)[1..] == a;
        assert ([catalog[0]] + b)[1..] == b;
      } else if IsAvailable(catalog[0], more, built) {
        assert ([catalog[0]] + b)[1..] == b;
        if a != [] && a[0] == catalog[0] {
          SubsequenceDropHead(a, b);
        }
      }
    }
  }

  lemma AvailableBuildingsMonotoneInResearch(fewer: seq<string>, more: seq<string>, built: seq<string>)
    requires forall t :: t in fewer ==> t in more
    ensures IsSubsequence(GetAvailableBuildings(fewer, built), GetAvailableBuildings(more, built))
    ensures forall b :: b in GetAvailableBuildings(fewer, built) ==> b in GetAvailableBuildings(more, built)
  {
    AvailableMonotoneInResearch(BUILDINGS, fewer, more, built);
    SubsequenceElements(GetAvailableBuildings(fewer, built), GetAvailableBuildings(more, built));
  }

  /** The only `market` entry of the catalogue is limited to one copy. */
  lemma MarketLimitedToOne()
    ensures forall i :: 0 <= i < |BUILDINGS| && BUILDINGS[i].id == "market" ==> BUILDINGS[i].maxCount == 1
  {
    forall i | 0 <= i < |BUILDINGS| && BUILDINGS[i].id == "market"
      ensures BUILDINGS[i].maxCount == 1
    {
      CatalogueIdsDistinct();
      assert BUILDINGS[6].id == "market";
      assert i == 6;
    }
  }

  /** Once one `market` is built, no further `market` is offered. */
  lemma SecondMarketNeverOffered(researched: seq<string>, built: seq<string>)
    requires "market" in built
    ensures forall b :: b in GetAvailableBuildings(researched, built) ==> b.id != "market"
  {
    MarketLimitedToOne();
    assert Count(built, "market") >= 1;
  }

  /** Entries without prerequisites or a count limit, `farm_lv1` among them, are always offered. */
  lemma UnrestrictedBuildingsAlwaysAvailable(researched: seq<string>, built: seq<string>)
    ensures forall b :: b in BUILDINGS && b.prerequisite == [] && b.maxCount == 0 ==>
              b in GetAvailableBuildings(researched, built)
    ensures GetBuildingById("farm_lv1").Some?
    ensures GetBuildingById("farm_lv1").value in GetAvailableBuildings(researched, built)
  {
    assert BUILDINGS[0].id == "farm_lv1";
  }
}
