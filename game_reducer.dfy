/** The newer revision's state transitions (src/hooks/useGameState.ts): a pure reducer over `GameState`. */
module GameReducer {
  import opened Common
  import opened Constants
  import opened GameTypes
  import opened Buildings
  import opened Calculations
  import opened InitialState

  // ---------------------------------------------------------------------------------------------
  // Event log

  /** `addEvent`: the new entry goes first, stamped with the current whole day, and the log is cut to its
      newest `MAX_LOG_ENTRIES` entries; nothing but the log changes. */
  function AddEvent(s: GameState, kind: EventType, message: EventMessage, priority: EventPriority): (r: GameState)
    ensures |r.eventLog| == Min(|s.eventLog| + 1, MAX_LOG_ENTRIES)
    ensures r.eventLog[0] == GameEvent(s.day.Floor, kind, message, priority)
    ensures r.eventLog[1..] == s.eventLog[..|r.eventLog| - 1]
    ensures r == s.(eventLog := r.eventLog)
  {
    var newEvent := GameEvent(s.day.Floor, kind, message, priority);
    var newLog := [newEvent] + s.eventLog;
    s.(eventLog := newLog[..Min(|newLog|, MAX_LOG_ENTRIES)])
  }

  // ---------------------------------------------------------------------------------------------
  // Daily update

  /** `ceil(total * 0.05 / 30)`: one six-hundredth of the population, rounded up. */
  function StarvationLoss(total: int): (r: int)
    ensures 600 * (r - 1) < total <= 600 * r
    ensures total > 0 ==> r >= 1
  {
    Ceil(total as real * STARVATION_DECLINE_RATE / DAYS_PER_MONTH as real)
  }

  /** Food balance of one day before the starvation check. */
  function DailyFood(s: GameState): int
  {
    s.resources.food + CalculateFoodProduction(s) - CalculateFoodConsumption(s)
  }

  /** The resources after one day: production added, consumption taken, food and mana clamped at 0. */
  function DailyResources(s: GameState): (r: Resources)
    ensures r.food >= 0 && r.mana >= 0
    ensures r.gold == s.resources.gold && r.armor == s.resources.armor
    ensures DailyFood(s) >= 0 ==> r.food == DailyFood(s)
    ensures DailyFood(s) < 0 ==> r.food == 0
    ensures r.ore - s.resources.ore == CalculateOreProduction(s)
    ensures r.weapons - s.resources.weapons == CalculateWeaponProduction(s)
  {
    var newFood := s.resources.food + CalculateFoodProduction(s) - CalculateFoodConsumption(s);
    var newOre := s.resources.ore + CalculateOreProduction(s);
    var newWeapons := s.resources.weapons + CalculateWeaponProduction(s);
    var newMana := Max(0, s.resources.mana + CalculateManaGeneration(s) - CalculateManaConsumption(s));
    s.resources.(food := Max(0, if newFood < 0 then 0 else newFood), ore := newOre, weapons := newWeapons,
                 mana := newMana)
  }

  /** The population after one day: starvation removes its toll from the total and the unemployed. */
  function DailyPopulation(s: GameState): (r: Population)
    ensures DailyFood(s) >= 0 ==> r == s.population
    ensures DailyFood(s) < 0 ==>
              r == s.population.(total := Max(0, s.population.total - StarvationLoss(s.population.total)),
                                 unemployed := Max(0, s.population.unemployed - StarvationLoss(s.population.total)))
    ensures r.farmers == s.population.farmers && r.miners == s.population.miners
    ensures r.craftsmen == s.population.craftsmen && r.merchants == s.population.merchants
    ensures r.soldiers == s.population.soldiers
  {
    if DailyFood(s) < 0 then
      var starvationLoss := StarvationLoss(s.population.total);
      s.population.(total := Max(0, s.population.total - starvationLoss),
                    unemployed := Max(0, s.population.unemployed - starvationLoss))
    else s.population
  }

  /** `processDailyUpdate`: production and consumption, then starvation when food ran out. */
  function ProcessDailyUpdate(s: GameState): (r: GameState)
    ensures r.resources == DailyResources(s) && r.population == DailyPopulation(s)
    ensures DailyFood(s) >= 0 ==> r.eventLog == s.eventLog
    ensures DailyFood(s) < 0 ==>
              r.eventLog == AddEvent(s, Domestic, Starvation(StarvationLoss(s.population.total)), Critical).eventLog
    ensures r == s.(resources := r.resources, population := r.population, eventLog := r.eventLog)
  {
    var logged :=
      if DailyFood(s) < 0 then AddEvent(s, Domestic, Starvation(StarvationLoss(s.population.total)), Critical)
      else s;
    logged.(resources := DailyResources(s), population := DailyPopulation(s))
  }

  /** Starvation takes its toll from the unemployed only, so the job split stays a partition of the
      population exactly when there were enough unemployed (or nobody had a job). */
  lemma StarvationPartition(s: GameState)
    requires Partitioned(s.population) && DailyFood(s) < 0
    requires s.population.farmers >= 0 && s.population.miners >= 0 && s.population.craftsmen >= 0
    requires s.population.merchants >= 0 && s.population.soldiers >= 0 && s.population.unemployed >= 0
    ensures Partitioned(ProcessDailyUpdate(s).population) <==>
              s.population.unemployed >= StarvationLoss(s.population.total)
              || s.population.unemployed == s.population.total
  {
    var p, loss := s.population, StarvationLoss(s.population.total);
    var q := ProcessDailyUpdate(s).population;
    assert q == p.(total := Max(0, p.total - loss), unemployed := Max(0, p.unemployed - loss));
    assert JobSum(q) == JobSum(p) - p.unemployed + Max(0, p.unemployed - loss);
  }

  /** No day's update can leave the granary or the mana pool negative, whatever the state. */
  lemma DailyNeverTouchesGold(s: GameState)
    ensures ProcessDailyUpdate(s).resources.gold == s.resources.gold
    ensures ProcessDailyUpdate(s).satisfaction == s.satisfaction
    ensures ProcessDailyUpdate(s).military == s.military
  {
  }

  // ---------------------------------------------------------------------------------------------
  // Monthly update

  /** `ceil(total * 0.02)`. */
  function GrowthAmount(total: int): (r: int)
    ensures 50 * (r - 1) < total <= 50 * r
  {
    Ceil(total as real * POPULATION_GROWTH_RATE)
  }

  /** `ceil(total * 0.01)`. */
  function DeclineAmount(total: int): (r: int)
    ensures 100 * (r - 1) < total <= 100 * r
  {
    Ceil(total as real * POPULATION_DECLINE_RATE)
  }

  /** Growth when satisfied, decline when discontent; newcomers join and leavers leave the unemployed. */
  function MonthlyPopulation(p: Population, satisfaction: int): (r: Population)
    ensures satisfaction >= SATISFACTION_GROWTH_THRESHOLD ==>
              r == p.(total := p.total + GrowthAmount(p.total), unemployed := p.unemployed + GrowthAmount(p.total))
    ensures SATISFACTION_DECLINE_THRESHOLD < satisfaction < SATISFACTION_GROWTH_THRESHOLD ==> r == p
    ensures satisfaction <= SATISFACTION_DECLINE_THRESHOLD ==>
              r == p.(total := Max(1, p.total - DeclineAmount(p.total)),
                      unemployed := Max(0, p.unemployed - DeclineAmount(p.total)))
    ensures p.total >= 1 ==> r.total >= 1
  {
    if satisfaction >= SATISFACTION_GROWTH_THRESHOLD then
      var growth := GrowthAmount(p.total);
      p.(total := p.total + growth, unemployed := p.unemployed + growth)
    else if satisfaction <= SATISFACTION_DECLINE_THRESHOLD then
      var decline := DeclineAmount(p.total);
      p.(total := Max(1, p.total - decline), unemployed := Max(0, p.unemployed - decline))
    else p
  }

  /** The treasury after the month's tax and upkeep; a deficit empties it instead of going negative. */
  function MonthlyGold(s: GameState): (r: int)
    ensures r >= 0
    ensures s.resources.gold + NetIncome(s) >= 0 ==> r == s.resources.gold + NetIncome(s)
    ensures s.resources.gold + NetIncome(s) < 0 ==> r == 0
  {
    var newGold := s.resources.gold + (CalculateTaxIncome(s) - CalculateMaintenance(s));
    if newGold < 0 then 0 else newGold
  }

  /** `processMonthlyUpdate`: tax minus upkeep into the treasury (with the bankruptcy counter and log
      entry on a deficit), then satisfaction, population change and the income and expense records. */
  function ProcessMonthlyUpdate(s: GameState): (r: GameState)
    ensures r.resources == s.resources.(gold := MonthlyGold(s))
    ensures s.resources.gold + NetIncome(s) < 0 ==>
              r.bankruptcyDays == s.bankruptcyDays + 1
              && r.eventLog == AddEvent(s, Domestic, Bankruptcy, Critical).eventLog
    ensures s.resources.gold + NetIncome(s) >= 0 ==> r.bankruptcyDays == 0 && r.eventLog == s.eventLog
    ensures r.satisfaction == CalculateSatisfaction(s)
    ensures r.population == MonthlyPopulation(s.population, r.satisfaction)
    ensures r.income == Income(CalculateTaxIncome(s), 0, CalculateTaxIncome(s))
    ensures r.expense == Expense(CalculateMaintenance(s), 0, CalculateMaintenance(s))
    ensures r == s.(resources := r.resources, population := r.population, income := r.income,
                    expense := r.expense, satisfaction := r.satisfaction, bankruptcyDays := r.bankruptcyDays,
                    eventLog := r.eventLog)
  {
    var taxIncome := CalculateTaxIncome(s);
    var maintenance := CalculateMaintenance(s);
    var bankrupt := s.resources.gold + (taxIncome - maintenance) < 0;
    var logged := if bankrupt then AddEvent(s, Domestic, Bankruptcy, Critical) else s;
    var satisfaction := CalculateSatisfaction(s);
    logged.(resources := s.resources.(gold := MonthlyGold(s)),
            population := MonthlyPopulation(s.population, satisfaction),
            income := Income(taxIncome, 0, taxIncome),
            expense := Expense(maintenance, 0, maintenance),
            satisfaction := satisfaction,
            bankruptcyDays := if bankrupt then s.bankruptcyDays + 1 else 0)
  }

  /** Growth and a quiet month keep the job split a partition; so does decline when the unemployed
      can absorb it and at least one person remains. */
  lemma MonthlyPartition(s: GameState)
    requires Partitioned(s.population)
    ensures var sat := CalculateSatisfaction(s);
            var d := DeclineAmount(s.population.total);
            (sat > SATISFACTION_DECLINE_THRESHOLD
             || (s.population.unemployed >= d && s.population.total - d >= 1))
            ==> Partitioned(ProcessMonthlyUpdate(s).population)
  {
  }

  /** Population only grows when food lasts at least 3 days and the treasury is not losing money. */
  lemma GrowthNeedsFoodAndIncome(s: GameState)
    requires ProcessMonthlyUpdate(s).population.total > s.population.total
    requires s.population.total >= 1
    ensures s.resources.food >= 3 * Max(1, CalculateFoodConsumption(s)) && NetIncome(s) >= 0
  {
  }

  // ---------------------------------------------------------------------------------------------
  // Construction progress

  function AdvanceConstructions(q: seq<ConstructionOrder>, dt: real): (r: seq<ConstructionOrder>)
    ensures |r| == |q|
    ensures forall i :: 0 <= i < |q| ==> r[i] == q[i].(remainingTime := q[i].remainingTime - dt)
    decreases |q|
  {
    if q == [] then []
    else [q[0].(remainingTime := q[0].remainingTime - dt)] + AdvanceConstructions(q[1..], dt)
  }

  predicate ConstructionDone(c: ConstructionOrder) { c.remainingTime <= 0.0 }
  predicate ConstructionPending(c: ConstructionOrder) { c.remainingTime > 0.0 }

  /** The buildings that a list of finished orders produces, in order: one per order whose id is in the
      catalogue, stamped with `day`. */
  function BuiltFrom(catalog: seq<BuildingDefinition>, completed: seq<ConstructionOrder>, day: int): (r: seq<Building>)
    ensures |r| <= |completed|
    ensures forall i :: 0 <= i < |r| ==> r[i].builtAt == day && r[i].def in catalog
    decreases |completed|
  {
    if completed == [] then []
    else
      var rest := BuiltFrom(catalog, completed[1..], day);
      match FindById(catalog, completed[0].buildingId)
      case None => rest
      case Some(b) => [Building(b, day)] + rest
  }

  /** Each new building answers a finished order with the same id. */
  lemma {:induction false} BuiltFromOrders(catalog: seq<BuildingDefinition>, completed: seq<ConstructionOrder>, day: int)
    ensures forall i :: 0 <= i < |BuiltFrom(catalog, completed, day)| ==>
              exists j :: 0 <= j < |completed| && completed[j].buildingId == BuiltFrom(catalog, completed, day)[i].def.id
    decreases |completed|
  {
    if completed == [] {
      assert BuiltFrom(catalog, completed, day) == [];
    } else {
      BuiltFromOrders(catalog, completed[1..], day);
      var r, rest := BuiltFrom(catalog, completed, day), BuiltFrom(catalog, completed[1..], day);
      forall i | 0 <= i < |r|
        ensures exists j :: 0 <= j < |completed| && completed[j].buildingId == r[i].def.id
      {
        var k := i;
        match FindById(catalog, completed[0].buildingId)
        case Some(d) =>
          assert r == [Building(d, day)] + rest;
          if i == 0 {
            assert completed[0].buildingId == r[0].def.id;
          } else {
            k := i - 1;
            assert r[i] == rest[k];
          }
        case None =>
          assert r == rest;
        if k != i || FindById(catalog, completed[0].buildingId).None? {
          assert 0 <= k < |rest| && r[i] == rest[k];
          var j :| 0 <= j < |completed[1..]| && completed[1..][j].buildingId == rest[k].def.id;
          assert completed[j + 1].buildingId == r[i].def.id;
        }
      }
    }
  }

  /** When every finished id is in the catalogue there is one building per order. */
  lemma {:induction false} BuiltFromComplete(catalog: seq<BuildingDefinition>, completed: seq<ConstructionOrder>,
                                             day: int)
    requires forall j :: 0 <= j < |completed| ==> FindById(catalog, completed[j].buildingId).Some?
    ensures |BuiltFrom(catalog, completed, day)| == |completed|
    decreases |completed|
  {
    if completed != [] {
      assert forall j :: 0 <= j < |completed[1..]| ==> completed[1..][j] == completed[j + 1];
      BuiltFromComplete(catalog, completed[1..], day);
      var d := FindById(catalog, completed[0].buildingId).value;
      assert BuiltFrom(catalog, completed, day) == [Building(d, day)] + BuiltFrom(catalog, completed[1..], day);
    }
  }

  /** Commits one finished order: the catalogue entry is built on the current whole day and logged;
      an order whose id is not in the catalogue is dropped silently. */
  function CompleteBuilding(s: GameState, catalog: seq<BuildingDefinition>, c: ConstructionOrder): GameState
  {
    match FindById(catalog, c.buildingId)
    case None => s
    case Some(b) =>
      AddEvent(s.(buildings := s.buildings + [Building(b, s.day.Floor)]), Domestic, ConstructionCompleted(b.name), Normal)
  }

  /** The `for … of completed` loop of `updateConstructions`, in queue order. */
  function CompleteBuildings(s: GameState, catalog: seq<BuildingDefinition>, completed: seq<ConstructionOrder>)
    : (r: GameState)
    ensures r == s.(buildings := r.buildings, eventLog := r.eventLog)
    decreases |completed|
  {
    if completed == [] then s
    else CompleteBuildings(CompleteBuilding(s, catalog, completed[0]), catalog, completed[1..])
  }

  /** The loop appends exactly the buildings of the finished orders whose ids are in the catalogue. */
  lemma {:induction false} CompleteBuildingsAppends(s: GameState, catalog: seq<BuildingDefinition>,
                                                    completed: seq<ConstructionOrder>)
    ensures CompleteBuildings(s, catalog, completed).buildings == s.buildings + BuiltFrom(catalog, completed, s.day.Floor)
    decreases |completed|
  {
    if completed != [] {
      var s1 := CompleteBuilding(s, catalog, completed[0]);
      CompleteBuildingStep(s, catalog, completed[0]);
      CompleteBuildingsAppends(s1, catalog, completed[1..]);
      BuiltFromCons(catalog, completed, s.day.Floor);
      var first, rest := BuiltFrom(catalog, [completed[0]], s.day.Floor), BuiltFrom(catalog, completed[1..], s.day.Floor);
      assert (s.buildings + first) + rest == s.buildings + (first + rest);
    }
  }

  lemma CompleteBuildingStep(s: GameState, catalog: seq<BuildingDefinition>, c: ConstructionOrder)
    ensures CompleteBuilding(s, catalog, c).day == s.day
    ensures CompleteBuilding(s, catalog, c).buildings == s.buildings + BuiltFrom(catalog, [c], s.day.Floor)
  {
    assert [c][1..] == [];
  }

  lemma BuiltFromCons(catalog: seq<BuildingDefinition>, completed: seq<ConstructionOrder>, day: int)
    requires completed != []
    ensures BuiltFrom(catalog, completed, day)
            == BuiltFrom(catalog, [completed[0]], day) + BuiltFrom(catalog, completed[1..], day)
  {
    assert [completed[0]][1..] == [];
  }

  /** `updateConstructions`: every queued order loses `dt` seconds; finished ones leave the queue and
      are built, the others stay in their order. */
  function UpdateConstructions(s: GameState, catalog: seq<BuildingDefinition>, dt: real): (r: GameState)
    ensures s.constructionQueue == [] ==> r == s
    ensures r == s.(buildings := r.buildings, eventLog := r.eventLog, constructionQueue := r.constructionQueue)
    ensures r.buildings
            == s.buildings + BuiltFrom(catalog, Filter(AdvanceConstructions(s.constructionQueue, dt), ConstructionDone), s.day.Floor)
    ensures r.constructionQueue == Filter(AdvanceConstructions(s.constructionQueue, dt), ConstructionPending)
  {
    if s.constructionQueue == [] then s
    else
      var updated := AdvanceConstructions(s.constructionQueue, dt);
      var completed := Filter(updated, ConstructionDone);
      var remaining := Filter(updated, ConstructionPending);
      CompleteBuildingsAppends(s, catalog, completed);
      CompleteBuildings(s, catalog, completed).(constructionQueue := remaining)
  }

  /** What `updateConstructions` promises about the queue: it keeps exactly the orders still running,
      with `dt` taken off and in their old order. */
  lemma UpdateConstructionsQueue(s: GameState, catalog: seq<BuildingDefinition>, dt: real)
    ensures var q := UpdateConstructions(s, catalog, dt).constructionQueue;
            && IsSubsequence(q, AdvanceConstructions(s.constructionQueue, dt))
            && (forall i :: 0 <= i < |q| ==> q[i].remainingTime > 0.0)
            && (forall i :: 0 <= i < |s.constructionQueue| && s.constructionQueue[i].remainingTime - dt > 0.0 ==>
                  s.constructionQueue[i].(remainingTime := s.constructionQueue[i].remainingTime - dt) in q)
  {
    PendingOrders(s.constructionQueue, dt, UpdateConstructions(s, catalog, dt).constructionQueue);
  }

  lemma PendingOrders(queue: seq<ConstructionOrder>, dt: real, q: seq<ConstructionOrder>)
    requires q == Filter(AdvanceConstructions(queue, dt), ConstructionPending)
    ensures IsSubsequence(q, AdvanceConstructions(queue, dt))
    ensures forall i :: 0 <= i < |q| ==> q[i].remainingTime > 0.0
    ensures forall i :: 0 <= i < |queue| && queue[i].remainingTime - dt > 0.0 ==>
              queue[i].(remainingTime := queue[i].remainingTime - dt) in q
  {
    var updated := AdvanceConstructions(queue, dt);
    assert forall i :: 0 <= i < |q| ==> ConstructionPending(q[i]);
    forall i | 0 <= i < |queue| && queue[i].remainingTime - dt > 0.0
      ensures queue[i].(remainingTime := queue[i].remainingTime - dt) in q
    {
      assert ConstructionPending(updated[i]);
    }
  }

  /** What `updateConstructions` promises about the buildings: it builds at most one building per order it
      drops from the queue, each taken from the catalogue and stamped with the current whole day. */
  lemma UpdateConstructionsBuilds(s: GameState, catalog: seq<BuildingDefinition>, dt: real)
    ensures var r := UpdateConstructions(s, catalog, dt);
            && |r.buildings| - |s.buildings| <= |s.constructionQueue| - |r.constructionQueue|
            && (forall i :: |s.buildings| <= i < |r.buildings| ==>
                  r.buildings[i].builtAt == s.day.Floor && r.buildings[i].def in catalog)
  {
    var updated := AdvanceConstructions(s.constructionQueue, dt);
    var completed := Filter(updated, ConstructionDone);
    var r := UpdateConstructions(s, catalog, dt);
    var built := BuiltFrom(catalog, completed, s.day.Floor);
    assert |r.constructionQueue| == |updated| - |completed| by {
      FilterSplit(updated, ConstructionDone, ConstructionPending);
    }
    assert r.buildings == s.buildings + built;
    AppendedStamped(s.buildings, built, s.day.Floor, catalog);
  }

  lemma AppendedStamped(old_: seq<Building>, built: seq<Building>, day: int, catalog: seq<BuildingDefinition>)
    requires forall i :: 0 <= i < |built| ==> built[i].builtAt == day && built[i].def in catalog
    ensures forall i :: |old_| <= i < |old_ + built| ==>
              (old_ + built)[i].builtAt == day && (old_ + built)[i].def in catalog
  {
    forall i | |old_| <= i < |old_ + built|
      ensures (old_ + built)[i].builtAt == day && (old_ + built)[i].def in catalog
    {
      assert (old_ + built)[i] == built[i - |old_|];
    }
  }

  // ---------------------------------------------------------------------------------------------
  // Research progress

  /** The research counterpart of `AdvanceConstructions`: `updateResearch` repeats the same `map` over a
      queue of a different element type, so the model keeps one function per queue. */
  function AdvanceResearch(q: seq<ResearchOrder>, dt: real): (r: seq<ResearchOrder>)
    ensures |r| == |q|
    ensures forall i :: 0 <= i < |q| ==> r[i] == q[i].(remainingTime := q[i].remainingTime - dt)
    decreases |q|
  {
    if q == [] then []
    else [q[0].(remainingTime := q[0].remainingTime - dt)] + AdvanceResearch(q[1..], dt)
  }

  predicate ResearchDone(o: ResearchOrder) { o.remainingTime <= 0.0 }
  predicate ResearchPending(o: ResearchOrder) { o.remainingTime > 0.0 }

  /** `findIndex(t => t.id === id)`: the first position holding that technology, or -1. */
  function FindTechIndex(ts: seq<Technology>, id: string): (r: int)
    ensures -1 <= r < |ts|
    ensures r >= 0 ==> ts[r].def.id == id && forall j :: 0 <= j < r ==> ts[j].def.id != id
    ensures r == -1 <==> forall j :: 0 <= j < |ts| ==> ts[j].def.id != id
    decreases |ts|
  {
    if ts == [] then -1
    else if ts[0].def.id == id then 0
    else
      var k := FindTechIndex(ts[1..], id);
      assert forall j :: 0 < j < |ts| ==> ts[j] == ts[1..][j - 1];
      if k < 0 then -1 else k + 1
  }

  /** The search depends only on the technologies' definitions. */
  lemma {:induction false} FindTechIndexByDefs(a: seq<Technology>, b: seq<Technology>, id: string)
    requires |a| == |b| && forall i :: 0 <= i < |a| ==> a[i].def == b[i].def
    ensures FindTechIndex(a, id) == FindTechIndex(b, id)
    decreases |a|
  {
    if a != [] && a[0].def.id != id {
      FindTechIndexByDefs(a[1..], b[1..], id);
    }
  }

  /** Marks the first technology with the given id as researched on `day`. */
  function MarkResearched(ts: seq<Technology>, id: string, day: int): (r: seq<Technology>)
    ensures |r| == |ts|
    ensures forall i :: 0 <= i < |ts| ==>
              r[i].def == ts[i].def && (r[i].isResearched <==> ts[i].isResearched || i == FindTechIndex(ts, id))
    ensures forall i :: 0 <= i < |ts| ==>
              r[i].researchedAt == (if i == FindTechIndex(ts, id) then Some(day) else ts[i].researchedAt)
  {
    var i := FindTechIndex(ts, id);
    if i < 0 then ts else ts[i := ts[i].(isResearched := true, researchedAt := Some(day))]
  }

  /** Some order in the list is for the technology `id`. */
  predicate Queued(orders: seq<ResearchOrder>, id: string)
  {
    exists j :: 0 <= j < |orders| && orders[j].technologyId == id
  }

  /** Technology `i` is the one some order in the list finds. */
  predicate Marks(ts: seq<Technology>, completed: seq<ResearchOrder>, i: int)
  {
    exists j :: 0 <= j < |completed| && FindTechIndex(ts, completed[j].technologyId) == i
  }

  /** A technology is found by a non-empty list exactly when the head finds it or the rest finds it after the head is applied. */
  lemma MarksStep(ts: seq<Technology>, completed: seq<ResearchOrder>, day: int, i: int)
    requires completed != []
    ensures Marks(ts, completed, i) <==>
              i == FindTechIndex(ts, completed[0].technologyId)
              || Marks(MarkResearched(ts, completed[0].technologyId, day), completed[1..], i)
  {
    var ts1 := MarkResearched(ts, completed[0].technologyId, day);
    if Marks(ts, completed, i) {
      var j :| 0 <= j < |completed| && FindTechIndex(ts, completed[j].technologyId) == i;
      if j > 0 {
        FindTechIndexByDefs(ts, ts1, completed[j].technologyId);
        assert completed[1..][j - 1] == completed[j];
      }
    }
    if Marks(ts1, completed[1..], i) {
      var j :| 0 <= j < |completed[1..]| && FindTechIndex(ts1, completed[1..][j].technologyId) == i;
      FindTechIndexByDefs(ts, ts1, completed[j + 1].technologyId);
      assert completed[1..][j] == completed[j + 1];
    }
  }

  /** The technologies after a list of finished orders, applied in order. */
  function MarkAllResearched(ts: seq<Technology>, completed: seq<ResearchOrder>, day: int): (r: seq<Technology>)
    ensures |r| == |ts|
    ensures forall i :: 0 <= i < |ts| ==>
              r[i].def == ts[i].def && (ts[i].isResearched ==> r[i].isResearched)
    ensures forall j :: 0 <= j < |completed| && FindTechIndex(ts, completed[j].technologyId) >= 0 ==>
              r[FindTechIndex(ts, completed[j].technologyId)].isResearched
    ensures forall i :: 0 <= i < |ts| && r[i].isResearched && !ts[i].isResearched ==>
              Queued(completed, ts[i].def.id)
    ensures forall i :: 0 <= i < |ts| ==>
              r[i].researchedAt == (if Marks(ts, completed, i) then Some(day) else ts[i].researchedAt)
    decreases |completed|
  {
    if completed == [] then ts
    else
      var ts1 := MarkResearched(ts, completed[0].technologyId, day);
      var r := MarkAllResearched(ts1, completed[1..], day);
      forall j | 0 <= j < |completed| && FindTechIndex(ts, completed[j].technologyId) >= 0
        ensures r[FindTechIndex(ts, completed[j].technologyId)].isResearched
      {
        FindTechIndexByDefs(ts, ts1, completed[j].technologyId);
        if j > 0 {
          assert completed[j] == completed[1..][j - 1];
        }
      }
      forall i | 0 <= i < |ts| && r[i].isResearched && !ts[i].isResearched
        ensures Queued(completed, ts[i].def.id)
      {
        if !ts1[i].isResearched {
          var j :| 0 <= j < |completed[1..]| && completed[1..][j].technologyId == ts1[i].def.id;
          assert completed[j + 1].technologyId == ts[i].def.id;
        } else {
          assert completed[0].technologyId == ts[i].def.id;
        }
      }
      forall i | 0 <= i < |ts|
        ensures r[i].researchedAt == (if Marks(ts, completed, i) then Some(day) else ts[i].researchedAt)
      {
        MarksStep(ts, completed, day, i);
      }
      r
  }

  /** Commits one finished order: the technology is marked researched on the current whole day and logged. */
  function CompleteTechnology(s: GameState, o: ResearchOrder): GameState
  {
    var i := FindTechIndex(s.technologies, o.technologyId);
    if i < 0 then s
    else
      var ts := MarkResearched(s.technologies, o.technologyId, s.day.Floor);
      AddEvent(s.(technologies := ts), Tech, ResearchCompleted(ts[i].def.name), Normal)
  }

  /** The `for … of completed` loop of `updateResearch`. */
  function CompleteTechnologies(s: GameState, completed: seq<ResearchOrder>): (r: GameState)
    ensures r == s.(technologies := r.technologies, eventLog := r.eventLog)
    decreases |completed|
  {
    if completed == [] then s
    else CompleteTechnologies(CompleteTechnology(s, completed[0]), completed[1..])
  }

  /** The loop marks the technologies exactly as `MarkAllResearched` does. */
  lemma {:induction false} CompleteTechnologiesMarks(s: GameState, completed: seq<ResearchOrder>)
    ensures CompleteTechnologies(s, completed).technologies == MarkAllResearched(s.technologies, completed, s.day.Floor)
    decreases |completed|
  {
    if completed != [] {
      var s1 := CompleteTechnology(s, completed[0]);
      CompleteTechnologiesMarks(s1, completed[1..]);
      assert s1.day == s.day;
      assert s1.technologies == MarkResearched(s.technologies, completed[0].technologyId, s.day.Floor);
    }
  }

  /** `updateResearch`: the research counterpart of `updateConstructions`. */
  function UpdateResearch(s: GameState, dt: real): (r: GameState)
    ensures s.researchQueue == [] ==> r == s
    ensures r == s.(technologies := r.technologies, eventLog := r.eventLog, researchQueue := r.researchQueue)
    ensures r.technologies == MarkAllResearched(s.technologies, Filter(AdvanceResearch(s.researchQueue, dt), ResearchDone), s.day.Floor)
    ensures r.researchQueue == Filter(AdvanceResearch(s.researchQueue, dt), ResearchPending)
  {
    if s.researchQueue == [] then s
    else
      var updated := AdvanceResearch(s.researchQueue, dt);
      var completed := Filter(updated, ResearchDone);
      var remaining := Filter(updated, ResearchPending);
      CompleteTechnologiesMarks(s, completed);
      CompleteTechnologies(s, completed).(researchQueue := remaining)
  }

  /** What `updateResearch` promises: running orders stay queued in order; every order that finishes marks
      its technology researched; nothing is ever un-researched, and nothing else gets researched. */
  lemma UpdateResearchEffect(s: GameState, dt: real)
    ensures var r := UpdateResearch(s, dt);
            && IsSubsequence(r.researchQueue, AdvanceResearch(s.researchQueue, dt))
            && (forall i :: 0 <= i < |r.researchQueue| ==> r.researchQueue[i].remainingTime > 0.0)
            && |r.technologies| == |s.technologies|
            && (forall i :: 0 <= i < |s.technologies| ==>
                  r.technologies[i].def == s.technologies[i].def
                  && (s.technologies[i].isResearched ==> r.technologies[i].isResearched))
            && (forall j :: 0 <= j < |s.researchQueue| && s.researchQueue[j].remainingTime - dt <= 0.0
                            && FindTechIndex(s.technologies, s.researchQueue[j].technologyId) >= 0 ==>
                  r.technologies[FindTechIndex(s.technologies, s.researchQueue[j].technologyId)].isResearched)
            && (forall i :: 0 <= i < |s.technologies| && r.technologies[i].isResearched
                            && !s.technologies[i].isResearched ==>
                  Queued(s.researchQueue, s.technologies[i].def.id))
  {
    var r := UpdateResearch(s, dt);
    ResearchQueueFacts(s.researchQueue, dt, r.researchQueue);
    ResearchFinishedMarked(s.researchQueue, dt, s.technologies, s.day.Floor, r.technologies);
    ResearchOnlyQueuedMarked(s.researchQueue, dt, s.technologies, s.day.Floor, r.technologies);
  }

  lemma ResearchQueueFacts(queue: seq<ResearchOrder>, dt: real, q: seq<ResearchOrder>)
    requires q == Filter(AdvanceResearch(queue, dt), ResearchPending)
    ensures IsSubsequence(q, AdvanceResearch(queue, dt))
    ensures forall i :: 0 <= i < |q| ==> q[i].remainingTime > 0.0
  {
    assert forall i :: 0 <= i < |q| ==> ResearchPending(q[i]);
  }

  lemma ResearchFinishedMarked(queue: seq<ResearchOrder>, dt: real, ts: seq<Technology>, day: int,
                                marked: seq<Technology>)
    requires marked == MarkAllResearched(ts, Filter(AdvanceResearch(queue, dt), ResearchDone), day)
    ensures forall j :: 0 <= j < |queue| && queue[j].remainingTime - dt <= 0.0
                        && FindTechIndex(ts, queue[j].technologyId) >= 0 ==>
              marked[FindTechIndex(ts, queue[j].technologyId)].isResearched
  {
    var updated := AdvanceResearch(queue, dt);
    var completed := Filter(updated, ResearchDone);
    forall j | 0 <= j < |queue| && queue[j].remainingTime - dt <= 0.0 && FindTechIndex(ts, queue[j].technologyId) >= 0
      ensures marked[FindTechIndex(ts, queue[j].technologyId)].isResearched
    {
      assert ResearchDone(updated[j]);
      var k :| 0 <= k < |completed| && completed[k] == updated[j];
      assert completed[k].technologyId == queue[j].technologyId;
    }
  }

  lemma ResearchOnlyQueuedMarked(queue: seq<ResearchOrder>, dt: real, ts: seq<Technology>, day: int,
                                  marked: seq<Technology>)
    requires marked == MarkAllResearched(ts, Filter(AdvanceResearch(queue, dt), ResearchDone), day)
    ensures forall i :: 0 <= i < |ts| && marked[i].isResearched && !ts[i].isResearched ==>
              Queued(queue, ts[i].def.id)
  {
    forall i | 0 <= i < |ts| && marked[i].isResearched && !ts[i].isResearched
      ensures Queued(queue, ts[i].def.id)
    {
      QueuedThroughFilter(queue, dt, ts[i].def.id);
    }
  }

  lemma QueuedThroughFilter(queue: seq<ResearchOrder>, dt: real, id: string)
    requires Queued(Filter(AdvanceResearch(queue, dt), ResearchDone), id)
    ensures Queued(queue, id)
  {
    var updated := AdvanceResearch(queue, dt);
    var completed := Filter(updated, ResearchDone);
    var k :| 0 <= k < |completed| && completed[k].technologyId == id;
    assert completed[k] in updated;
    var j :| 0 <= j < |updated| && updated[j] == completed[k];
    assert queue[j].technologyId == id;
  }

  // ---------------------------------------------------------------------------------------------
  // Time advance

  /** The fractional day reached after `deltaTime` real seconds at the current game speed. */
  function NewDay(s: GameState, deltaTime: real): real
  {
    s.day + deltaTime * s.gameSpeed as real / SECONDS_PER_DAY as real
  }

  predicate DayCrossed(oldDay: real, newDay: real) { newDay.Floor > oldDay.Floor }

  predicate MonthCrossed(oldDay: real, newDay: real)
  {
    (newDay / DAYS_PER_MONTH as real).Floor > (oldDay / DAYS_PER_MONTH as real).Floor
  }

  /** Crossing into a new month always crosses into a new day, so a tick that runs the monthly update
      has run the daily one just before it. */
  lemma MonthCrossingCrossesDay(oldDay: real, newDay: real)
    requires MonthCrossed(oldDay, newDay)
    ensures DayCrossed(oldDay, newDay)
  {
    var m := (oldDay / 30.0).Floor + 1;
    assert (newDay / 30.0).Floor >= m;
    assert newDay / 30.0 >= m as real;
    assert newDay >= (30 * m) as real;
    assert oldDay / 30.0 < m as real;
    assert oldDay < (30 * m) as real;
    assert newDay.Floor >= 30 * m;
    assert oldDay.Floor < 30 * m;
  }

  /** The state after the day advance and the boundary updates, before the queues move. */
  function AdvanceDay(s: GameState, deltaTime: real): (r: GameState)
    ensures r.day == NewDay(s, deltaTime)
    ensures !DayCrossed(s.day, NewDay(s, deltaTime)) ==> r == s.(day := NewDay(s, deltaTime))
    ensures DayCrossed(s.day, NewDay(s, deltaTime)) && !MonthCrossed(s.day, NewDay(s, deltaTime)) ==>
              r == ProcessDailyUpdate(s.(day := NewDay(s, deltaTime)))
    ensures MonthCrossed(s.day, NewDay(s, deltaTime)) ==>
              r == ProcessMonthlyUpdate(ProcessDailyUpdate(s.(day := NewDay(s, deltaTime))))
  {
    var newDay := NewDay(s, deltaTime);
    var s1 := s.(day := newDay);
    var s2 := if DayCrossed(s.day, newDay) then ProcessDailyUpdate(s1) else s1;
    if !DayCrossed(s.day, newDay) then
      assert !MonthCrossed(s.day, newDay) by {
        if MonthCrossed(s.day, newDay) { MonthCrossingCrossesDay(s.day, newDay); }
      }
      s2
    else if MonthCrossed(s.day, newDay) then ProcessMonthlyUpdate(s2)
    else s2
  }

  /** The TICK case: unless paused, advance the day, run the daily and monthly updates when their
      boundaries are crossed, then advance both queues by the elapsed game seconds. */
  function ApplyTick(s: GameState, catalog: seq<BuildingDefinition>, deltaTime: real): (r: GameState)
    ensures s.isPaused ==> r == s
    ensures !s.isPaused ==> r.day == NewDay(s, deltaTime)
    ensures !s.isPaused ==>
              r == UpdateResearch(UpdateConstructions(AdvanceDay(s, deltaTime), catalog, deltaTime * s.gameSpeed as real),
                                  deltaTime * s.gameSpeed as real)
    ensures Valid(s) ==> Valid(r)
  {
    if s.isPaused then s
    else
      var secondsToAdvance := deltaTime * s.gameSpeed as real;
      var s1 := AdvanceDay(s, deltaTime);
      if Valid(s) then
        AdvanceDayPreservesValid(s, deltaTime);
        QueuesPreserveValid(s1, catalog, secondsToAdvance);
        UpdateResearch(UpdateConstructions(s1, catalog, secondsToAdvance), secondsToAdvance)
      else
        UpdateResearch(UpdateConstructions(s1, catalog, secondsToAdvance), secondsToAdvance)
  }

  /** A tick that stays within the same day changes no resource, population figure or counter: only the
      clock and the two queues move. */
  lemma TickWithinDay(s: GameState, catalog: seq<BuildingDefinition>, deltaTime: real)
    requires !s.isPaused && !DayCrossed(s.day, NewDay(s, deltaTime))
    ensures var r := ApplyTick(s, catalog, deltaTime);
            r.resources == s.resources && r.population == s.population && r.satisfaction == s.satisfaction
            && r.bankruptcyDays == s.bankruptcyDays && r.income == s.income && r.expense == s.expense
  {
    var s3 := AdvanceDay(s, deltaTime);
    var secondsToAdvance := deltaTime * s.gameSpeed as real;
    var s4 := UpdateConstructions(s3, catalog, secondsToAdvance);
    var s5 := UpdateResearch(s4, secondsToAdvance);
    assert s5.resources == s4.resources == s3.resources;
    assert s5.population == s4.population == s3.population;
  }

  // ---------------------------------------------------------------------------------------------
  // Player actions

  /** A `Partial<Population>`: absent fields keep their value. */
  datatype PopulationPatch = PopulationPatch(
    total: Option<int>, farmers: Option<int>, miners: Option<int>, craftsmen: Option<int>,
    merchants: Option<int>, soldiers: Option<int>, unemployed: Option<int>)

  function Patched(old_: int, v: Option<int>): int
  {
    match v case Some(x) => x case None => old_
  }

  /** The UPDATE_POPULATION case: merge the patch, recount `total` from the six jobs, mirror the soldiers. */
  function ApplyPopulationUpdate(s: GameState, patch: PopulationPatch): (r: GameState)
    ensures Partitioned(r.population)
    ensures r.military.totalSoldiers == r.population.soldiers
    ensures r.population.farmers == Patched(s.population.farmers, patch.farmers)
    ensures r.population.miners == Patched(s.population.miners, patch.miners)
    ensures r.population.craftsmen == Patched(s.population.craftsmen, patch.craftsmen)
    ensures r.population.merchants == Patched(s.population.merchants, patch.merchants)
    ensures r.population.soldiers == Patched(s.population.soldiers, patch.soldiers)
    ensures r.population.unemployed == Patched(s.population.unemployed, patch.unemployed)
    ensures r == s.(population := r.population, military := s.military.(totalSoldiers := r.military.totalSoldiers))
  {
    var merged := Population(
      Patched(s.population.total, patch.total), Patched(s.population.farmers, patch.farmers),
      Patched(s.population.miners, patch.miners), Patched(s.population.craftsmen, patch.craftsmen),
      Patched(s.population.merchants, patch.merchants), Patched(s.population.soldiers, patch.soldiers),
      Patched(s.population.unemployed, patch.unemployed));
    var newPopulation := merged.(total := merged.farmers + merged.miners + merged.craftsmen + merged.merchants
                                          + merged.soldiers + merged.unemployed);
    s.(population := newPopulation, military := s.military.(totalSoldiers := newPopulation.soldiers))
  }

  /** The START_CONSTRUCTION case. */
  function StartConstruction(s: GameState, catalog: seq<BuildingDefinition>, buildingId: string): (r: GameState)
    ensures FindById(catalog, buildingId).None? ==> r == s
    ensures FindById(catalog, buildingId).Some? ==>
              var b := FindById(catalog, buildingId).value;
              if s.resources.gold < b.cost.gold || (b.cost.ore != 0 && s.resources.ore < b.cost.ore) then r == s
              else r == s.(resources := s.resources.(gold := s.resources.gold - b.cost.gold,
                                                     ore := s.resources.ore - b.cost.ore),
                           constructionQueue := s.constructionQueue + [ConstructionOrder(b.id, s.day.Floor, b.buildTime as real)])
    ensures s.resources.gold >= 0 ==> r.resources.gold >= 0
    ensures s.resources.ore >= 0 ==> r.resources.ore >= 0
    ensures |r.constructionQueue| <= |s.constructionQueue| + 1
  {
    match FindById(catalog, buildingId)
    case None => s
    case Some(building) =>
      if s.resources.gold < building.cost.gold then s
      else if building.cost.ore != 0 && s.resources.ore < building.cost.ore then s
      else
        var newResources := s.resources.(gold := s.resources.gold - building.cost.gold,
                                         ore := s.resources.ore - building.cost.ore);
        var newConstruction := ConstructionOrder(building.id, s.day.Floor, building.buildTime as real);
        s.(resources := newResources, constructionQueue := s.constructionQueue + [newConstruction])
  }

  /** `getTechnologyById` over the (externally defined) technology catalogue. */
  function FindTechDefinition(catalog: seq<TechnologyDefinition>, id: string): (r: Option<TechnologyDefinition>)
    ensures r.Some? ==> r.value in catalog && r.value.id == id
    ensures r.None? <==> forall i :: 0 <= i < |catalog| ==> catalog[i].id != id
    decreases |catalog|
  {
    if catalog == [] then None
    else if catalog[0].id == id then Some(catalog[0])
    else FindTechDefinition(catalog[1..], id)
  }

  /** `find(t => t.id === p && t.isResearched)` succeeds for every prerequisite. */
  predicate PrerequisitesResearched(techs: seq<Technology>, prerequisite: seq<string>)
  {
    forall k :: 0 <= k < |prerequisite| ==>
      exists i :: 0 <= i < |techs| && techs[i].def.id == prerequisite[k] && techs[i].isResearched
  }

  /** `floor(t * (100 / (100 + bonus)))`: the bonus is a percentage speed-up. */
  function ResearchTime(t: nat, bonus: nat): (r: int)
    ensures r == 100 * t / (100 + bonus)
    ensures 0 <= r <= t
    ensures bonus == 0 ==> r == t
  {
    var factor := 100.0 / (100 + bonus) as real;
    MulCast(t, 100);
    assert t as real * factor == (t * 100) as real / (100 + bonus) as real;
    FloorOfQuotient(t * 100, 100 + bonus);
    ResearchTimeBound(t, bonus);
    (t as real * factor).Floor
  }

  lemma ResearchTimeBound(t: nat, bonus: nat)
    ensures 0 <= 100 * t / (100 + bonus) <= t
    ensures bonus == 0 ==> 100 * t / (100 + bonus) == t
  {
    var q := 100 * t / (100 + bonus);
    var m := (100 * t) % (100 + bonus);
    assert 100 * t == q * (100 + bonus) + m;
    assert (q - t) * (100 + bonus) == 100 * t - t * (100 + bonus) - m;
    assert 100 * t - t * (100 + bonus) == -(t * bonus);
  }

  /** The START_RESEARCH case. */
  function StartResearch(s: GameState, techCatalog: seq<TechnologyDefinition>, technologyId: string): (r: GameState)
    ensures FindTechDefinition(techCatalog, technologyId).None? ==> r == s
    ensures FindTechDefinition(techCatalog, technologyId).Some? ==>
              var t := FindTechDefinition(techCatalog, technologyId).value;
              if s.resources.gold < t.cost.gold || (t.cost.mana != 0 && s.resources.mana < t.cost.mana)
                 || !PrerequisitesResearched(s.technologies, t.prerequisite)
              then r == s
              else r == s.(resources := s.resources.(gold := s.resources.gold - t.cost.gold,
                                                     mana := s.resources.mana - t.cost.mana),
                           researchQueue := s.researchQueue + [ResearchOrder(t.id, s.day.Floor,
                             ResearchTime(t.researchTime, BuildingBonus(s.buildings, ResearchSpeed)) as real)])
    ensures r != s ==> |r.researchQueue| == |s.researchQueue| + 1
                       && r.researchQueue[|s.researchQueue|].remainingTime
                          <= FindTechDefinition(techCatalog, technologyId).value.researchTime as real
    ensures s.resources.gold >= 0 ==> r.resources.gold >= 0
    ensures s.resources.mana >= 0 ==> r.resources.mana >= 0
  {
    match FindTechDefinition(techCatalog, technologyId)
    case None => s
    case Some(tech) =>
      if s.resources.gold < tech.cost.gold then s
      else if tech.cost.mana != 0 && s.resources.mana < tech.cost.mana then s
      else if !PrerequisitesResearched(s.technologies, tech.prerequisite) then s
      else
        var newResources := s.resources.(gold := s.resources.gold - tech.cost.gold,
                                         mana := s.resources.mana - tech.cost.mana);
        var researchSpeedBonus := BuildingBonus(s.buildings, ResearchSpeed);
        var researchTime := ResearchTime(tech.researchTime, researchSpeedBonus);
        var newResearch := ResearchOrder(tech.id, s.day.Floor, researchTime as real);
        s.(resources := newResources, researchQueue := s.researchQueue + [newResearch])
  }

  /** A `Partial<Resources>`. */
  datatype ResourcesPatch = ResourcesPatch(
    gold: Option<int>, food: Option<int>, ore: Option<int>, mana: Option<int>, weapons: Option<int>,
    armor: Option<int>)

  /** The actions of `GameAction`. Those the reducer has no case for share `Unhandled`; NEW_GAME carries
      the rival roster that the random draw would produce. */
  datatype Action =
    | Tick(deltaTime: real)
    | SetGameSpeed(speed: int)
    | TogglePause
    | UpdateResources(resources: ResourcesPatch)
    | UpdatePopulation(population: PopulationPatch)
    | StartConstructionAction(buildingId: string)
    | CancelConstruction(index: int)
    | StartResearchAction(technologyId: string)
    | CancelResearch(index: int)
    | AddEventAction(kind: EventType, message: EventMessage, priority: EventPriority)
    | LoadGame(state: GameState)
    | NewGame(nations: seq<AINation>)
    | Unhandled

  /** `gameReducer`. */
  /** `{ ...state.resources, ...action.payload }`: every field the patch carries replaces the old one. */
  function PatchResources(res: Resources, p: ResourcesPatch): (r: Resources)
    ensures r.gold == Patched(res.gold, p.gold) && r.food == Patched(res.food, p.food)
    ensures r.ore == Patched(res.ore, p.ore) && r.mana == Patched(res.mana, p.mana)
    ensures r.weapons == Patched(res.weapons, p.weapons) && r.armor == Patched(res.armor, p.armor)
    ensures p == ResourcesPatch(None, None, None, None, None, None) ==> r == res
  {
    Resources(Patched(res.gold, p.gold), Patched(res.food, p.food), Patched(res.ore, p.ore),
              Patched(res.mana, p.mana), Patched(res.weapons, p.weapons), Patched(res.armor, p.armor))
  }

  function Reduce(s: GameState, catalog: seq<BuildingDefinition>, techCatalog: seq<TechnologyDefinition>, a: Action)
    : (r: GameState)
    ensures match a
              case Tick(dt) => r == ApplyTick(s, catalog, dt)
              case SetGameSpeed(speed) => r == s.(gameSpeed := speed)
              case TogglePause => r == s.(isPaused := !s.isPaused)
              case UpdateResources(p) => r == s.(resources := PatchResources(s.resources, p))
              case UpdatePopulation(p) => r == ApplyPopulationUpdate(s, p)
              case StartConstructionAction(id) => r == StartConstruction(s, catalog, id)
              case CancelConstruction(index) =>
                r == s.(constructionQueue := RemoveIndex(s.constructionQueue, index))
                && (0 <= index < |s.constructionQueue| ==> |r.constructionQueue| == |s.constructionQueue| - 1)
              case StartResearchAction(id) => r == StartResearch(s, techCatalog, id)
              case CancelResearch(index) =>
                r == s.(researchQueue := RemoveIndex(s.researchQueue, index))
                && (0 <= index < |s.researchQueue| ==> |r.researchQueue| == |s.researchQueue| - 1)
              case AddEventAction(kind, message, priority) => r == AddEvent(s, kind, message, priority)
              case LoadGame(loaded) => r == loaded
              case NewGame(nations) => r == CreateInitialState(techCatalog, nations)
              case Unhandled => r == s
  {
    match a
    case Tick(dt) => ApplyTick(s, catalog, dt)
    case SetGameSpeed(speed) => s.(gameSpeed := speed)
    case TogglePause => s.(isPaused := !s.isPaused)
    case UpdateResources(p) => s.(resources := PatchResources(s.resources, p))
    case UpdatePopulation(p) => ApplyPopulationUpdate(s, p)
    case StartConstructionAction(id) => StartConstruction(s, catalog, id)
    case CancelConstruction(index) => s.(constructionQueue := RemoveIndex(s.constructionQueue, index))
    case StartResearchAction(id) => StartResearch(s, techCatalog, id)
    case CancelResearch(index) => s.(researchQueue := RemoveIndex(s.researchQueue, index))
    case AddEventAction(kind, message, priority) => AddEvent(s, kind, message, priority)
    case LoadGame(loaded) => loaded
    case NewGame(nations) => CreateInitialState(techCatalog, nations)
    case Unhandled => s
  }

  // ---------------------------------------------------------------------------------------------
  // Invariant

  /** What every reachable state satisfies: no negative gold, food or mana, satisfaction within its
      range, a bounded log, and the soldier count mirrored into the military record. */
  predicate Valid(s: GameState)
  {
    s.resources.gold >= 0 && s.resources.food >= 0 && s.resources.mana >= 0
    && 0 <= s.satisfaction <= 100
    && |s.eventLog| <= MAX_LOG_ENTRIES
    && s.military.totalSoldiers == s.population.soldiers
  }

  /** Actions that bring in outside values keep the invariant only when those values respect it. */
  predicate ActionRespectsInvariant(a: Action)
  {
    && (a.UpdateResources? ==>
          Patched(0, a.resources.gold) >= 0 && Patched(0, a.resources.food) >= 0 && Patched(0, a.resources.mana) >= 0)
    && (a.LoadGame? ==> Valid(a.state))
  }

  lemma InitialStateValid(techCatalog: seq<TechnologyDefinition>, nations: seq<AINation>)
    ensures Valid(CreateInitialState(techCatalog, nations))
  {
  }

  lemma QueuesPreserveValid(s: GameState, catalog: seq<BuildingDefinition>, dt: real)
    requires Valid(s)
    ensures Valid(UpdateResearch(UpdateConstructions(s, catalog, dt), dt))
  {
    ConstructionsPreserveValid(s, catalog, dt);
    ResearchPreservesValid(UpdateConstructions(s, catalog, dt), dt);
  }

  lemma AdvanceDayPreservesValid(s: GameState, deltaTime: real)
    requires Valid(s)
    ensures Valid(AdvanceDay(s, deltaTime))
  {
    var newDay := NewDay(s, deltaTime);
    var s1 := s.(day := newDay);
    var s2 := if DayCrossed(s.day, newDay) then ProcessDailyUpdate(s1) else s1;
    assert Valid(s2);
    if DayCrossed(s.day, newDay) && MonthCrossed(s.day, newDay) {
      assert Valid(ProcessMonthlyUpdate(s2));
    }
  }

  /** Every reducer step keeps the invariant. */
  lemma ReducePreservesValid(s: GameState, catalog: seq<BuildingDefinition>, techCatalog: seq<TechnologyDefinition>,
                             a: Action)
    requires Valid(s) && ActionRespectsInvariant(a)
    ensures Valid(Reduce(s, catalog, techCatalog, a))
  {
    match a
        case NewGame(nations) => InitialStateValid(techCatalog, nations);
    case _ =>
  }

  lemma ConstructionsPreserveValid(s: GameState, catalog: seq<BuildingDefinition>, dt: real)
    requires Valid(s)
    ensures Valid(UpdateConstructions(s, catalog, dt))
  {
    if s.constructionQueue != [] {
      var completed := Filter(AdvanceConstructions(s.constructionQueue, dt), ConstructionDone);
      CompleteBuildingsLogBounded(s, catalog, completed);
    }
  }

  lemma {:induction false} CompleteBuildingsLogBounded(s: GameState, catalog: seq<BuildingDefinition>,
                                                      completed: seq<ConstructionOrder>)
    requires |s.eventLog| <= MAX_LOG_ENTRIES
    ensures |CompleteBuildings(s, catalog, completed).eventLog| <= MAX_LOG_ENTRIES
    decreases |completed|
  {
    if completed != [] {
      CompleteBuildingsLogBounded(CompleteBuilding(s, catalog, completed[0]), catalog, completed[1..]);
    }
  }

  lemma ResearchPreservesValid(s: GameState, dt: real)
    requires Valid(s)
    ensures Valid(UpdateResearch(s, dt))
  {
    if s.researchQueue != [] {
      var completed := Filter(AdvanceResearch(s.researchQueue, dt), ResearchDone);
      CompleteTechnologiesLogBounded(s, completed);
    }
  }

  lemma {:induction false} CompleteTechnologiesLogBounded(s: GameState, completed: seq<ResearchOrder>)
    requires |s.eventLog| <= MAX_LOG_ENTRIES
    ensures |CompleteTechnologies(s, completed).eventLog| <= MAX_LOG_ENTRIES
    decreases |completed|
  {
    if completed != [] {
      CompleteTechnologiesLogBounded(CompleteTechnology(s, completed[0]), completed[1..]);
    }
  }
}
