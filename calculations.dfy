/** Economic formulas of the newer revision (src/utils/calculations.ts). */
module Calculations {
  import opened Common
  import opened Constants
  import opened GameTypes

  // ---------------------------------------------------------------------------------------------
  // Bonus aggregation: `filter(matching).reduce((sum, x) => sum + value, 0)`

  /** Sum of the effect values of the built buildings whose effect is of the given kind. */
  function BuildingBonus(bs: seq<Building>, kind: BuildingEffectType): (r: nat)
    ensures (forall i :: 0 <= i < |bs| ==> bs[i].def.effect.kind != kind) ==> r == 0
    decreases |bs|
  {
    if bs == [] then 0
    else (if bs[0].def.effect.kind == kind then bs[0].def.effect.value else 0) + BuildingBonus(bs[1..], kind)
  }

  /** Sum of the effect values of the researched technologies whose effect is of the given kind. */
  function TechBonus(ts: seq<Technology>, kind: string): (r: int)
    ensures (forall i :: 0 <= i < |ts| ==> !ts[i].isResearched || ts[i].def.effect.kind != kind) ==> r == 0
    decreases |ts|
  {
    if ts == [] then 0
    else (if ts[0].isResearched && ts[0].def.effect.kind == kind then ts[0].def.effect.value else 0)
         + TechBonus(ts[1..], kind)
  }

  function SpecialistBonus(ss: seq<Specialist>, kind: string): (r: int)
    ensures (forall i :: 0 <= i < |ss| ==> ss[i].bonus.kind != kind) ==> r == 0
    decreases |ss|
  {
    if ss == [] then 0
    else (if ss[0].bonus.kind == kind then ss[0].bonus.value else 0) + SpecialistBonus(ss[1..], kind)
  }

  function HeroAbilityBonus(hs: seq<Hero>, kind: string): (r: int)
    ensures (forall i :: 0 <= i < |hs| ==> hs[i].specialAbility.effect.kind != kind) ==> r == 0
    decreases |hs|
  {
    if hs == [] then 0
    else (if hs[0].specialAbility.effect.kind == kind then hs[0].specialAbility.effect.value else 0)
         + HeroAbilityBonus(hs[1..], kind)
  }

  function SpecialistSalaries(ss: seq<Specialist>): int
    decreases |ss|
  {
    if ss == [] then 0 else ss[0].salary + SpecialistSalaries(ss[1..])
  }

  function HeroSalaries(hs: seq<Hero>): int
    decreases |hs|
  {
    if hs == [] then 0 else hs[0].salary + HeroSalaries(hs[1..])
  }

  /** Daily mana cost of the heroes; a missing (or zero) `manaCost` contributes nothing. */
  function HeroManaCost(hs: seq<Hero>): int
    decreases |hs|
  {
    if hs == [] then 0
    else (match hs[0].manaCost case Some(c) => c case None => 0) + HeroManaCost(hs[1..])
  }

  /** Hiring one more specialist raises the salary bill by exactly that specialist's salary. */
  lemma {:induction false} SpecialistSalariesAppend(ss: seq<Specialist>, x: Specialist)
    ensures SpecialistSalaries(ss + [x]) == SpecialistSalaries(ss) + x.salary
    decreases |ss|
  {
    if ss != [] {
      assert (ss + [x])[1..] == ss[1..] + [x];
      SpecialistSalariesAppend(ss[1..], x);
    }
  }

  lemma {:induction false} HeroSalariesAppend(hs: seq<Hero>, x: Hero)
    ensures HeroSalaries(hs + [x]) == HeroSalaries(hs) + x.salary
    decreases |hs|
  {
    if hs != [] {
      assert (hs + [x])[1..] == hs[1..] + [x];
      HeroSalariesAppend(hs[1..], x);
    }
  }

  lemma {:induction false} HeroAbilityBonusAppend(hs: seq<Hero>, h: Hero, kind: string)
    ensures HeroAbilityBonus(hs + [h], kind)
            == HeroAbilityBonus(hs, kind) + (if h.specialAbility.effect.kind == kind then h.specialAbility.effect.value else 0)
    decreases |hs|
  {
    if hs != [] {
      assert (hs + [h])[1..] == hs[1..] + [h];
      HeroAbilityBonusAppend(hs[1..], h, kind);
    }
  }

  lemma {:induction false} HeroManaCostAppend(hs: seq<Hero>, h: Hero)
    ensures HeroManaCost(hs + [h]) == HeroManaCost(hs) + (match h.manaCost case Some(c) => c case None => 0)
    decreases |hs|
  {
    if hs != [] {
      assert (hs + [h])[1..] == hs[1..] + [h];
      HeroManaCostAppend(hs[1..], h);
    }
  }

  /** Completing a building adds its effect value to the matching bonus and nothing to the others. */
  lemma {:induction false} BuildingBonusAppend(bs: seq<Building>, b: Building, kind: BuildingEffectType)
    ensures BuildingBonus(bs + [b], kind)
            == BuildingBonus(bs, kind) + (if b.def.effect.kind == kind then b.def.effect.value else 0)
    decreases |bs|
  {
    if bs != [] {
      assert (bs + [b])[1..] == bs[1..] + [b];
      BuildingBonusAppend(bs[1..], b, kind);
    }
  }

  // ---------------------------------------------------------------------------------------------
  // Production

  /** `1 + bonusPercent / 100`. */
  function Multiplier(bonusPercent: int): real
  {
    1.0 + bonusPercent as real / 100.0
  }

  /** `x * c * (1 + b/100)` written over one integer numerator. */
  lemma ScaledProduct(x: int, num: int, den: int, b: int)
    requires den > 0
    ensures (x as real * (num as real / den as real)) * Multiplier(b)
            == (x * num * (100 + b)) as real / (100 * den) as real
  {
    var xr, nr, dr, br := x as real, num as real, den as real, b as real;
    calc {
      (xr * (nr / dr)) * (1.0 + br / 100.0);
      == (xr * nr / dr) * ((100.0 + br) / 100.0);
      == (xr * nr * (100.0 + br)) / (dr * 100.0);
    }
    assert (x * num * (100 + b)) as real == xr * nr * (100.0 + br);
  }

  /** `Math.floor(q / d)` for integers is Dafny's division when `d > 0`. */
  lemma FloorOfQuotient(q: int, d: int)
    requires d > 0
    ensures (q as real / d as real).Floor == q / d
  {
    var k, m := q / d, q % d;
    var dr := d as real;
    assert q == k * d + m;
    MulCast(k, d);
    assert q as real == k as real * dr + m as real;
    assert q as real / dr == k as real + m as real / dr;
    assert 0.0 <= m as real / dr < 1.0;
  }

  lemma MulCast(a: int, b: int)
    ensures (a * b) as real == a as real * b as real
  {
  }

  function FoodBonusPercent(s: GameState): int
  {
    BuildingBonus(s.buildings, FoodProduction) + TechBonus(s.technologies, "farmEfficiency")
    + SpecialistBonus(s.specialists, "foodProduction") + TechBonus(s.technologies, "productionBonus")
  }

  function OreBonusPercent(s: GameState): int
  {
    BuildingBonus(s.buildings, OreProduction) + TechBonus(s.technologies, "productionBonus")
  }

  function WeaponBonusPercent(s: GameState): int
  {
    BuildingBonus(s.buildings, WeaponProduction) + TechBonus(s.technologies, "weaponProduction")
    + SpecialistBonus(s.specialists, "weaponProduction") + TechBonus(s.technologies, "productionBonus")
  }

  /** `floor(x * c * (1 + b/100))` with `c == num/den`, pinned between integers. */
  lemma ScaledFloor(x: int, c: real, num: int, den: int, b: int)
    requires den > 0 && c == num as real / den as real
    ensures var r := ((x as real * c) * Multiplier(b)).Floor;
            100 * den * r <= x * num * (100 + b) < 100 * den * (r + 1)
  {
    var q, d := x * num * (100 + b), 100 * den;
    var r := ((x as real * c) * Multiplier(b)).Floor;
    assert r == q / d by {
      ScaledProduct(x, num, den, b);
      assert (x as real * c) * Multiplier(b) == q as real / d as real;
      FloorOfQuotient(q, d);
    }
    DivPinnedConverse(q, d);
    assert d * r == 100 * den * r;
  }

  /** The quotient pins its dividend: `d * (p / d) <= p < d * (p / d + 1)`. */
  lemma DivPinnedConverse(p: int, d: int)
    requires d > 0
    ensures d * (p / d) <= p < d * (p / d + 1)
  {
    assert p == d * (p / d) + p % d;
  }

  lemma Distribute(x: int, b: int)
    ensures x * (100 + b) == 100 * x + x * b
  {
  }

  lemma MulNonNegative(a: int, c: int)
    requires a >= 0 && c >= 0
    ensures a * c >= 0
  {
  }

  /** What the pinning `100 r <= p (100 + b) < 100 (r + 1)` says about `r` for `p >= 0`. */
  lemma PercentScaledBounds(p: int, b: int, r: int)
    requires 100 * r <= p * (100 + b) < 100 * (r + 1)
    ensures b == 0 ==> r == p
    ensures p >= 0 && b >= 0 ==> r >= p
    ensures p >= 0 && b >= -100 ==> r >= 0
  {
    Distribute(p, b);
    if p >= 0 && b >= 0 { MulNonNegative(p, b); }
    if p >= 0 && b >= -100 { MulNonNegative(p, 100 + b); }
  }

  lemma HalfScaledBounds(p: int, b: int, r: int)
    requires 200 * r <= p * (100 + b) < 200 * (r + 1)
    ensures b == 0 ==> r == p / 2
    ensures p >= 0 && b >= -100 ==> r >= 0
  {
    Distribute(p, b);
    if b == 0 { DivPinned(p, 2, r); }
    if p >= 0 && b >= -100 { MulNonNegative(p, 100 + b); }
  }

  lemma TenthScaledBounds(p: int, b: int, r: int)
    requires 1000 * r <= p * (100 + b) < 1000 * (r + 1)
    ensures b == 0 ==> r == p / 10
    ensures p >= 0 && b >= -100 ==> r >= 0
  {
    Distribute(p, b);
    if b == 0 { DivPinned(p, 10, r); }
    if p >= 0 && b >= -100 { MulNonNegative(p, 100 + b); }
  }

  /** An integer pinned between `d * r` and `d * (r + 1)` has quotient `r`. */
  lemma DivPinned(p: int, d: int, r: int)
    requires d > 0 && d * r <= p < d * (r + 1)
    ensures p / d == r
  {
    var q, m := p / d, p % d;
    assert p == d * q + m;
    MulLessCancel(d, q, r + 1);
    MulLessCancel(d, r, q + 1);
  }

  /** A positive factor can be cancelled from a strict inequality. */
  lemma MulLessCancel(d: int, a: int, b: int)
    requires d > 0 && d * a < d * b
    ensures a < b
  {
    if a >= b {
      MulNonNegative(d, a - b);
    }
  }

  /** A positive factor can be cancelled from a non-strict inequality. */
  lemma MulAtMostCancel(d: int, a: int, b: int)
    requires d > 0 && d * a <= d * b
    ensures a <= b
  {
    if a > b {
      MulNonNegative(d, a - b - 1);
    }
  }

  /** `floor(x * rate * (1 + b/100))`, the shape shared by the three production formulas. */
  function ScaledOutput(x: int, rate: real, b: int): int
  {
    ((x as real * rate) * Multiplier(b)).Floor
  }

  /** The food formula in integers, and what it gives for no bonus, a positive bonus and a bounded malus. */
  lemma FoodOutput(x: int, b: int)
    ensures var r := ScaledOutput(x, BASE_FOOD_PRODUCTION_PER_FARMER, b);
            && 100 * r <= x * (100 + b) < 100 * (r + 1)
            && (b == 0 ==> r == x)
            && (x >= 0 && b >= 0 ==> r >= x)
            && (x >= 0 && b >= -100 ==> r >= 0)
  {
    var r := ScaledOutput(x, BASE_FOOD_PRODUCTION_PER_FARMER, b);
    ScaledFloor(x, BASE_FOOD_PRODUCTION_PER_FARMER, 1, 1, b);
    PercentScaledBounds(x, b, r);
  }

  lemma OreOutput(x: int, b: int)
    ensures var r := ScaledOutput(x, BASE_ORE_PRODUCTION_PER_MINER, b);
            && 200 * r <= x * (100 + b) < 200 * (r + 1)
            && (b == 0 ==> r == x / 2)
            && (x >= 0 && b >= -100 ==> r >= 0)
  {
    var r := ScaledOutput(x, BASE_ORE_PRODUCTION_PER_MINER, b);
    ScaledFloor(x, BASE_ORE_PRODUCTION_PER_MINER, 1, 2, b);
    HalfScaledBounds(x, b, r);
  }

  lemma WeaponOutput(x: int, b: int)
    ensures var r := ScaledOutput(x, BASE_WEAPON_PRODUCTION_PER_CRAFTSMAN, b);
            && 1000 * r <= 3 * x * (100 + b) < 1000 * (r + 1)
            && (b == 0 ==> r == 3 * x / 10)
            && (x >= 0 && b >= -100 ==> r >= 0)
  {
    var r := ScaledOutput(x, BASE_WEAPON_PRODUCTION_PER_CRAFTSMAN, b);
    ScaledFloor(x, BASE_WEAPON_PRODUCTION_PER_CRAFTSMAN, 3, 10, b);
    assert x * 3 * (100 + b) == (3 * x) * (100 + b);
    TenthScaledBounds(3 * x, b, r);
  }

  /** Daily food output: farmers times the summed percentage bonus, rounded down. */
  function CalculateFoodProduction(s: GameState): (r: int)
    ensures FoodBonusPercent(s) == 0 ==> r == s.population.farmers
    ensures s.population.farmers >= 0 && FoodBonusPercent(s) >= 0 ==> r >= s.population.farmers
    ensures s.population.farmers >= 0 && FoodBonusPercent(s) >= -100 ==> r >= 0
  {
    FoodOutput(s.population.farmers, FoodBonusPercent(s));
    ScaledOutput(s.population.farmers, BASE_FOOD_PRODUCTION_PER_FARMER, FoodBonusPercent(s))
  }

  /** The food formula in integers: `floor(farmers * (100 + bonus) / 100)`. */
  lemma FoodProductionExact(s: GameState)
    ensures 100 * CalculateFoodProduction(s) <= s.population.farmers * (100 + FoodBonusPercent(s))
            < 100 * (CalculateFoodProduction(s) + 1)
  {
    FoodOutput(s.population.farmers, FoodBonusPercent(s));
  }

  /** Daily ore output: half a unit per miner, scaled by the bonus, rounded down. */
  function CalculateOreProduction(s: GameState): (r: int)
    ensures OreBonusPercent(s) == 0 ==> r == s.population.miners / 2
    ensures s.population.miners >= 0 && OreBonusPercent(s) >= -100 ==> r >= 0
  {
    OreOutput(s.population.miners, OreBonusPercent(s));
    ScaledOutput(s.population.miners, BASE_ORE_PRODUCTION_PER_MINER, OreBonusPercent(s))
  }

  /** The ore formula in integers: `floor(miners * (100 + bonus) / 200)`. */
  lemma OreProductionExact(s: GameState)
    ensures 200 * CalculateOreProduction(s) <= s.population.miners * (100 + OreBonusPercent(s))
            < 200 * (CalculateOreProduction(s) + 1)
  {
    OreOutput(s.population.miners, OreBonusPercent(s));
  }

  /** Daily weapon output: 0.3 per craftsman, scaled by the bonus, rounded down. */
  function CalculateWeaponProduction(s: GameState): (r: int)
    ensures WeaponBonusPercent(s) == 0 ==> r == 3 * s.population.craftsmen / 10
    ensures s.population.craftsmen >= 0 && WeaponBonusPercent(s) >= -100 ==> r >= 0
  {
    WeaponOutput(s.population.craftsmen, WeaponBonusPercent(s));
    ScaledOutput(s.population.craftsmen, BASE_WEAPON_PRODUCTION_PER_CRAFTSMAN, WeaponBonusPercent(s))
  }

  /** The weapon formula in integers: `floor(3 * craftsmen * (100 + bonus) / 1000)`. */
  lemma WeaponProductionExact(s: GameState)
    ensures 1000 * CalculateWeaponProduction(s) <= 3 * s.population.craftsmen * (100 + WeaponBonusPercent(s))
            < 1000 * (CalculateWeaponProduction(s) + 1)
  {
    WeaponOutput(s.population.craftsmen, WeaponBonusPercent(s));
  }

  /** Mana from `manaGeneration` buildings and heroes whose ability generates mana. */
  function CalculateManaGeneration(s: GameState): (r: int)
    ensures r == BuildingBonus(s.buildings, ManaGeneration) + HeroAbilityBonus(s.heroes, "manaGeneration")
    ensures r >= HeroAbilityBonus(s.heroes, "manaGeneration")
    ensures s.heroes == [] && (forall i :: 0 <= i < |s.buildings| ==> s.buildings[i].def.effect.kind != ManaGeneration)
            ==> r == 0
  {
    BuildingBonus(s.buildings, ManaGeneration) + HeroAbilityBonus(s.heroes, "manaGeneration")
  }

  /** A completed mana building adds its value to the generation; any other building adds nothing. */
  lemma ManaGenerationAddsBuilding(s: GameState, b: Building)
    ensures CalculateManaGeneration(s.(buildings := s.buildings + [b]))
            == CalculateManaGeneration(s) + (if b.def.effect.kind == ManaGeneration then b.def.effect.value else 0)
  {
    BuildingBonusAppend(s.buildings, b, ManaGeneration);
  }

  /** A recruited hero adds its ability value exactly when the ability generates mana. */
  lemma ManaGenerationAddsHero(s: GameState, h: Hero)
    ensures CalculateManaGeneration(s.(heroes := s.heroes + [h]))
            == CalculateManaGeneration(s)
               + (if h.specialAbility.effect.kind == "manaGeneration" then h.specialAbility.effect.value else 0)
  {
    HeroAbilityBonusAppend(s.heroes, h, "manaGeneration");
  }

  // ---------------------------------------------------------------------------------------------
  // Consumption

  /** Civilians eat 1 and soldiers 1.5 a day; the total is rounded up. */
  function CalculateFoodConsumption(s: GameState): (r: int)
    ensures 2 * r - 1 <= 2 * s.population.total + s.military.totalSoldiers <= 2 * r
  {
    var civilians := s.population.total - s.military.totalSoldiers;
    var soldiers := s.military.totalSoldiers;
    Ceil(civilians as real * BASE_FOOD_CONSUMPTION_PER_PERSON + soldiers as real * BASE_FOOD_CONSUMPTION_PER_SOLDIER)
  }

  function CalculateManaConsumption(s: GameState): (r: int)
    ensures r == HeroManaCost(s.heroes) + s.military.mageWarriors
    ensures s.heroes == [] ==> r == s.military.mageWarriors
  {
    HeroManaCost(s.heroes) + s.military.mageWarriors * 1
  }

  /** A recruited hero raises the consumption by its mana cost, or by nothing when it has none. */
  lemma ManaConsumptionAddsHero(s: GameState, h: Hero)
    ensures CalculateManaConsumption(s.(heroes := s.heroes + [h]))
            == CalculateManaConsumption(s) + (match h.manaCost case Some(c) => c case None => 0)
  {
    HeroManaCostAppend(s.heroes, h);
  }

  // ---------------------------------------------------------------------------------------------
  // Income and upkeep

  function TaxBonusPercent(s: GameState): int
  {
    TechBonus(s.technologies, "taxBonus") + BuildingBonus(s.buildings, TaxBonus)
  }

  /** Monthly tax: 1.2 per head, scaled by satisfaction, a 15% rate and the tax bonus, rounded down. */
  function CalculateTaxIncome(s: GameState): (r: int)
    ensures s.satisfaction == 0 ==> r == 0
    ensures s.population.total == 0 ==> r == 0
    ensures s.population.total >= 0 && s.satisfaction >= 0 && TaxBonusPercent(s) >= -100 ==> r >= 0
  {
    var baseTax := s.population.total as real * BASE_TAX_PER_POPULATION;
    var satisfactionCoef := s.satisfaction as real / 100.0;
    var taxRate := 0.15;
    var b := TaxBonusPercent(s);
    TaxFloor(s.population.total, s.satisfaction, b);
    (baseTax * satisfactionCoef * taxRate * Multiplier(b)).Floor
  }

  lemma TaxFloor(total: int, satisfaction: int, b: int)
    ensures var r := (total as real * BASE_TAX_PER_POPULATION * (satisfaction as real / 100.0) * 0.15 * Multiplier(b)).Floor;
            && 1000000 * r <= 18 * total * satisfaction * (100 + b) < 1000000 * (r + 1)
            && (satisfaction == 0 || total == 0 ==> r == 0)
            && (total >= 0 && satisfaction >= 0 && b >= -100 ==> r >= 0)
  {
    TaxExact(total, satisfaction, b);
    var q := 18 * total * satisfaction * (100 + b);
    FloorOfQuotient(q, 1000000);
    NonNegativeProduct(total, satisfaction, 100 + b);
    assert q == (q / 1000000) * 1000000 + q % 1000000;
  }

  /** The tax formula in integers: `floor(18 * total * satisfaction * (100 + bonus) / 1000000)`. */
  lemma TaxIncomeExact(s: GameState)
    ensures 1000000 * CalculateTaxIncome(s) <= 18 * s.population.total * s.satisfaction * (100 + TaxBonusPercent(s))
            < 1000000 * (CalculateTaxIncome(s) + 1)
  {
    TaxFloor(s.population.total, s.satisfaction, TaxBonusPercent(s));
  }

  lemma TaxExact(total: int, satisfaction: int, b: int)
    ensures total as real * BASE_TAX_PER_POPULATION * (satisfaction as real / 100.0) * 0.15 * Multiplier(b)
            == (18 * total * satisfaction * (100 + b)) as real / 1000000.0
  {
    var t, sr, br := total as real, satisfaction as real, b as real;
    calc {
      t * 1.2 * (sr / 100.0) * 0.15 * (1.0 + br / 100.0);
      == t * sr * (1.2 * 0.15 / 100.0) * ((100.0 + br) / 100.0);
      == (18.0 * t * sr * (100.0 + br)) / 1000000.0;
    }
    assert (18 * total * satisfaction * (100 + b)) as real == 18.0 * t * sr * (100.0 + br);
  }

  lemma NonNegativeProduct(a: int, b: int, c: int)
    ensures a >= 0 && b >= 0 && c >= 0 ==> 18 * a * b * c >= 0
  {
    if a >= 0 && b >= 0 && c >= 0 {
      assert a * b >= 0;
      assert a * b * c >= 0;
    }
  }

  /** Monthly upkeep: 5 gold per soldier plus every specialist's and hero's salary. */
  function CalculateMaintenance(s: GameState): (r: int)
    ensures r - 5 * s.military.totalSoldiers == SpecialistSalaries(s.specialists) + HeroSalaries(s.heroes)
    ensures s.specialists == [] && s.heroes == [] ==> r == 5 * s.military.totalSoldiers
  {
    var soldierCost := s.military.totalSoldiers * 5;
    soldierCost + SpecialistSalaries(s.specialists) + HeroSalaries(s.heroes)
  }

  // ---------------------------------------------------------------------------------------------
  // Combat

  /** `coefficients[0] || 1`: the threshold-0 coefficient if there is a non-zero one, otherwise 1. */
  function Fallback(t: CoefficientTable): real
    decreases |t|
  {
    if t == [] then 1.0
    else if t[0].0 == 0 then (if t[0].1 != 0.0 then t[0].1 else 1.0)
    else Fallback(t[1..])
  }

  /** Position of the first entry (in table order) whose threshold is at most `value`, or -1. */
  function FirstAtMostIndex(value: int, t: CoefficientTable): (k: int)
    ensures -1 <= k < |t|
    ensures k >= 0 ==> t[k].0 <= value
    ensures forall j :: 0 <= j < |t| && (k < 0 || j < k) ==> t[j].0 > value
    decreases |t|
  {
    if t == [] then -1
    else if value >= t[0].0 then 0
    else
      var k := FirstAtMostIndex(value, t[1..]);
      assert forall j :: 0 < j < |t| ==> t[j] == t[1..][j - 1];
      if k < 0 then -1 else k + 1
  }

  /** First entry (in table order) whose threshold is at most `value`, or `fallback`. */
  function FirstAtMost(value: int, t: CoefficientTable, fallback: real): (r: real)
    ensures (forall i :: 0 <= i < |t| ==> t[i].0 > value) ==> r == fallback
    ensures (exists i :: 0 <= i < |t| && t[i].0 <= value) ==>
              exists i :: 0 <= i < |t| && t[i].0 <= value && r == t[i].1
                          && forall j :: 0 <= j < i ==> t[j].0 > value
  {
    var k := FirstAtMostIndex(value, t);
    if k < 0 then fallback else t[k].1
  }

  /** The coefficient `getCoefficient` returns: that of the largest threshold not above `value`,
      or the fallback when every threshold is above it. */
  function Coefficient(value: int, t: CoefficientTable): (r: real)
    requires Descending(t)
    ensures (forall i :: 0 <= i < |t| ==> t[i].0 > value) ==> r == Fallback(t)
    ensures (exists i :: 0 <= i < |t| && t[i].0 <= value) ==>
              exists i :: 0 <= i < |t| && t[i].0 <= value && r == t[i].1
                          && forall j :: 0 <= j < |t| && t[j].0 <= value ==> t[j].0 <= t[i].0
  {
    FirstAtMost(value, t, Fallback(t))
  }

  /** The entry that `FirstAtMost` picks is the one with no earlier match. */
  lemma FirstAtMostAt(value: int, t: CoefficientTable, fallback: real, i: nat)
    requires i < |t| && t[i].0 <= value
    requires forall j :: 0 <= j < i ==> t[j].0 > value
    ensures FirstAtMost(value, t, fallback) == t[i].1
  {
    var k := FirstAtMostIndex(value, t);
    assert k == i;
  }

  /** `getCoefficient`: walk the thresholds from the largest down and stop at the first one not above `value`. */
  method GetCoefficient(value: int, t: CoefficientTable) returns (r: real)
    requires Descending(t)
    ensures r == Coefficient(value, t)
  {
    var i := 0;
    while i < |t|
      invariant 0 <= i <= |t|
      invariant forall j :: 0 <= j < i ==> t[j].0 > value
    {
      if value >= t[i].0 {
        FirstAtMostAt(value, t, Fallback(t), i);
        return t[i].1;
      }
      i := i + 1;
    }
    r := Fallback(t);
  }

  lemma CoefficientTablesDescending()
    ensures Descending(EQUIPMENT_COEFFICIENTS) && Descending(MORALE_COEFFICIENTS)
  {
  }

  /** Morale below 20 matches no threshold, and as the table has no 0 entry the fallback is 1. */
  lemma LowMoraleCoefficientIsOne(morale: int)
    requires morale < 20
    ensures Descending(MORALE_COEFFICIENTS)
    ensures Coefficient(morale, MORALE_COEFFICIENTS) == 1.0
  {
    CoefficientTablesDescending();
    var t := MORALE_COEFFICIENTS;
    assert t[1..][1..][1..][1..][1..] == [];
    assert Fallback(t) == 1.0;
  }

  /** `calculateCombatPower`: soldiers scaled by the equipment and morale coefficients and the tech bonus. */
  function CalculateCombatPower(soldiers: int, equipmentRate: int, morale: int, techBonus: real): (r: int)
    ensures soldiers >= 0 && techBonus >= 0.0 ==> r >= 0
  {
    ScaledPower(soldiers as real, EquipmentCoefficient(equipmentRate), MoraleCoefficient(morale), techBonus)
  }

  /** `Math.floor(soldiers * equipmentCoef * moraleCoef * techBonus)`. */
  function ScaledPower(soldiers: real, equipmentCoef: real, moraleCoef: real, techBonus: real): (r: int)
    ensures soldiers >= 0.0 && equipmentCoef >= 0.0 && moraleCoef >= 0.0 && techBonus >= 0.0 ==> r >= 0
  {
    NonNegativeRealProduct(soldiers, equipmentCoef, moraleCoef, techBonus);
    (soldiers * equipmentCoef * moraleCoef * techBonus).Floor
  }

  /** The equipment coefficient of a rate; the table has a 0 threshold, so nothing falls below 0.2. */
  function EquipmentCoefficient(rate: int): (r: real)
    ensures 0.2 <= r <= 1.0
  {
    EquipmentCoefficientRange(rate);
    Coefficient(rate, EQUIPMENT_COEFFICIENTS)
  }

  /** The morale coefficient; the table has no 0 threshold, so morale below 20 gets the fallback 1. */
  function MoraleCoefficient(morale: int): (r: real)
    ensures 0.4 <= r <= 1.15
  {
    MoraleCoefficientRange(morale);
    Coefficient(morale, MORALE_COEFFICIENTS)
  }

  lemma EquipmentCoefficientRange(rate: int)
    ensures Descending(EQUIPMENT_COEFFICIENTS)
    ensures 0.2 <= Coefficient(rate, EQUIPMENT_COEFFICIENTS) <= 1.0
  {
    CoefficientTablesDescending();
    var t := EQUIPMENT_COEFFICIENTS;
    assert Fallback(t) == 0.2;
    assert forall i :: 0 <= i < |t| ==> 0.2 <= t[i].1 <= 1.0;
  }

  lemma MoraleCoefficientRange(morale: int)
    ensures Descending(MORALE_COEFFICIENTS)
    ensures 0.4 <= Coefficient(morale, MORALE_COEFFICIENTS) <= 1.15
  {
    CoefficientTablesDescending();
    var t := MORALE_COEFFICIENTS;
    assert t[1..][1..][1..][1..][1..] == [];
    assert Fallback(t) == 1.0;
    assert forall i :: 0 <= i < |t| ==> 0.4 <= t[i].1 <= 1.15;
  }

  lemma NonNegativeRealProduct(a: real, b: real, c: real, d: real)
    ensures a >= 0.0 && b >= 0.0 && c >= 0.0 && d >= 0.0 ==> a * b * c * d >= 0.0
  {
    if a >= 0.0 && b >= 0.0 && c >= 0.0 && d >= 0.0 {
      assert a * b >= 0.0;
      assert a * b * c >= 0.0;
    }
  }

  /** With the same coefficients and a non-negative technology bonus, a larger army never fights weaker. */
  lemma CombatPowerMonotoneInSoldiers(a: int, b: int, equipmentRate: int, morale: int, techBonus: real)
    requires 0 <= a <= b && techBonus >= 0.0
    ensures CalculateCombatPower(a, equipmentRate, morale, techBonus)
            <= CalculateCombatPower(b, equipmentRate, morale, techBonus)
  {
    ScaledFloorMonotone(a as real, b as real, EquipmentCoefficient(equipmentRate), MoraleCoefficient(morale), techBonus);
  }

  /**
   * Whatever the equipment rate and morale, the combined coefficient lies between 0.2 * 0.4 and
   * 1.0 * 1.15, so the power is within those multiples of soldiers times technology bonus.
   */
  lemma CombatPowerBounds(soldiers: int, equipmentRate: int, morale: int, techBonus: real)
    requires soldiers >= 0 && techBonus >= 0.0
    ensures CalculateCombatPower(soldiers, equipmentRate, morale, techBonus) as real
            <= 1.15 * (soldiers as real * techBonus)
    ensures 0.08 * (soldiers as real * techBonus)
            < CalculateCombatPower(soldiers, equipmentRate, morale, techBonus) as real + 1.0
  {
    ScaledFloorBounds(soldiers as real, EquipmentCoefficient(equipmentRate), MoraleCoefficient(morale), techBonus);
  }

  lemma ScaledFloorMonotone(a: real, b: real, e: real, m: real, t: real)
    requires 0.0 <= a <= b && e >= 0.0 && m >= 0.0 && t >= 0.0
    ensures ScaledPower(a, e, m, t) <= ScaledPower(b, e, m, t)
  {
    ProductMonotone(a, e, b, e);
    ProductMonotone(a * e, m, b * e, m);
    ProductMonotone(a * e * m, t, b * e * m, t);
  }

  lemma ScaledFloorBounds(s: real, e: real, m: real, t: real)
    requires s >= 0.0 && t >= 0.0 && 0.2 <= e <= 1.0 && 0.4 <= m <= 1.15
    ensures ScaledPower(s, e, m, t) as real <= 1.15 * (s * t)
    ensures 0.08 * (s * t) < ScaledPower(s, e, m, t) as real + 1.0
  {
    CoefficientProductBounds(s, e, m, t);
    FloorWithin(s * e * m * t, 0.08 * (s * t), 1.15 * (s * t));
  }

  lemma FloorWithin(p: real, lo: real, hi: real)
    requires lo <= p <= hi
    ensures p.Floor as real <= hi && lo < p.Floor as real + 1.0
  {
  }

  /** With both coefficients in their table ranges, their product scales `s * t` by 0.08 to 1.15. */
  lemma CoefficientProductBounds(s: real, e: real, m: real, t: real)
    requires s >= 0.0 && t >= 0.0 && 0.2 <= e <= 1.0 && 0.4 <= m <= 1.15
    ensures 0.08 * (s * t) <= s * e * m * t <= 1.15 * (s * t)
  {
    ScaledProductBetween(s, e, m, t, 0.2, 0.4, 1.0, 1.15);
  }

  /** The four-way product is monotone in the two coefficients. */
  lemma ScaledProductBetween(s: real, e: real, m: real, t: real, e0: real, m0: real, e1: real, m1: real)
    requires s >= 0.0 && t >= 0.0 && 0.0 <= e0 <= e <= e1 && 0.0 <= m0 <= m <= m1
    ensures s * e0 * m0 * t <= s * e * m * t <= s * e1 * m1 * t
  {
    ProductMonotone(s, e0, s, e);
    ProductMonotone(s * e0, m0, s * e, m);
    ProductMonotone(s * e0 * m0, t, s * e * m, t);
    ProductMonotone(s, e, s, e1);
    ProductMonotone(s * e, m, s * e1, m1);
    ProductMonotone(s * e * m, t, s * e1 * m1, t);
  }

  /** Multiplying non-negative factors is monotone in each of them. */
  lemma ProductMonotone(a: real, b: real, a': real, b': real)
    requires 0.0 <= a <= a' && 0.0 <= b <= b'
    ensures 0.0 <= a * b <= a' * b'
  {
    MulLeftMonotone(a, 0.0, b);
    MulLeftMonotone(b, a, a');
    MulLeftMonotone(a', b, b');
  }

  lemma MulLeftMonotone(k: real, a: real, b: real)
    requires k >= 0.0 && a <= b
    ensures k * a <= k * b
  {
    assert k * b - k * a == k * (b - a);
  }

  /** Equipment 85% and morale 90% both fall in the 80 bracket: 100 soldiers fight as 90. */
  lemma CombatPowerExample()
    ensures Descending(EQUIPMENT_COEFFICIENTS) && Descending(MORALE_COEFFICIENTS)
    ensures Coefficient(85, EQUIPMENT_COEFFICIENTS) == 0.9
    ensures Coefficient(90, MORALE_COEFFICIENTS) == 1.0
    ensures CalculateCombatPower(100, 85, 90, 1.0) == 90
  {
    CoefficientTablesDescending();
    assert Coefficient(85, EQUIPMENT_COEFFICIENTS) == 0.9 by {
      FirstAtMostAt(85, EQUIPMENT_COEFFICIENTS, Fallback(EQUIPMENT_COEFFICIENTS), 1);
    }
    assert Coefficient(90, MORALE_COEFFICIENTS) == 1.0 by {
      FirstAtMostAt(90, MORALE_COEFFICIENTS, Fallback(MORALE_COEFFICIENTS), 1);
    }
    assert EquipmentCoefficient(85) == 0.9 && MoraleCoefficient(90) == 1.0;
  }

  /** `calculateEquipmentRate`: the percentage of soldiers that have both a weapon and armour. */
  function CalculateEquipmentRate(soldiers: int, weapons: int, armor: int): (r: int)
    ensures soldiers == 0 ==> r == 100
    ensures soldiers > 0 && weapons >= 0 && armor >= 0 ==> 0 <= r <= 100
    ensures soldiers > 0 ==> (r == 100 <==> Min(weapons, armor) >= soldiers)
    ensures soldiers > 0 ==> r == 100 * Min(soldiers, Min(weapons, armor)) / soldiers
  {
    if soldiers == 0 then 100
    else
      var equipped := Min(soldiers, Min(weapons, armor));
      PercentOf(equipped, soldiers);
      EquipmentBounds(soldiers, equipped);
      (equipped as real / soldiers as real * 100.0).Floor
  }

  lemma PercentOf(part: int, whole: int)
    ensures whole > 0 ==> (part as real / whole as real * 100.0).Floor == 100 * part / whole
  {
    if whole > 0 {
      MulCast(100, part);
      assert part as real / whole as real * 100.0 == (100 * part) as real / whole as real;
      FloorOfQuotient(100 * part, whole);
    }
  }

  /** For a positive army, at most all soldiers are equipped; a non-positive count is left unconstrained. */
  lemma EquipmentBounds(soldiers: int, equipped: int)
    requires equipped <= soldiers
    ensures soldiers > 0 ==> 100 * equipped / soldiers <= 100
    ensures soldiers > 0 && equipped >= 0 ==> 100 * equipped / soldiers >= 0
    ensures soldiers > 0 ==> (100 * equipped / soldiers == 100 <==> equipped == soldiers)
  {
    if soldiers > 0 {
      var q := 100 * equipped / soldiers;
      var m := (100 * equipped) % soldiers;
      assert 100 * equipped == soldiers * q + m;
      MulAtMostCancel(soldiers, q, 100);
      if equipped >= 0 {
        MulLessCancel(soldiers, -1, q);
      }
      if equipped == soldiers {
        DivPinned(100 * soldiers, soldiers, 100);
      }
    }
  }

  // ---------------------------------------------------------------------------------------------
  // Satisfaction and status brackets

  /** Days the food stock lasts at the given daily consumption (at least 1). */
  function FoodDays(food: int, consumption: int): real
  {
    food as real / Max(1, consumption) as real
  }

  lemma FoodDaysAtLeast(food: int, consumption: int, k: int)
    ensures FoodDays(food, consumption) >= k as real <==> food >= k * Max(1, consumption)
  {
    var c := Max(1, consumption);
    assert (k * c) as real == k as real * c as real;
    assert food as real / c as real >= k as real <==> food as real >= k as real * c as real;
  }

  function NetIncome(s: GameState): int
  {
    CalculateTaxIncome(s) - CalculateMaintenance(s)
  }

  function FoodScore(days: real): int
  {
    if days >= 7.0 then 20 else if days >= 3.0 then 10 else if days < 1.0 then -30 else -10
  }

  function IncomeScore(net: int): int
  {
    if net > 0 then 10 else if net < -100 then -20 else if net < 0 then -10 else 0
  }

  /** Score before clamping: base 50, the food bracket, the income bracket, and -10 during a battle. */
  function RawSatisfaction(s: GameState): int
  {
    50 + FoodScore(FoodDays(s.resources.food, CalculateFoodConsumption(s))) + IncomeScore(NetIncome(s))
    + (if s.battleActive then -10 else 0)
  }

  /** `calculateSatisfaction`: the raw score clamped to [0, 100]. */
  function CalculateSatisfaction(s: GameState): (r: int)
    ensures 0 <= r <= 80
    ensures r >= SATISFACTION_GROWTH_THRESHOLD ==>
              s.resources.food >= 3 * Max(1, CalculateFoodConsumption(s)) && NetIncome(s) >= 0
    ensures !s.battleActive && s.resources.food >= 3 * Max(1, CalculateFoodConsumption(s)) && NetIncome(s) >= 0
            ==> r > SATISFACTION_DECLINE_THRESHOLD
  {
    FoodDaysAtLeast(s.resources.food, CalculateFoodConsumption(s), 3);
    Max(0, Min(100, RawSatisfaction(s)))
  }

  /** An ongoing battle lowers satisfaction by exactly 10 before clamping at 0. */
  lemma BattlePenalty(s: GameState)
    ensures CalculateSatisfaction(s.(battleActive := true))
            == Max(0, CalculateSatisfaction(s.(battleActive := false)) - 10)
  {
    var calm, war := s.(battleActive := false), s.(battleActive := true);
    assert war == calm.(battleActive := true);
    ConsumptionIgnoresBattle(calm);
    TaxIgnoresBattle(calm);
    MaintenanceIgnoresBattle(calm);
    assert RawSatisfaction(war) == RawSatisfaction(calm) - 10;
  }

  /** Food consumption, tax and upkeep do not look at the battle flag. */
  lemma ConsumptionIgnoresBattle(s: GameState)
    ensures CalculateFoodConsumption(s.(battleActive := true)) == CalculateFoodConsumption(s)
  {
  }

  lemma TaxIgnoresBattle(s: GameState)
    ensures CalculateTaxIncome(s.(battleActive := true)) == CalculateTaxIncome(s)
  {
  }

  lemma MaintenanceIgnoresBattle(s: GameState)
    ensures CalculateMaintenance(s.(battleActive := true)) == CalculateMaintenance(s)
  {
  }

  datatype Status = Safe | Warning | Danger

  /** Food reserve status: safe from 7 days of consumption, warning from 3. */
  function GetFoodStatus(food: int, consumption: int): (r: Status)
    ensures r == Safe <==> food >= 7 * Max(1, consumption)
    ensures r == Danger <==> food < 3 * Max(1, consumption)
  {
    FoodDaysAtLeast(food, consumption, 7);
    FoodDaysAtLeast(food, consumption, 3);
    var days := FoodDays(food, consumption);
    if days >= 7.0 then Safe else if days >= 3.0 then Warning else Danger
  }

  function GetGoldStatus(netIncome: int): (r: Status)
    ensures r == Safe <==> netIncome > 0
    ensures r == Danger <==> netIncome < -50
  {
    if netIncome > 0 then Safe else if netIncome >= -50 then Warning else Danger
  }

  function GetSatisfactionStatus(satisfaction: int): (r: Status)
    ensures r == Safe <==> satisfaction >= 60
    ensures r == Danger <==> satisfaction < 40
  {
    if satisfaction >= 60 then Safe else if satisfaction >= 40 then Warning else Danger
  }

  /** Scenario: 10 farmers and no bonus produce 10 food a day. */
  lemma FoodProductionExample(s: GameState)
    requires s.population.farmers == 10 && FoodBonusPercent(s) == 0
    ensures CalculateFoodProduction(s) == 10
  {
  }

  /** Scenario: 100 people of whom 10 are soldiers eat 90 + 15 = 105 a day. */
  lemma FoodConsumptionExample(s: GameState)
    requires s.population.total == 100 && s.military.totalSoldiers == 10
    ensures CalculateFoodConsumption(s) == 105
  {
  }
}
