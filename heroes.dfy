/** Heroes and specialists for hire (src/data/heroes.ts): the two template lists, the factory
    that numbers new hires, and the random draws. A draw of `Math.random()` is the parameter
    `roll`, which the runtime keeps in [0, 1). */
module Heroes {
  import opened Common
  import opened GameTypes

  datatype HeroTemplate = HeroTemplate(
    name: string, combatPower: nat, specialAbility: SpecialAbility, salary: nat, manaCost: Option<nat>)

  datatype SpecialistTemplate = SpecialistTemplate(
    name: string, specialistType: SpecialistType, bonus: Bonus, salary: nat)

  function Ability(name: string, description: string, kind: string, value: int, trigger: Trigger): SpecialAbility
  {
    SpecialAbility(name, description, AbilityEffect(kind, value, Some(trigger)))
  }

  const HERO_TEMPLATES: seq<HeroTemplate> := [
    HeroTemplate("剣聖アリエス", 100,
                 Ability("無双", "戦闘開始時に敵50人を即死させる", "instantKill", 50, BattleStart), 500, None),
    HeroTemplate("大魔導師ゼノ", 30,
                 Ability("大結界", "都市防御+50%", "defenseBonus", 50, Passive), 300, Some(10)),
    HeroTemplate("鉄壁のガルド", 60,
                 Ability("不退転", "防衛戦時、士気低下を無効化", "moraleLock", 1, Passive), 400, None),
    HeroTemplate("疾風のリン", 80,
                 Ability("奇襲", "先制攻撃で追加ダメージ", "firstStrike", 30, BattleStart), 450, None),
    HeroTemplate("賢者メルリン", 20,
                 Ability("知恵の泉", "研究速度+30%", "researchSpeed", 30, Passive), 350, Some(5))
  ]

  const SPECIALIST_TEMPLATES: seq<SpecialistTemplate> := [
    SpecialistTemplate("鍛冶師ゴロン", Blacksmith, Bonus("weaponProduction", 10), 50),
    SpecialistTemplate("商人ミレイユ", Merchant, Bonus("tradeBonus", 5), 30),
    SpecialistTemplate("農場長オルガ", Farmer, Bonus("foodProduction", 15), 40),
    SpecialistTemplate("学者アルベルト", Scholar, Bonus("researchSpeed", 10), 45),
    SpecialistTemplate("将軍マルクス", General, Bonus("moraleBonus", 10), 60),
    SpecialistTemplate("鍛冶師ヴォルガン", Blacksmith, Bonus("weaponProduction", 15), 70),
    SpecialistTemplate("交易商ハサン", Merchant, Bonus("tradeBonus", 8), 45),
    SpecialistTemplate("農学者エミリア", Farmer, Bonus("foodProduction", 20), 55)
  ]

  /** Five heroes and eight specialists, each name once; only the two mages cost mana. */
  lemma TemplatesWellFormed()
    ensures |HERO_TEMPLATES| == 5 && |SPECIALIST_TEMPLATES| == 8
    ensures forall i, j :: 0 <= i < j < |HERO_TEMPLATES| ==> HERO_TEMPLATES[i].name != HERO_TEMPLATES[j].name
    ensures forall i, j :: 0 <= i < j < |SPECIALIST_TEMPLATES| ==>
              SPECIALIST_TEMPLATES[i].name != SPECIALIST_TEMPLATES[j].name
    ensures forall i :: 0 <= i < |HERO_TEMPLATES| ==> (HERO_TEMPLATES[i].manaCost.Some? <==> i == 1 || i == 4)
  {
  }

  // ---------------------------------------------------------------------------------------------
  // Random draws

  /** `base + Math.floor(roll * span)`. */
  function RollIn(base: int, span: nat, roll: real): int
  {
    base + (roll * span as real).Floor
  }

  /** A draw in [0, 1) lands on one of the `span` values from `base` on. */
  lemma RollInRange(base: int, span: nat, roll: real)
    requires span > 0 && 0.0 <= roll < 1.0
    ensures base <= RollIn(base, span, roll) < base + span
  {
    var x := roll * span as real;
    assert 0.0 <= x by {
      RealProductNonNegative(roll, span as real);
    }
    assert x < span as real by {
      assert span as real - x == (1.0 - roll) * span as real;
      RealProductPositive(1.0 - roll, span as real);
    }
  }

  /** Every value from `base` to `base + span - 1` is drawn by some roll in [0, 1). */
  lemma {:induction false} RollInCovers(base: int, span: nat, value: int)
    requires base <= value < base + span
    ensures var roll := (value - base) as real / span as real;
            0.0 <= roll < 1.0 && RollIn(base, span, roll) == value
  {
    var k := value - base;
    var roll := k as real / span as real;
    assert roll * span as real == k as real;
    assert 0.0 <= roll by {
      RealProductNonNegative(k as real, 1.0 / span as real);
    }
    assert roll < 1.0 by {
      assert roll == 1.0 - (span - k) as real / span as real;
      assert (span - k) as real / span as real > 0.0;
    }
  }

  lemma RealProductNonNegative(a: real, b: real)
    requires a >= 0.0 && b >= 0.0
    ensures a * b >= 0.0
  {
  }

  lemma RealProductPositive(a: real, b: real)
    requires a > 0.0 && b > 0.0
    ensures a * b > 0.0
  {
  }

  /** `list[Math.floor(Math.random() * list.length)]`: an element of the list, or nothing (the
      source's `undefined`) for a draw outside [0, 1). */
  function PickIndex(len: nat, roll: real): (r: Option<nat>)
    ensures 0.0 <= roll < 1.0 && len > 0 ==> r.Some? && r.value < len
    ensures r.Some? ==> r.value < len
  {
    var i := RollIn(0, len, roll);
    assert 0.0 <= roll < 1.0 && len > 0 ==> 0 <= i < len by {
      if 0.0 <= roll < 1.0 && len > 0 {
        RollInRange(0, len, roll);
      }
    }
    if 0 <= i < len then Some(i) else None
  }

  /** `getRandomHeroTemplate()`. */
  function GetRandomHeroTemplate(roll: real): (r: Option<HeroTemplate>)
    ensures 0.0 <= roll < 1.0 ==> r.Some?
    ensures r.Some? ==> r.value in HERO_TEMPLATES
  {
    match PickIndex(|HERO_TEMPLATES|, roll)
    case Some(i) => Some(HERO_TEMPLATES[i])
    case None => None
  }

  /** `getRandomSpecialistTemplate()`. */
  function GetRandomSpecialistTemplate(roll: real): (r: Option<SpecialistTemplate>)
    ensures 0.0 <= roll < 1.0 ==> r.Some?
    ensures r.Some? ==> r.value in SPECIALIST_TEMPLATES
  {
    match PickIndex(|SPECIALIST_TEMPLATES|, roll)
    case Some(i) => Some(SPECIALIST_TEMPLATES[i])
    case None => None
  }

  /** Every template can be drawn. */
  lemma {:induction false} EveryHeroTemplateDrawable(i: nat)
    requires i < |HERO_TEMPLATES|
    ensures var roll := i as real / |HERO_TEMPLATES| as real;
            0.0 <= roll < 1.0 && GetRandomHeroTemplate(roll) == Some(HERO_TEMPLATES[i])
  {
    RollInCovers(0, |HERO_TEMPLATES|, i);
  }

  lemma {:induction false} EverySpecialistTemplateDrawable(i: nat)
    requires i < |SPECIALIST_TEMPLATES|
    ensures var roll := i as real / |SPECIALIST_TEMPLATES| as real;
            0.0 <= roll < 1.0 && GetRandomSpecialistTemplate(roll) == Some(SPECIALIST_TEMPLATES[i])
  {
    RollInCovers(0, |SPECIALIST_TEMPLATES|, i);
  }

  // ---------------------------------------------------------------------------------------------
  // New hires

  function HeroId(n: nat): string
  {
    "hero_" + NatToString(n)
  }

  function SpecialistId(n: nat): string
  {
    "specialist_" + NatToString(n)
  }

  /** Ids never repeat within a kind, and a hero's id is never a specialist's. */
  lemma PersonnelIdsDistinct(n: nat, m: nat)
    ensures n != m ==> HeroId(n) != HeroId(m) && SpecialistId(n) != SpecialistId(m)
    ensures HeroId(n) != SpecialistId(m)
  {
    if n != m {
      PrefixedIdsDistinct("hero_", n, m);
      PrefixedIdsDistinct("specialist_", n, m);
    }
    assert HeroId(n)[0] == 'h' && SpecialistId(m)[0] == 's';
  }

  /** The hero `createHero` builds once its id and loyalty roll are chosen: level 1, no experience,
      not deployed, loyalty 70 to 99, the rest copied from the template. */
  function HeroFrom(t: HeroTemplate, id: string, roll: real): (r: Hero)
    ensures r.id == id && r.name == t.name && r.combatPower == t.combatPower
    ensures r.specialAbility == t.specialAbility && r.salary == t.salary
    ensures r.manaCost.Some? <==> t.manaCost.Some?
    ensures t.manaCost.Some? ==> r.manaCost.value == t.manaCost.value
    ensures r.level == 1 && r.experience == 0 && !r.isDeployed && r.hiredAt.None?
    ensures 0.0 <= roll < 1.0 ==> 70 <= r.loyalty <= 99
  {
    assert 0.0 <= roll < 1.0 ==> 70 <= RollIn(70, 30, roll) < 70 + 30 by {
      if 0.0 <= roll < 1.0 {
        RollInRange(70, 30, roll);
      }
    }
    var manaCost := match t.manaCost case Some(m) => Some(m as int) case None => None;
    Hero(id, t.name, 1, 0, t.combatPower, t.specialAbility, t.salary, manaCost,
         RollIn(70, 30, roll), None, false)
  }

  /** The specialist `createSpecialist` builds: loyalty 60 to 99, the rest copied from the template. */
  function SpecialistFrom(t: SpecialistTemplate, id: string, roll: real): (r: Specialist)
    ensures r.id == id && r.name == t.name && r.specialistType == t.specialistType
    ensures r.bonus == t.bonus && r.salary == t.salary && r.hiredAt.None?
    ensures 0.0 <= roll < 1.0 ==> 60 <= r.loyalty <= 99
  {
    assert 0.0 <= roll < 1.0 ==> 60 <= RollIn(60, 40, roll) < 60 + 40 by {
      if 0.0 <= roll < 1.0 {
        RollInRange(60, 40, roll);
      }
    }
    Specialist(id, t.name, t.specialistType, t.bonus, t.salary, RollIn(60, 40, roll), None)
  }

  /** The module-level `heroIdCounter` and `specialistIdCounter` and the functions that advance them. */
  class PersonnelFactory {
    var heroIdCounter: nat
    var specialistIdCounter: nat

    constructor()
      ensures heroIdCounter == 0 && specialistIdCounter == 0
    {
      heroIdCounter := 0;
      specialistIdCounter := 0;
    }

    /** `createHero(template)`. */
    method CreateHero(template: HeroTemplate, roll: real) returns (hero: Hero)
      modifies this
      ensures heroIdCounter == old(heroIdCounter) + 1 && specialistIdCounter == old(specialistIdCounter)
      ensures hero == HeroFrom(template, HeroId(heroIdCounter), roll)
    {
      heroIdCounter := heroIdCounter + 1;
      hero := HeroFrom(template, HeroId(heroIdCounter), roll);
    }

    /** `createSpecialist(template)`. */
    method CreateSpecialist(template: SpecialistTemplate, roll: real) returns (specialist: Specialist)
      modifies this
      ensures specialistIdCounter == old(specialistIdCounter) + 1 && heroIdCounter == old(heroIdCounter)
      ensures specialist == SpecialistFrom(template, SpecialistId(specialistIdCounter), roll)
    {
      specialistIdCounter := specialistIdCounter + 1;
      specialist := SpecialistFrom(template, SpecialistId(specialistIdCounter), roll);
    }
  }
}
