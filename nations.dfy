/** The rival nations (src/data/nations.ts): ten templates, a factory that numbers the nations it
    creates, and the opening draw of rivals. */
module Nations {
  import opened Common
  import opened GameTypes

  datatype NationTemplate = NationTemplate(
    name: string, personality: NationPersonality, description: string, initialPopulation: nat,
    initialMilitaryPower: nat, aggressiveness: nat, expansionDesire: nat)

  const NATION_TEMPLATES: seq<NationTemplate> := [
    NationTemplate("鉄血帝国", Aggressive, "軍事力を重視する好戦的な帝国", 800, 400, 85, 90),
    NationTemplate("聖守護王国", Cautious, "防衛を重視する慎重な王国", 600, 300, 20, 30),
    NationTemplate("商人連合", Commercial, "交易を重視する商業国家", 500, 150, 15, 40),
    NationTemplate("隠者の森", Isolationist, "孤立主義を貫く神秘的な国", 300, 200, 10, 5),
    NationTemplate("流浪の民", Opportunist, "状況に応じて動く日和見主義国家", 400, 200, 60, 70),
    NationTemplate("騎士団領", Honorable, "名誉を重んじる騎士道国家", 500, 350, 40, 50),
    NationTemplate("聖炎教国", Fanatic, "信仰に生きる狂信的な宗教国家", 600, 300, 70, 60),
    NationTemplate("学術都市", Scientific, "技術開発を最優先する未来国家", 400, 150, 25, 35),
    NationTemplate("蛮族連合", Aggressive, "略奪を生業とする荒くれ者の集団", 350, 250, 90, 80),
    NationTemplate("深淵の民", Isolationist, "地下に住む謎多き民族", 250, 180, 30, 20)
  ]

  /** The templates are ten distinct countries whose two temperament scores are percentages. */
  lemma TemplatesWellFormed()
    ensures |NATION_TEMPLATES| == 10
    ensures forall i, j :: 0 <= i < j < |NATION_TEMPLATES| ==> NATION_TEMPLATES[i].name != NATION_TEMPLATES[j].name
    ensures forall t :: t in NATION_TEMPLATES ==>
              t.initialPopulation > 0 && t.aggressiveness <= 100 && t.expansionDesire <= 100
  {
  }

  /** The id of the `n`-th nation created: `nation_${n}`. */
  function NationId(n: nat): string
  {
    "nation_" + NatToString(n)
  }

  lemma NationIdsDistinct(n: nat, m: nat)
    requires n != m
    ensures NationId(n) != NationId(m)
  {
    PrefixedIdsDistinct("nation_", n, m);
  }

  /** The nation `createAINation` builds from a template once its id is chosen: at peace, neutral
      towards the player, at technology level 1, with half its population (rounded down) as
      economic power. */
  function NationFrom(t: NationTemplate, id: string): (r: AINation)
    ensures r.id == id && r.name == t.name && r.personality == t.personality
    ensures r.population == t.initialPopulation && r.militaryPower == t.initialMilitaryPower
    ensures 2 * r.economicPower <= t.initialPopulation < 2 * r.economicPower + 2
    ensures r.techLevel == 1 && r.relationWithPlayer == 0 && r.treaties == [] && !r.isAtWar && r.warTarget.None?
    ensures r.aggressiveness == t.aggressiveness && r.expansionDesire == t.expansionDesire
  {
    AINation(id, t.name, t.personality, t.initialPopulation, t.initialMilitaryPower,
             (t.initialPopulation as real * 0.5).Floor, 1, 0, [], false, None,
             t.aggressiveness, t.expansionDesire)
  }

  /** How many elements `slice(0, count)` keeps of a list of length `len`; a negative `count`
      counts from the end. */
  function SliceLength(len: nat, count: int): (r: nat)
    ensures r <= len
    ensures 0 <= count ==> r == if count < len then count else len
    ensures count < 0 ==> r + (if -count < len then -count else len) == len
  {
    if count >= 0 then Min(count, len)
    else Max(0, len + count)
  }

  /** `order` is a rearrangement of the indices of the template list: what the shuffle produces. */
  predicate IsShuffle(order: seq<nat>)
  {
    |order| == |NATION_TEMPLATES|
    && (forall i :: 0 <= i < |order| ==> order[i] < |NATION_TEMPLATES|)
    && (forall i, j :: 0 <= i < j < |order| ==> order[i] != order[j])
  }

  /** The nations drawn by a shuffle carry distinct names. */
  lemma ShuffledNamesDistinct(order: seq<nat>)
    requires IsShuffle(order)
    ensures forall i, j :: 0 <= i < j < |order| ==>
              NATION_TEMPLATES[order[i]].name != NATION_TEMPLATES[order[j]].name
  {
    TemplatesWellFormed();
    forall i, j | 0 <= i < j < |order|
      ensures NATION_TEMPLATES[order[i]].name != NATION_TEMPLATES[order[j]].name
    {
      if order[i] < order[j] {
        assert NATION_TEMPLATES[order[i]].name != NATION_TEMPLATES[order[j]].name;
      } else {
        assert NATION_TEMPLATES[order[j]].name != NATION_TEMPLATES[order[i]].name;
      }
    }
  }

  /** Nations numbered consecutively from a shuffle differ in both id and name. */
  lemma NumberedNationsDistinct(nations: seq<AINation>, order: seq<nat>, start: nat)
    requires IsShuffle(order) && |nations| <= |order|
    requires forall i :: 0 <= i < |nations| ==>
               nations[i] == NationFrom(NATION_TEMPLATES[order[i]], NationId(start + i + 1))
    ensures forall i, j :: 0 <= i < j < |nations| ==> nations[i].id != nations[j].id
    ensures forall i, j :: 0 <= i < j < |nations| ==> nations[i].name != nations[j].name
  {
    forall i, j | 0 <= i < j < |nations|
      ensures nations[i].id != nations[j].id
    {
      NationIdsDistinct(start + i + 1, start + j + 1);
    }
    ShuffledNamesDistinct(order);
  }

  /** `getPersonalityDescription`: one line of advice per temperament. */
  function PersonalityDescription(p: NationPersonality): (r: string)
    ensures |r| > 0
  {
    match p
    case Aggressive => "好戦的で、弱い国を狙って攻撃してくる"
    case Cautious => "防衛重視で、攻撃しなければ友好的"
    case Commercial => "交易を好み、戦争を避ける傾向"
    case Isolationist => "関わりを避けるが、攻撃されると報復する"
    case Opportunist => "強者に追従し、弱者を攻撃する"
    case Honorable => "約束を守り、正々堂々と戦う"
    case Fanatic => "異なる価値観を敵視する"
    case Scientific => "技術力で態度が変わる"
  }

  /** No two temperaments share a description. */
  lemma PersonalityDescriptionInjective(p: NationPersonality, q: NationPersonality)
    requires p != q
    ensures PersonalityDescription(p) != PersonalityDescription(q)
  {
  }

  /** The module-level `nationIdCounter` and the functions that advance it. */
  class NationFactory {
    var nationIdCounter: nat

    constructor()
      ensures nationIdCounter == 0
    {
      nationIdCounter := 0;
    }

    /** `createAINation(template)`: the counter moves on by one and names the new nation. */
    method CreateAINation(template: NationTemplate) returns (nation: AINation)
      modifies this
      ensures nationIdCounter == old(nationIdCounter) + 1
      ensures nation == NationFrom(template, NationId(nationIdCounter))
    {
      nationIdCounter := nationIdCounter + 1;
      nation := NationFrom(template, NationId(nationIdCounter));
    }

    /** `createInitialNations(count)`: the first `count` templates of the shuffle `order`, each
        made into a nation with the next id. */
    method CreateInitialNations(order: seq<nat>, count: int) returns (nations: seq<AINation>)
      requires IsShuffle(order)
      modifies this
      ensures |nations| == SliceLength(|NATION_TEMPLATES|, count)
      ensures nationIdCounter == old(nationIdCounter) + |nations|
      ensures forall i :: 0 <= i < |nations| ==>
                nations[i] == NationFrom(NATION_TEMPLATES[order[i]], NationId(old(nationIdCounter) + i + 1))
      ensures forall i, j :: 0 <= i < j < |nations| ==> nations[i].id != nations[j].id
      ensures forall i, j :: 0 <= i < j < |nations| ==> nations[i].name != nations[j].name
    {
      var selected := order[..SliceLength(|order|, count)];
      ghost var start := nationIdCounter;
      nations := [];
      var k := 0;
      while k < |selected|
        invariant 0 <= k <= |selected|
        invariant |nations| == k
        invariant nationIdCounter == start + k
        invariant forall i :: 0 <= i < k ==>
                    nations[i] == NationFrom(NATION_TEMPLATES[order[i]], NationId(start + i + 1))
      {
        var nation := CreateAINation(NATION_TEMPLATES[selected[k]]);
        nations := nations + [nation];
        k := k + 1;
      }
      NumberedNationsDistinct(nations, order, start);
    }
  }
}
