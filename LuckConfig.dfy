// Luck tables and luck rolling (src/logic/LuckConfig.ts): the suit catalog, the suit pool of
// each tier, the value-to-probabilities evolution table, and the rolls of a tier and a suit
// from an explicit stream of draws.

module LuckConfig {
  import opened Cards
  import opened Draws

  datatype CatalogEntry = CatalogEntry(emoji: string, name: string, tier: Tier)

  /** LUCK_SUIT_CATALOG */
  function Catalog(s: SuitId): CatalogEntry
  {
    match s
    case Growth => CatalogEntry("🌿", "성장", 1)
    case Stagnation => CatalogEntry("💤", "정체", 1)
    case Sprout => CatalogEntry("🌱", "시작", 1)
    case Change => CatalogEntry("🔮", "변화", 1)
    case Decline => CatalogEntry("🌧️", "저하", 1)
    case Love => CatalogEntry("❤️", "사랑", 2)
    case Wealth => CatalogEntry("💰", "재물", 2)
    case Completion => CatalogEntry("🌕", "완성", 2)
    case Happiness => CatalogEntry("☀️", "행복", 2)
    case Will => CatalogEntry("🔥", "의지", 2)
    case DestinyLove => CatalogEntry("💖", "사랑 (대운)", 3)
    case DestinyWealth => CatalogEntry("💎", "재물 (대운)", 3)
    case DestinyHappiness => CatalogEntry("🌞", "행복 (대운)", 3)
    case DestinyInsight => CatalogEntry("🪞", "깨달음", 3)
    case DestinyDecision => CatalogEntry("🔱", "결단", 3)
  }

  /** LUCK_TIER_POOLS */
  function TierPool(t: Tier): seq<SuitId>
  {
    if t == 1 then [Growth, Stagnation, Sprout, Change, Decline]
    else if t == 2 then [Love, Wealth, Completion, Happiness, Will]
    else [DestinyLove, DestinyWealth, DestinyHappiness, DestinyInsight, DestinyDecision]
  }

  /**
   * Each pool lists five distinct suits, all of that tier in the catalog, and every suit
   * sits in the pool of its own catalog tier: the pools partition the catalog.
   */
  lemma PoolsPartitionCatalog(t: Tier, s: SuitId)
    ensures |TierPool(t)| == 5
    ensures forall i, j :: 0 <= i < j < 5 ==> TierPool(t)[i] != TierPool(t)[j]
    ensures forall i :: 0 <= i < 5 ==> Catalog(TierPool(t)[i]).tier == t
    ensures s in TierPool(t) <==> Catalog(s).tier == t
  {
  }

  // ---------------------------------------------------------------------------
  // The evolution table

  datatype Probabilities = Probabilities(tier1: real, tier2: real, tier3: real)

  /** The keys of LUCK_EVOLUTION_TABLE in ascending numeric order. */
  const EvolutionKeys: seq<int> := [2, 4, 8, 16, 32, 64, 128, 256, 512, 1024, 2048]

  /** LUCK_EVOLUTION_TABLE */
  const EvolutionTable: map<int, Probabilities> := map[
    2 := Probabilities(1.0, 0.0, 0.0),
    4 := Probabilities(1.0, 0.0, 0.0),
    8 := Probabilities(1.0, 0.0, 0.0),
    16 := Probabilities(0.9, 0.1, 0.0),
    32 := Probabilities(0.9, 0.1, 0.0),
    64 := Probabilities(0.9, 0.1, 0.0),
    128 := Probabilities(0.85, 0.1, 0.05),
    256 := Probabilities(0.8, 0.15, 0.05),
    512 := Probabilities(0.7, 0.2, 0.1),
    1024 := Probabilities(0.3, 0.4, 0.3),
    2048 := Probabilities(0.0, 0.5, 0.5)
  ]

  /** The sorted key list is exactly the table's key set, and every row is a distribution. */
  lemma EvolutionTableShape()
    ensures forall i, j :: 0 <= i < j < |EvolutionKeys| ==> EvolutionKeys[i] < EvolutionKeys[j]
    ensures EvolutionTable.Keys == set k | k in EvolutionKeys
    ensures forall k :: k in EvolutionTable ==>
      var p := EvolutionTable[k];
      p.tier1 >= 0.0 && p.tier2 >= 0.0 && p.tier3 >= 0.0 && p.tier1 + p.tier2 + p.tier3 == 1.0
  {
  }

  /** The loop of findEvolutionKey over the keys still to visit, from the current choice. */
  function SelectKey(keys: seq<int>, value: int, selected: int): int
  {
    if keys == [] then selected
    else SelectKey(keys[1..], value, if value >= keys[0] then keys[0] else selected)
  }

  /** The key findEvolutionKey returns for a value. */
  function EvolutionKey(value: int): int
  {
    SelectKey(EvolutionKeys, value, EvolutionKeys[0])
  }

  /** Over ascending keys, the loop ends on the last key not above the value, if there is one. */
  lemma {:induction false} SelectKeyIsFloor(keys: seq<int>, value: int, selected: int)
    requires forall i, j :: 0 <= i < j < |keys| ==> keys[i] < keys[j]
    requires forall i :: 0 <= i < |keys| ==> selected < keys[i]
    ensures var r := SelectKey(keys, value, selected);
      && (r == selected || (r in keys && r <= value))
      && (forall i :: 0 <= i < |keys| && keys[i] <= value ==> keys[i] <= r)
      && ((forall i :: 0 <= i < |keys| ==> value < keys[i]) ==> r == selected)
  {
    if keys != [] {
      var next := if value >= keys[0] then keys[0] else selected;
      SelectKeyIsFloor(keys[1..], value, next);
    }
  }

  /**
   * findEvolutionKey returns the largest table key that is at most the value, or the
   * smallest key, 2, when the value is below every key.
   */
  lemma EvolutionKeyIsFloor(value: int)
    ensures EvolutionKey(value) in EvolutionTable
    ensures value < 2 ==> EvolutionKey(value) == 2
    ensures value >= 2 ==> EvolutionKey(value) <= value
    ensures forall k :: k in EvolutionTable && k <= value ==> k <= EvolutionKey(value)
  {
    EvolutionTableShape();
    var keys := EvolutionKeys;
    if value < 2 {
      assert SelectKey(keys, value, 2) == SelectKey(keys[1..], value, 2);
      SelectKeyIsFloor(keys[1..], value, 2);
    } else {
      assert SelectKey(keys, value, 2) == SelectKey(keys[1..], value, 2);
      SelectKeyIsFloor(keys[1..], value, 2);
    }
    forall k | k in EvolutionTable && k <= value ensures k <= EvolutionKey(value) {
      var i :| 0 <= i < |keys| && keys[i] == k;
      if i > 0 {
        assert keys[1..][i - 1] == k;
      }
    }
  }

  /** findEvolutionKey */
  method FindEvolutionKey(value: int) returns (selected: int)
    ensures selected == EvolutionKey(value)
  {
    var keys := EvolutionKeys;
    selected := keys[0];
    var i := 0;
    while i < |keys|
      invariant 0 <= i <= |keys|
      invariant SelectKey(keys[i..], value, selected) == EvolutionKey(value)
    {
      assert keys[i..][1..] == keys[i + 1..];
      if value >= keys[i] {
        selected := keys[i];
      }
      i := i + 1;
    }
  }

  /** getEvolutionProbabilities (the fallback row is never used: see EvolutionKeyIsFloor). */
  function GetEvolutionProbabilities(value: int): Probabilities
  {
    var key := EvolutionKey(value);
    if key in EvolutionTable then EvolutionTable[key] else Probabilities(1.0, 0.0, 0.0)
  }

  lemma {:induction false} ProbabilitiesAreDistribution(value: int)
    ensures var p := GetEvolutionProbabilities(value);
      p.tier1 >= 0.0 && p.tier2 >= 0.0 && p.tier3 >= 0.0 && p.tier1 + p.tier2 + p.tier3 == 1.0
    ensures value < 16 ==> GetEvolutionProbabilities(value) == Probabilities(1.0, 0.0, 0.0)
    ensures 16 <= value < 128 ==> GetEvolutionProbabilities(value) == Probabilities(0.9, 0.1, 0.0)
    ensures value >= 2048 ==> GetEvolutionProbabilities(value).tier1 == 0.0
  {
    EvolutionKeyIsFloor(value);
    EvolutionTableShape();
    var key := EvolutionKey(value);
    assert GetEvolutionProbabilities(value) == EvolutionTable[key];
    if value < 16 {
      assert key == 2 || key == 4 || key == 8 by {
        assert key in EvolutionKeys;
      }
    } else if value < 128 {
      assert 16 in EvolutionTable;
      assert key == 16 || key == 32 || key == 64 by {
        assert key in EvolutionKeys;
      }
    } else if value >= 2048 {
      assert 2048 in EvolutionTable;
    }
  }

  // ---------------------------------------------------------------------------
  // Rolling

  /** A value obtained from the stream, and the position of the next unused draw. */
  datatype Drawn<T> = Drawn(value: T, next: nat)

  /** rollLuckTier: one draw, compared with the cumulative thresholds of the value's row. */
  function RollLuckTier(value: int, rng: Stream, pos: nat): (r: Drawn<Tier>)
    ensures r.next == pos + 1
  {
    var p := GetEvolutionProbabilities(value);
    var roll := rng(pos);
    Drawn(if roll < p.tier1 then 1 else if roll < p.tier1 + p.tier2 then 2 else 3, pos + 1)
  }

  /**
   * What the evolution table means for the rolled tier: values below 16 always roll tier 1,
   * values below 128 never roll tier 3, and values of 2048 and above never roll tier 1.
   */
  lemma {:induction false} TierByValue(value: int, rng: Stream, pos: nat)
    requires 0.0 <= rng(pos) < 1.0
    ensures value < 16 ==> RollLuckTier(value, rng, pos).value == 1
    ensures value < 128 ==> RollLuckTier(value, rng, pos).value != 3
    ensures value >= 2048 ==> RollLuckTier(value, rng, pos).value != 1
  {
    ProbabilitiesAreDistribution(value);
    if 128 <= value < 2048 {
    } else if value >= 2048 {
      EvolutionKeyIsFloor(value);
    }
  }

  /** Whether pickSuitForTier may keep the previous suit: it exists and has the tier. */
  predicate Retainable(t: Tier, previous: Option<SuitId>)
  {
    previous.Some? && Catalog(previous.value).tier == t
  }

  /**
   * pickSuitForTier: a retainable previous suit survives when one draw is below 0.5;
   * otherwise one more draw picks a pool index.
   */
  function PickSuitForTier(t: Tier, previous: Option<SuitId>, rng: Stream, pos: nat): (r: Drawn<SuitId>)
    requires Unit(rng)
    ensures Catalog(r.value).tier == t
    ensures r.value in TierPool(t)
    ensures !Retainable(t, previous) ==> r.next == pos + 1
    ensures Retainable(t, previous) ==> r.next == pos + 1 || r.next == pos + 2
    ensures Retainable(t, previous) && rng(pos) < 0.5 ==> r == Drawn(previous.value, pos + 1)
    ensures Retainable(t, previous) && rng(pos) >= 0.5 ==> r.next == pos + 2
    ensures r.value != TierPool(t)[ScaledIndex(rng(r.next - 1), 5)] ==>
      Retainable(t, previous) && rng(pos) < 0.5
  {
    var pool := TierPool(t);
    PoolsPartitionCatalog(t, if previous.Some? then previous.value else Growth);
    if |pool| == 0 then
      Drawn(match previous case Some(p) => p case None => Growth, pos)
    else if Retainable(t, previous) && rng(pos) < 0.5 then
      Drawn(previous.value, pos + 1)
    else
      var at := if Retainable(t, previous) then pos + 1 else pos;
      Drawn(pool[ScaledIndex(rng(at), |pool|)], at + 1)
  }

  datatype LuckAttributes = LuckAttributes(tier: Tier, suitId: SuitId, suitEmoji: string, suitLabel: string)

  /**
   * rollLuckAttributes: a tier roll, then a suit pick that is offered the previous suit
   * only when the previous tier equals the rolled tier.
   */
  function RollLuckAttributes(value: int, previousSuit: Option<SuitId>, previousTier: Option<Tier>,
                              rng: Stream, pos: nat): Drawn<LuckAttributes>
    requires Unit(rng)
  {
    var tier := RollLuckTier(value, rng, pos);
    var offered := if previousTier == Some(tier.value) then previousSuit else None;
    var suit := PickSuitForTier(tier.value, offered, rng, tier.next);
    var entry := Catalog(suit.value);
    Drawn(LuckAttributes(tier.value, suit.value, entry.emoji, entry.name), suit.next)
  }

  /**
   * The rolled suit always belongs to the rolled tier and the display fields are its
   * catalog entry; a roll uses two draws, or three when the previous suit was offered
   * and the retention draw was not below 0.5; the previous suit can only come back
   * when the previous tier equals the rolled tier.
   */
  lemma {:induction false} RolledLuckIsConsistent(value: int, previousSuit: Option<SuitId>,
                                                  previousTier: Option<Tier>, rng: Stream, pos: nat)
    requires Unit(rng)
    ensures var r := RollLuckAttributes(value, previousSuit, previousTier, rng, pos);
      && r.value.tier == RollLuckTier(value, rng, pos).value
      && Catalog(r.value.suitId).tier == r.value.tier
      && r.value.suitEmoji == Catalog(r.value.suitId).emoji
      && r.value.suitLabel == Catalog(r.value.suitId).name
      && (r.next == pos + 2 || r.next == pos + 3)
      && (r.next == pos + 3 <==>
            previousTier == Some(r.value.tier) && Retainable(r.value.tier, previousSuit) && rng(pos + 1) >= 0.5)
      && (previousTier == Some(r.value.tier) && Retainable(r.value.tier, previousSuit) && rng(pos + 1) < 0.5
          ==> r.value.suitId == previousSuit.value)
  {
  }

  // ---------------------------------------------------------------------------
  // Narratives

  datatype Narrative = Narrative(tier1: string, tier2: string, tier3: string)

  /** LUCK_SUIT_NARRATIVE */
  function SuitNarrative(s: SuitId): Narrative
  {
    match s
    case Growth => Narrative(
      "꾸준한 성장이 이어집니다. 작은 실천이 큰 변화를 부릅니다.",
      "성장이 가시화됩니다. 노력의 결실을 확인할 수 있습니다.",
      "성장의 대운이 폭발합니다. 새로운 차원의 도약이 찾아옵니다.")
    case Stagnation => Narrative(
      "잠시 흐름이 느려집니다. 호흡을 고르고 균형을 맞추세요.",
      "정체 속에서 새로운 상징이 탄생합니다. 숨은 신호를 읽어보세요.",
      "대운을 앞둔 정지 신호입니다. 방향을 재정비하면 급상승합니다.")
    case Sprout => Narrative(
      "새로운 시작의 맹아가 자랍니다. 용기를 내어 첫걸음을 떼세요.",
      "시작이 상징적인 사건으로 확장됩니다. 연결을 넓혀보세요.",
      "대운의 시작이 펼쳐집니다. 과감한 도전이 큰 변화를 만듭니다.")
    case Change => Narrative(
      "작은 변화가 다가옵니다. 유연하면 순탄하게 넘어갑니다.",
      "변화가 핵심을 뒤흔듭니다. 패턴을 바꿀 준비를 하세요.",
      "운명이 크게 전환됩니다. 변화를 선택하면 대운이 열립니다.")
    case Decline => Narrative(
      "기운이 잠시 낮아집니다. 휴식과 회복에 집중하세요.",
      "저하 속에서도 배움이 있습니다. 상황을 정리하면 다음이 밝습니다.",
      "정화의 폭풍이 지나갑니다. 대운 전에 필요 없는 것을 비우세요.")
    case Love => Narrative(
      "사랑의 씨앗이 움틉니다. 공감이 관계를 따뜻하게 합니다.",
      "사랑의 상징이 빛납니다. 진심이 연결을 깊게 합니다.",
      "사랑의 대운이 열립니다. 관계가 새로운 차원으로 도약합니다.")
    case Wealth => Narrative(
      "재정의 흐름이 안정됩니다. 작은 계획으로 시작하세요.",
      "재물의 결실이 보입니다. 가치 있는 제안에 집중하세요.",
      "재물의 대운이 열립니다. 예상치 못한 기회가 찾아옵니다.")
    case Completion => Narrative(
      "마무리의 기운이 감돌고 있습니다. 미완의 일을 정리하세요.",
      "완성이 상징적으로 드러납니다. 성취를 나누면 더 커집니다.",
      "완성의 대운이 펼쳐집니다. 결과가 새로운 시작을 만듭니다.")
    case Happiness => Narrative(
      "행복의 온기가 스며듭니다. 일상의 기쁨을 찾아보세요.",
      "행복의 상징이 반짝입니다. 주변과 기쁨을 나누세요.",
      "행복의 대운이 고조됩니다. 축복이 연달아 도착합니다.")
    case Will => Narrative(
      "의지가 단단해집니다. 중심을 잡을수록 흐름이 안정됩니다.",
      "의지의 상징이 타오릅니다. 결단이 길을 엽니다.",
      "의지의 대운이 점화됩니다. 강한 추진력이 모든 것을 움직입니다.")
    case DestinyLove => Narrative(
      "사랑의 대운이 미리 예고됩니다. 마음의 울림에 집중하세요.",
      "사랑의 대운이 곧 도착합니다. 관계가 새 국면에 진입합니다.",
      "사랑의 대운이 폭발합니다. 운명적 만남이 이루어집니다.")
    case DestinyWealth => Narrative(
      "재물의 대운이 깨어납니다. 준비된 만큼 얻을 수 있습니다.",
      "재물의 문이 활짝 열립니다. 핵심 기회를 포착하세요.",
      "재물의 대운이 폭주합니다. 풍요가 지속적으로 찾아옵니다.")
    case DestinyHappiness => Narrative(
      "행복의 대운이 예열됩니다. 감사의 감각을 키우세요.",
      "행복의 파동이 증폭됩니다. 즐거움이 연쇄적으로 이어집니다.",
      "행복의 대운이 정점입니다. 축복이 삶 전반으로 확장됩니다.")
    case DestinyInsight => Narrative(
      "깨달음의 조짐이 나타납니다. 고요 속에서 답이 보입니다.",
      "깨달음이 상징적인 메시지로 다가옵니다. 직관을 따르세요.",
      "깨달음의 대운이 펼쳐집니다. 통찰이 모든 퍼즐을 맞춥니다.")
    case DestinyDecision => Narrative(
      "결단의 기운이 싹틉니다. 작지만 확실한 선택이 필요합니다.",
      "결단의 상징이 드러납니다. 방향을 명확히 선언하세요.",
      "결단의 대운이 도착합니다. 당신의 선택이 운명을 엽니다.")
  }

  /** Every narrative text of every suit is non-empty. */
  lemma NarrativesFilled(s: SuitId)
    ensures SuitNarrative(s).tier1 != [] && SuitNarrative(s).tier2 != [] && SuitNarrative(s).tier3 != []
  {
    match s
    case Growth | Stagnation | Sprout | Change | Decline => EverydaySuitsFilled(s);
    case Love | Wealth | Completion | Happiness | Will => SymbolicSuitsFilled(s);
    case _ => DestinySuitsFilled(s);
  }

  /** The narratives of the five everyday suits are non-empty. */
  lemma EverydaySuitsFilled(s: SuitId)
    requires s.Growth? || s.Stagnation? || s.Sprout? || s.Change? || s.Decline?
    ensures SuitNarrative(s).tier1 != [] && SuitNarrative(s).tier2 != [] && SuitNarrative(s).tier3 != []
  {
  }

  /** The narratives of the five symbolic suits are non-empty. */
  lemma SymbolicSuitsFilled(s: SuitId)
    requires s.Love? || s.Wealth? || s.Completion? || s.Happiness? || s.Will?
    ensures SuitNarrative(s).tier1 != [] && SuitNarrative(s).tier2 != [] && SuitNarrative(s).tier3 != []
  {
  }

  /** The narratives of the five great-fortune suits are non-empty. */
  lemma DestinySuitsFilled(s: SuitId)
    requires s.DestinyLove? || s.DestinyWealth? || s.DestinyHappiness? || s.DestinyInsight? || s.DestinyDecision?
    ensures SuitNarrative(s).tier1 != [] && SuitNarrative(s).tier2 != [] && SuitNarrative(s).tier3 != []
  {
  }

  /**
   * getSuitNarrative: the narrative of the suit for the tier (tier 3 for anything that is
   * not 1 or 2). Every suit has a narrative, so the empty-string fallback never happens.
   */
  function GetSuitNarrative(s: SuitId, t: Tier): (r: string)
    ensures r != ""
    ensures t == 1 ==> r == SuitNarrative(s).tier1
    ensures t == 2 ==> r == SuitNarrative(s).tier2
    ensures t == 3 ==> r == SuitNarrative(s).tier3
  {
    NarrativesFilled(s);
    var n := SuitNarrative(s);
    if t == 1 then n.tier1 else if t == 2 then n.tier2 else n.tier3
  }
}
