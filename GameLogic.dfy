// Placement and merge rules, the finite deck and its shuffle (src/logic/GameLogic.ts).
// Merged and dealt cards get their ids from a counter and their luck from a Minter.

module GameLogic {
  import opened Cards
  import opened Draws
  import opened Numerals

  // ---------------------------------------------------------------------------
  // Placement

  /** canPlaceCard: an empty column takes any card, otherwise the top card must be at least as large. */
  predicate CanPlaceCard(card: Card, target: Column)
  {
    target.cards == [] || card.value <= target.cards[|target.cards| - 1].value
  }

  /**
   * The placement rule keeps a column in non-increasing order from bottom to top: a column
   * built only through legal placements is sorted descending.
   */
  lemma PlacementKeepsColumnDescending(card: Card, target: Column)
    requires SortedDesc(target.cards)
    ensures CanPlaceCard(card, target) <==> SortedDesc(target.cards + [card])
  {
    var s := target.cards + [card];
    if CanPlaceCard(card, target) {
      forall i, j | 0 <= i < j < |s| ensures s[i].value >= s[j].value {
        if j == |s| - 1 && i < |s| - 2 {
          assert s[i].value >= s[|s| - 2].value;
        }
      }
    } else {
      assert s[|s| - 2].value < s[|s| - 1].value;
    }
  }

  /** getPlacementErrorMessage: no message exactly when the card may be placed. */
  function PlacementErrorMessage(card: Card, target: Column): (r: Option<string>)
    ensures r.None? <==> CanPlaceCard(card, target)
    ensures r.Some? ==>
      && target.cards != []
      && r.value == DecimalString(card.value) + "은(는) "
                    + DecimalString(target.cards[|target.cards| - 1].value) + "보다 큰 값이므로 놓을 수 없습니다."
  {
    if CanPlaceCard(card, target) then None
    else
      var top := target.cards[|target.cards| - 1];
      Some(DecimalString(card.value) + "은(는) " + DecimalString(top.value) + "보다 큰 값이므로 놓을 수 없습니다.")
  }

  // ---------------------------------------------------------------------------
  // Card generation range

  /** The largest card value, and at least 2: the accumulator of calculateCardGenerationRange. */
  function MaxCardValue(cards: seq<Card>): int
  {
    if cards == [] then 2
    else
      var m := MaxCardValue(cards[..|cards| - 1]);
      var last := cards[|cards| - 1];
      if last.value > m then last.value else m
  }

  /** The accumulator ends at least 2, at least every card value, and at 2 or some card's value. */
  lemma {:induction false} MaxCardValueIsMax(cards: seq<Card>)
    ensures MaxCardValue(cards) >= 2
    ensures forall c :: c in cards ==> c.value <= MaxCardValue(cards)
    ensures MaxCardValue(cards) == 2 || exists c :: c in cards && c.value == MaxCardValue(cards)
  {
    if cards != [] {
      var init := cards[..|cards| - 1];
      MaxCardValueIsMax(init);
      assert cards == init + [cards[|cards| - 1]];
    }
  }

  /** The maximum power of two for new cards, given the largest value and the score. */
  function GenerationPower(maxValue: int, score: int): (p: int)
    ensures 3 <= p <= 6
    ensures maxValue < 16 && score <= 5000 ==> p == 3
    ensures maxValue >= 64 ==> p >= 5
    ensures score > 5000 ==> p >= 4
  {
    var base := if maxValue >= 64 then 5 else if maxValue >= 16 then 4 else 3;
    if score > 5000 then (if base + 1 < 6 then base + 1 else 6) else base
  }

  lemma MaxCardValueSnoc(s: seq<Card>, c: Card)
    ensures MaxCardValue(s + [c]) == if c.value > MaxCardValue(s) then c.value else MaxCardValue(s)
  {
    assert (s + [c])[..|s + [c]| - 1] == s;
  }

  /** The inner loop of calculateCardGenerationRange over one column's cards. */
  method ScanColumnMax(cards: seq<Card>, acc: int, ghost seen: seq<Card>) returns (m: int)
    requires acc == MaxCardValue(seen)
    ensures m == MaxCardValue(seen + cards)
  {
    m := acc;
    assert seen + cards[..0] == seen;
    for j := 0 to |cards|
      invariant m == MaxCardValue(seen + cards[..j])
    {
      MaxCardValueSnoc(seen + cards[..j], cards[j]);
      assert seen + cards[..j + 1] == seen + cards[..j] + [cards[j]];
      if cards[j].value > m {
        m := cards[j].value;
      }
    }
    assert cards[..|cards|] == cards;
  }

  /** calculateCardGenerationRange */
  method CalculateCardGenerationRange(columns: seq<Column>, score: int) returns (maxPower: int)
    ensures maxPower == GenerationPower(MaxCardValue(Flatten(columns)), score)
    ensures 3 <= maxPower <= 6
  {
    var maxCardValue := 2;
    for i := 0 to |columns|
      invariant maxCardValue == MaxCardValue(Flatten(columns[..i]))
    {
      maxCardValue := ScanColumnMax(columns[i].cards, maxCardValue, Flatten(columns[..i]));
      FlattenAppend(columns[..i], [columns[i]]);
      assert columns[..i + 1] == columns[..i] + [columns[i]];
      assert Flatten([columns[i]]) == columns[i].cards;
    }
    assert columns[..|columns|] == columns;
    maxPower := 3;
    if maxCardValue >= 64 {
      maxPower := 5;
    } else if maxCardValue >= 32 {
      maxPower := 4;
    } else if maxCardValue >= 16 {
      maxPower := 4;
    }
    if score > 5000 {
      maxPower := if maxPower + 1 < 6 then maxPower + 1 else 6;
    }
  }

  // ---------------------------------------------------------------------------
  // Merging

  /** No two adjacent cards below index n (the pair (n, n+1) excluded) have equal values. */
  predicate NoPairBelow(s: seq<Card>, n: int)
  {
    forall i :: 0 <= i < n && i + 1 < |s| ==> s[i].value != s[i + 1].value
  }

  /** No two adjacent cards have equal values. */
  predicate Settled(s: seq<Card>)
  {
    NoPairBelow(s, |s|)
  }

  /** The lowest index of an adjacent equal pair, scanning up from the bottom card. */
  function FirstPair(s: seq<Card>): (k: Option<nat>)
    ensures k.None? <==> Settled(s)
    ensures k.Some? ==> k.value + 1 < |s| && s[k.value].value == s[k.value + 1].value
                        && NoPairBelow(s, k.value)
  {
    if |s| < 2 then None
    else if s[0].value == s[1].value then Some(0)
    else match FirstPair(s[1..])
      case None => None
      case Some(k) => Some(k + 1)
  }

  /** The outcome of a merge: the new cards, the score gained, the next fresh id, whether anything merged. */
  datatype Merge = Merge(cards: seq<Card>, gain: int, nextId: nat, changed: bool)

  /** processChainMerge on a column's cards: the lowest equal pair becomes one card of twice the value. */
  function ChainMerged(s: seq<Card>, nextId: nat, mint: Minter): Merge
  {
    match FirstPair(s)
    case None => Merge(s, 0, nextId, false)
    case Some(k) =>
      var v := 2 * s[k].value;
      Merge(s[..k] + [Mint(nextId, v, mint)] + s[k + 2..], v, nextId + 1, true)
  }

  /**
   * A single-step merge changes nothing and gains nothing when there is no equal adjacent
   * pair (in particular with fewer than two cards). Otherwise it replaces the lowest pair,
   * at k, with one fresh card of twice the value at k, gains that value, and keeps every
   * other card in place and in order.
   */
  lemma ChainMergeShape(s: seq<Card>, nextId: nat, mint: Minter)
    ensures var m := ChainMerged(s, nextId, mint);
      && (m.changed <==> !Settled(s))
      && (!m.changed ==> m.cards == s && m.gain == 0 && m.nextId == nextId)
      && (m.changed ==>
            var k := FirstPair(s).value;
            && |m.cards| == |s| - 1
            && m.cards[k] == Mint(nextId, 2 * s[k].value, mint)
            && m.gain == 2 * s[k].value
            && m.cards[..k] == s[..k] && m.cards[k + 1..] == s[k + 2..]
            && m.nextId == nextId + 1)
  {
    var m := ChainMerged(s, nextId, mint);
    if FirstPair(s).Some? {
      var k := FirstPair(s).value;
      var c := Mint(nextId, 2 * s[k].value, mint);
      assert m.cards == s[..k] + [c] + s[k + 2..];
      assert m.cards[..k] == s[..k];
      assert m.cards[k + 1..] == s[k + 2..];
    }
  }

  /** A single-step merge keeps the sum of the card values: the new card is worth the pair. */
  lemma ChainMergeKeepsSum(s: seq<Card>, nextId: nat, mint: Minter)
    ensures Sum(ChainMerged(s, nextId, mint).cards) == Sum(s)
  {
    if FirstPair(s).Some? {
      var k := FirstPair(s).value;
      var c := Mint(nextId, 2 * s[k].value, mint);
      assert ChainMerged(s, nextId, mint).cards == s[..k] + [c] + s[k + 2..];
      assert Sum([s[k + 1]]) == s[k + 1].value by {
        assert [s[k + 1]][1..] == [];
      }
      assert Sum([s[k], s[k + 1]]) == s[k].value + Sum([s[k + 1]]) by {
        assert [s[k], s[k + 1]][1..] == [s[k + 1]];
      }
      assert Sum([c]) == c.value by {
        assert [c][1..] == [];
      }
      assert s == s[..k] + [s[k], s[k + 1]] + s[k + 2..];
      SumAppend(s[..k] + [s[k], s[k + 1]], s[k + 2..]);
      SumAppend(s[..k], [s[k], s[k + 1]]);
      SumAppend(s[..k] + [c], s[k + 2..]);
      SumAppend(s[..k], [c]);
    }
  }

  /**
   * What the scan of processChainMerge makes of the cards still to visit: until a merge has
   * been found, an equal pair at the front becomes one fresh card of twice the value; every
   * other card is copied.
   */
  function ChainScan(s: seq<Card>, found: bool, nextId: nat, mint: Minter): Merge
    decreases |s|
  {
    if s == [] then Merge([], 0, nextId, false)
    else if !found && |s| >= 2 && s[0].value == s[1].value then
      Prepend([Mint(nextId, 2 * s[0].value, mint)], 2 * s[0].value, true, ChainScan(s[2..], true, nextId + 1, mint))
    else Prepend([s[0]], 0, false, ChainScan(s[1..], found, nextId, mint))
  }

  /** After the merge, the rest of the scan copies the cards. */
  lemma {:induction false} ChainScanCopies(s: seq<Card>, nextId: nat, mint: Minter)
    ensures ChainScan(s, true, nextId, mint) == Merge(s, 0, nextId, false)
    decreases |s|
  {
    if s != [] {
      ChainScanCopies(s[1..], nextId, mint);
      assert [s[0]] + s[1..] == s;
    }
  }

  /** The scan from the start is the single-step merge of the lowest pair. */
  lemma {:induction false} ChainScanMerges(s: seq<Card>, nextId: nat, mint: Minter)
    ensures ChainScan(s, false, nextId, mint) == ChainMerged(s, nextId, mint)
    decreases |s|
  {
    if |s| >= 2 && s[0].value == s[1].value {
      ChainScanCopies(s[2..], nextId + 1, mint);
    } else if |s| >= 2 {
      ChainScanMerges(s[1..], nextId, mint);
      ChainMergedBehind(s, nextId, mint);
    } else if s != [] {
      assert [s[0]] + [] == s;
    }
  }

  /** Below a bottom card that starts no pair, the single-step merge is that of the cards above it. */
  lemma ChainMergedBehind(s: seq<Card>, nextId: nat, mint: Minter)
    requires |s| >= 2 && s[0].value != s[1].value
    ensures ChainMerged(s, nextId, mint) == Prepend([s[0]], 0, false, ChainMerged(s[1..], nextId, mint))
  {
    var t := s[1..];
    match FirstPair(t)
    case None =>
      assert FirstPair(s).None?;
      assert [s[0]] + t == s;
    case Some(k) =>
      assert FirstPair(s) == Some(k + 1);
      var c := Mint(nextId, 2 * t[k].value, mint);
      assert s[..k + 1] == [s[0]] + t[..k];
      assert s[k + 3..] == t[k + 2..];
      assert [s[0]] + (t[..k] + [c] + t[k + 2..]) == ([s[0]] + t[..k]) + [c] + t[k + 2..];
  }

  /** A scan step at position i over the first equal pair. */
  lemma ChainScanPair(cards: seq<Card>, i: nat, newCards: seq<Card>, total: int, nextFresh: nat, mint: Minter)
    requires i < |cards| - 1 && cards[i].value == cards[i + 1].value
    ensures Prepend(newCards, total, false, ChainScan(cards[i..], false, nextFresh, mint))
      == Prepend(newCards + [Mint(nextFresh, cards[i].value * 2, mint)], total + cards[i].value * 2, true,
                 ChainScan(cards[i + 2..], true, nextFresh + 1, mint))
  {
    assert cards[i..][2..] == cards[i + 2..];
    var r := ChainScan(cards[i + 2..], true, nextFresh + 1, mint);
    assert newCards + ([Mint(nextFresh, cards[i].value * 2, mint)] + r.cards)
      == newCards + [Mint(nextFresh, cards[i].value * 2, mint)] + r.cards;
  }

  /** A scan step at position i that copies the card. */
  lemma ChainScanCopy(cards: seq<Card>, i: nat, found: bool, newCards: seq<Card>, total: int,
                      nextFresh: nat, mint: Minter)
    requires i < |cards| && !(!found && i < |cards| - 1 && cards[i].value == cards[i + 1].value)
    ensures Prepend(newCards, total, found, ChainScan(cards[i..], found, nextFresh, mint))
      == Prepend(newCards + [cards[i]], total, found, ChainScan(cards[i + 1..], found, nextFresh, mint))
  {
    assert cards[i..][1..] == cards[i + 1..];
    var r := ChainScan(cards[i + 1..], found, nextFresh, mint);
    assert newCards + ([cards[i]] + r.cards) == newCards + [cards[i]] + r.cards;
  }

  /** processChainMerge */
  method ProcessChainMerge(column: Column, nextId: nat, mint: Minter)
    returns (mergedColumn: Column, scoreGained: int, nextFresh: nat)
    ensures var m := ChainMerged(column.cards, nextId, mint);
      mergedColumn == Column(column.id, m.cards) && scoreGained == m.gain && nextFresh == m.nextId
  {
    if |column.cards| < 2 {
      return column, 0, nextId;
    }
    var cards := column.cards;
    var totalScore := 0;
    var newCards: seq<Card> := [];
    nextFresh := nextId;
    var i := 0;
    var foundMerge := false;
    ChainScanMerges(cards, nextId, mint);
    ghost var goal := ChainScan(cards, false, nextId, mint);
    assert cards[0..] == cards;
    while i < |cards|
      invariant 0 <= i <= |cards|
      invariant goal == Prepend(newCards, totalScore, foundMerge, ChainScan(cards[i..], foundMerge, nextFresh, mint))
    {
      if !foundMerge && i < |cards| - 1 && cards[i].value == cards[i + 1].value {
        ChainScanPair(cards, i, newCards, totalScore, nextFresh, mint);
        var newValue := cards[i].value * 2;
        newCards := newCards + [Mint(nextFresh, newValue, mint)];
        nextFresh := nextFresh + 1;
        totalScore := totalScore + newValue;
        foundMerge := true;
        i := i + 2;
      } else {
        ChainScanCopy(cards, i, foundMerge, newCards, totalScore, nextFresh, mint);
        newCards := newCards + [cards[i]];
        i := i + 1;
      }
    }
    assert cards[i..] == [];
    assert newCards + [] == newCards;
    mergedColumn := Column(column.id, newCards);
    scoreGained := totalScore;
  }

  /** The scan of processChainMerge stops at the first pair it meets. */
  lemma FirstPairAt(s: seq<Card>, i: nat)
    requires NoPairBelow(s, i) && i + 1 < |s| && s[i].value == s[i + 1].value
    ensures FirstPair(s) == Some(i)
  {
    if FirstPair(s).Some? {
      var k := FirstPair(s).value;
      assert !(k < i);
      assert !(i < k);
    }
  }

  /** One pass of processAllMerges: every disjoint equal pair, left to right, is merged. */
  function MergePass(s: seq<Card>, nextId: nat, mint: Minter): (m: Merge)
    ensures |m.cards| <= |s| && (m.changed ==> |m.cards| < |s|)
    ensures m.nextId >= nextId
  {
    if |s| >= 2 && s[0].value == s[1].value then
      var v := 2 * s[0].value;
      var rest := MergePass(s[2..], nextId + 1, mint);
      Merge([Mint(nextId, v, mint)] + rest.cards, v + rest.gain, rest.nextId, true)
    else if s == [] then Merge([], 0, nextId, false)
    else
      var rest := MergePass(s[1..], nextId, mint);
      Merge([s[0]] + rest.cards, rest.gain, rest.nextId, rest.changed)
  }

  /** processAllMerges on a column's cards: passes repeat while one changes something and two cards remain. */
  function AllMerges(s: seq<Card>, nextId: nat, mint: Minter): (m: Merge)
    ensures m.nextId >= nextId
    decreases |s|
  {
    var p := MergePass(s, nextId, mint);
    if p.changed && |p.cards| >= 2 then
      var q := AllMerges(p.cards, p.nextId, mint);
      Merge(q.cards, p.gain + q.gain, q.nextId, true)
    else p
  }

  /** A pass changes something exactly when the cards hold an equal adjacent pair, and keeps the value sum. */
  lemma MergePassFacts(s: seq<Card>, nextId: nat, mint: Minter)
    ensures var m := MergePass(s, nextId, mint);
      && (m.changed <==> !Settled(s))
      && (!m.changed ==> m.cards == s && m.gain == 0 && m.nextId == nextId)
      && Sum(m.cards) == Sum(s)
  {
    MergePassChanges(s, nextId, mint);
    MergePassKeepsSum(s, nextId, mint);
  }

  lemma {:induction false} MergePassChanges(s: seq<Card>, nextId: nat, mint: Minter)
    ensures var m := MergePass(s, nextId, mint);
      && (m.changed <==> !Settled(s))
      && (!m.changed ==> m.cards == s && m.gain == 0 && m.nextId == nextId)
  {
    if |s| >= 2 && s[0].value == s[1].value {
    } else if s != [] {
      MergePassChanges(s[1..], nextId, mint);
      assert s == [s[0]] + s[1..];
      SettledBehind(s);
    }
  }

  /** A bottom card that starts no pair leaves the question of pairs to the cards above it. */
  lemma SettledBehind(s: seq<Card>)
    requires s != [] && !(|s| >= 2 && s[0].value == s[1].value)
    ensures Settled(s) <==> Settled(s[1..])
  {
    if !Settled(s[1..]) {
      var i :| 0 <= i < |s| - 2 && s[1..][i].value == s[1..][i + 1].value;
      assert s[i + 1].value == s[i + 2].value;
    }
    if !Settled(s) {
      var i :| 0 <= i < |s| - 1 && s[i].value == s[i + 1].value;
      assert s[1..][i - 1].value == s[1..][i].value;
    }
  }

  lemma {:induction false} MergePassKeepsSum(s: seq<Card>, nextId: nat, mint: Minter)
    ensures Sum(MergePass(s, nextId, mint).cards) == Sum(s)
  {
    if |s| >= 2 && s[0].value == s[1].value {
      MergePassKeepsSum(s[2..], nextId + 1, mint);
      assert s == [s[0], s[1]] + s[2..];
      SumAppend([s[0], s[1]], s[2..]);
      SumAppend([Mint(nextId, 2 * s[0].value, mint)], MergePass(s[2..], nextId + 1, mint).cards);
    } else if s != [] {
      MergePassKeepsSum(s[1..], nextId, mint);
      assert s == [s[0]] + s[1..];
      SumAppend([s[0]], MergePass(s[1..], nextId, mint).cards);
    }
  }

  /**
   * Batch merging ends with no equal adjacent pair (fewer than two cards count as settled),
   * keeps the value sum, and changes nothing on a settled column.
   */
  lemma {:induction false} AllMergesFacts(s: seq<Card>, nextId: nat, mint: Minter)
    ensures var m := AllMerges(s, nextId, mint);
      && Settled(m.cards)
      && Sum(m.cards) == Sum(s)
      && (Settled(s) ==> m == Merge(s, 0, nextId, false))
    decreases |s|
  {
    var p := MergePass(s, nextId, mint);
    MergePassFacts(s, nextId, mint);
    if p.changed && |p.cards| >= 2 {
      AllMergesFacts(p.cards, p.nextId, mint);
    }
  }

  /** processAllMerges */
  method ProcessAllMerges(column: Column, nextId: nat, mint: Minter)
    returns (mergedColumn: Column, scoreGained: int, nextFresh: nat)
    ensures var m := AllMerges(column.cards, nextId, mint);
      mergedColumn == Column(column.id, m.cards) && scoreGained == m.gain && nextFresh == m.nextId
  {
    if |column.cards| < 2 {
      AllMergesFacts(column.cards, nextId, mint);
      return column, 0, nextId;
    }
    var cards := column.cards;
    var totalScoreGained := 0;
    nextFresh := nextId;
    ghost var goal := AllMerges(column.cards, nextId, mint);
    // The do-while of the source: its condition holds on entry, as the column has two cards.
    var hasChangedInLoop := true;
    while hasChangedInLoop && |cards| >= 2
      invariant var r := if hasChangedInLoop && |cards| >= 2 then AllMerges(cards, nextFresh, mint)
                         else Merge(cards, 0, nextFresh, false);
        goal.cards == r.cards && goal.gain == totalScoreGained + r.gain && goal.nextId == r.nextId
      decreases 2 * |cards| + (if hasChangedInLoop then 1 else 0)
    {
      var pass := RunMergePass(cards, nextFresh, mint);
      hasChangedInLoop := pass.changed;
      cards := pass.cards;
      totalScoreGained := totalScoreGained + pass.gain;
      nextFresh := pass.nextId;
    }
    mergedColumn := Column(column.id, cards);
    scoreGained := totalScoreGained;
  }

  /** The part of a pass already done, in front of what the rest of the pass yields. */
  function Prepend(newCards: seq<Card>, gain: int, changed: bool, rest: Merge): Merge
  {
    Merge(newCards + rest.cards, gain + rest.gain, rest.nextId, changed || rest.changed)
  }

  /** One step of the scan of a pass moves one card, or one merged pair, to the done part. */
  lemma MergePassStep(newCards: seq<Card>, gain: int, changed: bool, s: seq<Card>, nextId: nat, mint: Minter)
    requires s != []
    ensures |s| >= 2 && s[0].value == s[1].value ==>
      Prepend(newCards, gain, changed, MergePass(s, nextId, mint))
        == Prepend(newCards + [Mint(nextId, 2 * s[0].value, mint)], gain + 2 * s[0].value, true,
                   MergePass(s[2..], nextId + 1, mint))
    ensures !(|s| >= 2 && s[0].value == s[1].value) ==>
      Prepend(newCards, gain, changed, MergePass(s, nextId, mint))
        == Prepend(newCards + [s[0]], gain, changed, MergePass(s[1..], nextId, mint))
  {
    if |s| >= 2 && s[0].value == s[1].value {
      var r := MergePass(s[2..], nextId + 1, mint);
      assert newCards + ([Mint(nextId, 2 * s[0].value, mint)] + r.cards)
        == newCards + [Mint(nextId, 2 * s[0].value, mint)] + r.cards;
    } else {
      var r := MergePass(s[1..], nextId, mint);
      assert newCards + ([s[0]] + r.cards) == newCards + [s[0]] + r.cards;
    }
  }

  /** A pass at position i over an equal pair: the merged card joins the done part. */
  lemma MergePassPair(cards: seq<Card>, i: nat, newCards: seq<Card>, gain: int, changed: bool,
                      nextFresh: nat, mint: Minter)
    requires i < |cards| - 1 && cards[i].value == cards[i + 1].value
    ensures Prepend(newCards, gain, changed, MergePass(cards[i..], nextFresh, mint))
      == Prepend(newCards + [Mint(nextFresh, cards[i].value * 2, mint)], gain + cards[i].value * 2, true,
                 MergePass(cards[i + 2..], nextFresh + 1, mint))
  {
    MergePassStep(newCards, gain, changed, cards[i..], nextFresh, mint);
    assert cards[i..][2..] == cards[i + 2..];
  }

  /** A pass at position i without an equal pair there: the card joins the done part as it is. */
  lemma MergePassSingle(cards: seq<Card>, i: nat, newCards: seq<Card>, gain: int, changed: bool,
                        nextFresh: nat, mint: Minter)
    requires i < |cards| && !(i < |cards| - 1 && cards[i].value == cards[i + 1].value)
    ensures Prepend(newCards, gain, changed, MergePass(cards[i..], nextFresh, mint))
      == Prepend(newCards + [cards[i]], gain, changed, MergePass(cards[i + 1..], nextFresh, mint))
  {
    MergePassStep(newCards, gain, changed, cards[i..], nextFresh, mint);
    assert cards[i..][1..] == cards[i + 1..];
  }

  /** The inner loop of a processAllMerges pass. */
  method RunMergePass(cards: seq<Card>, nextId: nat, mint: Minter) returns (m: Merge)
    ensures m == MergePass(cards, nextId, mint)
  {
    var newCards: seq<Card> := [];
    var gain := 0;
    var nextFresh := nextId;
    var changed := false;
    var i := 0;
    assert cards[0..] == cards;
    while i < |cards|
      invariant 0 <= i <= |cards|
      invariant MergePass(cards, nextId, mint)
        == Prepend(newCards, gain, changed, MergePass(cards[i..], nextFresh, mint))
    {
      if i < |cards| - 1 && cards[i].value == cards[i + 1].value {
        MergePassPair(cards, i, newCards, gain, changed, nextFresh, mint);
        var newValue := cards[i].value * 2;
        newCards := newCards + [Mint(nextFresh, newValue, mint)];
        gain := gain + newValue;
        nextFresh := nextFresh + 1;
        changed := true;
        i := i + 2;
      } else {
        MergePassSingle(cards, i, newCards, gain, changed, nextFresh, mint);
        newCards := newCards + [cards[i]];
        i := i + 1;
      }
    }
    assert cards[i..] == [];
    assert newCards + [] == newCards;
    m := Merge(newCards, gain, nextFresh, changed);
  }

  // ---------------------------------------------------------------------------
  // Order of the cards a merge keeps

  /** The cards whose id is below the bound: those that existed before ids from the bound on were handed out. */
  function Kept(s: seq<Card>, bound: nat): seq<Card>
  {
    if s == [] then []
    else if s[0].id < bound then [s[0]] + Kept(s[1..], bound)
    else Kept(s[1..], bound)
  }

  /** a is a subsequence of b: b with some elements left out, in the same order. */
  predicate Subseq<T(==)>(a: seq<T>, b: seq<T>)
    decreases |b|
  {
    if a == [] then true
    else if b == [] then false
    else (a[0] == b[0] && Subseq(a[1..], b[1..])) || Subseq(a, b[1..])
  }

  lemma {:induction false} SubseqTrans<T>(a: seq<T>, b: seq<T>, c: seq<T>)
    requires Subseq(a, b) && Subseq(b, c)
    ensures Subseq(a, c)
    decreases |c|
  {
    if a != [] {
      if Subseq(b, c[1..]) {
        SubseqTrans(a, b, c[1..]);
      } else if Subseq(a, b[1..]) {
        SubseqTrans(a, b[1..], c[1..]);
      } else {
        SubseqTrans(a[1..], b[1..], c[1..]);
      }
    }
  }

  lemma {:induction false} KeptSubseq(a: seq<Card>, b: seq<Card>, bound: nat)
    requires Subseq(a, b)
    ensures Subseq(Kept(a, bound), Kept(b, bound))
    decreases |b|
  {
    if a != [] {
      if Subseq(a, b[1..]) {
        KeptSubseq(a, b[1..], bound);
        SubseqPrepend(Kept(a, bound), Kept(b[1..], bound), b[0]);
      } else {
        KeptSubseq(a[1..], b[1..], bound);
      }
    }
  }

  lemma SubseqPrepend<T>(a: seq<T>, b: seq<T>, x: T)
    requires Subseq(a, b)
    ensures Subseq(a, [x] + b)
  {
    assert ([x] + b)[1..] == b;
  }

  lemma {:induction false} KeptIdempotent(s: seq<Card>, bound: nat)
    ensures Kept(Kept(s, bound), bound) == Kept(s, bound)
  {
    if s != [] {
      KeptIdempotent(s[1..], bound);
      if s[0].id < bound {
        assert ([s[0]] + Kept(s[1..], bound))[1..] == Kept(s[1..], bound);
      }
    }
  }

  /**
   * The cards a pass keeps (those not minted by it: ids below any bound up to the first
   * fresh id) appear in the input in the same relative order.
   */
  lemma {:induction false} MergePassKeepsOrder(s: seq<Card>, nextId: nat, bound: nat, mint: Minter)
    requires bound <= nextId
    ensures Subseq(Kept(MergePass(s, nextId, mint).cards, bound), s)
  {
    if |s| >= 2 && s[0].value == s[1].value {
      var c := Mint(nextId, 2 * s[0].value, mint);
      var r := MergePass(s[2..], nextId + 1, mint);
      MergePassKeepsOrder(s[2..], nextId + 1, bound, mint);
      assert ([c] + r.cards)[1..] == r.cards;
      assert Kept([c] + r.cards, bound) == Kept(r.cards, bound);
      SubseqPrepend(Kept(r.cards, bound), s[2..], s[1]);
      assert [s[1]] + s[2..] == s[1..];
      SubseqPrepend(Kept(r.cards, bound), s[1..], s[0]);
      assert [s[0]] + s[1..] == s;
    } else if s != [] {
      var r := MergePass(s[1..], nextId, mint);
      MergePassKeepsOrder(s[1..], nextId, bound, mint);
      assert ([s[0]] + r.cards)[1..] == r.cards;
      if s[0].id < bound {
        assert Kept([s[0]] + r.cards, bound) == [s[0]] + Kept(r.cards, bound);
        assert ([s[0]] + Kept(r.cards, bound))[1..] == Kept(r.cards, bound);
      } else {
        SubseqPrepend(Kept(r.cards, bound), s[1..], s[0]);
        assert [s[0]] + s[1..] == s;
      }
    }
  }

  /** The same holds for the whole batch merge: the surviving original cards keep their order. */
  lemma {:induction false} AllMergesKeepsOrder(s: seq<Card>, nextId: nat, bound: nat, mint: Minter)
    requires bound <= nextId
    ensures Subseq(Kept(AllMerges(s, nextId, mint).cards, bound), s)
    decreases |s|
  {
    var p := MergePass(s, nextId, mint);
    MergePassKeepsOrder(s, nextId, bound, mint);
    if p.changed && |p.cards| >= 2 {
      var q := AllMerges(p.cards, p.nextId, mint);
      AllMergesKeepsOrder(p.cards, p.nextId, bound, mint);
      KeptSubseq(Kept(q.cards, bound), p.cards, bound);
      KeptIdempotent(q.cards, bound);
      SubseqTrans(Kept(q.cards, bound), Kept(p.cards, bound), s);
    }
  }

  /**
   * The cards a pass leaves where they are: scanning up from the bottom, an equal adjacent
   * pair is taken out together and the scan resumes above it; every other card stays.
   */
  function Unpaired(s: seq<Card>): (r: seq<Card>)
    ensures |r| <= |s| && forall c :: c in r ==> c in s
  {
    if |s| >= 2 && s[0].value == s[1].value then Unpaired(s[2..])
    else if s == [] then []
    else [s[0]] + Unpaired(s[1..])
  }

  /** A column loses cards to pairing exactly when it has an equal adjacent pair. */
  lemma {:induction false} UnpairedSettled(s: seq<Card>)
    ensures Unpaired(s) == s <==> Settled(s)
    ensures Subseq(Unpaired(s), s)
  {
    if |s| >= 2 && s[0].value == s[1].value {
      UnpairedSettled(s[2..]);
      assert !Settled(s) by { assert s[0].value == s[1].value; }
      SubseqPrepend(Unpaired(s[2..]), s[2..], s[1]);
      assert [s[1]] + s[2..] == s[1..];
      SubseqPrepend(Unpaired(s[2..]), s[1..], s[0]);
      assert [s[0]] + s[1..] == s;
    } else if s != [] {
      UnpairedSettled(s[1..]);
      SettledBehind(s);
      assert ([s[0]] + Unpaired(s[1..]))[1..] == Unpaired(s[1..]);
      assert s == [s[0]] + s[1..];
    }
  }

  /** The cards with ids below the bound are all of them when every id is below it. */
  lemma {:induction false} KeptAll(s: seq<Card>, bound: nat)
    requires IdsBelow(s, bound)
    ensures Kept(s, bound) == s
  {
    if s != [] {
      assert IdsBelow(s[1..], bound) by {
        forall c | c in s[1..] ensures c.id < bound { assert c in s; }
      }
      KeptAll(s[1..], bound);
      assert s[0] in s;
      assert s == [s[0]] + s[1..];
    }
  }

  /**
   * Of the cards that existed before the pass (ids below a bound no larger than the first
   * fresh id), the pass's result holds exactly the unpaired ones, in order: the fresh merged
   * cards are the only other cards in it.
   */
  lemma {:induction false} MergePassKeepsUnpaired(s: seq<Card>, nextId: nat, bound: nat, mint: Minter)
    requires bound <= nextId
    ensures Kept(MergePass(s, nextId, mint).cards, bound) == Kept(Unpaired(s), bound)
  {
    if |s| >= 2 && s[0].value == s[1].value {
      var c := Mint(nextId, 2 * s[0].value, mint);
      var r := MergePass(s[2..], nextId + 1, mint);
      MergePassKeepsUnpaired(s[2..], nextId + 1, bound, mint);
      assert ([c] + r.cards)[1..] == r.cards;
    } else if s != [] {
      var r := MergePass(s[1..], nextId, mint);
      MergePassKeepsUnpaired(s[1..], nextId, bound, mint);
      assert ([s[0]] + r.cards)[1..] == r.cards;
      assert ([s[0]] + Unpaired(s[1..]))[1..] == Unpaired(s[1..]);
    }
  }

  /** On a column whose ids are all below the first fresh id, a pass keeps exactly the unpaired cards. */
  lemma MergePassKeptCards(s: seq<Card>, nextId: nat, mint: Minter)
    requires IdsBelow(s, nextId)
    ensures Kept(MergePass(s, nextId, mint).cards, nextId) == Unpaired(s)
  {
    MergePassKeepsUnpaired(s, nextId, nextId, mint);
    KeptAll(Unpaired(s), nextId);
  }

  /** The cards each pass of the batch merge starts from, first pass first. */
  function Rounds(s: seq<Card>, nextId: nat, mint: Minter): (r: seq<seq<Card>>)
    ensures |r| >= 1 && r[0] == s
    decreases |s|
  {
    var p := MergePass(s, nextId, mint);
    [s] + (if p.changed && |p.cards| >= 2 then Rounds(p.cards, p.nextId, mint) else [])
  }

  /**
   * The original cards (ids below a bound no larger than the first fresh id) entering each
   * pass are exactly those the previous pass left unpaired, and those in the final column
   * are exactly those the last pass left unpaired: a card survives the batch merge exactly
   * when no pass pairs it, and the survivors keep their order.
   */
  lemma {:induction false} AllMergesSurvivors(s: seq<Card>, nextId: nat, bound: nat, mint: Minter)
    requires bound <= nextId
    ensures var R := Rounds(s, nextId, mint);
      && (forall i :: 0 <= i < |R| - 1 ==> Kept(R[i + 1], bound) == Kept(Unpaired(R[i]), bound))
      && Kept(AllMerges(s, nextId, mint).cards, bound) == Kept(Unpaired(R[|R| - 1]), bound)
    decreases |s|
  {
    var p := MergePass(s, nextId, mint);
    var R := Rounds(s, nextId, mint);
    MergePassKeepsUnpaired(s, nextId, bound, mint);
    if p.changed && |p.cards| >= 2 {
      var T := Rounds(p.cards, p.nextId, mint);
      AllMergesSurvivors(p.cards, p.nextId, bound, mint);
      assert R == [s] + T;
      forall i | 0 <= i < |R| - 1
        ensures Kept(R[i + 1], bound) == Kept(Unpaired(R[i]), bound)
      {
        if i > 0 {
          assert R[i] == T[i - 1] && R[i + 1] == T[i];
        }
      }
    } else {
      assert R == [s];
    }
  }

  // ---------------------------------------------------------------------------
  // The finite deck

  /** The deck composition: (value, number of cards), in the order the cards are created. */
  const DeckConfig: seq<(int, nat)> := [(2, 53), (4, 43), (8, 32), (16, 21), (32, 11)]

  /** count cards of one value, with consecutive fresh ids from start. */
  function Run(value: int, count: nat, start: nat, mint: Minter): (r: seq<Card>)
    ensures |r| == count
  {
    if count == 0 then [] else [Mint(start, value, mint)] + Run(value, count - 1, start + 1, mint)
  }

  /** The cards of each configuration entry in turn. */
  function Runs(config: seq<(int, nat)>, start: nat, mint: Minter): seq<Card>
  {
    if config == [] then []
    else Run(config[0].0, config[0].1, start, mint) + Runs(config[1..], start + config[0].1, mint)
  }

  /** createFiniteDeck, with the fresh ids first, first + 1, ... */
  function FiniteDeck(first: nat, mint: Minter): seq<Card>
  {
    Runs(DeckConfig, first, mint)
  }

  lemma RunAppendOne(value: int, count: nat, start: nat, mint: Minter)
    ensures Run(value, count + 1, start, mint) == Run(value, count, start, mint) + [Mint(start + count, value, mint)]
    decreases count
  {
    if count > 0 {
      RunAppendOne(value, count - 1, start + 1, mint);
    }
  }

  /** createFiniteDeck: the configuration is a local table of the source, a parameter of the loops here. */
  method CreateFiniteDeck(first: nat, mint: Minter) returns (deck: seq<Card>)
    ensures deck == FiniteDeck(first, mint)
  {
    deck := BuildDeck(DeckConfig, first, mint);
  }

  /** The two loops of createFiniteDeck: each entry's count of cards of its value, in turn. */
  method BuildDeck(config: seq<(int, nat)>, first: nat, mint: Minter) returns (deck: seq<Card>)
    ensures deck == Runs(config, first, mint)
  {
    deck := [];
    ghost var goal := Runs(config, first, mint);
    for ci := 0 to |config|
      invariant deck + Runs(config[ci..], first + |deck|, mint) == goal
    {
      var value := config[ci].0;
      var count := config[ci].1;
      ghost var before := deck;
      RunsStep(config, ci, first + |before|, mint);
      deck := AppendRun(deck, value, count, first, mint);
      AppendAssoc(before, Run(value, count, first + |before|, mint), Runs(config[ci + 1..], first + |deck|, mint));
    }
    assert config[|config|..] == [];
  }

  /** The inner loop of createFiniteDeck: count new cards of one value, ids continuing the deck's. */
  method AppendRun(deck: seq<Card>, value: int, count: nat, first: nat, mint: Minter) returns (r: seq<Card>)
    ensures r == deck + Run(value, count, first + |deck|, mint)
    ensures |r| == |deck| + count
  {
    r := deck;
    for i := 0 to count
      invariant r == deck + Run(value, i, first + |deck|, mint)
      invariant |r| == |deck| + i
    {
      RunAppendOne(value, i, first + |deck|, mint);
      r := r + [Mint(first + |r|, value, mint)];
    }
  }

  /** Regrouping a concatenation; kept as a lemma so that the loop above does not carry its proof. */
  lemma AppendAssoc(a: seq<Card>, b: seq<Card>, c: seq<Card>)
    ensures a + (b + c) == (a + b) + c
  {
  }

  lemma RunsStep(config: seq<(int, nat)>, ci: nat, start: nat, mint: Minter)
    requires ci < |config|
    ensures Runs(config[ci..], start, mint)
      == Run(config[ci].0, config[ci].1, start, mint) + Runs(config[ci + 1..], start + config[ci].1, mint)
  {
    assert config[ci..][1..] == config[ci + 1..];
  }

  /** The number of configured cards of a value. */
  function ConfiguredCount(config: seq<(int, nat)>, v: int): nat
  {
    if config == [] then 0
    else (if config[0].0 == v then config[0].1 else 0) + ConfiguredCount(config[1..], v)
  }

  lemma {:induction false} ConfiguredCountAbsent(config: seq<(int, nat)>, v: int)
    requires forall i :: 0 <= i < |config| ==> config[i].0 != v
    ensures ConfiguredCount(config, v) == 0
  {
    if config != [] {
      ConfiguredCountAbsent(config[1..], v);
    }
  }

  /** The configured value total. */
  function ConfiguredSum(config: seq<(int, nat)>): int
  {
    if config == [] then 0 else config[0].0 * config[0].1 + ConfiguredSum(config[1..])
  }

  /** The configured number of cards. */
  function ConfiguredSize(config: seq<(int, nat)>): nat
  {
    if config == [] then 0 else config[0].1 + ConfiguredSize(config[1..])
  }

  lemma {:induction false} RunFacts(value: int, count: nat, start: nat, v: int, mint: Minter)
    ensures CountValue(Run(value, count, start, mint), v) == if value == v then count else 0
    ensures Sum(Run(value, count, start, mint)) == value * count
  {
    if count > 0 {
      var r := Run(value, count, start, mint);
      RunFacts(value, count - 1, start + 1, v, mint);
      assert r[1..] == Run(value, count - 1, start + 1, mint);
    }
  }

  lemma {:induction false} RunIds(value: int, count: nat, start: nat, mint: Minter)
    ensures forall k :: 0 <= k < count ==> Run(value, count, start, mint)[k].id == start + k
  {
    if count > 0 {
      RunIds(value, count - 1, start + 1, mint);
    }
  }

  /** The cards of a configuration: its size, its count of each value, its value total, consecutive ids. */
  lemma {:induction false} RunsFacts(config: seq<(int, nat)>, start: nat, v: int, mint: Minter)
    ensures var d := Runs(config, start, mint);
      && |d| == ConfiguredSize(config)
      && CountValue(d, v) == ConfiguredCount(config, v)
      && Sum(d) == ConfiguredSum(config)
      && forall k :: 0 <= k < |d| ==> d[k].id == start + k
  {
    if config != [] {
      var r := Run(config[0].0, config[0].1, start, mint);
      var rest := Runs(config[1..], start + config[0].1, mint);
      RunsFacts(config[1..], start + config[0].1, v, mint);
      RunFacts(config[0].0, config[0].1, start, v, mint);
      RunIds(config[0].0, config[0].1, start, mint);
      CountValueAppend(r, rest, v);
      SumAppend(r, rest);
    }
  }

  /**
   * The deck holds 53 cards of value 2, 43 of 4, 32 of 8, 21 of 16 and 11 of 32 and no
   * other value: 160 cards worth 1222 in all, with distinct ids.
   */
  lemma DeckComposition(first: nat, mint: Minter, v: int)
    ensures var d := FiniteDeck(first, mint);
      && |d| == 160
      && CountValue(d, 2) == 53 && CountValue(d, 4) == 43 && CountValue(d, 8) == 32
      && CountValue(d, 16) == 21 && CountValue(d, 32) == 11
      && (v != 2 && v != 4 && v != 8 && v != 16 && v != 32 ==> CountValue(d, v) == 0)
      && Sum(d) == 1222
      && DistinctIds(d) && IdsBelow(d, first + 160)
  {
    var d := FiniteDeck(first, mint);
    RunsFacts(DeckConfig, first, v, mint);
    RunsFacts(DeckConfig, first, 2, mint);
    RunsFacts(DeckConfig, first, 4, mint);
    RunsFacts(DeckConfig, first, 8, mint);
    RunsFacts(DeckConfig, first, 16, mint);
    RunsFacts(DeckConfig, first, 32, mint);
    assert DeckConfig[1..][1..][1..][1..][1..] == [];
    if v != 2 && v != 4 && v != 8 && v != 16 && v != 32 {
      ConfiguredCountAbsent(DeckConfig, v);
    }
    forall c | c in d ensures c.id < first + 160 {
      var k :| 0 <= k < |d| && d[k] == c;
    }
  }

  // ---------------------------------------------------------------------------
  // Shuffling

  /** The elements at i and j exchanged. */
  function Swap(s: seq<Card>, i: nat, j: nat): (r: seq<Card>)
    requires i < |s| && j < |s|
    ensures |r| == |s|
  {
    s[i := s[j]][j := s[i]]
  }

  lemma SwapPermutes(s: seq<Card>, i: nat, j: nat)
    requires i < |s| && j < |s|
    ensures multiset(Swap(s, i, j)) == multiset(s)
  {
  }

  /**
   * shuffleDeck from the point where cur elements remain unshuffled: draw an index below
   * cur, then swap that element with the last unshuffled one.
   */
  function Shuffled(s: seq<Card>, cur: nat, rng: Stream, pos: nat): seq<Card>
    requires cur <= |s| && Unit(rng)
    decreases cur
  {
    if cur == 0 then s
    else
      var r := ScaledIndex(rng(pos), cur);
      Shuffled(Swap(s, cur - 1, r), cur - 1, rng, pos + 1)
  }

  /** The shuffle is a permutation of the deck: same length, same multiset of cards. */
  lemma {:induction false} ShuffledPermutes(s: seq<Card>, cur: nat, rng: Stream, pos: nat)
    requires cur <= |s| && Unit(rng)
    ensures |Shuffled(s, cur, rng, pos)| == |s|
    ensures multiset(Shuffled(s, cur, rng, pos)) == multiset(s)
    decreases cur
  {
    if cur > 0 {
      var t := Swap(s, cur - 1, ScaledIndex(rng(pos), cur));
      assert Shuffled(s, cur, rng, pos) == Shuffled(t, cur - 1, rng, pos + 1);
      ShuffledPermutes(t, cur - 1, rng, pos + 1);
      SwapPermutes(s, cur - 1, ScaledIndex(rng(pos), cur));
    }
  }

  /** shuffleDeck: in place, one draw per position from the top down. */
  method ShuffleDeck(a: array<Card>, rng: Stream, pos: nat) returns (next: nat)
    requires Unit(rng)
    modifies a
    ensures a[..] == Shuffled(old(a[..]), a.Length, rng, pos)
    ensures multiset(a[..]) == multiset(old(a[..]))
    ensures next == pos + a.Length
  {
    ghost var goal := Shuffled(a[..], a.Length, rng, pos);
    ShuffledPermutes(a[..], a.Length, rng, pos);
    var currentIndex := a.Length;
    next := pos;
    while currentIndex != 0
      invariant 0 <= currentIndex <= a.Length
      invariant next == pos + (a.Length - currentIndex)
      invariant Shuffled(a[..], currentIndex, rng, next) == goal
    {
      ShuffleOne(a, currentIndex, rng, next);
      next := next + 1;
      currentIndex := currentIndex - 1;
    }
  }

  /** One round of the shuffle: draw an index below cur and swap it with position cur - 1. */
  method ShuffleOne(a: array<Card>, cur: nat, rng: Stream, pos: nat)
    requires 0 < cur <= a.Length && Unit(rng)
    modifies a
    ensures Shuffled(a[..], cur - 1, rng, pos + 1) == Shuffled(old(a[..]), cur, rng, pos)
  {
    var randomIndex := ScaledIndex(rng(pos), cur);
    ShuffleStep(a[..], cur, rng, pos);
    SwapCards(a, cur - 1, randomIndex);
  }

  /** One exchange of the shuffle, in place. */
  method SwapCards(a: array<Card>, i: nat, j: nat)
    requires i < a.Length && j < a.Length
    modifies a
    ensures a[..] == Swap(old(a[..]), i, j)
  {
    a[i], a[j] := a[j], a[i];
  }

  lemma ShuffleStep(s: seq<Card>, cur: nat, rng: Stream, pos: nat)
    requires 0 < cur <= |s| && Unit(rng)
    ensures Shuffled(s, cur, rng, pos)
      == Shuffled(Swap(s, cur - 1, ScaledIndex(rng(pos), cur)), cur - 1, rng, pos + 1)
  {
  }
}
