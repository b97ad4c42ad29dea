// The fortune report of the final board (src/logic/FortuneEvaluator.ts): the tier histogram,
// the four most frequent suits, a volatility score with its level, a summary label chosen by
// fixed rules, and one narrative line per highlighted suit. The clock timestamp is left out.

module FortuneEvaluator {
  import opened Cards
  import opened LuckConfig

  // ---------------------------------------------------------------------------
  // Counting cards

  /** Number of cards for which p holds. */
  function CountWhere(cards: seq<Card>, p: Card -> bool): nat
  {
    if cards == [] then 0
    else (if p(cards[0]) then 1 else 0) + CountWhere(cards[1..], p)
  }

  lemma {:induction false} CountWhereAppend(a: seq<Card>, b: seq<Card>, p: Card -> bool)
    ensures CountWhere(a + b, p) == CountWhere(a, p) + CountWhere(b, p)
  {
    if a == [] {
      assert a + b == b;
    } else {
      assert (a + b)[1..] == a[1..] + b;
      CountWhereAppend(a[1..], b, p);
    }
  }

  /** Reordering the cards does not change how many satisfy p. */
  lemma {:induction false} CountWhereOfPermutation(a: seq<Card>, b: seq<Card>, p: Card -> bool)
    requires multiset(a) == multiset(b)
    ensures CountWhere(a, p) == CountWhere(b, p)
  {
    if a != [] {
      var x := a[0];
      assert x in multiset(b);
      var i :| 0 <= i < |b| && b[i] == x;
      MultisetRemove(a, b, i);
      assert b == b[..i] + ([x] + b[i + 1..]);
      CountWhereOfPermutation(a[1..], b[..i] + b[i + 1..], p);
      CountWhereAppend(b[..i], [x] + b[i + 1..], p);
      CountWhereAppend([x], b[i + 1..], p);
      CountWhereAppend(b[..i], b[i + 1..], p);
    } else {
      assert |b| == |multiset(b)| == 0;
    }
  }

  function OfTier(t: Tier): Card -> bool
  {
    (c: Card) => c.tier == t
  }

  function OfSuit(s: SuitId): Card -> bool
  {
    (c: Card) => c.suit == s
  }

  /** Number of cards of tier t. */
  function CountTier(cards: seq<Card>, t: Tier): nat
  {
    CountWhere(cards, OfTier(t))
  }

  /** Number of cards of suit s. */
  function CountSuit(cards: seq<Card>, s: SuitId): nat
  {
    CountWhere(cards, OfSuit(s))
  }

  // ---------------------------------------------------------------------------
  // Tier counts

  /** Record<LuckTier, number>: one count per tier. */
  datatype TierCounts = TierCounts(t1: nat, t2: nat, t3: nat)

  /** One more card of tier t. */
  function Bump(counts: TierCounts, t: Tier): TierCounts
  {
    if t == 1 then counts.(t1 := counts.t1 + 1)
    else if t == 2 then counts.(t2 := counts.t2 + 1)
    else counts.(t3 := counts.t3 + 1)
  }

  /** The reduce of calculateTierCounts: every tier starts at 0, each card adds one to its tier. */
  function TierCountsOf(cards: seq<Card>): TierCounts
  {
    if cards == [] then TierCounts(0, 0, 0)
    else Bump(TierCountsOf(cards[..|cards| - 1]), cards[|cards| - 1].tier)
  }

  /** Each tier's count is the number of cards of that tier, and the three add up to all the cards. */
  lemma {:induction false} TierCountsOfCounts(cards: seq<Card>)
    ensures TierCountsOf(cards).t1 == CountTier(cards, 1)
    ensures TierCountsOf(cards).t2 == CountTier(cards, 2)
    ensures TierCountsOf(cards).t3 == CountTier(cards, 3)
    ensures TierCountsOf(cards).t1 + TierCountsOf(cards).t2 + TierCountsOf(cards).t3 == |cards|
  {
    if cards != [] {
      var init := cards[..|cards| - 1];
      var last := cards[|cards| - 1];
      TierCountsOfCounts(init);
      assert cards == init + [last];
      CountWhereAppend(init, [last], OfTier(1));
      CountWhereAppend(init, [last], OfTier(2));
      CountWhereAppend(init, [last], OfTier(3));
    }
  }

  /** calculateTierCounts */
  method CalculateTierCounts(cards: seq<Card>) returns (counts: TierCounts)
    ensures counts == TierCountsOf(cards)
    ensures counts.t1 + counts.t2 + counts.t3 == |cards|
  {
    counts := TierCounts(0, 0, 0);
    for i := 0 to |cards|
      invariant counts == TierCountsOf(cards[..i])
    {
      assert cards[..i + 1][..i] == cards[..i];
      var t := cards[i].tier;
      if t == 1 {
        counts := counts.(t1 := counts.t1 + 1);
      } else if t == 2 {
        counts := counts.(t2 := counts.t2 + 1);
      } else {
        counts := counts.(t3 := counts.t3 + 1);
      }
    }
    assert cards[..|cards|] == cards;
    TierCountsOfCounts(cards);
  }

  // ---------------------------------------------------------------------------
  // Suit highlights

  /** An entry of the counting map: the suit, the first card seen with it, and its count so far. */
  datatype SuitTally = SuitTally(suit: SuitId, card: Card, count: nat)

  /** FortuneHighlight: a suit with its emoji, its label and its number of cards. */
  datatype Highlight = Highlight(suitId: SuitId, suitEmoji: string, suitLabel: string, count: nat)

  /** The position of the suit's entry in the map, if it has one. */
  function FindTally(tallies: seq<SuitTally>, s: SuitId): (r: Option<nat>)
    ensures r.Some? ==> r.value < |tallies| && tallies[r.value].suit == s
    ensures r.None? ==> forall k :: 0 <= k < |tallies| ==> tallies[k].suit != s
  {
    if tallies == [] then None
    else if tallies[0].suit == s then Some(0)
    else match FindTally(tallies[1..], s)
      case None => None
      case Some(k) => Some(k + 1)
  }

  /** The counting map after the forEach: entries in order of each suit's first card. */
  function Tallies(cards: seq<Card>): seq<SuitTally>
  {
    if cards == [] then []
    else
      var before := Tallies(cards[..|cards| - 1]);
      var card := cards[|cards| - 1];
      match FindTally(before, card.suit)
      case Some(k) => before[k := before[k].(count := before[k].count + 1)]
      case None => before + [SuitTally(card.suit, card, 1)]
  }

  predicate DistinctTallies(tallies: seq<SuitTally>)
  {
    forall i, j :: 0 <= i < j < |tallies| ==> tallies[i].suit != tallies[j].suit
  }

  lemma CountSuitSnoc(init: seq<Card>, card: Card, s: SuitId)
    ensures CountSuit(init + [card], s) == CountSuit(init, s) + (if card.suit == s then 1 else 0)
  {
    CountWhereAppend(init, [card], OfSuit(s));
  }

  /** The map has at most one entry per suit. */
  lemma {:induction false} TalliesDistinct(cards: seq<Card>)
    ensures DistinctTallies(Tallies(cards))
  {
    if cards != [] {
      var init, card := cards[..|cards| - 1], cards[|cards| - 1];
      var before := Tallies(init);
      TalliesDistinct(init);
      match FindTally(before, card.suit)
      case Some(k) =>
        var t := before[k := before[k].(count := before[k].count + 1)];
        assert Tallies(cards) == t;
        assert forall i :: 0 <= i < |t| ==> t[i].suit == before[i].suit;
      case None =>
        var t := before + [SuitTally(card.suit, card, 1)];
        assert Tallies(cards) == t;
        assert forall i :: 0 <= i < |before| ==> t[i] == before[i];
    }
  }

  /** Every entry counts exactly the cards of its suit and remembers a card of that suit. */
  lemma {:induction false} TalliesCount(cards: seq<Card>)
    ensures forall k :: 0 <= k < |Tallies(cards)| ==>
      var e := Tallies(cards)[k];
      e.count == CountSuit(cards, e.suit) && e.card.suit == e.suit && e.card in cards
  {
    if cards != [] {
      var init, card := cards[..|cards| - 1], cards[|cards| - 1];
      var before := Tallies(init);
      TalliesCount(init);
      TalliesDistinct(init);
      TalliesPresent(init);
      assert cards == init + [card];
      match FindTally(before, card.suit)
      case Some(k) =>
        var t := before[k := before[k].(count := before[k].count + 1)];
        assert Tallies(cards) == t;
        forall i | 0 <= i < |t|
          ensures t[i].count == CountSuit(cards, t[i].suit) && t[i].card.suit == t[i].suit && t[i].card in cards
        {
          CountSuitSnoc(init, card, t[i].suit);
          if i != k {
            assert t[i] == before[i] && before[i].suit != before[k].suit;
          }
        }
      case None =>
        var t := before + [SuitTally(card.suit, card, 1)];
        assert Tallies(cards) == t;
        forall i | 0 <= i < |t|
          ensures t[i].count == CountSuit(cards, t[i].suit) && t[i].card.suit == t[i].suit && t[i].card in cards
        {
          CountSuitSnoc(init, card, t[i].suit);
          if i < |before| {
            assert t[i] == before[i];
          }
        }
    }
  }

  /** A suit has an entry exactly when some card is of that suit. */
  lemma {:induction false} TalliesPresent(cards: seq<Card>)
    ensures forall s :: FindTally(Tallies(cards), s).Some? <==> CountSuit(cards, s) > 0
  {
    if cards != [] {
      var init, card := cards[..|cards| - 1], cards[|cards| - 1];
      var before := Tallies(init);
      TalliesPresent(init);
      assert cards == init + [card];
      match FindTally(before, card.suit)
      case Some(k) =>
        var t := before[k := before[k].(count := before[k].count + 1)];
        assert Tallies(cards) == t;
        forall s ensures FindTally(t, s).Some? <==> CountSuit(cards, s) > 0 {
          CountSuitSnoc(init, card, s);
          if FindTally(before, s).Some? {
            assert t[FindTally(before, s).value].suit == s;
          }
        }
      case None =>
        var t := before + [SuitTally(card.suit, card, 1)];
        assert Tallies(cards) == t;
        forall s ensures FindTally(t, s).Some? <==> CountSuit(cards, s) > 0 {
          CountSuitSnoc(init, card, s);
          if FindTally(before, s).Some? {
            assert t[FindTally(before, s).value].suit == s;
          }
          if s == card.suit {
            assert t[|before|].suit == s;
          }
        }
    }
  }

  /** The highlight of a map entry; the emoji and label are those of the entry's card's suit. */
  function ToHighlight(e: SuitTally): Highlight
  {
    Highlight(e.suit, Catalog(e.card.suit).emoji, Catalog(e.card.suit).name, e.count)
  }

  function ToHighlights(tallies: seq<SuitTally>): (r: seq<Highlight>)
    ensures |r| == |tallies| && forall k :: 0 <= k < |r| ==> r[k] == ToHighlight(tallies[k])
  {
    if tallies == [] then [] else [ToHighlight(tallies[0])] + ToHighlights(tallies[1..])
  }

  /** Array.prototype.sort with (a, b) => b.count - a.count: stable, largest count first. */
  function InsertByCount(h: Highlight, s: seq<Highlight>): seq<Highlight>
  {
    if s == [] || s[0].count <= h.count then [h] + s else [s[0]] + InsertByCount(h, s[1..])
  }

  function SortByCount(s: seq<Highlight>): seq<Highlight>
  {
    if s == [] then [] else InsertByCount(s[0], SortByCount(s[1..]))
  }

  predicate ByCountDesc(s: seq<Highlight>)
  {
    forall i, j :: 0 <= i < j < |s| ==> s[i].count >= s[j].count
  }

  predicate DistinctSuits(s: seq<Highlight>)
  {
    forall i, j :: 0 <= i < j < |s| ==> s[i].suitId != s[j].suitId
  }

  /** Insertion adds exactly the one highlight. */
  lemma {:induction false} InsertByCountMembers(h: Highlight, s: seq<Highlight>)
    ensures |InsertByCount(h, s)| == |s| + 1
    ensures forall x :: x in InsertByCount(h, s) <==> x == h || x in s
  {
    if s != [] && s[0].count > h.count {
      InsertByCountMembers(h, s[1..]);
      assert s == [s[0]] + s[1..];
    }
  }

  /** Putting a highlight in front of an ordered list whose counts it bounds keeps it ordered. */
  lemma ConsByCount(x: Highlight, t: seq<Highlight>)
    requires ByCountDesc(t) && forall k :: 0 <= k < |t| ==> t[k].count <= x.count
    ensures ByCountDesc([x] + t)
  {
    var r := [x] + t;
    forall i, j | 0 <= i < j < |r| ensures r[i].count >= r[j].count {
      assert r[j] == t[j - 1];
      if i > 0 {
        assert r[i] == t[i - 1];
      }
    }
  }

  /** Insertion keeps the largest-count-first order. */
  lemma {:induction false} InsertByCountOrdered(h: Highlight, s: seq<Highlight>)
    requires ByCountDesc(s)
    ensures ByCountDesc(InsertByCount(h, s))
  {
    if s != [] && s[0].count > h.count {
      var t := InsertByCount(h, s[1..]);
      assert ByCountDesc(s[1..]);
      InsertByCountOrdered(h, s[1..]);
      InsertByCountMembers(h, s[1..]);
      forall k | 0 <= k < |t| ensures t[k].count <= s[0].count {
        assert t[k] in t;
      }
      ConsByCount(s[0], t);
    } else {
      ConsByCount(h, s);
    }
  }

  /** Inserting a highlight of a new suit keeps the suits distinct. */
  lemma {:induction false} InsertByCountDistinct(h: Highlight, s: seq<Highlight>)
    requires DistinctSuits(s) && forall k :: 0 <= k < |s| ==> s[k].suitId != h.suitId
    ensures DistinctSuits(InsertByCount(h, s))
  {
    if s != [] && s[0].count > h.count {
      var t := InsertByCount(h, s[1..]);
      assert DistinctSuits(s[1..]);
      InsertByCountDistinct(h, s[1..]);
      InsertByCountMembers(h, s[1..]);
      forall k | 0 <= k < |t| ensures t[k].suitId != s[0].suitId {
        assert t[k] in t;
        if t[k] != h {
          var m :| 0 <= m < |s[1..]| && s[1..][m] == t[k];
          assert s[m + 1] == t[k];
        }
      }
      ConsDistinct(s[0], t);
    } else {
      ConsDistinct(h, s);
    }
  }

  /** Putting a highlight in front of a list without its suit keeps the suits distinct. */
  lemma ConsDistinct(x: Highlight, t: seq<Highlight>)
    requires DistinctSuits(t) && forall k :: 0 <= k < |t| ==> t[k].suitId != x.suitId
    ensures DistinctSuits([x] + t)
  {
    var r := [x] + t;
    forall i, j | 0 <= i < j < |r| ensures r[i].suitId != r[j].suitId {
      assert r[j] == t[j - 1];
      if i > 0 {
        assert r[i] == t[i - 1];
      }
    }
  }

  /** The sort keeps exactly the highlights it is given, orders them by count and keeps suits distinct. */
  lemma {:induction false} SortByCountFacts(s: seq<Highlight>)
    ensures |SortByCount(s)| == |s|
    ensures forall x :: x in SortByCount(s) <==> x in s
    ensures ByCountDesc(SortByCount(s))
    ensures DistinctSuits(s) ==> DistinctSuits(SortByCount(s))
  {
    if s != [] {
      var t := SortByCount(s[1..]);
      SortByCountFacts(s[1..]);
      InsertByCountMembers(s[0], t);
      InsertByCountOrdered(s[0], t);
      assert s == [s[0]] + s[1..];
      if DistinctSuits(s) {
        assert DistinctSuits(s[1..]);
        forall k | 0 <= k < |t| ensures t[k].suitId != s[0].suitId {
          assert t[k] in s[1..];
        }
        InsertByCountDistinct(s[0], t);
      }
    }
  }

  /** The first n elements, or all of them when there are fewer: slice(0, n). */
  function Take<T>(s: seq<T>, n: nat): (r: seq<T>)
    ensures |r| == if |s| < n then |s| else n
    ensures forall k :: 0 <= k < |r| ==> r[k] == s[k]
  {
    if |s| <= n then s else s[..n]
  }

  /** calculateSuitHighlights, specified: count per suit, sort by count, keep the first four. */
  function Highlights(cards: seq<Card>): seq<Highlight>
  {
    Take(SortByCount(ToHighlights(Tallies(cards))), 4)
  }

  /** calculateSuitHighlights */
  method CalculateSuitHighlights(cards: seq<Card>) returns (highlights: seq<Highlight>)
    ensures highlights == Highlights(cards)
  {
    var counts: seq<SuitTally> := [];
    for i := 0 to |cards|
      invariant counts == Tallies(cards[..i])
    {
      assert cards[..i + 1][..i] == cards[..i];
      var card := cards[i];
      var existing := FindTally(counts, card.suit);
      if existing.Some? {
        var k := existing.value;
        counts := counts[k := counts[k].(count := counts[k].count + 1)];
      } else {
        counts := counts + [SuitTally(card.suit, card, 1)];
      }
    }
    assert cards[..|cards|] == cards;
    var entries := ToHighlights(counts);
    highlights := Take(SortByCount(entries), 4);
  }

  /**
   * At most four highlights with distinct suits, largest count first; each counts exactly the
   * cards of its suit, with that suit's emoji and label; and a suit that has cards but is not
   * highlighted has no more cards than any highlighted suit, which are then four.
   */
  lemma HighlightsFacts(cards: seq<Card>)
    ensures var h := Highlights(cards);
      && |h| <= 4
      && DistinctSuits(h)
      && ByCountDesc(h)
      && (forall k :: 0 <= k < |h| ==>
            h[k].count == CountSuit(cards, h[k].suitId) > 0
            && h[k].suitEmoji == Catalog(h[k].suitId).emoji && h[k].suitLabel == Catalog(h[k].suitId).name)
  {
    var t := Tallies(cards);
    var e := ToHighlights(t);
    var sorted := SortByCount(e);
    var h := Highlights(cards);
    TalliesDistinct(cards);
    TalliesCount(cards);
    SortByCountFacts(e);
    EntriesDistinct(cards);
    forall k | 0 <= k < |h| ensures h[k].count == CountSuit(cards, h[k].suitId) > 0
      && h[k].suitEmoji == Catalog(h[k].suitId).emoji && h[k].suitLabel == Catalog(h[k].suitId).name
    {
      assert h[k] == sorted[k];
      assert sorted[k] in e;
      var i :| 0 <= i < |e| && e[i] == sorted[k];
      assert e[i] == ToHighlight(t[i]);
      assert t[i].card in cards;
      CardCounted(cards, t[i].card);
    }
  }

  /** The highlights of the tally map name each suit once. */
  lemma EntriesDistinct(cards: seq<Card>)
    ensures DistinctSuits(ToHighlights(Tallies(cards)))
  {
    var t := Tallies(cards);
    var e := ToHighlights(t);
    TalliesDistinct(cards);
    forall i, j | 0 <= i < j < |e| ensures e[i].suitId != e[j].suitId {
      assert e[i].suitId == t[i].suit && e[j].suitId == t[j].suit;
    }
  }

  /** A suit present among the cards but not highlighted is beaten by each of four highlights. */
  lemma HighlightsTopFour(cards: seq<Card>)
    ensures var h := Highlights(cards);
      forall s :: CountSuit(cards, s) > 0 && (forall k :: 0 <= k < |h| ==> h[k].suitId != s) ==>
        |h| == 4 && forall k :: 0 <= k < 4 ==> h[k].count >= CountSuit(cards, s)
  {
    var t := Tallies(cards);
    var e := ToHighlights(t);
    var sorted := SortByCount(e);
    var h := Highlights(cards);
    TalliesCount(cards);
    TalliesPresent(cards);
    SortByCountFacts(e);
    EntriesDistinct(cards);
    forall s | CountSuit(cards, s) > 0 && (forall k :: 0 <= k < |h| ==> h[k].suitId != s)
      ensures |h| == 4 && forall k :: 0 <= k < 4 ==> h[k].count >= CountSuit(cards, s)
    {
      var i := FindTally(t, s).value;
      assert e[i] in sorted;
      var j :| 0 <= j < |sorted| && sorted[j] == e[i];
      assert sorted[j].suitId == s;
    }
  }

  /** A card in the sequence makes its suit's count positive. */
  lemma {:induction false} CardCounted(cards: seq<Card>, c: Card)
    requires c in cards
    ensures CountSuit(cards, c.suit) > 0
  {
    if cards[0] != c {
      CardCounted(cards[1..], c);
    }
  }

  // ---------------------------------------------------------------------------
  // Volatility, summary and narrative

  /** FortuneVolatility */
  datatype Volatility = Stable | Mixed | Volatile

  /** computeVolatility: score 2*t3 + t2 - t1; stable up to 0, mixed up to 3, volatile above. */
  function ComputeVolatility(counts: TierCounts): (r: (int, Volatility))
    ensures r.0 == 2 * counts.t3 + counts.t2 - counts.t1
    ensures r.1 == Stable <==> r.0 <= 0
    ensures r.1 == Mixed <==> 1 <= r.0 <= 3
    ensures r.1 == Volatile <==> r.0 > 3
  {
    var score := counts.t3 * 2 + counts.t2 - counts.t1;
    if score <= 0 then (score, Stable)
    else if score <= 3 then (score, Mixed)
    else (score, Volatile)
  }

  /** The summary labels of deriveSummaryLabel, strongest first. */
  datatype SummaryLabel = NoData | Surge | Rising | Focused | Cycling

  function LabelText(l: SummaryLabel): string
  {
    match l
    case NoData => "운세 데이터 없음"
    case Surge => "✨ 대운 폭주 ✨"
    case Rising => "✨ 대운 상승기 ✨"
    case Focused => "상징 에너지 집중"
    case Cycling => "일상 에너지 순환"
  }

  /**
   * deriveSummaryLabel: the rules in their fixed order. No highest card: no data; three or
   * more tier-3 cards: surge; otherwise a tier-3 highest card: rising; otherwise at least as
   * many tier-2 as tier-1 cards: focused; otherwise cycling.
   */
  function DeriveSummaryLabel(counts: TierCounts, highestCard: Option<Card>): (l: SummaryLabel)
    ensures l == NoData <==> highestCard.None?
    ensures l == Surge <==> highestCard.Some? && counts.t3 >= 3
    ensures l == Rising <==> highestCard.Some? && counts.t3 < 3 && highestCard.value.tier == 3
    ensures l == Focused <==>
      highestCard.Some? && counts.t3 < 3 && highestCard.value.tier != 3 && counts.t2 >= counts.t1
    ensures l == Cycling <==>
      highestCard.Some? && counts.t3 < 3 && highestCard.value.tier != 3 && counts.t2 < counts.t1
  {
    match highestCard
    case None => NoData
    case Some(card) =>
      if counts.t3 >= 3 then Surge
      else if card.tier == 3 then Rising
      else if counts.t2 >= counts.t1 then Focused
      else Cycling
  }

  const VolatileLine := "⚡ 운의 기복이 큽니다. 급변하는 흐름에 대비하세요."
  const StableLine := "🌙 흐름이 차분합니다. 꾸준함이 핵심이 됩니다."

  /** The narrative line of a highlight: emoji, label and the suit's narrative at its catalog tier. */
  function HighlightLine(h: Highlight): string
  {
    h.suitEmoji + " " + h.suitLabel + ": " + GetSuitNarrative(h.suitId, Catalog(h.suitId).tier)
  }

  /** buildNarrativeLines: one line per highlight, then one closing line unless the volatility is mixed. */
  function BuildNarrativeLines(highlights: seq<Highlight>, volatility: Volatility): (lines: seq<string>)
    ensures |lines| == |highlights| + (if volatility == Mixed then 0 else 1)
    ensures forall k :: 0 <= k < |highlights| ==> lines[k] == HighlightLine(highlights[k])
    ensures volatility == Volatile ==> lines[|highlights|] == VolatileLine
    ensures volatility == Stable ==> lines[|highlights|] == StableLine
  {
    var lines := seq(|highlights|, k requires 0 <= k < |highlights| => HighlightLine(highlights[k]));
    match volatility
    case Volatile => lines + [VolatileLine]
    case Stable => lines + [StableLine]
    case Mixed => lines
  }

  // ---------------------------------------------------------------------------
  // The report

  /** FortuneReport without its timestamp. */
  datatype FortuneReport = FortuneReport(
    topCards: seq<Card>, highestCard: Option<Card>, tierCounts: TierCounts,
    dominantSuits: seq<Highlight>, tier3Count: nat, volatility: Volatility, volatilityScore: int,
    summaryLabel: string, summaryDetail: string, narrativeLines: seq<string>)

  /** The board's cards with the queue's, largest value first. */
  function RankedCards(columns: seq<Column>, queue: seq<Card>): seq<Card>
  {
    var boardCards := Flatten(columns);
    var relevantCards := SortDesc(boardCards);
    if |queue| > 0 then SortDesc(boardCards + queue) else relevantCards
  }

  /** evaluateFortune */
  function EvaluateFortune(columns: seq<Column>, queue: seq<Card>): FortuneReport
  {
    var allCards := RankedCards(columns, queue);
    var highestCard := if allCards == [] then None else Some(allCards[0]);
    var tierCounts := TierCountsOf(allCards);
    var highlights := Highlights(allCards);
    var (volatilityScore, volatility) := ComputeVolatility(tierCounts);
    var summaryLabel := LabelText(DeriveSummaryLabel(tierCounts, highestCard));
    var summaryDetail :=
      if highestCard.Some? then GetSuitNarrative(highestCard.value.suit, highestCard.value.tier)
      else "운세 요약을 생성할 수 없습니다.";
    FortuneReport(Take(allCards, 6), highestCard, tierCounts, highlights, tierCounts.t3,
                  volatility, volatilityScore, summaryLabel, summaryDetail,
                  BuildNarrativeLines(highlights, volatility))
  }

  /** With or without a queue, the report ranks every card of the board and of the queue. */
  lemma RankedCardsFacts(columns: seq<Column>, queue: seq<Card>)
    ensures var all := RankedCards(columns, queue);
      && all == SortDesc(Flatten(columns) + queue)
      && multiset(all) == multiset(Flatten(columns) + queue)
      && |all| == |Flatten(columns)| + |queue|
      && SortedDesc(all)
  {
    assert Flatten(columns) + [] == Flatten(columns);
    SortDescFacts(Flatten(columns) + queue);
  }

  /**
   * The report counts every card of the board and the queue by tier; shows at most six top
   * cards, largest first, that no card left out beats; has a highest card exactly when there
   * are cards, and then it is the first card of largest value; reports the tier-3 count again
   * as tier3Count; and has one narrative line per dominant suit plus one unless mixed.
   */
  lemma EvaluateFortuneFacts(columns: seq<Column>, queue: seq<Card>)
    ensures var r := EvaluateFortune(columns, queue);
      var cards := Flatten(columns) + queue;
      && r.tierCounts.t1 == CountTier(cards, 1)
      && r.tierCounts.t2 == CountTier(cards, 2)
      && r.tierCounts.t3 == CountTier(cards, 3)
      && r.tierCounts.t1 + r.tierCounts.t2 + r.tierCounts.t3 == |cards|
      && r.tier3Count == r.tierCounts.t3
      && |r.topCards| == (if |cards| < 6 then |cards| else 6)
      && SortedDesc(r.topCards)
      && (forall c :: c in r.topCards ==> c in cards)
      && (forall c :: c in cards && c !in r.topCards ==>
            forall k :: 0 <= k < |r.topCards| ==> r.topCards[k].value >= c.value)
      && (r.highestCard.None? <==> cards == [])
      && (r.highestCard.Some? ==> r.highestCard.value == cards[FirstMaxIndex(cards)])
      && (r.highestCard.Some? ==> forall c :: c in cards ==> c.value <= r.highestCard.value.value)
      && |r.narrativeLines| == |r.dominantSuits| + (if r.volatility == Mixed then 0 else 1)
  {
    var cards := Flatten(columns) + queue;
    var all := RankedCards(columns, queue);
    RankedCardsFacts(columns, queue);
    RankedTierCounts(all, cards);
    TopCardsFacts(all, cards);
    RankedHighest(all, cards);
  }

  /** Counting by tier does not depend on the order of the cards. */
  lemma RankedTierCounts(all: seq<Card>, cards: seq<Card>)
    requires multiset(all) == multiset(cards)
    ensures var n := TierCountsOf(all);
      && n.t1 == CountTier(cards, 1) && n.t2 == CountTier(cards, 2) && n.t3 == CountTier(cards, 3)
      && n.t1 + n.t2 + n.t3 == |cards|
  {
    TierCountsOfCounts(all);
    CountWhereOfPermutation(all, cards, OfTier(1));
    CountWhereOfPermutation(all, cards, OfTier(2));
    CountWhereOfPermutation(all, cards, OfTier(3));
    assert |all| == |multiset(all)| == |cards|;
  }

  /** The head of the ranking is the first card of largest value, and none is larger. */
  lemma RankedHighest(all: seq<Card>, cards: seq<Card>)
    requires all == SortDesc(cards)
    ensures all == [] <==> cards == []
    ensures all != [] ==> all[0] == cards[FirstMaxIndex(cards)]
    ensures all != [] ==> forall c :: c in cards ==> c.value <= all[0].value
  {
    SortDescFacts(cards);
    if cards != [] {
      SortDescHead(cards);
      forall c | c in cards ensures c.value <= all[0].value {
        assert c in multiset(all);
        var i :| 0 <= i < |all| && all[i] == c;
      }
    } else {
      assert |all| == |multiset(all)| == 0;
    }
  }

  /** The first six of a sorted arrangement are its largest cards. */
  lemma TopCardsFacts(all: seq<Card>, cards: seq<Card>)
    requires SortedDesc(all) && multiset(all) == multiset(cards)
    ensures var top := Take(all, 6);
      && SortedDesc(top)
      && (forall c :: c in top ==> c in cards)
      && (forall c :: c in cards && c !in top ==> forall k :: 0 <= k < |top| ==> top[k].value >= c.value)
  {
    var top := Take(all, 6);
    forall c | c in top ensures c in cards {
      assert c in multiset(all);
    }
    forall c | c in cards && c !in top ensures forall k :: 0 <= k < |top| ==> top[k].value >= c.value {
      assert c in multiset(all);
      var i :| 0 <= i < |all| && all[i] == c;
      assert i >= |top|;
    }
  }

  /** The dominant suits are the highlights of the board and queue cards, whatever their order. */
  lemma DominantSuitsFacts(columns: seq<Column>, queue: seq<Card>)
    ensures var r := EvaluateFortune(columns, queue);
      var cards := Flatten(columns) + queue;
      var h := r.dominantSuits;
      && |h| <= 4
      && DistinctSuits(h)
      && ByCountDesc(h)
      && (forall k :: 0 <= k < |h| ==> h[k].count == CountSuit(cards, h[k].suitId) > 0)
      && (forall s :: CountSuit(cards, s) > 0 && (forall k :: 0 <= k < |h| ==> h[k].suitId != s) ==>
            |h| == 4 && forall k :: 0 <= k < 4 ==> h[k].count >= CountSuit(cards, s))
  {
    var cards := Flatten(columns) + queue;
    var all := RankedCards(columns, queue);
    RankedCardsFacts(columns, queue);
    HighlightsFacts(all);
    HighlightsTopFour(all);
    forall s ensures CountSuit(all, s) == CountSuit(cards, s) {
      CountWhereOfPermutation(all, cards, OfSuit(s));
    }
  }
}
