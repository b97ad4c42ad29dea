// Card, column and luck-attribute types shared by every part of the card engine
// (src/types.ts), and the few sequence facts about cards that several parts use.

module Cards {

  datatype Option<T> = None | Some(value: T)

  /** Luck depth of a card: 1 = everyday, 2 = symbolic, 3 = great fortune. */
  type Tier = t: int | 1 <= t <= 3 witness 1

  /** The fifteen suits; the catalog in LuckConfig gives each one a tier. */
  datatype SuitId =
    | Growth | Stagnation | Sprout | Change | Decline
    | Love | Wealth | Completion | Happiness | Will
    | DestinyLove | DestinyWealth | DestinyHappiness | DestinyInsight | DestinyDecision

  datatype Luck = Luck(tier: Tier, suit: SuitId)

  /** A card never changes once created. The display colour is a function of the value. */
  datatype Card = Card(id: nat, value: int, tier: Tier, suit: SuitId)

  /** A column holds its cards bottom (index 0) to top (last index). */
  datatype Column = Column(id: int, cards: seq<Card>)

  /**
   * The luck attributes given to the card created with a fresh id. Card creation in the
   * source draws ids from the clock and the ambient random source; here a counter supplies
   * the ids and this function stands for whatever luck the caller rolls for them.
   */
  type Minter = nat -> Luck

  function Mint(id: nat, value: int, mint: Minter): (c: Card)
    ensures c.id == id && c.value == value
  {
    Card(id, value, mint(id).tier, mint(id).suit)
  }

  /** Sum of the card values. */
  function Sum(cards: seq<Card>): int
  {
    if cards == [] then 0 else cards[0].value + Sum(cards[1..])
  }

  lemma {:induction false} SumAppend(a: seq<Card>, b: seq<Card>)
    ensures Sum(a + b) == Sum(a) + Sum(b)
  {
    if a == [] {
      assert a + b == b;
    } else {
      assert (a + b)[1..] == a[1..] + b;
      SumAppend(a[1..], b);
    }
  }

  /** Two sequences with the same multiset of cards have the same value sum. */
  lemma {:induction false} SumOfPermutation(a: seq<Card>, b: seq<Card>)
    requires multiset(a) == multiset(b)
    ensures Sum(a) == Sum(b)
  {
    if a != [] {
      var x := a[0];
      assert x in multiset(b);
      var i :| 0 <= i < |b| && b[i] == x;
      var rest := b[..i] + b[i + 1..];
      MultisetRemove(a, b, i);
      assert b == b[..i] + ([x] + b[i + 1..]);
      SumOfPermutation(a[1..], rest);
      SumAppend(b[..i], [x] + b[i + 1..]);
      SumAppend([x], b[i + 1..]);
      SumAppend(b[..i], b[i + 1..]);
    } else {
      assert |b| == |multiset(b)| == 0;
    }
  }

  /** Removing the first element of a, and an equal element of b, keeps the multisets equal. */
  lemma MultisetRemove<T>(a: seq<T>, b: seq<T>, i: int)
    requires multiset(a) == multiset(b) && a != [] && 0 <= i < |b| && b[i] == a[0]
    ensures multiset(a[1..]) == multiset(b[..i] + b[i + 1..])
  {
    var x := a[0];
    assert b == b[..i] + [x] + b[i + 1..];
    assert a == [x] + a[1..];
    calc {
      multiset(a[1..]);
      multiset(a) - multiset{x};
      multiset(b) - multiset{x};
      multiset(b[..i]) + multiset(b[i + 1..]);
      multiset(b[..i] + b[i + 1..]);
    }
  }

  /** Number of cards of the given value. */
  function CountValue(cards: seq<Card>, v: int): nat
  {
    if cards == [] then 0
    else (if cards[0].value == v then 1 else 0) + CountValue(cards[1..], v)
  }

  lemma {:induction false} CountValueAppend(a: seq<Card>, b: seq<Card>, v: int)
    ensures CountValue(a + b, v) == CountValue(a, v) + CountValue(b, v)
  {
    if a == [] {
      assert a + b == b;
    } else {
      assert (a + b)[1..] == a[1..] + b;
      CountValueAppend(a[1..], b, v);
    }
  }

  lemma {:induction false} CountValueOfPermutation(a: seq<Card>, b: seq<Card>, v: int)
    requires multiset(a) == multiset(b)
    ensures CountValue(a, v) == CountValue(b, v)
  {
    if a != [] {
      var x := a[0];
      assert x in multiset(b);
      var i :| 0 <= i < |b| && b[i] == x;
      var rest := b[..i] + b[i + 1..];
      MultisetRemove(a, b, i);
      assert b == b[..i] + ([x] + b[i + 1..]);
      CountValueOfPermutation(a[1..], rest, v);
      CountValueAppend(b[..i], [x] + b[i + 1..], v);
      CountValueAppend([x], b[i + 1..], v);
      CountValueAppend(b[..i], b[i + 1..], v);
    } else {
      assert |b| == |multiset(b)| == 0;
    }
  }

  /** All cards of all columns, column by column, each bottom to top. */
  function Flatten(columns: seq<Column>): seq<Card>
  {
    if columns == [] then [] else columns[0].cards + Flatten(columns[1..])
  }

  lemma {:induction false} FlattenAppend(a: seq<Column>, b: seq<Column>)
    ensures Flatten(a + b) == Flatten(a) + Flatten(b)
  {
    if a == [] {
      assert a + b == b;
    } else {
      assert (a + b)[1..] == a[1..] + b;
      FlattenAppend(a[1..], b);
    }
  }

  /** The card ids, in order. */
  function Ids(cards: seq<Card>): (r: seq<nat>)
    ensures |r| == |cards| && forall k :: 0 <= k < |cards| ==> r[k] == cards[k].id
  {
    if cards == [] then [] else [cards[0].id] + Ids(cards[1..])
  }

  predicate DistinctIds(cards: seq<Card>)
  {
    forall i, j :: 0 <= i < j < |cards| ==> cards[i].id != cards[j].id
  }

  /** Every id is below the next fresh id. */
  predicate IdsBelow(cards: seq<Card>, bound: nat)
  {
    forall c :: c in cards ==> c.id < bound
  }

  // ---------------------------------------------------------------------------
  // Sorting by value, largest first (Array.prototype.sort with (a, b) => b.value - a.value,
  // which is a stable sort).

  predicate SortedDesc(cards: seq<Card>)
  {
    forall i, j :: 0 <= i < j < |cards| ==> cards[i].value >= cards[j].value
  }

  /** Insert c in front of the first card that is not larger than it. */
  function Insert(c: Card, s: seq<Card>): seq<Card>
  {
    if s == [] || s[0].value <= c.value then [c] + s else [s[0]] + Insert(c, s[1..])
  }

  /** Stable insertion sort, largest value first. */
  function SortDesc(cards: seq<Card>): seq<Card>
  {
    if cards == [] then [] else Insert(cards[0], SortDesc(cards[1..]))
  }

  lemma {:induction false} InsertPermutes(c: Card, s: seq<Card>)
    ensures multiset(Insert(c, s)) == multiset(s) + multiset{c}
    ensures |Insert(c, s)| == |s| + 1
  {
    if s != [] && s[0].value > c.value {
      InsertPermutes(c, s[1..]);
      assert s == [s[0]] + s[1..];
    }
  }

  /** Every card of the insertion is the inserted card or a card of s. */
  lemma {:induction false} InsertMembers(c: Card, s: seq<Card>)
    ensures forall x :: x in Insert(c, s) <==> x == c || x in s
  {
    if s != [] && s[0].value > c.value {
      InsertMembers(c, s[1..]);
      assert s == [s[0]] + s[1..];
    }
  }

  lemma {:induction false} InsertSorted(c: Card, s: seq<Card>)
    requires SortedDesc(s)
    ensures SortedDesc(Insert(c, s))
  {
    if s != [] && s[0].value > c.value {
      var t := Insert(c, s[1..]);
      InsertSorted(c, s[1..]);
      InsertMembers(c, s[1..]);
      assert forall x :: x in s[1..] ==> x.value <= s[0].value;
      assert forall k :: 0 <= k < |t| ==> t[k] in t;
      var r := [s[0]] + t;
      forall i, j | 0 <= i < j < |r| ensures r[i].value >= r[j].value {
        assert r[j] == t[j - 1];
        if i > 0 {
          assert r[i] == t[i - 1];
        }
      }
    }
  }

  lemma {:induction false} SortDescFacts(cards: seq<Card>)
    ensures SortedDesc(SortDesc(cards))
    ensures multiset(SortDesc(cards)) == multiset(cards)
    ensures |SortDesc(cards)| == |cards|
  {
    if cards != [] {
      SortDescFacts(cards[1..]);
      InsertPermutes(cards[0], SortDesc(cards[1..]));
      InsertSorted(cards[0], SortDesc(cards[1..]));
      assert cards == [cards[0]] + cards[1..];
    }
  }

  /** Index of the first card with the largest value. */
  function FirstMaxIndex(cards: seq<Card>): (k: nat)
    requires cards != []
    ensures k < |cards|
    ensures forall j :: 0 <= j < |cards| ==> cards[j].value <= cards[k].value
    ensures forall j :: 0 <= j < k ==> cards[j].value < cards[k].value
  {
    if |cards| == 1 then 0
    else
      var k := FirstMaxIndex(cards[1..]);
      if cards[0].value >= cards[k + 1].value then 0 else k + 1
  }

  /**
   * Because the sort is stable, the first card of the sorted sequence is the first card
   * of the input that has the largest value.
   */
  lemma {:induction false} SortDescHead(cards: seq<Card>)
    requires cards != []
    ensures SortDesc(cards)[0] == cards[FirstMaxIndex(cards)]
  {
    SortDescFacts(cards);
    if |cards| == 1 {
    } else {
      var rest := cards[1..];
      var s := SortDesc(rest);
      SortDescHead(rest);
      SortDescFacts(rest);
      var k := FirstMaxIndex(rest);
      assert s[0] == rest[k];
      if cards[0].value >= rest[k].value {
        assert FirstMaxIndex(cards) == 0;
      } else {
        assert FirstMaxIndex(cards) == k + 1;
      }
    }
  }
}
