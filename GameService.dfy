// The game orchestrator (src/logic/GameService.ts): moves, undo and trash as the input
// layer calls them, the animated merge loop of a column, and the game-over evaluation that
// feeds the UI store. The service works on both stores; timers and delays are dropped, so
// the merge loop runs to its end in one call.

module GameService {
  import opened Cards
  import opened Draws
  import opened GameLogic
  import opened GameState
  import opened UIState

  // ---------------------------------------------------------------------------
  // Game-over evaluation

  /** The first column holding ColumnLimit or more cards. */
  function FirstOverflow(columns: seq<Column>): (r: Option<nat>)
    ensures r.None? <==> !HasOverflow(columns)
    ensures r.Some? ==> r.value < |columns| && |columns[r.value].cards| >= ColumnLimit
                        && forall i :: 0 <= i < r.value ==> |columns[i].cards| < ColumnLimit
  {
    if columns == [] then None
    else if |columns[0].cards| >= ColumnLimit then Some(0)
    else match FirstOverflow(columns[1..])
      case None =>
        assert forall i :: 1 <= i < |columns| ==> columns[i] == columns[1..][i - 1];
        None
      case Some(k) => Some(k + 1)
  }

  /**
   * checkGameOver as the service reads it: overflow first (naming the first full column),
   * then an exhausted deck and queue, then a deadlock; the first reason that applies is the
   * only one reported. Its verdict is the store's checkGameOver.
   */
  function EvaluateGameOver(columns: seq<Column>, queue: seq<Card>, deck: seq<Card>, trashCount: int)
    : (e: GameOverEvaluation)
    ensures e.isGameOver <==> CheckGameOver(columns, queue, deck, trashCount)
    ensures e.isGameOver <==> e.reason.Some?
    ensures e.reason == Some(Overflow) <==> HasOverflow(columns)
    ensures e.reason == Some(DeckEmpty) <==> !HasOverflow(columns) && deck == [] && queue == []
    ensures e.reason == Some(Deadlock) <==>
      && !HasOverflow(columns) && !(deck == [] && queue == [])
      && queue != [] && NoValidMoves(queue[|queue| - 1], columns) && trashCount == 0
    ensures e.triggerColumnId.Some? <==> e.reason == Some(Overflow)
    ensures e.triggerColumnId.Some? ==>
      exists j :: 0 <= j < |columns| && columns[j].id == e.triggerColumnId.value
                  && |columns[j].cards| >= ColumnLimit
                  && forall i :: 0 <= i < j ==> |columns[i].cards| < ColumnLimit
  {
    match FirstOverflow(columns)
    case Some(j) => GameOverEvaluation(true, Some(columns[j].id), Some(Overflow))
    case None =>
      if deck == [] && queue == [] then GameOverEvaluation(true, None, Some(DeckEmpty))
      else if queue != [] && NoValidMoves(queue[|queue| - 1], columns) && trashCount == 0 then
        GameOverEvaluation(true, None, Some(Deadlock))
      else GameOverEvaluation(false, None, None)
  }

  // ---------------------------------------------------------------------------
  // The service's transitions on the board

  /**
   * moveCardFromQueue of the service: the guards read the UI store; there is no check of
   * the column limit and no game-over evaluation here. The second component says whether
   * the merge of the target column was scheduled.
   */
  function ServiceMove(b: Board, isAnimating: bool, isGameOver: bool, toColumnId: int): (Board, bool)
  {
    if isAnimating || isGameOver || b.queue == [] then (b, false)
    else match FindColumn(b.columns, toColumnId)
      case None => (b, false)
      case Some(j) =>
        if !CanPlaceCard(b.queue[|b.queue| - 1], b.columns[j]) then (b, false)
        else (Placed(b, toColumnId), true)
  }

  /**
   * A move changes the board exactly when it is legal, and then it puts the right-most
   * queue card on top of the target column only, refills the queue from the deck (keeping
   * its length while the deck has cards), pushes the pre-move snapshot onto a history of at
   * most two, keeps every card, the score and the budgets, and keeps the store invariant.
   */
  lemma ServiceMoveFacts(b: Board, isAnimating: bool, isGameOver: bool, toColumnId: int)
    requires DistinctColumnIds(b.columns)
    ensures var r := ServiceMove(b, isAnimating, isGameOver, toColumnId).0;
      var scheduled := ServiceMove(b, isAnimating, isGameOver, toColumnId).1;
      && (scheduled <==>
            && !isAnimating && !isGameOver && b.queue != [] && FindColumn(b.columns, toColumnId).Some?
            && CanPlaceCard(b.queue[|b.queue| - 1], b.columns[FindColumn(b.columns, toColumnId).value]))
      && (!scheduled ==> r == b)
      && (scheduled ==> r == Placed(b, toColumnId))
      && AllCards(r.columns, r.queue, r.deck) == AllCards(b.columns, b.queue, b.deck)
      && r.score == b.score && r.undoCount == b.undoCount && r.trashCount == b.trashCount
      && (BoardInvariant(b) ==> BoardInvariant(r))
  {
    if ServiceMove(b, isAnimating, isGameOver, toColumnId).1 {
      PlacedConserves(b, toColumnId);
      if BoardInvariant(b) {
        PlacedKeepsInvariant(b, toColumnId);
      }
    }
  }

  /**
   * A placement puts the right-most queue card on top of the target column only, refills
   * the queue from the deck (keeping its length while the deck has cards) and pushes the
   * pre-move snapshot onto a history of at most two.
   */
  lemma PlacedShape(b: Board, toColumnId: int)
    requires b.queue != []
    ensures var r := Placed(b, toColumnId);
      && |r.columns| == |b.columns|
      && (forall j :: 0 <= j < |b.columns| && b.columns[j].id != toColumnId ==> r.columns[j] == b.columns[j])
      && (forall j :: 0 <= j < |b.columns| && b.columns[j].id == toColumnId ==>
            r.columns[j] == Column(toColumnId, b.columns[j].cards + [b.queue[|b.queue| - 1]]))
      && (b.deck != [] ==> |r.queue| == |b.queue| && r.queue[0] == b.deck[|b.deck| - 1])
      && |r.history| <= HistoryLimit && r.history[0] == Snapshot(b.columns, b.queue, b.deck, b.score)
  {
    PlaceOnColumnShape(b.columns, toColumnId, b.queue[|b.queue| - 1]);
    RefillConserves(b.queue, b.deck);
  }

  /**
   * The service and the store agree on a move into a column with room: the same board
   * results, and whenever the store schedules a merge so does the service. The service
   * never ends the game on a move.
   */
  lemma ServiceMoveMatchesStore(b: Board, isAnimating: bool, toColumnId: int)
    requires b.queue != [] && FindColumn(b.columns, toColumnId).Some?
    requires |b.columns[FindColumn(b.columns, toColumnId).value].cards| < ColumnLimit
    ensures var s := StoreMove(b, isAnimating, false, toColumnId);
      && ServiceMove(b, isAnimating, false, toColumnId).0 == s.board
      && (s.mergeScheduled ==> ServiceMove(b, isAnimating, false, toColumnId).1)
  {
  }

  /**
   * Unlike the store, the service places a fitting card on a column that already holds
   * ColumnLimit cards or more; the column then exceeds the limit and the store would have
   * refused the move and ended the game.
   */
  lemma ServiceFillsFullColumn(b: Board, toColumnId: int)
    requires DistinctColumnIds(b.columns) && b.queue != [] && FindColumn(b.columns, toColumnId).Some?
    requires var target := b.columns[FindColumn(b.columns, toColumnId).value];
      CanPlaceCard(b.queue[|b.queue| - 1], target) && |target.cards| >= ColumnLimit
    ensures var j := FindColumn(b.columns, toColumnId).value;
      && ServiceMove(b, false, false, toColumnId).1
      && |ServiceMove(b, false, false, toColumnId).0.columns| == |b.columns|
      && |ServiceMove(b, false, false, toColumnId).0.columns[j].cards| > ColumnLimit
      && StoreMove(b, false, false, toColumnId) == MoveResult(b, true, false)
  {
    ServiceMoveFacts(b, false, false, toColumnId);
    PlacedShape(b, toColumnId);
  }

  /** undo of the service: nothing without an undo left or a snapshot, else restore the head snapshot. */
  function ServiceUndo(b: Board): Board
  {
    if b.undoCount == 0 || |b.history| == 0 then b
    else
      var saved := b.history[0];
      b.(columns := saved.columns, queue := saved.queue, deck := saved.deck, score := saved.score,
         history := b.history[1..], undoCount := b.undoCount - 1)
  }

  /**
   * With a non-negative undo budget (as the store invariant keeps it) the service's undo
   * is the store's; undoing a legal move restores the board and score before it.
   */
  lemma ServiceUndoFacts(b: Board, toColumnId: int)
    ensures b.undoCount >= 0 ==> ServiceUndo(b) == StoreUndo(b)
    ensures BoardInvariant(b) ==> BoardInvariant(ServiceUndo(b))
    ensures b.undoCount > 0 && ServiceMove(b, false, false, toColumnId).1 ==>
      var r := ServiceUndo(ServiceMove(b, false, false, toColumnId).0);
      && r.columns == b.columns && r.queue == b.queue && r.deck == b.deck && r.score == b.score
      && r.undoCount == b.undoCount - 1 && r.history == b.history[..if b.history == [] then 0 else 1]
  {
    if BoardInvariant(b) {
      StoreUndoFacts(b);
    }
    if b.undoCount > 0 && ServiceMove(b, false, false, toColumnId).1 {
      var moved := ServiceMove(b, false, false, toColumnId).0;
      assert moved == Placed(b, toColumnId);
      assert ServiceUndo(moved) == StoreUndo(moved);
    }
  }

  /** trashCard of the service: nothing without a trash left or on an empty queue. */
  function ServiceTrash(b: Board): Board
  {
    if b.trashCount == 0 || |b.queue| == 0 then b
    else
      var (q, d) := Refill(b.queue, b.deck);
      b.(queue := q, deck := d, trashCount := b.trashCount - 1)
  }

  /**
   * With a non-negative trash budget the service's trash is the store's: it loses exactly
   * the right-most queue card, spends one trash and keeps the store invariant.
   */
  lemma ServiceTrashFacts(b: Board)
    ensures b.trashCount >= 0 ==> ServiceTrash(b) == StoreTrash(b)
    ensures BoardInvariant(b) ==> BoardInvariant(ServiceTrash(b))
    ensures b.trashCount > 0 && b.queue != [] ==>
      var r := ServiceTrash(b);
      && AllCards(r.columns, r.queue, r.deck) + multiset{b.queue[|b.queue| - 1]} == AllCards(b.columns, b.queue, b.deck)
      && r.trashCount == b.trashCount - 1 && r.columns == b.columns && r.score == b.score
      && r.history == b.history && r.undoCount == b.undoCount
  {
    StoreTrashFacts(b);
  }

  // ---------------------------------------------------------------------------
  // The service's merge loop

  /** Every card has a positive value, as every card of the game does. */
  predicate Positive(s: seq<Card>)
  {
    forall i :: 0 <= i < |s| ==> s[i].value > 0
  }

  /** processMergeWithAnimation's loop on one column: chain-merge while the step gains something. */
  function ServiceResolve(s: seq<Card>, nextId: nat, mint: Minter): Merge
    decreases |s|
  {
    var m := ChainMerged(s, nextId, mint);
    if m.gain > 0 then
      ChainMergeShape(s, nextId, mint);
      var r := ServiceResolve(m.cards, m.nextId, mint);
      Merge(r.cards, m.gain + r.gain, r.nextId, true)
    else Merge(s, 0, nextId, false)
  }

  /** The ids the animated loop marks and unmarks, round after round: each round's merging pair. */
  function ServiceMarked(s: seq<Card>, nextId: nat, mint: Minter): seq<nat>
    decreases |s|
  {
    var m := ChainMerged(s, nextId, mint);
    if m.gain > 0 then
      ChainMergeShape(s, nextId, mint);
      MergingPair(s) + ServiceMarked(m.cards, m.nextId, mint)
    else []
  }

  /** A merge of positive cards creates a positive card. */
  lemma ChainMergeKeepsPositive(s: seq<Card>, nextId: nat, mint: Minter)
    requires Positive(s)
    ensures Positive(ChainMerged(s, nextId, mint).cards)
  {
    ChainMergeShape(s, nextId, mint);
    var m := ChainMerged(s, nextId, mint);
    if m.changed {
      var k := FirstPair(s).value;
      forall i | 0 <= i < |m.cards| ensures m.cards[i].value > 0 {
        if i < k {
          assert m.cards[i] == m.cards[..k][i];
        } else if i > k {
          assert m.cards[i] == m.cards[k + 1..][i - k - 1];
        }
      }
    }
  }

  /** A round that gains shortens the column, and the loop goes on from what it leaves. */
  lemma ServiceResolveStep(s: seq<Card>, nextId: nat, mint: Minter)
    ensures var m := ChainMerged(s, nextId, mint);
      m.gain > 0 ==>
        var r := ServiceResolve(m.cards, m.nextId, mint);
        && |m.cards| < |s|
        && ServiceResolve(s, nextId, mint) == Merge(r.cards, m.gain + r.gain, r.nextId, true)
  {
    ChainMergeShape(s, nextId, mint);
  }

  /**
   * The loop keeps the value sum and never loses score; on positive cards it ends with no
   * equal adjacent pair and is exactly the store's merge loop.
   */
  lemma {:induction false} ServiceResolveFacts(s: seq<Card>, nextId: nat, mint: Minter)
    ensures var r := ServiceResolve(s, nextId, mint);
      && Sum(r.cards) == Sum(s) && r.gain >= 0
      && (Positive(s) ==> Settled(r.cards) && r == StoreResolve(s, nextId, mint))
    decreases |s|
  {
    var m := ChainMerged(s, nextId, mint);
    ChainMergeShape(s, nextId, mint);
    ChainMergeKeepsSum(s, nextId, mint);
    if m.gain > 0 {
      ServiceResolveFacts(m.cards, m.nextId, mint);
      if Positive(s) {
        ChainMergeKeepsPositive(s, nextId, mint);
      }
    }
  }

  /** A pass over cards whose only equal adjacent pair is the top two merges just that pair. */
  lemma {:induction false} TopPairPassShape(s: seq<Card>, nextId: nat, mint: Minter)
    requires |s| >= 2 && NoPairBelow(s, |s| - 2) && s[|s| - 2].value == s[|s| - 1].value
    ensures var v := 2 * s[|s| - 2].value;
      MergePass(s, nextId, mint) == Merge(s[..|s| - 2] + [Mint(nextId, v, mint)], v, nextId + 1, true)
    decreases |s|
  {
    var v := 2 * s[|s| - 2].value;
    var c := Mint(nextId, v, mint);
    if |s| == 2 {
      assert s[2..] == [];
      assert MergePass(s[2..], nextId + 1, mint) == Merge([], 0, nextId + 1, false);
    } else {
      assert s[0].value != s[1].value;
      var t := s[1..];
      assert NoPairBelow(t, |t| - 2) by {
        forall i | 0 <= i < |t| - 2 && i + 1 < |t| ensures t[i].value != t[i + 1].value {
          assert t[i] == s[i + 1] && t[i + 1] == s[i + 2];
        }
      }
      assert t[|t| - 2] == s[|s| - 2] && t[|t| - 1] == s[|s| - 1];
      TopPairPassShape(t, nextId, mint);
      assert MergePass(t, nextId, mint) == Merge(t[..|t| - 2] + [c], v, nextId + 1, true);
      assert [s[0]] + (t[..|t| - 2] + [c]) == s[..|s| - 2] + [c];
    }
  }

  /**
   * With no equal adjacent pair below the top two cards, one pass of the batch merge is the
   * single-step merge.
   */
  lemma TopPairPass(s: seq<Card>, nextId: nat, mint: Minter)
    requires |s| >= 2 && NoPairBelow(s, |s| - 2)
    ensures MergePass(s, nextId, mint) == ChainMerged(s, nextId, mint)
  {
    var k := |s| - 2;
    ChainMergeShape(s, nextId, mint);
    MergePassFacts(s, nextId, mint);
    if s[k].value == s[k + 1].value {
      FirstPairAt(s, k);
      TopPairPassShape(s, nextId, mint);
      assert s[k + 2..] == [];
      assert ChainMerged(s, nextId, mint).cards == s[..k] + [Mint(nextId, 2 * s[k].value, mint)] + s[k + 2..];
    } else {
      assert Settled(s);
    }
  }

  /**
   * The single-pair case of the merge equivalence: when the only equal adjacent pair can be
   * the top two cards (in particular right after a card lands on a settled column) and the
   * cards are positive, the animated loop and the batch merge give the same cards, the same
   * total score and the same ids.
   */
  lemma {:induction false} TopPairResolvesAlike(s: seq<Card>, nextId: nat, mint: Minter)
    requires Positive(s) && NoPairBelow(s, |s| - 2)
    ensures ServiceResolve(s, nextId, mint) == AllMerges(s, nextId, mint)
    decreases |s|
  {
    ChainMergeShape(s, nextId, mint);
    if Settled(s) {
      AllMergesFacts(s, nextId, mint);
      assert ServiceResolve(s, nextId, mint) == Merge(s, 0, nextId, false);
    } else {
      var m := ChainMerged(s, nextId, mint);
      TopPairMerged(s, nextId, mint);
      if |m.cards| >= 2 {
        TopPairResolvesAlike(m.cards, m.nextId, mint);
      } else {
        ChainMergeShape(m.cards, m.nextId, mint);
      }
    }
  }

  /**
   * One step of TopPairResolvesAlike: both resolutions start with the same merge of the top
   * pair, which leaves positive cards whose only possible pair is again the top two.
   */
  lemma TopPairMerged(s: seq<Card>, nextId: nat, mint: Minter)
    requires Positive(s) && NoPairBelow(s, |s| - 2) && !Settled(s)
    ensures var m := ChainMerged(s, nextId, mint);
      && m.gain > 0 && Positive(m.cards) && NoPairBelow(m.cards, |m.cards| - 2)
      && MergePass(s, nextId, mint) == m
      && (var r := ServiceResolve(m.cards, m.nextId, mint);
          ServiceResolve(s, nextId, mint) == Merge(r.cards, m.gain + r.gain, r.nextId, true))
      && (|m.cards| >= 2 ==>
            var q := AllMerges(m.cards, m.nextId, mint);
            AllMerges(s, nextId, mint) == Merge(q.cards, m.gain + q.gain, q.nextId, true))
      && (|m.cards| < 2 ==> AllMerges(s, nextId, mint) == m)
  {
    var m := ChainMerged(s, nextId, mint);
    TopPairMergedCards(s, nextId, mint);
    var r := ServiceResolve(m.cards, m.nextId, mint);
    assert ServiceResolve(s, nextId, mint) == Merge(r.cards, m.gain + r.gain, r.nextId, true);
  }

  /** The merge of the top pair gains, keeps the cards positive and leaves no pair below the top. */
  lemma TopPairMergedCards(s: seq<Card>, nextId: nat, mint: Minter)
    requires Positive(s) && NoPairBelow(s, |s| - 2) && !Settled(s)
    ensures var m := ChainMerged(s, nextId, mint);
      && m.changed && m.gain > 0 && Positive(m.cards) && NoPairBelow(m.cards, |m.cards| - 2)
      && MergePass(s, nextId, mint) == m
  {
    var m := ChainMerged(s, nextId, mint);
    ChainMergeShape(s, nextId, mint);
    var k := FirstPair(s).value;
    assert k == |s| - 2;
    TopPairPass(s, nextId, mint);
    ChainMergeKeepsPositive(s, nextId, mint);
    var t := m.cards;
    forall i | 0 <= i < |t| - 2 && i + 1 < |t| ensures t[i].value != t[i + 1].value {
      assert t[..k][i] == t[i] && t[..k][i + 1] == t[i + 1];
    }
  }

  /** A card placed on a settled column of positive cards resolves alike both ways. */
  lemma PlacementResolvesAlike(column: seq<Card>, card: Card, nextId: nat, mint: Minter)
    requires Settled(column) && Positive(column + [card])
    ensures ServiceResolve(column + [card], nextId, mint) == AllMerges(column + [card], nextId, mint)
  {
    var s := column + [card];
    assert NoPairBelow(s, |s| - 2) by {
      forall i | 0 <= i < |s| - 2 && i + 1 < |s| ensures s[i].value != s[i + 1].value {
        assert s[i] == column[i] && s[i + 1] == column[i + 1];
      }
    }
    TopPairResolvesAlike(s, nextId, mint);
  }

  /**
   * Beyond the single-pair case the two resolutions differ: from 2, 2, 4, 4 (bottom to top)
   * the animated loop merges the bottom pair first and stops at 8, 4, while the batch merge
   * merges both pairs in one pass and stops at 4, 8.
   */
  lemma ResolutionsDifferInGeneral(mint: Minter)
    ensures var s := [Mint(0, 2, mint), Mint(1, 2, mint), Mint(2, 4, mint), Mint(3, 4, mint)];
      && |ServiceResolve(s, 4, mint).cards| == 2
      && ServiceResolve(s, 4, mint).cards[0].value == 8 && ServiceResolve(s, 4, mint).cards[1].value == 4
      && |AllMerges(s, 4, mint).cards| == 2
      && AllMerges(s, 4, mint).cards[0].value == 4 && AllMerges(s, 4, mint).cards[1].value == 8
  {
    var s := [Mint(0, 2, mint), Mint(1, 2, mint), Mint(2, 4, mint), Mint(3, 4, mint)];
    FirstPairAt(s, 0);
    var s1 := [Mint(4, 4, mint), Mint(2, 4, mint), Mint(3, 4, mint)];
    assert ChainMerged(s, 4, mint) == Merge(s1, 4, 5, true);
    FirstPairAt(s1, 0);
    var s2 := [Mint(5, 8, mint), Mint(3, 4, mint)];
    assert ChainMerged(s1, 5, mint) == Merge(s2, 8, 6, true);
    assert Settled(s2);
    assert ChainMerged(s2, 6, mint) == Merge(s2, 0, 6, false);
    assert ServiceResolve(s2, 6, mint) == Merge(s2, 0, 6, false);
    assert ServiceResolve(s1, 5, mint) == Merge(s2, 8, 6, true);
    assert ServiceResolve(s, 4, mint) == Merge(s2, 12, 6, true);

    var p := [Mint(4, 4, mint), Mint(5, 8, mint)];
    assert MergePass(s[2..], 5, mint) == Merge([Mint(5, 8, mint)], 8, 6, true) by {
      assert s[2..][2..] == [];
    }
    assert MergePass(s, 4, mint) == Merge(p, 12, 6, true);
    assert MergePass(p, 6, mint) == Merge(p, 0, 6, false) by {
      assert p[1..][1..] == [];
    }
    assert AllMerges(p, 6, mint) == Merge(p, 0, 6, false);
    assert AllMerges(s, 4, mint) == Merge(p, 12, 6, true);
  }

  // ---------------------------------------------------------------------------
  // The service on the two stores

  /** columns.map(col => col.id === id ? { ...col, cards } : col) */
  function SetColumnCards(columns: seq<Column>, id: int, cards: seq<Card>): seq<Column>
  {
    if columns == [] then []
    else [if columns[0].id == id then Column(id, cards) else columns[0]] + SetColumnCards(columns[1..], id, cards)
  }

  /** With distinct column ids, replacing the cards of a column touches that column only and keeps every id. */
  lemma SetColumnCardsAt(columns: seq<Column>, id: int, cards: seq<Card>)
    requires DistinctColumnIds(columns) && FindColumn(columns, id).Some?
    ensures var j := FindColumn(columns, id).value;
      && SetColumnCards(columns, id, cards) == columns[j := Column(id, cards)]
      && DistinctColumnIds(columns[j := Column(id, cards)])
      && FindColumn(columns[j := Column(id, cards)], id) == Some(j)
  {
    SetColumnCardsReplaces(columns, id, cards);
    ReplacedColumnFound(columns, id, cards, FindColumn(columns, id).value);
  }

  /** The map replaces exactly the first column with that id, when ids are distinct. */
  lemma {:induction false} SetColumnCardsReplaces(columns: seq<Column>, id: int, cards: seq<Card>)
    requires DistinctColumnIds(columns) && FindColumn(columns, id).Some?
    ensures SetColumnCards(columns, id, cards) == columns[FindColumn(columns, id).value := Column(id, cards)]
  {
    var j := FindColumn(columns, id).value;
    var t := columns[1..];
    if j > 0 {
      assert DistinctColumnIds(t) by {
        forall a, b | 0 <= a < b < |t| ensures t[a].id != t[b].id {
          assert t[a] == columns[a + 1] && t[b] == columns[b + 1];
        }
      }
      assert FindColumn(t, id) == Some(j - 1);
      SetColumnCardsReplaces(t, id, cards);
      assert columns[j := Column(id, cards)] == [columns[0]] + t[j - 1 := Column(id, cards)];
    } else {
      assert forall k :: 0 <= k < |t| ==> t[k].id != id by {
        forall k | 0 <= k < |t| ensures t[k].id != id {
          assert t[k] == columns[k + 1];
        }
      }
      SetColumnCardsAbsent(t, id, cards);
      assert columns[0 := Column(id, cards)] == [Column(id, cards)] + t;
    }
  }

  /** Putting new cards in column j keeps the ids distinct, and the column is found at j again. */
  lemma ReplacedColumnFound(columns: seq<Column>, id: int, cards: seq<Card>, j: nat)
    requires DistinctColumnIds(columns) && FindColumn(columns, id) == Some(j)
    ensures DistinctColumnIds(columns[j := Column(id, cards)])
    ensures FindColumn(columns[j := Column(id, cards)], id) == Some(j)
  {
    var r := columns[j := Column(id, cards)];
    assert r[j].id == id;
    var i := FindColumn(r, id).value;
    assert !(i < j) && !(j < i);
  }

  /** Replacing the cards of a column that is not there changes nothing. */
  lemma {:induction false} SetColumnCardsAbsent(columns: seq<Column>, id: int, cards: seq<Card>)
    requires forall k :: 0 <= k < |columns| ==> columns[k].id != id
    ensures SetColumnCards(columns, id, cards) == columns
  {
    if columns != [] {
      SetColumnCardsAbsent(columns[1..], id, cards);
      assert columns == [columns[0]] + columns[1..];
    }
  }

  /** GameService.moveCardFromQueue; returns whether the merge of the target column was scheduled. */
  method MoveCardFromQueue(store: GameStore, ui: UIStore, toColumnId: int) returns (mergeScheduled: bool)
    requires store.Valid()
    modifies store
    ensures store.Valid()
    ensures var r := ServiceMove(old(store.Current()), ui.isAnimating, ui.isGameOver, toColumnId);
      store.Current() == r.0 && mergeScheduled == r.1
    ensures store.isAnimating == old(store.isAnimating) && store.animatingCards == old(store.animatingCards)
    ensures store.isGameOver == old(store.isGameOver) && store.nextId == old(store.nextId)
    ensures store.time == old(store.time)
  {
    ServiceMoveFacts(store.Current(), ui.isAnimating, ui.isGameOver, toColumnId);
    if ui.isAnimating || ui.isGameOver {
      return false;
    }
    if |store.queue| == 0 {
      return false;
    }
    var targetColumn := FindColumn(store.columns, toColumnId);
    var cardToMove := store.queue[|store.queue| - 1];
    if targetColumn.None? {
      return false;
    }
    if !CanPlaceCard(cardToMove, store.columns[targetColumn.value]) {
      return false;
    }
    // The same slice, pop, unshift, map and history steps as the store's move; the service's
    // setter calls, including those the store does not define, are taken as field assignments.
    store.PlaceFromQueue(toColumnId);
    mergeScheduled := true;
  }

  /** GameService.undo: restore the head snapshot, then show the game-over evaluation of the restored board. */
  method Undo(store: GameStore, ui: UIStore)
    requires store.Valid()
    modifies store, ui
    ensures store.Valid() && store.Current() == ServiceUndo(old(store.Current()))
    ensures store.isAnimating == old(store.isAnimating) && store.animatingCards == old(store.animatingCards)
    ensures store.isGameOver == old(store.isGameOver) && store.nextId == old(store.nextId)
    ensures store.time == old(store.time)
    ensures old(store.undoCount == 0 || store.history == []) ==> unchanged(ui)
    ensures !old(store.undoCount == 0 || store.history == []) ==>
      var e := EvaluateGameOver(store.columns, store.queue, store.deck, store.trashCount);
      && ui.isGameOver == e.isGameOver && ui.gameOverTriggerColumnId == e.triggerColumnId
      && ui.gameOverReason == e.reason && !ui.animationFinished
      && ui.isAnimating == old(ui.isAnimating) && ui.animatingCards == old(ui.animatingCards)
  {
    ServiceUndoFacts(store.Current(), 0);
    if store.undoCount == 0 || |store.history| == 0 {
      return;
    }
    RestoreSnapshot(store);
    var gameOverEvaluation := EvaluateGameOver(store.columns, store.queue, store.deck, store.trashCount);
    ui.SetGameOver(gameOverEvaluation);
  }

  /** GameService.trashCard: discard the right-most queue card, then show the game-over evaluation. */
  method TrashCard(store: GameStore, ui: UIStore)
    requires store.Valid()
    modifies store, ui
    ensures store.Valid() && store.Current() == ServiceTrash(old(store.Current()))
    ensures store.isAnimating == old(store.isAnimating) && store.animatingCards == old(store.animatingCards)
    ensures store.isGameOver == old(store.isGameOver) && store.nextId == old(store.nextId)
    ensures store.time == old(store.time)
    ensures old(store.trashCount == 0 || store.queue == []) ==> unchanged(ui)
    ensures !old(store.trashCount == 0 || store.queue == []) ==>
      var e := EvaluateGameOver(store.columns, store.queue, store.deck, store.trashCount);
      && ui.isGameOver == e.isGameOver && ui.gameOverTriggerColumnId == e.triggerColumnId
      && ui.gameOverReason == e.reason && !ui.animationFinished
      && ui.isAnimating == old(ui.isAnimating) && ui.animatingCards == old(ui.animatingCards)
  {
    ServiceTrashFacts(store.Current());
    if store.trashCount == 0 || |store.queue| == 0 {
      return;
    }
    DiscardRightmost(store);
    var gameOverEvaluation := EvaluateGameOver(store.columns, store.queue, store.deck, store.trashCount);
    ui.SetGameOver(gameOverEvaluation);
  }

  /** The state update of GameService.undo: restore the latest snapshot and spend one undo. */
  method RestoreSnapshot(store: GameStore)
    requires store.Valid() && store.undoCount != 0 && store.history != []
    modifies store
    ensures store.Valid() && store.Current() == ServiceUndo(old(store.Current()))
    ensures store.isAnimating == old(store.isAnimating) && store.animatingCards == old(store.animatingCards)
    ensures store.isGameOver == old(store.isGameOver) && store.nextId == old(store.nextId)
    ensures store.time == old(store.time)
  {
    ServiceUndoFacts(store.Current(), 0);
    var previousState := store.history[0];
    store.columns, store.queue, store.deck, store.score := previousState.columns, previousState.queue, previousState.deck, previousState.score;
    store.history, store.undoCount := store.history[1..], store.undoCount - 1;
  }

  /** The state update of GameService.trashCard: drop the right-most queue card, refill from the deck. */
  method DiscardRightmost(store: GameStore)
    requires store.Valid() && store.trashCount != 0 && store.queue != []
    modifies store
    ensures store.Valid() && store.Current() == ServiceTrash(old(store.Current()))
    ensures store.isAnimating == old(store.isAnimating) && store.animatingCards == old(store.animatingCards)
    ensures store.isGameOver == old(store.isGameOver) && store.nextId == old(store.nextId)
    ensures store.time == old(store.time)
  {
    ServiceTrashFacts(store.Current());
    var updatedQueue := store.queue[..|store.queue| - 1];
    var updatedDeck := store.deck;
    if updatedDeck != [] {
      var nextCard := updatedDeck[|updatedDeck| - 1];
      updatedDeck := updatedDeck[..|updatedDeck| - 1];
      updatedQueue := [nextCard] + updatedQueue;
    }
    store.queue, store.deck, store.trashCount := updatedQueue, updatedDeck, store.trashCount - 1;
  }

  /**
   * GameService.processMergeWithAnimation, its delays dropped: while a single-step merge of
   * the column gains something, mark the merged pair, replace the column's cards, score the
   * gain, unmark the pair and go again; then show the game-over evaluation.
   */
  method ProcessMergeWithAnimation(store: GameStore, ui: UIStore, columnId: int)
    requires store.Valid() && ui.Valid()
    modifies store, ui
    ensures store.Valid() && ui.Valid()
    ensures FindColumn(old(store.columns), columnId).None? ==> unchanged(store) && unchanged(ui)
    ensures FindColumn(old(store.columns), columnId).Some? ==>
      var j := FindColumn(old(store.columns), columnId).value;
      var r := ServiceResolve(old(store.columns)[j].cards, old(store.nextId), store.mint);
      var marked := ServiceMarked(old(store.columns)[j].cards, old(store.nextId), store.mint);
      && store.columns == old(store.columns)[j := Column(columnId, r.cards)]
      && store.score == old(store.score) + r.gain && store.nextId == r.nextId
      && ui.Banner() == EvaluateGameOver(store.columns, store.queue, store.deck, store.trashCount)
      && !ui.animationFinished
      && ui.isAnimating == (if r.changed then false else old(ui.isAnimating))
      && ui.animatingCards == Without(old(ui.animatingCards), marked)
    ensures store.queue == old(store.queue) && store.deck == old(store.deck) && store.history == old(store.history)
    ensures store.undoCount == old(store.undoCount) && store.trashCount == old(store.trashCount)
    ensures store.isAnimating == old(store.isAnimating) && store.animatingCards == old(store.animatingCards)
    ensures store.isGameOver == old(store.isGameOver) && store.time == old(store.time)
  {
    var found := FindColumn(store.columns, columnId);
    if found.None? {
      return;
    }
    ResolveAt(store, ui, columnId, found.value);
  }

  /** processMergeWithAnimation once the column is found at index j. */
  method ResolveAt(store: GameStore, ui: UIStore, columnId: int, j: nat)
    requires store.Valid() && ui.Valid() && FindColumn(store.columns, columnId) == Some(j)
    modifies store, ui
    ensures store.Valid() && ui.Valid()
    ensures var r := ServiceResolve(old(store.columns)[j].cards, old(store.nextId), store.mint);
      var marked := ServiceMarked(old(store.columns)[j].cards, old(store.nextId), store.mint);
      && store.columns == old(store.columns)[j := Column(columnId, r.cards)]
      && store.score == old(store.score) + r.gain && store.nextId == r.nextId
      && ui.Banner() == EvaluateGameOver(store.columns, store.queue, store.deck, store.trashCount)
      && !ui.animationFinished
      && ui.isAnimating == (if r.changed then false else old(ui.isAnimating))
      && ui.animatingCards == Without(old(ui.animatingCards), marked)
    ensures store.queue == old(store.queue) && store.deck == old(store.deck) && store.history == old(store.history)
    ensures store.undoCount == old(store.undoCount) && store.trashCount == old(store.trashCount)
    ensures store.isAnimating == old(store.isAnimating) && store.animatingCards == old(store.animatingCards)
    ensures store.isGameOver == old(store.isGameOver) && store.time == old(store.time)
    decreases |store.columns[j].cards|, 1
  {
    var column := store.columns[j];
    var mergedCardIds := MergingPair(column.cards);
    var mergedColumn, scoreGained, nextFresh := ProcessChainMerge(column, store.nextId, store.mint);
    if scoreGained > 0 {
      MergeAndContinue(store, ui, columnId, j, mergedCardIds, mergedColumn.cards, scoreGained, nextFresh);
      return;
    }
    ChainMergeShape(column.cards, store.nextId, store.mint);
    WithoutNothing(ui.animatingCards);
    // unlockHigherTierCards is defined nowhere in the program; the call is taken as a no-op.
    ShowGameOver(store, ui);
  }

  /** The branch of processMergeWithAnimation where the merge gained something. */
  method MergeAndContinue(store: GameStore, ui: UIStore, columnId: int, j: nat, mergedCardIds: seq<nat>,
                          mergedCards: seq<Card>, scoreGained: int, nextFresh: nat)
    requires store.Valid() && ui.Valid() && FindColumn(store.columns, columnId) == Some(j)
    requires var m := ChainMerged(store.columns[j].cards, store.nextId, store.mint);
      m.gain > 0 && mergedCards == m.cards && scoreGained == m.gain && nextFresh == m.nextId
    requires mergedCardIds == MergingPair(store.columns[j].cards)
    modifies store, ui
    ensures store.Valid() && ui.Valid()
    ensures var r := ServiceResolve(old(store.columns)[j].cards, old(store.nextId), store.mint);
      var marked := ServiceMarked(old(store.columns)[j].cards, old(store.nextId), store.mint);
      && store.columns == old(store.columns)[j := Column(columnId, r.cards)]
      && store.score == old(store.score) + r.gain && store.nextId == r.nextId
      && ui.Banner() == EvaluateGameOver(store.columns, store.queue, store.deck, store.trashCount)
      && !ui.animationFinished && !ui.isAnimating
      && ui.animatingCards == Without(old(ui.animatingCards), marked)
    ensures store.queue == old(store.queue) && store.deck == old(store.deck) && store.history == old(store.history)
    ensures store.undoCount == old(store.undoCount) && store.trashCount == old(store.trashCount)
    ensures store.isAnimating == old(store.isAnimating) && store.animatingCards == old(store.animatingCards)
    ensures store.isGameOver == old(store.isGameOver) && store.time == old(store.time)
    decreases |store.columns[j].cards|, 0
  {
    ServiceResolveStep(store.columns[j].cards, store.nextId, store.mint);
    ghost var marks := ui.animatingCards;
    AnimateMerge(store, ui, columnId, mergedCardIds, mergedCards, scoreGained, nextFresh);
    // The source finds the column by id again; the ids are unchanged, so it is at index j.
    ResolveAt(store, ui, columnId, j);
    WithoutTwice(marks, mergedCardIds, ServiceMarked(mergedCards, nextFresh, store.mint));
  }

  /** The end of processMergeWithAnimation: the UI shows the evaluation of the settled board. */
  method ShowGameOver(store: GameStore, ui: UIStore)
    requires ui.Valid()
    modifies ui
    ensures ui.Valid()
    ensures ui.Banner() == EvaluateGameOver(store.columns, store.queue, store.deck, store.trashCount)
    ensures !ui.animationFinished && ui.isAnimating == old(ui.isAnimating) && ui.animatingCards == old(ui.animatingCards)
  {
    var gameOverEvaluation := EvaluateGameOver(store.columns, store.queue, store.deck, store.trashCount);
    ui.SetGameOver(gameOverEvaluation);
  }

  /**
   * One round of processMergeWithAnimation: mark the merged pair, put the merged cards in
   * the column, score the gain, unmark the pair.
   */
  method AnimateMerge(store: GameStore, ui: UIStore, columnId: int, mergedCardIds: seq<nat>,
                      mergedCards: seq<Card>, scoreGained: int, nextFresh: nat)
    requires store.Valid() && ui.Valid() && FindColumn(store.columns, columnId).Some?
    modifies store, ui
    ensures store.Valid() && ui.Valid()
    ensures var j := FindColumn(old(store.columns), columnId).value;
      && store.Current() == old(store.Current()).(
           columns := old(store.columns)[j := Column(columnId, mergedCards)], score := old(store.score) + scoreGained)
      && FindColumn(store.columns, columnId) == Some(j)
    ensures store.nextId == nextFresh
    ensures !ui.isAnimating && ui.animatingCards == Without(old(ui.animatingCards), mergedCardIds)
    ensures ui.isGameOver == old(ui.isGameOver) && ui.animationFinished == old(ui.animationFinished)
    ensures ui.gameOverTriggerColumnId == old(ui.gameOverTriggerColumnId) && ui.gameOverReason == old(ui.gameOverReason)
    ensures store.isAnimating == old(store.isAnimating) && store.animatingCards == old(store.animatingCards)
    ensures store.isGameOver == old(store.isGameOver) && store.time == old(store.time)
  {
    ghost var marks := ui.animatingCards;
    MarkThenUnmark(marks, mergedCardIds);
    ui.SetAnimating(true);
    ui.AddAnimatingCards(mergedCardIds);
    ApplyMerge(store, columnId, mergedCards, scoreGained, nextFresh);
    ui.SetAnimating(false);
    ui.RemoveAnimatingCards(mergedCardIds);
  }

  /** The store side of a merge round: the column's new cards, the gain and the id counter. */
  method ApplyMerge(store: GameStore, columnId: int, mergedCards: seq<Card>, scoreGained: int, nextFresh: nat)
    requires store.Valid() && FindColumn(store.columns, columnId).Some?
    modifies store
    ensures store.Valid()
    ensures var j := FindColumn(old(store.columns), columnId).value;
      && store.Current() == old(store.Current()).(
           columns := old(store.columns)[j := Column(columnId, mergedCards)], score := old(store.score) + scoreGained)
      && FindColumn(store.columns, columnId) == Some(j)
    ensures store.nextId == nextFresh
    ensures store.isAnimating == old(store.isAnimating) && store.animatingCards == old(store.animatingCards)
    ensures store.isGameOver == old(store.isGameOver) && store.time == old(store.time)
  {
    SetColumnCardsAt(store.columns, columnId, mergedCards);
    store.columns := SetColumnCards(store.columns, columnId, mergedCards);
    store.nextId := nextFresh;
    store.score := store.score + scoreGained;
  }

  /** GameService.resetGame: clear the UI state, then start a new game. */
  method ResetGame(store: GameStore, ui: UIStore, rng: Stream, pos: nat)
    requires Unit(rng)
    modifies store, ui
    ensures store.Valid() && ui.Valid()
    ensures var s := InitialSetup(old(store.nextId), rng, pos, store.mint);
      store.Current() == SetupBoard(s) && store.nextId == s.nextId
    ensures !store.isGameOver && !store.isAnimating && store.animatingCards == [] && store.time == 0
    ensures !ui.isGameOver && ui.gameOverTriggerColumnId == None && ui.gameOverReason == None
    ensures !ui.animationFinished && !ui.isAnimating && ui.animatingCards == []
  {
    ui.ResetGameOver();
    ui.ClearAnimatingCards();
    ui.SetAnimating(false);
    store.ResetGame(rng, pos);
  }
}
