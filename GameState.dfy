// The game store (src/state/GameState.ts): the board record, the setup of a new game,
// moving the right-most queue card onto a column, undo, trash, the game-over predicate and
// the merge loop of a column. Each store operation is a pure transition on a Board value;
// the GameStore class holds the fields and its methods are proved to perform those
// transitions.

module GameState {
  import opened Cards
  import opened Draws
  import opened GameLogic

  /** A column holding this many cards ends the game. */
  const ColumnLimit: nat := 8
  /** At most this many snapshots are kept for undo. */
  const HistoryLimit: nat := 2
  /** Length of the queue while the deck still has cards. */
  const QueueLength: nat := 3

  /** The part of the state a history entry saves. */
  datatype Snapshot = Snapshot(columns: seq<Column>, queue: seq<Card>, deck: seq<Card>, score: int)

  /** The store's board and budgets. */
  datatype Board = Board(
    columns: seq<Column>, queue: seq<Card>, deck: seq<Card>, score: int,
    history: seq<Snapshot>, undoCount: int, trashCount: int)

  // ---------------------------------------------------------------------------
  // Pieces shared by the store and the service

  /** columns.find(col => col.id === id), as the index of the first column with that id. */
  function FindColumn(columns: seq<Column>, id: int): (r: Option<nat>)
    ensures r.Some? ==> r.value < |columns| && columns[r.value].id == id
                        && forall j :: 0 <= j < r.value ==> columns[j].id != id
    ensures r.None? ==> forall j :: 0 <= j < |columns| ==> columns[j].id != id
  {
    if columns == [] then None
    else if columns[0].id == id then Some(0)
    else match FindColumn(columns[1..], id)
      case None => None
      case Some(k) => Some(k + 1)
  }

  predicate DistinctColumnIds(columns: seq<Column>)
  {
    forall i, j :: 0 <= i < j < |columns| ==> columns[i].id != columns[j].id
  }

  /** All cards on the board: columns, then queue, then deck. */
  function AllCards(columns: seq<Column>, queue: seq<Card>, deck: seq<Card>): multiset<Card>
  {
    multiset(Flatten(columns)) + multiset(queue) + multiset(deck)
  }

  /** The queue drops its right-most card; the deck's top card (its last) enters the queue on the left. */
  function Refill(queue: seq<Card>, deck: seq<Card>): (seq<Card>, seq<Card>)
    requires queue != []
  {
    var rest := queue[..|queue| - 1];
    if deck == [] then (rest, deck) else ([deck[|deck| - 1]] + rest, deck[..|deck| - 1])
  }

  /**
   * Refilling loses exactly the right-most queue card; the queue keeps its length while
   * the deck has cards, and the cards that stay move one place to the right.
   */
  lemma RefillConserves(queue: seq<Card>, deck: seq<Card>)
    requires queue != []
    ensures var (q, d) := Refill(queue, deck);
      && multiset(q) + multiset(d) + multiset{queue[|queue| - 1]} == multiset(queue) + multiset(deck)
      && |q| == (if deck == [] then |queue| - 1 else |queue|)
      && |d| == (if deck == [] then 0 else |deck| - 1)
      && q[|q| - (|queue| - 1)..] == queue[..|queue| - 1]
  {
    assert queue == queue[..|queue| - 1] + [queue[|queue| - 1]];
    if deck != [] {
      assert deck == deck[..|deck| - 1] + [deck[|deck| - 1]];
    }
  }

  /** columns.map(col => col.id === id ? { ...col, cards: [...col.cards, card] } : col) */
  function PlaceOnColumn(columns: seq<Column>, id: int, card: Card): seq<Column>
  {
    if columns == [] then []
    else
      [if columns[0].id == id then Column(id, columns[0].cards + [card]) else columns[0]]
      + PlaceOnColumn(columns[1..], id, card)
  }

  /** The card goes on top of the column with that id and every other column stays as it was. */
  lemma {:induction false} PlaceOnColumnShape(columns: seq<Column>, id: int, card: Card)
    ensures var r := PlaceOnColumn(columns, id, card);
      && |r| == |columns|
      && (forall j :: 0 <= j < |columns| ==> r[j].id == columns[j].id)
      && (forall j :: 0 <= j < |columns| && columns[j].id != id ==> r[j] == columns[j])
      && (forall j :: 0 <= j < |columns| && columns[j].id == id ==> r[j].cards == columns[j].cards + [card])
  {
    if columns != [] {
      PlaceOnColumnShape(columns[1..], id, card);
      var r := PlaceOnColumn(columns, id, card);
      forall j | 1 <= j < |columns| ensures r[j] == PlaceOnColumn(columns[1..], id, card)[j - 1] {
      }
    }
  }

  lemma {:induction false} PlaceOnAbsentColumn(columns: seq<Column>, id: int, card: Card)
    requires forall j :: 0 <= j < |columns| ==> columns[j].id != id
    ensures PlaceOnColumn(columns, id, card) == columns
  {
    if columns != [] {
      PlaceOnAbsentColumn(columns[1..], id, card);
    }
  }

  /** With distinct column ids, placing adds exactly the one card to the cards in the columns. */
  lemma {:induction false} PlaceOnColumnConserves(columns: seq<Column>, id: int, card: Card)
    requires DistinctColumnIds(columns) && FindColumn(columns, id).Some?
    ensures multiset(Flatten(PlaceOnColumn(columns, id, card))) == multiset(Flatten(columns)) + multiset{card}
  {
    var rest := columns[1..];
    if columns[0].id == id {
      PlaceOnAbsentColumn(rest, id, card);
    } else {
      assert FindColumn(rest, id).Some?;
      PlaceOnColumnConserves(rest, id, card);
    }
  }

  /** [snapshot, ...history].slice(0, 2): newest first, at most two kept. */
  function PushHistory(snapshot: Snapshot, history: seq<Snapshot>): (r: seq<Snapshot>)
    ensures 1 <= |r| <= HistoryLimit && r[0] == snapshot
    ensures |r| == (if history == [] then 1 else 2)
    ensures r[1..] == history[..|r| - 1]
  {
    ([snapshot] + history)[..if history == [] then 1 else 2]
  }

  /**
   * The common part of a successful move: the right-most queue card goes on top of the
   * target column, the queue is refilled from the deck, and the pre-move snapshot is
   * pushed onto the history.
   */
  function Placed(b: Board, toColumnId: int): Board
    requires b.queue != []
  {
    var card := b.queue[|b.queue| - 1];
    var (q, d) := Refill(b.queue, b.deck);
    b.(columns := PlaceOnColumn(b.columns, toColumnId, card), queue := q, deck := d,
       history := PushHistory(Snapshot(b.columns, b.queue, b.deck, b.score), b.history))
  }

  /**
   * A placement keeps every card of the board (the moved card changes place), keeps the
   * score and budgets, and saves the board as it was before the move.
   */
  lemma PlacedConserves(b: Board, toColumnId: int)
    requires b.queue != [] && DistinctColumnIds(b.columns) && FindColumn(b.columns, toColumnId).Some?
    ensures var r := Placed(b, toColumnId);
      && AllCards(r.columns, r.queue, r.deck) == AllCards(b.columns, b.queue, b.deck)
      && r.score == b.score && r.undoCount == b.undoCount && r.trashCount == b.trashCount
      && |r.history| <= HistoryLimit && r.history[0] == Snapshot(b.columns, b.queue, b.deck, b.score)
      && (b.deck != [] ==> |r.queue| == |b.queue|)
  {
    var card := b.queue[|b.queue| - 1];
    PlaceOnColumnConserves(b.columns, toColumnId, card);
    RefillConserves(b.queue, b.deck);
    var r := Placed(b, toColumnId);
    var (q, d) := Refill(b.queue, b.deck);
    assert r.columns == PlaceOnColumn(b.columns, toColumnId, card) && r.queue == q && r.deck == d;
    calc {
      AllCards(r.columns, r.queue, r.deck);
      multiset(Flatten(b.columns)) + multiset{card} + multiset(q) + multiset(d);
      multiset(Flatten(b.columns)) + (multiset(q) + multiset(d) + multiset{card});
      multiset(Flatten(b.columns)) + (multiset(b.queue) + multiset(b.deck));
      AllCards(b.columns, b.queue, b.deck);
    }
  }

  // ---------------------------------------------------------------------------
  // Game over

  predicate HasOverflow(columns: seq<Column>)
  {
    exists j :: 0 <= j < |columns| && |columns[j].cards| >= ColumnLimit
  }

  /** The card fits no column (true for an empty list of columns, as Array.prototype.every is). */
  predicate NoValidMoves(card: Card, columns: seq<Column>)
  {
    forall j :: 0 <= j < |columns| ==> !CanPlaceCard(card, columns[j])
  }

  /** checkGameOver: a column overflows, deck and queue are both empty, or the game is deadlocked. */
  predicate CheckGameOver(columns: seq<Column>, queue: seq<Card>, deck: seq<Card>, trashCount: int)
  {
    || HasOverflow(columns)
    || (deck == [] && queue == [])
    || (queue != [] && NoValidMoves(queue[|queue| - 1], columns) && trashCount == 0)
  }

  /** While the deck has cards the queue is full, and it never holds more than three cards. */
  predicate Stocked(queue: seq<Card>, deck: seq<Card>)
  {
    |queue| <= QueueLength && (deck != [] ==> |queue| == QueueLength)
  }

  /**
   * A game that is not over always offers a legal action: the right-most queue card fits
   * a column that has room, or a trash is left.
   */
  lemma NotOverHasMove(columns: seq<Column>, queue: seq<Card>, deck: seq<Card>, trashCount: int)
    requires Stocked(queue, deck) && !CheckGameOver(columns, queue, deck, trashCount)
    ensures queue != []
    ensures || (exists j :: 0 <= j < |columns| && CanPlaceCard(queue[|queue| - 1], columns[j])
                                              && |columns[j].cards| < ColumnLimit)
            || trashCount != 0
  {
    if trashCount == 0 {
      var j :| 0 <= j < |columns| && CanPlaceCard(queue[|queue| - 1], columns[j]);
      assert |columns[j].cards| < ColumnLimit;
    }
  }

  // ---------------------------------------------------------------------------
  // The store's transitions

  /** The invariant of the store: bounded history and budgets, and a stocked queue now and in every snapshot. */
  predicate BoardInvariant(b: Board)
  {
    && |b.history| <= HistoryLimit
    && 0 <= b.undoCount <= 2 && 0 <= b.trashCount <= 1
    && Stocked(b.queue, b.deck) && DistinctColumnIds(b.columns)
    && forall k :: 0 <= k < |b.history| ==>
         Stocked(b.history[k].queue, b.history[k].deck) && DistinctColumnIds(b.history[k].columns)
  }

  /** What moveCardFromQueue leaves: the board, the game-over flag, and whether a merge was scheduled. */
  datatype MoveResult = MoveResult(board: Board, isGameOver: bool, mergeScheduled: bool)

  /** moveCardFromQueue of the store. */
  function StoreMove(b: Board, isAnimating: bool, isGameOver: bool, toColumnId: int): MoveResult
  {
    if isAnimating || isGameOver || b.queue == [] then MoveResult(b, isGameOver, false)
    else match FindColumn(b.columns, toColumnId)
      case None => MoveResult(b, isGameOver, false)
      case Some(j) =>
        var target := b.columns[j];
        if !CanPlaceCard(b.queue[|b.queue| - 1], target) || |target.cards| >= ColumnLimit then
          MoveResult(b, |target.cards| >= ColumnLimit, false)
        else
          var r := Placed(b, toColumnId);
          var over := CheckGameOver(r.columns, r.queue, r.deck, r.trashCount);
          MoveResult(r, over, !over)
  }

  /**
   * The guards of a move: while animating, after game over, with an empty queue or an
   * unknown column nothing changes; an illegal card or a full column moves nothing, and
   * exactly the full column ends the game.
   */
  lemma StoreMoveGuards(b: Board, isAnimating: bool, isGameOver: bool, toColumnId: int)
    ensures var m := StoreMove(b, isAnimating, isGameOver, toColumnId);
      && (isAnimating || isGameOver || b.queue == [] || FindColumn(b.columns, toColumnId).None? ==>
            m == MoveResult(b, isGameOver, false))
      && (!isAnimating && !isGameOver && b.queue != [] && FindColumn(b.columns, toColumnId).Some? ==>
            var target := b.columns[FindColumn(b.columns, toColumnId).value];
            var legal := CanPlaceCard(b.queue[|b.queue| - 1], target) && |target.cards| < ColumnLimit;
            && (!legal ==> m == MoveResult(b, |target.cards| >= ColumnLimit, false))
            && (legal ==> m.board == Placed(b, toColumnId) && m.mergeScheduled == !m.isGameOver))
  {
  }

  /**
   * Whatever the input, a move keeps every card of the board, the score and the budgets,
   * never clears the game-over flag, schedules a merge only when the game goes on, and
   * keeps the store invariant.
   */
  lemma StoreMoveConserves(b: Board, isAnimating: bool, isGameOver: bool, toColumnId: int)
    requires DistinctColumnIds(b.columns)
    ensures var m := StoreMove(b, isAnimating, isGameOver, toColumnId);
      && AllCards(m.board.columns, m.board.queue, m.board.deck) == AllCards(b.columns, b.queue, b.deck)
      && m.board.score == b.score && m.board.undoCount == b.undoCount && m.board.trashCount == b.trashCount
      && (isGameOver ==> m.isGameOver)
      && (m.mergeScheduled ==> !m.isGameOver)
      && (BoardInvariant(b) ==> BoardInvariant(m.board))
  {
    if !(isAnimating || isGameOver || b.queue == []) && FindColumn(b.columns, toColumnId).Some? {
      var target := b.columns[FindColumn(b.columns, toColumnId).value];
      if CanPlaceCard(b.queue[|b.queue| - 1], target) && |target.cards| < ColumnLimit {
        PlacedConserves(b, toColumnId);
        if BoardInvariant(b) {
          PlacedKeepsInvariant(b, toColumnId);
        }
      }
    }
  }

  lemma PlacedKeepsInvariant(b: Board, toColumnId: int)
    requires b.queue != [] && BoardInvariant(b)
    ensures BoardInvariant(Placed(b, toColumnId))
  {
    RefillConserves(b.queue, b.deck);
    PlaceOnColumnShape(b.columns, toColumnId, b.queue[|b.queue| - 1]);
    var r := Placed(b, toColumnId);
    forall k | 0 <= k < |r.history|
      ensures Stocked(r.history[k].queue, r.history[k].deck) && DistinctColumnIds(r.history[k].columns)
    {
      if k > 0 {
        assert r.history[k] == r.history[1..][k - 1] == b.history[k - 1];
      }
    }
  }

  /** undo of the store: with an undo left and a saved snapshot, the newest snapshot comes back. */
  function StoreUndo(b: Board): Board
  {
    if b.undoCount > 0 && |b.history| > 0 then
      var saved := b.history[0];
      b.(columns := saved.columns, queue := saved.queue, deck := saved.deck, score := saved.score,
         history := b.history[1..], undoCount := b.undoCount - 1)
    else b
  }

  /**
   * Undo does nothing without an undo left or a snapshot; otherwise it spends exactly one
   * undo and drops the snapshot it restored. It keeps the store invariant.
   */
  lemma StoreUndoFacts(b: Board)
    ensures var r := StoreUndo(b);
      && (b.undoCount <= 0 || b.history == [] ==> r == b)
      && (b.undoCount > 0 && b.history != [] ==>
            && Snapshot(r.columns, r.queue, r.deck, r.score) == b.history[0]
            && r.history == b.history[1..] && r.undoCount == b.undoCount - 1
            && r.trashCount == b.trashCount)
      && r.undoCount <= b.undoCount && r.trashCount == b.trashCount
      && (BoardInvariant(b) ==> BoardInvariant(r))
  {
    var r := StoreUndo(b);
    if b.undoCount > 0 && b.history != [] && BoardInvariant(b) {
      forall k | 0 <= k < |r.history|
        ensures Stocked(r.history[k].queue, r.history[k].deck) && DistinctColumnIds(r.history[k].columns)
      {
        assert r.history[k] == b.history[k + 1];
      }
    }
  }

  /**
   * Undo takes back a successful move: columns, queue, deck and score are those before the
   * move, and the history is what it was, less the entry the move pushed out of it.
   */
  lemma UndoUndoesMove(b: Board, toColumnId: int)
    requires b.queue != [] && b.undoCount > 0 && FindColumn(b.columns, toColumnId).Some?
    requires var target := b.columns[FindColumn(b.columns, toColumnId).value];
      CanPlaceCard(b.queue[|b.queue| - 1], target) && |target.cards| < ColumnLimit
    ensures var moved := StoreMove(b, false, false, toColumnId).board;
      var r := StoreUndo(moved);
      && r.columns == b.columns && r.queue == b.queue && r.deck == b.deck && r.score == b.score
      && r.history == b.history[..if b.history == [] then 0 else 1]
      && r.undoCount == b.undoCount - 1 && r.trashCount == b.trashCount
  {
    var moved := StoreMove(b, false, false, toColumnId).board;
    assert moved == Placed(b, toColumnId);
  }

  /** trashCard of the store: with a trash left and a non-empty queue, the right-most queue card is discarded. */
  function StoreTrash(b: Board): Board
  {
    if b.trashCount > 0 && |b.queue| > 0 then
      var (q, d) := Refill(b.queue, b.deck);
      b.(queue := q, deck := d, trashCount := b.trashCount - 1)
    else b
  }

  /**
   * Trashing does nothing without a trash left or on an empty queue; otherwise it loses
   * exactly the right-most queue card, spends one trash, and leaves columns, score,
   * history and undos alone. It keeps the store invariant.
   */
  lemma StoreTrashFacts(b: Board)
    ensures var r := StoreTrash(b);
      && (b.trashCount <= 0 || b.queue == [] ==> r == b)
      && (b.trashCount > 0 && b.queue != [] ==>
            && AllCards(r.columns, r.queue, r.deck) + multiset{b.queue[|b.queue| - 1]}
               == AllCards(b.columns, b.queue, b.deck)
            && r.trashCount == b.trashCount - 1)
      && r.columns == b.columns && r.score == b.score && r.history == b.history
      && r.undoCount == b.undoCount && r.trashCount <= b.trashCount
      && (BoardInvariant(b) ==> BoardInvariant(r))
  {
    if b.trashCount > 0 && b.queue != [] {
      RefillConserves(b.queue, b.deck);
      var r := StoreTrash(b);
      var (q, d) := Refill(b.queue, b.deck);
      assert r.queue == q && r.deck == d && r.columns == b.columns;
      calc {
        AllCards(r.columns, r.queue, r.deck) + multiset{b.queue[|b.queue| - 1]};
        multiset(Flatten(b.columns)) + (multiset(q) + multiset(d) + multiset{b.queue[|b.queue| - 1]});
        AllCards(b.columns, b.queue, b.deck);
      }
    }
  }

  // ---------------------------------------------------------------------------
  // Setting up a game (initializeGame)

  const EmptyColumns: seq<Column> := [Column(1, []), Column(2, []), Column(3, []), Column(4, [])]

  /** The deal from step k of eight on: step k (round k / 4) pops the deck's last card onto column k % 4. */
  function DealFrom(columns: seq<Column>, deck: seq<Card>, k: nat): (seq<Column>, seq<Card>)
    requires |columns| == 4
    decreases 8 - k
  {
    if k >= 8 then (columns, deck)
    else if deck == [] then DealFrom(columns, deck, k + 1)
    else
      var j := if k < 4 then k else k - 4;
      DealFrom(columns[j := Column(columns[j].id, columns[j].cards + [deck[|deck| - 1]])],
               deck[..|deck| - 1], k + 1)
  }

  /** The columns after dealing twice round from a deck of at least eight cards. */
  function DealtColumns(deck: seq<Card>): seq<Column>
    requires |deck| >= 8
  {
    var n := |deck|;
    [Column(1, [deck[n - 1], deck[n - 5]]), Column(2, [deck[n - 2], deck[n - 6]]),
     Column(3, [deck[n - 3], deck[n - 7]]), Column(4, [deck[n - 4], deck[n - 8]])]
  }

  /** The dealt columns carry the ids 1 to 4 in order. */
  lemma DealtColumnIds(deck: seq<Card>)
    requires |deck| >= 8
    ensures |DealtColumns(deck)| == 4
    ensures forall j :: 0 <= j < 4 ==> DealtColumns(deck)[j].id == j + 1
  {
  }

  /**
   * Dealing from a deck of at least eight cards gives column j (ids 1..4) the cards from
   * positions n-j and n-4-j counted from the end, and leaves the first n-8 cards.
   */
  lemma DealFull(deck: seq<Card>)
    requires |deck| >= 8
    ensures DealFrom(EmptyColumns, deck, 0) == (DealtColumns(deck), deck[..|deck| - 8])
  {
    assert deck[..|deck| - 0] == deck;
    DealFromState(deck, 0);
    DealStateEnds(deck);
  }

  /** The cards column j (0-based) holds after the first k steps of the deal. */
  function DealtCards(deck: seq<Card>, k: nat, j: nat): seq<Card>
    requires |deck| >= 8 && j < 4
  {
    var n := |deck|;
    (if j < k then [deck[n - 1 - j]] else []) + (if j + 4 < k then [deck[n - 5 - j]] else [])
  }

  /** The columns after the first k steps of the deal. */
  function DealState(deck: seq<Card>, k: nat): seq<Column>
    requires |deck| >= 8
  {
    [Column(1, DealtCards(deck, k, 0)), Column(2, DealtCards(deck, k, 1)),
     Column(3, DealtCards(deck, k, 2)), Column(4, DealtCards(deck, k, 3))]
  }

  lemma DealStateEnds(deck: seq<Card>)
    requires |deck| >= 8
    ensures DealState(deck, 0) == EmptyColumns && DealState(deck, 8) == DealtColumns(deck)
  {
    var n := |deck|;
    forall j | 0 <= j < 4 ensures DealtCards(deck, 0, j) == [] {
      assert DealtCards(deck, 0, j) == [] + [];
    }
    forall j | 0 <= j < 4 ensures DealtCards(deck, 8, j) == [deck[n - 1 - j], deck[n - 5 - j]] {
      assert [deck[n - 1 - j]] + [deck[n - 5 - j]] == [deck[n - 1 - j], deck[n - 5 - j]];
    }
  }

  lemma DealStateStep(deck: seq<Card>, k: nat)
    requires |deck| >= 8 && k < 8
    ensures var c := DealState(deck, k);
      var j := if k < 4 then k else k - 4;
      c[j := Column(c[j].id, c[j].cards + [deck[|deck| - 1 - k]])] == DealState(deck, k + 1)
  {
    var j := if k < 4 then k else k - 4;
    var n := |deck|;
    if k < 4 {
      assert DealtCards(deck, k + 1, j) == [deck[n - 1 - k]];
    } else {
      assert DealtCards(deck, k, j) == [deck[n - 1 - j]];
      assert DealtCards(deck, k + 1, j) == [deck[n - 1 - j]] + [deck[n - 1 - k]];
    }
    forall i | 0 <= i < 4 && i != j ensures DealtCards(deck, k + 1, i) == DealtCards(deck, k, i) {
    }
    var c := DealState(deck, k);
    var u := c[j := Column(c[j].id, c[j].cards + [deck[n - 1 - k]])];
    var d := DealState(deck, k + 1);
    forall i | 0 <= i < 4 ensures u[i] == d[i] {
      if i == j {
        assert u[i].cards == DealtCards(deck, k, j) + [deck[n - 1 - k]];
      }
    }
    assert |u| == |d|;
  }

  lemma {:induction false} DealFromState(deck: seq<Card>, k: nat)
    requires |deck| >= 8 && k <= 8
    ensures DealFrom(DealState(deck, k), deck[..|deck| - k], k) == (DealState(deck, 8), deck[..|deck| - 8])
    decreases 8 - k
  {
    var n := |deck|;
    if k < 8 {
      var x := deck[..n - k];
      assert x[|x| - 1] == deck[n - 1 - k];
      assert x[..|x| - 1] == deck[..n - (k + 1)];
      DealStateStep(deck, k);
      DealFromState(deck, k + 1);
    }
  }

  /** A card put on top of column j adds exactly that card to the cards in the columns. */
  lemma {:induction false} FlattenAddCard(c: seq<Column>, j: nat, y: Card)
    requires j < |c|
    ensures multiset(Flatten(c[j := Column(c[j].id, c[j].cards + [y])]))
            == multiset(Flatten(c)) + multiset{y}
  {
    var u := c[j := Column(c[j].id, c[j].cards + [y])];
    assert Flatten(u) == u[0].cards + Flatten(u[1..]);
    assert Flatten(c) == c[0].cards + Flatten(c[1..]);
    if j == 0 {
      assert u[1..] == c[1..];
      assert u[0].cards == c[0].cards + [y];
    } else {
      FlattenAddCard(c[1..], j - 1, y);
      assert u[1..] == c[1..][j - 1 := Column(c[j].id, c[j].cards + [y])];
      assert u[0] == c[0];
    }
  }

  /** The deal moves cards from the deck to the columns and loses none. */
  lemma {:induction false} DealConserves(c: seq<Column>, x: seq<Card>, k: nat)
    requires |c| == 4
    ensures var (c', x') := DealFrom(c, x, k);
      multiset(Flatten(c')) + multiset(x') == multiset(Flatten(c)) + multiset(x)
    decreases 8 - k
  {
    if k < 8 && x != [] {
      var j := if k < 4 then k else k - 4;
      var y, rest := x[|x| - 1], x[..|x| - 1];
      var c1 := c[j := Column(c[j].id, c[j].cards + [y])];
      assert DealFrom(c, x, k) == DealFrom(c1, rest, k + 1);
      DealConserves(c1, rest, k + 1);
      FlattenAddCard(c, j, y);
      assert x == rest + [y];
      assert multiset(x) == multiset(rest) + multiset{y};
    } else if k < 8 {
      DealConserves(c, x, k + 1);
    }
  }

  /** The outcome of sorting and batch-merging each dealt column. */
  datatype Settlement = Settlement(columns: seq<Column>, score: int, nextId: nat)

  /** Each column sorted largest first and batch-merged, in order; the gains add up to the score. */
  function SettleColumns(columns: seq<Column>, nextId: nat, mint: Minter): Settlement
  {
    if columns == [] then Settlement([], 0, nextId)
    else
      var m := AllMerges(SortDesc(columns[0].cards), nextId, mint);
      var rest := SettleColumns(columns[1..], m.nextId, mint);
      Settlement([Column(columns[0].id, m.cards)] + rest.columns, m.gain + rest.score, rest.nextId)
  }

  /** Settling keeps the column ids and the value sum and leaves no equal adjacent pair. */
  lemma {:induction false} SettleColumnsFacts(columns: seq<Column>, nextId: nat, mint: Minter)
    ensures var r := SettleColumns(columns, nextId, mint);
      && |r.columns| == |columns|
      && (forall j :: 0 <= j < |columns| ==> r.columns[j].id == columns[j].id)
      && (forall j :: 0 <= j < |columns| ==> Settled(r.columns[j].cards))
      && Sum(Flatten(r.columns)) == Sum(Flatten(columns))
      && r.nextId >= nextId
  {
    if columns != [] {
      var sorted := SortDesc(columns[0].cards);
      var m := AllMerges(sorted, nextId, mint);
      var rest := SettleColumns(columns[1..], m.nextId, mint);
      SettleColumnsFacts(columns[1..], m.nextId, mint);
      SortDescFacts(columns[0].cards);
      SumOfPermutation(sorted, columns[0].cards);
      AllMergesFacts(sorted, nextId, mint);
      var r := SettleColumns(columns, nextId, mint);
      assert r.columns[1..] == rest.columns;
      SumAppend(m.cards, Flatten(rest.columns));
      SumAppend(columns[0].cards, Flatten(columns[1..]));
      forall j | 1 <= j < |columns| ensures r.columns[j] == rest.columns[j - 1] {
      }
    }
  }

  /** newDeck.findIndex(card => card.value === v), as an index when there is one. */
  function FirstIndexOfValue(deck: seq<Card>, v: int): (r: Option<nat>)
    ensures r.Some? ==> r.value < |deck| && deck[r.value].value == v
                        && forall j :: 0 <= j < r.value ==> deck[j].value != v
    ensures r.None? ==> forall j :: 0 <= j < |deck| ==> deck[j].value != v
  {
    if deck == [] then None
    else if deck[0].value == v then Some(0)
    else match FirstIndexOfValue(deck[1..], v)
      case None => None
      case Some(k) => Some(k + 1)
  }

  /** Splice out the first card of value v, if there is one. */
  function RemoveFirstOfValue(deck: seq<Card>, v: int): seq<Card>
  {
    match FirstIndexOfValue(deck, v)
    case None => deck
    case Some(k) => deck[..k] + deck[k + 1..]
  }

  /** The removal loop of the setup, n rounds. */
  function RemoveValueTimes(deck: seq<Card>, v: int, n: nat): seq<Card>
  {
    if n == 0 then deck else RemoveFirstOfValue(RemoveValueTimes(deck, v, n - 1), v)
  }

  lemma {:induction false} CountValuePositive(deck: seq<Card>, v: int)
    ensures CountValue(deck, v) > 0 <==> exists j :: 0 <= j < |deck| && deck[j].value == v
  {
    if deck != [] {
      CountValuePositive(deck[1..], v);
      if exists j :: 0 <= j < |deck| && deck[j].value == v {
        var j :| 0 <= j < |deck| && deck[j].value == v;
        if j > 0 {
          assert deck[1..][j - 1].value == v;
        }
      }
      if exists j :: 0 <= j < |deck[1..]| && deck[1..][j].value == v {
        var j :| 0 <= j < |deck[1..]| && deck[1..][j].value == v;
        assert deck[j + 1].value == v;
      }
    }
  }

  /** Removing a card of value v removes one card, of value v, when there is one, and nothing otherwise. */
  lemma RemoveFirstOfValueFacts(deck: seq<Card>, v: int, w: int)
    ensures var r := RemoveFirstOfValue(deck, v);
      && (CountValue(deck, v) == 0 ==> r == deck)
      && (CountValue(deck, v) > 0 ==>
            && |r| == |deck| - 1 && Sum(r) == Sum(deck) - v
            && CountValue(r, w) == CountValue(deck, w) - (if w == v then 1 else 0))
  {
    CountValuePositive(deck, v);
    match FirstIndexOfValue(deck, v)
    case None =>
    case Some(k) =>
      var c := deck[k];
      assert deck == deck[..k] + [c] + deck[k + 1..];
      SumAppend(deck[..k] + [c], deck[k + 1..]);
      SumAppend(deck[..k], [c]);
      SumAppend(deck[..k], deck[k + 1..]);
      CountValueAppend(deck[..k] + [c], deck[k + 1..], w);
      CountValueAppend(deck[..k], [c], w);
      CountValueAppend(deck[..k], deck[k + 1..], w);
      assert Sum([c]) == c.value by {
        assert [c][1..] == [];
      }
      assert CountValue([c], w) == (if w == v then 1 else 0) by {
        assert [c][1..] == [];
      }
  }

  /** With at least n cards of value v, n rounds remove exactly n of them and no other card. */
  lemma {:induction false} RemoveValueTimesFacts(deck: seq<Card>, v: int, n: nat, w: int)
    requires CountValue(deck, v) >= n
    ensures var r := RemoveValueTimes(deck, v, n);
      && |r| == |deck| - n && Sum(r) == Sum(deck) - n * v
      && CountValue(r, w) == CountValue(deck, w) - (if w == v then n else 0)
  {
    if n > 0 {
      var prev := RemoveValueTimes(deck, v, n - 1);
      RemoveValueTimesFacts(deck, v, n - 1, w);
      RemoveValueTimesFacts(deck, v, n - 1, v);
      assert CountValue(prev, v) > 0;
      RemoveFirstOfValueFacts(prev, v, w);
      assert n * v == (n - 1) * v + v;
    }
  }

  /** What initializeGame returns, with the next created id and the next unused draw. */
  datatype Setup = Setup(columns: seq<Column>, queue: seq<Card>, deck: seq<Card>, score: int,
                         nextId: nat, nextDraw: nat)

  /** The board a new game starts from: the setup's cards and score, no history, full budgets. */
  function SetupBoard(s: Setup): Board
  {
    Board(s.columns, s.queue, s.deck, s.score, [], 2, 1)
  }

  /** Three created cards of value 2. */
  function InitialQueue(nextId: nat, mint: Minter): (q: seq<Card>)
    ensures |q| == 3 && forall c :: c in q ==> c.value == 2
  {
    [Mint(nextId, 2, mint), Mint(nextId + 1, 2, mint), Mint(nextId + 2, 2, mint)]
  }

  /**
   * initializeGame: shuffle a fresh deck (ids from first), deal twice round, sort and
   * batch-merge each column, queue three fresh 2s and take three 2s out of the deck.
   */
  function InitialSetup(first: nat, rng: Stream, pos: nat, mint: Minter): Setup
    requires Unit(rng)
  {
    SetupFrom(FiniteDeck(first, mint), first + 160, rng, pos, mint)
  }

  /** The setup from a created deck of 160 cards, with fresh ids from nextId on. */
  function SetupFrom(created: seq<Card>, nextId: nat, rng: Stream, pos: nat, mint: Minter): Setup
    requires Unit(rng)
  {
    Arrange(Shuffled(created, |created|, rng, pos), nextId, mint).(nextDraw := pos + |created|)
  }

  /** Everything initializeGame does after the shuffle. */
  function Arrange(shuffled: seq<Card>, nextId: nat, mint: Minter): Setup
  {
    var (dealt, rest) := DealFrom(EmptyColumns, shuffled, 0);
    var settled := SettleColumns(dealt, nextId, mint);
    Setup(settled.columns, InitialQueue(settled.nextId, mint), RemoveValueTimes(rest, 2, 3),
          settled.score, settled.nextId + 3, 0)
  }

  /**
   * A new game has four settled columns with ids 1..4, three 2s in the queue and 149 cards
   * in the deck; no value is lost or made by the setup except the three 2s taken out of the
   * deck, so columns and deck are worth 1222 - 6 together. The starting score is what
   * settling the dealt columns gains.
   */
  lemma InitialSetupFacts(first: nat, rng: Stream, pos: nat, mint: Minter)
    requires Unit(rng)
    ensures var s := InitialSetup(first, rng, pos, mint);
      && |s.columns| == 4 && (forall j :: 0 <= j < 4 ==> s.columns[j].id == j + 1)
      && (forall j :: 0 <= j < 4 ==> Settled(s.columns[j].cards))
      && |s.queue| == 3 && (forall c :: c in s.queue ==> c.value == 2)
      && |s.deck| == 149
      && Sum(Flatten(s.columns)) + Sum(s.deck) == 1216
      && BoardInvariant(SetupBoard(s))
      && s.score == SettleColumns(DealtColumns(Shuffled(FiniteDeck(first, mint), |FiniteDeck(first, mint)|, rng, pos)), first + 160, mint).score
  {
    DeckComposition(first, mint, 2);
    SetupFromFacts(FiniteDeck(first, mint), first + 160, rng, pos, mint);
  }

  lemma SetupFromFacts(created: seq<Card>, nextId: nat, rng: Stream, pos: nat, mint: Minter)
    requires Unit(rng) && |created| == 160 && Sum(created) == 1222 && CountValue(created, 2) == 53
    ensures var s := SetupFrom(created, nextId, rng, pos, mint);
      && |s.columns| == 4 && (forall j :: 0 <= j < 4 ==> s.columns[j].id == j + 1)
      && (forall j :: 0 <= j < 4 ==> Settled(s.columns[j].cards))
      && |s.queue| == 3 && (forall c :: c in s.queue ==> c.value == 2)
      && |s.deck| == 149
      && Sum(Flatten(s.columns)) + Sum(s.deck) == 1216
      && BoardInvariant(SetupBoard(s))
      && s.score == SettleColumns(DealtColumns(Shuffled(created, 160, rng, pos)), nextId, mint).score
  {
    var shuffled := Shuffled(created, |created|, rng, pos);
    ShuffledPermutes(created, |created|, rng, pos);
    SumOfPermutation(shuffled, created);
    CountValueOfPermutation(shuffled, created, 2);
    ArrangeFacts(shuffled, nextId, mint);
  }

  lemma ArrangeFacts(shuffled: seq<Card>, nextId: nat, mint: Minter)
    requires |shuffled| == 160 && Sum(shuffled) == 1222 && CountValue(shuffled, 2) == 53
    ensures var s := Arrange(shuffled, nextId, mint);
      && |s.columns| == 4 && (forall j :: 0 <= j < 4 ==> s.columns[j].id == j + 1)
      && (forall j :: 0 <= j < 4 ==> Settled(s.columns[j].cards))
      && |s.queue| == 3 && (forall c :: c in s.queue ==> c.value == 2)
      && |s.deck| == 149
      && Sum(Flatten(s.columns)) + Sum(s.deck) == 1216
      && BoardInvariant(SetupBoard(s))
      && s.score == SettleColumns(DealtColumns(shuffled), nextId, mint).score
  {
    DealtDeck(shuffled);
    var dealt := DealFrom(EmptyColumns, shuffled, 0).0;
    var rest := DealFrom(EmptyColumns, shuffled, 0).1;
    RemoveValueTimesFacts(rest, 2, 3, 2);
    var settled := SettleColumns(dealt, nextId, mint);
    SettleColumnsFacts(dealt, nextId, mint);
    var s := Arrange(shuffled, nextId, mint);
    assert s.columns == settled.columns && s.deck == RemoveValueTimes(rest, 2, 3);
    assert s.queue == InitialQueue(settled.nextId, mint);
    DealtColumnIds(shuffled);
    NewBoardInvariant(s.columns, s.queue, s.deck, s.score);
  }

  lemma NewBoardInvariant(columns: seq<Column>, queue: seq<Card>, deck: seq<Card>, score: int)
    requires |columns| == 4 && (forall j :: 0 <= j < 4 ==> columns[j].id == j + 1) && |queue| == 3
    ensures BoardInvariant(Board(columns, queue, deck, score, [], 2, 1))
  {
  }

  /**
   * Dealing a full deck of 160 cards worth 1222, 53 of them 2s, leaves 152 cards with at
   * least 45 2s among them.
   */
  lemma DealtDeck(shuffled: seq<Card>)
    requires |shuffled| == 160 && Sum(shuffled) == 1222 && CountValue(shuffled, 2) == 53
    ensures var (dealt, rest) := DealFrom(EmptyColumns, shuffled, 0);
      && dealt == DealtColumns(shuffled) && |rest| == 152
      && Sum(Flatten(dealt)) + Sum(rest) == 1222 && CountValue(rest, 2) >= 45
  {
    DealFull(shuffled);
    DealConserves(EmptyColumns, shuffled, 0);
    var dealt := DealtColumns(shuffled);
    var rest := shuffled[..152];
    assert Flatten(EmptyColumns) == [] by {
      var e := EmptyColumns;
      assert Flatten(e[4..]) == [];
      assert Flatten(e[3..]) == [];
      assert Flatten(e[2..]) == [];
      assert Flatten(e[1..]) == [];
    }
    assert multiset(Flatten(dealt) + rest) == multiset(shuffled);
    SumOfPermutation(Flatten(dealt) + rest, shuffled);
    SumAppend(Flatten(dealt), rest);
    CountValueOfPermutation(Flatten(dealt) + rest, shuffled, 2);
    CountValueAppend(Flatten(dealt), rest, 2);
    assert |Flatten(dealt) + rest| == 160 by {
      assert |multiset(Flatten(dealt) + rest)| == |multiset(shuffled)|;
    }
    CountValueAtMostLength(Flatten(dealt), 2);
  }

  lemma {:induction false} CountValueAtMostLength(cards: seq<Card>, v: int)
    ensures CountValue(cards, v) <= |cards|
  {
    if cards != [] {
      CountValueAtMostLength(cards[1..], v);
    }
  }

  /** The deal loops of initializeGame: two rounds, each column in turn taking the deck's last card. */
  method DealInitialColumns(shuffled: seq<Card>) returns (initialColumns: seq<Column>, newDeck: seq<Card>)
    ensures (initialColumns, newDeck) == DealFrom(EmptyColumns, shuffled, 0)
  {
    newDeck := shuffled;
    initialColumns := EmptyColumns;
    for i := 0 to 2
      invariant |initialColumns| == 4
      invariant DealFrom(initialColumns, newDeck, 4 * i) == DealFrom(EmptyColumns, shuffled, 0)
    {
      for j := 0 to 4
        invariant |initialColumns| == 4
        invariant DealFrom(initialColumns, newDeck, 4 * i + j) == DealFrom(EmptyColumns, shuffled, 0)
      {
        if newDeck != [] {
          var card := newDeck[|newDeck| - 1];
          newDeck := newDeck[..|newDeck| - 1];
          initialColumns := initialColumns[j := Column(initialColumns[j].id, initialColumns[j].cards + [card])];
        }
      }
    }
  }

  /** What remains to settle after the first index columns, given what has been settled so far. */
  ghost predicate SettledUpTo(dealt: seq<Column>, nextId: nat, mint: Minter,
                              index: nat, cols: seq<Column>, score: int, next: nat)
  {
    && index <= |dealt| && |cols| == |dealt| && cols[index..] == dealt[index..]
    && var rest := SettleColumns(dealt[index..], next, mint);
       SettleColumns(dealt, nextId, mint) == Settlement(cols[..index] + rest.columns, score + rest.score, rest.nextId)
  }

  /** Settling the column at index advances the settle loop by one column. */
  lemma SettleStep(dealt: seq<Column>, nextId: nat, mint: Minter,
                   index: nat, cols: seq<Column>, score: int, next: nat)
    requires index < |dealt| && SettledUpTo(dealt, nextId, mint, index, cols, score, next)
    ensures var m := AllMerges(SortDesc(cols[index].cards), next, mint);
      SettledUpTo(dealt, nextId, mint, index + 1, cols[index := Column(cols[index].id, m.cards)], score + m.gain, m.nextId)
  {
    var m := AllMerges(SortDesc(cols[index].cards), next, mint);
    var after := cols[index := Column(cols[index].id, m.cards)];
    assert dealt[index..][0] == cols[index];
    assert dealt[index..][1..] == dealt[index + 1..];
    assert after[..index + 1] == cols[..index] + [Column(cols[index].id, m.cards)];
    assert after[index + 1..] == cols[index + 1..];
  }

  /** The settle loop of initializeGame: sort each column largest first and batch-merge it. */
  method SettleInitialColumns(dealt: seq<Column>, nextId: nat, mint: Minter) returns (r: Settlement)
    ensures r == SettleColumns(dealt, nextId, mint)
  {
    var initialColumns := dealt;
    var initialScore := 0;
    var next := nextId;
    assert initialColumns[..0] == [];
    for index := 0 to |dealt|
      invariant SettledUpTo(dealt, nextId, mint, index, initialColumns, initialScore, next)
    {
      var col := initialColumns[index];
      var sorted := Column(col.id, SortDesc(col.cards));
      var mergedColumn, scoreGained, nextFresh := ProcessAllMerges(sorted, next, mint);
      SettleStep(dealt, nextId, mint, index, initialColumns, initialScore, next);
      initialColumns := initialColumns[index := mergedColumn];
      initialScore := initialScore + scoreGained;
      next := nextFresh;
    }
    assert initialColumns[..|dealt|] == initialColumns;
    assert dealt[|dealt|..] == [];
    r := Settlement(initialColumns, initialScore, next);
  }

  /** The removal loop of initializeGame: three times, take the first 2 out of the deck if there is one. */
  method RemoveInitialTwos(deck: seq<Card>) returns (newDeck: seq<Card>)
    ensures newDeck == RemoveValueTimes(deck, 2, 3)
  {
    newDeck := deck;
    for i := 0 to 3
      invariant newDeck == RemoveValueTimes(deck, 2, i)
    {
      var cardIndex := FirstIndexOfValue(newDeck, 2);
      if cardIndex.Some? {
        newDeck := newDeck[..cardIndex.value] + newDeck[cardIndex.value + 1..];
      }
    }
  }

  /** createFiniteDeck followed by shuffleDeck on a copy of it. */
  method NewShuffledDeck(first: nat, rng: Stream, pos: nat, mint: Minter) returns (shuffled: seq<Card>, nextDraw: nat)
    requires Unit(rng)
    ensures |FiniteDeck(first, mint)| == 160
    ensures shuffled == Shuffled(FiniteDeck(first, mint), 160, rng, pos) && nextDraw == pos + 160
  {
    var created := CreateFiniteDeck(first, mint);
    DeckComposition(first, mint, 2);
    var a := new Card[|created|](i requires 0 <= i < |created| => created[i]);
    assert a[..] == created;
    nextDraw := ShuffleDeck(a, rng, pos);
    shuffled := a[..];
  }

  lemma ArrangeIs(shuffled: seq<Card>, nextId: nat, mint: Minter, dealt: seq<Column>, rest: seq<Card>)
    requires (dealt, rest) == DealFrom(EmptyColumns, shuffled, 0)
    ensures var settled := SettleColumns(dealt, nextId, mint);
      Arrange(shuffled, nextId, mint)
        == Setup(settled.columns, InitialQueue(settled.nextId, mint), RemoveValueTimes(rest, 2, 3),
                 settled.score, settled.nextId + 3, 0)
  {
  }

  /**
   * initializeGame, step by step: the new game it builds is the one InitialSetup describes,
   * and so satisfies the store invariant with full budgets.
   */
  method InitializeGame(first: nat, rng: Stream, pos: nat, mint: Minter) returns (s: Setup)
    requires Unit(rng)
    ensures s == InitialSetup(first, rng, pos, mint)
    ensures BoardInvariant(SetupBoard(s))
  {
    var shuffled, nextDraw := NewShuffledDeck(first, rng, pos, mint);
    var initialColumns, newDeck := DealInitialColumns(shuffled);
    ghost var rest := newDeck;
    var settled := SettleInitialColumns(initialColumns, first + 160, mint);
    var initialQueue := [Mint(settled.nextId, 2, mint), Mint(settled.nextId + 1, 2, mint), Mint(settled.nextId + 2, 2, mint)];
    newDeck := RemoveInitialTwos(newDeck);
    s := Setup(settled.columns, initialQueue, newDeck, settled.score, settled.nextId + 3, nextDraw);
    ArrangeIs(shuffled, first + 160, mint, initialColumns, rest);
    assert initialQueue == InitialQueue(settled.nextId, mint);
    assert s == Arrange(shuffled, first + 160, mint).(nextDraw := pos + 160);
    InitialSetupFacts(first, rng, pos, mint);
  }

  // ---------------------------------------------------------------------------
  // The store's merge loop (processMergeWithAnimation, timers dropped)

  /** The ids marked for animation: the lowest equal adjacent pair, if there is one. */
  function MergingPair(cards: seq<Card>): seq<nat>
  {
    match FirstPair(cards)
    case None => []
    case Some(k) => [cards[k].id, cards[k + 1].id]
  }

  /** The pair detection loop: the first equal adjacent pair from the bottom, then break. */
  method DetectMergingPair(cards: seq<Card>) returns (mergingCardIds: seq<nat>)
    ensures mergingCardIds == MergingPair(cards)
  {
    mergingCardIds := [];
    var i := 0;
    while i < |cards| - 1
      invariant 0 <= i <= |cards| && NoPairBelow(cards, i)
    {
      if cards[i].value == cards[i + 1].value {
        mergingCardIds := [cards[i].id, cards[i + 1].id];
        FirstPairAt(cards, i);
        return;
      }
      i := i + 1;
    }
  }

  /**
   * The cards marked for animation are exactly the pair the following chain merge
   * replaces: a pair is marked precisely when the merge changes the column, and the merged
   * card takes the place of the two marked cards, everything else staying where it was.
   */
  lemma MergingPairIsMerged(s: seq<Card>, nextId: nat, mint: Minter)
    ensures MergingPair(s) != [] <==> ChainMerged(s, nextId, mint).changed
    ensures MergingPair(s) != [] ==>
      var k := FirstPair(s).value;
      && MergingPair(s) == [s[k].id, s[k + 1].id]
      && ChainMerged(s, nextId, mint).cards == s[..k] + [Mint(nextId, 2 * s[k].value, mint)] + s[k + 2..]
  {
    ChainMergeShape(s, nextId, mint);
  }

  /**
   * The store's merge loop on one column: while a pair is detected, apply one chain merge;
   * a positive gain is added to the score.
   */
  function StoreResolve(s: seq<Card>, nextId: nat, mint: Minter): Merge
    decreases |s|
  {
    if FirstPair(s).None? then Merge(s, 0, nextId, false)
    else
      var m := ChainMerged(s, nextId, mint);
      ChainMergeShape(s, nextId, mint);
      var r := StoreResolve(m.cards, m.nextId, mint);
      Merge(r.cards, (if m.gain > 0 then m.gain else 0) + r.gain, r.nextId, true)
  }

  /**
   * One round of the loop: with no pair marked nothing changes; with a pair marked the chain
   * merge shortens the column and the loop goes on from what it leaves.
   */
  lemma StoreResolveStep(s: seq<Card>, nextId: nat, mint: Minter)
    ensures MergingPair(s) == [] ==> StoreResolve(s, nextId, mint) == Merge(s, 0, nextId, false)
    ensures MergingPair(s) != [] ==>
      var m := ChainMerged(s, nextId, mint);
      var r := StoreResolve(m.cards, m.nextId, mint);
      && |m.cards| < |s|
      && StoreResolve(s, nextId, mint) == Merge(r.cards, (if m.gain > 0 then m.gain else 0) + r.gain, r.nextId, true)
  {
    ChainMergeShape(s, nextId, mint);
  }

  /**
   * The loop stops with no equal adjacent pair left, keeps the value sum, never lowers the
   * score, and changes the column exactly when it had a pair.
   */
  lemma {:induction false} StoreResolveFacts(s: seq<Card>, nextId: nat, mint: Minter)
    ensures var r := StoreResolve(s, nextId, mint);
      && Settled(r.cards) && Sum(r.cards) == Sum(s) && r.gain >= 0
      && (r.changed <==> !Settled(s)) && (!r.changed ==> r.cards == s && r.nextId == nextId)
      && |r.cards| <= |s|
    decreases |s|
  {
    if FirstPair(s).Some? {
      var m := ChainMerged(s, nextId, mint);
      ChainMergeShape(s, nextId, mint);
      ChainMergeKeepsSum(s, nextId, mint);
      StoreResolveFacts(m.cards, m.nextId, mint);
    }
  }

  // ---------------------------------------------------------------------------
  // The store

  class GameStore {
    var score: int
    var time: int
    var columns: seq<Column>
    var queue: seq<Card>
    var deck: seq<Card>
    var history: seq<Snapshot>
    var undoCount: int
    var trashCount: int
    var isAnimating: bool
    var animatingCards: seq<nat>
    var isGameOver: bool
    /** The next fresh card id. */
    var nextId: nat
    /** The luck of the cards the store creates. */
    const mint: Minter

    function Current(): Board
      reads this
    {
      Board(columns, queue, deck, score, history, undoCount, trashCount)
    }

    ghost predicate Valid()
      reads this
    {
      BoardInvariant(Current())
    }

    /** The store as created: a new game, with ids from 0. */
    constructor (rng: Stream, pos: nat, mint: Minter)
      requires Unit(rng)
      ensures Valid() && this.mint == mint
      ensures var s := InitialSetup(0, rng, pos, mint);
        Current() == SetupBoard(s) && nextId == s.nextId
      ensures time == 0 && !isAnimating && animatingCards == [] && !isGameOver
    {
      this.mint := mint;
      columns, queue, deck, score := [], [], [], 0;
      time, history, undoCount, trashCount := 0, [], 2, 1;
      isAnimating, animatingCards, isGameOver := false, [], false;
      nextId := 0;
      new;
      ResetGame(rng, pos);
    }

    /** resetGame: a new game, with ids continuing from the current counter. */
    method ResetGame(rng: Stream, pos: nat)
      requires Unit(rng)
      modifies this
      ensures Valid()
      ensures var s := InitialSetup(old(nextId), rng, pos, mint);
        Current() == SetupBoard(s) && nextId == s.nextId
      ensures time == 0 && !isAnimating && animatingCards == [] && !isGameOver
    {
      var s := InitializeGame(nextId, rng, pos, mint);
      columns, queue, deck, score, history, undoCount, trashCount := s.columns, s.queue, s.deck, s.score, [], 2, 1;
      time, isAnimating, animatingCards, isGameOver := 0, false, [], false;
      nextId := s.nextId;
      assert Current() == SetupBoard(s);
    }

    /** moveCardFromQueue; returns whether the merge of the target column was scheduled. */
    method MoveCardFromQueue(toColumnId: int) returns (mergeScheduled: bool)
      requires Valid()
      modifies this
      ensures Valid()
      ensures var m := StoreMove(old(Current()), old(isAnimating), old(isGameOver), toColumnId);
        Current() == m.board && isGameOver == m.isGameOver && mergeScheduled == m.mergeScheduled
      ensures isAnimating == old(isAnimating) && animatingCards == old(animatingCards)
      ensures nextId == old(nextId) && time == old(time)
    {
      ghost var b := Current();
      StoreMoveConserves(b, isAnimating, isGameOver, toColumnId);
      StoreMoveGuards(b, isAnimating, isGameOver, toColumnId);
      if isAnimating || isGameOver {
        return false;
      }
      if |queue| == 0 {
        return false;
      }
      var found := FindColumn(columns, toColumnId);
      var cardToMove := queue[|queue| - 1];
      if found.None? {
        return false;
      }
      var toColumn := columns[found.value];
      if !CanPlaceCard(cardToMove, toColumn) || |toColumn.cards| >= ColumnLimit {
        if |toColumn.cards| >= ColumnLimit {
          isGameOver := true;
        }
        return false;
      }
      PlaceFromQueue(toColumnId);
      if CheckGameOver(columns, queue, deck, trashCount) {
        isGameOver := true;
        mergeScheduled := false;
      } else {
        mergeScheduled := true;
      }
    }

    /** The placement step of moveCardFromQueue, once the move is known to be legal. */
    method PlaceFromQueue(toColumnId: int)
      requires queue != []
      modifies this
      ensures Current() == Placed(old(Current()), toColumnId)
      ensures isAnimating == old(isAnimating) && animatingCards == old(animatingCards)
      ensures isGameOver == old(isGameOver) && nextId == old(nextId) && time == old(time)
    {
      var cardToMove := queue[|queue| - 1];
      var newQueue := queue[..|queue| - 1];
      var newDeck := deck;
      if newDeck != [] {
        var nextCard := newDeck[|newDeck| - 1];
        newDeck := newDeck[..|newDeck| - 1];
        newQueue := [nextCard] + newQueue;
      }
      var newColumns := PlaceOnColumn(columns, toColumnId, cardToMove);
      var newHistory := PushHistory(Snapshot(columns, queue, deck, score), history);
      columns, queue, deck, history := newColumns, newQueue, newDeck, newHistory;
    }

    method Undo()
      requires Valid()
      modifies this
      ensures Valid() && Current() == StoreUndo(old(Current()))
      ensures isAnimating == old(isAnimating) && animatingCards == old(animatingCards)
      ensures isGameOver == old(isGameOver) && nextId == old(nextId) && time == old(time)
    {
      StoreUndoFacts(Current());
      if undoCount > 0 && |history| > 0 {
        var lastState := history[0];
        columns, queue, deck, score := lastState.columns, lastState.queue, lastState.deck, lastState.score;
        history := history[1..];
        undoCount := undoCount - 1;
      }
    }

    method TrashCard()
      requires Valid()
      modifies this
      ensures Valid() && Current() == StoreTrash(old(Current()))
      ensures isAnimating == old(isAnimating) && animatingCards == old(animatingCards)
      ensures isGameOver == old(isGameOver) && nextId == old(nextId) && time == old(time)
    {
      StoreTrashFacts(Current());
      if trashCount > 0 && |queue| > 0 {
        var newQueue := queue[..|queue| - 1];
        var newDeck := deck;
        if newDeck != [] {
          var nextCard := newDeck[|newDeck| - 1];
          newDeck := newDeck[..|newDeck| - 1];
          newQueue := [nextCard] + newQueue;
        }
        queue, deck, trashCount := newQueue, newDeck, trashCount - 1;
      }
    }

    method AddScore(points: int)
      modifies this
      ensures score == old(score) + points
      ensures Current() == old(Current()).(score := score)
      ensures isAnimating == old(isAnimating) && animatingCards == old(animatingCards)
      ensures isGameOver == old(isGameOver) && nextId == old(nextId) && time == old(time)
    {
      score := score + points;
    }

    method SetAnimating(flag: bool)
      modifies this
      ensures isAnimating == flag && Current() == old(Current()) && animatingCards == old(animatingCards)
      ensures isGameOver == old(isGameOver) && nextId == old(nextId) && time == old(time)
    {
      isAnimating := flag;
    }

    method SetAnimatingCards(cardIds: seq<nat>)
      modifies this
      ensures animatingCards == cardIds && Current() == old(Current()) && isAnimating == old(isAnimating)
      ensures isGameOver == old(isGameOver) && nextId == old(nextId) && time == old(time)
    {
      animatingCards := cardIds;
    }

    /**
     * processMergeWithAnimation, its two timers run at once: while the column shows an
     * equal pair, mark the pair, chain-merge the column, clear the marks and score a
     * positive gain.
     */
    method ProcessMergeWithAnimation(columnId: int)
      requires Valid()
      modifies this
      ensures Valid()
      ensures FindColumn(old(columns), columnId).None? ==>
        columns == old(columns) && score == old(score) && nextId == old(nextId)
        && isAnimating == old(isAnimating) && animatingCards == old(animatingCards)
      ensures FindColumn(old(columns), columnId).Some? ==>
        var j := FindColumn(old(columns), columnId).value;
        var r := StoreResolve(old(columns)[j].cards, old(nextId), mint);
        && columns == old(columns)[j := Column(columnId, r.cards)]
        && score == old(score) + r.gain && nextId == r.nextId
        && isAnimating == (if r.changed then false else old(isAnimating))
        && animatingCards == (if r.changed then [] else old(animatingCards))
      ensures queue == old(queue) && deck == old(deck) && history == old(history)
      ensures undoCount == old(undoCount) && trashCount == old(trashCount)
      ensures isGameOver == old(isGameOver) && time == old(time)
    {
      var found := FindColumn(columns, columnId);
      if found.None? {
        return;
      }
      var j := found.value;
      ResolveColumn(j);
      assert old(columns)[j].id == columnId;
    }

    /**
     * processMerge on the column at index j: when the column shows an equal pair, one
     * round of marking and chain-merging, then processMerge again (the source re-enters it
     * from a timer).
     */
    method ResolveColumn(j: nat)
      requires j < |columns|
      modifies this
      ensures var r := StoreResolve(old(columns)[j].cards, old(nextId), mint);
        && columns == old(columns)[j := Column(old(columns)[j].id, r.cards)]
        && score == old(score) + r.gain && nextId == r.nextId
        && isAnimating == (if r.changed then false else old(isAnimating))
        && animatingCards == (if r.changed then [] else old(animatingCards))
      ensures queue == old(queue) && deck == old(deck) && history == old(history)
      ensures undoCount == old(undoCount) && trashCount == old(trashCount)
      ensures isGameOver == old(isGameOver) && time == old(time)
      decreases |columns[j].cards|
    {
      StoreResolveStep(columns[j].cards, nextId, mint);
      var mergingCardIds := DetectMergingPair(columns[j].cards);
      if mergingCardIds != [] {
        AnimateChainMerge(j, mergingCardIds);
        ResolveColumn(j);
      }
    }

    /**
     * One round of processMergeWithAnimation: mark the pair, chain-merge the column at
     * index j (the delayed step finds it again at the same index), clear the marks and
     * score a positive gain.
     */
    method AnimateChainMerge(j: nat, mergingCardIds: seq<nat>)
      requires j < |columns|
      modifies this
      ensures var m := ChainMerged(old(columns)[j].cards, old(nextId), mint);
        && columns == old(columns)[j := Column(old(columns)[j].id, m.cards)]
        && nextId == m.nextId && score == old(score) + (if m.gain > 0 then m.gain else 0)
      ensures !isAnimating && animatingCards == []
      ensures queue == old(queue) && deck == old(deck) && history == old(history)
      ensures undoCount == old(undoCount) && trashCount == old(trashCount)
      ensures isGameOver == old(isGameOver) && time == old(time)
    {
      ghost var m := ChainMerged(columns[j].cards, nextId, mint);
      var column := columns[j];
      isAnimating := true;
      animatingCards := mergingCardIds;
      var mergedColumn, scoreGained, nextFresh := ProcessChainMerge(column, nextId, mint);
      assert mergedColumn == Column(column.id, m.cards) && scoreGained == m.gain && nextFresh == m.nextId;
      columns, isAnimating, animatingCards, nextId := columns[j := mergedColumn], false, [], nextFresh;
      if scoreGained > 0 {
        score := score + scoreGained;
      }
    }
  }
}
