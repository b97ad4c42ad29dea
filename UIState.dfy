// The UI store (src/state/UIState.ts): the animation flag, the ids of the cards being
// animated, and the game-over banner with its trigger column and reason.

module UIState {
  import opened Cards

  /** Why the game ended (src/state/types.ts). */
  datatype GameOverReason = Overflow | Deadlock | DeckEmpty

  /** The payload of setGameOver: the outcome of evaluating the board for game over. */
  datatype GameOverEvaluation =
    GameOverEvaluation(isGameOver: bool, triggerColumnId: Option<int>, reason: Option<GameOverReason>)

  predicate NoDuplicates(s: seq<int>)
  {
    forall i, j :: 0 <= i < j < |s| ==> s[i] != s[j]
  }

  /** Array.from(new Set(s)): every id once, in the order of its first occurrence. */
  function Dedup(s: seq<int>): seq<int>
  {
    if s == [] then []
    else
      var d := Dedup(s[..|s| - 1]);
      if s[|s| - 1] in d then d else d + [s[|s| - 1]]
  }

  /** The set keeps exactly the ids of s, each once, and changes nothing when s has no repeats. */
  lemma {:induction false} DedupFacts(s: seq<int>)
    ensures NoDuplicates(Dedup(s))
    ensures forall x :: x in Dedup(s) <==> x in s
    ensures NoDuplicates(s) ==> Dedup(s) == s
  {
    if s != [] {
      var init := s[..|s| - 1];
      DedupFacts(init);
      assert s == init + [s[|s| - 1]];
      if NoDuplicates(s) {
        assert NoDuplicates(init);
        assert s[|s| - 1] !in init;
      }
    }
  }

  /** Adding ids to the animating set keeps the ids already there, in front and in their order. */
  lemma {:induction false} DedupKeepsPrefix(a: seq<int>, b: seq<int>)
    ensures |Dedup(a)| <= |Dedup(a + b)| && Dedup(a + b)[..|Dedup(a)|] == Dedup(a)
  {
    if b == [] {
      assert a + b == a;
    } else {
      var b' := b[..|b| - 1];
      DedupKeepsPrefix(a, b');
      assert (a + b)[..|a + b| - 1] == a + b';
    }
  }

  /** cardIds.filter(id => !drop.includes(id)). */
  function Without(s: seq<int>, drop: seq<int>): seq<int>
  {
    if s == [] then []
    else if s[0] in drop then Without(s[1..], drop)
    else [s[0]] + Without(s[1..], drop)
  }

  /** Removal keeps exactly the ids not dropped, and introduces no repeats. */
  lemma {:induction false} WithoutFacts(s: seq<int>, drop: seq<int>)
    ensures forall x :: x in Without(s, drop) <==> x in s && x !in drop
    ensures NoDuplicates(s) ==> NoDuplicates(Without(s, drop))
    ensures |Without(s, drop)| <= |s|
  {
    if s != [] {
      WithoutFacts(s[1..], drop);
      assert s == [s[0]] + s[1..];
      if NoDuplicates(s) {
        assert NoDuplicates(s[1..]) by {
          forall i, j | 0 <= i < j < |s[1..]| ensures s[1..][i] != s[1..][j] {
            assert s[1..][i] == s[i + 1] && s[1..][j] == s[j + 1];
          }
        }
        assert s[0] !in s[1..] by {
          forall k | 0 <= k < |s[1..]| ensures s[1..][k] != s[0] {
            assert s[1..][k] == s[k + 1];
          }
        }
        if s[0] !in drop {
          var w := Without(s[1..], drop);
          assert s[0] !in w;
          forall i, j | 0 <= i < j < |[s[0]] + w| ensures ([s[0]] + w)[i] != ([s[0]] + w)[j] {
            if i > 0 {
              assert ([s[0]] + w)[i] == w[i - 1] && ([s[0]] + w)[j] == w[j - 1];
            } else {
              assert ([s[0]] + w)[j] == w[j - 1];
            }
          }
        }
      }
    }
  }

  /** Removing from a concatenation removes from each part. */
  lemma {:induction false} WithoutAppend(a: seq<int>, b: seq<int>, drop: seq<int>)
    ensures Without(a + b, drop) == Without(a, drop) + Without(b, drop)
  {
    if a != [] {
      WithoutAppend(a[1..], b, drop);
      assert (a + b)[0] == a[0] && (a + b)[1..] == a[1..] + b;
    } else {
      assert a + b == b;
    }
  }

  /** Removing two lists of ids one after the other removes both at once. */
  lemma {:induction false} WithoutTwice(s: seq<int>, x: seq<int>, y: seq<int>)
    ensures Without(Without(s, x), y) == Without(s, x + y)
  {
    if s != [] {
      WithoutTwice(s[1..], x, y);
      if s[0] !in x {
        assert ([s[0]] + Without(s[1..], x))[1..] == Without(s[1..], x);
      }
    }
  }

  /** Removing nothing changes nothing. */
  lemma {:induction false} WithoutNothing(s: seq<int>)
    ensures Without(s, []) == s
  {
    if s != [] {
      WithoutNothing(s[1..]);
      assert s == [s[0]] + s[1..];
    }
  }

  /**
   * Marking ids and then unmarking the same ids leaves the marks as they were, less those
   * ids: any mark the pair shared with the old marks goes too, every other old mark stays
   * in its place.
   */
  lemma MarkThenUnmark(a: seq<int>, ids: seq<int>)
    requires NoDuplicates(a)
    ensures Without(Dedup(a + ids), ids) == Without(a, ids)
  {
    var d := Dedup(a + ids);
    assert |a| <= |d| && d[..|a|] == a by {
      DedupFacts(a);
      DedupKeepsPrefix(a, ids);
    }
    var t := d[|a|..];
    assert d == a + t;
    assert NoDuplicates(d) && forall x :: x in d ==> x in a + ids by {
      DedupFacts(a + ids);
    }
    forall k | 0 <= k < |t| ensures t[k] in ids {
      NewMarkIsGiven(a, t, ids, t[k]);
    }
    WithoutAppend(a, t, ids);
    WithoutAllDropped(t, ids);
  }

  /** An id past the old marks in a repeat-free extension is not an old mark, so it is one of the new ids. */
  lemma NewMarkIsGiven(a: seq<int>, t: seq<int>, ids: seq<int>, x: int)
    requires NoDuplicates(a + t) && (forall y :: y in a + t ==> y in a + ids) && x in t
    ensures x in ids
  {
    var k :| 0 <= k < |t| && t[k] == x;
    assert (a + t)[|a| + k] == x;
    assert x !in a by {
      forall i | 0 <= i < |a| ensures a[i] != x {
        assert (a + t)[i] == a[i];
      }
    }
    assert x in a + ids;
  }

  lemma {:induction false} WithoutAllDropped(t: seq<int>, drop: seq<int>)
    requires forall i :: 0 <= i < |t| ==> t[i] in drop
    ensures Without(t, drop) == []
  {
    if t != [] {
      assert t[0] in drop;
      WithoutAllDropped(t[1..], drop);
    }
  }

  class UIStore {
    var isAnimating: bool
    var animatingCards: seq<int>
    var gameOverTriggerColumnId: Option<int>
    var gameOverReason: Option<GameOverReason>
    var isGameOver: bool
    var animationFinished: bool

    /** The animating ids never repeat. */
    ghost predicate Valid()
      reads this
    {
      NoDuplicates(animatingCards)
    }

    /** The game-over banner as an evaluation: flag, trigger column and reason. */
    function Banner(): GameOverEvaluation
      reads this
    {
      GameOverEvaluation(isGameOver, gameOverTriggerColumnId, gameOverReason)
    }

    /** The initial UI state. */
    constructor ()
      ensures Valid()
      ensures !isAnimating && animatingCards == [] && gameOverTriggerColumnId == None
      ensures gameOverReason == None && !isGameOver && !animationFinished
    {
      isAnimating := false;
      animatingCards := [];
      gameOverTriggerColumnId := None;
      gameOverReason := None;
      isGameOver := false;
      animationFinished := false;
    }

    method SetAnimating(flag: bool)
      modifies this
      ensures isAnimating == flag
      ensures animatingCards == old(animatingCards) && isGameOver == old(isGameOver)
      ensures gameOverTriggerColumnId == old(gameOverTriggerColumnId) && gameOverReason == old(gameOverReason)
      ensures animationFinished == old(animationFinished)
    {
      isAnimating := flag;
    }

    method AddAnimatingCards(cardIds: seq<int>)
      requires Valid()
      modifies this
      ensures Valid()
      ensures animatingCards == Dedup(old(animatingCards) + cardIds)
      ensures forall x :: x in animatingCards <==> x in old(animatingCards) || x in cardIds
      ensures |old(animatingCards)| <= |animatingCards|
      ensures animatingCards[..|old(animatingCards)|] == old(animatingCards)
      ensures isAnimating == old(isAnimating) && isGameOver == old(isGameOver)
      ensures gameOverTriggerColumnId == old(gameOverTriggerColumnId) && gameOverReason == old(gameOverReason)
      ensures animationFinished == old(animationFinished)
    {
      DedupFacts(animatingCards + cardIds);
      DedupFacts(animatingCards);
      DedupKeepsPrefix(animatingCards, cardIds);
      animatingCards := Dedup(animatingCards + cardIds);
    }

    method RemoveAnimatingCards(cardIds: seq<int>)
      requires Valid()
      modifies this
      ensures Valid()
      ensures animatingCards == Without(old(animatingCards), cardIds)
      ensures forall x :: x in animatingCards <==> x in old(animatingCards) && x !in cardIds
      ensures isAnimating == old(isAnimating) && isGameOver == old(isGameOver)
      ensures gameOverTriggerColumnId == old(gameOverTriggerColumnId) && gameOverReason == old(gameOverReason)
      ensures animationFinished == old(animationFinished)
    {
      WithoutFacts(animatingCards, cardIds);
      animatingCards := Without(animatingCards, cardIds);
    }

    method ClearAnimatingCards()
      modifies this
      ensures Valid() && animatingCards == []
      ensures isAnimating == old(isAnimating) && isGameOver == old(isGameOver)
      ensures gameOverTriggerColumnId == old(gameOverTriggerColumnId) && gameOverReason == old(gameOverReason)
      ensures animationFinished == old(animationFinished)
    {
      animatingCards := [];
    }

    /** A game that is not over shows no trigger column and no reason. */
    method SetGameOver(payload: GameOverEvaluation)
      modifies this
      ensures isGameOver == payload.isGameOver && !animationFinished
      ensures payload.isGameOver ==>
        gameOverTriggerColumnId == payload.triggerColumnId && gameOverReason == payload.reason
      ensures !payload.isGameOver ==> gameOverTriggerColumnId == None && gameOverReason == None
      ensures isAnimating == old(isAnimating) && animatingCards == old(animatingCards)
    {
      isGameOver := payload.isGameOver;
      if payload.isGameOver {
        gameOverTriggerColumnId := payload.triggerColumnId;
        gameOverReason := payload.reason;
        animationFinished := false;
      } else {
        gameOverTriggerColumnId := None;
        gameOverReason := None;
        animationFinished := false;
      }
    }

    method ResetGameOver()
      modifies this
      ensures !isGameOver && gameOverTriggerColumnId == None && gameOverReason == None && !animationFinished
      ensures isAnimating == old(isAnimating) && animatingCards == old(animatingCards)
    {
      isGameOver := false;
      gameOverTriggerColumnId := None;
      gameOverReason := None;
      animationFinished := false;
    }

    method SetAnimationFinished(finished: bool)
      modifies this
      ensures animationFinished == finished
      ensures isAnimating == old(isAnimating) && animatingCards == old(animatingCards)
      ensures isGameOver == old(isGameOver)
      ensures gameOverTriggerColumnId == old(gameOverTriggerColumnId) && gameOverReason == old(gameOverReason)
    {
      animationFinished := finished;
    }
  }
}
