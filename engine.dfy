/**
 * The game-state engine of index.js without the DOM: the global `gameState`
 * record becomes a `Game` object, each card element a `Card` object, and
 * each event handler and each deferred `setTimeout` callback a method that
 * the environment (the browser's event loop) calls.
 */
module Engine {
  import opened Wrappers
  import opened Seqs
  import Board
  import Difficulty

  /** One card element of the grid. */
  class Card {
    /** The item whose image is on the front face. */
    const item: Board.Item
    /** The card carries the `flip` class: its front face is shown. */
    var faceUp: bool
    /** handleCardClick is still attached as the card's click listener. */
    var clickable: bool

    constructor (item: Board.Item)
      ensures this.item == item && !faceUp && clickable
    {
      this.item := item;
      faceUp := false;
      clickable := true;
    }
  }

  /** The items shown by a sequence of cards. */
  function ItemsOf(cards: seq<Card>): (items: seq<Board.Item>)
    ensures |items| == |cards| && forall i :: 0 <= i < |cards| ==> items[i] == cards[i].item
  {
    if cards == [] then [] else [cards[0].item] + ItemsOf(cards[1..])
  }

  /** One fresh face-down, clickable card per item, in order (the loop of generateCards). */
  method NewCards(items: seq<Board.Item>) returns (cards: seq<Card>)
    ensures Distinct(cards) && ItemsOf(cards) == items
    ensures forall c :: c in cards ==> fresh(c) && !c.faceUp && c.clickable
  {
    cards := [];
    var i := 0;
    while i < |items|
      invariant 0 <= i <= |items| && |cards| == i
      invariant Distinct(cards) && ItemsOf(cards) == items[..i]
      invariant forall c :: c in cards ==> fresh(c) && !c.faceUp && c.clickable
    {
      var card := new Card(items[i]);
      cards := cards + [card];
      i := i + 1;
    }
  }

  /** What a click on a card did, and which deferred callbacks it scheduled. */
  datatype ClickOutcome =
    | Ignored
      /** First card of a pair turned face-up. */
    | Revealed
      /** Second card matched the first; `won` when that completed the game.
          The pair reset is scheduled. */
    | Matched(won: bool)
      /** Second card differs from the first; the un-flip of these two cards
          and the pair reset are scheduled. */
    | Mismatched(first: Card, second: Card)

  class Game {
    var difficulty: string
    var totalPairs: int
    var timeLimit: int
    var timeLeft: int
    var clicks: nat
    var matchedPairs: nat
    var flippedCards: seq<Card>
    /** An interval timer (timerId) is active. */
    var timerRunning: bool
    var isProcessing: bool
    var powerups: nat
    var gameActive: bool
    /** The cards of the grid, in grid order. */
    var board: seq<Card>
    /** The cards of the board that have been matched in this session. */
    ghost var matched: set<Card>

    /** The invariant of the state, except the link between winning and ending. */
    ghost predicate Consistent()
      reads this, Elements(board)
    {
      && Distinct(board)
      && |flippedCards| <= 2
      && (|flippedCards| == 2 ==> isProcessing)
      && Distinct(flippedCards)
      && (forall c :: c in flippedCards ==> c in board)
      && (forall c :: c in matched ==> c in board && !c.clickable)
      && |matched| == 2 * matchedPairs
      && (gameActive && !isProcessing ==> forall c :: c in flippedCards ==> c.clickable)
      && 0 < totalPairs
      && matchedPairs <= totalPairs
    }

    /** The state invariant: a game that is still running has not yet been won. */
    ghost predicate Valid()
      reads this, Elements(board)
    {
      Consistent() && (gameActive ==> matchedPairs < totalPairs)
    }

    /** The initial `gameState` record, with the easy settings loaded on page load. */
    constructor ()
      ensures Valid()
      ensures difficulty == "easy" && totalPairs == 3 && timeLimit == 60 && timeLeft == 60
      ensures clicks == 0 && matchedPairs == 0 && flippedCards == [] && powerups == 3
      ensures !timerRunning && !isProcessing && !gameActive && board == []
    {
      difficulty := "easy";
      totalPairs := 3;
      timeLimit := 60;
      timeLeft := 60;
      clicks := 0;
      matchedPairs := 0;
      flippedCards := [];
      timerRunning := false;
      isProcessing := false;
      powerups := 3;
      gameActive := false;
      board := [];
      matched := {};
      new;
      var settings := Difficulty.Lookup(difficulty);
      totalPairs := settings.value.pairs;
      timeLimit := settings.value.time;
    }

    /** The pairs still to be found, as the status line shows them. */
    function Remaining(): (r: int)
      reads this, Elements(board)
      requires Valid()
      ensures 0 <= r <= totalPairs
      ensures r == 0 <==> matchedPairs == totalPairs
      ensures gameActive ==> 0 < r
    {
      totalPairs - matchedPairs
    }

    /**
     * The first, synchronous part of initializeGame: everything before the
     * fetch is awaited. isProcessing and a running interval are left as they are.
     */
    method BeginInitialize()
      requires 0 < totalPairs
      modifies this
      ensures Valid()
      ensures gameActive && timeLeft == timeLimit && clicks == 0 && matchedPairs == 0
      ensures flippedCards == [] && powerups == 3 && board == []
      ensures isProcessing == old(isProcessing) && timerRunning == old(timerRunning)
      ensures difficulty == old(difficulty) && totalPairs == old(totalPairs) && timeLimit == old(timeLimit)
    {
      gameActive := true;
      timeLeft := timeLimit;
      clicks := 0;
      matchedPairs := 0;
      flippedCards := [];
      powerups := 3;
      board := [];
      matched := {};
    }

    /**
     * The rest of initializeGame once the fetch has resolved with `items`:
     * generateCards appends the shuffled cards to the grid (it does not
     * clear it), then startTimer replaces any running interval by a new one.
     */
    method CompleteInitialize(items: seq<Board.Item>, perm: seq<nat>)
      requires Valid() && Board.IsPermutation(perm, 2 * |items|)
      modifies this
      ensures Valid() && timerRunning
      ensures |board| == old(|board|) + 2 * |items| && board[..old(|board|)] == old(board)
      ensures ItemsOf(board[old(|board|)..]) == Board.BuildBoard(items, perm)
      ensures forall c :: c in board[old(|board|)..] ==> fresh(c) && !c.faceUp && c.clickable
      ensures difficulty == old(difficulty) && totalPairs == old(totalPairs) && timeLimit == old(timeLimit)
      ensures timeLeft == old(timeLeft) && clicks == old(clicks) && matchedPairs == old(matchedPairs)
      ensures flippedCards == old(flippedCards) && isProcessing == old(isProcessing)
      ensures powerups == old(powerups) && gameActive == old(gameActive)
    {
      var created := NewCards(Board.BuildBoard(items, perm));
      assert forall c :: c in created ==> c !in board;
      DistinctConcat(board, created);
      board := board + created;
      timerRunning := true;
      assert board[old(|board|)..] == created;
    }

    /**
     * The difficulty selector: store the level name, load its settings and
     * start a new game. A name without an entry in the table makes the
     * handler fail right after the name is stored.
     */
    method ChangeDifficulty(level: string) returns (started: bool)
      requires Valid()
      modifies this
      ensures Valid()
      ensures difficulty == level
      ensures started <==> Difficulty.Lookup(level).Some?
      ensures !started ==>
        && totalPairs == old(totalPairs) && timeLimit == old(timeLimit) && timeLeft == old(timeLeft)
        && clicks == old(clicks) && matchedPairs == old(matchedPairs) && flippedCards == old(flippedCards)
        && powerups == old(powerups) && gameActive == old(gameActive) && board == old(board)
      ensures started ==>
        && totalPairs == Difficulty.Lookup(level).value.pairs
        && timeLimit == Difficulty.Lookup(level).value.time
        && gameActive && timeLeft == timeLimit && clicks == 0 && matchedPairs == 0
        && flippedCards == [] && powerups == 3 && board == []
      ensures isProcessing == old(isProcessing) && timerRunning == old(timerRunning)
    {
      var settings := Difficulty.Lookup(level);
      difficulty := level;
      if settings.None? {
        return false;
      }
      totalPairs := settings.value.pairs;
      timeLimit := settings.value.time;
      BeginInitialize();
      started := true;
    }

    /**
     * endGame without the alert: stop the interval, mark the game inactive
     * and detach the click listener of every card on the grid.
     */
    method EndGame()
      requires Consistent()
      modifies this, Elements(board)
      ensures Valid() && !gameActive && !timerRunning
      ensures forall c :: c in old(board) ==> !c.clickable && c.faceUp == old(c.faceUp)
      ensures board == old(board) && matched == old(matched) && flippedCards == old(flippedCards)
      ensures difficulty == old(difficulty) && totalPairs == old(totalPairs) && timeLimit == old(timeLimit)
      ensures timeLeft == old(timeLeft) && clicks == old(clicks) && matchedPairs == old(matchedPairs)
      ensures isProcessing == old(isProcessing) && powerups == old(powerups)
    {
      timerRunning := false;
      gameActive := false;
      var i := 0;
      while i < |board|
        modifies Elements(board)
        invariant 0 <= i <= |board|
        invariant forall j :: 0 <= j < i ==> !board[j].clickable
        invariant forall c :: c in board ==> c.faceUp == old(c.faceUp)
        invariant forall c :: c in board && c.clickable ==> old(c.clickable)
      {
        board[i].clickable := false;
        i := i + 1;
      }
    }

    /** checkWin: the game is won, and ends, when every pair has been found. */
    method CheckWin() returns (won: bool)
      requires Consistent()
      modifies this, Elements(board)
      ensures Valid()
      ensures won <==> old(matchedPairs) == old(totalPairs)
      ensures won ==> !gameActive && !timerRunning && forall c :: c in board ==> !c.clickable
      ensures !won ==> unchanged(this) && unchanged(board)
      ensures forall c :: c in old(board) ==> c.faceUp == old(c.faceUp)
      ensures board == old(board) && matched == old(matched) && flippedCards == old(flippedCards)
      ensures difficulty == old(difficulty) && totalPairs == old(totalPairs) && timeLimit == old(timeLimit)
      ensures timeLeft == old(timeLeft) && clicks == old(clicks) && matchedPairs == old(matchedPairs)
      ensures isProcessing == old(isProcessing) && powerups == old(powerups)
    {
      won := matchedPairs == totalPairs;
      if won {
        EndGame();
      }
    }

    /**
     * handleCardClick, reached only while the card still has its listener.
     * The click is ignored when the game is inactive, a pair is being
     * compared, the card is already face-up or already among the flipped
     * cards. Otherwise it is counted, the card turns face-up and joins the
     * flipped cards; the second one starts the comparison.
     */
    method Click(card: Card) returns (outcome: ClickOutcome)
      requires Valid() && card in board
      modifies this, Elements(board)
      ensures Valid()
      ensures outcome.Ignored? <==>
        old(!card.clickable || !gameActive || isProcessing || card.faceUp || card in flippedCards)
      ensures outcome.Ignored? ==> unchanged(this) && unchanged(board)
      ensures board == old(board) && difficulty == old(difficulty) && totalPairs == old(totalPairs)
      ensures timeLimit == old(timeLimit) && timeLeft == old(timeLeft) && powerups == old(powerups)
      ensures forall c :: c in old(board) && c != card ==> c.faceUp == old(c.faceUp)
      ensures !outcome.Ignored? ==>
        && clicks == old(clicks) + 1 && card.faceUp
        && flippedCards == old(flippedCards) + [card]
        && |flippedCards| <= 2 && (isProcessing <==> |flippedCards| == 2)
      ensures outcome.Revealed? <==> !outcome.Ignored? && |flippedCards| == 1
      ensures outcome.Matched? <==>
        !outcome.Ignored? && |flippedCards| == 2 && flippedCards[0].item.image == card.item.image
      ensures !outcome.Matched? ==> matchedPairs == old(matchedPairs)
      ensures !outcome.Matched? || !outcome.won ==>
        gameActive == old(gameActive) && timerRunning == old(timerRunning)
      ensures !outcome.Matched? ==> forall c :: c in old(board) ==> c.clickable == old(c.clickable)
      ensures outcome.Matched? ==>
        && matchedPairs == old(matchedPairs) + 1
        && !flippedCards[0].clickable && !card.clickable
        && (outcome.won <==> matchedPairs == totalPairs)
      ensures outcome.Matched? && !outcome.won ==>
        forall c :: c in old(board) && c != card && c != flippedCards[0] ==> c.clickable == old(c.clickable)
      ensures outcome.Matched? && outcome.won ==>
        !gameActive && !timerRunning && forall c :: c in board ==> !c.clickable
      ensures outcome.Mismatched? ==> outcome == Mismatched(flippedCards[0], card)
    {
      if !card.clickable || !gameActive || isProcessing || card.faceUp || card in flippedCards {
        return Ignored;
      }
      clicks := clicks + 1;
      card.faceUp := true;
      flippedCards := flippedCards + [card];
      if |flippedCards| == 2 {
        isProcessing := true;
        outcome := CheckMatch();
      } else {
        outcome := Revealed;
      }
    }

    /**
     * checkMatch: the two flipped cards match exactly when their front
     * images are the same string. A match counts a pair, detaches both
     * listeners and checks for the win; a mismatch leaves the counters alone.
     */
    method CheckMatch() returns (outcome: ClickOutcome)
      requires Consistent() && gameActive && matchedPairs < totalPairs
      requires |flippedCards| == 2 && isProcessing
      requires flippedCards[0].clickable && flippedCards[1].clickable
      modifies this, Elements(board)
      ensures Valid()
      ensures board == old(board) && flippedCards == old(flippedCards) && isProcessing
      ensures outcome.Matched? || outcome.Mismatched?
      ensures outcome.Matched? <==> flippedCards[0].item.image == flippedCards[1].item.image
      ensures difficulty == old(difficulty) && totalPairs == old(totalPairs) && timeLimit == old(timeLimit)
      ensures timeLeft == old(timeLeft) && clicks == old(clicks) && powerups == old(powerups)
      ensures forall c :: c in old(board) ==> c.faceUp == old(c.faceUp)
      ensures outcome.Mismatched? ==>
        && outcome == Mismatched(flippedCards[0], flippedCards[1])
        && unchanged(this) && unchanged(board)
      ensures outcome.Matched? ==>
        && matchedPairs == old(matchedPairs) + 1
        && !flippedCards[0].clickable && !flippedCards[1].clickable
        && (outcome.won <==> matchedPairs == totalPairs)
      ensures outcome.Matched? && !outcome.won ==>
        && gameActive && timerRunning == old(timerRunning)
        && forall c :: c in old(board) && c !in flippedCards ==> c.clickable == old(c.clickable)
      ensures outcome.Matched? && outcome.won ==>
        !gameActive && !timerRunning && forall c :: c in board ==> !c.clickable
    {
      var card1, card2 := flippedCards[0], flippedCards[1];
      assert card1 in flippedCards && card2 in flippedCards;
      if card1.item.image == card2.item.image {
        matchedPairs := matchedPairs + 1;
        card1.clickable := false;
        card2.clickable := false;
        matched := matched + {card1, card2};
        var won := CheckWin();
        outcome := Matched(won);
      } else {
        outcome := Mismatched(card1, card2);
      }
    }

    /** The deferred step after a mismatch: both cards of the pair turn face-down. */
    method UnflipMismatch(card1: Card, card2: Card)
      requires Valid()
      modifies card1, card2
      ensures Valid()
      ensures !card1.faceUp && !card2.faceUp
      ensures card1.clickable == old(card1.clickable) && card2.clickable == old(card2.clickable)
    {
      card1.faceUp := false;
      card2.faceUp := false;
    }

    /** The deferred step after every comparison: forget the pair and accept clicks again. */
    method ResetPair()
      requires Valid()
      modifies this`flippedCards, this`isProcessing
      ensures Valid()
      ensures flippedCards == [] && !isProcessing
    {
      flippedCards := [];
      isProcessing := false;
    }

    /**
     * One tick of the interval timer: when an interval is active the time
     * left drops by one, and the game ends as lost once it is at or below
     * zero. Without an active interval nothing happens.
     */
    method Tick() returns (expired: bool)
      requires Valid()
      modifies this, Elements(board)
      ensures Valid()
      ensures !old(timerRunning) ==> !expired && unchanged(this) && unchanged(board)
      ensures old(timerRunning) ==> timeLeft == old(timeLeft) - 1
      ensures expired <==> old(timerRunning) && timeLeft <= 0
      ensures expired ==> !gameActive && !timerRunning && forall c :: c in board ==> !c.clickable
      ensures !expired ==> gameActive == old(gameActive) && timerRunning == old(timerRunning)
      ensures !expired ==> forall c :: c in old(board) ==> c.clickable == old(c.clickable)
      ensures forall c :: c in old(board) ==> c.faceUp == old(c.faceUp)
      ensures board == old(board) && flippedCards == old(flippedCards) && isProcessing == old(isProcessing)
      ensures difficulty == old(difficulty) && totalPairs == old(totalPairs) && timeLimit == old(timeLimit)
      ensures clicks == old(clicks) && matchedPairs == old(matchedPairs) && powerups == old(powerups)
    {
      if !timerRunning {
        return false;
      }
      timeLeft := timeLeft - 1;
      expired := timeLeft <= 0;
      if expired {
        EndGame();
      }
    }

    /**
     * The power-up button: with a power-up left in an active game, spend
     * one and turn every card of the grid face-up, matched ones included.
     * Returns the captured cards that the deferred re-hide will receive.
     */
    method ActivatePowerup() returns (captured: Option<seq<Card>>)
      requires Valid()
      modifies this, Elements(board)
      ensures Valid()
      ensures captured.Some? <==> old(powerups) > 0 && old(gameActive)
      ensures captured.None? ==> unchanged(this) && unchanged(board)
      ensures captured.Some? ==>
        && powerups == old(powerups) - 1 && captured.value == board
        && forall c :: c in board ==> c.faceUp
      ensures forall c :: c in old(board) ==> c.clickable == old(c.clickable)
      ensures board == old(board) && flippedCards == old(flippedCards) && isProcessing == old(isProcessing)
      ensures difficulty == old(difficulty) && totalPairs == old(totalPairs) && timeLimit == old(timeLimit)
      ensures timeLeft == old(timeLeft) && clicks == old(clicks) && matchedPairs == old(matchedPairs)
      ensures gameActive == old(gameActive) && timerRunning == old(timerRunning)
    {
      if !(powerups > 0 && gameActive) {
        return None;
      }
      powerups := powerups - 1;
      var i := 0;
      while i < |board|
        modifies Elements(board)
        invariant 0 <= i <= |board|
        invariant forall j :: 0 <= j < i ==> board[j].faceUp
        invariant forall c :: c in board ==> c.clickable == old(c.clickable)
      {
        board[i].faceUp := true;
        i := i + 1;
      }
      captured := Some(board);
    }

    /**
     * The deferred re-hide of a power-up: every captured card that is
     * face-up at that moment turns face-down, whether or not it has been
     * matched in the meantime.
     */
    method Rehide(captured: seq<Card>)
      requires Valid()
      modifies Elements(captured)
      ensures Valid()
      ensures forall c :: c in captured ==> !c.faceUp
      ensures forall c :: c in captured ==> c.clickable == old(c.clickable)
    {
      var i := 0;
      while i < |captured|
        invariant 0 <= i <= |captured|
        invariant forall j :: 0 <= j < i ==> !captured[j].faceUp
        invariant forall c :: c in captured ==> c.clickable == old(c.clickable)
      {
        if captured[i].faceUp {
          captured[i].faceUp := false;
        }
        i := i + 1;
      }
    }
  }

  /**
   * Every matched pair uses two cards of its own, so the number of matched
   * pairs never exceeds half the number of cards on the grid.
   */
  lemma MatchedPairsBound(g: Game)
    requires g.Valid()
    ensures 2 * g.matchedPairs <= |g.board|
  {
    DistinctElements(g.board);
    assert g.matched <= Elements(g.board);
    SubsetSize(g.matched, Elements(g.board));
  }
}
