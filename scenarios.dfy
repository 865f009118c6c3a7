/**
 * Sessions played against the engine's contracts alone: what a caller of
 * the handlers can conclude about a whole game. The steps (dealing, a turn
 * that finds a pair, a turn that does not) are client code, not part of
 * the game.
 */
module Scenarios {
  import opened Wrappers
  import opened Seqs
  import Board
  import opened Engine

  /**
   * A new game started (twice in a row, before any fetch resolves, when
   * `restarted`) and dealt `items` without shuffling by the first fetch.
   */
  method DealUnshuffled(items: seq<Board.Item>, restarted: bool) returns (g: Game)
    ensures fresh(g) && g.Valid() && forall c :: c in g.board ==> fresh(c)
    ensures |g.board| == 2 * |items|
    ensures forall i :: 0 <= i < |items| ==> g.board[2 * i].item == items[i] && g.board[2 * i + 1].item == items[i]
    ensures forall c :: c in g.board ==> !c.faceUp && c.clickable
    ensures g.gameActive && g.timerRunning && !g.isProcessing && g.flippedCards == []
    ensures g.clicks == 0 && g.matchedPairs == 0 && g.totalPairs == 3
    ensures g.powerups == 3 && g.timeLeft == 60
  {
    g := new Game();
    g.BeginInitialize();
    if restarted {
      g.BeginInitialize();
    }
    g.CompleteInitialize(items, Board.Identity(2 * |items|));
    Board.UnshuffledBoard(items);
    assert g.board[0..] == g.board;
    assert ItemsOf(g.board) == Board.Duplicate(items);
  }

  /** Two clicks on a pair of twins, then the deferred pair reset. */
  method MatchingTurn(g: Game, c1: Card, c2: Card) returns (won: bool)
    requires g.Valid() && c1 in g.board && c2 in g.board && c1 != c2
    requires c1.item.image == c2.item.image
    requires g.gameActive && !g.isProcessing && g.flippedCards == []
    requires !c1.faceUp && !c2.faceUp && c1.clickable && c2.clickable
    modifies g, Elements(g.board)
    ensures g.Valid() && g.board == old(g.board) && g.flippedCards == [] && !g.isProcessing
    ensures g.clicks == old(g.clicks) + 2 && g.matchedPairs == old(g.matchedPairs) + 1
    ensures g.powerups == old(g.powerups) && g.totalPairs == old(g.totalPairs) && g.timeLeft == old(g.timeLeft)
    ensures won <==> g.matchedPairs == g.totalPairs
    ensures won ==> !g.gameActive && !g.timerRunning
    ensures !won ==> g.gameActive && g.timerRunning == old(g.timerRunning)
    ensures c1.faceUp && c2.faceUp && !c1.clickable && !c2.clickable
    ensures forall c :: c in g.board && c != c1 && c != c2 ==>
      c.faceUp == old(c.faceUp) && (won || c.clickable == old(c.clickable))
  {
    var o := g.Click(c1);
    o := g.Click(c2);
    won := o.won;
    g.ResetPair();
  }

  /** Two clicks on cards with different images, then both deferred steps. */
  method MismatchingTurn(g: Game, c1: Card, c2: Card)
    requires g.Valid() && c1 in g.board && c2 in g.board && c1 != c2
    requires c1.item.image != c2.item.image
    requires g.gameActive && !g.isProcessing && g.flippedCards == []
    requires !c1.faceUp && !c2.faceUp && c1.clickable && c2.clickable
    modifies g, Elements(g.board)
    ensures g.Valid() && g.board == old(g.board) && g.flippedCards == [] && !g.isProcessing
    ensures g.clicks == old(g.clicks) + 2 && g.matchedPairs == old(g.matchedPairs)
    ensures g.gameActive && g.timerRunning == old(g.timerRunning) && g.totalPairs == old(g.totalPairs)
    ensures forall c :: c in g.board ==> c.faceUp == old(c.faceUp) && c.clickable == old(c.clickable)
  {
    var o := g.Click(c1);
    o := g.Click(c2);
    assert o == Mismatched(c1, c2);
    g.UnflipMismatch(c1, c2);
    g.ResetPair();
  }

  /**
   * An easy game over three items with different images, dealt without
   * shuffling: a mismatched first pair is counted and turned back, then the
   * three pairs are found and the last one wins the game.
   */
  method EasyGameIsWon(a: Board.Item, b: Board.Item, c: Board.Item)
    returns (clicks: nat, won: bool)
    requires a.image != b.image && b.image != c.image && a.image != c.image
    ensures clicks == 8 && won
  {
    var items := [a, b, c];
    var g := DealUnshuffled(items, false);
    var cards := g.board;
    assert items[0] == a && items[1] == b && items[2] == c;
    assert cards[0].item == a && cards[1].item == a;
    assert cards[2].item == b && cards[3].item == b;
    assert cards[4].item == c && cards[5].item == c;
    MismatchingTurn(g, cards[0], cards[2]);
    won := MatchingTurn(g, cards[0], cards[1]);
    assert !won;
    won := MatchingTurn(g, cards[2], cards[3]);
    assert !won;
    won := MatchingTurn(g, cards[4], cards[5]);
    clicks := g.clicks;
  }

  /**
   * A power-up used after a pair has been matched: the deferred re-hide
   * turns the matched cards face-down as well, and as they no longer take
   * clicks they stay face-down.
   */
  method PowerupHidesMatchedPair(a: Board.Item, b: Board.Item)
    returns (shown: bool, clickAccepted: bool)
    ensures !shown && !clickAccepted
  {
    var items := [a, b];
    var g := DealUnshuffled(items, false);
    var cards := g.board;
    assert items[0] == a;
    assert cards[0].item == a && cards[1].item == a;
    var won := MatchingTurn(g, cards[0], cards[1]);
    var captured := g.ActivatePowerup();
    g.Rehide(captured.value);
    shown := cards[0].faceUp;
    var o := g.Click(cards[0]);
    clickAccepted := !o.Ignored?;
  }

  /**
   * A reset while a game is running leaves its interval running during the
   * fetch. If that interval runs the new time out before the fetch
   * resolves, the game ends; the late startTimer then starts a fresh
   * interval for the ended game, and its next tick ends the game again.
   */
  method StaleIntervalEndsTwice() returns (endings: nat)
    ensures endings == 2
  {
    var g := new Game();
    g.BeginInitialize();
    g.CompleteInitialize([], []);
    g.BeginInitialize();
    endings := 0;
    var expired := false;
    while !expired
      invariant g.Valid() && g.board == [] && g.totalPairs == 3
      invariant !expired ==> g.timerRunning && g.gameActive && g.timeLeft > 0 && endings == 0
      invariant expired ==> !g.timerRunning && !g.gameActive && g.timeLeft <= 0 && endings == 1
      decreases if expired then 0 else g.timeLeft
    {
      expired := g.Tick();
      if expired {
        endings := endings + 1;
      }
    }
    g.CompleteInitialize([], []);
    expired := g.Tick();
    if expired {
      endings := endings + 1;
    }
  }

  /**
   * Two creatures without official artwork both get the placeholder image,
   * so turning one card of each counts as a found pair although the
   * creatures differ.
   */
  method PlaceholdersMatch(name1: string, name2: string) returns (matched: bool)
    requires name1 != name2
    ensures matched
  {
    var x := Board.Item(name1, Board.FrontImage(None));
    var y := Board.Item(name2, Board.FrontImage(Some("")));
    var items := [x, y];
    var g := DealUnshuffled(items, false);
    var cards := g.board;
    assert items[0] == x && items[1] == y;
    assert cards[0].item == x && cards[2].item == y;
    var o := g.Click(cards[0]);
    o := g.Click(cards[2]);
    matched := o.Matched?;
  }

  /**
   * Two starts before the first fetch resolves: the first fetch deals the
   * board and starts the interval, the game is won and the interval
   * cleared, then the second fetch resolves and starts a new interval for
   * the won game, whose running out ends the game a second time.
   */
  method LateFetchEndsWonGame(a: Board.Item, b: Board.Item, c: Board.Item)
    returns (endings: nat)
    requires a.image != b.image && b.image != c.image && a.image != c.image
    ensures endings == 2
  {
    var items := [a, b, c];
    var g := DealUnshuffled(items, true);
    var cards := g.board;
    assert items[0] == a && items[1] == b && items[2] == c;
    assert cards[0].item == a && cards[1].item == a;
    assert cards[2].item == b && cards[3].item == b;
    assert cards[4].item == c && cards[5].item == c;
    var won := MatchingTurn(g, cards[0], cards[1]);
    won := MatchingTurn(g, cards[2], cards[3]);
    won := MatchingTurn(g, cards[4], cards[5]);
    assert won && !g.gameActive && !g.timerRunning && g.timeLeft == 60;
    endings := 1;
    g.CompleteInitialize([], []);
    assert g.board == g.board[..|cards|] == cards;
    var expired := false;
    while !expired
      invariant g.Valid() && !g.gameActive && g.board == cards
      invariant !expired ==> g.timerRunning && g.timeLeft > 0 && endings == 1
      invariant expired ==> endings == 2
      decreases if expired then 0 else g.timeLeft
    {
      expired := g.Tick();
      if expired {
        endings := endings + 1;
      }
    }
  }
}
