# Memory-matching game engine

A model of the game-state engine of a browser concentration game (`index.js`). The player sees a grid of face-down cards and turns them over two at a time. Each image appears on two cards. A pair that matches stays revealed and stops taking clicks. A pair that does not match turns back after a delay. The game is won when every pair is found and lost when the countdown reaches zero. Three power-ups reveal the whole grid for a short time.

The DOM is stripped away and what is left is modelled:

- the global `gameState` record becomes the class `Engine.Game`;
- each card element becomes an `Engine.Card` object. It holds its item, whether it carries the `flip` class (`faceUp`) and whether `handleCardClick` is still attached as its listener (`clickable`);
- each event handler becomes a method of `Game`: card click, timer tick, power-up button, difficulty selector, start/reset;
- each deferred `setTimeout` callback is a separate method the caller invokes later: the mismatch un-flip, the pair reset and the power-up re-hide. The callbacks capture card objects, not positions, just as the closures capture DOM elements. So a callback that fires after a reset acts on the old, detached cards and not on the new grid;
- `initializeGame` awaits a fetch, so it is split in two. `BeginInitialize` is the part before the `await`. `CompleteInitialize` is `generateCards` followed by `startTimer`, run once the fetch has resolved;
- board construction (`flatMap` duplication, then a sort with a random comparator) is a pure function `Board.BuildBoard`. The shuffle is an arbitrary permutation of positions, passed in by the caller.

`Game.Valid()` is the invariant kept by every handler:

- the grid holds no card twice;
- at most two cards are pending, never the same card twice, and two pending cards imply `isProcessing`;
- pending cards are on the grid;
- every matched card is on the grid and takes no more clicks;
- `2 * matchedPairs` cards are matched;
- `matchedPairs <= totalPairs`, and a running game has not reached `totalPairs`.

From this invariant, `MatchedPairsBound` proves that matched pairs never exceed half the grid.

`Scenarios` holds whole sessions proved from the handlers' contracts alone. These are client code, not part of the game.

Behaviour of `index.js` that the model keeps on purpose:

- Matching compares image strings. Two different creatures that both fall back to `default.png` match each other (`Scenarios.PlaceholdersMatch`).
- `initializeGame` does not reset `isProcessing`. A reset during the one-second comparison window leaves clicks blocked until the pending pair reset fires.
- The power-up turns every card face-up, matched ones included. The re-hide turns face-down every captured card that is face-up when it fires, matched ones too. A matched card has no listener, so a click no longer turns it back (`Scenarios.PowerupHidesMatchedPair`). Only a later power-up shows it again, for that power-up's two-second window.
- There is no guard against stale sessions. `startTimer` (index.js:155-157) does not look at `gameActive`, and `initializeGame` calls it after every fetch (index.js:49-51). So whenever a fetch resolves after the game has ended, a new interval starts and ends the game again once it runs out. This happens in two ways:
  - A reset while an interval runs leaves that interval running during the fetch. If it runs out the new time, the game ends, and the late `startTimer` starts a new interval whose next tick ends it a second time (`Scenarios.StaleIntervalEndsTwice`).
  - Two starts before the first fetch resolves. The first fetch deals the board and the game is won. The second fetch then starts an interval for the won game, and when it runs out the game ends as lost (`Scenarios.LateFetchEndsWonGame`).
- Two resets before either fetch resolves make both `generateCards` calls append to the grid.
- The easy level has 60 seconds (index.js:32). The shuffle sorts with a random comparator (index.js:81), so its order is implementation-defined and not uniform.

## Model

| member | source | states |
|---|---|---|
| `Difficulty.Lookup` | index.js:31-35 | exactly the names easy, medium and hard have settings (3 pairs/60 s, 5/90, 8/120), every entry is positive, any other name has none |
| `Board.FrontImage` | index.js:67 | the front image is the artwork when it is present and non-empty, otherwise the `default.png` placeholder; never empty |
| `Board.Duplicate` | index.js:80 | the duplicated list is twice as long, positions 2i and 2i+1 both hold item i, and it holds each item exactly twice as often as the input |
| `Board.PermutedMultiset` | index.js:81 | reading a sequence in the order of any permutation of its positions preserves the multiset of its elements |
| `Board.Permute` | index.js:81 | the shuffled list has the same length and the same multiset of elements, and position i holds the element at position perm[i] |
| `Board.BuildBoard` | index.js:80-81 | the board has two cards per item and is a permutation of every item listed twice |
| `Board.EveryCardHasTwin` | index.js:80-81 | every card on a built board has a twin with the same item at another position |
| `Board.UnshuffledBoard` | index.js:80-81 | with the identity permutation the board is the duplicated list in fetch order |
| `Engine.NewCards` | index.js:83-92 | one fresh, distinct, face-down, clickable card per item, in board order |
| `Engine.Game.constructor` | index.js:2-14 | the initial record (easy, 3 pairs, 60 s, 3 power-ups, no cards, inactive, no interval), with the easy settings loaded on page load (index.js:214-218); the invariant holds |
| `Engine.Game.Remaining` | index.js:149 | the pairs still to find lie between 0 and totalPairs, are 0 exactly when all pairs are matched, and are positive while the game runs |
| `Engine.Game.BeginInitialize` | index.js:38-47 | the game becomes active with timeLeft = timeLimit, clicks = 0, matchedPairs = 0, no pending cards, 3 power-ups and an empty grid; isProcessing and a running interval are left untouched |
| `Engine.Game.CompleteInitialize` | index.js:49-51 | the built board's cards are appended to the grid as fresh, face-down, clickable cards, the earlier grid is kept, an interval is running, and no counter changes |
| `Engine.Game.ChangeDifficulty` | index.js:181-187 | the level name is always stored; a known level loads its pairs and time and starts a new game; an unknown level changes nothing else |
| `Engine.Game.Click` | index.js:96-112 | ignored, with nothing changed, exactly when the card has no listener, the game is inactive, a pair is pending, the card is face-up or already pending; otherwise clicks + 1, the card face-up and appended to the pending cards, isProcessing exactly when two are pending, no other card turned; the outcome of a second card is a match exactly when the two images are equal |
| `Engine.Game.CheckMatch` | index.js:115-131 | equal images: matchedPairs + 1, both listeners removed, won exactly when matchedPairs reaches totalPairs; different images: state unchanged and the two cards handed to the deferred un-flip |
| `Engine.Game.CheckWin` | index.js:139-143 | the game ends exactly when matchedPairs equals totalPairs; otherwise nothing changes |
| `Engine.Game.EndGame` | index.js:168-175 | the game becomes inactive, the interval is stopped and no card on the grid takes clicks any more; faces and counters are untouched |
| `Engine.Game.UnflipMismatch` | index.js:126-129 | both cards of the mismatched pair are face-down; their listeners are untouched |
| `Engine.Game.ResetPair` | index.js:132-135 | no card is pending and clicks are accepted again |
| `Engine.Game.Tick` | index.js:157-164 | without a running interval nothing changes; otherwise timeLeft drops by exactly 1 and the game ends as lost exactly when it is at or below 0 |
| `Engine.Game.ActivatePowerup` | index.js:196-211 | nothing happens unless a power-up is left and the game is active; otherwise powerups − 1, every card on the grid face-up, no listener changed, and the grid captured for the re-hide |
| `Engine.Game.Rehide` | index.js:202-207 | every captured card is face-down afterwards, matched cards included; no listener changes |
| `Engine.MatchedPairsBound` | index.js:121-124 | in every reachable state each matched pair owns two cards of its own, so 2 × matchedPairs ≤ number of cards |
| `Scenarios.EasyGameIsWon` | index.js:115-143 | on an unshuffled easy board a mismatch followed by the three pairs takes 8 clicks and wins |
| `Scenarios.PowerupHidesMatchedPair` | index.js:196-207 | after a power-up, a pair matched before it is face-down and a click on it is ignored |
| `Scenarios.StaleIntervalEndsTwice` | index.js:155-164 | a reset during a running game, an old interval that expires before the fetch resolves, then the late startTimer: the game ends twice |
| `Scenarios.LateFetchEndsWonGame` | index.js:37-51 | two starts before the first fetch resolves, a won game on the first fetch's board, then the second fetch's startTimer: the won game ends a second time when the new interval runs out |
| `Scenarios.PlaceholdersMatch` | index.js:67 | two different creatures whose artwork is missing or empty both get the placeholder image, and turning one card of each is a found pair |

## Left out

- `fetchPokemon` (index.js:55-76) is network I/O and JSON parsing. Its result is the `items` argument of `CompleteInitialize`, which may be empty. Only its image fallback (line 67) is modelled, as `Board.FrontImage`; `Scenarios.PlaceholdersMatch` deals items built with it. The model does not enforce at most `totalPairs` items, because a difficulty change while a fetch is pending can change `totalPairs` before the result arrives.
- Randomness: the comparator sorts at index.js:59 and 81 are an arbitrary permutation supplied by the caller. Nothing is claimed about their distribution.
- Real time: the 1000 ms and 2000 ms delays and the one-second interval are left out. Deferred callbacks and ticks are methods the caller may invoke at any later moment. The model does not force each scheduled callback to run exactly once, nor in delay order.
- DOM and presentation: element lookup, card markup, `updateGameStatus` text (only `Remaining` is kept), `alert`, and the theme toggle (index.js:189-194).
- `Engine.Game.Click` compares image strings as given. The browser's resolution of `src` to an absolute URL is not modelled.
- `Difficulty.Lookup` treats every name other than the three levels as missing. A JavaScript object lookup would also find inherited property names such as `constructor`; that case is not modelled.
- Counters are unbounded integers. JavaScript numbers are doubles, but these counters stay far below 2^53.
