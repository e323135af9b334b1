# Pairs game rules engine, in Dafny

This project models the rules engine of a two-player pairs (memory) card game, the Go package `game`. A deck of paired cards lies face down. Players take turns turning over two cards. A matching pair is removed and scores a point for the player who found it, and that player moves again. A mismatch passes the turn to the other player. The game ends when no pairs are left.

The model has two modules:

- `Deck` (deck.dfy) builds the deck. `CreateSetOfCards` takes distinct names from a supplied sequence of candidate names and appends each name twice. Its outer loop is the helper method `DrawPairs`, proved to produce the unshuffled deck `Pairs(names, n)`, and its retry loop is `DrawFresh`. `RandomizeCards` shuffles an array in place using a supplied permutation. The lemma `PermutePreservesMultiset` proves that shuffling keeps every card and the number of times it occurs.
- `Game` (game.dfy) is the engine. Its state is the value type `GameState`. `Turn` is one call of `TurnCard`, written as a pure function. `Inv` is the invariant every reachable state satisfies. The class `Game` has the source's fields and updates them in place. Its `TurnCard` method is proved to produce exactly the state, result and error that `Turn` gives. The ghost field `deck` records the deck as dealt. `Valid()` is `Inv` on the current fields.

Three things the source takes from outside become parameters:

- the name generator becomes a sequence of candidate names;
- `rand.Perm` becomes a permutation of the deck positions;
- the package test assigns a deck to the game directly. The `Game` constructor takes the dealt deck for this reason.

An empty string marks a removed card (`BLANK`). Each error the source returns has its own `GameError` kind, with no message text. The source reports errors as `(result, error)`, and the model does the same with `Option<GameError>`. On an error the result keeps whatever fields the source had already filled in: the player, the next player and the score, and for `AlreadyTurned` also the card.

Two behaviours of the code shape the model:

- `NewGame` rejects a pair count with one of two distinct errors, checked in this order: more than 10 (`TooManyPairs`), then fewer than 1 (`TooFewPairs`).
- A failed turn returns a partly filled result, not a zero one. The player, the next player and the score are set before the index check, and the card before the last two checks.

## Model

| member | source | states |
|---|---|---|
| Game.Turn | game/game.go:81-124 | The four failures come in order (wrong player, index out of range, removed card, the card already face-up), each exactly when its condition holds, and the turn succeeds exactly when none of them holds. No failure changes the state. A wrong player gets the zero result. Any other failure reports the player as both player and next player, with their current score, and for a removed or already face-up card also that card. A first pick sets only the face-up index and reports the card, no match, turn not complete, the same player and the unchanged score. A second pick always completes the round and clears the face-up index. On a match, both cards become blank, both are recorded as solved with their face, the player's score rises by one, the other score stays, pairs left falls by one, the player keeps the turn, and the game is over with this player as winner exactly when no pairs are left. On a mismatch, only the player changes, to the other one. The game can end only on a match, and a winner other than 0 is reported only when it ends. |
| Game.Game.TurnCard | game/game.go:81-124 | The fields after the call, the result and the error are exactly those of `Turn` applied to the state before the call. The invariant is kept and the dealt deck does not change. |
| Game.Game.IncreaseScore | game/game.go:126-131 | The current player's score rises by one, the other score is unchanged, and the new score is returned. |
| Game.TurnKeepsInvariant | game/game.go:81-131 | Every turn, failed or successful, keeps `Inv`: scores and pairs left add up to the deck's pairs, pairs left is never negative, the player is 0 or 1, a face-up index points at a card still on the board, each slot is either untouched and unsolved or cleared and solved with its dealt face, and there are two solved faces per point. |
| Game.Run | game/game.go:81-124 | Over any sequence of `TurnCard` calls the deck size stays the same, pairs left never increases and neither score decreases. |
| Game.RunKeepsInvariant | game/game.go:81-131 | Over any sequence of `TurnCard` calls the invariant holds, so the two scores plus pairs left always equal the initial number of pairs. |
| Game.NewGameInvariant | game/game.go:144-152 | A game built around any deck satisfies the invariant from the start. |
| Game.SolvedExactlyWhenRemoved | game/game.go:106-110 | For a deck dealt with no blank card, a slot is recorded as solved exactly when its card has been removed. |
| Game.GameOverExactlyWhenCleared | game/game.go:113-117 | For such a deck of even length, pairs left is zero exactly when every card has been removed from the board. |
| Game.TestTurnCardScenario | game/game_test.go:50-107 | The package's turn scenario on the deck a, b, a, b, with the full state and result of each of its six steps: the flip, the mismatch that passes the turn, two matches by player 1, and game over with player 1 as winner at scores 0 and 2. These include every result the test checks. |
| Game.TestNewGame | game/game_test.go:5-26 | Creating a game of 0 pairs or of 11 pairs fails, and a game of 10 pairs is created without error. |
| Game.TestGetCard | game/game_test.go:28-48 | On a game of 10 pairs, indices -1 and 20 are refused, and index 5 gives a non-blank card without error. |
| Game.TestTurnCard | game/game_test.go:50-107 | The same scenario played on the class through `TurnCard`: the first flip reports score 0, a card, no match, turn not complete and player 0 both times. The mismatch passes the turn to player 1, and player 1's flip succeeds. The first match is complete, scores 1 and keeps the turn. The last match ends the game with player 1 as winner. |
| Game.Game.constructor | game/game.go:146-152 | A new game holds the dealt deck, has no card face-up, player 0 to move, scores 0 and 0, half the deck's length as pairs left, and a solved record that is all blank and as long as the deck. It satisfies the invariant. |
| Game.NewGame | game/game.go:136-153 | Fails with `TooManyPairs` exactly when more than 10 pairs are requested and with `TooFewPairs` exactly when fewer than 1 are. Otherwise it succeeds with a fresh, valid game in its initial state, with 2n cards, n pairs left and nothing solved. The deck has n distinct non-blank names, each a candidate name and each occurring exactly twice, and it is the unshuffled deck rearranged by the permutation. |
| Deck.CreateSetOfCards | game/game.go:155-173 | The result is the unshuffled deck `Pairs(names, n)` (the first n distinct candidates in order, each twice) rearranged by the permutation. It is therefore 2n non-blank cards made of n distinct candidate names, each occurring exactly twice. |
| Deck.DrawPairs | game/game.go:156-169 | The outer loop produces exactly `Pairs(names, n)`: candidates are drawn in order, one already used is skipped, and each fresh one is appended twice, until the deck holds 2n cards. |
| Deck.DrawFresh | game/game.go:160-167 | The retry loop stops at the first candidate, from the current position on, whose name is not yet used. It returns that name and the position after it, and every candidate it passed over was already used. |
| Deck.SkipUsed | game/game.go:160-162 | Candidates whose names are already used add nothing to the unshuffled deck. |
| Deck.PairsAreDistinctPairs | game/game.go:159-169 | Every name in the unshuffled deck is a candidate that was not used before, and it occurs exactly twice. The deck has half as many distinct names as cards. |
| Deck.RandomizeCards | game/game.go:175-186 | The array afterwards holds the original cards rearranged by the permutation, and so it keeps the same multiset of cards. |
| Deck.PermutePreservesMultiset | game/game.go:175-186 | Rearranging a deck by any permutation of its positions keeps its multiset of cards, so the result is a permutation of the input. |
| Game.Game.GetCard | game/game.go:71-76 | Fails with `InvalidIndex` and a blank card exactly when the index is negative or not below the deck length. Otherwise it returns the card at that index. |
| Game.Game.TurnedCard | game/game.go:46-49 | Returns the face-up index. In a valid game the face is blank exactly when no card is face-up (index -1). Otherwise it is the card at that index. |
| Game.Game.Scores | game/game.go:51-53 | In a valid game there are two non-negative scores whose sum is the deck's pairs minus the pairs left. |
| Game.Game.SolvedCards | game/game.go:55-61 | Returns a copy of the solved record. A slot holds a face exactly when its card was removed and was dealt non-blank, and that face is the dealt one. |
| Game.Game.NumberOfCards | game/game.go:63-65 | In a valid game, the number of slots is the length of the dealt deck and of the solved record. |
| Game.Game.CurrentPlayer | game/game.go:67-69 | In a valid game the current player is 0 or 1. |

## Left out

- The HTTP server in simplegameserver/simplegameserver.go is not part of this model. That covers routing, JSON encoding, flags, static files and the shared global game, whose handlers run without locking.
- The `PairsGame` interface (game/game.go:14-20) is not modelled as a type. The class `Game` provides its five operations.
- Randomness: the generated names and `rand.Perm` are inputs, so the model says nothing about uniform shuffling.
- Deck.CreateSetOfCards: the retry loop draws from a finite sequence of candidates. It therefore requires that the candidates hold at least n distinct names, none of them blank. The real generator never runs out and never returns a blank name.
- Game.Turn: it requires a well-formed state: exactly two scores, the current player 0 or 1, a solved record as long as the deck, and a face-up index that is -1 or in range. A state that breaks any of these conditions cannot arise from `NewGame` or the constructor, because both set the conditions up and every turn keeps them. On some of the excluded states the Go code would panic: a current player above 1 indexes `scores` out of range once it is the acting player (game.go:88), and a stale face-up index or a short solved record makes the match step index out of range (game.go:106-108). On others, such as a solved record longer than the deck, Go would run normally, but the model does not describe them.
- Game.Game.IncreaseScore: the guard on players 0 and 1 is kept, but the model never reaches its false branch, because the current player is always 0 or 1.
- Byte arithmetic: players are unsigned 8-bit values (`byte`). `(p + 1) % 2` never wraps around here, because the player is 0 or 1.
- Error message texts are not modelled. Each error is a distinct kind.
- The tests that assign `g.cards` directly are modelled by constructing the game around that deck.
