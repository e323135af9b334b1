/** The rules engine of the two-player pairs (memory) game: turn order, match
    detection, scoring and the end of the game.

    The engine's state is given twice: as the value `GameState`, on which the
    turn transition `Turn` and its invariant `Inv` are stated and proved, and as
    the class `Game`, whose fields the methods update in place and whose
    methods are proved to follow `Turn`. */
module Game {
  import opened Deck

  /** The largest number of pairs a game may be created with. */
  const MAX_NUMBER_OF_PAIRS := 10

  /** An unsigned 8-bit value; players are identified by bytes. */
  type byte = x: int | 0 <= x < 256

  datatype Option<T> = None | Some(value: T)

  /** The failures the engine reports, one kind per error it returns. */
  datatype GameError =
    | TooManyPairs    // more pairs than MAX_NUMBER_OF_PAIRS requested
    | TooFewPairs     // fewer than one pair requested
    | NotYourTurn     // the acting player is not the current player
    | InvalidIndex    // the card index lies outside the deck
    | AlreadyRemoved  // the card at the index was matched and cleared
    | AlreadyTurned   // the card at the index is the one already face-up

  /** What a turn reports back to the caller. */
  datatype TurnResult = TurnResult(
    player: byte,
    nextTurnPlayer: byte,
    turnComplete: bool,
    matchFound: bool,
    newScore: int,
    card: string,
    gameOver: bool,
    winner: byte)

  /** The zero value of TurnResult. */
  const NO_RESULT := TurnResult(0, 0, false, false, 0, BLANK, false, 0)

  /** The whole state of one game. `turnedCardIndex` is -1 when no card is
      face-up; `scores` holds the two players' scores. */
  datatype GameState = GameState(
    cards: seq<string>,
    turnedCardIndex: int,
    currentPlayer: byte,
    scores: seq<int>,
    pairsLeft: int,
    solvedCards: seq<string>)

  /** A turn's new state, its reported result and its error, if any. */
  datatype TurnOutcome = TurnOutcome(state: GameState, result: TurnResult, err: Option<GameError>)

  /** A move of a run of turns: `player` turns the card at `index`. */
  datatype Move = Move(index: int, player: byte)

  /** The shape every reachable state has: what a turn needs so that no index
      it uses is out of range. */
  predicate WellFormed(s: GameState) {
    |s.scores| == 2 &&
    s.currentPlayer <= 1 &&
    |s.solvedCards| == |s.cards| &&
    (s.turnedCardIndex == -1 || 0 <= s.turnedCardIndex < |s.cards|)
  }

  /** The number of slots of `s` that hold a face, that is, are not blank. */
  function FaceCount(s: seq<string>): nat {
    if s == [] then 0 else (if s[0] != BLANK then 1 else 0) + FaceCount(s[1..])
  }

  /** The invariant of a game dealt with `deck`:
      - the two scores and the pairs left add up to the deck's pairs;
      - a face-up card is one that is still on the board;
      - every slot still holds its dealt card and is unsolved, or was cleared
        and records its dealt (non-blank) face as solved;
      - the solved record holds two faces per point scored. */
  ghost predicate Inv(s: GameState, deck: seq<string>) {
    WellFormed(s) &&
    |s.cards| == |deck| &&
    s.scores[0] >= 0 && s.scores[1] >= 0 && s.pairsLeft >= 0 &&
    s.scores[0] + s.scores[1] + s.pairsLeft == |deck| / 2 &&
    (s.turnedCardIndex != -1 ==> s.cards[s.turnedCardIndex] != BLANK) &&
    (forall k :: 0 <= k < |deck| ==>
       (s.cards[k] == deck[k] && s.solvedCards[k] == BLANK) ||
       (s.cards[k] == BLANK && deck[k] != BLANK && s.solvedCards[k] == deck[k])) &&
    FaceCount(s.solvedCards) == 2 * (s.scores[0] + s.scores[1])
  }

  /** The state of a game freshly created around `deck`. */
  function InitialState(deck: seq<string>): GameState {
    GameState(deck, -1, 0, [0, 0], |deck| / 2, seq(|deck|, _ => BLANK))
  }

  /** One call of TurnCard: `player` turns the card at index `i`. */
  function Turn(s: GameState, i: int, player: byte): (o: TurnOutcome)
    requires WellFormed(s)
    ensures WellFormed(o.state)
    // The four error exits, checked in this order; none changes the state.
    ensures o.err == Some(NotYourTurn) <==> player != s.currentPlayer
    ensures o.err == Some(InvalidIndex) <==> player == s.currentPlayer && !(0 <= i < |s.cards|)
    ensures o.err == Some(AlreadyRemoved) <==>
              player == s.currentPlayer && 0 <= i < |s.cards| && s.cards[i] == BLANK
    ensures o.err == Some(AlreadyTurned) <==>
              player == s.currentPlayer && 0 <= i < |s.cards| && s.cards[i] != BLANK && i == s.turnedCardIndex
    ensures o.err.None? <==>
              player == s.currentPlayer && 0 <= i < |s.cards| && s.cards[i] != BLANK && i != s.turnedCardIndex
    ensures o.err.Some? ==> o.state == s
    // A failed turn reports what was filled in before its check failed.
    ensures o.err == Some(NotYourTurn) ==> o.result == NO_RESULT
    ensures o.err.Some? && o.err != Some(NotYourTurn) ==>
              o.result == NO_RESULT.(player := player, nextTurnPlayer := player, newScore := s.scores[player],
                                     card := if o.err == Some(InvalidIndex) then BLANK else s.cards[i])
    // First pick: the card is flipped up and nothing else changes.
    ensures o.err.None? && s.turnedCardIndex == -1 ==>
              o.state == s.(turnedCardIndex := i) &&
              o.result == TurnResult(player, player, false, false, s.scores[player], s.cards[i], false, 0)
    // Second pick: the round is complete and no card is face-up any more.
    ensures o.err.None? && s.turnedCardIndex != -1 ==>
              o.state.turnedCardIndex == -1 && o.result.turnComplete &&
              o.result.player == player && o.result.card == s.cards[i] &&
              o.result.nextTurnPlayer == o.state.currentPlayer &&
              o.result.newScore == o.state.scores[player]
    // ... with a match: both cards are cleared and solved, the player scores and keeps the turn.
    ensures o.err.None? && s.turnedCardIndex != -1 && s.cards[i] == s.cards[s.turnedCardIndex] ==>
              var t := s.turnedCardIndex;
              o.result.matchFound &&
              o.state.cards == s.cards[i := BLANK][t := BLANK] &&
              o.state.solvedCards == s.solvedCards[t := s.cards[i]][i := s.cards[i]] &&
              o.state.scores[player] == s.scores[player] + 1 &&
              o.state.scores[1 - player] == s.scores[1 - player] &&
              o.state.pairsLeft == s.pairsLeft - 1 &&
              o.state.currentPlayer == player &&
              (o.result.gameOver <==> o.state.pairsLeft == 0) &&
              (o.result.gameOver ==> o.result.winner == player)
    // ... without a match: the cards stay, and the turn passes to the other player.
    ensures o.err.None? && s.turnedCardIndex != -1 && s.cards[i] != s.cards[s.turnedCardIndex] ==>
              !o.result.matchFound && !o.result.gameOver &&
              o.state == s.(turnedCardIndex := -1, currentPlayer := 1 - player)
    // The game can only end on a match, and a winner is named only when it ends.
    ensures o.result.gameOver ==> o.result.matchFound && o.err.None?
    ensures !o.result.gameOver ==> o.result.winner == 0
  {
    if player != s.currentPlayer then
      TurnOutcome(s, NO_RESULT, Some(NotYourTurn))
    else
      var reported := NO_RESULT.(player := player, nextTurnPlayer := player, newScore := s.scores[player]);
      if i < 0 || i >= |s.cards| then
        TurnOutcome(s, reported, Some(InvalidIndex))
      else
        var c := s.cards[i];
        var reported := reported.(card := c);
        if c == BLANK then
          TurnOutcome(s, reported, Some(AlreadyRemoved))
        else if i == s.turnedCardIndex then
          TurnOutcome(s, reported, Some(AlreadyTurned))
        else if s.turnedCardIndex == -1 then
          TurnOutcome(s.(turnedCardIndex := i), reported, None)
        else
          var t := s.turnedCardIndex;
          var reported := reported.(turnComplete := true);
          if c == s.cards[t] then
            var scores := s.scores[player := s.scores[player] + 1];
            var left := s.pairsLeft - 1;
            var state := GameState(s.cards[i := BLANK][t := BLANK], -1, player, scores, left,
                                   s.solvedCards[t := c][i := c]);
            TurnOutcome(state,
                        reported.(matchFound := true, newScore := scores[player],
                                  gameOver := left == 0, winner := if left == 0 then player else 0),
                        None)
          else
            // byte arithmetic; no wrap-around, since the player is 0 or 1
            var next := (player + 1) % 2;
            TurnOutcome(s.(turnedCardIndex := -1, currentPlayer := next),
                        reported.(nextTurnPlayer := next), None)
  }

  /** The state after the moves of `moves`, taken one after the other; a
      failing move leaves the state as it was. */
  function Run(s: GameState, moves: seq<Move>): (r: GameState)
    requires WellFormed(s)
    ensures WellFormed(r)
    ensures |r.cards| == |s.cards|
    ensures r.pairsLeft <= s.pairsLeft
    ensures r.scores[0] >= s.scores[0] && r.scores[1] >= s.scores[1]
    decreases |moves|
  {
    if moves == [] then s
    else Run(Turn(s, moves[0].index, moves[0].player).state, moves[1..])
  }

  lemma {:induction false} FaceCountAllBlank(n: nat)
    ensures FaceCount(seq(n, _ => BLANK)) == 0
  {
    if n > 0 {
      assert seq(n, _ => BLANK)[1..] == seq(n - 1, _ => BLANK);
      FaceCountAllBlank(n - 1);
    }
  }

  lemma {:induction false} FaceCountBounded(s: seq<string>)
    ensures FaceCount(s) <= |s|
  {
    if s != [] {
      FaceCountBounded(s[1..]);
    }
  }

  /** Two blank slots keep the face count two below the length. */
  lemma {:induction false} FaceCountTwoBlanks(s: seq<string>, i: int, j: int)
    requires 0 <= i < |s| && 0 <= j < |s| && i != j
    requires s[i] == BLANK && s[j] == BLANK
    ensures FaceCount(s) <= |s| - 2
  {
    if i == 0 {
      FaceCountOneBlank(s[1..], j - 1);
    } else if j == 0 {
      FaceCountOneBlank(s[1..], i - 1);
    } else {
      FaceCountTwoBlanks(s[1..], i - 1, j - 1);
    }
  }

  lemma {:induction false} FaceCountOneBlank(s: seq<string>, i: int)
    requires 0 <= i < |s| && s[i] == BLANK
    ensures FaceCount(s) <= |s| - 1
  {
    if i == 0 {
      FaceCountBounded(s[1..]);
    } else {
      FaceCountOneBlank(s[1..], i - 1);
    }
  }

  /** Writing a face into a blank slot adds one to the face count. */
  lemma {:induction false} FaceCountFill(s: seq<string>, i: int, face: string)
    requires 0 <= i < |s| && s[i] == BLANK && face != BLANK
    ensures FaceCount(s[i := face]) == FaceCount(s) + 1
  {
    if i > 0 {
      assert s[i := face][1..] == s[1..][i - 1 := face];
      FaceCountFill(s[1..], i - 1, face);
    }
  }

  /** The face count reaches the length exactly when no slot is blank. */
  lemma {:induction false} FaceCountFull(s: seq<string>)
    ensures FaceCount(s) == |s| <==> forall k :: 0 <= k < |s| ==> s[k] != BLANK
  {
    if s != [] {
      FaceCountFull(s[1..]);
      FaceCountBounded(s[1..]);
      if s[0] != BLANK {
        assert forall k :: 1 <= k < |s| ==> s[k] == s[1..][k - 1];
      }
    }
  }

  /** A freshly created game satisfies the invariant, whatever deck it was dealt. */
  lemma NewGameInvariant(deck: seq<string>)
    ensures Inv(InitialState(deck), deck)
  {
    FaceCountAllBlank(|deck|);
  }

  /** Every turn, failing or not, keeps the invariant. */
  lemma TurnKeepsInvariant(s: GameState, deck: seq<string>, i: int, player: byte)
    requires Inv(s, deck)
    ensures Inv(Turn(s, i, player).state, deck)
  {
    var o := Turn(s, i, player);
    if o.err.None? && s.turnedCardIndex != -1 && s.cards[i] == s.cards[s.turnedCardIndex] {
      var t := s.turnedCardIndex;
      var c := s.cards[i];
      var solved := s.solvedCards;
      // Both picked cards are still on the board, so neither slot is solved yet.
      assert solved[i] == BLANK && solved[t] == BLANK;
      FaceCountTwoBlanks(solved, i, t);
      FaceCountFill(solved, t, c);
      FaceCountFill(solved[t := c], i, c);
      assert o.state.pairsLeft >= 0;
    }
  }

  /** Any run of turns keeps the invariant; in particular the scores and the
      pairs left always add up to the deck's pairs. */
  lemma {:induction false} RunKeepsInvariant(s: GameState, deck: seq<string>, moves: seq<Move>)
    requires Inv(s, deck)
    ensures Inv(Run(s, moves), deck)
    ensures Run(s, moves).scores[0] + Run(s, moves).scores[1] + Run(s, moves).pairsLeft == |deck| / 2
    decreases |moves|
  {
    if moves != [] {
      TurnKeepsInvariant(s, deck, moves[0].index, moves[0].player);
      RunKeepsInvariant(Turn(s, moves[0].index, moves[0].player).state, deck, moves[1..]);
    }
  }

  /** For a deck dealt without blanks, a slot is recorded as solved exactly when
      its card has been removed. */
  lemma SolvedExactlyWhenRemoved(s: GameState, deck: seq<string>)
    requires Inv(s, deck) && BLANK !in deck
    ensures forall k :: 0 <= k < |s.cards| ==> (s.solvedCards[k] != BLANK <==> s.cards[k] == BLANK)
  {
  }

  /** For a deck of pairs dealt without blanks, no pairs are left exactly when
      every card has been removed from the board. */
  lemma GameOverExactlyWhenCleared(s: GameState, deck: seq<string>)
    requires Inv(s, deck) && |deck| % 2 == 0 && BLANK !in deck
    ensures s.pairsLeft == 0 <==> forall k :: 0 <= k < |s.cards| ==> s.cards[k] == BLANK
  {
    SolvedExactlyWhenRemoved(s, deck);
    FaceCountFull(s.solvedCards);
  }

  /** The scenario of the package's own turn test, on the deck a, b, a, b:
      each step's full outcome, from the state the previous step left. */
  lemma TestTurnCardScenario()
    // the game the test sets up
    ensures InitialState(["a", "b", "a", "b"]) ==
            GameState(["a", "b", "a", "b"], -1, 0, [0, 0], 2, [BLANK, BLANK, BLANK, BLANK])
    // player 0 flips card 0
    ensures var s0 := GameState(["a", "b", "a", "b"], -1, 0, [0, 0], 2, [BLANK, BLANK, BLANK, BLANK]);
            Turn(s0, 0, 0) ==
            TurnOutcome(s0.(turnedCardIndex := 0), TurnResult(0, 0, false, false, 0, "a", false, 0), None)
    // player 0 turns card 1: no match, the turn passes to player 1
    ensures var s0 := GameState(["a", "b", "a", "b"], -1, 0, [0, 0], 2, [BLANK, BLANK, BLANK, BLANK]);
            Turn(s0.(turnedCardIndex := 0), 1, 0) ==
            TurnOutcome(s0.(currentPlayer := 1), TurnResult(0, 1, true, false, 0, "b", false, 0), None)
    // player 1 flips card 0
    ensures var s0 := GameState(["a", "b", "a", "b"], -1, 0, [0, 0], 2, [BLANK, BLANK, BLANK, BLANK]);
            Turn(s0.(currentPlayer := 1), 0, 1) ==
            TurnOutcome(s0.(currentPlayer := 1, turnedCardIndex := 0), TurnResult(1, 1, false, false, 0, "a", false, 0), None)
    // player 1 turns card 2: the a-pair is found
    ensures var s0 := GameState(["a", "b", "a", "b"], -1, 0, [0, 0], 2, [BLANK, BLANK, BLANK, BLANK]);
            Turn(s0.(currentPlayer := 1, turnedCardIndex := 0), 2, 1) ==
            TurnOutcome(GameState([BLANK, "b", BLANK, "b"], -1, 1, [0, 1], 1, ["a", BLANK, "a", BLANK]),
                        TurnResult(1, 1, true, true, 1, "a", false, 0), None)
    // player 1 flips card 1
    ensures var s4 := GameState([BLANK, "b", BLANK, "b"], -1, 1, [0, 1], 1, ["a", BLANK, "a", BLANK]);
            Turn(s4, 1, 1) ==
            TurnOutcome(s4.(turnedCardIndex := 1), TurnResult(1, 1, false, false, 1, "b", false, 0), None)
    // player 1 turns card 3: the b-pair is found and the game is over, won by player 1
    ensures var s4 := GameState([BLANK, "b", BLANK, "b"], -1, 1, [0, 1], 1, ["a", BLANK, "a", BLANK]);
            Turn(s4.(turnedCardIndex := 1), 3, 1) ==
            TurnOutcome(GameState([BLANK, BLANK, BLANK, BLANK], -1, 1, [0, 2], 0, ["a", "b", "a", "b"]),
                        TurnResult(1, 1, true, true, 2, "b", true, 1), None)
  {
    assert InitialState(["a", "b", "a", "b"]).solvedCards == [BLANK, BLANK, BLANK, BLANK];
  }

  /** A game of pairs. After creating it, players take turns turning cards. */
  class Game {
    var cards: seq<string>
    var turnedCardIndex: int
    var currentPlayer: byte
    var scores: seq<int>
    var pairsLeft: int
    var solvedCards: seq<string>
    /** The deck as it was dealt. */
    ghost var deck: seq<string>

    /** The current state as a value. */
    function Snapshot(): GameState
      reads this
    {
      GameState(cards, turnedCardIndex, currentPlayer, scores, pairsLeft, solvedCards)
    }

    ghost predicate Valid()
      reads this
    {
      Inv(Snapshot(), deck)
    }

    /** The game NewGame builds around a dealt deck: nothing face-up, player 0
        to move, no points, every pair left and nothing solved. */
    constructor (dealt: seq<string>)
      ensures Valid() && deck == dealt
      ensures Snapshot() == InitialState(dealt)
    {
      cards := dealt;
      solvedCards := seq(|dealt|, _ => BLANK);
      turnedCardIndex := -1;
      currentPlayer := 0;
      scores := [0, 0];
      pairsLeft := |dealt| / 2;
      deck := dealt;
      new;
      NewGameInvariant(dealt);
    }

    /** The card face-up this round and its index; the blank face and -1 when
        no card is face-up. */
    function TurnedCard(): (r: (string, int))
      reads this
      ensures r.1 == turnedCardIndex
      ensures Valid() ==> (r.0 == BLANK <==> r.1 == -1)
      ensures Valid() && r.1 != -1 ==> r.0 == cards[r.1]
    {
      (GetCard(turnedCardIndex).0, turnedCardIndex)
    }

    /** Both players' scores. */
    function Scores(): (r: seq<int>)
      reads this
      ensures Valid() ==> |r| == 2 && r[0] >= 0 && r[1] >= 0 && r[0] + r[1] == |deck| / 2 - pairsLeft
    {
      scores
    }

    /** A fresh copy of the solved-cards record. */
    method SolvedCards() returns (res: seq<string>)
      requires Valid()
      ensures res == solvedCards
      ensures forall k :: 0 <= k < |res| ==> (res[k] != BLANK <==> cards[k] == BLANK && deck[k] != BLANK)
      ensures forall k :: 0 <= k < |res| && res[k] != BLANK ==> res[k] == deck[k]
    {
      var copy := new string[|cards|](_ => BLANK);
      for i := 0 to |solvedCards|
        invariant forall k :: 0 <= k < i ==> copy[k] == solvedCards[k]
      {
        copy[i] := solvedCards[i];
      }
      res := copy[..];
    }

    /** The number of card slots, which never changes during a game. */
    function NumberOfCards(): (r: int)
      reads this
      ensures Valid() ==> r == |deck| && r == |solvedCards|
    {
      |cards|
    }

    /** The player whose turn it is. */
    function CurrentPlayer(): (r: byte)
      reads this
      ensures Valid() ==> r <= 1
    {
      currentPlayer
    }

    /** The card at index `i`, or InvalidIndex when `i` lies outside the deck. */
    function GetCard(i: int): (r: (string, Option<GameError>))
      reads this
      ensures r.1.Some? <==> i < 0 || i >= |cards|
      ensures r.1.Some? ==> r == (BLANK, Some(InvalidIndex))
      ensures r.1.None? ==> r.0 == cards[i]
    {
      if i < 0 || i >= |cards| then (BLANK, Some(InvalidIndex)) else (cards[i], None)
    }

    /** Lets `player` turn the card at index `i`; see Turn for what happens. */
    method TurnCard(i: int, player: byte) returns (result: TurnResult, err: Option<GameError>)
      requires Valid()
      modifies this
      ensures Valid() && deck == old(deck)
      ensures TurnOutcome(Snapshot(), result, err) == Turn(old(Snapshot()), i, player)
    {
      TurnKeepsInvariant(Snapshot(), deck, i, player);
      result := NO_RESULT;
      if player != currentPlayer {
        return result, Some(NotYourTurn);
      }
      result := result.(player := currentPlayer, nextTurnPlayer := currentPlayer,
                        newScore := scores[currentPlayer]);
      var lookup := GetCard(i);
      var c := lookup.0;
      if lookup.1.Some? {
        return result, lookup.1;
      }
      result := result.(card := c);
      if c == BLANK {
        return result, Some(AlreadyRemoved);
      }
      if i == turnedCardIndex {
        return result, Some(AlreadyTurned);
      }
      if turnedCardIndex == -1 {
        turnedCardIndex := i;
        return result, None;
      }
      result := result.(matchFound := false, turnComplete := true);
      if c == cards[turnedCardIndex] {
        solvedCards := solvedCards[turnedCardIndex := cards[i]];
        solvedCards := solvedCards[i := cards[i]];
        cards := cards[i := BLANK];
        cards := cards[turnedCardIndex := BLANK];
        result := result.(matchFound := true);
        var score := IncreaseScore();
        result := result.(newScore := score);
        pairsLeft := pairsLeft - 1;
        if pairsLeft == 0 {
          result := result.(gameOver := true, winner := currentPlayer);
        }
      } else {
        currentPlayer := (currentPlayer + 1) % 2;
      }
      turnedCardIndex := -1;
      result := result.(nextTurnPlayer := currentPlayer);
      err := None;
    }

    /** Adds one to the current player's score and returns the new score. */
    method IncreaseScore() returns (score: int)
      requires |scores| == 2 && currentPlayer <= 1
      modifies this`scores
      ensures scores == old(scores)[currentPlayer := old(scores)[currentPlayer] + 1]
      ensures score == scores[currentPlayer]
    {
      if 0 <= currentPlayer <= 1 {
        scores := scores[currentPlayer := scores[currentPlayer] + 1];
      }
      score := scores[currentPlayer];
    }
  }

  /** Creates a game of `numberOfPairs` pairs. `names` stands for the external
      name generator (the candidates it would produce, in order) and `perm` for
      the random permutation of deck positions used to shuffle. */
  method NewGame(numberOfPairs: int, names: seq<string>, perm: seq<int>) returns (g: Game?, err: Option<GameError>)
    requires 1 <= numberOfPairs <= MAX_NUMBER_OF_PAIRS ==>
               BLANK !in names && |Names(names)| >= numberOfPairs && IsPermutationOf(perm, 2 * numberOfPairs)
    ensures err == Some(TooManyPairs) <==> numberOfPairs > MAX_NUMBER_OF_PAIRS
    ensures err == Some(TooFewPairs) <==> numberOfPairs < 1
    ensures err == None <==> 1 <= numberOfPairs <= MAX_NUMBER_OF_PAIRS
    ensures g == null <==> err.Some?
    ensures g != null ==>
              fresh(g) && g.Valid() && g.deck == g.cards && g.Snapshot() == InitialState(g.cards) &&
              |g.cards| == 2 * numberOfPairs && g.pairsLeft == numberOfPairs &&
              g.turnedCardIndex == -1 && g.currentPlayer == 0 && g.scores == [0, 0] &&
              (forall k :: 0 <= k < |g.solvedCards| ==> g.solvedCards[k] == BLANK)
    ensures g != null ==>
              BLANK !in g.cards && |Names(g.cards)| == numberOfPairs &&
              (forall c :: c in g.cards ==> c in names && multiset(g.cards)[c] == 2)
    ensures g != null ==>
              |Pairs(names, numberOfPairs)| == 2 * numberOfPairs &&
              g.cards == Permute(Pairs(names, numberOfPairs), perm)
  {
    if numberOfPairs > MAX_NUMBER_OF_PAIRS {
      return null, Some(TooManyPairs);
    }
    if numberOfPairs < 1 {
      return null, Some(TooFewPairs);
    }
    var cards := CreateSetOfCards(numberOfPairs, names, perm);
    g := new Game(cards);
    err := None;
  }

  /** The package's creation test: zero pairs and more than the maximum are
      refused, ten pairs are accepted. */
  method TestNewGame(names: seq<string>, perm: seq<int>)
    returns (zeroPairs: Option<GameError>, tooMany: Option<GameError>, tenPairs: Option<GameError>, created: bool)
    requires BLANK !in names && |Names(names)| >= 10 && IsPermutationOf(perm, 20)
    ensures zeroPairs.Some? && tooMany.Some?
    ensures tenPairs == None && created
  {
    var g;
    g, zeroPairs := NewGame(0, names, perm);
    g, tooMany := NewGame(MAX_NUMBER_OF_PAIRS + 1, names, perm);
    g, tenPairs := NewGame(10, names, perm);
    created := g != null;
  }

  /** The package's card lookup test on a game of ten pairs: indices -1 and 20
      are refused, index 5 holds a card. */
  method TestGetCard(names: seq<string>, perm: seq<int>)
    returns (below: Option<GameError>, above: Option<GameError>, card: string, cardErr: Option<GameError>)
    requires BLANK !in names && |Names(names)| >= 10 && IsPermutationOf(perm, 20)
    ensures below.Some? && above.Some?
    ensures card != BLANK && cardErr == None
  {
    var g, _ := NewGame(10, names, perm);
    below := g.GetCard(-1).1;
    above := g.GetCard(20).1;
    var r5 := g.GetCard(5);
    card, cardErr := r5.0, r5.1;
    assert g.cards[5] in g.cards;
  }

  /** The package's turn test on the class: a game whose deck is set to
      a, b, a, b, played through to its end. */
  method TestTurnCard()
    returns (first: TurnResult, firstErr: Option<GameError>, mismatch: TurnResult,
             secondFlipErr: Option<GameError>, matched: TurnResult, last: TurnResult)
    ensures firstErr == None && first.newScore == 0 && first.card != BLANK
    ensures !first.matchFound && !first.turnComplete && first.player == 0 && first.nextTurnPlayer == 0
    ensures mismatch.nextTurnPlayer == 1
    ensures secondFlipErr == None
    ensures matched.turnComplete && matched.matchFound && matched.newScore == 1 && matched.nextTurnPlayer == 1
    ensures last.gameOver && last.winner == 1
  {
    var g := new Game(["a", "b", "a", "b"]);
    // Each call follows `Turn`, so the class replays the pure scenario step by step.
    TestTurnCardScenario();
    ghost var s0 := InitialState(["a", "b", "a", "b"]);
    var err, r;
    first, firstErr := g.TurnCard(0, 0);
    ghost var o1 := Turn(s0, 0, 0);
    assert g.Snapshot() == o1.state;
    mismatch, err := g.TurnCard(1, 0);
    ghost var o2 := Turn(o1.state, 1, 0);
    assert g.Snapshot() == o2.state;
    r, secondFlipErr := g.TurnCard(0, 1);
    ghost var o3 := Turn(o2.state, 0, 1);
    assert g.Snapshot() == o3.state;
    matched, err := g.TurnCard(2, 1);
    ghost var o4 := Turn(o3.state, 2, 1);
    assert g.Snapshot() == o4.state;
    r, err := g.TurnCard(1, 1);
    ghost var o5 := Turn(o4.state, 1, 1);
    assert g.Snapshot() == o5.state;
    last, err := g.TurnCard(3, 1);
  }
}
