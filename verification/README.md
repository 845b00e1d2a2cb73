# Rock-paper-scissors match engine, in Dafny

A model of the match engine of a browser rock-paper-scissors game (`app.js`).
Two contestants, two humans or a human and the computer, each pick rock,
paper or scissors. The engine decides each round, keeps two scores and a
six-entry history (newest first), and ends the match when a side reaches
the win target, `ceil(bestOf / 2)`. In human-vs-human mode, player 1's move
is stored as pending until player 2 clicks.

The page's global variables become one immutable `Engine.State` record. Each
event handler becomes a pure function from state to state:

- `Setup`: the start button.
- `PlayGame`: a click on a move. The computer's random move is a parameter.
- `ChangeRounds`: the rounds selector.
- `ClearHistory`, `ResetRound`, `NewMatch`: the three control buttons.

The pending move is `Option<Move>`, and `None` stands for JavaScript's `null`.
`Moves.Beats` is the source's `===` disjunction evaluated literally, so a
null move beats nothing and is beaten by nothing. A null move prints as
`null` in history text.

Files:
- `wrappers.dfy`: `Option`.
- `moves.dfy`: moves, their names, the beats relation and its cyclic
  reference definition.
- `history.dfy`: history entries, the capped push, and its reference
  definition (the newest six).
- `engine.dfy`: the state and the transitions.
- `engine_facts.dfy`: lemmas that relate transitions, runs of clicks, and
  worked scenarios.

Behaviours of `app.js` that the model keeps as written, each with a lemma
that exhibits it:
- `ResetRound` zeroes only the two scores (app.js:278). It does not clear the
  game-over flag, so after a finished match the early return at app.js:204
  still ignores every click (`EngineFacts.ResetRoundKeepsMatchLocked`).
- `drawGame` never assigns `currentPlayer` (app.js:149-155), while the
  human-vs-human branch clears the pending move after every resolution
  (app.js:253-255). After a human-vs-human draw the turn therefore stays
  with player 2. The next single click compares `null` against that move at
  app.js:238-244, and player 2 scores
  (`EngineFacts.DrawThenOneClickScoresPlayer2`).
- Only `showWinner` calls `checkMatchOver` (app.js:190), so a draw never ends
  the match. The rounds selector (app.js:267-269) only recomputes the target
  and does not re-check the scores. After the target is lowered in
  mid-match, the match can end on a tied score, and line 161 then names
  player 2 (`EngineFacts.TiedMatchAnnouncesPlayer2`).

## Model

| member | source | states |
|---|---|---|
| Moves.Name | app.js:140-143 | the three move names the engine compares and prints |
| Moves.Show | app.js:177-186 | a null choice prints as "null"; a move prints as its name |
| Moves.Beats | app.js:241-244 | the `===` disjunction: only a non-null move can beat a different non-null move (asymmetry is `Moves.BeatsExactlyOne`) |
| Moves.BeatsIsCyclic | app.js:220-223 | the written-out disjunction equals the cyclic relation "one step ahead on rock, paper, scissors" for all nine ordered pairs |
| Moves.BeatsIrreflexive | app.js:217-223 | no move beats itself |
| Moves.BeatsExactlyOne | app.js:241-244 | for two distinct moves exactly one beats the other |
| Moves.NullBeatsNothing | app.js:241-244 | a null player-1 move matches no disjunct, as winner or as loser |
| Moves.NameInjective | app.js:217 | two choices compare equal exactly when their names do |
| History.Push | app.js:84-88 | the new entry is first; the previous entries follow in order; below the cap the list grows by one, otherwise the oldest entry is dropped; the cap of 6 is never exceeded |
| History.PushIsNewest | app.js:84-88 | a push equals the newest six of the new entry followed by the old list |
| History.PushAllKeepsNewest | app.js:84-88 | any number of pushes leaves exactly the newest six entries, most recent first (proof by induction) |
| History.SevenRoundsEvictOldest | app.js:85-86 | after seven pushes there are six entries, the seventh on top and the first one evicted |
| Engine.Initial | app.js:2-12 | the initial globals: 0-0, turn 1, no pending move, empty history, target 3, human-vs-human |
| Engine.CalcTargetWins | app.js:50 | the target is the ceiling of half the rounds: the least r with 2r >= bestOf |
| Engine.NameOr | app.js:105-106 | a blank trimmed name falls back to the default |
| Engine.Setup | app.js:103-137 | names are never blank ("Player 1"/"Player 2"); player 2 is "Computer" against the computer; a fresh 0-0 match on turn 1 with empty history and the new target |
| Engine.DrawText | app.js:153 | the draw entry reads "Draw • Both " followed by player 1's move, or "null" |
| Engine.Reached | app.js:158 | a side has reached the target exactly when the larger of the two scores is at least the target |
| Engine.DrawGame | app.js:149-155 | a draw pushes one "draw" entry "Draw • Both <move>" and changes nothing else |
| Engine.CheckMatchOver | app.js:157-168 | the flag is set exactly when a score reaches the target; player 1 is announced exactly when strictly ahead |
| Engine.ShowWinner | app.js:170-201 | exactly one point to the winning side; the win or lose entry is pushed; the flag follows the target; the turn returns to player 1 unless the match is over |
| Engine.PlayGame | app.js:203-258 | a finished match ignores clicks; decided rounds score one point and end the match exactly at the target; draws change no score, flag or turn; against the computer, draw iff equal moves and win iff the move beats the computer's; human-vs-human turn 1 stores the move and passes the turn; turn 2 resolves against the stored move and clears it; a decided round puts "<winner's move> beats <loser's move>" on top of the history, tagged win or lose |
| Engine.ChangeRounds | app.js:267-269 | only the target changes |
| Engine.ClearHistory | app.js:271-274 | only the history is emptied |
| Engine.ResetRound | app.js:276-285 | only the two scores are zeroed |
| Engine.NewMatch | app.js:287-301 | scores, history, flag and turn reset; names, mode, target and stored move kept |
| EngineFacts.PlayKeepsValid | app.js:203-258 | a click keeps the history within six entries and keeps computer mode on player 1's turn |
| EngineFacts.HandlersKeepValid | app.js:267-301 | the button and selector handlers keep the same invariant |
| EngineFacts.RunKeepsValid | app.js:261-263 | any sequence of clicks keeps the invariant |
| EngineFacts.RunAfterMatchOverIsIdle | app.js:204 | once the match is over, any sequence of clicks leaves the state unchanged |
| EngineFacts.RunScoresGrowByAtMostOnePerClick | app.js:170-188 | scores never decrease, rise by at most one point per click, and the game-over flag is never cleared by clicks |
| EngineFacts.DrawLeavesTurnWithPlayer2 | app.js:235-256 | a human-vs-human draw clears the pending move but leaves the turn on player 2 |
| EngineFacts.NullPendingIsLostByPlayer1 | app.js:235-256 | on player 2's turn with no pending move, one click scores for player 2 and records "<move> beats null" as a loss |
| EngineFacts.DrawThenOneClickScoresPlayer2 | app.js:229-256 | draw, then a single click: player 2's score rises by one and player 1's does not |
| EngineFacts.DrawNeverEndsMatch | app.js:149-155 | a drawn round never sets the game-over flag and keeps the turn |
| EngineFacts.HumanMatchIgnoresComputer | app.js:228-257 | in human-vs-human mode the computer's move plays no part |
| EngineFacts.ResetRoundKeepsMatchLocked | app.js:276-285 | resetting the round after the match ended leaves clicks ignored |
| EngineFacts.NewMatchUnlocks | app.js:287-294 | after a new match the next click is played |
| EngineFacts.ResetsIdempotent | app.js:271-294 | each reset handler is idempotent; a new match subsumes reset round and clear history |
| EngineFacts.SetupResetsLikeNewMatch | app.js:117-132 | setup resets the match exactly like a new match, apart from names and target |
| EngineFacts.BestOfFiveIsFirstToThree | app.js:77-80 | best of 5 is first to 3 (and 3, 7, 1 give 2, 4, 1) |
| EngineFacts.SweepScenario | app.js:203-258 | three player-1 wins in a best of 5 end the match 3-0 with player 1 announced |
| EngineFacts.DrawScenario | app.js:149-155 | rock against rock is a 0-0 draw with the single entry "Draw • Both rock" |
| EngineFacts.TiedMatchAnnouncesPlayer2 | app.js:157-161 | after the target is lowered in mid-match, a 2-2 finish is announced for player 2 |

## Left out

- DOM output: labels, message text and classes, selection highlighting,
  locking the choices, and history rendering. This includes the winner name
  in the round messages (app.js:177, 185), which is display text only.
- Sounds (`playTone`) and confetti (`launchConfetti`): these are audio and
  animation side effects.
- `genCompChoice`: the computer's move is the `comp` parameter of
  `PlayGame`, because `Math.random` is not modelled.
- The thinking delay (`setTimeout`). A round against the computer resolves
  in one atomic step, so clicks queued during the delay are not modelled.
- `String.prototype.trim`: the name inputs are given to `Setup` already
  trimmed.
- The setup-visibility guard on the reset-round button (app.js:277). It is a
  UI condition.
- `player2Choice` is not a state field. It is set and cleared within one
  click, so it is always null between clicks.
- Mode is two-valued. Only the select value "human-vs-computer" changes
  behaviour.
- Round counts are integers. A non-numeric selector value (NaN) is not
  modelled.
