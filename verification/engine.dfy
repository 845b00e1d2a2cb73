/** The match engine: one immutable state record and pure transitions for
    every handler that changes it. Presentation (labels, messages, sounds,
    confetti, button locking) is not modelled. */
module Engine {
  import opened Wrappers
  import opened Moves
  import opened History

  /** Only the value "human-vs-computer" is treated specially; any other
      selection plays as human-vs-human. */
  datatype Mode = HumanVsHuman | HumanVsComputer

  /** The contestants: player 1 (the "user" score) and player 2 (the
      "computer" score, also used for the second human). */
  datatype Player = P1 | P2

  datatype State = State(
    userScore: nat,
    compScore: nat,
    turn: Player,             // whose click is expected in human-vs-human mode
    mode: Mode,
    p1Name: string,
    p2Name: string,
    gameOver: bool,
    targetWins: int,
    history: seq<Entry>,      // newest first
    pending: Option<Move>)    // player 1's stored move; None is null

  /** What one click did. `matchWinner` is the side announced as winner of
      the match when the round ended it. */
  datatype Event =
    | Ignored
    | TurnPassed
    | Drawn
    | Decided(userWin: bool, matchWinner: Option<Player>)

  datatype Step = Step(state: State, event: Event)

  /** The property every reachable state keeps: the history is within its cap,
      and against the computer it is always player 1's turn. */
  predicate Valid(s: State)
  {
    && |s.history| <= Cap
    && (s.mode == HumanVsComputer ==> s.turn == P1)
  }

  /** The page as loaded: best of 5, human-vs-human, nothing played. */
  function Initial(): (s: State)
    ensures Valid(s)
    ensures s.userScore == 0 && s.compScore == 0 && !s.gameOver
    ensures s.turn == P1 && s.pending == None && s.history == []
    ensures s.mode == HumanVsHuman && s.targetWins == 3
  {
    State(0, 0, P1, HumanVsHuman, "", "", false, 3, [], None)
  }

  /** `Math.ceil(bestOf / 2)` on an integer round count: the least number of
      wins that is at least half of the rounds. */
  function CalcTargetWins(bestOf: int): (r: int)
    ensures 2 * r >= bestOf
    ensures 2 * (r - 1) < bestOf
  {
    (bestOf + 1) / 2
  }

  /** A blank (already trimmed) input falls back to the default name. */
  function NameOr(input: string, default: string): (r: string)
    ensures input != "" ==> r == input
    ensures input == "" ==> r == default
  {
    if input == "" then default else input
  }

  /** The start button: names with defaults, mode, target, and a fresh match.
      The stored player-1 move is not cleared. */
  function Setup(s: State, p1Input: string, p2Input: string, mode: Mode, bestOf: int): (r: State)
    ensures r.p1Name != "" && r.p2Name != ""
    ensures r.p1Name == NameOr(p1Input, "Player 1")
    ensures mode == HumanVsComputer ==> r.p2Name == "Computer"
    ensures mode == HumanVsHuman ==> r.p2Name == NameOr(p2Input, "Player 2")
    ensures r.mode == mode && r.targetWins == CalcTargetWins(bestOf)
    ensures r.userScore == 0 && r.compScore == 0 && r.history == []
    ensures !r.gameOver && r.turn == P1
    ensures r.pending == s.pending
    ensures Valid(r)
  {
    var p1 := NameOr(p1Input, "Player 1");
    var rawP2 := NameOr(p2Input, "Player 2");
    var p2 := if mode == HumanVsComputer then "Computer" else rawP2;
    s.(p1Name := p1, p2Name := p2, mode := mode, targetWins := CalcTargetWins(bestOf),
       userScore := 0, compScore := 0, history := [], gameOver := false, turn := P1)
  }

  /** The history line of a drawn round. */
  function DrawText(p1: Option<Move>): (r: string)
    ensures p1.Some? ==> r == "Draw \U{2022} Both " + Name(p1.value)
    ensures p1.None? ==> r == "Draw \U{2022} Both null"
  {
    "Draw \U{2022} Both " + Show(p1)
  }

  /** A drawn round: one "draw" entry on the history and nothing else; in
      particular the match is never checked for being over. */
  function DrawGame(s: State, p1: Option<Move>): (r: State)
    ensures r.history == Push(s.history, Entry(DrawText(p1), Draw))
    ensures r.(history := s.history) == s
  {
    s.(history := Push(s.history, Entry(DrawText(p1), Draw)))
  }

  /** Some side has reached the target. */
  predicate Reached(s: State)
    ensures Reached(s) <==>
      (if s.userScore >= s.compScore then s.userScore else s.compScore) >= s.targetWins
  {
    s.userScore >= s.targetWins || s.compScore >= s.targetWins
  }

  /** Sets the game-over flag once a side has reached the target, and names
      the announced winner: player 1 exactly when strictly ahead. */
  function CheckMatchOver(s: State): (r: (State, Option<Player>))
    ensures r.0.gameOver == (s.gameOver || Reached(s))
    ensures r.0.(gameOver := s.gameOver) == s
    ensures r.1.Some? <==> Reached(s)
    ensures r.1 == Some(P1) <==> Reached(s) && s.userScore > s.compScore
  {
    if Reached(s) then
      (s.(gameOver := true), Some(if s.userScore > s.compScore then P1 else P2))
    else
      (s, None)
  }

  /** A decided round: the winning side gains one point, the round goes on
      the history, the match is checked, and unless it is over the turn
      returns to player 1. */
  function ShowWinner(s: State, userWin: bool, userChoice: Option<Move>, compChoice: Option<Move>): (r: Step)
    ensures r.event.Decided? && r.event.userWin == userWin
    ensures r.state.userScore == s.userScore + (if userWin then 1 else 0)
    ensures r.state.compScore == s.compScore + (if userWin then 0 else 1)
    ensures userWin ==> r.state.history == Push(s.history, Entry(Show(userChoice) + " beats " + Show(compChoice), Win))
    ensures !userWin ==> r.state.history == Push(s.history, Entry(Show(compChoice) + " beats " + Show(userChoice), Lose))
    ensures r.state.gameOver <==> s.gameOver || Reached(r.state)
    ensures r.event.matchWinner.Some? <==> Reached(r.state)
    ensures r.event.matchWinner == Some(P1) <==> Reached(r.state) && r.state.userScore > r.state.compScore
    ensures r.state.turn == if r.state.gameOver then s.turn else P1
    ensures r.state.(userScore := s.userScore, compScore := s.compScore, history := s.history,
                     gameOver := s.gameOver, turn := s.turn) == s
  {
    var scored :=
      if userWin then
        s.(userScore := s.userScore + 1,
           history := Push(s.history, Entry(Show(userChoice) + " beats " + Show(compChoice), Win)))
      else
        s.(compScore := s.compScore + 1,
           history := Push(s.history, Entry(Show(compChoice) + " beats " + Show(userChoice), Lose)));
    var (checked, winner) := CheckMatchOver(scored);
    var next := if !checked.gameOver then checked.(turn := P1) else checked;
    Step(next, Decided(userWin, winner))
  }

  /** One click on a move. `comp` is the computer's random move; it is only
      consulted against the computer. Resolution is one atomic step (the
      optional thinking delay is not modelled). */
  function PlayGame(s: State, choice: Move, comp: Move): (r: Step)
    // a finished match ignores every click
    ensures r.event == Ignored <==> s.gameOver
    ensures s.gameOver ==> r.state == s
    // a decided round: exactly one point to the winning side
    ensures r.event.Decided? ==>
      if r.event.userWin then r.state.userScore == s.userScore + 1 && r.state.compScore == s.compScore
      else r.state.compScore == s.compScore + 1 && r.state.userScore == s.userScore
    // ... and the match is over exactly when a side reached the target
    ensures r.event.Decided? ==> (r.state.gameOver <==> Reached(r.state))
    ensures r.event.Decided? ==> (r.event.matchWinner.Some? <==> r.state.gameOver)
    ensures r.event.Decided? && r.state.gameOver ==>
      (r.event.matchWinner == Some(P1) <==> r.state.userScore > r.state.compScore)
    ensures r.event.Decided? ==> (r.state.turn == P1 <==> !r.state.gameOver || s.turn == P1)
    // ... with the round on top of the history, winner's move first
    ensures !s.gameOver && s.mode == HumanVsComputer && r.event.Decided? ==>
      r.state.history == Push(s.history,
        if r.event.userWin then Entry(Name(choice) + " beats " + Name(comp), Win)
        else Entry(Name(comp) + " beats " + Name(choice), Lose))
    ensures !s.gameOver && s.mode == HumanVsHuman && s.turn == P2 && r.event.Decided? ==>
      r.state.history == Push(s.history,
        if r.event.userWin then Entry(Show(s.pending) + " beats " + Name(choice), Win)
        else Entry(Name(choice) + " beats " + Show(s.pending), Lose))
    // a draw: no score, flag or turn change, one "draw" entry
    ensures r.event.Drawn? ==>
      && r.state.userScore == s.userScore && r.state.compScore == s.compScore
      && !r.state.gameOver && r.state.turn == s.turn
      && r.state.history == Push(s.history, Entry("Draw \U{2022} Both " + Name(choice), Draw))
    // against the computer
    ensures !s.gameOver && s.mode == HumanVsComputer ==>
      && (r.event.Drawn? <==> choice == comp)
      && (r.event.Decided? <==> choice != comp)
      && (r.event.Decided? ==> (r.event.userWin <==> Beats(Some(choice), Some(comp))))
      && r.state.pending == s.pending
    // human against human, first click: the move is stored, nothing is scored
    ensures !s.gameOver && s.mode == HumanVsHuman && s.turn == P1 ==>
      && r.event == TurnPassed
      && r.state.pending == Some(choice) && r.state.turn == P2
      && r.state.userScore == s.userScore && r.state.compScore == s.compScore
      && r.state.history == s.history && !r.state.gameOver
    // human against human, second click: the round resolves, the stored move is cleared
    ensures !s.gameOver && s.mode == HumanVsHuman && s.turn == P2 ==>
      && r.state.pending == None
      && (r.event.Drawn? <==> s.pending == Some(choice))
      && (r.event.Decided? <==> s.pending != Some(choice))
      && (r.event.Decided? ==> (r.event.userWin <==> Beats(s.pending, Some(choice))))
    // names, mode and target are never touched by a click
    ensures r.state.p1Name == s.p1Name && r.state.p2Name == s.p2Name
    ensures r.state.mode == s.mode && r.state.targetWins == s.targetWins
  {
    if s.gameOver then
      Step(s, Ignored)
    else if s.mode == HumanVsComputer then
      if choice == comp then
        Step(DrawGame(s, Some(choice)), Drawn)
      else
        ShowWinner(s, Beats(Some(choice), Some(comp)), Some(choice), Some(comp))
    else if s.turn == P1 then
      Step(s.(pending := Some(choice), turn := P2), TurnPassed)
    else
      var resolved :=
        if s.pending == Some(choice) then Step(DrawGame(s, s.pending), Drawn)
        else ShowWinner(s, Beats(s.pending, Some(choice)), s.pending, Some(choice));
      Step(resolved.state.(pending := None), resolved.event)
  }

  /** The rounds selector changed: only the target is recomputed; the match
      is not re-checked against it. */
  function ChangeRounds(s: State, bestOf: int): (r: State)
    ensures r.targetWins == CalcTargetWins(bestOf)
    ensures r.(targetWins := s.targetWins) == s
  {
    s.(targetWins := CalcTargetWins(bestOf))
  }

  /** The clear-history button. */
  function ClearHistory(s: State): (r: State)
    ensures r.history == []
    ensures r.(history := s.history) == s
  {
    s.(history := [])
  }

  /** The reset-round button: both scores to zero; the game-over flag, the
      history, the turn and the stored move stay as they were. */
  function ResetRound(s: State): (r: State)
    ensures r.userScore == 0 && r.compScore == 0
    ensures r.(userScore := s.userScore, compScore := s.compScore) == s
  {
    s.(userScore := 0, compScore := 0)
  }

  /** The new-match button: scores, history, flag and turn reset; names, mode,
      target and the stored move kept. */
  function NewMatch(s: State): (r: State)
    ensures r.userScore == 0 && r.compScore == 0 && r.history == []
    ensures !r.gameOver && r.turn == P1
    ensures r.(userScore := s.userScore, compScore := s.compScore, history := s.history,
               gameOver := s.gameOver, turn := s.turn) == s
  {
    s.(userScore := 0, compScore := 0, history := [], gameOver := false, turn := P1)
  }
}
