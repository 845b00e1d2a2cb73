/** Properties relating several engine transitions: the invariant they keep,
    what the reset handlers undo, the stale turn after a human-vs-human draw,
    runs of clicks, and worked example matches. */
module EngineFacts {
  import opened Wrappers
  import opened Moves
  import opened History
  import opened Engine

  /** One click: the move pressed, and what the computer would draw. */
  datatype Click = Click(choice: Move, comp: Move)

  /** The state after a sequence of clicks. */
  function Run(s: State, cs: seq<Click>): State
    decreases |cs|
  {
    if cs == [] then s else Run(PlayGame(s, cs[0].choice, cs[0].comp).state, cs[1..])
  }

  // ---------------------------------------------------------------------------
  // The invariant

  lemma PlayKeepsValid(s: State, choice: Move, comp: Move)
    requires Valid(s)
    ensures Valid(PlayGame(s, choice, comp).state)
  {
  }

  lemma HandlersKeepValid(s: State, bestOf: int)
    requires Valid(s)
    ensures Valid(ChangeRounds(s, bestOf))
    ensures Valid(ClearHistory(s))
    ensures Valid(ResetRound(s))
    ensures Valid(NewMatch(s))
  {
  }

  /** Any number of clicks keeps the history within its cap and the computer
      mode on player 1's turn. */
  lemma {:induction false} RunKeepsValid(s: State, cs: seq<Click>)
    requires Valid(s)
    ensures Valid(Run(s, cs))
    decreases |cs|
  {
    if cs != [] {
      PlayKeepsValid(s, cs[0].choice, cs[0].comp);
      RunKeepsValid(PlayGame(s, cs[0].choice, cs[0].comp).state, cs[1..]);
    }
  }

  // ---------------------------------------------------------------------------
  // Runs of clicks

  /** Once the match is over, no sequence of clicks changes anything. */
  lemma {:induction false} RunAfterMatchOverIsIdle(s: State, cs: seq<Click>)
    requires s.gameOver
    ensures Run(s, cs) == s
    decreases |cs|
  {
    if cs != [] {
      RunAfterMatchOverIsIdle(PlayGame(s, cs[0].choice, cs[0].comp).state, cs[1..]);
    }
  }

  /** Clicks never lower a score, never raise the two together by more than
      one point per click, and never clear the game-over flag. */
  lemma {:induction false} RunScoresGrowByAtMostOnePerClick(s: State, cs: seq<Click>)
    ensures Run(s, cs).userScore >= s.userScore
    ensures Run(s, cs).compScore >= s.compScore
    ensures Run(s, cs).userScore + Run(s, cs).compScore <= s.userScore + s.compScore + |cs|
    ensures s.gameOver ==> Run(s, cs).gameOver
    decreases |cs|
  {
    if cs != [] {
      RunScoresGrowByAtMostOnePerClick(PlayGame(s, cs[0].choice, cs[0].comp).state, cs[1..]);
    }
  }

  // ---------------------------------------------------------------------------
  // Human against human: the turn after a draw

  /** A human-vs-human draw clears the stored move but leaves the turn with
      player 2. */
  lemma DrawLeavesTurnWithPlayer2(s: State, x: Move, comp: Move)
    requires s.mode == HumanVsHuman && !s.gameOver && s.turn == P2
    requires s.pending == Some(x)
    ensures PlayGame(s, x, comp).event == Drawn
    ensures PlayGame(s, x, comp).state.turn == P2
    ensures PlayGame(s, x, comp).state.pending == None
  {
  }

  /** With the turn on player 2 and no stored move, a single click resolves
      null against it: player 2 scores, and the history reads "<move> beats
      null" as a loss. */
  lemma NullPendingIsLostByPlayer1(s: State, y: Move, comp: Move)
    requires s.mode == HumanVsHuman && !s.gameOver && s.turn == P2
    requires s.pending == None
    ensures PlayGame(s, y, comp).event.Decided?
    ensures !PlayGame(s, y, comp).event.userWin
    ensures PlayGame(s, y, comp).state.compScore == s.compScore + 1
    ensures PlayGame(s, y, comp).state.userScore == s.userScore
    ensures PlayGame(s, y, comp).state.history[0] == Entry(Name(y) + " beats null", Lose)
  {
  }

  /** The whole sequence from player 1's turn: a draw on x, then one click y
      (by either human) is scored for player 2. */
  lemma DrawThenOneClickScoresPlayer2(s: State, x: Move, y: Move, comp: Move)
    requires s.mode == HumanVsHuman && !s.gameOver && s.turn == P1
    ensures Run(s, [Click(x, comp), Click(x, comp), Click(y, comp)]).compScore == s.compScore + 1
    ensures Run(s, [Click(x, comp), Click(x, comp), Click(y, comp)]).userScore == s.userScore
  {
    var cs := [Click(x, comp), Click(x, comp), Click(y, comp)];
    var s1 := PlayGame(s, x, comp).state;
    var s2 := PlayGame(s1, x, comp).state;
    var s3 := PlayGame(s2, y, comp).state;
    DrawLeavesTurnWithPlayer2(s1, x, comp);
    NullPendingIsLostByPlayer1(s2, y, comp);
    assert cs[1..] == [Click(x, comp), Click(y, comp)];
    assert cs[1..][1..] == [Click(y, comp)];
    assert Run(s2, [Click(y, comp)]) == Run(s3, []) == s3;
    assert Run(s, cs) == Run(s1, cs[1..]) == Run(s2, cs[1..][1..]);
  }

  /** A draw never ends the match, even when a score already meets a lowered
      target. */
  lemma DrawNeverEndsMatch(s: State, choice: Move, comp: Move)
    requires PlayGame(s, choice, comp).event == Drawn
    ensures !PlayGame(s, choice, comp).state.gameOver
    ensures PlayGame(s, choice, comp).state.turn == s.turn
  {
  }

  /** In human-vs-human mode the computer's move is never consulted. */
  lemma HumanMatchIgnoresComputer(s: State, choice: Move, comp1: Move, comp2: Move)
    requires s.mode == HumanVsHuman
    ensures PlayGame(s, choice, comp1) == PlayGame(s, choice, comp2)
  {
  }

  // ---------------------------------------------------------------------------
  // The reset handlers

  /** Resetting the round after the match ended zeroes the scores but the
      match stays locked: the next click is still ignored. */
  lemma ResetRoundKeepsMatchLocked(s: State, choice: Move, comp: Move)
    requires s.gameOver
    ensures ResetRound(s).userScore == 0 && ResetRound(s).compScore == 0
    ensures PlayGame(ResetRound(s), choice, comp) == Step(ResetRound(s), Ignored)
  {
  }

  /** After a new match the next click is played, never ignored. */
  lemma NewMatchUnlocks(s: State, choice: Move, comp: Move)
    ensures PlayGame(NewMatch(s), choice, comp).event != Ignored
  {
  }

  /** Each reset handler is idempotent, and a new match subsumes the others. */
  lemma ResetsIdempotent(s: State)
    ensures ResetRound(ResetRound(s)) == ResetRound(s)
    ensures ClearHistory(ClearHistory(s)) == ClearHistory(s)
    ensures NewMatch(NewMatch(s)) == NewMatch(s)
    ensures NewMatch(ResetRound(s)) == NewMatch(s)
    ensures NewMatch(ClearHistory(s)) == NewMatch(s)
  {
  }

  /** A new match is the match-reset part of the start button: setting up
      again with the same mode and round count gives the new-match state up
      to the names and target. */
  lemma SetupResetsLikeNewMatch(s: State, p1: string, p2: string, bestOf: int)
    ensures Setup(s, p1, p2, s.mode, bestOf).(p1Name := s.p1Name, p2Name := s.p2Name,
                                              targetWins := s.targetWins) == NewMatch(s)
  {
  }

  // ---------------------------------------------------------------------------
  // Worked scenarios

  /** Best of 5 means first to 3. */
  lemma BestOfFiveIsFirstToThree()
    ensures CalcTargetWins(5) == 3
    ensures CalcTargetWins(3) == 2 && CalcTargetWins(7) == 4 && CalcTargetWins(1) == 1
  {
  }

  /** Three straight wins for player 1 in a best of 5 end the match 3-0 with
      player 1 announced. */
  lemma SweepScenario()
    ensures
      var s0 := Setup(Initial(), "", "", HumanVsHuman, 5);
      var s1 := PlayGame(PlayGame(s0, Rock, Rock).state, Scissors, Rock).state;
      var s2 := PlayGame(PlayGame(s1, Paper, Rock).state, Rock, Rock).state;
      var r := PlayGame(PlayGame(s2, Scissors, Rock).state, Paper, Rock);
      && r.state.userScore == 3 && r.state.compScore == 0
      && r.state.gameOver && r.event == Decided(true, Some(P1))
      && r.state.p1Name == "Player 1"
  {
  }

  /** Both players pick rock: a draw with one history entry and no score. */
  lemma DrawScenario()
    ensures
      var s0 := Setup(Initial(), "Ann", "Bob", HumanVsHuman, 5);
      var r := PlayGame(PlayGame(s0, Rock, Paper).state, Rock, Paper);
      && r.event == Drawn
      && r.state.userScore == 0 && r.state.compScore == 0
      && r.state.history == [Entry("Draw \U{2022} Both rock", Draw)]
  {
    var s0 := Setup(Initial(), "Ann", "Bob", HumanVsHuman, 5);
    var s1 := PlayGame(s0, Rock, Paper).state;
    assert s1.pending == Some(Rock) && s1.turn == P2 && s1.history == [];
    assert DrawText(Some(Rock)) == "Draw \U{2022} Both rock";
    assert Push([], Entry(DrawText(Some(Rock)), Draw)) == [Entry("Draw \U{2022} Both rock", Draw)];
  }

  /** Lowering the target mid-match can end it on a tied score; the engine
      then announces player 2. */
  lemma TiedMatchAnnouncesPlayer2()
    ensures
      var s0 := Setup(Initial(), "", "", HumanVsComputer, 5);
      var s1 := PlayGame(s0, Rock, Scissors).state;     // 1-0
      var s2 := PlayGame(s1, Rock, Paper).state;        // 1-1
      var s3 := PlayGame(s2, Rock, Paper).state;        // 1-2
      var s4 := ChangeRounds(s3, 3);                    // first to 2
      var r := PlayGame(s4, Rock, Scissors);            // 2-2
      && !s4.gameOver && s4.compScore >= s4.targetWins
      && r.state.userScore == 2 && r.state.compScore == 2
      && r.state.gameOver && r.event == Decided(true, Some(P2))
  {
    var s0 := Setup(Initial(), "", "", HumanVsComputer, 5);
    assert s0.targetWins == 3 && s0.userScore == 0 && s0.compScore == 0 && !s0.gameOver;
    var s1 := PlayGame(s0, Rock, Scissors).state;
    assert s1.userScore == 1 && s1.compScore == 0 && !s1.gameOver;
    var s2 := PlayGame(s1, Rock, Paper).state;
    assert s2.userScore == 1 && s2.compScore == 1 && !s2.gameOver;
    var s3 := PlayGame(s2, Rock, Paper).state;
    assert s3.userScore == 1 && s3.compScore == 2 && !s3.gameOver;
    var s4 := ChangeRounds(s3, 3);
    assert s4.targetWins == 2;
  }
}
