/**
 * The vocabulary game: its level table, the reducer over
 * `{levelIndex, score, lives}`, the answer check and the guarded handlers.
 */
module EnglishLearningGame {
  import opened Wrappers
  import opened Types
  import opened Text

  /** The ten levels, five word scrambles followed by five sentences. */
  const Levels: seq<GameLevel> := [
    ScrambleLevel(1, "APPLE", "PAPEL", "A common fruit, often red or green."),
    ScrambleLevel(2, "HOUSE", "ESUHO", "A building where people live."),
    ScrambleLevel(3, "WATER", "RAWET", "A clear liquid you drink."),
    ScrambleLevel(4, "COMPUTER", "PMUORCET", "An electronic device for storing and processing data."),
    ScrambleLevel(5, "LANGUAGE", "GGEAALUN", "The method of human communication."),
    CompleteSentenceLevel(6, ("She ___ to the store.", ""), "went", "Past tense of \"go\"."),
    CompleteSentenceLevel(7, ("The sky is ___.", ""), "blue", "A primary color."),
    CompleteSentenceLevel(8, ("I have ___ brothers.", ""), "two", "The number after one."),
    CompleteSentenceLevel(9, ("Birds can ___.", ""), "fly", "What birds do in the air."),
    CompleteSentenceLevel(10, ("Please close the ___.", ""), "door", "You walk through it to enter a room.")
  ]

  const LifeCost: int := 200
  const PointsPerLevel: int := 100
  /** The number of lives a game starts with and the most a purchase can reach. */
  const MaxLives: int := 3

  datatype GameState = GameState(levelIndex: int, score: int, lives: int)

  const InitialState: GameState := GameState(0, 0, MaxLives)

  datatype Action =
    | CorrectAnswer
    | IncorrectAnswer
    | NextLevel
    | BuyLife
    | Reset
    | LoadState(payload: GameState)

  /** The invariant every state reached without loading a saved one keeps. */
  predicate Inv(s: GameState) {
    0 <= s.lives <= MaxLives && s.score >= 0 && s.score % PointsPerLevel == 0
  }

  /** The guard of `BUY_LIFE`. */
  predicate CanBuyLife(s: GameState) {
    s.score >= LifeCost && s.lives < MaxLives
  }

  /** `gameReducer`. */
  function Reduce(s: GameState, a: Action): (r: GameState)
    ensures !a.LoadState? && Inv(s) ==> Inv(r)
    ensures a.BuyLife? ==> (r != s <==> CanBuyLife(s))
    ensures !a.NextLevel? && !a.Reset? && !a.LoadState? ==> r.levelIndex == s.levelIndex
  {
    match a
    case CorrectAnswer => s.(score := s.score + PointsPerLevel)
    case IncorrectAnswer => s.(lives := if s.lives - 1 < 0 then 0 else s.lives - 1)
    case NextLevel => s.(levelIndex := s.levelIndex + 1)
    case BuyLife =>
      if CanBuyLife(s) then s.(score := s.score - LifeCost, lives := s.lives + 1) else s
    case Reset => InitialState
    case LoadState(payload) => payload
  }

  lemma CorrectAnswerScores(s: GameState)
    ensures var r := Reduce(s, CorrectAnswer);
            r.score == s.score + 100 && r.levelIndex == s.levelIndex && r.lives == s.lives
  {
  }

  lemma IncorrectAnswerCostsALife(s: GameState)
    ensures var r := Reduce(s, IncorrectAnswer);
            r.lives == (if s.lives >= 1 then s.lives - 1 else 0) && r.lives >= 0 &&
            r.score == s.score && r.levelIndex == s.levelIndex
  {
  }

  lemma BuyLifeTrades(s: GameState)
    ensures var r := Reduce(s, BuyLife);
            if s.score >= 200 && s.lives < 3
            then r == GameState(s.levelIndex, s.score - 200, s.lives + 1)
            else r == s
  {
  }

  lemma ResetRestartsAndIsIdempotent(s: GameState)
    ensures Reduce(s, Reset) == GameState(0, 0, 3)
    ensures Reduce(Reduce(s, Reset), Reset) == Reduce(s, Reset)
  {
  }

  /** The state after dispatching `actions` in order, starting from `s`. */
  function Run(s: GameState, actions: seq<Action>): GameState
    decreases |actions|
  {
    if actions == [] then s else Run(Reduce(s, actions[0]), actions[1..])
  }

  predicate NoLoads(actions: seq<Action>) {
    forall i :: 0 <= i < |actions| ==> !actions[i].LoadState?
  }

  lemma {:induction false} RunKeepsInvariant(s: GameState, actions: seq<Action>)
    requires Inv(s) && NoLoads(actions)
    ensures Inv(Run(s, actions))
    decreases |actions|
  {
    if actions != [] {
      RunKeepsInvariant(Reduce(s, actions[0]), actions[1..]);
    }
  }

  /**
   * From the initial state, whatever actions other than `LOAD_STATE` are
   * dispatched, lives stay within 0..3 and the score is a non-negative
   * multiple of 100.
   */
  lemma ReachableStatesAreValid(actions: seq<Action>)
    requires NoLoads(actions)
    ensures var s := Run(InitialState, actions);
            0 <= s.lives <= 3 && s.score >= 0 && s.score % 100 == 0
  {
    RunKeepsInvariant(InitialState, actions);
  }

  /** `levelIndex` names an entry of the level table. */
  predicate InRange(s: GameState) {
    0 <= s.levelIndex < |Levels|
  }

  /** The guard of `handleNextLevel`: it admits exactly the advances that stay in the table. */
  function CanAdvance(s: GameState): (c: bool)
    ensures InRange(s) ==> (c <==> InRange(Reduce(s, NextLevel)))
  {
    s.levelIndex < |Levels| - 1
  }

  /**
   * `actions` is a sequence the component itself can dispatch from `s`:
   * no saved state is loaded and `NEXT_LEVEL` only goes out under its guard.
   */
  predicate Guarded(s: GameState, actions: seq<Action>)
    decreases |actions|
  {
    actions == [] ||
    (!actions[0].LoadState? &&
     (actions[0].NextLevel? ==> CanAdvance(s)) &&
     Guarded(Reduce(s, actions[0]), actions[1..]))
  }

  lemma {:induction false} GuardedRunStaysInRange(s: GameState, actions: seq<Action>)
    requires InRange(s) && Guarded(s, actions)
    ensures InRange(Run(s, actions))
    decreases |actions|
  {
    if actions != [] {
      GuardedRunStaysInRange(Reduce(s, actions[0]), actions[1..]);
    }
  }

  /**
   * The answer check of `handleSubmit`: a scramble answer must spell the word
   * as typed, a sentence answer once trimmed, in either case the letters
   * compared without regard to case.
   */
  function IsCorrect(level: GameLevel, answer: string): (ok: bool)
    ensures level.ScrambleLevel? ==> (ok <==> SameIgnoringCase(answer, level.word))
    ensures level.CompleteSentenceLevel? ==> (ok <==> SameIgnoringCase(Trim(answer), level.answer))
  {
    match level
    case ScrambleLevel(_, word, _, _) =>
      UpperEqualIff(answer, word);
      ToUpper(answer) == ToUpper(word)
    case CompleteSentenceLevel(_, _, expected, _) =>
      LowerEqualIff(Trim(answer), expected);
      ToLower(Trim(answer)) == ToLower(expected)
  }

  /** Answers that differ only in letter case get the same verdict, at every level. */
  lemma CheckIgnoresCase(level: GameLevel, a: string, b: string)
    requires ToLower(a) == ToLower(b)
    ensures IsCorrect(level, a) == IsCorrect(level, b)
  {
    FoldingsAgree(a, b);
    TrimCommutesWithLower(a);
    TrimCommutesWithLower(b);
  }

  /** A sentence answer is judged without its surrounding whitespace. */
  lemma SentenceIgnoresPadding(level: GameLevel, w1: string, a: string, w2: string)
    requires level.CompleteSentenceLevel? && AllWhitespace(w1) && AllWhitespace(w2)
    ensures IsCorrect(level, w1 + a + w2) == IsCorrect(level, a)
  {
    TrimIgnoresPadding(w1, a, w2);
  }

  /** A scramble answer is not trimmed: padding an accepted answer makes it wrong. */
  lemma ScrambleRejectsPadding(level: GameLevel, a: string, w: string)
    requires level.ScrambleLevel? && IsCorrect(level, a) && w != []
    ensures !IsCorrect(level, w + a) && !IsCorrect(level, a + w)
  {
    assert |ToUpper(a)| == |ToUpper(level.word)|;
    assert |ToUpper(w + a)| != |ToUpper(level.word)|;
    assert |ToUpper(a + w)| != |ToUpper(level.word)|;
  }

  /** The first level accepts its word in lower case, but not with a leading space. */
  lemma ScrambleExample()
    ensures IsCorrect(Levels[0], "apple") && !IsCorrect(Levels[0], " apple")
  {
    var level := Levels[0];
    assert level.word == "APPLE";
    assert ToUpper("apple") == "APPLE";
    assert ToUpper("APPLE") == "APPLE";
    ScrambleRejectsPadding(level, "apple", " ");
  }

  /** The sixth level accepts its answer capitalised and padded with spaces. */
  lemma SentenceExample()
    ensures IsCorrect(Levels[5], " Went ")
  {
    var level := Levels[5];
    assert level.answer == "went";
    assert " Went " == " " + "Went" + " ";
    SentenceIgnoresPadding(level, " ", "Went", " ");
    assert IsCorrect(level, "Went") by { CapitalisedWentMatches(); }
  }

  lemma CapitalisedWentMatches()
    ensures ToLower(Trim("Went")) == ToLower("went")
  {
    assert !IsWhitespace('W') && !IsWhitespace('t');
    TrimKeepsUnpadded("Went");
    LowerWent();
  }

  lemma LowerWent()
    ensures ToLower("Went") == ToLower("went") == "went"
  {
    var lower, expected := ToLower("Went"), ToLower("went");
    assert LowerChar('W') == 'w';
    assert lower[0] == 'w' && lower[1] == 'e' && lower[2] == 'n' && lower[3] == 't';
    assert expected[0] == 'w' && expected[1] == 'e' && expected[2] == 'n' && expected[3] == 't';
  }

  /**
   * The guard on a saved state read back at start-up. It checks only the
   * upper bound: a negative index passes.
   */
  function ShouldLoad(saved: GameState): (ok: bool)
    ensures ok <==> saved.levelIndex < 10
  {
    saved.levelIndex < |Levels|
  }

  datatype FeedbackKind = Correct | Incorrect | Info

  datatype Feedback = Feedback(message: string, kind: FeedbackKind)

  const CorrectFeedback := Feedback("Correct! Well done!", Correct)
  const TryAgainFeedback := Feedback("Not quite, try again!", Incorrect)
  const GameOverFeedback := Feedback("Game Over! Restarting...", Incorrect)
  const CompletedFeedback := Feedback("Congratulations! You have completed all levels!", Info)

  /** The component: the reducer's state plus the per-level UI state its handlers set. */
  class GameComponent {
    var state: GameState
    var currentAnswer: string
    var feedback: Option<Feedback>
    var showHint: bool
    var isLevelComplete: bool
    /** Game-over timers started and not yet fired; each dispatches `RESET` when it fires. */
    var pendingResets: nat

    constructor ()
      ensures state == InitialState && currentAnswer == "" && feedback == None
      ensures !showHint && !isLevelComplete && pendingResets == 0
    {
      state := InitialState;
      currentAnswer := "";
      feedback := None;
      showHint := false;
      isLevelComplete := false;
      pendingResets := 0;
    }

    method Dispatch(a: Action)
      modifies this`state
      ensures state == Reduce(old(state), a)
    {
      state := Reduce(state, a);
    }

    /** `resetLevelState`. */
    method ResetLevelState()
      modifies this`currentAnswer, this`feedback, this`showHint, this`isLevelComplete
      ensures currentAnswer == "" && feedback == None && !showHint && !isLevelComplete
    {
      currentAnswer := "";
      feedback := None;
      showHint := false;
      isLevelComplete := false;
    }

    /** The start-up effect: `saved` is the parsed saved state, `None` when absent or unreadable. */
    method LoadSaved(saved: Option<GameState>)
      modifies this`state
      ensures state == if saved.Some? && ShouldLoad(saved.value) then saved.value else old(state)
    {
      if saved.Some? && ShouldLoad(saved.value) {
        Dispatch(LoadState(saved.value));
      }
    }

    method SetAnswer(answer: string)
      modifies this`currentAnswer
      ensures currentAnswer == answer
    {
      currentAnswer := answer;
    }

    /** `handleSubmit`; its button is shown only while a current level exists. */
    method Submit()
      requires InRange(state)
      modifies this`state, this`feedback, this`isLevelComplete, this`pendingResets
      ensures var correct := IsCorrect(Levels[old(state.levelIndex)], old(currentAnswer));
              var gameOver := !correct && old(state.lives) - 1 <= 0;
              state == Reduce(old(state), if correct then CorrectAnswer else IncorrectAnswer) &&
              feedback == Some(if correct then CorrectFeedback
                               else if gameOver then GameOverFeedback else TryAgainFeedback) &&
              isLevelComplete == (correct || old(isLevelComplete)) &&
              pendingResets == old(pendingResets) + (if gameOver then 1 else 0)
      ensures state.levelIndex == old(state.levelIndex)
      ensures old(Inv(state)) ==> Inv(state)
    {
      var lives := state.lives;
      var level := Levels[state.levelIndex];
      var correct := IsCorrect(level, currentAnswer);
      if correct {
        feedback := Some(CorrectFeedback);
        Dispatch(CorrectAnswer);
        isLevelComplete := true;
      } else {
        feedback := Some(TryAgainFeedback);
        Dispatch(IncorrectAnswer);
        if lives - 1 <= 0 {
          feedback := Some(GameOverFeedback);
          pendingResets := pendingResets + 1;
        }
      }
    }

    /** The game-over timer firing. */
    method GameOverTimerFires()
      requires pendingResets > 0
      modifies this`state, this`currentAnswer, this`feedback, this`showHint, this`isLevelComplete, this`pendingResets
      ensures state == InitialState && pendingResets == old(pendingResets) - 1
      ensures currentAnswer == "" && feedback == None && !showHint && !isLevelComplete
    {
      pendingResets := pendingResets - 1;
      Dispatch(Reset);
      ResetLevelState();
    }

    /** `handleNextLevel`. */
    method AdvanceLevel()
      modifies this`state, this`currentAnswer, this`feedback, this`showHint, this`isLevelComplete
      ensures CanAdvance(old(state)) ==>
                state == Reduce(old(state), NextLevel) &&
                currentAnswer == "" && feedback == None && !showHint && !isLevelComplete
      ensures !CanAdvance(old(state)) ==>
                state == old(state) && feedback == Some(CompletedFeedback) &&
                currentAnswer == old(currentAnswer) && showHint == old(showHint) &&
                isLevelComplete == old(isLevelComplete)
      ensures old(InRange(state)) ==> InRange(state)
    {
      if state.levelIndex < |Levels| - 1 {
        Dispatch(NextLevel);
        ResetLevelState();
      } else {
        feedback := Some(CompletedFeedback);
      }
    }

    /** The "Buy Life" button, which the reducer guards as well. */
    method PurchaseLife()
      modifies this`state
      ensures state == Reduce(old(state), BuyLife)
    {
      Dispatch(BuyLife);
    }

    /** The "Play Again" button shown once every level is done. */
    method PlayAgain()
      modifies this`state, this`currentAnswer, this`feedback, this`showHint, this`isLevelComplete
      ensures state == InitialState
      ensures currentAnswer == "" && feedback == None && !showHint && !isLevelComplete
    {
      Dispatch(Reset);
      ResetLevelState();
    }
  }
}
