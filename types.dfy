/**
 * The game's value types: cards, settings, the per-session game state, and
 * the two wrappers used for missing values and for calls that may throw.
 */
module Types {

  /** A value that may be absent (JavaScript `null` / `undefined`). */
  datatype Option<T> = None | Some(value: T)

  /** How a call that may throw ends: with its value, or with the thrown error's `message`. */
  datatype Outcome<T> = Ok(value: T) | Err(message: string)

  datatype GameMode = Menu | Single | Multi

  datatype Difficulty = Easy | Medium | Hard

  /** The position of a difficulty in the menu's order EASY, MEDIUM, HARD. */
  function Rank(d: Difficulty): (n: nat)
    ensures n < 3
  {
    match d
    case Easy => 0
    case Medium => 1
    case Hard => 2
  }

  /** The overlay shown after a pick: `'success'` or `'error'`. */
  datatype Feedback = Success | Failure

  /** `zh-TW` and `en-US`. */
  datatype Language = ZH | EN

  /** The five regions a difference can be located in. */
  datatype Quadrant = TopLeft | TopRight | BottomLeft | BottomRight | Center

  datatype GameSettings = GameSettings(
    useTimer: bool,
    useVoice: bool,
    difficulty: Difficulty,
    multiCardCount: int,
    language: Language)

  /**
   * One flashcard. A distractor has identical front and back images and an
   * empty `diffDescription`; the target of a multi-card round is the one card
   * whose `diffDescription` is not empty.
   */
  datatype Card = Card(
    id: string,
    frontImage: string,
    backImage: string,
    diffDescription: string,
    diffLocation: Quadrant,
    prompt: string)

  datatype GameState = GameState(currentRound: nat, score: nat, streak: nat, isResting: bool)

  /** The settings the application starts with. */
  const InitialSettings := GameSettings(false, true, Easy, 3, ZH)

  /** The game state at start-up and after returning to the menu. */
  const InitialGameState := GameState(0, 0, 0, false)
}
