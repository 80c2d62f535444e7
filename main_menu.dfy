/**
 * The main menu's settings handlers. Each one is a functional update that
 * returns a new settings record with a single field changed.
 */
module MainMenu {
  import opened Types

  /** EASY, then MEDIUM, then HARD, then EASY again; nothing but the difficulty changes. */
  function CycleDifficulty(s: GameSettings): (r: GameSettings)
    ensures Rank(r.difficulty) == (Rank(s.difficulty) + 1) % 3
    ensures r == s.(difficulty := r.difficulty)
  {
    var next := if s.difficulty == Easy then Medium
                else if s.difficulty == Medium then Hard
                else Easy;
    s.(difficulty := next)
  }

  /** Swaps the two languages; nothing but the language changes. */
  function ToggleLanguage(s: GameSettings): (r: GameSettings)
    ensures r.language != s.language
    ensures r == s.(language := r.language)
  {
    s.(language := if s.language == ZH then EN else ZH)
  }

  /** Switches the memorize timer on or off; nothing else changes. */
  function ToggleTimer(s: GameSettings): (r: GameSettings)
    ensures r.useTimer != s.useTimer
    ensures r == s.(useTimer := r.useTimer)
  {
    s.(useTimer := !s.useTimer)
  }

  /** Switches speech on or off; nothing else changes, `multiCardCount` included. */
  function ToggleVoice(s: GameSettings): (r: GameSettings)
    ensures r.useVoice != s.useVoice
    ensures r == s.(useVoice := r.useVoice)
  {
    s.(useVoice := !s.useVoice)
  }

  /** The four buttons of the settings panel. */
  datatype MenuAction = CycleDifficultyButton | LanguageButton | TimerButton | VoiceButton

  /** The settings after pressing one button. */
  function Press(a: MenuAction, s: GameSettings): (r: GameSettings)
    ensures r != s
    ensures r.multiCardCount == s.multiCardCount
  {
    match a
    case CycleDifficultyButton => CycleDifficulty(s)
    case LanguageButton => ToggleLanguage(s)
    case TimerButton => ToggleTimer(s)
    case VoiceButton => ToggleVoice(s)
  }

  /** The settings after pressing the buttons in order. */
  function PressAll(actions: seq<MenuAction>, s: GameSettings): GameSettings
    decreases |actions|
  {
    if |actions| == 0 then s else PressAll(actions[1..], Press(actions[0], s))
  }

  /** Three presses of the difficulty button bring every setting back. */
  lemma CycleThriceIsIdentity(s: GameSettings)
    ensures CycleDifficulty(CycleDifficulty(CycleDifficulty(s))) == s
  {
  }

  /** Two presses of a toggle bring every setting back. */
  lemma ToggleTwiceIsIdentity(s: GameSettings)
    ensures ToggleLanguage(ToggleLanguage(s)) == s
    ensures ToggleTimer(ToggleTimer(s)) == s
    ensures ToggleVoice(ToggleVoice(s)) == s
  {
  }

  /** How often `a` occurs in `actions`. */
  function Presses(actions: seq<MenuAction>, a: MenuAction): nat
    decreases |actions|
  {
    if |actions| == 0 then 0
    else (if actions[0] == a then 1 else 0) + Presses(actions[1..], a)
  }

  /**
   * Every field depends only on how often its own button was pressed: the
   * difficulty advances once per press of its button, each toggle flips once
   * per press, and the card count is never touched.
   */
  lemma {:induction false} PressAllCounts(actions: seq<MenuAction>, s: GameSettings)
    ensures var r := PressAll(actions, s);
      && Rank(r.difficulty) == (Rank(s.difficulty) + Presses(actions, CycleDifficultyButton)) % 3
      && (r.language == s.language <==> Presses(actions, LanguageButton) % 2 == 0)
      && (r.useTimer == s.useTimer <==> Presses(actions, TimerButton) % 2 == 0)
      && (r.useVoice == s.useVoice <==> Presses(actions, VoiceButton) % 2 == 0)
      && r.multiCardCount == s.multiCardCount
    decreases |actions|
  {
    if |actions| > 0 {
      var s' := Press(actions[0], s);
      PressAllCounts(actions[1..], s');
    }
  }
}
