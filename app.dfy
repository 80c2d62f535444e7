/**
 * The application shell: the mode switch, the running score, streak and
 * round counter, the rest break every ten rounds, and the background colour
 * that rotates between rounds.
 */
module App {
  import opened Types
  import opened CardBuffer
  import MainMenu

  /** The number of entries of `BACKGROUND_COLORS`. */
  const BackgroundCount: nat := 6
  const PointsPerWin: nat := 10
  /** A rest break is offered after every tenth round. */
  const RoundsPerRest: nat := 10
  /** A streak cheer is spoken at every fifth win in a row. */
  const StreakCheerEvery: nat := 5

  /** The background index after one rotation. */
  function NextBackground(i: nat): (r: nat)
    ensures r < BackgroundCount
  {
    (i + 1) % BackgroundCount
  }

  /** The background index after `k` rotations. */
  function RotateTimes(i: nat, k: nat): nat
    decreases k
  {
    if k == 0 then i else NextBackground(RotateTimes(i, k - 1))
  }

  /** From a valid index, `k` rotations advance the index by `k` modulo six. */
  lemma {:induction false} RotateTimesIsModular(i: nat, k: nat)
    requires i < BackgroundCount
    ensures RotateTimes(i, k) == (i + k) % BackgroundCount
    decreases k
  {
    if k > 0 {
      RotateTimesIsModular(i, k - 1);
      var p := (i + k - 1) % BackgroundCount;
      assert (p + 1) % BackgroundCount == (i + k) % BackgroundCount by {
        var q := (i + k - 1) / BackgroundCount;
        assert i + k - 1 == q * BackgroundCount + p;
        assert i + k == q * BackgroundCount + (p + 1);
        if p + 1 == BackgroundCount {
          assert i + k == (q + 1) * BackgroundCount;
        }
      }
    }
  }

  /** The two lines `handleRoundComplete` can ask `speak` to say. */
  datatype VoiceLine = StreakLine | RestLine

  /**
   * The lines that get past `speak`'s guard on the voice setting, in the
   * order `handleRoundComplete` calls `speak`: the streak line first.
   */
  function Voiced(useVoice: bool, cheer: bool, rest: bool): (r: seq<VoiceLine>)
    ensures StreakLine in r <==> useVoice && cheer
    ensures RestLine in r <==> useVoice && rest
    ensures !useVoice ==> r == []
    ensures |r| <= 2 && (|r| == 2 ==> r == [StreakLine, RestLine])
  {
    if !useVoice then []
    else (if cheer then [StreakLine] else []) + (if rest then [RestLine] else [])
  }

  /** The score, streak and round counter after one completed round. */
  function AfterRound(g: GameState, success: bool): (r: GameState)
    ensures r.currentRound == g.currentRound + 1
    ensures r.streak > 0 <==> success
    ensures r.score > g.score <==> success
    ensures r.score <= g.score + PointsPerWin
    ensures r.isResting == g.isResting
  {
    g.(currentRound := g.currentRound + 1,
       score := if success then g.score + PointsPerWin else g.score,
       streak := if success then g.streak + 1 else 0)
  }

  /** The game state after a run of rounds with these outcomes, from `g`. */
  function Play(g: GameState, outcomes: seq<bool>): GameState
    decreases |outcomes|
  {
    if |outcomes| == 0 then g
    else AfterRound(Play(g, outcomes[..|outcomes| - 1]), outcomes[|outcomes| - 1])
  }

  /** Playing one more round applies one more round update. */
  lemma PlayStep(g: GameState, outcomes: seq<bool>, success: bool)
    ensures Play(g, outcomes + [success]) == AfterRound(Play(g, outcomes), success)
  {
    assert (outcomes + [success])[..|outcomes|] == outcomes;
  }

  /** How many rounds were won. */
  function Wins(outcomes: seq<bool>): (n: nat)
    ensures n <= |outcomes|
    decreases |outcomes|
  {
    if |outcomes| == 0 then 0
    else Wins(outcomes[..|outcomes| - 1]) + (if outcomes[|outcomes| - 1] then 1 else 0)
  }

  /** How many rounds at the end were won in a row. */
  function TrailingWins(outcomes: seq<bool>): (n: nat)
    ensures n <= |outcomes|
    ensures forall k :: |outcomes| - n <= k < |outcomes| ==> outcomes[k]
    ensures n < |outcomes| ==> !outcomes[|outcomes| - 1 - n]
    decreases |outcomes|
  {
    if |outcomes| == 0 || !outcomes[|outcomes| - 1] then 0
    else TrailingWins(outcomes[..|outcomes| - 1]) + 1
  }

  /**
   * Starting from the reset state, the round counter counts the rounds, the
   * score is ten points per win and so at most ten per round, and the streak
   * is the number of wins in a row at the end.
   */
  lemma {:induction false} PlayTally(outcomes: seq<bool>)
    ensures var g := Play(InitialGameState, outcomes);
      && g.currentRound == |outcomes|
      && g.score == PointsPerWin * Wins(outcomes)
      && g.score <= PointsPerWin * g.currentRound
      && g.streak == TrailingWins(outcomes)
      && !g.isResting
    decreases |outcomes|
  {
    if |outcomes| > 0 {
      PlayTally(outcomes[..|outcomes| - 1]);
    }
  }

  /** The application component's state, with the card buffer it clears. */
  class AppController {
    var mode: GameMode
    var settings: GameSettings
    var gameState: GameState
    var bgIndex: nat
    /** The module-level prefetch buffer of the card service. */
    const buffer: PrefetchBuffer
    /** The outcomes of the rounds completed since the last reset. */
    ghost var history: seq<bool>

    /** The tally matches the rounds played, and the background index is in range. */
    ghost predicate Valid()
      reads this, buffer
    {
      && bgIndex < BackgroundCount
      && Play(InitialGameState, history).(isResting := false) == gameState.(isResting := false)
      && buffer.Valid()
    }

    constructor (buffer: PrefetchBuffer)
      requires buffer.Valid()
      ensures Valid()
      ensures this.buffer == buffer
      ensures mode == Menu && settings == InitialSettings && gameState == InitialGameState
      ensures bgIndex == 0 && history == []
    {
      mode := Menu;
      settings := InitialSettings;
      gameState := InitialGameState;
      bgIndex := 0;
      this.buffer := buffer;
      history := [];
    }

    /** Advances the background colour, wrapping after the last one. */
    method RotateBackground()
      requires Valid()
      modifies this
      ensures Valid()
      ensures bgIndex == NextBackground(old(bgIndex))
      ensures bgIndex == (if old(bgIndex) + 1 == BackgroundCount then 0 else old(bgIndex) + 1)
      ensures mode == old(mode) && settings == old(settings)
      ensures gameState == old(gameState) && history == old(history)
    {
      bgIndex := NextBackground(bgIndex);
    }

    /**
     * Records a finished round. `cheer` says whether `speak` is called with a
     * streak line and `rest` whether it is called with the rest prompt and the
     * rest break opens; without a rest the background rotates instead.
     * `spoken` lists the lines that get past `speak`'s voice-setting guard,
     * in the order they are handed to the speech engine.
     */
    method HandleRoundComplete(success: bool) returns (cheer: bool, rest: bool, spoken: seq<VoiceLine>)
      requires Valid()
      modifies this
      ensures Valid()
      ensures history == old(history) + [success]
      ensures gameState.currentRound == old(gameState.currentRound) + 1
      ensures gameState.score == old(gameState.score) + (if success then PointsPerWin else 0)
      ensures gameState.streak == (if success then old(gameState.streak) + 1 else 0)
      ensures cheer <==> success && gameState.streak % StreakCheerEvery == 0
      ensures cheer <==> success && TrailingWins(history) % StreakCheerEvery == 0
      ensures rest <==> gameState.currentRound % RoundsPerRest == 0
      ensures rest <==> |history| % RoundsPerRest == 0
      ensures rest ==> gameState.isResting && bgIndex == old(bgIndex)
      ensures !rest ==> gameState.isResting == old(gameState.isResting) && bgIndex == NextBackground(old(bgIndex))
      ensures spoken == Voiced(settings.useVoice, cheer, rest)
      ensures mode == old(mode) && settings == old(settings)
    {
      var before := gameState;
      var played := history + [success];
      PlayStep(InitialGameState, history, success);
      PlayTally(played);
      var after := AfterRound(before, success);
      assert after.currentRound == |played| && after.streak == TrailingWins(played);
      gameState := after;
      history := played;
      cheer := success && after.streak % StreakCheerEvery == 0;
      rest := after.currentRound % RoundsPerRest == 0;
      spoken := Voiced(settings.useVoice, cheer, rest);
      if rest {
        gameState := gameState.(isResting := true);
      } else {
        bgIndex := NextBackground(bgIndex);
      }
    }

    /** The rest break's continue button: play resumes with the tally kept. */
    method ContinueAfterRest()
      requires Valid()
      modifies this
      ensures Valid()
      ensures gameState == old(gameState).(isResting := false)
      ensures mode == old(mode) && settings == old(settings)
      ensures bgIndex == old(bgIndex) && history == old(history)
    {
      gameState := gameState.(isResting := false);
    }

    /** Back to the menu: the tally is reset and both card slots are emptied. */
    method ReturnToMenu()
      requires Valid()
      modifies this, buffer
      ensures Valid()
      ensures mode == Menu && gameState == InitialGameState && history == []
      ensures buffer.single == None && buffer.multi == None
      ensures buffer.timers == old(buffer.timers) && buffer.tasks == old(buffer.tasks)
      ensures buffer.running == old(buffer.running) && buffer.failed == old(buffer.failed)
      ensures settings == old(settings) && bgIndex == old(bgIndex)
    {
      mode := Menu;
      gameState := InitialGameState;
      history := [];
      buffer.ClearBuffer();
    }

    /** The menu's start buttons. */
    method Start(m: GameMode)
      requires Valid()
      modifies this
      ensures Valid()
      ensures mode == m
      ensures settings == old(settings) && gameState == old(gameState)
      ensures bgIndex == old(bgIndex) && history == old(history)
    {
      mode := m;
    }

    /** One press of a button on the menu's settings panel. */
    method PressMenuButton(a: MainMenu.MenuAction)
      requires Valid()
      modifies this
      ensures Valid()
      ensures settings == MainMenu.Press(a, old(settings))
      ensures mode == old(mode) && gameState == old(gameState)
      ensures bgIndex == old(bgIndex) && history == old(history)
    {
      settings := MainMenu.Press(a, settings);
    }
  }

}
