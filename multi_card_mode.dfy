/**
 * Multi-card mode: a shuffled set of cards is memorized, covered, and then
 * the one card that changed is to be picked; a correct pick plays a reveal
 * that flips the target four times before the round completes.
 */
module MultiCardMode {
  import opened Types
  import CardBuffer
  import GeminiService

  /** Cards per round: 2 on EASY, 4 on MEDIUM, 6 on HARD. */
  function CardCount(d: Difficulty): (n: nat)
    ensures n == 2 * (Rank(d) + 1)
  {
    if d == Easy then 2 else if d == Medium then 4 else 6
  }

  /** The set the buffer assembles for `CardCount(d)` has exactly that many cards: a target and the distractors. */
  lemma CardCountMatchesBatch(d: Difficulty)
    ensures 1 + CardBuffer.NumDistractors(CardCount(d)) == CardCount(d)
  {
  }

  /** `Array.prototype.findIndex` for a non-empty difference description, searching from `i`. */
  function FindChangedFrom(cards: seq<Card>, i: nat): (r: int)
    requires i <= |cards|
    ensures r == -1 <==> forall k :: i <= k < |cards| ==> cards[k].diffDescription == ""
    ensures r != -1 ==> i <= r < |cards| && cards[r].diffDescription != ""
    ensures r != -1 ==> forall k :: i <= k < r ==> cards[k].diffDescription == ""
    decreases |cards| - i
  {
    if i == |cards| then -1
    else if cards[i].diffDescription != "" then i
    else FindChangedFrom(cards, i + 1)
  }

  /** The target: the first card with a difference description, or 0 when there is none. */
  function TargetIndex(cards: seq<Card>): (t: nat)
    ensures |cards| > 0 ==> t < |cards|
    ensures (forall k :: 0 <= k < |cards| ==> cards[k].diffDescription == "") ==> t == 0
    ensures (exists k :: 0 <= k < |cards| && cards[k].diffDescription != "") ==>
      cards[t].diffDescription != "" && forall k :: 0 <= k < t ==> cards[k].diffDescription == ""
  {
    var r := FindChangedFrom(cards, 0);
    if r >= 0 then r else 0
  }

  /**
   * When the target has a description and the distractors have none, the
   * target index of any arrangement of `[target] + distractors` points at the
   * target.
   */
  lemma TargetFound(target: Card, distractors: seq<Card>, cards: seq<Card>)
    requires target.diffDescription != ""
    requires forall d :: d in distractors ==> d.diffDescription == ""
    requires multiset(cards) == multiset([target] + distractors)
    ensures TargetIndex(cards) < |cards| && cards[TargetIndex(cards)] == target
  {
    assert target in multiset(cards);
    var k :| 0 <= k < |cards| && cards[k] == target;
    var t := TargetIndex(cards);
    assert cards[t] in multiset(cards);
    assert cards[t] in multiset([target]) + multiset(distractors);
  }

  /**
   * For a set the assembler shuffled from a target with a description and
   * distractors from the distractor builder, the target index finds the target.
   */
  lemma AssembledTargetFound(target: Card, distractors: seq<Card>, draws: seq<nat>)
    requires target.diffDescription != ""
    requires forall d :: d in distractors ==> GeminiService.IsDistractor(d)
    requires CardBuffer.ValidDraws(draws, 1 + |distractors|)
    ensures var cards := CardBuffer.FisherYates([target] + distractors, draws);
      && TargetIndex(cards) < |cards| && cards[TargetIndex(cards)] == target
      && forall k :: 0 <= k < |cards| && cards[k].diffDescription != "" ==> k == TargetIndex(cards)
  {
    var cards := CardBuffer.FisherYates([target] + distractors, draws);
    CardBuffer.FisherYatesPermutes([target] + distractors, draws);
    TargetFound(target, distractors, cards);
    var t := TargetIndex(cards);
    forall k | 0 <= k < |cards| && cards[k].diffDescription != ""
      ensures k == t
    {
      assert cards[k] in multiset([target]) + multiset(distractors) by {
        assert cards[k] in multiset(cards);
      }
      assert cards[k] == target;
      assert target !in multiset(distractors);
      assert multiset(cards)[target] == 1;
      if k != t {
        CountTwice(cards, if k < t then k else t, if k < t then t else k);
      }
    }
  }

  /**
   * Nothing checks that the scenario's description is non-empty. When it is
   * empty no card has a description, the search falls back to index 0, and
   * after a shuffle that moved the target that index holds a distractor.
   */
  lemma UndescribedTargetMissed(target: Card, d: Card)
    requires target.diffDescription == "" && GeminiService.IsDistractor(d) && target != d
    ensures var cards := CardBuffer.FisherYates([target, d], [0]);
      && cards == [d, target]
      && FindChangedFrom(cards, 0) == -1
      && TargetIndex(cards) == 0 && cards[0] != target
  {
    var s := [target, d];
    assert CardBuffer.ValidDraws([0], 2);
    assert CardBuffer.Swap(s, 1, 0) == [d, target];
    assert CardBuffer.ShuffleFrom([d, target], [0], 0) == [d, target];
    assert CardBuffer.FisherYates(s, [0]) == CardBuffer.ShuffleFrom(s, [0], 1);
  }

  /** A value at two different positions occurs at least twice. */
  lemma CountTwice<T>(s: seq<T>, j: nat, k: nat)
    requires j < k < |s| && s[j] == s[k]
    ensures multiset(s)[s[j]] >= 2
  {
    assert s == s[..k] + [s[k]] + s[k + 1..];
    assert s[..k][j] == s[j];
    assert s[j] in multiset(s[..k]);
  }

  datatype Phase = Memorize | Covered | Guess | Reveal

  /**
   * The rotation of card `idx` in degrees; 180 shows the back. Only the
   * target ever turns: to its back while guessing, and to the animated
   * angle during the reveal.
   */
  function Rotation(phase: Phase, idx: int, targetIndex: int, flip: int): (deg: int)
    ensures deg != 0 ==> idx == targetIndex && (phase == Guess || phase == Reveal)
    ensures phase == Guess && idx == targetIndex ==> deg == 180
    ensures phase == Reveal && idx == targetIndex ==> deg == flip
  {
    match phase
    case Memorize => 0
    case Covered => 0
    case Guess => if idx == targetIndex then 180 else 0
    case Reveal => if idx == targetIndex then flip else 0
  }

  /** The reveal's toggle between the front (0) and the back (180). */
  function Toggle(flip: int): (r: int)
    ensures r == 0 || r == 180
    ensures (flip == 0 || flip == 180) ==> r == 180 - flip
  {
    if flip == 0 then 180 else 0
  }

  /** The target's angle after `n` toggles from the back. */
  function FlipAfter(n: nat): (f: int)
    ensures f == 0 || f == 180
  {
    if n % 2 == 0 then 180 else 0
  }

  /** Each toggle moves the target one step further along the flip sequence. */
  lemma ToggleAdvances(n: nat)
    ensures Toggle(FlipAfter(n)) == FlipAfter(n + 1)
  {
  }

  /** Toggles applied so far by all reveal intervals. */
  function Sum(counts: seq<nat>): nat
    decreases |counts|
  {
    if |counts| == 0 then 0 else Sum(counts[..|counts| - 1]) + counts[|counts| - 1]
  }

  lemma {:induction false} SumAppend(counts: seq<nat>, c: nat)
    ensures Sum(counts + [c]) == Sum(counts) + c
  {
    assert (counts + [c])[..|counts|] == counts;
  }

  lemma {:induction false} SumIncrement(counts: seq<nat>, k: nat)
    requires k < |counts|
    ensures Sum(counts[k := counts[k] + 1]) == Sum(counts) + 1
    decreases |counts|
  {
    var s := counts[k := counts[k] + 1];
    if k < |counts| - 1 {
      assert s[..|s| - 1] == counts[..|counts| - 1][k := counts[k] + 1];
      SumIncrement(counts[..|counts| - 1], k);
    } else {
      assert s[..|s| - 1] == counts[..|counts| - 1];
    }
  }

  /** Finished intervals toggled four times each, an even number in all. */
  lemma {:induction false} SumAllFinished(counts: seq<nat>)
    requires forall k :: 0 <= k < |counts| ==> counts[k] == RevealToggles
    ensures Sum(counts) == RevealToggles * |counts|
    decreases |counts|
  {
    if |counts| > 0 {
      SumAllFinished(counts[..|counts| - 1]);
    }
  }

  /** The reveal flips the target this many times. */
  const RevealToggles: nat := 4

  /** The state of one multi-card round. */
  class MultiRound {
    const useTimer: bool
    const cardCount: nat
    var cards: seq<Card>
    var targetIndex: int
    var phase: Phase
    var loading: bool
    var timeLeft: nat
    var feedback: Option<Feedback>
    var targetFlipState: int
    /** Pending two-second timers that end the covered phase. */
    var coverTimers: nat
    /** The local `count` of every reveal interval started; an interval is cleared at four. */
    var revealCounts: seq<nat>
    /** Pending one-second timers that report the round as won. */
    var completions: nat

    /** The target's angle is fixed by how many toggles all revealCounts have made. */
    ghost predicate Valid()
      reads this
    {
      && targetFlipState == FlipAfter(Sum(revealCounts))
      && (forall k :: 0 <= k < |revealCounts| ==> revealCounts[k] <= RevealToggles)
    }

    constructor (settings: GameSettings)
      ensures Valid()
      ensures useTimer == settings.useTimer && cardCount == CardCount(settings.difficulty)
      ensures cards == [] && targetIndex == -1 && phase == Memorize && loading
      ensures timeLeft == 0 && feedback == None && targetFlipState == 180
      ensures coverTimers == 0 && revealCounts == [] && completions == 0
    {
      useTimer := settings.useTimer;
      cardCount := CardCount(settings.difficulty);
      cards := [];
      targetIndex := -1;
      phase := Memorize;
      loading := true;
      timeLeft := 0;
      feedback := None;
      targetFlipState := 180;
      coverTimers := 0;
      revealCounts := [];
      completions := 0;
    }

    /**
     * The buffer's answer arrives. A set of cards starts the memorize phase
     * with its target selected and, with the timer on, two seconds per card.
     */
    method CardsLoaded(r: Outcome<seq<Card>>)
      requires Valid()
      modifies this
      ensures Valid()
      ensures !loading
      ensures r.Ok? ==> cards == r.value && targetIndex == TargetIndex(r.value) && phase == Memorize
      ensures r.Ok? ==> timeLeft == (if useTimer then 2 * cardCount else old(timeLeft))
      ensures r.Err? ==> cards == old(cards) && targetIndex == old(targetIndex) && phase == old(phase) && timeLeft == old(timeLeft)
      ensures feedback == old(feedback) && targetFlipState == old(targetFlipState)
      ensures coverTimers == old(coverTimers) && revealCounts == old(revealCounts) && completions == old(completions)
    {
      if r.Ok? {
        cards := r.value;
        targetIndex := TargetIndex(r.value);
        if useTimer {
          timeLeft := cardCount * 2;
        }
        phase := Memorize;
      }
      loading := false;
    }

    /** The ready button, shown only while memorizing: cover the cards and start the two-second timer. */
    method HandleReady()
      requires Valid()
      requires phase == Memorize
      modifies this
      ensures Valid()
      ensures phase == Covered && coverTimers == old(coverTimers) + 1
      ensures cards == old(cards) && targetIndex == old(targetIndex) && loading == old(loading)
      ensures timeLeft == old(timeLeft) && feedback == old(feedback) && targetFlipState == old(targetFlipState)
      ensures revealCounts == old(revealCounts) && completions == old(completions)
    {
      phase := Covered;
      coverTimers := coverTimers + 1;
    }

    /** The timer effect: a memorize phase whose time has run out moves on as if ready was pressed. */
    method TimerEffect()
      requires Valid()
      modifies this
      ensures Valid()
      ensures old(phase) == Memorize && useTimer && old(timeLeft) == 0 ==>
        phase == Covered && coverTimers == old(coverTimers) + 1
      ensures !(old(phase) == Memorize && useTimer && old(timeLeft) == 0) ==>
        phase == old(phase) && coverTimers == old(coverTimers)
      ensures cards == old(cards) && targetIndex == old(targetIndex) && loading == old(loading)
      ensures timeLeft == old(timeLeft) && feedback == old(feedback) && targetFlipState == old(targetFlipState)
      ensures revealCounts == old(revealCounts) && completions == old(completions)
    {
      if phase == Memorize && useTimer && timeLeft == 0 {
        HandleReady();
      }
    }

    /** One second of the memorize countdown, armed only while time is left. */
    method Tick()
      requires Valid()
      requires phase == Memorize && useTimer && timeLeft > 0
      modifies this
      ensures Valid()
      ensures timeLeft == old(timeLeft) - 1
      ensures cards == old(cards) && targetIndex == old(targetIndex) && loading == old(loading) && phase == old(phase)
      ensures feedback == old(feedback) && targetFlipState == old(targetFlipState)
      ensures coverTimers == old(coverTimers) && revealCounts == old(revealCounts) && completions == old(completions)
    {
      timeLeft := timeLeft - 1;
    }

    /** A cover timer fires: guessing starts, whatever the phase is by then. */
    method CoverTimerFires()
      requires Valid()
      requires coverTimers > 0
      modifies this
      ensures Valid()
      ensures phase == Guess && coverTimers == old(coverTimers) - 1
      ensures cards == old(cards) && targetIndex == old(targetIndex) && loading == old(loading)
      ensures timeLeft == old(timeLeft) && feedback == old(feedback) && targetFlipState == old(targetFlipState)
      ensures revealCounts == old(revealCounts) && completions == old(completions)
    {
      phase := Guess;
      coverTimers := coverTimers - 1;
    }

    /** A pick of card `index`: ignored unless guessing, correct exactly when it is the target. */
    method HandleCardClick(index: int)
      requires Valid()
      modifies this
      ensures Valid()
      ensures old(phase) != Guess ==> feedback == old(feedback)
      ensures old(phase) == Guess ==> feedback == Some(if index == targetIndex then Success else Failure)
      ensures cards == old(cards) && targetIndex == old(targetIndex) && loading == old(loading) && phase == old(phase)
      ensures timeLeft == old(timeLeft) && targetFlipState == old(targetFlipState)
      ensures coverTimers == old(coverTimers) && revealCounts == old(revealCounts) && completions == old(completions)
    {
      if phase != Guess {
        return;
      }
      if index == targetIndex {
        feedback := Some(Success);
      } else {
        feedback := Some(Failure);
      }
    }

    /**
     * The feedback overlay has finished. After a correct pick the reveal
     * begins with a new interval; after a wrong one guessing goes on.
     */
    method OnFeedbackDone()
      requires Valid()
      modifies this
      ensures Valid()
      ensures feedback == None
      ensures old(feedback) == Some(Success) ==> phase == Reveal && revealCounts == old(revealCounts) + [0]
      ensures old(feedback) != Some(Success) ==> phase == old(phase) && revealCounts == old(revealCounts)
      ensures cards == old(cards) && targetIndex == old(targetIndex) && loading == old(loading)
      ensures timeLeft == old(timeLeft) && targetFlipState == old(targetFlipState)
      ensures coverTimers == old(coverTimers) && completions == old(completions)
    {
      if feedback == Some(Success) {
        feedback := None;
        phase := Reveal;
        SumAppend(revealCounts, 0);
        revealCounts := revealCounts + [0];
      } else {
        feedback := None;
      }
    }

    /**
     * A tick of reveal interval `k`, every 800 ms: the target flips, and at
     * the fourth tick the interval stops and the win is scheduled. Once every
     * reveal has stopped the target is back at 180.
     */
    method RevealTick(k: nat) returns (done: bool)
      requires Valid()
      requires k < |revealCounts| && revealCounts[k] < RevealToggles
      modifies this
      ensures Valid()
      ensures revealCounts == old(revealCounts)[k := old(revealCounts)[k] + 1]
      ensures targetFlipState == Toggle(old(targetFlipState))
      ensures done <==> revealCounts[k] == RevealToggles
      ensures completions == old(completions) + (if done then 1 else 0)
      ensures (forall j :: 0 <= j < |revealCounts| ==> revealCounts[j] == RevealToggles) ==> targetFlipState == 180
      ensures cards == old(cards) && targetIndex == old(targetIndex) && loading == old(loading) && phase == old(phase)
      ensures timeLeft == old(timeLeft) && feedback == old(feedback) && coverTimers == old(coverTimers)
    {
      SumIncrement(revealCounts, k);
      ToggleAdvances(Sum(revealCounts));
      revealCounts := revealCounts[k := revealCounts[k] + 1];
      targetFlipState := Toggle(targetFlipState);
      done := revealCounts[k] >= RevealToggles;
      if done {
        completions := completions + 1;
      }
      if forall j :: 0 <= j < |revealCounts| ==> revealCounts[j] == RevealToggles {
        SumAllFinished(revealCounts);
      }
    }

    /** A scheduled win fires: the round is reported, always as won. */
    method CompletionFires() returns (success: bool)
      requires Valid()
      requires completions > 0
      modifies this
      ensures Valid()
      ensures success
      ensures completions == old(completions) - 1
      ensures cards == old(cards) && targetIndex == old(targetIndex) && loading == old(loading) && phase == old(phase)
      ensures timeLeft == old(timeLeft) && feedback == old(feedback) && targetFlipState == old(targetFlipState)
      ensures coverTimers == old(coverTimers) && revealCounts == old(revealCounts)
    {
      completions := completions - 1;
      success := true;
    }

    /** The angle of every card as the grid renders it. */
    function Rotations(): (r: seq<int>)
      reads this
      ensures |r| == |cards|
      ensures forall i :: 0 <= i < |r| ==> r[i] == Rotation(phase, i, targetIndex, targetFlipState)
    {
      var p, t, f := phase, targetIndex, targetFlipState;
      seq(|cards|, i => Rotation(p, i, t, f))
    }
  }

  /**
   * A whole round on the normal path: load, memorize, cover, pick the
   * target, and let one reveal run to its end. The round is reported won
   * and the target ends showing its back.
   */
  method NormalRound(settings: GameSettings, cards: seq<Card>) returns (flipAfterReveal: int, success: bool)
    requires !settings.useTimer
    ensures flipAfterReveal == 180 && success
  {
    var round := new MultiRound(settings);
    round.CardsLoaded(Ok(cards));
    round.HandleReady();
    round.CoverTimerFires();
    round.HandleCardClick(round.targetIndex);
    round.OnFeedbackDone();
    var done := round.RevealTick(0);
    done := round.RevealTick(0);
    done := round.RevealTick(0);
    done := round.RevealTick(0);
    flipAfterReveal := round.targetFlipState;
    success := round.CompletionFires();
  }

  /**
   * With the timer on, the countdown effect sees `timeLeft == 0` before the
   * cards arrive and covers them at once. If the cards arrive within two
   * seconds (for example from a buffered set), that cover timer is still
   * pending when the memorize phase starts, and when it fires guessing starts
   * with memorize time left. This is one event order; with a slower load the
   * timer fires during loading and the load resets the phase to memorize.
   */
  method StaleCoverTimerCutsMemorize(settings: GameSettings, cards: seq<Card>) returns (phase: Phase, timeLeft: nat)
    requires settings.useTimer
    ensures phase == Guess && timeLeft == 2 * CardCount(settings.difficulty) && timeLeft > 0
  {
    var round := new MultiRound(settings);
    round.TimerEffect();
    round.CardsLoaded(Ok(cards));
    round.TimerEffect();
    round.CoverTimerFires();
    phase := round.phase;
    timeLeft := round.timeLeft;
  }
}
