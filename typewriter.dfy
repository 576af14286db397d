/**
 * The typewriter effect shared by src/components/ui/TypewriterText.tsx and
 * src/components/ui/TypewriterTagline.tsx. Three pieces of React state
 * (the text on screen, whether it is being deleted, which phrase is current)
 * change one timer tick at a time: type the next character of the current
 * phrase, pause once it is complete, delete it one character at a time, then
 * move on to the next phrase, cyclically.
 */
module Typewriter {
  import opened Wrappers

  const DefaultPhrases: seq<string> := [
    "driven by your atmosphere.",
    "tuned to local weather.",
    "curated for right now.",
    "vibe check: active."
  ]
  const DefaultTypingSpeed: nat := 100
  const DefaultDeletingSpeed: nat := 50
  const DefaultPauseDuration: nat := 3000

  /** The component's three `useState` values. */
  datatype TypingState = TypingState(displayText: string, isDeleting: bool, currentPhraseIndex: nat)

  /** The state both components mount with. */
  const Initial: TypingState := TypingState("", false, 0)

  /** `s.slice(0, end)` for `end >= 0`: the slice stops at the end of the string. */
  function Slice(s: string, end: nat): (r: string)
    ensures r <= s
    ensures |r| == if end < |s| then end else |s|
  {
    if end < |s| then s[..end] else s
  }

  /** The phrase the state points at. */
  function CurrentPhrase(phrases: seq<string>, s: TypingState): string
    requires s.currentPhraseIndex < |phrases|
  {
    phrases[s.currentPhraseIndex]
  }

  /**
   * The states the effect reaches from `Initial`: a valid phrase index and,
   * on screen, a prefix of the current phrase.
   */
  predicate Consistent(phrases: seq<string>, s: TypingState) {
    s.currentPhraseIndex < |phrases| && s.displayText <= phrases[s.currentPhraseIndex]
  }

  /** In this state `handleTyping` schedules `setIsDeleting(true)` instead of changing the state. */
  predicate PauseScheduled(phrases: seq<string>, s: TypingState)
    requires s.currentPhraseIndex < |phrases|
  {
    !s.isDeleting && |s.displayText| >= |CurrentPhrase(phrases, s)|
  }

  /** What one run of `handleTyping` does to the state. */
  function Next(phrases: seq<string>, s: TypingState): (t: TypingState)
    requires s.currentPhraseIndex < |phrases|
    ensures t.currentPhraseIndex < |phrases|
  {
    var phrase := CurrentPhrase(phrases, s);
    if !s.isDeleting then
      if |s.displayText| < |phrase| then s.(displayText := Slice(phrase, |s.displayText| + 1))
      else s
    else if |s.displayText| > 0 then s.(displayText := Slice(phrase, |s.displayText| - 1))
    else TypingState(s.displayText, false, (s.currentPhraseIndex + 1) % |phrases|)
  }

  /** What the pause timer does when it fires: `setIsDeleting(true)`. */
  function EndPause(s: TypingState): TypingState {
    s.(isDeleting := true)
  }

  /** The timer delay before the next `handleTyping`. */
  function Delay(s: TypingState, typingSpeed: nat, deletingSpeed: nat): nat {
    if s.isDeleting then deletingSpeed else typingSpeed
  }

  // ---------------------------------------------------------------------------
  // One step at a time
  // ---------------------------------------------------------------------------

  /** Both timers keep the text a prefix of the current phrase. */
  lemma NextKeepsConsistent(phrases: seq<string>, s: TypingState)
    requires Consistent(phrases, s)
    ensures Consistent(phrases, Next(phrases, s))
    ensures Consistent(phrases, EndPause(s))
  {
  }

  /** While typing, a tick adds exactly the phrase's next character. */
  lemma TypingAddsNextCharacter(phrases: seq<string>, s: TypingState)
    requires Consistent(phrases, s) && !s.isDeleting
    requires |s.displayText| < |CurrentPhrase(phrases, s)|
    ensures Next(phrases, s) == s.(displayText := s.displayText + [CurrentPhrase(phrases, s)[|s.displayText|]])
  {
    var phrase := CurrentPhrase(phrases, s);
    var n := |s.displayText|;
    assert phrase[..n + 1] == phrase[..n] + [phrase[n]];
  }

  /** While deleting, a tick removes exactly the last character. */
  lemma DeletingRemovesLastCharacter(phrases: seq<string>, s: TypingState)
    requires Consistent(phrases, s) && s.isDeleting && |s.displayText| > 0
    ensures Next(phrases, s) == s.(displayText := s.displayText[..|s.displayText| - 1])
  {
    var phrase := CurrentPhrase(phrases, s);
    var n := |s.displayText|;
    assert phrase[..n - 1] == phrase[..n][..n - 1];
  }

  /** Once the phrase is complete a tick changes nothing and the pause is scheduled. */
  lemma CompletePhrasePauses(phrases: seq<string>, s: TypingState)
    requires Consistent(phrases, s) && !s.isDeleting
    requires s.displayText == CurrentPhrase(phrases, s)
    ensures PauseScheduled(phrases, s) && Next(phrases, s) == s
  {
  }

  /** The pause is scheduled exactly when the whole phrase is on screen and not being deleted. */
  lemma PauseExactlyWhenComplete(phrases: seq<string>, s: TypingState)
    requires Consistent(phrases, s)
    ensures PauseScheduled(phrases, s) <==> !s.isDeleting && s.displayText == CurrentPhrase(phrases, s)
  {
  }

  /** After the last character is deleted the next phrase, cyclically, starts typing. */
  lemma EmptyTextAdvances(phrases: seq<string>, s: TypingState)
    requires Consistent(phrases, s) && s.isDeleting && s.displayText == ""
    ensures Next(phrases, s) == TypingState("", false, (s.currentPhraseIndex + 1) % |phrases|)
    ensures s.currentPhraseIndex == |phrases| - 1 ==> Next(phrases, s).currentPhraseIndex == 0
  {
  }

  // ---------------------------------------------------------------------------
  // A whole cycle
  // ---------------------------------------------------------------------------

  /** `Next` applied `n` times. */
  function Run(phrases: seq<string>, s: TypingState, n: nat): (t: TypingState)
    requires s.currentPhraseIndex < |phrases|
    ensures t.currentPhraseIndex < |phrases|
    decreases n
  {
    if n == 0 then s else Run(phrases, Next(phrases, s), n - 1)
  }

  /** From any prefix, typing reaches the whole phrase in as many ticks as characters are missing. */
  lemma {:induction false} TypingCompletes(phrases: seq<string>, i: nat, k: nat)
    requires i < |phrases| && k <= |phrases[i]|
    ensures Run(phrases, TypingState(phrases[i][..k], false, i), |phrases[i]| - k) == TypingState(phrases[i], false, i)
    decreases |phrases[i]| - k
  {
    var phrase := phrases[i];
    if k == |phrase| {
      assert phrase[..k] == phrase;
    } else {
      var s := TypingState(phrase[..k], false, i);
      assert Next(phrases, s) == TypingState(phrase[..k + 1], false, i);
      TypingCompletes(phrases, i, k + 1);
    }
  }

  /** From any prefix, deleting empties the screen in as many ticks as characters are shown. */
  lemma {:induction false} DeletingCompletes(phrases: seq<string>, i: nat, k: nat)
    requires i < |phrases| && k <= |phrases[i]|
    ensures Run(phrases, TypingState(phrases[i][..k], true, i), k) == TypingState("", true, i)
    decreases k
  {
    var phrase := phrases[i];
    if k > 0 {
      var s := TypingState(phrase[..k], true, i);
      assert Next(phrases, s) == TypingState(phrase[..k - 1], true, i);
      DeletingCompletes(phrases, i, k - 1);
    }
  }

  lemma {:induction false} RunSplit(phrases: seq<string>, s: TypingState, m: nat, n: nat)
    requires s.currentPhraseIndex < |phrases|
    ensures Run(phrases, s, m + n) == Run(phrases, Run(phrases, s, m), n)
    decreases m
  {
    if m > 0 {
      RunSplit(phrases, Next(phrases, s), m - 1, n);
    }
  }

  /**
   * One full cycle of phrase `i`: |phrase| typing ticks, the pause, then
   * |phrase| deleting ticks and one more tick lead to the empty screen of
   * phrase `(i + 1) % |phrases|`.
   */
  lemma Cycle(phrases: seq<string>, i: nat)
    requires i < |phrases|
    ensures var typed := Run(phrases, TypingState("", false, i), |phrases[i]|);
      typed == TypingState(phrases[i], false, i)
      && PauseScheduled(phrases, typed)
      && Run(phrases, EndPause(typed), |phrases[i]| + 1) == TypingState("", false, (i + 1) % |phrases|)
  {
    var phrase := phrases[i];
    assert phrase[..0] == "";
    TypingCompletes(phrases, i, 0);
    assert phrase[..|phrase|] == phrase;
    DeletingCompletes(phrases, i, |phrase|);
    RunSplit(phrases, TypingState(phrase, true, i), |phrase|, 1);
  }

  // ---------------------------------------------------------------------------
  // Timing
  // ---------------------------------------------------------------------------

  /** The time the `n` timers that run `handleTyping` from `s` take, back to back. */
  function Elapsed(phrases: seq<string>, s: TypingState, n: nat, typingSpeed: nat, deletingSpeed: nat): nat
    requires s.currentPhraseIndex < |phrases|
    decreases n
  {
    if n == 0 then 0
    else Delay(s, typingSpeed, deletingSpeed) + Elapsed(phrases, Next(phrases, s), n - 1, typingSpeed, deletingSpeed)
  }

  /** Typing the rest of a phrase, and the tick that finds it complete, all wait `typingSpeed`. */
  lemma {:induction false} TypingTime(phrases: seq<string>, i: nat, k: nat, typingSpeed: nat, deletingSpeed: nat)
    requires i < |phrases| && k <= |phrases[i]|
    ensures Elapsed(phrases, TypingState(phrases[i][..k], false, i), |phrases[i]| - k + 1, typingSpeed, deletingSpeed)
         == (|phrases[i]| - k + 1) * typingSpeed
    decreases |phrases[i]| - k
  {
    var phrase := phrases[i];
    var s := TypingState(phrase[..k], false, i);
    if k == |phrase| {
      assert phrase[..k] == phrase;
      assert Next(phrases, s) == s;
    } else {
      assert Next(phrases, s) == TypingState(phrase[..k + 1], false, i);
      TypingTime(phrases, i, k + 1, typingSpeed, deletingSpeed);
    }
  }

  /** Deleting a prefix, and the tick that moves on, all wait `deletingSpeed`. */
  lemma {:induction false} DeletingTime(phrases: seq<string>, i: nat, k: nat, typingSpeed: nat, deletingSpeed: nat)
    requires i < |phrases| && k <= |phrases[i]|
    ensures Elapsed(phrases, TypingState(phrases[i][..k], true, i), k + 1, typingSpeed, deletingSpeed)
         == (k + 1) * deletingSpeed
    decreases k
  {
    var phrase := phrases[i];
    var s := TypingState(phrase[..k], true, i);
    if k == 0 {
      assert Next(phrases, s) == TypingState("", false, (i + 1) % |phrases|);
    } else {
      assert Next(phrases, s) == TypingState(phrase[..k - 1], true, i);
      DeletingTime(phrases, i, k - 1, typingSpeed, deletingSpeed);
    }
  }

  /**
   * A phrase of length n is on screen for one cycle of (n + 1) typing delays,
   * the pause and (n + 1) deleting delays: the state machine of `Cycle` with
   * the delay the effect picks for each state.
   */
  lemma CycleTime(phrases: seq<string>, i: nat, typingSpeed: nat, deletingSpeed: nat, pauseDuration: nat)
    requires i < |phrases|
    ensures var n := |phrases[i]|;
      Elapsed(phrases, TypingState("", false, i), n + 1, typingSpeed, deletingSpeed)
      + pauseDuration
      + Elapsed(phrases, EndPause(TypingState(phrases[i], false, i)), n + 1, typingSpeed, deletingSpeed)
      == (n + 1) * (typingSpeed + deletingSpeed) + pauseDuration
  {
    var phrase := phrases[i];
    assert phrase[..0] == "";
    TypingTime(phrases, i, 0, typingSpeed, deletingSpeed);
    assert phrase[..|phrase|] == phrase;
    DeletingTime(phrases, i, |phrase|, typingSpeed, deletingSpeed);
  }

  // ---------------------------------------------------------------------------
  // The component
  // ---------------------------------------------------------------------------

  /** One mounted `TypewriterText` or `TypewriterTagline`: its props and its state. */
  class TypewriterComponent {
    const phrases: seq<string>
    const typingSpeed: nat
    const deletingSpeed: nat
    const pauseDuration: nat
    var displayText: string
    var isDeleting: bool
    var currentPhraseIndex: nat

    function State(): TypingState
      reads this
    {
      TypingState(displayText, isDeleting, currentPhraseIndex)
    }

    predicate Valid()
      reads this
    {
      Consistent(phrases, State())
    }

    /** The delay of the timer the effect sets for the current state. */
    function TimerDelay(): nat
      reads this
    {
      Delay(State(), typingSpeed, deletingSpeed)
    }

    /** `TypewriterText`: every prop optional; missing ones take their defaults. */
    constructor Text(phrases: Option<seq<string>>, typingSpeed: Option<nat>, deletingSpeed: Option<nat>, pauseDuration: Option<nat>)
      requires phrases.GetOr(DefaultPhrases) != []
      ensures this.phrases == phrases.GetOr(DefaultPhrases)
      ensures this.typingSpeed == typingSpeed.GetOr(DefaultTypingSpeed)
      ensures this.deletingSpeed == deletingSpeed.GetOr(DefaultDeletingSpeed)
      ensures this.pauseDuration == pauseDuration.GetOr(DefaultPauseDuration)
      ensures State() == Initial && Valid()
      ensures TimerDelay() == this.typingSpeed
    {
      this.phrases := phrases.GetOr(DefaultPhrases);
      this.typingSpeed := typingSpeed.GetOr(DefaultTypingSpeed);
      this.deletingSpeed := deletingSpeed.GetOr(DefaultDeletingSpeed);
      this.pauseDuration := pauseDuration.GetOr(DefaultPauseDuration);
      displayText := "";
      isDeleting := false;
      currentPhraseIndex := 0;
    }

    /** `TypewriterTagline`: the phrases are required, the timings optional. */
    constructor Tagline(phrases: seq<string>, typingSpeed: Option<nat>, deletingSpeed: Option<nat>, pauseDuration: Option<nat>)
      requires phrases != []
      ensures this.phrases == phrases
      ensures this.typingSpeed == typingSpeed.GetOr(DefaultTypingSpeed)
      ensures this.deletingSpeed == deletingSpeed.GetOr(DefaultDeletingSpeed)
      ensures this.pauseDuration == pauseDuration.GetOr(DefaultPauseDuration)
      ensures State() == Initial && Valid()
      ensures TimerDelay() == this.typingSpeed
    {
      this.phrases := phrases;
      this.typingSpeed := typingSpeed.GetOr(DefaultTypingSpeed);
      this.deletingSpeed := deletingSpeed.GetOr(DefaultDeletingSpeed);
      this.pauseDuration := pauseDuration.GetOr(DefaultPauseDuration);
      displayText := "";
      isDeleting := false;
      currentPhraseIndex := 0;
    }

    /**
     * The timer fires and `handleTyping` runs. The result says whether it set
     * the `pauseDuration` timer for `setIsDeleting(true)`.
     */
    method HandleTyping() returns (pauseScheduled: bool)
      requires Valid()
      modifies this
      ensures Valid()
      ensures State() == Next(phrases, old(State()))
      ensures pauseScheduled == PauseScheduled(phrases, old(State()))
    {
      NextKeepsConsistent(phrases, State());
      var currentPhrase := phrases[currentPhraseIndex];
      pauseScheduled := false;
      if !isDeleting {
        if |displayText| < |currentPhrase| {
          displayText := Slice(currentPhrase, |displayText| + 1);
        } else {
          pauseScheduled := true;
        }
      } else {
        if |displayText| > 0 {
          displayText := Slice(currentPhrase, |displayText| - 1);
        } else {
          isDeleting := false;
          currentPhraseIndex := (currentPhraseIndex + 1) % |phrases|;
        }
      }
    }

    /** The pause timer fires: `setIsDeleting(true)`. */
    method FinishPause()
      requires Valid()
      modifies this
      ensures Valid()
      ensures State() == EndPause(old(State()))
    {
      isDeleting := true;
    }
  }
}
