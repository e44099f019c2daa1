/**
 * The meditation player: a step sequencer over the fixed, step-ordered
 * instruction list of one session, driven by user controls and by a single
 * one-shot timer per step.  The timer is modelled as the duration it was
 * armed with (`Some(seconds)`) or no pending timer (`None`); its firing is
 * the explicit method `Tick`.
 */
module MeditationPlayer {
  import opened Wrappers
  import opened Models
  import MeditationService

  // ---------------------------------------------------------------------
  // Per-step values
  // ---------------------------------------------------------------------

  /** A step's duration with an absent duration counted as 0. */
  function DurationOrZero(i: Instruction): int {
    i.durationSeconds.GetOr(0)
  }

  /**
   * The timer a step arms when it starts: one for its duration if that is
   * present and positive; none for an absent or zero duration.
   */
  function StepTimer(i: Instruction): (t: Option<nat>)
    ensures t.Some? <==> i.durationSeconds.Some? && i.durationSeconds.value > 0
    ensures t.Some? ==> t.value == i.durationSeconds.value
  {
    if i.durationSeconds.Some? && i.durationSeconds.value > 0 then Some(i.durationSeconds.value) else None
  }

  // ---------------------------------------------------------------------
  // Elapsed time
  // ---------------------------------------------------------------------

  /** Sum of the durations of `steps`, absent ones counted as 0. */
  function TotalSeconds(steps: seq<Instruction>): int {
    if steps == [] then 0 else DurationOrZero(steps[0]) + TotalSeconds(steps[1..])
  }

  lemma {:induction false} TotalSecondsAppend(a: seq<Instruction>, b: seq<Instruction>)
    ensures TotalSeconds(a + b) == TotalSeconds(a) + TotalSeconds(b)
  {
    if a != [] {
      assert (a + b)[0] == a[0] && (a + b)[1..] == a[1..] + b;
      TotalSecondsAppend(a[1..], b);
    } else {
      assert a + b == b;
    }
  }

  /** The elapsed time shown at step `k`: the durations of the steps before it. */
  function ElapsedSeconds(steps: seq<Instruction>, k: int): int
    requires 0 <= k <= |steps|
  {
    TotalSeconds(steps[..k])
  }

  /** Moving one step on adds exactly the duration of the step left behind. */
  lemma ElapsedAdvance(steps: seq<Instruction>, k: int)
    requires 0 <= k < |steps|
    ensures ElapsedSeconds(steps, 0) == 0
    ensures ElapsedSeconds(steps, k + 1) == ElapsedSeconds(steps, k) + DurationOrZero(steps[k])
  {
    assert steps[..k + 1] == steps[..k] + [steps[k]];
    TotalSecondsAppend(steps[..k], [steps[k]]);
  }

  /** With non-negative durations the elapsed time is non-negative and grows with the step. */
  lemma {:induction false} ElapsedMonotone(steps: seq<Instruction>, j: int, k: int)
    requires forall i :: 0 <= i < |steps| ==> ValidDurationSeconds(steps[i].durationSeconds)
    requires 0 <= j <= k <= |steps|
    ensures 0 <= ElapsedSeconds(steps, j) <= ElapsedSeconds(steps, k)
    decreases k
  {
    if k > 0 {
      ElapsedMonotone(steps, if j < k then j else k - 1, k - 1);
      ElapsedAdvance(steps, k - 1);
    }
  }

  /**
   * An instruction added without a duration (the schema default) arms no
   * timer, adds nothing to the elapsed time and is not a pause: only the
   * Next button leaves it.
   */
  lemma DefaultInstructionIsManual(id: int, sid: int, stepOrder: int, text: string)
    ensures var d := NewInstructionCreate(sid, stepOrder, text);
      var i := Instruction(id, d.sessionId, d.stepOrder, d.instructionText, d.durationSeconds, d.isPause);
      StepTimer(i).None? && DurationOrZero(i) == 0 && !i.isPause
  {
  }

  /**
   * Steps without a positive duration never arm a timer, and the time shown
   * stays at zero at every step.
   */
  lemma {:induction false} UntimedStepsShowNoTime(steps: seq<Instruction>, k: int)
    requires forall i :: 0 <= i < |steps| ==> StepTimer(steps[i]).None? && ValidDurationSeconds(steps[i].durationSeconds)
    requires 0 <= k <= |steps|
    ensures ElapsedSeconds(steps, k) == 0
    decreases k
  {
    if k > 0 {
      UntimedStepsShowNoTime(steps, k - 1);
      ElapsedAdvance(steps, k - 1);
    }
  }

  // ---------------------------------------------------------------------
  // Labels
  // ---------------------------------------------------------------------

  predicate IsDigit(c: char) {
    '0' <= c <= '9'
  }

  predicate AllDigits(s: string) {
    forall i :: 0 <= i < |s| ==> IsDigit(s[i])
  }

  function DigitChar(d: int): char
    requires 0 <= d < 10
  {
    (d + '0' as int) as char
  }

  /** The value of a string of decimal digits, most significant first. */
  function DecimalValue(s: string): int {
    if s == [] then 0 else 10 * DecimalValue(s[..|s| - 1]) + (s[|s| - 1] as int - '0' as int)
  }

  /** `str(n)`: the decimal digits of `n`, without leading zeros. */
  function Decimal(n: nat): (r: string)
    ensures |r| >= 1 && AllDigits(r)
    ensures n >= 1 ==> r[0] != '0'
    ensures n < 10 <==> |r| == 1
    ensures n < 100 ==> |r| <= 2
  {
    if n < 10 then [DigitChar(n)] else Decimal(n / 10) + [DigitChar(n % 10)]
  }

  /** Reading back the decimal digits of `n` gives `n`. */
  lemma {:induction false} DecimalRoundTrip(n: nat)
    ensures DecimalValue(Decimal(n)) == n
  {
    if n >= 10 {
      DecimalRoundTrip(n / 10);
      var r := Decimal(n);
      assert r[..|r| - 1] == Decimal(n / 10);
    }
  }

  /** A leading zero does not change the value. */
  lemma {:induction false} LeadingZero(s: string)
    ensures DecimalValue("0" + s) == DecimalValue(s)
  {
    if s != [] {
      var z := "0" + s;
      assert z[..|z| - 1] == "0" + s[..|s| - 1];
      LeadingZero(s[..|s| - 1]);
    }
  }

  /** `f"{n:02d}"`: at least two digits, padded with a leading zero. */
  function TwoDigits(n: nat): (r: string)
    ensures AllDigits(r) && |r| >= 2
    ensures n < 100 ==> |r| == 2
    ensures n >= 10 ==> r[0] != '0'
    ensures DecimalValue(r) == n
  {
    DecimalRoundTrip(n);
    if n < 10 then (LeadingZero(Decimal(n)); "0" + Decimal(n)) else Decimal(n)
  }

  /** The `MM:SS` text for `total` seconds. */
  function TimeLabel(total: nat): string {
    TwoDigits(total / 60) + ":" + TwoDigits(total % 60)
  }

  /** Reads a `MM:SS` text back as seconds. */
  function ParseTimeLabel(r: string): int
    requires |r| >= 3
  {
    60 * DecimalValue(r[..|r| - 3]) + DecimalValue(r[|r| - 2..])
  }

  /**
   * The time text is minutes, a colon and exactly two digits of seconds
   * below 60, and it reads back as the total it was made from.
   */
  lemma TimeLabelRoundTrip(total: nat)
    ensures var r := TimeLabel(total);
      && |r| >= 5 && r[|r| - 3] == ':'
      && AllDigits(r[..|r| - 3]) && AllDigits(r[|r| - 2..])
      && DecimalValue(r[|r| - 2..]) < 60
      && ParseTimeLabel(r) == total
  {
    var m, s := TwoDigits(total / 60), TwoDigits(total % 60);
    var r := TimeLabel(total);
    assert r[..|r| - 3] == m;
    assert r[|r| - 2..] == s;
  }

  /** `f"Step {current_step + 1} of {total_steps}"`. */
  function StepLabel(k: nat, n: nat): string {
    "Step " + Decimal(k + 1) + " of " + Decimal(n)
  }

  /**
   * The step text names the one-based position and the step count, as the
   * two digit runs around " of ".
   */
  lemma StepLabelRoundTrip(k: nat, n: nat)
    ensures var r := StepLabel(k, n);
      exists i :: 5 < i && i + 4 < |r| && r[..5] == "Step " && r[i..i + 4] == " of "
        && AllDigits(r[5..i]) && AllDigits(r[i + 4..])
        && DecimalValue(r[5..i]) == k + 1 && DecimalValue(r[i + 4..]) == n
  {
    var a, b := Decimal(k + 1), Decimal(n);
    var r := StepLabel(k, n);
    var i := 5 + |a|;
    DecimalRoundTrip(k + 1);
    DecimalRoundTrip(n);
    assert r[5..i] == a;
    assert r[i..i + 4] == " of ";
    assert r[i + 4..] == b;
  }

  /**
   * The progress bar value `current_step / max(total_steps - 1, 1)` as a
   * numerator and denominator.
   */
  function Progress(k: nat, n: nat): (r: (nat, nat))
    ensures r.0 == k && r.1 >= 1
    ensures k < n ==> r.0 <= r.1
    ensures n >= 2 ==> r.1 == n - 1
    ensures n < 2 ==> r.1 == 1
  {
    (k, if n - 1 > 1 then n - 1 else 1)
  }

  /** What the display shows; `instruction` is `None` where the old text stays up. */
  datatype Display = Display(step: string, time: string, progress: (nat, nat), instruction: Option<string>)

  // ---------------------------------------------------------------------
  // The player
  // ---------------------------------------------------------------------

  class Player {
    const session: Option<MeditationService.LoadedSession>
    var currentStep: int
    var isPlaying: bool
    var isPaused: bool
    var timer: Option<nat>
    /** Timers replaced while still pending: each would have fired unseen. */
    ghost var orphanedTimers: nat

    /** The loaded instructions; none when the session was not found. */
    function Steps(): seq<Instruction> {
      if session.Some? then session.value.instructions else []
    }

    /**
     * The step stays within the list (one past the end after completion);
     * without instructions nothing plays; a pending timer is the current
     * step's own.
     */
    ghost predicate Consistent()
      reads this
    {
      && 0 <= currentStep <= |Steps()|
      && (|Steps()| == 0 ==> !isPlaying)
      && (timer.Some? ==> currentStep < |Steps()| && timer == StepTimer(Steps()[currentStep]))
      && (forall i :: 0 <= i < |Steps()| ==> ValidDurationSeconds(Steps()[i].durationSeconds))
    }

    /** Besides: a timer is pending only while playing, and no timer was ever orphaned. */
    ghost predicate Valid()
      reads this
    {
      Consistent() && (!isPlaying ==> timer.None?) && orphanedTimers == 0
    }

    /** Loads the session by id; the player starts at the first step, idle. */
    constructor (store: MeditationService.SessionStore, sessionId: int)
      requires store.Valid()
      ensures session == MeditationService.GetSessionById(store.sessions, store.instructions, Some(sessionId))
      ensures currentStep == 0 && !isPlaying && !isPaused && timer == None
      ensures Valid()
    {
      session := MeditationService.GetSessionById(store.sessions, store.instructions, Some(sessionId));
      currentStep := 0;
      isPlaying, isPaused := false, false;
      timer := None;
      orphanedTimers := 0;
      new;
      MeditationService.LoadedInstructionsValid(store.sessions, store.instructions, Some(sessionId));
    }

    /** The values `_update_display` shows; nothing when there are no instructions. */
    function CurrentDisplay(): (d: Option<Display>)
      reads this
      requires Consistent()
      ensures d.None? <==> |Steps()| == 0
      ensures d.Some? ==>
        (ElapsedSeconds(Steps(), currentStep) >= 0 && d.value.time == TimeLabel(ElapsedSeconds(Steps(), currentStep)))
      ensures d.Some? ==> |d.value.time| >= 5 && ParseTimeLabel(d.value.time) == ElapsedSeconds(Steps(), currentStep)
      ensures d.Some? ==> d.value.step == StepLabel(currentStep, |Steps()|)
      ensures d.Some? ==> d.value.progress == Progress(currentStep, |Steps()|)
      ensures d.Some? ==> (d.value.instruction.Some? <==> currentStep < |Steps()|)
      ensures d.Some? && d.value.instruction.Some? ==>
        d.value.instruction.value == Steps()[currentStep].instructionText
    {
      if |Steps()| == 0 then None
      else
        ElapsedMonotone(Steps(), currentStep, currentStep);
        var elapsed := ElapsedSeconds(Steps(), currentStep);
        TimeLabelRoundTrip(elapsed);
        Some(Display(
          StepLabel(currentStep, |Steps()|),
          TimeLabel(elapsed),
          Progress(currentStep, |Steps()|),
          if currentStep < |Steps()| then Some(Steps()[currentStep].instructionText) else None))
    }

    /** `_toggle_play`: start or resume when not playing, pause when playing. */
    method TogglePlay()
      requires Valid()
      modifies this
      ensures Valid()
      ensures |Steps()| == 0 ==>
        currentStep == old(currentStep) && isPlaying == old(isPlaying) && isPaused == old(isPaused) && timer == old(timer)
      ensures |Steps()| > 0 && !old(isPlaying) ==>
        && isPlaying && !isPaused && currentStep == old(currentStep)
        && timer == (if currentStep < |Steps()| then StepTimer(Steps()[currentStep]) else None)
      ensures |Steps()| > 0 && old(isPlaying) ==>
        !isPlaying && isPaused && timer == None && currentStep == old(currentStep)
    {
      if |Steps()| == 0 {
        return;
      }
      if !isPlaying {
        StartMeditation();
      } else {
        PauseMeditation();
      }
    }

    /**
     * `_start_meditation`: mark playing and start the current step if there
     * is one.  A timer still pending when this runs is replaced and counted
     * as orphaned; `TogglePlay` only calls it when none is.
     */
    method StartMeditation()
      requires Consistent()
      modifies this
      ensures Consistent()
      ensures |Steps()| == 0 ==>
        && currentStep == old(currentStep) && isPlaying == old(isPlaying) && isPaused == old(isPaused)
        && timer == old(timer) && orphanedTimers == old(orphanedTimers)
      ensures |Steps()| > 0 ==>
        && isPlaying && !isPaused && currentStep == old(currentStep)
        && timer == (if currentStep < |Steps()| then StepTimer(Steps()[currentStep]) else None)
        && orphanedTimers == old(orphanedTimers) + (if old(timer).Some? then 1 else 0)
    {
      if |Steps()| == 0 {
        return;
      }
      isPlaying := true;
      isPaused := false;
      if currentStep < |Steps()| {
        StartCurrentStep();
      }
    }

    /** `_pause_meditation`: stop playing, mark paused, cancel the pending timer. */
    method PauseMeditation()
      requires Consistent()
      modifies this
      ensures Consistent()
      ensures !isPlaying && isPaused && timer == None
      ensures currentStep == old(currentStep) && orphanedTimers == old(orphanedTimers)
    {
      isPlaying := false;
      isPaused := true;
      timer := None;
    }

    /** `_restart`: cancel the timer and go back to the first step, idle. */
    method Restart()
      requires Valid()
      modifies this
      ensures Valid()
      ensures currentStep == 0 && !isPlaying && !isPaused && timer == None
    {
      timer := None;
      currentStep := 0;
      isPlaying := false;
      isPaused := false;
    }

    /**
     * `_previous_step`: unless at the first step, cancel the timer, move back
     * one step and, if playing, start that step.
     */
    method PreviousStep()
      requires Valid()
      modifies this
      ensures Valid()
      ensures isPlaying == old(isPlaying) && isPaused == old(isPaused)
      ensures old(currentStep) > 0 ==>
        && currentStep == old(currentStep) - 1
        && timer == (if isPlaying then StepTimer(Steps()[currentStep]) else None)
      ensures old(currentStep) == 0 ==> currentStep == 0 && timer == old(timer)
    {
      if currentStep > 0 {
        timer := None;
        currentStep := currentStep - 1;
        if isPlaying {
          StartCurrentStep();
        }
      }
    }

    /**
     * `_next_step`: unless at the last step (or with no instructions), cancel
     * the timer, move on one step and, if playing, start that step.  It never
     * moves past the last step, so it never completes the session.
     */
    method NextStep()
      requires Valid()
      modifies this
      ensures Valid()
      ensures isPlaying == old(isPlaying) && isPaused == old(isPaused)
      ensures old(currentStep) < |Steps()| - 1 ==>
        && currentStep == old(currentStep) + 1
        && timer == (if isPlaying then StepTimer(Steps()[currentStep]) else None)
      ensures old(currentStep) >= |Steps()| - 1 ==> currentStep == old(currentStep) && timer == old(timer)
      ensures currentStep == |Steps()| ==> old(currentStep) == |Steps()|
    {
      if |Steps()| == 0 {
        return;
      }
      if currentStep < |Steps()| - 1 {
        timer := None;
        currentStep := currentStep + 1;
        if isPlaying {
          StartCurrentStep();
        }
      }
    }

    /**
     * `_start_current_step`: past the end, complete; otherwise arm a timer
     * for the step's duration if it has a positive one.  Arming over a
     * pending timer orphans it.
     */
    method StartCurrentStep()
      requires Consistent()
      modifies this
      ensures Consistent()
      ensures isPaused == old(isPaused) && currentStep == old(currentStep)
      ensures |Steps()| == 0 ==>
        isPlaying == old(isPlaying) && timer == old(timer) && orphanedTimers == old(orphanedTimers)
      ensures |Steps()| > 0 && currentStep >= |Steps()| ==>
        !isPlaying && timer == None && orphanedTimers == old(orphanedTimers)
      ensures |Steps()| > 0 && currentStep < |Steps()| ==>
        && isPlaying == old(isPlaying)
        && timer == StepTimer(Steps()[currentStep])
        && orphanedTimers == old(orphanedTimers) + (if old(timer).Some? then 1 else 0)
    {
      if |Steps()| == 0 {
        return;
      }
      if currentStep >= |Steps()| {
        MeditationComplete();
        return;
      }
      var instruction := Steps()[currentStep];
      if StepTimer(instruction).Some? {
        if timer.Some? {
          orphanedTimers := orphanedTimers + 1;
        }
        timer := StepTimer(instruction);
      }
    }

    /**
     * `_advance_to_next_step`, run when the pending timer fires (which
     * consumes it): ignored unless playing; otherwise move on one step and
     * complete if that passes the last step, else start the new step.
     */
    method Tick()
      requires Consistent() && timer.Some?
      modifies this
      ensures Consistent()
      ensures old(Valid()) ==> Valid()
      ensures isPaused == old(isPaused)
      ensures !old(isPlaying) ==> !isPlaying && currentStep == old(currentStep) && timer == None
      ensures old(isPlaying) && old(currentStep) + 1 == |Steps()| ==>
        currentStep == |Steps()| && !isPlaying && timer == None
      ensures old(isPlaying) && old(currentStep) + 1 < |Steps()| ==>
        currentStep == old(currentStep) + 1 && isPlaying && timer == StepTimer(Steps()[currentStep])
    {
      timer := None;
      if !isPlaying {
        return;
      }
      currentStep := currentStep + 1;
      if session.None? || currentStep >= |Steps()| {
        MeditationComplete();
      } else {
        StartCurrentStep();
      }
    }

    /** `_meditation_complete`: stop playing and cancel the timer; the step stays. */
    method MeditationComplete()
      requires Consistent()
      modifies this
      ensures Consistent()
      ensures !isPlaying && timer == None
      ensures currentStep == old(currentStep) && isPaused == old(isPaused)
      ensures orphanedTimers == old(orphanedTimers)
    {
      isPlaying := false;
      timer := None;
    }
  }
}
