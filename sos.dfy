/** The emergency page of `src/app/sos/page.tsx`: the 4-7-8 breathing
    countdown, the one-minute focus timer and the exercise selector. Each
    interval callback becomes one explicit tick. */
module Sos {
  import opened Common

  datatype Phase = Inhale | Hold | Exhale

  datatype Exercise = Breathing | Focus | Calm

  /** The breathing state: the phase and the seconds left in it. */
  datatype Breath = Breath(phase: Phase, count: int)

  /** The seconds each phase starts with: 4 in, 7 held, 8 out. */
  function Length(p: Phase): (n: int)
    ensures 4 <= n <= 8
  {
    match p
    case Inhale => 4
    case Hold => 7
    case Exhale => 8
  }

  /** The state the exercise starts in and the selector resets to. */
  const Start: Breath := Breath(Inhale, Length(Inhale))

  /** A state the countdown can be in: between 1 and its phase's length. */
  predicate WellFormed(b: Breath) {
    1 <= b.count <= Length(b.phase)
  }

  /** One tick of the breathing interval: above 1 the count goes down and
      the phase stays; at 1 (or below) the next phase starts at its full
      length. */
  function BreathTick(b: Breath): (r: Breath)
    ensures b.count > 1 ==> r.phase == b.phase && r.count == b.count - 1
    ensures b.count <= 1 ==> r.count == Length(r.phase) && r.phase != b.phase
    ensures b.count <= 1 && b.phase == Inhale ==> r == Breath(Hold, 7)
    ensures b.count <= 1 && b.phase == Hold ==> r == Breath(Exhale, 8)
    ensures b.count <= 1 && b.phase == Exhale ==> r == Breath(Inhale, 4)
    ensures WellFormed(b) ==> WellFormed(r) && 1 <= r.count <= 8
  {
    if b.count <= 1 then
      match b.phase
      case Inhale => Breath(Hold, 7)
      case Hold => Breath(Exhale, 8)
      case Exhale => Breath(Inhale, 4)
    else
      b.(count := b.count - 1)
  }

  /** `n` ticks in a row. */
  function Ticks(b: Breath, n: nat): Breath
    decreases n
  {
    if n == 0 then b else Ticks(BreathTick(b), n - 1)
  }

  /** How many seconds into the 19-second cycle a state lies. */
  function Position(b: Breath): (k: int)
    requires WellFormed(b)
    ensures 0 <= k < 19
  {
    match b.phase
    case Inhale => 4 - b.count
    case Hold => 11 - b.count
    case Exhale => 19 - b.count
  }

  /** A well-formed state is determined by its position in the cycle. */
  lemma {:induction false} PositionInjective(a: Breath, b: Breath)
    requires WellFormed(a) && WellFormed(b) && Position(a) == Position(b)
    ensures a == b
  {
    match a.phase
    case Inhale =>
      assert b.phase == Inhale;
    case Hold =>
      assert b.phase == Hold;
    case Exhale =>
      assert b.phase == Exhale;
  }

  /** A tick moves one second along the cycle, wrapping after 19. */
  lemma {:induction false} TickAdvances(b: Breath)
    requires WellFormed(b)
    ensures Position(BreathTick(b)) == (Position(b) + 1) % 19
  {
  }

  /** After `n` ticks from a well-formed state the countdown is `n` seconds
      further along the cycle, and still well formed. */
  lemma {:induction false} TicksAdvance(b: Breath, n: nat)
    requires WellFormed(b)
    ensures WellFormed(Ticks(b, n))
    ensures Position(Ticks(b, n)) == (Position(b) + n) % 19
    decreases n
  {
    if n > 0 {
      TickAdvances(b);
      TicksAdvance(BreathTick(b), n - 1);
    }
  }

  /** From inhale/4 the count always stays in [1, 8], and the exercise is
      back at inhale/4 exactly after a multiple of 19 ticks. */
  lemma {:induction false} BreathingCycle(n: nat)
    ensures 1 <= Ticks(Start, n).count <= 8
    ensures Ticks(Start, n) == Start <==> n % 19 == 0
  {
    TicksAdvance(Start, n);
    if n % 19 == 0 {
      PositionInjective(Ticks(Start, n), Start);
    }
  }

  /** `((60 - focusTimer) / 60) * 100`: the width of the focus bar. */
  function FocusProgress(timer: int): (p: real)
    requires 0 <= timer <= 60
    ensures 0.0 <= p <= 100.0
    ensures timer == 60 ==> p == 0.0
    ensures timer == 0 ==> p == 100.0
  {
    (60 - timer) as real / 60.0 * 100.0
  }

  /** The focus bar only grows as the timer runs down. */
  lemma {:induction false} FocusProgressMonotone(t1: int, t2: int)
    requires 0 <= t2 <= t1 <= 60
    ensures FocusProgress(t1) <= FocusProgress(t2)
  {
    assert (60 - t1) as real <= (60 - t2) as real;
  }

  /** The selector: choosing the active exercise switches it off, any other
      choice switches to it. */
  function Toggled(active: Option<Exercise>, chosen: Exercise): (r: Option<Exercise>)
    ensures r.None? <==> active == Some(chosen)
    ensures r.Some? ==> r.value == chosen
  {
    if active == Some(chosen) then None else Some(chosen)
  }

  /** The page's exercise state. */
  class SosPage {
    var activeExercise: Option<Exercise>
    var breath: Breath
    var focusTimer: int

    /** The countdown is well formed and the timer within its minute. */
    predicate Valid()
      reads this
    {
      WellFormed(breath) && 0 <= focusTimer <= 60
    }

    constructor ()
      ensures Valid()
      ensures activeExercise.None? && breath == Start && focusTimer == 60
    {
      activeExercise := None;
      breath := Start;
      focusTimer := 60;
    }

    /** The breathing interval's callback; the interval only runs while the
        breathing exercise is active. */
    method BreathingTick()
      requires Valid()
      modifies this
      ensures Valid()
      ensures old(activeExercise) == Some(Breathing) ==> breath == BreathTick(old(breath))
      ensures old(activeExercise) != Some(Breathing) ==> breath == old(breath)
      ensures activeExercise == old(activeExercise) && focusTimer == old(focusTimer)
    {
      if activeExercise == Some(Breathing) {
        breath := BreathTick(breath);
      }
    }

    /** The focus interval's callback; the interval only runs while focus is
        active and time is left, so the timer never goes below 0. */
    method FocusTick()
      requires Valid()
      modifies this
      ensures Valid()
      ensures old(activeExercise) == Some(Focus) && old(focusTimer) > 0 ==> focusTimer == old(focusTimer) - 1
      ensures !(old(activeExercise) == Some(Focus) && old(focusTimer) > 0) ==> focusTimer == old(focusTimer)
      ensures activeExercise == old(activeExercise) && breath == old(breath)
    {
      if activeExercise == Some(Focus) && focusTimer > 0 {
        focusTimer := focusTimer - 1;
      }
    }

    /** The breathing button: toggles the exercise and restarts at inhale/4. */
    method ChooseBreathing()
      requires Valid()
      modifies this
      ensures Valid()
      ensures activeExercise == Toggled(old(activeExercise), Breathing)
      ensures breath == Start && focusTimer == old(focusTimer)
    {
      activeExercise := Toggled(activeExercise, Breathing);
      breath := Start;
    }

    /** The focus button: toggles the exercise and restarts the minute. */
    method ChooseFocus()
      requires Valid()
      modifies this
      ensures Valid()
      ensures activeExercise == Toggled(old(activeExercise), Focus)
      ensures focusTimer == 60 && breath == old(breath)
    {
      activeExercise := Toggled(activeExercise, Focus);
      focusTimer := 60;
    }

    /** The calm-audio button: toggles the exercise and resets nothing. */
    method ChooseCalm()
      requires Valid()
      modifies this
      ensures Valid()
      ensures activeExercise == Toggled(old(activeExercise), Calm)
      ensures breath == old(breath) && focusTimer == old(focusTimer)
    {
      activeExercise := Toggled(activeExercise, Calm);
    }
  }
}
