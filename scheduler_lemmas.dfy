/**
 * The scheduler: which of the timers and the instruction stream advances
 * in one step, how the sound flag follows the sound timer, and how far
 * the catch-up loop runs.
 */
module SchedulerLemmas {
  import opened Bytes
  import opened OpCodes
  import opened Machine

  /** When the timers are due strictly first, both timers count down
      without going below zero, their deadline moves on, and no
      instruction runs. */
  lemma TimersDue(s: State, clock: Clock, rnd: byte)
    requires s.Valid() && s.nextTimersTick < s.nextTick
    ensures StepDebug(s, clock, rnd).Ok?
    ensures var r := StepDebug(s, clock, rnd).value;
      && r.st == (if s.st > 0 then s.st - 1 else 0)
      && r.dt == (if s.dt > 0 then s.dt - 1 else 0)
      && r == s.(st := r.st, dt := r.dt, nextTimersTick := s.nextTimersTick + clock.timers(s.executionSpeed),
                 soundPlaying := r.st > 0)
  {
  }

  /** Otherwise (a tie included) exactly one instruction runs, its faults
      are passed on, and the instruction deadline moves on. */
  lemma InstructionDue(s: State, clock: Clock, rnd: byte)
    requires s.Valid() && s.nextTick <= s.nextTimersTick
    ensures Tick(s, rnd).Err? ==> StepDebug(s, clock, rnd) == Err(Tick(s, rnd).fault)
    ensures Tick(s, rnd).Ok? ==>
      var t := Tick(s, rnd).value;
      StepDebug(s, clock, rnd) ==
        Ok(t.(nextTick := s.nextTick + clock.instr(s.executionSpeed), soundPlaying := t.st > 0))
  {
    if Tick(s, rnd).Ok? {
      var t := Tick(s, rnd).value;
      assert t.nextTick == s.nextTick;
    }
  }

  /** The catch-up loop stops as soon as one deadline reaches `now`, so
      neither deadline ends more than one period past `now` unless it
      already was. */
  lemma {:induction false} CatchUpBounded(s: State, now: nat, clock: Clock,
                                          rand: nat -> byte, k: nat)
    requires s.Valid() && clock.Positive()
    ensures var r := CatchUp(s, now, clock, rand, k);
      r.Ok? ==>
        && r.value.nextTick <= Max(s.nextTick, now + clock.instr(s.executionSpeed))
        && r.value.nextTimersTick <= Max(s.nextTimersTick, now + clock.timers(s.executionSpeed))
    decreases 2 * now - s.nextTick - s.nextTimersTick
  {
    if Behind(s, now) {
      match StepDebug(s, clock, rand(k))
      case Err(_) =>
      case Ok(t) => CatchUpBounded(t, now, clock, rand, k + 1);
    }
  }

  /** After a catch-up that ran at least one step, the sound flag agrees
      with the sound timer. */
  lemma {:induction false} CatchUpSound(s: State, now: nat, clock: Clock,
                                        rand: nat -> byte, k: nat)
    requires s.Valid() && clock.Positive() && Behind(s, now)
    ensures var r := CatchUp(s, now, clock, rand, k);
      r.Ok? ==> r.value.soundPlaying == (r.value.st > 0)
    decreases 2 * now - s.nextTick - s.nextTimersTick
  {
    match StepDebug(s, clock, rand(k))
    case Err(_) =>
    case Ok(t) =>
      if Behind(t, now) {
        CatchUpSound(t, now, clock, rand, k + 1);
      }
  }

  function Max(a: nat, b: nat): nat { if a < b then b else a }
}
