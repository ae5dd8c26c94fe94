/**
 * What the debugger's key handling and frames do: consuming presses,
 * single steps and their undo, rewinding, the play toggle and the speed
 * keys, and that N steps followed by N undos give the machine back.
 */
module SessionLemmas {
  import opened Bytes
  import opened Machine
  import opened Compare
  import opened DebugSession

  /** No debugger command is pending and rewind is not held. */
  predicate Idle(d: Session) {
    && !Pending(d, KeyTerminate) && !Pending(d, KeyGoFaster) && !Pending(d, KeyGoSlower)
    && !Pending(d, KeyGoNormal) && !Pending(d, KeyTogglePlay) && !Pending(d, KeyStepDebug)
    && !Pending(d, KeyUndoStepDebug) && !Held(d, KeyPlayBackward)
  }

  /** Every single step of the engine succeeds. */
  ghost predicate NeverFaults(engine: Engine)
    requires engine.Valid()
  {
    forall s: State :: s.Valid() ==> engine.step(s).Ok?
  }

  /** A paused, enabled debugger with nothing to do. */
  predicate Quiet(d: Session) {
    d.Valid() && d.enabled && !d.playing && Idle(d)
  }

  /** A press is consumed once: a second consume without a new key-down
      reports nothing and changes nothing. */
  lemma ConsumeOnce(d: Session, key: KeyCode)
    ensures var (_, d1) := Consume(d, key);
      var (again, d2) := Consume(d1, key);
      !again && d2 == d1
  {
    var (_, d1) := Consume(d, key);
    assert d1.consumable[key := false] == d1.consumable;
  }

  /** After a key-down the key is held and one consume succeeds; after a
      key-up it is neither held nor pending. */
  lemma KeyEvents(d: Session, key: KeyCode)
    ensures Held(KeyDown(d, key), key) && Consume(KeyDown(d, key), key).0
    ensures !Held(KeyUp(KeyDown(d, key), key), key) && !Consume(KeyUp(KeyDown(d, key), key), key).0
  {
  }

  /** Consuming one key leaves every other pending press as it was. */
  lemma ConsumeOther(d: Session, key: KeyCode, other: KeyCode)
    requires other != key
    ensures Pending(Consume(d, key).1, other) == Pending(d, other)
  {
  }

  /** A key-down event changes only the state of its own key. */
  lemma KeyDownOther(d: Session, key: KeyCode, other: KeyCode)
    requires other != key
    ensures Held(KeyDown(d, key), other) == Held(d, other)
    ensures Pending(KeyDown(d, key), other) == Pending(d, other)
  {
  }

  /** A key-up event changes only the state of its own key. */
  lemma KeyUpOther(d: Session, key: KeyCode, other: KeyCode)
    requires other != key
    ensures Held(KeyUp(d, key), other) == Held(d, other)
    ensures Pending(KeyUp(d, key), other) == Pending(d, other)
  {
  }

  /** With no speed or play press pending, the commands leave the machine
      and the debugger alone but for clearing those presses. */
  lemma NoCommands(d: Session, chip: State, now: nat)
    requires !Pending(d, KeyGoFaster) && !Pending(d, KeyGoSlower)
    requires !Pending(d, KeyGoNormal) && !Pending(d, KeyTogglePlay)
    ensures Commands(d, chip, now) == (d.(consumable := d.consumable[KeyGoFaster := false][KeyGoSlower := false]
                                         [KeyGoNormal := false][KeyTogglePlay := false]), chip)
  {
  }

  /** The end of a paused frame when neither rewind nor undo is asked for. */
  lemma NoRewind(d: Session, chip: State, stepped: Option<(State, State)>)
    requires d.Valid() && chip.Valid() && !Held(d, KeyPlayBackward) && !Pending(d, KeyUndoStepDebug)
    ensures Rewind(d, chip, stepped) == Frame(d.(consumable := d.consumable[KeyUndoStepDebug := false]), Running(chip), stepped)
  {
  }

  /** A paused frame with nothing pending and rewind not held. */
  lemma PausedNothing(d: Session, chip: State, engine: Engine)
    requires d.Valid() && chip.Valid() && engine.Valid() && !Held(d, KeyPlayBackward)
    requires !Pending(d, KeyStepDebug) && !Pending(d, KeyUndoStepDebug)
    ensures Paused(d, chip, engine) ==
      Frame(d.(consumable := d.consumable[KeyStepDebug := false][KeyUndoStepDebug := false]), Running(chip), None)
  {
    var (_, d1) := Consume(d, KeyStepDebug);
    NoRewind(d1, chip, None);
  }

  /** A paused frame with only a step press pending. */
  lemma PausedStepOnly(d: Session, chip: State, engine: Engine)
    requires d.Valid() && chip.Valid() && engine.Valid() && !Held(d, KeyPlayBackward)
    requires Pending(d, KeyStepDebug) && !Pending(d, KeyUndoStepDebug)
    ensures var f := Paused(d, chip, engine);
      && f.session.states == d.states + [chip]
      && match engine.step(chip)
         case Err(fault) => f.outcome == Crashed(fault)
         case Ok(c) =>
           f == Frame(d.(consumable := d.consumable[KeyStepDebug := false][KeyUndoStepDebug := false],
                         states := d.states + [chip]),
                      Running(c), Some((chip, c)))
  {
    var (_, d1) := Consume(d, KeyStepDebug);
    var d2 := d1.(states := d1.states + [chip]);
    match engine.step(chip)
    case Err(_) =>
    case Ok(c) =>
      NoRewind(d2, c, Some((chip, c)));
  }

  /** A paused frame that only pops: an undo press pending, or rewind held,
      but not both. */
  lemma PausedPopOnly(d: Session, chip: State, engine: Engine)
    requires d.Valid() && chip.Valid() && engine.Valid() && !Pending(d, KeyStepDebug)
    requires Held(d, KeyPlayBackward) != Pending(d, KeyUndoStepDebug)
    ensures var (p, c) := Pop(d, chip);
      Paused(d, chip, engine) ==
        Frame(p.(consumable := d.consumable[KeyStepDebug := false][KeyUndoStepDebug := false]), Running(c), None)
  {
  }

  /** The debugger state a paused frame hands to `Paused`: the terminate
      press and the command presses consumed. */
  function PausedEntry(d: Session): Session {
    d.(consumable := d.consumable[KeyTerminate := false][KeyGoFaster := false][KeyGoSlower := false]
                     [KeyGoNormal := false][KeyTogglePlay := false])
  }

  /** An enabled, paused frame with no terminate, speed or play press is
      a paused step/rewind/undo frame on the unchanged machine. */
  lemma PausedUpdate(d: Session, chip: State, now: nat, engine: Engine)
    requires d.Valid() && chip.Valid() && engine.Valid() && d.enabled && !d.playing
    requires !Pending(d, KeyTerminate) && !Pending(d, KeyGoFaster) && !Pending(d, KeyGoSlower)
    requires !Pending(d, KeyGoNormal) && !Pending(d, KeyTogglePlay)
    ensures Update(d, chip, now, engine) == Paused(PausedEntry(d), chip, engine)
  {
    var (_, d1) := Consume(d, KeyTerminate);
    NoCommands(d1, chip, now);
  }

  /** A paused frame with nothing pending changes nothing. */
  lemma QuietFrame(d: Session, chip: State, now: nat, engine: Engine)
    requires Quiet(d) && chip.Valid() && engine.Valid()
    ensures var f := Update(d, chip, now, engine);
      f.outcome == Running(chip) && f.session.states == d.states && Quiet(f.session) && f.stepped == None
  {
    var d0 := d;
    PausedUpdate(d0, chip, now, engine);
    PausedNothing(PausedEntry(d0), chip, engine);
  }

  /** Paused, a press of the step key pushes a snapshot equal to the
      machine before the step and runs exactly one `step_debug`; the
      report lists what that step changed. */
  lemma PausedStep(d: Session, chip: State, now: nat, engine: Engine)
    requires Quiet(d) && chip.Valid() && engine.Valid()
    ensures var f := Update(KeyDown(d, KeyStepDebug), chip, now, engine);
      && f.session.states == d.states + [chip]
      && match engine.step(chip)
         case Err(fault) => f.outcome == Crashed(fault)
         case Ok(c) => f.outcome == Running(c) && f.stepped == Some((chip, c)) && f.Report() == Diff(chip, c) && Quiet(f.session)
  {
    var d0 := KeyDown(d, KeyStepDebug);
    PausedUpdate(d0, chip, now, engine);
    PausedStepOnly(PausedEntry(d0), chip, engine);
  }

  /** Paused, a press of the undo key restores the most recent snapshot
      wholesale and drops it from the history. */
  lemma Undo(d: Session, chip: State, now: nat, engine: Engine)
    requires Quiet(d) && chip.Valid() && engine.Valid() && |d.states| > 0
    ensures var f := Update(KeyDown(d, KeyUndoStepDebug), chip, now, engine);
      f.outcome == Running(d.states[|d.states| - 1]) && f.session.states == d.states[..|d.states| - 1]
  {
    var d0 := KeyDown(d, KeyUndoStepDebug);
    PausedUpdate(d0, chip, now, engine);
    PausedPopOnly(PausedEntry(d0), chip, engine);
  }

  /** With an empty history an undo press changes neither the machine nor
      the history. */
  lemma UndoEmpty(d: Session, chip: State, now: nat, engine: Engine)
    requires Quiet(d) && chip.Valid() && engine.Valid() && d.states == []
    ensures var f := Update(KeyDown(d, KeyUndoStepDebug), chip, now, engine);
      f.outcome == Running(chip) && f.session.states == []
  {
    var d0 := KeyDown(d, KeyUndoStepDebug);
    PausedUpdate(d0, chip, now, engine);
    PausedPopOnly(PausedEntry(d0), chip, engine);
  }

  /** After an undo frame the debugger is paused with nothing to do. */
  lemma UndoQuiet(d: Session, chip: State, now: nat, engine: Engine)
    requires Quiet(d) && chip.Valid() && engine.Valid()
    ensures Quiet(Update(KeyDown(d, KeyUndoStepDebug), chip, now, engine).session)
  {
    var d0 := KeyDown(d, KeyUndoStepDebug);
    PausedUpdate(d0, chip, now, engine);
    var e := PausedEntry(d0);
    PausedPopOnly(e, chip, engine);
    var (p, _) := Pop(e, chip);
    LeavesQuiet(d, p.(consumable := e.consumable[KeyStepDebug := false][KeyUndoStepDebug := false]), d0.consumable);
  }

  /** A debugger whose command presses are all cleared, and whose
      keyboard, mode and flags are those of a quiet one but for a held
      undo key, is quiet. */
  lemma LeavesQuiet(d: Session, r: Session, m: map<KeyCode, bool>)
    requires Quiet(d) && r.Valid() && r.enabled && !r.playing
    requires r.keyboard == d.keyboard[KeyUndoStepDebug := true]
    requires r.consumable == m[KeyTerminate := false][KeyGoFaster := false][KeyGoSlower := false]
                            [KeyGoNormal := false][KeyTogglePlay := false][KeyStepDebug := false][KeyUndoStepDebug := false]
    ensures Quiet(r)
  {
  }

  /** Paused, while the rewind key is held each frame restores and drops
      one snapshot, like an undo. */
  lemma RewindHeld(d: Session, chip: State, now: nat, engine: Engine)
    requires Quiet(d) && chip.Valid() && engine.Valid() && |d.states| > 0
    ensures var f := Update(d.(keyboard := d.keyboard[KeyPlayBackward := true]), chip, now, engine);
      f.outcome == Running(d.states[|d.states| - 1]) && f.session.states == d.states[..|d.states| - 1]
  {
    var d0 := d.(keyboard := d.keyboard[KeyPlayBackward := true]);
    PausedUpdate(d0, chip, now, engine);
    PausedPopOnly(PausedEntry(d0), chip, engine);
  }

  /** Rewinding past the oldest snapshot does nothing. */
  lemma RewindEmpty(d: Session, chip: State, now: nat, engine: Engine)
    requires Quiet(d) && chip.Valid() && engine.Valid() && d.states == []
    ensures var f := Update(d.(keyboard := d.keyboard[KeyPlayBackward := true]), chip, now, engine);
      f.outcome == Running(chip) && f.session.states == [] && Held(f.session, KeyPlayBackward)
  {
    var d0 := d.(keyboard := d.keyboard[KeyPlayBackward := true]);
    PausedUpdate(d0, chip, now, engine);
    PausedPopOnly(PausedEntry(d0), chip, engine);
  }

  /** Pressing play while paused starts playing with both deadlines at
      `now` and nothing else changed; the frame pushes that machine and
      lets it catch up. */
  lemma ToggleIntoPlay(d: Session, chip: State, now: nat, engine: Engine)
    requires Quiet(d) && chip.Valid() && engine.Valid()
    ensures var f := Update(KeyDown(d, KeyTogglePlay), chip, now, engine);
      var c := chip.(nextTick := now, nextTimersTick := now);
      && f.session.playing && f.session.states == d.states + [c]
      && f == Finish(f.session, engine.catchUp(c))
  {
    var d0 := KeyDown(d, KeyTogglePlay);
    var (_, d1) := Consume(d0, KeyTerminate);
    var (d3, c3) := Commands(d1, chip, now);
    assert c3 == chip.(nextTick := now, nextTimersTick := now) && d3.playing;
  }

  /** Pressing play while playing pauses; the paused frame that follows
      leaves the machine alone. */
  lemma ToggleIntoPause(d: Session, chip: State, now: nat, engine: Engine)
    requires d.Valid() && d.enabled && d.playing && Idle(d) && chip.Valid() && engine.Valid()
    ensures var f := Update(KeyDown(d, KeyTogglePlay), chip, now, engine);
      !f.session.playing && f.outcome == Running(chip) && f.session.states == d.states
  {
    var d0 := KeyDown(d, KeyTogglePlay);
    var (_, d1) := Consume(d0, KeyTerminate);
    var (d3, c3) := Commands(d1, chip, now);
    assert c3 == chip && !d3.playing;
    PausedNothing(d3, chip, engine);
  }

  /** While playing, each frame pushes exactly one snapshot, the machine
      as it was, before letting it catch up with `now`. */
  lemma PlayingFrame(d: Session, chip: State, now: nat, engine: Engine)
    requires d.Valid() && d.enabled && d.playing && Idle(d) && chip.Valid() && engine.Valid()
    ensures var f := Update(d, chip, now, engine);
      && f.session.states == d.states + [chip] && f.session.playing
      && (engine.catchUp(chip).Ok? ==> f.outcome == Running(engine.catchUp(chip).value))
      && (engine.catchUp(chip).Err? ==> f.outcome == Crashed(engine.catchUp(chip).fault))
  {
    var (_, d1) := Consume(d, KeyTerminate);
    NoCommands(d1, chip, now);
  }

  /** A disabled debugger lets the machine catch up and changes nothing
      of its own, whatever keys are pending. */
  lemma DisabledFrame(d: Session, chip: State, now: nat, engine: Engine)
    requires d.Valid() && !d.enabled && chip.Valid() && engine.Valid()
    ensures var f := Update(d, chip, now, engine);
      && f.session == d
      && (engine.catchUp(chip).Ok? ==> f.outcome == Running(engine.catchUp(chip).value))
  {
  }

  /** The terminate key ends the process before anything else happens. */
  lemma Terminate(d: Session, chip: State, now: nat, engine: Engine)
    requires d.Valid() && d.enabled && chip.Valid() && engine.Valid()
    ensures Update(KeyDown(d, KeyTerminate), chip, now, engine).outcome == Terminated
  {
  }

  /** The speed keys change only the speed: faster adds one tenth, slower
      sets exactly one tenth, normal sets ten tenths. */
  lemma SpeedKeys(d: Session, chip: State, now: nat, engine: Engine)
    requires Quiet(d) && chip.Valid() && engine.Valid()
    ensures var f := Update(KeyDown(d, KeyGoFaster), chip, now, engine);
      f.outcome == Running(chip.(executionSpeed := chip.executionSpeed + 1)) && f.session.states == d.states
    ensures var f := Update(KeyDown(d, KeyGoSlower), chip, now, engine);
      f.outcome == Running(chip.(executionSpeed := 1)) && f.session.states == d.states
    ensures var f := Update(KeyDown(d, KeyGoNormal), chip, now, engine);
      f.outcome == Running(chip.(executionSpeed := 10)) && f.session.states == d.states
  {
    SpeedKey(d, chip, KeyGoFaster, chip.(executionSpeed := chip.executionSpeed + 1), now, engine);
    SpeedKey(d, chip, KeyGoSlower, chip.(executionSpeed := 1), now, engine);
    SpeedKey(d, chip, KeyGoNormal, chip.(executionSpeed := 10), now, engine);
  }

  /** One speed key, pressed alone while paused, gives `after`. */
  lemma SpeedKey(d: Session, chip: State, key: KeyCode, after: State, now: nat, engine: Engine)
    requires Quiet(d) && chip.Valid() && engine.Valid()
    requires key == KeyGoFaster || key == KeyGoSlower || key == KeyGoNormal
    requires key == KeyGoFaster ==> after == chip.(executionSpeed := chip.executionSpeed + 1)
    requires key == KeyGoSlower ==> after == chip.(executionSpeed := 1)
    requires key == KeyGoNormal ==> after == chip.(executionSpeed := 10)
    ensures var f := Update(KeyDown(d, key), chip, now, engine);
      f.outcome == Running(after) && f.session.states == d.states
  {
    var d0 := KeyDown(d, key);
    var (_, d1) := Consume(d0, KeyTerminate);
    var (d3, c3) := Commands(d1, chip, now);
    assert c3 == after && !d3.playing && d3.states == d.states;
    PausedNothing(d3, c3, engine);
  }

  /** Running `keys` and then one more key is running `keys` and, if the
      machine still runs, that key. */
  lemma {:induction false} RunSnoc(d: Session, chip: State, keys: seq<KeyCode>, key: KeyCode,
                                   now: nat, engine: Engine)
    requires d.Valid() && chip.Valid() && engine.Valid()
    ensures var f := Run(d, chip, keys, now, engine);
      Run(d, chip, keys + [key], now, engine) ==
        if f.outcome.Running? then Run(f.session, f.outcome.chip, [key], now, engine) else f
    decreases |keys|
  {
    if keys != [] {
      assert (keys + [key])[0] == keys[0];
      assert (keys + [key])[1..] == keys[1..] + [key];
      var f := Update(KeyDown(d, keys[0]), chip, now, engine);
      if f.outcome.Running? {
        RunSnoc(f.session, f.outcome.chip, keys[1..], key, now, engine);
      }
    }
  }

  /** Paused, `n` presses of the step key followed by `n` presses of the
      undo key give back the machine exactly as it was before the first
      step and the history as it was, unless a step faulted; with an
      engine whose steps never fault the run always ends running. */
  lemma {:induction false} StepsThenUndos(d: Session, chip: State, n: nat, now: nat, engine: Engine)
    requires Quiet(d) && chip.Valid() && engine.Valid()
    ensures var f := Run(d, chip, Repeat(KeyStepDebug, n) + Repeat(KeyUndoStepDebug, n), now, engine);
      f.outcome.Running? ==> f.outcome.chip == chip && f.session.states == d.states && Quiet(f.session)
    ensures NeverFaults(engine) ==>
      Run(d, chip, Repeat(KeyStepDebug, n) + Repeat(KeyUndoStepDebug, n), now, engine).outcome.Running?
    decreases n
  {
    var keys := Repeat(KeyStepDebug, n) + Repeat(KeyUndoStepDebug, n);
    if n == 0 {
      assert keys == [];
    } else {
      var mid := Repeat(KeyStepDebug, n - 1) + Repeat(KeyUndoStepDebug, n - 1);
      UndoLast(n);
      assert keys == [KeyStepDebug] + (mid + [KeyUndoStepDebug]);
      PausedStep(d, chip, now, engine);
      var f1 := Update(KeyDown(d, KeyStepDebug), chip, now, engine);
      RunCons(d, chip, KeyStepDebug, mid + [KeyUndoStepDebug], now, engine);
      if f1.outcome.Running? {
        var d1, c1 := f1.session, f1.outcome.chip;
        assert d1.states == d.states + [chip];
        RunSnoc(d1, c1, mid, KeyUndoStepDebug, now, engine);
        StepsThenUndos(d1, c1, n - 1, now, engine);
        var f2 := Run(d1, c1, mid, now, engine);
        if f2.outcome.Running? {
          Undo(f2.session, f2.outcome.chip, now, engine);
          UndoQuiet(f2.session, f2.outcome.chip, now, engine);
          RunOne(f2.session, f2.outcome.chip, KeyUndoStepDebug, now, engine);
          assert f2.session.states[|f2.session.states| - 1] == chip;
          assert f2.session.states[..|f2.session.states| - 1] == d.states;
        }
      }
    }
  }

  /** Running a non-empty key sequence is running its first frame and, if
      the machine still runs, the rest. */
  lemma RunCons(d: Session, chip: State, key: KeyCode, rest: seq<KeyCode>, now: nat, engine: Engine)
    requires d.Valid() && chip.Valid() && engine.Valid()
    ensures var f := Update(KeyDown(d, key), chip, now, engine);
      Run(d, chip, [key] + rest, now, engine) ==
        if f.outcome.Running? then Run(f.session, f.outcome.chip, rest, now, engine) else f
  {
    assert ([key] + rest)[0] == key && ([key] + rest)[1..] == rest;
  }

  /** Running one key ends where that key's frame ends. */
  lemma RunOne(d: Session, chip: State, key: KeyCode, now: nat, engine: Engine)
    requires d.Valid() && chip.Valid() && engine.Valid()
    ensures var f := Update(KeyDown(d, key), chip, now, engine);
      var g := Run(d, chip, [key], now, engine);
      g.session == f.session && g.outcome == f.outcome
  {
    RunCons(d, chip, key, [], now, engine);
    assert [key] + [] == [key];
  }

  /** `Repeat` can also be peeled from the end. */
  lemma {:induction false} UndoLast(n: nat)
    requires n > 0
    ensures Repeat(KeyUndoStepDebug, n) == Repeat(KeyUndoStepDebug, n - 1) + [KeyUndoStepDebug]
  {
    var r := Repeat(KeyUndoStepDebug, n);
    var s := Repeat(KeyUndoStepDebug, n - 1) + [KeyUndoStepDebug];
    assert |r| == |s|;
    forall k | 0 <= k < n
      ensures r[k] == s[k]
    {
    }
  }
}
