/**
 * The step debugger as the source runs it: a `Debugger` object whose key
 * maps and snapshot stack are updated in place, driving a `Chip8` object.
 * Every method is proved to leave both objects in the state that the
 * corresponding function of module `DebugSession` computes.
 */
module Debugging {
  import opened Bytes
  import opened Machine
  import opened Compare
  import opened Interpreter
  import opened DebugSession

  class Debugger {
    var isEnabled: bool
    var isPlaying: bool
    var keyboard: map<KeyCode, bool>
    var consumableKeys: map<KeyCode, bool>
    var states: seq<State>

    /** The value of the debugger. */
    function Value(): Session
      reads this
    {
      Session(isEnabled, isPlaying, keyboard, consumableKeys, states)
    }

    /** Every snapshot on the stack is a well-formed machine. */
    predicate Valid()
      reads this
    {
      Value().Valid()
    }

    /** `Debugger::new`. */
    constructor()
      ensures Valid() && Value() == NewSession()
    {
      isEnabled := true;
      isPlaying := false;
      keyboard := map[];
      consumableKeys := map[];
      states := [];
    }

    /** `consume_key`: returns whether a press is pending and clears it. */
    method ConsumeKey(key: KeyCode) returns (pressed: bool)
      modifies this
      ensures (pressed, Value()) == Consume(old(Value()), key)
    {
      pressed := key in consumableKeys && consumableKeys[key];
      consumableKeys := consumableKeys[key := false];
    }

    /** `is_key_down`: whether the key is held; nothing changes. */
    method IsKeyDown(key: KeyCode) returns (down: bool)
      ensures down == Held(Value(), key)
    {
      down := key in keyboard && keyboard[key];
    }

    /** `key_down_event`. */
    method KeyDownEvent(key: KeyCode)
      modifies this
      ensures Value() == KeyDown(old(Value()), key)
    {
      keyboard := keyboard[key := true];
      consumableKeys := consumableKeys[key := true];
    }

    /** `key_up_event`. */
    method KeyUpEvent(key: KeyCode)
      modifies this
      ensures Value() == KeyUp(old(Value()), key)
    {
      keyboard := keyboard[key := false];
      consumableKeys := consumableKeys[key := false];
    }

    /** The three speed keys of `update`. */
    method SpeedCommands(chip: Chip8)
      requires chip.Valid()
      modifies this, chip
      ensures (Value(), chip.Snapshot()) == DebugSession.SpeedCommands(old(Value()), old(chip.Snapshot()))
    {
      var faster := ConsumeKey(KeyGoFaster);
      if faster {
        chip.executionSpeed := chip.executionSpeed + 1;
      }
      var slower := ConsumeKey(KeyGoSlower);
      if slower {
        chip.executionSpeed := 1;
      }
      var normal := ConsumeKey(KeyGoNormal);
      if normal {
        chip.executionSpeed := 10;
      }
    }

    /** The play key of `update`. */
    method Toggle(chip: Chip8, now: nat)
      requires chip.Valid()
      modifies this, chip
      ensures (Value(), chip.Snapshot()) == DebugSession.Toggle(old(Value()), old(chip.Snapshot()), now)
    {
      var toggle := ConsumeKey(KeyTogglePlay);
      if toggle {
        isPlaying := !isPlaying;
        if isPlaying {
          chip.nextTick := now;
          chip.nextTimersTick := now;
        }
      }
    }

    /** The speed keys, then the play key. */
    method Commands(chip: Chip8, now: nat)
      requires chip.Valid()
      modifies this, chip
      ensures (Value(), chip.Snapshot()) == DebugSession.Commands(old(Value()), old(chip.Snapshot()), now)
    {
      SpeedCommands(chip);
      Toggle(chip, now);
    }

    /** A playing frame: push the machine, then let it catch up. */
    method Playing(chip: Chip8, now: nat, clock: Clock, rand: nat -> byte) returns (outcome: Outcome)
      requires chip.Valid() && clock.Positive()
      modifies this, chip, chip.memory, chip.display, chip.v
      ensures var d := old(Value());
        var f := Finish(d.(states := d.states + [old(chip.Snapshot())]), MachineEngine(now, clock, rand).catchUp(old(chip.Snapshot())));
        && Value() == f.session && outcome == f.outcome
        && (outcome.Running? ==> chip.Snapshot() == outcome.chip)
    {
      states := states + [chip.Snapshot()];
      outcome := CatchUp(chip, now, clock, rand);
    }

    /** Pops the most recent snapshot into the machine, if there is one. */
    method Pop(chip: Chip8)
      requires Valid() && chip.Valid()
      modifies this, chip, chip.memory, chip.display, chip.v, chip.keys
      ensures (Value(), chip.Snapshot()) == DebugSession.Pop(old(Value()), old(chip.Snapshot()))
    {
      if |states| > 0 {
        var prev := states[|states| - 1];
        states := states[..|states| - 1];
        chip.CloneFrom(prev);
      }
    }

    /** Rewind while the rewind key is held, then undo on a pending press. */
    method Rewind(chip: Chip8)
      requires Valid() && chip.Valid()
      modifies this, chip, chip.memory, chip.display, chip.v, chip.keys
      ensures var f := DebugSession.Rewind(old(Value()), old(chip.Snapshot()), None);
        Value() == f.session && chip.Snapshot() == f.outcome.chip
    {
      var back := IsKeyDown(KeyPlayBackward);
      if back {
        Pop(chip);
      }
      var undo := ConsumeKey(KeyUndoStepDebug);
      if undo {
        Pop(chip);
      }
    }

    /** The step key's work: push a copy of the machine, run one
        `step_debug`, and report what changed. */
    method Step(chip: Chip8, rnd: byte, clock: Clock) returns (fault: Option<Fault>, report: seq<Change>)
      requires Valid() && chip.Valid()
      modifies this, chip, chip.memory, chip.display, chip.v
      ensures Value() == old(Value()).(states := old(states) + [old(chip.Snapshot())])
      ensures (fault, chip.Snapshot()) == Interpreter.Outcome(old(chip.Snapshot()), Machine.StepDebug(old(chip.Snapshot()), clock, rnd))
      ensures fault.None? ==> report == Diff(old(chip.Snapshot()), chip.Snapshot())
    {
      var pushed := chip.Snapshot();
      states := states + [pushed];
      fault := chip.StepDebug(clock, rnd);
      report := if fault.None? then Diff(pushed, chip.Snapshot()) else [];
    }

    /** The step key's work as a frame: push, step, then rewind and undo. */
    method Stepped(chip: Chip8, now: nat, clock: Clock, rand: nat -> byte) returns (outcome: Outcome, report: seq<Change>)
      requires Valid() && chip.Valid() && clock.Positive()
      modifies this, chip, chip.memory, chip.display, chip.v, chip.keys
      ensures var f := DebugSession.Stepped(old(Value()), old(chip.Snapshot()), MachineEngine(now, clock, rand));
        && Value() == f.session && outcome == f.outcome && report == f.Report()
        && (outcome.Running? ==> chip.Snapshot() == outcome.chip)
    {
      ghost var before := chip.Snapshot();
      ghost var r := MachineEngine(now, clock, rand).step(before);
      assert r == Machine.StepDebug(before, clock, rand(0));
      var fault;
      fault, report := Step(chip, rand(0), clock);
      if fault.Some? {
        outcome, report := Crashed(fault.value), [];
        return;
      }
      assert r == Ok(chip.Snapshot());
      Rewind(chip);
      outcome := Running(chip.Snapshot());
    }

    /** A paused frame: step on a pending press (reporting the changes),
        then rewind and undo. */
    method Paused(chip: Chip8, now: nat, clock: Clock, rand: nat -> byte) returns (outcome: Outcome, report: seq<Change>)
      requires Valid() && chip.Valid() && clock.Positive()
      modifies this, chip, chip.memory, chip.display, chip.v, chip.keys
      ensures var f := DebugSession.Paused(old(Value()), old(chip.Snapshot()), MachineEngine(now, clock, rand));
        && Value() == f.session && outcome == f.outcome && report == f.Report()
        && (outcome.Running? ==> chip.Snapshot() == outcome.chip)
    {
      var step := ConsumeKey(KeyStepDebug);
      if step {
        outcome, report := Stepped(chip, now, clock, rand);
      } else {
        Rewind(chip);
        outcome, report := Running(chip.Snapshot()), [];
      }
    }

    /** Lets the machine catch up with `now`. */
    method CatchUp(chip: Chip8, now: nat, clock: Clock, rand: nat -> byte) returns (outcome: Outcome)
      requires chip.Valid() && clock.Positive()
      modifies chip, chip.memory, chip.display, chip.v
      ensures var f := Finish(Value(), MachineEngine(now, clock, rand).catchUp(old(chip.Snapshot())));
        && outcome == f.outcome
        && (outcome.Running? ==> chip.Snapshot() == outcome.chip)
    {
      var fault := chip.StepWithTime(now, clock, rand);
      if fault.Some? {
        outcome := Crashed(fault.value);
      } else {
        outcome := Running(chip.Snapshot());
      }
    }

    /** An enabled frame after the terminate key. */
    method Active(chip: Chip8, now: nat, clock: Clock, rand: nat -> byte) returns (outcome: Outcome, report: seq<Change>)
      requires Valid() && chip.Valid() && clock.Positive()
      modifies this, chip, chip.memory, chip.display, chip.v, chip.keys
      ensures var f := DebugSession.Active(old(Value()), old(chip.Snapshot()), now, MachineEngine(now, clock, rand));
        && Value() == f.session && outcome == f.outcome && report == f.Report()
        && (outcome.Running? ==> chip.Snapshot() == outcome.chip)
    {
      Commands(chip, now);
      if isPlaying {
        outcome := Playing(chip, now, clock, rand);
        report := [];
      } else {
        outcome, report := Paused(chip, now, clock, rand);
      }
    }

    /** `update`, one frame at instant `now`, with the change report of a
        single step. */
    method Update(chip: Chip8, now: nat, clock: Clock, rand: nat -> byte) returns (outcome: Outcome, report: seq<Change>)
      requires Valid() && chip.Valid() && clock.Positive()
      modifies this, chip, chip.memory, chip.display, chip.v, chip.keys
      ensures var f := DebugSession.Update(old(Value()), old(chip.Snapshot()), now, MachineEngine(now, clock, rand));
        && Value() == f.session && outcome == f.outcome && report == f.Report()
        && (outcome.Running? ==> chip.Snapshot() == outcome.chip)
    {
      if !isEnabled {
        outcome := CatchUp(chip, now, clock, rand);
        report := [];
        return;
      }
      var quit := ConsumeKey(KeyTerminate);
      if quit {
        outcome, report := Terminated, [];
        return;
      }
      outcome, report := Active(chip, now, clock, rand);
    }
  }
}
