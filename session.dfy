/**
 * The step debugger as values: the key maps it keeps, the snapshot history,
 * and what one frame of `update` does to the debugger and to the machine.
 * The `Debugger` class in debugger.dfy is proved against these functions.
 */
module DebugSession {
  import opened Bytes
  import opened Machine
  import opened Compare

  /** The keyboard keys the debugger listens to; every other key is
      `Other`. */
  datatype KeyCode = P | H | J | K | Equal | Minus | Key0 | Semicolon | Other(code: nat)

  const KeyTogglePlay: KeyCode := P
  const KeyPlayBackward: KeyCode := H
  const KeyStepDebug: KeyCode := J
  const KeyUndoStepDebug: KeyCode := K
  const KeyGoFaster: KeyCode := Equal
  const KeyGoSlower: KeyCode := Minus
  const KeyGoNormal: KeyCode := Key0
  const KeyTerminate: KeyCode := Semicolon

  /** The debugger: whether it intercepts frames, whether the machine runs
      freely, which keys are held, which key presses are still pending, and
      the history of machine snapshots (most recent last). */
  datatype Session = Session(
    enabled: bool,
    playing: bool,
    keyboard: map<KeyCode, bool>,
    consumable: map<KeyCode, bool>,
    states: seq<State>)
  {
    /** Every snapshot in the history is a well-formed machine. */
    predicate Valid() {
      forall k :: 0 <= k < |states| ==> states[k].Valid()
    }
  }

  /** A map lookup that treats a missing key as `false`. */
  function Flag(m: map<KeyCode, bool>, key: KeyCode): bool {
    key in m && m[key]
  }

  /** The key is held down. */
  function Held(d: Session, key: KeyCode): bool {
    Flag(d.keyboard, key)
  }

  /** The key was pressed and the press has not been consumed yet. */
  function Pending(d: Session, key: KeyCode): bool {
    Flag(d.consumable, key)
  }

  /** `Debugger::new`: enabled, paused, no key known, empty history. */
  function NewSession(): (d: Session)
    ensures d.Valid() && d.enabled && !d.playing && d.states == []
    ensures forall key :: !Held(d, key) && !Pending(d, key)
  {
    Session(true, false, map[], map[], [])
  }

  /** `consume_key`: reports whether a press of `key` is pending and clears
      it; no other key and nothing else changes. */
  function Consume(d: Session, key: KeyCode): (r: (bool, Session))
    ensures r.0 == Pending(d, key) && !Pending(r.1, key)
    ensures r.1 == d.(consumable := r.1.consumable)
  {
    (Pending(d, key), d.(consumable := d.consumable[key := false]))
  }

  /** `key_down_event`: the key is held and a press is pending. */
  function KeyDown(d: Session, key: KeyCode): (r: Session)
    ensures Held(r, key) && Pending(r, key)
    ensures r == d.(keyboard := r.keyboard, consumable := r.consumable)
  {
    d.(keyboard := d.keyboard[key := true], consumable := d.consumable[key := true])
  }

  /** `key_up_event`: the key is released and any pending press dropped. */
  function KeyUp(d: Session, key: KeyCode): (r: Session)
    ensures !Held(r, key) && !Pending(r, key)
    ensures r == d.(keyboard := r.keyboard, consumable := r.consumable)
  {
    d.(keyboard := d.keyboard[key := false], consumable := d.consumable[key := false])
  }

  /** A machine result that, when it is a machine, is a well-formed one. */
  predicate Keeps(r: Result<State>) {
    r.Ok? ==> r.value.Valid()
  }

  /** The two operations of the machine the debugger drives: `step` is one
      `step_debug`, `catchUp` is `step_with_time` at the frame's instant.
      The debugger's logic does not depend on what they compute. */
  datatype Engine = Engine(step: State --> Result<State>, catchUp: State --> Result<State>)
  {
    /** Both accept every well-formed machine and return well-formed ones. */
    ghost predicate Valid() {
      && (forall s: State :: s.Valid() ==> step.requires(s) && Keeps(step(s)))
      && (forall s: State :: s.Valid() ==> catchUp.requires(s) && Keeps(catchUp(s)))
    }
  }

  /** The engine of the interpreter at instant `now`: a single step draws
      `rand(0)`, the catch-up loop draws `rand(k)` in its k-th unit. */
  function MachineEngine(now: nat, clock: Clock, rand: nat -> byte): (e: Engine)
    requires clock.Positive()
    ensures e.Valid()
    ensures forall s: State :: s.Valid() ==> e.step.requires(s) && e.step(s) == StepDebug(s, clock, rand(0))
    ensures forall s: State :: s.Valid() ==> e.catchUp.requires(s) && e.catchUp(s) == CatchUp(s, now, clock, rand, 0)
  {
    Engine((s: State) requires s.Valid() => StepDebug(s, clock, rand(0)),
           (s: State) requires s.Valid() => CatchUp(s, now, clock, rand, 0))
  }

  /** How a frame ends: the machine keeps running, the debugger asked the
      process to exit, or the machine faulted (the source panics). */
  datatype Outcome = Running(chip: State) | Terminated | Crashed(fault: Fault)

  /** One frame: the debugger afterwards, how the frame ended, and the
      machine before and after the single step it ran, if any. */
  datatype Frame = Frame(session: Session, outcome: Outcome, stepped: Option<(State, State)>)
  {
    /** The change report printed after a single step; empty otherwise. */
    function Report(): seq<Change>
      requires stepped.Some? ==> stepped.value.0.Valid() && stepped.value.1.Valid()
    {
      if stepped.Some? then Diff(stepped.value.0, stepped.value.1) else []
    }
  }

  /** The three speed keys, in the order `update` consumes them: faster
      adds a tenth, slower sets one tenth, normal sets ten tenths. */
  function SpeedCommands(d: Session, chip: State): (r: (Session, State))
    ensures r.0 == d.(consumable := r.0.consumable)
    ensures r.1 == chip.(executionSpeed := r.1.executionSpeed)
  {
    var (faster, d1) := Consume(d, KeyGoFaster);
    var c1 := if faster then chip.(executionSpeed := chip.executionSpeed + 1) else chip;
    var (slower, d2) := Consume(d1, KeyGoSlower);
    var c2 := if slower then c1.(executionSpeed := 1) else c1;
    var (normal, d3) := Consume(d2, KeyGoNormal);
    var c3 := if normal then c2.(executionSpeed := 10) else c2;
    (d3, c3)
  }

  /** The play key: flips between playing and paused; on entering play
      both deadlines are moved to `now`. */
  function Toggle(d: Session, chip: State, now: nat): (r: (Session, State))
    ensures r.0 == d.(consumable := r.0.consumable, playing := r.0.playing)
    ensures r.0.playing != d.playing <==> Pending(d, KeyTogglePlay)
    ensures r.1 == (if r.0.playing && !d.playing then chip.(nextTick := now, nextTimersTick := now) else chip)
  {
    var (toggle, d1) := Consume(d, KeyTogglePlay);
    if toggle then
      var d2 := d1.(playing := !d1.playing);
      (d2, if d2.playing then chip.(nextTick := now, nextTimersTick := now) else chip)
    else (d1, chip)
  }

  /** The speed keys, then the play key. */
  function Commands(d: Session, chip: State, now: nat): (r: (Session, State))
    ensures r.0 == d.(consumable := r.0.consumable, playing := r.0.playing)
    ensures r.0.playing != d.playing <==> Pending(d, KeyTogglePlay)
    ensures r.1 == chip.(executionSpeed := r.1.executionSpeed, nextTick := r.1.nextTick,
                         nextTimersTick := r.1.nextTimersTick)
  {
    var (d1, c1) := SpeedCommands(d, chip);
    Toggle(d1, c1, now)
  }

  /** Removes the most recent snapshot and makes it the machine
      (`states.pop()` then `clone_from`); nothing happens when the
      history is empty. */
  function Pop(d: Session, chip: State): (r: (Session, State))
    requires d.Valid() && chip.Valid()
    ensures r.0.Valid() && r.1.Valid()
    ensures |d.states| == 0 ==> r == (d, chip)
    ensures |d.states| > 0 ==> r.0 == d.(states := d.states[..|d.states| - 1]) && r.1 == d.states[|d.states| - 1]
  {
    if |d.states| == 0 then (d, chip)
    else (d.(states := d.states[..|d.states| - 1]), d.states[|d.states| - 1])
  }

  /** The end of a paused frame: one pop while the rewind key is held,
      then one pop for a pending undo press. */
  function Rewind(d: Session, chip: State, stepped: Option<(State, State)>): (f: Frame)
    requires d.Valid() && chip.Valid()
    ensures f.session.Valid() && f.outcome.Running? && f.outcome.chip.Valid() && f.stepped == stepped
    ensures f.session.playing == d.playing && f.session.enabled == d.enabled
    ensures |f.session.states| <= |d.states|
  {
    var (d1, c1) := if Held(d, KeyPlayBackward) then Pop(d, chip) else (d, chip);
    var (undo, d2) := Consume(d1, KeyUndoStepDebug);
    var (d3, c2) := if undo then Pop(d2, c1) else (d2, c1);
    Frame(d3, Running(c2), stepped)
  }

  /** The step key's work: push the machine, run one `step_debug`, then
      rewind and undo; a fault ends the frame at once. */
  function Stepped(d: Session, chip: State, engine: Engine): (f: Frame)
    requires d.Valid() && chip.Valid() && engine.Valid()
    ensures f.session.Valid() && (f.outcome.Running? ==> f.outcome.chip.Valid())
    ensures f.session.playing == d.playing && f.session.enabled == d.enabled
    ensures !f.outcome.Terminated?
    ensures f.stepped.Some? ==> f.stepped.value.0.Valid() && f.stepped.value.1.Valid()
    ensures f.outcome.Crashed? <==> engine.step(chip).Err?
    ensures engine.step(chip).Ok? ==> f.stepped == Some((chip, engine.step(chip).value))
  {
    var d2 := d.(states := d.states + [chip]);
    match engine.step(chip)
    case Err(fault) => Frame(d2, Crashed(fault), None)
    case Ok(c) => Rewind(d2, c, Some((chip, c)))
  }

  /** A paused frame: a pending step press pushes the machine and runs one
      `step_debug`, reporting what changed; then rewind and undo. */
  function Paused(d: Session, chip: State, engine: Engine): (f: Frame)
    requires d.Valid() && chip.Valid() && engine.Valid()
    ensures f.session.Valid() && (f.outcome.Running? ==> f.outcome.chip.Valid())
    ensures f.session.playing == d.playing && f.session.enabled == d.enabled
    ensures !f.outcome.Terminated?
    ensures f.stepped.Some? ==> f.stepped.value.0.Valid() && f.stepped.value.1.Valid()
    ensures (f.stepped.Some? || f.outcome.Crashed?) ==> Pending(d, KeyStepDebug)
  {
    var (step, d1) := Consume(d, KeyStepDebug);
    if step then Stepped(d1, chip, engine) else Rewind(d1, chip, None)
  }

  /** A frame in which the machine catches up with `now`. */
  function Finish(d: Session, r: Result<State>): (f: Frame)
    ensures f.session == d && f.stepped == None
    ensures r.Ok? ==> f.outcome == Running(r.value)
    ensures r.Err? ==> f.outcome == Crashed(r.fault)
  {
    match r
    case Ok(c) => Frame(d, Running(c), None)
    case Err(fault) => Frame(d, Crashed(fault), None)
  }

  /** An enabled frame after the terminate key: the speed keys and the
      play key are applied; a playing machine is pushed and catches up; a
      paused one steps, rewinds and undoes on request. */
  function Active(d: Session, chip: State, now: nat, engine: Engine): (f: Frame)
    requires d.Valid() && chip.Valid() && engine.Valid()
    ensures f.session.Valid() && (f.outcome.Running? ==> f.outcome.chip.Valid())
    ensures f.session.enabled == d.enabled && !f.outcome.Terminated?
    ensures f.stepped.Some? ==> f.stepped.value.0.Valid() && f.stepped.value.1.Valid()
    ensures f.session.playing == (d.playing != Pending(d, KeyTogglePlay))
    ensures f.session.playing ==> f.stepped == None
  {
    var (d3, c3) := Commands(d, chip, now);
    if d3.playing then Finish(d3.(states := d3.states + [c3]), engine.catchUp(c3))
    else Paused(d3, c3, engine)
  }

  /** `update`, one frame at instant `now`. A disabled debugger only lets
      the machine catch up; otherwise the terminate key ends the process,
      and any other frame is `Active`. */
  function Update(d: Session, chip: State, now: nat, engine: Engine): (f: Frame)
    requires d.Valid() && chip.Valid() && engine.Valid()
    ensures f.session.Valid() && (f.outcome.Running? ==> f.outcome.chip.Valid())
    ensures f.session.enabled == d.enabled
    ensures f.outcome.Terminated? <==> d.enabled && Pending(d, KeyTerminate)
    ensures f.stepped.Some? ==> f.stepped.value.0.Valid() && f.stepped.value.1.Valid()
  {
    if !d.enabled then Finish(d, engine.catchUp(chip))
    else
      var (quit, d1) := Consume(d, KeyTerminate);
      if quit then Frame(d1, Terminated, None)
      else Active(d1, chip, now, engine)
  }

  /** Frames one after another, each preceded by a key-down event of the
      next key, stopping at the first frame that does not keep running. */
  function Run(d: Session, chip: State, keys: seq<KeyCode>, now: nat, engine: Engine): (f: Frame)
    requires d.Valid() && chip.Valid() && engine.Valid()
    ensures f.session.Valid() && (f.outcome.Running? ==> f.outcome.chip.Valid())
    decreases |keys|
  {
    if keys == [] then Frame(d, Running(chip), None)
    else
      var f := Update(KeyDown(d, keys[0]), chip, now, engine);
      if f.outcome.Running? then Run(f.session, f.outcome.chip, keys[1..], now, engine) else f
  }

  /** `n` copies of a key. */
  function Repeat(key: KeyCode, n: nat): (r: seq<KeyCode>)
    ensures |r| == n && forall k :: 0 <= k < n ==> r[k] == key
  {
    if n == 0 then [] else [key] + Repeat(key, n - 1)
  }
}
