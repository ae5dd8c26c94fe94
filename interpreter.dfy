/**
 * The interpreter as the source runs it: a `Chip8` object whose arrays
 * and registers are updated in place. Every method is proved to leave the
 * object in the state that the corresponding function of module `Machine`
 * computes from the state before the call.
 */
module Interpreter {
  import opened Bytes
  import opened OpCodes
  import opened Machine

  /** What a method reports and the state it leaves: the new state, or the
      fault with the state left as it was. */
  function Outcome(before: State, r: Result<State>): (Option<Fault>, State) {
    match r
    case Ok(s) => (None, s)
    case Err(f) => (Some(f), before)
  }

  /** Cell k lies in a sprite row before `rows`, or in row `rows` before
      column `cols`, counted from the origin (x, y). */
  ghost predicate Visited(k: nat, x: nat, y: nat, rows: nat, cols: nat) {
    Row(k) < y + rows || (Row(k) == y + rows && Col(k) < x + cols)
  }

  /** The cell at column c of row r. */
  lemma CellAt(c: nat, r: nat)
    requires c < DisplayWidth && r < DisplayHeight
    ensures var k := c + r * DisplayWidth; k < DisplaySize && Col(k) == c && Row(k) == r
  {
  }

  /** `d` is `d0` with the visited sprite cells toggled. */
  ghost predicate PartlyBlitted(d: seq<byte>, d0: seq<byte>, mem: seq<byte>, i: nat, x: nat, y: nat, n: nat,
                                rows: nat, cols: nat)
    requires |d0| == DisplaySize && |mem| == MemorySize && y < DisplayHeight && SpriteReadable(i, y, n)
  {
    |d| == DisplaySize &&
    forall k :: 0 <= k < DisplaySize ==>
      d[k] == if Flips(mem, i, x, y, n, k) && Visited(k, x, y, rows, cols) then 0xFF - d0[k] else d0[k]
  }

  /** `flag` records whether a visited sprite cell was lit. */
  ghost predicate PartlyFlagged(flag: byte, d0: seq<byte>, mem: seq<byte>, i: nat, x: nat, y: nat, n: nat,
                                rows: nat, cols: nat)
    requires |d0| == DisplaySize && |mem| == MemorySize && y < DisplayHeight && SpriteReadable(i, y, n)
  {
    && (flag == 0 || flag == 1)
    && (flag == 1 <==>
        exists k :: 0 <= k < DisplaySize && Visited(k, x, y, rows, cols) && Flips(mem, i, x, y, n, k) && d0[k] == 0xFF)
  }

  /** Before the first row nothing is toggled and the flag is clear. */
  lemma NothingVisited(d0: seq<byte>, mem: seq<byte>, i: nat, x: nat, y: nat, n: nat)
    requires |d0| == DisplaySize && |mem| == MemorySize && y < DisplayHeight && SpriteReadable(i, y, n)
    ensures PartlyBlitted(d0, d0, mem, i, x, y, n, 0, 0)
    ensures PartlyFlagged(0, d0, mem, i, x, y, n, 0, 0)
  {
  }

  /** The step of one cell at column x + dx of row y + dy. */
  lemma VisitCell(d: seq<byte>, d1: seq<byte>, flag: byte, flag1: byte, d0: seq<byte>, mem: seq<byte>,
                  i: nat, x: nat, y: nat, n: nat, dy: nat, dx: nat, loc: nat)
    requires |d0| == DisplaySize && |mem| == MemorySize && y < DisplayHeight && SpriteReadable(i, y, n)
    requires dy < n && y + dy < DisplayHeight && dx < 8 && x + dx < DisplayWidth
    requires loc < DisplaySize && Col(loc) == x + dx && Row(loc) == y + dy
    requires PartlyBlitted(d1, d0, mem, i, x, y, n, dy, dx)
    requires PartlyFlagged(flag1, d0, mem, i, x, y, n, dy, dx)
    requires d == d1[loc := if SpriteBit(mem[i + dy], dx) then 0xFF - d1[loc] else d1[loc]]
    requires flag == if d1[loc] == 0xFF && d[loc] == 0 then 1 else flag1
    ensures PartlyBlitted(d, d0, mem, i, x, y, n, dy, dx + 1)
    ensures PartlyFlagged(flag, d0, mem, i, x, y, n, dy, dx + 1)
  {
    assert loc == Col(loc) + Row(loc) * DisplayWidth;
    assert Flips(mem, i, x, y, n, loc) <==> SpriteBit(mem[i + dy], dx);
    assert !Visited(loc, x, y, dy, dx) && Visited(loc, x, y, dy, dx + 1);
    forall k | 0 <= k < DisplaySize
      ensures Visited(k, x, y, dy, dx + 1) <==> Visited(k, x, y, dy, dx) || k == loc
    {
      if Row(k) == y + dy && Col(k) == x + dx {
        assert k == Col(k) + Row(k) * DisplayWidth;
      }
    }
    if flag == 1 && flag1 != 1 {
      assert Visited(loc, x, y, dy, dx + 1) && Flips(mem, i, x, y, n, loc) && d0[loc] == 0xFF;
    }
  }

  /** Once a row stops (after eight columns or at the right edge) every
      sprite cell of that row has been visited. */
  lemma RowDone(d: seq<byte>, flag: byte, d0: seq<byte>, mem: seq<byte>,
                i: nat, x: nat, y: nat, n: nat, dy: nat, dx: nat)
    requires |d0| == DisplaySize && |mem| == MemorySize && y < DisplayHeight && SpriteReadable(i, y, n)
    requires dx == 8 || x + dx >= DisplayWidth
    requires PartlyBlitted(d, d0, mem, i, x, y, n, dy, dx)
    requires PartlyFlagged(flag, d0, mem, i, x, y, n, dy, dx)
    ensures PartlyBlitted(d, d0, mem, i, x, y, n, dy + 1, 0)
    ensures PartlyFlagged(flag, d0, mem, i, x, y, n, dy + 1, 0)
  {
    assert forall k :: 0 <= k < DisplaySize && Flips(mem, i, x, y, n, k) ==>
      (Visited(k, x, y, dy, dx) <==> Visited(k, x, y, dy + 1, 0));
  }

  /** Once the sprite stops (after N rows or at the bottom edge) the
      display is the blit and the flag is the collision test. */
  lemma AllVisited(d: seq<byte>, flag: byte, d0: seq<byte>, mem: seq<byte>,
                   i: nat, x: nat, y: nat, n: nat, dy: nat)
    requires |d0| == DisplaySize && |mem| == MemorySize && y < DisplayHeight && SpriteReadable(i, y, n)
    requires dy == n || y + dy >= DisplayHeight
    requires PartlyBlitted(d, d0, mem, i, x, y, n, dy, 0)
    requires PartlyFlagged(flag, d0, mem, i, x, y, n, dy, 0)
    ensures d == Blit(d0, mem, i, x, y, n)
    ensures flag == if Collides(d0, mem, i, x, y, n) then 1 else 0
  {
    assert forall k :: 0 <= k < DisplaySize && Flips(mem, i, x, y, n, k) ==> Visited(k, x, y, dy, 0);
  }

  /** Instructions that clear the screen, jump, call or return. */
  predicate FlowOp(op: OpCode) {
    op.Cls? || op.Ret? || op.Jmp? || op.JmpV0Nnn? || op.Call?
  }

  /** The conditional skips and the key wait. */
  predicate SkipOp(op: OpCode) {
    op.SeVxNn? || op.SneVxNn? || op.SeVxVy? || op.SneVxVy? || op.SkpVx? || op.SknpVx? || op.LdVxK?
  }

  /** Instructions on the index register and the memory it points at. */
  predicate IndexOp(op: OpCode) {
    op.LdINn? || op.AddIVx? || op.LdFVx? || op.LdBVx? || op.LdIVx? || op.LdVxI?
  }

  class Chip8 {
    const memory: array<byte>
    const display: array<byte>
    const v: array<byte>
    const keys: array<bool>
    var pc: nat
    var st: byte
    var dt: byte
    var i: u16
    var stack: seq<nat>
    var mode: Mode
    var executionSpeed: nat
    var nextTick: nat
    var nextTimersTick: nat
    var soundPlaying: bool

    /** The arrays have the machine's sizes (which also keeps the three
        byte arrays apart). */
    predicate Valid() {
      memory.Length == MemorySize && display.Length == DisplaySize
      && v.Length == 16 && keys.Length == 16
    }

    /** The value of the whole object; a snapshot the debugger keeps. */
    function Snapshot(): (s: State)
      reads this, memory, display, v, keys
      requires Valid()
      ensures s.Valid()
    {
      State(memory[..], display[..], v[..], pc, st, dt, i, stack, mode, keys[..],
            executionSpeed, nextTick, nextTimersTick, soundPlaying)
    }

    /** `Chip8::new`, with both deadlines at `now`. */
    constructor(now: nat)
      ensures Valid() && Snapshot() == Initial(now)
      ensures fresh(memory) && fresh(display) && fresh(v) && fresh(keys)
    {
      memory := new byte[MemorySize](_ => 0);
      display := new byte[DisplaySize](_ => 0);
      v := new byte[16](_ => 0);
      keys := new bool[16](_ => false);
      pc := ProgramStart;
      st := 0;
      dt := 0;
      i := 0;
      stack := [];
      mode := Chip8Mode;
      executionSpeed := 10;
      nextTick := now;
      nextTimersTick := now;
      soundPlaying := false;
      new;
      assert display[..] == BlankDisplay();
    }

    /** Copies `source` into the array `a`, cell by cell. */
    static method CopyInto<T>(a: array<T>, source: seq<T>)
      requires a.Length == |source|
      modifies a
      ensures a[..] == source
    {
      var k := 0;
      while k < a.Length
        invariant 0 <= k <= a.Length
        invariant a[..k] == source[..k]
      {
        a[k] := source[k];
        k := k + 1;
      }
    }

    /** `clone_from`: every field takes the value of `source`. */
    method CloneFrom(source: State)
      requires Valid() && source.Valid()
      modifies this, memory, display, v, keys
      ensures Snapshot() == source
    {
      CopyInto(memory, source.memory);
      CopyInto(display, source.display);
      CopyInto(v, source.v);
      pc := source.pc;
      st := source.st;
      dt := source.dt;
      i := source.i;
      stack := source.stack;
      mode := source.mode;
      CopyInto(keys, source.keys);
      executionSpeed := source.executionSpeed;
      nextTick := source.nextTick;
      nextTimersTick := source.nextTimersTick;
      soundPlaying := source.soundPlaying;
    }

    /** `load` with the file's bytes in `image`: clear memory, install the
        font at 0, copy the image to 0x200. */
    method Load(image: seq<byte>) returns (fault: Option<Fault>)
      requires Valid()
      modifies memory
      ensures (fault, Snapshot()) == Outcome(old(Snapshot()), Machine.Load(old(Snapshot()), image))
    {
      if |image| > MemorySize - ProgramStart {
        return Some(ImageTooLarge(|image|));
      }
      WriteImage(image);
      fault := None;
    }

    /** Clears memory, then writes the font at 0 and the image at 0x200. */
    method WriteImage(image: seq<byte>)
      requires Valid() && |image| <= MemorySize - ProgramStart
      modifies memory
      ensures memory[..] == LoadedMemory(image)
    {
      var font := Font;
      assert |font| == 80;
      ClearMemory();
      CopyToMemory(0, font);
      CopyToMemory(ProgramStart, image);
      ghost var m := LoadedMemory(image);
      assert forall j :: 0 <= j < MemorySize ==> memory[j] == m[j];
    }

    /** `memory.fill(0)`. */
    method ClearMemory()
      modifies memory
      ensures forall j :: 0 <= j < memory.Length ==> memory[j] == 0
    {
      var k := 0;
      while k < memory.Length
        invariant 0 <= k <= memory.Length
        invariant forall j :: 0 <= j < k ==> memory[j] == 0
      {
        memory[k] := 0;
        k := k + 1;
      }
    }

    /** `memory[base..base + |source|].copy_from_slice(source)`: the cells
        from `base` take the bytes of `source`, all others keep theirs. */
    method CopyToMemory(base: nat, source: seq<byte>)
      requires base + |source| <= memory.Length
      modifies memory
      ensures forall j :: 0 <= j < memory.Length ==>
        memory[j] == if base <= j < base + |source| then source[j - base] else old(memory[j])
    {
      var k := 0;
      while k < |source|
        invariant 0 <= k <= |source|
        invariant forall j :: 0 <= j < memory.Length ==>
          memory[j] == if base <= j < base + k then source[j - base] else old(memory[j])
      {
        memory[base + k] := source[k];
        k := k + 1;
      }
    }

    /** `DRW Vx, Vy, N`: clear VF, then XOR the N-row sprite at I onto the
        display row by row, clipping at the right and bottom edges, and set
        VF when a lit cell goes dark. */
    method Draw(vx: nat, vy: nat, n: nat)
      requires Valid() && vx < 16 && vy < 16 && n < 16
      requires SpriteReadable(i, Origin(v[..], vx, vy).1, n)
      modifies display, v
      ensures var (x, y) := Origin(old(v[..]), vx, vy);
        && display[..] == Blit(old(display[..]), memory[..], i, x, y, n)
        && v[..] == old(v[..])[0xF := if Collides(old(display[..]), memory[..], i, x, y, n) then 1 else 0]
    {
      ghost var d0 := display[..];
      ghost var v0 := v[..];
      ghost var mem := memory[..];
      v[0xF] := 0;
      var x := v[vx] % DisplayWidth;
      var y := v[vy] % DisplayHeight;
      assert (x, y) == Origin(v0, vx, vy);
      NothingVisited(d0, mem, i, x, y, n);
      var dy := 0;
      while dy < n
        invariant 0 <= dy <= n && y + dy <= DisplayHeight
        invariant PartlyBlitted(display[..], d0, mem, i, x, y, n, dy, 0)
        invariant PartlyFlagged(v[0xF], d0, mem, i, x, y, n, dy, 0)
        invariant v[..] == v0[0xF := v[0xF]]
      {
        if y + dy >= DisplayHeight {
          break;
        }
        var line := memory[i + dy];
        DrawRow(x, y, n, dy, line, d0, v0, mem);
        dy := dy + 1;
      }
      AllVisited(display[..], v[0xF], d0, mem, i, x, y, n, dy);
    }

    /** One sprite row: columns x.. x+7, stopping at the right edge. */
    method DrawRow(x: nat, y: nat, n: nat, dy: nat, line: byte,
                   ghost d0: seq<byte>, ghost v0: seq<byte>, ghost mem: seq<byte>)
      requires Valid() && mem == memory[..] && |d0| == DisplaySize && |v0| == 16
      requires x < DisplayWidth && y < DisplayHeight && SpriteReadable(i, y, n)
      requires dy < n && y + dy < DisplayHeight && line == mem[i + dy]
      requires PartlyBlitted(display[..], d0, mem, i, x, y, n, dy, 0)
      requires PartlyFlagged(v[0xF], d0, mem, i, x, y, n, dy, 0)
      requires v[..] == v0[0xF := v[0xF]]
      modifies display, v
      ensures PartlyBlitted(display[..], d0, mem, i, x, y, n, dy + 1, 0)
      ensures PartlyFlagged(v[0xF], d0, mem, i, x, y, n, dy + 1, 0)
      ensures v[..] == v0[0xF := v[0xF]]
    {
      var dx := 0;
      while dx < 8
        invariant 0 <= dx <= 8 && x + dx <= DisplayWidth
        invariant PartlyBlitted(display[..], d0, mem, i, x, y, n, dy, dx)
        invariant PartlyFlagged(v[0xF], d0, mem, i, x, y, n, dy, dx)
        invariant v[..] == v0[0xF := v[0xF]]
      {
        if x + dx >= DisplayWidth {
          break;
        }
        DrawCell(x, y, n, dy, dx, line, d0, v0, mem);
        dx := dx + 1;
      }
      RowDone(display[..], v[0xF], d0, mem, i, x, y, n, dy, dx);
    }

    /** One sprite cell: toggle it when its sprite bit is set, and raise VF
        when it goes from lit to dark. */
    method DrawCell(x: nat, y: nat, n: nat, dy: nat, dx: nat, line: byte,
                    ghost d0: seq<byte>, ghost v0: seq<byte>, ghost mem: seq<byte>)
      requires Valid() && mem == memory[..] && |d0| == DisplaySize && |v0| == 16
      requires y < DisplayHeight && SpriteReadable(i, y, n)
      requires dy < n && y + dy < DisplayHeight && line == mem[i + dy]
      requires dx < 8 && x + dx < DisplayWidth
      requires PartlyBlitted(display[..], d0, mem, i, x, y, n, dy, dx)
      requires PartlyFlagged(v[0xF], d0, mem, i, x, y, n, dy, dx)
      requires v[..] == v0[0xF := v[0xF]]
      modifies display, v
      ensures PartlyBlitted(display[..], d0, mem, i, x, y, n, dy, dx + 1)
      ensures PartlyFlagged(v[0xF], d0, mem, i, x, y, n, dy, dx + 1)
      ensures v[..] == v0[0xF := v[0xF]]
    {
      var loc := x + dx + (y + dy) * DisplayWidth;
      CellAt(x + dx, y + dy);
      var cur := display[loc];
      SpriteTest(line, dx);
      if BitAnd(SpriteMask(dx), line) != 0 {
        // `^= 255` on a byte, as `Bytes.XorAllOnes` shows
        display[loc] := 0xFF - display[loc];
      }
      if cur == 0xFF && display[loc] == 0 {
        v[0xF] := 1;
      }
      VisitCell(display[..], old(display[..]), v[0xF], old(v[0xF]), d0, mem, i, x, y, n, dy, dx, loc);
    }

    /** `tick`: fetch the big-endian word at pc, decode it, move pc past it
        and execute it. A fault is reported before anything changes. */
    method Tick(rnd: byte) returns (fault: Option<Fault>)
      requires Valid()
      modifies this, memory, display, v
      ensures (fault, Snapshot()) == Outcome(old(Snapshot()), Machine.Tick(old(Snapshot()), rnd))
    {
      if pc + 2 > MemorySize {
        return Some(FetchOutOfRange(pc));
      }
      ghost var s := Snapshot();
      var word := memory[pc] as int * 0x100 + memory[pc + 1];
      assert word == Fetch(s);
      var op := Decode(word);
      var next := Snapshot().(pc := pc + 2);
      assert Machine.Tick(s, rnd) == Execute(s, op, rnd);
      fault := Trap(next, op);
      if fault.Some? {
        return;
      }
      pc := pc + 2;
      assert Snapshot() == next;
      Dispatch(op, rnd);
      assert Machine.Tick(s, rnd) == Ok(Snapshot());
    }

    /** The match of `tick`, for an instruction that does not fault. */
    method Dispatch(op: OpCode, rnd: byte)
      requires Valid() && op.WellFormed() && Trap(Snapshot(), op).None? && pc >= 2
      modifies this, memory, display, v
      ensures Snapshot() == Effect(old(Snapshot()), op, rnd)
    {
      if ArithmeticOp(op) {
        ExecuteArithmetic(op, rnd);
        return;
      }
      EffectIgnoresRandom(Snapshot(), op, rnd);
      if FlowOp(op) {
        ExecuteFlow(op);
      } else if SkipOp(op) {
        ExecuteSkip(op);
      } else if op.LdVxDt? || op.LdDtVx? || op.LdStVx? {
        ExecuteTimers(op);
      } else if IndexOp(op) {
        ExecuteIndex(op);
      } else if op.DrawVxVyN? {
        Draw(op.x, op.y, op.n);
      } else {
        assert false;
      }
    }

    /** Clear, return, jump and call. */
    method ExecuteFlow(op: OpCode)
      requires Valid() && op.WellFormed() && FlowOp(op) && Trap(Snapshot(), op).None? && pc >= 2
      modifies this, display
      ensures Snapshot() == Effect(old(Snapshot()), op, 0)
    {
      match op {
        case Cls => ClearDisplay();
        case Ret =>
          pc := stack[|stack| - 1];
          stack := stack[..|stack| - 1];
        case Jmp(nnn) => pc := nnn;
        case JmpV0Nnn(nnn) => pc := nnn + v[0];
        case Call(nnn) =>
          stack := stack + [pc];
          pc := nnn;
        case _ => assert false;
      }
    }

    /** The conditional skips and the key wait. */
    method ExecuteSkip(op: OpCode)
      requires Valid() && op.WellFormed() && SkipOp(op) && Trap(Snapshot(), op).None? && pc >= 2
      modifies this, v
      ensures Snapshot() == Effect(old(Snapshot()), op, 0)
    {
      match op {
        case SeVxNn(x, nn) =>
          if v[x] == nn {
            pc := pc + 2;
          }
        case SneVxNn(x, nn) =>
          if v[x] != nn {
            pc := pc + 2;
          }
        case SeVxVy(x, y) =>
          if v[x] == v[y] {
            pc := pc + 2;
          }
        case SneVxVy(x, y) =>
          if v[x] != v[y] {
            pc := pc + 2;
          }
        case SkpVx(x) =>
          if keys[v[x]] {
            pc := pc + 2;
          }
        case SknpVx(x) =>
          if !keys[v[x]] {
            pc := pc + 2;
          }
        case LdVxK(x) =>
          var key := PressedKey();
          if key.Some? {
            v[x] := key.value;
          } else {
            pc := pc - 2;
          }
        case _ => assert false;
      }
    }

    /** `keys.iter().position(|&b| b)`: the lowest pressed key, if any. */
    method PressedKey() returns (key: Option<nat>)
      requires Valid()
      ensures key == FirstPressed(keys[..])
      ensures key.Some? ==> key.value < 16 && keys[key.value] && forall j :: 0 <= j < key.value ==> !keys[j]
      ensures key.None? ==> forall j :: 0 <= j < 16 ==> !keys[j]
    {
      var k := 0;
      while k < keys.Length && !keys[k]
        invariant 0 <= k <= keys.Length
        invariant forall j :: 0 <= j < k ==> !keys[j]
      {
        k := k + 1;
      }
      key := if k < keys.Length then Some(k) else None;
    }

    /** `display.fill(0)`. */
    method ClearDisplay()
      requires Valid()
      modifies display
      ensures display[..] == BlankDisplay()
    {
      var k := 0;
      while k < display.Length
        invariant 0 <= k <= display.Length
        invariant forall j :: 0 <= j < k ==> display[j] == 0
      {
        display[k] := 0;
        k := k + 1;
      }
    }

    /** The register instructions: loads, arithmetic, logic, shifts and
        random. */
    method ExecuteArithmetic(op: OpCode, rnd: byte)
      requires Valid() && op.WellFormed() && ArithmeticOp(op) && mode == Chip8Mode
      modifies v
      ensures v[..] == Machine.Arithmetic(old(v[..]), op, rnd)
    {
      if op.AddVxVy? || op.SubVxVy? || op.SubnVxVy? || op.ShrVxVy? || op.ShlVxVy? {
        ExecuteFlagged(op);
      } else {
        ExecuteUnflagged(op, rnd);
      }
    }

    /** Loads, immediate add, logic and random: only Vx changes. */
    method ExecuteUnflagged(op: OpCode, rnd: byte)
      requires Valid() && op.WellFormed()
      requires op.LdVxNn? || op.AddVxNn? || op.LdVxVy? || op.OrVxVy? || op.AndVxVy? || op.XorVxVy? || op.RndVxNn?
      modifies v
      ensures v[..] == Machine.Arithmetic(old(v[..]), op, rnd)
    {
      match op {
        case LdVxNn(x, nn) => v[x] := nn;
        case AddVxNn(x, nn) => v[x] := (v[x] + nn) % 0x100;
        case LdVxVy(x, y) => v[x] := v[y];
        case OrVxVy(x, y) => v[x] := BitOr(v[x], v[y]);
        case AndVxVy(x, y) => v[x] := BitAnd(v[x], v[y]);
        case XorVxVy(x, y) => v[x] := BitXor(v[x], v[y]);
        case RndVxNn(x, nn) => v[x] := BitAnd(nn, rnd);
      }
    }

    /** Add, subtract and shift: Vx changes, then VF takes the flag. */
    method ExecuteFlagged(op: OpCode)
      requires Valid() && op.WellFormed() && mode == Chip8Mode
      requires op.AddVxVy? || op.SubVxVy? || op.SubnVxVy? || op.ShrVxVy? || op.ShlVxVy?
      modifies v
      ensures v[..] == Machine.Arithmetic(old(v[..]), op, 0)
    {
      match op {
        case AddVxVy(x, y) =>
          var sum := v[x] as int + v[y];
          v[x] := sum % 0x100;
          v[0xF] := if sum > 0xFF then 1 else 0;
        case SubVxVy(x, y) =>
          var borrow := v[x] < v[y];
          v[x] := (v[x] as int - v[y]) % 0x100;
          v[0xF] := if borrow then 1 else 0;
        case SubnVxVy(x, y) =>
          var borrow := v[y] < v[x];
          v[x] := (v[y] as int - v[x]) % 0x100;
          v[0xF] := if borrow then 1 else 0;
        case ShrVxVy(x, y) =>
          if mode == Chip8Mode {
            v[x] := v[y];
          }
          v[0xF] := v[x] % 2;
          v[x] := v[x] / 2;
        case ShlVxVy(x, y) =>
          if mode == Chip8Mode {
            v[x] := v[y];
          }
          v[0xF] := v[x] / 0x80;
          v[x] := (v[x] as int * 2) % 0x100;
      }
    }

    /** The timer loads. */
    method ExecuteTimers(op: OpCode)
      requires Valid() && op.WellFormed() && (op.LdVxDt? || op.LdDtVx? || op.LdStVx?) && pc >= 2
      modifies this, v
      ensures Snapshot() == Effect(old(Snapshot()), op, 0)
    {
      ghost var s := Snapshot();
      match op {
        case LdVxDt(x) =>
          assert Effect(s, op, 0) == s.(v := s.v[x := dt]);
          v[x] := dt;
        case LdDtVx(x) =>
          assert Effect(s, op, 0) == s.(dt := v[x]);
          dt := v[x];
        case LdStVx(x) =>
          assert Effect(s, op, 0) == s.(st := v[x]);
          st := v[x];
      }
    }

    /** The instructions on the index register and on memory at I. */
    method ExecuteIndex(op: OpCode)
      requires Valid() && op.WellFormed() && IndexOp(op) && Trap(Snapshot(), op).None? && pc >= 2
      modifies this, memory, v
      ensures Snapshot() == Effect(old(Snapshot()), op, 0)
    {
      match op {
        case LdINn(nnn) => i := nnn;
        case AddIVx(x) => i := i + v[x];
        case LdFVx(x) => i := v[x] * GlyphSize;
        case LdBVx(x) =>
          var b := v[x];
          memory[i] := b / 100;
          memory[i + 1] := (b / 10) % 10;
          memory[i + 2] := b % 10;
        case LdIVx(x) => StoreRegisters(x);
        case LdVxI(x) => LoadRegisters(x);
        case _ => assert false;
      }
    }

    /** `LD [I], Vx`: memory[I + d] := V[d] for d in 0..=x. */
    method StoreRegisters(x: nat)
      requires Valid() && x < 16 && i + x < MemorySize
      modifies memory
      ensures memory[..] == Machine.StoreRegisters(old(memory[..]), v[..], i, x)
    {
      var d := 0;
      while d < x + 1
        invariant 0 <= d <= x + 1
        invariant forall k :: 0 <= k < MemorySize ==>
          memory[k] == if i <= k < i + d then v[k - i] else old(memory[k])
      {
        memory[i + d] := v[d];
        d := d + 1;
      }
    }

    /** `LD Vx, [I]`: V[d] := memory[I + d] for d in 0..=x. */
    method LoadRegisters(x: nat)
      requires Valid() && x < 16 && i + x < MemorySize
      modifies v
      ensures v[..] == Machine.LoadRegisters(old(v[..]), memory[..], i, x)
    {
      var d := 0;
      while d < x + 1
        invariant 0 <= d <= x + 1
        invariant forall k :: 0 <= k < 16 ==> v[k] == if k < d then memory[i + k] else old(v[k])
      {
        v[d] := memory[i + d];
        d := d + 1;
      }
    }

    /** `step_debug`: count the timers down when they are due strictly
        first, otherwise run one instruction; move the served deadline on
        by its period at the current speed; then start or stop the sound. */
    method StepDebug(clock: Clock, rnd: byte) returns (fault: Option<Fault>)
      requires Valid()
      modifies this, memory, display, v
      ensures (fault, Snapshot()) == Outcome(old(Snapshot()), Machine.StepDebug(old(Snapshot()), clock, rnd))
    {
      if nextTimersTick < nextTick {
        CountDown(clock.timers(executionSpeed));
      } else {
        fault := RunInstruction(clock.instr(executionSpeed), rnd);
        if fault.Some? {
          return;
        }
      }
      UpdateSound();
      fault := None;
    }

    /** The timer half of `step_debug`. */
    method CountDown(period: nat)
      requires Valid()
      modifies this
      ensures Snapshot() == Machine.CountDown(old(Snapshot()), period)
    {
      if st > 0 {
        st := st - 1;
      }
      if dt > 0 {
        dt := dt - 1;
      }
      nextTimersTick := nextTimersTick + period;
    }

    /** The instruction half of `step_debug`. */
    method RunInstruction(period: nat, rnd: byte) returns (fault: Option<Fault>)
      requires Valid()
      modifies this, memory, display, v
      ensures (fault, Snapshot()) == Outcome(old(Snapshot()), Instruction(old(Snapshot()), period, rnd))
    {
      ghost var s := Snapshot();
      fault := Tick(rnd);
      if fault.None? {
        ghost var t := Snapshot();
        AdvanceOk(s, period, rnd, t);
        nextTick := nextTick + period;
        assert Snapshot() == t.(nextTick := t.nextTick + period);
      } else {
        AdvanceErr(s, period, rnd, fault.value);
      }
    }

    /** Starts the sound when ST is running and stops it when ST is 0. */
    method UpdateSound()
      requires Valid()
      modifies this
      ensures Snapshot() == Sound(old(Snapshot()))
    {
      if st > 0 && !soundPlaying {
        soundPlaying := true;
      } else if st == 0 && soundPlaying {
        soundPlaying := false;
      }
    }

    /** `step_with_time` at instant `now`: run scheduling units while both
        deadlines lie before `now`; unit k uses the random byte `rand(k)`.
        After a fault the object is left as it was when the fault arose. */
    method StepWithTime(now: nat, clock: Clock, rand: nat -> byte) returns (fault: Option<Fault>)
      requires Valid() && clock.Positive()
      modifies this, memory, display, v
      ensures var r := CatchUp(old(Snapshot()), now, clock, rand, 0);
        && (r.Ok? ==> fault.None? && Snapshot() == r.value)
        && (r.Err? ==> fault == Some(r.fault))
    {
      var k := 0;
      while now > nextTick && now > nextTimersTick
        invariant Valid()
        invariant CatchUp(Snapshot(), now, clock, rand, k) == CatchUp(old(Snapshot()), now, clock, rand, 0)
        decreases 2 * now - nextTick - nextTimersTick
      {
        fault := StepDebug(clock, rand(k));
        if fault.Some? {
          return;
        }
        k := k + 1;
      }
      fault := None;
    }
  }
}
