/**
 * The CHIP-8 machine state as a value, and the meaning of every
 * interpreter step as a function of it: instruction execution, the fetch
 * that precedes it, the timer/instruction scheduler and the catch-up loop.
 * The `Chip8` class of module `Interpreter` is proved to follow these.
 */
module Machine {
  import opened Bytes
  import opened OpCodes

  const MemorySize := 4096
  const DisplayWidth := 64
  const DisplayHeight := 32
  const DisplaySize := 64 * 32
  /** Where a program image is loaded and where execution starts. */
  const ProgramStart := 0x200
  /** Each font glyph is five bytes long. */
  const GlyphSize := 5

  datatype Option<T> = None | Some(value: T)

  /** The machine has a single quirk mode, classic CHIP-8. */
  datatype Mode = Chip8Mode

  /** What makes the source abort: each of these is a Rust panic. */
  datatype Fault =
    | FetchOutOfRange(pc: nat)         // memory[pc..pc + 2] past the end
    | UnknownOpcode(word: nat)         // executing `Unkn`
    | StackUnderflow                   // `Ret` with an empty stack
    | KeyOutOfRange(key: nat)          // keys[Vx] with Vx >= 16
    | MemoryOutOfRange                 // memory[I + k] past the end
    | ArithmeticOverflow               // u8 `Vx * 5` or u16 `I += Vx`
    | ImageTooLarge(length: nat)       // a program image past the end

  datatype Result<T> = Ok(value: T) | Err(fault: Fault)

  /** The whole machine. Times are abstract instants; `executionSpeed`
      counts tenths (10 is normal speed). */
  datatype State = State(
    memory: seq<byte>,
    display: seq<byte>,
    v: seq<byte>,
    pc: nat,
    st: byte,
    dt: byte,
    i: u16,
    stack: seq<nat>,
    mode: Mode,
    keys: seq<bool>,
    executionSpeed: nat,
    nextTick: nat,
    nextTimersTick: nat,
    soundPlaying: bool)
  {
    /** The fixed sizes of the arrays. */
    predicate Valid() {
      |memory| == MemorySize && |display| == DisplaySize && |v| == 16 && |keys| == 16
    }

    /** Every display cell is off (0) or on (0xFF). */
    predicate DisplayBinary()
      requires Valid()
    {
      forall k :: 0 <= k < DisplaySize ==> display[k] == 0 || display[k] == 0xFF
    }
  }

  /** A display with every cell off. */
  function BlankDisplay(): seq<byte> { seq(DisplaySize, _ => 0) }

  /** The built-in hexadecimal font: glyph d is at 5 * d. */
  const Font: seq<byte> := [
    0xF0, 0x90, 0x90, 0x90, 0xF0, // 0
    0x20, 0x60, 0x20, 0x20, 0x70, // 1
    0xF0, 0x10, 0xF0, 0x80, 0xF0, // 2
    0xF0, 0x10, 0xF0, 0x10, 0xF0, // 3
    0x90, 0x90, 0xF0, 0x10, 0x10, // 4
    0xF0, 0x80, 0xF0, 0x10, 0xF0, // 5
    0xF0, 0x80, 0xF0, 0x90, 0xF0, // 6
    0xF0, 0x10, 0x20, 0x40, 0x40, // 7
    0xF0, 0x90, 0xF0, 0x90, 0xF0, // 8
    0xF0, 0x90, 0xF0, 0x10, 0xF0, // 9
    0xF0, 0x90, 0xF0, 0x90, 0x90, // A
    0xE0, 0x90, 0xE0, 0x90, 0xE0, // B
    0xF0, 0x80, 0x80, 0x80, 0xF0, // C
    0xE0, 0x90, 0x90, 0x90, 0xE0, // D
    0xF0, 0x80, 0xF0, 0x80, 0xF0, // E
    0xF0, 0x80, 0xF0, 0x80, 0x80  // F
  ]

  /** The state `Chip8::new` builds at instant `now`. */
  function Initial(now: nat): (s: State)
    ensures s.Valid() && s.pc == ProgramStart && s.stack == []
    ensures s.nextTick == now && s.nextTimersTick == now && !s.soundPlaying
  {
    State(
      memory := seq(MemorySize, _ => 0),
      display := BlankDisplay(),
      v := seq(16, _ => 0),
      pc := ProgramStart,
      st := 0,
      dt := 0,
      i := 0,
      stack := [],
      mode := Chip8Mode,
      keys := seq(16, _ => false),
      executionSpeed := 10,
      nextTick := now,
      nextTimersTick := now,
      soundPlaying := false)
  }

  /** The memory after loading `image`: zeroes, the font at 0, the image
      at 0x200. */
  function LoadedMemory(image: seq<byte>): (m: seq<byte>)
    requires |image| <= MemorySize - ProgramStart
  {
    seq(MemorySize, k requires 0 <= k < MemorySize =>
      if k < |Font| then Font[k]
      else if ProgramStart <= k < ProgramStart + |image| then image[k - ProgramStart]
      else 0)
  }

  /** Loading replaces the memory and nothing else; an image that does not
      fit between 0x200 and the end of memory is refused. */
  function Load(s: State, image: seq<byte>): (r: Result<State>)
    ensures r.Err? <==> |image| > MemorySize - ProgramStart
    ensures r.Err? ==> r.fault == ImageTooLarge(|image|)
    ensures r.Ok? ==> |r.value.memory| == MemorySize && r.value == s.(memory := r.value.memory)
  {
    if |image| <= MemorySize - ProgramStart then Ok(s.(memory := LoadedMemory(image)))
    else Err(ImageTooLarge(|image|))
  }

  // ---------------------------------------------------------------------
  // Keys

  /** The lowest index of a pressed key (`keys.iter().position(|&b| b)`). */
  function FirstPressed(keys: seq<bool>): (r: Option<nat>)
    ensures r.Some? ==> r.value < |keys| && keys[r.value]
    ensures r.Some? ==> forall j :: 0 <= j < r.value ==> !keys[j]
    ensures r.None? ==> forall j :: 0 <= j < |keys| ==> !keys[j]
  {
    if keys == [] then None
    else if keys[0] then Some(0)
    else match FirstPressed(keys[1..])
      case None => None
      case Some(j) => Some(j + 1)
  }

  // ---------------------------------------------------------------------
  // Sprites

  function Col(k: nat): nat { k % DisplayWidth }
  function Row(k: nat): nat { k / DisplayWidth }

  /** Cell (c, r) lies in the N-row, 8-column sprite rectangle at (x, y),
      clipped at the right and bottom edges. */
  predicate Covers(x: nat, y: nat, n: nat, c: nat, r: nat) {
    x <= c < x + 8 && c < DisplayWidth && y <= r < y + n && r < DisplayHeight
  }

  /** The number of sprite rows drawn before the bottom edge. */
  function SpriteRows(y: nat, n: nat): nat
    requires y < DisplayHeight
  {
    if y + n <= DisplayHeight then n else DisplayHeight - y
  }

  /** Every sprite row that is drawn can be read from memory. */
  predicate SpriteReadable(i: nat, y: nat, n: nat)
    requires y < DisplayHeight
  {
    SpriteRows(y, n) == 0 || i + SpriteRows(y, n) <= MemorySize
  }

  /** The sprite bit that lands on cell k. */
  predicate Ink(memory: seq<byte>, i: nat, x: nat, y: nat, n: nat, k: nat)
    requires |memory| == MemorySize && y < DisplayHeight && SpriteReadable(i, y, n)
    requires Covers(x, y, n, Col(k), Row(k))
  {
    SpriteBit(memory[i + Row(k) - y], Col(k) - x)
  }

  /** Cell k is toggled by the sprite. */
  predicate Flips(memory: seq<byte>, i: nat, x: nat, y: nat, n: nat, k: nat)
    requires |memory| == MemorySize && y < DisplayHeight && SpriteReadable(i, y, n)
  {
    Covers(x, y, n, Col(k), Row(k)) && Ink(memory, i, x, y, n, k)
  }

  /** The display after XOR-ing the sprite onto it; a toggled cell `d`
      becomes `0xFF - d`, which `Bytes.XorAllOnes` proves equal to
      `d ^ 0xFF`. */
  function Blit(display: seq<byte>, memory: seq<byte>, i: nat, x: nat, y: nat, n: nat): (d: seq<byte>)
    requires |display| == DisplaySize && |memory| == MemorySize
    requires y < DisplayHeight && SpriteReadable(i, y, n)
    ensures |d| == DisplaySize
    ensures forall k :: 0 <= k < DisplaySize ==> (d[k] != display[k] <==> Flips(memory, i, x, y, n, k))
    ensures forall k :: 0 <= k < DisplaySize && Flips(memory, i, x, y, n, k) ==> d[k] as int + display[k] as int == 0xFF
  {
    seq(DisplaySize, k requires 0 <= k < DisplaySize =>
      if Flips(memory, i, x, y, n, k) then 0xFF - display[k] else display[k])
  }

  /** Some lit cell is toggled off by the sprite: a cell that was 255
      before the blit is 0 after it. */
  predicate Collides(display: seq<byte>, memory: seq<byte>, i: nat, x: nat, y: nat, n: nat)
    requires |display| == DisplaySize && |memory| == MemorySize
    requires y < DisplayHeight && SpriteReadable(i, y, n)
    ensures Collides(display, memory, i, x, y, n) <==>
      exists k :: 0 <= k < DisplaySize && display[k] == 0xFF && Blit(display, memory, i, x, y, n)[k] == 0
  {
    exists k :: 0 <= k < DisplaySize && Flips(memory, i, x, y, n, k) && display[k] == 0xFF
  }

  /** The sprite origin: VF is cleared before Vx and Vy are read, so a
      sprite drawn at VF starts at column or row 0. */
  function Origin(v: seq<byte>, vx: nat, vy: nat): (o: (nat, nat))
    requires |v| == 16 && vx < 16 && vy < 16
    ensures o.0 < DisplayWidth && o.1 < DisplayHeight
  {
    var cleared := v[0xF := 0];
    (cleared[vx] % DisplayWidth, cleared[vy] % DisplayHeight)
  }

  // ---------------------------------------------------------------------
  // Execution

  /** The instructions that can panic: the unknown word, the return, the
      draw, the key tests and the instructions on I. */
  predicate MayTrap(op: OpCode) {
    op.Unkn? || op.Ret? || op.DrawVxVyN? || op.SkpVx? || op.SknpVx? || op.LdFVx?
    || op.AddIVx? || op.LdBVx? || op.LdIVx? || op.LdVxI?
  }

  /** The fault, if any, that executing `op` raises in `s` (whose `pc` is
      already past the instruction). The source panics at these points. */
  function Trap(s: State, op: OpCode): (r: Option<Fault>)
    requires s.Valid() && op.WellFormed()
    ensures r.Some? ==> match r.value
      case UnknownOpcode(w) => op == Unkn(w)
      case StackUnderflow => op.Ret? && s.stack == []
      case KeyOutOfRange(k) => (op.SkpVx? || op.SknpVx?) && k == s.v[op.x] && k >= 16
      case ArithmeticOverflow => op.LdFVx? || op.AddIVx?
      case MemoryOutOfRange => op.DrawVxVyN? || op.LdBVx? || op.LdIVx? || op.LdVxI?
      case _ => false
    ensures !MayTrap(op) ==> r.None?
  {
    match op
    case Unkn(w) => Some(UnknownOpcode(w))
    case Ret => if s.stack == [] then Some(StackUnderflow) else None
    case DrawVxVyN(vx, vy, n) =>
      var (x, y) := Origin(s.v, vx, vy);
      if SpriteReadable(s.i, y, n) then None else Some(MemoryOutOfRange)
    case SkpVx(x) => if s.v[x] < 16 then None else Some(KeyOutOfRange(s.v[x]))
    case SknpVx(x) => if s.v[x] < 16 then None else Some(KeyOutOfRange(s.v[x]))
    case LdFVx(x) => if s.v[x] * GlyphSize < 0x100 then None else Some(ArithmeticOverflow)
    case AddIVx(x) => if s.i + s.v[x] < 0x1_0000 then None else Some(ArithmeticOverflow)
    case LdBVx(_) => if s.i + 2 < MemorySize then None else Some(MemoryOutOfRange)
    case LdIVx(x) => if s.i + x < MemorySize then None else Some(MemoryOutOfRange)
    case LdVxI(x) => if s.i + x < MemorySize then None else Some(MemoryOutOfRange)
    case _ => None
  }

  /** Skip the next instruction when `cond` holds. */
  function SkipIf(s: State, cond: bool): (r: State)
    ensures r == s.(pc := r.pc)
    ensures r.pc == s.pc + 2 || r.pc == s.pc
    ensures r.pc == s.pc + 2 <==> cond
  {
    if cond then s.(pc := s.pc + 2) else s
  }

  /** The draw instruction: clear VF, blit, and set VF on a collision. */
  function Draw(s: State, vx: nat, vy: nat, n: nat): (r: State)
    requires s.Valid() && vx < 16 && vy < 16
    requires SpriteReadable(s.i, Origin(s.v, vx, vy).1, n)
    ensures r.Valid() && r == s.(display := r.display, v := s.v[0xF := r.v[0xF]])
    ensures r.v[0xF] == 0 || r.v[0xF] == 1
  {
    var (x, y) := Origin(s.v, vx, vy);
    s.(display := Blit(s.display, s.memory, s.i, x, y, n),
       v := s.v[0xF := if Collides(s.display, s.memory, s.i, x, y, n) then 1 else 0])
  }

  /** The memory after `LD B, Vx`: hundreds, tens and units at I, I+1, I+2. */
  function StoreBcd(memory: seq<byte>, i: nat, vx: byte): (m: seq<byte>)
    requires |memory| == MemorySize && i + 2 < MemorySize
    ensures |m| == MemorySize && m[i] < 10 && m[i + 1] < 10 && m[i + 2] < 10
    ensures 100 * (m[i] as int) + 10 * (m[i + 1] as int) + m[i + 2] == vx
    ensures forall k :: 0 <= k < MemorySize && !(i <= k <= i + 2) ==> m[k] == memory[k]
  {
    memory[i := vx / 100][i + 1 := (vx / 10) % 10][i + 2 := vx % 10]
  }

  /** The memory after `LD [I], Vx`: V0..Vx copied to I..I+x. */
  function StoreRegisters(memory: seq<byte>, v: seq<byte>, i: nat, x: nat): (m: seq<byte>)
    requires |memory| == MemorySize && |v| == 16 && x < 16 && i + x < MemorySize
    ensures |m| == MemorySize
    ensures forall k :: 0 <= k <= x ==> m[i + k] == v[k]
    ensures forall k :: 0 <= k < MemorySize && !(i <= k <= i + x) ==> m[k] == memory[k]
  {
    seq(MemorySize, k requires 0 <= k < MemorySize =>
      if i <= k <= i + x then v[k - i] else memory[k])
  }

  /** The registers after `LD Vx, [I]`: I..I+x copied to V0..Vx. */
  function LoadRegisters(v: seq<byte>, memory: seq<byte>, i: nat, x: nat): (r: seq<byte>)
    requires |memory| == MemorySize && |v| == 16 && x < 16 && i + x < MemorySize
    ensures |r| == 16
    ensures forall k :: 0 <= k <= x ==> r[k] == memory[i + k]
    ensures forall k :: x < k < 16 ==> r[k] == v[k]
  {
    seq(16, k requires 0 <= k < 16 => if k <= x then memory[i + k] else v[k])
  }

  /** Instructions that compute a register from registers, an immediate
      or the random byte. */
  predicate ArithmeticOp(op: OpCode) {
    op.LdVxNn? || op.AddVxNn? || op.LdVxVy? || op.OrVxVy? || op.AndVxVy? || op.XorVxVy?
    || op.AddVxVy? || op.SubVxVy? || op.SubnVxVy? || op.ShrVxVy? || op.ShlVxVy? || op.RndVxNn?
  }

  /** The register instructions that also write a flag into VF. */
  predicate FlagOp(op: OpCode) {
    op.AddVxVy? || op.SubVxVy? || op.SubnVxVy? || op.ShrVxVy? || op.ShlVxVy?
  }

  /** The register file after an arithmetic or logic instruction (the 6,
      7 and 8 families and `RND`); other instructions leave it alone. */
  function Arithmetic(v: seq<byte>, op: OpCode, rnd: byte): (r: seq<byte>)
    requires |v| == 16 && op.WellFormed()
    ensures |r| == 16
    ensures !ArithmeticOp(op) ==> r == v
    ensures ArithmeticOp(op) ==> forall j :: 0 <= j < 16 && j != op.x && j != 0xF ==> r[j] == v[j]
    ensures ArithmeticOp(op) && !FlagOp(op) ==> r == v[op.x := r[op.x]]
    ensures FlagOp(op) && !(op.ShlVxVy? && op.x == 0xF) ==> r[0xF] <= 1
  {
    if FlagOp(op) then Flagged(v, op)
    else if ArithmeticOp(op) then Unflagged(v, op, rnd)
    else v
  }

  /** Loads, immediate add, logic and random: only Vx is written. */
  function Unflagged(v: seq<byte>, op: OpCode, rnd: byte): (r: seq<byte>)
    requires |v| == 16 && op.WellFormed() && ArithmeticOp(op) && !FlagOp(op)
    ensures |r| == 16 && r == v[op.x := r[op.x]]
  {
    match op
    case LdVxNn(x, nn) => v[x := nn]
    case AddVxNn(x, nn) => v[x := (v[x] + nn) % 0x100]
    case LdVxVy(x, y) => v[x := v[y]]
    case OrVxVy(x, y) => v[x := BitOr(v[x], v[y])]
    case AndVxVy(x, y) => v[x := BitAnd(v[x], v[y])]
    case XorVxVy(x, y) => v[x := BitXor(v[x], v[y])]
    case RndVxNn(x, nn) => v[x := BitAnd(nn, rnd)]
  }

  /** Add, subtract and the shifts: Vx is written, then VF takes the flag,
      so VF wins when x is F; the shifts then shift Vx. */
  function Flagged(v: seq<byte>, op: OpCode): (r: seq<byte>)
    requires |v| == 16 && op.WellFormed() && FlagOp(op)
    ensures |r| == 16
    ensures forall j :: 0 <= j < 16 && j != op.x && j != 0xF ==> r[j] == v[j]
    ensures !(op.ShlVxVy? && op.x == 0xF) ==> r[0xF] <= 1
  {
    match op
    case AddVxVy(x, y) =>
      var sum := v[x] as int + v[y] as int;
      v[x := sum % 0x100][0xF := if sum > 0xFF then 1 else 0]
    case SubVxVy(x, y) =>
      var diff := v[x] as int - v[y] as int;
      v[x := diff % 0x100][0xF := if v[x] < v[y] then 1 else 0]
    case SubnVxVy(x, y) =>
      var diff := v[y] as int - v[x] as int;
      v[x := diff % 0x100][0xF := if v[y] < v[x] then 1 else 0]
    case ShrVxVy(x, y) =>
      var v1 := v[x := v[y]];
      var v2 := v1[0xF := v1[x] % 2];
      v2[x := v2[x] / 2]
    case ShlVxVy(x, y) =>
      var v1 := v[x := v[y]];
      var v2 := v1[0xF := v1[x] / 0x80];
      v2[x := (v2[x] as int * 2) % 0x100]
  }

  /** The instructions on the index register and on memory at I. */
  function IndexEffect(s: State, op: OpCode): (r: State)
    requires s.Valid() && op.WellFormed() && Trap(s, op).None?
    requires op.LdINn? || op.AddIVx? || op.LdFVx? || op.LdBVx? || op.LdIVx? || op.LdVxI?
    ensures r.Valid() && r == s.(memory := r.memory, v := r.v, i := r.i)
    ensures op.LdINn? || op.AddIVx? || op.LdFVx? ==> r == s.(i := r.i)
    ensures op.LdBVx? || op.LdIVx? ==> r == s.(memory := r.memory)
    ensures op.LdVxI? ==> r == s.(v := r.v)
    ensures op.AddIVx? ==> r.i == s.i + s.v[op.x] < 0x1_0000
    ensures op.LdFVx? ==> r.i < 0x100 && r.i % GlyphSize == 0 && r.i / GlyphSize == s.v[op.x]
  {
    match op
    case LdINn(nnn) => s.(i := nnn)
    case AddIVx(x) => s.(i := s.i + s.v[x])
    case LdFVx(x) => s.(i := s.v[x] * GlyphSize)
    case LdBVx(x) => s.(memory := StoreBcd(s.memory, s.i, s.v[x]))
    case LdIVx(x) => s.(memory := StoreRegisters(s.memory, s.v, s.i, x))
    case LdVxI(x) => s.(v := LoadRegisters(s.v, s.memory, s.i, x))
  }

  /** The effect of an instruction that does not fault. `s.pc` is already
      past the instruction. Only memory, display, registers, pc, I, the
      stack and the two timers can change. */
  function Effect(s: State, op: OpCode, rnd: byte): (r: State)
    requires s.Valid() && op.WellFormed() && Trap(s, op).None? && s.pc >= 2
    ensures r.Valid()
    ensures r.mode == s.mode && r.keys == s.keys && r.executionSpeed == s.executionSpeed
    ensures r.nextTick == s.nextTick && r.nextTimersTick == s.nextTimersTick
    ensures r.soundPlaying == s.soundPlaying
  {
    match op
    case Cls => s.(display := BlankDisplay())
    case Ret => s.(pc := s.stack[|s.stack| - 1], stack := s.stack[..|s.stack| - 1])
    case Jmp(nnn) => s.(pc := nnn)
    case Call(nnn) => s.(stack := s.stack + [s.pc], pc := nnn)
    case SeVxNn(x, nn) => SkipIf(s, s.v[x] == nn)
    case SneVxNn(x, nn) => SkipIf(s, s.v[x] != nn)
    case SeVxVy(x, y) => SkipIf(s, s.v[x] == s.v[y])
    case SneVxVy(x, y) => SkipIf(s, s.v[x] != s.v[y])
    case JmpV0Nnn(nnn) => s.(pc := nnn + s.v[0])
    case DrawVxVyN(vx, vy, n) => Draw(s, vx, vy, n)
    case SkpVx(x) => SkipIf(s, s.keys[s.v[x]])
    case SknpVx(x) => SkipIf(s, !s.keys[s.v[x]])
    case LdVxDt(x) => s.(v := s.v[x := s.dt])
    case LdVxK(x) =>
      (match FirstPressed(s.keys)
       case Some(key) => s.(v := s.v[x := key])
       case None => s.(pc := s.pc - 2))
    case LdDtVx(x) => s.(dt := s.v[x])
    case LdStVx(x) => s.(st := s.v[x])
    case LdINn(_) | AddIVx(_) | LdFVx(_) | LdBVx(_) | LdIVx(_) | LdVxI(_) => IndexEffect(s, op)
    case LdVxNn(_, _) | AddVxNn(_, _) | LdVxVy(_, _) | OrVxVy(_, _) | AndVxVy(_, _)
       | XorVxVy(_, _) | AddVxVy(_, _) | SubVxVy(_, _) | SubnVxVy(_, _)
       | ShrVxVy(_, _) | ShlVxVy(_, _) | RndVxNn(_, _) =>
      s.(v := Arithmetic(s.v, op, rnd))
    case Unkn(_) => assert false; s
  }

  /** Only `RND` reads the random byte. */
  lemma EffectIgnoresRandom(s: State, op: OpCode, rnd: byte)
    requires s.Valid() && op.WellFormed() && Trap(s, op).None? && s.pc >= 2 && !op.RndVxNn?
    ensures Effect(s, op, rnd) == Effect(s, op, 0)
  {
    if op.LdVxNn? || op.AddVxNn? || op.LdVxVy? || op.OrVxVy? || op.AndVxVy? || op.XorVxVy?
      || op.AddVxVy? || op.SubVxVy? || op.SubnVxVy? || op.ShrVxVy? || op.ShlVxVy? {
      assert Arithmetic(s.v, op, rnd) == Arithmetic(s.v, op, 0);
    }
  }

  /** Executing a decoded instruction at `s.pc`: the pc moves past it
      first, then the instruction faults or takes effect. */
  function Execute(s: State, op: OpCode, rnd: byte): (r: Result<State>)
    requires s.Valid() && op.WellFormed()
    ensures r.Ok? ==> r.value.Valid() && r.value.mode == s.mode && r.value.keys == s.keys
    ensures r.Ok? ==> r.value.executionSpeed == s.executionSpeed && r.value.soundPlaying == s.soundPlaying
    ensures r.Ok? ==> r.value.nextTick == s.nextTick && r.value.nextTimersTick == s.nextTimersTick
    ensures r.Err? ==> !r.fault.FetchOutOfRange? && !r.fault.ImageTooLarge?
  {
    var next := s.(pc := s.pc + 2);
    match Trap(next, op)
    case Some(f) => Err(f)
    case None => Ok(Effect(next, op, rnd))
  }

  /** The big-endian instruction word at `s.pc`. */
  function Fetch(s: State): (w: u16)
    requires s.Valid() && s.pc + 2 <= MemorySize
    ensures w / 0x100 == s.memory[s.pc] && w % 0x100 == s.memory[s.pc + 1]
  {
    var hi: int := s.memory[s.pc];
    hi * 0x100 + s.memory[s.pc + 1]
  }

  /** One instruction (`tick`): fetch, decode, execute. */
  function Tick(s: State, rnd: byte): (r: Result<State>)
    requires s.Valid()
    ensures r.Ok? ==> r.value.Valid()
  {
    if s.pc + 2 > MemorySize then Err(FetchOutOfRange(s.pc))
    else Execute(s, Decode(Fetch(s)), rnd)
  }

  /** Keeps `soundPlaying` in step with the sound timer. */
  function Sound(s: State): (r: State)
    ensures r == s.(soundPlaying := s.st > 0)
  {
    if s.st > 0 && !s.soundPlaying then s.(soundPlaying := true)
    else if s.st == 0 && s.soundPlaying then s.(soundPlaying := false)
    else s
  }

  function Decrement(t: byte): byte { if t > 0 then t - 1 else t }

  /** How long an instruction and a timer tick last at a given speed (in
      tenths). The source derives them from 1/700 s and 1/60 s divided by
      the speed; here they are supplied, and must be positive. */
  datatype Clock = Clock(instr: nat -> nat, timers: nat -> nat)
  {
    ghost predicate Positive() {
      forall speed :: instr(speed) > 0 && timers(speed) > 0
    }
  }

  /** One scheduling unit (`step_debug`): when the timers are due strictly
      before the next instruction they count down, otherwise one
      instruction runs; the deadline that was served moves on by its
      period at the current speed. */
  function StepDebug(s: State, clock: Clock, rnd: byte): (r: Result<State>)
    requires s.Valid()
    ensures r.Ok? ==> r.value.Valid() && r.value.executionSpeed == s.executionSpeed
    ensures r.Ok? ==>
      || (r.value.nextTimersTick == s.nextTimersTick + clock.timers(s.executionSpeed)
          && r.value.nextTick == s.nextTick)
      || (r.value.nextTick == s.nextTick + clock.instr(s.executionSpeed)
          && r.value.nextTimersTick == s.nextTimersTick)
    ensures r.Ok? ==> r.value.soundPlaying == (r.value.st > 0)
  {
    if s.nextTimersTick < s.nextTick then
      Ok(Sound(CountDown(s, clock.timers(s.executionSpeed))))
    else
      match Instruction(s, clock.instr(s.executionSpeed), rnd)
      case Err(f) => Err(f)
      case Ok(t) => Ok(Sound(t))
  }

  /** The timer unit: both timers move one step towards 0 and the timer
      deadline moves on by `period`. */
  function CountDown(s: State, period: nat): (r: State)
    requires s.Valid()
    ensures r.Valid() && r.st <= s.st && r.dt <= s.dt
    ensures r.nextTimersTick == s.nextTimersTick + period
    ensures r == s.(st := r.st, dt := r.dt, nextTimersTick := r.nextTimersTick)
  {
    s.(st := Decrement(s.st), dt := Decrement(s.dt), nextTimersTick := s.nextTimersTick + period)
  }

  /** The instruction unit: one instruction, then the instruction deadline
      moves on by `period`. */
  function Instruction(s: State, period: nat, rnd: byte): (r: Result<State>)
    requires s.Valid()
    ensures r.Ok? ==> r.value.Valid() && r.value.nextTick == s.nextTick + period
    ensures r.Ok? ==> r.value.nextTimersTick == s.nextTimersTick && r.value.executionSpeed == s.executionSpeed
  {
    match Tick(s, rnd)
    case Err(f) => Err(f)
    case Ok(t) => Ok(t.(nextTick := t.nextTick + period))
  }

  /** `Instruction` after a `tick` that succeeded or faulted. */
  lemma AdvanceOk(s: State, period: nat, rnd: byte, t: State)
    requires s.Valid() && Tick(s, rnd) == Ok(t)
    ensures Instruction(s, period, rnd) == Ok(t.(nextTick := t.nextTick + period))
  {
  }

  lemma AdvanceErr(s: State, period: nat, rnd: byte, f: Fault)
    requires s.Valid() && Tick(s, rnd) == Err(f)
    ensures Instruction(s, period, rnd) == Err(f)
  {
  }

  /** Both deadlines have passed at `now`. */
  predicate Behind(s: State, now: nat) {
    now > s.nextTick && now > s.nextTimersTick
  }

  /** `step_with_time` at instant `now`: scheduling units run while both
      deadlines lie before `now`; the k-th unit draws the random byte
      `rand(k)`. Ends with at least one deadline at or after `now`. */
  function CatchUp(s: State, now: nat, clock: Clock, rand: nat -> byte, k: nat): (r: Result<State>)
    requires s.Valid() && clock.Positive()
    ensures r.Ok? ==> r.value.Valid() && !Behind(r.value, now)
    ensures r.Ok? ==> r.value.executionSpeed == s.executionSpeed
    ensures r.Ok? ==> r.value.nextTick >= s.nextTick && r.value.nextTimersTick >= s.nextTimersTick
    decreases 2 * now - s.nextTick - s.nextTimersTick
  {
    if !Behind(s, now) then Ok(s)
    else
      match StepDebug(s, clock, rand(k))
      case Err(f) => Err(f)
      case Ok(t) => CatchUp(t, now, clock, rand, k + 1)
  }
}
