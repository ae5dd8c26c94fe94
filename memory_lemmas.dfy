/**
 * The instructions that use the index register I: BCD conversion, the
 * register block copies, the font lookup, and the faults when I points
 * past memory or overflows. Also what loading a program image produces.
 */
module MemoryLemmas {
  import opened Bytes
  import opened OpCodes
  import opened Machine

  /** The decimal digits of a byte, as `LD B, Vx` computes them. */
  lemma DecimalDigits(b: byte)
    ensures b / 100 < 10 && (b / 10) % 10 < 10 && b % 10 < 10
    ensures 100 * (b / 100) + 10 * ((b / 10) % 10) + b % 10 == b
  {
    var t := b / 10;
    assert b == 10 * t + b % 10;
    assert t / 10 == b / 100;
    assert t == 10 * (t / 10) + t % 10;
  }

  /** `LD B, Vx` writes the hundreds, tens and units of Vx at I, I+1 and
      I+2, each a decimal digit, and no other memory. */
  lemma StoreDecimal(s: State, x: nat, rnd: byte)
    requires s.Valid() && x < 16 && s.i + 2 < MemorySize
    ensures Execute(s, LdBVx(x), rnd) == Ok(s.(pc := s.pc + 2, memory := StoreBcd(s.memory, s.i, s.v[x])))
    ensures var r := s.(pc := s.pc + 2, memory := StoreBcd(s.memory, s.i, s.v[x]));
      && r.memory[s.i] < 10 && r.memory[s.i + 1] < 10 && r.memory[s.i + 2] < 10
      && 100 * r.memory[s.i] + 10 * r.memory[s.i + 1] + r.memory[s.i + 2] == s.v[x]
      && (forall k :: 0 <= k < MemorySize && !(s.i <= k <= s.i + 2) ==> r.memory[k] == s.memory[k])
      && r == s.(pc := s.pc + 2, memory := r.memory)
  {
    DecimalDigits(s.v[x]);
  }

  /** An illustration of `StoreDecimal` on one input: 157 is stored as
      the digits 1, 5, 7. */
  lemma StoreDecimalExample(s: State, rnd: byte)
    requires s.Valid() && s.v[3] == 157 && s.i == 0x300
    ensures Execute(s, LdBVx(3), rnd).Ok?
    ensures Execute(s, LdBVx(3), rnd).value.memory[0x300..0x303] == [1, 5, 7]
  {
  }

  /** `LD [I], Vx` copies V0..Vx to I..I+x and changes no other memory and
      no register. */
  lemma StoreRegisterBlock(s: State, x: nat, rnd: byte)
    requires s.Valid() && x < 16 && s.i + x < MemorySize
    ensures Execute(s, LdIVx(x), rnd).Ok?
    ensures var r := Execute(s, LdIVx(x), rnd).value;
      && (forall k :: 0 <= k <= x ==> r.memory[s.i + k] == s.v[k])
      && (forall k :: 0 <= k < MemorySize && !(s.i <= k <= s.i + x) ==> r.memory[k] == s.memory[k])
      && r == s.(pc := s.pc + 2, memory := r.memory)
  {
  }

  /** `LD Vx, [I]` copies I..I+x to V0..Vx and changes no other register
      and no memory. */
  lemma LoadRegisterBlock(s: State, x: nat, rnd: byte)
    requires s.Valid() && x < 16 && s.i + x < MemorySize
    ensures Execute(s, LdVxI(x), rnd).Ok?
    ensures var r := Execute(s, LdVxI(x), rnd).value;
      && (forall k :: 0 <= k <= x ==> r.v[k] == s.memory[s.i + k])
      && (forall k :: x < k < 16 ==> r.v[k] == s.v[k])
      && r == s.(pc := s.pc + 2, v := r.v)
  {
  }

  /** Storing V0..Vx and loading them back from the same place leaves the
      registers as they were. */
  lemma StoreThenLoad(s: State, x: nat, rnd: byte)
    requires s.Valid() && x < 16 && s.i + x < MemorySize
    ensures Execute(s, LdIVx(x), rnd).Ok?
    ensures var r := Execute(s, LdIVx(x), rnd).value;
      Execute(r, LdVxI(x), rnd).Ok? && Execute(r, LdVxI(x), rnd).value.v == s.v
  {
    StoreRegisterBlock(s, x, rnd);
    var r := Execute(s, LdIVx(x), rnd).value;
    LoadRegisterBlock(r, x, rnd);
    var t := Execute(r, LdVxI(x), rnd).value;
    assert forall k :: 0 <= k < 16 ==> t.v[k] == s.v[k];
  }

  /** The block copies fault when the block runs past the end of memory. */
  lemma BlockFault(s: State, x: nat, rnd: byte)
    requires s.Valid() && x < 16 && s.i + x >= MemorySize
    ensures Execute(s, LdIVx(x), rnd) == Err(MemoryOutOfRange)
    ensures Execute(s, LdVxI(x), rnd) == Err(MemoryOutOfRange)
  {
  }

  /** `LD B, Vx` faults when I + 2 is past the end of memory. */
  lemma DecimalFault(s: State, x: nat, rnd: byte)
    requires s.Valid() && x < 16 && s.i + 2 >= MemorySize
    ensures Execute(s, LdBVx(x), rnd) == Err(MemoryOutOfRange)
  {
  }

  /** `ADD I, Vx` adds without wrapping; a sum past 0xFFFF overflows the
      16-bit register and is fatal. */
  lemma AddIndex(s: State, x: nat, rnd: byte)
    requires s.Valid() && x < 16
    ensures s.i + s.v[x] < 0x1_0000 ==>
      Execute(s, AddIVx(x), rnd) == Ok(s.(pc := s.pc + 2, i := s.i + s.v[x]))
    ensures s.i + s.v[x] >= 0x1_0000 ==> Execute(s, AddIVx(x), rnd) == Err(ArithmeticOverflow)
  {
  }

  /** `LD F, Vx` points I at the glyph of digit Vx in a loaded font; the
      8-bit product `Vx * 5` overflows from Vx = 52 on. */
  lemma FontGlyph(s: State, x: nat, rnd: byte)
    requires s.Valid() && x < 16 && s.memory[..|Font|] == Font
    ensures s.v[x] < 16 ==> Execute(s, LdFVx(x), rnd).Ok?
    ensures s.v[x] < 16 ==>
      var r := Execute(s, LdFVx(x), rnd).value;
      && r == s.(pc := s.pc + 2, i := GlyphSize * s.v[x])
      && (forall k :: r.i <= k < r.i + GlyphSize ==> k < |Font| && r.memory[k] == Font[k])
    ensures s.v[x] >= 52 <==> Execute(s, LdFVx(x), rnd) == Err(ArithmeticOverflow)
  {
    forall j | 0 <= j < |Font|
      ensures s.memory[j] == Font[j]
    {
      assert s.memory[..|Font|][j] == s.memory[j];
    }
  }

  /** Loading puts the font at address 0 and the image at 0x200, clears
      every other byte, and changes nothing but memory; a too-long image
      is refused. */
  lemma LoadLayout(s: State, image: seq<byte>)
    requires s.Valid()
    ensures |image| > MemorySize - ProgramStart <==> Load(s, image) == Err(ImageTooLarge(|image|))
    ensures |image| <= MemorySize - ProgramStart ==>
      var r := Load(s, image).value;
      && r.Valid()
      && r == s.(memory := r.memory)
      && r.memory[..|Font|] == Font
      && r.memory[ProgramStart..ProgramStart + |image|] == image
      && (forall k :: |Font| <= k < ProgramStart ==> r.memory[k] == 0)
      && (forall k :: ProgramStart + |image| <= k < MemorySize ==> r.memory[k] == 0)
  {
    if |image| <= MemorySize - ProgramStart {
      var m := Load(s, image).value.memory;
      assert m[..|Font|] == Font;
      assert m[ProgramStart..ProgramStart + |image|] == image;
    }
  }

  /** A freshly built machine starts at 0x200 with blank memory, display,
      registers and keypad, an empty stack, both deadlines at `now`, and
      normal speed. */
  lemma InitialState(now: nat)
    ensures var s := Initial(now);
      && s.Valid() && s.pc == ProgramStart && s.stack == [] && s.i == 0
      && (forall k :: 0 <= k < MemorySize ==> s.memory[k] == 0)
      && (forall k :: 0 <= k < DisplaySize ==> s.display[k] == 0)
      && (forall k :: 0 <= k < 16 ==> s.v[k] == 0 && !s.keys[k])
      && s.nextTick == now && s.nextTimersTick == now && s.executionSpeed == 10
      && s.DisplayBinary()
  {
  }
}
