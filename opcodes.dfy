/**
 * The CHIP-8 instruction set as a closed sum type, the decoder from 16-bit
 * instruction words, and an encoder that inverts it on known instructions.
 */
module OpCodes {
  import opened Bytes

  /** One decoded instruction. `x`, `y` name registers V0..VF, `nn` is an
      8-bit immediate, `nnn` a 12-bit address, `n` a 4-bit sprite height. */
  datatype OpCode =
    | Unkn(word: nat)               // no known encoding
    | Cls                           // 00E0
    | Ret                           // 00EE
    | Jmp(nnn: nat)                 // 1NNN
    | Call(nnn: nat)                // 2NNN
    | SeVxNn(x: nat, nn: nat)       // 3XNN
    | SneVxNn(x: nat, nn: nat)      // 4XNN
    | SeVxVy(x: nat, y: nat)        // 5XY_
    | LdVxNn(x: nat, nn: nat)       // 6XNN
    | AddVxNn(x: nat, nn: nat)      // 7XNN
    | LdVxVy(x: nat, y: nat)        // 8XY0
    | OrVxVy(x: nat, y: nat)        // 8XY1
    | AndVxVy(x: nat, y: nat)       // 8XY2
    | XorVxVy(x: nat, y: nat)       // 8XY3
    | AddVxVy(x: nat, y: nat)       // 8XY4
    | SubVxVy(x: nat, y: nat)       // 8XY5
    | ShrVxVy(x: nat, y: nat)       // 8XY6
    | SubnVxVy(x: nat, y: nat)      // 8XY7
    | ShlVxVy(x: nat, y: nat)       // 8XYE
    | SneVxVy(x: nat, y: nat)       // 9XY_
    | LdINn(nnn: nat)               // ANNN
    | JmpV0Nnn(nnn: nat)            // BNNN
    | RndVxNn(x: nat, nn: nat)      // CXNN
    | DrawVxVyN(x: nat, y: nat, n: nat) // DXYN
    | SkpVx(x: nat)                 // EX9E
    | SknpVx(x: nat)                // EXA1
    | LdVxDt(x: nat)                // FX07
    | LdVxK(x: nat)                 // FX0A
    | LdDtVx(x: nat)                // FX15
    | LdStVx(x: nat)                // FX18
    | AddIVx(x: nat)                // FX1E
    | LdFVx(x: nat)                 // FX29
    | LdBVx(x: nat)                 // FX33
    | LdIVx(x: nat)                 // FX55
    | LdVxI(x: nat)                 // FX65
  {
    /** Every operand fits the field it is encoded in: registers and
        heights in a nibble, immediates in a byte, addresses in 12 bits. */
    predicate WellFormed() {
      match this
      case Unkn(word) => word < 0x1_0000
      case Cls => true
      case Ret => true
      case Jmp(nnn) => nnn < 0x1000
      case Call(nnn) => nnn < 0x1000
      case LdINn(nnn) => nnn < 0x1000
      case JmpV0Nnn(nnn) => nnn < 0x1000
      case SeVxNn(x, nn) => x < 16 && nn < 0x100
      case SneVxNn(x, nn) => x < 16 && nn < 0x100
      case LdVxNn(x, nn) => x < 16 && nn < 0x100
      case AddVxNn(x, nn) => x < 16 && nn < 0x100
      case RndVxNn(x, nn) => x < 16 && nn < 0x100
      case DrawVxVyN(x, y, n) => x < 16 && y < 16 && n < 16
      case SeVxVy(x, y) => x < 16 && y < 16
      case LdVxVy(x, y) => x < 16 && y < 16
      case OrVxVy(x, y) => x < 16 && y < 16
      case AndVxVy(x, y) => x < 16 && y < 16
      case XorVxVy(x, y) => x < 16 && y < 16
      case AddVxVy(x, y) => x < 16 && y < 16
      case SubVxVy(x, y) => x < 16 && y < 16
      case ShrVxVy(x, y) => x < 16 && y < 16
      case SubnVxVy(x, y) => x < 16 && y < 16
      case ShlVxVy(x, y) => x < 16 && y < 16
      case SneVxVy(x, y) => x < 16 && y < 16
      case SkpVx(x) => x < 16
      case SknpVx(x) => x < 16
      case LdVxDt(x) => x < 16
      case LdVxK(x) => x < 16
      case LdDtVx(x) => x < 16
      case LdStVx(x) => x < 16
      case AddIVx(x) => x < 16
      case LdFVx(x) => x < 16
      case LdBVx(x) => x < 16
      case LdIVx(x) => x < 16
      case LdVxI(x) => x < 16
    }
  }

  // Fields of an instruction word, as the masks and shifts of the decoder.
  function Family(w: u16): nat { w / 0x1000 }            // (w & 0xF000) >> 12
  function RegX(w: u16): nat { (w / 0x100) % 0x10 }      // (w & 0x0F00) >> 8
  function RegY(w: u16): nat { (w / 0x10) % 0x10 }       // (w & 0x00F0) >> 4
  function Nibble(w: u16): nat { w % 0x10 }              // w & 0x000F
  function LowByte(w: u16): nat { w % 0x100 }            // w & 0x00FF
  function Address(w: u16): nat { w % 0x1000 }           // w & 0x0FFF

  /** Decodes one instruction word. Decoding is total: a word with no
      known encoding becomes `Unkn` carrying the word. The secondary
      dispatch of family 8 is on the low nibble, of families E and F on
      the low byte; families 5 and 9 ignore the low nibble. */
  function Decode(w: u16): (op: OpCode)
    ensures op.WellFormed()
    ensures op.Unkn? ==> op.word == w
  {
    DecodeFields(w, Family(w), RegX(w), RegY(w), Nibble(w))
  }

  /** The dispatch of `Decode` on the four nibbles `f`, `x`, `y`, `n` of
      the word `w`; its low byte is `y * 0x10 + n`, its address part
      `x * 0x100 + y * 0x10 + n`. */
  function DecodeFields(w: u16, f: nat, x: nat, y: nat, n: nat): (op: OpCode)
    requires x < 16 && y < 16 && n < 16
    ensures op.WellFormed()
    ensures op.Unkn? ==> op.word == w
  {
    var nn, nnn := y * 0x10 + n, x * 0x100 + y * 0x10 + n;
    match f
    case 0x0 =>
      if w == 0x00EE then Ret
      else if w == 0x00E0 then Cls
      else Unkn(w)
    case 0x1 => Jmp(nnn)
    case 0x2 => Call(nnn)
    case 0x3 => SeVxNn(x, nn)
    case 0x4 => SneVxNn(x, nn)
    case 0x5 => SeVxVy(x, y)
    case 0x6 => LdVxNn(x, nn)
    case 0x7 => AddVxNn(x, nn)
    case 0x8 =>
      (match n
       case 0x0 => LdVxVy(x, y)
       case 0x1 => OrVxVy(x, y)
       case 0x2 => AndVxVy(x, y)
       case 0x3 => XorVxVy(x, y)
       case 0x4 => AddVxVy(x, y)
       case 0x5 => SubVxVy(x, y)
       case 0x6 => ShrVxVy(x, y)
       case 0x7 => SubnVxVy(x, y)
       case 0xE => ShlVxVy(x, y)
       case _ => Unkn(w))
    case 0x9 => SneVxVy(x, y)
    case 0xA => LdINn(nnn)
    case 0xB => JmpV0Nnn(nnn)
    case 0xC => RndVxNn(x, nn)
    case 0xD => DrawVxVyN(x, y, n)
    case 0xE =>
      if nn == 0x9E then SkpVx(x)
      else if nn == 0xA1 then SknpVx(x)
      else Unkn(w)
    case 0xF =>
      (match nn
       case 0x15 => LdDtVx(x)
       case 0x55 => LdIVx(x)
       case 0x65 => LdVxI(x)
       case 0x07 => LdVxDt(x)
       case 0x0A => LdVxK(x)
       case 0x18 => LdStVx(x)
       case 0x29 => LdFVx(x)
       case 0x33 => LdBVx(x)
       case 0x1E => AddIVx(x)
       case _ => Unkn(w))
    case _ => Unkn(w)
  }

  /** A word is its four nibbles. */
  lemma WordOfFields(w: u16)
    ensures Family(w) < 16 && RegX(w) < 16 && RegY(w) < 16 && Nibble(w) < 16
    ensures w == WordXyn(Family(w), RegX(w), RegY(w), Nibble(w))
    ensures LowByte(w) == RegY(w) * 0x10 + Nibble(w)
    ensures Address(w) == RegX(w) * 0x100 + RegY(w) * 0x10 + Nibble(w)
  {
    var n, a := w % 0x10, w / 0x10;
    var y, b := a % 0x10, a / 0x10;
    var x, c := b % 0x10, b / 0x10;
    assert w == a * 0x10 + n;
    assert a == b * 0x10 + y;
    assert b == c * 0x10 + x;
    assert w == c * 0x1000 + x * 0x100 + y * 0x10 + n;
    assert w / 0x100 == b;
    assert w / 0x1000 == c;
    assert w % 0x100 == y * 0x10 + n;
    assert w % 0x1000 == x * 0x100 + y * 0x10 + n;
  }

  // Assembling instruction words from their fields.
  function WordNnn(family: nat, nnn: nat): nat { family * 0x1000 + nnn }
  function WordXnn(family: nat, x: nat, nn: nat): nat { family * 0x1000 + x * 0x100 + nn }
  function WordXyn(family: nat, x: nat, y: nat, n: nat): nat {
    family * 0x1000 + x * 0x100 + y * 0x10 + n
  }

  /** The canonical instruction word of an opcode: 5XY_ and 9XY_ get a
      zero low nibble; `Unkn` gives back its word. */
  function Encode(op: OpCode): (w: u16)
    requires op.WellFormed()
  {
    match op
    case Unkn(word) => word
    case Cls => 0x00E0
    case Ret => 0x00EE
    case Jmp(nnn) => WordNnn(0x1, nnn)
    case Call(nnn) => WordNnn(0x2, nnn)
    case SeVxNn(x, nn) => WordXnn(0x3, x, nn)
    case SneVxNn(x, nn) => WordXnn(0x4, x, nn)
    case SeVxVy(x, y) => WordXyn(0x5, x, y, 0)
    case LdVxNn(x, nn) => WordXnn(0x6, x, nn)
    case AddVxNn(x, nn) => WordXnn(0x7, x, nn)
    case LdVxVy(x, y) => WordXyn(0x8, x, y, 0x0)
    case OrVxVy(x, y) => WordXyn(0x8, x, y, 0x1)
    case AndVxVy(x, y) => WordXyn(0x8, x, y, 0x2)
    case XorVxVy(x, y) => WordXyn(0x8, x, y, 0x3)
    case AddVxVy(x, y) => WordXyn(0x8, x, y, 0x4)
    case SubVxVy(x, y) => WordXyn(0x8, x, y, 0x5)
    case ShrVxVy(x, y) => WordXyn(0x8, x, y, 0x6)
    case SubnVxVy(x, y) => WordXyn(0x8, x, y, 0x7)
    case ShlVxVy(x, y) => WordXyn(0x8, x, y, 0xE)
    case SneVxVy(x, y) => WordXyn(0x9, x, y, 0)
    case LdINn(nnn) => WordNnn(0xA, nnn)
    case JmpV0Nnn(nnn) => WordNnn(0xB, nnn)
    case RndVxNn(x, nn) => WordXnn(0xC, x, nn)
    case DrawVxVyN(x, y, n) => WordXyn(0xD, x, y, n)
    case SkpVx(x) => WordXnn(0xE, x, 0x9E)
    case SknpVx(x) => WordXnn(0xE, x, 0xA1)
    case LdVxDt(x) => WordXnn(0xF, x, 0x07)
    case LdVxK(x) => WordXnn(0xF, x, 0x0A)
    case LdDtVx(x) => WordXnn(0xF, x, 0x15)
    case LdStVx(x) => WordXnn(0xF, x, 0x18)
    case AddIVx(x) => WordXnn(0xF, x, 0x1E)
    case LdFVx(x) => WordXnn(0xF, x, 0x29)
    case LdBVx(x) => WordXnn(0xF, x, 0x33)
    case LdIVx(x) => WordXnn(0xF, x, 0x55)
    case LdVxI(x) => WordXnn(0xF, x, 0x65)
  }

  /** The fields of an assembled word are the ones it was assembled from. */
  lemma FieldsOfWord(family: nat, x: nat, y: nat, n: nat)
    requires family < 16 && x < 16 && y < 16 && n < 16
    ensures var w := WordXyn(family, x, y, n);
      && w < 0x1_0000
      && Family(w) == family && RegX(w) == x && RegY(w) == y && Nibble(w) == n
      && LowByte(w) == y * 0x10 + n && Address(w) == x * 0x100 + y * 0x10 + n
  {
    var w := WordXyn(family, x, y, n);
    assert w == family * 0x1000 + (x * 0x100 + y * 0x10 + n);
    assert w / 0x100 == family * 0x10 + x;
    assert w / 0x10 == family * 0x100 + x * 0x10 + y;
  }

  /** Decoding an assembled word dispatches on the fields it was
      assembled from. */
  lemma DecodeWord(f: nat, x: nat, y: nat, n: nat)
    requires f < 16 && x < 16 && y < 16 && n < 16
    ensures WordXyn(f, x, y, n) < 0x1_0000
    ensures Decode(WordXyn(f, x, y, n)) == DecodeFields(WordXyn(f, x, y, n), f, x, y, n)
  {
    FieldsOfWord(f, x, y, n);
  }

  /** An address operand split into the three nibbles the decoder reads. */
  lemma SplitAddress(f: nat, nnn: nat) returns (x: nat, y: nat, n: nat)
    requires f < 16 && nnn < 0x1000
    ensures x < 16 && y < 16 && n < 16 && x * 0x100 + y * 0x10 + n == nnn
    ensures WordNnn(f, nnn) == WordXyn(f, x, y, n)
  {
    x, y, n := nnn / 0x100, nnn % 0x100 / 0x10, nnn % 0x10;
  }

  /** An immediate operand split into the two nibbles the decoder reads. */
  lemma SplitImmediate(f: nat, x: nat, nn: nat) returns (y: nat, n: nat)
    requires f < 16 && x < 16 && nn < 0x100
    ensures y < 16 && n < 16 && y * 0x10 + n == nn
    ensures WordXnn(f, x, nn) == WordXyn(f, x, y, n)
  {
    y, n := nn / 0x10, nn % 0x10;
  }

  lemma {:induction false} DecodeEncodeAddress(op: OpCode)
    requires op.WellFormed() && (op.Jmp? || op.Call? || op.LdINn? || op.JmpV0Nnn?)
    ensures Decode(Encode(op)) == op
  {
    var f := match op
      case Jmp(_) => 0x1
      case Call(_) => 0x2
      case LdINn(_) => 0xA
      case _ => 0xB;
    var x, y, n := SplitAddress(f, op.nnn);
    DecodeWord(f, x, y, n);
  }

  lemma {:induction false} DecodeEncodeImmediate(op: OpCode)
    requires op.WellFormed()
    requires op.SeVxNn? || op.SneVxNn? || op.LdVxNn? || op.AddVxNn? || op.RndVxNn?
    ensures Decode(Encode(op)) == op
  {
    var f := match op
      case SeVxNn(_, _) => 0x3
      case SneVxNn(_, _) => 0x4
      case LdVxNn(_, _) => 0x6
      case AddVxNn(_, _) => 0x7
      case _ => 0xC;
    var y, n := SplitImmediate(f, op.x, op.nn);
    DecodeWord(f, op.x, y, n);
  }

  lemma {:induction false} DecodeEncodeRegisters(op: OpCode)
    requires op.WellFormed()
    requires op.SeVxVy? || op.SneVxVy? || op.DrawVxVyN?
    ensures Decode(Encode(op)) == op
  {
    match op
    case SeVxVy(x, y) => DecodeWord(0x5, x, y, 0);
    case SneVxVy(x, y) => DecodeWord(0x9, x, y, 0);
    case DrawVxVyN(x, y, n) => DecodeWord(0xD, x, y, n);
  }

  lemma {:induction false} DecodeEncodeLogic(op: OpCode)
    requires op.WellFormed()
    requires op.LdVxVy? || op.OrVxVy? || op.AndVxVy? || op.XorVxVy?
    ensures Decode(Encode(op)) == op
  {
    match op
    case LdVxVy(x, y) =>
      DecodeWord(0x8, x, y, 0x0);
      assert DecodeFields(Encode(op), 0x8, x, y, 0x0) == op;
    case OrVxVy(x, y) =>
      DecodeWord(0x8, x, y, 0x1);
      assert DecodeFields(Encode(op), 0x8, x, y, 0x1) == op;
    case AndVxVy(x, y) =>
      DecodeWord(0x8, x, y, 0x2);
      assert DecodeFields(Encode(op), 0x8, x, y, 0x2) == op;
    case XorVxVy(x, y) =>
      DecodeWord(0x8, x, y, 0x3);
      assert DecodeFields(Encode(op), 0x8, x, y, 0x3) == op;
  }

  lemma {:induction false} DecodeEncodeArithmetic(op: OpCode)
    requires op.WellFormed()
    requires op.AddVxVy? || op.SubVxVy? || op.SubnVxVy?
    ensures Decode(Encode(op)) == op
  {
    match op
    case AddVxVy(x, y) =>
      DecodeWord(0x8, x, y, 0x4);
      assert DecodeFields(Encode(op), 0x8, x, y, 0x4) == op;
    case SubVxVy(x, y) =>
      DecodeWord(0x8, x, y, 0x5);
      assert DecodeFields(Encode(op), 0x8, x, y, 0x5) == op;
    case SubnVxVy(x, y) =>
      DecodeWord(0x8, x, y, 0x7);
      assert DecodeFields(Encode(op), 0x8, x, y, 0x7) == op;
  }

  lemma {:induction false} DecodeEncodeShifts(op: OpCode)
    requires op.WellFormed() && (op.ShrVxVy? || op.ShlVxVy?)
    ensures Decode(Encode(op)) == op
  {
    match op
    case ShrVxVy(x, y) =>
      DecodeWord(0x8, x, y, 0x6);
      assert DecodeFields(Encode(op), 0x8, x, y, 0x6) == op;
    case ShlVxVy(x, y) =>
      DecodeWord(0x8, x, y, 0xE);
      assert DecodeFields(Encode(op), 0x8, x, y, 0xE) == op;
  }

  lemma {:induction false} DecodeEncodeKeys(op: OpCode)
    requires op.WellFormed() && (op.SkpVx? || op.SknpVx?)
    ensures Decode(Encode(op)) == op
  {
    match op
    case SkpVx(x) =>
      assert Encode(op) == WordXyn(0xE, x, 0x9, 0xE);
      DecodeWord(0xE, x, 0x9, 0xE);
    case SknpVx(x) =>
      assert Encode(op) == WordXyn(0xE, x, 0xA, 0x1);
      DecodeWord(0xE, x, 0xA, 0x1);
  }

  lemma {:induction false} DecodeEncodeTimers(op: OpCode)
    requires op.WellFormed() && (op.LdVxDt? || op.LdDtVx? || op.LdStVx?)
    ensures Decode(Encode(op)) == op
  {
    match op
    case LdVxDt(x) =>
      assert Encode(op) == WordXyn(0xF, x, 0x0, 0x7);
      DecodeWord(0xF, x, 0x0, 0x7);
    case LdDtVx(x) =>
      assert Encode(op) == WordXyn(0xF, x, 0x1, 0x5);
      DecodeWord(0xF, x, 0x1, 0x5);
    case LdStVx(x) =>
      assert Encode(op) == WordXyn(0xF, x, 0x1, 0x8);
      DecodeWord(0xF, x, 0x1, 0x8);
  }

  lemma {:induction false} DecodeEncodeWaitIndex(op: OpCode)
    requires op.WellFormed() && (op.LdVxK? || op.AddIVx?)
    ensures Decode(Encode(op)) == op
  {
    match op
    case LdVxK(x) =>
      assert Encode(op) == WordXyn(0xF, x, 0x0, 0xA);
      DecodeWord(0xF, x, 0x0, 0xA);
    case AddIVx(x) =>
      assert Encode(op) == WordXyn(0xF, x, 0x1, 0xE);
      DecodeWord(0xF, x, 0x1, 0xE);
  }

  lemma {:induction false} DecodeEncodeFontDecimal(op: OpCode)
    requires op.WellFormed() && (op.LdFVx? || op.LdBVx?)
    ensures Decode(Encode(op)) == op
  {
    match op
    case LdFVx(x) =>
      assert Encode(op) == WordXyn(0xF, x, 0x2, 0x9);
      DecodeWord(0xF, x, 0x2, 0x9);
    case LdBVx(x) =>
      assert Encode(op) == WordXyn(0xF, x, 0x3, 0x3);
      DecodeWord(0xF, x, 0x3, 0x3);
  }

  lemma {:induction false} DecodeEncodeBlock(op: OpCode)
    requires op.WellFormed() && (op.LdIVx? || op.LdVxI?)
    ensures Decode(Encode(op)) == op
  {
    match op
    case LdIVx(x) =>
      assert Encode(op) == WordXyn(0xF, x, 0x5, 0x5);
      DecodeWord(0xF, x, 0x5, 0x5);
    case LdVxI(x) =>
      assert Encode(op) == WordXyn(0xF, x, 0x6, 0x5);
      DecodeWord(0xF, x, 0x6, 0x5);
  }

  lemma {:induction false} DecodeEncode(op: OpCode)
    requires op.WellFormed() && !op.Unkn?
    ensures Decode(Encode(op)) == op
  {
    if op.Cls? || op.Ret? {
      DecodeWord(0, 0, 0xE, if op.Cls? then 0 else 0xE);
    } else if op.Jmp? || op.Call? || op.LdINn? || op.JmpV0Nnn? {
      DecodeEncodeAddress(op);
    } else if op.SeVxNn? || op.SneVxNn? || op.LdVxNn? || op.AddVxNn? || op.RndVxNn? {
      DecodeEncodeImmediate(op);
    } else if op.SkpVx? || op.SknpVx? {
      DecodeEncodeKeys(op);
    } else if op.LdVxDt? || op.LdDtVx? || op.LdStVx? {
      DecodeEncodeTimers(op);
    } else if op.LdVxK? || op.AddIVx? {
      DecodeEncodeWaitIndex(op);
    } else if op.LdFVx? || op.LdBVx? {
      DecodeEncodeFontDecimal(op);
    } else if op.LdIVx? || op.LdVxI? {
      DecodeEncodeBlock(op);
    } else if op.SeVxVy? || op.SneVxVy? || op.DrawVxVyN? {
      DecodeEncodeRegisters(op);
    } else if op.LdVxVy? || op.OrVxVy? || op.AndVxVy? || op.XorVxVy? {
      DecodeEncodeLogic(op);
    } else if op.ShrVxVy? || op.ShlVxVy? {
      DecodeEncodeShifts(op);
    } else {
      DecodeEncodeArithmetic(op);
    }
  }

  /** A word decodes to `Unkn` exactly when it is a 0NNN word other than
      00E0 and 00EE, an 8XY_ word whose low nibble is not 0..7 or E, or an
      E or F word whose low byte is not one of the listed ones. */
  lemma UnknownWords(w: u16)
    ensures Decode(w).Unkn? <==>
      || (Family(w) == 0x0 && w != 0x00E0 && w != 0x00EE)
      || (Family(w) == 0x8 && !(Nibble(w) <= 7 || Nibble(w) == 0xE))
      || (Family(w) == 0xE && LowByte(w) != 0x9E && LowByte(w) != 0xA1)
      || (Family(w) == 0xF && LowByte(w) !in {0x07, 0x0A, 0x15, 0x18, 0x1E, 0x29, 0x33, 0x55, 0x65})
  {
    var f, x, y, n := Family(w), RegX(w), RegY(w), Nibble(w);
    assert f < 16 && x < 16 && y < 16 && n < 16 && LowByte(w) == y * 0x10 + n by {
      WordOfFields(w);
    }
    UnknownFields(w, f, x, y, n);
  }

  lemma UnknownFields(w: u16, f: nat, x: nat, y: nat, n: nat)
    requires f < 16 && x < 16 && y < 16 && n < 16
    ensures DecodeFields(w, f, x, y, n).Unkn? <==>
      || (f == 0x0 && w != 0x00E0 && w != 0x00EE)
      || (f == 0x8 && !(n <= 7 || n == 0xE))
      || (f == 0xE && y * 0x10 + n != 0x9E && y * 0x10 + n != 0xA1)
      || (f == 0xF && y * 0x10 + n !in {0x07, 0x0A, 0x15, 0x18, 0x1E, 0x29, 0x33, 0x55, 0x65})
  {
  }

  /** Re-encoding a decoded word gives the word back, except that 5XY_ and
      9XY_ words lose their low nibble: the decoder does not look at it. */
  lemma {:induction false} EncodeDecode(w: u16)
    ensures Encode(Decode(w)) == if Family(w) == 0x5 || Family(w) == 0x9 then w - Nibble(w) else w
  {
    WordOfFields(w);
    var f, x, y, n := Family(w), RegX(w), RegY(w), Nibble(w);
    if f == 0x5 || f == 0x9 {
      DecodeWord(f, x, y, 0);
    } else if f in {0x1, 0x2, 0xA, 0xB} {
      EncodeDecodeAddress(w);
    } else if f in {0x3, 0x4, 0x6, 0x7, 0xC, 0xE, 0xF} {
      EncodeDecodeImmediate(w);
    } else {
      EncodeDecodeNibbles(w);
    }
  }

  /** `EncodeDecode` for the families with an address operand. */
  lemma EncodeDecodeAddress(w: u16)
    requires Family(w) in {0x1, 0x2, 0xA, 0xB}
    ensures Encode(Decode(w)) == w
  {
    WordOfFields(w);
    var x', y', n' := SplitAddress(Family(w), Address(w));
  }

  /** `EncodeDecode` for the families whose low byte is one field. */
  lemma EncodeDecodeImmediate(w: u16)
    requires Family(w) in {0x3, 0x4, 0x6, 0x7, 0xC, 0xE, 0xF}
    ensures Encode(Decode(w)) == w
  {
    WordOfFields(w);
    var y', n' := SplitImmediate(Family(w), RegX(w), LowByte(w));
  }

  /** `EncodeDecode` for families 0, 8 and D. */
  lemma EncodeDecodeNibbles(w: u16)
    requires Family(w) in {0x0, 0x8, 0xD}
    ensures Encode(Decode(w)) == w
  {
    WordOfFields(w);
  }

  /** Words that differ only in the low nibble of families 5 and 9 decode
      to the same instruction. */
  lemma IgnoredNibble(w: u16, w': u16)
    requires Family(w) == Family(w') && (Family(w) == 0x5 || Family(w) == 0x9)
    requires RegX(w) == RegX(w') && RegY(w) == RegY(w')
    ensures Decode(w) == Decode(w')
  {
  }
}
