/**
 * The register instructions: wrap-around, the VF flag of the 8XY_
 * family (including what happens when Vx is VF itself), and the timer and
 * random loads.
 */
module ArithmeticLemmas {
  import opened Bytes
  import opened OpCodes
  import opened Machine

  /** The state after a register instruction, which never faults. */
  function After(s: State, op: OpCode, rnd: byte): (r: State)
    requires s.Valid() && op.WellFormed()
    requires op.LdVxNn? || op.AddVxNn? || op.LdVxVy? || op.OrVxVy? || op.AndVxVy?
          || op.XorVxVy? || op.AddVxVy? || op.SubVxVy? || op.SubnVxVy? || op.ShrVxVy?
          || op.ShlVxVy? || op.RndVxNn? || op.LdVxDt? || op.LdDtVx? || op.LdStVx?
    ensures Execute(s, op, rnd) == Ok(r)
    ensures r.Valid() && r.pc == s.pc + 2
    ensures r == s.(pc := r.pc, v := r.v, dt := r.dt, st := r.st)
  {
    Execute(s, op, rnd).value
  }

  /** `ADD Vx, NN` wraps modulo 256 and touches no other register, so VF
      is left alone unless x is F. */
  lemma AddImmediate(s: State, x: nat, nn: nat, rnd: byte)
    requires s.Valid() && x < 16 && nn < 0x100
    ensures var r := After(s, AddVxNn(x, nn), rnd);
      && r.v[x] == (s.v[x] + nn) % 0x100
      && (forall j :: 0 <= j < 16 && j != x ==> r.v[j] == s.v[j])
      && r.dt == s.dt && r.st == s.st
  {
  }

  /** `ADD Vx, Vy` keeps the carry in VF: VF is 1 exactly when the sum
      exceeds 255, and together they hold the full sum. */
  lemma AddCarry(s: State, x: nat, y: nat, rnd: byte)
    requires s.Valid() && x < 16 && y < 16
    ensures var r := After(s, AddVxVy(x, y), rnd);
      && (r.v[0xF] == 1 <==> s.v[x] as int + s.v[y] > 0xFF)
      && (r.v[0xF] == 0 || r.v[0xF] == 1)
      && (x != 0xF ==> r.v[0xF] as int * 0x100 + r.v[x] == s.v[x] as int + s.v[y])
      && (forall j :: 0 <= j < 16 && j != x && j != 0xF ==> r.v[j] == s.v[j])
  {
  }

  /** `SUB Vx, Vy` sets VF to 1 on a borrow (Vx < Vy); Vx wraps. */
  lemma SubtractBorrow(s: State, x: nat, y: nat, rnd: byte)
    requires s.Valid() && x < 16 && y < 16
    ensures var r := After(s, SubVxVy(x, y), rnd);
      && (r.v[0xF] == 1 <==> s.v[x] < s.v[y])
      && (r.v[0xF] == 0 || r.v[0xF] == 1)
      && (x != 0xF ==> r.v[x] as int - r.v[0xF] as int * 0x100 == s.v[x] as int - s.v[y])
      && (forall j :: 0 <= j < 16 && j != x && j != 0xF ==> r.v[j] == s.v[j])
  {
  }

  /** `SUBN Vx, Vy` computes Vy - Vx with VF = 1 on a borrow (Vy < Vx). */
  lemma SubtractReversedBorrow(s: State, x: nat, y: nat, rnd: byte)
    requires s.Valid() && x < 16 && y < 16
    ensures var r := After(s, SubnVxVy(x, y), rnd);
      && (r.v[0xF] == 1 <==> s.v[y] < s.v[x])
      && (r.v[0xF] == 0 || r.v[0xF] == 1)
      && (x != 0xF ==> r.v[x] as int - r.v[0xF] as int * 0x100 == s.v[y] as int - s.v[x])
      && (forall j :: 0 <= j < 16 && j != x && j != 0xF ==> r.v[j] == s.v[j])
  {
  }

  /** `SHR Vx, Vy` copies Vy into Vx, puts the bit shifted out in VF and
      halves Vx: Vx and VF together give back Vy. */
  lemma ShiftRight(s: State, x: nat, y: nat, rnd: byte)
    requires s.Valid() && x < 16 && y < 16 && x != 0xF
    ensures var r := After(s, ShrVxVy(x, y), rnd);
      && 2 * r.v[x] as int + r.v[0xF] == s.v[y]
      && (r.v[0xF] == 0 || r.v[0xF] == 1)
      && (forall j :: 0 <= j < 16 && j != x && j != 0xF ==> r.v[j] == s.v[j])
  {
  }

  /** `SHL Vx, Vy` copies Vy into Vx, puts the top bit in VF and doubles
      Vx modulo 256: Vx and VF together give back twice Vy. */
  lemma ShiftLeft(s: State, x: nat, y: nat, rnd: byte)
    requires s.Valid() && x < 16 && y < 16 && x != 0xF
    ensures var r := After(s, ShlVxVy(x, y), rnd);
      && r.v[x] as int + 0x100 * r.v[0xF] as int == 2 * s.v[y] as int
      && (r.v[0xF] == 0 || r.v[0xF] == 1)
      && (forall j :: 0 <= j < 16 && j != x && j != 0xF ==> r.v[j] == s.v[j])
  {
  }

  /** Shifting into VF itself: the shift is applied after the flag is set,
      so `SHR VF, Vy` always leaves 0 and `SHL VF, Vy` leaves 0 or 2. */
  lemma ShiftIntoFlag(s: State, y: nat, rnd: byte)
    requires s.Valid() && y < 16
    ensures After(s, ShrVxVy(0xF, y), rnd).v[0xF] == 0
    ensures After(s, ShlVxVy(0xF, y), rnd).v[0xF] == if s.v[y] >= 0x80 then 2 else 0
  {
  }

  /** `XOR Vx, Vx` clears Vx; `AND Vx, Vx` and `OR Vx, Vx` leave it. */
  lemma LogicSelf(s: State, x: nat, rnd: byte)
    requires s.Valid() && x < 16
    ensures After(s, XorVxVy(x, x), rnd).v == s.v[x := 0]
    ensures After(s, AndVxVy(x, x), rnd).v == s.v
    ensures After(s, OrVxVy(x, x), rnd).v == s.v
  {
    XorSelf(s.v[x]);
    AndOrSelf(s.v[x]);
  }

  /** `RND Vx, NN` stores the random byte masked by NN, so the result
      never exceeds NN. */
  lemma RandomMasked(s: State, x: nat, nn: nat, rnd: byte)
    requires s.Valid() && x < 16 && nn < 0x100
    ensures var r := After(s, RndVxNn(x, nn), rnd);
      && r.v[x] <= nn && r.v[x] <= rnd
      && r.v == s.v[x := r.v[x]]
  {
  }

  /** Timer loads copy between Vx and the timers. */
  lemma TimerLoads(s: State, x: nat, rnd: byte)
    requires s.Valid() && x < 16
    ensures After(s, LdVxDt(x), rnd) == s.(pc := s.pc + 2, v := s.v[x := s.dt])
    ensures After(s, LdDtVx(x), rnd) == s.(pc := s.pc + 2, dt := s.v[x])
    ensures After(s, LdStVx(x), rnd) == s.(pc := s.pc + 2, st := s.v[x])
  {
  }
}
