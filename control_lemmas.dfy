/**
 * Control flow of the interpreter: how each instruction moves the program
 * counter and the call stack, and which instructions are fatal.
 */
module ControlLemmas {
  import opened Bytes
  import opened OpCodes
  import opened Machine

  /** Instructions that never jump, skip, return or wait for a key. */
  predicate Sequential(op: OpCode) {
    !(op.Unkn? || op.Ret? || op.Jmp? || op.Call? || op.JmpV0Nnn? || Skips(op) || op.LdVxK?)
  }

  /** The conditional skips. */
  predicate Skips(op: OpCode) {
    op.SeVxNn? || op.SneVxNn? || op.SeVxVy? || op.SneVxVy? || op.SkpVx? || op.SknpVx?
  }

  /** An instruction that runs straight through moves the pc past itself
      and leaves the stack alone. */
  lemma SequentialAdvance(s: State, op: OpCode, rnd: byte)
    requires s.Valid() && op.WellFormed() && Sequential(op)
    requires Trap(s.(pc := s.pc + 2), op).None?
    ensures Execute(s, op, rnd).Ok?
    ensures Execute(s, op, rnd).value.pc == s.pc + 2
    ensures Execute(s, op, rnd).value.stack == s.stack
  {
  }

  /** A skip moves the pc by 4 exactly when its condition holds and by 2
      otherwise, and changes nothing else. */
  lemma SkipAdvance(s: State, op: OpCode, rnd: byte)
    requires s.Valid() && op.WellFormed() && Skips(op)
    requires (op.SkpVx? || op.SknpVx?) ==> s.v[op.x] < 16
    ensures Execute(s, op, rnd).Ok?
    ensures var r := Execute(s, op, rnd).value;
      && r == s.(pc := r.pc)
      && (r.pc == s.pc + 2 || r.pc == s.pc + 4)
      && (op.SeVxNn? ==> (r.pc == s.pc + 4 <==> s.v[op.x] == op.nn))
      && (op.SneVxNn? ==> (r.pc == s.pc + 4 <==> s.v[op.x] != op.nn))
      && (op.SeVxVy? ==> (r.pc == s.pc + 4 <==> s.v[op.x] == s.v[op.y]))
      && (op.SneVxVy? ==> (r.pc == s.pc + 4 <==> s.v[op.x] != s.v[op.y]))
      && (op.SkpVx? ==> (r.pc == s.pc + 4 <==> s.keys[s.v[op.x]]))
      && (op.SknpVx? ==> (r.pc == s.pc + 4 <==> !s.keys[s.v[op.x]]))
  {
  }

  /** Key tests index the keypad with Vx, which must be below 16. */
  lemma KeyIndexFault(s: State, op: OpCode, rnd: byte)
    requires s.Valid() && op.WellFormed() && (op.SkpVx? || op.SknpVx?)
    requires s.v[op.x] >= 16
    ensures Execute(s, op, rnd) == Err(KeyOutOfRange(s.v[op.x]))
  {
  }

  /** Jumps replace the pc and keep the stack. */
  lemma Jumps(s: State, nnn: nat, rnd: byte)
    requires s.Valid() && nnn < 0x1000
    ensures Execute(s, Jmp(nnn), rnd) == Ok(s.(pc := nnn))
    ensures Execute(s, JmpV0Nnn(nnn), rnd) == Ok(s.(pc := nnn + s.v[0]))
  {
  }

  /** `CALL` pushes the address of the following instruction and jumps;
      the matching `RET` resumes there with the stack as it was. */
  lemma CallThenReturn(s: State, nnn: nat, rnd: byte)
    requires s.Valid() && nnn < 0x1000
    ensures Execute(s, Call(nnn), rnd).Ok?
    ensures var c := Execute(s, Call(nnn), rnd).value;
      && c == s.(pc := nnn, stack := s.stack + [s.pc + 2])
      && Execute(c, Ret, rnd) == Ok(s.(pc := s.pc + 2))
  {
    var c := Execute(s, Call(nnn), rnd).value;
    assert c.stack[..|c.stack| - 1] == s.stack;
  }

  /** `RET` with an empty stack is fatal. */
  lemma ReturnUnderflow(s: State, rnd: byte)
    requires s.Valid() && s.stack == []
    ensures Execute(s, Ret, rnd) == Err(StackUnderflow)
  {
  }

  /** Executing an unknown instruction is fatal, whatever the state. */
  lemma UnknownFatal(s: State, w: nat, rnd: byte)
    requires s.Valid() && w < 0x1_0000
    ensures Execute(s, Unkn(w), rnd) == Err(UnknownOpcode(w))
  {
  }

  /** A fetched word that does not decode stops the machine with that word. */
  lemma TickUnknown(s: State, rnd: byte)
    requires s.Valid() && s.pc + 2 <= MemorySize && Decode(Fetch(s)).Unkn?
    ensures Tick(s, rnd) == Err(UnknownOpcode(Fetch(s)))
  {
  }

  /** The fetch needs both instruction bytes inside memory. */
  lemma FetchFault(s: State, rnd: byte)
    requires s.Valid() && s.pc + 2 > MemorySize
    ensures Tick(s, rnd) == Err(FetchOutOfRange(s.pc))
  {
  }

  /** `LD Vx, K` with no key down leaves the whole state as it was, so the
      same instruction runs again on the next tick. */
  lemma WaitForKeyIdle(s: State, x: nat, rnd: byte)
    requires s.Valid() && x < 16
    requires forall j :: 0 <= j < 16 ==> !s.keys[j]
    ensures Execute(s, LdVxK(x), rnd) == Ok(s)
  {
  }

  /** `LD Vx, K` with some key down stores the lowest pressed key. */
  lemma WaitForKeyPressed(s: State, x: nat, key: nat, rnd: byte)
    requires s.Valid() && x < 16 && key < 16 && s.keys[key]
    requires forall j :: 0 <= j < key ==> !s.keys[j]
    ensures Execute(s, LdVxK(x), rnd) == Ok(s.(pc := s.pc + 2, v := s.v[x := key]))
  {
  }
}
