/**
 * The display instructions: clearing, and the XOR sprite blit with its
 * clipping and collision flag.
 */
module DisplayLemmas {
  import opened Bytes
  import opened OpCodes
  import opened Machine

  /** `CLS` turns every cell off and changes nothing else. */
  lemma ClearScreen(s: State, rnd: byte)
    requires s.Valid()
    ensures Execute(s, Cls, rnd).Ok?
    ensures var r := Execute(s, Cls, rnd).value;
      && (forall k :: 0 <= k < DisplaySize ==> r.display[k] == 0)
      && r == s.(pc := s.pc + 2, display := r.display)
  {
  }

  /** The state after a draw that does not fault. */
  function Drawn(s: State, vx: nat, vy: nat, n: nat, rnd: byte): (r: State)
    requires s.Valid() && vx < 16 && vy < 16 && n < 16
    requires Trap(s.(pc := s.pc + 2), DrawVxVyN(vx, vy, n)).None?
    ensures Execute(s, DrawVxVyN(vx, vy, n), rnd) == Ok(r)
    ensures r.Valid() && r == s.(pc := s.pc + 2, display := r.display, v := r.v)
  {
    Execute(s, DrawVxVyN(vx, vy, n), rnd).value
  }

  /** Only cells inside the clipped sprite rectangle can change: the blit
      never wraps around an edge. */
  lemma DrawClipped(s: State, vx: nat, vy: nat, n: nat, rnd: byte)
    requires s.Valid() && vx < 16 && vy < 16 && n < 16
    requires Trap(s.(pc := s.pc + 2), DrawVxVyN(vx, vy, n)).None?
    ensures var (x, y) := Origin(s.v, vx, vy);
      forall k :: 0 <= k < DisplaySize && !Covers(x, y, n, Col(k), Row(k)) ==>
        Drawn(s, vx, vy, n, rnd).display[k] == s.display[k]
  {
  }

  /** A display whose cells are all 0 or 255 stays so. */
  lemma DrawKeepsBinary(s: State, vx: nat, vy: nat, n: nat, rnd: byte)
    requires s.Valid() && vx < 16 && vy < 16 && n < 16
    requires Trap(s.(pc := s.pc + 2), DrawVxVyN(vx, vy, n)).None?
    requires s.DisplayBinary()
    ensures Drawn(s, vx, vy, n, rnd).DisplayBinary()
  {
  }

  /** VF ends as 1 exactly when some lit cell was turned off, and 0
      otherwise; no register but VF changes. */
  lemma DrawCollision(s: State, vx: nat, vy: nat, n: nat, rnd: byte)
    requires s.Valid() && vx < 16 && vy < 16 && n < 16
    requires Trap(s.(pc := s.pc + 2), DrawVxVyN(vx, vy, n)).None?
    ensures var r := Drawn(s, vx, vy, n, rnd);
      && (r.v[0xF] == 1 <==> exists k :: 0 <= k < DisplaySize && s.display[k] == 0xFF && r.display[k] == 0)
      && (r.v[0xF] == 0 || r.v[0xF] == 1)
      && r.v == s.v[0xF := r.v[0xF]]
  {
    var r := Drawn(s, vx, vy, n, rnd);
    var (x, y) := Origin(s.v, vx, vy);
    if r.v[0xF] == 1 {
      var k :| 0 <= k < DisplaySize && Flips(s.memory, s.i, x, y, n, k) && s.display[k] == 0xFF;
      assert r.display[k] == 0;
    }
    if k :| 0 <= k < DisplaySize && s.display[k] == 0xFF && r.display[k] == 0 {
      assert Flips(s.memory, s.i, x, y, n, k);
    }
  }

  /** Drawing the same sprite twice in a row restores the display. The
      first draw rewrites VF, but VF is cleared before the coordinates are
      read, so both draws start at the same origin even when Vx or Vy is
      VF. */
  lemma DrawTwice(s: State, vx: nat, vy: nat, n: nat, rnd: byte)
    requires s.Valid() && vx < 16 && vy < 16 && n < 16
    requires Trap(s.(pc := s.pc + 2), DrawVxVyN(vx, vy, n)).None?
    ensures var r := Drawn(s, vx, vy, n, rnd);
      && Trap(r.(pc := r.pc + 2), DrawVxVyN(vx, vy, n)).None?
      && Drawn(r, vx, vy, n, rnd).display == s.display
  {
    var r := Drawn(s, vx, vy, n, rnd);
    assert Origin(r.v, vx, vy) == Origin(s.v, vx, vy);
  }

  /** An illustration of `DrawClipped` on one input: a sprite row of
      eight lit pixels drawn at column 60 lights columns 60 to 63 of its
      row and nothing on the left edge. */
  lemma DrawAtRightEdge(s: State, rnd: byte)
    requires s.Valid() && s.v[0] == 60 && s.v[1] == 0 && s.i < MemorySize
    requires s.memory[s.i] == 0xFF
    requires forall k :: 0 <= k < DisplaySize ==> s.display[k] == 0
    ensures Trap(s.(pc := s.pc + 2), DrawVxVyN(0, 1, 1)).None?
    ensures var r := Drawn(s, 0, 1, 1, rnd);
      && r.display[60] == 0xFF && r.display[63] == 0xFF
      && r.display[0] == 0 && r.display[64] == 0 && r.display[59] == 0
      && r.v[0xF] == 0
  {
    var r := Drawn(s, 0, 1, 1, rnd);
    assert Flips(s.memory, s.i, 60, 0, 1, 60);
    assert Flips(s.memory, s.i, 60, 0, 1, 63);
    assert !Flips(s.memory, s.i, 60, 0, 1, 0);
    assert !Flips(s.memory, s.i, 60, 0, 1, 64);
    assert !Flips(s.memory, s.i, 60, 0, 1, 59);
    DrawCollision(s, 0, 1, 1, rnd);
  }

  /** The draw faults when a sprite row that would be drawn lies past the
      end of memory. */
  lemma DrawFault(s: State, vx: nat, vy: nat, n: nat, rnd: byte)
    requires s.Valid() && vx < 16 && vy < 16 && n < 16
    requires var (x, y) := Origin(s.v, vx, vy); 0 < SpriteRows(y, n) && s.i + SpriteRows(y, n) > MemorySize
    ensures Execute(s, DrawVxVyN(vx, vy, n), rnd) == Err(MemoryOutOfRange)
  {
  }
}
