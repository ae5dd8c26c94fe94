/**
 * The field-by-field difference between two machine states that the
 * debugger reports (`Chip8::compare`), as a list of changes rather than
 * formatted text.
 */
module Compare {
  import opened Bytes
  import opened Machine

  /** The three byte arrays that are compared cell by cell. */
  datatype Region = MemoryCells | DisplayCells | Registers

  /** One reported difference, in the order the report lists them. */
  datatype Change =
    | CellChange(region: Region, index: nat, before: byte, after: byte)
    | PcChange(pcBefore: nat, pcAfter: nat)
    | StChange(stBefore: byte, stAfter: byte)
    | DtChange(dtBefore: byte, dtAfter: byte)
    | IChange(iBefore: u16, iAfter: u16)
    | ModeChange(modeBefore: Mode, modeAfter: Mode)
    | TickChange(tickBefore: nat, tickAfter: nat)
    | TimersChange(timersBefore: nat, timersAfter: nat)
    | SoundChange(soundBefore: bool, soundAfter: bool)

  /** The cells from `from` on where `a` and `b` differ, by ascending
      index. */
  function CellChanges(region: Region, a: seq<byte>, b: seq<byte>, from: nat): (r: seq<Change>)
    requires |a| == |b| && from <= |a|
    ensures forall c :: c in r ==>
      && c.CellChange? && c.region == region && from <= c.index < |a|
      && c.before == a[c.index] && c.after == b[c.index] && c.before != c.after
    ensures forall k :: from <= k < |a| && a[k] != b[k] ==> CellChange(region, k, a[k], b[k]) in r
    ensures forall p, q :: 0 <= p < q < |r| ==> r[p].index < r[q].index
    decreases |a| - from
  {
    if from == |a| then []
    else
      var rest := CellChanges(region, a, b, from + 1);
      if a[from] != b[from] then [CellChange(region, from, a[from], b[from])] + rest else rest
  }

  /** A one-entry report when a scalar field differs. */
  function Differs<T(==)>(before: T, after: T, change: Change): seq<Change> {
    if before != after then [change] else []
  }

  /** `compare(a, b)`: memory, display and register cells, then pc, ST, DT,
      I, mode and the two deadlines and the sound flag. The stack, the
      keypad and the speed are not compared. */
  function Diff(a: State, b: State): (r: seq<Change>)
    requires a.Valid() && b.Valid()
    ensures r == [] <==> SameObserved(a, b)
  {
    ObservedCells(a, b);
    CellChanges(MemoryCells, a.memory, b.memory, 0)
    + CellChanges(DisplayCells, a.display, b.display, 0)
    + CellChanges(Registers, a.v, b.v, 0)
    + ScalarChanges(a, b)
  }

  /** The entries for pc, ST, DT, I, mode, the deadlines and the sound
      flag, in that order; none of them is a cell change. */
  function ScalarChanges(a: State, b: State): (r: seq<Change>)
    ensures forall c :: c in r ==> !c.CellChange?
    ensures r == [] <==>
      && a.pc == b.pc && a.st == b.st && a.dt == b.dt && a.i == b.i && a.mode == b.mode
      && a.nextTick == b.nextTick && a.nextTimersTick == b.nextTimersTick
      && a.soundPlaying == b.soundPlaying
  {
    Differs(a.pc, b.pc, PcChange(a.pc, b.pc))
    + Differs(a.st, b.st, StChange(a.st, b.st))
    + Differs(a.dt, b.dt, DtChange(a.dt, b.dt))
    + Differs(a.i, b.i, IChange(a.i, b.i))
    + Differs(a.mode, b.mode, ModeChange(a.mode, b.mode))
    + Differs(a.nextTick, b.nextTick, TickChange(a.nextTick, b.nextTick))
    + Differs(a.nextTimersTick, b.nextTimersTick, TimersChange(a.nextTimersTick, b.nextTimersTick))
    + Differs(a.soundPlaying, b.soundPlaying, SoundChange(a.soundPlaying, b.soundPlaying))
  }

  /** The fields the report looks at. */
  predicate SameObserved(a: State, b: State) {
    && a.memory == b.memory && a.display == b.display && a.v == b.v
    && a.pc == b.pc && a.st == b.st && a.dt == b.dt && a.i == b.i && a.mode == b.mode
    && a.nextTick == b.nextTick && a.nextTimersTick == b.nextTimersTick
    && a.soundPlaying == b.soundPlaying
  }

  /** Two equal byte arrays have no cell changes. */
  lemma NoCellChanges(region: Region, a: seq<byte>, b: seq<byte>)
    requires |a| == |b|
    ensures CellChanges(region, a, b, 0) == [] <==> a == b
  {
    var r := CellChanges(region, a, b, 0);
    if r != [] {
      assert r[0] in r;
    }
    if a != b {
      var k :| 0 <= k < |a| && a[k] != b[k];
      assert CellChange(region, k, a[k], b[k]) in r;
    }
  }

  /** The three cell regions report nothing exactly when they agree. */
  lemma ObservedCells(a: State, b: State)
    requires a.Valid() && b.Valid()
    ensures CellChanges(MemoryCells, a.memory, b.memory, 0) == [] <==> a.memory == b.memory
    ensures CellChanges(DisplayCells, a.display, b.display, 0) == [] <==> a.display == b.display
    ensures CellChanges(Registers, a.v, b.v, 0) == [] <==> a.v == b.v
  {
    NoCellChanges(MemoryCells, a.memory, b.memory);
    NoCellChanges(DisplayCells, a.display, b.display);
    NoCellChanges(Registers, a.v, b.v);
  }

  /** The report is empty exactly when every compared field agrees. */
  lemma DiffEmpty(a: State, b: State)
    requires a.Valid() && b.Valid()
    ensures Diff(a, b) == [] <==> SameObserved(a, b)
  {
  }

  /** A state compared with itself reports nothing. */
  lemma DiffSelf(a: State)
    requires a.Valid()
    ensures Diff(a, a) == []
  {
    DiffEmpty(a, a);
  }

  /** A cell is reported, with its old and new value, exactly when the two
      states differ there. */
  lemma DiffCells(a: State, b: State, region: Region, k: nat, before: byte, after: byte)
    requires a.Valid() && b.Valid()
    ensures var (xs, ys) := match region
        case MemoryCells => (a.memory, b.memory)
        case DisplayCells => (a.display, b.display)
        case Registers => (a.v, b.v);
      CellChange(region, k, before, after) in Diff(a, b) <==>
        k < |xs| && xs[k] != ys[k] && before == xs[k] && after == ys[k]
  {
  }

  /** The stack, the keypad and the speed do not affect the report. */
  lemma DiffIgnores(a: State, b: State, stack: seq<nat>, keys: seq<bool>, speed: nat)
    requires a.Valid() && b.Valid() && |keys| == 16
    ensures Diff(a, b) == Diff(a, b.(stack := stack, keys := keys, executionSpeed := speed))
    ensures Diff(a, b) == Diff(a.(stack := stack, keys := keys, executionSpeed := speed), b)
  {
  }
}
