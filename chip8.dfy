/**
  The CHIP-8 virtual CPU `Chip8::CPU`: its state, construction, program loading and the
  fetch / decode / execute cycle.

  In this snapshot of the CPU only op00E0 has a body; the other 33 handlers are empty, so
  executing them changes nothing. The dispatch tables live in the CPU and are filled by
  SetFunctions (see module Dispatch).
 */
module Chip8 {
  import opened Optional
  import opened Words
  import opened Font
  import opened Dispatch

  /** Size of the address space. */
  const MemorySize := 4096
  /** Address at which programs are loaded and at which the program counter starts. */
  const ProgramStart := 0x200
  /** Largest program image that fits between ProgramStart and the end of memory. */
  const MaxImage := MemorySize - ProgramStart
  /** Number of V registers. */
  const RegisterCount := 16
  /** Number of call-stack entries. */
  const StackDepth := 16
  /** Display width and height in pixels; the buffer is row-major, one byte per pixel. */
  const DisplayWidth := 64
  const DisplayHeight := 32
  const DisplayCells := DisplayWidth * DisplayHeight
  /** Number of keypad entries. */
  const KeyCount := 16

  /** The fixed sizes fit together: font below the program area, a 64 x 32 display. */
  lemma LayoutFacts()
    ensures FontBytes <= ProgramStart < MemorySize
    ensures MaxImage == 3584
    ensures DisplayCells == 2048
  {
  }

  /** The whole machine state as values. */
  datatype State = State(
    memory: seq<Byte>,
    v: seq<Byte>,
    stack: seq<Word>,
    pc: Word,
    index: Word,
    sp: Word,
    opcode: Word,
    delayTimer: Byte,
    soundTimer: Byte,
    gfx: seq<Byte>,
    key: seq<Byte>,
    drawFlag: bool)
  {
    /** The fixed sizes of the CPU's arrays. */
    ghost predicate Valid() {
      |memory| == MemorySize && |v| == RegisterCount && |stack| == StackDepth
      && |gfx| == DisplayCells && |key| == KeyCount
    }
  }

  /** The display with every pixel off. */
  function Blank(): (b: seq<Byte>)
    ensures |b| == DisplayCells
  {
    Repeat(0, DisplayCells)
  }

  /** Memory right after construction: the font at 0x000-0x04F and zero everywhere else. */
  function BootMemory(): (m: seq<Byte>)
    ensures |m| == MemorySize
    ensures m[..FontBytes] == FontSet()
    ensures forall i :: FontBytes <= i < MemorySize ==> m[i] == 0
  {
    FontSet() + Repeat(0, MemorySize - FontBytes)
  }

  /** The state the constructor establishes. */
  function Boot(): (s: State)
    ensures s.Valid()
  {
    State(BootMemory(), Repeat(0, RegisterCount), Repeat(0, StackDepth),
          ProgramStart as Word, 0, 0, 0, 0, 0, Blank(), Repeat(0, KeyCount), false)
  }

  /**
    The opcode stored big-endian at pc: memory[pc] is its high byte and memory[pc + 1] its
    low byte (`(_memory[pc] << 8) | _memory[pc + 1]`).
   */
  function FetchWord(memory: seq<Byte>, pc: Word): (op: Word)
    requires pc as int + 1 < |memory|
    ensures op as int / 0x100 == memory[pc] as int
    ensures op as int % 0x100 == memory[pc as int + 1] as int
  {
    (memory[pc] as int * 0x100 + memory[pc as int + 1] as int) as Word
  }

  /**
    Memory after copying a program image to ProgramStart: byte i of the image lands at
    ProgramStart + i and every other address keeps its value.
   */
  function Loaded(memory: seq<Byte>, image: seq<Byte>): (m: seq<Byte>)
    requires |memory| == MemorySize && |image| <= MaxImage
    ensures |m| == MemorySize
    ensures forall i :: 0 <= i < |image| ==> m[ProgramStart + i] == image[i]
    ensures forall a :: 0 <= a < MemorySize && !(ProgramStart <= a < ProgramStart + |image|) ==>
              m[a] == memory[a]
  {
    memory[..ProgramStart] + image + memory[ProgramStart + |image|..]
  }

  /**
    The effect of running handler h. op00E0 clears the display; the other 33 handlers have
    empty bodies and leave the state as it is. op00E0 does not set drawFlag.
   */
  function Perform(h: Handler, s: State): (t: State)
    requires s.Valid()
    ensures t.Valid()
    ensures t.(gfx := s.gfx) == s
    ensures h == Op00E0 ==> t.gfx == Blank()
    ensures h != Op00E0 ==> t == s
  {
    if h == Op00E0 then s.(gfx := Blank()) else s
  }

  /**
    The handlers as written: all 34 leave the state unchanged. op00E0's loop zeroes a
    by-value copy of each display cell (`for each (auto var in gfx) var = 0;`), never the
    cell itself, so it too is a no-op. Perform is the intended behaviour the rest of the
    model uses.
   */
  function PerformAsWritten(h: Handler, s: State): (t: State)
    requires s.Valid()
    ensures t.Valid()
  {
    s
  }

  /**
    On a display with a lit pixel p, op00E0 as written leaves p lit, so the screen is not
    cleared; the intended op00E0 turns p off.
   */
  lemma ClearAsWrittenKeepsPixels(s: State, p: nat)
    requires s.Valid() && p < DisplayCells && s.gfx[p] != 0
    ensures PerformAsWritten(Op00E0, s).gfx[p] == s.gfx[p]
    ensures PerformAsWritten(Op00E0, s).gfx != Blank()
    ensures Perform(Op00E0, s).gfx[p] == 0
  {
  }

  /**
    One emulateCycle: fetch the opcode at pc, advance pc by 2 (as an unsigned short), then run
    the handler the installed tables dispatch it to. None when the source's behaviour is
    undefined: the fetch would read past the end of memory, or the dispatch would call
    through a null slot.
   */
  function Cycle(s: State): (r: Option<State>)
    requires s.Valid()
    ensures r.Some? <==> s.pc as int + 1 < MemorySize && Decode(FetchWord(s.memory, s.pc)).Some?
    ensures r.Some? ==> r.value.Valid()
    ensures r.Some? ==> r.value.opcode == FetchWord(s.memory, s.pc)
    ensures r.Some? ==> r.value.pc as int == s.pc as int + 2
    ensures r.Some? ==> r.value.(opcode := s.opcode, pc := s.pc, gfx := s.gfx) == s
    ensures r.Some? ==> r.value.gfx == if Decode(r.value.opcode) == Some(Op00E0) then Blank() else s.gfx
  {
    if s.pc as int + 1 >= MemorySize then None
    else
      var op := FetchWord(s.memory, s.pc);
      match Decode(op)
      case None => None
      case Some(h) => Some(Perform(h, s.(opcode := op, pc := WrapAdd(s.pc, 2))))
  }

  /**
    n consecutive cycles, as the driver calls emulateCycle; None if any of them is undefined.
    Because the handlers are stubs, n cycles only move pc forward by 2n and update the opcode
    and possibly the display: memory, registers, stack, timers, keys and drawFlag are as before.
   */
  function Run(s: State, n: nat): (r: Option<State>)
    requires s.Valid()
    ensures r.Some? ==> r.value.Valid()
    ensures r.Some? ==> r.value.pc as int == s.pc as int + 2 * n
    ensures r.Some? ==> r.value.(opcode := s.opcode, pc := s.pc, gfx := s.gfx) == s
    ensures r.Some? ==> r.value.gfx == s.gfx || r.value.gfx == Blank()
    decreases n
  {
    if n == 0 then Some(s)
    else match Cycle(s)
      case None => None
      case Some(t) => Run(t, n - 1)
  }

  /**
    Whether cycle k of a run from s fetches an op00E0, that is, an opcode whose dispatch
    position is op00E0's (memory is the same in every cycle).
   */
  ghost predicate StepClears(s: State, k: nat) {
    var a := s.pc as int + 2 * k;
    a + 1 < |s.memory| && a < 0x1_0000 && DispatchKey(FetchWord(s.memory, a as Word)) == KeyOf(Op00E0)
  }

  /** Cycle k + 1 from s is cycle k from the state one cycle later. */
  lemma StepClearsShift(s: State, t: State, k: nat)
    requires t.memory == s.memory && t.pc as int == s.pc as int + 2
    ensures StepClears(t, k) == StepClears(s, k + 1)
  {
    assert t.pc as int + 2 * k == s.pc as int + 2 * (k + 1);
  }

  /** The first cycle from s fetches an op00E0 exactly when the opcode it leaves behind decodes to one. */
  lemma StepClearsFirst(s: State, t: State)
    requires s.Valid() && Cycle(s) == Some(t)
    ensures StepClears(s, 0) <==> Decode(t.opcode) == Some(Op00E0)
  {
    DecodeByKey(t.opcode, Op00E0);
  }

  /**
    One step of RunDisplay: if the first cycle leaves the display as StepClears(s, 0) says and
    the remaining n - 1 cycles leave it as their own StepClears say, the whole run does too.
   */
  lemma DisplayAfterStep(s: State, t: State, n: nat, g: seq<Byte>)
    requires n > 0 && t.memory == s.memory && t.pc as int == s.pc as int + 2
    requires t.gfx == if StepClears(s, 0) then Blank() else s.gfx
    requires g == if exists k :: 0 <= k < n - 1 && StepClears(t, k) then Blank() else t.gfx
    ensures g == if exists k :: 0 <= k < n && StepClears(s, k) then Blank() else s.gfx
  {
    if exists k :: 0 <= k < n - 1 && StepClears(t, k) {
      var k :| 0 <= k < n - 1 && StepClears(t, k);
      StepClearsShift(s, t, k);
    } else if exists k :: 0 <= k < n && StepClears(s, k) {
      var k :| 0 <= k < n && StepClears(s, k);
      if k != 0 {
        StepClearsShift(s, t, k - 1);
        assert false;
      }
    }
  }

  /**
    After n defined cycles the display is blank if one of the cycles fetched an op00E0, and
    otherwise exactly as it was: the 33 empty handlers never touch it.
   */
  lemma {:induction false} RunDisplay(s: State, n: nat)
    requires s.Valid() && Run(s, n).Some?
    ensures Run(s, n).value.gfx ==
              if exists k :: 0 <= k < n && StepClears(s, k) then Blank() else s.gfx
    decreases n
  {
    if n > 0 {
      var t := Cycle(s).value;
      assert Run(s, n) == Run(t, n - 1);
      RunDisplay(t, n - 1);
      StepClearsFirst(s, t);
      DisplayAfterStep(s, t, n, Run(s, n).value.gfx);
    }
  }

  /** Loading writes exactly the image: reading the program area back gives the image. */
  lemma LoadedReadBack(memory: seq<Byte>, image: seq<Byte>)
    requires |memory| == MemorySize && |image| <= MaxImage
    ensures Loaded(memory, image)[ProgramStart..ProgramStart + |image|] == image
  {
  }

  /** Loading never touches the font. */
  lemma LoadKeepsFont(memory: seq<Byte>, image: seq<Byte>)
    requires |memory| == MemorySize && |image| <= MaxImage
    ensures Loaded(memory, image)[..FontBytes] == memory[..FontBytes]
  {
  }

  /** Loading an empty image changes nothing, as when the ROM file cannot be opened. */
  lemma LoadEmpty(memory: seq<Byte>)
    requires |memory| == MemorySize
    ensures Loaded(memory, []) == memory
  {
  }

  /** The byte at address a after a load: from the image inside its range, else unchanged. */
  lemma LoadedAt(memory: seq<Byte>, image: seq<Byte>, a: nat)
    requires |memory| == MemorySize && |image| <= MaxImage && a < MemorySize
    ensures Loaded(memory, image)[a] ==
              if ProgramStart <= a < ProgramStart + |image| then image[a - ProgramStart] else memory[a]
  {
    if ProgramStart <= a < ProgramStart + |image| {
      var i := a - ProgramStart;
      assert Loaded(memory, image)[ProgramStart + i] == image[i];
    }
  }

  /**
    A second load at least as long as the first overwrites all of it: the result is as if
    only the second image had been loaded.
   */
  lemma LoadLongerOverShorter(memory: seq<Byte>, first: seq<Byte>, second: seq<Byte>)
    requires |memory| == MemorySize && |first| <= |second| <= MaxImage
    ensures Loaded(Loaded(memory, first), second) == Loaded(memory, second)
  {
    var once := Loaded(memory, first);
    var twice := Loaded(once, second);
    var direct := Loaded(memory, second);
    forall a | 0 <= a < MemorySize
      ensures twice[a] == direct[a]
    {
      LoadedAt(memory, first, a);
      LoadedAt(once, second, a);
      LoadedAt(memory, second, a);
    }
  }

  /**
    A shorter second load overwrites the first only where they overlap and leaves the tail of
    the first image in place: memory above the loaded length is not cleared.
   */
  lemma LoadShorterOverLonger(memory: seq<Byte>, first: seq<Byte>, second: seq<Byte>)
    requires |memory| == MemorySize && |second| < |first| <= MaxImage
    ensures Loaded(Loaded(memory, first), second) == Loaded(memory, second + first[|second|..])
  {
    var once := Loaded(memory, first);
    var twice := Loaded(once, second);
    var merged := second + first[|second|..];
    var direct := Loaded(memory, merged);
    forall a | 0 <= a < MemorySize
      ensures twice[a] == direct[a]
    {
      LoadedAt(memory, first, a);
      LoadedAt(once, second, a);
      LoadedAt(memory, merged, a);
    }
  }

  /** The first cycle after booting and loading an image fetches the image's first two bytes. */
  lemma BootLoadFetch(image: seq<Byte>)
    requires 2 <= |image| <= MaxImage
    ensures FetchWord(Loaded(BootMemory(), image), ProgramStart as Word) as int
              == image[0] as int * 0x100 + image[1] as int
  {
  }

  /** The CPU object; its arrays are the fixed-size `std::array` members of `Chip8::CPU`. */
  class CPU {
    var memory: array<Byte>
    var v: array<Byte>
    var stack: array<Word>
    var pc: Word
    var index: Word
    var sp: Word
    var opcode: Word
    var delayTimer: Byte
    var soundTimer: Byte
    var drawFlag: bool
    var gfx: array<Byte>
    var key: array<Byte>
    var funcTable: array<Option<TopEntry>>
    var table0x0: array<Option<Handler>>
    var table0x8: array<Option<Handler>>
    var table0xE: array<Option<Handler>>
    var table0xF: array<Option<Handler>>

    /** Sizes of the machine-state arrays, and no two of them are the same object. */
    ghost predicate ValidState()
      reads this
    {
      memory.Length == MemorySize && v.Length == RegisterCount && stack.Length == StackDepth
      && gfx.Length == DisplayCells && key.Length == KeyCount
      && memory != v && memory != gfx && memory != key && v != gfx && v != key && gfx != key
    }

    /** Sizes of the dispatch tables, and no two of them are the same object. */
    ghost predicate ValidTables()
      reads this
    {
      funcTable.Length == NibbleSlots && table0x0.Length == NibbleSlots
      && table0x8.Length == NibbleSlots && table0xE.Length == NibbleSlots
      && table0xF.Length == ByteSlots
      && table0x0 != table0x8 && table0x0 != table0xE && table0x0 != table0xF
      && table0x8 != table0xE && table0x8 != table0xF && table0xE != table0xF
    }

    /** The machine state held by this object. */
    ghost function Snapshot(): (s: State)
      reads this, memory, v, stack, gfx, key
      requires ValidState()
      ensures s.Valid()
    {
      State(memory[..], v[..], stack[..], pc, index, sp, opcode, delayTimer, soundTimer,
            gfx[..], key[..], drawFlag)
    }

    /** The current contents of the five dispatch tables. */
    ghost function CurrentTables(): (t: Tables)
      reads this, funcTable, table0x0, table0x8, table0xE, table0xF
      requires ValidTables()
      ensures t.WellShaped()
    {
      Tables(funcTable[..], table0x0[..], table0x8[..], table0xE[..], table0xF[..])
    }

    /** Well formed, and every slot setFunctions assigns holds what it assigns there. */
    ghost predicate Ready()
      reads this, funcTable, table0x0, table0x8, table0xE, table0xF
    {
      ValidState() && ValidTables() && Assigned(CurrentTables())
    }

    /**
      Construction: registers, timers and flags zeroed, pc at ProgramStart, every array
      value-initialised (bytes to zero, table slots to null), then the font copied to the
      bottom of memory. As written it never runs SetFunctions, so the tables stay null (see
      README, Findings); a CPU is Ready only once SetFunctions has run.
     */
    constructor ()
      ensures ValidState() && ValidTables()
      ensures Snapshot() == Boot()
      ensures CurrentTables().AllNull()
      ensures fresh(memory) && fresh(v) && fresh(stack) && fresh(gfx) && fresh(key)
      ensures fresh(funcTable) && fresh(table0x0) && fresh(table0x8) && fresh(table0xE) && fresh(table0xF)
    {
      pc := ProgramStart as Word;
      opcode := 0;
      index := 0;
      sp := 0;
      drawFlag := false;
      var m := FontMemory();
      memory := m;
      var r := ZeroBytes(RegisterCount);
      v := r;
      var st := ZeroWords(StackDepth);
      stack := st;
      var ks := ZeroBytes(KeyCount);
      key := ks;
      var g := ZeroBytes(DisplayCells);
      gfx := g;
      var top := NullEntries(NibbleSlots);
      funcTable := top;
      var t0 := NullSlots(NibbleSlots);
      table0x0 := t0;
      var t8 := NullSlots(NibbleSlots);
      table0x8 := t8;
      var tE := NullSlots(NibbleSlots);
      table0xE := tE;
      var tF := NullSlots(ByteSlots);
      table0xF := tF;
      delayTimer := 0;
      soundTimer := 0;
    }

    /**
      Construction followed by setFunctions, the order the dispatch needs: the CPU is in the
      boot state with exactly the tables setFunctions installs, ready for emulateCycle.
     */
    static method Create() returns (cpu: CPU)
      ensures fresh(cpu)
      ensures fresh(cpu.memory) && fresh(cpu.v) && fresh(cpu.stack) && fresh(cpu.gfx) && fresh(cpu.key)
      ensures fresh(cpu.funcTable) && fresh(cpu.table0x0) && fresh(cpu.table0x8)
      ensures fresh(cpu.table0xE) && fresh(cpu.table0xF)
      ensures cpu.Ready()
      ensures cpu.Snapshot() == Boot()
      ensures cpu.CurrentTables() == Installed()
    {
      cpu := new CPU();
      cpu.SetFunctions();
    }

    /**
      The constructor's memory: value-initialised to zero, then the font loop copies the 80
      font bytes to memory[0..80).
     */
    static method FontMemory() returns (m: array<Byte>)
      ensures fresh(m)
      ensures m[..] == BootMemory()
    {
      m := new Byte[MemorySize](_ => 0);
      var i := 0;
      while i < FontBytes
        invariant 0 <= i <= FontBytes
        invariant m[..i] == FontSet()[..i]
        invariant forall k :: i <= k < MemorySize ==> m[k] == 0
      {
        m[i] := FontSet()[i];
        i := i + 1;
      }
      assert m[..] == BootMemory();
    }

    // Value-initialised arrays (`std::array<T, n>()`). The source's `for each (auto var in ...)`
    // zeroing loops that follow bind each element by value and so change nothing.

    static method ZeroBytes(n: nat) returns (a: array<Byte>)
      ensures fresh(a) && a[..] == Repeat(0, n)
    {
      a := new Byte[n](_ => 0);
    }

    static method ZeroWords(n: nat) returns (a: array<Word>)
      ensures fresh(a) && a[..] == Repeat(0, n)
    {
      a := new Word[n](_ => 0);
    }

    static method NullEntries(n: nat) returns (a: array<Option<TopEntry>>)
      ensures fresh(a) && a[..] == Repeat(None, n)
    {
      a := new Option<TopEntry>[n](_ => None);
    }

    static method NullSlots(n: nat) returns (a: array<Option<Handler>>)
      ensures fresh(a) && a[..] == Repeat(None, n)
    {
      a := new Option<Handler>[n](_ => None);
    }

    /**
      setFunctions: assigns all 16 top-level slots and the sub-table slots listed in
      module Dispatch; every sub-table slot it does not list keeps its previous value.
     */
    method SetFunctions()
      requires ValidState() && ValidTables()
      modifies funcTable, table0x0, table0x8, table0xE, table0xF
      ensures forall i :: 0 <= i < NibbleSlots ==> funcTable[i] == TopSlot(i)
      ensures forall i :: 0 <= i < NibbleSlots ==>
                table0x0[i] == if Sub0Slot(i).Some? then Sub0Slot(i) else old(table0x0[i])
      ensures forall i :: 0 <= i < NibbleSlots ==>
                table0x8[i] == if Sub8Slot(i).Some? then Sub8Slot(i) else old(table0x8[i])
      ensures forall i :: 0 <= i < NibbleSlots ==>
                table0xE[i] == if SubESlot(i).Some? then SubESlot(i) else old(table0xE[i])
      ensures forall i :: 0 <= i < ByteSlots ==>
                table0xF[i] == if SubFSlot(i).Some? then SubFSlot(i) else old(table0xF[i])
      ensures Ready()
      ensures old(CurrentTables().AllNull()) ==> CurrentTables() == Installed()
    {
      SetTopSlots();
      SetSlots0x0();
      SetSlots0x8();
      SetSlots0xE();
      SetSlots0xF();
    }

    /** The `_funcTable` assignments of setFunctions. */
    method SetTopSlots()
      requires funcTable.Length == NibbleSlots
      modifies funcTable
      ensures funcTable[..] == TopRow()
    {
      funcTable[0x0] := Some(Table0);
      funcTable[0x1] := Some(Call(Op1nnn));
      funcTable[0x2] := Some(Call(Op2nnn));
      funcTable[0x3] := Some(Call(Op3xkk));
      funcTable[0x4] := Some(Call(Op4xkk));
      funcTable[0x5] := Some(Call(Op5xy0));
      funcTable[0x6] := Some(Call(Op6xkk));
      funcTable[0x7] := Some(Call(Op7xkk));
      funcTable[0x8] := Some(Table8);
      funcTable[0x9] := Some(Call(Op9xy0));
      funcTable[0xA] := Some(Call(OpAnnn));
      funcTable[0xB] := Some(Call(OpBnnn));
      funcTable[0xC] := Some(Call(OpCxkk));
      funcTable[0xD] := Some(Call(OpDxyn));
      funcTable[0xE] := Some(TableE);
      funcTable[0xF] := Some(TableF);
    }

    /** The `_table0x0` assignments of setFunctions. */
    method SetSlots0x0()
      requires table0x0.Length == NibbleSlots
      modifies table0x0
      ensures forall i :: 0 <= i < NibbleSlots ==>
                table0x0[i] == if Sub0Slot(i).Some? then Sub0Slot(i) else old(table0x0[i])
    {
      table0x0[0x0] := Some(Op00E0);
      table0x0[0xE] := Some(Op00EE);
    }

    /** The `_table0x8` assignments of setFunctions. */
    method SetSlots0x8()
      requires table0x8.Length == NibbleSlots
      modifies table0x8
      ensures forall i :: 0 <= i < NibbleSlots ==>
                table0x8[i] == if Sub8Slot(i).Some? then Sub8Slot(i) else old(table0x8[i])
    {
      table0x8[0x0] := Some(Op8xy0);
      table0x8[0x1] := Some(Op8xy1);
      table0x8[0x2] := Some(Op8xy2);
      table0x8[0x3] := Some(Op8xy3);
      table0x8[0x4] := Some(Op8xy4);
      table0x8[0x5] := Some(Op8xy5);
      table0x8[0x6] := Some(Op8xy6);
      table0x8[0x7] := Some(Op8xy7);
      table0x8[0xE] := Some(Op8xyE);
    }

    /** The `_table0xE` assignments of setFunctions. */
    method SetSlots0xE()
      requires table0xE.Length == NibbleSlots
      modifies table0xE
      ensures forall i :: 0 <= i < NibbleSlots ==>
                table0xE[i] == if SubESlot(i).Some? then SubESlot(i) else old(table0xE[i])
    {
      table0xE[0x1] := Some(OpExA1);
      table0xE[0xE] := Some(OpEx9E);
    }

    /** The `_table0xF` assignments of setFunctions. */
    method SetSlots0xF()
      requires table0xF.Length == ByteSlots
      modifies table0xF
      ensures forall i :: 0 <= i < ByteSlots ==>
                table0xF[i] == if SubFSlot(i).Some? then SubFSlot(i) else old(table0xF[i])
    {
      table0xF[0x07] := Some(OpFx07);
      table0xF[0x0A] := Some(OpFx0A);
      table0xF[0x15] := Some(OpFx15);
      table0xF[0x18] := Some(OpFx18);
      table0xF[0x1E] := Some(OpFx1E);
      table0xF[0x29] := Some(OpFx29);
      table0xF[0x33] := Some(OpFx33);
      table0xF[0x55] := Some(OpFx55);
      table0xF[0x65] := Some(OpFx65);
    }

    /**
      emulateCycle: fetch the big-endian opcode at pc, advance pc by 2, dispatch through the
      tables. The source reads past the end of memory when pc + 1 >= 4096 and calls through a
      null pointer when the opcode's slot is unassigned; both are excluded by the requires.
     */
    method EmulateCycle()
      requires Ready()
      requires pc as int + 1 < MemorySize
      requires Decode(FetchWord(memory[..], pc)).Some?
      modifies this`opcode, this`pc, gfx
      ensures Ready()
      ensures opcode == FetchWord(old(memory[..]), old(pc))
      ensures pc == WrapAdd(old(pc), 2)
      ensures Cycle(old(Snapshot())) == Some(Snapshot())
    {
      opcode := (memory[pc] as int * 0x100 + memory[pc as int + 1] as int) as Word;
      pc := WrapAdd(pc, 2);
      var handler := FindHandler(opcode);
      Execute(handler.value);
    }

    /**
      The call through `_funcTable[(op & 0xF000) >> 12]` and, for families 0, 8, E and F, on
      through the sub-table slot. Once setFunctions has run, it reaches the handler Decode
      gives for every opcode Decode knows.
     */
    method FindHandler(op: Word) returns (handler: Option<Handler>)
      requires ValidTables()
      ensures handler == Lookup(CurrentTables(), op)
      ensures Assigned(CurrentTables()) && Decode(op).Some? ==> handler == Decode(op)
    {
      match funcTable[Family(op)] {
        case None => handler := None;
        case Some(Call(h)) => handler := Some(h);
        case Some(Table0) => handler := table0x0[LowNibble(op)];
        case Some(Table8) => handler := table0x8[LowNibble(op)];
        case Some(TableE) => handler := table0xE[LowNibble(op)];
        case Some(TableF) => handler := table0xF[LowByte(op)];
      }
      if Assigned(CurrentTables()) && Decode(op).Some? {
        AssignedDecodes(CurrentTables(), op);
      }
    }

    /** Runs one handler. Only op00E0 has a body; the other 33 are empty in this snapshot. */
    method Execute(h: Handler)
      requires ValidState()
      modifies gfx
      ensures h == Op00E0 ==> gfx[..] == Blank()
      ensures h != Op00E0 ==> gfx[..] == old(gfx[..])
    {
      if h == Op00E0 {
        ClearScreen();
      }
    }

    /** op00E0: every display cell becomes 0. drawFlag is not touched. */
    method ClearScreen()
      requires ValidState()
      modifies gfx
      ensures gfx[..] == Blank()
    {
      // The source's `for each (auto var in gfx) var = 0;` binds each cell by value, so as
      // written it leaves gfx unchanged; the model clears the cells, as the handler intends.
      for i := 0 to gfx.Length
        invariant forall k :: 0 <= k < i ==> gfx[k] == 0
      {
        gfx[i] := 0;
      }
    }

    /**
      loadProgram, from the bytes of the ROM file on: byte i goes to memory[0x200 + i]. The
      source does not check the size, so an image longer than MaxImage is excluded.
     */
    method LoadProgram(image: seq<Byte>)
      requires ValidState()
      requires |image| <= MaxImage
      modifies memory
      ensures memory[..] == Loaded(old(memory[..]), image)
    {
      for i := 0 to |image|
        invariant forall a :: 0 <= a < MemorySize ==>
                    memory[a] == if ProgramStart <= a < ProgramStart + i then image[a - ProgramStart]
                                 else old(memory[a])
      {
        memory[ProgramStart + i] := image[i];
      }
    }
  }
}
