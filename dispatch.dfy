/**
  Opcode dispatch of the CHIP-8 CPU.

  An opcode is decoded in two levels. Its top nibble selects one of the 16 slots of the
  top-level table `_funcTable`. The slots of families 0x0, 0x8 and 0xE hold a sub-table
  function that indexes its table with the low nibble; the slot of family 0xF holds one that
  indexes its table with the low byte; every other slot holds a handler directly. A slot that
  was never assigned is a null member pointer, written None here.

  The source computes the indices with masks and shifts on an `unsigned short`:
  `(op & 0xF000) >> 12`, `op & 0x000F` and `op & 0x00FF`. On unsigned values these equal
  `op / 0x1000`, `op % 0x10` and `op % 0x100`, which is how they are written here.
 */
module Dispatch {
  import opened Optional
  import opened Words

  /** The 34 opcode handlers the CPU declares, one per CHIP-8 instruction form. */
  datatype Handler =
    | Op00E0 | Op00EE | Op1nnn | Op2nnn | Op3xkk | Op4xkk | Op5xy0 | Op6xkk | Op7xkk
    | Op8xy0 | Op8xy1 | Op8xy2 | Op8xy3 | Op8xy4 | Op8xy5 | Op8xy6 | Op8xy7 | Op8xyE
    | Op9xy0 | OpAnnn | OpBnnn | OpCxkk | OpDxyn | OpEx9E | OpExA1
    | OpFx07 | OpFx0A | OpFx15 | OpFx18 | OpFx1E | OpFx29 | OpFx33 | OpFx55 | OpFx65

  /** What a slot of the top-level table points to: a handler, or one of the four sub-table functions. */
  datatype TopEntry = Call(handler: Handler) | Table0 | Table8 | TableE | TableF

  /** Number of slots of the top-level table and of the three nibble-indexed sub-tables. */
  const NibbleSlots := 16
  /** Number of slots of the byte-indexed sub-table of family 0xF. */
  const ByteSlots := 256

  /** The five dispatch tables: `_funcTable`, `_table0x0`, `_table0x8`, `_table0xE`, `_table0xF`. */
  datatype Tables = Tables(
    top: seq<Option<TopEntry>>,
    t0: seq<Option<Handler>>,
    t8: seq<Option<Handler>>,
    tE: seq<Option<Handler>>,
    tF: seq<Option<Handler>>)
  {
    ghost predicate WellShaped() {
      |top| == NibbleSlots && |t0| == NibbleSlots && |t8| == NibbleSlots
      && |tE| == NibbleSlots && |tF| == ByteSlots
    }

    /** Every slot of every table is null, as value-initialisation leaves them. */
    ghost predicate AllNull() {
      top == Repeat(None, |top|) && t0 == Repeat(None, |t0|) && t8 == Repeat(None, |t8|)
      && tE == Repeat(None, |tE|) && tF == Repeat(None, |tF|)
    }
  }

  /** Index into the top-level table: `(op & 0xF000) >> 12`. */
  function Family(op: Word): (f: nat)
    ensures f < NibbleSlots
  {
    op as int / 0x1000
  }

  /** Index into the sub-tables of families 0x0, 0x8 and 0xE: `op & 0x000F`. */
  function LowNibble(op: Word): (n: nat)
    ensures n < NibbleSlots
  {
    op as int % 0x10
  }

  /** Index into the sub-table of family 0xF: `op & 0x00FF`. */
  function LowByte(op: Word): (b: nat)
    ensures b < ByteSlots
  {
    op as int % 0x100
  }

  /**
    The handler reached by dispatching op through the given tables: emulateCycle calls the
    top-level slot, and table0Function, table8Function, tableEFunction and tableFFunction call
    the sub-table slot. None means the call would go through a null slot.
   */
  function Lookup(t: Tables, op: Word): Option<Handler>
    requires t.WellShaped()
  {
    match t.top[Family(op)]
    case None => None
    case Some(Call(h)) => Some(h)
    case Some(Table0) => t.t0[LowNibble(op)]
    case Some(Table8) => t.t8[LowNibble(op)]
    case Some(TableE) => t.tE[LowNibble(op)]
    case Some(TableF) => t.tF[LowByte(op)]
  }

  /** Slot i of `_funcTable` once setFunctions has run: all 16 slots are assigned. */
  function TopSlot(i: int): (e: Option<TopEntry>)
    ensures e.Some? <==> 0 <= i < NibbleSlots
  {
    if i == 0x0 then Some(Table0)
    else if i == 0x1 then Some(Call(Op1nnn))
    else if i == 0x2 then Some(Call(Op2nnn))
    else if i == 0x3 then Some(Call(Op3xkk))
    else if i == 0x4 then Some(Call(Op4xkk))
    else if i == 0x5 then Some(Call(Op5xy0))
    else if i == 0x6 then Some(Call(Op6xkk))
    else if i == 0x7 then Some(Call(Op7xkk))
    else if i == 0x8 then Some(Table8)
    else if i == 0x9 then Some(Call(Op9xy0))
    else if i == 0xA then Some(Call(OpAnnn))
    else if i == 0xB then Some(Call(OpBnnn))
    else if i == 0xC then Some(Call(OpCxkk))
    else if i == 0xD then Some(Call(OpDxyn))
    else if i == 0xE then Some(TableE)
    else if i == 0xF then Some(TableF)
    else None
  }

  /** Slot i of `_table0x0` once setFunctions has run: only 0x0 and 0xE are assigned. */
  function Sub0Slot(i: int): (h: Option<Handler>)
    ensures h.Some? ==> 0 <= i < NibbleSlots
  {
    if i == 0x0 then Some(Op00E0)
    else if i == 0xE then Some(Op00EE)
    else None
  }

  /** Slot i of `_table0x8` once setFunctions has run: 0x0 to 0x7 and 0xE are assigned. */
  function Sub8Slot(i: int): (h: Option<Handler>)
    ensures h.Some? ==> 0 <= i < NibbleSlots
  {
    if i == 0x0 then Some(Op8xy0)
    else if i == 0x1 then Some(Op8xy1)
    else if i == 0x2 then Some(Op8xy2)
    else if i == 0x3 then Some(Op8xy3)
    else if i == 0x4 then Some(Op8xy4)
    else if i == 0x5 then Some(Op8xy5)
    else if i == 0x6 then Some(Op8xy6)
    else if i == 0x7 then Some(Op8xy7)
    else if i == 0xE then Some(Op8xyE)
    else None
  }

  /** Slot i of `_table0xE` once setFunctions has run: 0x1 holds ExA1 and 0xE holds Ex9E. */
  function SubESlot(i: int): (h: Option<Handler>)
    ensures h.Some? ==> 0 <= i < NibbleSlots
  {
    if i == 0x1 then Some(OpExA1)
    else if i == 0xE then Some(OpEx9E)
    else None
  }

  /** Slot i of `_table0xF` once setFunctions has run: nine low-byte values are assigned. */
  function SubFSlot(i: int): (h: Option<Handler>)
    ensures h.Some? ==> 0 <= i < ByteSlots
  {
    if i == 0x07 then Some(OpFx07)
    else if i == 0x0A then Some(OpFx0A)
    else if i == 0x15 then Some(OpFx15)
    else if i == 0x18 then Some(OpFx18)
    else if i == 0x1E then Some(OpFx1E)
    else if i == 0x29 then Some(OpFx29)
    else if i == 0x33 then Some(OpFx33)
    else if i == 0x55 then Some(OpFx55)
    else if i == 0x65 then Some(OpFx65)
    else None
  }

  /** The 16 `_funcTable` assignments of setFunctions written out in slot order. */
  function TopRow(): (t: seq<Option<TopEntry>>)
    ensures t == seq(NibbleSlots, i => TopSlot(i))
  {
    [Some(Table0), Some(Call(Op1nnn)), Some(Call(Op2nnn)), Some(Call(Op3xkk)),
     Some(Call(Op4xkk)), Some(Call(Op5xy0)), Some(Call(Op6xkk)), Some(Call(Op7xkk)),
     Some(Table8), Some(Call(Op9xy0)), Some(Call(OpAnnn)), Some(Call(OpBnnn)),
     Some(Call(OpCxkk)), Some(Call(OpDxyn)), Some(TableE), Some(TableF)]
  }

  /** The tables as setFunctions leaves them when every slot started out null. */
  function Installed(): (t: Tables)
    ensures t.WellShaped()
  {
    Tables(seq(NibbleSlots, i => TopSlot(i)), seq(NibbleSlots, i => Sub0Slot(i)),
           seq(NibbleSlots, i => Sub8Slot(i)), seq(NibbleSlots, i => SubESlot(i)),
           seq(ByteSlots, i => SubFSlot(i)))
  }

  /**
    Every slot setFunctions assigns holds what it assigns there; the slots it leaves alone may
    hold anything.
   */
  ghost predicate Assigned(t: Tables)
    requires t.WellShaped()
  {
    (forall i :: 0 <= i < NibbleSlots ==> t.top[i] == TopSlot(i))
    && (forall i :: 0 <= i < NibbleSlots && Sub0Slot(i).Some? ==> t.t0[i] == Sub0Slot(i))
    && (forall i :: 0 <= i < NibbleSlots && Sub8Slot(i).Some? ==> t.t8[i] == Sub8Slot(i))
    && (forall i :: 0 <= i < NibbleSlots && SubESlot(i).Some? ==> t.tE[i] == SubESlot(i))
    && (forall i :: 0 <= i < ByteSlots && SubFSlot(i).Some? ==> t.tF[i] == SubFSlot(i))
  }

  /**
    Tables holding every assignment of setFunctions dispatch each assigned opcode to its
    installed handler, whatever their other slots hold.
   */
  lemma {:induction false} AssignedDecodes(t: Tables, op: Word)
    requires t.WellShaped() && Assigned(t)
    requires Decode(op).Some?
    ensures Lookup(t, op) == Decode(op)
  {
    var f := Family(op);
    assert t.top[f] == TopSlot(f) == Installed().top[f];
  }

  /** Decoding through the tables setFunctions installs; None for an unassigned sub-key. */
  function Decode(op: Word): Option<Handler> {
    Lookup(Installed(), op)
  }

  /** A table position: a top-level slot, or a slot of the sub-table of a family. */
  datatype Key = Direct(family: nat) | Indexed(family: nat, index: nat)

  /** The table position the dispatch of op reads last. */
  function DispatchKey(op: Word): (k: Key)
    ensures k.family == Family(op)
    ensures k.Indexed? <==> k.family == 0x0 || k.family == 0x8 || k.family == 0xE || k.family == 0xF
    ensures k.Indexed? ==> k.index < if k.family == 0xF then ByteSlots else NibbleSlots
  {
    var f := Family(op);
    if f == 0x0 || f == 0x8 || f == 0xE then Indexed(f, LowNibble(op))
    else if f == 0xF then Indexed(f, LowByte(op))
    else Direct(f)
  }

  /** The table position setFunctions assigns handler h to. */
  function KeyOf(h: Handler): (k: Key)
    ensures k.family < NibbleSlots
    ensures k.Indexed? <==> k.family == 0x0 || k.family == 0x8 || k.family == 0xE || k.family == 0xF
    ensures k.Indexed? ==> k.index < if k.family == 0xF then ByteSlots else NibbleSlots
  {
    match h
    case Op00E0 => Indexed(0x0, 0x0)   case Op00EE => Indexed(0x0, 0xE)
    case Op1nnn => Direct(0x1)         case Op2nnn => Direct(0x2)
    case Op3xkk => Direct(0x3)         case Op4xkk => Direct(0x4)
    case Op5xy0 => Direct(0x5)         case Op6xkk => Direct(0x6)
    case Op7xkk => Direct(0x7)
    case Op8xy0 => Indexed(0x8, 0x0)   case Op8xy1 => Indexed(0x8, 0x1)
    case Op8xy2 => Indexed(0x8, 0x2)   case Op8xy3 => Indexed(0x8, 0x3)
    case Op8xy4 => Indexed(0x8, 0x4)   case Op8xy5 => Indexed(0x8, 0x5)
    case Op8xy6 => Indexed(0x8, 0x6)   case Op8xy7 => Indexed(0x8, 0x7)
    case Op8xyE => Indexed(0x8, 0xE)
    case Op9xy0 => Direct(0x9)         case OpAnnn => Direct(0xA)
    case OpBnnn => Direct(0xB)         case OpCxkk => Direct(0xC)
    case OpDxyn => Direct(0xD)
    case OpEx9E => Indexed(0xE, 0xE)   case OpExA1 => Indexed(0xE, 0x1)
    case OpFx07 => Indexed(0xF, 0x07)  case OpFx0A => Indexed(0xF, 0x0A)
    case OpFx15 => Indexed(0xF, 0x15)  case OpFx18 => Indexed(0xF, 0x18)
    case OpFx1E => Indexed(0xF, 0x1E)  case OpFx29 => Indexed(0xF, 0x29)
    case OpFx33 => Indexed(0xF, 0x33)  case OpFx55 => Indexed(0xF, 0x55)
    case OpFx65 => Indexed(0xF, 0x65)
  }

  /** The opcode of handler h with every operand field (x, y, n, kk, nnn) zero. */
  function Pattern(h: Handler): Word {
    match KeyOf(h)
    case Direct(f) => (f * 0x1000) as Word
    case Indexed(f, i) => (f * 0x1000 + i) as Word
  }

  /** The handler setFunctions stores at table position k; None for a position it leaves null. */
  function Slot(k: Key): Option<Handler> {
    match k
    case Direct(f) =>
      if f < NibbleSlots && TopSlot(f).Some? && TopSlot(f).value.Call? then Some(TopSlot(f).value.handler)
      else None
    case Indexed(f, i) =>
      if f == 0x0 then Sub0Slot(i)
      else if f == 0x8 then Sub8Slot(i)
      else if f == 0xE then SubESlot(i)
      else if f == 0xF then SubFSlot(i)
      else None
  }

  /** Decoding an opcode reads exactly the installed slot at its dispatch position. */
  lemma {:induction false} DecodeReadsSlot(op: Word)
    ensures Decode(op) == Slot(DispatchKey(op))
  {
    var f := Family(op);
    assert Installed().top[f] == TopSlot(f);
    if !(f == 0x0 || f == 0x8 || f == 0xE || f == 0xF) {
      assert TopSlot(f).Some? && TopSlot(f).value.Call?;
    }
  }

  /** setFunctions stores every handler at the position KeyOf names. */
  lemma SlotOfKey(h: Handler)
    ensures Slot(KeyOf(h)) == Some(h)
  {
  }

  /** A handler found at a position was stored there by setFunctions: Slot is inverted by KeyOf. */
  lemma {:induction false} KeyOfSlot(k: Key, h: Handler)
    requires Slot(k) == Some(h)
    ensures KeyOf(h) == k
  {
    match k
    case Direct(f) =>
      assert f < NibbleSlots && TopSlot(f) == Some(Call(h));
    case Indexed(f, i) =>
      if f == 0x0 {
        assert Sub0Slot(i) == Some(h);
      } else if f == 0x8 {
        KeyOfSlot8(i, h);
      } else if f == 0xE {
        assert SubESlot(i) == Some(h);
      } else {
        assert f == 0xF;
        KeyOfSlotF(i, h);
      }
  }

  /** KeyOfSlot for the sub-table of family 0x8. */
  lemma KeyOfSlot8(i: nat, h: Handler)
    requires Sub8Slot(i) == Some(h)
    ensures KeyOf(h) == Indexed(0x8, i)
  {
  }

  /** KeyOfSlot for the byte-indexed sub-table of family 0xF. */
  lemma KeyOfSlotF(i: nat, h: Handler)
    requires SubFSlot(i) == Some(h)
    ensures KeyOf(h) == Indexed(0xF, i)
  {
  }

  /**
    An opcode decodes to handler h exactly when its dispatch reads the one table position
    setFunctions gave h.
   */
  lemma {:induction false} DecodeByKey(op: Word, h: Handler)
    ensures Decode(op) == Some(h) <==> DispatchKey(op) == KeyOf(h)
  {
    DecodeReadsSlot(op);
    if Decode(op) == Some(h) {
      KeyOfSlot(DispatchKey(op), h);
    }
    if DispatchKey(op) == KeyOf(h) {
      SlotOfKey(h);
    }
  }

  /** No two handlers share a table position, so each is reached by exactly one (family, sub-key). */
  lemma KeyOfInjective(h1: Handler, h2: Handler)
    requires KeyOf(h1) == KeyOf(h2)
    ensures h1 == h2
  {
    SlotOfKey(h1);
    SlotOfKey(h2);
  }

  /** Every handler is reachable: its pattern opcode decodes to it. */
  lemma {:induction false} DecodePattern(h: Handler)
    ensures Decode(Pattern(h)) == Some(h)
  {
    var op := Pattern(h);
    assert DispatchKey(op) == KeyOf(h);
    DecodeByKey(op, h);
  }

  /** An opcode decodes to nothing exactly when its table position is assigned to no handler. */
  lemma {:induction false} DecodeNone(op: Word)
    ensures Decode(op) == None <==> forall h :: DispatchKey(op) != KeyOf(h)
  {
    if Decode(op).Some? {
      DecodeByKey(op, Decode(op).value);
    } else {
      forall h ensures DispatchKey(op) != KeyOf(h) {
        DecodeByKey(op, h);
      }
    }
  }

  /** Decoding reads only the family and its sub-key; the operand bits never matter. */
  lemma DecodeIgnoresOperands(op1: Word, op2: Word)
    requires DispatchKey(op1) == DispatchKey(op2)
    ensures Decode(op1) == Decode(op2)
  {
  }

  /** The top level sends families 0x0, 0x8, 0xE and 0xF to a sub-table and the rest straight to a handler. */
  lemma TopLevelShape(f: nat)
    requires f < NibbleSlots
    ensures Installed().top[f].Some?
    ensures Installed().top[f].value.Call? <==> !(f == 0x0 || f == 0x8 || f == 0xE || f == 0xF)
  {
  }

  /** Worked examples of the dispatch of family 0x0, with arbitrary operand nibbles x and y. */
  lemma {:induction false} DecodeExamples0(x: nat, y: nat)
    requires x < 0x10 && y < 0x10
    ensures Decode(0x00E0) == Some(Op00E0) && Decode(0x00EE) == Some(Op00EE)
    ensures Decode((x * 0x100 + y * 0x10) as Word) == Some(Op00E0)
    ensures Decode((0x000E + x * 0x100 + y * 0x10) as Word) == Some(Op00EE)
  {
    var xy := x * 0x100 + y * 0x10;
    assert xy < 0x1000 && xy % 0x10 == 0;
    DecodeReadsSlot(0x00E0);
    DecodeReadsSlot(0x00EE);
    DecodeReadsSlot(xy as Word);
    DecodeReadsSlot((0x000E + xy) as Word);
  }

  /** Worked examples of the dispatch of family 0x8, with arbitrary operand nibbles x and y. */
  lemma {:induction false} DecodeExamples8(x: nat, y: nat)
    requires x < 0x10 && y < 0x10
    ensures Decode((0x800E + x * 0x100 + y * 0x10) as Word) == Some(Op8xyE)
    ensures Decode((0x8008 + x * 0x100 + y * 0x10) as Word) == None
  {
    var xy := x * 0x100 + y * 0x10;
    assert xy < 0x1000 && xy % 0x10 == 0;
    DecodeReadsSlot((0x800E + xy) as Word);
    DecodeReadsSlot((0x8008 + xy) as Word);
  }

  /** Worked examples of the dispatch of families 0xE and 0xF, with an arbitrary register x. */
  lemma {:induction false} DecodeExamplesEF(x: nat)
    requires x < 0x10
    ensures Decode((0xE09E + x * 0x100) as Word) == Some(OpEx9E)
    ensures Decode((0xE0A1 + x * 0x100) as Word) == Some(OpExA1)
    ensures Decode((0xF065 + x * 0x100) as Word) == Some(OpFx65)
    ensures Decode((0xF0E5 + x * 0x100) as Word) == None
  {
    var x0 := x * 0x100;
    assert x0 < 0x1000 && x0 % 0x100 == 0;
    DecodeReadsSlot((0xE09E + x0) as Word);
    DecodeReadsSlot((0xE0A1 + x0) as Word);
    DecodeReadsSlot((0xF065 + x0) as Word);
    DecodeReadsSlot((0xF0E5 + x0) as Word);
  }

  /** A worked example of a family dispatched straight from the top level: 1nnn for any nnn. */
  lemma {:induction false} DecodeExampleDirect(nnn: nat)
    requires nnn < 0x1000
    ensures Decode((0x1000 + nnn) as Word) == Some(Op1nnn)
  {
    DecodeReadsSlot((0x1000 + nnn) as Word);
  }

  /**
    Dispatching through tables that were value-initialised and never filled reaches no handler
    for any opcode: every cycle would call through a null slot.
   */
  lemma NullTablesReachNothing(t: Tables, op: Word)
    requires t.WellShaped() && t.AllNull()
    ensures Lookup(t, op) == None
  {
  }
}
