/**
 A protocol-4 pickle stream: what the writer emits for a tree of Python objects, and a stack machine for
 exactly the opcodes it emits.

 Strings are their UTF-8 bytes and floats their IEEE-754 bit patterns.
 */
module Pickle {
  import opened Rooms
  import opened Bytes

  const MARK: byte := 0x28
  const STOP: byte := 0x2e
  const NONE: byte := 0x4e
  const BININT: byte := 0x4a
  const BININT1: byte := 0x4b
  const BININT2: byte := 0x4d
  const BINFLOAT: byte := 0x47
  const BINUNICODE: byte := 0x58
  const EMPTY_LIST: byte := 0x5d
  const APPENDS: byte := 0x65
  const EMPTY_DICT: byte := 0x7d
  const SETITEMS: byte := 0x75
  const EMPTY_TUPLE: byte := 0x29
  const TUPLE: byte := 0x74
  const REDUCE: byte := 0x52
  const PROTO: byte := 0x80
  const TUPLE1: byte := 0x85
  const TUPLE2: byte := 0x86
  const TUPLE3: byte := 0x87
  const NEWTRUE: byte := 0x88
  const NEWFALSE: byte := 0x89
  const LONG1: byte := 0x8a
  const SHORT_BINUNICODE: byte := 0x8c
  const EMPTY_SET: byte := 0x8f
  const ADDITEMS: byte := 0x90
  const STACK_GLOBAL: byte := 0x93

  const PROTOCOL: byte := 4

  type Text = seq<byte>

  datatype ClassId = ClassId(mod: Text, name: Text)

  datatype PyObj =
    | Nil
    | Bool(b: bool)
    | Int(n: i64)
    | Big(big: int)
    | Float(bits: u64)
    | Str(text: Text)
    | List(items: seq<PyObj>)
    | Set(items: seq<PyObj>)
    | Dict(pairs: seq<Entry>)
    | Tuple(items: seq<PyObj>)
    | Global(class_: ClassId)
    | Instance(class_: ClassId, args: seq<PyObj>)

  datatype Entry = Entry(key: PyObj, val: PyObj)

  /** No integer outside 64 bits anywhere: the writer panics on one. */
  predicate NoBig(v: PyObj) {
    match v
    case Big(_) => false
    case List(items) => forall i :: 0 <= i < |items| ==> NoBig(items[i])
    case Set(items) => forall i :: 0 <= i < |items| ==> NoBig(items[i])
    case Tuple(items) => forall i :: 0 <= i < |items| ==> NoBig(items[i])
    case Instance(_, args) => forall i :: 0 <= i < |args| ==> NoBig(args[i])
    case Dict(pairs) => forall i :: 0 <= i < |pairs| ==> NoBig(pairs[i].key) && NoBig(pairs[i].val)
    case _ => true
  }

  predicate IsShort(t: Text) {
    |t| < TWO_TO_THE_32
  }

  predicate HasShortName(c: ClassId) {
    IsShort(c.mod) && IsShort(c.name)
  }

  /** No string whose length a 32-bit prefix would truncate. */
  predicate ShortStrings(v: PyObj) {
    match v
    case Str(t) => IsShort(t)
    case List(items) => forall i :: 0 <= i < |items| ==> ShortStrings(items[i])
    case Set(items) => forall i :: 0 <= i < |items| ==> ShortStrings(items[i])
    case Tuple(items) => forall i :: 0 <= i < |items| ==> ShortStrings(items[i])
    case Instance(c, args) => HasShortName(c) && forall i :: 0 <= i < |args| ==> ShortStrings(args[i])
    case Dict(pairs) => forall i :: 0 <= i < |pairs| ==> ShortStrings(pairs[i].key) && ShortStrings(pairs[i].val)
    case Global(c) => HasShortName(c)
    case _ => true
  }

  ghost predicate AllNoBig(items: seq<PyObj>) {
    forall i :: 0 <= i < |items| ==> NoBig(items[i])
  }

  ghost predicate AllShort(items: seq<PyObj>) {
    forall i :: 0 <= i < |items| ==> ShortStrings(items[i])
  }

  // ---------------------------------------------------------------- what the writer emits

  function EncodeInt(n: i64): seq<byte> {
    if 0 <= n <= 0xff then [BININT1, n]
    else if 0x100 <= n <= 0xffff then [BININT2] + LittleEndian(n, 2)
    else if -TWO_TO_THE_31 <= n < TWO_TO_THE_31 then [BININT] + LittleEndian(n, 4)
    else [LONG1, Narrowest(n)] + LittleEndian(n, Narrowest(n))
  }

  /** A length prefix of one byte where it fits, of the low four bytes of the length otherwise. */
  function EncodeText(t: Text): seq<byte> {
    if |t| <= 0xff then [SHORT_BINUNICODE, |t|] + t
    else [BINUNICODE] + LittleEndian(|t|, 4) + t
  }

  function EncodeClass(c: ClassId): seq<byte> {
    EncodeText(c.mod) + EncodeText(c.name) + [STACK_GLOBAL]
  }

  function EncodeTuple(items: seq<PyObj>): seq<byte>
    requires AllNoBig(items)
    decreases items, 1
  {
    if |items| == 0 then [EMPTY_TUPLE]
    else if |items| <= 3 then
      EncodeAll(items) + [if |items| == 1 then TUPLE1 else if |items| == 2 then TUPLE2 else TUPLE3]
    else [MARK] + EncodeAll(items) + [TUPLE]
  }

  function EncodeAll(items: seq<PyObj>): seq<byte>
    requires AllNoBig(items)
    decreases items, 0
  {
    if items == [] then [] else EncodeAll(items[..|items| - 1]) + Encode(items[|items| - 1])
  }

  function EncodePairs(pairs: seq<Entry>): seq<byte>
    requires forall i :: 0 <= i < |pairs| ==> NoBig(pairs[i].key) && NoBig(pairs[i].val)
    decreases pairs
  {
    if pairs == [] then []
    else
      EncodePairs(pairs[..|pairs| - 1]) + EncodeEntry(pairs[|pairs| - 1])
  }

  function EncodeEntry(e: Entry): seq<byte>
    requires NoBig(e.key) && NoBig(e.val)
    decreases e
  {
    Encode(e.key) + Encode(e.val)
  }

  /** A container: its empty form, then its members over a mark, if it has any. */
  function Filled(empty: byte, isEmpty: bool, members: seq<byte>, fill: byte): seq<byte> {
    [empty] + if isEmpty then [] else [MARK] + members + [fill]
  }

  function Encode(v: PyObj): seq<byte>
    requires NoBig(v)
    decreases v
  {
    match v
    case Nil => [NONE]
    case Bool(b) => if b then [NEWTRUE] else [NEWFALSE]
    case Int(n) => EncodeInt(n)
    case Float(bits) => [BINFLOAT] + BigEndian(bits, 8)
    case Str(t) => EncodeText(t)
    case List(items) => Filled(EMPTY_LIST, items == [], EncodeAll(items), APPENDS)
    case Set(items) => Filled(EMPTY_SET, items == [], EncodeAll(items), ADDITEMS)
    case Dict(pairs) => Filled(EMPTY_DICT, pairs == [], EncodePairs(pairs), SETITEMS)
    case Tuple(items) => EncodeTuple(items)
    case Global(c) => EncodeClass(c)
    case Instance(c, args) => EncodeClass(c) + EncodeTuple(args) + [REDUCE]
  }

  function Dumps(v: PyObj): seq<byte>
    requires NoBig(v)
  {
    [PROTO, PROTOCOL] + Encode(v) + [STOP]
  }

  // ---------------------------------------------------------------- the machine

  /** The stack above the latest mark, and the stacks put aside at each earlier mark. */
  datatype Machine = Machine(stack: seq<PyObj>, aside: seq<seq<PyObj>>)

  function Push(m: Machine, v: PyObj): Machine {
    m.(stack := m.stack + [v])
  }

  function PushAll(m: Machine, items: seq<PyObj>): Machine {
    m.(stack := m.stack + items)
  }

  /** The value `n` from the top; 1 is the top itself. */
  function Peek(m: Machine, n: nat): PyObj
    requires 1 <= n <= |m.stack|
  {
    m.stack[|m.stack| - n]
  }

  /** The top `n` values replaced by one. */
  function Replace(m: Machine, n: nat, v: PyObj): Machine
    requires n <= |m.stack|
  {
    m.(stack := m.stack[..|m.stack| - n] + [v])
  }

  function AsInteger(n: int): PyObj {
    if -TWO_TO_THE_63 <= n < TWO_TO_THE_63 then Int(n) else Big(n)
  }

  /** Keys and values pushed in turn, as pairs. */
  function Paired(items: seq<PyObj>): Option<seq<Entry>> {
    if items == [] then Some([])
    else if |items| == 1 then None
    else
      var rest := Paired(items[..|items| - 2]);
      if rest.None? then None else Some(rest.value + [Entry(items[|items| - 2], items[|items| - 1])])
  }

  /** The container under the latest mark, with what was pushed over the mark added to it. */
  function Extended(op: byte, container: PyObj, items: seq<PyObj>): Option<PyObj> {
    if op == APPENDS && container.List? then Some(List(container.items + items))
    else if op == ADDITEMS && container.Set? then Some(Set(container.items + items))
    else if op == SETITEMS && container.Dict? && Paired(items).Some? then
      Some(Dict(container.pairs + Paired(items).value))
    else None
  }

  /** How many bytes of argument follow an opcode, or nothing when the stream is too short to say. */
  function ArgumentLength(op: byte, input: seq<byte>): Option<nat> {
    if op == BININT1 || op == PROTO then Some(1)
    else if op == BININT2 then Some(2)
    else if op == BININT then Some(4)
    else if op == BINFLOAT then Some(8)
    else if op == LONG1 || op == SHORT_BINUNICODE then if input == [] then None else Some(1 + Unsigned(input[..1]))
    else if op == BINUNICODE then if |input| < 4 then None else Some(4 + Unsigned(input[..4]))
    else Some(0)
  }

  /** The opcodes that push a value held in their argument, and the constants. */
  function Literal(op: byte, arg: seq<byte>): Option<PyObj> {
    if op == NONE then Some(Nil)
    else if op == NEWTRUE then Some(Bool(true))
    else if op == NEWFALSE then Some(Bool(false))
    else if (op == BININT1 || op == BININT2) && |arg| <= 2 then
      UnsignedIsHeld(arg);
      Some(AsInteger(Unsigned(arg)))
    else if op == BININT then Some(AsInteger(Signed(arg)))
    else if op == LONG1 && arg != [] then Some(AsInteger(Signed(arg[1..])))
    else if op == BINFLOAT && |arg| == 8 then
      BigEndianIsHeld(arg);
      EightBytesHold(0);
      Some(Float(UnsignedBigEndian(arg)))
    else if op == SHORT_BINUNICODE && arg != [] then Some(Str(arg[1..]))
    else if op == BINUNICODE && |arg| >= 4 then Some(Str(arg[4..]))
    else if op == EMPTY_LIST then Some(List([]))
    else if op == EMPTY_SET then Some(Set([]))
    else if op == EMPTY_DICT then Some(Dict([]))
    else if op == EMPTY_TUPLE then Some(Tuple([]))
    else None
  }

  /** The opcodes that replace values at the top of the stack. */
  function Combine(m: Machine, op: byte): Option<Machine> {
    var depth := |m.stack|;
    if op == TUPLE1 && depth >= 1 then Some(Replace(m, 1, Tuple(m.stack[depth - 1..])))
    else if op == TUPLE2 && depth >= 2 then Some(Replace(m, 2, Tuple(m.stack[depth - 2..])))
    else if op == TUPLE3 && depth >= 3 then Some(Replace(m, 3, Tuple(m.stack[depth - 3..])))
    else if op == STACK_GLOBAL && depth >= 2 && Peek(m, 1).Str? && Peek(m, 2).Str? then
      Some(Replace(m, 2, Global(ClassId(Peek(m, 2).text, Peek(m, 1).text))))
    else if op == REDUCE && depth >= 2 && Peek(m, 1).Tuple? && Peek(m, 2).Global? then
      Some(Replace(m, 2, Instance(Peek(m, 2).class_, Peek(m, 1).items)))
    else None
  }

  /** The opcodes that take everything down to the latest mark. */
  function Gather(m: Machine, op: byte): Option<Machine> {
    if |m.aside| == 0 then None
    else
      var below := Machine(m.aside[|m.aside| - 1], m.aside[..|m.aside| - 1]);
      if op == TUPLE then Some(Push(below, Tuple(m.stack)))
      else if below.stack == [] then None
      else
        var filled := Extended(op, Peek(below, 1), m.stack);
        if filled.None? then None else Some(Replace(below, 1, filled.value))
  }

  predicate IsGathering(op: byte) {
    op == TUPLE || op == APPENDS || op == ADDITEMS || op == SETITEMS
  }

  function Apply(m: Machine, op: byte, arg: seq<byte>): Option<Machine> {
    if op == PROTO then if arg == [PROTOCOL] then Some(m) else None
    else if op == MARK then Some(Machine([], m.aside + [m.stack]))
    else if IsGathering(op) then Gather(m, op)
    else if Literal(op, arg).Some? then Some(Push(m, Literal(op, arg).value))
    else Combine(m, op)
  }

  /** The value a stream leaves at its STOP, or nothing if the machine refuses it. */
  function Execute(m: Machine, input: seq<byte>): Option<PyObj>
    decreases |input|
  {
    if input == [] then None
    else if input[0] == STOP then if m.stack == [] then None else Some(Peek(m, 1))
    else
      var length := ArgumentLength(input[0], input[1..]);
      if length.None? || |input| - 1 < length.value then None
      else
        var next := Apply(m, input[0], input[1..1 + length.value]);
        if next.None? then None else Execute(next.value, input[1 + length.value..])
  }

  function Loads(input: seq<byte>): Option<PyObj> {
    Execute(Machine([], []), input)
  }

  lemma {:induction false} UnsignedIsHeld(bs: seq<byte>)
    ensures Unsigned(bs) < Power256(|bs|)
  {
    if bs != [] { UnsignedIsHeld(bs[1..]); }
  }

  lemma {:induction false} BigEndianIsHeld(bs: seq<byte>)
    ensures UnsignedBigEndian(bs) < Power256(|bs|)
  {
    if bs != [] { BigEndianIsHeld(bs[..|bs| - 1]); }
  }
}
