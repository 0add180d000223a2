/**
 The stack machine undoes the writer: from any stack, any marks and any bytes after it, an encoded
 value is read back as exactly that value, in exactly its own bytes, unless one of its strings is
 too long for its length prefix.
 */
module PickleRoundTrip {
  import opened Rooms
  import opened Bytes
  import opened Pickle

  // ---------------------------------------------------------------- one opcode

  lemma {:induction false} StepsOver(m: Machine, op: byte, arg: seq<byte>, rest: seq<byte>)
    requires op != STOP && ArgumentLength(op, arg + rest) == Some(|arg|) && Apply(m, op, arg).Some?
    ensures Execute(m, [op] + arg + rest) == Execute(Apply(m, op, arg).value, rest)
  {
    var input := [op] + arg + rest;
    assert input[1..] == arg + rest;
    assert input[1..1 + |arg|] == arg;
    assert input[1 + |arg|..] == rest;
  }

  lemma {:induction false} ReadsOpcode(m: Machine, op: byte, rest: seq<byte>)
    requires op != STOP && ArgumentLength(op, rest) == Some(0) && Apply(m, op, []).Some?
    ensures Execute(m, [op] + rest) == Execute(Apply(m, op, []).value, rest)
  {
    assert [] + rest == rest && [op] + [] + rest == [op] + rest;
    StepsOver(m, op, [], rest);
  }

  // ---------------------------------------------------------------- integers and text

  lemma {:induction false} ReadsInt(m: Machine, n: i64, rest: seq<byte>)
    ensures Execute(m, EncodeInt(n) + rest) == Execute(Push(m, Int(n)), rest)
  {
    EightBytesHold(n);
    assert Power256(2) == 0x1_0000;
    if 0 <= n <= 0xff {
      assert Unsigned([n]) == n;
      assert EncodeInt(n) + rest == [BININT1] + [n] + rest;
      StepsOver(m, BININT1, [n], rest);
    } else if 0x100 <= n <= 0xffff {
      UnsignedUndoes(n, 2);
      StepsOver(m, BININT2, LittleEndian(n, 2), rest);
    } else if -TWO_TO_THE_31 <= n < TWO_TO_THE_31 {
      assert Power256(3) == 256 * Power256(2);
      SignedUndoesIff(n, 4);
      StepsOver(m, BININT, LittleEndian(n, 4), rest);
    } else {
      ReadsLong(m, n, rest);
    }
  }

  lemma {:induction false} LongIsLiteral(m: Machine, n: i64, arg: seq<byte>)
    requires arg == [Narrowest(n)] + LittleEndian(n, Narrowest(n))
    ensures Apply(m, LONG1, arg) == Some(Push(m, Int(n)))
  {
    SignedUndoesIff(n, Narrowest(n));
    assert arg[1..] == LittleEndian(n, Narrowest(n));
  }

  lemma {:induction false} ReadsLong(m: Machine, n: i64, rest: seq<byte>)
    ensures Execute(m, [LONG1, Narrowest(n)] + LittleEndian(n, Narrowest(n)) + rest) == Execute(Push(m, Int(n)), rest)
  {
    var w: byte := Narrowest(n);
    var arg := [w] + LittleEndian(n, w);
    LongIsLiteral(m, n, arg);
    assert (arg + rest)[..1] == [w] && Unsigned([w]) == w;
    assert [LONG1, w] + LittleEndian(n, w) + rest == [LONG1] + arg + rest;
    StepsOver(m, LONG1, arg, rest);
  }

  lemma {:induction false} ReadsShortText(m: Machine, t: Text, rest: seq<byte>)
    requires |t| <= 0xff
    ensures Execute(m, [SHORT_BINUNICODE, |t|] + t + rest) == Execute(Push(m, Str(t)), rest)
  {
    var arg := [|t|] + t;
    assert arg[1..] == t && (arg + rest)[..1] == [|t|] && Unsigned([|t|]) == |t|;
    assert [SHORT_BINUNICODE, |t|] + t + rest == [SHORT_BINUNICODE] + arg + rest;
    StepsOver(m, SHORT_BINUNICODE, arg, rest);
  }

  lemma {:induction false} ReadsLongText(m: Machine, t: Text, rest: seq<byte>)
    requires IsShort(t)
    ensures Execute(m, [BINUNICODE] + LittleEndian(|t|, 4) + t + rest) == Execute(Push(m, Str(t)), rest)
  {
    var arg := LittleEndian(|t|, 4) + t;
    EightBytesHold(0);
    UnsignedUndoes(|t|, 4);
    assert arg[4..] == t && (arg + rest)[..4] == LittleEndian(|t|, 4);
    assert [BINUNICODE] + LittleEndian(|t|, 4) + t + rest == [BINUNICODE] + arg + rest;
    StepsOver(m, BINUNICODE, arg, rest);
  }

  lemma {:induction false} ReadsText(m: Machine, t: Text, rest: seq<byte>)
    requires IsShort(t)
    ensures Execute(m, EncodeText(t) + rest) == Execute(Push(m, Str(t)), rest)
  {
    if |t| <= 0xff { ReadsShortText(m, t, rest); } else { ReadsLongText(m, t, rest); }
  }

  lemma {:induction false} ReadsFloat(m: Machine, bits: u64, rest: seq<byte>)
    ensures Execute(m, [BINFLOAT] + BigEndian(bits, 8) + rest) == Execute(Push(m, Float(bits)), rest)
  {
    EightBytesHold(0);
    BigEndianUndoes(bits, 8);
    StepsOver(m, BINFLOAT, BigEndian(bits, 8), rest);
  }

  /** The module was pushed first, so it is the name that is on top. */
  lemma {:induction false} TakesGlobal(m: Machine, c: ClassId)
    ensures Apply(Push(Push(m, Str(c.mod)), Str(c.name)), STACK_GLOBAL, []) == Some(Push(m, Global(c)))
  {
    var both := Push(Push(m, Str(c.mod)), Str(c.name));
    assert both.stack[..|both.stack| - 2] == m.stack;
  }

  lemma {:induction false} TakesInstance(m: Machine, c: ClassId, args: seq<PyObj>)
    ensures Apply(Push(Push(m, Global(c)), Tuple(args)), REDUCE, []) == Some(Push(m, Instance(c, args)))
  {
    var both := Push(Push(m, Global(c)), Tuple(args));
    assert both.stack[..|both.stack| - 2] == m.stack;
  }

  lemma {:induction false} ReadsClass(m: Machine, c: ClassId, rest: seq<byte>)
    requires HasShortName(c)
    ensures Execute(m, EncodeClass(c) + rest) == Execute(Push(m, Global(c)), rest)
  {
    var tail := [STACK_GLOBAL] + rest;
    assert EncodeClass(c) + rest == EncodeText(c.mod) + (EncodeText(c.name) + tail);
    ReadsText(m, c.mod, EncodeText(c.name) + tail);
    var m1 := Push(m, Str(c.mod));
    ReadsText(m1, c.name, tail);
    TakesGlobal(m, c);
    ReadsOpcode(Push(m1, Str(c.name)), STACK_GLOBAL, rest);
  }

  // ---------------------------------------------------------------- members

  lemma {:induction false} PushesLast(m: Machine, items: seq<PyObj>)
    requires items != []
    ensures PushAll(m, items) == Push(PushAll(m, items[..|items| - 1]), items[|items| - 1])
  {
    assert items == items[..|items| - 1] + [items[|items| - 1]];
  }

  lemma {:induction false} ReadsAll(m: Machine, items: seq<PyObj>, rest: seq<byte>)
    requires AllNoBig(items) && AllShort(items)
    ensures Execute(m, EncodeAll(items) + rest) == Execute(PushAll(m, items), rest)
    decreases items, 0
  {
    if items == [] {
      assert [] + rest == rest && PushAll(m, []) == m;
    } else {
      var front, last := items[..|items| - 1], items[|items| - 1];
      Regroup(EncodeAll(front), Encode(last), rest);
      ReadsAll(m, front, Encode(last) + rest);
      Reads(PushAll(m, front), last, rest);
      PushesLast(m, items);
    }
  }

  /** Keys and values in the order they are pushed. */
  function Flat(pairs: seq<Entry>): (items: seq<PyObj>)
    ensures |items| == 2 * |pairs|
  {
    if pairs == [] then [] else Flat(pairs[..|pairs| - 1]) + [pairs[|pairs| - 1].key, pairs[|pairs| - 1].val]
  }

  lemma {:induction false} PairedUndoesFlat(pairs: seq<Entry>)
    ensures Paired(Flat(pairs)) == Some(pairs)
  {
    if pairs != [] {
      var front, last := pairs[..|pairs| - 1], pairs[|pairs| - 1];
      PairedUndoesFlat(front);
      var items := Flat(pairs);
      assert items == Flat(front) + [last.key, last.val];
      assert items[..|items| - 2] == Flat(front);
      assert Paired(items) == Some(front + [Entry(last.key, last.val)]);
      assert pairs == front + [last];
    }
  }

  lemma {:induction false} ReadsPairs(m: Machine, pairs: seq<Entry>, rest: seq<byte>)
    requires forall i :: 0 <= i < |pairs| ==> NoBig(pairs[i].key) && NoBig(pairs[i].val)
    requires forall i :: 0 <= i < |pairs| ==> ShortStrings(pairs[i].key) && ShortStrings(pairs[i].val)
    ensures Execute(m, EncodePairs(pairs) + rest) == Execute(PushAll(m, Flat(pairs)), rest)
    decreases pairs, 0
  {
    if pairs == [] {
      assert [] + rest == rest && PushAll(m, []) == m;
    } else {
      var front, last := pairs[..|pairs| - 1], pairs[|pairs| - 1];
      Regroup(EncodePairs(front), EncodeEntry(last), rest);
      ReadsPairs(m, front, EncodeEntry(last) + rest);
      ReadsEntry(PushAll(m, Flat(front)), last, rest);
      assert PushAll(PushAll(m, Flat(front)), [last.key, last.val]) == PushAll(m, Flat(pairs));
    }
  }

  lemma {:induction false} ReadsEntry(m: Machine, e: Entry, rest: seq<byte>)
    requires NoBig(e.key) && NoBig(e.val) && ShortStrings(e.key) && ShortStrings(e.val)
    ensures Execute(m, EncodeEntry(e) + rest) == Execute(PushAll(m, [e.key, e.val]), rest)
    decreases e
  {
    Regroup(Encode(e.key), Encode(e.val), rest);
    Reads(m, e.key, Encode(e.val) + rest);
    Reads(Push(m, e.key), e.val, rest);
    assert Push(Push(m, e.key), e.val) == PushAll(m, [e.key, e.val]);
  }

  function TupleOpcode(arity: nat): byte {
    if arity == 1 then TUPLE1 else if arity == 2 then TUPLE2 else TUPLE3
  }

  lemma {:induction false} TakesShortTuple(m: Machine, items: seq<PyObj>)
    requires 1 <= |items| <= 3
    ensures Apply(PushAll(m, items), TupleOpcode(|items|), []) == Some(Push(m, Tuple(items)))
  {
    var full := PushAll(m, items);
    assert full.stack[|full.stack| - |items|..] == items && full.stack[..|full.stack| - |items|] == m.stack;
  }

  lemma {:induction false} ReadsShortTuple(m: Machine, items: seq<PyObj>, rest: seq<byte>)
    requires 1 <= |items| <= 3 && AllNoBig(items) && AllShort(items)
    ensures Execute(m, EncodeAll(items) + [TupleOpcode(|items|)] + rest) == Execute(Push(m, Tuple(items)), rest)
    decreases items, 1
  {
    var op := TupleOpcode(|items|);
    Regroup(EncodeAll(items), [op], rest);
    ReadsAll(m, items, [op] + rest);
    TakesShortTuple(m, items);
    ReadsOpcode(PushAll(m, items), op, rest);
  }

  lemma {:induction false} ReadsLongTuple(m: Machine, items: seq<PyObj>, rest: seq<byte>)
    requires AllNoBig(items) && AllShort(items)
    ensures Execute(m, [MARK] + EncodeAll(items) + [TUPLE] + rest) == Execute(Push(m, Tuple(items)), rest)
    decreases items, 1
  {
    OverAMark(m, EncodeAll(items), TUPLE, rest);
    ReadsAll(Machine([], m.aside + [m.stack]), items, [TUPLE] + rest);
    assert [] + items == items;
    Unmarks(m, items);
    ReadsOpcode(Machine(items, m.aside + [m.stack]), TUPLE, rest);
  }

  lemma {:induction false} ReadsTuple(m: Machine, items: seq<PyObj>, rest: seq<byte>)
    requires AllNoBig(items) && AllShort(items)
    ensures Execute(m, EncodeTuple(items) + rest) == Execute(Push(m, Tuple(items)), rest)
    decreases items, 2
  {
    if |items| == 0 {
      ReadsOpcode(m, EMPTY_TUPLE, rest);
    } else if |items| <= 3 {
      ReadsShortTuple(m, items, rest);
    } else {
      ReadsLongTuple(m, items, rest);
    }
  }

  /** A mark starts a fresh stack with the old one put aside. */
  lemma {:induction false} OverAMark(m: Machine, members: seq<byte>, fill: byte, rest: seq<byte>)
    ensures Execute(m, [MARK] + members + [fill] + rest)
            == Execute(Machine([], m.aside + [m.stack]), members + ([fill] + rest))
  {
    assert [MARK] + members + [fill] + rest == [MARK] + (members + ([fill] + rest));
    ReadsOpcode(m, MARK, members + ([fill] + rest));
  }

  /** What the opcodes that gather down to a mark find below it. */
  lemma {:induction false} Unmarks(m: Machine, items: seq<PyObj>)
    ensures var full := Machine(items, m.aside + [m.stack]);
            Machine(full.aside[|full.aside| - 1], full.aside[..|full.aside| - 1]) == m
  {
  }

  /** A container is pushed empty and then, if it has members, filled from over a mark. */
  lemma {:induction false} Fills(m: Machine, hollow: PyObj, members: seq<byte>, items: seq<PyObj>, fill: byte,
        full: PyObj, rest: seq<byte>)
    requires fill == APPENDS || fill == ADDITEMS || fill == SETITEMS
    requires Extended(fill, hollow, items) == Some(full)
    requires var over := Machine([], m.aside + [m.stack + [hollow]]);
             Execute(over, members + ([fill] + rest)) == Execute(PushAll(over, items), [fill] + rest)
    ensures Execute(Push(m, hollow), [MARK] + members + [fill] + rest) == Execute(Push(m, full), rest)
  {
    var base := Push(m, hollow);
    OverAMark(base, members, fill, rest);
    assert [] + items == items;
    Unmarks(base, items);
    assert base.stack[..|base.stack| - 1] == m.stack;
    ReadsOpcode(Machine(items, base.aside + [base.stack]), fill, rest);
  }

  lemma {:induction false} ReadsContainer(m: Machine, empty: byte, hollow: PyObj, items: seq<PyObj>, fill: byte,
        full: PyObj, rest: seq<byte>)
    requires (empty == EMPTY_LIST && hollow == List([]) && fill == APPENDS && full == List(items))
             || (empty == EMPTY_SET && hollow == Set([]) && fill == ADDITEMS && full == Set(items))
    requires AllNoBig(items) && AllShort(items)
    ensures Execute(m, Filled(empty, items == [], EncodeAll(items), fill) + rest) == Execute(Push(m, full), rest)
    decreases items, 1
  {
    var filling := if items == [] then [] else [MARK] + EncodeAll(items) + [fill];
    Regroup([empty], filling, rest);
    assert Apply(m, empty, []) == Some(Push(m, hollow));
    ReadsOpcode(m, empty, filling + rest);
    if items == [] {
      assert [] + rest == rest;
    } else {
      ReadsAll(Machine([], m.aside + [m.stack + [hollow]]), items, [fill] + rest);
      assert [] + items == items;
      Fills(m, hollow, EncodeAll(items), items, fill, full, rest);
    }
  }

  lemma {:induction false} FillsDict(m: Machine, pairs: seq<Entry>, rest: seq<byte>)
    requires pairs != []
    requires forall i :: 0 <= i < |pairs| ==> NoBig(pairs[i].key) && NoBig(pairs[i].val)
    requires forall i :: 0 <= i < |pairs| ==> ShortStrings(pairs[i].key) && ShortStrings(pairs[i].val)
    ensures Execute(Push(m, Dict([])), [MARK] + EncodePairs(pairs) + [SETITEMS] + rest) == Execute(Push(m,
              Dict(pairs)), rest)
    decreases pairs, 1
  {
    ReadsPairs(Machine([], m.aside + [m.stack + [Dict([])]]), pairs, [SETITEMS] + rest);
    PairedUndoesFlat(pairs);
    assert [] + pairs == pairs;
    Fills(m, Dict([]), EncodePairs(pairs), Flat(pairs), SETITEMS, Dict(pairs), rest);
  }

  lemma {:induction false} ReadsDict(m: Machine, pairs: seq<Entry>, rest: seq<byte>)
    requires forall i :: 0 <= i < |pairs| ==> NoBig(pairs[i].key) && NoBig(pairs[i].val)
    requires forall i :: 0 <= i < |pairs| ==> ShortStrings(pairs[i].key) && ShortStrings(pairs[i].val)
    ensures Execute(m, Filled(EMPTY_DICT, pairs == [], EncodePairs(pairs), SETITEMS) + rest) == Execute(Push(m,
              Dict(pairs)), rest)
    decreases pairs, 2
  {
    var filling := if pairs == [] then [] else [MARK] + EncodePairs(pairs) + [SETITEMS];
    Regroup([EMPTY_DICT], filling, rest);
    ReadsOpcode(m, EMPTY_DICT, filling + rest);
    if pairs == [] {
      assert [] + rest == rest;
    } else {
      FillsDict(m, pairs, rest);
    }
  }

  lemma {:induction false} ReadsInstance(m: Machine, c: ClassId, args: seq<PyObj>, rest: seq<byte>)
    requires HasShortName(c) && AllNoBig(args) && AllShort(args)
    ensures Execute(m, EncodeClass(c) + EncodeTuple(args) + [REDUCE] + rest) == Execute(Push(m, Instance(c, args)),
              rest)
    decreases args, 3
  {
    var tail := [REDUCE] + rest;
    assert EncodeClass(c) + EncodeTuple(args) + [REDUCE] + rest == EncodeClass(c) + (EncodeTuple(args) + tail);
    ReadsClass(m, c, EncodeTuple(args) + tail);
    ReadsTuple(Push(m, Global(c)), args, tail);
    TakesInstance(m, c, args);
    ReadsOpcode(Push(Push(m, Global(c)), Tuple(args)), REDUCE, rest);
  }

  // ---------------------------------------------------------------- the round trip

  /**
   Running the machine on an encoded value, from any stack, any marks and with any bytes after it,
   pushes exactly that value and consumes exactly its bytes.
   */
  lemma {:induction false} Reads(m: Machine, v: PyObj, rest: seq<byte>)
    requires NoBig(v) && ShortStrings(v)
    ensures Execute(m, Encode(v) + rest) == Execute(Push(m, v), rest)
    decreases v
  {
    match v
    case Nil => ReadsOpcode(m, NONE, rest);
    case Bool(b) => ReadsOpcode(m, if b then NEWTRUE else NEWFALSE, rest);
    case Int(n) => ReadsInt(m, n, rest);
    case Float(bits) => ReadsFloat(m, bits, rest);
    case Str(t) => ReadsText(m, t, rest);
    case List(items) => ReadsContainer(m, EMPTY_LIST, List([]), items, APPENDS, v, rest);
    case Set(items) => ReadsContainer(m, EMPTY_SET, Set([]), items, ADDITEMS, v, rest);
    case Dict(pairs) => ReadsDict(m, pairs, rest);
    case Tuple(items) => ReadsTuple(m, items, rest);
    case Global(c) => ReadsClass(m, c, rest);
    case Instance(c, args) => ReadsInstance(m, c, args, rest);
  }

  lemma {:induction false} LoadsUndoesDumps(v: PyObj)
    requires NoBig(v) && ShortStrings(v)
    ensures Loads(Dumps(v)) == Some(v)
  {
    var m := Machine([], []);
    var tail := Encode(v) + [STOP];
    assert Dumps(v) == [PROTO] + [PROTOCOL] + tail;
    StepsOver(m, PROTO, [PROTOCOL], tail);
    Reads(m, v, [STOP]);
  }

  /** Two trees with one stream are one tree. */
  lemma {:induction false} DumpsIsInjective(v: PyObj, u: PyObj)
    requires NoBig(v) && ShortStrings(v) && NoBig(u) && ShortStrings(u)
    requires Dumps(v) == Dumps(u)
    ensures v == u
  {
    LoadsUndoesDumps(v);
    LoadsUndoesDumps(u);
  }

  // ---------------------------------------------------------------- strings too long for their prefix

  ghost predicate IsShortMachine(m: Machine) {
    && AllShort(m.stack)
    && forall i :: 0 <= i < |m.aside| ==> AllShort(m.aside[i])
  }

  lemma {:induction false} PairedIsShort(items: seq<PyObj>)
    requires AllShort(items) && Paired(items).Some?
    ensures var pairs := Paired(items).value;
            forall i :: 0 <= i < |pairs| ==> ShortStrings(pairs[i].key) && ShortStrings(pairs[i].val)
  {
    if items != [] { PairedIsShort(items[..|items| - 2]); }
  }

  lemma {:induction false} LiteralIsShort(op: byte, arg: seq<byte>, input: seq<byte>)
    requires ArgumentLength(op, input) == Some(|arg|) && |arg| <= |input| && arg == input[..|arg|]
    requires Literal(op, arg).Some?
    ensures ShortStrings(Literal(op, arg).value)
  {
    if op == BINUNICODE {
      UnsignedIsHeld(input[..4]);
      EightBytesHold(0);
    } else if op == SHORT_BINUNICODE {
      UnsignedIsHeld(input[..1]);
      assert Power256(1) == 256;
    }
  }

  lemma {:induction false} ReplaceIsShort(m: Machine, n: nat, v: PyObj)
    requires IsShortMachine(m) && n <= |m.stack| && ShortStrings(v)
    ensures IsShortMachine(Replace(m, n, v))
  {
  }

  lemma {:induction false} CombineIsShort(m: Machine, op: byte)
    requires IsShortMachine(m) && Combine(m, op).Some?
    ensures IsShortMachine(Combine(m, op).value)
  {
    var depth := |m.stack|;
    if op == TUPLE1 {
      ReplaceIsShort(m, 1, Tuple(m.stack[depth - 1..]));
    } else if op == TUPLE2 {
      ReplaceIsShort(m, 2, Tuple(m.stack[depth - 2..]));
    } else if op == TUPLE3 {
      ReplaceIsShort(m, 3, Tuple(m.stack[depth - 3..]));
    } else if op == STACK_GLOBAL {
      assert ShortStrings(Peek(m, 1)) && ShortStrings(Peek(m, 2));
      ReplaceIsShort(m, 2, Global(ClassId(Peek(m, 2).text, Peek(m, 1).text)));
    } else {
      assert ShortStrings(Peek(m, 1)) && ShortStrings(Peek(m, 2));
      ReplaceIsShort(m, 2, Instance(Peek(m, 2).class_, Peek(m, 1).items));
    }
  }

  lemma {:induction false} GatherIsShort(m: Machine, op: byte)
    requires IsShortMachine(m) && Gather(m, op).Some?
    ensures IsShortMachine(Gather(m, op).value)
  {
    var next := Gather(m, op).value;
    if op == SETITEMS { PairedIsShort(m.stack); }
    assert AllShort(m.aside[|m.aside| - 1]);
    assert ShortStrings(Peek(next, 1));
  }

  lemma {:induction false} ApplyIsShort(m: Machine, op: byte, arg: seq<byte>, input: seq<byte>)
    requires IsShortMachine(m) && Apply(m, op, arg).Some?
    requires ArgumentLength(op, input) == Some(|arg|) && |arg| <= |input| && arg == input[..|arg|]
    ensures IsShortMachine(Apply(m, op, arg).value)
  {
    if op == PROTO {
    } else if op == MARK {
      assert AllShort([]);
    } else if IsGathering(op) {
      GatherIsShort(m, op);
    } else if Literal(op, arg).Some? {
      LiteralIsShort(op, arg, input);
    } else {
      CombineIsShort(m, op);
    }
  }

  /** No stream at all makes the machine build a string of four gigabytes. */
  lemma {:induction false} ExecuteIsShort(m: Machine, input: seq<byte>)
    requires IsShortMachine(m)
    ensures Execute(m, input).Some? ==> ShortStrings(Execute(m, input).value)
    decreases |input|
  {
    if input == [] {
    } else if input[0] == STOP {
    } else if Execute(m, input).Some? {
      var op, length := input[0], ArgumentLength(input[0], input[1..]).value;
      var arg := input[1..1 + length];
      assert arg == input[1..][..|arg|];
      ApplyIsShort(m, op, arg, input[1..]);
      ExecuteIsShort(Apply(m, op, arg).value, input[1 + length..]);
    }
  }

  /** Exactly the trees whose strings all fit their length prefix survive the round trip. */
  lemma {:induction false} LoadsUndoesDumpsIff(v: PyObj)
    requires NoBig(v)
    ensures Loads(Dumps(v)) == Some(v) <==> ShortStrings(v)
  {
    if ShortStrings(v) {
      LoadsUndoesDumps(v);
    } else {
      ExecuteIsShort(Machine([], []), Dumps(v));
    }
  }

  // ---------------------------------------------------------------- how narrow the stream is

  /** One of the integer opcodes and its whole argument, pushing `n`. */
  predicate IsIntForm(op: byte, arg: seq<byte>, n: i64) {
    && (op == BININT1 || op == BININT2 || op == BININT || op == LONG1)
    && ArgumentLength(op, arg) == Some(|arg|) && Literal(op, arg) == Some(Int(n))
  }

  /** The integers for which a one- or two-byte LONG1 would have been shorter than the BININT that is written. */
  predicate IsSmallNegative(n: i64) {
    -0x8000 <= n < 0
  }

  lemma {:induction false} IntFormsHold(op: byte, arg: seq<byte>, n: i64)
    requires IsIntForm(op, arg, n)
    ensures op == BININT1 ==> |arg| == 1 && 0 <= n < 0x100
    ensures op == BININT2 ==> |arg| == 2 && 0 <= n < 0x1_0000
    ensures op == BININT ==> |arg| == 4 && -TWO_TO_THE_31 <= n < TWO_TO_THE_31
    ensures op == LONG1 ==> |arg| > 0 && Holds(|arg| - 1, n)
  {
    assert Power256(1) == 0x100 && Power256(2) == 0x1_0000 && Power256(3) == 0x100_0000;
    if op == LONG1 {
      SignedIsHeld(arg[1..]);
    } else if op == BININT {
      SignedIsHeld(arg);
    } else {
      UnsignedIsHeld(arg);
    }
  }

  lemma {:induction false} LongFormsAreLonger(n: i64, width: nat)
    requires Holds(width, n) && !IsSmallNegative(n)
    ensures |EncodeInt(n)| <= 2 + width
  {
    assert Power256(1) == 0x100;
    if width <= 1 {
      if width == 1 { assert Power256(0) == 1; }
    } else if width == 2 {
      assert -0x8000 <= n < 0x8000;
    } else if !(-TWO_TO_THE_31 <= n < TWO_TO_THE_31) {
      var w := Narrowest(n);
      if width < w { WiderHolds(width, w - 1, n); }
    }
  }

  /** No form is shorter than the one written for an integer, unless it is negative and fits two bytes. */
  lemma {:induction false} IntsAreShortestIff(n: i64)
    ensures (forall op: byte, arg: seq<byte> :: IsIntForm(op, arg, n) ==> |EncodeInt(n)| <= 1 + |arg|)
            <==> !IsSmallNegative(n)
  {
    if IsSmallNegative(n) {
      var arg := [2] + LittleEndian(n, 2);
      assert Power256(1) == 0x100;
      SignedUndoesIff(n, 2);
      assert arg[1..] == LittleEndian(n, 2) && arg[..1] == [2] && Unsigned([2]) == 2;
      assert IsIntForm(LONG1, arg, n) && |EncodeInt(n)| == 5;
    } else {
      forall op: byte, arg: seq<byte> | IsIntForm(op, arg, n) ensures |EncodeInt(n)| <= 1 + |arg| {
        IntFormsHold(op, arg, n);
        if op == LONG1 { LongFormsAreLonger(n, |arg| - 1); }
      }
    }
  }

  /** No form is shorter than the one written for a string: its prefix is one byte exactly when one byte can say it. */
  lemma {:induction false} TextsAreShortest(t: Text, op: byte, arg: seq<byte>)
    requires op == SHORT_BINUNICODE || op == BINUNICODE
    requires ArgumentLength(op, arg) == Some(|arg|) && Literal(op, arg) == Some(Str(t))
    ensures |EncodeText(t)| <= 1 + |arg|
  {
    if op == SHORT_BINUNICODE {
      UnsignedIsHeld(arg[..1]);
      assert Power256(1) == 0x100;
    }
  }

  /** A tuple costs one byte over its members if it has at most three, and two if it has more. */
  lemma {:induction false} TuplesAreShort(items: seq<PyObj>)
    requires AllNoBig(items)
    ensures |EncodeTuple(items)| == |EncodeAll(items)| + if |items| <= 3 then 1 else 2
  {
  }
}
