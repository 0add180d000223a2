/** The writer as it is written: one growing buffer, bytes pushed onto it in loops. */
module PickleWriter {
  import opened Bytes
  import opened Pickle
  import opened PickleRoundTrip
  import opened Rooms

  lemma {:induction false} EncodesOneMore(items: seq<PyObj>, i: nat)
    requires AllNoBig(items) && i < |items|
    ensures EncodeAll(items[..i + 1]) == EncodeAll(items[..i]) + Encode(items[i])
  {
    assert items[..i + 1][..i] == items[..i];
  }

  lemma {:induction false} EncodesOneMorePair(pairs: seq<Entry>, i: nat)
    requires forall j :: 0 <= j < |pairs| ==> NoBig(pairs[j].key) && NoBig(pairs[j].val)
    requires i < |pairs|
    ensures EncodePairs(pairs[..i + 1]) == EncodePairs(pairs[..i]) + EncodeEntry(pairs[i])
  {
    assert pairs[..i + 1][..i] == pairs[..i];
  }

  lemma {:induction false} RegroupFilled(buffer: seq<byte>, empty: byte, members: seq<byte>, fill: byte)
    ensures buffer + [empty] + [MARK] + members + [fill] == buffer + ([empty] + ([MARK] + members + [fill]))
  {
    assert [empty] + [MARK] + members + [fill] == [empty] + ([MARK] + members + [fill]);
  }

  lemma {:induction false} RegroupThree(before: seq<byte>, a: seq<byte>, b: seq<byte>, c: seq<byte>)
    ensures before + a + b + c == before + (a + b + c)
  {
  }

  class Out {
    var bytes: seq<byte>

    constructor ()
      ensures bytes == []
    {
      bytes := [];
    }

    method Push(b: byte)
      modifies this
      ensures bytes == old(bytes) + [b]
    {
      bytes := bytes + [b];
    }

    method Extend(bs: seq<byte>)
      modifies this
      ensures bytes == old(bytes) + bs
    {
      bytes := bytes + bs;
    }

    method WriteInt(n: i64)
      modifies this
      ensures bytes == old(bytes) + EncodeInt(n)
    {
      if 0 <= n <= 0xff {
        Push(BININT1);
        Push(n);
        assert bytes == old(bytes) + [BININT1, n];
      } else if 0x100 <= n <= 0xffff {
        WriteFixed(BININT2, LittleEndian(n, 2));
      } else if -TWO_TO_THE_31 <= n < TWO_TO_THE_31 {
        WriteFixed(BININT, LittleEndian(n, 4));
      } else {
        WriteLong(n);
      }
    }

    /** An opcode and an argument of fixed width. */
    method WriteFixed(op: byte, arg: seq<byte>)
      modifies this
      ensures bytes == old(bytes) + ([op] + arg)
    {
      Push(op);
      Extend(arg);
      assert bytes == old(bytes) + ([op] + arg);
    }

    method WriteLong(n: i64)
      modifies this
      ensures bytes == old(bytes) + ([LONG1, Narrowest(n)] + LittleEndian(n, Narrowest(n)))
    {
      Push(LONG1);
      var body := Long1Body(n);
      Push(|body|);
      Extend(body);
      RegroupOpcode(old(bytes), LONG1, |body|, body);
    }

    method WriteStr(t: Text)
      modifies this
      ensures bytes == old(bytes) + EncodeText(t)
    {
      if |t| <= 0xff {
        Push(SHORT_BINUNICODE);
        Push(|t|);
        assert bytes == old(bytes) + [SHORT_BINUNICODE, |t|];
        Extend(t);
        assert bytes == old(bytes) + ([SHORT_BINUNICODE, |t|] + t);
      } else {
        WriteFixed(BINUNICODE, LittleEndian(|t|, 4));
        Extend(t);
        assert bytes == old(bytes) + ([BINUNICODE] + LittleEndian(|t|, 4) + t);
      }
    }

    method WriteGlobal(c: ClassId)
      modifies this
      ensures bytes == old(bytes) + EncodeClass(c)
    {
      WriteStr(c.mod);
      WriteStr(c.name);
      Push(STACK_GLOBAL);
      RegroupThree(old(bytes), EncodeText(c.mod), EncodeText(c.name), [STACK_GLOBAL]);
    }

    /** The members of a list, set or tuple, one after another. */
    method WriteItems(items: seq<PyObj>)
      requires AllNoBig(items)
      modifies this
      ensures bytes == old(bytes) + EncodeAll(items)
      decreases items, 0
    {
      for i := 0 to |items|
        invariant bytes == old(bytes) + EncodeAll(items[..i])
      {
        EncodesOneMore(items, i);
        Regroup(old(bytes), EncodeAll(items[..i]), Encode(items[i]));
        Write(items[i]);
      }
      assert items[..|items|] == items;
    }

    method WritePairs(pairs: seq<Entry>)
      requires forall i :: 0 <= i < |pairs| ==> NoBig(pairs[i].key) && NoBig(pairs[i].val)
      modifies this
      ensures bytes == old(bytes) + EncodePairs(pairs)
      decreases pairs, 0
    {
      for i := 0 to |pairs|
        invariant bytes == old(bytes) + EncodePairs(pairs[..i])
      {
        EncodesOneMorePair(pairs, i);
        Regroup(old(bytes), EncodePairs(pairs[..i]), EncodeEntry(pairs[i]));
        WriteEntry(pairs[i]);
      }
      assert pairs[..|pairs|] == pairs;
    }

    method WriteEntry(e: Entry)
      requires NoBig(e.key) && NoBig(e.val)
      modifies this
      ensures bytes == old(bytes) + EncodeEntry(e)
      decreases e
    {
      Regroup(old(bytes), Encode(e.key), Encode(e.val));
      Write(e.key);
      Write(e.val);
    }

    method WriteTuple(items: seq<PyObj>)
      requires AllNoBig(items)
      modifies this
      ensures bytes == old(bytes) + EncodeTuple(items)
      decreases items, 1
    {
      if |items| == 0 {
        Push(EMPTY_TUPLE);
      } else if |items| <= 3 {
        WriteItems(items);
        Push(if |items| == 1 then TUPLE1 else if |items| == 2 then TUPLE2 else TUPLE3);
      } else {
        Push(MARK);
        WriteItems(items);
        Push(TUPLE);
      }
    }

    /** A list or a set: its empty form, then its members over a mark. */
    method WriteContainer(empty: byte, items: seq<PyObj>, fill: byte)
      requires AllNoBig(items)
      modifies this
      ensures bytes == old(bytes) + Filled(empty, items == [], EncodeAll(items), fill)
      decreases items, 1
    {
      Push(empty);
      if items != [] {
        Push(MARK);
        WriteItems(items);
        Push(fill);
        RegroupFilled(old(bytes), empty, EncodeAll(items), fill);
      }
    }

    method WriteDict(pairs: seq<Entry>)
      requires forall i :: 0 <= i < |pairs| ==> NoBig(pairs[i].key) && NoBig(pairs[i].val)
      modifies this
      ensures bytes == old(bytes) + Filled(EMPTY_DICT, pairs == [], EncodePairs(pairs), SETITEMS)
      decreases pairs, 1
    {
      Push(EMPTY_DICT);
      if pairs != [] {
        Push(MARK);
        WritePairs(pairs);
        Push(SETITEMS);
        RegroupFilled(old(bytes), EMPTY_DICT, EncodePairs(pairs), SETITEMS);
      }
    }

    method WriteInstance(c: ClassId, args: seq<PyObj>)
      requires AllNoBig(args)
      modifies this
      ensures bytes == old(bytes) + (EncodeClass(c) + EncodeTuple(args) + [REDUCE])
      decreases args, 2
    {
      WriteGlobal(c);
      WriteTuple(args);
      Push(REDUCE);
      assert bytes == old(bytes) + (EncodeClass(c) + EncodeTuple(args) + [REDUCE]);
    }

    /** A tree without integers outside 64 bits: those the writer refuses outright. */
    method Write(v: PyObj)
      requires NoBig(v)
      modifies this
      ensures bytes == old(bytes) + Encode(v)
      decreases v
    {
      match v
      case Nil => Push(NONE);
      case Bool(b) => Push(if b then NEWTRUE else NEWFALSE);
      case Int(n) => WriteInt(n);
      case Float(bits) => WriteFixed(BINFLOAT, BigEndian(bits, 8));
      case Str(t) => WriteStr(t);
      case List(items) => WriteContainer(EMPTY_LIST, items, APPENDS);
      case Set(items) => WriteContainer(EMPTY_SET, items, ADDITEMS);
      case Dict(pairs) => WriteDict(pairs);
      case Tuple(items) => WriteTuple(items);
      case Global(c) => WriteGlobal(c);
      case Instance(c, args) => WriteInstance(c, args);
    }
  }

  /**
   A whole stream, which the stack machine reads back as the value it was made from exactly when its strings are
   short.
   */
  method WriteDumps(v: PyObj) returns (stream: seq<byte>)
    requires NoBig(v)
    ensures stream == Dumps(v)
    ensures Loads(stream) == Some(v) <==> ShortStrings(v)
  {
    var out := new Out();
    out.Push(PROTO);
    out.Push(PROTOCOL);
    assert out.bytes == [PROTO, PROTOCOL];
    out.Write(v);
    out.Push(STOP);
    stream := out.bytes;
    LoadsUndoesDumpsIff(v);
  }
}
