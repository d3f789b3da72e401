/**
 Parcels: the typed items one process writes for another to read, in order. The item readers
 below are the reference for what a reader accepts; the class is what writers and readers use.
 */
module ParcelSpec {
  import opened AccountTypes

  type uint32 = x: int | 0 <= x < 0x1_0000_0000
  type byte = x: int | 0 <= x < 256

  datatype Item =
    | I32(i32: int32)
    | U32(u32: uint32)
    | Flag(flag: bool)
    | Str(str: string)
    | Strs(strs: seq<string>)
    | Bytes(bytes: seq<byte>)
    | Raw(raw: string)

  /** What reading gives: a value and the items left, or nothing. */
  datatype Read<+T> = Failed | Got(value: T, rest: seq<Item>) {
    predicate IsFailure() { Failed? }

    function PropagateFailure<U>(): Read<U>
      requires IsFailure()
    {
      Failed
    }

    function Extract(): (T, seq<Item>)
      requires !IsFailure()
    {
      (value, rest)
    }
  }

  function TakeInt32(s: seq<Item>): Read<int32> {
    if s != [] && s[0].I32? then Got(s[0].i32, s[1..]) else Failed
  }

  function TakeUint32(s: seq<Item>): Read<uint32> {
    if s != [] && s[0].U32? then Got(s[0].u32, s[1..]) else Failed
  }

  function TakeBool(s: seq<Item>): Read<bool> {
    if s != [] && s[0].Flag? then Got(s[0].flag, s[1..]) else Failed
  }

  function TakeString(s: seq<Item>): Read<string> {
    if s != [] && s[0].Str? then Got(s[0].str, s[1..]) else Failed
  }

  function TakeStrings(s: seq<Item>): Read<seq<string>> {
    if s != [] && s[0].Strs? then Got(s[0].strs, s[1..]) else Failed
  }

  function TakeBytes(s: seq<Item>): Read<seq<byte>> {
    if s != [] && s[0].Bytes? then Got(s[0].bytes, s[1..]) else Failed
  }

  /** Raw data is read back only under the size it was written with. */
  function TakeRaw(s: seq<Item>, size: int): Read<string> {
    if s != [] && s[0].Raw? && |s[0].raw| == size then Got(s[0].raw, s[1..]) else Failed
  }

  /** From `d0` to `d1` the writer appended all of `items`, or a strict prefix of them and failed. */
  predicate Wrote(d0: seq<Item>, d1: seq<Item>, items: seq<Item>, ok: bool) {
    && |d0| <= |d1| <= |d0| + |items|
    && d1 == (d0 + items)[..|d1|]
    && ok == (|d1| == |d0| + |items|)
  }

  lemma WroteMeaning(d0: seq<Item>, d1: seq<Item>, items: seq<Item>, ok: bool)
    requires Wrote(d0, d1, items, ok)
    ensures if ok then d1 == d0 + items else d0 <= d1 < d0 + items
  {
  }

  /** One writer after another; the second may fail. */
  lemma WroteBoth(d0: seq<Item>, d1: seq<Item>, d2: seq<Item>, x: seq<Item>, y: seq<Item>, ok: bool)
    requires Wrote(d0, d1, x, true) && Wrote(d1, d2, y, ok)
    ensures Wrote(d0, d2, x + y, ok)
  {
    assert d1 == d0 + x;
    assert d1 + y == d0 + (x + y);
  }

  /** The first writer failed, so the second never ran. */
  lemma WroteFirst(d0: seq<Item>, d1: seq<Item>, x: seq<Item>, y: seq<Item>)
    requires Wrote(d0, d1, x, false)
    ensures Wrote(d0, d1, x + y, false)
  {
    assert d0 + (x + y) == d0 + x + y;
  }
}

module Parcels {
  import opened AccountTypes
  import opened ParcelSpec

  class Parcel {
    /** How many items fit, and the largest raw block. */
    const capacity: nat
    const rawLimit: nat
    var data: seq<Item>
    var pos: nat

    ghost predicate Valid()
      reads this
    {
      pos <= |data|
    }

    /** The items not read yet. */
    function Rest(): seq<Item>
      requires Valid()
      reads this
    {
      data[pos..]
    }

    constructor (capacity: nat, rawLimit: nat)
      ensures Valid() && data == [] && pos == 0 && this.capacity == capacity && this.rawLimit == rawLimit
    {
      this.capacity, this.rawLimit := capacity, rawLimit;
      data, pos := [], 0;
    }

    /** Every writer of one item. */
    method Write(item: Item) returns (ok: bool)
      requires Valid()
      modifies this`data
      ensures Valid() && ok == (|old(data)| < capacity)
      ensures data == if ok then old(data) + [item] else old(data)
      ensures Wrote(old(data), data, [item], ok)
    {
      if |data| >= capacity {
        return false;
      }
      data := data + [item];
      return true;
    }

    /** The size is an `int32_t` turned into a `size_t`: a negative one is larger than any limit. */
    method WriteRawData(bytes: string, size: int32) returns (ok: bool)
      requires Valid() && size <= |bytes|
      modifies this`data
      ensures Valid() && ok == (0 <= size <= rawLimit && |old(data)| < capacity)
      ensures data == if ok then old(data) + [Raw(bytes[..size])] else old(data)
      ensures size >= 0 ==> Wrote(old(data), data, [Raw(bytes[..size])], ok)
    {
      if size < 0 || size > rawLimit {
        return false;
      }
      ok := Write(Raw(bytes[..size]));
    }

    method ReadInt32() returns (ok: bool, x: int32)
      requires Valid()
      modifies this`pos
      ensures Valid() && ok == (old(pos) < |data| && data[old(pos)].I32?)
      ensures if ok then pos == old(pos) + 1 && x == data[old(pos)].i32 else pos == old(pos)
    {
      if pos < |data| && data[pos].I32? {
        x := data[pos].i32;
        pos := pos + 1;
        return true, x;
      }
      return false, 0;
    }

    method ReadUint32() returns (ok: bool, x: uint32)
      requires Valid()
      modifies this`pos
      ensures Valid() && ok == (old(pos) < |data| && data[old(pos)].U32?)
      ensures if ok then pos == old(pos) + 1 && x == data[old(pos)].u32 else pos == old(pos)
    {
      if pos < |data| && data[pos].U32? {
        x := data[pos].u32;
        pos := pos + 1;
        return true, x;
      }
      return false, 0;
    }

    method ReadBool() returns (ok: bool, x: bool)
      requires Valid()
      modifies this`pos
      ensures Valid() && ok == (old(pos) < |data| && data[old(pos)].Flag?)
      ensures if ok then pos == old(pos) + 1 && x == data[old(pos)].flag else pos == old(pos)
    {
      if pos < |data| && data[pos].Flag? {
        x := data[pos].flag;
        pos := pos + 1;
        return true, x;
      }
      return false, false;
    }

    method ReadString() returns (ok: bool, x: string)
      requires Valid()
      modifies this`pos
      ensures Valid() && ok == (old(pos) < |data| && data[old(pos)].Str?)
      ensures if ok then pos == old(pos) + 1 && x == data[old(pos)].str else pos == old(pos)
    {
      if pos < |data| && data[pos].Str? {
        x := data[pos].str;
        pos := pos + 1;
        return true, x;
      }
      return false, "";
    }

    method ReadStringVector() returns (ok: bool, x: seq<string>)
      requires Valid()
      modifies this`pos
      ensures Valid() && ok == (old(pos) < |data| && data[old(pos)].Strs?)
      ensures if ok then pos == old(pos) + 1 && x == data[old(pos)].strs else pos == old(pos)
    {
      if pos < |data| && data[pos].Strs? {
        x := data[pos].strs;
        pos := pos + 1;
        return true, x;
      }
      return false, [];
    }

    method ReadUInt8Vector() returns (ok: bool, x: seq<byte>)
      requires Valid()
      modifies this`pos
      ensures Valid() && ok == (old(pos) < |data| && data[old(pos)].Bytes?)
      ensures if ok then pos == old(pos) + 1 && x == data[old(pos)].bytes else pos == old(pos)
    {
      if pos < |data| && data[pos].Bytes? {
        x := data[pos].bytes;
        pos := pos + 1;
        return true, x;
      }
      return false, [];
    }

    method ReadRawData(size: int32) returns (ok: bool, x: string)
      requires Valid()
      modifies this`pos
      ensures Valid() && ok == (old(pos) < |data| && data[old(pos)].Raw? && |data[old(pos)].raw| == size)
      ensures if ok then pos == old(pos) + 1 && x == data[old(pos)].raw else pos == old(pos)
    {
      if pos < |data| && data[pos].Raw? && |data[pos].raw| == size {
        x := data[pos].raw;
        pos := pos + 1;
        return true, x;
      }
      return false, "";
    }
  }
}
