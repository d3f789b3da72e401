/** The options for creating an OS account for a domain account, and their parcel form. */
module DomainOptionsSpec {
  import opened AccountTypes
  import opened ParcelSpec

  const ALLOWED_HAP_LIST_MAX_SIZE := 1000
  const DISALLOWED_HAP_LIST_MAX_SIZE := 1000

  datatype Value = Value(
    allowedHapList: Option<seq<string>>,
    disallowedHapList: seq<string>,
    shortName: string,
    hasShortName: bool,
    hasToken: bool,
    token: seq<byte>,
    localId: Option<int32>)

  function EncodeAllowed(o: Option<seq<string>>): seq<Item> {
    if o.Some? then [Flag(true), Strs(o.value)] else [Flag(false)]
  }

  function EncodeMiddle(v: Value): seq<Item> {
    [Strs(v.disallowedHapList), Str(v.shortName), Flag(v.hasShortName), Flag(v.hasToken), Bytes(v.token)]
  }

  function EncodeLocalId(o: Option<int32>): seq<Item> {
    if o.Some? then [Flag(true), I32(o.value)] else [Flag(false)]
  }

  function Encode(v: Value): seq<Item> {
    EncodeAllowed(v.allowedHapList) + (EncodeMiddle(v) + EncodeLocalId(v.localId))
  }

  /** Within the sizes both sides take. */
  predicate Fits(v: Value) {
    (v.allowedHapList.Some? ==> |v.allowedHapList.value| <= ALLOWED_HAP_LIST_MAX_SIZE)
    && |v.disallowedHapList| <= DISALLOWED_HAP_LIST_MAX_SIZE
  }

  function DecodeAllowed(s: seq<Item>): Read<Option<seq<string>>> {
    var (has, s) :- TakeBool(s);
    if !has then Got(None, s)
    else
      var (list, s) :- TakeStrings(s);
      if |list| > ALLOWED_HAP_LIST_MAX_SIZE then Failed else Got(Some(list), s)
  }

  /** The items in the middle, into `v`. */
  function DecodeMiddle(s: seq<Item>, v: Value): Read<Value> {
    if |s| >= 5 && s[0].Strs? && |s[0].strs| <= DISALLOWED_HAP_LIST_MAX_SIZE
       && s[1].Str? && s[2].Flag? && s[3].Flag? && s[4].Bytes?
    then Got(v.(disallowedHapList := s[0].strs, shortName := s[1].str, hasShortName := s[2].flag,
                hasToken := s[3].flag, token := s[4].bytes), s[5..])
    else Failed
  }

  function DecodeLocalId(s: seq<Item>): Read<Option<int32>> {
    var (has, s) :- TakeBool(s);
    if !has then Got(None, s) else var (id, s) :- TakeInt32(s); Got(Some(id), s)
  }

  /** Reading into an object that holds `v`: what is absent stays as it was. */
  function DecodeInto(s: seq<Item>, v: Value): Read<Value> {
    var (allowed, s) :- DecodeAllowed(s);
    var (v1, s) :- DecodeMiddle(s, v);
    var (id, s) :- DecodeLocalId(s);
    Got(v1.(allowedHapList := if allowed.Some? then allowed else v.allowedHapList,
            localId := if id.Some? then id else v.localId), s)
  }

  /** A fresh object: no list, no id. */
  const FRESH := Value(None, [], "", false, false, [], None)

  function Decode(s: seq<Item>): Read<Value> {
    DecodeInto(s, FRESH)
  }

  lemma AllowedExact(s: seq<Item>, o: Option<seq<string>>, r: seq<Item>)
    ensures DecodeAllowed(s) == Got(o, r) <==>
              s == EncodeAllowed(o) + r && (o.Some? ==> |o.value| <= ALLOWED_HAP_LIST_MAX_SIZE)
  {
    if DecodeAllowed(s) == Got(o, r) {
      assert s == s[..|EncodeAllowed(o)|] + r;
    }
    if s == EncodeAllowed(o) + r {
      assert s[1..] == EncodeAllowed(o)[1..] + r;
      assert s[|EncodeAllowed(o)|..] == r;
    }
  }

  lemma LocalIdExact(s: seq<Item>, o: Option<int32>, r: seq<Item>)
    ensures DecodeLocalId(s) == Got(o, r) <==> s == EncodeLocalId(o) + r
  {
    if DecodeLocalId(s) == Got(o, r) {
      assert s == s[..|EncodeLocalId(o)|] + r;
    }
    if s == EncodeLocalId(o) + r {
      assert s[1..] == EncodeLocalId(o)[1..] + r;
      assert s[|EncodeLocalId(o)|..] == r;
    }
  }

  lemma MiddleExact(s: seq<Item>, v: Value, w: Value, r: seq<Item>)
    ensures DecodeMiddle(s, v) == Got(w, r) <==>
              s == EncodeMiddle(w) + r && |w.disallowedHapList| <= DISALLOWED_HAP_LIST_MAX_SIZE
              && w.allowedHapList == v.allowedHapList && w.localId == v.localId
  {
    if DecodeMiddle(s, v) == Got(w, r) {
      assert s == s[..5] + s[5..];
    }
  }

  /** The reader accepts exactly the writer's items for a value within the limits, and gives that value back. */
  lemma ReaderInvertsWriter(s: seq<Item>, v: Value, r: seq<Item>)
    ensures Decode(s) == Got(v, r) <==> s == Encode(v) + r && Fits(v)
  {
    var a, m, i := EncodeAllowed(v.allowedHapList), EncodeMiddle(v), EncodeLocalId(v.localId);
    var w := v.(allowedHapList := None, localId := None);
    assert EncodeMiddle(w) == m;
    var s1, s2 := m + (i + r), i + r;
    assert Encode(v) + r == a + s1;
    if s == Encode(v) + r && Fits(v) {
      AllowedExact(s, v.allowedHapList, s1);
      MiddleExact(s1, FRESH, w, s2);
      LocalIdExact(s2, v.localId, r);
    }
    if Decode(s) == Got(v, r) {
      var t1 := DecodeAllowed(s).rest;
      var t2 := DecodeMiddle(t1, FRESH).rest;
      AllowedExact(s, v.allowedHapList, t1);
      MiddleExact(t1, FRESH, w, t2);
      LocalIdExact(t2, v.localId, r);
    }
  }

  /** The items of a value with everything there, and of one with nothing optional, in the order both sides use. */
  lemma WireForm(v: Value, allowed: seq<string>, id: int32)
    ensures
      Encode(v.(allowedHapList := Some(allowed), localId := Some(id))) ==
      [Flag(true), Strs(allowed), Strs(v.disallowedHapList), Str(v.shortName), Flag(v.hasShortName), Flag(v.hasToken),
       Bytes(v.token), Flag(true), I32(id)]
    ensures
      Encode(v.(allowedHapList := None, localId := None)) ==
      [Flag(false), Strs(v.disallowedHapList), Str(v.shortName), Flag(v.hasShortName), Flag(v.hasToken),
       Bytes(v.token), Flag(false)]
  {
  }

  lemma RoundTrip(v: Value, r: seq<Item>)
    ensures Decode(Encode(v) + r) == Got(v, r) <==> Fits(v)
  {
    ReaderInvertsWriter(Encode(v) + r, v, r);
  }

  /** The items of a value with too long a list are refused. */
  lemma TooLongIsRefused(v: Value)
    requires !Fits(v)
    ensures Decode(Encode(v)).Failed?
  {
    var s, a, m := Encode(v), EncodeAllowed(v.allowedHapList), EncodeMiddle(v);
    var rest := m + EncodeLocalId(v.localId);
    if v.allowedHapList.Some? && |v.allowedHapList.value| > ALLOWED_HAP_LIST_MAX_SIZE {
      assert s[0] == a[0] && s[1..][0] == a[1];
    } else {
      AllowedExact(s, v.allowedHapList, rest);
      assert rest[0] == m[0];
    }
  }

  /** What is accepted stays accepted, with the same value, when more follows. */
  lemma Extends(s: seq<Item>, v: Value, r: seq<Item>, more: seq<Item>)
    requires Decode(s) == Got(v, r)
    ensures Decode(s + more) == Got(v, r + more)
  {
    ReaderInvertsWriter(s, v, r);
    assert s + more == Encode(v) + (r + more);
    ReaderInvertsWriter(s + more, v, r + more);
  }

  /** No strict prefix of a value's items is accepted, whether the value is within the limits or not. */
  lemma NoPrefixIsAccepted(v: Value, p: seq<Item>)
    requires p < Encode(v)
    ensures Decode(p).Failed?
  {
    if Decode(p).Got? {
      var missing := Encode(v)[|p|..];
      assert Encode(v) == p + missing;
      Extends(p, Decode(p).value, Decode(p).rest, missing);
      if Fits(v) {
        assert Encode(v) == Encode(v) + [];
        ReaderInvertsWriter(Encode(v), v, []);
      } else {
        TooLongIsRefused(v);
      }
    }
  }

  /** What `Marshalling` leaves in an empty parcel when it fails is never taken for a value. */
  lemma HalfWrittenIsRejected(v: Value, d: seq<Item>)
    requires Wrote([], d, Encode(v), false)
    ensures Decode(d).Failed?
  {
    WroteMeaning([], d, Encode(v), false);
    assert [] + Encode(v) == Encode(v);
    NoPrefixIsAccepted(v, d);
  }
}

module DomainOptions {
  import opened AccountTypes
  import opened ParcelSpec
  import opened DomainOptionsSpec
  import opened Parcels

  class CreateOsAccountForDomainOptions {
    var allowedHapList: Option<seq<string>>
    var disallowedHapList: seq<string>
    var shortName: string
    var hasShortName: bool
    var hasToken: bool
    var token: seq<byte>
    var localId: Option<int32>

    function Contents(): Value
      reads this
    {
      Value(allowedHapList, disallowedHapList, shortName, hasShortName, hasToken, token, localId)
    }

    constructor ()
      ensures Contents() == FRESH
    {
      allowedHapList, disallowedHapList, shortName := None, [], "";
      hasShortName, hasToken, token, localId := false, false, [], None;
    }

    method WriteAllowed(parcel: Parcel) returns (ok: bool)
      requires parcel.Valid()
      modifies parcel`data
      ensures parcel.Valid()
      ensures ok == (|old(parcel.data)| + |EncodeAllowed(allowedHapList)| <= parcel.capacity
                     && (allowedHapList.Some? ==> |allowedHapList.value| <= ALLOWED_HAP_LIST_MAX_SIZE))
      ensures Wrote(old(parcel.data), parcel.data, EncodeAllowed(allowedHapList), ok)
    {
      if allowedHapList.Some? {
        ok := parcel.Write(Flag(true));
        if !ok {
          return;
        }
        var list := allowedHapList.value;
        if |list| > ALLOWED_HAP_LIST_MAX_SIZE {
          return false;
        }
        ok := parcel.Write(Strs(list));
      } else {
        ok := parcel.Write(Flag(false));
      }
    }

    method WriteMiddle(parcel: Parcel) returns (ok: bool)
      requires parcel.Valid()
      modifies parcel`data
      ensures parcel.Valid()
      ensures ok == (|old(parcel.data)| + |EncodeMiddle(Contents())| <= parcel.capacity
                     && |disallowedHapList| <= DISALLOWED_HAP_LIST_MAX_SIZE)
      ensures Wrote(old(parcel.data), parcel.data, EncodeMiddle(Contents()), ok)
    {
      if |disallowedHapList| > DISALLOWED_HAP_LIST_MAX_SIZE {
        return false;
      }
      ok := parcel.Write(Strs(disallowedHapList));
      if !ok {
        return;
      }
      ok := parcel.Write(Str(shortName));
      if !ok {
        return;
      }
      ok := parcel.Write(Flag(hasShortName));
      if !ok {
        return;
      }
      ok := parcel.Write(Flag(hasToken));
      if !ok {
        return;
      }
      ok := parcel.Write(Bytes(token));
    }

    method WriteLocalId(parcel: Parcel) returns (ok: bool)
      requires parcel.Valid()
      modifies parcel`data
      ensures parcel.Valid() && ok == (|old(parcel.data)| + |EncodeLocalId(localId)| <= parcel.capacity)
      ensures Wrote(old(parcel.data), parcel.data, EncodeLocalId(localId), ok)
    {
      if localId.Some? {
        ok := parcel.Write(Flag(true));
        if ok {
          ok := parcel.Write(I32(localId.value));
        }
        return;
      }
      ok := parcel.Write(Flag(false));
    }

    /** Appends the whole parcel form, or fails having appended a strict prefix of it. */
    method Marshalling(parcel: Parcel) returns (ok: bool)
      requires parcel.Valid()
      modifies parcel`data
      ensures parcel.Valid()
      ensures ok == (|old(parcel.data)| + |Encode(Contents())| <= parcel.capacity && Fits(Contents()))
      ensures Wrote(old(parcel.data), parcel.data, Encode(Contents()), ok)
    {
      ghost var d0 := parcel.data;
      ghost var a, m, i := EncodeAllowed(allowedHapList), EncodeMiddle(Contents()), EncodeLocalId(localId);
      ok := WriteAllowed(parcel);
      if !ok {
        WroteFirst(d0, parcel.data, a, m + i);
        return;
      }
      ghost var d1 := parcel.data;
      ok := WriteMiddle(parcel);
      if !ok {
        WroteFirst(d1, parcel.data, m, i);
        WroteBoth(d0, d1, parcel.data, a, m + i, false);
        return;
      }
      ghost var d2 := parcel.data;
      ok := WriteLocalId(parcel);
      WroteBoth(d1, d2, parcel.data, m, i, ok);
      WroteBoth(d0, d1, parcel.data, a, m + i, ok);
    }

    method ReadAllowed(parcel: Parcel) returns (ok: bool)
      requires parcel.Valid()
      modifies this`allowedHapList, parcel`pos
      ensures parcel.Valid() && ok == DecodeAllowed(old(parcel.Rest())).Got?
      ensures ok ==>
                var read := DecodeAllowed(old(parcel.Rest()));
                && parcel.Rest() == read.rest
                && allowedHapList == if read.value.Some? then read.value else old(allowedHapList)
    {
      var hasValue;
      ok, hasValue := parcel.ReadBool();
      if !ok || !hasValue {
        return;
      }
      var list;
      ok, list := parcel.ReadStringVector();
      if !ok {
        return;
      }
      if |list| > ALLOWED_HAP_LIST_MAX_SIZE {
        return false;
      }
      allowedHapList := Some(list);
    }

    method ReadMiddle(parcel: Parcel) returns (ok: bool)
      requires parcel.Valid()
      modifies this, parcel`pos
      ensures parcel.Valid() && ok == DecodeMiddle(old(parcel.Rest()), old(Contents())).Got?
      ensures ok ==> Got(Contents(), parcel.Rest()) == DecodeMiddle(old(parcel.Rest()), old(Contents()))
    {
      ok, disallowedHapList := parcel.ReadStringVector();
      if !ok {
        return;
      }
      if |disallowedHapList| > DISALLOWED_HAP_LIST_MAX_SIZE {
        return false;
      }
      ok, shortName := parcel.ReadString();
      if !ok {
        return;
      }
      ok, hasShortName := parcel.ReadBool();
      if !ok {
        return;
      }
      ok, hasToken := parcel.ReadBool();
      if !ok {
        return;
      }
      ok, token := parcel.ReadUInt8Vector();
    }

    method ReadLocalIdFromParcel(parcel: Parcel) returns (ok: bool)
      requires parcel.Valid()
      modifies this`localId, parcel`pos
      ensures parcel.Valid() && ok == DecodeLocalId(old(parcel.Rest())).Got?
      ensures ok ==>
                var read := DecodeLocalId(old(parcel.Rest()));
                && parcel.Rest() == read.rest
                && localId == if read.value.Some? then read.value else old(localId)
    {
      var hasLocalId;
      ok, hasLocalId := parcel.ReadBool();
      if ok && hasLocalId {
        var localIdValue;
        ok, localIdValue := parcel.ReadInt32();
        if ok {
          localId := Some(localIdValue);
        }
      }
    }

    method ReadFromParcel(parcel: Parcel) returns (ok: bool)
      requires parcel.Valid()
      modifies this, parcel`pos
      ensures parcel.Valid() && ok == DecodeInto(old(parcel.Rest()), old(Contents())).Got?
      ensures ok ==> Got(Contents(), parcel.Rest()) == DecodeInto(old(parcel.Rest()), old(Contents()))
    {
      ok := ReadAllowed(parcel);
      if !ok {
        return;
      }
      ok := ReadMiddle(parcel);
      if !ok {
        return;
      }
      ok := ReadLocalIdFromParcel(parcel);
    }
  }

  /** A fresh object read from the parcel, or null. */
  method Unmarshalling(parcel: Parcel) returns (options: CreateOsAccountForDomainOptions?)
    requires parcel.Valid()
    modifies parcel`pos
    ensures parcel.Valid() && (options != null <==> Decode(old(parcel.Rest())).Got?)
    ensures options != null ==> fresh(options) && Got(options.Contents(), parcel.Rest()) == Decode(old(parcel.Rest()))
  {
    options := new CreateOsAccountForDomainOptions();
    var ok := options.ReadFromParcel(parcel);
    if !ok {
      options := null;
    }
  }
}
