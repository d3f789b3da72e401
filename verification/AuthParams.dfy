/** The parameters of an authentication request and their parcel form. */
module AuthParamSpec {
  import opened AccountTypes
  import opened ParcelSpec

  const ADDITIONAL_INFO_MAX_SIZE := 500 * 1024

  datatype RemoteAuthParam = RemoteAuthParam(verifierNetworkId: Option<string>, collectorNetworkId: Option<string>,
                                             collectorTokenId: Option<uint32>)

  datatype Head = Head(userId: int32, challenge: seq<byte>, authType: int32, authTrustLevel: uint32, authIntent: int32)

  datatype Value = Value(head: Head, remoteAuthParam: Option<RemoteAuthParam>, additionalInfo: Option<string>)

  function EncodeString(o: Option<string>): seq<Item> {
    if o.Some? then [Flag(true), Str(o.value)] else [Flag(false)]
  }

  function EncodeToken(o: Option<uint32>): seq<Item> {
    if o.Some? then [Flag(true), U32(o.value)] else [Flag(false)]
  }

  function EncodeRemote(o: Option<RemoteAuthParam>): seq<Item> {
    if o.None? then [Flag(false)]
    else [Flag(true)] + EncodeString(o.value.verifierNetworkId) + EncodeString(o.value.collectorNetworkId)
         + EncodeToken(o.value.collectorTokenId)
  }

  /** The bytes that go out: as many as the 32-bit size says. */
  function Sent(info: string): string {
    if ToInt32(|info|) >= 0 then info[..ToInt32(|info|)] else info
  }

  function EncodeInfo(o: Option<string>): seq<Item> {
    if o.None? then [Flag(false)] else [Flag(true), I32(ToInt32(|o.value|)), Raw(Sent(o.value))]
  }

  function EncodeHead(h: Head): seq<Item> {
    [I32(h.userId), Bytes(h.challenge), I32(h.authType), U32(h.authTrustLevel), I32(h.authIntent)]
  }

  function Encode(v: Value): seq<Item> {
    EncodeHead(v.head) + (EncodeRemote(v.remoteAuthParam) + EncodeInfo(v.additionalInfo))
  }

  function DecodeString(s: seq<Item>): Read<Option<string>> {
    var (has, s) :- TakeBool(s);
    if !has then Got(None, s) else var (x, s) :- TakeString(s); Got(Some(x), s)
  }

  function DecodeToken(s: seq<Item>): Read<Option<uint32>> {
    var (has, s) :- TakeBool(s);
    if !has then Got(None, s) else var (x, s) :- TakeUint32(s); Got(Some(x), s)
  }

  function DecodeRemote(s: seq<Item>): Read<Option<RemoteAuthParam>> {
    var (has, s) :- TakeBool(s);
    if !has then Got(None, s)
    else
      var (verifier, s) :- DecodeString(s);
      var (collector, s) :- DecodeString(s);
      var (token, s) :- DecodeToken(s);
      Got(Some(RemoteAuthParam(verifier, collector, token)), s)
  }

  function DecodeInfo(s: seq<Item>): Read<Option<string>> {
    var (has, s) :- TakeBool(s);
    if !has then Got(None, s)
    else
      var (size, s) :- TakeInt32(s);
      if size < 0 || size > ADDITIONAL_INFO_MAX_SIZE then Failed
      else var (info, s) :- TakeRaw(s, size); Got(Some(info), s)
  }

  function DecodeHead(s: seq<Item>): Read<Head> {
    if |s| >= 5 && s[0].I32? && s[1].Bytes? && s[2].I32? && s[3].U32? && s[4].I32?
    then Got(Head(s[0].i32, s[1].bytes, s[2].i32, s[3].u32, s[4].i32), s[5..])
    else Failed
  }

  function Decode(s: seq<Item>): Read<Value> {
    var (head, s) :- DecodeHead(s);
    var (remote, s) :- DecodeRemote(s);
    var (info, s) :- DecodeInfo(s);
    Got(Value(head, remote, info), s)
  }

  /** Within the size the reader takes. */
  predicate Fits(v: Value) {
    v.additionalInfo.Some? ==> |v.additionalInfo.value| <= ADDITIONAL_INFO_MAX_SIZE
  }

  lemma StringExact(s: seq<Item>, o: Option<string>, r: seq<Item>)
    ensures DecodeString(s) == Got(o, r) <==> s == EncodeString(o) + r
  {
    if DecodeString(s) == Got(o, r) {
      assert s == s[..|EncodeString(o)|] + r;
    }
    if s == EncodeString(o) + r {
      assert s[1..] == EncodeString(o)[1..] + r;
      assert s[|EncodeString(o)|..] == r;
    }
  }

  lemma TokenExact(s: seq<Item>, o: Option<uint32>, r: seq<Item>)
    ensures DecodeToken(s) == Got(o, r) <==> s == EncodeToken(o) + r
  {
    if DecodeToken(s) == Got(o, r) {
      assert s == s[..|EncodeToken(o)|] + r;
    }
    if s == EncodeToken(o) + r {
      assert s[1..] == EncodeToken(o)[1..] + r;
      assert s[|EncodeToken(o)|..] == r;
    }
  }

  lemma RemoteExact(s: seq<Item>, o: Option<RemoteAuthParam>, r: seq<Item>)
    ensures DecodeRemote(s) == Got(o, r) <==> s == EncodeRemote(o) + r
  {
    if o.None? {
      assert s != [] ==> s == [s[0]] + s[1..];
    } else {
      var v, c, t := o.value.verifierNetworkId, o.value.collectorNetworkId, o.value.collectorTokenId;
      var s2, s1 := EncodeToken(t) + r, EncodeString(c) + (EncodeToken(t) + r);
      var whole := [Flag(true)] + (EncodeString(v) + s1);
      assert EncodeRemote(o) + r == whole;
      assert whole[1..] == EncodeString(v) + s1;
      StringExact(EncodeString(v) + s1, v, s1);
      StringExact(s1, c, s2);
      TokenExact(s2, t, r);
      if DecodeRemote(s) == Got(o, r) {
        var a := DecodeString(s[1..]);
        var b := DecodeString(a.rest);
        StringExact(s[1..], v, a.rest);
        StringExact(a.rest, c, b.rest);
        TokenExact(b.rest, t, r);
        assert s == [s[0]] + s[1..];
      }
    }
  }

  lemma InfoExact(s: seq<Item>, o: Option<string>, r: seq<Item>)
    ensures DecodeInfo(s) == Got(o, r) <==>
              s == EncodeInfo(o) + r && (o.Some? ==> |o.value| <= ADDITIONAL_INFO_MAX_SIZE)
  {
    if o.None? {
      assert s != [] ==> s == [s[0]] + s[1..];
    } else {
      if DecodeInfo(s) == Got(o, r) {
        assert s == [s[0], s[1], s[2]] + r;
        assert o.value[..|o.value|] == o.value;
      }
      if s == EncodeInfo(o) + r {
        assert |o.value| <= ADDITIONAL_INFO_MAX_SIZE ==> Sent(o.value) == o.value;
        assert s[1..][1..] == [Raw(Sent(o.value))] + r;
        assert s[1..][1..][1..] == r;
      }
    }
  }

  lemma HeadExact(s: seq<Item>, h: Head, r: seq<Item>)
    ensures DecodeHead(s) == Got(h, r) <==> s == EncodeHead(h) + r
  {
    if DecodeHead(s) == Got(h, r) {
      assert s == s[..5] + s[5..];
    }
  }

  /** Whatever follows the head and the remote part, the reader gets to it with both in hand. */
  lemma ReachesInfo(head: Head, remote: Option<RemoteAuthParam>, s: seq<Item>)
    ensures
      Decode(EncodeHead(head) + (EncodeRemote(remote) + s)) ==
        if DecodeInfo(s).Got? then Got(Value(head, remote, DecodeInfo(s).value), DecodeInfo(s).rest) else Failed
  {
    HeadExact(EncodeHead(head) + (EncodeRemote(remote) + s), head, EncodeRemote(remote) + s);
    RemoteExact(EncodeRemote(remote) + s, remote, s);
  }

  /**
   The reader accepts exactly what the writer produces for a value within the size limit, gives
   that value back, and leaves exactly what follows.
   */
  lemma ReaderInvertsWriter(s: seq<Item>, v: Value, r: seq<Item>)
    ensures Decode(s) == Got(v, r) <==> s == Encode(v) + r && Fits(v)
  {
    var info, remote := EncodeInfo(v.additionalInfo), EncodeRemote(v.remoteAuthParam);
    assert Encode(v) + r == EncodeHead(v.head) + (remote + (info + r));
    ReachesInfo(v.head, v.remoteAuthParam, info + r);
    InfoExact(info + r, v.additionalInfo, r);
    if Decode(s) == Got(v, r) {
      var s1 := DecodeHead(s).rest;
      var s2 := DecodeRemote(s1).rest;
      HeadExact(s, v.head, s1);
      RemoteExact(s1, v.remoteAuthParam, s2);
      InfoExact(s2, v.additionalInfo, r);
    }
  }

  /** The items of a value with everything there, and of one with nothing optional, in the order both sides use. */
  lemma WireForm(h: Head, verifier: string, collector: string, token: uint32, info: string)
    requires |info| <= ADDITIONAL_INFO_MAX_SIZE
    ensures
      Encode(Value(h, Some(RemoteAuthParam(Some(verifier), Some(collector), Some(token))), Some(info))) ==
      [I32(h.userId), Bytes(h.challenge), I32(h.authType), U32(h.authTrustLevel), I32(h.authIntent), Flag(true),
       Flag(true), Str(verifier), Flag(true), Str(collector), Flag(true), U32(token),
       Flag(true), I32(|info|), Raw(info)]
    ensures
      Encode(Value(h, None, None)) ==
      [I32(h.userId), Bytes(h.challenge), I32(h.authType), U32(h.authTrustLevel), I32(h.authIntent), Flag(false),
       Flag(false)]
  {
    assert Sent(info) == info;
  }

  /** A value comes back from what was written for it exactly when its additional info is within the limit. */
  lemma RoundTrip(v: Value, r: seq<Item>)
    ensures Decode(Encode(v) + r) == Got(v, r) <==> Fits(v)
  {
    ReaderInvertsWriter(Encode(v) + r, v, r);
  }

  /** Two values within the limit with the same parcel form are the same value, whatever follows them. */
  lemma EncodingIsInjective(v: Value, w: Value, r: seq<Item>, q: seq<Item>)
    requires Fits(v) && Fits(w) && Encode(v) + r == Encode(w) + q
    ensures v == w && r == q
  {
    ReaderInvertsWriter(Encode(v) + r, v, r);
    ReaderInvertsWriter(Encode(w) + q, w, q);
  }

  /** What is written for any value, oversized ones included, is read whole or not at all. */
  lemma WholeOrNothing(v: Value)
    ensures Decode(Encode(v)).Got? ==> Decode(Encode(v)).rest == []
  {
    var info := EncodeInfo(v.additionalInfo);
    ReachesInfo(v.head, v.remoteAuthParam, info);
    if v.additionalInfo.Some? {
      assert info[1..][1..] == [Raw(Sent(v.additionalInfo.value))];
    }
  }

  /** A writer that stops half-way is never believed: no strict prefix of its items is accepted. */
  lemma NoPrefixIsAccepted(v: Value, p: seq<Item>)
    requires p < Encode(v)
    ensures Decode(p).Failed?
  {
    if Decode(p).Got? {
      var w, q := Decode(p).value, Decode(p).rest;
      var missing := Encode(v)[|p|..];
      assert Encode(v) == p + missing;
      Extends(p, w, q, missing);
      WholeOrNothing(v);
    }
  }

  /** What `Marshalling` leaves in an empty parcel when it fails is never taken for a value. */
  lemma HalfWrittenIsRejected(v: Value, d: seq<Item>)
    requires Wrote([], d, Encode(v), false)
    ensures Decode(d).Failed?
  {
    WroteMeaning([], d, Encode(v), false);
    assert [] + Encode(v) == Encode(v);
    NoPrefixIsAccepted(v, d);
  }

  /** What is accepted stays accepted, with the same value, when more follows. */
  lemma Extends(s: seq<Item>, v: Value, r: seq<Item>, more: seq<Item>)
    requires Decode(s) == Got(v, r)
    ensures Decode(s + more) == Got(v, r + more)
  {
    ReaderInvertsWriter(s, v, r);
    assert s + more == Encode(v) + (r + more);
    ReaderInvertsWriter(s + more, v, r + more);
  }
}

module AuthParams {
  import opened AccountTypes
  import opened ParcelSpec
  import opened AuthParamSpec
  import opened Parcels

  class AuthParam {
    var userId: int32
    var challenge: seq<byte>
    var authType: int32
    var authTrustLevel: uint32
    var authIntent: int32
    var remoteAuthParam: Option<RemoteAuthParam>
    var additionalInfo: Option<string>

    function Contents(): Value
      reads this
    {
      Value(Heading(), remoteAuthParam, additionalInfo)
    }

    function Heading(): Head
      reads this
    {
      Head(userId, challenge, authType, authTrustLevel, authIntent)
    }

    constructor ()
      ensures remoteAuthParam == None && additionalInfo == None
    {
      userId, challenge, authType, authTrustLevel, authIntent := 0, [], 0, 0, 0;
      remoteAuthParam, additionalInfo := None, None;
    }

    method WriteOptionalString(parcel: Parcel, o: Option<string>) returns (ok: bool)
      requires parcel.Valid()
      modifies parcel`data
      ensures parcel.Valid() && ok == (|old(parcel.data)| + |EncodeString(o)| <= parcel.capacity)
      ensures Wrote(old(parcel.data), parcel.data, EncodeString(o), ok)
    {
      ok := parcel.Write(Flag(o.Some?));
      if ok && o.Some? {
        ok := parcel.Write(Str(o.value));
      }
    }

    method WriteOptionalToken(parcel: Parcel, o: Option<uint32>) returns (ok: bool)
      requires parcel.Valid()
      modifies parcel`data
      ensures parcel.Valid() && ok == (|old(parcel.data)| + |EncodeToken(o)| <= parcel.capacity)
      ensures Wrote(old(parcel.data), parcel.data, EncodeToken(o), ok)
    {
      ok := parcel.Write(Flag(o.Some?));
      if ok && o.Some? {
        ok := parcel.Write(U32(o.value));
      }
    }

    method WriteRemoteAuthParam(parcel: Parcel) returns (ok: bool)
      requires parcel.Valid()
      modifies parcel`data
      ensures parcel.Valid() && ok == (|old(parcel.data)| + |EncodeRemote(remoteAuthParam)| <= parcel.capacity)
      ensures Wrote(old(parcel.data), parcel.data, EncodeRemote(remoteAuthParam), ok)
    {
      ghost var d0 := parcel.data;
      ok := parcel.Write(Flag(remoteAuthParam.Some?));
      if remoteAuthParam.None? {
        return;
      }
      ghost var x := [Flag(true)];
      ghost var v := EncodeString(remoteAuthParam.value.verifierNetworkId);
      ghost var c := EncodeString(remoteAuthParam.value.collectorNetworkId);
      ghost var t := EncodeToken(remoteAuthParam.value.collectorTokenId);
      assert x + v + c + t == x + (v + c + t) == x + v + (c + t);
      if !ok {
        WroteFirst(d0, parcel.data, x, v + c + t);
        return;
      }
      ghost var d1 := parcel.data;
      ok := WriteOptionalString(parcel, remoteAuthParam.value.verifierNetworkId);
      WroteBoth(d0, d1, parcel.data, x, v, ok);
      if !ok {
        WroteFirst(d0, parcel.data, x + v, c + t);
        return;
      }
      ghost var d2 := parcel.data;
      ok := WriteOptionalString(parcel, remoteAuthParam.value.collectorNetworkId);
      WroteBoth(d0, d2, parcel.data, x + v, c, ok);
      if !ok {
        WroteFirst(d0, parcel.data, x + v + c, t);
        return;
      }
      ghost var d3 := parcel.data;
      ok := WriteOptionalToken(parcel, remoteAuthParam.value.collectorTokenId);
      WroteBoth(d0, d3, parcel.data, x + v + c, t, ok);
    }

    /** Can the additional info be handed to the parcel as raw data? */
    predicate Sendable(parcel: Parcel)
      reads this
    {
      additionalInfo.Some? ==> 0 <= ToInt32(|additionalInfo.value|) <= parcel.rawLimit
    }

    method WriteAdditionalInfo(parcel: Parcel) returns (ok: bool)
      requires parcel.Valid()
      modifies parcel`data
      ensures parcel.Valid()
      ensures ok == (|old(parcel.data)| + |EncodeInfo(additionalInfo)| <= parcel.capacity && Sendable(parcel))
      ensures Wrote(old(parcel.data), parcel.data, EncodeInfo(additionalInfo), ok)
    {
      ok := parcel.Write(Flag(additionalInfo.Some?));
      if !ok || additionalInfo.None? {
        return;
      }
      var additionalInfoSize := ToInt32(|additionalInfo.value|);
      ok := parcel.Write(I32(additionalInfoSize));
      if !ok {
        return;
      }
      ok := parcel.WriteRawData(additionalInfo.value, additionalInfoSize);
    }

    method WriteHead(parcel: Parcel) returns (ok: bool)
      requires parcel.Valid()
      modifies parcel`data
      ensures parcel.Valid() && ok == (|old(parcel.data)| + |EncodeHead(Heading())| <= parcel.capacity)
      ensures Wrote(old(parcel.data), parcel.data, EncodeHead(Heading()), ok)
    {
      ok := parcel.Write(I32(userId));
      if !ok {
        return;
      }
      ok := parcel.Write(Bytes(challenge));
      if !ok {
        return;
      }
      ok := parcel.Write(I32(authType));
      if !ok {
        return;
      }
      ok := parcel.Write(U32(authTrustLevel));
      if !ok {
        return;
      }
      ok := parcel.Write(I32(authIntent));
    }

    /** Appends the whole parcel form, or fails having appended a strict prefix of it. */
    method Marshalling(parcel: Parcel) returns (ok: bool)
      requires parcel.Valid()
      modifies parcel`data
      ensures parcel.Valid()
      ensures ok == (|old(parcel.data)| + |Encode(Contents())| <= parcel.capacity && Sendable(parcel))
      ensures Wrote(old(parcel.data), parcel.data, Encode(Contents()), ok)
    {
      ghost var d0 := parcel.data;
      ghost var h, r, a := EncodeHead(Heading()), EncodeRemote(remoteAuthParam), EncodeInfo(additionalInfo);
      ok := WriteHead(parcel);
      if !ok {
        WroteFirst(d0, parcel.data, h, r + a);
        return;
      }
      ghost var d1 := parcel.data;
      ok := WriteRemoteAuthParam(parcel);
      if !ok {
        WroteFirst(d1, parcel.data, r, a);
        WroteBoth(d0, d1, parcel.data, h, r + a, false);
        return;
      }
      ghost var d2 := parcel.data;
      ok := WriteAdditionalInfo(parcel);
      WroteBoth(d1, d2, parcel.data, r, a, ok);
      WroteBoth(d0, d1, parcel.data, h, r + a, ok);
    }

    method ReadOptionalString(parcel: Parcel) returns (ok: bool, o: Option<string>)
      requires parcel.Valid()
      modifies parcel`pos
      ensures parcel.Valid() && ok == DecodeString(old(parcel.Rest())).Got?
      ensures ok ==> Got(o, parcel.Rest()) == DecodeString(old(parcel.Rest()))
    {
      o := None;
      var has;
      ok, has := parcel.ReadBool();
      if ok && has {
        var x;
        ok, x := parcel.ReadString();
        o := Some(x);
      }
    }

    method ReadOptionalToken(parcel: Parcel) returns (ok: bool, o: Option<uint32>)
      requires parcel.Valid()
      modifies parcel`pos
      ensures parcel.Valid() && ok == DecodeToken(old(parcel.Rest())).Got?
      ensures ok ==> Got(o, parcel.Rest()) == DecodeToken(old(parcel.Rest()))
    {
      o := None;
      var has;
      ok, has := parcel.ReadBool();
      if ok && has {
        var x;
        ok, x := parcel.ReadUint32();
        o := Some(x);
      }
    }

    /** An absent value leaves the field as it was. */
    method ReadRemoteAuthParam(parcel: Parcel) returns (ok: bool)
      requires parcel.Valid()
      modifies this`remoteAuthParam, parcel`pos
      ensures parcel.Valid() && ok == DecodeRemote(old(parcel.Rest())).Got?
      ensures ok ==>
                var read := DecodeRemote(old(parcel.Rest()));
                && parcel.Rest() == read.rest
                && remoteAuthParam == if read.value.Some? then read.value else old(remoteAuthParam)
    {
      var has;
      ok, has := parcel.ReadBool();
      if !ok || !has {
        return;
      }
      var verifier, collector, token;
      remoteAuthParam := Some(RemoteAuthParam(None, None, None));
      ok, verifier := ReadOptionalString(parcel);
      if !ok {
        return;
      }
      remoteAuthParam := Some(remoteAuthParam.value.(verifierNetworkId := verifier));
      ok, collector := ReadOptionalString(parcel);
      if !ok {
        return;
      }
      remoteAuthParam := Some(remoteAuthParam.value.(collectorNetworkId := collector));
      ok, token := ReadOptionalToken(parcel);
      remoteAuthParam := Some(remoteAuthParam.value.(collectorTokenId := token));
    }

    method ReadAdditionalInfo(parcel: Parcel) returns (ok: bool)
      requires parcel.Valid()
      modifies this`additionalInfo, parcel`pos
      ensures parcel.Valid() && ok == DecodeInfo(old(parcel.Rest())).Got?
      ensures ok ==>
                var read := DecodeInfo(old(parcel.Rest()));
                && parcel.Rest() == read.rest
                && additionalInfo == if read.value.Some? then read.value else old(additionalInfo)
    {
      var has;
      ok, has := parcel.ReadBool();
      if !ok || !has {
        return;
      }
      var additionalInfoSize, info;
      ok, additionalInfoSize := parcel.ReadInt32();
      if !ok {
        return;
      }
      if additionalInfoSize < 0 || additionalInfoSize > ADDITIONAL_INFO_MAX_SIZE {
        return false;
      }
      ok, info := parcel.ReadRawData(additionalInfoSize);
      if ok {
        additionalInfo := Some(info);
      }
    }

    method ReadHead(parcel: Parcel) returns (ok: bool)
      requires parcel.Valid()
      modifies this, parcel`pos
      ensures parcel.Valid() && ok == DecodeHead(old(parcel.Rest())).Got?
      ensures ok ==> Got(Heading(), parcel.Rest()) == DecodeHead(old(parcel.Rest()))
      ensures remoteAuthParam == old(remoteAuthParam) && additionalInfo == old(additionalInfo)
    {
      ghost var s := parcel.Rest();
      ok, userId := parcel.ReadInt32();
      if !ok {
        return;
      }
      assert parcel.Rest() == s[1..];
      ok, challenge := parcel.ReadUInt8Vector();
      assert ok <==> |s| > 1 && s[1].Bytes?;
      if !ok {
        return;
      }
      assert parcel.Rest() == s[2..];
      ok, authType := parcel.ReadInt32();
      assert ok <==> |s| > 2 && s[2].I32?;
      if !ok {
        return;
      }
      assert parcel.Rest() == s[3..];
      ok, authTrustLevel := parcel.ReadUint32();
      assert ok <==> |s| > 3 && s[3].U32?;
      if !ok {
        return;
      }
      assert parcel.Rest() == s[4..];
      ok, authIntent := parcel.ReadInt32();
    }

    method ReadFromParcel(parcel: Parcel) returns (ok: bool)
      requires parcel.Valid()
      modifies this, parcel`pos
      ensures parcel.Valid() && ok == Decode(old(parcel.Rest())).Got?
      ensures ok ==>
                var read := Decode(old(parcel.Rest()));
                && parcel.Rest() == read.rest
                && Contents() == read.value.(
                     remoteAuthParam := if read.value.remoteAuthParam.Some? then read.value.remoteAuthParam
                                        else old(remoteAuthParam),
                     additionalInfo := if read.value.additionalInfo.Some? then read.value.additionalInfo
                                       else old(additionalInfo))
    {
      ok := ReadHead(parcel);
      if !ok {
        return;
      }
      ok := ReadRemoteAuthParam(parcel);
      if !ok {
        return;
      }
      ok := ReadAdditionalInfo(parcel);
    }
  }

  /** A fresh object read from the parcel, or null. */
  method Unmarshalling(parcel: Parcel) returns (info: AuthParam?)
    requires parcel.Valid()
    modifies parcel`pos
    ensures parcel.Valid() && (info != null <==> Decode(old(parcel.Rest())).Got?)
    ensures info != null ==> fresh(info) && Got(info.Contents(), parcel.Rest()) == Decode(old(parcel.Rest()))
  {
    info := new AuthParam();
    var ok := info.ReadFromParcel(parcel);
    if !ok {
      info := null;
    }
  }

  /** Written, then read by somebody else: the same value, and the reader stands at what was written next. */
  method SendAndReceive(sender: AuthParam, parcel: Parcel, next: Item) returns (received: AuthParam?)
    requires parcel.Valid() && parcel.Rest() == []
    requires |parcel.data| + |Encode(sender.Contents())| < parcel.capacity
    requires ADDITIONAL_INFO_MAX_SIZE <= parcel.rawLimit && Fits(sender.Contents())
    modifies parcel
    ensures parcel.Valid() && received != null && received.Contents() == sender.Contents()
    ensures parcel.Rest() == [next]
  {
    ghost var before := parcel.data;
    var ok := sender.Marshalling(parcel);
    ok := parcel.Write(next);
    assert parcel.Rest() == Encode(sender.Contents()) + [next];
    ReaderInvertsWriter(parcel.Rest(), sender.Contents(), [next]);
    received := Unmarshalling(parcel);
  }
}
