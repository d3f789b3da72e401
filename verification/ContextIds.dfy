/** The byte form of an authentication context id: big-endian, with the authentication type in front. */
module ContextIds {
  import opened ParcelSpec

  const UINT64_BYTES := 8
  const AUTH_TYPE_ALL: byte := 0xFE

  type uint64 = x: int | 0 <= x < 0x1_0000_0000_0000_0000

  /** The number that `bytes` spells, most significant byte first. */
  function BigEndian(bytes: seq<byte>): nat {
    if bytes == [] then 0 else BigEndian(bytes[..|bytes| - 1]) * 256 + bytes[|bytes| - 1]
  }

  /** The `n` low bytes of `v`, most significant first. */
  function LowBytes(v: nat, n: nat): (bytes: seq<byte>)
    ensures |bytes| == n
  {
    if n == 0 then [] else LowBytes(v / 256, n - 1) + [v % 256]
  }

  function Power256(n: nat): (p: nat)
    ensures p > 0
  {
    if n == 0 then 1 else 256 * Power256(n - 1)
  }

  /** Where a number of `n` bytes stands among all numbers. */
  lemma {:induction false} BigEndianBound(bytes: seq<byte>)
    ensures BigEndian(bytes) < Power256(|bytes|)
  {
    if bytes != [] {
      BigEndianBound(bytes[..|bytes| - 1]);
    }
  }

  /** Spelling out a number that fits and reading it again gives the number. */
  lemma {:induction false} SpellThenRead(v: nat, n: nat)
    requires v < Power256(n)
    ensures BigEndian(LowBytes(v, n)) == v
  {
    if n > 0 {
      var bytes := LowBytes(v, n);
      assert bytes[..n - 1] == LowBytes(v / 256, n - 1);
      SpellThenRead(v / 256, n - 1);
    }
  }

  /** Reading bytes and spelling the number out again gives the bytes. */
  lemma {:induction false} ReadThenSpell(bytes: seq<byte>)
    ensures LowBytes(BigEndian(bytes), |bytes|) == bytes
  {
    if bytes != [] {
      var front, last := bytes[..|bytes| - 1], bytes[|bytes| - 1];
      ReadThenSpell(front);
      assert BigEndian(bytes) / 256 == BigEndian(front) && BigEndian(bytes) % 256 == last;
      assert bytes == front + [last];
    }
  }

  lemma Power256Of8()
    ensures Power256(UINT64_BYTES) == 0x1_0000_0000_0000_0000
  {
    assert Power256(4) == 0x1_0000_0000;
    assert Power256(8) == 256 * (256 * (256 * (256 * Power256(4))));
  }

  /** What the generator produces. */
  function Generated(contextId: uint64, authTypeIdx: byte): seq<byte> {
    [authTypeIdx] + LowBytes(contextId, UINT64_BYTES)
  }

  /** What the parser makes of an array: an id and a type, or a refusal. */
  datatype Parsed = Refused | Parsed(contextId: uint64, authTypeIdx: byte)

  function Digits(packed: seq<byte>): seq<byte> {
    if |packed| == UINT64_BYTES + 1 then packed[1..] else packed
  }

  function Parse(packed: seq<byte>): Parsed {
    if |packed| != UINT64_BYTES && |packed| != UINT64_BYTES + 1 then Refused
    else
      BigEndianBound(Digits(packed)); Power256Of8();
      Parsed(BigEndian(Digits(packed)), if |packed| == UINT64_BYTES then AUTH_TYPE_ALL else packed[0])
  }

  /** What is generated parses to the same id and type. */
  lemma ParseGenerated(contextId: uint64, authTypeIdx: byte)
    ensures Parse(Generated(contextId, authTypeIdx)) == Parsed(contextId, authTypeIdx)
  {
    assert Digits(Generated(contextId, authTypeIdx)) == LowBytes(contextId, UINT64_BYTES);
    Power256Of8();
    SpellThenRead(contextId, UINT64_BYTES);
  }

  /** Every nine-byte array is what is generated from its own parse; an eight-byte one gains the type ALL. */
  lemma GenerateParsed(packed: seq<byte>)
    requires Parse(packed).Parsed?
    ensures
      var p := Parse(packed);
      Generated(p.contextId, p.authTypeIdx) == if |packed| == UINT64_BYTES then [AUTH_TYPE_ALL] + packed else packed
  {
    ReadThenSpell(Digits(packed));
    if |packed| == UINT64_BYTES + 1 {
      assert packed == [packed[0]] + packed[1..];
    }
  }

  /** Two arrays parse alike exactly when they are equal up to a leading ALL that one of them leaves out. */
  lemma ParseIsInjective(a: seq<byte>, b: seq<byte>)
    requires Parse(a).Parsed? && Parse(b).Parsed?
    ensures Parse(a) == Parse(b) <==> a == b || a == [AUTH_TYPE_ALL] + b || b == [AUTH_TYPE_ALL] + a
  {
    GenerateParsed(a);
    GenerateParsed(b);
    if |a| == |b| == UINT64_BYTES && Parse(a) == Parse(b) {
      assert ([AUTH_TYPE_ALL] + a)[1..] == a && ([AUTH_TYPE_ALL] + b)[1..] == b;
    }
    if a == [AUTH_TYPE_ALL] + b {
      assert Digits(a) == Digits(b);
    }
    if b == [AUTH_TYPE_ALL] + a {
      assert Digits(a) == Digits(b);
    }
  }

  method GenerateContextArray(contextId: uint64, authTypeIdx: byte) returns (result: seq<byte>)
    ensures result == Generated(contextId, authTypeIdx)
  {
    var contextArray := new byte[UINT64_BYTES](_ => 0);
    var contextIdCopy: nat := contextId;
    var i := contextArray.Length;
    while i >= 1
      invariant 0 <= i <= contextArray.Length
      invariant LowBytes(contextId, UINT64_BYTES) == LowBytes(contextIdCopy, i) + contextArray[i..]
    {
      var last: byte := contextIdCopy % 256;
      contextArray[i - 1] := last;
      assert contextArray[i - 1..] == [last] + contextArray[i..];
      contextIdCopy := contextIdCopy / 256;
      i := i - 1;
    }
    result := [authTypeIdx] + contextArray[..];
  }

  /** `contextId` comes in with any value; a refusal leaves it alone, and otherwise all its bits are shifted out. */
  method ParseContextId(contextIdArray: seq<byte>, contextIdIn: uint64, authTypeIdxIn: byte)
      returns (ok: bool, contextId: uint64, authTypeIdx: byte)
    ensures ok == Parse(contextIdArray).Parsed?
    ensures if ok then Parsed(contextId, authTypeIdx) == Parse(contextIdArray)
            else contextId == contextIdIn && authTypeIdx == authTypeIdxIn
  {
    contextId, authTypeIdx := contextIdIn, authTypeIdxIn;
    var vecSize := |contextIdArray|;
    if vecSize != UINT64_BYTES && vecSize != UINT64_BYTES + 1 {
      return false, contextId, authTypeIdx;
    }
    var offset := 0;
    if vecSize == UINT64_BYTES {
      authTypeIdx := AUTH_TYPE_ALL;
    } else {
      authTypeIdx := contextIdArray[0];
      offset := 1;
    }
    ghost var digits := Digits(contextIdArray);
    var each := offset;
    while each < vecSize
      invariant offset <= each <= vecSize
      invariant contextId == Shifted(contextIdIn, digits[..each - offset]) % 0x1_0000_0000_0000_0000
    {
      ghost var k := each - offset;
      assert digits[k] == contextIdArray[each] && digits[..k + 1][..k] == digits[..k];
      ShiftIn(Shifted(contextIdIn, digits[..k]), contextIdArray[each]);
      contextId := (contextId * 256) % 0x1_0000_0000_0000_0000 + contextIdArray[each];
      each := each + 1;
    }
    assert digits[..UINT64_BYTES] == digits;
    ShiftedOut(contextIdIn, digits);
    return true, contextId, authTypeIdx;
  }

  /** Bytes shifted into `c` from the right, in a word without end. */
  function Shifted(c: nat, bytes: seq<byte>): nat {
    if bytes == [] then c else Shifted(c, bytes[..|bytes| - 1]) * 256 + bytes[|bytes| - 1]
  }

  lemma {:induction false} ShiftedValue(c: nat, bytes: seq<byte>)
    ensures Shifted(c, bytes) == c * Power256(|bytes|) + BigEndian(bytes)
  {
    if bytes != [] {
      var front, p := bytes[..|bytes| - 1], Power256(|bytes| - 1);
      ShiftedValue(c, front);
      assert c * (256 * p) == (c * p) * 256;
    }
  }

  /** Eight bytes push everything that was there before out of a 64-bit word. */
  lemma ShiftedOut(c: uint64, bytes: seq<byte>)
    requires |bytes| == UINT64_BYTES
    ensures Shifted(c, bytes) % 0x1_0000_0000_0000_0000 == BigEndian(bytes)
  {
    ShiftedValue(c, bytes);
    BigEndianBound(bytes);
    Power256Of8();
  }

  /** Shifting a 64-bit word left by a byte and putting a byte in its place, modulo the word size. */
  lemma ShiftIn(x: nat, b: byte)
    ensures ((x % 0x1_0000_0000_0000_0000) * 256) % 0x1_0000_0000_0000_0000 + b ==
            (x * 256 + b) % 0x1_0000_0000_0000_0000
  {
    var word := 0x1_0000_0000_0000_0000;
    var q, r := x / word, x % word;
    var top, low := r / 0x100_0000_0000_0000, r % 0x100_0000_0000_0000;
    assert x * 256 + b == (q * 256 + top) * word + (low * 256 + b);
    assert r * 256 == top * word + low * 256;
  }
}
