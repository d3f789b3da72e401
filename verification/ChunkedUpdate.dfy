/** Feeding a buffer to a digest in pieces of bounded size. */
module ChunkedUpdate {
  import opened ParcelSpec

  const MAX_UPDATE_SIZE := 256 * 100

  /** The consecutive pieces of at most the limit. */
  function Pieces(data: seq<byte>): seq<seq<byte>> {
    if data == [] then []
    else if |data| <= MAX_UPDATE_SIZE then [data]
    else [data[..MAX_UPDATE_SIZE]] + Pieces(data[MAX_UPDATE_SIZE..])
  }

  function Joined(pieces: seq<seq<byte>>): seq<byte> {
    if pieces == [] then [] else pieces[0] + Joined(pieces[1..])
  }

  /**
   Nothing is lost, repeated or reordered; no piece is empty or too large; only the last may be
   short; and there are as many as the size divided by the limit, rounded up.
   */
  lemma {:induction false} PiecesMeaning(data: seq<byte>)
    ensures Joined(Pieces(data)) == data
    ensures forall i | 0 <= i < |Pieces(data)| :: 0 < |Pieces(data)[i]| <= MAX_UPDATE_SIZE
    ensures forall i | 0 <= i < |Pieces(data)| - 1 :: |Pieces(data)[i]| == MAX_UPDATE_SIZE
    ensures |Pieces(data)| == (|data| + MAX_UPDATE_SIZE - 1) / MAX_UPDATE_SIZE
    decreases |data|
  {
    var pieces := Pieces(data);
    if data == [] {
    } else if |data| <= MAX_UPDATE_SIZE {
      assert pieces[1..] == [] && data + [] == data;
    } else {
      PiecesMeaning(data[MAX_UPDATE_SIZE..]);
      assert pieces[1..] == Pieces(data[MAX_UPDATE_SIZE..]);
      assert data == data[..MAX_UPDATE_SIZE] + data[MAX_UPDATE_SIZE..];
      OneMore(|data|);
    }
  }

  lemma OneMore(n: nat)
    requires n > MAX_UPDATE_SIZE
    ensures (n + MAX_UPDATE_SIZE - 1) / MAX_UPDATE_SIZE ==
            1 + (n - MAX_UPDATE_SIZE + MAX_UPDATE_SIZE - 1) / MAX_UPDATE_SIZE
  {
  }

  /** The piece that starts at `at`, and the rest. */
  lemma NextPiece(data: seq<byte>, at: nat, size: nat)
    requires at < |data|
    requires size == if at + MAX_UPDATE_SIZE < |data| then MAX_UPDATE_SIZE else |data| - at
    ensures Pieces(data[at..]) == [data[at..at + size]] + Pieces(data[at + size..])
  {
    var rest := data[at..];
    assert rest[..size] == data[at..at + size] && rest[size..] == data[at + size..];
    if at + MAX_UPDATE_SIZE >= |data| {
      assert rest == data[at..at + size];
    }
  }

  /** How the k-th call goes: whether its output buffer can be had, and what the digest returns. */
  datatype Reply = Reply(hasRoom: bool, ret: int)

  predicate Accepted(reply: Reply) {
    reply.hasRoom && reply.ret == 0
  }

  lemma HandOver(done: seq<seq<byte>>, piece: seq<byte>, rest: seq<seq<byte>>)
    ensures done + ([piece] + rest) == done + [piece] + rest
    ensures done + [piece] <= done + [piece] + rest
  {
  }

  /**
   The pointer walks the buffer one limit at a time. Zero comes back exactly when every call goes
   well, and then every piece was handed over; otherwise -1, and nothing is handed over after the
   first call that fails, nor by that call if it found no room for the output.
   */
  method HksUpdateOpt(inData: array<byte>, replies: nat -> Reply) returns (ret: int, handed: seq<seq<byte>>)
    ensures handed <= Pieces(inData[..])
    ensures ret == 0 || ret == -1
    ensures ret == 0 ==> handed == Pieces(inData[..]) && forall j: nat | j < |handed| :: Accepted(replies(j))
    ensures ret == -1 ==>
              || (|handed| < |Pieces(inData[..])| && !replies(|handed|).hasRoom
                  && forall j: nat | j < |handed| :: Accepted(replies(j)))
              || (0 < |handed| && replies(|handed| - 1).hasRoom && replies(|handed| - 1).ret != 0
                  && forall j: nat | j < |handed| - 1 :: Accepted(replies(j)))
  {
    ghost var data := inData[..];
    ghost var rest := Pieces(data);
    handed := [];
    var segData, segSize := 0, MAX_UPDATE_SIZE;
    var lastPtr := inData.Length - 1;
    var isFinished := false;
    assert data[0..] == data;
    while segData <= lastPtr
      invariant 0 <= segData && (segData <= lastPtr ==> !isFinished && segSize == MAX_UPDATE_SIZE)
      invariant rest == if segData <= lastPtr then Pieces(data[segData..]) else []
      invariant Pieces(data) == handed + rest
      invariant forall j: nat | j < |handed| :: Accepted(replies(j))
      decreases lastPtr - segData
    {
      if segData + MAX_UPDATE_SIZE > lastPtr {
        isFinished := true;
        segSize := lastPtr - segData + 1;
      }
      var piece := inData[segData..segData + segSize];
      NextPiece(data, segData, segSize);
      HandOver(handed, piece, Pieces(data[segData + segSize..]));
      var k := |handed|;
      if !replies(k).hasRoom {
        return -1, handed;
      }
      handed := handed + [piece];
      rest := Pieces(data[segData + segSize..]);
      if replies(k).ret != 0 {
        return -1, handed;
      }
      if !isFinished && segData + MAX_UPDATE_SIZE > lastPtr {
        assert false;
      }
      segData := segData + MAX_UPDATE_SIZE;
    }
    return 0, handed;
  }
}
