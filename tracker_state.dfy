/** The tracker program's record: one `VoteTracker` per (user, counter),
    stored in its account in the Borsh layout
      bump (1) | auth_bump (1) | proposalToVote (32) |
      approve_count u64 | reject_count u64
    50 bytes in all. */
module TrackerState {
  import opened Borsh
  import opened Solana

  datatype VoteTracker = VoteTracker(
    bump: Byte,
    authBump: Byte,
    proposalToVote: Key,
    approveCount: U64,
    rejectCount: U64)

  /** The encoded size of every `VoteTracker`. */
  const SIZE: nat := 50

  function Encode(t: VoteTracker): (r: seq<Byte>)
    ensures |r| == SIZE
  {
    [t.bump, t.authBump] + t.proposalToVote + EncodeU64(t.approveCount) + EncodeU64(t.rejectCount)
  }

  /** `VoteTracker::try_from_slice`: every field accepts any bytes, so the
      length alone decides. */
  function Decode(b: seq<Byte>): (r: Option<VoteTracker>)
    ensures r.Some? <==> |b| == SIZE
  {
    if |b| != SIZE then None
    else Some(VoteTracker(b[0], b[1], b[2..34], DecodeU64(b[34..42]), DecodeU64(b[42..50])))
  }

  lemma DecodeEncode(t: VoteTracker)
    ensures Decode(Encode(t)) == Some(t)
  {
    var b := Encode(t);
    var head := [t.bump, t.authBump] + t.proposalToVote;
    var approve, reject := EncodeU64(t.approveCount), EncodeU64(t.rejectCount);
    var mid := head + approve;
    assert |head| == 34 && |mid| == 42;
    assert b == mid + reject;
    assert b[..42] == mid && b[42..] == reject;
    assert b[2..34] == head[2..] == t.proposalToVote;
    assert b[34..42] == mid[34..] == approve;
    assert b[42..50] == reject;
    DecodeEncodeU64(t.approveCount);
    DecodeEncodeU64(t.rejectCount);
  }

  /** Every 50-byte buffer decodes, and re-encoding gives the same bytes. */
  lemma EncodeDecode(b: seq<Byte>)
    requires |b| == SIZE
    ensures Decode(b).Some? && Encode(Decode(b).value) == b
  {
    assert b == [b[0], b[1]] + b[2..34] + b[34..42] + b[42..50];
  }
}
