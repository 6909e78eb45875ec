/** The counter program's record: one `Votes` per proposal, stored in its
    account in the Borsh layout
      authority (32) | proposal_number u32 | approve_count u64 |
      reject_count u64 | initialized (1)
    53 bytes in all. */
module VotingState {
  import opened Borsh
  import opened Solana

  datatype Votes = Votes(
    authority: Key,
    proposalNumber: U32,
    approveCount: U64,
    rejectCount: U64,
    initialized: bool)

  /** The encoded size of every `Votes`. */
  const SIZE: nat := 53

  function Encode(v: Votes): (r: seq<Byte>)
    ensures |r| == SIZE
  {
    v.authority + EncodeU32(v.proposalNumber) + EncodeU64(v.approveCount)
      + EncodeU64(v.rejectCount) + [EncodeBool(v.initialized)]
  }

  /** `Votes::try_from_slice`: every byte must be consumed and the last
      byte must be a Borsh boolean. */
  function Decode(b: seq<Byte>): (r: Option<Votes>)
    ensures r.Some? <==> |b| == SIZE && b[52] < 2
  {
    if |b| != SIZE then None
    else match DecodeBool(b[52])
      case None => None
      case Some(initialized) =>
        Some(Votes(b[..32], DecodeU32(b[32..36]), DecodeU64(b[36..44]), DecodeU64(b[44..52]), initialized))
  }

  lemma DecodeEncode(v: Votes)
    ensures Decode(Encode(v)) == Some(v)
  {
    var b := Encode(v);
    assert b[..32] == v.authority;
    assert b[32..36] == EncodeU32(v.proposalNumber);
    assert b[36..44] == EncodeU64(v.approveCount);
    assert b[44..52] == EncodeU64(v.rejectCount);
    DecodeEncodeU32(v.proposalNumber);
    DecodeEncodeU64(v.approveCount);
    DecodeEncodeU64(v.rejectCount);
  }

  lemma EncodeDecode(b: seq<Byte>)
    requires Decode(b).Some?
    ensures Encode(Decode(b).value) == b
  {
    var v := Decode(b).value;
    assert b == b[..32] + b[32..36] + b[36..44] + b[44..52] + [b[52]];
  }

  /** Two records with the same encoding are the same record. */
  lemma EncodeInjective(v: Votes, w: Votes)
    requires Encode(v) == Encode(w)
    ensures v == w
  {
    DecodeEncode(v);
    DecodeEncode(w);
  }
}
