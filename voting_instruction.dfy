/** The counter program's instructions and the helper that builds a call
    to it. */
module VotingInstruction {
  import opened Borsh
  import opened Solana

  /** A unit enum: Borsh writes only the variant index. */
  datatype VoteInstruction = Approve | Reject

  function Encode(ix: VoteInstruction): (r: seq<Byte>)
    ensures |r| == 1
    ensures Decode(r) == Some(ix)
  {
    match ix
    case Approve => [0]
    case Reject => [1]
  }

  /** `VoteInstruction::try_from_slice`: one byte, a known variant index,
      nothing after it. */
  function Decode(s: seq<Byte>): (r: Option<VoteInstruction>)
    ensures r.Some? <==> s == [0] || s == [1]
  {
    if |s| != 1 then None
    else if s[0] == 0 then Some(Approve)
    else if s[0] == 1 then Some(Reject)
    else None
  }

  /** Decoding never yields a variant whose encoding is not the input. */
  lemma EncodeDecode(s: seq<Byte>)
    requires Decode(s).Some?
    ensures Encode(Decode(s).value) == s
  {
  }

  lemma EncodingBytes()
    ensures Encode(Approve) == [0] && Encode(Reject) == [1]
  {
  }

  /** `generate_vote_instruction`: a call to the counter program at
      `programId` on the record `votes`, signed by `authority`. */
  function GenerateVoteInstruction(programId: Key, votes: Key, authority: Key, ix: VoteInstruction): (r: Result<Instruction>)
    ensures r.Ok?
    ensures r.value.programId == programId
    ensures r.value.accounts == [AccountMeta(votes, false, true), AccountMeta(authority, true, false)]
    ensures Decode(r.value.data) == Some(ix)
  {
    Ok(Instruction(programId, [NewMeta(votes, false), NewReadonlyMeta(authority, true)], Encode(ix)))
  }
}
