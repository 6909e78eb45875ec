/** The tracker program's instructions. */
module TrackerInstruction {
  import opened Borsh

  /** A unit enum: Borsh writes only the variant index. */
  datatype TrackerInstruction = Initialize | Approve | Reject

  function Encode(ix: TrackerInstruction): (r: seq<Byte>)
    ensures |r| == 1
    ensures Decode(r) == Some(ix)
  {
    match ix
    case Initialize => [0]
    case Approve => [1]
    case Reject => [2]
  }

  /** `TrackerInstruction::try_from_slice`: one byte, a known variant
      index, nothing after it. */
  function Decode(s: seq<Byte>): (r: Option<TrackerInstruction>)
    ensures r.Some? <==> |s| == 1 && s[0] < 3
  {
    if |s| != 1 then None
    else if s[0] == 0 then Some(Initialize)
    else if s[0] == 1 then Some(Approve)
    else if s[0] == 2 then Some(Reject)
    else None
  }

  lemma EncodeDecode(s: seq<Byte>)
    requires Decode(s).Some?
    ensures Encode(Decode(s).value) == s
  {
  }

  /** Distinct variants have distinct encodings. */
  lemma EncodeInjective(a: TrackerInstruction, b: TrackerInstruction)
    requires Encode(a) == Encode(b)
    ensures a == b
  {
  }

  /** The bytes the client sends, `[0]` to initialize and `[1]` to vote,
      are Initialize and Approve. */
  lemma ClientBytes()
    ensures Decode([0]) == Some(Initialize) && Decode([1]) == Some(Approve)
    ensures Encode(Initialize) == [0] && Encode(Approve) == [1] && Encode(Reject) == [2]
  {
  }
}
