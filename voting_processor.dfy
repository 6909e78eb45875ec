/** The counter program's entry point. Approve and Reject each require the
    authority account to have signed; the first call on a record binds its
    signer as the record's authority, later calls must present that same
    key, and a successful call adds one to exactly one tally. */
module VotingProcessor {
  import opened Borsh
  import opened Solana
  import VotingState
  import VotingInstruction

  type Votes = VotingState.Votes
  type VoteInstruction = VotingInstruction.VoteInstruction

  /** The tally an instruction counts into. */
  function Tally(v: Votes, ix: VoteInstruction): U64
  {
    if ix.Approve? then v.approveCount else v.rejectCount
  }

  /** The other instruction. */
  function Other(ix: VoteInstruction): VoteInstruction
  {
    if ix.Approve? then VotingInstruction.Reject else VotingInstruction.Approve
  }

  /** `+= 1` on a u64 tally stays in range. Whether the program would wrap
      or abort past this point depends on its build profile, so callers
      stay below it. */
  predicate HasHeadroom(ix: VoteInstruction, data: seq<Byte>)
  {
    match VotingState.Decode(data)
    case None => true
    case Some(v) => Tally(v, ix) < U64_MAX
  }

  function Increment(v: Votes, ix: VoteInstruction): Votes
    requires Tally(v, ix) < U64_MAX
  {
    if ix.Approve? then v.(approveCount := v.approveCount + 1)
    else v.(rejectCount := v.rejectCount + 1)
  }

  /** One Approve or Reject on the record bytes `data`, presented by
      `authority`: the updated record, or the error. Both the missing
      signature and the wrong authority are reported as
      MissingRequiredSignature. */
  function Cast(ix: VoteInstruction, data: seq<Byte>, authority: Key, isSigner: bool): (r: Result<Votes>)
    requires HasHeadroom(ix, data)
    ensures !isSigner ==> r == Err(MissingRequiredSignature)
    ensures r.Ok? <==>
      && isSigner && VotingState.Decode(data).Some?
      && (VotingState.Decode(data).value.initialized ==> VotingState.Decode(data).value.authority == authority)
    ensures r.Ok? ==>
      var v := VotingState.Decode(data).value;
      && r.value.initialized && r.value.authority == authority
      && r.value.proposalNumber == v.proposalNumber
      && Tally(r.value, ix) == Tally(v, ix) + 1
      && Tally(r.value, Other(ix)) == Tally(v, Other(ix))
    ensures r.Err? ==> r.error == MissingRequiredSignature || r.error == BorshIoError
  {
    if !isSigner then Err(MissingRequiredSignature)
    else match VotingState.Decode(data)
      case None => Err(BorshIoError)
      case Some(votes) =>
        var bound := if !votes.initialized then votes.(authority := authority, initialized := true) else votes;
        if bound.authority != authority then Err(MissingRequiredSignature)
        else Ok(Increment(bound, ix))
  }

  predicate ProcessHeadroom(instructionData: seq<Byte>, accounts: seq<AccountView>)
  {
    match VotingInstruction.Decode(instructionData)
    case None => true
    case Some(ix) => |accounts| == 0 || HasHeadroom(ix, accounts[0].data)
  }

  /** `process_instruction` on values: the new bytes of the record account
      (the first account; the second is the authority), or the error. The
      instruction is decoded before any account is looked at. */
  function Process(instructionData: seq<Byte>, accounts: seq<AccountView>): (r: Result<seq<Byte>>)
    requires ProcessHeadroom(instructionData, accounts)
    ensures VotingInstruction.Decode(instructionData).None? ==> r == Err(InvalidInstructionData)
    ensures r.Ok? ==> |accounts| >= 2 && |r.value| == |accounts[0].data| == VotingState.SIZE
  {
    match VotingInstruction.Decode(instructionData)
    case None => Err(InvalidInstructionData)
    case Some(ix) =>
      if |accounts| < 2 then Err(NotEnoughAccountKeys)
      else match Cast(ix, accounts[0].data, accounts[1].key, accounts[1].isSigner)
        case Err(e) => Err(e)
        case Ok(votes) => Ok(VotingState.Encode(votes))
  }

  /** The bytes an account holds after a call that would write `r`. */
  function Written(r: Result<seq<Byte>>, current: seq<Byte>): seq<Byte>
  {
    if r.Ok? then r.value else current
  }

  /** The program's entry point. It writes the record in place only when
      every check has passed. */
  method ProcessInstruction(programId: Key, accounts: seq<AccountInfo>, instructionData: seq<Byte>)
    returns (result: ProgramResult)
    requires ProcessHeadroom(instructionData, Views(accounts))
    modifies if |accounts| > 0 then {accounts[0].data} else {}
    ensures result == Status(Process(instructionData, old(Views(accounts))))
    ensures |accounts| > 0 ==>
      accounts[0].data[..] == Written(Process(instructionData, old(Views(accounts))), old(accounts[0].data[..]))
  {
    var instruction := VotingInstruction.Decode(instructionData);
    if instruction.None? {
      return Err(InvalidInstructionData);
    }
    var ix := instruction.value;
    // the account iterator: the record, then its authority
    if |accounts| < 2 {
      return Err(NotEnoughAccountKeys);
    }
    var votesAi, authority := accounts[0], accounts[1];
    ghost var cast := Cast(ix, votesAi.data[..], authority.key, authority.isSigner);
    assert Process(instructionData, Views(accounts)) == (if cast.Ok? then Ok(VotingState.Encode(cast.value)) else Err(cast.error));
    if !authority.isSigner {
      return Err(MissingRequiredSignature);
    }
    var decoded := VotingState.Decode(votesAi.data[..]);
    if decoded.None? {
      return Err(BorshIoError);
    }
    var votes := decoded.value;
    if !votes.initialized {
      // the first call on a record binds its authority
      votes := votes.(authority := authority.key, initialized := true);
    }
    if votes.authority != authority.key {
      return Err(MissingRequiredSignature);
    }
    if ix.Approve? {
      votes := votes.(approveCount := votes.approveCount + 1);
    } else {
      votes := votes.(rejectCount := votes.rejectCount + 1);
    }
    assert cast == Ok(votes);
    votesAi.Serialize(VotingState.Encode(votes));
    return Ok(());
  }

  /** A call the program accepts: a known instruction, both accounts, the
      authority's signature, and a record that decodes and is either
      unbound or bound to the presented key. */
  predicate Accepted(instructionData: seq<Byte>, accounts: seq<AccountView>)
  {
    && VotingInstruction.Decode(instructionData).Some?
    && |accounts| >= 2 && accounts[1].isSigner
    && VotingState.Decode(accounts[0].data).Some?
    && var v := VotingState.Decode(accounts[0].data).value;
       v.initialized ==> v.authority == accounts[1].key
  }

  /** A call succeeds exactly when it is accepted; the record it writes
      decodes, is bound to the presented key, has one tally one higher and
      the other tally and the proposal number unchanged. */
  lemma SuccessfulVote(instructionData: seq<Byte>, accounts: seq<AccountView>)
    requires ProcessHeadroom(instructionData, accounts)
    ensures Process(instructionData, accounts).Ok? <==> Accepted(instructionData, accounts)
    ensures Process(instructionData, accounts).Ok? ==>
      VotingState.Decode(Process(instructionData, accounts).value).Some?
    ensures Process(instructionData, accounts).Ok? ==>
      var ix := VotingInstruction.Decode(instructionData).value;
      var v := VotingState.Decode(accounts[0].data).value;
      var w := VotingState.Decode(Process(instructionData, accounts).value).value;
      && w.initialized && w.authority == accounts[1].key
      && w.proposalNumber == v.proposalNumber
      && Tally(w, ix) == Tally(v, ix) + 1
      && Tally(w, Other(ix)) == Tally(v, Other(ix))
  {
    if Process(instructionData, accounts).Ok? {
      var ix := VotingInstruction.Decode(instructionData).value;
      var w := Cast(ix, accounts[0].data, accounts[1].key, accounts[1].isSigner).value;
      VotingState.DecodeEncode(w);
    }
  }

  /** Approve adds one to approve_count and leaves reject_count, the
      proposal number and a bound authority as they were. */
  lemma ApproveCountsOnce(accounts: seq<AccountView>)
    requires ProcessHeadroom([0], accounts)
    requires Process([0], accounts).Ok?
    ensures VotingState.Decode(accounts[0].data).Some?
    ensures VotingState.Decode(Process([0], accounts).value).Some?
    ensures var v := VotingState.Decode(accounts[0].data).value;
            var w := VotingState.Decode(Process([0], accounts).value).value;
            && w.approveCount == v.approveCount + 1
            && w.rejectCount == v.rejectCount
            && w.proposalNumber == v.proposalNumber
            && (v.initialized ==> w.authority == v.authority)
  {
    SuccessfulVote([0], accounts);
  }

  /** Reject adds one to reject_count and leaves approve_count, the
      proposal number and a bound authority as they were. */
  lemma RejectCountsOnce(accounts: seq<AccountView>)
    requires ProcessHeadroom([1], accounts)
    requires Process([1], accounts).Ok?
    ensures VotingState.Decode(accounts[0].data).Some?
    ensures VotingState.Decode(Process([1], accounts).value).Some?
    ensures var v := VotingState.Decode(accounts[0].data).value;
            var w := VotingState.Decode(Process([1], accounts).value).value;
            && w.rejectCount == v.rejectCount + 1
            && w.approveCount == v.approveCount
            && w.proposalNumber == v.proposalNumber
            && (v.initialized ==> w.authority == v.authority)
  {
    SuccessfulVote([1], accounts);
  }

  /** Without the authority's signature a well-formed call fails with
      MissingRequiredSignature (and so writes nothing). */
  lemma UnsignedRejected(instructionData: seq<Byte>, accounts: seq<AccountView>)
    requires ProcessHeadroom(instructionData, accounts)
    requires VotingInstruction.Decode(instructionData).Some? && |accounts| >= 2
    requires !accounts[1].isSigner
    ensures Process(instructionData, accounts) == Err(MissingRequiredSignature)
  {
  }

  /** On an unbound record a signed call succeeds and binds the signer. */
  lemma FirstVoteBindsSigner(instructionData: seq<Byte>, accounts: seq<AccountView>)
    requires ProcessHeadroom(instructionData, accounts)
    requires VotingInstruction.Decode(instructionData).Some? && |accounts| >= 2
    requires accounts[1].isSigner
    requires VotingState.Decode(accounts[0].data).Some? && !VotingState.Decode(accounts[0].data).value.initialized
    ensures Process(instructionData, accounts).Ok?
    ensures VotingState.Decode(Process(instructionData, accounts).value).Some?
    ensures var w := VotingState.Decode(Process(instructionData, accounts).value).value;
            w.initialized && w.authority == accounts[1].key
  {
    SuccessfulVote(instructionData, accounts);
  }

  /** On a bound record any other signer fails with
      MissingRequiredSignature (and so writes nothing). */
  lemma WrongAuthorityRejected(instructionData: seq<Byte>, accounts: seq<AccountView>)
    requires ProcessHeadroom(instructionData, accounts)
    requires VotingInstruction.Decode(instructionData).Some? && |accounts| >= 2
    requires accounts[1].isSigner
    requires VotingState.Decode(accounts[0].data).Some?
    requires var v := VotingState.Decode(accounts[0].data).value; v.initialized && v.authority != accounts[1].key
    ensures Process(instructionData, accounts) == Err(MissingRequiredSignature)
  {
  }

  /** Record bytes that are not a `Votes` abort a signed call. */
  lemma UndecodableRecordRejected(instructionData: seq<Byte>, accounts: seq<AccountView>)
    requires ProcessHeadroom(instructionData, accounts)
    requires VotingInstruction.Decode(instructionData).Some? && |accounts| >= 2
    requires accounts[1].isSigner && VotingState.Decode(accounts[0].data).None?
    ensures Process(instructionData, accounts) == Err(BorshIoError)
  {
  }

  /** A call from some caller on a record, as a sequence of such calls
      sees it: the instruction bytes and the presented authority. */
  datatype Call = Call(instructionData: seq<Byte>, authority: Key, isSigner: bool)

  /** Room for n more calls on the record without overflowing a tally. */
  predicate RunHeadroom(data: seq<Byte>, n: nat)
  {
    match VotingState.Decode(data)
    case None => true
    case Some(v) => v.approveCount + n <= U64_MAX && v.rejectCount + n <= U64_MAX
  }

  /** The record bytes after one call; a failed call leaves them. */
  function Apply(record: Key, data: seq<Byte>, call: Call): seq<Byte>
    requires RunHeadroom(data, 1)
  {
    var accounts := [AccountView(record, false, data), AccountView(call.authority, call.isSigner, [])];
    Written(Process(call.instructionData, accounts), data)
  }

  /** One call keeps the proposal number, moves each tally by at most one,
      and never rebinds a bound authority. */
  lemma ApplyStep(record: Key, data: seq<Byte>, call: Call, n: nat)
    requires RunHeadroom(data, n + 1)
    ensures RunHeadroom(Apply(record, data, call), n)
    ensures VotingState.Decode(data).Some? ==> VotingState.Decode(Apply(record, data, call)).Some?
    ensures VotingState.Decode(data).Some? ==>
      var v := VotingState.Decode(data).value;
      var w := VotingState.Decode(Apply(record, data, call)).value;
      && w.proposalNumber == v.proposalNumber
      && v.approveCount <= w.approveCount <= v.approveCount + 1
      && v.rejectCount <= w.rejectCount <= v.rejectCount + 1
      && (v.initialized ==> w.initialized && w.authority == v.authority)
  {
    var accounts := [AccountView(record, false, data), AccountView(call.authority, call.isSigner, [])];
    var r := Process(call.instructionData, accounts);
    if r.Ok? {
      SuccessfulVote(call.instructionData, accounts);
    }
  }

  /** The record bytes after a sequence of calls. */
  function Run(record: Key, data: seq<Byte>, calls: seq<Call>): seq<Byte>
    requires RunHeadroom(data, |calls|)
    decreases |calls|
  {
    if calls == [] then data
    else
      ApplyStep(record, data, calls[0], |calls| - 1);
      Run(record, Apply(record, data, calls[0]), calls[1..])
  }

  /** Once a record is bound, its authority and proposal number survive
      any sequence of calls, successful or failing, and its tallies never
      decrease. */
  lemma {:induction false} AuthorityFixedOnceBound(record: Key, data: seq<Byte>, calls: seq<Call>)
    requires RunHeadroom(data, |calls|)
    requires VotingState.Decode(data).Some? && VotingState.Decode(data).value.initialized
    ensures VotingState.Decode(Run(record, data, calls)).Some?
    ensures var v := VotingState.Decode(data).value;
            var w := VotingState.Decode(Run(record, data, calls)).value;
            && w.initialized && w.authority == v.authority
            && w.proposalNumber == v.proposalNumber
            && w.approveCount >= v.approveCount && w.rejectCount >= v.rejectCount
    decreases |calls|
  {
    if calls != [] {
      ApplyStep(record, data, calls[0], |calls| - 1);
      AuthorityFixedOnceBound(record, Apply(record, data, calls[0]), calls[1..]);
    }
  }

  /** How many of the calls carry the instruction `ix`. */
  function CountOf(calls: seq<Call>, ix: VoteInstruction): (n: nat)
    ensures n <= |calls|
  {
    if calls == [] then 0
    else (if VotingInstruction.Decode(calls[0].instructionData) == Some(ix) then 1 else 0) + CountOf(calls[1..], ix)
  }

  /** On a bound record, every signed call by the bound authority counts:
      after any sequence of them each tally has grown by the number of
      calls of its kind. */
  lemma {:induction false} AuthorityCallsAllCount(record: Key, data: seq<Byte>, calls: seq<Call>)
    requires RunHeadroom(data, |calls|)
    requires VotingState.Decode(data).Some? && VotingState.Decode(data).value.initialized
    requires forall i :: 0 <= i < |calls| ==>
      && calls[i].isSigner && calls[i].authority == VotingState.Decode(data).value.authority
      && VotingInstruction.Decode(calls[i].instructionData).Some?
    ensures VotingState.Decode(Run(record, data, calls)).Some?
    ensures var v := VotingState.Decode(data).value;
            var w := VotingState.Decode(Run(record, data, calls)).value;
            && w.authority == v.authority
            && w.approveCount == v.approveCount + CountOf(calls, VotingInstruction.Approve)
            && w.rejectCount == v.rejectCount + CountOf(calls, VotingInstruction.Reject)
    decreases |calls|
  {
    if calls != [] {
      var accounts := [AccountView(record, false, data), AccountView(calls[0].authority, calls[0].isSigner, [])];
      SuccessfulVote(calls[0].instructionData, accounts);
      ApplyStep(record, data, calls[0], |calls| - 1);
      var next := Apply(record, data, calls[0]);
      assert next == Process(calls[0].instructionData, accounts).value;
      assert forall i :: 0 <= i < |calls[1..]| ==> calls[1..][i] == calls[i + 1];
      AuthorityCallsAllCount(record, next, calls[1..]);
    }
  }

  /** First writer wins: after a first signer's successful call on an
      unbound record, a different signer's call fails and leaves the
      record as the first call wrote it. */
  lemma FirstSignerOwnsRecord(record: Key, data: seq<Byte>, first: Call, second: Call)
    requires RunHeadroom(data, 2)
    requires VotingState.Decode(data).Some? && !VotingState.Decode(data).value.initialized
    requires VotingInstruction.Decode(first.instructionData).Some? && first.isSigner
    requires second.authority != first.authority
    ensures RunHeadroom(Apply(record, data, first), 1)
    ensures Apply(record, Apply(record, data, first), second) == Apply(record, data, first)
  {
    var accounts := [AccountView(record, false, data), AccountView(first.authority, first.isSigner, [])];
    FirstVoteBindsSigner(first.instructionData, accounts);
    ApplyStep(record, data, first, 1);
    var bound := Apply(record, data, first);
    assert bound == Process(first.instructionData, accounts).value;
    var w := VotingState.Decode(bound).value;
    assert w.initialized && w.authority == first.authority;
    var again := [AccountView(record, false, bound), AccountView(second.authority, second.isSigner, [])];
    assert Process(second.instructionData, again).Err?;
  }

  /** The size the client allocates for a counter record. */
  const CLIENT_ALLOCATED_SPACE: nat := 51

  /** A counter record allocated at the client's size is two bytes short of
      a `Votes`: every signed Approve or Reject on it fails with
      BorshIoError. */
  lemma ClientSizedRecordRejectsVotes(instructionData: seq<Byte>, accounts: seq<AccountView>)
    requires ProcessHeadroom(instructionData, accounts)
    requires VotingInstruction.Decode(instructionData).Some? && |accounts| >= 2 && accounts[1].isSigner
    requires |accounts[0].data| == CLIENT_ALLOCATED_SPACE
    ensures Process(instructionData, accounts) == Err(BorshIoError)
  {
  }

  /** A freshly allocated record of the full size decodes as an unbound
      record with zero tallies. */
  lemma ZeroedRecordDecodes()
    ensures VotingState.Decode(Zeros(VotingState.SIZE)) == Some(VotingState.Votes(Zeros(32), 0, 0, 0, false))
  {
    var z := VotingState.Votes(Zeros(32), 0, 0, 0, false);
    Pow256Widths();
    assert EncodeLE(0, 4) == [0, 0, 0, 0];
    assert EncodeLE(0, 8) == [0, 0, 0, 0, 0, 0, 0, 0];
    assert VotingState.Encode(z) == Zeros(VotingState.SIZE);
    VotingState.DecodeEncode(z);
  }

  /** On a record allocated at the full size, the first signed call
      succeeds, binds the signer and counts one vote. */
  lemma ZeroedRecordAcceptsFirstVote(instructionData: seq<Byte>, accounts: seq<AccountView>)
    requires ProcessHeadroom(instructionData, accounts)
    requires VotingInstruction.Decode(instructionData).Some? && |accounts| >= 2 && accounts[1].isSigner
    requires accounts[0].data == Zeros(VotingState.SIZE)
    ensures Process(instructionData, accounts).Ok?
    ensures VotingState.Decode(Process(instructionData, accounts).value).Some?
    ensures var ix := VotingInstruction.Decode(instructionData).value;
            var w := VotingState.Decode(Process(instructionData, accounts).value).value;
            && w.initialized && w.authority == accounts[1].key
            && Tally(w, ix) == 1 && Tally(w, Other(ix)) == 0
  {
    ZeroedRecordDecodes();
    FirstVoteBindsSigner(instructionData, accounts);
    SuccessfulVote(instructionData, accounts);
  }
}
