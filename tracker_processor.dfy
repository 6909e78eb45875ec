/** The tracker program's entry point. Initialize creates a user's tracker
    record at the address derived from [user, counter] and records the
    bumps of that address and of the delegate authority derived from
    [counter]. Approve and Reject re-derive both addresses from the stored
    bumps, call the counter program with the delegate authority signed for
    by those seeds, and count the vote locally once that call succeeded. */
module TrackerProcessor {
  import opened Borsh
  import opened Solana
  import TrackerState
  import TrackerInstruction
  import VotingState
  import VotingInstruction
  import VotingProcessor

  type VoteTracker = TrackerState.VoteTracker
  type VoteInstruction = VotingInstruction.VoteInstruction

  /** What the tracker program depends on outside itself: the host's
      address derivation, the id the counter program is deployed at, and
      how any other program answers a call. Such a program does not own
      the counter record, so it cannot write it directly; the calls it
      could make into the counter program with the delegate's signature
      are not modelled, and it is taken to make none. */
  datatype Host = Host(derive: Deriver, votingProgramId: Key, otherProgram: Instruction -> ProgramResult)

  /** The size Initialize asks the system program for. */
  const ALLOCATED_SPACE: nat := 42

  /** The size a `VoteTracker` needs. */
  const RECORD_SPACE: nat := TrackerState.SIZE

  /** The delegate authority of a counter record: derived from [counter]. */
  function AuthorityAddress(host: Host, programId: Key, counter: Key): Option<(Key, Byte)>
  {
    FindProgramAddress(host.derive, [counter], programId)
  }

  /** A user's tracker record for a counter: derived from [user, counter]. */
  function TrackerAddress(host: Host, programId: Key, user: Key, counter: Key): Option<(Key, Byte)>
  {
    FindProgramAddress(host.derive, [user, counter], programId)
  }

  /** Initialize on values, given the size it allocates: the new tracker
      record bytes, or the error. Accounts: tracker record, user (funds
      the creation), delegate authority, counter record, system program.
      The creation call runs before the key checks; when a check then
      fails the host discards the created account with the rest of the
      call. */
  function Initialize(host: Host, programId: Key, accounts: seq<AccountView>, space: nat): (r: Result<seq<Byte>>)
    ensures r.Ok? ==> |accounts| >= 5 && |r.value| == TrackerState.SIZE
  {
    if |accounts| < 5 then Err(NotEnoughAccountKeys)
    else
      var trackerAi, user, authority, votes, systemProgram := accounts[0], accounts[1], accounts[2], accounts[3], accounts[4];
      match AuthorityAddress(host, programId, votes.key)
      case None => Err(ProgramFailedToComplete)
      case Some((authorityKey, authBump)) =>
        match TrackerAddress(host, programId, user.key, votes.key)
        case None => Err(ProgramFailedToComplete)
        case Some((trackerKey, bump)) =>
          // create_account needs both the funder's and the new account's signature
          var signerSeeds := [user.key, votes.key] + [[bump]];
          if !Signs(host.derive, programId, signerSeeds, user) || !Signs(host.derive, programId, signerSeeds, trackerAi) then
            Err(PrivilegeEscalation)
          else match CreateAccount(trackerAi.data, space)
            case Err(e) => Err(e)
            case Ok(created) =>
              if systemProgram.key != SYSTEM_PROGRAM_ID then Err(InvalidArgument)
              else if trackerKey != trackerAi.key then Err(InvalidArgument)
              else if authorityKey != authority.key then Err(InvalidArgument)
              else match TrackerState.Decode(created)
                case None => Err(BorshIoError)
                case Some(_) => Ok(TrackerState.Encode(TrackerState.VoteTracker(bump, authBump, votes.key, 0, 0)))
  }

  /** The user's tally an instruction counts into. */
  function Count(t: VoteTracker, ix: VoteInstruction): U64
  {
    if ix.Approve? then t.approveCount else t.rejectCount
  }

  function Increment(t: VoteTracker, ix: VoteInstruction): VoteTracker
    requires Count(t, ix) < U64_MAX
  {
    if ix.Approve? then t.(approveCount := t.approveCount + 1)
    else t.(rejectCount := t.rejectCount + 1)
  }

  /** Neither the tracker's tally nor the counter's overflows. */
  predicate VoteHeadroom(ix: VoteInstruction, accounts: seq<AccountView>)
  {
    |accounts| < 5 ||
    (&& (match TrackerState.Decode(accounts[0].data)
         case None => true
         case Some(t) => Count(t, ix) < U64_MAX)
     && VotingProcessor.HasHeadroom(ix, accounts[3].data))
  }

  /** The accounts the counter program sees in the cross-program call:
      each with the signer flag its account meta asks for. */
  function CalleeAccounts(instruction: Instruction, counter: AccountView, authority: AccountView): (cs: seq<AccountView>)
    requires |instruction.accounts| == 2
    ensures |cs| == 2 && cs[0].data == counter.data && cs[1].key == authority.key
  {
    [AccountView(counter.key, instruction.accounts[0].isSigner, counter.data),
     AccountView(authority.key, instruction.accounts[1].isSigner, authority.data)]
  }

  predicate CallHeadroom(instruction: Instruction, counter: AccountView, authority: AccountView)
    requires |instruction.accounts| == 2
  {
    VotingProcessor.ProcessHeadroom(instruction.data, CalleeAccounts(instruction, counter, authority))
  }

  /** `invoke_signed` of a call built by `generate_vote_instruction`: the
      counter record's bytes after the call, or the error. An account the
      call marks as signer must be signed for by the transaction or be the
      address the signer seeds derive under the calling program's id. The
      call goes to the counter program when the id matches, and otherwise
      to some other program, taken to leave the counter record as it was. */
  function InvokeVote(host: Host, programId: Key, instruction: Instruction, counter: AccountView,
                      authority: AccountView, signerSeeds: seq<Seed>): (r: Result<seq<Byte>>)
    requires |instruction.accounts| == 2
    requires CallHeadroom(instruction, counter, authority)
    ensures r.Ok? && instruction.programId == host.votingProgramId ==> |r.value| == |counter.data| == VotingState.SIZE
  {
    var metas := instruction.accounts;
    if (metas[0].isSigner && !Signs(host.derive, programId, signerSeeds, counter))
      || (metas[1].isSigner && !Signs(host.derive, programId, signerSeeds, authority)) then
      Err(PrivilegeEscalation)
    else if instruction.programId == host.votingProgramId then
      VotingProcessor.Process(instruction.data, CalleeAccounts(instruction, counter, authority))
    else match host.otherProgram(instruction)
      case Ok(_) => Ok(counter.data)
      case Err(e) => Err(e)
  }

  /** The two records after a vote. */
  datatype Records = Records(counter: seq<Byte>, tracker: seq<Byte>)

  /** Approve or Reject on values: both records' new bytes, or the error.
      Accounts: tracker record, user, counter program, counter record,
      delegate authority. */
  function CastVote(host: Host, programId: Key, ix: VoteInstruction, accounts: seq<AccountView>): (r: Result<Records>)
    requires VoteHeadroom(ix, accounts)
    ensures r.Ok? ==> |accounts| >= 5 && |r.value.tracker| == |accounts[0].data| == TrackerState.SIZE
  {
    if |accounts| < 5 then Err(NotEnoughAccountKeys)
    else
      var trackerAi, user, counterProgram, counter, authority := accounts[0], accounts[1], accounts[2], accounts[3], accounts[4];
      match TrackerState.Decode(trackerAi.data)
      case None => Err(BorshIoError)
      case Some(tracker) =>
        var authoritySeeds := [counter.key] + [[tracker.authBump]];
        match CreateProgramAddress(host.derive, authoritySeeds, programId)
        case None => Err(InvalidSeeds)
        case Some(authKey) =>
          if authKey != authority.key then Err(InvalidArgument)
          else match CreateProgramAddress(host.derive, [user.key, counter.key] + [[tracker.bump]], programId)
            case None => Err(InvalidSeeds)
            case Some(trackerKey) =>
              if trackerKey != trackerAi.key then Err(InvalidArgument)
              else
                var instruction := VotingInstruction.GenerateVoteInstruction(counterProgram.key, counter.key, authority.key, ix).value;
                match InvokeVote(host, programId, instruction, counter, authority, authoritySeeds)
                case Err(e) => Err(e)
                case Ok(newCounter) => Ok(Records(newCounter, TrackerState.Encode(Increment(tracker, ix))))
  }

  /** What a successful call writes. */
  datatype Effect = Created(tracker: seq<Byte>) | Voted(records: Records)

  predicate ProcessHeadroom(instructionData: seq<Byte>, accounts: seq<AccountView>)
  {
    match TrackerInstruction.Decode(instructionData)
    case Some(Approve) => VoteHeadroom(VotingInstruction.Approve, accounts)
    case Some(Reject) => VoteHeadroom(VotingInstruction.Reject, accounts)
    case _ => true
  }

  /** `process_instruction` on values, with the tracker record allocated
      at the size it needs. */
  function Process(host: Host, programId: Key, instructionData: seq<Byte>, accounts: seq<AccountView>): (r: Result<Effect>)
    requires ProcessHeadroom(instructionData, accounts)
    ensures TrackerInstruction.Decode(instructionData).None? ==> r == Err(InvalidInstructionData)
  {
    match TrackerInstruction.Decode(instructionData)
    case None => Err(InvalidInstructionData)
    case Some(Initialize) =>
      (match Initialize(host, programId, accounts, RECORD_SPACE)
       case Ok(t) => Ok(Created(t))
       case Err(e) => Err(e))
    case Some(Approve) =>
      (match CastVote(host, programId, VotingInstruction.Approve, accounts)
       case Ok(rs) => Ok(Voted(rs))
       case Err(e) => Err(e))
    case Some(Reject) =>
      (match CastVote(host, programId, VotingInstruction.Reject, accounts)
       case Ok(rs) => Ok(Voted(rs))
       case Err(e) => Err(e))
  }

  /** `invoke_signed` into the counter program (or whatever program the
      caller named): the callee sees the counter record's buffer itself. */
  method InvokeSigned(host: Host, programId: Key, instruction: Instruction, counter: AccountInfo,
                      authority: AccountInfo, signerSeeds: seq<Seed>) returns (result: ProgramResult)
    requires |instruction.accounts| == 2
    requires CallHeadroom(instruction, counter.View(), authority.View())
    modifies counter.data
    ensures result == Status(InvokeVote(host, programId, instruction, old(counter.View()), old(authority.View()), signerSeeds))
    ensures counter.data[..] ==
      VotingProcessor.Written(InvokeVote(host, programId, instruction, old(counter.View()), old(authority.View()), signerSeeds),
                              old(counter.data[..]))
  {
    var metas := instruction.accounts;
    if (metas[0].isSigner && !Signs(host.derive, programId, signerSeeds, counter.View()))
      || (metas[1].isSigner && !Signs(host.derive, programId, signerSeeds, authority.View())) {
      return Err(PrivilegeEscalation);
    }
    if instruction.programId == host.votingProgramId {
      var calleeCounter := new AccountInfo(counter.key, metas[0].isSigner, counter.data);
      var calleeAuthority := new AccountInfo(authority.key, metas[1].isSigner, authority.data);
      var callee := [calleeCounter, calleeAuthority];
      assert Views(callee) == CalleeAccounts(instruction, counter.View(), authority.View());
      result := VotingProcessor.ProcessInstruction(instruction.programId, callee, instruction.data);
    } else {
      match host.otherProgram(instruction)
      case Ok(_) => result := Ok(());
      case Err(e) => result := Err(e);
    }
  }

  /** The program's entry point, with the tracker record allocated at the
      size it needs. Records are written only once every check has passed;
      the account created by Initialize is kept only then. */
  method ProcessInstruction(host: Host, programId: Key, accounts: seq<AccountInfo>, instructionData: seq<Byte>)
    returns (result: ProgramResult)
    requires ProcessHeadroom(instructionData, Views(accounts))
    modifies if |accounts| >= 5 then {accounts[0], accounts[0].data, accounts[3].data} else {}
    ensures result == Status(Process(host, programId, instructionData, old(Views(accounts))))
    ensures |accounts| >= 5 ==>
      match Process(host, programId, instructionData, old(Views(accounts)))
      case Err(_) =>
        && accounts[0].data == old(accounts[0].data)
        && accounts[0].data[..] == old(accounts[0].data[..])
        && accounts[3].data[..] == old(accounts[3].data[..])
      case Ok(Created(t)) =>
        && fresh(accounts[0].data) && accounts[0].data[..] == t
        && (accounts[3] != accounts[0] ==> accounts[3].data[..] == old(accounts[3].data[..]))
      case Ok(Voted(rs)) =>
        && accounts[0].data == old(accounts[0].data)
        && accounts[0].data[..] == rs.tracker
        && (accounts[3].data != accounts[0].data ==> accounts[3].data[..] == rs.counter)
  {
    var instruction := TrackerInstruction.Decode(instructionData);
    if instruction.None? {
      return Err(InvalidInstructionData);
    }
    // the account iterator: every instruction takes five accounts
    if |accounts| < 5 {
      return Err(NotEnoughAccountKeys);
    }
    match instruction.value
    case Initialize =>
      result := InitializeTracker(host, programId, accounts);
    case Approve =>
      result := Vote(host, programId, VotingInstruction.Approve, accounts);
    case Reject =>
      result := Vote(host, programId, VotingInstruction.Reject, accounts);
  }

  method InitializeTracker(host: Host, programId: Key, accounts: seq<AccountInfo>) returns (result: ProgramResult)
    requires |accounts| >= 5
    modifies accounts[0]
    ensures result == Status(Initialize(host, programId, old(Views(accounts)), RECORD_SPACE))
    ensures match Initialize(host, programId, old(Views(accounts)), RECORD_SPACE)
      case Err(_) => accounts[0].data == old(accounts[0].data)
      case Ok(t) => fresh(accounts[0].data) && accounts[0].data[..] == t
  {
    var trackerAi, user, authority, votes, systemProgram := accounts[0], accounts[1], accounts[2], accounts[3], accounts[4];
    var authorityAddress := AuthorityAddress(host, programId, votes.key);
    if authorityAddress.None? {
      return Err(ProgramFailedToComplete);
    }
    var authorityKey, authBump := authorityAddress.value.0, authorityAddress.value.1;
    var trackerAddress := TrackerAddress(host, programId, user.key, votes.key);
    if trackerAddress.None? {
      return Err(ProgramFailedToComplete);
    }
    var trackerKey, bump := trackerAddress.value.0, trackerAddress.value.1;
    var signerSeeds := [user.key, votes.key] + [[bump]];
    if !Signs(host.derive, programId, signerSeeds, user.View()) || !Signs(host.derive, programId, signerSeeds, trackerAi.View()) {
      return Err(PrivilegeEscalation);
    }
    var creation := CreateAccount(trackerAi.data[..], RECORD_SPACE);
    if creation.Err? {
      return Err(creation.error);
    }
    var created := new Byte[RECORD_SPACE](_ => 0);
    if systemProgram.key != SYSTEM_PROGRAM_ID {
      return Err(InvalidArgument);
    }
    if trackerKey != trackerAi.key {
      return Err(InvalidArgument);
    }
    if authorityKey != authority.key {
      return Err(InvalidArgument);
    }
    var decoded := TrackerState.Decode(created[..]);
    if decoded.None? {
      return Err(BorshIoError);
    }
    var tracker := decoded.value.(bump := bump, authBump := authBump, proposalToVote := votes.key,
                                  approveCount := 0, rejectCount := 0);
    trackerAi.data := created;
    trackerAi.Serialize(TrackerState.Encode(tracker));
    return Ok(());
  }

  method Vote(host: Host, programId: Key, ix: VoteInstruction, accounts: seq<AccountInfo>) returns (result: ProgramResult)
    requires |accounts| >= 5
    requires VoteHeadroom(ix, Views(accounts))
    modifies accounts[0].data, accounts[3].data
    ensures result == Status(CastVote(host, programId, ix, old(Views(accounts))))
    ensures match CastVote(host, programId, ix, old(Views(accounts)))
      case Err(_) =>
        && accounts[0].data[..] == old(accounts[0].data[..])
        && accounts[3].data[..] == old(accounts[3].data[..])
      case Ok(rs) =>
        && accounts[0].data[..] == rs.tracker
        && (accounts[3].data != accounts[0].data ==> accounts[3].data[..] == rs.counter)
  {
    var trackerAi, user, counterProgram, counter, authority := accounts[0], accounts[1], accounts[2], accounts[3], accounts[4];
    var decoded := TrackerState.Decode(trackerAi.data[..]);
    if decoded.None? {
      return Err(BorshIoError);
    }
    var tracker := decoded.value;
    var authoritySeeds := [counter.key] + [[tracker.authBump]];
    var authKey := CreateProgramAddress(host.derive, authoritySeeds, programId);
    if authKey.None? {
      return Err(InvalidSeeds);
    }
    if authKey.value != authority.key {
      return Err(InvalidArgument);
    }
    var trackerKey := CreateProgramAddress(host.derive, [user.key, counter.key] + [[tracker.bump]], programId);
    if trackerKey.None? {
      return Err(InvalidSeeds);
    }
    if trackerKey.value != trackerAi.key {
      return Err(InvalidArgument);
    }
    var instruction := VotingInstruction.GenerateVoteInstruction(counterProgram.key, counter.key, authority.key, ix).value;
    result := InvokeSigned(host, programId, instruction, counter, authority, authoritySeeds);
    if result.Err? {
      return;
    }
    if ix.Approve? {
      tracker := tracker.(approveCount := tracker.approveCount + 1);
    } else {
      tracker := tracker.(rejectCount := tracker.rejectCount + 1);
    }
    trackerAi.Serialize(TrackerState.Encode(tracker));
  }
}
