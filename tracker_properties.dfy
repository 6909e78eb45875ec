/** What the tracker program guarantees, stated over its value-level
    model: when Initialize succeeds and what it writes, when a vote
    succeeds and what it does to both records, how the delegate authority
    comes to sign the counter call, and where the program falls short of
    what it evidently intends. */
module TrackerProperties {
  import opened Borsh
  import opened Solana
  import TrackerState
  import VotingState
  import VotingInstruction
  import VotingProcessor
  import opened TrackerProcessor

  /** Every check Initialize makes passes: both derivations exist and
      match the supplied keys, the system program is the real one, the
      tracker account is unused, and the user's signature is present
      (or the user is the tracker account itself). */
  predicate InitializeChecksPass(host: Host, programId: Key, accounts: seq<AccountView>)
    requires |accounts| >= 5
  {
    var trackerAi, user, authority, votes, systemProgram := accounts[0], accounts[1], accounts[2], accounts[3], accounts[4];
    && AuthorityAddress(host, programId, votes.key).Some?
    && TrackerAddress(host, programId, user.key, votes.key).Some?
    && TrackerAddress(host, programId, user.key, votes.key).value.0 == trackerAi.key
    && AuthorityAddress(host, programId, votes.key).value.0 == authority.key
    && systemProgram.key == SYSTEM_PROGRAM_ID
    && |trackerAi.data| == 0
    && (user.isSigner || user.key == trackerAi.key)
  }

  /** The record a successful Initialize writes. */
  function FreshTracker(host: Host, programId: Key, accounts: seq<AccountView>): VoteTracker
    requires |accounts| >= 5 && InitializeChecksPass(host, programId, accounts)
  {
    TrackerState.VoteTracker(
      TrackerAddress(host, programId, accounts[1].key, accounts[3].key).value.1,
      AuthorityAddress(host, programId, accounts[3].key).value.1,
      accounts[3].key, 0, 0)
  }

  /** Initialize, allocating the size the record needs, succeeds exactly
      when all its checks pass, and then writes the two found bumps, the
      counter's key and zero tallies. */
  lemma InitializeCreatesRecord(host: Host, programId: Key, accounts: seq<AccountView>)
    requires |accounts| >= 5
    ensures Initialize(host, programId, accounts, RECORD_SPACE).Ok? <==> InitializeChecksPass(host, programId, accounts)
    ensures Initialize(host, programId, accounts, RECORD_SPACE).Ok? ==>
      TrackerState.Decode(Initialize(host, programId, accounts, RECORD_SPACE).value) == Some(FreshTracker(host, programId, accounts))
  {
    var r := Initialize(host, programId, accounts, RECORD_SPACE);
    if InitializeChecksPass(host, programId, accounts) {
      TrackerState.DecodeEncode(FreshTracker(host, programId, accounts));
      assert TrackerState.Decode(Zeros(RECORD_SPACE)).Some?;
    }
  }

  /** When the creation itself can go ahead (the user and the tracker
      account are each signed for, by the transaction or by the tracker
      address's seeds, and the account is unused), a wrong system program,
      tracker key or authority key makes Initialize fail with
      InvalidArgument, whatever size it allocates. */
  lemma InitializeRejectsWrongKeys(host: Host, programId: Key, accounts: seq<AccountView>, space: nat)
    requires |accounts| >= 5
    requires AuthorityAddress(host, programId, accounts[3].key).Some?
    requires TrackerAddress(host, programId, accounts[1].key, accounts[3].key).Some?
    requires var pda := TrackerAddress(host, programId, accounts[1].key, accounts[3].key).value.0;
             && (accounts[0].isSigner || accounts[0].key == pda)
             && (accounts[1].isSigner || accounts[1].key == pda)
    requires |accounts[0].data| == 0
    requires || accounts[4].key != SYSTEM_PROGRAM_ID
             || TrackerAddress(host, programId, accounts[1].key, accounts[3].key).value.0 != accounts[0].key
             || AuthorityAddress(host, programId, accounts[3].key).value.0 != accounts[2].key
    ensures Initialize(host, programId, accounts, space) == Err(InvalidArgument)
  {
  }

  /** Initialize as written allocates 42 bytes, which never decode as a
      50-byte `VoteTracker`: it always fails, and when every other check
      passes it fails on that decode. */
  lemma InitializeAsWrittenFails(host: Host, programId: Key, accounts: seq<AccountView>)
    requires |accounts| >= 5
    ensures Initialize(host, programId, accounts, ALLOCATED_SPACE).Err?
    ensures InitializeChecksPass(host, programId, accounts) ==>
      Initialize(host, programId, accounts, ALLOCATED_SPACE) == Err(BorshIoError)
  {
    assert TrackerState.Decode(Zeros(ALLOCATED_SPACE)).None?;
  }

  /** Initialize is not idempotent: run again on the account it created,
      it fails with AccountAlreadyInUse. */
  lemma SecondInitializeFails(host: Host, programId: Key, accounts: seq<AccountView>)
    requires |accounts| >= 5
    requires Initialize(host, programId, accounts, RECORD_SPACE).Ok?
    ensures var created := Initialize(host, programId, accounts, RECORD_SPACE).value;
            Initialize(host, programId, accounts[0 := accounts[0].(data := created)], RECORD_SPACE) == Err(AccountAlreadyInUse)
  {
    InitializeCreatesRecord(host, programId, accounts);
  }

  /** The call a vote makes into the counter program. */
  function CounterCall(ix: VoteInstruction, accounts: seq<AccountView>): (instruction: Instruction)
    requires |accounts| >= 5
    ensures |instruction.accounts| == 2
  {
    VotingInstruction.GenerateVoteInstruction(accounts[2].key, accounts[3].key, accounts[4].key, ix).value
  }

  /** The stored bumps re-derive the supplied authority and tracker keys. */
  predicate DerivationsMatch(host: Host, programId: Key, t: VoteTracker, accounts: seq<AccountView>)
    requires |accounts| >= 5
  {
    && DeriveWithBump(host.derive, [accounts[3].key], t.authBump, programId) == Some(accounts[4].key)
    && DeriveWithBump(host.derive, [accounts[1].key, accounts[3].key], t.bump, programId) == Some(accounts[0].key)
  }

  /** A vote succeeds exactly when the tracker record decodes, its bumps
      re-derive both supplied addresses and the call into the counter
      program succeeds; it then writes what that call left in the counter
      record and the tracker with one more vote of its kind. */
  lemma VoteSucceeds(host: Host, programId: Key, ix: VoteInstruction, accounts: seq<AccountView>)
    requires |accounts| >= 5
    requires VoteHeadroom(ix, accounts)
    ensures CastVote(host, programId, ix, accounts).Ok? <==>
      && TrackerState.Decode(accounts[0].data).Some?
      && DerivationsMatch(host, programId, TrackerState.Decode(accounts[0].data).value, accounts)
      && InvokeVote(host, programId, CounterCall(ix, accounts), accounts[3], accounts[4],
                    [accounts[3].key] + [[TrackerState.Decode(accounts[0].data).value.authBump]]).Ok?
    ensures CastVote(host, programId, ix, accounts).Ok? ==>
      var t := TrackerState.Decode(accounts[0].data).value;
      var rs := CastVote(host, programId, ix, accounts).value;
      && rs.counter == InvokeVote(host, programId, CounterCall(ix, accounts), accounts[3], accounts[4],
                                  [accounts[3].key] + [[t.authBump]]).value
      && TrackerState.Decode(rs.tracker) == Some(Increment(t, ix))
  {
    var r := CastVote(host, programId, ix, accounts);
    if r.Ok? {
      var t := TrackerState.Decode(accounts[0].data).value;
      TrackerState.DecodeEncode(Increment(t, ix));
    }
  }

  /** A tracker whose stored authority bump derives some key other than
      the supplied authority makes the vote fail with InvalidArgument,
      before the counter is called. */
  lemma VoteRejectsWrongAuthority(host: Host, programId: Key, ix: VoteInstruction, accounts: seq<AccountView>)
    requires |accounts| >= 5
    requires VoteHeadroom(ix, accounts)
    requires TrackerState.Decode(accounts[0].data).Some?
    requires var t := TrackerState.Decode(accounts[0].data).value;
             var derived := DeriveWithBump(host.derive, [accounts[3].key], t.authBump, programId);
             derived.Some? && derived.value != accounts[4].key
    ensures CastVote(host, programId, ix, accounts) == Err(InvalidArgument)
  {
  }

  /** With the authority right, a tracker bump that derives some key other
      than the tracker account's makes the vote fail with InvalidArgument,
      before the counter is called. */
  lemma VoteRejectsWrongTracker(host: Host, programId: Key, ix: VoteInstruction, accounts: seq<AccountView>)
    requires |accounts| >= 5
    requires VoteHeadroom(ix, accounts)
    requires TrackerState.Decode(accounts[0].data).Some?
    requires var t := TrackerState.Decode(accounts[0].data).value;
             var derived := DeriveWithBump(host.derive, [accounts[1].key, accounts[3].key], t.bump, programId);
             && DeriveWithBump(host.derive, [accounts[3].key], t.authBump, programId) == Some(accounts[4].key)
             && derived.Some? && derived.value != accounts[0].key
    ensures CastVote(host, programId, ix, accounts) == Err(InvalidArgument)
  {
  }

  /** The delegation rule: the call into the counter program is refused
      for a missing signature exactly when the authority neither signed the
      transaction nor is the address the signer seeds derive under the
      tracker's program id. */
  lemma DelegateSigns(host: Host, programId: Key, ix: VoteInstruction, accounts: seq<AccountView>, seeds: seq<Seed>)
    requires |accounts| >= 5
    requires accounts[2].key == host.votingProgramId
    requires CallHeadroom(CounterCall(ix, accounts), accounts[3], accounts[4])
    ensures InvokeVote(host, programId, CounterCall(ix, accounts), accounts[3], accounts[4], seeds) == Err(PrivilegeEscalation)
      <==> !accounts[4].isSigner && CreateProgramAddress(host.derive, seeds, programId) != Some(accounts[4].key)
  {
  }

  /** Calling the counter program itself, a successful vote adds one to
      the same tally in the counter record and in the tracker, leaves both
      other tallies, the proposal number and the tracker's bumps and
      counter reference as they were, and leaves the counter bound to the
      delegate authority. */
  lemma VoteCountsInBoth(host: Host, programId: Key, ix: VoteInstruction, accounts: seq<AccountView>)
    requires |accounts| >= 5
    requires VoteHeadroom(ix, accounts)
    requires accounts[2].key == host.votingProgramId
    requires CastVote(host, programId, ix, accounts).Ok?
    ensures VotingState.Decode(accounts[3].data).Some? && TrackerState.Decode(accounts[0].data).Some?
    ensures var rs := CastVote(host, programId, ix, accounts).value;
            VotingState.Decode(rs.counter).Some? && TrackerState.Decode(rs.tracker).Some?
    ensures var rs := CastVote(host, programId, ix, accounts).value;
            var v := VotingState.Decode(accounts[3].data).value;
            var w := VotingState.Decode(rs.counter).value;
            var t := TrackerState.Decode(accounts[0].data).value;
            var u := TrackerState.Decode(rs.tracker).value;
            && VotingProcessor.Tally(w, ix) == VotingProcessor.Tally(v, ix) + 1
            && VotingProcessor.Tally(w, VotingProcessor.Other(ix)) == VotingProcessor.Tally(v, VotingProcessor.Other(ix))
            && w.proposalNumber == v.proposalNumber
            && w.initialized && w.authority == accounts[4].key
            && Count(u, ix) == Count(t, ix) + 1
            && Count(u, VotingProcessor.Other(ix)) == Count(t, VotingProcessor.Other(ix))
            && u.bump == t.bump && u.authBump == t.authBump && u.proposalToVote == t.proposalToVote
  {
    VoteSucceeds(host, programId, ix, accounts);
    var t := TrackerState.Decode(accounts[0].data).value;
    var call := CounterCall(ix, accounts);
    var callee := CalleeAccounts(call, accounts[3], accounts[4]);
    assert VotingProcessor.Process(call.data, callee).Ok?;
    VotingProcessor.SuccessfulVote(call.data, callee);
  }

  /** A vote on a counter record nobody has bound yet binds it to the
      delegate authority the tracker's stored bump derives from [counter]. */
  lemma FreshCounterBoundToDelegate(host: Host, programId: Key, ix: VoteInstruction, accounts: seq<AccountView>)
    requires |accounts| >= 5
    requires VoteHeadroom(ix, accounts)
    requires accounts[2].key == host.votingProgramId
    requires VotingState.Decode(accounts[3].data).Some? && !VotingState.Decode(accounts[3].data).value.initialized
    requires CastVote(host, programId, ix, accounts).Ok?
    ensures TrackerState.Decode(accounts[0].data).Some?
    ensures VotingState.Decode(CastVote(host, programId, ix, accounts).value.counter).Some?
    ensures var t := TrackerState.Decode(accounts[0].data).value;
            var w := VotingState.Decode(CastVote(host, programId, ix, accounts).value.counter).value;
            w.initialized && Some(w.authority) == DeriveWithBump(host.derive, [accounts[3].key], t.authBump, programId)
  {
    VoteCountsInBoth(host, programId, ix, accounts);
    VoteSucceeds(host, programId, ix, accounts);
  }

  /** A vote whose call into the counter fails ends with that call's
      error: the tracker's tally is not incremented. */
  lemma FailedCounterCallAborts(host: Host, programId: Key, ix: VoteInstruction, accounts: seq<AccountView>)
    requires |accounts| >= 5
    requires VoteHeadroom(ix, accounts)
    requires TrackerState.Decode(accounts[0].data).Some?
    requires DerivationsMatch(host, programId, TrackerState.Decode(accounts[0].data).value, accounts)
    requires InvokeVote(host, programId, CounterCall(ix, accounts), accounts[3], accounts[4],
                        [accounts[3].key] + [[TrackerState.Decode(accounts[0].data).value.authBump]]).Err?
    ensures CastVote(host, programId, ix, accounts) ==
      Err(InvokeVote(host, programId, CounterCall(ix, accounts), accounts[3], accounts[4],
                     [accounts[3].key] + [[TrackerState.Decode(accounts[0].data).value.authBump]]).error)
  {
  }

  /** The vote never looks at whether the user signed: flipping the
      user's signer flag changes nothing about the outcome. */
  lemma UserSignatureIgnored(host: Host, programId: Key, ix: VoteInstruction, accounts: seq<AccountView>)
    requires |accounts| >= 5
    requires VoteHeadroom(ix, accounts)
    ensures VoteHeadroom(ix, accounts[1 := accounts[1].(isSigner := !accounts[1].isSigner)])
    ensures CastVote(host, programId, ix, accounts[1 := accounts[1].(isSigner := !accounts[1].isSigner)])
      == CastVote(host, programId, ix, accounts)
  {
  }

  /** The counter program account is never checked: when the caller names
      another program that accepts the call and makes no call of its own,
      the vote succeeds, the counter record is left as it was and the
      tracker still counts it. (Such a program also receives the delegate
      authority's signature, with which it could call the counter program
      itself; the host's `otherProgram` does not model that.) */
  lemma ForeignProgramSkipsCounter(host: Host, programId: Key, ix: VoteInstruction, accounts: seq<AccountView>)
    requires |accounts| >= 5
    requires VoteHeadroom(ix, accounts)
    requires accounts[2].key != host.votingProgramId
    requires CastVote(host, programId, ix, accounts).Ok?
    ensures TrackerState.Decode(accounts[0].data).Some?
    ensures var rs := CastVote(host, programId, ix, accounts).value;
            && rs.counter == accounts[3].data
            && TrackerState.Decode(rs.tracker).Some?
            && Count(TrackerState.Decode(rs.tracker).value, ix) == Count(TrackerState.Decode(accounts[0].data).value, ix) + 1
  {
    VoteSucceeds(host, programId, ix, accounts);
  }

  /** The vote with the two missing checks added: the user must have
      signed, and the counter program must be the deployed one. */
  function CastVoteChecked(host: Host, programId: Key, ix: VoteInstruction, accounts: seq<AccountView>): (r: Result<Records>)
    requires VoteHeadroom(ix, accounts)
    ensures r.Ok? ==> |accounts| >= 5 && accounts[1].isSigner && accounts[2].key == host.votingProgramId
  {
    if |accounts| < 5 then Err(NotEnoughAccountKeys)
    else if !accounts[1].isSigner then Err(MissingRequiredSignature)
    else if accounts[2].key != host.votingProgramId then Err(IncorrectProgramId)
    else CastVote(host, programId, ix, accounts)
  }

  /** With the checks in place, every successful vote was signed by the
      user and is counted once in the counter record and once in the
      tracker, so the two cannot drift apart. */
  lemma CheckedVoteCountsInBoth(host: Host, programId: Key, ix: VoteInstruction, accounts: seq<AccountView>)
    requires VoteHeadroom(ix, accounts)
    requires CastVoteChecked(host, programId, ix, accounts).Ok?
    ensures |accounts| >= 5 && accounts[1].isSigner
    ensures VotingState.Decode(accounts[3].data).Some? && TrackerState.Decode(accounts[0].data).Some?
    ensures var rs := CastVoteChecked(host, programId, ix, accounts).value;
            VotingState.Decode(rs.counter).Some? && TrackerState.Decode(rs.tracker).Some?
    ensures var rs := CastVoteChecked(host, programId, ix, accounts).value;
            && VotingProcessor.Tally(VotingState.Decode(rs.counter).value, ix)
               == VotingProcessor.Tally(VotingState.Decode(accounts[3].data).value, ix) + 1
            && Count(TrackerState.Decode(rs.tracker).value, ix) == Count(TrackerState.Decode(accounts[0].data).value, ix) + 1
  {
    VoteCountsInBoth(host, programId, ix, accounts);
  }

  /** A vote on a tracker with no votes yet, whose bumps re-derive the
      supplied keys, and on a counter record just allocated at its full
      size: both succeed, the counter is bound to the delegate authority,
      and each record holds exactly this one vote. */
  lemma VoteOnFreshRecords(host: Host, programId: Key, ix: VoteInstruction, accounts: seq<AccountView>)
    requires |accounts| >= 5
    requires accounts[2].key == host.votingProgramId
    requires TrackerState.Decode(accounts[0].data).Some?
    requires var t := TrackerState.Decode(accounts[0].data).value;
             t.approveCount == 0 && t.rejectCount == 0 && DerivationsMatch(host, programId, t, accounts)
    requires accounts[3].data == Zeros(VotingState.SIZE)
    ensures VoteHeadroom(ix, accounts)
    ensures CastVote(host, programId, ix, accounts).Ok?
    ensures var rs := CastVote(host, programId, ix, accounts).value;
            VotingState.Decode(rs.counter).Some? && TrackerState.Decode(rs.tracker).Some?
    ensures var rs := CastVote(host, programId, ix, accounts).value;
            var w := VotingState.Decode(rs.counter).value;
            var u := TrackerState.Decode(rs.tracker).value;
            && w.initialized && w.authority == accounts[4].key
            && VotingProcessor.Tally(w, ix) == 1 && VotingProcessor.Tally(w, VotingProcessor.Other(ix)) == 0
            && Count(u, ix) == 1 && Count(u, VotingProcessor.Other(ix)) == 0
  {
    VotingProcessor.ZeroedRecordDecodes();
    var t := TrackerState.Decode(accounts[0].data).value;
    var seeds := [accounts[3].key] + [[t.authBump]];
    var call := CounterCall(ix, accounts);
    var callee := CalleeAccounts(call, accounts[3], accounts[4]);
    assert callee[1].isSigner;
    VotingProcessor.ZeroedRecordAcceptsFirstVote(call.data, callee);
    assert InvokeVote(host, programId, call, accounts[3], accounts[4], seeds) == VotingProcessor.Process(call.data, callee);
    VoteSucceeds(host, programId, ix, accounts);
  }

  /** The five accounts of a vote, as the client passes them. */
  function VoteAccounts(host: Host, tracker: Key, trackerData: seq<Byte>, user: Key, counter: Key,
                        counterData: seq<Byte>, authority: Key): (accounts: seq<AccountView>)
    ensures |accounts| == 5 && accounts[0].data == trackerData && accounts[3].data == counterData
    ensures accounts[2].key == host.votingProgramId
  {
    [AccountView(tracker, false, trackerData), AccountView(user, true, []), AccountView(host.votingProgramId, false, []),
     AccountView(counter, false, counterData), AccountView(authority, false, [])]
  }

  /** The five accounts of Initialize, as the client passes them. */
  function InitializeAccounts(tracker: Key, user: Key, authority: Key, counter: Key): (accounts: seq<AccountView>)
    ensures |accounts| == 5 && accounts[0].data == [] && accounts[4].key == SYSTEM_PROGRAM_ID
  {
    [AccountView(tracker, false, []), AccountView(user, true, []), AccountView(authority, false, []),
     AccountView(counter, false, []), AccountView(SYSTEM_PROGRAM_ID, false, [])]
  }

  /** A user initializes a tracker for a counter record that has just been
      allocated at its full size, then casts a vote: the tracker starts at
      zero, the vote passes the added checks too, the counter is bound to
      the delegate authority, and both records count the one vote. */
  lemma InitializeThenVote(host: Host, programId: Key, user: Key, counter: Key, ix: VoteInstruction)
    requires AuthorityAddress(host, programId, counter).Some?
    requires TrackerAddress(host, programId, user, counter).Some?
    ensures var authority := AuthorityAddress(host, programId, counter).value.0;
            var tracker := TrackerAddress(host, programId, user, counter).value.0;
            var init := Initialize(host, programId, InitializeAccounts(tracker, user, authority, counter), RECORD_SPACE);
            && init.Ok?
            && TrackerState.Decode(init.value).Some?
            && TrackerState.Decode(init.value).value.approveCount == 0
            && TrackerState.Decode(init.value).value.rejectCount == 0
            && var accounts := VoteAccounts(host, tracker, init.value, user, counter, Zeros(VotingState.SIZE), authority);
               && VoteHeadroom(ix, accounts)
               && CastVote(host, programId, ix, accounts).Ok?
               && CastVoteChecked(host, programId, ix, accounts) == CastVote(host, programId, ix, accounts)
               && VotingState.Decode(CastVote(host, programId, ix, accounts).value.counter).Some?
               && TrackerState.Decode(CastVote(host, programId, ix, accounts).value.tracker).Some?
               && VotingState.Decode(CastVote(host, programId, ix, accounts).value.counter).value.authority == authority
               && VotingProcessor.Tally(VotingState.Decode(CastVote(host, programId, ix, accounts).value.counter).value, ix) == 1
               && Count(TrackerState.Decode(CastVote(host, programId, ix, accounts).value.tracker).value, ix) == 1
  {
    var authority := AuthorityAddress(host, programId, counter).value.0;
    var tracker := TrackerAddress(host, programId, user, counter).value.0;
    var initAccounts := InitializeAccounts(tracker, user, authority, counter);
    assert InitializeChecksPass(host, programId, initAccounts);
    InitializeCreatesRecord(host, programId, initAccounts);
    var created := Initialize(host, programId, initAccounts, RECORD_SPACE).value;
    var t := TrackerState.Decode(created).value;
    assert t == FreshTracker(host, programId, initAccounts);
    var accounts := VoteAccounts(host, tracker, created, user, counter, Zeros(VotingState.SIZE), authority);
    assert DerivationsMatch(host, programId, t, accounts);
    VoteOnFreshRecords(host, programId, ix, accounts);
  }
}
