# voting-solana in Dafny

A model of two Solana programs and proofs about them.

- The **counter program** (`voting`) keeps one `Votes` record per proposal: an authority key, a proposal number, an approve tally, a reject tally and an `initialized` flag.
  - `Approve` and `Reject` require the authority account to have signed.
  - The first call on an unbound record binds the signer as its authority. Later calls must present that key.
  - A successful call adds exactly one to one tally.
- The **tracker program** (`votingTracker`) keeps a per-user `VoteTracker` record at the program address derived from `[user, counter]`.
  - `Initialize` creates that record through the system program. It stores the bump of the record's address and the bump of a delegate authority, the address derived from `[counter]`.
  - `Approve` and `Reject` re-derive both addresses from the stored bumps. They then call the counter program with `invoke_signed`: the delegate authority counts as signed because the tracker's seeds derive it. Only once that call succeeds is the vote counted in the tracker.

## How the model is organised

- One module per source file, plus two shared modules:
  - `Borsh` covers the binary format: little-endian integers, 0/1 booleans and one-byte enum tags. A decode fails unless it consumes the whole input.
  - `Solana` covers the runtime parts the programs use: keys, error kinds, accounts, instructions, address derivation, `invoke_signed`'s signer rule and the system program's `create_account`.
- Four runtime operations are host abstractions: their definitions are the model's assumption about the host, not something proved.
  - `Solana.NewMeta` and `Solana.NewReadonlyMeta` stand for `AccountMeta::new` and `AccountMeta::new_readonly`.
  - `Solana.CreateAccount` stands for the system program's `create_account`. In the model it fails with `AccountAlreadyInUse` when the account already holds data, and otherwise gives a zeroed buffer of the requested size. The real system program also refuses an account that already holds lamports or that another program owns; the model does not track either (see Left out).
  - `TrackerProcessor.CalleeAccounts` stands for the host handing the counter record and the delegate authority to the called program, each with the signer flag its account meta asks for. Whether that flag may be set is `Solana.Signs`, applied in `TrackerProcessor.InvokeVote`.
- Each processor is written twice:
  - as a function on account values that returns the new record bytes or the error;
  - as an imperative entry point over `AccountInfo` objects, whose data buffers are arrays written in place. The entry point is proved to produce exactly what the function describes.
- A failed call writes nothing. This is the host's all-or-nothing transaction rule. In the imperative code it holds because every write comes after every check.
- The tracker's cross-program call runs the counter model on the counter account's own buffer.
- Address derivation (`create_program_address`) is a function-typed parameter of the host. The bump search of `find_program_address` is modelled over it: it tries 255 down to 1, since the library's loop runs 255 times and never tries bump 0.
- Error mapping:
  - a Borsh failure is `BorshIoError`;
  - a failed `create_program_address` is `InvalidSeeds`;
  - `find_program_address` finding no bump is a program abort (`ProgramFailedToComplete`);
  - a cross-program call claiming a signature the caller cannot give is `PrivilegeEscalation`.
- A wrong authority gets the same error as a missing signature, `MissingRequiredSignature` (voting/src/processor.rs:40-56). The model follows the code.

## Model

| member | source | states |
|---|---|---|
| `Borsh.DecodeBool` | voting/src/state.rs:10 | a Borsh boolean decodes exactly when the byte is 0 or 1, and re-encodes to that byte |
| `Borsh.DecodeU64` | votingTracker/src/state.rs:9-10 | decoding 8 little-endian bytes gives the u64 whose encoding is those bytes |
| `Borsh.DecodeEncodeU64` | votingTracker/src/state.rs:9-10 | encoding a u64 and decoding it gives it back |
| `Borsh.DecodeEncodeU32` | voting/src/state.rs:7 | encoding a u32 and decoding it gives it back |
| `Solana.FindProgramAddress` | votingTracker/src/processor.rs:48-54 | the bump found is at least 1 and derives the returned address; every higher bump fails to derive; there is no result exactly when every bump from 1 to 255 fails |
| `Solana.AccountInfo.Serialize` | voting/src/processor.rs:61 | serialising writes the bytes at the start of the account buffer and leaves the rest of the buffer as it was |
| `VotingState.Encode` | voting/src/state.rs:5-11 | every `Votes` encodes to 53 bytes |
| `VotingState.Decode` | voting/src/state.rs:5-11 | bytes decode as a `Votes` exactly when there are 53 of them and the last is a valid boolean |
| `VotingState.DecodeEncode` | voting/src/state.rs:5-11 | decoding an encoded `Votes` gives it back |
| `VotingState.EncodeDecode` | voting/src/state.rs:5-11 | bytes that decode re-encode to themselves, so a record has exactly one encoding |
| `VotingState.EncodeInjective` | voting/src/state.rs:5-11 | two records with the same bytes are the same record |
| `TrackerState.Encode` | votingTracker/src/state.rs:5-11 | every `VoteTracker` encodes to 50 bytes |
| `TrackerState.Decode` | votingTracker/src/state.rs:5-11 | bytes decode as a `VoteTracker` exactly when there are 50 of them |
| `TrackerState.DecodeEncode` | votingTracker/src/state.rs:5-11 | decoding an encoded `VoteTracker` gives it back |
| `TrackerState.EncodeDecode` | votingTracker/src/state.rs:5-11 | any 50 bytes decode, and re-encode to themselves |
| `VotingInstruction.Encode` | voting/src/instruction.rs:9-12 | each counter instruction is one byte that decodes back to it |
| `VotingInstruction.Decode` | voting/src/instruction.rs:9-12 | instruction data decodes exactly when it is the single byte 0 or 1 |
| `VotingInstruction.EncodeDecode` | voting/src/instruction.rs:9-12 | accepted instruction data is the encoding of what it decodes to |
| `VotingInstruction.GenerateVoteInstruction` | voting/src/instruction.rs:14-28 | the built call always succeeds; it goes to the given program, lists the counter record as writable and not signing and the authority as read-only and signing, and its data decodes to the vote |
| `TrackerInstruction.Encode` | votingTracker/src/instruction.rs:4-8 | each tracker instruction is one byte that decodes back to it |
| `TrackerInstruction.Decode` | votingTracker/src/instruction.rs:4-8 | instruction data decodes exactly when it is one byte below 3 |
| `TrackerInstruction.EncodeDecode` | votingTracker/src/instruction.rs:4-8 | accepted instruction data is the encoding of what it decodes to |
| `TrackerInstruction.EncodeInjective` | votingTracker/src/instruction.rs:4-8 | distinct instructions have distinct bytes |
| `TrackerInstruction.ClientBytes` | client/main.ts:56-90 | the client's bytes, 0 and 1, are Initialize and Approve |
| `VotingProcessor.Cast` | voting/src/processor.rs:40-61 | the call succeeds exactly when it is signed and the record decodes and is unbound or bound to the presented key. A success returns the record bound to that key, with one tally one higher and the other tally and the proposal number unchanged. An unsigned call fails with MissingRequiredSignature; the only other error is an undecodable record |
| `VotingProcessor.Process` | voting/src/processor.rs:30-91 | undecodable instruction data fails with InvalidInstructionData before any account is read; a success needs two accounts and writes a 53-byte record over a 53-byte one |
| `VotingProcessor.ProcessInstruction` | voting/src/processor.rs:25-94 | the entry point's status is that of `Process`, and the record buffer afterwards holds what `Process` writes, or its old bytes on failure |
| `VotingProcessor.SuccessfulVote` | voting/src/processor.rs:34-91 | a call succeeds exactly when its instruction decodes, both accounts are there, the authority signed, and the record decodes and is unbound or bound to the presented key. The record written is then bound to that key, with one tally one higher and the other tally and the proposal number unchanged |
| `VotingProcessor.ApproveCountsOnce` | voting/src/processor.rs:34-62 | Approve adds one to approve_count and changes neither reject_count, nor the proposal number, nor a bound authority |
| `VotingProcessor.RejectCountsOnce` | voting/src/processor.rs:63-91 | Reject adds one to reject_count and changes neither approve_count, nor the proposal number, nor a bound authority |
| `VotingProcessor.UnsignedRejected` | voting/src/processor.rs:40-44 | a call the authority did not sign fails with MissingRequiredSignature (also lines 69-73) |
| `VotingProcessor.UndecodableRecordRejected` | voting/src/processor.rs:46 | a signed call on bytes that are not a `Votes` fails with BorshIoError (also line 75) |
| `VotingProcessor.FirstVoteBindsSigner` | voting/src/processor.rs:47-51 | a signed call on an unbound record succeeds and binds the signer (also lines 76-80) |
| `VotingProcessor.WrongAuthorityRejected` | voting/src/processor.rs:52-56 | on a bound record, any other signer fails with MissingRequiredSignature (also lines 81-85) |
| `VotingProcessor.ApplyStep` | voting/src/processor.rs:34-91 | one call, successful or not, keeps the proposal number, moves each tally by at most one, and never rebinds a bound authority |
| `VotingProcessor.AuthorityFixedOnceBound` | voting/src/processor.rs:47-56 | once a record is bound, no sequence of calls changes its authority or proposal number, and its tallies never decrease |
| `VotingProcessor.AuthorityCallsAllCount` | voting/src/processor.rs:34-91 | on a bound record, any sequence of signed calls by the bound authority succeeds call by call: each tally grows by the number of calls of its kind, and the authority stays |
| `VotingProcessor.FirstSignerOwnsRecord` | voting/src/processor.rs:47-56 | first writer wins: after the first signer's call on an unbound record, a different key's call leaves the record as the first call wrote it |
| `VotingProcessor.ClientSizedRecordRejectsVotes` | client/main.ts:153-155 | a counter record allocated at the client's 51 bytes makes every signed vote fail with BorshIoError |
| `VotingProcessor.ZeroedRecordDecodes` | voting/src/state.rs:5-11 | 53 zero bytes decode as an unbound record with zero tallies |
| `VotingProcessor.ZeroedRecordAcceptsFirstVote` | voting/src/processor.rs:46-61 | on a freshly allocated 53-byte record the first signed vote succeeds, binds the signer and leaves the tallies at one and zero |
| `TrackerProcessor.Initialize` | votingTracker/src/processor.rs:40-92 | a successful Initialize had all five accounts and writes a 50-byte record |
| `TrackerProcessor.InvokeVote` | votingTracker/src/processor.rs:124-136 | a successful call into the counter program writes a 53-byte record over a 53-byte one |
| `TrackerProcessor.CastVote` | votingTracker/src/processor.rs:93-140 | a successful vote had five accounts and writes a 50-byte tracker over a 50-byte one |
| `TrackerProcessor.Process` | votingTracker/src/processor.rs:35-189 | undecodable instruction data fails with InvalidInstructionData |
| `TrackerProcessor.InvokeSigned` | votingTracker/src/processor.rs:124-136 | the call's status is that of `InvokeVote`, and the counter buffer afterwards holds what the counter program wrote, or its old bytes |
| `TrackerProcessor.ProcessInstruction` | votingTracker/src/processor.rs:30-192 | the entry point's status is that of `Process`; on failure both records are unchanged; Initialize gives the tracker account a fresh buffer holding the new record; a vote leaves the tracker and the counter holding what `CastVote` writes |
| `TrackerProcessor.InitializeTracker` | votingTracker/src/processor.rs:40-92 | Initialize's status is that of the value model; on success the tracker account holds a fresh buffer with the new record, and on failure its buffer is untouched |
| `TrackerProcessor.Vote` | votingTracker/src/processor.rs:93-189 | a vote's status is that of `CastVote`; on failure neither record changes, and on success the tracker and counter hold what `CastVote` writes |
| `TrackerProperties.InitializeCreatesRecord` | votingTracker/src/processor.rs:40-92 | with the record's own size allocated, Initialize succeeds exactly when both derivations exist and match the supplied keys, the system program is right, the account is unused and the user signed; it then writes the found bumps, the counter key and zero tallies |
| `TrackerProperties.InitializeRejectsWrongKeys` | votingTracker/src/processor.rs:68-82 | once creation can go ahead (the user and the tracker account each signed or are the derived tracker address, and the account is unused), a wrong system program, tracker key or authority key fails with InvalidArgument |
| `TrackerProperties.InitializeAsWrittenFails` | votingTracker/src/processor.rs:57-84 | allocating 42 bytes, Initialize always fails, and fails with BorshIoError when every other check passes |
| `TrackerProperties.SecondInitializeFails` | votingTracker/src/processor.rs:57-67 | Initialize on an already created tracker fails with AccountAlreadyInUse |
| `TrackerProperties.VoteSucceeds` | votingTracker/src/processor.rs:93-140 | a vote succeeds exactly when the tracker decodes, its bumps re-derive the supplied authority and tracker keys, and the counter call succeeds; the tracker then counts one more vote of that kind |
| `TrackerProperties.VoteRejectsWrongAuthority` | votingTracker/src/processor.rs:106-112 | a stored authority bump that derives another key fails the vote with InvalidArgument (also lines 155-161) |
| `TrackerProperties.VoteRejectsWrongTracker` | votingTracker/src/processor.rs:115-121 | a stored tracker bump that derives another key fails the vote with InvalidArgument (also lines 164-170) |
| `TrackerProperties.DelegateSigns` | votingTracker/src/processor.rs:124-136 | the counter call is refused for a missing signature exactly when the authority neither signed nor is derived by the signer seeds |
| `TrackerProperties.VoteCountsInBoth` | votingTracker/src/processor.rs:124-139 | with the real counter program, a successful vote adds one to the same tally in both records and leaves the other tallies, the proposal number, the bumps and the counter reference unchanged |
| `TrackerProperties.FreshCounterBoundToDelegate` | votingTracker/src/processor.rs:124-136 | the first vote on an unbound counter binds it to the address the tracker's authority bump derives from the counter key |
| `TrackerProperties.FailedCounterCallAborts` | votingTracker/src/processor.rs:124-139 | when the counter call fails, the vote fails with that error and the tracker is not incremented |
| `TrackerProperties.UserSignatureIgnored` | votingTracker/src/processor.rs:93-140 | a vote's outcome does not depend on whether the user signed |
| `TrackerProperties.ForeignProgramSkipsCounter` | votingTracker/src/processor.rs:98-139 | naming another program as the counter program, a vote can succeed with the counter record unchanged while the tracker tally still grows |
| `TrackerProperties.CastVoteChecked` | votingTracker/src/processor.rs:93-140 | a vote with the missing checks added succeeds only when the user signed and the counter program is the deployed one |
| `TrackerProperties.CheckedVoteCountsInBoth` | votingTracker/src/processor.rs:93-140 | with the checks added, every successful vote is signed and counted once in the counter and once in the tracker |
| `TrackerProperties.VoteOnFreshRecords` | votingTracker/src/processor.rs:124-139 | a vote on a new tracker and a freshly allocated counter succeeds and leaves exactly that one vote in both |
| `TrackerProperties.InitializeThenVote` | votingTracker/src/processor.rs:40-140 | a user initializing a tracker and then voting: the tracker starts at zero, the vote passes the added checks, the counter is bound to the delegate authority, and both records count the one vote |

## Left out

- Lamports, rent and account ownership: `Rent::get` and `minimum_balance` (votingTracker/src/processor.rs:61) and the transfer of lamports are not modelled. Neither is the runtime's rule that only the owning program may write an account's data; the model uses it only in saying that a foreign program cannot write the counter record directly.
- `TrackerProcessor.InvokeVote`, `TrackerProperties.ForeignProgramSkipsCounter`: a program named as the counter program receives the delegate authority's signature (votingTracker/src/processor.rs:124-136) and the writable counter record. With that signature it could call the real counter program itself, any number of times, with Approve or Reject, and the counter would accept each call, since the record is bound to the delegate. The model does not capture this: a foreign program only answers with a status, so "the counter record is left as it was" holds only for a foreign program that makes no call of its own. `TrackerProcessor.InvokeSigned`, `TrackerProcessor.CastVote`, `TrackerProcessor.Vote`, `TrackerProcessor.Process` and `TrackerProcessor.ProcessInstruction` inherit this.
- `Solana.CreateAccount`, `TrackerProperties.InitializeCreatesRecord`: the real `create_account` also fails with `AccountAlreadyInUse` when the target address already holds lamports or is owned by another program. The model tracks neither, so "the account is unused" means only that it holds no data. Anyone who transfers lamports to a user's tracker address before that user's Initialize makes the Initialize fail for good; the model says it succeeds. The if-and-only-if of `InitializeCreatesRecord`, and `InitializeThenVote` built on it, hold only for an address nobody has funded or claimed.
- Writable flags: the runtime's check that a cross-program call asks for no more write access than the caller holds is not modelled. Only the signer half of the privilege check is.
- The runtime's requirement that a called program be among the transaction's accounts is not modelled. So the model reaches the system-program check (votingTracker/src/processor.rs:68-72) where the runtime could refuse the creation call first.
- The runtime matches account metas to account infos by key in a cross-program call. The model hands the counter record and the authority to the callee directly.
- The hashing and curve test inside `create_program_address` are the host's. They are a parameter of the model.
- `msg!` logging is left out.
- The client's RPC plumbing, payer funding and deployment checks are left out. Only its instruction bytes and its allocation size are modelled.
- Concurrency: calls are taken one at a time, as the host serialises transactions that write the same accounts.
- `VotingProcessor.Cast`, `VotingProcessor.Process` and `VotingProcessor.ProcessInstruction`: each requires the tally being incremented to be below 2^64 - 1. Whether `+= 1` at the maximum wraps or aborts depends on the build profile, which is not part of this model.
- `TrackerProcessor.InvokeVote`, `TrackerProcessor.InvokeSigned`, `TrackerProcessor.CastVote`, `TrackerProcessor.Process`, `TrackerProcessor.ProcessInstruction` and `TrackerProcessor.Vote`: each requires the same headroom in both the tracker's and the counter's tally, for the same reason.
- `TrackerProcessor.Process`, `TrackerProcessor.ProcessInstruction` and `TrackerProcessor.InitializeTracker` allocate the 50 bytes the tracker record needs, not the 42 the code asks for (see Findings). `TrackerProcessor.Initialize` takes the size as a parameter, so the as-written behaviour is modelled too.
- In Initialize the creation call runs before the key checks (votingTracker/src/processor.rs:57-82). So a wrong tracker key usually ends with PrivilegeEscalation from the creation call, not with the InvalidArgument of line 76. The model keeps that order.

## Findings

| source | as written | input that shows it | evidently intended | confidence | as-written member | corrected member |
|---|---|---|---|---|---|---|
| votingTracker/src/processor.rs:61-62 | Initialize creates the tracker account with 42 bytes, then decodes a 50-byte `VoteTracker` from it (line 84) | any Initialize whose derivations, keys and signatures are all right: it fails with BorshIoError | allocate the 50 bytes a `VoteTracker` takes | high; not executed | `TrackerProperties.InitializeAsWrittenFails` | `TrackerProperties.InitializeCreatesRecord` |
| client/main.ts:153-155 | the client creates the counter record with 51 bytes | the first signed Approve on that record: the 53-byte `Votes` decode fails with BorshIoError | allocate 53 bytes | high; not executed | `VotingProcessor.ClientSizedRecordRejectsVotes` | `VotingProcessor.ZeroedRecordAcceptsFirstVote` |
| votingTracker/src/processor.rs:93-136 | Approve and Reject never check that the user signed or that the counter program account is the counter program | a vote with the counter program account set to a program that accepts any call: the tracker counts it and the counter record is unchanged. Such a program also gets the delegate's signature and could cast its own votes on the counter with it (not modelled, see Left out) | reject a vote the user did not sign, and a counter program other than the deployed one | medium; not executed | `TrackerProperties.ForeignProgramSkipsCounter` | `TrackerProperties.CheckedVoteCountsInBoth` |
