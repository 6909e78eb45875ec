/** The parts of the Solana runtime and its program library that the two
    programs rely on: public keys, the program error kinds, accounts as
    a program sees them, instructions for cross-program calls, program
    address derivation, and the system program's account creation. */
module Solana {
  import opened Borsh

  /** A public key: 32 raw bytes. */
  type Key = s: seq<Byte> | |s| == 32 witness Zeros(32)

  /** A seed for program address derivation: a byte string. */
  type Seed = seq<Byte>

  /** The system program's id is the all-zero key. */
  const SYSTEM_PROGRAM_ID: Key := Zeros(32)

  /** The error kinds a call can end with. `AccountAlreadyInUse` stands
      for the system program's own error of that name, which its caller
      sees as custom error 0. The last two are raised by the runtime rather
      than returned by a program: a cross-program call that claims a
      signature or write access the caller does not hold, and a program
      that aborts. */
  datatype ProgramError =
    | InvalidArgument
    | InvalidInstructionData
    | MissingRequiredSignature
    | NotEnoughAccountKeys
    | AccountAlreadyInUse
    | InvalidSeeds
    | IncorrectProgramId
    | BorshIoError
    | PrivilegeEscalation
    | ProgramFailedToComplete

  datatype Result<+T> = Ok(value: T) | Err(error: ProgramError)

  /** `ProgramResult`: success carries nothing. */
  type ProgramResult = Result<()>

  /** The status of a call that, on success, also produced a value. */
  function Status<T>(r: Result<T>): (s: ProgramResult)
    ensures s.Ok? <==> r.Ok?
    ensures r.Err? ==> s.error == r.error
  {
    match r
    case Ok(_) => Ok(())
    case Err(e) => Err(e)
  }

  /** An account as a program sees it, as a value: its key, whether the
      transaction (or the calling program) signed for it, and its data. */
  datatype AccountView = AccountView(key: Key, isSigner: bool, data: seq<Byte>)

  /** An account as a program sees it during a call. Its data buffer is
      written in place; only account creation replaces the buffer. */
  class AccountInfo {
    const key: Key
    const isSigner: bool
    var data: array<Byte>

    constructor (key: Key, isSigner: bool, data: array<Byte>)
      ensures this.key == key && this.isSigner == isSigner && this.data == data
    {
      this.key := key;
      this.isSigner := isSigner;
      this.data := data;
    }

    function View(): (v: AccountView)
      reads this, data
      ensures v.key == key && v.isSigner == isSigner && v.data == data[..]
    {
      AccountView(key, isSigner, data[..])
    }

    /** Serialising a record into the account writes its bytes at the
        start of the buffer; the rest of the buffer keeps its bytes. */
    method Serialize(bytes: seq<Byte>)
      requires |bytes| <= data.Length
      modifies data
      ensures data[..] == bytes + old(data[|bytes|..])
    {
      forall i | 0 <= i < |bytes| {
        data[i] := bytes[i];
      }
    }
  }

  ghost function Views(accounts: seq<AccountInfo>): (vs: seq<AccountView>)
    reads set a | a in accounts, set a | a in accounts :: a.data
    ensures |vs| == |accounts|
    ensures forall i :: 0 <= i < |accounts| ==> vs[i] == accounts[i].View()
  {
    if accounts == [] then [] else [accounts[0].View()] + Views(accounts[1..])
  }

  /** One account of an instruction, with the privileges it asks for. */
  datatype AccountMeta = AccountMeta(pubkey: Key, isSigner: bool, isWritable: bool)

  /** `AccountMeta::new`: a writable account. */
  function NewMeta(pubkey: Key, isSigner: bool): (m: AccountMeta)
    ensures m.pubkey == pubkey && m.isSigner == isSigner && m.isWritable
  {
    AccountMeta(pubkey, isSigner, true)
  }

  /** `AccountMeta::new_readonly`: a read-only account. */
  function NewReadonlyMeta(pubkey: Key, isSigner: bool): (m: AccountMeta)
    ensures m.pubkey == pubkey && m.isSigner == isSigner && !m.isWritable
  {
    AccountMeta(pubkey, isSigner, false)
  }

  datatype Instruction = Instruction(programId: Key, accounts: seq<AccountMeta>, data: seq<Byte>)

  /** `create_program_address`: the address derived from seeds and a
      program id, or None when the candidate lies on the ed25519 curve
      (and so could have a private key). The hashing and the curve test are
      the host's; the model takes them as this function. */
  type Deriver = (seq<Seed>, Key) -> Option<Key>

  function CreateProgramAddress(derive: Deriver, seeds: seq<Seed>, programId: Key): Option<Key>
  {
    derive(seeds, programId)
  }

  /** The address derived from seeds with a bump byte appended as the
      last seed. */
  function DeriveWithBump(derive: Deriver, seeds: seq<Seed>, bump: Byte, programId: Key): Option<Key>
  {
    CreateProgramAddress(derive, seeds + [[bump]], programId)
  }

  /** `find_program_address`: try bumps 255, 254, ... 1 and return the
      first one whose derivation succeeds, with its address. The library's
      loop runs 255 times from 255, so bump 0 is never tried; when no bump
      from 1 up derives an address the library aborts the program. */
  function FindProgramAddress(derive: Deriver, seeds: seq<Seed>, programId: Key): (r: Option<(Key, Byte)>)
    ensures r.Some? ==> 1 <= r.value.1 && DeriveWithBump(derive, seeds, r.value.1, programId) == Some(r.value.0)
    ensures r.Some? ==> forall b: Byte :: r.value.1 < b ==> DeriveWithBump(derive, seeds, b, programId).None?
    ensures r.None? <==> forall b: Byte :: 1 <= b ==> DeriveWithBump(derive, seeds, b, programId).None?
  {
    SearchBump(derive, seeds, programId, 255)
  }

  /** The bump search from `bump` down to 1. */
  function SearchBump(derive: Deriver, seeds: seq<Seed>, programId: Key, bump: Byte): (r: Option<(Key, Byte)>)
    requires 1 <= bump
    ensures r.Some? ==> 1 <= r.value.1 <= bump && DeriveWithBump(derive, seeds, r.value.1, programId) == Some(r.value.0)
    ensures r.Some? ==> forall b: Byte :: r.value.1 < b <= bump ==> DeriveWithBump(derive, seeds, b, programId).None?
    ensures r.None? <==> forall b: Byte :: 1 <= b <= bump ==> DeriveWithBump(derive, seeds, b, programId).None?
    decreases bump
  {
    match DeriveWithBump(derive, seeds, bump, programId)
    case Some(address) => Some((address, bump))
    case None => if bump == 1 then None else SearchBump(derive, seeds, programId, bump - 1)
  }

  /** In a call made with `invoke_signed`, an account counts as signed
      when the transaction signed for it or when it is the address the
      caller's signer seeds derive under the caller's program id. */
  predicate Signs(derive: Deriver, programId: Key, signerSeeds: seq<Seed>, account: AccountView)
  {
    account.isSigner || CreateProgramAddress(derive, signerSeeds, programId) == Some(account.key)
  }

  /** The system program's `create_account` on the new account's current
      data: it fails when the account already holds data and otherwise
      gives it a zeroed buffer of the requested size. The real system
      program also refuses an account that holds lamports or that another
      program owns; balances and owners play no part in this model. */
  function CreateAccount(current: seq<Byte>, space: nat): (r: Result<seq<Byte>>)
    ensures r.Err? <==> |current| > 0
    ensures r.Err? ==> r.error == AccountAlreadyInUse
    ensures r.Ok? ==> r.value == Zeros(space)
  {
    if |current| > 0 then Err(AccountAlreadyInUse) else Ok(Zeros(space))
  }
}
