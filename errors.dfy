/** The contract's error enum and its `u16` discriminants (csprusd/src/error.rs). */
module Errors {
  import opened Wrappers

  type U16 = x: nat | x < 0x1_0000

  /** `CsprUSDError`. `CannotTransferZeroAmount` belongs to the first contract
      version only. */
  datatype CsprUSDError =
    | InvalidContext
    | InsufficientBalance
    | InsufficientAllowance
    | Overflow
    | PackageHashMissing
    | PackageHashNotPackage
    | Phantom
    | FailedToGetArgBytes
    | InvalidEnableMBFlag
    | AlreadyInitialized
    | CannotTargetSelfUser
    | ContractPaused
    | NotPauser
    | NoPauserProvided
    | NoOwnerProvided
    | NotOwner
    | NotMinter
    | BlackListedAccount
    | ExceedsMintAllowance
    | FailedToCreateDictionary
    | CannotMintZeroAmount
    | NotMasterMinter
    | NotBlacklister
    | CannotBurnZeroAmount
    | BurnExceedsBalance
    | CannotTransferZeroAmount
    | AlreadyBlacklisted
    | NotBlacklisted

  /** The `#[repr(u16)]` discriminant of each error. The ledger errors lie in
      60000..60017 and the access-control errors in 65000..65019. */
  function Discriminant(e: CsprUSDError): (code: U16)
    ensures 60000 <= code <= 60017 || 65000 <= code <= 65019
  {
    match e
    case InvalidContext => 60000
    case InsufficientBalance => 60001
    case InsufficientAllowance => 60002
    case Overflow => 60003
    case PackageHashMissing => 60004
    case PackageHashNotPackage => 60005
    case Phantom => 60008
    case FailedToGetArgBytes => 60009
    case InvalidEnableMBFlag => 60014
    case AlreadyInitialized => 60015
    case CannotTargetSelfUser => 60017
    case ContractPaused => 65000
    case NotPauser => 65001
    case NoPauserProvided => 65002
    case NoOwnerProvided => 65003
    case NotOwner => 65004
    case NotMinter => 65005
    case BlackListedAccount => 65006
    case ExceedsMintAllowance => 65007
    case FailedToCreateDictionary => 65011
    case CannotMintZeroAmount => 65012
    case NotMasterMinter => 65013
    case NotBlacklister => 65014
    case CannotBurnZeroAmount => 65015
    case BurnExceedsBalance => 65016
    case CannotTransferZeroAmount => 65017
    case AlreadyBlacklisted => 65018
    case NotBlacklisted => 65019
  }

  /** The error a user code stands for, if any: the decoder a client of the
      contract applies to a revert code. */
  function FromDiscriminant(code: U16): Option<CsprUSDError> {
    if code == 60000 then Some(InvalidContext)
    else if code == 60001 then Some(InsufficientBalance)
    else if code == 60002 then Some(InsufficientAllowance)
    else if code == 60003 then Some(Overflow)
    else if code == 60004 then Some(PackageHashMissing)
    else if code == 60005 then Some(PackageHashNotPackage)
    else if code == 60008 then Some(Phantom)
    else if code == 60009 then Some(FailedToGetArgBytes)
    else if code == 60014 then Some(InvalidEnableMBFlag)
    else if code == 60015 then Some(AlreadyInitialized)
    else if code == 60017 then Some(CannotTargetSelfUser)
    else if code == 65000 then Some(ContractPaused)
    else if code == 65001 then Some(NotPauser)
    else if code == 65002 then Some(NoPauserProvided)
    else if code == 65003 then Some(NoOwnerProvided)
    else if code == 65004 then Some(NotOwner)
    else if code == 65005 then Some(NotMinter)
    else if code == 65006 then Some(BlackListedAccount)
    else if code == 65007 then Some(ExceedsMintAllowance)
    else if code == 65011 then Some(FailedToCreateDictionary)
    else if code == 65012 then Some(CannotMintZeroAmount)
    else if code == 65013 then Some(NotMasterMinter)
    else if code == 65014 then Some(NotBlacklister)
    else if code == 65015 then Some(CannotBurnZeroAmount)
    else if code == 65016 then Some(BurnExceedsBalance)
    else if code == 65017 then Some(CannotTransferZeroAmount)
    else if code == 65018 then Some(AlreadyBlacklisted)
    else if code == 65019 then Some(NotBlacklisted)
    else None
  }

  /** Decoding a discriminant gives back the error. */
  lemma {:induction false} DecodeDiscriminant(e: CsprUSDError)
    ensures FromDiscriminant(Discriminant(e)) == Some(e)
  {
    match e
    case InvalidContext =>
    case InsufficientBalance =>
    case InsufficientAllowance =>
    case Overflow =>
    case PackageHashMissing =>
    case PackageHashNotPackage =>
    case Phantom =>
    case FailedToGetArgBytes =>
    case InvalidEnableMBFlag =>
    case AlreadyInitialized =>
    case CannotTargetSelfUser =>
    case ContractPaused =>
    case NotPauser =>
    case NoPauserProvided =>
    case NoOwnerProvided =>
    case NotOwner =>
    case NotMinter =>
    case BlackListedAccount =>
    case ExceedsMintAllowance =>
    case FailedToCreateDictionary =>
    case CannotMintZeroAmount =>
    case NotMasterMinter =>
    case NotBlacklister =>
    case CannotBurnZeroAmount =>
    case BurnExceedsBalance =>
    case CannotTransferZeroAmount =>
    case AlreadyBlacklisted =>
    case NotBlacklisted =>
  }

  /** A code that decodes to an error is that error's discriminant. */
  lemma DiscriminantOfDecoded(code: U16)
    ensures FromDiscriminant(code).Some? ==> Discriminant(FromDiscriminant(code).value) == code
  {
  }

  /** No two errors share a discriminant. */
  lemma {:induction false} DiscriminantsDistinct(a: CsprUSDError, b: CsprUSDError)
    ensures Discriminant(a) == Discriminant(b) ==> a == b
  {
    DecodeDiscriminant(a);
    DecodeDiscriminant(b);
  }

  /** The revert codes the contract's test suite declares, in its constants
      for the ledger and access errors, the pause errors and the zero-transfer
      error of the first version. */
  lemma ExpectedCodes()
    ensures Discriminant(InvalidContext) == 60000 && Discriminant(InsufficientBalance) == 60001
    ensures Discriminant(InsufficientAllowance) == 60002 && Discriminant(NotBlacklister) == 65014
    ensures Discriminant(AlreadyBlacklisted) == 65018 && Discriminant(NotBlacklisted) == 65019
    ensures Discriminant(NotOwner) == 65004 && Discriminant(BlackListedAccount) == 65006
    ensures Discriminant(NotMasterMinter) == 65013 && Discriminant(Overflow) == 60003
    ensures Discriminant(ExceedsMintAllowance) == 65007
    ensures Discriminant(ContractPaused) == 65000 && Discriminant(NotPauser) == 65001
    ensures Discriminant(CannotTransferZeroAmount) == 65017
  {
  }

  /** The codes of the errors the modelled entry points raise that the test
      suite's constants do not name, as the error enum fixes them. */
  lemma EntryPointCodes()
    ensures Discriminant(CannotTargetSelfUser) == 60017 && Discriminant(NotMinter) == 65005
    ensures Discriminant(CannotMintZeroAmount) == 65012 && Discriminant(CannotBurnZeroAmount) == 65015
    ensures Discriminant(BurnExceedsBalance) == 65016
  {
  }

  /** The host's `ApiError`, reduced to the variant a contract error becomes. */
  datatype ApiError = User(code: U16)

  /** `impl From<CsprUSDError> for ApiError`: the user error carrying the
      discriminant, so that distinct contract errors stay distinct on the wire. */
  function ToApiError(e: CsprUSDError): (api: ApiError)
    ensures FromDiscriminant(api.code) == Some(e)
  {
    DecodeDiscriminant(e);
    User(Discriminant(e))
  }
}
