/** The access guards (csprusd/src/assertion_utils.rs). Each one reads the
    stored role or flag it needs, passed in here as a parameter, and either
    returns or reverts; none of them writes anything. */
module AssertionUtils {
  import opened Wrappers
  import opened Types
  import opened Errors
  import opened Utils
  import opened Minters

  /** The shared shape of the role guards: resolve the caller, then compare it
      with the stored holder of the role. */
  function CallerIs(callStack: seq<CallStackElement>, holder: Key, error: CsprUSDError): (r: Outcome<CsprUSDError>)
    ensures r == Pass <==> GetImmediateCallerAddress(callStack) == Success(holder)
    ensures r.Fail? ==> r.error == (if |callStack| < 2 then InvalidContext else error)
  {
    match GetImmediateCallerAddress(callStack)
    case Failure(e) => Fail(e)
    case Success(caller) => if caller == holder then Pass else Fail(error)
  }

  /** `only_pauser`: passes only for the stored pauser. */
  function OnlyPauser(callStack: seq<CallStackElement>, pauser: Key): (r: Outcome<CsprUSDError>)
    ensures r == Pass <==> GetImmediateCallerAddress(callStack) == Success(pauser)
    ensures r.Fail? ==> r.error == (if |callStack| < 2 then InvalidContext else NotPauser)
  {
    CallerIs(callStack, pauser, NotPauser)
  }

  /** `when_not_paused`: fails with `ContractPaused` exactly when the paused
      flag is set. */
  function WhenNotPaused(isPaused: bool): (r: Outcome<CsprUSDError>)
    ensures r.Fail? <==> isPaused
    ensures r.Fail? ==> r.error == ContractPaused
  {
    if isPaused then Fail(ContractPaused) else Pass
  }

  /** `only_owner`: passes only for the stored owner. */
  function OnlyOwner(callStack: seq<CallStackElement>, owner: Key): (r: Outcome<CsprUSDError>)
    ensures r == Pass <==> GetImmediateCallerAddress(callStack) == Success(owner)
    ensures r.Fail? ==> r.error == (if |callStack| < 2 then InvalidContext else NotOwner)
  {
    CallerIs(callStack, owner, NotOwner)
  }

  /** `only_minters`: passes only for a key flagged as a minter. */
  function OnlyMinters(account: Key, minters: map<Key, bool>): (r: Outcome<CsprUSDError>)
    ensures r == Pass <==> IsMinterUtil(minters, account)
    ensures r.Fail? ==> r.error == NotMinter
  {
    if IsMinterUtil(minters, account) then Pass else Fail(NotMinter)
  }

  /** `only_master_minter`: passes only for the stored master minter. */
  function OnlyMasterMinter(callStack: seq<CallStackElement>, masterMinter: Key): (r: Outcome<CsprUSDError>)
    ensures r == Pass <==> GetImmediateCallerAddress(callStack) == Success(masterMinter)
    ensures r.Fail? ==> r.error == (if |callStack| < 2 then InvalidContext else NotMasterMinter)
  {
    CallerIs(callStack, masterMinter, NotMasterMinter)
  }

  /** `only_blacklister`: the blacklister is stored as a public key, and the
      guard passes only for the account key of its account hash.
      `accountHash` stands for `PublicKey::to_account_hash`. */
  function OnlyBlacklister(callStack: seq<CallStackElement>, blacklister: PublicKey, accountHash: PublicKey -> Bytes): (r: Outcome<CsprUSDError>)
    ensures r == Pass <==> GetImmediateCallerAddress(callStack) == Success(Account(accountHash(blacklister)))
    ensures r.Fail? ==> r.error == (if |callStack| < 2 then InvalidContext else NotBlacklister)
  {
    CallerIs(callStack, Account(accountHash(blacklister)), NotBlacklister)
  }

  /** A stored contract never passes `only_blacklister`, whatever its hash:
      its address is a `Hash` key and the blacklister's is an `Account` key. */
  lemma ContractCallerIsNeverBlacklister(callStack: seq<CallStackElement>, blacklister: PublicKey, accountHash: PublicKey -> Bytes)
    requires |callStack| >= 2 && callStack[|callStack| - 2].StoredContract?
    ensures OnlyBlacklister(callStack, blacklister, accountHash) == Fail(NotBlacklister)
  {
  }
}
