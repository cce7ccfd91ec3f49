/** Sequences of entry-point calls against the ledger: a call either commits
    the state its entry point computes or reverts and leaves the state as it
    was. The supply invariant holds in every state reachable from
    installation. */
module Execution {
  import opened Wrappers
  import opened Types
  import opened Numbers
  import opened Errors
  import opened Utils
  import Ledger
  import LedgerProperties

  /** The state-changing entry points of the contract and their arguments. */
  datatype EntryPoint =
    | PauseContract
    | UnpauseContract
    | UpdatePauser(newPauser: Key)
    | UpdateMasterMinter(newMasterMinter: Key)
    | Blacklist(key: Key)
    | UnBlacklist(key: Key)
    | UpdateBlacklister(newBlacklister: PublicKey)
    | TransferOwnership(newOwner: Key)
    | ConfigureMinter(minter: Key, minterAllowance: U256)
    | RemoveMinter(minter: Key)
    | Approve(spender: Key, amount: U256)
    | DecreaseAllowance(spender: Key, amount: U256)
    | IncreaseAllowance(spender: Key, amount: U256)
    | Transfer(recipient: Key, amount: U256)
    | TransferFrom(owner: Key, recipient: Key, amount: U256)
    | Mint(recipient: Key, amount: U256)
    | Burn(amount: U256)

  /** One call: who is calling (the host's call stack) and what. */
  datatype Request = Request(callStack: seq<CallStackElement>, entryPoint: EntryPoint)

  function Execute(version: Ledger.Version, accountHash: PublicKey -> Bytes, s: Ledger.State, request: Request): Result<Ledger.State, CsprUSDError> {
    var cs := request.callStack;
    match request.entryPoint
    case PauseContract => Ledger.PauseContract(s, cs)
    case UnpauseContract => Ledger.UnpauseContract(s, cs)
    case UpdatePauser(newPauser) => Ledger.UpdatePauser(s, cs, newPauser)
    case UpdateMasterMinter(newMasterMinter) => Ledger.UpdateMasterMinter(s, cs, newMasterMinter)
    case Blacklist(key) => Ledger.Blacklist(s, cs, accountHash, key)
    case UnBlacklist(key) => Ledger.UnBlacklist(s, cs, accountHash, key)
    case UpdateBlacklister(newBlacklister) => Ledger.UpdateBlacklister(s, cs, newBlacklister)
    case TransferOwnership(newOwner) => Ledger.TransferOwnership(s, cs, newOwner)
    case ConfigureMinter(minter, minterAllowance) => Ledger.ConfigureMinter(s, cs, minter, minterAllowance)
    case RemoveMinter(minter) => Ledger.RemoveMinter(s, cs, minter)
    case Approve(spender, amount) => Ledger.Approve(s, cs, spender, amount)
    case DecreaseAllowance(spender, amount) => Ledger.DecreaseAllowance(s, cs, spender, amount)
    case IncreaseAllowance(spender, amount) => Ledger.IncreaseAllowance(s, cs, spender, amount)
    case Transfer(recipient, amount) => Ledger.Transfer(version, s, cs, recipient, amount)
    case TransferFrom(owner, recipient, amount) => Ledger.TransferFrom(version, s, cs, owner, recipient, amount)
    case Mint(recipient, amount) => Ledger.Mint(s, cs, recipient, amount)
    case Burn(amount) => Ledger.Burn(s, cs, amount)
  }

  /** The stored state after a call: a reverted call changes nothing. */
  function Commit(version: Ledger.Version, accountHash: PublicKey -> Bytes, s: Ledger.State, request: Request): (after: Ledger.State)
    ensures Execute(version, accountHash, s, request).Failure? ==> after == s
    ensures Execute(version, accountHash, s, request).Success? ==> after == Execute(version, accountHash, s, request).value
  {
    match Execute(version, accountHash, s, request)
    case Success(next) => next
    case Failure(_) => s
  }

  /** The stored state after a sequence of calls, in order. */
  function Run(version: Ledger.Version, accountHash: PublicKey -> Bytes, s: Ledger.State, requests: seq<Request>): Ledger.State
    decreases |requests|
  {
    if |requests| == 0 then s
    else Run(version, accountHash, Commit(version, accountHash, s, requests[0]), requests[1..])
  }

  /** The administrative and allowance entry points leave the balances and
      the total supply alone. */
  lemma {:induction false} AdministrationKeepsBalances(version: Ledger.Version, accountHash: PublicKey -> Bytes, s: Ledger.State, request: Request)
    requires !request.entryPoint.Transfer? && !request.entryPoint.TransferFrom?
    requires !request.entryPoint.Mint? && !request.entryPoint.Burn?
    ensures Commit(version, accountHash, s, request).balances == s.balances
    ensures Commit(version, accountHash, s, request).totalSupply == s.totalSupply
  {
    assert Ledger.KeepsTokens(s, Execute(version, accountHash, s, request));
  }

  /** The token-moving entry points keep the supply invariant. */
  lemma {:induction false} TokenCallsPreserveValid(version: Ledger.Version, accountHash: PublicKey -> Bytes, s: Ledger.State, request: Request)
    requires Ledger.Valid(s)
    requires request.entryPoint.Transfer? || request.entryPoint.TransferFrom? || request.entryPoint.Mint? || request.entryPoint.Burn?
    ensures Ledger.Valid(Commit(version, accountHash, s, request))
  {
    var cs, ep := request.callStack, request.entryPoint;
    var r := Execute(version, accountHash, s, request);
    if ep.Transfer? {
      assert r == Ledger.Transfer(version, s, cs, ep.recipient, ep.amount);
      LedgerProperties.TransferPreservesValid(version, s, cs, ep.recipient, ep.amount);
    } else if ep.TransferFrom? {
      assert r == Ledger.TransferFrom(version, s, cs, ep.owner, ep.recipient, ep.amount);
      LedgerProperties.TransferFromPreservesValid(version, s, cs, ep.owner, ep.recipient, ep.amount);
    } else if ep.Mint? {
      assert r == Ledger.Mint(s, cs, ep.recipient, ep.amount);
      LedgerProperties.MintPreservesValid(s, cs, ep.recipient, ep.amount);
    } else {
      assert r == Ledger.Burn(s, cs, ep.amount);
      LedgerProperties.BurnPreservesValid(s, cs, ep.amount);
    }
  }

  /** Every entry point keeps the total supply equal to the sum of all balances. */
  lemma {:induction false} CommitPreservesValid(version: Ledger.Version, accountHash: PublicKey -> Bytes, s: Ledger.State, request: Request)
    requires Ledger.Valid(s)
    ensures Ledger.Valid(Commit(version, accountHash, s, request))
  {
    var ep := request.entryPoint;
    if ep.Transfer? || ep.TransferFrom? || ep.Mint? || ep.Burn? {
      TokenCallsPreserveValid(version, accountHash, s, request);
    } else {
      AdministrationKeepsBalances(version, accountHash, s, request);
    }
  }

  lemma {:induction false} RunPreservesValid(version: Ledger.Version, accountHash: PublicKey -> Bytes, s: Ledger.State, requests: seq<Request>)
    requires Ledger.Valid(s)
    ensures Ledger.Valid(Run(version, accountHash, s, requests))
    decreases |requests|
  {
    if |requests| > 0 {
      CommitPreservesValid(version, accountHash, s, requests[0]);
      RunPreservesValid(version, accountHash, Commit(version, accountHash, s, requests[0]), requests[1..]);
    }
  }

  /** In every state reachable from installation, the total supply is the sum
      of all balances. */
  lemma {:induction false} InstalledContractStaysValid(version: Ledger.Version, accountHash: PublicKey -> Bytes,
                                                       owner: Key, pauser: Key, masterMinter: Key, blacklister: PublicKey,
                                                       requests: seq<Request>)
    ensures Ledger.Valid(Run(version, accountHash, Ledger.Install(owner, pauser, masterMinter, blacklister), requests))
  {
    RunPreservesValid(version, accountHash, Ledger.Install(owner, pauser, masterMinter, blacklister), requests);
  }

  /** While the invariant holds, `mint` is the only entry point that can fail
      with `Overflow`, and only when the total supply would pass 2^256 - 1. */
  lemma {:induction false} OnlyMintOverflows(version: Ledger.Version, accountHash: PublicKey -> Bytes, s: Ledger.State, request: Request)
    requires Ledger.Valid(s)
    requires Execute(version, accountHash, s, request) == Failure(Overflow)
    ensures request.entryPoint.Mint?
    ensures s.totalSupply + request.entryPoint.amount > MAX_U256
  {
    var cs := request.callStack;
    match request.entryPoint
    case Transfer(recipient, amount) =>
      LedgerProperties.TransferNeverOverflows(version, s, cs, recipient, amount);
    case TransferFrom(owner, recipient, amount) =>
      LedgerProperties.TransferFromNeverOverflows(version, s, cs, owner, recipient, amount);
    case Mint(recipient, amount) =>
      LedgerProperties.MintOverflowsOnlyOnSupply(s, cs, recipient, amount);
    case Burn(amount) =>
      LedgerProperties.BurnNeverUnderflows(s, cs, amount);
    case _ =>
  }
}
