/** The contract's entry points (csprusd/src/main.rs, and the first contract
    version in tests/contract_versions/v1/v1_source.rs) as functions from the
    stored state to the state a successful call commits. A `Failure` result is
    a revert: the host rolls the call back and the stored state stays as it was. */
module Ledger {
  import opened Wrappers
  import opened Types
  import opened Numbers
  import opened Maps
  import opened Errors
  import opened Utils
  import opened AssertionUtils
  import opened Minters
  import opened Blacklisting

  /** The two contract versions. They share this state; the first one also
      rejects transfers of zero tokens. */
  datatype Version = V1 | Latest

  /** Everything the entry points read or write: the named keys and the
      dictionaries of the installed contract. */
  datatype State = State(
    balances: map<Key, U256>,
    allowances: map<(Key, Key), U256>,
    totalSupply: U256,
    isPaused: bool,
    owner: Key,
    pauser: Key,
    masterMinter: Key,
    blacklister: PublicKey,
    blacklisted: seq<Key>,
    minters: map<Key, bool>,
    minterAllowed: map<Key, U256>)
  {
    /** `read_balance_from`: 0 for a key that never held tokens. */
    function BalanceOf(k: Key): U256 {
      Get(balances, k, 0)
    }

    /** `read_allowance_from`: 0 when nothing was approved. */
    function AllowanceOf(owner: Key, spender: Key): U256 {
      Get(allowances, (owner, spender), 0)
    }

    predicate IsBlacklisted(k: Key) {
      k in blacklisted
    }
  }

  /** The invariant the ledger keeps: the total supply is the sum of all balances. */
  ghost predicate Valid(s: State) {
    Sum(s.balances) == s.totalSupply
  }

  /** A call whose committed state leaves every balance and the total supply
      as they were. */
  predicate KeepsTokens(s: State, r: Result<State, CsprUSDError>) {
    r.Success? ==> r.value.balances == s.balances && r.value.totalSupply == s.totalSupply
  }

  /** What `install_contract` and `init` store: no tokens, not paused, an empty
      blacklist, and the master minter flagged as a minter (with no allowance). */
  function Install(owner: Key, pauser: Key, masterMinter: Key, blacklister: PublicKey): (s: State)
    ensures Valid(s)
    ensures s.totalSupply == 0 && !s.isPaused && s.blacklisted == []
    ensures forall k :: s.BalanceOf(k) == 0
    ensures forall k :: IsMinterUtil(s.minters, k) <==> k == masterMinter
    ensures s.owner == owner && s.pauser == pauser && s.masterMinter == masterMinter && s.blacklister == blacklister
  {
    State(map[], map[], 0, false, owner, pauser, masterMinter, blacklister, [], map[masterMinter := true], map[])
  }

  /** The balance helper of the contract's balances module: `amount` moves from
      `sender` to `recipient`, or the call fails with `InsufficientBalance` when
      the sender holds less, or with `Overflow` when the recipient's balance
      would not fit in 256 bits. Both callers reject `sender == recipient`
      before they get here. */
  function TransferBalance(balances: map<Key, U256>, sender: Key, recipient: Key, amount: U256): (r: Result<map<Key, U256>, CsprUSDError>)
    requires sender != recipient
  {
    var senderBalance := Get(balances, sender, 0);
    :- Need(amount <= senderBalance, InsufficientBalance);
    var recipientBalance :- CheckedAdd(Get(balances, recipient, 0), amount).OkOr(Overflow);
    Success(balances[sender := senderBalance - amount][recipient := recipientBalance])
  }

  /** `pause_contract` */
  function PauseContract(s: State, callStack: seq<CallStackElement>): (r: Result<State, CsprUSDError>)
    ensures KeepsTokens(s, r)
  {
    var pauser := s.pauser;
    :- OnlyPauser(callStack, pauser);
    Success(s.(isPaused := true))
  }

  /** `unpause_contract` */
  function UnpauseContract(s: State, callStack: seq<CallStackElement>): (r: Result<State, CsprUSDError>)
    ensures KeepsTokens(s, r)
  {
    var pauser := s.pauser;
    :- OnlyPauser(callStack, pauser);
    Success(s.(isPaused := false))
  }

  /** `update_pauser` */
  function UpdatePauser(s: State, callStack: seq<CallStackElement>, newPauser: Key): (r: Result<State, CsprUSDError>)
    ensures KeepsTokens(s, r)
  {
    var owner := s.owner;
    :- OnlyOwner(callStack, owner);
    Success(s.(pauser := newPauser))
  }

  /** `update_master_minter` */
  function UpdateMasterMinter(s: State, callStack: seq<CallStackElement>, newMasterMinter: Key): (r: Result<State, CsprUSDError>)
    ensures KeepsTokens(s, r)
  {
    var owner := s.owner;
    :- OnlyOwner(callStack, owner);
    Success(s.(masterMinter := newMasterMinter))
  }

  /** `blacklist` */
  function Blacklist(s: State, callStack: seq<CallStackElement>, accountHash: PublicKey -> Bytes, key: Key): (r: Result<State, CsprUSDError>)
    ensures KeepsTokens(s, r)
  {
    var blacklister := s.blacklister;
    :- OnlyBlacklister(callStack, blacklister, accountHash);
    Success(s.(blacklisted := s.blacklisted + [key]))
  }

  /** `un_blacklist` */
  function UnBlacklist(s: State, callStack: seq<CallStackElement>, accountHash: PublicKey -> Bytes, key: Key): (r: Result<State, CsprUSDError>)
    ensures KeepsTokens(s, r)
  {
    var blacklister := s.blacklister;
    :- OnlyBlacklister(callStack, blacklister, accountHash);
    Success(s.(blacklisted := UnBlacklisted(s.blacklisted, key)))
  }

  /** `update_blacklister` */
  function UpdateBlacklister(s: State, callStack: seq<CallStackElement>, newBlacklister: PublicKey): (r: Result<State, CsprUSDError>)
    ensures KeepsTokens(s, r)
  {
    var owner := s.owner;
    :- OnlyOwner(callStack, owner);
    Success(s.(blacklister := newBlacklister))
  }

  /** `transfer_ownership` */
  function TransferOwnership(s: State, callStack: seq<CallStackElement>, newOwner: Key): (r: Result<State, CsprUSDError>)
    ensures KeepsTokens(s, r)
  {
    var owner := s.owner;
    :- OnlyOwner(callStack, owner);
    Success(s.(owner := newOwner))
  }

  /** `configure_minter` */
  function ConfigureMinter(s: State, callStack: seq<CallStackElement>, minter: Key, minterAllowance: U256): (r: Result<State, CsprUSDError>)
    ensures KeepsTokens(s, r)
  {
    var paused := s.isPaused;
    :- WhenNotPaused(paused);
    :- OnlyMasterMinter(callStack, s.masterMinter);
    Success(s.(minters := s.minters[minter := true], minterAllowed := s.minterAllowed[minter := minterAllowance]))
  }

  /** `remove_minter`: not guarded by the pause flag. */
  function RemoveMinter(s: State, callStack: seq<CallStackElement>, minter: Key): (r: Result<State, CsprUSDError>)
    ensures KeepsTokens(s, r)
  {
    var masterMinter := s.masterMinter;
    :- OnlyMasterMinter(callStack, masterMinter);
    Success(s.(minters := s.minters[minter := false], minterAllowed := s.minterAllowed[minter := 0]))
  }

  /** The checks `approve`, `decrease_allowance` and `increase_allowance` share,
      in their order; on success, the owner (the caller). */
  function AllowanceChecks(s: State, callStack: seq<CallStackElement>, spender: Key): Result<Key, CsprUSDError> {
    var paused := s.isPaused;
    :- WhenNotPaused(paused);
    var owner :- GetImmediateCallerAddress(callStack);
    :- Need(spender != owner, CannotTargetSelfUser);
    :- Need(!(s.IsBlacklisted(owner) || s.IsBlacklisted(spender)), BlackListedAccount);
    Success(owner)
  }

  /** `approve`: overwrites the allowance. */
  function Approve(s: State, callStack: seq<CallStackElement>, spender: Key, amount: U256): (r: Result<State, CsprUSDError>)
    ensures KeepsTokens(s, r)
  {
    var owner :- AllowanceChecks(s, callStack, spender);
    Success(s.(allowances := s.allowances[(owner, spender) := amount]))
  }

  /** `decrease_allowance`: lowers the allowance, stopping at 0. */
  function DecreaseAllowance(s: State, callStack: seq<CallStackElement>, spender: Key, amount: U256): (r: Result<State, CsprUSDError>)
    ensures KeepsTokens(s, r)
  {
    var owner :- AllowanceChecks(s, callStack, spender);
    var allowance := SaturatingSub(s.AllowanceOf(owner, spender), amount);
    Success(s.(allowances := s.allowances[(owner, spender) := allowance]))
  }

  /** `increase_allowance`: raises the allowance, stopping at 2^256 - 1. */
  function IncreaseAllowance(s: State, callStack: seq<CallStackElement>, spender: Key, amount: U256): (r: Result<State, CsprUSDError>)
    ensures KeepsTokens(s, r)
  {
    var owner :- AllowanceChecks(s, callStack, spender);
    var allowance := SaturatingAdd(s.AllowanceOf(owner, spender), amount);
    Success(s.(allowances := s.allowances[(owner, spender) := allowance]))
  }

  /** The checks `transfer` makes before it moves anything, in their order; on
      success, the sender (the caller). The first version also rejects a zero
      amount, after the blacklist and self-transfer checks. */
  function TransferChecks(version: Version, s: State, callStack: seq<CallStackElement>, recipient: Key, amount: U256): Result<Key, CsprUSDError> {
    var paused := s.isPaused;
    :- WhenNotPaused(paused);
    var sender :- GetImmediateCallerAddress(callStack);
    :- Need(!(s.IsBlacklisted(sender) || s.IsBlacklisted(recipient)), BlackListedAccount);
    :- Need(sender != recipient, CannotTargetSelfUser);
    :- Need(!(version == V1 && amount == 0), CannotTransferZeroAmount);
    Success(sender)
  }

  /** `transfer` */
  function Transfer(version: Version, s: State, callStack: seq<CallStackElement>, recipient: Key, amount: U256): Result<State, CsprUSDError> {
    var sender :- TransferChecks(version, s, callStack, recipient, amount);
    var balances :- TransferBalance(s.balances, sender, recipient, amount);
    Success(s.(balances := balances))
  }

  /** The checks `transfer_from` makes before it looks at the allowance, in
      their order; on success, the spender (the caller). */
  function TransferFromChecks(version: Version, s: State, callStack: seq<CallStackElement>, owner: Key, recipient: Key, amount: U256): Result<Key, CsprUSDError> {
    var paused := s.isPaused;
    :- WhenNotPaused(paused);
    var spender :- GetImmediateCallerAddress(callStack);
    :- Need(!(s.IsBlacklisted(spender) || s.IsBlacklisted(recipient) || s.IsBlacklisted(owner)), BlackListedAccount);
    :- Need(owner != recipient, CannotTargetSelfUser);
    :- Need(!(version == V1 && amount == 0), CannotTransferZeroAmount);
    Success(spender)
  }

  /** `transfer_from`: the caller spends `owner`'s tokens out of the allowance
      `owner` gave it. The allowance is checked before any balance moves. */
  function TransferFrom(version: Version, s: State, callStack: seq<CallStackElement>, owner: Key, recipient: Key, amount: U256): Result<State, CsprUSDError> {
    var spender :- TransferFromChecks(version, s, callStack, owner, recipient, amount);
    SpendAllowance(s, owner, spender, recipient, amount)
  }

  /** The second half of `transfer_from`: `spender` moves `amount` of
      `owner`'s tokens to `recipient` out of its allowance. */
  function SpendAllowance(s: State, owner: Key, spender: Key, recipient: Key, amount: U256): Result<State, CsprUSDError>
    requires owner != recipient
  {
    var allowance := s.AllowanceOf(owner, spender);
    :- Need(amount <= allowance, InsufficientAllowance);
    var balances :- TransferBalance(s.balances, owner, recipient, amount);
    Success(s.(balances := balances, allowances := s.allowances[(owner, spender) := allowance - amount]))
  }

  /** The checks `mint` makes before it writes anything, in their order; on
      success, the minter (the caller). */
  function MintChecks(s: State, callStack: seq<CallStackElement>, recipient: Key, amount: U256): Result<Key, CsprUSDError> {
    var paused := s.isPaused;
    :- WhenNotPaused(paused);
    var minter :- GetImmediateCallerAddress(callStack);
    :- OnlyMinters(minter, s.minters);
    :- Need(!s.IsBlacklisted(minter), BlackListedAccount);
    :- Need(!s.IsBlacklisted(recipient), BlackListedAccount);
    :- Need(amount != 0, CannotMintZeroAmount);
    :- Need(amount <= ReadMinterAllowed(s.minterAllowed, minter), ExceedsMintAllowance);
    Success(minter)
  }

  /** `mint`: the caller, a minter, creates tokens for `recipient` out of its
      minting allowance. */
  function Mint(s: State, callStack: seq<CallStackElement>, recipient: Key, amount: U256): Result<State, CsprUSDError> {
    var minter :- MintChecks(s, callStack, recipient, amount);
    MintTo(s, minter, recipient, amount)
  }

  /** The writes of `mint`, once its checks have passed: the recipient's
      balance, the minter's allowance and the total supply, or `Overflow` when
      the balance or the supply would not fit. */
  function MintTo(s: State, minter: Key, recipient: Key, amount: U256): Result<State, CsprUSDError>
    requires amount <= ReadMinterAllowed(s.minterAllowed, minter)
  {
    var minterAllowance := ReadMinterAllowed(s.minterAllowed, minter);
    var recipientBalance :- CheckedAdd(s.BalanceOf(recipient), amount).OkOr(Overflow);
    var totalSupply :- CheckedAdd(s.totalSupply, amount).OkOr(Overflow);
    Success(s.(balances := s.balances[recipient := recipientBalance],
               minterAllowed := s.minterAllowed[minter := minterAllowance - amount],
               totalSupply := totalSupply))
  }

  /** The checks `burn` makes before it writes anything, in their order; on
      success, the minter (the caller). */
  function BurnChecks(s: State, callStack: seq<CallStackElement>, amount: U256): Result<Key, CsprUSDError> {
    var paused := s.isPaused;
    :- WhenNotPaused(paused);
    var minter :- GetImmediateCallerAddress(callStack);
    :- OnlyMinters(minter, s.minters);
    :- Need(!s.IsBlacklisted(minter), BlackListedAccount);
    :- Need(amount != 0, CannotBurnZeroAmount);
    :- Need(amount <= s.BalanceOf(minter), BurnExceedsBalance);
    Success(minter)
  }

  /** `burn`: the caller, a minter, destroys tokens it holds. */
  function Burn(s: State, callStack: seq<CallStackElement>, amount: U256): Result<State, CsprUSDError> {
    var minter :- BurnChecks(s, callStack, amount);
    BurnFrom(s, minter, amount)
  }

  /** The writes of `burn`, once its checks have passed: the total supply,
      or `Overflow` when it would go below 0, then the minter's balance. */
  function BurnFrom(s: State, minter: Key, amount: U256): Result<State, CsprUSDError>
    requires amount <= s.BalanceOf(minter)
  {
    var totalSupply :- CheckedSub(s.totalSupply, amount).OkOr(Overflow);
    Success(s.(totalSupply := totalSupply, balances := s.balances[minter := s.BalanceOf(minter) - amount]))
  }
}
