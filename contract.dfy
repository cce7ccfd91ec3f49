/** The installed contract as an object: its named keys are fields, its
    dictionaries are map fields (the blacklist and the minter dictionaries
    live in their own objects), and each entry point is a method that reads
    and writes them step by step, as csprusd/src/main.rs does. Every method is
    proved to commit exactly what the matching `Ledger` function describes. */
module Contract {
  import opened Wrappers
  import opened Types
  import opened Numbers
  import opened Maps
  import opened Errors
  import opened Utils
  import opened AssertionUtils
  import opened Minters
  import Blacklisting
  import Ledger
  import LedgerProperties

  /** `after` and `outcome` are what a call whose specification returned
      `result` leaves behind: the new state and `Pass` on success; on a revert,
      the error and the unchanged state `before`. */
  predicate Applied(before: Ledger.State, after: Ledger.State, outcome: Outcome<CsprUSDError>,
                    result: Result<Ledger.State, CsprUSDError>)
  {
    match result
    case Success(s) => outcome == Pass && after == s
    case Failure(e) => outcome == Fail(e) && after == before
  }

  class Token {
    /** Which contract version's code runs. */
    const version: Ledger.Version
    /** The host's `PublicKey::to_account_hash`. */
    const accountHash: PublicKey -> Bytes
    const blacklist: Blacklisting.Blacklist
    const minterStore: MinterStore

    var balances: map<Key, U256>
    var allowances: map<(Key, Key), U256>
    var totalSupply: U256
    var isPaused: bool
    var owner: Key
    var pauser: Key
    var masterMinter: Key
    var blacklister: PublicKey

    /** The stored state as a value. */
    function Snapshot(): Ledger.State
      reads this, blacklist, minterStore
    {
      Ledger.State(balances, allowances, totalSupply, isPaused, owner, pauser, masterMinter, blacklister,
                   blacklist.entries, minterStore.minters, minterStore.minterAllowed)
    }

    ghost predicate Valid()
      reads this, blacklist, minterStore
    {
      Ledger.Valid(Snapshot())
    }

    /** `install_contract` followed by `init`. */
    constructor (version: Ledger.Version, accountHash: PublicKey -> Bytes,
                 owner: Key, pauser: Key, masterMinter: Key, blacklister: PublicKey)
      ensures this.version == version && this.accountHash == accountHash
      ensures Snapshot() == Ledger.Install(owner, pauser, masterMinter, blacklister)
      ensures Valid()
    {
      this.version := version;
      this.accountHash := accountHash;
      this.masterMinter := masterMinter;
      isPaused := false;
      this.pauser := pauser;
      this.blacklister := blacklister;
      this.owner := owner;
      totalSupply := 0;
      blacklist := new Blacklisting.Blacklist();
      balances := map[];
      allowances := map[];
      minterStore := new MinterStore();
      new;
      minterStore.AddMinter(masterMinter);
    }

    method PauseContract(callStack: seq<CallStackElement>) returns (outcome: Outcome<CsprUSDError>)
      modifies this`isPaused
      ensures Applied(old(Snapshot()), Snapshot(), outcome, Ledger.PauseContract(old(Snapshot()), callStack))
    {
      outcome := OnlyPauser(callStack, pauser);
      if outcome.Pass? {
        isPaused := true;
      }
    }

    method UnpauseContract(callStack: seq<CallStackElement>) returns (outcome: Outcome<CsprUSDError>)
      modifies this`isPaused
      ensures Applied(old(Snapshot()), Snapshot(), outcome, Ledger.UnpauseContract(old(Snapshot()), callStack))
    {
      outcome := OnlyPauser(callStack, pauser);
      if outcome.Pass? {
        isPaused := false;
      }
    }

    method UpdatePauser(callStack: seq<CallStackElement>, newPauser: Key) returns (outcome: Outcome<CsprUSDError>)
      modifies this`pauser
      ensures Applied(old(Snapshot()), Snapshot(), outcome, Ledger.UpdatePauser(old(Snapshot()), callStack, newPauser))
    {
      outcome := OnlyOwner(callStack, owner);
      if outcome.Pass? {
        pauser := newPauser;
      }
    }

    method UpdateMasterMinter(callStack: seq<CallStackElement>, newMasterMinter: Key) returns (outcome: Outcome<CsprUSDError>)
      modifies this`masterMinter
      ensures Applied(old(Snapshot()), Snapshot(), outcome, Ledger.UpdateMasterMinter(old(Snapshot()), callStack, newMasterMinter))
    {
      outcome := OnlyOwner(callStack, owner);
      if outcome.Pass? {
        masterMinter := newMasterMinter;
      }
    }

    method Blacklist(callStack: seq<CallStackElement>, key: Key) returns (outcome: Outcome<CsprUSDError>)
      modifies blacklist
      ensures Applied(old(Snapshot()), Snapshot(), outcome, Ledger.Blacklist(old(Snapshot()), callStack, accountHash, key))
    {
      outcome := OnlyBlacklister(callStack, blacklister, accountHash);
      if outcome.Pass? {
        blacklist.BlacklistAddress(key);
      }
    }

    method UnBlacklist(callStack: seq<CallStackElement>, key: Key) returns (outcome: Outcome<CsprUSDError>)
      modifies blacklist
      ensures Applied(old(Snapshot()), Snapshot(), outcome, Ledger.UnBlacklist(old(Snapshot()), callStack, accountHash, key))
    {
      outcome := OnlyBlacklister(callStack, blacklister, accountHash);
      if outcome.Pass? {
        blacklist.UnBlacklistAddress(key);
      }
    }

    method UpdateBlacklister(callStack: seq<CallStackElement>, newBlacklister: PublicKey) returns (outcome: Outcome<CsprUSDError>)
      modifies this`blacklister
      ensures Applied(old(Snapshot()), Snapshot(), outcome, Ledger.UpdateBlacklister(old(Snapshot()), callStack, newBlacklister))
    {
      outcome := OnlyOwner(callStack, owner);
      if outcome.Pass? {
        blacklister := newBlacklister;
      }
    }

    method TransferOwnership(callStack: seq<CallStackElement>, newOwner: Key) returns (outcome: Outcome<CsprUSDError>)
      modifies this`owner
      ensures Applied(old(Snapshot()), Snapshot(), outcome, Ledger.TransferOwnership(old(Snapshot()), callStack, newOwner))
    {
      outcome := OnlyOwner(callStack, owner);
      if outcome.Pass? {
        owner := newOwner;
      }
    }

    method ConfigureMinter(callStack: seq<CallStackElement>, minter: Key, minterAllowance: U256) returns (outcome: Outcome<CsprUSDError>)
      modifies minterStore
      ensures Applied(old(Snapshot()), Snapshot(), outcome, Ledger.ConfigureMinter(old(Snapshot()), callStack, minter, minterAllowance))
    {
      outcome := WhenNotPaused(isPaused);
      if outcome.Fail? {
        return;
      }
      outcome := OnlyMasterMinter(callStack, masterMinter);
      if outcome.Fail? {
        return;
      }
      minterStore.AddMinter(minter);
      minterStore.SetMinterAllowed(minter, minterAllowance);
    }

    method RemoveMinter(callStack: seq<CallStackElement>, minter: Key) returns (outcome: Outcome<CsprUSDError>)
      modifies minterStore
      ensures Applied(old(Snapshot()), Snapshot(), outcome, Ledger.RemoveMinter(old(Snapshot()), callStack, minter))
    {
      outcome := OnlyMasterMinter(callStack, masterMinter);
      if outcome.Fail? {
        return;
      }
      minterStore.RemoveMinterUtil(minter);
      minterStore.SetMinterAllowed(minter, 0);
    }

    /** The checks the three allowance entry points share; on success, the
        caller, who is the owner of the allowance. */
    method AllowanceChecks(callStack: seq<CallStackElement>, spender: Key) returns (r: Result<Key, CsprUSDError>)
      ensures r == Ledger.AllowanceChecks(Snapshot(), callStack, spender)
    {
      var paused := WhenNotPaused(isPaused);
      if paused.Fail? {
        return Failure(paused.error);
      }
      r := GetImmediateCallerAddress(callStack);
      if r.Failure? {
        return;
      }
      var caller := r.value;
      if spender == caller {
        return Failure(CannotTargetSelfUser);
      }
      var listed := blacklist.IsBlacklistedUtil(caller);
      if !listed {
        listed := blacklist.IsBlacklistedUtil(spender);
      }
      if listed {
        return Failure(BlackListedAccount);
      }
    }

    method Approve(callStack: seq<CallStackElement>, spender: Key, amount: U256) returns (outcome: Outcome<CsprUSDError>)
      modifies this`allowances
      ensures Applied(old(Snapshot()), Snapshot(), outcome, Ledger.Approve(old(Snapshot()), callStack, spender, amount))
    {
      var checked := AllowanceChecks(callStack, spender);
      if checked.Failure? {
        return Fail(checked.error);
      }
      var caller := checked.value;
      allowances := allowances[(caller, spender) := amount];
      outcome := Pass;
    }

    method DecreaseAllowance(callStack: seq<CallStackElement>, spender: Key, amount: U256) returns (outcome: Outcome<CsprUSDError>)
      modifies this`allowances
      ensures Applied(old(Snapshot()), Snapshot(), outcome, Ledger.DecreaseAllowance(old(Snapshot()), callStack, spender, amount))
    {
      var checked := AllowanceChecks(callStack, spender);
      if checked.Failure? {
        return Fail(checked.error);
      }
      var caller := checked.value;
      var currentAllowance := Get(allowances, (caller, spender), 0);
      var newAllowance := SaturatingSub(currentAllowance, amount);
      allowances := allowances[(caller, spender) := newAllowance];
      outcome := Pass;
    }

    method IncreaseAllowance(callStack: seq<CallStackElement>, spender: Key, amount: U256) returns (outcome: Outcome<CsprUSDError>)
      modifies this`allowances
      ensures Applied(old(Snapshot()), Snapshot(), outcome, Ledger.IncreaseAllowance(old(Snapshot()), callStack, spender, amount))
    {
      var checked := AllowanceChecks(callStack, spender);
      if checked.Failure? {
        return Fail(checked.error);
      }
      var caller := checked.value;
      var currentAllowance := Get(allowances, (caller, spender), 0);
      var newAllowance := SaturatingAdd(currentAllowance, amount);
      allowances := allowances[(caller, spender) := newAllowance];
      outcome := Pass;
    }

    /** The balance helper: moves `amount`, or changes nothing and reports why. */
    method TransferBalance(sender: Key, recipient: Key, amount: U256) returns (outcome: Outcome<CsprUSDError>)
      requires sender != recipient
      modifies this`balances
      ensures match Ledger.TransferBalance(old(balances), sender, recipient, amount)
              case Success(b) => outcome == Pass && balances == b
              case Failure(e) => outcome == Fail(e) && balances == old(balances)
    {
      var senderBalance := Get(balances, sender, 0);
      if senderBalance < amount {
        return Fail(InsufficientBalance);
      }
      var recipientBalance := CheckedAdd(Get(balances, recipient, 0), amount);
      if recipientBalance.None? {
        return Fail(Overflow);
      }
      balances := balances[sender := senderBalance - amount];
      balances := balances[recipient := recipientBalance.value];
      outcome := Pass;
    }

    /** The checks of `transfer`; on success, the sender. */
    method TransferChecks(callStack: seq<CallStackElement>, recipient: Key, amount: U256) returns (r: Result<Key, CsprUSDError>)
      ensures r == Ledger.TransferChecks(version, Snapshot(), callStack, recipient, amount)
    {
      var paused := WhenNotPaused(isPaused);
      if paused.Fail? {
        return Failure(paused.error);
      }
      r := GetImmediateCallerAddress(callStack);
      if r.Failure? {
        return;
      }
      var sender := r.value;
      var listed := blacklist.IsBlacklistedUtil(sender);
      if !listed {
        listed := blacklist.IsBlacklistedUtil(recipient);
      }
      if listed {
        return Failure(BlackListedAccount);
      }
      if sender == recipient {
        return Failure(CannotTargetSelfUser);
      }
      if version == Ledger.V1 && amount == 0 {
        return Failure(CannotTransferZeroAmount);
      }
    }

    method Transfer(callStack: seq<CallStackElement>, recipient: Key, amount: U256) returns (outcome: Outcome<CsprUSDError>)
      modifies this`balances
      ensures Applied(old(Snapshot()), Snapshot(), outcome, Ledger.Transfer(version, old(Snapshot()), callStack, recipient, amount))
      ensures old(Valid()) ==> Valid()
    {
      LedgerProperties.TransferPreservesValid(version, Snapshot(), callStack, recipient, amount);
      var checked := TransferChecks(callStack, recipient, amount);
      if checked.Failure? {
        return Fail(checked.error);
      }
      outcome := TransferBalance(checked.value, recipient, amount);
    }

    /** The checks of `transfer_from`, up to the allowance; on success, the spender. */
    method TransferFromChecks(callStack: seq<CallStackElement>, owner: Key, recipient: Key, amount: U256) returns (r: Result<Key, CsprUSDError>)
      ensures r == Ledger.TransferFromChecks(version, Snapshot(), callStack, owner, recipient, amount)
    {
      var paused := WhenNotPaused(isPaused);
      if paused.Fail? {
        return Failure(paused.error);
      }
      r := GetImmediateCallerAddress(callStack);
      if r.Failure? {
        return;
      }
      var spender := r.value;
      var listed := blacklist.IsBlacklistedUtil(spender);
      if !listed {
        listed := blacklist.IsBlacklistedUtil(recipient);
      }
      if !listed {
        listed := blacklist.IsBlacklistedUtil(owner);
      }
      if listed {
        return Failure(BlackListedAccount);
      }
      if owner == recipient {
        return Failure(CannotTargetSelfUser);
      }
      if version == Ledger.V1 && amount == 0 {
        return Failure(CannotTransferZeroAmount);
      }
    }

    /** The caller (the spender) moves `owner`'s tokens. */
    method TransferFrom(callStack: seq<CallStackElement>, owner: Key, recipient: Key, amount: U256) returns (outcome: Outcome<CsprUSDError>)
      modifies this`balances, this`allowances
      ensures Applied(old(Snapshot()), Snapshot(), outcome, Ledger.TransferFrom(version, old(Snapshot()), callStack, owner, recipient, amount))
      ensures old(Valid()) ==> Valid()
    {
      LedgerProperties.TransferFromPreservesValid(version, Snapshot(), callStack, owner, recipient, amount);
      var checked := TransferFromChecks(callStack, owner, recipient, amount);
      if checked.Failure? {
        return Fail(checked.error);
      }
      outcome := SpendAllowance(owner, checked.value, recipient, amount);
    }

    /** The allowance check, the move and the allowance write of
        `transfer_from`. The first version computes the reduced allowance
        before moving any balance; the latest compares first and subtracts
        after the move. */
    method SpendAllowance(owner: Key, spender: Key, recipient: Key, amount: U256) returns (outcome: Outcome<CsprUSDError>)
      requires owner != recipient
      modifies this`balances, this`allowances
      ensures match Ledger.SpendAllowance(old(Snapshot()), owner, spender, recipient, amount)
              case Success(t) => outcome == Pass && balances == t.balances && allowances == t.allowances
              case Failure(e) => outcome == Fail(e) && balances == old(balances) && allowances == old(allowances)
    {
      var spenderAllowance := Get(allowances, (owner, spender), 0);
      if version == Ledger.V1 {
        var newSpenderAllowance := CheckedSub(spenderAllowance, amount);
        if newSpenderAllowance.None? {
          return Fail(InsufficientAllowance);
        }
        outcome := TransferBalance(owner, recipient, amount);
        if outcome.Fail? {
          return;
        }
        allowances := allowances[(owner, spender) := newSpenderAllowance.value];
      } else {
        if spenderAllowance < amount {
          return Fail(InsufficientAllowance);
        }
        outcome := TransferBalance(owner, recipient, amount);
        if outcome.Fail? {
          return;
        }
        // The `checked_sub` that follows cannot fail: the allowance covers `amount`.
        allowances := allowances[(owner, spender) := spenderAllowance - amount];
      }
    }

    /** The checks of `mint`; on success, the minter. */
    method MintChecks(callStack: seq<CallStackElement>, recipient: Key, amount: U256) returns (r: Result<Key, CsprUSDError>)
      ensures r == Ledger.MintChecks(Snapshot(), callStack, recipient, amount)
    {
      var paused := WhenNotPaused(isPaused);
      if paused.Fail? {
        return Failure(paused.error);
      }
      r := GetImmediateCallerAddress(callStack);
      if r.Failure? {
        return;
      }
      var minter := r.value;
      var isMinter := OnlyMinters(minter, minterStore.minters);
      if isMinter.Fail? {
        return Failure(isMinter.error);
      }
      var listed := blacklist.IsBlacklistedUtil(minter);
      if listed {
        return Failure(BlackListedAccount);
      }
      listed := blacklist.IsBlacklistedUtil(recipient);
      if listed {
        return Failure(BlackListedAccount);
      }
      if amount == 0 {
        return Failure(CannotMintZeroAmount);
      }
      var minterAllowance := ReadMinterAllowed(minterStore.minterAllowed, minter);
      if minterAllowance < amount {
        return Failure(ExceedsMintAllowance);
      }
    }

    method Mint(callStack: seq<CallStackElement>, recipient: Key, amount: U256) returns (outcome: Outcome<CsprUSDError>)
      modifies this`balances, this`totalSupply, minterStore
      ensures Applied(old(Snapshot()), Snapshot(), outcome, Ledger.Mint(old(Snapshot()), callStack, recipient, amount))
      ensures old(Valid()) ==> Valid()
    {
      LedgerProperties.MintPreservesValid(Snapshot(), callStack, recipient, amount);
      var checked := MintChecks(callStack, recipient, amount);
      if checked.Failure? {
        return Fail(checked.error);
      }
      outcome := MintTo(checked.value, recipient, amount);
    }

    /** Writes the recipient's balance and the minter's allowance before it
        checks the new total supply; when that overflows, the call reverts and
        the host discards both writes, which the method undoes explicitly.
      `mint` calls it only once its checks have passed, so the amount is
      nonzero; the proof leans on that, although `Ledger.MintTo` itself does
      not need it. */
    method MintTo(minter: Key, recipient: Key, amount: U256) returns (outcome: Outcome<CsprUSDError>)
      requires 0 < amount <= ReadMinterAllowed(minterStore.minterAllowed, minter)
      modifies this`balances, this`totalSupply, minterStore
      ensures Applied(old(Snapshot()), Snapshot(), outcome, Ledger.MintTo(old(Snapshot()), minter, recipient, amount))
    {
      var minterAllowance := ReadMinterAllowed(minterStore.minterAllowed, minter);
      var newRecipientBalance := CheckedAdd(Get(balances, recipient, 0), amount);
      if newRecipientBalance.None? {
        return Fail(Overflow);
      }
      var savedBalances := balances;
      balances := balances[recipient := newRecipientBalance.value];
      // The `checked_sub` here cannot fail: the allowance covers `amount`.
      minterStore.SetMinterAllowed(minter, minterAllowance - amount);
      var newTotalSupply := CheckedAdd(totalSupply, amount);
      if newTotalSupply.None? {
        balances := savedBalances;
        minterStore.SetMinterAllowed(minter, minterAllowance);
        assert minterStore.minterAllowed == old(minterStore.minterAllowed);
        return Fail(Overflow);
      }
      totalSupply := newTotalSupply.value;
      outcome := Pass;
    }

    /** The checks of `burn`; on success, the minter. */
    method BurnChecks(callStack: seq<CallStackElement>, amount: U256) returns (r: Result<Key, CsprUSDError>)
      ensures r == Ledger.BurnChecks(Snapshot(), callStack, amount)
    {
      var paused := WhenNotPaused(isPaused);
      if paused.Fail? {
        return Failure(paused.error);
      }
      r := GetImmediateCallerAddress(callStack);
      if r.Failure? {
        return;
      }
      var minter := r.value;
      var isMinter := OnlyMinters(minter, minterStore.minters);
      if isMinter.Fail? {
        return Failure(isMinter.error);
      }
      var listed := blacklist.IsBlacklistedUtil(minter);
      if listed {
        return Failure(BlackListedAccount);
      }
      if amount == 0 {
        return Failure(CannotBurnZeroAmount);
      }
      var minterCurrentBalance := Get(balances, minter, 0);
      if minterCurrentBalance < amount {
        return Failure(BurnExceedsBalance);
      }
    }

    method Burn(callStack: seq<CallStackElement>, amount: U256) returns (outcome: Outcome<CsprUSDError>)
      modifies this`balances, this`totalSupply
      ensures Applied(old(Snapshot()), Snapshot(), outcome, Ledger.Burn(old(Snapshot()), callStack, amount))
      ensures old(Valid()) ==> Valid()
    {
      LedgerProperties.BurnPreservesValid(Snapshot(), callStack, amount);
      var checked := BurnChecks(callStack, amount);
      if checked.Failure? {
        return Fail(checked.error);
      }
      outcome := BurnFrom(checked.value, amount);
    }

    /** Lowers the total supply, then the minter's balance. */
    method BurnFrom(minter: Key, amount: U256) returns (outcome: Outcome<CsprUSDError>)
      requires amount <= Get(balances, minter, 0)
      modifies this`balances, this`totalSupply
      ensures Applied(old(Snapshot()), Snapshot(), outcome, Ledger.BurnFrom(old(Snapshot()), minter, amount))
    {
      var newTotalSupply := CheckedSub(totalSupply, amount);
      if newTotalSupply.None? {
        return Fail(Overflow);
      }
      totalSupply := newTotalSupply.value;
      // The `checked_sub` here cannot fail: the balance covers `amount`.
      balances := balances[minter := Get(balances, minter, 0) - amount];
      outcome := Pass;
    }
  }
}
