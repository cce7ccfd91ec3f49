/** What the entry points of `Ledger` promise: the order of their checks, the
    exact effect of a successful call, and the supply invariant. */
module LedgerProperties {
  import opened Wrappers
  import opened Types
  import opened Numbers
  import opened Maps
  import opened Errors
  import opened Utils
  import opened Minters
  import opened Ledger
  import Blacklisting

  /** The caller of a call stack, when there is one. */
  function Caller(callStack: seq<CallStackElement>): Key
    requires |callStack| >= 2
  {
    GetImmediateCallerAddress(callStack).value
  }

  // ---------------------------------------------------------------------------
  // The balance helper

  /** `transfer_balance` moves exactly `amount` and leaves every other balance
      and the sum of all balances as they were; it fails exactly when the
      sender holds too little or the recipient's balance would overflow. */
  lemma {:induction false} TransferBalanceMovesAmount(b: map<Key, U256>, sender: Key, recipient: Key, amount: U256)
    requires sender != recipient
    ensures var r := TransferBalance(b, sender, recipient, amount);
      && (Get(b, sender, 0) < amount ==> r == Failure(InsufficientBalance))
      && (r.Failure? <==> Get(b, sender, 0) < amount || Get(b, recipient, 0) + amount > MAX_U256)
      && (r.Success? ==>
            && Get(r.value, sender, 0) == Get(b, sender, 0) - amount
            && Get(r.value, recipient, 0) == Get(b, recipient, 0) + amount
            && (forall k :: k != sender && k != recipient ==> Get(r.value, k, 0) == Get(b, k, 0))
            && Sum(r.value) == Sum(b))
  {
    var r := TransferBalance(b, sender, recipient, amount);
    if r.Success? {
      var senderBalance := Get(b, sender, 0);
      var b1 := b[sender := senderBalance - amount];
      SumUpdate(b, sender, senderBalance - amount);
      SumUpdate(b1, recipient, Get(b, recipient, 0) + amount);
      assert Get(b1, recipient, 0) == Get(b, recipient, 0);
    }
  }

  /** While the supply invariant holds, the recipient's balance never overflows. */
  lemma {:induction false} TransferBalanceNeverOverflows(b: map<Key, U256>, sender: Key, recipient: Key, amount: U256)
    requires sender != recipient
    requires Sum(b) <= MAX_U256
    ensures TransferBalance(b, sender, recipient, amount) != Failure(Overflow)
  {
    SumPair(b, sender, recipient);
  }

  // ---------------------------------------------------------------------------
  // transfer

  /** `transfer` checks, in this order: the pause flag, the caller, the
      blacklist (sender or recipient), a self-transfer, and in the first
      version a zero amount; then the sender's balance. */
  lemma TransferChecksInOrder(version: Version, s: State, callStack: seq<CallStackElement>, recipient: Key, amount: U256)
    ensures var r := Transfer(version, s, callStack, recipient, amount);
      && (s.isPaused ==> r == Failure(ContractPaused))
      && (!s.isPaused && |callStack| < 2 ==> r == Failure(InvalidContext))
      && (!s.isPaused && |callStack| >= 2 ==>
            var sender := Caller(callStack);
            && (s.IsBlacklisted(sender) || s.IsBlacklisted(recipient) ==> r == Failure(BlackListedAccount))
            && (!s.IsBlacklisted(sender) && !s.IsBlacklisted(recipient) && sender == recipient ==>
                  r == Failure(CannotTargetSelfUser))
            && (!s.IsBlacklisted(sender) && !s.IsBlacklisted(recipient) && sender != recipient ==>
                  if version == V1 && amount == 0 then r == Failure(CannotTransferZeroAmount)
                  else if s.BalanceOf(sender) < amount then r == Failure(InsufficientBalance)
                  else r.Success? || r == Failure(Overflow)))
  {
  }

  /** A successful `transfer` moves exactly `amount` from the caller to the
      recipient, changes nothing but balances, and keeps the total supply and
      the sum of all balances. */
  lemma {:induction false} TransferMovesAmount(version: Version, s: State, callStack: seq<CallStackElement>, recipient: Key, amount: U256)
    ensures var r := Transfer(version, s, callStack, recipient, amount);
      r.Success? ==>
        var sender := Caller(callStack);
        && r.value == s.(balances := r.value.balances)
        && r.value.BalanceOf(sender) == s.BalanceOf(sender) - amount
        && r.value.BalanceOf(recipient) == s.BalanceOf(recipient) + amount
        && (forall k :: k != sender && k != recipient ==> r.value.BalanceOf(k) == s.BalanceOf(k))
        && Sum(r.value.balances) == Sum(s.balances)
  {
    var r := Transfer(version, s, callStack, recipient, amount);
    if r.Success? {
      TransferBalanceMovesAmount(s.balances, Caller(callStack), recipient, amount);
    }
  }

  /** While the supply invariant holds, `transfer` never fails with `Overflow`. */
  lemma {:induction false} TransferNeverOverflows(version: Version, s: State, callStack: seq<CallStackElement>, recipient: Key, amount: U256)
    requires Valid(s)
    ensures Transfer(version, s, callStack, recipient, amount) != Failure(Overflow)
  {
    if !s.isPaused && |callStack| >= 2 && Caller(callStack) != recipient {
      TransferBalanceNeverOverflows(s.balances, Caller(callStack), recipient, amount);
    }
  }

  // ---------------------------------------------------------------------------
  // transfer_from

  /** `transfer_from` checks the pause flag, the caller, the blacklist (spender,
      recipient or owner), `owner == recipient`, in the first version a zero
      amount, and then the allowance, before any balance is looked at. */
  lemma TransferFromChecksInOrder(version: Version, s: State, callStack: seq<CallStackElement>, owner: Key, recipient: Key, amount: U256)
    ensures var r := TransferFrom(version, s, callStack, owner, recipient, amount);
      && (s.isPaused ==> r == Failure(ContractPaused))
      && (!s.isPaused && |callStack| < 2 ==> r == Failure(InvalidContext))
      && (!s.isPaused && |callStack| >= 2 ==>
            var spender := Caller(callStack);
            var listed := s.IsBlacklisted(spender) || s.IsBlacklisted(recipient) || s.IsBlacklisted(owner);
            && (listed ==> r == Failure(BlackListedAccount))
            && (!listed && owner == recipient ==> r == Failure(CannotTargetSelfUser))
            && (!listed && owner != recipient ==>
                  if version == V1 && amount == 0 then r == Failure(CannotTransferZeroAmount)
                  else if s.AllowanceOf(owner, spender) < amount then r == Failure(InsufficientAllowance)
                  else if s.BalanceOf(owner) < amount then r == Failure(InsufficientBalance)
                  else r.Success? || r == Failure(Overflow)))
  {
  }

  /** A successful `transfer_from` lowers the spender's allowance and the
      owner's balance by exactly `amount`, raises the recipient's balance by
      `amount`, changes nothing else, and keeps the sum of all balances. */
  lemma {:induction false} TransferFromMovesAmount(version: Version, s: State, callStack: seq<CallStackElement>, owner: Key, recipient: Key, amount: U256)
    ensures var r := TransferFrom(version, s, callStack, owner, recipient, amount);
      r.Success? ==>
        var spender := Caller(callStack);
        && r.value == s.(balances := r.value.balances, allowances := s.allowances[(owner, spender) := s.AllowanceOf(owner, spender) - amount])
        && r.value.AllowanceOf(owner, spender) + amount == s.AllowanceOf(owner, spender)
        && r.value.BalanceOf(owner) + amount == s.BalanceOf(owner)
        && r.value.BalanceOf(recipient) == s.BalanceOf(recipient) + amount
        && (forall k :: k != owner && k != recipient ==> r.value.BalanceOf(k) == s.BalanceOf(k))
        && r.value.totalSupply == s.totalSupply
        && Sum(r.value.balances) == Sum(s.balances)
  {
    var r := TransferFrom(version, s, callStack, owner, recipient, amount);
    if r.Success? {
      TransferBalanceMovesAmount(s.balances, owner, recipient, amount);
    }
  }

  /** While the supply invariant holds, `transfer_from` never fails with `Overflow`. */
  lemma {:induction false} TransferFromNeverOverflows(version: Version, s: State, callStack: seq<CallStackElement>, owner: Key, recipient: Key, amount: U256)
    requires Valid(s)
    ensures TransferFrom(version, s, callStack, owner, recipient, amount) != Failure(Overflow)
  {
    if owner != recipient {
      TransferBalanceNeverOverflows(s.balances, owner, recipient, amount);
    }
  }

  // ---------------------------------------------------------------------------
  // The two versions

  /** The first version rejects a zero-amount `transfer` once the blacklist and
      self-transfer checks have passed; the latest version accepts it and no
      balance changes. */
  lemma {:induction false} ZeroTransfer(s: State, callStack: seq<CallStackElement>, recipient: Key)
    requires !s.isPaused && |callStack| >= 2
    requires !s.IsBlacklisted(Caller(callStack)) && !s.IsBlacklisted(recipient)
    requires Caller(callStack) != recipient
    ensures Transfer(V1, s, callStack, recipient, 0) == Failure(CannotTransferZeroAmount)
    ensures var r := Transfer(Latest, s, callStack, recipient, 0);
      r.Success? && forall k :: r.value.BalanceOf(k) == s.BalanceOf(k)
  {
    TransferBalanceMovesAmount(s.balances, Caller(callStack), recipient, 0);
  }

  /** The same for `transfer_from`, once its blacklist and `owner == recipient`
      checks have passed; the latest version accepts a zero amount when the
      spender's allowance is 0 as well. */
  lemma {:induction false} ZeroTransferFrom(s: State, callStack: seq<CallStackElement>, owner: Key, recipient: Key)
    requires !s.isPaused && |callStack| >= 2
    requires !s.IsBlacklisted(Caller(callStack)) && !s.IsBlacklisted(recipient) && !s.IsBlacklisted(owner)
    requires owner != recipient
    ensures TransferFrom(V1, s, callStack, owner, recipient, 0) == Failure(CannotTransferZeroAmount)
    ensures var r := TransferFrom(Latest, s, callStack, owner, recipient, 0);
      r.Success? && (forall k :: r.value.BalanceOf(k) == s.BalanceOf(k))
      && r.value.AllowanceOf(owner, Caller(callStack)) == s.AllowanceOf(owner, Caller(callStack))
  {
    TransferBalanceMovesAmount(s.balances, owner, recipient, 0);
  }

  /** For every nonzero amount the two versions behave the same. */
  lemma VersionsAgreeOnNonzeroAmounts(s: State, callStack: seq<CallStackElement>, owner: Key, recipient: Key, amount: U256)
    requires amount != 0
    ensures Transfer(V1, s, callStack, recipient, amount) == Transfer(Latest, s, callStack, recipient, amount)
    ensures TransferFrom(V1, s, callStack, owner, recipient, amount) == TransferFrom(Latest, s, callStack, owner, recipient, amount)
  {
  }

  // ---------------------------------------------------------------------------
  // mint and burn

  /** `mint` checks, in this order: the pause flag, the caller, that the caller
      is a minter, that neither minter nor recipient is blacklisted, a zero
      amount, and the minting allowance; then it fails only on overflow. */
  lemma MintChecksInOrder(s: State, callStack: seq<CallStackElement>, recipient: Key, amount: U256)
    ensures var r := Mint(s, callStack, recipient, amount);
      && (s.isPaused ==> r == Failure(ContractPaused))
      && (!s.isPaused && |callStack| < 2 ==> r == Failure(InvalidContext))
      && (!s.isPaused && |callStack| >= 2 ==>
            var minter := Caller(callStack);
            if !IsMinterUtil(s.minters, minter) then r == Failure(NotMinter)
            else if s.IsBlacklisted(minter) || s.IsBlacklisted(recipient) then r == Failure(BlackListedAccount)
            else if amount == 0 then r == Failure(CannotMintZeroAmount)
            else if ReadMinterAllowed(s.minterAllowed, minter) < amount then r == Failure(ExceedsMintAllowance)
            else if s.BalanceOf(recipient) + amount > MAX_U256 || s.totalSupply + amount > MAX_U256 then r == Failure(Overflow)
            else r.Success?)
  {
  }

  /** A successful `mint` raises the recipient's balance and the total supply
      by `amount`, lowers the minter's allowance by `amount`, and changes
      nothing else. */
  lemma {:induction false} MintCreatesAmount(s: State, callStack: seq<CallStackElement>, recipient: Key, amount: U256)
    ensures var r := Mint(s, callStack, recipient, amount);
      r.Success? ==>
        var minter := Caller(callStack);
        && r.value.BalanceOf(recipient) == s.BalanceOf(recipient) + amount
        && (forall k :: k != recipient ==> r.value.BalanceOf(k) == s.BalanceOf(k))
        && r.value.totalSupply == s.totalSupply + amount
        && ReadMinterAllowed(r.value.minterAllowed, minter) + amount == ReadMinterAllowed(s.minterAllowed, minter)
        && r.value == s.(balances := r.value.balances, minterAllowed := r.value.minterAllowed, totalSupply := r.value.totalSupply)
        && r.value.minterAllowed == s.minterAllowed[minter := ReadMinterAllowed(s.minterAllowed, minter) - amount]
  {
    var r := Mint(s, callStack, recipient, amount);
    if r.Success? {
      SumUpdate(s.balances, recipient, s.BalanceOf(recipient) + amount);
    }
  }

  /** While the supply invariant holds, `mint` overflows exactly when the new
      total supply would not fit: a single balance can never overflow first. */
  lemma {:induction false} MintOverflowsOnlyOnSupply(s: State, callStack: seq<CallStackElement>, recipient: Key, amount: U256)
    requires Valid(s)
    requires Mint(s, callStack, recipient, amount) == Failure(Overflow)
    ensures s.totalSupply + amount > MAX_U256
  {
    SumSingle(s.balances, recipient);
  }

  /** `burn` checks, in this order: the pause flag, the caller, that the caller
      is a minter, that it is not blacklisted, a zero amount, and its balance. */
  lemma BurnChecksInOrder(s: State, callStack: seq<CallStackElement>, amount: U256)
    ensures var r := Burn(s, callStack, amount);
      && (s.isPaused ==> r == Failure(ContractPaused))
      && (!s.isPaused && |callStack| < 2 ==> r == Failure(InvalidContext))
      && (!s.isPaused && |callStack| >= 2 ==>
            var minter := Caller(callStack);
            if !IsMinterUtil(s.minters, minter) then r == Failure(NotMinter)
            else if s.IsBlacklisted(minter) then r == Failure(BlackListedAccount)
            else if amount == 0 then r == Failure(CannotBurnZeroAmount)
            else if s.BalanceOf(minter) < amount then r == Failure(BurnExceedsBalance)
            else if s.totalSupply < amount then r == Failure(Overflow)
            else r.Success?)
  {
  }

  /** A successful `burn` lowers the caller's balance and the total supply by
      exactly `amount`, and changes nothing else. */
  lemma {:induction false} BurnDestroysAmount(s: State, callStack: seq<CallStackElement>, amount: U256)
    ensures var r := Burn(s, callStack, amount);
      r.Success? ==>
        var minter := Caller(callStack);
        && r.value.BalanceOf(minter) + amount == s.BalanceOf(minter)
        && (forall k :: k != minter ==> r.value.BalanceOf(k) == s.BalanceOf(k))
        && r.value.totalSupply + amount == s.totalSupply
        && r.value == s.(balances := r.value.balances, totalSupply := r.value.totalSupply)
  {
    var r := Burn(s, callStack, amount);
    if r.Success? {
      SumUpdate(s.balances, Caller(callStack), s.BalanceOf(Caller(callStack)) - amount);
    }
  }

  /** While the supply invariant holds, the supply never underflows in `burn`. */
  lemma {:induction false} BurnNeverUnderflows(s: State, callStack: seq<CallStackElement>, amount: U256)
    requires Valid(s)
    ensures Burn(s, callStack, amount) != Failure(Overflow)
  {
    if |callStack| >= 2 {
      SumSingle(s.balances, Caller(callStack));
    }
  }

  // ---------------------------------------------------------------------------
  // The supply invariant

  lemma {:induction false} TransferPreservesValid(version: Version, s: State, callStack: seq<CallStackElement>, recipient: Key, amount: U256)
    ensures var r := Transfer(version, s, callStack, recipient, amount);
      Valid(s) && r.Success? ==> Valid(r.value)
  {
    TransferMovesAmount(version, s, callStack, recipient, amount);
  }

  lemma {:induction false} TransferFromPreservesValid(version: Version, s: State, callStack: seq<CallStackElement>, owner: Key, recipient: Key, amount: U256)
    ensures var r := TransferFrom(version, s, callStack, owner, recipient, amount);
      Valid(s) && r.Success? ==> Valid(r.value)
  {
    TransferFromMovesAmount(version, s, callStack, owner, recipient, amount);
  }

  /** `mint` adds `amount` both to one balance and to the total supply. */
  lemma {:induction false} MintPreservesValid(s: State, callStack: seq<CallStackElement>, recipient: Key, amount: U256)
    ensures var r := Mint(s, callStack, recipient, amount);
      Valid(s) && r.Success? ==> Valid(r.value)
  {
    var r := Mint(s, callStack, recipient, amount);
    if r.Success? {
      SumUpdate(s.balances, recipient, s.BalanceOf(recipient) + amount);
    }
  }

  /** `burn` takes `amount` both from one balance and from the total supply. */
  lemma {:induction false} BurnPreservesValid(s: State, callStack: seq<CallStackElement>, amount: U256)
    ensures var r := Burn(s, callStack, amount);
      Valid(s) && r.Success? ==> Valid(r.value)
  {
    var r := Burn(s, callStack, amount);
    if r.Success? {
      SumUpdate(s.balances, Caller(callStack), s.BalanceOf(Caller(callStack)) - amount);
    }
  }

  // ---------------------------------------------------------------------------
  // Allowances

  /** `approve`, `decrease_allowance` and `increase_allowance` check the pause
      flag, the caller, `spender == caller`, and only then the blacklist. */
  lemma AllowanceChecksInOrder(s: State, callStack: seq<CallStackElement>, spender: Key)
    ensures var r := AllowanceChecks(s, callStack, spender);
      && (s.isPaused ==> r == Failure(ContractPaused))
      && (!s.isPaused && |callStack| < 2 ==> r == Failure(InvalidContext))
      && (!s.isPaused && |callStack| >= 2 ==>
            var owner := Caller(callStack);
            if spender == owner then r == Failure(CannotTargetSelfUser)
            else if s.IsBlacklisted(owner) || s.IsBlacklisted(spender) then r == Failure(BlackListedAccount)
            else r == Success(owner))
  {
  }

  /** On success, `approve` sets the caller's allowance for `spender` to
      `amount`, whatever it was; `decrease_allowance` stores the old value minus
      `amount`, or 0; `increase_allowance` stores the old value plus `amount`,
      or 2^256 - 1. Only that one entry changes. */
  lemma AllowanceUpdates(s: State, callStack: seq<CallStackElement>, spender: Key, amount: U256)
    ensures AllowanceChecks(s, callStack, spender).Success? ==>
      var owner := Caller(callStack);
      var current := s.AllowanceOf(owner, spender);
      && Approve(s, callStack, spender, amount) == Success(s.(allowances := s.allowances[(owner, spender) := amount]))
      && DecreaseAllowance(s, callStack, spender, amount) ==
           Success(s.(allowances := s.allowances[(owner, spender) := if amount <= current then current - amount else 0]))
      && IncreaseAllowance(s, callStack, spender, amount) ==
           Success(s.(allowances := s.allowances[(owner, spender) := if current + amount <= MAX_U256 then current + amount else MAX_U256]))
    ensures AllowanceChecks(s, callStack, spender).Failure? ==>
      var e := AllowanceChecks(s, callStack, spender).error;
      && Approve(s, callStack, spender, amount) == Failure(e)
      && DecreaseAllowance(s, callStack, spender, amount) == Failure(e)
      && IncreaseAllowance(s, callStack, spender, amount) == Failure(e)
  {
  }

  // ---------------------------------------------------------------------------
  // Minter configuration

  /** `configure_minter` succeeds exactly when not paused and called by the
      master minter, and otherwise reports `ContractPaused`, `InvalidContext`
      or `NotMasterMinter`, in that order; `remove_minter` reports the last two. */
  lemma MinterConfigurationErrors(s: State, callStack: seq<CallStackElement>, minter: Key, minterAllowance: U256)
    ensures var r := ConfigureMinter(s, callStack, minter, minterAllowance);
      && (r.Success? <==> !s.isPaused && GetImmediateCallerAddress(callStack) == Success(s.masterMinter))
      && (r.Failure? ==> r.error == (if s.isPaused then ContractPaused else if |callStack| < 2 then InvalidContext else NotMasterMinter))
    ensures var r := RemoveMinter(s, callStack, minter);
      r.Failure? ==> r.error == (if |callStack| < 2 then InvalidContext else NotMasterMinter)
  {
  }

  /** A successful `configure_minter` makes `minter` a minter with exactly the
      given allowance; `remove_minter` takes the flag away and sets the
      allowance to 0. No other key's entries and no other part of the state
      change. */
  lemma MinterConfiguration(s: State, callStack: seq<CallStackElement>, minter: Key, minterAllowance: U256, k: Key)
    requires k != minter
    ensures var r := ConfigureMinter(s, callStack, minter, minterAllowance);
      r.Success? ==> r.value == s.(minters := s.minters[minter := true], minterAllowed := s.minterAllowed[minter := minterAllowance])
    ensures var r := RemoveMinter(s, callStack, minter);
      r.Success? ==> r.value == s.(minters := s.minters[minter := false], minterAllowed := s.minterAllowed[minter := 0])
    ensures var r := ConfigureMinter(s, callStack, minter, minterAllowance);
      r.Success? ==>
        && IsMinterUtil(r.value.minters, minter) && ReadMinterAllowed(r.value.minterAllowed, minter) == minterAllowance
        && IsMinterUtil(r.value.minters, k) == IsMinterUtil(s.minters, k)
        && ReadMinterAllowed(r.value.minterAllowed, k) == ReadMinterAllowed(s.minterAllowed, k)
    ensures var r := RemoveMinter(s, callStack, minter);
      r.Success? ==>
        && !IsMinterUtil(r.value.minters, minter) && ReadMinterAllowed(r.value.minterAllowed, minter) == 0
        && IsMinterUtil(r.value.minters, k) == IsMinterUtil(s.minters, k)
        && ReadMinterAllowed(r.value.minterAllowed, k) == ReadMinterAllowed(s.minterAllowed, k)
  {
  }

  // ---------------------------------------------------------------------------
  // The pause flag

  /** While paused, every token-moving entry point and `configure_minter`
      revert with `ContractPaused`, before anything else is checked. */
  lemma PausedLedgerReverts(version: Version, s: State, callStack: seq<CallStackElement>, a: Key, b: Key, amount: U256)
    requires s.isPaused
    ensures Approve(s, callStack, a, amount) == Failure(ContractPaused)
    ensures DecreaseAllowance(s, callStack, a, amount) == Failure(ContractPaused)
    ensures IncreaseAllowance(s, callStack, a, amount) == Failure(ContractPaused)
    ensures Transfer(version, s, callStack, a, amount) == Failure(ContractPaused)
    ensures TransferFrom(version, s, callStack, a, b, amount) == Failure(ContractPaused)
    ensures Mint(s, callStack, a, amount) == Failure(ContractPaused)
    ensures Burn(s, callStack, amount) == Failure(ContractPaused)
    ensures ConfigureMinter(s, callStack, a, amount) == Failure(ContractPaused)
  {
  }

  /** The administrative entry points are not pause-guarded: each succeeds
      exactly when the caller holds the required role, paused or not. */
  lemma AdministrationIgnoresPause(s: State, callStack: seq<CallStackElement>, accountHash: PublicKey -> Bytes, k: Key, pk: PublicKey)
    ensures var caller := GetImmediateCallerAddress(callStack);
      && (RemoveMinter(s, callStack, k).Success? <==> caller == Success(s.masterMinter))
      && (PauseContract(s, callStack).Success? <==> caller == Success(s.pauser))
      && (UnpauseContract(s, callStack).Success? <==> caller == Success(s.pauser))
      && (Blacklist(s, callStack, accountHash, k).Success? <==> caller == Success(Account(accountHash(s.blacklister))))
      && (UnBlacklist(s, callStack, accountHash, k).Success? <==> caller == Success(Account(accountHash(s.blacklister))))
      && (UpdatePauser(s, callStack, k).Success? <==> caller == Success(s.owner))
      && (UpdateMasterMinter(s, callStack, k).Success? <==> caller == Success(s.owner))
      && (UpdateBlacklister(s, callStack, pk).Success? <==> caller == Success(s.owner))
      && (TransferOwnership(s, callStack, k).Success? <==> caller == Success(s.owner))
  {
  }

  // ---------------------------------------------------------------------------
  // Handing over roles, the pause switch and the blacklist

  /** `pause_contract`: a caller that is not the pauser gets `NotPauser` (or
      `InvalidContext`); the pauser sets the flag and nothing else, and from
      then on every pause-guarded entry point reverts with `ContractPaused`. */
  lemma PauseStopsGuardedCalls(version: Version, s: State, callStack: seq<CallStackElement>, next: seq<CallStackElement>, a: Key, b: Key, amount: U256)
    ensures var r := PauseContract(s, callStack);
      && (r.Failure? ==> r.error == (if |callStack| < 2 then InvalidContext else NotPauser))
      && (r.Success? ==> r.value == s.(isPaused := true))
    ensures var r := PauseContract(s, callStack);
      r.Success? ==>
        && Approve(r.value, next, a, amount) == Failure(ContractPaused)
        && DecreaseAllowance(r.value, next, a, amount) == Failure(ContractPaused)
        && IncreaseAllowance(r.value, next, a, amount) == Failure(ContractPaused)
        && Transfer(version, r.value, next, a, amount) == Failure(ContractPaused)
        && TransferFrom(version, r.value, next, a, b, amount) == Failure(ContractPaused)
        && Mint(r.value, next, a, amount) == Failure(ContractPaused)
        && Burn(r.value, next, amount) == Failure(ContractPaused)
        && ConfigureMinter(r.value, next, a, amount) == Failure(ContractPaused)
  {
    var r := PauseContract(s, callStack);
    if r.Success? {
      PausedLedgerReverts(version, r.value, next, a, b, amount);
    }
  }

  /** `unpause_contract`: a caller that is not the pauser gets `NotPauser` (or
      `InvalidContext`); the pauser clears the flag and nothing else, and then
      no entry point reverts with `ContractPaused`. */
  lemma UnpauseReleasesGuardedCalls(version: Version, s: State, callStack: seq<CallStackElement>, next: seq<CallStackElement>, a: Key, b: Key, amount: U256)
    ensures var r := UnpauseContract(s, callStack);
      && (r.Failure? ==> r.error == (if |callStack| < 2 then InvalidContext else NotPauser))
      && (r.Success? ==> r.value == s.(isPaused := false))
    ensures var r := UnpauseContract(s, callStack);
      r.Success? ==>
        && Approve(r.value, next, a, amount) != Failure(ContractPaused)
        && DecreaseAllowance(r.value, next, a, amount) != Failure(ContractPaused)
        && IncreaseAllowance(r.value, next, a, amount) != Failure(ContractPaused)
        && Transfer(version, r.value, next, a, amount) != Failure(ContractPaused)
        && TransferFrom(version, r.value, next, a, b, amount) != Failure(ContractPaused)
        && Mint(r.value, next, a, amount) != Failure(ContractPaused)
        && Burn(r.value, next, amount) != Failure(ContractPaused)
        && ConfigureMinter(r.value, next, a, amount) != Failure(ContractPaused)
  {
    var r := UnpauseContract(s, callStack);
    if r.Success? {
      UnpausedAllowancesProceed(r.value, next, a, amount);
      UnpausedTransfersProceed(version, r.value, next, a, b, amount);
      UnpausedMintAndBurnProceed(r.value, next, a, amount);
    }
  }

  /** While not paused, neither the allowance entry points nor
      `configure_minter` revert with `ContractPaused`. */
  lemma UnpausedAllowancesProceed(s: State, callStack: seq<CallStackElement>, a: Key, amount: U256)
    requires !s.isPaused
    ensures Approve(s, callStack, a, amount) != Failure(ContractPaused)
    ensures DecreaseAllowance(s, callStack, a, amount) != Failure(ContractPaused)
    ensures IncreaseAllowance(s, callStack, a, amount) != Failure(ContractPaused)
    ensures ConfigureMinter(s, callStack, a, amount) != Failure(ContractPaused)
  {
  }

  /** While not paused, neither `transfer` nor `transfer_from` reverts with
      `ContractPaused`. */
  lemma UnpausedTransfersProceed(version: Version, s: State, callStack: seq<CallStackElement>, a: Key, b: Key, amount: U256)
    requires !s.isPaused
    ensures Transfer(version, s, callStack, a, amount) != Failure(ContractPaused)
    ensures TransferFrom(version, s, callStack, a, b, amount) != Failure(ContractPaused)
  {
    assert TransferChecks(version, s, callStack, a, amount) != Failure(ContractPaused);
    assert TransferFromChecks(version, s, callStack, a, b, amount) != Failure(ContractPaused);
  }

  /** While not paused, neither `mint` nor `burn` reverts with `ContractPaused`. */
  lemma UnpausedMintAndBurnProceed(s: State, callStack: seq<CallStackElement>, a: Key, amount: U256)
    requires !s.isPaused
    ensures Mint(s, callStack, a, amount) != Failure(ContractPaused)
    ensures Burn(s, callStack, amount) != Failure(ContractPaused)
  {
    assert MintChecks(s, callStack, a, amount) != Failure(ContractPaused);
    assert BurnChecks(s, callStack, amount) != Failure(ContractPaused);
  }

  /** Pausing and then unpausing, by the same caller, leaves the state as it
      was apart from the flag being clear. */
  lemma PauseThenUnpause(s: State, callStack: seq<CallStackElement>)
    ensures var r := PauseContract(s, callStack);
      r.Success? ==> UnpauseContract(r.value, callStack) == Success(s.(isPaused := false))
  {
  }

  /** `update_pauser`: only the owner may call it (`NotOwner` or
      `InvalidContext` otherwise). Afterwards exactly the new pauser can pause
      and unpause, and the old pauser, if it is another key, gets `NotPauser`. */
  lemma UpdatePauserHandsOver(s: State, callStack: seq<CallStackElement>, newPauser: Key, next: seq<CallStackElement>)
    ensures var r := UpdatePauser(s, callStack, newPauser);
      && (r.Failure? ==> r.error == (if |callStack| < 2 then InvalidContext else NotOwner))
      && (r.Success? ==> r.value == s.(pauser := newPauser))
    ensures var r := UpdatePauser(s, callStack, newPauser);
      var caller := GetImmediateCallerAddress(next);
      r.Success? ==>
        && (PauseContract(r.value, next).Success? <==> caller == Success(newPauser))
        && (UnpauseContract(r.value, next).Success? <==> caller == Success(newPauser))
        && (caller == Success(s.pauser) && s.pauser != newPauser ==>
              PauseContract(r.value, next) == Failure(NotPauser) && UnpauseContract(r.value, next) == Failure(NotPauser))
  {
  }

  /** `update_master_minter`: only the owner may call it. Afterwards exactly
      the new master minter can remove minters and, while not paused,
      configure them; the old one, if it is another key, gets
      `NotMasterMinter`. */
  lemma UpdateMasterMinterHandsOver(s: State, callStack: seq<CallStackElement>, newMasterMinter: Key, next: seq<CallStackElement>, minter: Key, minterAllowance: U256)
    ensures var r := UpdateMasterMinter(s, callStack, newMasterMinter);
      && (r.Failure? ==> r.error == (if |callStack| < 2 then InvalidContext else NotOwner))
      && (r.Success? ==> r.value == s.(masterMinter := newMasterMinter))
    ensures var r := UpdateMasterMinter(s, callStack, newMasterMinter);
      var caller := GetImmediateCallerAddress(next);
      r.Success? ==>
        && (RemoveMinter(r.value, next, minter).Success? <==> caller == Success(newMasterMinter))
        && (ConfigureMinter(r.value, next, minter, minterAllowance).Success? <==> !s.isPaused && caller == Success(newMasterMinter))
        && (caller == Success(s.masterMinter) && s.masterMinter != newMasterMinter ==>
              RemoveMinter(r.value, next, minter) == Failure(NotMasterMinter)
              && (!s.isPaused ==> ConfigureMinter(r.value, next, minter, minterAllowance) == Failure(NotMasterMinter)))
  {
  }

  /** `update_blacklister`: only the owner may call it. Afterwards exactly the
      account of the new public key can blacklist and un-blacklist; the old
      blacklister's account, if it is another one, gets `NotBlacklister`. */
  lemma UpdateBlacklisterHandsOver(s: State, callStack: seq<CallStackElement>, accountHash: PublicKey -> Bytes, newBlacklister: PublicKey, next: seq<CallStackElement>, k: Key)
    ensures var r := UpdateBlacklister(s, callStack, newBlacklister);
      && (r.Failure? ==> r.error == (if |callStack| < 2 then InvalidContext else NotOwner))
      && (r.Success? ==> r.value == s.(blacklister := newBlacklister))
    ensures var r := UpdateBlacklister(s, callStack, newBlacklister);
      var caller := GetImmediateCallerAddress(next);
      var newAccount := Account(accountHash(newBlacklister));
      var oldAccount := Account(accountHash(s.blacklister));
      r.Success? ==>
        && (Blacklist(r.value, next, accountHash, k).Success? <==> caller == Success(newAccount))
        && (UnBlacklist(r.value, next, accountHash, k).Success? <==> caller == Success(newAccount))
        && (caller == Success(oldAccount) && oldAccount != newAccount ==>
              Blacklist(r.value, next, accountHash, k) == Failure(NotBlacklister)
              && UnBlacklist(r.value, next, accountHash, k) == Failure(NotBlacklister))
  {
  }

  /** `transfer_ownership`: only the owner may call it. Afterwards exactly the
      new owner passes the owner-only entry points; the old owner, if it is
      another key, gets `NotOwner`. */
  lemma TransferOwnershipHandsOver(s: State, callStack: seq<CallStackElement>, newOwner: Key, next: seq<CallStackElement>, k: Key, pk: PublicKey)
    ensures var r := TransferOwnership(s, callStack, newOwner);
      && (r.Failure? ==> r.error == (if |callStack| < 2 then InvalidContext else NotOwner))
      && (r.Success? ==> r.value == s.(owner := newOwner))
    ensures var r := TransferOwnership(s, callStack, newOwner);
      var caller := GetImmediateCallerAddress(next);
      r.Success? ==>
        && (UpdatePauser(r.value, next, k).Success? <==> caller == Success(newOwner))
        && (UpdateMasterMinter(r.value, next, k).Success? <==> caller == Success(newOwner))
        && (UpdateBlacklister(r.value, next, pk).Success? <==> caller == Success(newOwner))
        && (TransferOwnership(r.value, next, k).Success? <==> caller == Success(newOwner))
    ensures var r := TransferOwnership(s, callStack, newOwner);
      r.Success? && GetImmediateCallerAddress(next) == Success(s.owner) && s.owner != newOwner ==>
        && UpdatePauser(r.value, next, k) == Failure(NotOwner)
        && UpdateMasterMinter(r.value, next, k) == Failure(NotOwner)
        && UpdateBlacklister(r.value, next, pk) == Failure(NotOwner)
        && TransferOwnership(r.value, next, k) == Failure(NotOwner)
  {
  }

  /** `blacklist`: only the blacklister may call it (`NotBlacklister` or
      `InvalidContext` otherwise). Afterwards the key is blacklisted, every
      other key keeps its status, and, while not paused, the key can neither
      send tokens nor receive minted ones. */
  lemma BlacklistBlocksKey(version: Version, s: State, callStack: seq<CallStackElement>, accountHash: PublicKey -> Bytes, k: Key, x: Key, next: seq<CallStackElement>, recipient: Key, amount: U256)
    ensures var r := Blacklist(s, callStack, accountHash, k);
      && (r.Failure? ==> r.error == (if |callStack| < 2 then InvalidContext else NotBlacklister))
      && (r.Success? ==> r.value == s.(blacklisted := s.blacklisted + [k]))
      && (r.Success? ==> r.value.IsBlacklisted(k) && (x != k ==> (r.value.IsBlacklisted(x) <==> s.IsBlacklisted(x))))
    ensures var r := Blacklist(s, callStack, accountHash, k);
      var caller := GetImmediateCallerAddress(next);
      r.Success? && !s.isPaused ==>
        && (caller == Success(k) ==> Transfer(version, r.value, next, recipient, amount) == Failure(BlackListedAccount))
        && (caller.Success? && IsMinterUtil(s.minters, caller.value) ==> Mint(r.value, next, k, amount) == Failure(BlackListedAccount))
  {
  }

  /** `un_blacklist`: only the blacklister may call it. Afterwards the key is
      blacklisted only if it had been listed at least twice, and every other
      key keeps its status. */
  lemma UnBlacklistLiftsKey(s: State, callStack: seq<CallStackElement>, accountHash: PublicKey -> Bytes, k: Key, x: Key)
    ensures var r := UnBlacklist(s, callStack, accountHash, k);
      && (r.Failure? ==> r.error == (if |callStack| < 2 then InvalidContext else NotBlacklister))
      && (r.Success? ==> r.value == s.(blacklisted := Blacklisting.UnBlacklisted(s.blacklisted, k)))
      && (r.Success? ==> (r.value.IsBlacklisted(x) <==> if x == k then multiset(s.blacklisted)[k] >= 2 else s.IsBlacklisted(x)))
  {
    Blacklisting.UnBlacklistMembership(s.blacklisted, k, x);
  }
}
