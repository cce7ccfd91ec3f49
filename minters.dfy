/** The minter registry (csprusd/src/minters.rs): a flag dictionary saying who
    may mint and burn, and a dictionary of how much each minter may still mint. */
module Minters {
  import opened Types
  import opened Numbers
  import opened Maps

  /** `is_minter_util`: the stored flag, or false for a key never written. */
  function IsMinterUtil(minters: map<Key, bool>, account: Key): (r: bool)
    ensures r <==> account in minters && minters[account]
  {
    Get(minters, account, false)
  }

  /** `read_minter_allowed`: the stored allowance, or 0 for a key never set. */
  function ReadMinterAllowed(minterAllowed: map<Key, U256>, minter: Key): (r: U256)
    ensures minter !in minterAllowed ==> r == 0
    ensures minter in minterAllowed ==> r == minterAllowed[minter]
  {
    Get(minterAllowed, minter, 0)
  }

  /** The two dictionaries, updated in place by `dictionary_put`. */
  class MinterStore {
    var minters: map<Key, bool>
    var minterAllowed: map<Key, U256>

    /** The dictionaries `init` creates: both empty. */
    constructor ()
      ensures minters == map[] && minterAllowed == map[]
    {
      minters := map[];
      minterAllowed := map[];
    }

    /** `set_minter_allowed`: a later read of `minter` gives `amount`; every
        other key and the flags are untouched. */
    method SetMinterAllowed(minter: Key, amount: U256)
      modifies this
      ensures minterAllowed == old(minterAllowed)[minter := amount]
      ensures minters == old(minters)
      ensures ReadMinterAllowed(minterAllowed, minter) == amount
      ensures forall k :: k != minter ==> ReadMinterAllowed(minterAllowed, k) == ReadMinterAllowed(old(minterAllowed), k)
    {
      minterAllowed := minterAllowed[minter := amount];
    }

    /** `add_minter`: `minter` is a minter afterwards; no other flag and no
        allowance changes. */
    method AddMinter(minter: Key)
      modifies this
      ensures minters == old(minters)[minter := true]
      ensures minterAllowed == old(minterAllowed)
      ensures IsMinterUtil(minters, minter)
      ensures forall k :: k != minter ==> IsMinterUtil(minters, k) == IsMinterUtil(old(minters), k)
    {
      minters := minters[minter := true];
    }

    /** `remove_minter_util`: `minter` is no longer a minter; its allowance
        entry is left as it was (the entry point clears it separately). */
    method RemoveMinterUtil(minter: Key)
      modifies this
      ensures minters == old(minters)[minter := false]
      ensures minterAllowed == old(minterAllowed)
      ensures !IsMinterUtil(minters, minter)
      ensures forall k :: k != minter ==> IsMinterUtil(minters, k) == IsMinterUtil(old(minters), k)
    {
      minters := minters[minter := false];
    }
  }
}
