/** The blacklist (csprusd/src/blacklisting.rs): a stored `Vec<Key>` that is
    read, changed in place with `push` or `swap_remove`, and written back.
    Duplicates are allowed, so a key may be listed more than once. */
module Blacklisting {
  import opened Wrappers
  import opened Types

  /** `iter().position(|v| *v == k)`: the index of the first occurrence of `k`. */
  function FirstIndexOf(s: seq<Key>, k: Key): (r: Option<nat>)
    ensures r.None? <==> k !in s
    ensures r.Some? ==> r.value < |s| && s[r.value] == k && k !in s[..r.value]
  {
    if s == [] then None
    else if s[0] == k then Some(0)
    else
      match FirstIndexOf(s[1..], k)
      case None => None
      case Some(i) =>
        assert s[..i + 1] == [s[0]] + s[1..][..i];
        Some(i + 1)
  }

  /** An index holding `k` with no `k` before it is the first index of `k`. */
  lemma {:induction false} FirstIndexAt(s: seq<Key>, k: Key, i: nat)
    requires i < |s| && s[i] == k && k !in s[..i]
    ensures FirstIndexOf(s, k) == Some(i)
  {
    if i > 0 {
      assert s[0] == s[..i][0];
      assert s[1..][..i - 1] == s[..i][1..];
      FirstIndexAt(s[1..], k, i - 1);
    }
  }

  /** `Vec::swap_remove(i)`: the last element takes the place of element `i`,
      and the vector is one shorter. */
  function SwapRemove(s: seq<Key>, i: nat): (r: seq<Key>)
    requires i < |s|
    ensures |r| == |s| - 1
    ensures forall j :: 0 <= j < |r| && j != i ==> r[j] == s[j]
    ensures i < |r| ==> r[i] == s[|s| - 1]
  {
    s[i := s[|s| - 1]][..|s| - 1]
  }

  /** `swap_remove` takes exactly one copy of the removed element out of the
      multiset of entries. */
  lemma {:induction false} SwapRemoveMultiset(s: seq<Key>, i: nat)
    requires i < |s|
    ensures multiset(SwapRemove(s, i)) == multiset(s) - multiset{s[i]}
  {
    var last := |s| - 1;
    var r := SwapRemove(s, i);
    if i == last {
      assert s == r + [s[i]];
    } else {
      SwapRemoveSplits(s, i);
      SwappedMultiset(s[..i], s[i], s[i + 1..last], s[last]);
    }
  }

  /** For an index before the last, `s` and its swap-removal share the part
      before `i` and the part between `i` and the last element. */
  lemma SwapRemoveSplits(s: seq<Key>, i: nat)
    requires i < |s| - 1
    ensures s == s[..i] + [s[i]] + s[i + 1..|s| - 1] + [s[|s| - 1]]
    ensures SwapRemove(s, i) == s[..i] + [s[|s| - 1]] + s[i + 1..|s| - 1]
  {
  }

  lemma SwappedMultiset(front: seq<Key>, x: Key, middle: seq<Key>, y: Key)
    ensures multiset(front + [x] + middle + [y]) - multiset{x} == multiset(front + [y] + middle)
  {
    assert multiset(front + [x] + middle + [y]) == multiset(front) + multiset{x} + multiset(middle) + multiset{y};
  }

  /** The list `un_blacklist_address(k)` writes back: unchanged when `k` is
      absent, otherwise its first occurrence swap-removed. */
  function UnBlacklisted(s: seq<Key>, k: Key): seq<Key> {
    match FirstIndexOf(s, k)
    case None => s
    case Some(i) => SwapRemove(s, i)
  }

  /** Un-blacklisting a key that is not listed changes nothing and is not an error. */
  lemma UnBlacklistAbsent(s: seq<Key>, k: Key)
    requires k !in s
    ensures UnBlacklisted(s, k) == s
  {
  }

  /** Un-blacklisting a listed key removes one copy of it and nothing else; the
      last entry moves into the freed slot. */
  lemma {:induction false} UnBlacklistPresent(s: seq<Key>, k: Key)
    requires k in s
    ensures |UnBlacklisted(s, k)| == |s| - 1
    ensures multiset(UnBlacklisted(s, k)) == multiset(s) - multiset{k}
    ensures var i := FirstIndexOf(s, k).value;
      i < |s| - 1 ==> UnBlacklisted(s, k)[i] == s[|s| - 1]
  {
    SwapRemoveMultiset(s, FirstIndexOf(s, k).value);
  }

  /** After un-blacklisting `k`, another key is listed exactly if it was before,
      and `k` itself stays listed exactly if it was listed at least twice. */
  lemma {:induction false} UnBlacklistMembership(s: seq<Key>, k: Key, x: Key)
    ensures x in UnBlacklisted(s, k) <==>
      if x == k then multiset(s)[k] >= 2 else x in s
  {
    if k in s {
      UnBlacklistPresent(s, k);
      assert x in UnBlacklisted(s, k) <==> x in multiset(UnBlacklisted(s, k));
    }
  }

  /** Because the list keeps duplicates, blacklisting a key twice and
      un-blacklisting it once leaves it blacklisted. */
  lemma {:induction false} BlacklistTwiceUnblacklistOnce(s: seq<Key>, k: Key)
    ensures k in UnBlacklisted(s + [k] + [k], k)
  {
    var t := s + [k] + [k];
    assert multiset(t)[k] == multiset(s)[k] + 2;
    UnBlacklistMembership(t, k, k);
  }

  /** The stored list of blacklisted keys. */
  class Blacklist {
    var entries: seq<Key>

    /** The empty list `install_contract` stores. */
    constructor ()
      ensures entries == []
    {
      entries := [];
    }

    /** `is_blacklisted_util`: true exactly when `account` occurs in the list
        (`iter().any`). */
    method IsBlacklistedUtil(account: Key) returns (listed: bool)
      ensures listed <==> account in entries
    {
      var i := 0;
      while i < |entries|
        invariant 0 <= i <= |entries|
        invariant account !in entries[..i]
      {
        if entries[i] == account {
          return true;
        }
        assert entries[..i + 1] == entries[..i] + [entries[i]];
        i := i + 1;
      }
      assert entries[..i] == entries;
      return false;
    }

    /** `iter().position`: the index of the first occurrence of `account`. */
    method Position(account: Key) returns (index: Option<nat>)
      ensures index == FirstIndexOf(entries, account)
    {
      var i := 0;
      while i < |entries|
        invariant 0 <= i <= |entries|
        invariant account !in entries[..i]
      {
        if entries[i] == account {
          FirstIndexAt(entries, account, i);
          return Some(i);
        }
        assert entries[..i + 1] == entries[..i] + [entries[i]];
        i := i + 1;
      }
      assert entries[..i] == entries;
      return None;
    }

    /** `blacklist_address`: `push` with no duplicate check. */
    method BlacklistAddress(address: Key)
      modifies this
      ensures entries == old(entries) + [address]
    {
      entries := entries + [address];
    }

    /** `un_blacklist_address`: swap-removes the first occurrence, if any. */
    method UnBlacklistAddress(address: Key)
      modifies this
      ensures entries == UnBlacklisted(old(entries), address)
    {
      var index := Position(address);
      if index.Some? {
        var last := |entries| - 1;
        entries := entries[index.value := entries[last]];
        entries := entries[..last];
      }
    }
  }
}
