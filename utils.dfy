/** Caller identity (csprusd/src/utils.rs). The host's call stack becomes a
    parameter: a sequence of frames, the currently running one last. */
module Utils {
  import opened Wrappers
  import opened Types
  import opened Errors

  /** `casper_types::system::CallStackElement`. */
  datatype CallStackElement =
    | Session(accountHash: Bytes)
    | StoredSession(accountHash: Bytes, contractPackageHash: Bytes, contractHash: Bytes)
    | StoredContract(contractPackageHash: Bytes, contractHash: Bytes)

  /** The address a frame acts for: the account for session code, stored or
      not, and the contract package for a stored contract. */
  function CallStackElementToAddress(element: CallStackElement): (k: Key)
    ensures element.StoredContract? <==> k.Hash?
    ensures !element.StoredContract? ==> k.accountHash == element.accountHash
    ensures element.StoredContract? ==> k.hashAddr == element.contractPackageHash
  {
    match element
    case Session(accountHash) => Account(accountHash)
    case StoredSession(accountHash, _, _) => Account(accountHash)
    case StoredContract(contractPackageHash, _) => Hash(contractPackageHash)
  }

  /** `Iterator::rev` collected: the frames from the top of the stack down. */
  function Reverse<T>(s: seq<T>): (r: seq<T>)
    ensures |r| == |s|
    ensures forall i :: 0 <= i < |s| ==> r[i] == s[|s| - 1 - i]
  {
    if s == [] then [] else Reverse(s[1..]) + [s[0]]
  }

  /** `get_immediate_caller_address`: `rev().nth(1)` of the call stack, mapped
      to an address, or `InvalidContext` when there is no such frame. */
  function GetImmediateCallerAddress(callStack: seq<CallStackElement>): (r: Result<Key, CsprUSDError>)
    ensures r.Failure? <==> |callStack| < 2
    ensures r.Failure? ==> r.error == InvalidContext
    ensures r.Success? ==> r.value == CallStackElementToAddress(callStack[|callStack| - 2])
  {
    var fromTop := Reverse(callStack);
    if 1 < |fromTop| then Success(CallStackElementToAddress(fromTop[1])) else Failure(InvalidContext)
  }

  /** The caller depends on the frame just below the top and on nothing else
      in the stack. */
  lemma CallerDependsOnlyOnSecondFromTop(a: seq<CallStackElement>, b: seq<CallStackElement>)
    requires |a| >= 2 && |b| >= 2
    requires a[|a| - 2] == b[|b| - 2]
    ensures GetImmediateCallerAddress(a) == GetImmediateCallerAddress(b)
  {
  }
}
