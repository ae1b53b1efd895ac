/**
 * The installer's generic helpers: slice searches and maps, branch classification of a
 * Discord folder or bundle name, and the rule that recognises a file held open by a running
 * Discord on Windows.
 */
module Util {
  import opened GoStrings

  // ---------------------------------------------------------------------------------------
  // Slice helpers

  /** Applies `mapper` to every element, filling a result slice of the same length. */
  method SliceMap<T, U(0)>(arr: seq<T>, mapper: T -> U) returns (result: seq<U>)
    ensures |result| == |arr|
    ensures forall i :: 0 <= i < |arr| ==> result[i] == mapper(arr[i])
  {
    var buffer := new U[|arr|];
    for i := 0 to |arr|
      invariant forall j :: 0 <= j < i ==> buffer[j] == mapper(arr[j])
    {
      buffer[i] := mapper(arr[i]);
    }
    result := buffer[..];
  }

  /** The first index whose element satisfies `fn`, or -1 when none does. */
  method SliceIndexFunc<T>(slice: seq<T>, fn: T -> bool) returns (r: int)
    ensures -1 <= r < |slice|
    ensures r == -1 <==> forall i :: 0 <= i < |slice| ==> !fn(slice[i])
    ensures r != -1 ==> fn(slice[r]) && forall j :: 0 <= j < r ==> !fn(slice[j])
  {
    for i := 0 to |slice|
      invariant forall j :: 0 <= j < i ==> !fn(slice[j])
    {
      if fn(slice[i]) {
        return i;
      }
    }
    return -1;
  }

  /** The first index holding `item`, or -1 when it does not occur. */
  method SliceIndex<T(==)>(slice: seq<T>, item: T) returns (r: int)
    ensures -1 <= r < |slice|
    ensures r == -1 <==> item !in slice
    ensures r != -1 ==> slice[r] == item && item !in slice[..r]
  {
    r := SliceIndexFunc(slice, e => e == item);
  }

  /** Whether some element satisfies `fn`. */
  method SliceContainsFunc<T>(slice: seq<T>, fn: T -> bool) returns (b: bool)
    ensures b <==> exists i :: 0 <= i < |slice| && fn(slice[i])
  {
    var r := SliceIndexFunc(slice, fn);
    b := r != -1;
  }

  /** Whether `item` occurs in the slice. */
  method SliceContains<T(==)>(slice: seq<T>, item: T) returns (b: bool)
    ensures b <==> item in slice
  {
    var r := SliceIndex(slice, item);
    b := r != -1;
  }

  /** Go's conditional expression: `ifTrue` when `b` holds, `ifFalse` otherwise. */
  function Ternary<T>(b: bool, ifTrue: T, ifFalse: T): (r: T)
    ensures b ==> r == ifTrue
    ensures !b ==> r == ifFalse
  {
    if b then ifTrue else ifFalse
  }

  /** `elems` followed by `slice`, both in their own order. */
  function Prepend<T>(slice: seq<T>, elems: seq<T>): (r: seq<T>)
    ensures |r| == |elems| + |slice|
    ensures r[..|elems|] == elems && r[|elems|..] == slice
    ensures forall i :: 0 <= i < |elems| ==> r[i] == elems[i]
    ensures forall i :: 0 <= i < |slice| ==> r[|elems| + i] == slice[i]
  {
    elems + slice
  }

  // ---------------------------------------------------------------------------------------
  // Branch classification

  /** The suffixes that mark a non-stable branch, in the order they are tried. */
  const Branches: seq<string> := ["canary", "development", "ptb"]

  const Stable: string := "stable"

  /** Every branch name `GetBranch` can answer. */
  const AllBranches: set<string> := {"canary", "development", "ptb", "stable"}

  /** Reference definition: the first of `branches` that `name` ends with, else "stable". */
  function FirstSuffix(name: string, branches: seq<string>): string
  {
    if branches == [] then Stable
    else if HasSuffix(name, branches[0]) then branches[0]
    else FirstSuffix(name, branches[1..])
  }

  /** The branch of a folder or bundle name, compared in lower case. */
  function Branch(name: string): string
  {
    FirstSuffix(Lower(name), Branches)
  }

  /** Lowercases the name, then returns the first branch suffix it ends with. */
  method GetBranch(name: string) returns (branch: string)
    ensures branch == Branch(name)
  {
    var lowered := Lower(name);
    for i := 0 to |Branches|
      invariant FirstSuffix(lowered, Branches[i..]) == Branch(name)
    {
      if HasSuffix(lowered, Branches[i]) {
        return Branches[i];
      }
    }
    return Stable;
  }

  lemma {:induction false} FirstSuffixIsCandidate(name: string, branches: seq<string>)
    ensures FirstSuffix(name, branches) == Stable || FirstSuffix(name, branches) in branches
    ensures FirstSuffix(name, branches) != Stable ==>
              HasSuffix(name, FirstSuffix(name, branches))
    ensures FirstSuffix(name, branches) == Stable && Stable !in branches ==>
              forall b :: b in branches ==> !HasSuffix(name, b)
    ensures Stable !in branches && (forall b :: b in branches ==> !HasSuffix(name, b)) ==>
              FirstSuffix(name, branches) == Stable
  {
    if branches != [] {
      FirstSuffixIsCandidate(name, branches[1..]);
      assert branches == [branches[0]] + branches[1..];
    }
  }

  /** `GetBranch` only ever answers one of the four branch names. */
  lemma BranchIsKnown(name: string)
    ensures Branch(name) in AllBranches
  {
    FirstSuffixIsCandidate(Lower(name), Branches);
  }

  /**
   * A non-stable answer is a suffix of the lowercased name, and "stable" is answered
   * exactly when none of the three suffixes matches.
   */
  lemma BranchMatchesSuffix(name: string)
    ensures Branch(name) != Stable ==> HasSuffix(Lower(name), Branch(name))
    ensures Branch(name) == Stable <==> forall b :: b in Branches ==> !HasSuffix(Lower(name), b)
  {
    FirstSuffixIsCandidate(Lower(name), Branches);
  }

  /** The suffixes are tried in order: a match on the i-th one wins over every later one. */
  lemma {:induction false} FirstSuffixFirstMatch(name: string, branches: seq<string>, i: nat)
    requires i < |branches| && HasSuffix(name, branches[i])
    requires forall j :: 0 <= j < i ==> !HasSuffix(name, branches[j])
    ensures FirstSuffix(name, branches) == branches[i]
  {
    if i > 0 {
      FirstSuffixFirstMatch(name, branches[1..], i - 1);
    }
  }

  /** Upper and lower case do not matter to the classification. */
  lemma BranchCaseInsensitive(name: string)
    ensures Branch(name) == Branch(Lower(name))
  {
    LowerIdempotent(name);
  }

  // ---------------------------------------------------------------------------------------
  // Error classification

  /** The Go errors the installer's file operations may return. */
  datatype Error =
    | Errno(code: int)                                                    // syscall.Errno
    | LinkError(op: string, oldName: string, newName: string, err: Error) // *os.LinkError
    | PathError(op: string, path: string, err: Error)                     // *os.PathError
    | Message(text: string)                                               // errors.New

  /** ERROR_SHARING_VIOLATION: another process holds the file open. */
  const SharingViolation: int := 32

  const BusyMessage: string :=
    "Cannot patch because Discord's files are used by a different process." +
    "\nMake sure you close Discord before trying to patch!"

  /** The error is a link error (not wrapped any further) whose errno is a sharing violation. */
  predicate IsSharingViolation(err: Error)
  {
    err.LinkError? && err.err == Errno(SharingViolation)
  }

  /**
   * On Windows, a link error caused by a sharing violation becomes the "close Discord first"
   * message; every other error, and every error on another OS, is returned unchanged.
   */
  function CheckIfErrIsCauseItsBusyRn(err: Error, goos: string): (r: Error)
    ensures r != err <==> goos == "windows" && IsSharingViolation(err)
    ensures r != err ==> r == Message(BusyMessage)
  {
    if goos != "windows" then err
    else if err.LinkError? && err.err.Errno? && err.err.code == SharingViolation then
      Message(BusyMessage)
    else err
  }

  /** Classifying twice is classifying once. */
  lemma BusyCheckIdempotent(err: Error, goos: string)
    ensures CheckIfErrIsCauseItsBusyRn(CheckIfErrIsCauseItsBusyRn(err, goos), goos)
         == CheckIfErrIsCauseItsBusyRn(err, goos)
  {
  }
}
