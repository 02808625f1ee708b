/** Small value types and sequence helpers shared by the server and client models. */
module Common {

  datatype Option<T> = None | Some(value: T) {
    /** The value, or `d` when there is none: Python's `dict.get(key, d)`. */
    function GetOr(d: T): T {
      if Some? then value else d
    }
  }

  datatype Result<T, E> = Ok(value: T) | Err(error: E)

  /** No element occurs twice. */
  predicate NoDuplicates<T(==)>(s: seq<T>) {
    forall i, j :: 0 <= i < j < |s| ==> s[i] != s[j]
  }

  /** Each element is below the next. */
  predicate Ascending(s: seq<int>) {
    forall i :: 0 <= i < |s| - 1 ==> s[i] < s[i + 1]
  }

  lemma {:induction false} AscendingBetween(s: seq<int>, i: nat, j: nat)
    requires Ascending(s) && i < j < |s|
    ensures s[i] < s[j]
    decreases j - i
  {
    if i + 1 < j {
      AscendingBetween(s, i + 1, j);
    }
  }

  /** An ascending sequence has no duplicates. */
  lemma AscendingNoDuplicates(s: seq<int>)
    requires Ascending(s)
    ensures NoDuplicates(s)
  {
    forall i, j | 0 <= i < j < |s| ensures s[i] != s[j] {
      AscendingBetween(s, i, j);
    }
  }

  /** The sequence read back to front (JavaScript's `reverse`, Python's `[::-1]`). */
  function Reverse<T>(s: seq<T>): (r: seq<T>)
    ensures |r| == |s|
    ensures forall i :: 0 <= i < |s| ==> r[i] == s[|s| - 1 - i]
  {
    if s == [] then [] else Reverse(s[1..]) + [s[0]]
  }

  /** The sequence without its element at index k (a fired timer leaves the pending list). */
  function RemoveAt<T>(s: seq<T>, k: nat): (r: seq<T>)
    requires k < |s|
    ensures |r| == |s| - 1
    ensures forall i :: 0 <= i < |r| ==> r[i] == (if i < k then s[i] else s[i + 1])
  {
    s[..k] + s[k + 1..]
  }

  /** Appending an element that is not yet present keeps a sequence duplicate-free. */
  lemma {:induction false} AppendFreshKeepsNoDuplicates<T>(s: seq<T>, x: T)
    requires NoDuplicates(s) && x !in s
    ensures NoDuplicates(s + [x])
  {
    var t := s + [x];
    forall i, j | 0 <= i < j < |t| ensures t[i] != t[j] {
      if j == |s| {
        assert t[i] == s[i];
      } else {
        assert t[i] == s[i] && t[j] == s[j];
      }
    }
  }
}
