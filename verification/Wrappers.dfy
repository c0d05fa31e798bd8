/** Option and Result, the largest safe integer, and facts about sequences. */
module Wrappers {

  datatype Option<+T> = None | Some(value: T)

  datatype Result<+T, +E> = Ok(value: T) | Err(error: E)

  /** Number.MAX_SAFE_INTEGER. */
  const MAX_SAFE_INTEGER: int := 9007199254740991

  function Max(a: int, b: int): int {
    if a < b then b else a
  }

  /** The elements behind the first `n`. */
  function Behind<T>(s: seq<T>, n: nat): seq<T>
    requires n <= |s|
  {
    if n == 0 then s else s[n..]
  }

  /** The sequence less its element `k`, as splice(k, 1) leaves it. */
  function Removed<T>(s: seq<T>, k: nat): seq<T>
    requires k < |s|
  {
    seq(|s| - 1, j requires 0 <= j < |s| - 1 => if j < k then s[j] else s[j + 1])
  }

  lemma Associative<T>(a: seq<T>, b: seq<T>, c: seq<T>)
    ensures (a + b) + c == a + (b + c)
  {
  }

  lemma FirstIsListed<T>(s: seq<T>)
    ensures s == [] || s[0] in s
  {
  }
}
