/** Optional values, for lookups that may find nothing. */
module Wrappers {
  datatype Option<T> = None | Some(value: T)

  /** The last `n` elements of `s` (all of `s` when it is shorter). */
  function KeepLast<T>(s: seq<T>, n: nat): (r: seq<T>)
    ensures |r| == if |s| > n then n else |s|
    ensures r == s[|s| - |r|..]
  {
    if |s| > n then s[|s| - n..] else s
  }
}
