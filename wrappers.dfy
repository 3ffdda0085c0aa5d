// Shared by the modules of this model: failure wrappers, `Min`, slicing and `memcpy`.
module Wrappers {

  datatype Option<+T> = None | Some(value: T)

  datatype Result<+T, +E> = Success(value: T) | Failure(error: E)

  function Min(a: int, b: int): int { if a < b then a else b }

  /** Two adjacent slices make up the slice that spans both. */
  lemma SliceSplit<T>(s: seq<T>, a: nat, m: nat, e: nat)
    requires a <= m <= e <= |s|
    ensures s[a..e] == s[a..m] + s[m..e]
  {
  }

  /** `memcpy(dst + at, src, |src|)`. */
  method MemCopy(dst: array<bv8>, at: nat, src: seq<bv8>)
    requires at + |src| <= dst.Length
    modifies dst
    ensures dst[..] == old(dst[..])[..at] + src + old(dst[..])[at + |src|..]
  {
    forall k | 0 <= k < |src| {
      dst[at + k] := src[k];
    }
  }
}
