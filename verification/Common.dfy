/** Small value types shared by the models. */
module Common {

  datatype Option<+T> = None | Some(value: T)

  function Max(a: int, b: int): int {
    if a < b then b else a
  }

  function Min(a: int, b: int): int {
    if a < b then a else b
  }

  /** The last `n` elements of `s`, or all of them: JavaScript's `s.slice(-n)` for a positive `n`. */
  function Last<T>(n: nat, s: seq<T>): (r: seq<T>)
    ensures |r| == Min(n, |s|)
  {
    if |s| <= n then s else s[|s| - n..]
  }

  /** Keeping a bounded tail commutes with appending: trimming early never changes the final tail. */
  lemma LastAppend<T>(n: nat, a: seq<T>, b: seq<T>)
    ensures Last(n, Last(n, a) + b) == Last(n, a + b)
  {
  }

  lemma PrefixStep<T>(s: seq<T>, k: nat)
    requires k < |s|
    ensures s[..k + 1] == s[..k] + [s[k]]
  {
  }

  lemma SliceStep<T>(s: seq<T>, from: nat, k: nat)
    requires from <= k < |s|
    ensures s[from..k + 1] == s[from..k] + [s[k]]
  {
  }

  lemma SliceJoin<T>(s: seq<T>, k: nat, to: nat)
    requires k <= to <= |s|
    ensures s[..k] + s[k..to] == s[..to]
  {
  }

  lemma PrefixOfPrefix<T>(s: seq<T>, k: nat, j: nat)
    requires j <= k <= |s|
    ensures s[..k][..j] == s[..j]
  {
  }

  lemma PrefixOfAppend<T>(s: seq<T>, t: seq<T>, j: nat)
    requires j <= |s|
    ensures (s + t)[..j] == s[..j]
  {
  }

  lemma SubsetSize<T>(a: set<T>, b: set<T>)
    requires a <= b
    ensures |a| <= |b|
  {
    assert b == a + (b - a);
  }
}
