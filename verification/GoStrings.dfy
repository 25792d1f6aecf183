/**
 The few operations of Go's `strings` package that the image-reference, version
 and header parsers use. Strings are sequences of characters; every separator
 searched for is a single ASCII character, so this agrees with Go's byte strings.
 */
module GoStrings {

  datatype Option<+T> = None | Some(value: T)

  /** strings.Index for a one-character separator: the first position, or -1. */
  function Index(s: string, c: char): (i: int)
    ensures -1 <= i < |s|
    ensures i < 0 ==> c !in s
    ensures i >= 0 ==> s[i] == c && forall k | 0 <= k < i :: s[k] != c
  {
    if s == [] then -1
    else if s[0] == c then 0
    else
      var r := Index(s[1..], c);
      if r < 0 then -1 else r + 1
  }

  /** strings.LastIndex for a one-character separator: the last position, or -1. */
  function LastIndex(s: string, c: char): (i: int)
    ensures -1 <= i < |s|
    ensures i < 0 ==> c !in s
    ensures i >= 0 ==> s[i] == c && forall k | i < k < |s| :: s[k] != c
  {
    if s == [] then -1
    else
      var r := LastIndex(s[1..], c);
      if r >= 0 then r + 1 else if s[0] == c then 0 else -1
  }

  /** What comes before the first `c`, or all of `s`. */
  function Before(s: string, c: char): (r: string)
    ensures c !in r
    ensures c !in s ==> r == s
  {
    var i := Index(s, c);
    if i < 0 then s else s[..i]
  }

  /** What comes after the first `c`, or nothing. */
  function After(s: string, c: char): string {
    var i := Index(s, c);
    if i < 0 then "" else s[i + 1..]
  }

  /** Cutting at a separator that is there loses nothing. */
  lemma Joined(s: string, c: char)
    requires c in s
    ensures s == Before(s, c) + [c] + After(s, c)
  {
  }

  /** `a + [c] + b` with `c` absent from `a` splits at that `c`. */
  lemma CutAt(a: string, c: char, b: string)
    requires c !in a
    ensures Index(a + [c] + b, c) == |a|
    ensures Before(a + [c] + b, c) == a
    ensures After(a + [c] + b, c) == b
  {
    var s := a + [c] + b;
    assert s[|a|] == c && forall k | 0 <= k < |a| :: s[k] == a[k];
    assert s[..|a|] == a;
    assert s[|a| + 1..] == b;
  }

  /** `a + [c] + b` with `c` absent from `b` has its last `c` there. */
  lemma {:induction false} LastIndexAt(a: string, c: char, b: string)
    requires c !in b
    ensures LastIndex(a + [c] + b, c) == |a|
  {
    var s := a + [c] + b;
    if a == [] {
      assert s[1..] == b;
    } else {
      LastIndexAt(a[1..], c, b);
      assert s[1..] == a[1..] + [c] + b;
    }
  }

  /** Appending text without `c` does not move the last `c`. */
  lemma LastIndexAppend(a: string, c: char, b: string)
    requires c !in b
    ensures LastIndex(a + b, c) == LastIndex(a, c)
  {
    var i := LastIndex(a, c);
    assert forall k | 0 <= k < |a + b| :: (a + b)[k] == if k < |a| then a[k] else b[k - |a|];
    assert i >= 0 ==> (a + b)[i] == c;
  }
}
