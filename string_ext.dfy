/**
 * The `String` extension of LightSwordX/Lib/String.swift, plus the two
 * string queries the proxy's routing relies on. A Swift `String` is modelled
 * as a sequence of characters.
 */
module StringExt {
  import opened Wrappers

  /** `s` written `n` times in a row. */
  function Repeat(n: nat, s: string): string
  {
    if n == 0 then "" else Repeat(n - 1, s) + s
  }

  /**
   * `String(count:byRepeatingString:)`. A negative `count` traps in
   * `0 ..< count`, hence the precondition. The initializer is failable in
   * its signature but always delegates to `init(newString)`, so it never
   * yields nil.
   */
  method InitRepeating(count: int, str: string) returns (r: Option<string>)
    requires count >= 0
    ensures r == Some(Repeat(count, str))
  {
    var newString := "";
    for i := 0 to count
      invariant newString == Repeat(i, str)
    {
      newString := newString + str;
    }
    r := Some(newString);
  }

  lemma {:induction false} RepeatLength(n: nat, s: string)
    ensures |Repeat(n, s)| == n * |s|
  {
    if n > 0 {
      RepeatLength(n - 1, s);
    }
  }

  /** Character `j` of copy `k` is character `j` of `s`. */
  lemma {:induction false} RepeatAt(n: nat, s: string, k: nat, j: nat)
    requires k < n && j < |s|
    ensures k * |s| + j < |Repeat(n, s)|
    ensures Repeat(n, s)[k * |s| + j] == s[j]
  {
    RepeatLength(n - 1, s);
    if k < n - 1 {
      RepeatAt(n - 1, s, k, j);
    } else {
      assert k * |s| == (n - 1) * |s|;
    }
  }

  /** Repetition distributes over addition of counts. */
  lemma {:induction false} RepeatAdd(m: nat, n: nat, s: string)
    ensures Repeat(m + n, s) == Repeat(m, s) + Repeat(n, s)
  {
    if n > 0 {
      RepeatAdd(m, n - 1, s);
    }
  }

  /** Repeating the empty string gives the empty string, whatever the count. */
  lemma {:induction false} RepeatEmpty(n: nat)
    ensures Repeat(n, "") == ""
  {
    if n > 0 {
      RepeatEmpty(n - 1);
    }
  }

  /** The `length` getter: the number of characters. */
  function Length(s: string): nat
  {
    |s|
  }

  /** The length of a repeated string is the count times the length of one copy. */
  lemma LengthOfRepeat(n: nat, s: string)
    ensures Length(Repeat(n, s)) == n * Length(s)
  {
    RepeatLength(n, s);
  }

  /**
   * Foundation's `containsString`: `sub` occurs somewhere in `s`. An empty
   * `sub` is never reported as contained.
   */
  predicate ContainsString(s: string, sub: string)
  {
    sub != "" && exists i :: 0 <= i <= |s| && OccursAt(s, sub, i)
  }

  /** `sub` occurs in `s` starting at index `i`. */
  predicate OccursAt(s: string, sub: string, i: int)
  {
    0 <= i <= |s| - |sub| && s[i..i + |sub|] == sub
  }

  /** `endsWith`: `suffix` is a suffix of `s`. */
  predicate EndsWith(s: string, suffix: string)
  {
    |suffix| <= |s| && s[|s| - |suffix|..] == suffix
  }
}
