/** The string operations the poller uses: `startswith`, `join`, and `*` on sequences. */
module Text {

  /** Python's `s.startswith(prefix)`. */
  predicate StartsWith(s: string, prefix: string)
  {
    |prefix| <= |s| && s[..|prefix|] == prefix
  }

  /** Python's `sep.join(parts)` for a one-character separator. */
  function Join(parts: seq<string>, sep: char): string
  {
    if |parts| == 0 then ""
    else if |parts| == 1 then parts[0]
    else parts[0] + [sep] + Join(parts[1..], sep)
  }

  /** The first position of `c` in `s`. */
  function IndexOf(s: string, c: char): (i: nat)
    requires c in s
    ensures i < |s| && s[i] == c
    ensures c !in s[..i]
  {
    if s[0] == c then 0
    else
      var j := IndexOf(s[1..], c);
      assert s[..j + 1] == [s[0]] + s[1..][..j];
      j + 1
  }

  /**
   * How the receiving side reads a comma-separated query value back into its
   * parts (Python's `s.split(sep)`).
   */
  function Split(s: string, sep: char): (r: seq<string>)
    ensures |r| > 0
    decreases |s|
  {
    if sep !in s then [s]
    else
      var i := IndexOf(s, sep);
      [s[..i]] + Split(s[i + 1..], sep)
  }

  /** When no part contains the separator, splitting the join gives the parts back. */
  lemma {:induction false} SplitJoin(parts: seq<string>, sep: char)
    requires |parts| > 0
    requires forall k :: 0 <= k < |parts| ==> sep !in parts[k]
    ensures Split(Join(parts, sep), sep) == parts
  {
    if |parts| > 1 {
      var head, rest := parts[0], Join(parts[1..], sep);
      var s := head + [sep] + rest;
      assert s[|head|] == sep;
      var i := IndexOf(s, sep);
      assert i == |head|;
      assert s[..i] == head;
      assert s[i + 1..] == rest;
      SplitJoin(parts[1..], sep);
      assert parts == [head] + parts[1..];
    }
  }

  /** Python's `s * n`: `n` copies of `s`, one after the other. */
  function Repeat<T>(s: seq<T>, n: nat): (r: seq<T>)
    ensures |r| == n * |s|
    ensures n > 0 ==> r[..|s|] == s
  {
    if n == 0 then [] else s + Repeat(s, n - 1)
  }

  /** Every one of the `n` blocks of `Repeat(s, n)` is a copy of `s`. */
  lemma {:induction false} RepeatContent<T>(s: seq<T>, n: nat, k: nat)
    requires k < n
    ensures k * |s| + |s| <= |Repeat(s, n)|
    ensures Repeat(s, n)[k * |s| .. k * |s| + |s|] == s
  {
    if k > 0 {
      RepeatContent(s, n - 1, k - 1);
      var rest := Repeat(s, n - 1);
      assert Repeat(s, n) == s + rest;
      assert k * |s| == |s| + (k - 1) * |s|;
      assert (s + rest)[k * |s| .. k * |s| + |s|] == rest[(k - 1) * |s| .. (k - 1) * |s| + |s|];
    }
  }
}
