/** Character and string helpers that mirror the Python string operations the gateway uses. */
module Text {

  /**
   * Python's `str.lower()` restricted to what matters for comparing against
   * ASCII words: ASCII capitals map to ASCII lower case, and KELVIN SIGN
   * (U+212A) maps to 'k', the only non-ASCII character whose lower case is
   * a single ASCII character. Every other character is left as it is.
   */
  function LowerChar(c: char): (r: char)
    ensures r == '.' <==> c == '.'
    ensures r == '/' <==> c == '/'
    ensures 'A' <= c <= 'Z' ==> r != c && 'a' <= r <= 'z'
  {
    if 'A' <= c <= 'Z' then (c as int + 32) as char
    else if c == '\U{212A}' then 'k'
    else c
  }

  /** `s.lower()`: lower-cases every character in place, keeping the length. */
  function Lower(s: string): (r: string)
    ensures |r| == |s|
    ensures forall i :: 0 <= i < |s| ==> r[i] == LowerChar(s[i])
  {
    seq(|s|, i requires 0 <= i < |s| => LowerChar(s[i]))
  }

  /**
   * Index of the last occurrence of `c` in `s`, or -1 when `c` does not
   * occur (the position `str.rfind` reports).
   */
  function LastIndexOf(s: string, c: char): (r: int)
    ensures -1 <= r < |s|
    ensures r == -1 <==> c !in s
    ensures r >= 0 ==> s[r] == c
    ensures forall k :: r < k < |s| ==> s[k] != c
  {
    if |s| == 0 then -1
    else if s[|s| - 1] == c then |s| - 1
    else LastIndexOf(s[..|s| - 1], c)
  }

  /** Any position that holds `c` and has no `c` after it is the last index. */
  lemma LastIndexUnique(s: string, c: char, r: int)
    requires 0 <= r < |s| && s[r] == c
    requires forall k :: r < k < |s| ==> s[k] != c
    ensures LastIndexOf(s, c) == r
  {
  }

  /** When `c` occurs in the tail, its last index is found in the tail. */
  lemma {:induction false} LastIndexInTail(a: string, b: string, c: char)
    requires c in b
    ensures LastIndexOf(a + b, c) == |a| + LastIndexOf(b, c)
  {
    var s := a + b;
    if b[|b| - 1] != c {
      var b' := b[..|b| - 1];
      assert s[..|s| - 1] == a + b';
      LastIndexInTail(a, b', c);
    }
  }

  /** When `c` does not occur in the tail, the last index is the head's. */
  lemma LastIndexNotInTail(a: string, b: string, c: char)
    requires c !in b
    ensures LastIndexOf(a + b, c) == LastIndexOf(a, c)
  {
    var j := LastIndexOf(a, c);
    if j >= 0 {
      assert (a + b)[j] == a[j];
      forall k | j < k < |a + b| ensures (a + b)[k] != c {
        if k < |a| { assert (a + b)[k] == a[k]; } else { assert (a + b)[k] == b[k - |a|]; }
      }
      LastIndexUnique(a + b, c, j);
    } else {
      assert forall k :: 0 <= k < |a + b| ==> (a + b)[k] != c by {
        forall k | 0 <= k < |a + b| ensures (a + b)[k] != c {
          if k < |a| { assert (a + b)[k] == a[k]; } else { assert (a + b)[k] == b[k - |a|]; }
        }
      }
    }
  }

  /** Lower-casing keeps every '.' where it was, so the last '.' does not move. */
  lemma LowerKeepsLastDot(s: string)
    ensures LastIndexOf(Lower(s), '.') == LastIndexOf(s, '.')
    ensures ('.' in Lower(s)) <==> ('.' in s)
  {
    var j := LastIndexOf(s, '.');
    if j >= 0 {
      LastIndexUnique(Lower(s), '.', j);
    } else {
      assert forall k :: 0 <= k < |s| ==> Lower(s)[k] != '.';
    }
  }

  /** Concatenation of a sequence of lists, in order (what repeated `list.extend` builds). */
  function Flatten<T>(groups: seq<seq<T>>): (r: seq<T>)
  {
    if groups == [] then [] else Flatten(groups[..|groups| - 1]) + groups[|groups| - 1]
  }

  /** An element is in the flattened list exactly when it is in one of the groups. */
  lemma {:induction false} FlattenMembership<T>(groups: seq<seq<T>>, x: T)
    ensures x in Flatten(groups) <==> exists i :: 0 <= i < |groups| && x in groups[i]
  {
    if groups != [] {
      var init := groups[..|groups| - 1];
      FlattenMembership(init, x);
      assert forall i :: 0 <= i < |init| ==> init[i] == groups[i];
    }
  }
}
