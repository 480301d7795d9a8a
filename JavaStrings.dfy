/** The few java.lang.String and StringUtils operations the activation-key
    factory applies to key strings and notes, over Dafny's `seq<char>`. */
module JavaStrings {
  import opened Wrappers

  /** `String.trim()` strips every leading and trailing character whose code is
      at most U+0020 (the space and all ASCII control characters). */
  predicate IsTrimmable(c: char) {
    c <= ' '
  }

  /** `Character.isWhitespace`: the ASCII separators and controls it accepts,
      and the Unicode space, line and paragraph separators other than the
      non-breaking spaces U+00A0, U+2007 and U+202F. */
  predicate IsWhitespace(c: char) {
    || ('\t' <= c <= '\r')
    || ('\U{1C}' <= c <= ' ')
    || c == '\U{1680}'
    || ('\U{2000}' <= c <= '\U{2006}')
    || ('\U{2008}' <= c <= '\U{200A}')
    || c == '\U{2028}' || c == '\U{2029}' || c == '\U{205F}' || c == '\U{3000}'
  }

  /** `StringUtils.isBlank`: null, empty, or whitespace only. */
  predicate IsBlank(s: Option<string>) {
    s.None? || forall i :: 0 <= i < |s.value| ==> IsWhitespace(s.value[i])
  }

  /** The number of leading trimmable characters of `s`: the index of its
      first kept character, or `|s|` when there is none. */
  function LeadingTrimmable(s: string): (n: nat)
    ensures n <= |s|
    ensures forall k :: 0 <= k < n ==> IsTrimmable(s[k])
    ensures n == |s| || !IsTrimmable(s[n])
  {
    if s != [] && IsTrimmable(s[0]) then 1 + LeadingTrimmable(s[1..]) else 0
  }

  /** The end of `s` once its trailing trimmable characters are dropped: one
      past its last kept character, or 0 when there is none. */
  function KeptEnd(s: string): (n: nat)
    ensures n <= |s|
    ensures forall k :: n <= k < |s| ==> IsTrimmable(s[k])
    ensures n == 0 || !IsTrimmable(s[n - 1])
  {
    if s != [] && IsTrimmable(s[|s| - 1]) then KeptEnd(s[..|s| - 1]) else |s|
  }

  /** `String.trim()`: the slice between the first and the last kept
      character, or empty when every character is trimmable. */
  function Trim(s: string): (r: string)
    ensures r == [] || (!IsTrimmable(r[0]) && !IsTrimmable(r[|r| - 1]))
    ensures r == [] <==> forall k :: 0 <= k < |s| ==> IsTrimmable(s[k])
    ensures r != [] ==> r == s[LeadingTrimmable(s)..KeptEnd(s)]
  {
    var start, end := LeadingTrimmable(s), KeptEnd(s);
    if start < end then s[start..end] else []
  }

  /** `s.replace(c, "")` for a one-character target: `s` with every `c` taken
      out and every other character kept as often as it occurs. */
  function RemoveAll(s: string, c: char): (r: string)
    ensures c !in r
    ensures forall x :: x != c ==> multiset(r)[x] == multiset(s)[x]
    ensures c !in s ==> r == s
  {
    if s == [] then []
    else
      assert s == [s[0]] + s[1..];
      (if s[0] == c then [] else [s[0]]) + RemoveAll(s[1..], c)
  }

  /** Removing a character distributes over concatenation, so the kept
      characters stay in their order. */
  lemma {:induction false} RemoveAllAppend(s: string, t: string, c: char)
    ensures RemoveAll(s + t, c) == RemoveAll(s, c) + RemoveAll(t, c)
  {
    if s == [] {
      assert s + t == t;
    } else {
      assert (s + t)[0] == s[0];
      assert (s + t)[1..] == s[1..] + t;
      RemoveAllAppend(s[1..], t, c);
    }
  }

  /** Removing a character that `s` does not end with keeps the last
      character of `s` last. */
  lemma {:induction false} RemoveAllKeepsLast(s: string, c: char)
    requires s != [] && s[|s| - 1] != c
    ensures RemoveAll(s, c) != [] && RemoveAll(s, c)[|RemoveAll(s, c)| - 1] == s[|s| - 1]
  {
    if |s| > 1 {
      RemoveAllKeepsLast(s[1..], c);
    }
  }
}
