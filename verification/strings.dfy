/** Text helpers standing in for the Python string operations the chat
    code relies on: `str.strip()`, `in` on strings, `str.upper()` and
    `+=` accumulation of streamed pieces.

    Whitespace and case are modelled on ASCII only: `IsSpace` accepts the
    characters Python's `str.isspace` accepts below U+0080, and `Upper`
    maps `a`..`z` only. */
module Strings {

  /** Python `str.isspace` on the ASCII range: space, `\t` `\n` `\v` `\f`
      `\r` and the separators U+001C..U+001F. */
  predicate IsSpace(c: char) {
    c == ' ' || ('\t' <= c <= '\r') || ('\U{1C}' <= c <= '\U{1F}')
  }

  /** `not s.strip()`: the string holds nothing but whitespace. */
  predicate IsBlank(s: string) {
    forall i | 0 <= i < |s| :: IsSpace(s[i])
  }

  /** Number of whitespace characters at the front of `s`. */
  function LeadingSpaces(s: string): (n: nat)
    ensures n <= |s|
    ensures forall i | 0 <= i < n :: IsSpace(s[i])
    ensures n < |s| ==> !IsSpace(s[n])
    decreases |s|
  {
    if |s| > 0 && IsSpace(s[0]) then 1 + LeadingSpaces(s[1..]) else 0
  }

  /** Number of whitespace characters at the back of `s`. */
  function TrailingSpaces(s: string): (n: nat)
    ensures n <= |s|
    ensures forall i | |s| - n <= i < |s| :: IsSpace(s[i])
    ensures n < |s| ==> !IsSpace(s[|s| - 1 - n])
    decreases |s|
  {
    if |s| > 0 && IsSpace(s[|s| - 1]) then 1 + TrailingSpaces(s[..|s| - 1]) else 0
  }

  /** Python `s.strip()`: the longest infix of `s` that neither starts nor
      ends with whitespace, empty when `s` is blank. */
  function Strip(s: string): (r: string)
    ensures LeadingSpaces(s) + |r| <= |s|
    ensures r == s[LeadingSpaces(s)..LeadingSpaces(s) + |r|]
    ensures r == [] <==> IsBlank(s)
    ensures r != [] ==> !IsSpace(r[0]) && !IsSpace(r[|r| - 1])
    ensures forall i | LeadingSpaces(s) + |r| <= i < |s| :: IsSpace(s[i])
  {
    var lead := LeadingSpaces(s);
    var rest := s[lead..];
    var n := TrailingSpaces(rest);
    assert forall i | lead + |rest| - n <= i < |s| :: s[i] == rest[i - lead];
    assert rest[..|rest| - n] == s[lead..lead + |rest| - n];
    rest[..|rest| - n]
  }

  /** Stripping twice is stripping once. */
  lemma StripIdempotent(s: string)
    ensures Strip(Strip(s)) == Strip(s)
  {
    var r := Strip(s);
    if r != [] {
      assert LeadingSpaces(r) == 0;
      assert TrailingSpaces(r) == 0;
    }
  }

  /** Python `part in s`. */
  predicate Contains(s: string, part: string) {
    exists i | 0 <= i <= |s| - |part| :: part <= s[i..]
  }

  /** `s` ends with `suffix`. */
  predicate EndsWith(s: string, suffix: string) {
    |suffix| <= |s| && s[|s| - |suffix|..] == suffix
  }

  /** A string contains every string written inside it. */
  lemma ContainsInfix(prefix: string, part: string, suffix: string)
    ensures Contains(prefix + part + suffix, part)
  {
    var s := prefix + part + suffix;
    assert part <= s[|prefix|..];
  }

  function UpperChar(c: char): (u: char)
    ensures 'a' <= c <= 'z' ==> 'A' <= u <= 'Z' && u as int == c as int - 32
    ensures !('a' <= c <= 'z') ==> u == c
  {
    if 'a' <= c <= 'z' then (c as int - 32) as char else c
  }

  /** Python `s.upper()` on ASCII letters. */
  function Upper(s: string): (r: string)
    ensures |r| == |s|
    ensures forall i | 0 <= i < |s| :: r[i] == UpperChar(s[i])
  {
    seq(|s|, i requires 0 <= i < |s| => UpperChar(s[i]))
  }

  /** The text accumulated by `acc += piece` over `pieces`, in order. */
  function Concat(pieces: seq<string>): string
  {
    if pieces == [] then "" else Concat(pieces[..|pieces| - 1]) + pieces[|pieces| - 1]
  }

  /** Accumulating a piece in front of the rest. */
  lemma {:induction false} ConcatCons(piece: string, rest: seq<string>)
    ensures Concat([piece] + rest) == piece + Concat(rest)
    decreases |rest|
  {
    if rest == [] {
      assert [piece] + rest == [piece];
      assert [piece][..0] == [];
    } else {
      var front := rest[..|rest| - 1];
      assert ([piece] + rest)[..|rest|] == [piece] + front;
      ConcatCons(piece, front);
    }
  }

  /** Each accumulated text is a prefix of every later one. */
  lemma {:induction false} ConcatPrefix(pieces: seq<string>, j: nat, k: nat)
    requires j <= k <= |pieces|
    ensures Concat(pieces[..j]) <= Concat(pieces[..k])
    decreases k - j
  {
    if j < k {
      ConcatPrefix(pieces, j, k - 1);
      assert pieces[..k][..k - 1] == pieces[..k - 1];
    }
  }

  /** Joining at least one non-empty piece gives a non-empty string. */
  lemma ConcatNonEmpty(pieces: seq<string>)
    requires pieces != [] && pieces[0] != ""
    ensures Concat(pieces) != ""
  {
    ConcatEmpty(pieces);
  }

  /** The accumulated text is empty exactly when every piece is. */
  lemma {:induction false} ConcatEmpty(pieces: seq<string>)
    ensures Concat(pieces) == "" <==> forall i | 0 <= i < |pieces| :: pieces[i] == ""
    decreases |pieces|
  {
    if pieces != [] {
      var front := pieces[..|pieces| - 1];
      ConcatEmpty(front);
      assert forall i | 0 <= i < |front| :: front[i] == pieces[i];
    }
  }
}
