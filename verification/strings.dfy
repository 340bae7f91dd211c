/**
 * The parts of Python's `str` that the Cypher cleaner relies on, restricted to
 * ASCII: whitespace (`str.strip()` and the regex class `\s`), case folding
 * (`re.IGNORECASE`, `str.lower()`, `str.upper()`), `str.rstrip(chars)`,
 * `str.split(sep)` and `sep.join(parts)`.
 */
module Strings {

  /**
   * The ASCII characters Python counts as whitespace (`str.isspace`, which
   * both `str.strip()` and `\s` follow): space, tab, line feed, vertical
   * tab, form feed, carriage return, and the four separators U+001C to U+001F.
   */
  predicate IsSpace(c: char) {
    c == ' ' || '\t' <= c <= '\r' || '\U{1C}' <= c <= '\U{1F}'
  }

  predicate IsDigit(c: char) {
    '0' <= c <= '9'
  }

  predicate IsLetter(c: char) {
    'a' <= c <= 'z' || 'A' <= c <= 'Z'
  }

  /** The regex word class `\w`: letters, digits and the underscore. */
  predicate IsWordChar(c: char) {
    IsLetter(c) || IsDigit(c) || c == '_'
  }

  function Lower(c: char): char {
    if 'A' <= c <= 'Z' then (c as int + 32) as char else c
  }

  function Upper(c: char): char {
    if 'a' <= c <= 'z' then (c as int - 32) as char else c
  }

  function LowerStr(s: string): string {
    seq(|s|, i requires 0 <= i < |s| => Lower(s[i]))
  }

  function UpperStr(s: string): string {
    seq(|s|, i requires 0 <= i < |s| => Upper(s[i]))
  }

  /** `s` begins with `prefix`, ignoring ASCII case. */
  predicate StartsWithCI(s: string, prefix: string) {
    LowerStr(prefix) <= LowerStr(s)
  }

  /** `needle` occurs in `haystack` starting at index `i`. */
  predicate OccursAt(haystack: string, needle: string, i: int) {
    0 <= i <= |haystack| - |needle| && haystack[i..i + |needle|] == needle
  }

  /** Python's `needle in haystack`. */
  predicate Contains(haystack: string, needle: string) {
    exists i :: 0 <= i <= |haystack| && OccursAt(haystack, needle, i)
  }

  /** The length of the run of whitespace that opens `s`. */
  function LeadingSpaces(s: string): (n: nat)
    ensures n <= |s|
    ensures forall i :: 0 <= i < n ==> IsSpace(s[i])
    ensures n == |s| || !IsSpace(s[n])
  {
    if s != [] && IsSpace(s[0]) then 1 + LeadingSpaces(s[1..]) else 0
  }

  /** The length of `s` without the run of whitespace that closes it. */
  function KeptLength(s: string): (n: nat)
    ensures n <= |s|
    ensures forall i :: n <= i < |s| ==> IsSpace(s[i])
    ensures n == 0 || !IsSpace(s[n - 1])
  {
    if s != [] && IsSpace(s[|s| - 1]) then KeptLength(s[..|s| - 1]) else |s|
  }

  /** `str.lstrip()`. */
  function TrimStart(s: string): string {
    s[LeadingSpaces(s)..]
  }

  /** `str.rstrip()`. */
  function TrimEnd(s: string): string {
    s[..KeptLength(s)]
  }

  /** `str.strip()`. */
  function Strip(s: string): string {
    TrimEnd(TrimStart(s))
  }

  /** `str.rstrip(c)` for a one-character argument: the prefix left after the longest run of trailing `c`. */
  function RStripChar(s: string, c: char): (r: string)
    ensures r <= s
    ensures forall i :: |r| <= i < |s| ==> s[i] == c
    ensures r == [] || r[|r| - 1] != c
  {
    if s != [] && s[|s| - 1] == c then RStripChar(s[..|s| - 1], c) else s
  }

  /**
   * `s.split(sep)`: the pieces between separators, always at least one
   * (`"".split("\n") == [""]`), none containing the separator.
   */
  function Split(s: string, sep: char): (parts: seq<string>)
    ensures |parts| >= 1
    ensures forall k :: 0 <= k < |parts| ==> sep !in parts[k]
  {
    if s == [] then [[]]
    else
      var rest := Split(s[1..], sep);
      if s[0] == sep then [[]] + rest
      else [[s[0]] + rest[0]] + rest[1..]
  }

  /** `sep.join(parts)`. */
  function Join(parts: seq<string>, sep: char): string {
    if |parts| == 0 then []
    else if |parts| == 1 then parts[0]
    else parts[0] + [sep] + Join(parts[1..], sep)
  }

  /** Joining the pieces of a split gives back the original text. */
  lemma {:induction false} JoinSplit(s: string, sep: char)
    ensures Join(Split(s, sep), sep) == s
  {
    if s != [] {
      var rest := Split(s[1..], sep);
      JoinSplit(s[1..], sep);
      if s[0] == sep {
        assert s == [sep] + s[1..];
      } else if |rest| == 1 {
        assert s == [s[0]] + s[1..];
      } else {
        assert Join(rest, sep) == rest[0] + [sep] + Join(rest[1..], sep);
        assert s == [s[0]] + s[1..];
      }
    }
  }

  /** Splitting a join of separator-free pieces gives back the pieces. */
  lemma {:induction false} SplitJoin(parts: seq<string>, sep: char)
    requires |parts| >= 1
    requires forall k :: 0 <= k < |parts| ==> sep !in parts[k]
    ensures Split(Join(parts, sep), sep) == parts
  {
    if |parts| == 1 {
      SplitNoSeparator(parts[0], sep);
    } else {
      SplitJoin(parts[1..], sep);
      SplitFirstPiece(parts[0], Join(parts[1..], sep), sep);
      assert [parts[0]] + parts[1..] == parts;
    }
  }

  lemma {:induction false} SplitNoSeparator(s: string, sep: char)
    requires sep !in s
    ensures Split(s, sep) == [s]
  {
    if s != [] {
      SplitNoSeparator(s[1..], sep);
      assert [s[0]] + s[1..] == s;
    }
  }

  lemma {:induction false} SplitFirstPiece(a: string, rest: string, sep: char)
    requires sep !in a
    ensures Split(a + [sep] + rest, sep) == [a] + Split(rest, sep)
  {
    if a == [] {
      assert a + [sep] + rest == [sep] + rest;
      assert ([sep] + rest)[1..] == rest;
    } else {
      var t := a + [sep] + rest;
      assert t[0] == a[0] && t[1..] == a[1..] + [sep] + rest;
      SplitFirstPiece(a[1..], rest, sep);
      assert [a[0]] + a[1..] == a;
    }
  }

  /** Case-insensitive prefix matching, character by character. */
  lemma StartsWithCIChars(s: string, prefix: string)
    ensures StartsWithCI(s, prefix) <==>
      |prefix| <= |s| && forall i :: 0 <= i < |prefix| ==> Lower(s[i]) == Lower(prefix[i])
  {
    if |prefix| <= |s| && forall i :: 0 <= i < |prefix| ==> Lower(s[i]) == Lower(prefix[i]) {
      assert LowerStr(prefix) == LowerStr(s)[..|prefix|];
    }
    if StartsWithCI(s, prefix) {
      forall i | 0 <= i < |prefix| ensures Lower(s[i]) == Lower(prefix[i]) {
        assert LowerStr(prefix)[i] == LowerStr(s)[i];
      }
    }
  }

  /** The whitespace run that opens a string is determined by its first non-blank character. */
  lemma LeadingSpacesUnique(s: string, n: nat)
    requires n <= |s| && (forall i :: 0 <= i < n ==> IsSpace(s[i])) && (n == |s| || !IsSpace(s[n]))
    ensures LeadingSpaces(s) == n
  {
  }

  /** The whitespace run that closes a string is determined by its last non-blank character. */
  lemma KeptLengthUnique(s: string, n: nat)
    requires n <= |s| && (forall i :: n <= i < |s| ==> IsSpace(s[i])) && (n == 0 || !IsSpace(s[n - 1]))
    ensures KeptLength(s) == n
  {
  }

  /** Leading whitespace does not change what `str.lstrip()` leaves. */
  lemma TrimStartSpaces(ws: string, s: string)
    requires forall i :: 0 <= i < |ws| ==> IsSpace(ws[i])
    ensures TrimStart(ws + s) == TrimStart(s)
  {
    LeadingSpacesUnique(ws + s, |ws| + LeadingSpaces(s));
    assert (ws + s)[|ws| + LeadingSpaces(s)..] == s[LeadingSpaces(s)..];
  }

  /** Once a non-blank character has been reached, what follows is untouched by `str.lstrip()`. */
  lemma TrimStartAppend(a: string, b: string)
    requires TrimStart(a) != []
    ensures TrimStart(a + b) == TrimStart(a) + b
  {
    LeadingSpacesUnique(a + b, LeadingSpaces(a));
    assert (a + b)[LeadingSpaces(a)..] == a[LeadingSpaces(a)..] + b;
  }

  /** Trailing whitespace does not change what `str.rstrip()` leaves. */
  lemma TrimEndSpaces(s: string, ws: string)
    requires forall i :: 0 <= i < |ws| ==> IsSpace(ws[i])
    ensures TrimEnd(s + ws) == TrimEnd(s)
  {
    KeptLengthUnique(s + ws, KeptLength(s));
    assert (s + ws)[..KeptLength(s)] == s[..KeptLength(s)];
  }

  /** A text with a non-blank character at each end is left as it is by `str.strip()`. */
  lemma StripUnchanged(s: string)
    requires s != [] && !IsSpace(s[0]) && !IsSpace(s[|s| - 1])
    ensures Strip(s) == s
  {
    LeadingSpacesUnique(s, 0);
    KeptLengthUnique(s, |s|);
  }

  /** A character absent from every part, and other than the separator, is absent from the joined text. */
  /** A non-empty text that `str.strip()` leaves as it is has non-blank ends. */
  lemma StrippedEnds(s: string)
    requires Strip(s) == s && s != []
    ensures !IsSpace(s[0]) && !IsSpace(s[|s| - 1])
  {
    var x := TrimStart(s);
    assert s == x[..KeptLength(x)];
  }

  /**
   * `str.rstrip(c)` of a proper tail of `s` cut after a character other than
   * `c` is shorter than `str.rstrip(c)` of `s`.
   */
  lemma RStripTailShorter(s: string, m: nat, c: char)
    requires 0 < m <= |s| && s[m - 1] != c
    ensures |RStripChar(s[m..], c)| < |RStripChar(s, c)|
  {
    var whole := RStripChar(s, c);
    var tail := RStripChar(s[m..], c);
    assert |whole| >= m;
  }

  lemma {:induction false} JoinAvoids(parts: seq<string>, sep: char, c: char)
    requires c != sep && forall k :: 0 <= k < |parts| ==> c !in parts[k]
    ensures c !in Join(parts, sep)
  {
    if |parts| > 1 {
      JoinAvoids(parts[1..], sep, c);
    }
  }
}
