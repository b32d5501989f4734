/**
 * String operations shared by the engine and the screens: the `normalize`
 * transform (lower-case, strip accents, everything else that is not a letter
 * or digit becomes a space), JavaScript's `includes`, `trim` and `split`,
 * the regular expression that strips command words from an instruction,
 * and the decimal conversions done by template literals and `parseInt`.
 */
module Text {
  import opened Wrappers

  // ---------------------------------------------------------------------
  // normalize
  // ---------------------------------------------------------------------

  /** A combining diacritical mark (U+0300..U+036F): normalize deletes it. */
  predicate IsMark(c: char) {
    '\U{0300}' <= c <= '\U{036F}'
  }

  predicate IsDigit(c: char) {
    '0' <= c <= '9'
  }

  predicate IsLowerAlnum(c: char) {
    'a' <= c <= 'z' || IsDigit(c)
  }

  /** The characters normalize can produce. */
  predicate IsNormalChar(c: char) {
    IsLowerAlnum(c) || c == ' '
  }

  predicate IsNormal(s: string) {
    forall i :: 0 <= i < |s| ==> IsNormalChar(s[i])
  }

  /**
   * The base letter of a Latin-1 letter whose canonical decomposition is an
   * ASCII letter followed by combining marks (upper and lower case alike,
   * since `toLowerCase` runs first).  Latin-1 letters without such a
   * decomposition (Æ, Ð, Ø, Þ, ß, æ, ð, ø, þ) have none.
   */
  function LatinBase(c: char): (r: Option<char>)
    ensures r.Some? ==> 'a' <= r.value <= 'z'
  {
    var n := c as int;
    if 0xC0 <= n <= 0xC5 || 0xE0 <= n <= 0xE5 then Some('a')
    else if n == 0xC7 || n == 0xE7 then Some('c')
    else if 0xC8 <= n <= 0xCB || 0xE8 <= n <= 0xEB then Some('e')
    else if 0xCC <= n <= 0xCF || 0xEC <= n <= 0xEF then Some('i')
    else if n == 0xD1 || n == 0xF1 then Some('n')
    else if 0xD2 <= n <= 0xD6 || 0xF2 <= n <= 0xF6 then Some('o')
    else if 0xD9 <= n <= 0xDC || 0xF9 <= n <= 0xFC then Some('u')
    else if n == 0xDD || n == 0xFD || n == 0xFF then Some('y')
    else None
  }

  /** What normalize turns one character (other than a mark) into. */
  function NormChar(c: char): (r: char)
    requires !IsMark(c)
    ensures IsNormalChar(r)
    ensures IsNormalChar(c) ==> r == c
    ensures 'A' <= c <= 'Z' ==> r as int == c as int + 32
  {
    if 'A' <= c <= 'Z' then (c as int + 32) as char
    else if IsLowerAlnum(c) then c
    else match LatinBase(c)
      case Some(b) => b
      case None => ' '
  }

  function NormPiece(c: char): string {
    if IsMark(c) then "" else [NormChar(c)]
  }

  /** `normalize` of core/workoutEngine.ts, character by character. */
  function Normalize(s: string): string
    decreases |s|
  {
    if s == [] then [] else NormPiece(s[0]) + Normalize(s[1..])
  }

  /** normalize only produces `a`-`z`, `0`-`9` and spaces, and never lengthens. */
  lemma {:induction false} NormalizeIsNormal(s: string)
    ensures IsNormal(Normalize(s))
    ensures |Normalize(s)| <= |s|
    decreases |s|
  {
    if s != [] {
      NormalizeIsNormal(s[1..]);
      var r := Normalize(s);
      assert r == NormPiece(s[0]) + Normalize(s[1..]);
      forall i | 0 <= i < |r| ensures IsNormalChar(r[i]) {
        if i < |NormPiece(s[0])| {
          assert r[i] == NormChar(s[0]);
        } else {
          assert r[i] == Normalize(s[1..])[i - |NormPiece(s[0])|];
        }
      }
    }
  }

  /** Strings made only of normalized characters are left as they are. */
  lemma {:induction false} NormalizeFixesNormal(s: string)
    requires IsNormal(s)
    ensures Normalize(s) == s
    decreases |s|
  {
    if s != [] {
      assert IsNormalChar(s[0]);
      assert IsNormal(s[1..]) by {
        forall i | 0 <= i < |s[1..]| ensures IsNormalChar(s[1..][i]) {
          assert s[1..][i] == s[i + 1];
        }
      }
      NormalizeFixesNormal(s[1..]);
      assert s == [s[0]] + s[1..];
    }
  }

  /** normalize is idempotent. */
  lemma NormalizeIdempotent(s: string)
    ensures Normalize(Normalize(s)) == Normalize(s)
  {
    NormalizeIsNormal(s);
    NormalizeFixesNormal(Normalize(s));
  }

  /** normalize works character by character, so it distributes over `+`. */
  lemma {:induction false} NormalizeConcat(a: string, b: string)
    ensures Normalize(a + b) == Normalize(a) + Normalize(b)
    decreases |a|
  {
    if a != [] {
      assert (a + b)[0] == a[0];
      assert (a + b)[1..] == a[1..] + b;
      NormalizeConcat(a[1..], b);
    } else {
      assert a + b == b;
    }
  }

  /** Without combining marks, normalize maps each character to one character. */
  lemma {:induction false} NormalizeUnmarked(s: string)
    requires forall i :: 0 <= i < |s| ==> !IsMark(s[i])
    ensures |Normalize(s)| == |s|
    ensures forall i :: 0 <= i < |s| ==> Normalize(s)[i] == NormChar(s[i])
    decreases |s|
  {
    if s != [] {
      assert !IsMark(s[0]);
      forall i | 0 <= i < |s[1..]| ensures !IsMark(s[1..][i]) {
        assert s[1..][i] == s[i + 1];
      }
      NormalizeUnmarked(s[1..]);
      forall i | 1 <= i < |s| ensures Normalize(s)[i] == NormChar(s[i]) {
        assert Normalize(s)[i] == Normalize(s[1..])[i - 1];
        assert s[1..][i - 1] == s[i];
      }
    }
  }

  /** The normalized form of a text without marks, given character by character. */
  lemma NormalizedAs(s: string, r: string)
    requires forall i :: 0 <= i < |s| ==> !IsMark(s[i])
    requires |r| == |s|
    requires forall i :: 0 <= i < |s| ==> NormChar(s[i]) == r[i]
    ensures Normalize(s) == r
  {
    NormalizeUnmarked(s);
  }

  /** Every character of a normalized string comes from a character of the input. */
  lemma {:induction false} NormalizeCharOrigin(s: string, c: char)
    requires c in Normalize(s)
    ensures exists k :: 0 <= k < |s| && !IsMark(s[k]) && NormChar(s[k]) == c
    decreases |s|
  {
    assert s != [];
    var rest := Normalize(s[1..]);
    assert Normalize(s) == NormPiece(s[0]) + rest;
    if c in NormPiece(s[0]) {
      assert !IsMark(s[0]) && NormChar(s[0]) == c;
    } else {
      assert c in rest;
      NormalizeCharOrigin(s[1..], c);
      var k :| 0 <= k < |s[1..]| && !IsMark(s[1..][k]) && NormChar(s[1..][k]) == c;
      assert s[k + 1] == s[1..][k];
    }
  }

  // ---------------------------------------------------------------------
  // includes / indexOf / split
  // ---------------------------------------------------------------------

  predicate IsPrefix(p: string, s: string) {
    |p| <= |s| && s[..|p|] == p
  }

  /** JavaScript's `s.includes(p)`. */
  predicate Contains(s: string, p: string)
    decreases |s|
  {
    IsPrefix(p, s) || (s != [] && Contains(s[1..], p))
  }

  /** An occurrence at any position makes `includes` true. */
  lemma {:induction false} ContainsSlice(s: string, p: string, i: nat)
    requires i + |p| <= |s| && s[i..i + |p|] == p
    ensures Contains(s, p)
    decreases i
  {
    if i == 0 {
      assert s[..|p|] == p;
    } else {
      assert s[1..][i - 1..i - 1 + |p|] == s[i..i + |p|];
      ContainsSlice(s[1..], p, i - 1);
    }
  }

  lemma ContainsInfix(a: string, p: string, b: string)
    ensures Contains(a + p + b, p)
  {
    var s := a + p + b;
    assert s[|a|..|a| + |p|] == p;
    ContainsSlice(s, p, |a|);
  }

  /** Every character of a contained string occurs in the container. */
  lemma {:induction false} ContainsHasChars(s: string, p: string)
    requires Contains(s, p)
    ensures forall k :: 0 <= k < |p| ==> p[k] in s
    decreases |s|
  {
    if IsPrefix(p, s) {
      forall k | 0 <= k < |p| ensures p[k] in s {
        assert s[k] == p[k];
      }
    } else {
      ContainsHasChars(s[1..], p);
      forall k | 0 <= k < |p| ensures p[k] in s {
        assert p[k] in s[1..];
        var j :| 0 <= j < |s[1..]| && s[1..][j] == p[k];
        assert s[j + 1] == p[k];
      }
    }
  }

  /** A string that lacks one of `p`'s characters does not include `p`. */
  lemma {:induction false} MissingCharNotContained(s: string, p: string, k: nat)
    requires k < |p| && p[k] !in s
    ensures !Contains(s, p)
    decreases |s|
  {
    if |p| <= |s| {
      assert s[..|p|][k] == s[k] && s[k] in s;
    }
    if s != [] {
      assert forall c :: c in s[1..] ==> c in s;
      MissingCharNotContained(s[1..], p, k);
    }
  }

  /** JavaScript's `s.indexOf(p)`, with `None` for -1. */
  function IndexOf(s: string, p: string): (r: Option<nat>)
    decreases |s|
    ensures r.Some? ==> r.value + |p| <= |s| && s[r.value..r.value + |p|] == p
    ensures r.Some? ==> forall j :: 0 <= j < r.value ==> !IsPrefix(p, s[j..])
    ensures r.Some? <==> Contains(s, p)
  {
    if IsPrefix(p, s) then Some(0)
    else if s == [] then None
    else match IndexOf(s[1..], p)
      case None => None
      case Some(i) =>
        IndexOfShift(s, p, i);
        Some(i + 1)
  }

  /** An occurrence found in `s[1..]` at `i`, and none at 0, is the first occurrence at `i + 1` in `s`. */
  lemma IndexOfShift(s: string, p: string, i: nat)
    requires s != [] && !IsPrefix(p, s)
    requires i + |p| <= |s| - 1 && s[1..][i..i + |p|] == p
    requires forall j :: 0 <= j < i ==> !IsPrefix(p, s[1..][j..])
    ensures s[i + 1..i + 1 + |p|] == p
    ensures forall j :: 0 <= j < i + 1 ==> !IsPrefix(p, s[j..])
  {
    assert s[i + 1..i + 1 + |p|] == s[1..][i..i + |p|];
    forall j | 0 <= j < i + 1 ensures !IsPrefix(p, s[j..]) {
      if j == 0 {
        assert s[0..] == s;
      } else {
        assert s[j..] == s[1..][j - 1..];
      }
    }
  }

  /** JavaScript's `s.split(sep)` for a non-empty separator string. */
  function Split(s: string, sep: string): (parts: seq<string>)
    requires sep != []
    ensures |parts| >= 1
    ensures |parts| >= 2 <==> Contains(s, sep)
    ensures forall k :: 0 <= k < |parts| ==> !Contains(parts[k], sep)
    decreases |s|
  {
    match IndexOf(s, sep)
    case None => [s]
    case Some(i) =>
      var head := s[..i];
      NoOccurrenceBefore(s, sep, i);
      [head] + Split(s[i + |sep|..], sep)
  }

  /** The text before the first `sep`, or all of `s` when there is none. */
  function UpToSeparator(s: string, sep: string): (r: string)
    requires sep != []
    ensures !Contains(r, sep)
    ensures r <= s
    ensures Contains(s, sep) ==> IndexOf(s, sep) == Some(|r|)
    ensures !Contains(s, sep) ==> r == s
  {
    match IndexOf(s, sep)
    case None => s
    case Some(i) =>
      NoOccurrenceBefore(s, sep, i);
      s[..i]
  }

  /** The first part of a split is the text up to the first separator. */
  lemma SplitHead(s: string, sep: string)
    requires sep != []
    ensures Split(s, sep)[0] == UpToSeparator(s, sep)
  {
  }

  /** A one-character separator that does not occur leaves the string whole. */
  lemma SplitWithoutChar(s: string, c: char)
    requires c !in s
    ensures Split(s, [c]) == [s]
  {
    WithoutCharNotContained(s, c);
  }

  lemma {:induction false} WithoutCharNotContained(s: string, c: char)
    requires c !in s
    ensures !Contains(s, [c])
    decreases |s|
  {
    if s != [] {
      assert s[0] != c && s[..1] == [s[0]];
      WithoutCharNotContained(s[1..], c);
    }
  }

  /** The first occurrence of a character is found after a prefix free of it. */
  lemma {:induction false} IndexOfChar(a: string, c: char, b: string)
    requires c !in a
    ensures IndexOf(a + [c] + b, [c]) == Some(|a|)
    decreases |a|
  {
    var s := a + [c] + b;
    if a == [] {
      assert s[..1] == [c];
    } else {
      assert s[0] == a[0] && s[..1] == [a[0]];
      assert s[1..] == a[1..] + [c] + b;
      IndexOfChar(a[1..], c, b);
    }
  }

  /** Splitting `a + c + b` at `c`, where neither side holds `c`, gives the two sides. */
  lemma SplitAtChar(a: string, c: char, b: string)
    requires c !in a && c !in b
    ensures Split(a + [c] + b, [c]) == [a, b]
  {
    var s := a + [c] + b;
    IndexOfChar(a, c, b);
    assert s[..|a|] == a;
    assert s[|a| + 1..] == b;
    SplitWithoutChar(b, c);
  }

  /** A string with no occurrence of `p` at positions below `i` has none in `s[..i]`. */
  /** A string none of whose positions starts with `p`'s first two characters does not include `p`. */
  lemma {:induction false} NoOccurrence(s: string, p: string)
    requires |p| >= 2
    requires forall i :: 0 <= i && i + |p| <= |s| ==> s[i] != p[0] || s[i + 1] != p[1]
    ensures !Contains(s, p)
    decreases |s|
  {
    if s != [] {
      if |p| <= |s| {
        assert s[..|p|][0] == s[0] && s[..|p|][1] == s[1];
      }
      forall i | 0 <= i && i + |p| <= |s[1..]| ensures s[1..][i] != p[0] || s[1..][i + 1] != p[1] {
        assert s[1..][i] == s[i + 1] && s[1..][i + 1] == s[i + 2];
      }
      NoOccurrence(s[1..], p);
    }
  }

  /**
   * `(a + sep + b).indexOf(sep)` is the length of `a` when the separator
   * does not start inside `a`.
   */
  lemma FirstOccurrenceAt(a: string, sep: string, b: string)
    requires sep != [] && !Contains(a + sep[..|sep| - 1], sep)
    ensures IndexOf(a + sep + b, sep) == Some(|a|)
  {
    var s := a + sep + b;
    var t := a + sep[..|sep| - 1];
    assert s[|a|..|a| + |sep|] == sep;
    ContainsSlice(s, sep, |a|);
    var i := IndexOf(s, sep).value;
    assert s[|a|..][..|sep|] == sep;
    assert i <= |a|;
    if i < |a| {
      var ts, ss := t[i..i + |sep|], s[i..i + |sep|];
      forall k | 0 <= k < |sep| ensures ts[k] == ss[k] {
        var j := i + k;
        assert ts[k] == t[j] && ss[k] == s[j];
        if j < |a| {
          assert t[j] == a[j] == s[j];
        } else {
          assert t[j] == sep[j - |a|] == s[j];
        }
      }
      assert ts == ss;
      ContainsSlice(t, sep, i);
    }
  }

  /**
   * `(a + sep + b).split(sep)` is `[a, b]` when the separator occurs
   * nowhere in `b` and does not start inside `a`.
   */
  lemma SplitAtSeparator(a: string, sep: string, b: string)
    requires sep != [] && !Contains(a + sep[..|sep| - 1], sep) && !Contains(b, sep)
    ensures Split(a + sep + b, sep) == [a, b]
  {
    var s := a + sep + b;
    FirstOccurrenceAt(a, sep, b);
    assert s[..|a|] == a;
    assert s[|a| + |sep|..] == b;
    assert IndexOf(b, sep).None?;
  }

  lemma {:induction false} NoOccurrenceBefore(s: string, p: string, i: nat)
    requires p != [] && i <= |s|
    requires forall j :: 0 <= j < i ==> !IsPrefix(p, s[j..])
    ensures !Contains(s[..i], p)
    decreases i
  {
    assert s[0..] == s;
    assert !IsPrefix(p, s[..i]) by {
      if |p| <= i {
        assert s[..i][..|p|] == s[..|p|];
      }
    }
    if i > 0 {
      forall j | 0 <= j < i - 1 ensures !IsPrefix(p, s[1..][j..]) {
        assert s[1..][j..] == s[j + 1..];
      }
      NoOccurrenceBefore(s[1..], p, i - 1);
      assert s[..i][1..] == s[1..][..i - 1];
    }
  }

  function Join(parts: seq<string>, sep: string): string
    requires |parts| >= 1
    decreases |parts|
  {
    if |parts| == 1 then parts[0] else parts[0] + sep + Join(parts[1..], sep)
  }

  /** Splitting loses nothing: joining the parts back gives the input. */
  lemma {:induction false} SplitJoin(s: string, sep: string)
    requires sep != []
    ensures Join(Split(s, sep), sep) == s
    decreases |s|
  {
    match IndexOf(s, sep)
    case None =>
    case Some(i) =>
      var tail := s[i + |sep|..];
      SplitJoin(tail, sep);
      var parts := Split(s, sep);
      assert parts == [s[..i]] + Split(tail, sep);
      assert parts[1..] == Split(tail, sep);
      assert s == s[..i] + sep + tail;
  }

  // ---------------------------------------------------------------------
  // trim
  // ---------------------------------------------------------------------

  /** The white-space and line-terminator characters that `trim` removes. */
  predicate IsWhite(c: char) {
    c == '\t' || c == '\n' || c == '\U{000B}' || c == '\U{000C}' || c == '\r'
    || c == ' ' || c == '\U{00A0}' || c == '\U{1680}'
    || ('\U{2000}' <= c <= '\U{200A}')
    || c == '\U{2028}' || c == '\U{2029}' || c == '\U{202F}' || c == '\U{205F}'
    || c == '\U{3000}' || c == '\U{FEFF}'
  }

  predicate AllWhite(s: string) {
    forall i :: 0 <= i < |s| ==> IsWhite(s[i])
  }

  function TrimStart(s: string): (r: string)
    ensures |r| <= |s| && r == s[|s| - |r|..]
    ensures AllWhite(s[..|s| - |r|])
    ensures r == [] || !IsWhite(r[0])
    decreases |s|
  {
    if s != [] && IsWhite(s[0]) then
      var r := TrimStart(s[1..]);
      assert s[..|s| - |r|] == [s[0]] + s[1..][..|s[1..]| - |r|];
      r
    else s
  }

  function TrimEnd(s: string): (r: string)
    ensures |r| <= |s| && r == s[..|r|]
    ensures AllWhite(s[|r|..])
    ensures r == [] || !IsWhite(r[|r| - 1])
    decreases |s|
  {
    if s != [] && IsWhite(s[|s| - 1]) then
      var r := TrimEnd(s[..|s| - 1]);
      assert s[|r|..] == s[..|s| - 1][|r|..] + [s[|s| - 1]];
      r
    else s
  }

  /** JavaScript's `s.trim()`. */
  function Trim(s: string): (r: string)
    ensures r == [] || (!IsWhite(r[0]) && !IsWhite(r[|r| - 1]))
  {
    TrimEnd(TrimStart(s))
  }

  /** A string with no white space at either end trims to itself. */
  lemma TrimUnpadded(s: string)
    requires s != [] && !IsWhite(s[0]) && !IsWhite(s[|s| - 1])
    ensures Trim(s) == s
  {
  }

  /** A single leading white space character before an unpadded string is trimmed away. */
  lemma TrimAfterWhite(c: char, s: string)
    requires IsWhite(c) && s != [] && !IsWhite(s[0]) && !IsWhite(s[|s| - 1])
    ensures Trim([c] + s) == s
  {
    assert ([c] + s)[1..] == s;
    TrimUnpadded(s);
  }

  /** `trim` removes white space at both ends and nothing else. */
  lemma TrimIsSlice(s: string) returns (i: nat)
    ensures i + |Trim(s)| <= |s|
    ensures Trim(s) == s[i..i + |Trim(s)|]
    ensures AllWhite(s[..i]) && AllWhite(s[i + |Trim(s)|..])
  {
    var t := TrimStart(s);
    i := |s| - |t|;
    WhiteAround(s, t, TrimEnd(t), i);
  }

  /** A prefix `r` of a suffix `t` of `s`, with white space cut on both sides, is a white-padded slice of `s`. */
  lemma WhiteAround(s: string, t: string, r: string, i: nat)
    requires i <= |s| && t == s[i..] && AllWhite(s[..i])
    requires |r| <= |t| && r == t[..|r|] && AllWhite(t[|r|..])
    ensures i + |r| <= |s| && r == s[i..i + |r|]
    ensures AllWhite(s[..i]) && AllWhite(s[i + |r|..])
  {
    assert s[i + |r|..] == t[|r|..];
  }

  /** A string trims to empty exactly when it is all white space. */
  lemma TrimEmptyIffWhite(s: string)
    ensures Trim(s) == [] <==> AllWhite(s)
  {
    var t := TrimStart(s);
    if Trim(s) == [] {
      assert AllWhite(t[0..]);
      assert t == [];
      assert s[..|s|] == s;
    }
  }

  // ---------------------------------------------------------------------
  // The command-word regular expression
  // ---------------------------------------------------------------------

  /**
   * `s.replace(/troque|mude|substitua|o|a/g, '')`: scanning left to right,
   * at each position the first alternative that matches is deleted and the
   * scan resumes after it; a position where none matches keeps its
   * character.  The last two alternatives delete every letter `o` and `a`.
   */
  function StripCommandWords(s: string): (r: string)
    ensures 'o' !in r && 'a' !in r
    ensures |r| <= |s|
    decreases |s|
  {
    if s == [] then []
    else if IsPrefix("troque", s) then StripCommandWords(s[6..])
    else if IsPrefix("mude", s) then StripCommandWords(s[4..])
    else if IsPrefix("substitua", s) then StripCommandWords(s[9..])
    else if s[0] == 'o' || s[0] == 'a' then StripCommandWords(s[1..])
    else [s[0]] + StripCommandWords(s[1..])
  }

  // ---------------------------------------------------------------------
  // Literal steps of the command-word scan
  // ---------------------------------------------------------------------

  /** A text whose first character differs from `p`'s does not start with `p`. */
  lemma NotPrefixByHead(p: string, t: string)
    requires p != [] && t != [] && t[0] != p[0]
    ensures !IsPrefix(p, t)
  {
    if |p| <= |t| {
      assert t[..|p|][0] == t[0];
    }
  }

  /** A character that starts no command word and is not deleted is kept. */
  lemma StripKeeps(c: char, s: string)
    requires c != 'o' && c != 'a' && c != 't' && c != 'm' && (c != 's' || |s| < 8)
    ensures StripCommandWords([c] + s) == [c] + StripCommandWords(s)
  {
    var t := [c] + s;
    assert t[0] == c && t[1..] == s;
    NotPrefixByHead("troque", t);
    NotPrefixByHead("mude", t);
    if c != 's' {
      NotPrefixByHead("substitua", t);
    }
    assert !IsPrefix("substitua", t);
    assert StripCommandWords(t) == [t[0]] + StripCommandWords(t[1..]);
  }

  /** An `o` or an `a` is deleted. */
  lemma StripDrops(c: char, s: string)
    requires c == 'o' || c == 'a'
    ensures StripCommandWords([c] + s) == StripCommandWords(s)
  {
    var t := [c] + s;
    assert t[0] == c && t[1..] == s;
    NotPrefixByHead("troque", t);
    NotPrefixByHead("mude", t);
    NotPrefixByHead("substitua", t);
    assert StripCommandWords(t) == StripCommandWords(t[1..]);
  }

  /** A leading `troque` is deleted. */
  lemma StripTroque(s: string)
    ensures StripCommandWords("troque" + s) == StripCommandWords(s)
  {
    var t := "troque" + s;
    assert t[..6] == "troque" && t[6..] == s;
  }

  // ---------------------------------------------------------------------
  // Decimal numerals
  // ---------------------------------------------------------------------

  predicate AllDigits(s: string) {
    forall i :: 0 <= i < |s| ==> IsDigit(s[i])
  }

  function DigitChar(d: nat): (c: char)
    requires d < 10
    ensures IsDigit(c)
  {
    ('0' as int + d) as char
  }

  function DigitValue(c: char): (d: nat)
    requires IsDigit(c)
    ensures d < 10 && DigitChar(d) == c
  {
    c as int - '0' as int
  }

  /** The decimal numeral a template literal prints for a natural number. */
  function NatToString(n: nat): (r: string)
    ensures |r| >= 1 && AllDigits(r)
  {
    if n < 10 then [DigitChar(n)] else NatToString(n / 10) + [DigitChar(n % 10)]
  }

  /** The numeral a template literal prints for an integer. */
  function IntToString(i: int): string {
    if i < 0 then "-" + NatToString(-i) else NatToString(i)
  }

  /** The value `parseInt` gives a string of decimal digits. */
  function DigitsValue(ds: string): nat
    requires AllDigits(ds)
    decreases |ds|
  {
    if ds == [] then 0
    else DigitsValue(ds[..|ds| - 1]) * 10 + DigitValue(ds[|ds| - 1])
  }

  /** Printing a number and parsing it back gives the number. */
  lemma {:induction false} NatToStringRoundTrip(n: nat)
    ensures DigitsValue(NatToString(n)) == n
  {
    if n >= 10 {
      NatToStringRoundTrip(n / 10);
      var s := NatToString(n);
      assert s[..|s| - 1] == NatToString(n / 10);
      assert DigitValue(s[|s| - 1]) == n % 10;
    }
  }

  /** The longest prefix of decimal digits. */
  function DigitRun(s: string): (r: string)
    ensures AllDigits(r) && IsPrefix(r, s)
    ensures |r| < |s| ==> !IsDigit(s[|r|])
    decreases |s|
  {
    if s != [] && IsDigit(s[0]) then [s[0]] + DigitRun(s[1..]) else []
  }

  /**
   * `s.match(/\d+/)` followed by `parseInt` of the match: the value of the
   * first run of decimal digits, or `None` when there is no digit at all.
   */
  function FirstNumber(s: string): (r: Option<nat>)
    ensures r.None? <==> forall i :: 0 <= i < |s| ==> !IsDigit(s[i])
    decreases |s|
  {
    if s == [] then None
    else if IsDigit(s[0]) then Some(DigitsValue(DigitRun(s)))
    else
      var r := FirstNumber(s[1..]);
      assert forall i :: 1 <= i < |s| ==> s[i] == s[1..][i - 1];
      r
  }

  /**
   * What `match(/\d+/)` finds: the run of digits that starts at the first
   * digit of `s`, and `parseInt` of it.
   */
  lemma {:induction false} FirstNumberAt(s: string) returns (i: nat)
    requires FirstNumber(s).Some?
    ensures i < |s| && IsDigit(s[i])
    ensures forall j :: 0 <= j < i ==> !IsDigit(s[j])
    ensures FirstNumber(s).value == DigitsValue(DigitRun(s[i..]))
    decreases |s|
  {
    if IsDigit(s[0]) {
      i := 0;
      assert s[0..] == s;
    } else {
      var k := FirstNumberAt(s[1..]);
      i := k + 1;
      assert s[1..][k..] == s[i..];
      forall j | 0 <= j < i ensures !IsDigit(s[j]) {
        if j > 0 {
          assert s[j] == s[1..][j - 1];
        }
      }
    }
  }

  lemma {:induction false} DigitRunOfNumeral(ds: string, rest: string)
    requires AllDigits(ds)
    requires rest == [] || !IsDigit(rest[0])
    ensures DigitRun(ds + rest) == ds
    decreases |ds|
  {
    if ds == [] {
      assert ds + rest == rest;
    } else {
      assert (ds + rest)[1..] == ds[1..] + rest;
      DigitRunOfNumeral(ds[1..], rest);
      assert ds == [ds[0]] + ds[1..];
    }
  }

  /** A printed number followed by a non-digit parses back to that number. */
  lemma FirstNumberOfNumeral(n: nat, rest: string)
    requires rest == [] || !IsDigit(rest[0])
    ensures FirstNumber(NatToString(n) + rest) == Some(n)
  {
    var ds := NatToString(n);
    assert (ds + rest)[0] == ds[0];
    DigitRunOfNumeral(ds, rest);
    NatToStringRoundTrip(n);
  }

  function Abs(i: int): nat {
    if i < 0 then -i else i
  }

  /** For a printed integer, the first number is its absolute value (the sign is not a digit). */
  lemma FirstNumberOfInt(i: int, rest: string)
    requires rest == [] || !IsDigit(rest[0])
    ensures FirstNumber(IntToString(i) + rest) == Some(Abs(i))
  {
    if i < 0 {
      FirstNumberOfNegative(i, rest);
    } else {
      FirstNumberOfNumeral(i, rest);
    }
  }

  lemma FirstNumberOfNegative(i: int, rest: string)
    requires i < 0
    requires rest == [] || !IsDigit(rest[0])
    ensures FirstNumber(IntToString(i) + rest) == Some(-i)
  {
    var n: nat := -i;
    assert IntToString(i) == ['-'] + NatToString(n);
    FirstNumberSkips('-', NatToString(n), rest);
    FirstNumberOfNumeral(n, rest);
  }

  lemma FirstNumberSkips(c: char, a: string, b: string)
    requires !IsDigit(c)
    ensures FirstNumber(([c] + a) + b) == FirstNumber(a + b)
  {
    assert (([c] + a) + b)[0] == c;
    assert (([c] + a) + b)[1..] == a + b;
  }
}
