/** String helpers with the semantics of the JavaScript and Python string
    methods the servers and adapters call (ASCII only). */
module Strs {

  /** `sub` occurs in `s` (JavaScript `includes`, Python `in`). */
  predicate Contains(s: string, sub: string)
    decreases |s|
  {
    sub <= s || (|s| > 0 && Contains(s[1..], sub))
  }

  /** An occurrence at a known offset makes `Contains` true. */
  lemma {:induction false} ContainsAt(s: string, sub: string, i: nat)
    requires i + |sub| <= |s| && s[i..i + |sub|] == sub
    ensures Contains(s, sub)
  {
    if i == 0 {
      assert sub <= s;
    } else {
      assert s[1..][i - 1..i - 1 + |sub|] == s[i..i + |sub|];
      ContainsAt(s[1..], sub, i - 1);
    }
  }

  /** `sub` occurs in `s` starting at offset `i`. */
  predicate OccursAt(s: string, sub: string, i: nat)
  {
    i + |sub| <= |s| && s[i..i + |sub|] == sub
  }

  /** The character at offset `k` of an occurrence. */
  lemma OccursAtChar(s: string, sub: string, i: nat, k: nat)
    requires OccursAt(s, sub, i) && k < |sub|
    ensures s[i + k] == sub[k]
  {
    assert s[i..i + |sub|][k] == s[i + k];
  }

  /** An occurrence starts with the first character of what occurs. */
  lemma OccursAtHead(s: string, sub: string, i: nat)
    requires sub != []
    ensures OccursAt(s, sub, i) ==> i < |s| && s[i] == sub[0]
  {
    if OccursAt(s, sub, i) {
      assert s[i..i + |sub|][0] == s[i];
    }
  }

  /** A non-empty string that occurs nowhere is not contained. */
  lemma NoOccurrence(s: string, sub: string)
    requires sub != []
    requires forall p :: 0 <= p < |s| ==> !OccursAt(s, sub, p)
    ensures !Contains(s, sub)
  {
    var r := IndexOf(s, sub);
  }

  /** A string that lacks the first character of `sub` does not contain it. */
  lemma HeadAbsent(s: string, sub: string)
    requires sub != [] && sub[0] !in s
    ensures !Contains(s, sub)
  {
    forall p | 0 <= p < |s|
      ensures !OccursAt(s, sub, p)
    {
      OccursAtHead(s, sub, p);
    }
    NoOccurrence(s, sub);
  }

  /** An occurrence in a line that lies within a prefix of it is an
      occurrence in the prefix. */
  lemma OccursInPrefix(pre: string, line: string, sub: string, p: nat)
    requires |pre| <= |line| && line[..|pre|] == pre
    requires OccursAt(line, sub, p) && p + |sub| <= |pre|
    ensures OccursAt(pre, sub, p)
  {
    assert pre[p..p + |sub|] == line[p..p + |sub|];
  }

  /** An occurrence with none before it is the one `IndexOf` finds. */
  lemma IndexOfFirst(s: string, sub: string, t: nat)
    requires OccursAt(s, sub, t)
    requires forall p :: 0 <= p < t ==> !OccursAt(s, sub, p)
    ensures IndexOf(s, sub) == t
  {
    ContainsAt(s, sub, t);
  }

  /** A character that is absent is not a substring. */
  lemma {:induction false} NotContainsChar(s: string, c: char)
    requires c !in s
    ensures !Contains(s, [c])
    decreases |s|
  {
    if s != [] {
      assert s[0] != c;
      NotContainsChar(s[1..], c);
    }
  }

  /** Index of the first occurrence of `sub` in `s`, or -1 (JavaScript
      `indexOf`, Python `find`). */
  function IndexOf(s: string, sub: string): (r: int)
    ensures r == -1 || (r >= 0 && OccursAt(s, sub, r))
    ensures r >= 0 ==> forall j: nat :: j < r ==> !OccursAt(s, sub, j)
    ensures r == -1 <==> !Contains(s, sub)
    decreases |s|
  {
    if sub <= s then 0
    else if |s| == 0 then -1
    else
      var k := IndexOf(s[1..], sub);
      if k < 0 then -1
      else
        assert forall j: nat :: 1 <= j ==> OccursAt(s, sub, j) == OccursAt(s[1..], sub, j - 1);
        k + 1
  }

  /** Python `s.split(sep)[0]`: the text before the first `sep`, or all
      of `s`. */
  function Before(s: string, sep: string): (r: string)
    ensures r <= s
    ensures !Contains(s, sep) ==> r == s
    ensures Contains(s, sep) ==> |r| == IndexOf(s, sep)
  {
    var i := IndexOf(s, sep);
    if i < 0 then s else s[..i]
  }

  /** Python `s.split(sep)[1]` on a string that holds `sep`: the text
      after the first `sep` up to the next one, or to the end. */
  function Between(s: string, sep: string): (r: string)
    requires Contains(s, sep)
  {
    Before(s[IndexOf(s, sep) + |sep|..], sep)
  }

  predicate IsUpper(c: char) { 'A' <= c <= 'Z' }

  /** ASCII lower-casing of one character. */
  function LowerChar(c: char): (r: char)
    ensures !IsUpper(r)
    ensures !IsUpper(c) ==> r == c
  {
    if IsUpper(c) then (c as int + 32) as char else c
  }

  /** `toLowerCase()` / `lower()` restricted to ASCII letters. */
  function ToLower(s: string): (r: string)
    ensures |r| == |s|
    ensures forall i :: 0 <= i < |s| ==> r[i] == LowerChar(s[i])
  {
    if s == [] then [] else [LowerChar(s[0])] + ToLower(s[1..])
  }

  lemma {:induction false} ToLowerIdempotent(s: string)
    ensures ToLower(ToLower(s)) == ToLower(s)
  {
    if s != [] {
      ToLowerIdempotent(s[1..]);
      assert ToLower(s)[1..] == ToLower(s[1..]);
    }
  }

  /** Case-insensitive substring test used by the search filters. */
  predicate ContainsIgnoreCase(s: string, sub: string)
  {
    Contains(ToLower(s), ToLower(sub))
  }

  predicate IsSpace(c: char) { c == ' ' || c == '\t' || c == '\n' || c == '\r' || c == '\U{000B}' || c == '\U{000C}' }

  function TrimStart(s: string): (r: string)
    ensures |r| <= |s| && r == s[|s| - |r|..]
    ensures r == [] || !IsSpace(r[0])
    ensures forall i :: 0 <= i < |s| - |r| ==> IsSpace(s[i])
  {
    if s != [] && IsSpace(s[0]) then
      var r := TrimStart(s[1..]);
      assert forall i :: 1 <= i < |s| ==> s[1..][i - 1] == s[i];
      assert s[1..][|s| - 1 - |r|..] == s[|s| - |r|..];
      r
    else s
  }

  function TrimEnd(s: string): (r: string)
    ensures |r| <= |s| && r == s[..|r|]
    ensures r == [] || !IsSpace(r[|r| - 1])
    ensures forall i :: |r| <= i < |s| ==> IsSpace(s[i])
  {
    if s != [] && IsSpace(s[|s| - 1]) then TrimEnd(s[..|s| - 1]) else s
  }

  /** `trim()` / `strip()`: leading and trailing white space removed. */
  function Trim(s: string): (r: string)
    ensures r == [] || (!IsSpace(r[0]) && !IsSpace(r[|r| - 1]))
    ensures |r| <= |s|
  {
    TrimEnd(TrimStart(s))
  }

  /** Trimming one space off each side of a word gives the word. */
  lemma TrimPadded(x: string)
    requires x != [] && !IsSpace(x[0]) && !IsSpace(x[|x| - 1])
    ensures Trim(" " + x + " ") == x
  {
    var s := " " + x + " ";
    assert s[1..] == x + " ";
    assert TrimStart(s) == x + " ";
    assert (x + " ")[..|x|] == x;
    assert TrimEnd(x + " ") == x;
  }

  /** Blank means empty after trimming. */
  predicate IsBlank(s: string) { Trim(s) == [] }

  lemma {:induction false} BlankIffAllSpace(s: string)
    ensures IsBlank(s) <==> forall i :: 0 <= i < |s| ==> IsSpace(s[i])
  {
    if s != [] && IsSpace(s[0]) {
      BlankIffAllSpace(s[1..]);
      assert forall i :: 1 <= i < |s| ==> s[i] == s[1..][i - 1];
    } else if s != [] {
      assert TrimStart(s) == s;
      assert TrimEnd(s)[0] == s[0] || TrimEnd(s) == [];
    }
  }

  /** Python `str.replace(pat, rep)`: every non-overlapping occurrence,
      scanning left to right. */
  function ReplaceAll(s: string, pat: string, rep: string): (r: string)
    requires pat != []
    ensures !Contains(s, pat) ==> r == s
    decreases |s|
  {
    if pat <= s then rep + ReplaceAll(s[|pat|..], pat, rep)
    else if s == [] then []
    else [s[0]] + ReplaceAll(s[1..], pat, rep)
  }

  /** Replacing a one-character string removes every occurrence of that
      character when the replacement does not contain it. */
  lemma {:induction false} ReplaceCharRemoves(s: string, c: char, rep: string)
    requires c !in rep
    ensures c !in ReplaceAll(s, [c], rep)
    decreases |s|
  {
    if [c] <= s {
      ReplaceCharRemoves(s[1..], c, rep);
    } else if s != [] {
      ReplaceCharRemoves(s[1..], c, rep);
    }
  }

  /** Replacing a character leaves the absence of another character alone
      when the replacement does not contain it either. */
  lemma {:induction false} ReplaceCharKeepsAbsent(s: string, c: char, rep: string, d: char)
    requires d !in s && d !in rep
    ensures d !in ReplaceAll(s, [c], rep)
    decreases |s|
  {
    if [c] <= s {
      ReplaceCharKeepsAbsent(s[1..], c, rep, d);
    } else if s != [] {
      ReplaceCharKeepsAbsent(s[1..], c, rep, d);
    }
  }

  function DigitChar(d: nat): (c: char)
    requires d < 10
    ensures '0' <= c <= '9'
  {
    ('0' as int + d) as char
  }

  /** Decimal rendering of a natural number (`str(n)`, `${n}`). */
  function NatToString(n: nat): (r: string)
    ensures |r| >= 1
    ensures forall i :: 0 <= i < |r| ==> '0' <= r[i] <= '9'
    ensures n < 10 ==> |r| == 1
    ensures n >= 10 ==> |r| >= 2
    decreases n
  {
    if n < 10 then [DigitChar(n)] else NatToString(n / 10) + [DigitChar(n % 10)]
  }

  function IntToString(n: int): (r: string)
    ensures n < 0 <==> (|r| > 0 && r[0] == '-')
  {
    if n < 0 then "-" + NatToString(-n) else NatToString(n)
  }

  /** `padStart(2, "0")` for a number rendering. */
  function PadTwo(s: string): (r: string)
    ensures |r| == if |s| < 2 then 2 else |s|
    ensures r[|r| - |s|..] == s
  {
    if |s| == 0 then "00" else if |s| == 1 then "0" + s else s
  }

  /** Last path segment: everything after the final '/'. */
  function Basename(p: string): (r: string)
    ensures '/' !in r
    ensures |r| <= |p| && r == p[|p| - |r|..]
    ensures |r| < |p| ==> p[|p| - |r| - 1] == '/'
  {
    if p == [] then []
    else if p[|p| - 1] == '/' then []
    else Basename(p[..|p| - 1]) + [p[|p| - 1]]
  }

  /** Index of the last '.' in `s`, or -1. */
  function LastDot(s: string): (r: int)
    ensures -1 <= r < |s|
    ensures r >= 0 ==> s[r] == '.'
    ensures forall j :: r < j < |s| ==> s[j] != '.'
  {
    if s == [] then -1
    else if s[|s| - 1] == '.' then |s| - 1
    else LastDot(s[..|s| - 1])
  }

  /** All characters of `s` are dots. */
  predicate AllDots(s: string) { forall i :: 0 <= i < |s| ==> s[i] == '.' }

  /** Extension of the last path segment including its dot
      (`os.path.splitext(p)[1]`): empty when the segment has no dot, or
      when only dots precede its last dot (".wav", "..wav"). */
  function Extname(p: string): (r: string)
    ensures r == [] || (r[0] == '.' && '.' !in r[1..] && '/' !in r)
    ensures |r| <= |p| && p[|p| - |r|..] == r
  {
    var b := Basename(p);
    var k := LastDot(b);
    if k <= 0 || AllDots(b[..k]) then []
    else
      ExtensionSlice(p, b, k);
      b[k..]
  }

  /** The text from the last dot of the last segment on is a suffix of the
      path holding one dot and no '/'. */
  lemma ExtensionSlice(p: string, b: string, k: int)
    requires |b| <= |p| && b == p[|p| - |b|..] && '/' !in b
    requires 0 <= k < |b| && b[k] == '.' && forall j :: k < j < |b| ==> b[j] != '.'
    ensures var r := b[k..]; r[0] == '.' && '.' !in r[1..] && '/' !in r
    ensures p[|p| - |b[k..]|..] == b[k..]
  {
    var r := b[k..];
    assert forall j :: 0 <= j < |r| ==> r[j] == b[k + j];
    assert forall j :: 0 <= j < |r| - 1 ==> r[1..][j] == b[k + 1 + j];
    assert r == p[|p| - |b| + k..];
  }

  /** Joins the items with a separator (`', '.join`, `Array.join`). */
  function Join(items: seq<string>, sep: string): string
  {
    if items == [] then []
    else if |items| == 1 then items[0]
    else items[0] + sep + Join(items[1..], sep)
  }

  /** `p` without its trailing '/' characters. */
  function TrimTrailingSlashes(p: string): (r: string)
    ensures r <= p
    ensures r == [] || r[|r| - 1] != '/'
    ensures forall i :: |r| <= i < |p| ==> p[i] == '/'
  {
    if p != [] && p[|p| - 1] == '/' then TrimTrailingSlashes(p[..|p| - 1]) else p
  }

  /** Node's `path.basename`: the last segment, trailing '/' ignored. */
  function PathBasename(p: string): (r: string)
    ensures '/' !in r
  {
    Basename(TrimTrailingSlashes(p))
  }

  /** The segment after a final '/' is the base name. */
  lemma {:induction false} BasenameAfterSlash(s: string, f: string)
    requires '/' !in f
    ensures Basename(s + "/" + f) == f
  {
    var p := s + "/" + f;
    if f == [] {
      assert p[|p| - 1] == '/';
    } else {
      var g, last := f[..|f| - 1], f[|f| - 1];
      assert last != '/' && p[|p| - 1] == last;
      assert p[..|p| - 1] == s + "/" + g;
      BasenameAfterSlash(s, g);
      assert Basename(p) == g + [last];
      assert f == g + [last];
    }
  }

  /** A path with a character other than '/' has a non-empty base name. */
  lemma PathBasenameNonEmpty(p: string, i: nat)
    requires i < |p| && p[i] != '/'
    ensures PathBasename(p) != []
  {
    var t := TrimTrailingSlashes(p);
    assert i < |t|;
    assert t == t[..|t| - 1] + [t[|t| - 1]];
  }

  /** Different numbers have different renderings. */
  lemma {:induction false} NatToStringInjective(a: nat, b: nat)
    requires NatToString(a) == NatToString(b)
    ensures a == b
    decreases a
  {
    if a < 10 {
      assert DigitChar(a) == DigitChar(b);
    } else {
      var s := NatToString(a);
      assert s == NatToString(a / 10) + [DigitChar(a % 10)];
      assert s == NatToString(b / 10) + [DigitChar(b % 10)];
      assert s[..|s| - 1] == NatToString(a / 10) == NatToString(b / 10);
      NatToStringInjective(a / 10, b / 10);
      assert DigitChar(a % 10) == DigitChar(b % 10);
    }
  }

  /** Index of the first `c` in `s`. */
  function FirstIndex(s: string, c: char): (i: nat)
    requires c in s
    ensures i < |s| && s[i] == c && c !in s[..i]
  {
    if s[0] == c then 0
    else
      var k := FirstIndex(s[1..], c);
      assert s[..k + 1] == [s[0]] + s[1..][..k];
      k + 1
  }

  /** `s.split(sep)` for a one-character separator (JavaScript and Python
      agree): the pieces between separators, empty ones included. */
  function Split(s: string, sep: char): (r: seq<string>)
    ensures |r| >= 1
    ensures forall k :: 0 <= k < |r| ==> sep !in r[k]
    decreases |s|
  {
    if sep !in s then [s]
    else
      var i := FirstIndex(s, sep);
      [s[..i]] + Split(s[i + 1..], sep)
  }

  /** Joining the pieces with the separator gives the string back. */
  lemma {:induction false} JoinSplit(s: string, sep: char)
    ensures Join(Split(s, sep), [sep]) == s
    decreases |s|
  {
    if sep in s {
      var i := FirstIndex(s, sep);
      var rest := Split(s[i + 1..], sep);
      JoinSplit(s[i + 1..], sep);
      assert Split(s, sep) == [s[..i]] + rest;
      assert (([s[..i]] + rest)[1..]) == rest;
      assert s == s[..i] + [sep] + s[i + 1..];
    }
  }
}
