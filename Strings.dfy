/** Python `str` operations the scripts rely on: whitespace stripping,
    `split(sep)`, `sep.join`, `replace`, `in`, `lower()` on ASCII letters,
    `ljust`, and the ordering of `str` and of POSIX `pathlib.Path` values. */
module Strings {
  import opened Ordering

  /** Python's `str.isspace()`: the characters `str.strip()` removes and the
      regular expression class `\s` matches. */
  predicate IsSpace(c: char) {
    var n := c as int;
    || (0x09 <= n <= 0x0D) || (0x1C <= n <= 0x20)
    || n == 0x85 || n == 0xA0 || n == 0x1680
    || (0x2000 <= n <= 0x200A)
    || n == 0x2028 || n == 0x2029 || n == 0x202F || n == 0x205F || n == 0x3000
  }

  function LStrip(s: string): (r: string)
    ensures |r| <= |s| && r == s[|s| - |r|..]
    ensures r == [] || !IsSpace(r[0])
  {
    if s != [] && IsSpace(s[0]) then LStrip(s[1..]) else s
  }

  function RStrip(s: string): (r: string)
    ensures |r| <= |s| && r == s[..|r|]
    ensures r == [] || !IsSpace(r[|r| - 1])
  {
    if s != [] && IsSpace(s[|s| - 1]) then RStrip(s[..|s| - 1]) else s
  }

  /** Python `s.strip()`. */
  function Strip(s: string): string {
    RStrip(LStrip(s))
  }

  /** The stripped string has no surrounding whitespace, and stripping it
      again changes nothing. */
  lemma StripProperties(s: string)
    ensures Strip(s) == [] || (!IsSpace(Strip(s)[0]) && !IsSpace(Strip(s)[|Strip(s)| - 1]))
    ensures Strip(Strip(s)) == Strip(s)
  {
    var l := LStrip(s);
    var r := RStrip(l);
    if r != [] {
      assert r[0] == l[0];
    }
  }

  function LowerChar(c: char): char {
    if 'A' <= c <= 'Z' then (c as int + 32) as char else c
  }

  /** `str.lower()` restricted to ASCII letters. */
  function LowerAscii(s: string): (r: string)
    ensures |r| == |s| && forall i :: 0 <= i < |s| ==> r[i] == LowerChar(s[i])
  {
    if s == [] then [] else [LowerChar(s[0])] + LowerAscii(s[1..])
  }

  /** `s.ljust(width)` (and `"%-<width>s" % s`): pad with spaces on the right. */
  function LJust(s: string, width: int): (r: string)
    ensures |r| == if |s| >= width then |s| else width
    ensures r[..|s|] == s && forall i :: |s| <= i < |r| ==> r[i] == ' '
  {
    if |s| >= width then s else s + seq(width - |s|, _ => ' ')
  }

  predicate StartsWith(s: string, prefix: string) {
    |prefix| <= |s| && s[..|prefix|] == prefix
  }

  /** Python `pat in s`. */
  predicate Contains(s: string, pat: string)
    decreases |s|
  {
    StartsWith(s, pat) || (s != [] && Contains(s[1..], pat))
  }

  lemma {:induction false} ContainsInPrefix(s: string, n: nat, pat: string)
    requires n <= |s|
    ensures Contains(s[..n], pat) ==> Contains(s, pat)
    decreases n
  {
    if Contains(s[..n], pat) && !StartsWith(s[..n], pat) {
      assert s[..n][1..] == s[1..][..n - 1];
      ContainsInPrefix(s[1..], n - 1, pat);
    }
  }

  lemma {:induction false} ContainsInSuffix(s: string, n: nat, pat: string)
    requires n <= |s|
    ensures Contains(s[n..], pat) ==> Contains(s, pat)
    decreases n
  {
    if n > 0 {
      assert s[n..] == s[1..][n - 1..];
      ContainsInSuffix(s[1..], n - 1, pat);
    }
  }

  /** The strings joined with no separator: `"".join(parts)`. */
  function Concat(parts: seq<string>): string
    decreases |parts|
  {
    if parts == [] then "" else parts[0] + Concat(parts[1..])
  }

  lemma ConcatCons(x: string, rest: seq<string>)
    ensures Concat([x] + rest) == x + Concat(rest)
  {
    assert ([x] + rest)[1..] == rest;
  }

  /** A string holding no `{`, so no `{key}` placeholder either. */
  predicate NoBrace(s: string) {
    forall i :: 0 <= i < |s| ==> s[i] != '{'
  }

  /** A string holding `pat` holds its first character. */
  lemma {:induction false} ContainsFirstChar(s: string, pat: string)
    requires |pat| > 0 && Contains(s, pat)
    ensures exists i :: 0 <= i < |s| && s[i] == pat[0]
    decreases |s|
  {
    if !StartsWith(s, pat) {
      ContainsFirstChar(s[1..], pat);
      var i :| 0 <= i < |s[1..]| && s[1..][i] == pat[0];
      assert s[i + 1] == pat[0];
    } else {
      assert s[0] == pat[0];
    }
  }

  /** A string without the first character of `pat` does not hold `pat`. */
  lemma WithoutFirstCharNoContains(s: string, pat: string)
    requires |pat| > 0 && forall i :: 0 <= i < |s| ==> s[i] != pat[0]
    ensures !Contains(s, pat)
  {
    if Contains(s, pat) {
      ContainsFirstChar(s, pat);
    }
  }

  /** Python `s.split(sep)` for a non-empty separator: the pieces between the
      leftmost non-overlapping occurrences of `sep`. */
  function SplitOn(s: string, sep: string): (parts: seq<string>)
    requires |sep| > 0
    ensures |parts| >= 1
    decreases |s|
  {
    if StartsWith(s, sep) then [""] + SplitOn(s[|sep|..], sep)
    else if s == [] then [""]
    else
      var rest := SplitOn(s[1..], sep);
      [[s[0]] + rest[0]] + rest[1..]
  }

  /** Python `sep.join(parts)`. */
  function Join(parts: seq<string>, sep: string): string
    decreases |parts|
  {
    if parts == [] then ""
    else if |parts| == 1 then parts[0]
    else parts[0] + sep + Join(parts[1..], sep)
  }

  /** Python `s.replace(pat, rep)` for a non-empty pattern: one left-to-right
      pass replacing non-overlapping occurrences. */
  function Replace(s: string, pat: string, rep: string): string
    requires |pat| > 0
    decreases |s|
  {
    if StartsWith(s, pat) then rep + Replace(s[|pat|..], pat, rep)
    else if s == [] then []
    else [s[0]] + Replace(s[1..], pat, rep)
  }

  lemma JoinConsHead(x: string, parts: seq<string>, sep: string)
    requires |parts| >= 1
    ensures Join([x + parts[0]] + parts[1..], sep) == x + Join(parts, sep)
  {
    var p := [x + parts[0]] + parts[1..];
    if |parts| > 1 {
      assert p[1..] == parts[1..];
    }
  }

  /** `s.replace(pat, rep) == rep.join(s.split(pat))`: every occurrence that
      `split` cuts at is replaced, and nothing else changes. */
  lemma {:induction false} ReplaceIsJoinOfSplit(s: string, pat: string, rep: string)
    requires |pat| > 0
    ensures Replace(s, pat, rep) == Join(SplitOn(s, pat), rep)
    decreases |s|
  {
    if StartsWith(s, pat) {
      ReplaceIsJoinOfSplit(s[|pat|..], pat, rep);
      var rest := SplitOn(s[|pat|..], pat);
      assert ([""] + rest)[1..] == rest;
    } else if s != [] {
      ReplaceIsJoinOfSplit(s[1..], pat, rep);
      JoinConsHead([s[0]], SplitOn(s[1..], pat), rep);
    }
  }

  lemma {:induction false} ReplaceWithItself(s: string, pat: string)
    requires |pat| > 0
    ensures Replace(s, pat, pat) == s
    decreases |s|
  {
    if StartsWith(s, pat) {
      ReplaceWithItself(s[|pat|..], pat);
      assert s == s[..|pat|] + s[|pat|..];
    } else if s != [] {
      ReplaceWithItself(s[1..], pat);
      assert s == [s[0]] + s[1..];
    }
  }

  /** Joining the pieces of `s.split(sep)` with `sep` gives back `s`. */
  lemma SplitJoinRoundTrip(s: string, sep: string)
    requires |sep| > 0
    ensures Join(SplitOn(s, sep), sep) == s
  {
    ReplaceIsJoinOfSplit(s, sep, sep);
    ReplaceWithItself(s, sep);
  }

  lemma {:induction false} SplitOnHeadIsPrefix(s: string, sep: string)
    requires |sep| > 0
    ensures StartsWith(s, SplitOn(s, sep)[0])
    decreases |s|
  {
    if !StartsWith(s, sep) && s != [] {
      SplitOnHeadIsPrefix(s[1..], sep);
      var h := SplitOn(s[1..], sep)[0];
      assert s[..|h| + 1] == [s[0]] + s[1..][..|h|];
    }
  }

  lemma StartsWithPrefix(s: string, prefix: string, pat: string)
    ensures StartsWith(s, prefix) && StartsWith(prefix, pat) ==> StartsWith(s, pat)
  {
    if StartsWith(s, prefix) && StartsWith(prefix, pat) {
      assert s[..|pat|] == prefix[..|pat|];
    }
  }

  /** No piece of `s.split(sep)` contains `sep`. */
  lemma {:induction false} SplitOnPiecesAvoidSep(s: string, sep: string)
    requires |sep| > 0
    ensures forall i :: 0 <= i < |SplitOn(s, sep)| ==> !Contains(SplitOn(s, sep)[i], sep)
    decreases |s|
  {
    if StartsWith(s, sep) {
      SplitOnPiecesAvoidSep(s[|sep|..], sep);
      var rest := SplitOn(s[|sep|..], sep);
      forall i | 0 <= i < |SplitOn(s, sep)| ensures !Contains(SplitOn(s, sep)[i], sep) {
        if i > 0 {
          assert SplitOn(s, sep)[i] == rest[i - 1];
        }
      }
    } else if s != [] {
      SplitOnPiecesAvoidSep(s[1..], sep);
      var rest := SplitOn(s[1..], sep);
      var head := [s[0]] + rest[0];
      SplitOnHeadIsPrefix(s[1..], sep);
      assert s[..|head|] == head;
      StartsWithPrefix(s, head, sep);
      assert head[1..] == rest[0];
      forall i | 0 <= i < |SplitOn(s, sep)| ensures !Contains(SplitOn(s, sep)[i], sep) {
        if i > 0 {
          assert SplitOn(s, sep)[i] == rest[i];
        }
      }
    }
  }

  /** A string without `pat` is returned unchanged by `replace`. */
  lemma {:induction false} ReplaceAbsentPattern(s: string, pat: string, rep: string)
    requires |pat| > 0 && !Contains(s, pat)
    ensures Replace(s, pat, rep) == s
    decreases |s|
  {
    if s != [] {
      ReplaceAbsentPattern(s[1..], pat, rep);
      assert s == [s[0]] + s[1..];
    }
  }

  /** A prefix free of the pattern's first character passes through
      `replace` untouched. */
  lemma {:induction false} ReplaceSkipsPrefix(x: string, y: string, pat: string, rep: string)
    requires |pat| > 0 && forall i :: 0 <= i < |x| ==> x[i] != pat[0]
    ensures Replace(x + y, pat, rep) == x + Replace(y, pat, rep)
    decreases |x|
  {
    if x != [] {
      assert (x + y)[0] == x[0];
      assert (x + y)[1..] == x[1..] + y;
      ReplaceSkipsPrefix(x[1..], y, pat, rep);
    } else {
      assert x + y == y;
    }
  }

  /** Where the pattern does not start, the first character is kept. */
  lemma ReplaceMismatch(s: string, pat: string, rep: string)
    requires |pat| > 0 && s != [] && !StartsWith(s, pat)
    ensures Replace(s, pat, rep) == [s[0]] + Replace(s[1..], pat, rep)
  {
  }

  /** Where the pattern starts, it is replaced and the scan resumes after it. */
  lemma ReplaceMatch(s: string, pat: string, rep: string)
    requires |pat| > 0 && StartsWith(s, pat)
    ensures Replace(s, pat, rep) == rep + Replace(s[|pat|..], pat, rep)
  {
  }

  /** A string without the pattern's first character is left as it is. */
  lemma {:induction false} ReplaceWithoutFirstChar(s: string, pat: string, rep: string)
    requires |pat| > 0 && pat[0] !in s
    ensures Replace(s, pat, rep) == s
    decreases |s|
  {
    if s != [] {
      assert s[0] in s;
      assert forall c :: c in s[1..] ==> c in s;
      ReplaceWithoutFirstChar(s[1..], pat, rep);
      assert s == [s[0]] + s[1..];
    }
  }

  /** A string shorter than the pattern is left as it is. */
  lemma {:induction false} ReplaceShort(s: string, pat: string, rep: string)
    requires 0 < |pat| && |s| < |pat|
    ensures Replace(s, pat, rep) == s
    decreases |s|
  {
    if s != [] {
      ReplaceShort(s[1..], pat, rep);
      assert s == [s[0]] + s[1..];
    }
  }

  /** One occurrence of the pattern, after a prefix free of its first
      character and before a tail too short to hold it, is the only change. */
  lemma ReplaceSingle(p: string, pat: string, q: string, rep: string)
    requires |pat| > 0 && |q| < |pat| && forall i :: 0 <= i < |p| ==> p[i] != pat[0]
    ensures Replace(p + pat + q, pat, rep) == p + rep + q
  {
    var t := pat + q;
    assert p + pat + q == p + t;
    ReplaceSkipsPrefix(p, t, pat, rep);
    assert t[..|pat|] == pat;
    ReplaceMatch(t, pat, rep);
    assert t[|pat|..] == q;
    ReplaceShort(q, pat, rep);
  }

  /** The stripped, non-blank pieces of `s.split(sep)`:
      `[x.strip() for x in s.split(sep) if x.strip()]`. */
  function StripNonBlank(parts: seq<string>): seq<string>
    decreases |parts|
  {
    if parts == [] then [] else CleanPiece(parts[0]) + StripNonBlank(parts[1..])
  }

  /** What one piece contributes to the comprehension. */
  function CleanPiece(p: string): seq<string> {
    if Strip(p) != "" then [Strip(p)] else []
  }

  /** The comprehension runs over the pieces in order: the items of two
      lists of pieces are the items of the first followed by those of the
      second. */
  lemma {:induction false} StripNonBlankAppend(a: seq<string>, b: seq<string>)
    ensures StripNonBlank(a + b) == StripNonBlank(a) + StripNonBlank(b)
    decreases |a|
  {
    if a == [] {
      assert a + b == b;
    } else {
      assert (a + b)[0] == a[0] && (a + b)[1..] == a[1..] + b;
      StripNonBlankAppend(a[1..], b);
    }
  }

  /** An item is exactly a non-blank stripped piece. */
  lemma StripNonBlankMembers(parts: seq<string>)
    ensures forall x :: x in StripNonBlank(parts) <==> exists i :: 0 <= i < |parts| && x == Strip(parts[i]) && x != ""
  {
    StripNonBlankSound(parts);
    StripNonBlankComplete(parts);
  }

  /** Every item comes from some piece. */
  lemma {:induction false} StripNonBlankSound(parts: seq<string>)
    ensures forall x :: x in StripNonBlank(parts) ==> exists i :: 0 <= i < |parts| && x == Strip(parts[i]) && x != ""
    decreases |parts|
  {
    if parts != [] {
      StripNonBlankSound(parts[1..]);
      forall x | x in StripNonBlank(parts)
        ensures exists i :: 0 <= i < |parts| && x == Strip(parts[i]) && x != ""
      {
        if x in CleanPiece(parts[0]) {
          assert x == Strip(parts[0]) && x != "";
        } else {
          assert x in StripNonBlank(parts[1..]);
          var i :| 0 <= i < |parts[1..]| && x == Strip(parts[1..][i]) && x != "";
          assert parts[i + 1] == parts[1..][i];
        }
      }
    }
  }

  /** Every non-blank stripped piece is an item. */
  lemma {:induction false} StripNonBlankComplete(parts: seq<string>)
    ensures forall i :: 0 <= i < |parts| && Strip(parts[i]) != "" ==> Strip(parts[i]) in StripNonBlank(parts)
    decreases |parts|
  {
    if parts != [] {
      StripNonBlankComplete(parts[1..]);
      forall i | 0 <= i < |parts| && Strip(parts[i]) != ""
        ensures Strip(parts[i]) in StripNonBlank(parts)
      {
        if i > 0 {
          assert parts[1..][i - 1] == parts[i];
        }
      }
    }
  }

  /** `[p.strip() for p in s.split(sep) if p.strip()]`. */
  function SplitClean(s: string, sep: string): seq<string>
    requires |sep| > 0
  {
    StripNonBlank(SplitOn(s, sep))
  }

  /** The items of a cleaned list are exactly the stripped non-blank pieces
      of `s.split(sep)`, in the order of the pieces: splitting the pieces
      anywhere splits the items at the same place. */
  lemma SplitCleanContent(s: string, sep: string, k: nat)
    requires |sep| > 0 && k <= |SplitOn(s, sep)|
    ensures var pieces := SplitOn(s, sep);
      SplitClean(s, sep) == StripNonBlank(pieces[..k]) + StripNonBlank(pieces[k..])
    ensures forall x :: x in SplitClean(s, sep) <==>
      exists i :: 0 <= i < |SplitOn(s, sep)| && x == Strip(SplitOn(s, sep)[i]) && x != ""
  {
    var pieces := SplitOn(s, sep);
    assert pieces == pieces[..k] + pieces[k..];
    StripNonBlankAppend(pieces[..k], pieces[k..]);
    StripNonBlankMembers(pieces);
  }

  /** One piece contributes its stripped text when that is non-blank, and
      nothing otherwise. */
  lemma StripNonBlankSingle(p: string)
    ensures StripNonBlank([p]) == if Strip(p) != "" then [Strip(p)] else []
  {
    assert [p][1..] == [];
  }

  /** Stripping cannot create an occurrence of `sep`. */
  lemma StripKeepsAbsence(p: string, sep: string)
    ensures Contains(Strip(p), sep) ==> Contains(p, sep)
  {
    var l := LStrip(p);
    ContainsInSuffix(p, |p| - |l|, sep);
    ContainsInPrefix(l, |RStrip(l)|, sep);
  }

  /** An item of a cleaned option list. */
  predicate CleanItem(x: string, sep: string) {
    x != "" && !Contains(x, sep) && !IsSpace(x[0]) && !IsSpace(x[|x| - 1])
  }

  lemma StripGivesCleanItem(p: string, sep: string)
    requires !Contains(p, sep)
    ensures Strip(p) != "" ==> CleanItem(Strip(p), sep)
  {
    StripProperties(p);
    StripKeepsAbsence(p, sep);
  }

  lemma {:induction false} StripNonBlankProperties(parts: seq<string>, sep: string)
    requires forall i :: 0 <= i < |parts| ==> !Contains(parts[i], sep)
    ensures forall x :: x in StripNonBlank(parts) ==> CleanItem(x, sep)
    decreases |parts|
  {
    if parts != [] {
      var tail := parts[1..];
      assert forall i :: 0 <= i < |tail| ==> tail[i] == parts[i + 1];
      StripNonBlankProperties(tail, sep);
      StripGivesCleanItem(parts[0], sep);
    }
  }

  /** The items of a `;`- or `,`-separated option list are non-empty, carry no
      separator and no surrounding whitespace. */
  lemma SplitCleanItems(s: string, sep: string)
    requires |sep| > 0
    ensures forall x :: x in SplitClean(s, sep) ==> CleanItem(x, sep)
  {
    SplitOnPiecesAvoidSep(s, sep);
    StripNonBlankProperties(SplitOn(s, sep), sep);
  }

  /** Whether `name` is an absolute POSIX path. */
  predicate IsAbsolute(name: string)
  {
    name != "" && name[0] == '/'
  }

  /** `str(Path(dir) / name)`: an absolute `name` replaces `dir`, and an
      empty `dir` is the current directory. */
  function JoinPath(dir: string, name: string): (p: string)
    ensures IsAbsolute(name) ==> p == name
    ensures dir == "" ==> p == name
    ensures !IsAbsolute(name) && dir != "" && dir[|dir| - 1] == '/' ==> p == dir + name
    ensures !IsAbsolute(name) && dir != "" && dir[|dir| - 1] != '/' ==> p == dir + "/" + name
  {
    if IsAbsolute(name) || dir == "" then name
    else if dir[|dir| - 1] == '/' then dir + name
    else dir + "/" + name
  }

  /** `s.lstrip(chars)` */
  function LStripChars(s: string, chars: set<char>): (r: string)
    ensures |r| <= |s| && r == s[|s| - |r|..]
    ensures r == [] || r[0] !in chars
    ensures forall i :: 0 <= i < |s| - |r| ==> s[i] in chars
    decreases |s|
  {
    if s != [] && s[0] in chars then
      var r := LStripChars(s[1..], chars);
      assert forall i :: 0 < i < |s| ==> s[i] == s[1..][i - 1];
      r
    else s
  }

  /** `s.rstrip(chars)` */
  function RStripChars(s: string, chars: set<char>): (r: string)
    ensures |r| <= |s| && r == s[..|r|]
    ensures r == [] || r[|r| - 1] !in chars
    ensures forall i :: |r| <= i < |s| ==> s[i] in chars
    decreases |s|
  {
    if s != [] && s[|s| - 1] in chars then
      var r := RStripChars(s[..|s| - 1], chars);
      assert forall i :: 0 <= i < |s| - 1 ==> s[i] == s[..|s| - 1][i];
      r
    else s
  }

  /** `s.strip(chars)`: the characters of `chars` removed from both ends, and
      only those. */
  function StripChars(s: string, chars: set<char>): (r: string)
    ensures r == [] || (r[0] !in chars && r[|r| - 1] !in chars)
    ensures var a := |s| - |LStripChars(s, chars)|;
      && a + |r| <= |s| && r == s[a..a + |r|]
      && (forall i :: 0 <= i < a ==> s[i] in chars)
      && (forall i :: a + |r| <= i < |s| ==> s[i] in chars)
  {
    var l := LStripChars(s, chars);
    var r := RStripChars(l, chars);
    StripCharsSlice(s, l, r, chars);
    StripCharsEnds(s, l, r, chars);
    r
  }

  lemma StripCharsEnds(s: string, l: string, r: string, chars: set<char>)
    requires l == LStripChars(s, chars) && r == RStripChars(l, chars)
    ensures forall i :: 0 <= i < |s| - |l| ==> s[i] in chars
    ensures r == [] || r[|r| - 1] !in chars
  {
  }

  lemma StripCharsSlice(s: string, l: string, r: string, chars: set<char>)
    requires l == LStripChars(s, chars) && r == RStripChars(l, chars)
    ensures var a := |s| - |l|;
      && a + |r| <= |s| && r == s[a..a + |r|]
      && (forall i :: a + |r| <= i < |s| ==> s[i] in chars)
      && (r == [] || r[0] !in chars)
  {
    var a := |s| - |l|;
    assert l == s[a..];
    assert r == l[..|r|];
    assert r == s[a..a + |r|];
    forall i | a + |r| <= i < |s| ensures s[i] in chars {
      assert s[i] == l[i - a];
    }
    if r != [] {
      assert r[0] == l[0];
    }
  }

  // ----- pathlib: the suffix and the stem of a file name -----

  /** `s.rfind(".")`: the index of the last dot, or -1. */
  function LastDot(s: string): (i: int)
    ensures -1 <= i < |s|
    ensures i >= 0 ==> s[i] == '.'
    ensures forall j :: i < j < |s| ==> s[j] != '.'
    decreases |s|
  {
    if s == [] then -1
    else if s[|s| - 1] == '.' then |s| - 1
    else
      var i := LastDot(s[..|s| - 1]);
      assert forall j :: i < j < |s| - 1 ==> s[j] == s[..|s| - 1][j];
      i
  }

  /** A suffix as `pathlib` reports one: a dot, at least one more character
      and no further dot. */
  predicate IsSuffix(x: string) {
    |x| >= 2 && x[0] == '.' && forall j :: 0 < j < |x| ==> x[j] != '.'
  }

  /** `PurePath(name).suffix` of a file name: from its last dot on, unless
      that dot is the first or the last character. */
  function Suffix(name: string): (x: string)
    ensures x == "" || (IsSuffix(x) && |x| < |name| && name[|name| - |x|..] == x)
  {
    var i := LastDot(name);
    if 0 < i < |name| - 1 then name[i..] else ""
  }

  /** `PurePath(name).stem`: the name without its suffix. */
  function Stem(name: string): (x: string)
    ensures x + Suffix(name) == name
  {
    name[..|name| - |Suffix(name)|]
  }

  /** A suffix appended to a non-empty name is the new name's suffix. */
  lemma SuffixOfAppended(n: string, x: string)
    ensures n != "" && IsSuffix(x) ==> Suffix(n + x) == x
  {
    if n != "" && IsSuffix(x) {
      var s := n + x;
      assert s[|n|] == '.';
      assert forall j :: |n| < j < |s| ==> s[j] == x[j - |n|];
      assert LastDot(s) == |n|;
      assert s[|n|..] == x;
    }
  }

  // ----- ordering of str and of pathlib paths -----

  predicate CharLt(a: char, b: char) {
    a < b
  }

  /** Python `a < b` on `str`: code-point lexicographic order. */
  predicate StrLt(a: string, b: string) {
    SeqLt(a, b, CharLt)
  }

  lemma StrLtIsStrictTotalOrder()
    ensures StrictTotalOrder(StrLt)
  {
    SeqLtIsStrictTotalOrder(CharLt);
    assert forall a, b :: StrLt(a, b) == ((x: string, y: string) => SeqLt(x, y, CharLt))(a, b);
  }

  /** Python `a < b` on POSIX `pathlib.Path` values: the lists of components
      (the string split on `/`) are compared, not the strings themselves. */
  predicate PathLt(a: string, b: string) {
    SeqLt(SplitOn(a, "/"), SplitOn(b, "/"), StrLt)
  }

  lemma PathLtIsStrictTotalOrder()
    ensures StrictTotalOrder(PathLt)
  {
    StrLtIsStrictTotalOrder();
    SeqLtIsStrictTotalOrder(StrLt);
    var slt := (x: seq<string>, y: seq<string>) => SeqLt(x, y, StrLt);
    forall a: string ensures !PathLt(a, a) {
      assert !slt(SplitOn(a, "/"), SplitOn(a, "/"));
    }
    forall a: string, b: string, c: string | PathLt(a, b) && PathLt(b, c) ensures PathLt(a, c) {
      assert slt(SplitOn(a, "/"), SplitOn(b, "/")) && slt(SplitOn(b, "/"), SplitOn(c, "/"));
    }
    forall a: string, b: string | a != b ensures PathLt(a, b) || PathLt(b, a) {
      SplitJoinRoundTrip(a, "/");
      SplitJoinRoundTrip(b, "/");
      assert SplitOn(a, "/") != SplitOn(b, "/");
      assert slt(SplitOn(a, "/"), SplitOn(b, "/")) || slt(SplitOn(b, "/"), SplitOn(a, "/"));
    }
  }
}
