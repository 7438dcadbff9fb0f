/** The environment check: version strings normalised to integer tuples and
    compared lexicographically, the per-entry status of the human-readable
    report, and the exit code. */
module CheckEnv {
  import opened Common
  import opened Ordering
  import opened Strings

  // ----- _normalize_version -----

  /** The separators of `re.split(r"[.+-]", ...)`. */
  predicate IsVersionSep(c: char) {
    c == '.' || c == '+' || c == '-'
  }

  function SepCount(s: string): (n: nat)
    ensures n <= |s|
    decreases |s|
  {
    if s == [] then 0 else (if IsVersionSep(s[0]) then 1 else 0) + SepCount(s[1..])
  }

  /** `s` with the separators removed. */
  function WithoutSeps(s: string): (r: string)
    ensures |r| + SepCount(s) == |s|
    decreases |s|
  {
    if s == [] then [] else (if IsVersionSep(s[0]) then [] else [s[0]]) + WithoutSeps(s[1..])
  }

  /** `re.split(r"[.+-]", s)`: the pieces between single separator
      characters; adjacent separators give empty pieces. */
  function VersionTokens(s: string): (ts: seq<string>)
    ensures |ts| == SepCount(s) + 1
    decreases |s|
  {
    if s == [] then [""]
    else
      var rest := VersionTokens(s[1..]);
      if IsVersionSep(s[0]) then [""] + rest
      else [[s[0]] + rest[0]] + rest[1..]
  }

  /** Concatenated, the tokens give back `s` without its separators. */
  lemma {:induction false} VersionTokensConcat(s: string)
    ensures Concat(VersionTokens(s)) == WithoutSeps(s)
    decreases |s|
  {
    if s != [] {
      var rest := VersionTokens(s[1..]);
      VersionTokensConcat(s[1..]);
      if IsVersionSep(s[0]) {
        assert Concat([""] + rest) == "" + Concat(rest);
      } else {
        assert rest == [rest[0]] + rest[1..];
        assert Concat(rest) == rest[0] + Concat(rest[1..]);
        assert Concat([[s[0]] + rest[0]] + rest[1..]) == [s[0]] + rest[0] + Concat(rest[1..]);
      }
    }
  }

  /** No token holds a separator. */
  lemma {:induction false} VersionTokensNoSeps(s: string)
    ensures forall i, j :: 0 <= i < |VersionTokens(s)| && 0 <= j < |VersionTokens(s)[i]| ==> !IsVersionSep(VersionTokens(s)[i][j])
    decreases |s|
  {
    if s != [] {
      var rest := VersionTokens(s[1..]);
      VersionTokensNoSeps(s[1..]);
      if !IsVersionSep(s[0]) {
        var ts := [[s[0]] + rest[0]] + rest[1..];
        forall i, j | 0 <= i < |ts| && 0 <= j < |ts[i]| ensures !IsVersionSep(ts[i][j]) {
          if i == 0 && j > 0 {
            assert ts[0][j] == rest[0][j - 1];
          } else if i > 0 {
            assert ts[i] == rest[i];
          }
        }
      }
    }
  }

  /** A string without separators is a single token. */
  lemma {:induction false} NoSepsOneToken(s: string)
    requires forall i :: 0 <= i < |s| ==> !IsVersionSep(s[i])
    ensures VersionTokens(s) == [s]
    decreases |s|
  {
    if s != [] {
      NoSepsOneToken(s[1..]);
      assert [s[0]] + s[1..] == s;
    }
  }

  /** A separator ends the token before it: the text before the first
      separator is the first token, and the rest splits on its own. */
  lemma {:induction false} TokensAtSep(a: string, c: char, b: string)
    requires forall i :: 0 <= i < |a| ==> !IsVersionSep(a[i])
    requires IsVersionSep(c)
    ensures VersionTokens(a + [c] + b) == [a] + VersionTokens(b)
    decreases |a|
  {
    if a == [] {
      assert (a + [c] + b)[1..] == b;
    } else {
      TokensAtSep(a[1..], c, b);
      assert (a + [c] + b)[1..] == a[1..] + [c] + b;
      assert [a[0]] + a[1..] == a;
    }
  }

  /** `ch.isdigit()`, on the ASCII digits. */
  predicate IsDigit(c: char) {
    '0' <= c <= '9'
  }

  /** `"".join(ch for ch in token if ch.isdigit())` */
  function DigitsOf(token: string): (ds: string)
    ensures |ds| <= |token|
    ensures forall i :: 0 <= i < |ds| ==> IsDigit(ds[i])
    ensures ds == [] <==> forall i :: 0 <= i < |token| ==> !IsDigit(token[i])
    ensures |token| == 1 ==> ds == (if IsDigit(token[0]) then token else [])
    decreases |token|
  {
    if token == [] then []
    else
      var rest := DigitsOf(token[1..]);
      var ds := (if IsDigit(token[0]) then [token[0]] else []) + rest;
      assert ds == [] <==> forall i :: 0 <= i < |token| ==> !IsDigit(token[i]) by {
        if ds == [] {
          forall i | 0 <= i < |token| ensures !IsDigit(token[i]) {
            if i > 0 {
              assert token[i] == token[1..][i - 1];
            }
          }
        }
      }
      ds
  }

  /** The digits are kept in order: the digits of a concatenation are the
      digits of the first part followed by those of the second. */
  lemma {:induction false} DigitsOfAppend(a: string, b: string)
    ensures DigitsOf(a + b) == DigitsOf(a) + DigitsOf(b)
    decreases |a|
  {
    if a != [] {
      assert (a + b)[0] == a[0] && (a + b)[1..] == a[1..] + b;
      DigitsOfAppend(a[1..], b);
    } else {
      assert a + b == b;
    }
  }

  /** `int(ds)` for a string of decimal digits. */
  function DecimalValue(ds: string): (n: nat)
    requires forall i :: 0 <= i < |ds| ==> IsDigit(ds[i])
    decreases |ds|
  {
    if ds == [] then 0
    else
      var d := ds[|ds| - 1] as int - '0' as int;
      assert IsDigit(ds[|ds| - 1]);
      DecimalValue(ds[..|ds| - 1]) * 10 + d
  }

  /** The integers `_normalize_version` keeps from `tokens`: one per token
      that has a digit, its digits read as one decimal number. */
  function Normalized(tokens: seq<string>): (parts: seq<int>)
    ensures |parts| <= |tokens|
    ensures forall i :: 0 <= i < |parts| ==> parts[i] >= 0
    decreases |tokens|
  {
    if tokens == [] then []
    else
      var ds := DigitsOf(tokens[|tokens| - 1]);
      Normalized(tokens[..|tokens| - 1]) + (if ds != [] then [DecimalValue(ds)] else [])
  }

  /** The tuple `_normalize_version(s)` returns. */
  function Version(s: string): seq<int> {
    Normalized(VersionTokens(s))
  }

  /** `_normalize_version`: the loop over the tokens. */
  method NormalizeVersion(versionStr: string) returns (parts: seq<int>)
    ensures parts == Version(versionStr)
  {
    var tokens := VersionTokens(versionStr);
    parts := [];
    for i := 0 to |tokens|
      invariant parts == Normalized(tokens[..i])
    {
      assert tokens[..i + 1][..i] == tokens[..i];
      var tokenDigits := DigitsOf(tokens[i]);
      if tokenDigits != [] {
        parts := parts + [DecimalValue(tokenDigits)];
      }
    }
    assert tokens[..|tokens|] == tokens;
  }

  /** Normalising is token by token. */
  lemma {:induction false} NormalizedAppend(xs: seq<string>, ys: seq<string>)
    ensures Normalized(xs + ys) == Normalized(xs) + Normalized(ys)
    decreases |ys|
  {
    if ys == [] {
      assert xs + ys == xs;
    } else {
      var n := |ys| - 1;
      assert (xs + ys)[..|xs + ys| - 1] == xs + ys[..n];
      NormalizedAppend(xs, ys[..n]);
    }
  }

  /** A token without a digit contributes nothing, and any other token
      contributes exactly the number its digits spell. */
  lemma TokenContribution(xs: seq<string>, t: string, ys: seq<string>)
    ensures (forall i :: 0 <= i < |t| ==> !IsDigit(t[i])) ==> Normalized(xs + [t] + ys) == Normalized(xs + ys)
    ensures (exists i :: 0 <= i < |t| && IsDigit(t[i])) ==>
      Normalized(xs + [t] + ys) == Normalized(xs) + [DecimalValue(DigitsOf(t))] + Normalized(ys)
  {
    var xt := xs + [t];
    assert xs + [t] + ys == xt + ys;
    NormalizedAppend(xt, ys);
    assert xt[..|xt| - 1] == xs;
    NormalizedAppend(xs, ys);
  }

  /** Within a token the non-digits are dropped before the conversion:
      `1rc2` reads as 12. */
  lemma DigitsJoinAcrossLetters()
    ensures Version("1rc2") == [12]
  {
    NoSepsOneToken("1rc2");
    assert DigitsOf("2") == "2";
    assert DigitsOf("c2") == DigitsOf("2");
    assert DigitsOf("rc2") == DigitsOf("c2");
    assert DigitsOf("1rc2") == "1" + DigitsOf("rc2");
    assert DecimalValue("1") == 1;
    assert DecimalValue("12") == 12 by {
      assert "12"[..1] == "1";
    }
    assert ["1rc2"][..0] == [];
  }

  // ----- _version_ok -----

  predicate IntLt(a: int, b: int) {
    a < b
  }

  lemma IntLtIsStrictTotalOrder()
    ensures StrictTotalOrder(IntLt)
  {
  }

  /** Python's `a >= b` on tuples of ints. */
  predicate TupleGe(a: seq<int>, b: seq<int>) {
    !SeqLt(a, b, IntLt)
  }

  /** `_version_ok(installed, minimum)` */
  function VersionOk(installed: string, minimum: string): (ok: bool)
    ensures installed == "" ==> !ok
    ensures installed != "" && minimum == "" ==> ok
  {
    if installed == "" then false
    else if minimum == "" then true
    else TupleGe(Version(installed), Version(minimum))
  }

  /** Where the two tuples first differ, the installed part must be the
      larger one. */
  lemma VersionOkAtFirstDifference(installed: string, minimum: string, i: nat)
    requires installed != "" && minimum != ""
    requires i < |Version(installed)| && i < |Version(minimum)|
    requires Version(installed)[..i] == Version(minimum)[..i]
    requires Version(installed)[i] != Version(minimum)[i]
    ensures VersionOk(installed, minimum) <==> Version(installed)[i] > Version(minimum)[i]
  {
    var vi, vm := Version(installed), Version(minimum);
    IntLtIsStrictTotalOrder();
    SeqLtAfterCommonPrefix(vi, vm, i, IntLt);
    assert vi[i..][0] == vi[i] && vm[i..][0] == vm[i];
  }

  /** An installed tuple that is a proper prefix of the minimum's is too
      old: `1.22` does not meet `1.22.0`. */
  lemma VersionOkProperPrefix(installed: string, minimum: string)
    requires installed != "" && minimum != ""
    requires |Version(installed)| < |Version(minimum)|
    requires Version(installed) == Version(minimum)[..|Version(installed)|]
    ensures !VersionOk(installed, minimum)
  {
    var vi, vm := Version(installed), Version(minimum);
    IntLtIsStrictTotalOrder();
    assert vi[..|vi|] == vi;
    SeqLtAfterCommonPrefix(vi, vm, |vi|, IntLt);
    assert vi[|vi|..] == [];
  }

  /** An installed tuple that starts with the whole minimum tuple meets it,
      equal tuples included. */
  lemma VersionOkExtends(installed: string, minimum: string)
    requires installed != "" && minimum != ""
    requires |Version(minimum)| <= |Version(installed)|
    requires Version(minimum) == Version(installed)[..|Version(minimum)|]
    ensures VersionOk(installed, minimum)
  {
    var vi, vm := Version(installed), Version(minimum);
    IntLtIsStrictTotalOrder();
    assert vm[..|vm|] == vm;
    SeqLtAfterCommonPrefix(vi, vm, |vm|, IntLt);
    assert vm[|vm|..] == [];
  }

  /** Every non-empty version satisfies itself as a minimum. */
  lemma VersionOkReflexive(v: string)
    requires v != ""
    ensures VersionOk(v, v)
  {
    IntLtIsStrictTotalOrder();
    SeqLtIrreflexive(Version(v), IntLt);
  }

  /** Of two non-empty versions, one satisfies the other as a minimum. */
  lemma VersionOkTotal(a: string, b: string)
    requires a != "" && b != ""
    ensures VersionOk(a, b) || VersionOk(b, a)
  {
    IntLtIsStrictTotalOrder();
    var va, vb := Version(a), Version(b);
    if SeqLt(va, vb, IntLt) {
      SeqLtIrreflexive(va, IntLt);
      if SeqLt(vb, va, IntLt) {
        SeqLtTransitive(va, vb, va, IntLt);
      }
    }
  }

  /** Satisfying a minimum carries over through an intermediate version. */
  lemma VersionOkTransitive(a: string, b: string, c: string)
    requires VersionOk(a, b) && VersionOk(b, c) && b != ""
    ensures VersionOk(a, c)
  {
    IntLtIsStrictTotalOrder();
    var va, vb, vc := Version(a), Version(b), Version(c);
    if c != "" && va != vb {
      SeqLtTotal(va, vb, IntLt);
      if SeqLt(va, vc, IntLt) {
        SeqLtTransitive(vb, va, vc, IntLt);
      }
    }
  }

  /** The token `22` reads as the number 22. */
  lemma TwentyTwo(t: string)
    requires t == "22"
    ensures DigitsOf(t) == t
    ensures DecimalValue(t) == 22
  {
    var u := t[1..];
    assert u == "2" && u[1..] == [];
    assert DigitsOf(u) == [u[0]] + DigitsOf(u[1..]) == u;
    assert DigitsOf(t) == [t[0]] + u;
    assert [t[0]] + u == t;
    assert t[..1] == "2" && t[..1][..0] == [];
    assert DecimalValue(t[..1]) == 2;
  }

  /** The tokens `1`, `22` and `0` normalise to their numbers. */
  lemma NormalizedOneTwentyTwo(t: string)
    requires t == "22"
    ensures Normalized(["1", t]) == [1, 22]
    ensures Normalized(["1", t, "0"]) == [1, 22, 0]
  {
    TwentyTwo(t);
    assert DigitsOf("1") == "1" && DecimalValue("1") == 1;
    assert DigitsOf("0") == "0" && DecimalValue("0") == 0;
    assert ["1", t, "0"][..2] == ["1", t] && ["1", t][..1] == ["1"] && ["1"][..0] == [];
    assert Normalized(["1"]) == [1];
  }

  lemma VersionOneTwentyTwo(s: string, t: string)
    requires s == "1.22" && t == "22"
    ensures Version(s) == [1, 22]
  {
    NoSepsOneToken(t);
    assert s == "1" + ['.'] + t;
    TokensAtSep("1", '.', t);
    NoSepsOneToken("1");
    assert VersionTokens(s) == ["1", t];
    NormalizedOneTwentyTwo(t);
  }

  lemma VersionOneTwentyTwoZero(s: string, t: string)
    requires s == "1.22.0" && t == "22"
    ensures Version(s) == [1, 22, 0]
  {
    NoSepsOneToken("0");
    NoSepsOneToken(t);
    assert t + ['.'] + "0" == "22.0";
    TokensAtSep(t, '.', "0");
    assert s == "1" + ['.'] + "22.0";
    TokensAtSep("1", '.', "22.0");
    assert VersionTokens(s) == ["1", t, "0"];
    NormalizedOneTwentyTwo(t);
  }

  /** A proper prefix is smaller: a minimum of `1.22.0` is not met by
      `1.22`. */
  lemma PrefixVersionIsOlder(installed: string, minimum: string)
    requires installed == "1.22" && minimum == "1.22.0"
    ensures !VersionOk(installed, minimum)
  {
    VersionOneTwentyTwo(installed, "22");
    VersionOneTwentyTwoZero(minimum, "22");
    assert [1, 22][1..] == [22] && [1, 22, 0][1..] == [22, 0];
    assert [22][1..] == [] && [22, 0][1..] == [0];
  }

  // ----- format_human and the exit code -----

  /** One result entry; `None` is a key the dictionary lacks. */
  datatype Entry = Entry(component: Option<string>, required: Option<bool>, ok: Option<bool>, detail: Option<string>)

  datatype Status = OK | MISSING | WARN

  /** The status `format_human` prints: `required` defaults to true. */
  function StatusOf(e: Entry): (s: Status)
    ensures s == OK <==> e.ok == Some(true)
    ensures s == MISSING <==> e.ok != Some(true) && e.required != Some(false)
    ensures s == WARN <==> e.ok != Some(true) && e.required == Some(false)
  {
    if e.ok == Some(true) then OK
    else if e.required != Some(false) then MISSING
    else WARN
  }

  function StatusText(s: Status): (t: string)
    ensures 2 <= |t| <= 7
  {
    match s
    case OK => "OK"
    case MISSING => "MISSING"
    case WARN => "WARN"
  }

  /** `"[%s] %-22s %s" % (status.ljust(7), component, detail)` */
  function HumanLine(e: Entry): (line: string)
    ensures |line| >= 9 && line[..9] == "[" + LJust(StatusText(StatusOf(e)), 7) + "]"
  {
    var status := LJust(StatusText(StatusOf(e)), 7);
    var component := if e.component.Some? then e.component.value else "unknown";
    var detail := if e.detail.Some? then e.detail.value else "";
    var line := "[" + status + "] " + LJust(component, 22) + " " + detail;
    assert |status| == 7;
    assert line[..9] == "[" + status + "]";
    line
  }

  /** One line per entry, in order, each written by `line`. */
  function LinesOf(results: seq<Entry>, line: Entry -> string): (lines: seq<string>)
    ensures |lines| == |results|
    decreases |results|
  {
    if results == [] then []
    else LinesOf(results[..|results| - 1], line) + [line(results[|results| - 1])]
  }

  function HumanLines(results: seq<Entry>): (lines: seq<string>)
    ensures |lines| == |results|
  {
    LinesOf(results, HumanLine)
  }

  lemma {:induction false} LinesOfAt(results: seq<Entry>, line: Entry -> string, i: nat)
    requires i < |results|
    ensures LinesOf(results, line)[i] == line(results[i])
    decreases |results|
  {
    var n := |results| - 1;
    if i < n {
      LinesOfAt(results[..n], line, i);
    }
  }

  /** The `i`th line reports the `i`th entry (its status in a seven-wide
      column, by `HumanLine`). */
  lemma HumanLinesAt(results: seq<Entry>, i: nat)
    requires i < |results|
    ensures HumanLines(results)[i] == HumanLine(results[i])
  {
    LinesOfAt(results, HumanLine, i);
  }

  lemma HumanLinesSnoc(results: seq<Entry>, i: nat)
    requires i < |results|
    ensures HumanLines(results[..i + 1]) == HumanLines(results[..i]) + [HumanLine(results[i])]
  {
    assert results[..i + 1][..i] == results[..i];
  }

  /** `format_human`: one line per entry, joined by newlines. */
  method FormatHuman(results: seq<Entry>) returns (text: string)
    ensures text == Join(HumanLines(results), "\n")
  {
    var lines: seq<string> := [];
    var i := 0;
    while i < |results|
      invariant i <= |results|
      invariant lines == HumanLines(results[..i])
    {
      HumanLinesSnoc(results, i);
      lines := lines + [HumanLine(results[i])];
      i := i + 1;
    }
    assert results[..i] == results;
    text := Join(lines, "\n");
  }

  /** `entry.get("ok", False) or not entry.get("required", True)` */
  predicate Satisfied(e: Entry) {
    e.ok == Some(true) || e.required == Some(false)
  }

  /** The exit code of `main`. */
  function ExitCode(results: seq<Entry>): (code: int)
    ensures code == 0 || code == 1
    ensures code == 0 <==> forall i :: 0 <= i < |results| ==> Satisfied(results[i])
  {
    if forall i :: 0 <= i < |results| ==> Satisfied(results[i]) then 0 else 1
  }

  /** The exit code is 0 exactly when the report shows no `MISSING` line. */
  lemma ExitZeroIffNothingMissing(results: seq<Entry>)
    ensures ExitCode(results) == 0 <==> forall i :: 0 <= i < |results| ==> StatusOf(results[i]) != MISSING
  {
  }
}
