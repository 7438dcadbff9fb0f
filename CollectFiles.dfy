/** File selection for the collect step: text normalisation, file-name
    tokens, fuzzy keyword scores and the include/exclude decision, name
    shortening with a hash suffix, `{key}` templates, metadata extracted from
    file names, and the rule that shortens a destination path. */
module CollectFiles {
  import opened Common
  import opened Ordering
  import opened Strings

  // ----- _norm_text -----

  predicate IsLowerAlnum(c: char) {
    ('a' <= c <= 'z') || ('0' <= c <= '9')
  }

  /** What `c.lower()` contributes after every character outside `a-z0-9` is
      removed: `A-Z` lower-case, `a-z0-9` stay, U+0130 lowers to `i` plus a
      combining dot and the Kelvin sign U+212A to `k`; nothing else lowers to
      an ASCII letter or digit. */
  function NormChar(c: char): (r: string)
    ensures |r| <= 1 && forall i :: 0 <= i < |r| ==> IsLowerAlnum(r[i])
    ensures IsLowerAlnum(c) ==> r == [c]
  {
    if 'A' <= c <= 'Z' then [LowerChar(c)]
    else if IsLowerAlnum(c) then [c]
    else if c == '\U{0130}' then "i"
    else if c == '\U{212A}' then "k"
    else ""
  }

  /** `_norm_text`: `re.sub(r"[^a-z0-9]+", "", s.lower())`. */
  function NormText(s: string): (t: string)
    ensures |t| <= |s|
  {
    if s == [] then "" else NormChar(s[0]) + NormText(s[1..])
  }

  /** The normalised text holds only `a-z0-9` and is no longer than the input. */
  lemma {:induction false} NormTextAlnum(s: string)
    ensures |NormText(s)| <= |s|
    ensures forall i :: 0 <= i < |NormText(s)| ==> IsLowerAlnum(NormText(s)[i])
  {
    if s != [] {
      NormTextAlnum(s[1..]);
      var h := NormChar(s[0]);
      var t := NormText(s[1..]);
      assert forall i :: |h| <= i < |h + t| ==> (h + t)[i] == t[i - |h|];
    }
  }

  lemma {:induction false} NormTextKeepsAlnum(s: string)
    requires forall i :: 0 <= i < |s| ==> IsLowerAlnum(s[i])
    ensures NormText(s) == s
  {
    if s != [] {
      NormTextKeepsAlnum(s[1..]);
      assert s == [s[0]] + s[1..];
    }
  }

  /** Normalising twice is normalising once. */
  lemma NormTextIdempotent(s: string)
    ensures NormText(NormText(s)) == NormText(s)
  {
    NormTextAlnum(s);
    NormTextKeepsAlnum(NormText(s));
  }

  // ----- _tokenize_filename -----

  /** The characters of `[\s_\-\.]`. */
  predicate IsSeparator(c: char) {
    IsSpace(c) || c == '_' || c == '-' || c == '.'
  }

  /** The pieces between single separator characters. Splitting on runs of
      separators (`re.split(r"[\s_\-\.]+", s)`) and dropping the empty pieces
      gives the same tokens as splitting on every separator and dropping the
      empty pieces. */
  function SplitAtSeparators(s: string): (parts: seq<string>)
    ensures |parts| >= 1
  {
    if s == [] then [""]
    else if IsSeparator(s[0]) then [""] + SplitAtSeparators(s[1..])
    else
      var rest := SplitAtSeparators(s[1..]);
      [[s[0]] + rest[0]] + rest[1..]
  }

  function NonEmpty(parts: seq<string>): (r: seq<string>)
    ensures forall i :: 0 <= i < |r| ==> r[i] != ""
    ensures forall x :: x in r ==> x in parts
  {
    if parts == [] then []
    else (if parts[0] != "" then [parts[0]] else []) + NonEmpty(parts[1..])
  }

  /** `_tokenize_filename`: the tokens are non-empty and hold no separator. */
  function Tokenize(name: string): (tokens: seq<string>)
    ensures forall i :: 0 <= i < |tokens| ==> tokens[i] != "" && NoSeparator(tokens[i])
  {
    SplitAtSeparatorsNoSeparator(name);
    NonEmpty(SplitAtSeparators(name))
  }

  function DropSeparators(s: string): string {
    if s == [] then ""
    else (if IsSeparator(s[0]) then "" else [s[0]]) + DropSeparators(s[1..])
  }

  predicate NoSeparator(p: string) {
    forall i :: 0 <= i < |p| ==> !IsSeparator(p[i])
  }

  lemma {:induction false} SplitAtSeparatorsNoSeparator(s: string)
    ensures forall p :: p in SplitAtSeparators(s) ==> NoSeparator(p)
  {
    if s != [] {
      SplitAtSeparatorsNoSeparator(s[1..]);
      var rest := SplitAtSeparators(s[1..]);
      if !IsSeparator(s[0]) {
        var head := [s[0]] + rest[0];
        assert rest[0] in rest;
        assert NoSeparator(head) by {
          assert forall i :: 1 <= i < |head| ==> head[i] == rest[0][i - 1];
        }
        forall p | p in [head] + rest[1..] ensures NoSeparator(p) {
          if p != head {
            assert p in rest;
          }
        }
      }
    }
  }

  lemma {:induction false} SplitAtSeparatorsConcat(s: string)
    ensures Concat(SplitAtSeparators(s)) == DropSeparators(s)
  {
    if s != [] {
      SplitAtSeparatorsConcat(s[1..]);
      var rest := SplitAtSeparators(s[1..]);
      if !IsSeparator(s[0]) {
        assert rest == [rest[0]] + rest[1..];
        ConcatCons([s[0]] + rest[0], rest[1..]);
        ConcatCons(rest[0], rest[1..]);
      } else {
        ConcatCons("", rest);
      }
    }
  }

  lemma {:induction false} ConcatNonEmpty(parts: seq<string>)
    ensures Concat(NonEmpty(parts)) == Concat(parts)
  {
    if parts != [] {
      ConcatNonEmpty(parts[1..]);
      ConcatCons(parts[0], parts[1..]);
      if parts[0] != "" {
        ConcatCons(parts[0], NonEmpty(parts[1..]));
      } else {
        assert NonEmpty(parts) == NonEmpty(parts[1..]);
      }
    }
  }

  /** Tokens are never empty, contain no separator, and together spell the
      name with its separators removed. */
  lemma TokenizeProperties(name: string)
    ensures forall t :: t in Tokenize(name) ==> t != ""
    ensures forall t :: t in Tokenize(name) ==> NoSeparator(t)
    ensures Concat(Tokenize(name)) == DropSeparators(name)
  {
    SplitAtSeparatorsNoSeparator(name);
    SplitAtSeparatorsConcat(name);
    ConcatNonEmpty(SplitAtSeparators(name));
  }

  // ----- _similarity and _best_keyword_score -----

  /** `SequenceMatcher(None, a, b).ratio()` is a value in [0, 1]. */
  ghost predicate IsRatio(ratio: (string, string) -> real) {
    forall a, b :: 0.0 <= ratio(a, b) <= 1.0
  }

  /** `_similarity` */
  function Similarity(a: string, b: string, ratio: (string, string) -> real): (r: real)
    ensures a == "" || b == "" ==> r == 0.0
    ensures IsRatio(ratio) ==> 0.0 <= r <= 1.0
  {
    if a == "" || b == "" then 0.0 else ratio(a, b)
  }

  /** A text compared with the keyword, and the reason reported when it wins. */
  datatype Candidate = Candidate(text: string, reason: string)

  /** Best score and its reason. */
  datatype Scored = Scored(score: real, reason: string)

  /** One `if sc > best: best, reason = sc, ...` step. */
  function Step(acc: Scored, c: Candidate, kw: string, ratio: (string, string) -> real): Scored {
    var sc := Similarity(kw, c.text, ratio);
    if sc > acc.score then Scored(sc, c.reason) else acc
  }

  /** The running best after trying the candidates in order. */
  function Best(cands: seq<Candidate>, init: Scored, kw: string, ratio: (string, string) -> real): Scored
    decreases |cands|
  {
    if cands == [] then init
    else Step(Best(cands[..|cands| - 1], init, kw, ratio), cands[|cands| - 1], kw, ratio)
  }

  /** One more candidate is one more step. */
  lemma BestSnoc(cands: seq<Candidate>, i: nat, init: Scored, kw: string, ratio: (string, string) -> real)
    requires i < |cands|
    ensures Best(cands[..i + 1], init, kw, ratio) == Step(Best(cands[..i], init, kw, ratio), cands[i], kw, ratio)
  {
    assert cands[..i + 1][..i] == cands[..i];
  }

  lemma {:induction false} BestAppend(a: seq<Candidate>, b: seq<Candidate>, init: Scored, kw: string, ratio: (string, string) -> real)
    ensures Best(a + b, init, kw, ratio) == Best(b, Best(a, init, kw, ratio), kw, ratio)
    decreases |b|
  {
    if b == [] {
      assert a + b == a;
    } else {
      assert (a + b)[..|a + b| - 1] == a + b[..|b| - 1];
      BestAppend(a, b[..|b| - 1], init, kw, ratio);
    }
  }

  /** The running best is the maximum of the start and every candidate's
      score; it changes only on a strict improvement, and then to a
      candidate's score and reason. */
  lemma {:induction false} BestIsMaximum(cands: seq<Candidate>, init: Scored, kw: string, ratio: (string, string) -> real)
    ensures Best(cands, init, kw, ratio).score >= init.score
    ensures forall i :: 0 <= i < |cands| ==> Similarity(kw, cands[i].text, ratio) <= Best(cands, init, kw, ratio).score
    ensures Best(cands, init, kw, ratio).score == init.score ==> Best(cands, init, kw, ratio) == init
    ensures Best(cands, init, kw, ratio) == init
         || exists i :: 0 <= i < |cands| && Best(cands, init, kw, ratio) == Scored(Similarity(kw, cands[i].text, ratio), cands[i].reason)
    decreases |cands|
  {
    if cands != [] {
      var n := |cands| - 1;
      BestIsMaximum(cands[..n], init, kw, ratio);
      var prev := Best(cands[..n], init, kw, ratio);
      assert forall i :: 0 <= i < n ==> cands[..n][i] == cands[i];
      if prev != init {
        var i :| 0 <= i < n && prev == Scored(Similarity(kw, cands[..n][i].text, ratio), cands[..n][i].reason);
        assert cands[..n][i] == cands[i];
      }
    }
  }

  /** `[_norm_text(t) for t in tokens if _norm_text(t)]` */
  function NormTokens(tokens: seq<string>): (r: seq<string>)
    ensures forall i :: 0 <= i < |r| ==> r[i] != ""
  {
    if tokens == [] then []
    else (if NormText(tokens[0]) != "" then [NormText(tokens[0])] else []) + NormTokens(tokens[1..])
  }

  function TokenCandidates(tokens: seq<string>): (r: seq<Candidate>)
    ensures |r| == |tokens| && forall i :: 0 <= i < |r| ==> r[i] == Candidate(tokens[i], "token")
  {
    seq(|tokens|, i requires 0 <= i < |tokens| => Candidate(tokens[i], "token"))
  }

  function WindowReason(win: int): string {
    if win == 2 then "token_window_2" else "token_window_3"
  }

  /** The joined windows of `win` consecutive tokens, left to right. */
  function WindowCandidates(tokens: seq<string>, win: nat): (r: seq<Candidate>)
    requires win >= 1
    ensures |tokens| < win ==> r == []
    ensures |tokens| >= win ==> |r| == |tokens| - win + 1
    ensures forall i :: 0 <= i < |r| ==> r[i] == Candidate(Concat(tokens[i..i + win]), WindowReason(win))
  {
    if |tokens| < win then []
    else seq(|tokens| - win + 1, i requires 0 <= i < |tokens| - win + 1 => Candidate(Concat(tokens[i..i + win]), WindowReason(win)))
  }

  /** Windows of sizes 2 up to `upTo - 1`. */
  function Windows(tokens: seq<string>, upTo: nat): seq<Candidate>
    requires 2 <= upTo
    decreases upTo
  {
    if upTo == 2 then [] else Windows(tokens, upTo - 1) + WindowCandidates(tokens, upTo - 1)
  }

  /** `_best_keyword_score(keyword, filename)`. */
  function KeywordScore(keyword: string, filename: string, ratio: (string, string) -> real): (r: Scored)
    ensures NormText(keyword) == "" || NormText(filename) == "" ==> r == Scored(0.0, "empty")
    ensures NormText(keyword) != "" && NormText(filename) != "" && Contains(NormText(filename), NormText(keyword))
            ==> r == Scored(1.0, "substring")
  {
    var kw := NormText(keyword);
    var fn := NormText(filename);
    if kw == "" || fn == "" then Scored(0.0, "empty")
    else if Contains(fn, kw) then Scored(1.0, "substring")
    else
      var tokens := NormTokens(Tokenize(filename));
      Best(TokenCandidates(tokens) + Windows(tokens, 4), Scored(Similarity(kw, fn, ratio), "full"), kw, ratio)
  }

  /** Without an empty side or a substring match, the score is at least the
      whole-name similarity, at least every token's and window's similarity,
      stays in [0, 1], and the reason stays `full` unless some candidate
      scores strictly higher. */
  lemma KeywordScoreFuzzy(keyword: string, filename: string, ratio: (string, string) -> real)
    requires IsRatio(ratio)
    requires NormText(keyword) != "" && NormText(filename) != "" && !Contains(NormText(filename), NormText(keyword))
    ensures var r := KeywordScore(keyword, filename, ratio);
      && 0.0 <= r.score <= 1.0
      && r.score >= Similarity(NormText(keyword), NormText(filename), ratio)
      && (forall t :: t in NormTokens(Tokenize(filename)) ==> Similarity(NormText(keyword), t, ratio) <= r.score)
      && (r.reason == "full" || r.score > Similarity(NormText(keyword), NormText(filename), ratio))
  {
    var kw := NormText(keyword);
    var fn := NormText(filename);
    var tokens := NormTokens(Tokenize(filename));
    var cands := TokenCandidates(tokens) + Windows(tokens, 4);
    var init := Scored(Similarity(kw, fn, ratio), "full");
    var r := Best(cands, init, kw, ratio);
    assert KeywordScore(keyword, filename, ratio) == r;
    BestIsMaximum(cands, init, kw, ratio);
    BestCoversTokens(tokens, Windows(tokens, 4), init, kw, ratio);
    if r != init {
      var i :| 0 <= i < |cands| && r == Scored(Similarity(kw, cands[i].text, ratio), cands[i].reason);
    }
  }

  /** The scan scores every token at least as high as its similarity. */
  lemma BestCoversTokens(tokens: seq<string>, windows: seq<Candidate>, init: Scored, kw: string, ratio: (string, string) -> real)
    ensures forall t :: t in tokens ==> Similarity(kw, t, ratio) <= Best(TokenCandidates(tokens) + windows, init, kw, ratio).score
  {
    var cands := TokenCandidates(tokens) + windows;
    BestIsMaximum(cands, init, kw, ratio);
    forall t | t in tokens ensures Similarity(kw, t, ratio) <= Best(cands, init, kw, ratio).score {
      var i :| 0 <= i < |tokens| && tokens[i] == t;
      assert cands[i] == Candidate(t, "token");
    }
  }

  /** The inner loop over the windows of `win` tokens. */
  method ScanWindows(kw: string, tokensN: seq<string>, win: nat, acc: Scored, ratio: (string, string) -> real) returns (r: Scored)
    requires 2 <= win <= |tokensN|
    ensures r == Best(WindowCandidates(tokensN, win), acc, kw, ratio)
  {
    var best := acc.score;
    var reason := acc.reason;
    var windows := WindowCandidates(tokensN, win);
    for i := 0 to |tokensN| - win + 1
      invariant Scored(best, reason) == Best(windows[..i], acc, kw, ratio)
    {
      BestSnoc(windows, i, acc, kw, ratio);
      var joined := Concat(tokensN[i..i + win]);
      var sc := Similarity(kw, joined, ratio);
      if sc > best {
        best := sc;
        reason := WindowReason(win);
      }
    }
    assert windows[..|tokensN| - win + 1] == windows;
    return Scored(best, reason);
  }

  /** The loop over single tokens. */
  method ScanTokens(kw: string, tokensN: seq<string>, init: Scored, ratio: (string, string) -> real) returns (r: Scored)
    ensures r == Best(TokenCandidates(tokensN), init, kw, ratio)
  {
    var best := init.score;
    var reason := init.reason;
    var cands := TokenCandidates(tokensN);
    for j := 0 to |tokensN|
      invariant Scored(best, reason) == Best(cands[..j], init, kw, ratio)
    {
      BestSnoc(cands, j, init, kw, ratio);
      var sc := Similarity(kw, tokensN[j], ratio);
      if sc > best {
        best := sc;
        reason := "token";
      }
    }
    assert cands[..|tokensN|] == cands;
    return Scored(best, reason);
  }

  /** `_best_keyword_score`: the token loop, then the window loops for sizes
      2 and 3, each keeping the first strictly better score. */
  method BestKeywordScore(keyword: string, filename: string, ratio: (string, string) -> real) returns (r: Scored)
    ensures r == KeywordScore(keyword, filename, ratio)
  {
    var kw := NormText(keyword);
    var fn := NormText(filename);
    if kw == "" || fn == "" {
      return Scored(0.0, "empty");
    }
    if Contains(fn, kw) {
      return Scored(1.0, "substring");
    }
    var tokensN := NormTokens(Tokenize(filename));
    var init := Scored(Similarity(kw, fn, ratio), "full");
    var afterTokens := ScanTokens(kw, tokensN, init, ratio);
    var best, reason := afterTokens.score, afterTokens.reason;
    for win := 2 to 4
      invariant Scored(best, reason) == Best(Windows(tokensN, win), afterTokens, kw, ratio)
    {
      if |tokensN| < win {
        assert Windows(tokensN, win + 1) == Windows(tokensN, win) + [];
        continue;
      }
      var before := Scored(best, reason);
      var after := ScanWindows(kw, tokensN, win, before, ratio);
      best, reason := after.score, after.reason;
      BestAppend(Windows(tokensN, win), WindowCandidates(tokensN, win), afterTokens, kw, ratio);
    }
    BestAppend(TokenCandidates(tokensN), Windows(tokensN, 4), init, kw, ratio);
    return Scored(best, reason);
  }

  // ----- _decide_include -----

  /** The score of one keyword against the file name:
      `_best_keyword_score(kw, filename)[0]`. */
  function Scorer(filename: string, ratio: (string, string) -> real): string -> real {
    kw => KeywordScore(kw, filename, ratio).score
  }

  /** `_best_keyword_score(kw, filename)[0]` */
  method KeywordScoreOf(kw: string, filename: string, ratio: (string, string) -> real) returns (sc: real)
    ensures sc == Scorer(filename, ratio)(kw)
  {
    var r := BestKeywordScore(kw, filename, ratio);
    sc := r.score;
  }

  /** The `{keyword: score}` dictionary filled by a keyword loop. */
  function ScoreMap(kws: seq<string>, score: string -> real): (m: map<string, real>)
    ensures forall kw :: kw in m <==> kw in kws
    ensures forall kw :: kw in m ==> m[kw] == score(kw)
    decreases |kws|
  {
    if kws == [] then map[]
    else
      var n := |kws| - 1;
      assert kws == kws[..n] + [kws[n]];
      ScoreMap(kws[..n], score)[kws[n] := score(kws[n])]
  }

  /** `scores.get(kw, 0.0)` */
  function Lookup(m: map<string, real>, kw: string): real {
    if kw in m then m[kw] else 0.0
  }

  lemma ScoreMapLookup(kws: seq<string>, score: string -> real)
    ensures forall i :: 0 <= i < |kws| ==> Lookup(ScoreMap(kws, score), kws[i]) == score(kws[i])
  {
  }

  /** A leading keyword and its score. */
  datatype Leader = Leader(keyword: string, score: real)

  /** The leader after the keyword loop: starting from `("", 0.0)`, a keyword
      takes over only with a strictly greater score. */
  function LeaderOf(kws: seq<string>, score: string -> real): Leader
    decreases |kws|
  {
    if kws == [] then Leader("", 0.0)
    else
      var prev := LeaderOf(kws[..|kws| - 1], score);
      var sc := score(kws[|kws| - 1]);
      if sc > prev.score then Leader(kws[|kws| - 1], sc) else prev
  }

  /** The leader is the first keyword reaching the highest score; it stays
      `("", 0.0)` when no score exceeds 0. */
  lemma {:induction false} LeaderIsFirstMaximum(kws: seq<string>, score: string -> real)
    ensures var l := LeaderOf(kws, score);
      && l.score >= 0.0
      && (forall j :: 0 <= j < |kws| ==> score(kws[j]) <= l.score)
      && (l.score == 0.0 ==> l == Leader("", 0.0))
      && (l.score > 0.0 ==> exists i :: 0 <= i < |kws| && kws[i] == l.keyword && score(kws[i]) == l.score
                                        && forall j :: 0 <= j < i ==> score(kws[j]) < l.score)
    decreases |kws|
  {
    if kws != [] {
      var n := |kws| - 1;
      var init := kws[..n];
      LeaderIsFirstMaximum(init, score);
      assert forall j :: 0 <= j < n ==> init[j] == kws[j];
      var prev := LeaderOf(init, score);
      var l := LeaderOf(kws, score);
      if score(kws[n]) > prev.score {
        assert forall j :: 0 <= j < n ==> score(kws[j]) < l.score;
      } else if l.score > 0.0 {
        var i :| 0 <= i < n && init[i] == prev.keyword && score(init[i]) == prev.score
                 && forall j :: 0 <= j < i ==> score(init[j]) < prev.score;
        assert kws[i] == l.keyword;
      }
    }
  }

  /** One more keyword is one more dictionary entry and one more chance to
      take the lead. */
  lemma KeywordSnoc(kws: seq<string>, i: nat, score: string -> real)
    requires i < |kws|
    ensures ScoreMap(kws[..i + 1], score) == ScoreMap(kws[..i], score)[kws[i] := score(kws[i])]
    ensures LeaderOf(kws[..i + 1], score)
      == if score(kws[i]) > LeaderOf(kws[..i], score).score then Leader(kws[i], score(kws[i])) else LeaderOf(kws[..i], score)
  {
    assert kws[..i + 1][..i] == kws[..i];
  }

  /** The body of the keyword loop of `_decide_include` for the `i`th
      keyword. */
  method ScoreOne(scores0: map<string, real>, best0: Leader, kws: seq<string>, i: nat,
                  filename: string, ratio: (string, string) -> real)
    returns (scores: map<string, real>, best: Leader)
    requires i < |kws|
    requires scores0 == ScoreMap(kws[..i], Scorer(filename, ratio))
    requires best0 == LeaderOf(kws[..i], Scorer(filename, ratio))
    ensures scores == ScoreMap(kws[..i + 1], Scorer(filename, ratio))
    ensures best == LeaderOf(kws[..i + 1], Scorer(filename, ratio))
  {
    var kw := kws[i];
    var sc := KeywordScoreOf(kw, filename, ratio);
    KeywordSnoc(kws, i, Scorer(filename, ratio));
    scores := scores0[kw := sc];
    best := best0;
    if sc > best0.score {
      best := Leader(kw, sc);
    }
  }

  /** The keyword loop of `_decide_include`: the score dictionary and the
      leader. */
  method ScoreKeywords(kws: seq<string>, filename: string, ratio: (string, string) -> real)
    returns (scores: map<string, real>, best: Leader)
    ensures scores == ScoreMap(kws, Scorer(filename, ratio))
    ensures best == LeaderOf(kws, Scorer(filename, ratio))
  {
    scores := map[];
    best := Leader("", 0.0);
    for i := 0 to |kws|
      invariant scores == ScoreMap(kws[..i], Scorer(filename, ratio))
      invariant best == LeaderOf(kws[..i], Scorer(filename, ratio))
    {
      scores, best := ScoreOne(scores, best, kws, i, filename, ratio);
    }
    assert kws[..|kws|] == kws;
  }

  /** `(include_mode or "any").strip().lower()`. Only `A` and `L` lower to
      the letters of `all`, so ASCII lowering decides the comparison. */
  function IncludeMode(mode: string): string {
    LowerAscii(Strip(if mode == "" then "any" else mode))
  }

  /** The include condition: no include keywords, or every (`all`) or some
      (any other mode) keyword reaching `min_similarity`. */
  predicate IncludeOk(kws: seq<string>, mode: string, minSimilarity: real, score: string -> real) {
    if kws == [] then true
    else if IncludeMode(mode) == "all" then forall i :: 0 <= i < |kws| ==> score(kws[i]) >= minSimilarity
    else exists i :: 0 <= i < |kws| && score(kws[i]) >= minSimilarity
  }

  /** Some exclude keyword reaches `min_similarity`. */
  predicate ExcludeHit(kws: seq<string>, minSimilarity: real, score: string -> real) {
    exists i :: 0 <= i < |kws| && score(kws[i]) >= minSimilarity
  }

  datatype MatchDecision = MatchDecision(
    included: bool,
    includeScores: map<string, real>,
    excludeScores: map<string, real>,
    bestIncludeKeyword: string,
    bestIncludeScore: real,
    bestExcludeKeyword: string,
    bestExcludeScore: real)

  /** The include condition of `_decide_include`, read from the scores. */
  method CheckInclude(kws: seq<string>, scores: map<string, real>, includeMode: string, minSimilarity: real,
                      ghost score: string -> real)
    returns (ok: bool)
    requires forall i :: 0 <= i < |kws| ==> Lookup(scores, kws[i]) == score(kws[i])
    ensures ok == IncludeOk(kws, includeMode, minSimilarity, score)
  {
    var mode := IncludeMode(includeMode);
    if kws == [] {
      ok := true;
    } else if mode == "all" {
      ok := forall i | 0 <= i < |kws| :: Lookup(scores, kws[i]) >= minSimilarity;
    } else {
      ok := exists i | 0 <= i < |kws| :: Lookup(scores, kws[i]) >= minSimilarity;
    }
  }

  /** Whether an exclude keyword matches, read from the scores. */
  method CheckExclude(kws: seq<string>, scores: map<string, real>, minSimilarity: real, ghost score: string -> real)
    returns (hit: bool)
    requires forall i :: 0 <= i < |kws| ==> Lookup(scores, kws[i]) == score(kws[i])
    ensures hit == ExcludeHit(kws, minSimilarity, score)
  {
    hit := false;
    if kws != [] {
      hit := exists i | 0 <= i < |kws| :: Lookup(scores, kws[i]) >= minSimilarity;
    }
  }

  /** `_decide_include`: a file is included iff the include condition holds
      and no exclude keyword matches. */
  method DecideInclude(filename: string, includeKeywords: seq<string>, excludeKeywords: seq<string>,
                       includeMode: string, minSimilarity: real, ratio: (string, string) -> real)
    returns (d: MatchDecision)
    ensures d.included <==> (IncludeOk(includeKeywords, includeMode, minSimilarity, Scorer(filename, ratio))
                             && !ExcludeHit(excludeKeywords, minSimilarity, Scorer(filename, ratio)))
    ensures d.includeScores == ScoreMap(includeKeywords, Scorer(filename, ratio))
    ensures d.excludeScores == ScoreMap(excludeKeywords, Scorer(filename, ratio))
    ensures Leader(d.bestIncludeKeyword, d.bestIncludeScore) == LeaderOf(includeKeywords, Scorer(filename, ratio))
    ensures Leader(d.bestExcludeKeyword, d.bestExcludeScore) == LeaderOf(excludeKeywords, Scorer(filename, ratio))
  {
    var includeScores, bestIn := ScoreKeywords(includeKeywords, filename, ratio);
    var excludeScores, bestEx := ScoreKeywords(excludeKeywords, filename, ratio);
    ScoreMapLookup(includeKeywords, Scorer(filename, ratio));
    ScoreMapLookup(excludeKeywords, Scorer(filename, ratio));
    var includeOk := CheckInclude(includeKeywords, includeScores, includeMode, minSimilarity, Scorer(filename, ratio));
    var excludeOk := CheckExclude(excludeKeywords, excludeScores, minSimilarity, Scorer(filename, ratio));
    d := MatchDecision(includeOk && !excludeOk, includeScores, excludeScores,
                       bestIn.keyword, bestIn.score, bestEx.keyword, bestEx.score);
  }

  // ----- _short_hash and _shorten_name -----

  /** `hashlib.md5(...).hexdigest()` yields 32 hexadecimal characters. */
  ghost predicate IsMd5Hex(md5hex: string -> string) {
    forall s :: |md5hex(s)| == 32
  }

  /** `_short_hash(text, 8)` */
  function ShortHash(text: string, md5hex: string -> string): (h: string)
    requires IsMd5Hex(md5hex)
    ensures |h| == 8
  {
    md5hex(text)[..8]
  }

  /** `_shorten_name(name, max_len)`. */
  function ShortenName(name: string, maxLen: int, md5hex: string -> string): (r: string)
    requires IsMd5Hex(md5hex)
    ensures maxLen <= 0 || |name| <= maxLen ==> r == name
    ensures maxLen >= 10 && |name| > maxLen ==>
      |r| == maxLen && r == name[..maxLen - 9] + "_" + ShortHash(name, md5hex)
    ensures 0 < maxLen < 10 && |name| > maxLen ==> r == ShortHash(name, md5hex)
    ensures |r| <= |name| || r == ShortHash(name, md5hex)
  {
    if maxLen <= 0 || |name| <= maxLen then name
    else
      var h := ShortHash(name, md5hex);
      var keep := maxLen - (|h| + 1);
      if keep < 1 then h else name[..keep] + "_" + h
  }

  // ----- _safe_template_substitute -----

  /** `"{" + key + "}"` */
  function Placeholder(key: string): (p: string)
    ensures |p| == |key| + 2 && p[0] == '{'
  {
    "{" + key + "}"
  }

  /** The template after `out = out.replace("{k}", v)` for each context entry
      in turn. */
  function Substitute(template: string, ctx: seq<(string, string)>): string
    decreases |ctx|
  {
    if ctx == [] then template
    else Substitute(Replace(template, Placeholder(ctx[0].0), ctx[0].1), ctx[1..])
  }

  /** `_safe_template_substitute`: `ctx` lists the dictionary's items in
      order. */
  method SafeTemplateSubstitute(template: string, ctx: seq<(string, string)>) returns (out: string)
    ensures out == Substitute(template, ctx)
  {
    out := template;
    for i := 0 to |ctx|
      invariant Substitute(out, ctx[i..]) == Substitute(template, ctx)
    {
      var (k, v) := ctx[i];
      assert ctx[i..][1..] == ctx[i + 1..];
      out := Replace(out, Placeholder(k), v);
    }
  }

  /** A template holding none of the context's placeholders comes back
      unchanged. */
  lemma {:induction false} SubstituteWithoutPlaceholders(template: string, ctx: seq<(string, string)>)
    requires forall i :: 0 <= i < |ctx| ==> !Contains(template, Placeholder(ctx[i].0))
    ensures Substitute(template, ctx) == template
    decreases |ctx|
  {
    if ctx != [] {
      ReplaceAbsentPattern(template, Placeholder(ctx[0].0), ctx[0].1);
      assert forall i :: 0 <= i < |ctx[1..]| ==> ctx[1..][i] == ctx[i + 1];
      SubstituteWithoutPlaceholders(template, ctx[1..]);
    }
  }

  /** With one entry, every `{k}` of the template is replaced by the value:
      the result is the value joined between the pieces around each `{k}`. */
  lemma SubstituteOneKey(template: string, key: string, value: string)
    ensures Substitute(template, [(key, value)]) == Join(SplitOn(template, Placeholder(key)), value)
  {
    ReplaceIsJoinOfSplit(template, Placeholder(key), value);
    assert [(key, value)][1..] == [];
  }

  /** `collect_{timestamp}_{job}` */
  const DefaultRunNameTemplate: string := "collect_" + Placeholder("timestamp") + "_" + Placeholder("job")

  /** `run_name_template` (default `collect_{timestamp}_{job}`) filled in. */
  function CollectRunName(runNameTemplate: Option<string>, timestamp: string, job: string): (name: string)
    ensures Truthy(runNameTemplate) && NoBrace(runNameTemplate.value) ==> name == runNameTemplate.value
  {
    var tpl := if Truthy(runNameTemplate) then runNameTemplate.value else DefaultRunNameTemplate;
    SubstituteWithoutBraces(tpl, [("timestamp", timestamp), ("job", job)]);
    Substitute(tpl, [("timestamp", timestamp), ("job", job)])
  }

  lemma SubstituteTwo(template: string, k1: string, v1: string, k2: string, v2: string)
    ensures Substitute(template, [(k1, v1), (k2, v2)])
         == Replace(Replace(template, Placeholder(k1), v1), Placeholder(k2), v2)
  {
    var ctx := [(k1, v1), (k2, v2)];
    var once := Replace(template, Placeholder(k1), v1);
    assert ctx[1..] == [(k2, v2)];
    assert Substitute(template, ctx) == Substitute(once, [(k2, v2)]);
    assert [(k2, v2)][1..] == [];
    assert Substitute(once, [(k2, v2)]) == Substitute(Replace(once, Placeholder(k2), v2), []);
  }

  /** With the default template the run folder is `collect_<timestamp>_<job>`
      when the timestamp holds no `{`. */
  lemma CollectRunNameDefault(timestamp: string, job: string)
    requires forall i :: 0 <= i < |timestamp| ==> timestamp[i] != '{'
    ensures CollectRunName(None, timestamp, job) == "collect_" + timestamp + "_" + job
  {
    var ts := Placeholder("timestamp");
    var jb := Placeholder("job");
    var tpl := DefaultRunNameTemplate;
    SubstituteTwo(tpl, "timestamp", timestamp, "job", job);
    assert tpl == "collect_" + ts + ("_" + jb);
    assert forall i :: 0 <= i < |"collect_"| ==> "collect_"[i] != '{';
    ReplaceSingle("collect_", ts, "_" + jb, timestamp);
    var mid := "collect_" + timestamp + "_";
    assert "collect_" + timestamp + ("_" + jb) == mid + jb + [];
    ReplaceSingle(mid, jb, [], job);
    assert mid + job + [] == "collect_" + timestamp + "_" + job;
  }

  // ----- _extract_named and _extract_meta -----

  /** One `extract` rule: `str(rule.get("regex") or "")` and its `map`
      (empty when missing or not a dictionary). */
  datatype ExtractRule = ExtractRule(regex: string, mapping: map<string, string>)

  /** `mapping.get(gk) or gk` */
  function MetaKey(mapping: map<string, string>, group: string): string {
    if group in mapping && mapping[group] != "" then mapping[group] else group
  }

  /** The metadata entries one rule produces. `search(regex, name)` stands
      for `_extract_named`: the named groups with a value, in order, and none
      when the regex is invalid or does not match. */
  function RuleEntries(rule: ExtractRule, name: string, search: (string, string) -> seq<(string, string)>): seq<(string, string)> {
    if rule.regex == "" then [] else Renamed(rule.mapping, search(rule.regex, name))
  }

  /** The matched groups, each under its key renamed through `mapping`. */
  function Renamed(mapping: map<string, string>, got: seq<(string, string)>): (es: seq<(string, string)>)
    ensures |es| == |got|
    ensures forall i :: 0 <= i < |got| ==> es[i] == (MetaKey(mapping, got[i].0), got[i].1)
  {
    seq(|got|, i requires 0 <= i < |got| => (MetaKey(mapping, got[i].0), got[i].1))
  }

  /** The entries of all rules, in rule order. */
  function MetaEntries(rules: seq<ExtractRule>, name: string, search: (string, string) -> seq<(string, string)>): seq<(string, string)>
    decreases |rules|
  {
    if rules == [] then []
    else MetaEntries(rules[..|rules| - 1], name, search) + RuleEntries(rules[|rules| - 1], name, search)
  }

  /** The inner loop of `_extract_meta`: one rule's groups written into the
      dictionary built so far. */
  method PutGroups(meta0: map<string, string>, mapping: map<string, string>, got: seq<(string, string)>,
                   ghost done: seq<(string, string)>)
    returns (meta: map<string, string>)
    requires meta0 == MapOfEntries(done)
    ensures meta == MapOfEntries(done + Renamed(mapping, got))
  {
    ghost var entries := Renamed(mapping, got);
    meta := meta0;
    assert done + entries[..0] == done;
    for g := 0 to |got|
      invariant meta == MapOfEntries(done + entries[..g])
    {
      var (gk, gv) := got[g];
      var mk: string;
      if |mapping| > 0 {
        mk := if gk in mapping && mapping[gk] != "" then mapping[gk] else gk;
      } else {
        mk := gk;
      }
      assert entries[g] == (mk, gv);
      MapOfEntriesStep(done, entries, g);
      meta := meta[mk := gv];
    }
    assert entries[..|got|] == entries;
  }

  /** `_extract_meta`: rules in order, each renaming its groups through its
      `map` when that is non-empty; later entries overwrite earlier ones. */
  method ExtractMeta(name: string, rules: seq<ExtractRule>, search: (string, string) -> seq<(string, string)>)
    returns (meta: map<string, string>)
    ensures meta == MapOfEntries(MetaEntries(rules, name, search))
  {
    meta := map[];
    for r := 0 to |rules|
      invariant meta == MapOfEntries(MetaEntries(rules[..r], name, search))
    {
      var rule := rules[r];
      assert rules[..r + 1][..r] == rules[..r];
      var done := MetaEntries(rules[..r], name, search);
      if rule.regex == "" {
        assert MetaEntries(rules[..r + 1], name, search) == done + [] == done;
        continue;
      }
      var got := search(rule.regex, name);
      assert MetaEntries(rules[..r + 1], name, search) == done + Renamed(rule.mapping, got);
      meta := PutGroups(meta, rule.mapping, got, done);
    }
    assert rules[..|rules|] == rules;
  }

  /** Every metadata key comes from some rule's entry, and holds the value
      of the last rule and group that produced it. */
  lemma ExtractMetaLastWins(name: string, rules: seq<ExtractRule>, search: (string, string) -> seq<(string, string)>, k: nat)
    requires var es := MetaEntries(rules, name, search); k < |es| && forall j :: k < j < |es| ==> es[j].0 != es[k].0
    ensures var es := MetaEntries(rules, name, search);
      && MapOfEntries(es).Keys == (set i | 0 <= i < |es| :: es[i].0)
      && MapOfEntries(es)[es[k].0] == es[k].1
  {
    MapOfEntriesKeys(MetaEntries(rules, name, search));
    MapOfEntriesLastWins(MetaEntries(rules, name, search), k);
  }

  // ----- collect_job: option lists and the destination path -----

  /** A job option given either as a string or as a list. */
  datatype ListSetting = Text(s: string) | Items(xs: seq<string>)

  predicate SettingTruthy(v: Option<ListSetting>) {
    v.Some? && match v.value case Text(s) => s != "" case Items(xs) => xs != []
  }

  /** `a or b or default`, then a string is split on `sep` with blank items
      dropped. */
  function ListOption(a: Option<ListSetting>, b: Option<ListSetting>, default: seq<string>, sep: string): (r: seq<string>)
    requires |sep| > 0
    ensures SettingTruthy(a) && a.value.Items? ==> r == a.value.xs
    ensures SettingTruthy(a) && a.value.Text? ==> r == SplitClean(a.value.s, sep)
    ensures !SettingTruthy(a) && SettingTruthy(b) && b.value.Items? ==> r == b.value.xs
    ensures !SettingTruthy(a) && SettingTruthy(b) && b.value.Text? ==> r == SplitClean(b.value.s, sep)
    ensures !SettingTruthy(a) && !SettingTruthy(b) ==> r == default
  {
    var v := if SettingTruthy(a) then a.value else if SettingTruthy(b) then b.value else Items(default);
    match v
    case Text(s) => SplitClean(s, sep)
    case Items(xs) => xs
  }

  /** `patterns` (or `include_patterns`, default `["*"]`), `;`-separated. */
  function Patterns(patterns: Option<ListSetting>, includePatterns: Option<ListSetting>): seq<string> {
    ListOption(patterns, includePatterns, ["*"], ";")
  }

  /** `include_keywords` (or `keywords`, default `[]`), `,`-separated. */
  function IncludeKeywords(includeKeywords: Option<ListSetting>, keywords: Option<ListSetting>): seq<string> {
    ListOption(includeKeywords, keywords, [], ",")
  }

  /** `exclude_keywords` (default `[]`), `,`-separated. */
  function ExcludeKeywords(excludeKeywords: Option<ListSetting>): seq<string> {
    ListOption(excludeKeywords, None, [], ",")
  }

  /** Keywords given as a string become clean items: non-empty, without
      commas or surrounding whitespace. */
  lemma KeywordTextItems(s: string)
    ensures forall k :: k in IncludeKeywords(Some(Text(s)), None) ==> CleanItem(k, ",")
  {
    SplitCleanItems(s, ",");
  }

  /** The tighter basename limit of the path-overflow rule as written. */
  function OverflowLimitAsWritten(basenameMaxLen: int, overflow: int): (limit: int)
    ensures limit >= 16
    ensures limit == 16 || limit == basenameMaxLen - overflow
  {
    if 16 >= basenameMaxLen - overflow then 16 else basenameMaxLen - overflow
  }

  /** `dst = <parent>/<new_name>` and the rule that shortens the name when
      the path exceeds `path_max_len`, as written: the new limit is computed
      from `basename_max_len`, not from the current name. */
  function PlaceAsWritten(parent: string, newName: string, basenameMaxLen: int, pathMaxLen: int, md5hex: string -> string): (dst: string)
    requires IsMd5Hex(md5hex)
    ensures pathMaxLen <= 0 || |parent| + 1 + |newName| <= pathMaxLen ==> dst == parent + "/" + newName
    ensures pathMaxLen > 0 && |parent| + 1 + |newName| > pathMaxLen
            && |newName| <= OverflowLimitAsWritten(basenameMaxLen, |parent| + 1 + |newName| - pathMaxLen) ==>
      dst == parent + "/" + newName
    ensures pathMaxLen > 0 && |parent| + 1 + |newName| > pathMaxLen
            && |newName| > OverflowLimitAsWritten(basenameMaxLen, |parent| + 1 + |newName| - pathMaxLen) ==>
      |dst| == |parent| + 1 + OverflowLimitAsWritten(basenameMaxLen, |parent| + 1 + |newName| - pathMaxLen)
    ensures |dst| <= |parent| + 1 + |newName|
  {
    var dst := parent + "/" + newName;
    if pathMaxLen > 0 && |dst| > pathMaxLen then
      var overflow := |dst| - pathMaxLen;
      parent + "/" + ShortenName(newName, OverflowLimitAsWritten(basenameMaxLen, overflow), md5hex)
    else dst
  }

  /** An input on which the rule as written leaves the path too long: a
      230-character parent, a 50-character name, the defaults 140 and 240.
      The path is 281 characters, the overflow 41, the new limit 99, and the
      50-character name already fits it. */
  lemma PlaceAsWrittenStaysTooLong(md5hex: string -> string)
    requires IsMd5Hex(md5hex)
    ensures var parent := seq(230, _ => 'p');
            var name := seq(50, _ => 'n');
            |PlaceAsWritten(parent, name, 140, 240, md5hex)| == 281 > 240
  {
  }

  /** The corrected rule: the name loses the overflow, but is not cut below
      16 characters. */
  function Place(parent: string, newName: string, pathMaxLen: int, md5hex: string -> string): (dst: string)
    requires IsMd5Hex(md5hex)
    ensures pathMaxLen > 0 && |parent| + 1 + |newName| > pathMaxLen && |newName| - (|parent| + 1 + |newName| - pathMaxLen) >= 16
            ==> |dst| == pathMaxLen
    ensures pathMaxLen > 0 && |parent| + 1 + |newName| > pathMaxLen && |parent| + 17 <= pathMaxLen ==> |dst| <= pathMaxLen
    ensures pathMaxLen <= 0 || |parent| + 1 + |newName| <= pathMaxLen ==> dst == parent + "/" + newName
    ensures |dst| <= |parent| + 1 + |newName|
  {
    var dst := parent + "/" + newName;
    if pathMaxLen > 0 && |dst| > pathMaxLen then
      var overflow := |dst| - pathMaxLen;
      var limit := if 16 >= |newName| - overflow then 16 else |newName| - overflow;
      parent + "/" + ShortenName(newName, limit, md5hex)
    else dst
  }


  // ----- collect_job: the destination of one collected file -----

  /** A file being collected: `str(src)`, `src.name`, and
      `str(src.parent.relative_to(input_root))` (`""` when that fails). */
  datatype Source = Source(path: string, name: string, relDir: string)

  /** The output options that name the copy, with their defaults applied:
      `dest_subdir_template` (default `""`), `rename_template` (default
      `{orig_name}`) and `preserve_tree`. */
  datatype Naming = Naming(destSubdirTemplate: string, renameTemplate: string, preserveTree: bool)

  const DefaultRenameTemplate: string := Placeholder("orig_name")

  /** The dictionary `meta` that `_extract_meta` fills, as its items in
      insertion order. */
  function MetaItems(name: string, rules: seq<ExtractRule>, search: (string, string) -> seq<(string, string)>)
    : (meta: seq<(string, string)>)
    ensures DistinctKeys(meta)
    ensures forall k :: k in MapOfEntries(MetaEntries(rules, name, search)) <==> DictGet(meta, k).Some?
    ensures forall k :: k in MapOfEntries(MetaEntries(rules, name, search)) ==>
      DictGet(meta, k) == Some(MapOfEntries(MetaEntries(rules, name, search))[k])
  {
    var es := MetaEntries(rules, name, search);
    forall k ensures k in MapOfEntries(es) ==> DictGet(DictUpdate([], es), k) == Some(MapOfEntries(es)[k])
      ensures k !in MapOfEntries(es) ==> DictGet(DictUpdate([], es), k).None? {
      DictUpdateGet([], es, k);
    }
    DictUpdate([], es)
  }

  /** The seven entries of `ctx` the loop always sets. */
  function BaseContext(job: string, timestamp: string, src: Source, md5hex: string -> string): seq<(string, string)>
    requires IsMd5Hex(md5hex)
  {
    [("job", job), ("timestamp", timestamp), ("orig_name", src.name), ("orig_stem", Stem(src.name)),
     ("ext", Suffix(src.name)), ("rel_dir", src.relDir), ("short_hash", ShortHash(src.path, md5hex))]
  }

  /** `ctx` after `ctx.update(meta)`: the seven standard keys stay first and
      in order; a metadata key takes the metadata value, any other key keeps
      the standard one. */
  function Context(job: string, timestamp: string, src: Source, meta: seq<(string, string)>, md5hex: string -> string)
    : (ctx: seq<(string, string)>)
    requires IsMd5Hex(md5hex) && DistinctKeys(meta)
    ensures |ctx| >= 7
    ensures ctx[0].0 == "job" && ctx[1].0 == "timestamp" && ctx[2].0 == "orig_name" && ctx[3].0 == "orig_stem"
         && ctx[4].0 == "ext" && ctx[5].0 == "rel_dir" && ctx[6].0 == "short_hash"
    ensures forall k :: DictGet(meta, k).Some? ==> DictGet(ctx, k) == DictGet(meta, k)
    ensures forall k :: DictGet(meta, k).None? ==> DictGet(ctx, k) == DictGet(BaseContext(job, timestamp, src, md5hex), k)
  {
    var base := BaseContext(job, timestamp, src, md5hex);
    forall k ensures DictGet(DictUpdate(base, meta), k)
                  == if DictGet(meta, k).Some? then DictGet(meta, k) else DictGet(base, k) {
      DictUpdateWithDict(base, meta, k);
    }
    DictUpdate(base, meta)
  }

  const PathSeparators: set<char> := {'/', '\\'}

  /** `dest_rel_dir`: the relative folder with `preserve_tree`, otherwise the
      substituted subfolder template stripped of whitespace and then of
      slashes and backslashes at both ends. */
  function DestRelDir(naming: Naming, relDir: string, ctx: seq<(string, string)>): (d: string)
    ensures naming.preserveTree ==> d == relDir
    ensures !naming.preserveTree ==> d == [] || (d[0] !in PathSeparators && d[|d| - 1] !in PathSeparators)
    ensures !naming.preserveTree && NoBrace(naming.destSubdirTemplate) ==>
      d == StripChars(Strip(naming.destSubdirTemplate), PathSeparators)
  {
    if naming.preserveTree then relDir
    else
      SubstituteWithoutBraces(naming.destSubdirTemplate, ctx);
      StripChars(Strip(Substitute(naming.destSubdirTemplate, ctx)), PathSeparators)
  }

  /** A template without `{` comes back from substitution unchanged. */
  lemma SubstituteWithoutBraces(template: string, ctx: seq<(string, string)>)
    ensures NoBrace(template) ==> Substitute(template, ctx) == template
  {
    if NoBrace(template) {
      forall i | 0 <= i < |ctx| ensures !Contains(template, Placeholder(ctx[i].0)) {
        if Contains(template, Placeholder(ctx[i].0)) {
          ContainsFirstChar(template, Placeholder(ctx[i].0));
        }
      }
      SubstituteWithoutPlaceholders(template, ctx);
    }
  }

  /** "Ensure extension if template omitted it": the source's suffix is
      appended to a new name that has none. */
  function WithExtension(newName: string, srcName: string): (n: string)
    ensures Suffix(newName) != "" || Suffix(srcName) == "" ==> n == newName
    ensures Suffix(newName) == "" && Suffix(srcName) != "" ==> n == newName + Suffix(srcName)
    ensures newName != "" && Suffix(srcName) != "" ==> Suffix(n) != ""
    ensures newName != "" && Suffix(newName) == "" ==> Suffix(n) == Suffix(srcName)
  {
    if Suffix(newName) == "" && Suffix(srcName) != "" then
      SuffixOfAppended(newName, Suffix(srcName));
      newName + Suffix(srcName)
    else newName
  }

  /** `new_name`: the rename template filled in, the extension ensured, and
      the result shortened to `basename_max_len`. */
  function NewName(naming: Naming, ctx: seq<(string, string)>, srcName: string, basenameMaxLen: int, md5hex: string -> string)
    : (n: string)
    requires IsMd5Hex(md5hex)
    ensures var full := WithExtension(Substitute(naming.renameTemplate, ctx), srcName);
      && (basenameMaxLen <= 0 || |full| <= basenameMaxLen ==> n == full)
      && (basenameMaxLen >= 10 ==> |n| <= basenameMaxLen)
      && (basenameMaxLen >= 10 && |full| > basenameMaxLen ==>
            n == full[..basenameMaxLen - 9] + "_" + ShortHash(full, md5hex))
  {
    ShortenName(WithExtension(Substitute(naming.renameTemplate, ctx), srcName), basenameMaxLen, md5hex)
  }

  /** `out_dir / "copied" / dest_rel_dir`: an empty relative folder adds no
      component. */
  function CopyFolder(outDir: string, destRelDir: string): (p: string)
    ensures destRelDir == "" ==> p == JoinPath(outDir, "copied")
  {
    var copied := JoinPath(outDir, "copied");
    if destRelDir == "" then copied else JoinPath(copied, destRelDir)
  }

  /** The destination of one collected file: its context, folder and name,
      then the rule that keeps the path within `path_max_len`. */
  function Destination(outDir: string, job: string, timestamp: string, src: Source, meta: seq<(string, string)>,
                       naming: Naming, basenameMaxLen: int, pathMaxLen: int, md5hex: string -> string): (dst: string)
    requires IsMd5Hex(md5hex) && DistinctKeys(meta)
    ensures var ctx := Context(job, timestamp, src, meta, md5hex);
      var folder := CopyFolder(outDir, DestRelDir(naming, src.relDir, ctx));
      var name := NewName(naming, ctx, src.name, basenameMaxLen, md5hex);
      && |dst| <= |folder| + 1 + |name|
      && (pathMaxLen <= 0 || |folder| + 1 + |name| <= pathMaxLen ==> dst == folder + "/" + name)
      && (pathMaxLen > 0 && |folder| + 17 <= pathMaxLen ==> |dst| <= pathMaxLen)
  {
    var ctx := Context(job, timestamp, src, meta, md5hex);
    Place(CopyFolder(outDir, DestRelDir(naming, src.relDir, ctx)), NewName(naming, ctx, src.name, basenameMaxLen, md5hex),
          pathMaxLen, md5hex)
  }

  /** The destination of one collected file as the program computes it, with
      the shortening rule of line 384 (`PlaceAsWritten`): the path is kept
      when it fits and never grows, and an over-long path is cut only to the
      folder plus the tighter basename limit, which may still exceed
      `path_max_len`. */
  function DestinationAsWritten(outDir: string, job: string, timestamp: string, src: Source, meta: seq<(string, string)>,
                                naming: Naming, basenameMaxLen: int, pathMaxLen: int, md5hex: string -> string)
    : (dst: string)
    requires IsMd5Hex(md5hex) && DistinctKeys(meta)
    ensures var ctx := Context(job, timestamp, src, meta, md5hex);
      var folder := CopyFolder(outDir, DestRelDir(naming, src.relDir, ctx));
      var name := NewName(naming, ctx, src.name, basenameMaxLen, md5hex);
      var limit := OverflowLimitAsWritten(basenameMaxLen, |folder| + 1 + |name| - pathMaxLen);
      && |dst| <= |folder| + 1 + |name|
      && (pathMaxLen <= 0 || |folder| + 1 + |name| <= pathMaxLen ==> dst == folder + "/" + name)
      && (pathMaxLen > 0 && |folder| + 1 + |name| > pathMaxLen && |name| <= limit ==> dst == folder + "/" + name)
      && (pathMaxLen > 0 && |folder| + 1 + |name| > pathMaxLen && |name| > limit ==> |dst| == |folder| + 1 + limit)
  {
    var ctx := Context(job, timestamp, src, meta, md5hex);
    PlaceAsWritten(CopyFolder(outDir, DestRelDir(naming, src.relDir, ctx)), NewName(naming, ctx, src.name, basenameMaxLen, md5hex),
                   basenameMaxLen, pathMaxLen, md5hex)
  }

  /** A `{key}` placeholder holds no other placeholder when `key` has no
      braces. */
  lemma PlaceholderInPlaceholder(k: string, k2: string)
    requires NoBrace(k) && '}' !in k
    requires Contains(Placeholder(k), Placeholder(k2))
    ensures k2 == k
  {
    var p, p2 := Placeholder(k), Placeholder(k2);
    assert p[1..] == k + "}";
    WithoutFirstCharNoContains(p[1..], p2);
    assert StartsWith(p, p2);
    assert p[..|p2|] == p2;
    assert p[|p2| - 1] == '}';
    assert forall j :: 1 <= j <= |k| ==> p[j] == k[j - 1];
    assert |k2| == |k|;
    assert k2 == p2[1..|k2| + 1] == p[1..|k| + 1] == k;
  }

  /** Filling the template `{key}` gives the context's value for `key`,
      when neither holds a brace that a later replacement could act on. */
  lemma {:induction false} SubstitutePlaceholder(k: string, ctx: seq<(string, string)>, v: string)
    requires NoBrace(k) && '}' !in k && NoBrace(v)
    requires DictGet(ctx, k) == Some(v)
    ensures Substitute(Placeholder(k), ctx) == v
    decreases |ctx|
  {
    var p := Placeholder(k);
    var (k0, v0) := ctx[0];
    if k0 == k {
      assert v0 == v;
      assert StartsWith(p, p) && p[|p|..] == [];
      assert Replace(p, p, v) == v + Replace([], p, v) == v;
      assert Substitute(p, ctx) == Substitute(v, ctx[1..]);
      SubstituteWithoutBraces(v, ctx[1..]);
    } else {
      if Contains(p, Placeholder(k0)) {
        PlaceholderInPlaceholder(k, k0);
      }
      ReplaceAbsentPattern(p, Placeholder(k0), v0);
      assert Substitute(p, ctx) == Substitute(p, ctx[1..]);
      SubstitutePlaceholder(k, ctx[1..], v);
    }
  }

  /** With the default rename template, a source name without `{` whose
      metadata does not redefine `orig_name` keeps its name, as long as it
      fits `basename_max_len`. */
  lemma DefaultRenameKeepsName(job: string, timestamp: string, src: Source, meta: seq<(string, string)>,
                               destSubdirTemplate: string, preserveTree: bool, basenameMaxLen: int,
                               md5hex: string -> string)
    requires IsMd5Hex(md5hex) && DistinctKeys(meta)
    requires DictGet(meta, "orig_name").None? && NoBrace(src.name) && |src.name| <= basenameMaxLen
    ensures NewName(Naming(destSubdirTemplate, DefaultRenameTemplate, preserveTree),
                    Context(job, timestamp, src, meta, md5hex), src.name, basenameMaxLen, md5hex) == src.name
  {
    var ctx := Context(job, timestamp, src, meta, md5hex);
    ContextOrigName(job, timestamp, src, meta, md5hex);
    OrigNameKeyBraceFree();
    SubstitutePlaceholder("orig_name", ctx, src.name);
    assert Substitute(DefaultRenameTemplate, ctx) == src.name;
    assert WithExtension(src.name, src.name) == src.name;
  }

  lemma OrigNameKeyBraceFree()
    ensures NoBrace("orig_name") && '}' !in "orig_name"
  {
  }

  /** Metadata that does not redefine `orig_name` leaves it the source name. */
  lemma ContextOrigName(job: string, timestamp: string, src: Source, meta: seq<(string, string)>, md5hex: string -> string)
    requires IsMd5Hex(md5hex) && DistinctKeys(meta) && DictGet(meta, "orig_name").None?
    ensures DictGet(Context(job, timestamp, src, meta, md5hex), "orig_name") == Some(src.name)
  {
    BaseContextOrigName(job, timestamp, src, md5hex);
  }

  lemma BaseContextOrigName(job: string, timestamp: string, src: Source, md5hex: string -> string)
    requires IsMd5Hex(md5hex)
    ensures DictGet(BaseContext(job, timestamp, src, md5hex), "orig_name") == Some(src.name)
  {
    var base := BaseContext(job, timestamp, src, md5hex);
    assert base[0].0 == "job" != "orig_name";
    assert base[1].0 == "timestamp" != "orig_name";
    assert base[1..][1..][0] == ("orig_name", src.name);
  }
}
