/** The fragment of JavaScript regular expressions that `lib/utils.ts` uses: literals (optionally
    case-insensitive), whitespace runs `\s*` / `\s+`, a negated one-character class `[^c]*` and the
    end anchor `$`. */
module Patterns {
  import opened Wrappers
  import opened Strings
  import opened Replace

  /** One element of a pattern. */
  datatype Token =
    | Lit(text: string)           // the characters themselves
    | LitNoCase(text: string)     // the characters under the `i` flag
    | Spaces(min: nat)            // `\s*` (min 0) or `\s+` (min 1)
    | NotChar(c: char)            // `[^c]*`
    | End                         // `$` without the `m` flag

  // ---------------------------------------------------------------------------------------
  // reference semantics: which prefix lengths a pattern accepts

  /** Token `tok` can consume exactly the first `k` characters of `s`. */
  ghost predicate StepAccepts(s: string, tok: Token, k: nat) {
    k <= |s| &&
    match tok
    case Lit(t) => k == |t| && t <= s
    case LitNoCase(t) => k == |t| && Lower(s[..k]) == Lower(t)
    case Spaces(min) => min <= k && forall j :: 0 <= j < k ==> IsSpace(s[j])
    case NotChar(c) => forall j :: 0 <= j < k ==> s[j] != c
    case End => k == 0 && |s| == 0
  }

  /** `toks` can match exactly the first `n` characters of `s` (the rest of the input). */
  ghost predicate Accepts(s: string, toks: seq<Token>, n: nat)
    decreases |s| + |toks|
  {
    if |toks| == 0 then n == 0
    else exists k :: 0 <= k <= n && StepAccepts(s, toks[0], k) && Accepts(s[k..], toks[1..], n - k)
  }

  /** A run is never followed by a token that could also start inside it, so a greedy run
      without backtracking loses no match. */
  predicate Follows(a: Token, b: Token) {
    match a
    case Spaces(_) =>
      b.End? || ((b.Lit? || b.LitNoCase?) && |b.text| > 0 && !IsSpace(b.text[0]))
    case NotChar(c) => b.Lit? && |b.text| > 0 && b.text[0] == c
    case _ => true
  }

  predicate Deterministic(toks: seq<Token>) {
    forall i :: 0 <= i < |toks| - 1 ==> Follows(toks[i], toks[i + 1])
  }

  /** The pattern starts with a non-empty literal, so no match is empty. */
  predicate Anchored(toks: seq<Token>) {
    |toks| > 0 && toks[0].Lit? && |toks[0].text| > 0
  }

  // ---------------------------------------------------------------------------------------
  // the matcher

  /** How many characters `tok` consumes at the start of `s`; runs are greedy. */
  function Step(s: string, tok: Token): (r: Option<nat>)
    ensures r.Some? ==> r.value <= |s|
  {
    match tok
    case Lit(t) => if t <= s then Some(|t|) else None
    case LitNoCase(t) => if |t| <= |s| && Lower(s[..|t|]) == Lower(t) then Some(|t|) else None
    case Spaces(min) => var k := LeadingSpaces(s); if k >= min then Some(k) else None
    case NotChar(c) => Some(IndexOfChar(s, c))
    case End => if |s| == 0 then Some(0) else None
  }

  /** Length of the match of `toks` at the start of `s`, if any. */
  function MatchPrefix(s: string, toks: seq<Token>): (r: Option<nat>)
    ensures r.Some? ==> r.value <= |s|
    ensures Anchored(toks) && r.Some? ==> toks[0].text <= s && r.value >= |toks[0].text|
    decreases |s| + |toks|
  {
    if |toks| == 0 then Some(0)
    else
      match Step(s, toks[0])
      case None => None
      case Some(k) =>
        match MatchPrefix(s[k..], toks[1..])
        case None => None
        case Some(m) => Some(k + m)
  }

  /** One step of the matcher: after a successful first step the match is that step followed by
      the match of the rest. */
  lemma MatchUnfold(s: string, toks: seq<Token>, k: nat)
    requires |toks| > 0 && Step(s, toks[0]) == Some(k)
    ensures MatchPrefix(s, toks).Some? <==> MatchPrefix(s[k..], toks[1..]).Some?
    ensures MatchPrefix(s, toks).Some? ==> MatchPrefix(s, toks).value == k + MatchPrefix(s[k..], toks[1..]).value
  {
  }

  /** `[^c]*c` matches up to and including the first `c`, and nowhere without one. */
  lemma UpToChar(t: string, c: char)
    ensures MatchPrefix(t, [NotChar(c), Lit([c])]) ==
              if IndexOfChar(t, c) < |t| then Some(IndexOfChar(t, c) + 1) else None
  {
    var j := IndexOfChar(t, c);
    var toks := [NotChar(c), Lit([c])];
    MatchUnfold(t, toks, j);
    assert toks[1..] == [Lit([c])];
    LiteralMatch(t[j..], [c]);
  }

  /** Builds an accepted split from its first step. */
  lemma AcceptsIntro(s: string, toks: seq<Token>, k: nat, n: nat)
    requires |toks| > 0 && k <= n && StepAccepts(s, toks[0], k) && Accepts(s[k..], toks[1..], n - k)
    ensures Accepts(s, toks, n)
  {
  }

  /** Takes an accepted split apart into its first step and the rest. */
  lemma AcceptsElim(s: string, toks: seq<Token>, n: nat) returns (k: nat)
    requires |toks| > 0 && Accepts(s, toks, n)
    ensures k <= n && StepAccepts(s, toks[0], k) && Accepts(s[k..], toks[1..], n - k)
  {
    k :| 0 <= k <= n && StepAccepts(s, toks[0], k) && Accepts(s[k..], toks[1..], n - k);
  }

  /** The greedy step is one the token accepts. */
  lemma StepSound(s: string, tok: Token)
    requires Step(s, tok).Some?
    ensures StepAccepts(s, tok, Step(s, tok).value)
  {
  }

  /** Whatever the matcher returns, the pattern accepts. */
  lemma {:induction false} MatchSound(s: string, toks: seq<Token>)
    ensures MatchPrefix(s, toks).Some? ==> Accepts(s, toks, MatchPrefix(s, toks).value)
    decreases |toks|
  {
    if |toks| > 0 && MatchPrefix(s, toks).Some? {
      var k := Step(s, toks[0]).value;
      StepSound(s, toks[0]);
      MatchSound(s[k..], toks[1..]);
      AcceptsIntro(s, toks, k, MatchPrefix(s, toks).value);
    }
  }

  /** What a literal token that accepts some prefix says about the first character. */
  lemma LiteralHead(rest: string, tok: Token, k2: nat)
    requires (tok.Lit? || tok.LitNoCase?) && |tok.text| > 0 && StepAccepts(rest, tok, k2)
    ensures |rest| > 0
    ensures tok.Lit? ==> rest[0] == tok.text[0]
    ensures tok.LitNoCase? ==> LowerChar(rest[0]) == LowerChar(tok.text[0])
  {
    if tok.LitNoCase? {
      assert Lower(rest[..k2])[0] == LowerChar(rest[0]);
    }
  }

  /** A whitespace run followed by a token that cannot start with whitespace is the whole run. */
  lemma SpacesForced(s: string, min: nat, next: Token, k: nat, n: nat)
    requires Follows(Spaces(min), next)
    requires StepAccepts(s, Spaces(min), k) && k <= |s|
    requires Accepts(s[k..], [next], n)
    ensures LeadingSpaces(s) == k
  {
    var rest := s[k..];
    var k2 := AcceptsElim(rest, [next], n);
    if !next.End? {
      LiteralHead(rest, next, k2);
      assert rest[0] == s[k];
    }
  }

  /** A negated-class run followed by a literal starting with the excluded character stops at
      its first occurrence. */
  lemma NotCharForced(s: string, c: char, next: Token, k: nat, n: nat)
    requires Follows(NotChar(c), next)
    requires StepAccepts(s, NotChar(c), k) && k <= |s|
    requires Accepts(s[k..], [next], n)
    ensures IndexOfChar(s, c) == k
  {
    var rest := s[k..];
    var k2 := AcceptsElim(rest, [next], n);
    LiteralHead(rest, next, k2);
    assert rest[0] == s[k];
  }

  /** An accepted split of `toks[1..]` yields one of its first token alone. */
  lemma AcceptsHead(s: string, toks: seq<Token>, n: nat) returns (n1: nat)
    requires |toks| > 0 && Accepts(s, toks, n)
    ensures Accepts(s, [toks[0]], n1)
  {
    n1 := AcceptsElim(s, toks, n);
    assert [toks[0]][1..] == [];
    assert Accepts(s[n1..], [toks[0]][1..], 0);
    AcceptsIntro(s, [toks[0]], n1, n1);
  }

  /** Under `Follows`, any accepted split consumes with the first token exactly what the greedy
      step consumes, unless that token is the last one. */
  lemma StepForced(s: string, toks: seq<Token>, k: nat, n: nat)
    requires |toks| > 1 && Follows(toks[0], toks[1])
    requires StepAccepts(s, toks[0], k) && Accepts(s[k..], toks[1..], n)
    ensures Step(s, toks[0]) == Some(k)
  {
    var n1 := AcceptsHead(s[k..], toks[1..], n);
    match toks[0]
    case Spaces(min) =>
      SpacesForced(s, min, toks[1], k, n1);
    case NotChar(c) =>
      NotCharForced(s, c, toks[1], k, n1);
    case _ =>
  }

  /** The matcher finds a match whenever the pattern accepts a prefix, and its match is the
      longest one: the one a backtracking matcher that tries longer runs first reports. */
  lemma {:induction false} MatchLongest(s: string, toks: seq<Token>, m: nat)
    requires Deterministic(toks) && Accepts(s, toks, m)
    ensures MatchPrefix(s, toks).Some? && m <= MatchPrefix(s, toks).value
    decreases |toks|
  {
    if |toks| > 0 {
      var k := AcceptsElim(s, toks, m);
      assert Deterministic(toks[1..]) by {
        forall i | 0 <= i < |toks[1..]| - 1 ensures Follows(toks[1..][i], toks[1..][i + 1]) {
          assert toks[1..][i] == toks[i + 1] && toks[1..][i + 1] == toks[i + 2];
        }
      }
      if |toks| > 1 {
        StepForced(s, toks, k, m - k);
        MatchLongest(s[k..], toks[1..], m - k);
      } else {
        var g := Step(s, toks[0]);
        match toks[0]
        case Spaces(min) =>
          assert LeadingSpaces(s) >= k;
        case NotChar(c) =>
          assert IndexOfChar(s, c) >= k;
        case _ =>
      }
    }
  }

  // ---------------------------------------------------------------------------------------
  // matcher

  /** The pattern as a matcher for search and replace. */
  function PatternMatcher(toks: seq<Token>): Matcher {
    x => MatchPrefix(x, toks)
  }

  lemma PatternBounded(toks: seq<Token>)
    ensures Bounded(PatternMatcher(toks))
  {
  }

  lemma PatternProgressing(toks: seq<Token>)
    requires Anchored(toks)
    ensures Progressing(PatternMatcher(toks))
  {
  }

  /** A one-literal pattern matches exactly where the literal starts the text. */
  lemma LiteralMatch(s: string, p: string)
    ensures MatchPrefix(s, [Lit(p)]) == if p <= s then Some(|p|) else None
  {
    if p <= s {
      assert MatchPrefix(s[|p|..], [Lit(p)][1..]) == Some(0);
    }
  }

  /** The matcher of a one-literal pattern is the literal matcher. */
  lemma LiteralPattern(p: string)
    requires |p| > 0
    ensures forall x :: PatternMatcher([Lit(p)])(x) == LiteralMatcher(p)(x)
  {
    forall x ensures PatternMatcher([Lit(p)])(x) == LiteralMatcher(p)(x) {
      LiteralMatch(x, p);
    }
  }

  /** In terms of the reference semantics: for a deterministic pattern `FirstMatch` reports the
      leftmost position where the pattern accepts anything, and there the longest accepted
      length; with no report, the pattern accepts nothing anywhere. */
  lemma FirstMatchAccepts(s: string, toks: seq<Token>)
    requires Deterministic(toks)
    ensures FirstMatch(s, PatternMatcher(toks)).None? ==> forall j, m: nat :: 0 <= j <= |s| ==> !Accepts(s[j..], toks, m)
    ensures FirstMatch(s, PatternMatcher(toks)).Some? ==>
              var (k, n) := FirstMatch(s, PatternMatcher(toks)).value;
              Accepts(s[k..], toks, n) &&
              (forall m: nat :: Accepts(s[k..], toks, m) ==> m <= n) &&
              (forall j, m: nat :: 0 <= j < k ==> !Accepts(s[j..], toks, m))
  {
    FirstMatchSpec(s, PatternMatcher(toks));
    forall j, m: nat | 0 <= j <= |s| && Accepts(s[j..], toks, m)
      ensures MatchPrefix(s[j..], toks).Some? && m <= MatchPrefix(s[j..], toks).value
    {
      MatchLongest(s[j..], toks, m);
    }
    if FirstMatch(s, PatternMatcher(toks)).Some? {
      MatchSound(s[FirstMatch(s, PatternMatcher(toks)).value.0..], toks);
    }
  }
}
