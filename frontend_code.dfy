/** `processFrontendCode` of `lib/utils.ts`: clean-up of the generated page before it is shown. */
module FrontendCode {
  import opened Strings
  import opened Replace
  import opened Patterns

  /** `/```html\s*\/g` */
  const FenceOpen := [Lit("```html"), Spaces(0)]
  /** `/```\s*$/g` */
  const FenceClose := [Lit("```"), Spaces(0), End]
  const LlmKeyPlaceholder := "__LLM_API_KEY__"
  const ComposioKeyPlaceholder := "__COMPOSIO_API_KEY__"
  const UserIdPlaceholder := "__USER_ID__"
  /** `/const\s+API_BASE_URL\s*=\s*window\.location\.origin\s*;/` */
  const BaseUrlAssignment := [Lit("const"), Spaces(1), Lit("API_BASE_URL"), Spaces(0), Lit("="), Spaces(0),
                              Lit("window.location.origin"), Spaces(0), Lit(";")]
  /** The text that replaces it, written in four pieces. */
  const BaseUrlReplacement := BaseUrlLhs + BaseUrlTest + BaseUrlReferrer + BaseUrlRest
  const BaseUrlLhs := "const API_BASE_URL = "
  const BaseUrlTest := "(document.referrer ? "
  const BaseUrlReferrer := "new URL(document.referrer)"
  const BaseUrlRest := ".origin : \"\");"

  /** The empty-string literal `""` that replaces each key placeholder. */
  const EmptyLiteral := "\"\""

  function Quoted(s: string): string { "\"" + s + "\"" }

  // ---------------------------------------------------------------------------------------
  // the pipeline, stage by stage

  /** Steps one and two: `replace(/```html\s*\/g, "")`, then `replace(/```\s*$/g, "")`. */
  function StripFences(frontend: string): string {
    PatternProgressing(FenceOpen);
    PatternProgressing(FenceClose);
    ReplaceAll(ReplaceAll(frontend, PatternMatcher(FenceOpen), ""), PatternMatcher(FenceClose), "")
  }

  /** Steps three and four: each key placeholder becomes the empty literal `""`. */
  function BlankKeys(b: string): string {
    LiteralProgressing(LlmKeyPlaceholder);
    LiteralProgressing(ComposioKeyPlaceholder);
    var c := ReplaceAll(b, LiteralMatcher(LlmKeyPlaceholder), EmptyLiteral);
    ReplaceAll(c, LiteralMatcher(ComposioKeyPlaceholder), EmptyLiteral)
  }

  /** Step five: the user-id placeholder becomes the quoted user id. */
  function FillUserId(d: string, userId: string): string {
    LiteralProgressing(UserIdPlaceholder);
    ReplaceAll(d, LiteralMatcher(UserIdPlaceholder), Quoted(userId))
  }

  /** The last step: only the first base-URL assignment is rewritten. */
  function RewriteBaseUrl(e: string): string {
    PatternBounded(BaseUrlAssignment);
    ReplaceFirst(e, PatternMatcher(BaseUrlAssignment), BaseUrlReplacement)
  }

  /** `processFrontendCode`: strip code fences, blank the two key placeholders, quote the user id
      in, then rewrite the first `API_BASE_URL` assignment. */
  function ProcessFrontendCode(frontend: string, userId: string): string {
    RewriteBaseUrl(FillUserId(BlankKeys(StripFences(frontend)), userId))
  }

  lemma BaseUrlDeterministic()
    ensures Deterministic(BaseUrlAssignment)
  {
    var t := BaseUrlAssignment;
    assert Follows(t[1], t[2]) && Follows(t[3], t[4]) && Follows(t[5], t[6]) && Follows(t[7], t[8]);
  }

  // ---------------------------------------------------------------------------------------
  // no placeholder survives

  /** A placeholder that the user id lacks is not in the quoted user id either. */
  lemma QuotedKeepsAbsent(u: string, q: string)
    requires |q| > 0 && '"' !in q && !Contains(u, q)
    ensures !Contains(Quoted(u), q)
  {
    NotContainsForeign("\"", q);
    NotContainsBefore(u, "\"", q);
    NotContainsAfter("\"", u + "\"", q);
    assert Quoted(u) == "\"" + (u + "\"");
  }

  /** One of the three placeholders. */
  predicate IsPlaceholder(q: string) {
    q == LlmKeyPlaceholder || q == ComposioKeyPlaceholder || q == UserIdPlaceholder
  }

  predicate Lacks(s: string, c: char) {
    forall i :: 0 <= i < |s| ==> s[i] != c
  }

  lemma BaseUrlFrontLacksLetters()
    ensures Lacks(BaseUrlLhs, 'K') && Lacks(BaseUrlLhs, 'D') && Lacks(BaseUrlTest, 'K') && Lacks(BaseUrlTest, 'D')
  {
  }

  lemma BaseUrlBackLacksLetters()
    ensures Lacks(BaseUrlReferrer, 'K') && Lacks(BaseUrlReferrer, 'D') && Lacks(BaseUrlRest, 'K') && Lacks(BaseUrlRest, 'D')
  {
  }

  /** The base-URL text starts with `c`, ends with `;` and has no `K` and no `D`. */
  lemma BaseUrlReplacementShape()
    ensures |BaseUrlReplacement| > 0 && BaseUrlReplacement[0] == 'c'
    ensures BaseUrlReplacement[|BaseUrlReplacement| - 1] == ';'
    ensures 'K' !in BaseUrlReplacement && 'D' !in BaseUrlReplacement
  {
    BaseUrlFrontLacksLetters();
    BaseUrlBackLacksLetters();
    var a, b, c, d := BaseUrlLhs, BaseUrlTest, BaseUrlReferrer, BaseUrlRest;
    assert 'K' !in a && 'K' !in b && 'K' !in c && 'K' !in d;
    assert 'D' !in a && 'D' !in b && 'D' !in c && 'D' !in d;
    assert a[0] == 'c' && d[|d| - 1] == ';';
    assert (a + b + c + d)[0] == a[0] && (a + b + c + d)[|a + b + c + d| - 1] == d[|d| - 1];
  }

  /** A placeholder `q` has the letter `c` and none of the end characters of the replacement texts. */
  predicate PlaceholderLetter(q: string, c: char) {
    c in q && Lacks(q, '"') && Lacks(q, 'c') && Lacks(q, ';')
  }

  lemma LlmKeyLetters()
    ensures PlaceholderLetter(LlmKeyPlaceholder, 'K')
  {
    assert LlmKeyPlaceholder[10] == 'K';
  }

  lemma ComposioKeyLetters()
    ensures PlaceholderLetter(ComposioKeyPlaceholder, 'K')
  {
    assert ComposioKeyPlaceholder[15] == 'K';
  }

  lemma UserIdLetters()
    ensures PlaceholderLetter(UserIdPlaceholder, 'D')
  {
    assert UserIdPlaceholder[8] == 'D';
  }

  /** The replacement texts of the clean-up cannot help form a placeholder: each placeholder has
      a letter (`K` or `D`) that the base-URL text lacks, and none of their end characters. */
  lemma PlaceholderShape(q: string)
    requires IsPlaceholder(q)
    ensures |q| > 0 && '"' !in q
    ensures Inert(EmptyLiteral, q) && Inert(BaseUrlReplacement, q)
  {
    var c := if q == UserIdPlaceholder then 'D' else 'K';
    if q == LlmKeyPlaceholder {
      LlmKeyLetters();
    } else if q == ComposioKeyPlaceholder {
      ComposioKeyLetters();
    } else {
      UserIdLetters();
    }
    assert PlaceholderLetter(q, c);
    BaseUrlReplacementShape();
    NotContainsMissing(BaseUrlReplacement, q, c);
    NotContainsMissing(EmptyLiteral, q, c);
  }

  /** After the key steps neither key placeholder is left. */
  lemma BlankKeysRemovesKeys(b: string)
    ensures !Contains(BlankKeys(b), LlmKeyPlaceholder) && !Contains(BlankKeys(b), ComposioKeyPlaceholder)
  {
    LiteralProgressing(ComposioKeyPlaceholder);
    PlaceholderShape(LlmKeyPlaceholder);
    PlaceholderShape(ComposioKeyPlaceholder);
    var c := ReplaceAll(b, LiteralMatcher(LlmKeyPlaceholder), EmptyLiteral);
    ReplaceAllRemoves(b, LlmKeyPlaceholder, EmptyLiteral);
    ReplaceAllRemoves(c, ComposioKeyPlaceholder, EmptyLiteral);
    ReplaceAllKeepsAbsent(c, LiteralMatcher(ComposioKeyPlaceholder), EmptyLiteral, LlmKeyPlaceholder);
  }

  /** Filling in a user id without placeholders removes the user-id placeholder and brings
      back no other one. */
  lemma FillUserIdRemoves(d: string, userId: string, q: string)
    requires IsPlaceholder(q) && !Contains(userId, q)
    requires q != UserIdPlaceholder ==> !Contains(d, q)
    ensures !Contains(FillUserId(d, userId), q)
  {
    PlaceholderShape(q);
    QuotedKeepsAbsent(userId, q);
    if q == UserIdPlaceholder {
      ReplaceAllRemoves(d, UserIdPlaceholder, Quoted(userId));
    } else {
      LiteralProgressing(UserIdPlaceholder);
      ReplaceAllKeepsAbsent(d, LiteralMatcher(UserIdPlaceholder), Quoted(userId), q);
    }
  }

  /** The base-URL rewrite brings back no placeholder. */
  lemma RewriteKeepsAbsent(e: string, q: string)
    requires IsPlaceholder(q) && !Contains(e, q)
    ensures !Contains(RewriteBaseUrl(e), q)
  {
    PatternBounded(BaseUrlAssignment);
    PlaceholderShape(q);
    ReplaceFirstKeepsAbsent(e, PatternMatcher(BaseUrlAssignment), BaseUrlReplacement, q);
  }

  /** No key or user-id placeholder survives the clean-up, provided the user id itself does
      not contain one. */
  lemma PlaceholdersRemoved(frontend: string, userId: string, q: string)
    requires IsPlaceholder(q) && !Contains(userId, q)
    ensures !Contains(ProcessFrontendCode(frontend, userId), q)
  {
    var d := BlankKeys(StripFences(frontend));
    BlankKeysRemovesKeys(StripFences(frontend));
    FillUserIdRemoves(d, userId, q);
    RewriteKeepsAbsent(FillUserId(d, userId), q);
  }

  // ---------------------------------------------------------------------------------------
  // a clean page passes unchanged

  /** The pattern matches nowhere in `s`. */
  predicate MatchesNowhere(s: string, toks: seq<Token>) {
    forall j :: 0 <= j <= |s| ==> MatchPrefix(s[j..], toks).None?
  }

  lemma StripFencesUnchanged(frontend: string)
    requires MatchesNowhere(frontend, FenceOpen) && MatchesNowhere(frontend, FenceClose)
    ensures StripFences(frontend) == frontend
  {
    PatternProgressing(FenceOpen);
    PatternProgressing(FenceClose);
    FirstMatchSpec(frontend, PatternMatcher(FenceOpen));
    FirstMatchSpec(frontend, PatternMatcher(FenceClose));
    ReplaceAllNone(frontend, PatternMatcher(FenceOpen), "");
    ReplaceAllNone(frontend, PatternMatcher(FenceClose), "");
  }

  lemma PlaceholderStepsUnchanged(b: string, userId: string)
    requires !Contains(b, LlmKeyPlaceholder) && !Contains(b, ComposioKeyPlaceholder) && !Contains(b, UserIdPlaceholder)
    ensures FillUserId(BlankKeys(b), userId) == b
  {
    LiteralProgressing(LlmKeyPlaceholder);
    LiteralProgressing(ComposioKeyPlaceholder);
    LiteralProgressing(UserIdPlaceholder);
    LiteralFirstMatch(b, LlmKeyPlaceholder);
    LiteralFirstMatch(b, ComposioKeyPlaceholder);
    LiteralFirstMatch(b, UserIdPlaceholder);
    ReplaceAllNone(b, LiteralMatcher(LlmKeyPlaceholder), EmptyLiteral);
    ReplaceAllNone(b, LiteralMatcher(ComposioKeyPlaceholder), EmptyLiteral);
    ReplaceAllNone(b, LiteralMatcher(UserIdPlaceholder), Quoted(userId));
  }

  lemma RewriteUnchanged(e: string)
    requires MatchesNowhere(e, BaseUrlAssignment)
    ensures RewriteBaseUrl(e) == e
  {
    PatternBounded(BaseUrlAssignment);
    FirstMatchSpec(e, PatternMatcher(BaseUrlAssignment));
  }

  /** A page with no fence, no placeholder and no base-URL assignment passes unchanged. */
  lemma CleanPageUnchanged(frontend: string, userId: string)
    requires MatchesNowhere(frontend, FenceOpen) && MatchesNowhere(frontend, FenceClose)
    requires !Contains(frontend, LlmKeyPlaceholder) && !Contains(frontend, ComposioKeyPlaceholder)
    requires !Contains(frontend, UserIdPlaceholder) && MatchesNowhere(frontend, BaseUrlAssignment)
    ensures ProcessFrontendCode(frontend, userId) == frontend
  {
    StripFencesUnchanged(frontend);
    PlaceholderStepsUnchanged(frontend, userId);
    RewriteUnchanged(frontend);
  }
}
