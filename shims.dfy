/** `injectShims` of `lib/utils.ts`: insertion of the iframe shims after the page's head tag. */
module Shims {
  import opened Wrappers
  import opened Strings
  import opened Replace
  import opened Patterns

  /** `/<head[^>]*>/i` */
  const HeadTag := [LitNoCase("<head"), NotChar('>'), Lit(">")]

  lemma HeadTagDeterministic()
    ensures Deterministic(HeadTag)
  {
  }

  /** The page has a head tag: the test `injectShims` makes before replacing. */
  predicate HasHeadTag(html: string) {
    PatternBounded(HeadTag);
    FirstMatch(html, PatternMatcher(HeadTag)).Some?
  }

  /** Where the shims go: right after the first head tag, or at the very start. */
  function InsertionPoint(html: string): (k: nat)
    ensures k <= |html|
  {
    PatternBounded(HeadTag);
    match FirstMatch(html, PatternMatcher(HeadTag))
    case Some((i, n)) => i + n
    case None => 0
  }

  /** `injectShims`: the test and the replacement use the same pattern, so the shims go after
      the tag the test found, or in front of the page when there is none. */
  function InjectShims(html: string, shims: string): (r: string)
    ensures HasHeadTag(html) ==>
              r == html[..InsertionPoint(html)] + "\n" + shims + html[InsertionPoint(html)..]
    ensures !HasHeadTag(html) ==> r == shims + "\n" + html
  {
    var k := InsertionPoint(html);
    if HasHeadTag(html) then html[..k] + "\n" + shims + html[k..] else shims + "\n" + html
  }

  /** Deleting the inserted block gives back the page. */
  lemma InjectShimsRoundTrip(html: string, shims: string)
    ensures var r := InjectShims(html, shims);
            var k := InsertionPoint(html);
            k + |shims| + 1 <= |r| && r[..k] + r[k + |shims| + 1..] == html
  {
    var r := InjectShims(html, shims);
    var k := InsertionPoint(html);
    var block := "\n" + shims;
    if HasHeadTag(html) {
      assert r == html[..k] + block + html[k..];
      assert r[..k] == html[..k];
      assert r[k + |block|..] == html[k..];
    } else {
      assert k == 0;
      assert r == shims + "\n" + html;
      assert r[|shims| + 1..] == html;
    }
  }

  /** The head pattern matches at the start of `s` exactly when `s` starts with `<head` in any
      letter case and has a `>` somewhere after it; the match ends at the first such `>`. */
  lemma HeadTagAt(s: string)
    ensures MatchPrefix(s, HeadTag).Some? <==> |s| >= 5 && Lower(s[..5]) == "<head" && '>' in s[5..]
    ensures MatchPrefix(s, HeadTag).Some? ==> MatchPrefix(s, HeadTag).value == 5 + IndexOfChar(s[5..], '>') + 1
  {
    LowerOfLower("<head");
    if |s| >= 5 && Lower(s[..5]) == "<head" {
      MatchUnfold(s, HeadTag, 5);
      assert HeadTag[1..] == [NotChar('>'), Lit(">")];
      UpToChar(s[5..], '>');
    }
  }

  /** The shims go after a head tag exactly when the page has one: a `<head` in any letter case
      with a `>` anywhere after it. */
  lemma InjectShimsPlacement(html: string)
    ensures HasHeadTag(html) <==>
              exists i :: 0 <= i <= |html| - 5 && Lower(html[i..][..5]) == "<head" && '>' in html[i..][5..]
  {
    PatternBounded(HeadTag);
    FirstMatchSpec(html, PatternMatcher(HeadTag));
    if HasHeadTag(html) {
      var i := FirstMatch(html, PatternMatcher(HeadTag)).value.0;
      HeadTagAt(html[i..]);
    } else {
      forall i | 0 <= i <= |html| - 5
        ensures !(Lower(html[i..][..5]) == "<head" && '>' in html[i..][5..])
      {
        HeadTagAt(html[i..]);
      }
    }
  }

  /** The pattern also accepts tags whose name merely starts with `head`, such as `<header>`:
      such a tag at the start of a page matches in full. */
  lemma HeadPrefixMatch(name: string, rest: string)
    requires '>' !in name
    ensures MatchPrefix("<head" + name + ">" + rest, HeadTag) == Some(6 + |name|)
  {
    var open, tail := "<head", name + ">" + rest;
    var html := open + tail;
    assert html == "<head" + name + ">" + rest;
    assert html[..5] == open && html[5..] == tail;
    IndexOfCharAfter(name, '>', rest);
    LowerOfLower(open);
    HeadTagAt(html);
  }

  /** A page that starts with such a tag gets the shims right after it. */
  lemma HeadPrefixTag(name: string, rest: string, shims: string)
    requires '>' !in name
    ensures var html := "<head" + name + ">" + rest;
            HasHeadTag(html) && InsertionPoint(html) == 6 + |name| &&
            InjectShims(html, shims) == "<head" + name + ">" + "\n" + shims + rest
  {
    var html := "<head" + name + ">" + rest;
    HeadPrefixMatch(name, rest);
    PatternBounded(HeadTag);
    FirstMatchAtStart(html, PatternMatcher(HeadTag));
    assert html[..6 + |name|] == "<head" + name + ">";
    assert html[6 + |name|..] == rest;
  }
}
