/** Search and replace in the manner of `String.prototype.replace` with a regular expression,
    over any matcher: a function that tells how long a match at the start of a text is. */
module Replace {
  import opened Wrappers
  import opened Strings

  /** Length of the match at the very start of a text, if the pattern matches there. */
  type Matcher = string -> Option<nat>

  /** A match never runs past the end of the text. */
  ghost predicate Bounded(m: Matcher) {
    forall x :: m(x).Some? ==> m(x).value <= |x|
  }

  /** In addition, no match is empty, so a global replacement always moves on. */
  ghost predicate Progressing(m: Matcher) {
    Bounded(m) && forall x :: m(x).Some? ==> m(x).value > 0
  }

  /** Matches exactly where the literal `p` starts the text. */
  function LiteralMatcher(p: string): Matcher {
    x => if p <= x then Some(|p|) else None
  }

  lemma LiteralProgressing(p: string)
    requires |p| > 0
    ensures Progressing(LiteralMatcher(p))
  {
  }

  lemma LiteralBounded(p: string)
    ensures Bounded(LiteralMatcher(p))
  {
  }

  // ---------------------------------------------------------------------------------------
  // the leftmost match

  /** The leftmost match at or after position `i`: its start and its length. */
  function FirstMatchFrom(s: string, m: Matcher, i: nat): (r: Option<(nat, nat)>)
    requires i <= |s| && Bounded(m)
    ensures r.Some? ==> i <= r.value.0 <= |s| && m(s[r.value.0..]) == Some(r.value.1)
    ensures r.Some? ==> r.value.0 + r.value.1 <= |s|
    decreases |s| - i
  {
    match m(s[i..])
    case Some(n) => Some((i, n))
    case None => if i == |s| then None else FirstMatchFrom(s, m, i + 1)
  }

  /** The leftmost match (`RegExp.prototype.exec` on a fresh regular expression). */
  function FirstMatch(s: string, m: Matcher): (r: Option<(nat, nat)>)
    requires Bounded(m)
    ensures r.Some? ==> r.value.0 + r.value.1 <= |s|
  {
    FirstMatchFrom(s, m, 0)
  }

  /** A match at the very start is the leftmost one. */
  lemma FirstMatchAtStart(s: string, m: Matcher)
    requires Bounded(m) && m(s).Some?
    ensures FirstMatch(s, m) == Some((0, m(s).value))
  {
    assert s[0..] == s;
  }

  lemma {:induction false} FirstMatchFromSpec(s: string, m: Matcher, i: nat)
    requires i <= |s| && Bounded(m)
    ensures FirstMatchFrom(s, m, i).None? ==> forall j :: i <= j <= |s| ==> m(s[j..]).None?
    ensures FirstMatchFrom(s, m, i).Some? ==>
              forall j :: i <= j < FirstMatchFrom(s, m, i).value.0 ==> m(s[j..]).None?
    decreases |s| - i
  {
    if m(s[i..]).None? && i < |s| {
      FirstMatchFromSpec(s, m, i + 1);
    }
  }

  /** `FirstMatch` reports the leftmost position where the matcher succeeds, with the length
      found there, and reports nothing exactly when the matcher succeeds nowhere. */
  lemma FirstMatchSpec(s: string, m: Matcher)
    requires Bounded(m)
    ensures FirstMatch(s, m).None? <==> forall j :: 0 <= j <= |s| ==> m(s[j..]).None?
    ensures FirstMatch(s, m).Some? ==>
              var (k, n) := FirstMatch(s, m).value;
              k <= |s| && m(s[k..]) == Some(n) && forall j :: 0 <= j < k ==> m(s[j..]).None?
  {
    FirstMatchFromSpec(s, m, 0);
  }

  /** The literal matcher finds a match exactly when the text includes the literal. */
  lemma LiteralFirstMatch(s: string, p: string)
    ensures FirstMatch(s, LiteralMatcher(p)).Some? <==> Contains(s, p)
  {
    var m := LiteralMatcher(p);
    LiteralBounded(p);
    FirstMatchSpec(s, m);
    if Contains(s, p) {
      var j := ContainsWitness(s, p);
      assert m(s[j..]).Some?;
    }
    if FirstMatch(s, m).Some? {
      ContainsAt(s, p, FirstMatch(s, m).value.0);
    }
  }

  // ---------------------------------------------------------------------------------------
  // replacement

  /** The output of the global replacement `s.replace(/re/g, rep)` for the part of `s` from
      position `i` on: scanning left to right, a match is replaced by `rep` and the scan resumes
      right after it; any other character is copied. */
  function ReplaceAllFrom(s: string, m: Matcher, rep: string, i: nat): string
    requires Progressing(m) && i <= |s|
    decreases |s| - i
  {
    if i == |s| then ""
    else
      match m(s[i..])
      case Some(n) => rep + ReplaceAllFrom(s, m, rep, i + n)
      case None => [s[i]] + ReplaceAllFrom(s, m, rep, i + 1)
  }

  /** `s.replace(/re/g, rep)`. */
  function ReplaceAll(s: string, m: Matcher, rep: string): string
    requires Progressing(m)
  {
    ReplaceAllFrom(s, m, rep, 0)
  }

  /** `s.replace(/re/, rep)`: only the leftmost match is replaced. */
  function ReplaceFirst(s: string, m: Matcher, rep: string): (r: string)
    requires Bounded(m)
    ensures FirstMatch(s, m).None? ==> r == s
    ensures FirstMatch(s, m).Some? ==>
              var (k, n) := FirstMatch(s, m).value;
              |r| == |s| - n + |rep| && r[..k] == s[..k] && r[k..k + |rep|] == rep && r[k + |rep|..] == s[k + n..]
  {
    match FirstMatch(s, m)
    case None => s
    case Some((i, n)) =>
      var r := s[..i] + rep + s[i + n..];
      assert r[..i] == s[..i] && r[i..i + |rep|] == rep && r[i + |rep|..] == s[i + n..];
      r
  }

  /** One step of the scan: a character where nothing matches is copied. */
  lemma CopyStep(s: string, m: Matcher, rep: string, i: nat)
    requires Progressing(m) && i < |s| && m(s[i..]).None?
    ensures ReplaceAllFrom(s, m, rep, i) == [s[i]] + ReplaceAllFrom(s, m, rep, i + 1)
  {
  }

  /** One step of the scan: a match is replaced. */
  lemma ReplaceStep(s: string, m: Matcher, rep: string, i: nat, n: nat)
    requires Progressing(m) && i <= |s| && m(s[i..]) == Some(n)
    ensures i + n <= |s| && ReplaceAllFrom(s, m, rep, i) == rep + ReplaceAllFrom(s, m, rep, i + n)
  {
  }

  lemma ConsSlice(s: string, i: nat, j: nat, t: string)
    requires i < j <= |s|
    ensures s[i..j] + t == [s[i]] + (s[i + 1..j] + t)
  {
    assert s[i..j] == [s[i]] + s[i + 1..j];
  }

  /** The characters from `i` up to the next match are copied one by one. */
  lemma {:induction false} CopiedUpTo(s: string, m: Matcher, rep: string, i: nat, j: nat)
    requires Progressing(m) && i <= j <= |s|
    requires forall k :: i <= k < j ==> m(s[k..]).None?
    ensures ReplaceAllFrom(s, m, rep, i) == s[i..j] + ReplaceAllFrom(s, m, rep, j)
    decreases j - i
  {
    if i < j {
      CopiedUpTo(s, m, rep, i + 1, j);
      CopyStep(s, m, rep, i);
      ConsSlice(s, i, j, ReplaceAllFrom(s, m, rep, j));
    } else {
      assert s[i..j] == [];
    }
  }

  /** The global replacement at work: it copies the text up to the leftmost match, replaces that
      match and carries on right after it. */
  lemma ReplaceAllAtMatch(s: string, m: Matcher, rep: string, i: nat, j: nat, n: nat)
    requires Progressing(m) && i <= |s| && FirstMatchFrom(s, m, i) == Some((j, n))
    ensures j + n <= |s|
    ensures ReplaceAllFrom(s, m, rep, i) == s[i..j] + rep + ReplaceAllFrom(s, m, rep, j + n)
  {
    FirstMatchFromSpec(s, m, i);
    CopiedUpTo(s, m, rep, i, j);
    ReplaceStep(s, m, rep, j, n);
    var tail := ReplaceAllFrom(s, m, rep, j + n);
    assert s[i..j] + (rep + tail) == s[i..j] + rep + tail;
  }

  /** Without a further match the global replacement copies the rest. */
  lemma ReplaceAllPastLastMatch(s: string, m: Matcher, rep: string, i: nat)
    requires Progressing(m) && i <= |s| && FirstMatchFrom(s, m, i).None?
    ensures ReplaceAllFrom(s, m, rep, i) == s[i..]
  {
    FirstMatchFromSpec(s, m, i);
    CopiedUpTo(s, m, rep, i, |s|);
    assert s[i..|s|] == s[i..];
  }

  /** Without any match the global replacement is the identity. */
  lemma ReplaceAllNone(s: string, m: Matcher, rep: string)
    requires Progressing(m) && FirstMatch(s, m).None?
    ensures ReplaceAll(s, m, rep) == s
  {
    ReplaceAllPastLastMatch(s, m, rep, 0);
  }

  // ---------------------------------------------------------------------------------------
  // what replacement cannot create

  /** A non-empty word is a prefix of a text exactly when both heads agree and the word's
      tail is a prefix of the text's tail. */
  lemma PrefixByHead(a: string, b: string)
    requires |a| > 0 && |b| > 0
    ensures a <= b <==> a[0] == b[0] && a[1..] <= b[1..]
  {
    assert a == [a[0]] + a[1..];
    assert b == [b[0]] + b[1..];
  }

  lemma SuffixTail(s: string, i: nat)
    requires i < |s|
    ensures s[i..][0] == s[i] && s[i..][1..] == s[i + 1..]
  {
  }

  /** A word that cannot contain the first character of the replacement text is a prefix of the
      output only if it is one of the input. */
  lemma {:induction false} PrefixPreserved(s: string, m: Matcher, rep: string, i: nat, w: string)
    requires Progressing(m) && i <= |s| && |rep| > 0 && rep[0] !in w
    requires w <= ReplaceAllFrom(s, m, rep, i)
    ensures w <= s[i..]
    decreases |s| - i
  {
    var r := ReplaceAllFrom(s, m, rep, i);
    if |w| > 0 && i < |s| {
      assert m(s[i..]).Some? ==> rep <= r;
      match m(s[i..])
      case Some(n) =>
      case None =>
        var tail := ReplaceAllFrom(s, m, rep, i + 1);
        assert r == [s[i]] + tail;
        PrefixByHead(w, r);
        PrefixPreserved(s, m, rep, i + 1, w[1..]);
        SuffixTail(s, i);
        PrefixByHead(w, s[i..]);
    }
  }

  /** With no match at position `i`, an occurrence of `q` at the front of the output would be
      one at position `i` of the input. */
  lemma NoPrefixThroughTail(s: string, m: Matcher, rep: string, i: nat, q: string)
    requires Progressing(m) && i < |s| && |q| > 0 && m(s[i..]).None?
    requires |rep| > 0 && rep[0] !in q
    requires !(q <= s[i..])
    ensures !(q <= ReplaceAllFrom(s, m, rep, i))
  {
    var tail := ReplaceAllFrom(s, m, rep, i + 1);
    var r := ReplaceAllFrom(s, m, rep, i);
    assert r == [s[i]] + tail;
    assert r[0] == s[i] && r[1..] == tail;
    SuffixTail(s, i);
    PrefixByHead(q, r);
    PrefixByHead(q, s[i..]);
    if q[1..] <= tail {
      PrefixPreserved(s, m, rep, i + 1, q[1..]);
    }
  }

  /** Conditions under which a replacement text cannot help form `q`: it has no occurrence of
      `q` and it starts and ends with characters that `q` does not contain. */
  predicate Inert(rep: string, q: string) {
    |rep| > 0 && rep[0] !in q && rep[|rep| - 1] !in q && !Contains(rep, q)
  }

  /** The global replacement creates no occurrence of `q` when the input has none and the
      replacement text is inert for `q`. */
  lemma {:induction false} ReplaceAllFromKeepsAbsent(s: string, m: Matcher, rep: string, q: string, i: nat)
    requires Progressing(m) && |q| > 0 && i <= |s| && Inert(rep, q)
    requires !Contains(s[i..], q)
    ensures !Contains(ReplaceAllFrom(s, m, rep, i), q)
    decreases |s| - i
  {
    if i < |s| {
      var r := ReplaceAllFrom(s, m, rep, i);
      match m(s[i..])
      case Some(n) =>
        NotContainsSuffix(s[i..], n, q);
        assert s[i..][n..] == s[i + n..];
        ReplaceAllFromKeepsAbsent(s, m, rep, q, i + n);
        NotContainsAfter(rep, ReplaceAllFrom(s, m, rep, i + n), q);
      case None =>
        var tail := ReplaceAllFrom(s, m, rep, i + 1);
        SuffixTail(s, i);
        ReplaceAllFromKeepsAbsent(s, m, rep, q, i + 1);
        assert r == [s[i]] + tail && r[1..] == tail;
        NoPrefixThroughTail(s, m, rep, i, q);
    }
  }

  lemma ReplaceAllKeepsAbsent(s: string, m: Matcher, rep: string, q: string)
    requires Progressing(m) && |q| > 0 && Inert(rep, q)
    requires !Contains(s, q)
    ensures !Contains(ReplaceAll(s, m, rep), q)
  {
    assert s[0..] == s;
    ReplaceAllFromKeepsAbsent(s, m, rep, q, 0);
  }

  /** Where the literal does not start the text, its matcher reports nothing. */
  lemma LiteralMiss(x: string, p: string)
    requires LiteralMatcher(p)(x).None?
    ensures !(p <= x)
  {
  }

  /** Replacing every occurrence of a literal by an inert text leaves no occurrence. */
  lemma {:induction false} ReplaceAllFromRemoves(s: string, p: string, rep: string, i: nat)
    requires |p| > 0 && i <= |s| && Inert(rep, p)
    ensures !Contains(ReplaceAllFrom(s, LiteralMatcher(p), rep, i), p)
    decreases |s| - i
  {
    var m := LiteralMatcher(p);
    LiteralProgressing(p);
    if i < |s| {
      match m(s[i..])
      case Some(n) =>
        ReplaceStep(s, m, rep, i, n);
        ReplaceAllFromRemoves(s, p, rep, i + n);
        NotContainsAfter(rep, ReplaceAllFrom(s, m, rep, i + n), p);
      case None =>
        CopyStep(s, m, rep, i);
        LiteralMiss(s[i..], p);
        ReplaceAllFromRemoves(s, p, rep, i + 1);
        NoPrefixThroughTail(s, m, rep, i, p);
        var r := ReplaceAllFrom(s, m, rep, i);
        assert r[1..] == ReplaceAllFrom(s, m, rep, i + 1);
    }
  }

  lemma ReplaceAllRemoves(s: string, p: string, rep: string)
    requires |p| > 0 && Inert(rep, p)
    ensures !Contains(ReplaceAll(s, LiteralMatcher(p), rep), p)
  {
    ReplaceAllFromRemoves(s, p, rep, 0);
  }

  lemma NotContainsSplice(s: string, i: nat, j: nat, rep: string, q: string)
    requires i <= j <= |s| && Inert(rep, q)
    requires !Contains(s, q)
    ensures !Contains(s[..i] + rep + s[j..], q)
  {
    NotContainsPrefix(s, i, q);
    NotContainsSuffix(s, j, q);
    NotContainsAround(s[..i], rep, s[j..], q);
  }

  /** The first-only replacement creates no occurrence of `q` under the same conditions. */
  lemma ReplaceFirstKeepsAbsent(s: string, m: Matcher, rep: string, q: string)
    requires Bounded(m) && |q| > 0 && Inert(rep, q)
    requires !Contains(s, q)
    ensures !Contains(ReplaceFirst(s, m, rep), q)
  {
    var fm := FirstMatch(s, m);
    if fm.Some? {
      NotContainsSplice(s, fm.value.0, fm.value.0 + fm.value.1, rep, q);
    }
  }
}
