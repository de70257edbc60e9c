/** The string operations the source takes from JavaScript's `String.prototype`: case mapping
    (on ASCII letters), `trim`, `split` on one character, `join`, `includes`, and the
    single-occurrence `replace('_', '')`. */
module Strings {

  predicate IsUpperChar(c: char) { 'A' <= c <= 'Z' }
  predicate IsLowerChar(c: char) { 'a' <= c <= 'z' }
  predicate IsLetter(c: char) { IsUpperChar(c) || IsLowerChar(c) }
  predicate IsDigit(c: char) { '0' <= c <= '9' }

  /** `\s` of a JavaScript regular expression, also what `trim` removes: the white space and
      line terminator characters of ECMAScript (sections 12.2 and 12.3 of ECMA-262). */
  predicate IsSpace(c: char) {
    c == ' ' || c == '\t' || c == '\n' || c == '\r' || c == '\U{B}' || c == '\U{C}' ||
    c == '\U{A0}' || c == '\U{1680}' || '\U{2000}' <= c <= '\U{200A}' || c == '\U{2028}' ||
    c == '\U{2029}' || c == '\U{202F}' || c == '\U{205F}' || c == '\U{3000}' || c == '\U{FEFF}'
  }

  function LowerChar(c: char): (r: char)
    ensures !IsUpperChar(r)
    ensures IsLetter(c) <==> IsLetter(r)
    ensures !IsUpperChar(c) ==> r == c
  {
    if IsUpperChar(c) then (c as int + 32) as char else c
  }

  function UpperChar(c: char): (r: char)
    ensures !IsLowerChar(r)
    ensures IsLetter(c) <==> IsLetter(r)
    ensures !IsLowerChar(c) ==> r == c
  {
    if IsLowerChar(c) then (c as int - 32) as char else c
  }

  /** `toLowerCase()` on ASCII text. */
  function Lower(s: string): (r: string)
    ensures |r| == |s|
    ensures forall i :: 0 <= i < |s| ==> r[i] == LowerChar(s[i])
  {
    seq(|s|, i requires 0 <= i < |s| => LowerChar(s[i]))
  }

  /** `toUpperCase()` on ASCII text. */
  function Upper(s: string): (r: string)
    ensures |r| == |s|
    ensures forall i :: 0 <= i < |s| ==> r[i] == UpperChar(s[i])
  {
    seq(|s|, i requires 0 <= i < |s| => UpperChar(s[i]))
  }

  predicate IsLowerCase(s: string) {
    forall i :: 0 <= i < |s| ==> !IsUpperChar(s[i])
  }

  lemma LowerOfUpperChar(c: char)
    ensures LowerChar(UpperChar(c)) == LowerChar(c)
  {
  }

  /** Upper-casing first does not change what lower-casing gives (`slug.toUpperCase()` is
      matched back with `toLowerCase()`). */
  lemma LowerOfUpper(s: string)
    ensures Lower(Upper(s)) == Lower(s)
  {
    forall i | 0 <= i < |s| ensures Lower(Upper(s))[i] == Lower(s)[i] {
      LowerOfUpperChar(s[i]);
    }
  }

  lemma LowerIdempotent(s: string)
    ensures Lower(Lower(s)) == Lower(s)
  {
  }

  /** Nor does it remove one. */
  lemma LowerKeepsChar(s: string, c: char)
    requires !IsLetter(c) && c in s
    ensures c in Lower(s)
  {
    var k :| 0 <= k < |s| && s[k] == c;
    assert Lower(s)[k] == c;
  }

  /** Lower-casing works character by character, so it distributes over concatenation. */
  lemma LowerAppend(a: string, b: string)
    ensures Lower(a + b) == Lower(a) + Lower(b)
  {
  }

  /** A text without uppercase letters is its own lowercase form. */
  lemma LowerOfLower(s: string)
    requires forall i :: 0 <= i < |s| ==> !IsUpperChar(s[i])
    ensures Lower(s) == s
  {
  }

  /** Lower-casing introduces no character other than a letter. */
  lemma LowerKeepsNonLetter(s: string, c: char)
    requires !IsLetter(c) && c !in s
    ensures c !in Lower(s)
  {
    forall i | 0 <= i < |s| ensures Lower(s)[i] != c {
    }
  }

  // ---------------------------------------------------------------------------------------
  // trim

  /** Number of leading spaces. */
  function LeadingSpaces(s: string): (n: nat)
    ensures n <= |s|
    ensures forall k :: 0 <= k < n ==> IsSpace(s[k])
    ensures n < |s| ==> !IsSpace(s[n])
  {
    if |s| == 0 || !IsSpace(s[0]) then 0 else 1 + LeadingSpaces(s[1..])
  }

  /** Number of trailing spaces. */
  function TrailingSpaces(s: string): (n: nat)
    ensures n <= |s|
    ensures forall k :: |s| - n <= k < |s| ==> IsSpace(s[k])
    ensures n < |s| ==> !IsSpace(s[|s| - 1 - n])
  {
    if |s| == 0 || !IsSpace(s[|s| - 1]) then 0 else 1 + TrailingSpaces(s[..|s| - 1])
  }

  /** `String.prototype.trim`: drop the `IsSpace` characters at both ends. */
  function Trim(s: string): (r: string)
  {
    var t := s[LeadingSpaces(s)..];
    t[..|t| - TrailingSpaces(t)]
  }

  /** `r` is `s` without its first `a` and last `b` characters, all of which are spaces. */
  predicate DropsSpaces(s: string, a: nat, b: nat, r: string) {
    a + b <= |s| && r == s[a..|s| - b] &&
    (forall k :: 0 <= k < a ==> IsSpace(s[k])) &&
    (forall k :: |s| - b <= k < |s| ==> IsSpace(s[k]))
  }

  /** `trim` keeps a run of the input's own characters, without space at either end, and
      drops only spaces. */
  lemma TrimSpec(s: string)
    ensures forall k :: 0 <= k < |Trim(s)| ==> Trim(s)[k] in s
    ensures |Trim(s)| > 0 ==> !IsSpace(Trim(s)[0]) && !IsSpace(Trim(s)[|Trim(s)| - 1])
    ensures (forall k :: 0 <= k < |s| ==> IsSpace(s[k])) <==> Trim(s) == ""
    ensures exists a: nat, b: nat :: DropsSpaces(s, a, b, Trim(s))
  {
    var a := LeadingSpaces(s);
    var t := s[a..];
    var b := TrailingSpaces(t);
    assert Trim(s) == s[a..|s| - b];
    assert |t| > 0 ==> t[0] == s[a];
    assert forall k :: |s| - b <= k < |s| ==> s[k] == t[k - a];
    assert DropsSpaces(s, a, b, Trim(s));
  }

  /** A text that starts and ends with a non-space character loses only the padding
      added around it. */
  lemma TrimPadded(pad: string, q: string)
    requires forall k :: 0 <= k < |pad| ==> IsSpace(pad[k])
    requires |q| > 0 && !IsSpace(q[0]) && !IsSpace(q[|q| - 1])
    ensures Trim(pad + q) == q
  {
    var s := pad + q;
    assert forall k :: 0 <= k < |pad| ==> s[k] == pad[k];
    assert s[|pad|] == q[0];
    assert LeadingSpaces(s) == |pad|;
    assert s[|pad|..] == q;
  }

  // ---------------------------------------------------------------------------------------
  // split and join

  /** Position of the first `c` in `s`, or `|s|` when there is none. */
  function IndexOfChar(s: string, c: char): (i: nat)
    ensures i <= |s|
    ensures i < |s| ==> s[i] == c
    ensures forall j :: 0 <= j < i ==> s[j] != c
  {
    if |s| == 0 || s[0] == c then 0 else 1 + IndexOfChar(s[1..], c)
  }

  /** `s.split(c)` for a one-character separator: the pieces between separators, at least one. */
  function Split(s: string, c: char): (parts: seq<string>)
    ensures |parts| >= 1
    ensures forall k :: 0 <= k < |parts| ==> c !in parts[k]
    decreases |s|
  {
    var i := IndexOfChar(s, c);
    if i == |s| then [s] else [s[..i]] + Split(s[i + 1..], c)
  }

  /** `parts.join(sep)`. */
  function Join(parts: seq<string>, sep: string): string
  {
    if |parts| == 0 then ""
    else if |parts| == 1 then parts[0]
    else parts[0] + sep + Join(parts[1..], sep)
  }

  lemma SplitWhole(s: string, c: char)
    requires IndexOfChar(s, c) == |s|
    ensures Split(s, c) == [s]
  {
  }

  lemma SplitAt(s: string, c: char)
    requires IndexOfChar(s, c) < |s|
    ensures Split(s, c) == [s[..IndexOfChar(s, c)]] + Split(s[IndexOfChar(s, c) + 1..], c)
  {
  }

  /** The first piece of a split is the text before the first separator. */
  lemma SplitHead(s: string, c: char)
    ensures Split(s, c)[0] == s[..IndexOfChar(s, c)]
    ensures IndexOfChar(s, c) < |s| ==> Split(s, c)[1..] == Split(s[IndexOfChar(s, c) + 1..], c)
  {
    var i := IndexOfChar(s, c);
    if i == |s| {
      SplitWhole(s, c);
      assert s[..i] == s;
    } else {
      SplitAt(s, c);
      var rest := Split(s[i + 1..], c);
      assert ([s[..i]] + rest)[1..] == rest;
    }
  }

  lemma JoinCons(p: string, rest: seq<string>, sep: string)
    requires |rest| >= 1
    ensures Join([p] + rest, sep) == p + sep + Join(rest, sep)
  {
    assert ([p] + rest)[0] == p && ([p] + rest)[1..] == rest;
  }

  /** Each piece with `pad` in front of it. */
  function Padded(parts: seq<string>, pad: string): (r: seq<string>)
    ensures |r| == |parts| && forall i :: 0 <= i < |parts| ==> r[i] == pad + parts[i]
  {
    seq(|parts|, i requires 0 <= i < |parts| => pad + parts[i])
  }

  lemma {:induction false} JoinPaddedTail(parts: seq<string>, c: char, pad: string)
    requires |parts| >= 1
    ensures pad + Join(parts, [c] + pad) == Join(Padded(parts, pad), [c])
  {
    if |parts| > 1 {
      var rest := parts[1..];
      JoinPaddedTail(rest, c, pad);
      assert Padded(parts, pad) == [pad + parts[0]] + Padded(rest, pad);
      JoinCons(pad + parts[0], Padded(rest, pad), [c]);
    }
  }

  /** Joining with a one-character separator followed by padding is joining with the separator
      alone, the padding having moved to the front of every piece but the first. */
  lemma JoinPadded(parts: seq<string>, c: char, pad: string)
    requires |parts| >= 1
    ensures Join(parts, [c] + pad) == Join([parts[0]] + Padded(parts[1..], pad), [c])
  {
    if |parts| > 1 {
      JoinPaddedTail(parts[1..], c, pad);
      JoinCons(parts[0], Padded(parts[1..], pad), [c]);
    }
  }

  lemma {:induction false} JoinSplit(s: string, c: char)
    ensures Join(Split(s, c), [c]) == s
    decreases |s|
  {
    var i := IndexOfChar(s, c);
    if i == |s| {
      SplitWhole(s, c);
    } else {
      var rest := s[i + 1..];
      SplitAt(s, c);
      JoinSplit(rest, c);
      JoinCons(s[..i], Split(rest, c), [c]);
      assert s == s[..i] + [c] + rest;
    }
  }

  lemma IndexOfCharAfter(a: string, c: char, b: string)
    requires c !in a
    ensures IndexOfChar(a + [c] + b, c) == |a|
  {
    var s := a + [c] + b;
    assert forall k :: 0 <= k < |a| ==> s[k] == a[k];
    assert s[|a|] == c;
  }

  /** Splitting separator-free pieces joined by the separator gives the pieces back. */
  lemma {:induction false} SplitJoin(parts: seq<string>, c: char)
    requires |parts| >= 1
    requires forall k :: 0 <= k < |parts| ==> c !in parts[k]
    ensures Split(Join(parts, [c]), c) == parts
  {
    var p0 := parts[0];
    if |parts| == 1 {
      assert c !in p0;
      assert IndexOfChar(p0, c) == |p0|;
    } else {
      var tail := parts[1..];
      assert forall k :: 0 <= k < |tail| ==> tail[k] == parts[k + 1];
      var rest := Join(tail, [c]);
      var s := p0 + [c] + rest;
      assert Join(parts, [c]) == s;
      IndexOfCharAfter(p0, c, rest);
      assert s[..|p0|] == p0;
      assert s[|p0| + 1..] == rest;
      SplitJoin(tail, c);
      assert Split(s, c) == [p0] + tail;
      assert parts == [p0] + tail;
    }
  }

  // ---------------------------------------------------------------------------------------
  // substrings

  /** `s.includes(sub)`. */
  predicate Contains(s: string, sub: string)
    decreases |s|
  {
    sub <= s || (|s| > 0 && Contains(s[1..], sub))
  }

  /** An occurrence cannot start inside `x` when `x` has none and the first character of `y`
      is foreign to `q`. */
  lemma {:induction false} NotContainsBefore(x: string, y: string, q: string)
    requires !Contains(x, q) && !Contains(y, q)
    requires |y| > 0 && y[0] !in q
    ensures !Contains(x + y, q)
    decreases |x|
  {
    if |x| == 0 {
      assert x + y == y;
    } else {
      assert (x + y)[1..] == x[1..] + y;
      NotContainsBefore(x[1..], y, q);
      if |q| <= |x| {
        assert (x + y)[..|q|] == x[..|q|];
      } else {
        if |q| <= |x + y| {
          assert (x + y)[..|q|][|x|] == y[0];
        }
      }
    }
  }

  /** An occurrence cannot run past the last character of `x` when that character is foreign to `q`. */
  lemma {:induction false} NotContainsAfter(x: string, y: string, q: string)
    requires !Contains(x, q) && !Contains(y, q)
    requires |x| > 0 && x[|x| - 1] !in q
    ensures !Contains(x + y, q)
    decreases |x|
  {
    assert (x + y)[1..] == x[1..] + y;
    if |q| <= |x| {
      assert (x + y)[..|q|] == x[..|q|];
    } else {
      if |q| <= |x + y| {
        assert (x + y)[..|q|][|x| - 1] == x[|x| - 1];
      }
    }
    if |x| == 1 {
      assert x[1..] + y == y;
    } else {
      NotContainsAfter(x[1..], y, q);
    }
  }

  /** Gluing a text between two others creates no occurrence when its ends are foreign to `q`. */
  lemma NotContainsAround(a: string, m: string, b: string, q: string)
    requires !Contains(a, q) && !Contains(m, q) && !Contains(b, q)
    requires |m| > 0 && m[0] !in q && m[|m| - 1] !in q
    ensures !Contains(a + m + b, q)
  {
    NotContainsAfter(m, b, q);
    assert (m + b)[0] == m[0];
    NotContainsBefore(a, m + b, q);
    assert a + m + b == a + (m + b);
  }

  /** A text none of whose characters occur in a non-empty `q` does not contain `q`. */
  lemma {:induction false} NotContainsForeign(s: string, q: string)
    requires |q| > 0
    requires forall k :: 0 <= k < |s| ==> s[k] !in q
    ensures !Contains(s, q)
    decreases |s|
  {
    if |s| > 0 {
      NotContainsForeign(s[1..], q);
      assert q[0] in q;
    }
  }

  /** An occurrence at position `j` is an occurrence. */
  lemma {:induction false} ContainsAt(s: string, sub: string, j: nat)
    requires j <= |s| && sub <= s[j..]
    ensures Contains(s, sub)
    decreases j
  {
    if j > 0 {
      assert s[1..][j - 1..] == s[j..];
      ContainsAt(s[1..], sub, j - 1);
    }
  }

  /** An occurrence has a position. */
  lemma {:induction false} ContainsWitness(s: string, sub: string) returns (j: nat)
    requires Contains(s, sub)
    ensures j <= |s| && sub <= s[j..]
    decreases |s|
  {
    if sub <= s {
      j := 0;
    } else {
      var k := ContainsWitness(s[1..], sub);
      assert s[1..][k..] == s[k + 1..];
      j := k + 1;
    }
  }

  /** A text that lacks one of the characters of `q` does not contain `q`. */
  lemma {:induction false} NotContainsMissing(s: string, q: string, c: char)
    requires c in q && c !in s
    ensures !Contains(s, q)
    decreases |s|
  {
    assert q <= s ==> c in s;
    if |s| > 0 {
      NotContainsMissing(s[1..], q, c);
    }
  }

  /** Every suffix of a text without an occurrence of `q` has none either. */
  lemma {:induction false} NotContainsSuffix(s: string, i: nat, q: string)
    requires i <= |s| && !Contains(s, q)
    ensures !Contains(s[i..], q)
    decreases i
  {
    if i > 0 {
      NotContainsSuffix(s[1..], i - 1, q);
      assert s[1..][i - 1..] == s[i..];
    }
  }

  /** Every prefix of a text without an occurrence of `q` has none either. */
  lemma {:induction false} NotContainsPrefix(s: string, j: nat, q: string)
    requires j <= |s| && !Contains(s, q)
    ensures !Contains(s[..j], q)
    decreases j
  {
    assert s[..j] <= s;
    assert q <= s[..j] ==> q <= s;
    if j > 0 {
      NotContainsPrefix(s[1..], j - 1, q);
      assert s[..j][1..] == s[1..][..j - 1];
    }
  }

  // ---------------------------------------------------------------------------------------
  // small helpers

  /** `s.replace(c, "")` with a one-character string pattern: removes only the first `c`. */
  function RemoveFirstChar(s: string, c: char): (r: string)
    ensures c !in s ==> r == s
    ensures c in s ==> |r| == |s| - 1 && exists a, b :: s == a + [c] + b && c !in a && r == a + b
  {
    var i := IndexOfChar(s, c);
    if i == |s| then s
    else
      assert s == s[..i] + [c] + s[i + 1..];
      s[..i] + s[i + 1..]
  }

  /** Removing the first `c` of a text in which it first occurs after `a`. */
  lemma RemoveFirstCharAfter(a: string, c: char, b: string)
    requires c !in a
    ensures RemoveFirstChar(a + [c] + b, c) == a + b
  {
    IndexOfCharAfter(a, c, b);
    var t := a + [c] + b;
    assert t[..|a|] == a && t[|a| + 1..] == b;
  }

  /** Lower-casing around a character that is not a letter. */
  lemma LowerAround(a: string, c: char, b: string)
    requires !IsLetter(c)
    ensures Lower(a + [c] + b) == Lower(a) + [c] + Lower(b)
  {
    LowerAppend(a + [c], b);
    LowerAppend(a, [c]);
  }

  function DigitChar(d: nat): char
    requires d < 10
  {
    "0123456789"[d]
  }

  /** Decimal representation of a natural number, never empty. */
  function NatToString(n: nat): (r: string)
    ensures |r| > 0
    decreases n
  {
    if n < 10 then [DigitChar(n)] else NatToString(n / 10) + [DigitChar(n % 10)]
  }
}
