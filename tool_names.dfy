/** Tool-name helpers of `lib/utils.ts`: the toolkit slug of a tool name and its display form. */
module ToolNames {
  import opened Strings

  /** The toolkit slug of a tool name such as `GMAIL_SEND_EMAIL`. */
  function ExtractToolkitName(tool: string): (r: string)
    ensures '_' !in r && IsLowerCase(r)
  {
    var parts := Split(tool, '_');
    var raw := if |tool| > 0 && tool[0] == '_' && |parts| >= 3 then parts[0] + parts[1] else parts[0];
    assert '_' !in raw by {
      if |parts| >= 3 {
        assert forall k :: 0 <= k < |parts[0] + parts[1]| ==> (parts[0] + parts[1])[k] in parts[0] || (parts[0] + parts[1])[k] in parts[1];
      }
    }
    LowerKeepsNonLetter(raw, '_');
    Lower(raw)
  }

  /** A name not starting with `_` gives the lowercased text before its first `_` (all of it
      when there is none). */
  lemma ExtractPlain(tool: string)
    requires |tool| == 0 || tool[0] != '_'
    ensures ExtractToolkitName(tool) == Lower(tool[..IndexOfChar(tool, '_')])
  {
    SplitHead(tool, '_');
  }

  /** A name starting with `_` gives the lowercased text between its first and second `_`, and
      the empty slug when it has no second `_` (then it splits into fewer than three pieces). */
  lemma ExtractLeading(tool: string)
    requires |tool| > 0 && tool[0] == '_'
    ensures var t := tool[1..];
            var j := IndexOfChar(t, '_');
            (j < |t| ==> ExtractToolkitName(tool) == Lower(t[..j])) &&
            (j == |t| ==> ExtractToolkitName(tool) == "")
  {
    var t := tool[1..];
    var j := IndexOfChar(t, '_');
    assert IndexOfChar(tool, '_') == 0;
    var parts := Split(tool, '_');
    assert parts == [""] + Split(t, '_');
    SplitHead(t, '_');
    if j < |t| {
      assert Split(t, '_') == [t[..j]] + Split(t[j + 1..], '_');
      assert parts[0] + parts[1] == t[..j];
    } else {
      assert |parts| == 2;
    }
  }

  /** A typical name: everything before the first `_`, lowercased. */
  lemma ExtractExample(tool: string)
    requires tool == "GMAIL" + "_SEND_EMAIL"
    ensures ExtractToolkitName(tool) == "gmail"
  {
    var head := "GMAIL";
    IndexOfCharAfter(head, '_', "SEND_EMAIL");
    assert tool == head + ['_'] + "SEND_EMAIL";
    ExtractPlain(tool);
    assert tool[..5] == head;
  }

  // ---------------------------------------------------------------------------------------
  // formatToolName

  /** `\w` of a JavaScript regular expression. */
  predicate IsWordChar(c: char) { IsLetter(c) || IsDigit(c) || c == '_' }

  predicate IsAlnum(c: char) { IsLetter(c) || IsDigit(c) }

  /** There is a word boundary before position `i` and a word character at it: `\b\w`. */
  predicate StartsWord(s: string, i: nat)
    requires i < |s|
  {
    IsWordChar(s[i]) && (i == 0 || !IsWordChar(s[i - 1]))
  }

  /** `replace(/_/g, " ")`. */
  function SpaceUnderscores(s: string): (r: string)
    ensures |r| == |s| && forall i :: 0 <= i < |s| ==> r[i] == if s[i] == '_' then ' ' else s[i]
  {
    seq(|s|, i requires 0 <= i < |s| => if s[i] == '_' then ' ' else s[i])
  }

  /** `replace(/\b\w/g, l => l.toUpperCase())`: every character that starts a word is uppercased. */
  function CapitalizeWords(s: string): (r: string)
    ensures |r| == |s| && forall i :: 0 <= i < |s| ==> r[i] == if StartsWord(s, i) then UpperChar(s[i]) else s[i]
  {
    seq(|s|, i requires 0 <= i < |s| => if StartsWord(s, i) then UpperChar(s[i]) else s[i])
  }

  /** `formatToolName`: underscores become spaces and each word is capitalised,
      e.g. `GMAIL_SEND_EMAIL` becomes `Gmail Send Email`. */
  function FormatToolName(tool: string): (r: string)
    ensures |r| == |tool|
    ensures forall i :: 0 <= i < |tool| ==> r[i] != '_'
    ensures forall i :: 0 <= i < |tool| ==>
              (tool[i] == '_' ==> r[i] == ' ') && (tool[i] != '_' ==> LowerChar(r[i]) == LowerChar(tool[i]))
    ensures forall i :: 0 <= i < |tool| ==> (IsUpperChar(r[i]) <==> StartsName(tool, i))
  {
    var r := CapitalizeWords(Lower(SpaceUnderscores(tool)));
    assert forall i :: 0 <= i < |tool| ==> IsUpperChar(r[i]) == StartsName(tool, i) by {
      forall i | 0 <= i < |tool| ensures IsUpperChar(r[i]) == StartsName(tool, i) {
        CapitalAt(tool, i);
      }
    }
    r
  }

  /** A letter at the start of `tool` or right after a character that is neither letter nor digit. */
  predicate StartsName(tool: string, i: nat)
    requires i < |tool|
  {
    IsLetter(tool[i]) && (i == 0 || !IsAlnum(tool[i - 1]))
  }

  /** After the two earlier steps a character counts as `\w` exactly when the original one is a
      letter or a digit, so exactly the letters that start a name are uppercased. */
  lemma CapitalAt(tool: string, i: nat)
    requires i < |tool|
    ensures IsUpperChar(CapitalizeWords(Lower(SpaceUnderscores(tool)))[i]) == StartsName(tool, i)
  {
    var t := Lower(SpaceUnderscores(tool));
    assert IsWordChar(t[i]) <==> IsAlnum(tool[i]);
    if i > 0 {
      assert IsWordChar(t[i - 1]) <==> IsAlnum(tool[i - 1]);
    }
  }

  /** Formatting a formatted name changes nothing. */
  lemma FormatIdempotent(tool: string)
    ensures FormatToolName(FormatToolName(tool)) == FormatToolName(tool)
  {
    var f := FormatToolName(tool);
    var g := FormatToolName(f);
    forall i | 0 <= i < |tool| ensures g[i] == f[i] {
      assert IsLetter(f[i]) <==> IsLetter(tool[i]);
      assert IsAlnum(f[i]) <==> IsAlnum(tool[i]);
      if i > 0 {
        assert IsAlnum(f[i - 1]) <==> IsAlnum(tool[i - 1]);
      }
    }
  }
}
