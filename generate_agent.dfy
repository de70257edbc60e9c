/** The `POST` handler of `app/api/generate-agent/route.ts`: check the request and the server keys,
    ask the language model for a use case, for the tools it needs, for a system prompt and for
    a frontend page, and fill the backend template with the results.

    Each model call is a parameter: its text, or `None` when the call throws. The prompts, the
    page the model writes and the fixed text of the backend template are left out; the backend
    is given by the pieces the template substitutes into itself. */
module GenerateAgent {
  import opened Wrappers
  import opened Strings
  import opened Seqs

  // ---------------------------------------------------------------------------------------
  // discovered tools

  /** Every piece trimmed, as `map(tool => tool.trim())`. */
  function TrimAll(parts: seq<string>): (r: seq<string>)
    ensures |r| == |parts| && forall i :: 0 <= i < |parts| ==> r[i] == Trim(parts[i])
  {
    seq(|parts|, i requires 0 <= i < |parts| => Trim(parts[i]))
  }

  predicate NonEmpty(s: string) { |s| > 0 }

  /** The trimmed, non-empty comma-separated pieces of the model's answer. */
  function Segments(text: string): seq<string> {
    Filter(TrimAll(Split(text, ',')), NonEmpty)
  }

  /** The tool names in the model's answer: the segments, each kept at its first occurrence
      (`[...new Set(...)]`). */
  function ParseTools(text: string): seq<string> {
    Dedupe(Segments(text))
  }

  const FallbackTools := ["COMPOSIO"]

  /** The tool list: the parsed answer of a discovery that completes, the fallback otherwise. */
  function DiscoveredTools(discovery: Option<string>): seq<string> {
    match discovery
    case None => FallbackTools
    case Some(text) => ParseTools(text)
  }

  /** A name as parsing leaves it: non-empty, without comma, without space at either end. */
  predicate ToolName(t: string) {
    |t| > 0 && ',' !in t && !IsSpace(t[0]) && !IsSpace(t[|t| - 1])
  }

  /** Every segment is a tool name and a trimmed piece, and every non-empty trimmed piece is a
      segment. */
  lemma SegmentsSpec(text: string)
    ensures forall t :: t in Segments(text) ==> ToolName(t) && t in TrimAll(Split(text, ','))
    ensures forall k :: 0 <= k < |Split(text, ',')| && Trim(Split(text, ',')[k]) != "" ==>
              Trim(Split(text, ',')[k]) in Segments(text)
  {
    var pieces := Split(text, ',');
    var trimmed := TrimAll(pieces);
    forall t | t in Segments(text) ensures ToolName(t) {
      var k :| 0 <= k < |trimmed| && trimmed[k] == t;
      TrimSpec(pieces[k]);
      assert ',' !in pieces[k];
    }
    forall k | 0 <= k < |pieces| && Trim(pieces[k]) != "" ensures Trim(pieces[k]) in Segments(text) {
      assert trimmed[k] == Trim(pieces[k]);
    }
  }

  /** Every parsed tool is a trimmed, non-empty comma-separated piece of the answer, every such
      piece is parsed, and each appears once, in the order of its first occurrence. */
  lemma ParseToolsSpec(text: string)
    ensures forall t :: t in ParseTools(text) <==> t in Segments(text)
    ensures forall t :: t in ParseTools(text) ==> ToolName(t) && t in TrimAll(Split(text, ','))
    ensures forall k :: 0 <= k < |Split(text, ',')| && Trim(Split(text, ',')[k]) != "" ==>
              Trim(Split(text, ',')[k]) in ParseTools(text)
    ensures NoDuplicates(ParseTools(text))
    ensures forall i, j :: 0 <= i < j < |ParseTools(text)| ==>
              FirstIndexOf(Segments(text), ParseTools(text)[i]) < FirstIndexOf(Segments(text), ParseTools(text)[j])
  {
    DedupeSpec(Segments(text));
    SegmentsSpec(text);
  }

  /** An answer with nothing but white space yields no tools. */
  lemma BlankAnswer(text: string)
    requires forall k :: 0 <= k < |text| ==> IsSpace(text[k])
    ensures ParseTools(text) == [] && DiscoveredTools(Some(text)) == []
  {
    SplitWhole(text, ',');
    TrimSpec(text);
    assert TrimAll([text]) == [""];
  }

  /** A discovery that throws leaves exactly the fallback list. */
  lemma FailedDiscovery()
    ensures DiscoveredTools(None) == ["COMPOSIO"]
    ensures forall text :: ParseTools(text) != ["COMPOSIO"] ==> DiscoveredTools(Some(text)) != DiscoveredTools(None)
  {
  }

  /** The pieces that splitting `tools.join(", ")` at commas gives. */
  function JoinedPieces(tools: seq<string>): (r: seq<string>)
    requires |tools| >= 1
    ensures |r| == |tools| && r[0] == tools[0] && forall i :: 1 <= i < |tools| ==> r[i] == " " + tools[i]
  {
    [tools[0]] + Padded(tools[1..], " ")
  }

  /** Trimming the pieces drops the separator's space again from names without space at either end. */
  lemma TrimJoinedPieces(tools: seq<string>)
    requires |tools| >= 1
    requires forall i :: 0 <= i < |tools| ==> |tools[i]| > 0 && !IsSpace(tools[i][0]) && !IsSpace(tools[i][|tools[i]| - 1])
    ensures TrimAll(JoinedPieces(tools)) == tools
  {
    var pieces := JoinedPieces(tools);
    forall i | 0 <= i < |tools| ensures Trim(pieces[i]) == tools[i] {
      if i == 0 {
        TrimPadded("", tools[0]);
        assert "" + tools[0] == tools[0];
      } else {
        TrimPadded(" ", tools[i]);
      }
    }
  }

  /** `join(", ")` of comma-free names splits back into the names, the later ones with the
      space of the separator in front. */
  lemma SplitJoined(tools: seq<string>)
    requires |tools| >= 1 && forall i :: 0 <= i < |tools| ==> ',' !in tools[i]
    ensures Split(Join(tools, ", "), ',') == JoinedPieces(tools)
  {
    JoinPadded(tools, ',', " ");
    assert [','] + " " == ", ";
    var pieces := JoinedPieces(tools);
    forall k | 0 <= k < |pieces| ensures ',' !in pieces[k] {
      if k > 0 {
        assert pieces[k] == " " + tools[k];
      }
    }
    SplitJoin(pieces, ',');
  }

  /** Parsing the list the system prompt names (`discoveredTools.join(', ')`) gives the list back:
      parsing and joining are inverse on lists of distinct tool names. */
  lemma ParseJoined(tools: seq<string>)
    requires forall i :: 0 <= i < |tools| ==> ToolName(tools[i])
    requires NoDuplicates(tools)
    ensures ParseTools(Join(tools, ", ")) == tools
  {
    if |tools| == 0 {
      assert Split("", ',') == [""];
      assert TrimAll([""]) == [""];
    } else {
      SplitJoined(tools);
      TrimJoinedPieces(tools);
      FilterAll(tools, NonEmpty);
      DedupeDistinct(tools);
    }
  }

  /** Parsed lists are lists of distinct tool names, so they survive the round trip. */
  lemma ParseJoinParse(text: string)
    ensures ParseTools(Join(ParseTools(text), ", ")) == ParseTools(text)
  {
    ParseToolsSpec(text);
    ParseJoined(ParseTools(text));
  }

  // ---------------------------------------------------------------------------------------
  // the template

  /** `"${tool}"`. */
  function Quoted(tools: seq<string>): (r: seq<string>)
    ensures |r| == |tools| && forall i :: 0 <= i < |tools| ==> r[i] == "\"" + tools[i] + "\""
  {
    seq(|tools|, i requires 0 <= i < |tools| => "\"" + tools[i] + "\"")
  }

  /** Every name uppercased. */
  function UpperAll(tools: seq<string>): (r: seq<string>)
    ensures |r| == |tools| && forall i :: 0 <= i < |tools| ==> r[i] == Upper(tools[i])
  {
    seq(|tools|, i requires 0 <= i < |tools| => Upper(tools[i]))
  }

  /** The list of quoted names joined by `", "`, as the template writes arrays of names. */
  function QuotedList(tools: seq<string>): string {
    Join(Quoted(tools), ", ")
  }

  /** The `tools:` array of the backend: each name uppercased and quoted. */
  function ToolsLiteral(tools: seq<string>): string {
    QuotedList(UpperAll(tools))
  }

  /** The `toolsUsed` array of the backend: each name quoted, in its own case. */
  function ToolsUsedLiteral(tools: seq<string>): string {
    QuotedList(tools)
  }

  /** Reading an array the template wrote: split at commas, trim, drop the quotes. */
  function ReadQuotedList(s: string): seq<string> {
    var pieces := TrimAll(Split(s, ','));
    seq(|pieces|, i requires 0 <= i < |pieces| => if |pieces[i]| >= 2 then pieces[i][1..|pieces[i]| - 1] else pieces[i])
  }

  lemma QuotedPieces(tools: seq<string>)
    requires forall i :: 0 <= i < |tools| ==> ',' !in tools[i]
    ensures forall i :: 0 <= i < |tools| ==>
              var q := Quoted(tools)[i]; ',' !in q && |q| >= 2 && q[0] == '"' && q[|q| - 1] == '"'
  {
    forall i | 0 <= i < |tools| ensures ',' !in Quoted(tools)[i] {
      var q := Quoted(tools)[i];
      assert forall k :: 0 <= k < |q| ==> q[k] == '"' || q[k] in tools[i];
    }
  }

  /** A non-empty array of names without commas or quotes reads back as those names: one entry per
      tool, so `toolCount` is the length of both arrays. */
  lemma QuotedListReadsBack(tools: seq<string>)
    requires |tools| >= 1 && forall i :: 0 <= i < |tools| ==> ',' !in tools[i] && '"' !in tools[i]
    ensures ReadQuotedList(QuotedList(tools)) == tools
    ensures |Split(QuotedList(tools), ',')| == |tools|
  {
    var q := Quoted(tools);
    QuotedPieces(tools);
    SplitJoined(q);
    TrimJoinedPieces(q);
    var r := ReadQuotedList(QuotedList(tools));
    forall i | 0 <= i < |tools| ensures r[i] == tools[i] {
      assert q[i][1..|q[i]| - 1] == tools[i];
    }
  }

  /** The tools array of the backend reads back as the discovered tools uppercased. */
  lemma ToolsLiteralReadsBack(tools: seq<string>)
    requires |tools| >= 1 && forall i :: 0 <= i < |tools| ==> ',' !in tools[i] && '"' !in tools[i]
    ensures ReadQuotedList(ToolsLiteral(tools)) == UpperAll(tools)
  {
    var up := UpperAll(tools);
    forall i | 0 <= i < |up| ensures ',' !in up[i] && '"' !in up[i] {
      assert forall k :: 0 <= k < |up[i]| ==> up[i][k] == UpperChar(tools[i][k]);
    }
    QuotedListReadsBack(up);
  }

  // ---------------------------------------------------------------------------------------
  // the system prompt inside the template literal

  /** Every `c` preceded by a backslash: `replace(/c/g, '\\c')`. */
  function EscapeEach(s: string, c: char): (r: string)
    ensures |r| >= |s|
  {
    if |s| == 0 then "" else (if s[0] == c then ['\\', c] else [s[0]]) + EscapeEach(s[1..], c)
  }

  /** The escaping as the route writes it: backticks, then dollar signs. */
  function EscapeAsWritten(s: string): string {
    EscapeEach(EscapeEach(s, '`'), '$')
  }

  /** The escaping with backslashes escaped first, so that no backslash of the text can cancel an
      escape or the closing backtick. */
  function EscapeTemplate(s: string): string {
    EscapeEach(EscapeEach(EscapeEach(s, '\\'), '`'), '$')
  }

  /** A JavaScript template literal body `s` between two backticks reaches the closing backtick:
      every backslash escapes the character after it, and no unescaped backtick or `${` occurs. */
  predicate StaysInside(s: string)
    decreases |s|
  {
    if |s| == 0 then true
    else if s[0] == '\\' then |s| >= 2 && StaysInside(s[2..])
    else if s[0] == '`' then false
    else if s[0] == '$' && |s| >= 2 && s[1] == '{' then false
    else StaysInside(s[1..])
  }

  /** The value of a body whose every escape is `\\`, `` \` `` or `\$`: the escaped characters. */
  function Unescape(s: string): string
    decreases |s|
  {
    if |s| == 0 then ""
    else if s[0] == '\\' && |s| >= 2 then [s[1]] + Unescape(s[2..])
    else [s[0]] + Unescape(s[1..])
  }

  /** Every backslash of `s` starts one of the three escapes the escaping writes. */
  predicate PlainEscapes(s: string)
    decreases |s|
  {
    if |s| == 0 then true
    else if s[0] == '\\' then |s| >= 2 && (s[1] == '\\' || s[1] == '`' || s[1] == '$') && PlainEscapes(s[2..])
    else PlainEscapes(s[1..])
  }

  /** The three steps of `EscapeTemplate` at once, one character at a time. */
  function EscapeChars(s: string): (r: string)
    decreases |s|
  {
    if |s| == 0 then ""
    else (if s[0] == '\\' || s[0] == '`' || s[0] == '$' then ['\\', s[0]] else [s[0]]) + EscapeChars(s[1..])
  }

  lemma {:induction false} EscapeEachAppend(a: string, b: string, c: char)
    ensures EscapeEach(a + b, c) == EscapeEach(a, c) + EscapeEach(b, c)
    decreases |a|
  {
    if |a| == 0 {
      assert a + b == b;
    } else {
      assert (a + b)[0] == a[0] && (a + b)[1..] == a[1..] + b;
      EscapeEachAppend(a[1..], b, c);
    }
  }

  lemma {:induction false} EscapeTemplateChars(s: string)
    ensures EscapeTemplate(s) == EscapeChars(s)
    decreases |s|
  {
    if |s| > 0 {
      EscapeTemplateChars(s[1..]);
      var head := if s[0] == '\\' then ['\\', '\\'] else [s[0]];
      assert EscapeEach(s, '\\') == head + EscapeEach(s[1..], '\\');
      var e1 := EscapeEach(s[1..], '\\');
      EscapeEachAppend(head, e1, '`');
      var head2 := EscapeEach(head, '`');
      var e2 := EscapeEach(e1, '`');
      EscapeEachAppend(head2, e2, '$');
      assert EscapeEach(head2, '$') == if s[0] == '\\' || s[0] == '`' || s[0] == '$' then ['\\', s[0]] else [s[0]] by {
        if s[0] == '\\' {
          assert head2 == ['\\', '\\'] by { assert head[1..] == ['\\']; }
          assert EscapeEach(head2, '$') == ['\\'] + EscapeEach(['\\'], '$');
        } else if s[0] == '`' {
          assert head2 == ['\\', '`'];
          assert EscapeEach(head2, '$') == ['\\'] + EscapeEach(['`'], '$');
        }
      }
    }
  }

  lemma {:induction false} EscapeCharsSpec(s: string)
    ensures StaysInside(EscapeChars(s)) && PlainEscapes(EscapeChars(s)) && Unescape(EscapeChars(s)) == s
    decreases |s|
  {
    if |s| > 0 {
      EscapeCharsSpec(s[1..]);
      var rest := EscapeChars(s[1..]);
      var r := EscapeChars(s);
      if s[0] == '\\' || s[0] == '`' || s[0] == '$' {
        assert r == ['\\', s[0]] + rest;
        assert r[2..] == rest;
      } else {
        assert r == [s[0]] + rest;
        assert r[1..] == rest;
      }
      assert [s[0]] + s[1..] == s;
    }
  }

  /** With backslashes escaped first, any text stays inside the template literal, every escape in
      it is one JavaScript resolves to the escaped character, and the literal's value is the text. */
  lemma EscapeTemplateSafe(s: string)
    ensures StaysInside(EscapeTemplate(s)) && PlainEscapes(EscapeTemplate(s)) && Unescape(EscapeTemplate(s)) == s
  {
    EscapeTemplateChars(s);
    EscapeCharsSpec(s);
  }

  /** As written, a backslash before a backtick cancels the added escape: the prompt text `` \` ``
      becomes `` \\` ``, whose backtick closes the template literal early. */
  lemma EscapeAsWrittenBreaks()
    ensures !StaysInside(EscapeAsWritten(['\\', '`']))
    ensures EscapeAsWritten(['\\', '`']) == ['\\', '\\', '`']
  {
    var s: string := ['\\', '`'];
    assert EscapeEach(s, '`') == ['\\', '\\', '`'] by {
      assert s[1..] == ['`'];
      assert EscapeEach(['`'], '`') == ['\\', '`'];
    }
    var t: string := ['\\', '\\', '`'];
    assert EscapeEach(t, '$') == t by {
      assert t[1..] == ['\\', '`'] && t[1..][1..] == ['`'];
    }
    assert t[2..] == ['`'];
  }

  /** Escaping one character lengthens a text by the number of its occurrences and keeps the
      count of every character other than it and the backslash. */
  lemma {:induction false} EscapeEachCounts(s: string, c: char, d: char)
    requires d != c && d != '\\'
    ensures |EscapeEach(s, c)| == |s| + multiset(s)[c]
    ensures multiset(EscapeEach(s, c))[d] == multiset(s)[d]
    decreases |s|
  {
    if |s| > 0 {
      EscapeEachCounts(s[1..], c, d);
      assert s == [s[0]] + s[1..];
      assert multiset(s) == multiset([s[0]]) + multiset(s[1..]);
      var head: string := if s[0] == c then ['\\', c] else [s[0]];
      assert EscapeEach(s, c) == head + EscapeEach(s[1..], c);
      assert multiset(EscapeEach(s, c)) == multiset(head) + multiset(EscapeEach(s[1..], c));
    }
  }

  /** A text without `c` passes the escaping of `c` unchanged. */
  lemma {:induction false} EscapeEachAbsent(s: string, c: char)
    requires c !in s
    ensures EscapeEach(s, c) == s
    decreases |s|
  {
    if |s| > 0 {
      assert s[0] != c;
      EscapeEachAbsent(s[1..], c);
      assert [s[0]] + s[1..] == s;
    }
  }

  /** The escaping as written and the corrected one agree exactly on texts without a backslash. */
  lemma EscapeAgreement(s: string)
    ensures EscapeAsWritten(s) == EscapeTemplate(s) <==> '\\' !in s
  {
    if '\\' !in s {
      EscapeEachAbsent(s, '\\');
    } else {
      var m := multiset(s);
      EscapeEachCounts(s, '\\', '`');
      EscapeEachCounts(s, '\\', '$');
      var e1 := EscapeEach(s, '\\');
      EscapeEachCounts(e1, '`', '$');
      var a1 := EscapeEach(s, '`');
      EscapeEachCounts(s, '`', '$');
      EscapeEachCounts(a1, '$', '`');
      EscapeEachCounts(EscapeEach(e1, '`'), '$', '`');
      assert m['\\'] > 0;
      assert |EscapeTemplate(s)| == |s| + m['\\'] + m['`'] + m['$'];
      assert |EscapeAsWritten(s)| == |s| + m['`'] + m['$'];
    }
  }

  // ---------------------------------------------------------------------------------------
  // the handler

  /** The model's answers: the use case, the tool discovery, the system prompt and the page;
      `None` where the call throws. */
  datatype Answers = Answers(useCase: Option<string>, discovery: Option<string>, systemPrompt: Option<string>, frontend: Option<string>)

  /** What the backend template substitutes into itself. */
  datatype Backend = Backend(agentIdea: string, toolsLiteral: string, systemPromptBody: string, toolsUsedLiteral: string, useCase: string)

  /** The generated agent of a successful reply. */
  datatype Agent = Agent(
    frontend: string,
    backend: Backend,
    discoveredTools: seq<string>,
    useCase: string,
    systemPrompt: string,
    agentIdea: string,
    toolCount: nat)

  /** A JSON reply and its HTTP status. */
  datatype Reply = Reply(status: nat, error: Option<string>, agent: Option<Agent>)

  const NoIdea := "Agent idea is required"
  const NoComposioKey := "Composio API key not configured. Please set COMPOSIO_API_KEY in your environment."
  const NoOpenAiKey := "OpenAI API key not configured"
  const GenerationFailed := "Failed to generate agent"

  function Failure(status: nat, error: string): Reply { Reply(status, Some(error), None) }

  /** The filled template and the reply for the answers. */
  function Build(agentIdea: string, useCase: string, tools: seq<string>, systemPrompt: string, frontend: string): (r: Agent)
    ensures r.toolCount == |r.discoveredTools| == |tools| && r.discoveredTools == tools
    ensures r.backend.toolsLiteral == ToolsLiteral(tools) && r.backend.toolsUsedLiteral == ToolsUsedLiteral(tools)
    ensures StaysInside(r.backend.systemPromptBody) && Unescape(r.backend.systemPromptBody) == r.systemPrompt
    ensures r.backend.systemPromptBody == EscapeAsWritten(systemPrompt) <==> '\\' !in systemPrompt
  {
    EscapeTemplateSafe(systemPrompt);
    EscapeAgreement(systemPrompt);
    Agent(frontend, Backend(agentIdea, ToolsLiteral(tools), EscapeTemplate(systemPrompt), ToolsUsedLiteral(tools), useCase),
          tools, useCase, systemPrompt, agentIdea, |tools|)
  }

  /** `POST`: the idea is required (400), then the Composio and OpenAI keys (500), and an answer
      that throws ends in the outer `catch` (500). */
  function GenerateSpec(agentIdea: Option<string>, composioKey: Option<string>, openAiKey: Option<string>, answers: Answers)
    : (r: Reply)
    ensures r.status == 400 <==> !Truthy(agentIdea)
    ensures r.status != 400 ==> r.status == 200 || r.status == 500
    ensures r.agent.Some? <==> r.status == 200
    ensures r.status == 200 <==>
              Truthy(agentIdea) && Truthy(composioKey) && Truthy(openAiKey) &&
              answers.useCase.Some? && answers.systemPrompt.Some? && answers.frontend.Some?
    ensures r.status == 200 ==>
              r.agent.value.discoveredTools == DiscoveredTools(answers.discovery) &&
              r.agent.value.useCase == Trim(answers.useCase.value)
  {
    if !Truthy(agentIdea) then Failure(400, NoIdea)
    else if !Truthy(composioKey) then Failure(500, NoComposioKey)
    else if !Truthy(openAiKey) then Failure(500, NoOpenAiKey)
    else if answers.useCase.None? then Failure(500, GenerationFailed)
    else
      var useCase := Trim(answers.useCase.value);
      var tools := DiscoveredTools(answers.discovery);
      if answers.systemPrompt.None? || answers.frontend.None? then Failure(500, GenerationFailed)
      else Reply(200, None, Some(Build(agentIdea.value, useCase, tools, answers.systemPrompt.value, answers.frontend.value)))
  }

  /** The request and the keys are checked before any model call: a rejected request gets the
      same reply whatever the model would answer, and the missing Composio key is what it names. */
  lemma ChecksBeforeModel(agentIdea: Option<string>, composioKey: Option<string>, openAiKey: Option<string>, a: Answers, b: Answers)
    requires !Truthy(agentIdea) || !Truthy(composioKey) || !Truthy(openAiKey)
    ensures GenerateSpec(agentIdea, composioKey, openAiKey, a) == GenerateSpec(agentIdea, composioKey, openAiKey, b)
    ensures Truthy(agentIdea) && !Truthy(composioKey) ==>
              GenerateSpec(agentIdea, composioKey, openAiKey, a) == Failure(500, NoComposioKey)
  {
  }

  /** With a discovery that throws, the generated agent is built for the single fallback tool. */
  lemma FallbackAgent(agentIdea: string, composioKey: string, openAiKey: string, a: Answers)
    requires agentIdea != "" && composioKey != "" && openAiKey != ""
    requires a.useCase.Some? && a.systemPrompt.Some? && a.frontend.Some? && a.discovery.None?
    ensures var r := GenerateSpec(Some(agentIdea), Some(composioKey), Some(openAiKey), a);
            r.status == 200 && r.agent.value.discoveredTools == ["COMPOSIO"] && r.agent.value.toolCount == 1 &&
            r.agent.value.backend.toolsLiteral == "\"COMPOSIO\""
  {
    var name := "COMPOSIO";
    assert Upper(name) == name;
    assert UpperAll([name]) == [name];
    var q := Quoted([name]);
    assert |q| == 1 && q[0] == "\"" + name + "\"";
    assert "\"" + name + "\"" == "\"COMPOSIO\"";
    assert Join(q, ", ") == q[0];
  }
}
