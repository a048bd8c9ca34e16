/** The agent document: a front-matter block between `---` lines holding the
    name, the description and, when set, the tools and the model, followed by
    a blank line and the system prompt. Formatting writes it, parsing reads it
    back, and a partial configuration can be checked for completeness. */
module AgentFormat {
  import opened Wrappers
  import opened Strings
  import opened Errors
  import opened Types
  import AgentValidator

  const Delimiter: string := "---"

  /** What ends the front matter: a newline, the delimiter, a blank line. */
  const Closing: string := "\n---\n\n"

  const MissingFrontMatter: string := "Invalid agent file format: missing YAML frontmatter"
  const MissingContent: string := "Invalid agent file format: missing content"
  const MissingFields: string := "Invalid agent file: missing required fields (name, description, systemPrompt)"

  // ---------------------------------------------------------------------
  // Formatting

  /** A front-matter line, `key: value`. */
  function FieldLine(key: string, value: string): string {
    key + ": " + value
  }

  /** The tools line, written only for a non-empty list. */
  function ToolsLine(tools: Option<seq<string>>): seq<string> {
    if tools.Some? && |tools.value| > 0 then [FieldLine("tools", Join(tools.value, ", "))] else []
  }

  /** The model line, written only for a model that is set and not empty. */
  function ModelLine(model: Option<string>): seq<string> {
    if model.Some? && model.value != [] then [FieldLine("model", model.value)] else []
  }

  /** The lines between the two delimiters. */
  function FieldLines(c: AgentConfig): seq<string> {
    [FieldLine("name", c.name), FieldLine("description", c.description)] + ToolsLine(c.tools) + ModelLine(c.model)
  }

  /** The document written for a configuration. Personality, scope,
      expertise and metadata are not written. */
  function Document(c: AgentConfig): string {
    Join([Delimiter] + FieldLines(c) + [Delimiter], "\n") + "\n\n" + c.systemPrompt + "\n"
  }

  /** `formatAgentMarkdown`: the front-matter lines are pushed one by one and
      joined with newlines. */
  method FormatAgentMarkdown(config: AgentConfig) returns (text: string)
    ensures text == Document(config)
  {
    var frontmatter := [Delimiter, FieldLine("name", config.name), FieldLine("description", config.description)];
    if config.tools.Some? && |config.tools.value| > 0 {
      frontmatter := frontmatter + [FieldLine("tools", Join(config.tools.value, ", "))];
    }
    assert frontmatter == [Delimiter] + FieldLines(config)[..|frontmatter| - 1];
    if config.model.Some? && config.model.value != [] {
      frontmatter := frontmatter + [FieldLine("model", config.model.value)];
    }
    assert frontmatter == [Delimiter] + FieldLines(config);
    frontmatter := frontmatter + [Delimiter];
    text := Join(frontmatter, "\n") + "\n\n" + config.systemPrompt + "\n";
  }

  // ---------------------------------------------------------------------
  // Parsing

  /** The fields read from the front matter so far. */
  datatype Fields = Fields(name: Option<string>, description: Option<string>,
                           tools: Option<seq<string>>, model: Option<string>)

  const NoFields: Fields := Fields(None, None, None, None)

  /** Every field read so far is a trimmed value. */
  predicate FieldsTrimmed(f: Fields) {
    (f.name.Some? ==> IsTrimmed(f.name.value)) &&
    (f.description.Some? ==> IsTrimmed(f.description.value)) &&
    (f.model.Some? ==> IsTrimmed(f.model.value)) &&
    (f.tools.Some? ==> forall k :: 0 <= k < |f.tools.value| ==> IsTrimmed(f.tools.value[k]))
  }

  /** A recognised key sets its field; `tools` is split on commas and each
      element trimmed; any other key is ignored. */
  function Assign(f: Fields, key: string, value: string): (r: Fields)
    ensures FieldsTrimmed(f) && IsTrimmed(value) ==> FieldsTrimmed(r)
  {
    if key == "name" then f.(name := Some(value))
    else if key == "description" then f.(description := Some(value))
    else if key == "tools" then f.(tools := Some(TrimEach(Split(value, ','))))
    else if key == "model" then f.(model := Some(value))
    else f
  }

  /** One front-matter line: the key is what precedes the first colon, the
      value everything after it, trimmed. A line without a colon or with
      nothing before it is skipped. */
  function ApplyLine(f: Fields, line: string): (r: Fields)
    ensures FieldsTrimmed(f) ==> FieldsTrimmed(r)
  {
    var parts := Split(line, ':');
    if parts[0] == [] || |parts| == 1 then f
    else Assign(f, Trim(parts[0]), Trim(Join(parts[1..], ":")))
  }

  /** The lines applied in order, a later line overriding an earlier one. */
  function ReadLines(f: Fields, lines: seq<string>): (r: Fields)
    ensures FieldsTrimmed(f) ==> FieldsTrimmed(r)
    decreases |lines|
  {
    if lines == [] then f else ReadLines(ApplyLine(f, lines[0]), lines[1..])
  }

  /** The match of `^---\n([\s\S]*?)\n---\n\n([\s\S]*)$`: the text after the
      opening delimiter up to the first closing sequence, and everything
      after that. */
  function Sections(content: string): (r: Option<(string, string)>)
    ensures r.Some? <==> StartsWith(content, "---\n") && Contains(content[4..], Closing)
    ensures r.Some? ==> content == "---\n" + r.value.0 + Closing + r.value.1
    ensures r.Some? ==> forall k :: 0 <= k < |r.value.0| ==> !OccursAt(content[4..], Closing, k)
  {
    if !StartsWith(content, "---\n") then None
    else
      var rest := content[4..];
      match FindFrom(rest, Closing, 0)
      case None => None
      case Some(i) =>
        assert rest == rest[..i] + Closing + rest[i + |Closing|..];
        assert content == content[..4] + rest;
        Some((rest[..i], rest[i + |Closing|..]))
  }

  /** The final check: name, description and prompt must not be empty. */
  function Finish(f: Fields, prompt: string): (r: Result<ParsedAgent, AgentQError>)
    ensures r.Ok? <==> AgentValidator.Given(f.name) && AgentValidator.Given(f.description) && prompt != []
    ensures r.Ok? ==> r.value == ParsedAgent(f.name.value, f.description.value, prompt, f.tools, f.model)
    ensures r.Err? ==> r.error == PlainError(MissingFields)
  {
    if !AgentValidator.Given(f.name) || !AgentValidator.Given(f.description) || prompt == [] then
      Err(PlainError(MissingFields))
    else
      Ok(ParsedAgent(f.name.value, f.description.value, prompt, f.tools, f.model))
  }

  /** `parseAgentMarkdown`: the configuration a document describes, without
      personality and scope. */
  function Parse(content: string): (r: Result<ParsedAgent, AgentQError>)
    ensures Sections(content).None? ==> r == Err(PlainError(MissingFrontMatter))
    ensures r.Ok? ==> r.value.name != [] && IsTrimmed(r.value.name)
    ensures r.Ok? ==> r.value.description != [] && IsTrimmed(r.value.description)
    ensures r.Ok? ==> r.value.systemPrompt != [] && IsTrimmed(r.value.systemPrompt)
    ensures r.Err? ==> r.error.kind == Plain
  {
    match Sections(content)
    case None => Err(PlainError(MissingFrontMatter))
    case Some((frontmatter, body)) =>
      if frontmatter == [] || body == [] then Err(PlainError(MissingContent))
      else Finish(ReadLines(NoFields, Split(frontmatter, '\n')), Trim(body))
  }

  /** The parser's line loop, assigning the fields of the configuration as
      the lines come. */
  method ReadFrontMatter(lines: seq<string>) returns (f: Fields)
    ensures f == ReadLines(NoFields, lines)
  {
    var name, description, tools, model := None, None, None, None;
    var i := 0;
    while i < |lines|
      invariant 0 <= i <= |lines|
      invariant ReadLines(Fields(name, description, tools, model), lines[i..]) == ReadLines(NoFields, lines)
    {
      var line := lines[i];
      assert lines[i..] == [line] + lines[i + 1..];
      var parts := Split(line, ':');
      if parts[0] != [] && |parts| > 1 {
        var value := Trim(Join(parts[1..], ":"));
        var key := Trim(parts[0]);
        if key == "name" {
          name := Some(value);
        } else if key == "description" {
          description := Some(value);
        } else if key == "tools" {
          tools := Some(TrimEach(Split(value, ',')));
        } else if key == "model" {
          model := Some(value);
        }
      }
      i := i + 1;
    }
    f := Fields(name, description, tools, model);
  }

  method ParseAgentMarkdown(content: string) returns (r: Result<ParsedAgent, AgentQError>)
    ensures r == Parse(content)
  {
    var sections := Sections(content);
    if sections.None? {
      return Err(PlainError(MissingFrontMatter));
    }
    var (frontmatter, body) := sections.value;
    if frontmatter == [] || body == [] {
      return Err(PlainError(MissingContent));
    }
    var prompt := Trim(body);
    var f := ReadFrontMatter(Split(frontmatter, '\n'));
    if !AgentValidator.Given(f.name) || !AgentValidator.Given(f.description) || prompt == [] {
      return Err(PlainError(MissingFields));
    }
    r := Ok(ParsedAgent(f.name.value, f.description.value, prompt, f.tools, f.model));
    assert r == Finish(f, prompt);
  }

  // ---------------------------------------------------------------------
  // How one line is read

  /** A line without a colon leaves the fields as they were. */
  lemma LineWithoutColon(f: Fields, line: string)
    requires ':' !in line
    ensures ApplyLine(f, line) == f
  {
    assert Split(line, ':') == [line];
  }

  /** A line is split at its first colon only: the value keeps any later
      colon and is trimmed, and the key is trimmed. */
  lemma {:induction false} LineAssigns(f: Fields, key: string, value: string)
    requires key != [] && ':' !in key
    ensures ApplyLine(f, key + ":" + value) == Assign(f, Trim(key), Trim(value))
  {
    var line := key + ":" + value;
    IndexOfAfter(key, ':', value);
    assert line[..|key|] == key && line[|key| + 1..] == value;
    var parts := Split(line, ':');
    assert parts == [key] + Split(value, ':');
    assert parts[1..] == Split(value, ':');
    JoinSplit(value, ':');
  }

  /** A line the formatter writes, `key: value`, reads back as that value. */
  lemma FieldLineRead(f: Fields, key: string, value: string)
    requires key != [] && ':' !in key && IsTrimmed(key) && IsTrimmed(value)
    ensures ApplyLine(f, FieldLine(key, value)) == Assign(f, key, value)
  {
    assert FieldLine(key, value) == key + ":" + (" " + value);
    LineAssigns(f, key, " " + value);
    TrimOfTrimmed(key);
    SpacedTrim(value);
  }

  /** A space in front of a trimmed text is trimmed away. */
  lemma SpacedTrim(t: string)
    requires IsTrimmed(t)
    ensures Trim(" " + t) == t
  {
    assert AllSpace(" ");
    TrimPadded(" ", t, "");
    assert " " + t + "" == " " + t;
    TrimOfTrimmed(t);
  }

  lemma {:induction false} ReadLinesAppend(f: Fields, xs: seq<string>, ys: seq<string>)
    ensures ReadLines(f, xs + ys) == ReadLines(ReadLines(f, xs), ys)
    decreases |xs|
  {
    if xs != [] {
      assert (xs + ys)[0] == xs[0] && (xs + ys)[1..] == xs[1..] + ys;
      ReadLinesAppend(ApplyLine(f, xs[0]), xs[1..], ys);
    } else {
      assert xs + ys == ys;
    }
  }

  lemma ReadOneLine(f: Fields, line: string)
    ensures ReadLines(f, [line]) == ApplyLine(f, line)
  {
    assert [line][1..] == [];
  }

  // ---------------------------------------------------------------------
  // Round trip

  /** A field value the document can carry on its line and give back: not
      empty, no surrounding whitespace, no line break. */
  predicate OnOneLine(s: string) {
    s != [] && IsTrimmed(s) && '\n' !in s
  }

  /** What a configuration needs for its document to read back: a one-line
      name and description, tool names that are one-line and comma-free, and
      a trimmed one-line model. */
  predicate Writable(c: AgentConfig) {
    OnOneLine(c.name) && OnOneLine(c.description) &&
    (c.tools.Some? ==> forall k :: 0 <= k < |c.tools.value| ==> OnOneLine(c.tools.value[k]) && ',' !in c.tools.value[k]) &&
    (c.model.Some? ==> IsTrimmed(c.model.value) && '\n' !in c.model.value)
  }

  /** What parsing the document of `c` yields: an empty tools list and an
      empty model are not written, so they come back absent, and the prompt
      comes back trimmed. */
  function Written(c: AgentConfig): ParsedAgent {
    ParsedAgent(c.name, c.description, Trim(c.systemPrompt),
                if c.tools.Some? && c.tools.value != [] then c.tools else None,
                if c.model.Some? && c.model.value != [] then c.model else None)
  }

  /** The document laid out: opening delimiter, the field lines, the closing
      sequence, the prompt and a final newline. */
  lemma DocumentShape(c: AgentConfig)
    ensures Document(c) == "---\n" + Join(FieldLines(c), "\n") + Closing + c.systemPrompt + "\n"
  {
    var lines := FieldLines(c);
    JoinAppend([Delimiter], lines, "\n");
    JoinAppend([Delimiter] + lines, [Delimiter], "\n");
  }

  /** Every newline of `s` is followed, within `s`, by a character other than `-`. */
  predicate NewlinesHeaded(s: string) {
    forall k :: 0 <= k < |s| && s[k] == '\n' ==> k + 1 < |s| && s[k + 1] != '-'
  }

  /** Lines without line breaks that do not start with `-`, joined with
      newlines, have every newline followed by a line's first character. */
  lemma {:induction false} JoinHeaded(lines: seq<string>)
    requires lines != []
    requires forall k :: 0 <= k < |lines| ==> lines[k] != [] && lines[k][0] != '-' && '\n' !in lines[k]
    ensures NewlinesHeaded(Join(lines, "\n"))
    decreases |lines|
  {
    if |lines| > 1 {
      var rest := Join(lines[1..], "\n");
      JoinHeaded(lines[1..]);
      JoinFirst(lines[1..], "\n");
      var s := lines[0] + "\n" + rest;
      forall k | 0 <= k < |s| && s[k] == '\n'
        ensures k + 1 < |s| && s[k + 1] != '-'
      {
        if k > |lines[0]| {
          assert s[k] == rest[k - |lines[0]| - 1];
        }
      }
    }
  }

  /** The lines the formatter writes satisfy `JoinHeaded`. */
  lemma FieldLinesHeaded(c: AgentConfig)
    requires Writable(c)
    ensures forall k :: 0 <= k < |FieldLines(c)| ==>
              FieldLines(c)[k] != [] && FieldLines(c)[k][0] != '-' && '\n' !in FieldLines(c)[k]
  {
    if c.tools.Some? && |c.tools.value| > 0 {
      JoinExcludes(c.tools.value, ", ", '\n');
    }
  }

  /** The first occurrence, if there is one, is what `FindFrom` finds. */
  lemma FindsFirst(s: string, p: string, i: nat)
    requires OccursAt(s, p, i)
    requires forall k :: 0 <= k < i ==> !OccursAt(s, p, k)
    ensures FindFrom(s, p, 0) == Some(i)
  {
  }

  /** After the opening delimiter, front matter whose every newline is
      followed by a character other than `-` runs to the closing sequence
      that follows it. */
  lemma FirstClosing(fm: string, body: string)
    requires NewlinesHeaded(fm)
    ensures Sections("---\n" + fm + Closing + body) == Some((fm, body))
  {
    var content := "---\n" + fm + Closing + body;
    var rest := fm + Closing + body;
    assert content == "---\n" + rest;
    assert content[4..] == rest;
    assert OccursAt(rest, Closing, |fm|) by {
      assert rest[|fm|..|fm| + |Closing|] == Closing;
    }
    forall k | 0 <= k < |fm|
      ensures !OccursAt(rest, Closing, k)
    {
      assert rest[k] == fm[k];
      if fm[k] == '\n' {
        assert rest[k + 1] == fm[k + 1];
      }
    }
    FindsFirst(rest, Closing, |fm|);
    assert rest[..|fm|] == fm;
    assert rest[|fm| + |Closing|..] == body;
  }

  /** The closing sequence is found right after the field lines. */
  lemma SectionsOfDocument(c: AgentConfig)
    requires Writable(c)
    ensures Sections(Document(c)) == Some((Join(FieldLines(c), "\n"), c.systemPrompt + "\n"))
  {
    DocumentShape(c);
    FieldLinesHeaded(c);
    JoinHeaded(FieldLines(c));
    FirstClosing(Join(FieldLines(c), "\n"), c.systemPrompt + "\n");
    assert Document(c) == "---\n" + Join(FieldLines(c), "\n") + Closing + (c.systemPrompt + "\n");
  }

  /** The tools line gives back the tools. */
  lemma ToolsRead(tools: seq<string>)
    requires tools != []
    requires forall k :: 0 <= k < |tools| ==> OnOneLine(tools[k]) && ',' !in tools[k]
    ensures IsTrimmed(Join(tools, ", "))
    ensures TrimEach(Split(Join(tools, ", "), ',')) == tools
  {
    ToolsJoinTrimmed(tools);
    SplitSpacedJoin(tools);
    SpacedPartsTrim(tools);
  }

  lemma ToolsJoinTrimmed(tools: seq<string>)
    requires tools != []
    requires tools[0] != [] && IsTrimmed(tools[0])
    requires tools[|tools| - 1] != [] && IsTrimmed(tools[|tools| - 1])
    ensures IsTrimmed(Join(tools, ", "))
  {
    JoinFirst(tools, ", ");
    JoinLast(tools, ", ");
  }

  lemma SpacedPartsTrim(tools: seq<string>)
    requires tools != []
    requires forall k :: 0 <= k < |tools| ==> IsTrimmed(tools[k])
    ensures TrimEach([tools[0]] + Spaced(tools[1..])) == tools
  {
    var parts := [tools[0]] + Spaced(tools[1..]);
    forall k | 0 <= k < |tools|
      ensures Trim(parts[k]) == tools[k]
    {
      if k > 0 {
        assert parts[k] == " " + tools[k];
        SpacedTrim(tools[k]);
      } else {
        TrimOfTrimmed(tools[k]);
      }
    }
  }

  /** The `name` and `description` lines read back as their text. */
  lemma TextLineRead(f: Fields, key: string, value: string)
    requires key == "name" || key == "description"
    requires IsTrimmed(value)
    ensures ApplyLine(f, FieldLine(key, value)) ==
            if key == "name" then f.(name := Some(value)) else f.(description := Some(value))
  {
    assert key[0] == 'n' || key[0] == 'd';
    FieldLineRead(f, key, value);
  }

  lemma ToolsLineRead(f: Fields, tools: Option<seq<string>>)
    requires tools.Some? ==> forall k :: 0 <= k < |tools.value| ==> OnOneLine(tools.value[k]) && ',' !in tools.value[k]
    ensures ReadLines(f, ToolsLine(tools)) == if tools.Some? && tools.value != [] then f.(tools := tools) else f
  {
    if tools.Some? && tools.value != [] {
      ToolsRead(tools.value);
      assert "tools"[0] == 't';
      FieldLineRead(f, "tools", Join(tools.value, ", "));
      ReadOneLine(f, FieldLine("tools", Join(tools.value, ", ")));
    }
  }

  lemma ModelLineRead(f: Fields, model: Option<string>)
    requires model.Some? ==> IsTrimmed(model.value)
    ensures ReadLines(f, ModelLine(model)) == if model.Some? && model.value != [] then f.(model := model) else f
  {
    if model.Some? && model.value != [] {
      assert "model"[0] == 'm';
      FieldLineRead(f, "model", model.value);
      ReadOneLine(f, FieldLine("model", model.value));
    }
  }

  /** The field lines read back as the written fields. */
  lemma FieldLinesRead(c: AgentConfig)
    requires Writable(c)
    ensures ReadLines(NoFields, FieldLines(c)) ==
            Fields(Some(c.name), Some(c.description), Written(c).tools, Written(c).model)
  {
    var nl, dl := FieldLine("name", c.name), FieldLine("description", c.description);
    var tl, ml := ToolsLine(c.tools), ModelLine(c.model);
    assert FieldLines(c) == [nl, dl] + tl + ml;
    assert [nl, dl] == [nl] + [dl];
    ReadLinesAppend(NoFields, [nl, dl] + tl, ml);
    ReadLinesAppend(NoFields, [nl, dl], tl);
    ReadLinesAppend(NoFields, [nl], [dl]);
    var f1 := NoFields.(name := Some(c.name));
    TextLineRead(NoFields, "name", c.name);
    ReadOneLine(NoFields, nl);
    var f2 := f1.(description := Some(c.description));
    TextLineRead(f1, "description", c.description);
    ReadOneLine(f1, dl);
    ToolsLineRead(f2, c.tools);
    ModelLineRead(ReadLines(f2, tl), c.model);
  }

  /** Parsing gives back what was formatted: the name, the description, the
      tools and the model as written, and the trimmed prompt; a blank prompt
      makes the document unreadable. */
  lemma RoundTrip(c: AgentConfig)
    requires Writable(c)
    ensures Parse(Document(c)) == if AllSpace(c.systemPrompt) then Err(PlainError(MissingFields)) else Ok(Written(c))
  {
    var lines := FieldLines(c);
    var fm := Join(lines, "\n");
    SectionsOfDocument(c);
    assert fm != [] by { JoinFirst(lines, "\n"); }
    FieldLinesHeaded(c);
    SplitJoin(lines, '\n');
    FieldLinesRead(c);
    PromptRead(c.systemPrompt);
    ParseOfSections(Document(c), fm, c.systemPrompt + "\n");
  }

  /** The final newline the formatter adds is trimmed away, and a blank
      prompt trims to nothing. */
  lemma PromptRead(p: string)
    ensures Trim(p + "\n") == Trim(p)
    ensures Trim(p) == [] <==> AllSpace(p)
  {
    var e: string := [];
    assert AllSpace(e) && AllSpace("\n");
    TrimPadded(e, p, "\n");
    assert e + p + "\n" == p + "\n";
    TrimEmptyIffAllSpace(p);
  }

  /** Parsing once the two sections are found. */
  lemma ParseOfSections(content: string, fm: string, body: string)
    requires Sections(content) == Some((fm, body))
    ensures Parse(content) == if fm == [] || body == [] then Err(PlainError(MissingContent))
                              else Finish(ReadLines(NoFields, Split(fm, '\n')), Trim(body))
  {
  }

  /** Text without the opening delimiter is refused. */
  lemma ParseRefusesPlainText()
    ensures Parse("No frontmatter here") == Err(PlainError(MissingFrontMatter))
  {
    assert !StartsWith("No frontmatter here", "---\n") by {
      assert "No frontmatter here"[0] != '-';
    }
  }

  /** Front matter with a name but no description is refused, whatever the
      name; with no text after it the document has no content at all. */
  lemma ParseRefusesMissingDescription(name: string, prompt: string)
    requires IsTrimmed(name) && '\n' !in name
    ensures Parse("---\n" + FieldLine("name", name) + Closing + prompt) ==
            Err(PlainError(if prompt == [] then MissingContent else MissingFields))
  {
    var line := FieldLine("name", name);
    assert '\n' !in line;
    FirstClosing(line, prompt);
    assert Split(line, '\n') == [line];
    ReadOneLine(NoFields, line);
    TextLineRead(NoFields, "name", name);
    ParseOfSections("---\n" + line + Closing + prompt, line, prompt);
  }

  // ---------------------------------------------------------------------
  // validateAgentConfig

  /** `validateAgentConfig`: the four text fields are present and not empty,
      the scope names a scope, and a model, if any, is a known one. A tools
      value is always a list here, so its check always passes. */
  predicate ValidateAgentConfig(c: PartialConfig) {
    AgentValidator.Given(c.name) && AgentValidator.Given(c.description) &&
    AgentValidator.Given(c.personality) &&
    c.scope.Some? && ScopeOf(c.scope.value).Some? &&
    AgentValidator.Given(c.systemPrompt) &&
    (c.model.None? || c.model.value in Models)
  }

  /** A configuration the full validator accepts passes the quick check. */
  lemma ValidatedConfigsPass(c: PartialConfig)
    requires AgentValidator.Acceptable(c)
    ensures ValidateAgentConfig(c)
  {
  }

  /** A complete configuration passes exactly when its texts are not empty
      and its model, if any, is known. */
  lemma CompleteConfigPasses(a: AgentConfig)
    ensures ValidateAgentConfig(ToPartial(a)) <==>
            a.name != [] && a.description != [] && a.personality != [] && a.systemPrompt != [] &&
            (a.model.None? || a.model.value in Models)
  {
  }

  /** The quick check is looser than the validator: it does not look at the
      name's characters. */
  lemma QuickCheckLooserThanValidator()
    ensures var c := PartialConfig(Some("Test Agent"), Some("Test"), Some("Helpful"), Some("Prompt"),
                                   Some("project"), None, None, None, None);
            ValidateAgentConfig(c) && !AgentValidator.Acceptable(c)
  {
    assert "Test Agent"[0] == 'T';
  }

  lemma ValidateAgentConfigExamples()
    ensures ValidateAgentConfig(PartialConfig(Some("test"), Some("Test"), Some("Helpful"), Some("Prompt"),
                                              Some("project"), None, None, None, None))
    ensures ValidateAgentConfig(PartialConfig(Some("test"), Some("Test"), Some("Helpful"), Some("Prompt"),
                                              Some("project"), Some(["security"]), Some(["Read"]), Some("opus"), None))
    ensures !ValidateAgentConfig(PartialConfig(None, Some("Test"), Some("Helpful"), Some("Prompt"),
                                               Some("project"), None, None, None, None))
    ensures !ValidateAgentConfig(PartialConfig(Some("test"), Some("Test"), Some("Helpful"), Some("Prompt"),
                                               Some("invalid"), None, None, None, None))
  {
  }
}
