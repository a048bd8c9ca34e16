/** Validation of a partial agent configuration. Each field is checked on
    its own and contributes at most one error; the report lists the errors in
    field order, then the advisory warnings, and is valid exactly when there
    are no errors. */
module AgentValidator {
  import opened Wrappers
  import opened Strings
  import opened Errors
  import opened Types
  import opened PathValidator
  import opened ContentSanitizer
  import opened Injection

  /** JavaScript truthiness of an optional string: present and not empty. */
  predicate Given(s: Option<string>) {
    s.Some? && s.value != []
  }

  function Required(field: string, message: string): Issue {
    Issue(field, message, "REQUIRED")
  }

  /** A thrown error reported against a field: its message, code `INVALID`. */
  function Invalid(field: string, e: AgentQError): Issue {
    Issue(field, e.message, "INVALID")
  }

  const ScopeMessage: string := "Scope must be either \"project\" or \"user\""
  const ModelMessage: string := "Model must be one of: sonnet, opus, haiku"

  const ShortPromptWarning: Issue :=
    Issue("systemPrompt", "System prompt is very short, consider adding more details", "TOO_SHORT")
  const EmptyToolsWarning: Issue :=
    Issue("tools", "Empty tools array will be treated as undefined (agent gets all tools)", "EMPTY_ARRAY")

  /** A system prompt shorter than this draws a warning. */
  const ShortPromptLength: nat := 50

  // ---------------------------------------------------------------------
  // One check per field

  /** The name check: missing, or refused by the name validator. */
  function NameIssue(name: Option<string>): (r: Option<Issue>)
    ensures r.Some? ==> r.value.field == "name" && (r.value.code == "REQUIRED" <==> !Given(name))
  {
    if !Given(name) then Some(Required("name", "Name is required"))
    else
      match ValidateAgentName(name.value)
      case Ok(_) => None
      case Err(e) => Some(Invalid("name", e))
  }

  /** The description check: missing, or refused by the sanitiser. */
  function DescriptionIssue(description: Option<string>): (r: Option<Issue>)
    ensures r.Some? ==> r.value.field == "description" && (r.value.code == "REQUIRED" <==> !Given(description))
  {
    if !Given(description) then Some(Required("description", "Description is required"))
    else
      match SanitizeDescription(description.value)
      case Ok(_) => None
      case Err(e) => Some(Invalid("description", e))
  }

  /** The personality check: missing, or refused by the sanitiser. */
  function PersonalityIssue(personality: Option<string>): (r: Option<Issue>)
    ensures r.Some? ==> r.value.field == "personality" && (r.value.code == "REQUIRED" <==> !Given(personality))
  {
    if !Given(personality) then Some(Required("personality", "Personality is required"))
    else
      match SanitizePersonality(personality.value)
      case Ok(_) => None
      case Err(e) => Some(Invalid("personality", e))
  }

  /** The system-prompt check: missing, refused by the sanitiser, or
      carrying an injection pattern. The injection check reads the prompt as
      given, not its sanitised form. */
  function SystemPromptIssue(prompt: Option<string>): (r: Option<Issue>)
    ensures r.None? ==> prompt.Some? && SanitizeSystemPrompt(prompt.value).Ok?
    ensures r.Some? ==> r.value.field == "systemPrompt" && (r.value.code == "REQUIRED" <==> !Given(prompt))
  {
    if !Given(prompt) then Some(Required("systemPrompt", "System prompt is required"))
    else
      match SanitizeSystemPrompt(prompt.value)
      case Err(e) => Some(Invalid("systemPrompt", e))
      case Ok(_) =>
        match ValidateContent(prompt.value)
        case Err(e) => Some(Invalid("systemPrompt", e))
        case Ok(_) => None
  }

  /** The scope check: missing, or not one of the two scope names. */
  function ScopeIssue(scope: Option<string>): (r: Option<Issue>)
    ensures r.None? <==> scope.Some? && ScopeOf(scope.value).Some?
    ensures r.Some? ==> r.value.field == "scope" && (r.value.code == "REQUIRED" <==> !Given(scope))
  {
    if !Given(scope) then Some(Required("scope", "Scope is required"))
    else if ScopeOf(scope.value).None? then Some(Issue("scope", ScopeMessage, "INVALID"))
    else None
  }

  /** The model check: a given model must be one of the three names. */
  function ModelIssue(model: Option<string>): (r: Option<Issue>)
    ensures r.None? <==> model.None? || model.value in Models
    ensures r.Some? ==> r.value == Issue("model", ModelMessage, "INVALID")
  {
    if model.Some? && model.value !in Models then Some(Issue("model", ModelMessage, "INVALID"))
    else None
  }

  /** The tools check: a given list must not consist of invalid names only. */
  function ToolsIssue(tools: Option<seq<string>>): (r: Option<Issue>)
    ensures r.Some? ==> r.value == Issue("tools", "No valid tools provided", "INVALID")
  {
    if tools.None? then None
    else
      match SanitizeTools(tools)
      case Ok(_) => None
      case Err(e) => Some(Invalid("tools", e))
  }

  // ---------------------------------------------------------------------
  // What each check accepts

  lemma NameAccepted(name: Option<string>)
    ensures NameIssue(name).None? <==> name.Some? && IsSafeName(name.value)
  {
    if name.Some? {
      ValidateAgentNameAcceptsSafeNames(name.value);
    }
  }

  lemma DescriptionAccepted(description: Option<string>)
    ensures DescriptionIssue(description).None? <==>
            description.Some? && !AllSpace(description.value) && |Trim(description.value)| <= MaxDescriptionLength
  {
    if description.Some? {
      TrimEmptyIffAllSpace(description.value);
    }
  }

  lemma PersonalityAccepted(personality: Option<string>)
    ensures PersonalityIssue(personality).None? <==>
            personality.Some? && !AllSpace(personality.value) && |Trim(personality.value)| <= MaxPersonalityLength
  {
    if personality.Some? {
      TrimEmptyIffAllSpace(personality.value);
    }
  }

  /** The prompt is accepted when it sanitises and, as given, matches no
      injection pattern. */
  lemma SystemPromptAccepted(prompt: Option<string>)
    ensures SystemPromptIssue(prompt).None? <==>
            prompt.Some? && !AllSpace(prompt.value) && |Trim(prompt.value)| <= MaxSystemPromptLength &&
            !DetectInjectionPatterns(prompt.value)
  {
    if prompt.Some? {
      TrimEmptyIffAllSpace(prompt.value);
    }
  }

  lemma ToolsAccepted(tools: Option<seq<string>>)
    ensures ToolsIssue(tools).None? <==>
            tools.None? || tools.value == [] || exists k :: 0 <= k < |tools.value| && ValidTool(tools.value[k])
  {
    if tools.Some? {
      SanitizeToolsKeepsValid(tools.value);
    }
  }

  // The expertise check can only fail on a value that is not an array, which
  // the types here exclude, so it never adds an error.

  function AsSeq(o: Option<Issue>): (r: seq<Issue>)
    ensures |r| <= 1
  {
    if o.Some? then [o.value] else []
  }

  /** The issues among the outcomes of the seven field checks, in order. */
  function Collect(n: Option<Issue>, d: Option<Issue>, p: Option<Issue>, s: Option<Issue>,
                   sc: Option<Issue>, m: Option<Issue>, t: Option<Issue>): seq<Issue> {
    AsSeq(n) + AsSeq(d) + AsSeq(p) + AsSeq(s) + AsSeq(sc) + AsSeq(m) + AsSeq(t)
  }

  /** The errors `validate` reports. */
  function ExpectedErrors(c: PartialConfig): seq<Issue> {
    Collect(NameIssue(c.name), DescriptionIssue(c.description), PersonalityIssue(c.personality),
            SystemPromptIssue(c.systemPrompt), ScopeIssue(c.scope), ModelIssue(c.model), ToolsIssue(c.tools))
  }

  /** The warnings `validate` reports: a short prompt (by its raw length),
      then an empty tools list. */
  function ExpectedWarnings(c: PartialConfig): seq<Issue> {
    (if Given(c.systemPrompt) && |c.systemPrompt.value| < ShortPromptLength then [ShortPromptWarning] else []) +
    (if c.tools == Some([]) then [EmptyToolsWarning] else [])
  }

  /** The configurations `validate` accepts, stated field by field without
      the checks: a safe name; a description, personality and prompt that
      are not blank and whose trimmed length is within bounds; a prompt free
      of injection patterns; a scope name; a known model if any; and tools,
      if any, that are empty or hold a valid name. */
  predicate Acceptable(c: PartialConfig) {
    c.name.Some? && IsSafeName(c.name.value) &&
    c.description.Some? && !AllSpace(c.description.value) &&
    |Trim(c.description.value)| <= MaxDescriptionLength &&
    c.personality.Some? && !AllSpace(c.personality.value) &&
    |Trim(c.personality.value)| <= MaxPersonalityLength &&
    c.systemPrompt.Some? && !AllSpace(c.systemPrompt.value) &&
    |Trim(c.systemPrompt.value)| <= MaxSystemPromptLength &&
    !DetectInjectionPatterns(c.systemPrompt.value) &&
    c.scope.Some? && ScopeOf(c.scope.value).Some? &&
    (c.model.None? || c.model.value in Models) &&
    (c.tools.None? || c.tools.value == [] ||
     exists k :: 0 <= k < |c.tools.value| && ValidTool(c.tools.value[k]))
  }

  // ---------------------------------------------------------------------
  // validate

  /** The name block: a missing name, or the name validator's error. */
  method PushNameIssue(errors: seq<Issue>, name: Option<string>) returns (updated: seq<Issue>)
    ensures updated == errors + AsSeq(NameIssue(name))
  {
    updated := errors;
    if !Given(name) {
      updated := updated + [Required("name", "Name is required")];
    } else {
      var checked := ValidateAgentName(name.value);
      if checked.Err? {
        updated := updated + [Invalid("name", checked.error)];
      }
    }
  }

  /** The description block. */
  method PushDescriptionIssue(errors: seq<Issue>, description: Option<string>) returns (updated: seq<Issue>)
    ensures updated == errors + AsSeq(DescriptionIssue(description))
  {
    updated := errors;
    if !Given(description) {
      updated := updated + [Required("description", "Description is required")];
    } else {
      var checked := SanitizeDescription(description.value);
      if checked.Err? {
        updated := updated + [Invalid("description", checked.error)];
      }
    }
  }

  /** The personality block. */
  method PushPersonalityIssue(errors: seq<Issue>, personality: Option<string>) returns (updated: seq<Issue>)
    ensures updated == errors + AsSeq(PersonalityIssue(personality))
  {
    updated := errors;
    if !Given(personality) {
      updated := updated + [Required("personality", "Personality is required")];
    } else {
      var checked := SanitizePersonality(personality.value);
      if checked.Err? {
        updated := updated + [Invalid("personality", checked.error)];
      }
    }
  }

  /** The system-prompt block: the sanitiser, then the injection check on
      the prompt as given. */
  method PushSystemPromptIssue(errors: seq<Issue>, prompt: Option<string>) returns (updated: seq<Issue>)
    ensures updated == errors + AsSeq(SystemPromptIssue(prompt))
  {
    updated := errors;
    if !Given(prompt) {
      updated := updated + [Required("systemPrompt", "System prompt is required")];
    } else {
      var sanitized := SanitizeSystemPrompt(prompt.value);
      if sanitized.Err? {
        updated := updated + [Invalid("systemPrompt", sanitized.error)];
      } else {
        var content := ValidateContent(prompt.value);
        if content.Err? {
          updated := updated + [Invalid("systemPrompt", content.error)];
        }
      }
    }
  }

  /** The scope block. */
  method PushScopeIssue(errors: seq<Issue>, scope: Option<string>) returns (updated: seq<Issue>)
    ensures updated == errors + AsSeq(ScopeIssue(scope))
  {
    updated := errors;
    if !Given(scope) {
      updated := updated + [Required("scope", "Scope is required")];
    } else if ScopeOf(scope.value).None? {
      updated := updated + [Issue("scope", ScopeMessage, "INVALID")];
    }
  }

  /** The model block. */
  method PushModelIssue(errors: seq<Issue>, model: Option<string>) returns (updated: seq<Issue>)
    ensures updated == errors + AsSeq(ModelIssue(model))
  {
    updated := errors;
    if model.Some? && model.value !in Models {
      updated := updated + [Issue("model", ModelMessage, "INVALID")];
    }
  }

  /** The tools block. */
  method PushToolsIssue(errors: seq<Issue>, tools: Option<seq<string>>) returns (updated: seq<Issue>)
    ensures updated == errors + AsSeq(ToolsIssue(tools))
  {
    updated := errors;
    if tools.Some? {
      var checked := SanitizeTools(tools);
      if checked.Err? {
        updated := updated + [Invalid("tools", checked.error)];
      }
    }
  }

  /** The warnings block: a short prompt, then an empty tools list. */
  method PushWarnings(warnings: seq<Issue>, config: PartialConfig) returns (updated: seq<Issue>)
    ensures updated == warnings + ExpectedWarnings(config)
  {
    updated := warnings;
    if Given(config.systemPrompt) && |config.systemPrompt.value| < ShortPromptLength {
      updated := updated + [ShortPromptWarning];
    }
    if config.tools.Some? && config.tools.value == [] {
      updated := updated + [EmptyToolsWarning];
    }
  }

  /** `validate`: the field blocks in order, each pushing at most one error,
      then the two warnings. */
  method Validate(config: PartialConfig) returns (result: ValidationResult)
    ensures result.errors == ExpectedErrors(config)
    ensures result.warnings == ExpectedWarnings(config)
    ensures result.valid <==> result.errors == []
  {
    var errors: seq<Issue> := [];

    errors := PushNameIssue(errors, config.name);
    assert errors == AsSeq(NameIssue(config.name));
    errors := PushDescriptionIssue(errors, config.description);
    errors := PushPersonalityIssue(errors, config.personality);
    errors := PushSystemPromptIssue(errors, config.systemPrompt);
    errors := PushScopeIssue(errors, config.scope);
    errors := PushModelIssue(errors, config.model);
    errors := PushToolsIssue(errors, config.tools);
    assert errors == ExpectedErrors(config);

    var warnings := PushWarnings([], config);
    assert warnings == ExpectedWarnings(config);

    result := ValidationResult(|errors| == 0, errors, warnings);
  }

  // ---------------------------------------------------------------------
  // What the report means

  /** Nothing is collected exactly when every check passes. */
  lemma CollectNothing(n: Option<Issue>, d: Option<Issue>, p: Option<Issue>, s: Option<Issue>,
                       sc: Option<Issue>, m: Option<Issue>, t: Option<Issue>)
    ensures Collect(n, d, p, s, sc, m, t) == [] <==>
            n.None? && d.None? && p.None? && s.None? && sc.None? && m.None? && t.None?
  {
  }

  /** An issue is collected exactly when it is one of the outcomes. */
  lemma CollectMembers(n: Option<Issue>, d: Option<Issue>, p: Option<Issue>, s: Option<Issue>,
                       sc: Option<Issue>, m: Option<Issue>, t: Option<Issue>, e: Issue)
    ensures e in Collect(n, d, p, s, sc, m, t) <==>
            n == Some(e) || d == Some(e) || p == Some(e) || s == Some(e) ||
            sc == Some(e) || m == Some(e) || t == Some(e)
  {
  }

  /** The report has no errors exactly for the acceptable configurations. */
  lemma {:induction false} AcceptedExactly(c: PartialConfig)
    ensures ExpectedErrors(c) == [] <==> Acceptable(c)
  {
    CollectNothing(NameIssue(c.name), DescriptionIssue(c.description), PersonalityIssue(c.personality),
                   SystemPromptIssue(c.systemPrompt), ScopeIssue(c.scope), ModelIssue(c.model), ToolsIssue(c.tools));
    NameAccepted(c.name);
    DescriptionAccepted(c.description);
    PersonalityAccepted(c.personality);
    SystemPromptAccepted(c.systemPrompt);
    ToolsAccepted(c.tools);
  }

  /** The position of a field in the order `validate` checks the fields. */
  function FieldRank(field: string): nat {
    if field == "name" then 0
    else if field == "description" then 1
    else if field == "personality" then 2
    else if field == "systemPrompt" then 3
    else if field == "scope" then 4
    else if field == "model" then 5
    else if field == "tools" then 6
    else 7
  }

  predicate InFieldOrder(errors: seq<Issue>) {
    forall i, j :: 0 <= i < j < |errors| ==> FieldRank(errors[i].field) < FieldRank(errors[j].field)
  }

  predicate RankedBelow(errors: seq<Issue>, rank: nat) {
    forall i :: 0 <= i < |errors| ==> FieldRank(errors[i].field) < rank
  }

  /** An outcome that, if it is an issue, concerns the field of the given rank. */
  predicate OfRank(o: Option<Issue>, rank: nat) {
    o.Some? ==> FieldRank(o.value.field) == rank
  }

  /** Appending the issue of a later field keeps the field order. */
  lemma {:induction false} ExtendInOrder(errors: seq<Issue>, o: Option<Issue>, rank: nat)
    requires InFieldOrder(errors) && RankedBelow(errors, rank) && OfRank(o, rank)
    ensures InFieldOrder(errors + AsSeq(o)) && RankedBelow(errors + AsSeq(o), rank + 1)
  {
    var r := errors + AsSeq(o);
    forall i, j | 0 <= i < j < |r|
      ensures FieldRank(r[i].field) < FieldRank(r[j].field)
    {
      if j >= |errors| {
        assert r[i] == errors[i];
      }
    }
  }

  /** Outcomes each about the field of its position are collected in field order. */
  lemma {:induction false} CollectInOrder(n: Option<Issue>, d: Option<Issue>, p: Option<Issue>, s: Option<Issue>,
                                          sc: Option<Issue>, m: Option<Issue>, t: Option<Issue>)
    requires OfRank(n, 0) && OfRank(d, 1) && OfRank(p, 2) && OfRank(s, 3)
    requires OfRank(sc, 4) && OfRank(m, 5) && OfRank(t, 6)
    ensures InFieldOrder(Collect(n, d, p, s, sc, m, t))
  {
    var e1 := AsSeq(n);
    assert InFieldOrder(e1) && RankedBelow(e1, 1);
    var e2 := e1 + AsSeq(d);
    ExtendInOrder(e1, d, 1);
    var e3 := e2 + AsSeq(p);
    ExtendInOrder(e2, p, 2);
    var e4 := e3 + AsSeq(s);
    ExtendInOrder(e3, s, 3);
    var e5 := e4 + AsSeq(sc);
    ExtendInOrder(e4, sc, 4);
    var e6 := e5 + AsSeq(m);
    ExtendInOrder(e5, m, 5);
    assert Collect(n, d, p, s, sc, m, t) == e6 + AsSeq(t);
    ExtendInOrder(e6, t, 6);
  }

  /** The errors come in the order the fields are checked, so no field is
      reported twice. */
  lemma {:induction false} ErrorsInFieldOrder(c: PartialConfig)
    ensures InFieldOrder(ExpectedErrors(c))
    ensures forall i, j :: 0 <= i < j < |ExpectedErrors(c)| ==> ExpectedErrors(c)[i].field != ExpectedErrors(c)[j].field
  {
    var n, d, p, s, sc, m, t := NameIssue(c.name), DescriptionIssue(c.description), PersonalityIssue(c.personality),
      SystemPromptIssue(c.systemPrompt), ScopeIssue(c.scope), ModelIssue(c.model), ToolsIssue(c.tools);
    IssuesOfRank(c);
    CollectInOrder(n, d, p, s, sc, m, t);
    InOrderDistinct(ExpectedErrors(c));
  }

  /** Each check reports, if anything, about its own field. */
  lemma IssuesOfRank(c: PartialConfig)
    ensures OfRank(NameIssue(c.name), 0) && OfRank(DescriptionIssue(c.description), 1)
    ensures OfRank(PersonalityIssue(c.personality), 2) && OfRank(SystemPromptIssue(c.systemPrompt), 3)
    ensures OfRank(ScopeIssue(c.scope), 4) && OfRank(ModelIssue(c.model), 5) && OfRank(ToolsIssue(c.tools), 6)
  {
    FieldRanks();
  }

  lemma FieldRanks()
    ensures FieldRank("name") == 0 && FieldRank("description") == 1 && FieldRank("personality") == 2
    ensures FieldRank("systemPrompt") == 3 && FieldRank("scope") == 4 && FieldRank("model") == 5
    ensures FieldRank("tools") == 6
  {
  }

  /** Errors in field order name each field at most once. */
  lemma InOrderDistinct(errors: seq<Issue>)
    requires InFieldOrder(errors)
    ensures forall i, j :: 0 <= i < j < |errors| ==> errors[i].field != errors[j].field
  {
  }

  /** Each of the five required fields draws its `REQUIRED` error exactly
      when it is missing or empty. */
  lemma {:induction false} RequiredExactlyWhenMissing(c: PartialConfig)
    ensures Required("name", "Name is required") in ExpectedErrors(c) <==> !Given(c.name)
    ensures Required("description", "Description is required") in ExpectedErrors(c) <==> !Given(c.description)
    ensures Required("personality", "Personality is required") in ExpectedErrors(c) <==> !Given(c.personality)
    ensures Required("systemPrompt", "System prompt is required") in ExpectedErrors(c) <==> !Given(c.systemPrompt)
    ensures Required("scope", "Scope is required") in ExpectedErrors(c) <==> !Given(c.scope)
  {
    var n, d, p, s, sc, m, t := NameIssue(c.name), DescriptionIssue(c.description), PersonalityIssue(c.personality),
      SystemPromptIssue(c.systemPrompt), ScopeIssue(c.scope), ModelIssue(c.model), ToolsIssue(c.tools);
    CollectMembers(n, d, p, s, sc, m, t, Required("name", "Name is required"));
    CollectMembers(n, d, p, s, sc, m, t, Required("description", "Description is required"));
    CollectMembers(n, d, p, s, sc, m, t, Required("personality", "Personality is required"));
    CollectMembers(n, d, p, s, sc, m, t, Required("systemPrompt", "System prompt is required"));
    CollectMembers(n, d, p, s, sc, m, t, Required("scope", "Scope is required"));
  }

  /** The warnings: a short prompt is measured before trimming, and an empty
      tools list draws its warning without an error, being read as no list. */
  lemma {:induction false} WarningsMeaning(c: PartialConfig)
    ensures ShortPromptWarning in ExpectedWarnings(c) <==>
            c.systemPrompt.Some? && 0 < |c.systemPrompt.value| < ShortPromptLength
    ensures EmptyToolsWarning in ExpectedWarnings(c) <==> c.tools == Some([])
    ensures EmptyToolsWarning in ExpectedWarnings(c) ==>
            SanitizeTools(c.tools) == Ok(None) && ToolsIssue(c.tools).None?
  {
    if c.tools == Some([]) {
      assert TrimEach(Seqs.Filter([], ValidTool)) == [];
    }
  }

  /** The configuration of the "missing required fields" test, which gives
      only a name: every other required field is reported, and the name is not. */
  lemma MissingFieldsExample()
    ensures ExpectedErrors(PartialConfig(Some("test"), None, None, None, None, None, None, None, None)) ==
            [Required("description", "Description is required"),
             Required("personality", "Personality is required"),
             Required("systemPrompt", "System prompt is required"),
             Required("scope", "Scope is required")]
  {
    var c := PartialConfig(Some("test"), None, None, None, None, None, None, None, None);
    assert IsSafeName("test");
    NameAccepted(c.name);
  }

  // ---------------------------------------------------------------------
  // validateOrThrow

  /** The message of the aggregate failure: each error as `field: message`,
      joined by commas. */
  function FailureMessage(errors: seq<Issue>): string {
    "Agent validation failed: " +
    Join(seq(|errors|, k requires 0 <= k < |errors| => errors[k].field + ": " + errors[k].message), ", ")
  }

  /** The failure message names every error with its field. */
  lemma {:induction false} FailureMessageListsErrors(errors: seq<Issue>)
    ensures StartsWith(FailureMessage(errors), "Agent validation failed: ")
    ensures forall k :: 0 <= k < |errors| ==>
              Contains(FailureMessage(errors), errors[k].field + ": " + errors[k].message)
  {
    var prefix := "Agent validation failed: ";
    var parts := seq(|errors|, k requires 0 <= k < |errors| => errors[k].field + ": " + errors[k].message);
    assert FailureMessage(errors)[..|prefix|] == prefix;
    forall k | 0 <= k < |errors|
      ensures Contains(FailureMessage(errors), errors[k].field + ": " + errors[k].message)
    {
      JoinContainsParts(parts, ", ", k);
      ContainsInfix(prefix, Join(parts, ", "), "", parts[k]);
      assert prefix + Join(parts, ", ") + "" == FailureMessage(errors);
    }
  }

  /** The complete configuration an accepted partial one stands for. */
  function Completed(c: PartialConfig): (a: AgentConfig)
    requires Acceptable(c)
    ensures ToPartial(a) == c
  {
    var a := AgentConfig(c.name.value, c.description.value, c.personality.value, c.systemPrompt.value,
                         ScopeOf(c.scope.value).value, c.expertise, c.tools, c.model, c.metadata);
    assert ScopeName(a.scope) == c.scope.value;
    a
  }

  /** `validateOrThrow`: a plain error carrying every message when the
      report has errors; otherwise the configuration, now known complete. */
  method ValidateOrThrow(config: PartialConfig) returns (r: Result<AgentConfig, AgentQError>)
    ensures r.Ok? <==> Acceptable(config)
    ensures r.Ok? ==> ToPartial(r.value) == config
    ensures r.Err? ==> r.error == PlainError(FailureMessage(ExpectedErrors(config)))
  {
    var result := Validate(config);
    AcceptedExactly(config);
    if !result.valid {
      r := Err(PlainError(FailureMessage(result.errors)));
    } else {
      r := Ok(Completed(config));
    }
  }

  // ---------------------------------------------------------------------
  // The injection check reads the prompt before it is sanitised

  /** None of the characters `<`, `:`, `o`, `x` and `i`. */
  predicate Unmarked(c: char) {
    c != '<' && c != ':' && c != 'o' && c != 'x' && c != 'i'
  }

  /** A prompt whose `eval` call is split by a NUL character. */
  const HiddenCall: string := "ev\U{0}al(1)"

  lemma HiddenCallFacts(t: string)
    requires t == HiddenCall
    ensures ToLower(t) == t && IsTrimmed(t)
    ensures forall k :: 0 <= k < |t| ==> Unmarked(t[k])
    ensures forall k :: 0 <= k < |t| && t[k] == 'e' ==> k == 0
    ensures t[2] == '\U{0}'
  {
    ToLowerNoUpper(t);
  }

  /** The prompt as given matches no injection pattern. */
  lemma {:induction false} HiddenCallNotDetected(t: string)
    requires t == HiddenCall
    ensures !DetectInjectionPatterns(t)
  {
    HiddenCallFacts(t);
    forall p | 0 <= p < |t|
      ensures !PatternAt(t, p)
    {
      AbsentCharNoOccurrence(t, "<script", 0, p);
      AbsentCharNoOccurrence(t, "javascript:", 10, p);
      AbsentCharNoOccurrence(t, "on", 0, p);
      AbsentCharNoOccurrence(t, "expression", 1, p);
      AbsentCharNoOccurrence(t, "import", 0, p);
      if p + 4 <= |t| {
        assert t[p..p + 4][0] == t[p];
        assert t[p..p + 4][2] == t[p + 2];
      }
    }
  }

  /** Removing one control character between clean texts joins them. */
  lemma {:induction false} StripControlBetween(a: string, c: char, b: string)
    requires NoControl(a) && NoControl(b) && IsControl(c)
    ensures StripControl(a + [c] + b) == a + b
  {
    StripControlByCharacters(a, [c], c);
    StripControlByCharacters(a + [c], b, c);
    StripControlKeepsText(a);
    StripControlKeepsText(b);
  }

  lemma HiddenCallParts(t: string)
    requires t == HiddenCall
    ensures t == "ev" + ['\U{0}'] + "al(1)" && "ev" + "al(1)" == "eval(1)"
    ensures NoControl("ev") && NoControl("al(1)")
  {
  }

  /** Sanitising removes the NUL and leaves an `eval` call. */
  lemma {:induction false} HiddenCallSanitised(t: string)
    requires t == HiddenCall
    ensures SanitizeSystemPrompt(t) == Ok("eval(1)")
  {
    HiddenCallFacts(t);
    TrimOfTrimmed(t);
    HiddenCallParts(t);
    StripControlBetween("ev", '\U{0}', "al(1)");
  }

  lemma {:induction false} CallDetected(t: string)
    requires t == "eval(1)"
    ensures DetectInjectionPatterns(t)
  {
    ToLowerNoUpper(t);
    assert t[0..4] == "eval";
    assert OccursAt(t, "eval", 0);
    assert AllIn(t, 4, 4, IsSpace) && t[4] == '(';
    assert CallAt(t, 0, "eval");
    DetectedAt(t, 0);
  }

  /** As written, a prompt passes the injection check although the text it
      sanitises to, which is what gets stored, holds an `eval` call. */
  lemma RawCheckMissesHiddenCall()
    ensures SystemPromptIssue(Some(HiddenCall)).None?
    ensures SanitizeSystemPrompt(HiddenCall) == Ok("eval(1)")
    ensures DetectInjectionPatterns("eval(1)")
  {
    HiddenCallFacts(HiddenCall);
    HiddenCallNotDetected(HiddenCall);
    HiddenCallSanitised(HiddenCall);
    CallDetected("eval(1)");
  }

  /** The system-prompt check with the injection check also applied to the
      sanitised prompt, the text that is stored. */
  function CheckedSystemPromptIssue(prompt: Option<string>): (r: Option<Issue>)
    ensures r.None? <==> SystemPromptIssue(prompt).None? &&
                         !DetectInjectionPatterns(SanitizeSystemPrompt(prompt.value).value)
    ensures SystemPromptIssue(prompt).Some? ==> r == SystemPromptIssue(prompt)
  {
    match SystemPromptIssue(prompt)
    case Some(i) => Some(i)
    case None =>
      match ValidateContent(SanitizeSystemPrompt(prompt.value).value)
      case Err(e) => Some(Invalid("systemPrompt", e))
      case Ok(_) => None
  }

  /** A prompt the corrected check accepts sanitises to text free of
      injection patterns, and the prompt with the hidden call is refused. */
  lemma CheckedPromptIsSafeToStore(prompt: string)
    ensures CheckedSystemPromptIssue(Some(prompt)).None? ==>
              SanitizeSystemPrompt(prompt).Ok? && !DetectInjectionPatterns(SanitizeSystemPrompt(prompt).value)
    ensures CheckedSystemPromptIssue(Some(HiddenCall)).Some?
  {
    RawCheckMissesHiddenCall();
  }
}
