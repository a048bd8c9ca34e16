/** Sanitising of the free-text fields of an agent (trim, length bound,
    removal of control characters), filtering of the expertise and tool
    lists, and the injection check on content. */
module ContentSanitizer {
  import opened Wrappers
  import opened Strings
  import opened Errors
  import opened Seqs
  import opened Injection

  const MaxDescriptionLength: nat := 200
  const MaxPersonalityLength: nat := 500
  const MaxSystemPromptLength: nat := 50000
  const MaxExpertiseItemLength: nat := 50
  const MaxExpertiseItems: nat := 20

  /** The source text of the tool-name pattern, reported in the error details. */
  const ToolPatternSource: string := "^[a-zA-Z][a-zA-Z0-9_]*$"

  // ---------------------------------------------------------------------
  // Control characters

  /** The removed characters: U+0000 to U+0008, U+000B, U+000C, U+000E to
      U+001F and U+007F. Tab, line feed and carriage return are kept. */
  predicate IsControl(c: char) {
    ('\U{0}' <= c <= '\U{8}') || c == '\U{B}' || c == '\U{C}' || ('\U{E}' <= c <= '\U{1F}') || c == '\U{7F}'
  }

  predicate NotControl(c: char) { !IsControl(c) }

  predicate NoControl(s: string) {
    forall k :: 0 <= k < |s| ==> NotControl(s[k])
  }

  /** `s.replace(/[\x00-\x08\x0B\x0C\x0E-\x1F\x7F]/g, '')`. */
  function StripControl(s: string): (r: string)
    ensures |r| <= |s|
    ensures NoControl(r)
  {
    Filter(s, NotControl)
  }

  /** Removal works character by character: it distributes over
      concatenation and keeps a single character exactly when it is not a
      control character. These two facts determine the function. */
  lemma {:induction false} StripControlByCharacters(a: string, b: string, c: char)
    ensures StripControl(a + b) == StripControl(a) + StripControl(b)
    ensures StripControl([c]) == if IsControl(c) then [] else [c]
  {
    FilterAppend(a, b, NotControl);
    assert [c][..0] == [];
  }

  /** What survives is the text without its control characters: nothing else
      is dropped, the order is kept, and a text without control characters is
      returned unchanged. */
  lemma {:induction false} StripControlKeepsText(s: string)
    ensures IsSubseq(StripControl(s), s)
    ensures forall k :: 0 <= k < |s| && NotControl(s[k]) ==> s[k] in StripControl(s)
    ensures NoControl(s) ==> StripControl(s) == s
  {
    FilterIsSubseq(s, NotControl);
    forall k | 0 <= k < |s| && NotControl(s[k])
      ensures s[k] in StripControl(s)
    {
      FilterKeeps(s, NotControl, s[k]);
    }
    if NoControl(s) {
      FilterAllPass(s, NotControl);
    }
  }

  // ---------------------------------------------------------------------
  // Free-text fields

  /** The shared shape of `sanitizeDescription`, `sanitizePersonality` and
      `sanitizeSystemPrompt`: an empty text is missing, a text of whitespace
      is empty, the trimmed text is bounded, and the control characters of
      the trimmed text are removed. `title` starts the messages and `field`
      is the reported field. The `maxLength` entry of the details record is
      a number and is not kept. */
  function SanitizeText(text: string, title: string, field: string, maxLength: nat): (r: Result<string, AgentQError>)
    ensures r.Ok? <==> Trim(text) != [] && |Trim(text)| <= maxLength
    ensures r.Ok? ==> r.value == StripControl(Trim(text))
    ensures r.Ok? ==> |r.value| <= maxLength && NoControl(r.value)
    ensures r.Err? ==> r.error.kind == Validation && r.error.details == map["field" := field]
  {
    if text == [] then
      Err(ValidationError(title + " is required", map["field" := field]))
    else
      var trimmed := Trim(text);
      if |trimmed| == 0 then
        Err(ValidationError(title + " cannot be empty", map["field" := field]))
      else if |trimmed| > maxLength then
        Err(ValidationError(title + " exceeds maximum length of " + NatToString(maxLength), map["field" := field]))
      else
        Ok(StripControl(trimmed))
  }

  /** The text is accepted exactly when it is not all whitespace and its
      trimmed form is short enough; the three failures and their messages are
      missing, blank and too long. */
  lemma {:induction false} SanitizeTextFailures(text: string, title: string, field: string, maxLength: nat)
    ensures var r := SanitizeText(text, title, field, maxLength);
            (r.Ok? <==> !AllSpace(text) && |Trim(text)| <= maxLength) &&
            (text == [] ==> r.Err? && r.error.message == title + " is required") &&
            (text != [] && AllSpace(text) ==> r.Err? && r.error.message == title + " cannot be empty") &&
            (!AllSpace(text) && |Trim(text)| > maxLength ==>
               r.Err? && r.error.message == title + " exceeds maximum length of " + NatToString(maxLength))
  {
    TrimEmptyIffAllSpace(text);
  }

  /** `sanitizeDescription`. */
  function SanitizeDescription(description: string): (r: Result<string, AgentQError>)
    ensures r.Ok? <==> Trim(description) != [] && |Trim(description)| <= MaxDescriptionLength
    ensures r.Ok? ==> r.value == StripControl(Trim(description))
    ensures r.Err? ==> r.error.kind == Validation && r.error.details == map["field" := "description"]
  {
    SanitizeText(description, "Description", "description", MaxDescriptionLength)
  }

  /** `sanitizePersonality`. */
  function SanitizePersonality(personality: string): (r: Result<string, AgentQError>)
    ensures r.Ok? <==> Trim(personality) != [] && |Trim(personality)| <= MaxPersonalityLength
    ensures r.Ok? ==> r.value == StripControl(Trim(personality))
    ensures r.Err? ==> r.error.kind == Validation && r.error.details == map["field" := "personality"]
  {
    SanitizeText(personality, "Personality", "personality", MaxPersonalityLength)
  }

  /** `sanitizeSystemPrompt`. */
  function SanitizeSystemPrompt(prompt: string): (r: Result<string, AgentQError>)
    ensures r.Ok? <==> Trim(prompt) != [] && |Trim(prompt)| <= MaxSystemPromptLength
    ensures r.Ok? ==> r.value == StripControl(Trim(prompt))
    ensures r.Err? ==> r.error.kind == Validation && r.error.details == map["field" := "systemPrompt"]
  {
    SanitizeText(prompt, "System prompt", "systemPrompt", MaxSystemPromptLength)
  }

  /** A text that is already clean comes back unchanged. */
  lemma {:induction false} CleanTextUnchanged(text: string, title: string, field: string, maxLength: nat)
    requires text != [] && IsTrimmed(text) && NoControl(text) && |text| <= maxLength
    ensures SanitizeText(text, title, field, maxLength) == Ok(text)
  {
    TrimOfTrimmed(text);
    TrimEmptyIffAllSpace(text);
    StripControlKeepsText(text);
  }

  /** Whitespace around a text does not change what it sanitises to. */
  lemma {:induction false} PaddingIgnored(a: string, text: string, b: string, title: string, field: string, maxLength: nat)
    requires AllSpace(a) && AllSpace(b) && !AllSpace(text)
    ensures SanitizeText(a + text + b, title, field, maxLength) == SanitizeText(text, title, field, maxLength)
  {
    TrimPadded(a, text, b);
    TrimEmptyIffAllSpace(text);
    TrimEmptyIffAllSpace(a + text + b);
  }

  /** Sanitising is idempotent: its output, when not empty, sanitises to
      itself. The output can be empty, and can start or end with whitespace,
      because control characters are removed after the emptiness check and
      after trimming. */
  lemma {:induction false} SanitizeTextIdempotent(text: string, title: string, field: string, maxLength: nat)
    requires SanitizeText(text, title, field, maxLength).Ok?
    requires IsTrimmed(SanitizeText(text, title, field, maxLength).value)
    requires SanitizeText(text, title, field, maxLength).value != []
    ensures SanitizeText(SanitizeText(text, title, field, maxLength).value, title, field, maxLength)
            == SanitizeText(text, title, field, maxLength)
  {
    var v := SanitizeText(text, title, field, maxLength).value;
    CleanTextUnchanged(v, title, field, maxLength);
  }

  /** A text of control characters that are not whitespace (all but the
      vertical tab and the form feed) passes the emptiness check and
      sanitises to the empty string. */
  lemma {:induction false} ControlOnlyBecomesEmpty(text: string, title: string, field: string, maxLength: nat)
    requires text != [] && |text| <= maxLength
    requires forall k :: 0 <= k < |text| ==> IsControl(text[k]) && !IsSpace(text[k])
    ensures SanitizeText(text, title, field, maxLength) == Ok([])
  {
    assert IsTrimmed(text);
    TrimOfTrimmed(text);
    FilterNonePass(text, NotControl);
  }

  lemma ControlOnlyDescriptionBecomesEmpty()
    ensures SanitizeDescription("\U{1}") == Ok([])
  {
    ControlOnlyBecomesEmpty("\U{1}", "Description", "description", MaxDescriptionLength);
  }

  // ---------------------------------------------------------------------
  // Examples of the sanitiser's tests

  lemma DescriptionLiteralsClean()
    ensures NoControl("A code reviewer that focuses on security")
    ensures IsTrimmed("A code reviewer that focuses on security")
  {
  }

  lemma TestDescriptionClean()
    ensures NoControl("Test description") && IsTrimmed("Test description")
  {
  }

  /** A clean description is kept as it is. */
  lemma DescriptionKept()
    ensures SanitizeDescription("A code reviewer that focuses on security") ==
            Ok("A code reviewer that focuses on security")
  {
    DescriptionLiteralsClean();
    CleanTextUnchanged("A code reviewer that focuses on security", "Description", "description", MaxDescriptionLength);
  }

  /** Surrounding spaces are trimmed. */
  lemma DescriptionTrimmed()
    ensures SanitizeDescription("  " + "Test description" + "  ") == Ok("Test description")
  {
    var t := "Test description";
    TestDescriptionClean();
    assert AllSpace("  ");
    CleanTextUnchanged(t, "Description", "description", MaxDescriptionLength);
    assert !IsSpace(t[0]);
    PaddingIgnored("  ", t, "  ", "Description", "description", MaxDescriptionLength);
  }

  /** A blank text is refused. */
  lemma BlankRefused(text: string, title: string, field: string, maxLength: nat)
    requires AllSpace(text)
    ensures SanitizeText(text, title, field, maxLength).Err?
  {
    TrimEmptyIffAllSpace(text);
  }

  /** A text with no whitespace to trim that is longer than the maximum is refused. */
  lemma TooLongRefused(text: string, title: string, field: string, maxLength: nat)
    requires IsTrimmed(text) && |text| > maxLength
    ensures SanitizeText(text, title, field, maxLength).Err?
  {
    TrimOfTrimmed(text);
  }

  /** A run of `n` letters `a`. */
  function Letters(n: nat): (r: string)
    ensures |r| == n && IsTrimmed(r)
  {
    var r := seq(n, _ => 'a');
    assert n > 0 ==> r[0] == 'a' && r[n - 1] == 'a';
    r
  }

  /** Empty, blank and over-long descriptions are refused. */
  lemma DescriptionRefused()
    ensures SanitizeDescription("").Err? && SanitizeDescription("   ").Err?
    ensures SanitizeDescription(Letters(201)).Err?
  {
    assert AllSpace("   ");
    BlankRefused("   ", "Description", "description", MaxDescriptionLength);
    TooLongRefused(Letters(201), "Description", "description", MaxDescriptionLength);
  }

  lemma PromptLiteralsClean()
    ensures NoControl("Line 1\nLine 2\n\nLine 3") && IsTrimmed("Line 1\nLine 2\n\nLine 3")
  {
  }

  lemma AssistantPromptClean()
    ensures NoControl("You are a helpful assistant.") && IsTrimmed("You are a helpful assistant.")
  {
  }

  /** Line breaks in a prompt are kept, and a clean prompt is kept as it is. */
  lemma PromptKeepsLineBreaks()
    ensures SanitizeSystemPrompt("Line 1\nLine 2\n\nLine 3") == Ok("Line 1\nLine 2\n\nLine 3")
    ensures SanitizeSystemPrompt("You are a helpful assistant.") == Ok("You are a helpful assistant.")
  {
    PromptLiteralsClean();
    AssistantPromptClean();
    CleanTextUnchanged("Line 1\nLine 2\n\nLine 3", "System prompt", "systemPrompt", MaxSystemPromptLength);
    CleanTextUnchanged("You are a helpful assistant.", "System prompt", "systemPrompt", MaxSystemPromptLength);
  }

  /** Empty and over-long prompts are refused. */
  lemma PromptRefused()
    ensures SanitizeSystemPrompt("").Err? && SanitizeSystemPrompt(Letters(50001)).Err?
  {
    TooLongRefused(Letters(50001), "System prompt", "systemPrompt", MaxSystemPromptLength);
  }

  /** Control characters are removed from a description. */
  lemma ControlCharactersRemoved(d: string)
    requires SanitizeDescription(d).Ok?
    ensures '\U{0}' !in SanitizeDescription(d).value && '\U{1}' !in SanitizeDescription(d).value
  {
  }

  // ---------------------------------------------------------------------
  // Expertise

  /** `item.trim().length > 0`. */
  predicate NotBlank(s: string) { Trim(s) != [] }

  /** `item.trim().slice(0, 50)` for an item that is not blank. */
  function CutItem(s: string): (r: string)
    requires NotBlank(s)
    ensures 0 < |r| <= MaxExpertiseItemLength && !IsSpace(r[0])
    ensures OccursAt(Trim(s), r, 0)
  {
    var t := Trim(s);
    if |t| <= MaxExpertiseItemLength then t else t[..MaxExpertiseItemLength]
  }

  /** Every item trimmed and cut. */
  function CutItems(items: seq<string>): (r: seq<string>)
    requires forall k :: 0 <= k < |items| ==> NotBlank(items[k])
    ensures |r| == |items|
    ensures forall k :: 0 <= k < |r| ==> 0 < |r[k]| <= MaxExpertiseItemLength && !IsSpace(r[k][0])
  {
    seq(|items|, k requires 0 <= k < |items| => CutItem(items[k]))
  }

  /** `sanitizeExpertise`: a missing list stays missing; otherwise the blank
      items are dropped, the others trimmed and cut to 50 characters, and the
      first 20 kept. */
  function SanitizeExpertise(expertise: Option<seq<string>>): (r: Option<seq<string>>)
    ensures r.None? <==> expertise.None?
    ensures r.Some? ==> |r.value| <= MaxExpertiseItems
    ensures r.Some? ==> forall k :: 0 <= k < |r.value| ==>
              0 < |r.value[k]| <= MaxExpertiseItemLength && !IsSpace(r.value[k][0])
  {
    match expertise
    case None => None
    case Some(items) =>
      var cut := CutItems(Filter(items, NotBlank));
      Some(if |cut| <= MaxExpertiseItems then cut else cut[..MaxExpertiseItems])
  }

  /** Which items come out: with `kept` the non-blank items in their order
      (each of them, and nothing else), the result has one entry for each of
      the first 20 of them, and entry `k` is the trimmed `kept[k]` cut to its
      first 50 characters. */
  lemma {:induction false} ExpertiseMeaning(items: seq<string>)
    ensures var kept := Filter(items, NotBlank);
            var r := SanitizeExpertise(Some(items)).value;
            IsSubseq(kept, items) &&
            (forall x :: x in kept <==> x in items && NotBlank(x)) &&
            |r| == (if |kept| <= MaxExpertiseItems then |kept| else MaxExpertiseItems) &&
            forall k :: 0 <= k < |r| ==>
              |r[k]| == (if |Trim(kept[k])| <= MaxExpertiseItemLength then |Trim(kept[k])| else MaxExpertiseItemLength) &&
              OccursAt(Trim(kept[k]), r[k], 0)
  {
    var kept := Filter(items, NotBlank);
    FilterIsSubseq(items, NotBlank);
    forall x | x in items && NotBlank(x) ensures x in kept {
      FilterKeeps(items, NotBlank, x);
    }
    forall x | x in kept ensures x in items && NotBlank(x) {
      var k :| 0 <= k < |kept| && kept[k] == x;
    }
  }

  predicate CleanItem(s: string) {
    s != [] && IsTrimmed(s) && |s| <= MaxExpertiseItemLength
  }

  lemma CleanItemKept(s: string)
    requires CleanItem(s)
    ensures NotBlank(s) && CutItem(s) == s
  {
    TrimOfTrimmed(s);
  }

  lemma CleanItemsKept(items: seq<string>)
    requires forall k :: 0 <= k < |items| ==> CleanItem(items[k])
    ensures forall k :: 0 <= k < |items| ==> NotBlank(items[k])
    ensures CutItems(items) == items
  {
    forall k | 0 <= k < |items| ensures NotBlank(items[k]) && CutItem(items[k]) == items[k] {
      CleanItemKept(items[k]);
    }
  }

  /** A list of at most 20 clean items is kept as it is. */
  lemma {:induction false} CleanExpertiseUnchanged(items: seq<string>)
    requires |items| <= MaxExpertiseItems
    requires forall k :: 0 <= k < |items| ==> CleanItem(items[k])
    ensures SanitizeExpertise(Some(items)) == Some(items)
  {
    CleanItemsKept(items);
    FilterAllPass(items, NotBlank);
  }

  /** Blank items make no difference, wherever they stand. */
  lemma {:induction false} BlankItemsIgnored(xs: seq<string>, blank: string, ys: seq<string>)
    requires AllSpace(blank)
    ensures SanitizeExpertise(Some(xs + [blank] + ys)) == SanitizeExpertise(Some(xs + ys))
  {
    TrimEmptyIffAllSpace(blank);
    FilterDropsFailing(xs, blank, ys, NotBlank);
  }

  /** The empty list stays an empty list. */
  lemma EmptyExpertiseKept()
    ensures SanitizeExpertise(Some([])) == Some([])
  {
  }

  // ---------------------------------------------------------------------
  // Tools

  predicate IsAlpha(c: char) { IsLowerAlpha(c) || IsUpperAlpha(c) }

  /** `^[a-zA-Z][a-zA-Z0-9_]*$`. */
  predicate IsToolName(s: string) {
    |s| >= 1 && IsAlpha(s[0]) && forall k :: 1 <= k < |s| ==> IsWordChar(s[k])
  }

  /** The filter of `sanitizeTools`: the trimmed item is a tool name. */
  predicate ValidTool(t: string) {
    IsToolName(Trim(t))
  }

  /** `sanitizeTools`: the valid items, trimmed and in order; an empty
      result from a non-empty list is an error, and an empty result from the
      empty list is `None`. */
  function SanitizeTools(tools: Option<seq<string>>): (r: Result<Option<seq<string>>, AgentQError>)
    ensures r.Err? ==> tools.Some? && tools.value != [] &&
                       r.error == ValidationError("No valid tools provided",
                                                  map["field" := "tools", "pattern" := ToolPatternSource])
    ensures r.Ok? && r.value.Some? ==>
              r.value.value != [] && forall k :: 0 <= k < |r.value.value| ==> IsToolName(r.value.value[k])
  {
    match tools
    case None => Ok(None)
    case Some(items) =>
      var sanitized := TrimEach(Filter(items, ValidTool));
      if sanitized == [] && items != [] then
        Err(ValidationError("No valid tools provided", map["field" := "tools", "pattern" := ToolPatternSource]))
      else
        Ok(if sanitized != [] then Some(sanitized) else None)
  }

  /** When some item passes the filter, the result is the valid items,
      trimmed, in their order. */
  lemma SanitizeToolsValue(tools: seq<string>)
    requires Filter(tools, ValidTool) != []
    ensures SanitizeTools(Some(tools)) == Ok(Some(TrimEach(Filter(tools, ValidTool))))
  {
    assert |TrimEach(Filter(tools, ValidTool))| == |Filter(tools, ValidTool)|;
  }

  /** The list is refused exactly when it is non-empty and none of its items
      is a valid tool name; otherwise the result is the valid items, trimmed,
      in their order. */
  lemma {:induction false} SanitizeToolsKeepsValid(tools: seq<string>)
    ensures SanitizeTools(Some(tools)).Err? <==>
            tools != [] && forall k :: 0 <= k < |tools| ==> !ValidTool(tools[k])
    ensures SanitizeTools(Some(tools)).Ok? && tools != [] ==>
            SanitizeTools(Some(tools)).value == Some(TrimEach(Filter(tools, ValidTool)))
  {
    if forall k :: 0 <= k < |tools| ==> !ValidTool(tools[k]) {
      FilterNonePass(tools, ValidTool);
    } else {
      var k :| 0 <= k < |tools| && ValidTool(tools[k]);
      FilterKeeps(tools, ValidTool, tools[k]);
      SanitizeToolsValue(tools);
    }
  }

  /** A missing list and the empty list both give no tools. */
  lemma NoToolsGiveNone()
    ensures SanitizeTools(None) == Ok(None)
    ensures SanitizeTools(Some([])) == Ok(None)
  {
  }

  /** A tool name has no surrounding whitespace, so it passes the filter. */
  lemma ToolNameTrimmed(t: string)
    requires IsToolName(t)
    ensures Trim(t) == t && ValidTool(t)
  {
    assert IsTrimmed(t);
    TrimOfTrimmed(t);
  }

  /** A non-empty list of tool names is kept as it is. */
  lemma {:induction false} CleanToolsUnchanged(tools: seq<string>)
    requires tools != []
    requires forall k :: 0 <= k < |tools| ==> IsToolName(tools[k])
    ensures SanitizeTools(Some(tools)) == Ok(Some(tools))
  {
    forall k | 0 <= k < |tools| ensures Trim(tools[k]) == tools[k] && ValidTool(tools[k]) {
      ToolNameTrimmed(tools[k]);
    }
    FilterAllPass(tools, ValidTool);
    TrimEachOfTrimmed(tools);
    SanitizeToolsValue(tools);
  }

  /** A trimmed text that is not a tool name fails the filter. */
  lemma InvalidTool(t: string)
    requires IsTrimmed(t) && !IsToolName(t)
    ensures !ValidTool(t)
  {
    TrimOfTrimmed(t);
  }

  lemma TrimmedPair(r: string, w: string)
    requires Trim(r) == r && Trim(w) == w
    ensures TrimEach([r, w]) == [r, w]
  {
    TrimEachOfTrimmed([r, w]);
  }

  /** Two valid items around two invalid ones keep only the valid ones. */
  lemma {:induction false} ToolFilterShape(r: string, i: string, w: string, n: string)
    requires ValidTool(r) && ValidTool(w) && TrimEach([r, w]) == [r, w]
    requires !ValidTool(i) && !ValidTool(n)
    ensures SanitizeTools(Some([r, i, w, n])) == Ok(Some([r, w]))
  {
    FilterFirstAndThird(r, i, w, n, ValidTool);
    SanitizeToolsValue([r, i, w, n]);
  }

  /** A non-empty list of invalid items is refused. */
  lemma {:induction false} NoValidToolRefused(xs: seq<string>)
    requires xs != [] && forall k :: 0 <= k < |xs| ==> !ValidTool(xs[k])
    ensures SanitizeTools(Some(xs)).Err?
  {
    SanitizeToolsKeepsValid(xs);
  }

  lemma ValidToolLiterals()
    ensures IsToolName("Read") && IsToolName("Write")
  {
  }

  lemma FilteredToolLiterals()
    ensures IsTrimmed("invalid tool") && !IsToolName("invalid tool")
    ensures IsTrimmed("123invalid") && !IsToolName("123invalid")
  {
    assert !IsWordChar("invalid tool"[7]);
  }

  lemma BadToolLiterals()
    ensures IsTrimmed("@bad") && !IsToolName("@bad") && IsTrimmed("!tool") && !IsToolName("!tool")
  {
  }

  /** The filtering example of the sanitiser's tests: the name with a space
      and the name starting with a digit are dropped. */
  lemma ToolFilterExample()
    ensures SanitizeTools(Some(["Read", "invalid tool", "Write", "123invalid"])) == Ok(Some(["Read", "Write"]))
  {
    ValidToolLiterals();
    FilteredToolLiterals();
    ToolNameTrimmed("Read");
    ToolNameTrimmed("Write");
    InvalidTool("invalid tool");
    InvalidTool("123invalid");
    TrimmedPair("Read", "Write");
    ToolFilterShape("Read", "invalid tool", "Write", "123invalid");
  }

  /** Three invalid items are refused. */
  lemma ThreeInvalidRefused(a: string, b: string, c: string)
    requires !ValidTool(a) && !ValidTool(b) && !ValidTool(c)
    ensures SanitizeTools(Some([a, b, c])).Err?
  {
    var xs := [a, b, c];
    assert forall k :: 0 <= k < |xs| ==> !ValidTool(xs[k]);
    NoValidToolRefused(xs);
  }

  /** A list with no valid tool is an error. */
  lemma NoValidToolExample()
    ensures SanitizeTools(Some(["123invalid", "@bad", "!tool"])).Err?
  {
    FilteredToolLiterals();
    BadToolLiterals();
    InvalidTool("123invalid");
    InvalidTool("@bad");
    InvalidTool("!tool");
    ThreeInvalidRefused("123invalid", "@bad", "!tool");
  }

  // ---------------------------------------------------------------------
  // Content

  /** `validateContent`: content fails exactly when an injection pattern
      matches it. */
  function ValidateContent(content: string): (r: Result<(), AgentQError>)
    ensures r.Err? <==> DetectInjectionPatterns(content)
    ensures r.Err? ==> r.error == ValidationError("Content contains potentially malicious patterns",
                                                  map["field" := "content"])
  {
    if DetectInjectionPatterns(content) then
      Err(ValidationError("Content contains potentially malicious patterns", map["field" := "content"]))
    else
      Ok(())
  }

  /** The two examples of the sanitiser's tests. */
  lemma ValidateContentExamples()
    ensures ValidateContent("Normal " + "agent " + "description").Ok?
    ensures ValidateContent("<script>alert(1)</script>").Err?
  {
    var a, b, c := "Normal ", "agent ", "description";
    assert PlainText(a) && PlainText(b) && PlainText(c);
    PlainConcat(a, b);
    PlainConcat(a + b, c);
    PlainTextNotDetected(a + b + c);
    SingleLineScriptDetected();
  }
}
