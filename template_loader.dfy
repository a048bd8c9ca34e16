/** Local templates: a template built from an agent document and an
    optional README, the category and tags inferred from the agent, the
    search and category filters over discovered templates, and the
    installation of a template as an agent. */
module TemplateLoader {
  import opened Wrappers
  import opened Strings
  import opened Seqs
  import opened Errors
  import opened Types
  import opened AgentValidator
  import opened AgentFormat
  import opened TemplateVariables
  import opened TemplateValidator
  import opened AgentRepository
  import opened AgentManager

  // ---------------------------------------------------------------------
  // Category

  /** The category rules in the order they are tried: a name containing the
      keyword belongs to the category. */
  const CategoryRules: seq<(string, string)> := [
    ("review", "code-quality"),
    ("debug", "debugging"),
    ("test", "testing"),
    ("doc", "documentation"),
    ("architect", "architecture"),
    ("pair", "development")
  ]

  const DefaultCategory: string := "general"

  /** The first rule whose keyword the name contains. */
  function FirstRule(name: string, rules: seq<(string, string)>): (k: Option<nat>)
    ensures k.Some? ==> k.value < |rules| && Contains(name, rules[k.value].0)
    ensures k.Some? ==> forall j :: 0 <= j < k.value ==> !Contains(name, rules[j].0)
    ensures k.None? ==> forall j :: 0 <= j < |rules| ==> !Contains(name, rules[j].0)
    decreases |rules|
  {
    if rules == [] then None
    else if Contains(name, rules[0].0) then Some(0)
    else
      match FirstRule(name, rules[1..])
      case None => None
      case Some(k) => Some(k + 1)
  }

  /** `inferCategory`: the category of the first rule that applies, or the
      default. */
  function InferCategory(name: string): (c: string)
    ensures c == DefaultCategory <==> FirstRule(name, CategoryRules).None?
  {
    match FirstRule(name, CategoryRules)
    case Some(k) => CategoryRules[k].1
    case None => DefaultCategory
  }

  /** A name mentioning a review is about code quality, whatever else it mentions. */
  lemma ReviewComesFirst(name: string)
    requires Contains(name, "review")
    ensures InferCategory(name) == "code-quality"
  {
    assert CategoryRules[0].0 == "review";
  }

  /** A name mentioning debugging and testing but no review is about debugging. */
  lemma DebugBeforeTest(name: string)
    requires !Contains(name, "review") && Contains(name, "debug")
    ensures InferCategory(name) == "debugging"
  {
    assert CategoryRules[0].0 == "review" && CategoryRules[1].0 == "debug";
  }

  // ---------------------------------------------------------------------
  // Tags

  /** The keywords tags are drawn from, in the order they are tried. */
  const Keywords: seq<string> := [
    "security", "performance", "testing", "debugging", "documentation",
    "review", "code-quality", "refactoring", "architecture", "collaboration"
  ]

  /** No keyword is listed twice. */
  lemma KeywordsDistinct()
    ensures Distinct(Keywords)
  {
    forall i, j | 0 <= i < j < |Keywords|
      ensures Keywords[i] != Keywords[j]
    {
      if |Keywords[i]| == |Keywords[j]| {
        assert Keywords[i][0] != Keywords[j][0];
      }
    }
  }

  /** The text tags are looked for in: name and description, lower-cased. */
  function TagText(name: string, description: string): string {
    ToLower(name + " " + description)
  }

  /** Whether a keyword occurs in the text. */
  function MentionedIn(text: string): string -> bool {
    (keyword: string) => Contains(text, keyword)
  }

  /** The tags of a text: the keywords it contains, in keyword order. */
  function TagsOf(text: string): (tags: seq<string>)
    ensures forall k :: 0 <= k < |tags| ==> Contains(text, tags[k])
  {
    Filter(Keywords, MentionedIn(text))
  }

  /** `inferTags`: each keyword found in the text is added to a set, which
      is read back in insertion order. */
  method InferTags(name: string, description: string) returns (tags: seq<string>)
    ensures tags == TagsOf(TagText(name, description))
  {
    var text := TagText(name, description);
    KeywordsDistinct();
    tags := [];
    for i := 0 to |Keywords|
      invariant tags == Filter(Keywords[..i], MentionedIn(text))
    {
      var keyword := Keywords[i];
      assert Keywords[..i + 1] == Keywords[..i] + [keyword];
      assert Keywords[..i + 1][..i] == Keywords[..i];
      if Contains(text, keyword) {
        assert forall k :: 0 <= k < i ==> Keywords[..i][k] != keyword;
        if keyword !in tags {
          tags := tags + [keyword];
        }
      }
    }
    assert Keywords[..|Keywords|] == Keywords;
  }

  /** The tags are exactly the keywords the text contains, each once, in
      keyword order. */
  lemma TagsMeaning(text: string)
    ensures forall t :: t in TagsOf(text) <==> t in Keywords && Contains(text, t)
    ensures Distinct(TagsOf(text)) && IsSubseq(TagsOf(text), Keywords)
  {
    KeywordsDistinct();
    FilterDistinct(Keywords, MentionedIn(text));
    FilterIsSubseq(Keywords, MentionedIn(text));
    forall t | t in Keywords && Contains(text, t)
      ensures t in TagsOf(text)
    {
      FilterKeeps(Keywords, MentionedIn(text), t);
    }
  }

  // ---------------------------------------------------------------------
  // Filters over discovered templates

  /** Whether a template's name, description or one of its tags contains
      the lower-cased query, compared lower-cased. */
  predicate MatchesQuery(t: Template, lowerQuery: string) {
    Contains(ToLower(t.metadata.name), lowerQuery) ||
    Contains(ToLower(t.metadata.description), lowerQuery) ||
    exists k :: 0 <= k < |t.metadata.tags| && Contains(ToLower(t.metadata.tags[k]), lowerQuery)
  }

  function Matching(lowerQuery: string): Template -> bool {
    (t: Template) => MatchesQuery(t, lowerQuery)
  }

  /** `searchTemplates` over the discovered templates: a blank query keeps
      them all, any other keeps the matching ones. */
  function SearchTemplates(templates: seq<Template>, query: string): (r: seq<Template>)
    ensures Trim(query) == [] ==> r == templates
  {
    if Trim(query) == [] then templates
    else Filter(templates, Matching(ToLower(query)))
  }

  /** A search keeps exactly the matching templates, in their order. */
  lemma SearchMeaning(templates: seq<Template>, query: string)
    requires Trim(query) != []
    ensures forall t :: t in SearchTemplates(templates, query) <==> t in templates && MatchesQuery(t, ToLower(query))
    ensures IsSubseq(SearchTemplates(templates, query), templates)
  {
    var p := Matching(ToLower(query));
    FilterIsSubseq(templates, p);
    forall t | t in templates && MatchesQuery(t, ToLower(query))
      ensures t in SearchTemplates(templates, query)
    {
      FilterKeeps(templates, p, t);
    }
  }

  function InCategory(category: string): Template -> bool {
    (t: Template) => t.metadata.category == category
  }

  /** `getTemplatesByCategory` over the discovered templates. */
  function TemplatesByCategory(templates: seq<Template>, category: string): (r: seq<Template>)
    ensures forall k :: 0 <= k < |r| ==> r[k].metadata.category == category
  {
    Filter(templates, InCategory(category))
  }

  /** The category filter keeps exactly the templates of the category, in order. */
  lemma ByCategoryMeaning(templates: seq<Template>, category: string)
    ensures forall t :: t in TemplatesByCategory(templates, category) <==>
                        t in templates && t.metadata.category == category
    ensures IsSubseq(TemplatesByCategory(templates, category), templates)
  {
    FilterIsSubseq(templates, InCategory(category));
    forall t | t in templates && t.metadata.category == category
      ensures t in TemplatesByCategory(templates, category)
    {
      FilterKeeps(templates, InCategory(category), t);
    }
  }

  // ---------------------------------------------------------------------
  // The README description

  /** An occurrence inside a slice is an occurrence in the whole string. */
  lemma OccursInSlice(s: string, lo: nat, hi: nat, p: string, k: int)
    requires lo <= hi <= |s|
    ensures OccursAt(s[lo..hi], p, k) ==> OccursAt(s, p, lo + k)
  {
    if OccursAt(s[lo..hi], p, k) {
      var u := s[lo..hi][k..k + |p|];
      assert forall j :: 0 <= j < |p| ==> u[j] == s[lo + k + j];
      assert u == s[lo + k..lo + k + |p|];
    }
  }

  /** `readme.split('\n\n')[1]`: the text between the first blank-line
      separator and the next one, or the end. */
  function SecondParagraph(readme: string): (r: Option<string>)
    ensures r.None? <==> FindFrom(readme, "\n\n", 0).None?
    ensures r.Some? ==>
              var i := FindFrom(readme, "\n\n", 0).value;
              i + 2 + |r.value| <= |readme| && readme[i + 2..i + 2 + |r.value|] == r.value &&
              (i + 2 + |r.value| == |readme| || OccursAt(readme, "\n\n", i + 2 + |r.value|)) &&
              !Contains(r.value, "\n\n")
  {
    match FindFrom(readme, "\n\n", 0)
    case None => None
    case Some(i) =>
      var next := FindFrom(readme, "\n\n", i + 2);
      var e := if next.Some? then next.value else |readme|;
      var p := readme[i + 2..e];
      assert !Contains(p, "\n\n") by {
        forall k | 0 <= k <= |p| - 2
          ensures !OccursAt(p, "\n\n", k)
        {
          OccursInSlice(readme, i + 2, e, "\n\n", k);
        }
      }
      Some(p)
  }

  /** A character the README cleaning removes. */
  predicate NotMark(c: char) {
    c != '#' && c != '*' && c != '`'
  }

  /** Trimming keeps only characters of the text. */
  lemma TrimKeeps(s: string, P: char -> bool)
    requires forall k :: 0 <= k < |s| ==> P(s[k])
    ensures forall k :: 0 <= k < |Trim(s)| ==> P(Trim(s)[k])
  {
    StripIsSlice(s, IsSpace);
    var i := |s| - |DropStart(s, IsSpace)|;
    var r := Trim(s);
    forall k | 0 <= k < |r|
      ensures P(r[k])
    {
      assert r[k] == s[i..i + |r|][k] == s[i + k];
    }
  }

  /** `p.replace(/[#*`]/g, '').trim()`. */
  function Unmarked(p: string): (r: string)
    ensures IsTrimmed(r)
    ensures forall k :: 0 <= k < |r| ==> NotMark(r[k])
  {
    var kept := Filter(p, NotMark);
    TrimKeeps(kept, NotMark);
    Trim(kept)
  }

  /** The description a template gets: the cleaned second paragraph of the
      README when there is one and it is not empty after cleaning, the
      agent's own description otherwise. */
  function ReadmeDescription(readme: Option<string>, fallback: string): (d: string)
    ensures d == fallback || (d != [] && IsTrimmed(d) && forall k :: 0 <= k < |d| ==> NotMark(d[k]))
    ensures fallback != [] ==> d != []
  {
    var paragraph := if readme.Some? then SecondParagraph(readme.value) else None;
    var described := if paragraph.Some? && paragraph.value != [] then Unmarked(paragraph.value) else fallback;
    if described != [] then described else fallback
  }

  // ---------------------------------------------------------------------
  // Loading a template

  /** `path.basename`: the text after the last separator. */
  function Basename(path: string): (r: string)
    ensures '/' !in r
    decreases |path|
  {
    if path == [] then []
    else if path[|path| - 1] == '/' then []
    else Basename(path[..|path| - 1]) + [path[|path| - 1]]
  }

  const TemplateVersion: string := "1.0"
  const DefaultVersion: string := "1.0.0"
  const Platforms: seq<string> := ["darwin", "linux", "win32"]

  /** The template of a parsed agent document. */
  function Built(p: ParsedAgent, readme: Option<string>): (t: Template)
    ensures t.agent.personality.None? && t.agent.name == p.name && t.agent.description == p.description
    ensures t.metadata.id == "local/" + p.name && t.metadata.name == p.name
    ensures t.metadata.category == InferCategory(p.name)
    ensures t.metadata.tags == TagsOf(TagText(p.name, p.description))
    ensures t.variables == Some([])
  {
    Template(
      TemplateVersion,
      TemplateMetadata("local/" + p.name, p.name, ReadmeDescription(readme, p.description), "Agent Q",
                       InferCategory(p.name), TagsOf(TagText(p.name, p.description)), "MIT", DefaultVersion),
      DefaultVersion,
      Platforms,
      TemplateAgent(p.name, p.description, None, p.systemPrompt, None, p.tools, p.model, None),
      Some([]))
  }

  /** `loadTemplate` for a template directory whose `agent.md` and
      `README.md` contents are given, each absent when the file is missing. */
  function LoadTemplate(templatePath: string, agentFile: Option<string>, readme: Option<string>): (r: Result<Template, AgentQError>)
    ensures agentFile.None? ==> r == Err(TemplateNotFoundError(Basename(templatePath)))
    ensures agentFile.Some? && Parse(agentFile.value).Err? ==>
              r.Err? && r.error.kind == FileSystem &&
              r.error.details == map["path" := templatePath, "originalError" := Parse(agentFile.value).error.message]
    ensures agentFile.Some? && Parse(agentFile.value).Ok? ==> r == Ok(Built(Parse(agentFile.value).value, readme))
  {
    match agentFile
    case None => Err(TemplateNotFoundError(Basename(templatePath)))
    case Some(content) =>
      match Parse(content)
      case Err(e) =>
        Err(FileSystemError("Failed to load template from " + templatePath,
                            map["path" := templatePath, "originalError" := e.message]))
      case Ok(p) => Ok(Built(p, readme))
  }

  /** Every loaded template passes the template validator. */
  lemma LoadedTemplateIsValid(templatePath: string, agentFile: Option<string>, readme: Option<string>)
    requires LoadTemplate(templatePath, agentFile, readme).Ok?
    ensures TemplateErrors(AsPartial(LoadTemplate(templatePath, agentFile, readme).value)) == []
  {
    var t := LoadTemplate(templatePath, agentFile, readme).value;
    CompleteTemplatePasses(t);
  }

  // ---------------------------------------------------------------------
  // Installing a template

  /** The agent name: the option's when it is given and not empty, the
      template's otherwise. */
  function InstallName(template: Template, options: InstallOptions): string {
    if options.name.Some? && options.name.value != [] then options.name.value else template.agent.name
  }

  /** Whether substitution runs: both the supplied values and the
      template's variable list are present, empty or not. */
  predicate Substitutes(template: Template, options: InstallOptions) {
    options.variables.Some? && template.variables.Some?
  }

  /** The configuration `installTemplate` passes on as written: the
      template's agent as it is, without a personality when the template
      has none, values substituted through `replaceAll`. */
  function InstallConfigAsWritten(template: Template, options: InstallOptions): (c: PartialConfig)
    ensures c.personality == template.agent.personality
  {
    var prompt := if Substitutes(template, options) then ApplyAsWritten(template.agent.systemPrompt, options.variables.value)
                  else template.agent.systemPrompt;
    PartialConfig(Some(InstallName(template, options)), Some(template.agent.description), template.agent.personality,
                  Some(prompt), Some(ScopeName(options.scope)), template.agent.expertise, template.agent.tools,
                  template.agent.model, template.agent.metadata)
  }

  /** A template without a personality, as every loaded template is,
      cannot be installed as written: validation always reports the
      missing personality. */
  lemma InstallAsWrittenRefused(env: PathValidator.Env, files: map<string, string>, template: Template, options: InstallOptions)
    requires template.agent.personality.None?
    ensures Required("personality", "Personality is required") in ExpectedErrors(InstallConfigAsWritten(template, options))
    ensures Created(env, files, InstallConfigAsWritten(template, options)).Err?
  {
    var c := InstallConfigAsWritten(template, options);
    CollectMembers(NameIssue(c.name), DescriptionIssue(c.description), PersonalityIssue(c.personality),
                   SystemPromptIssue(c.systemPrompt), ScopeIssue(c.scope), ModelIssue(c.model), ToolsIssue(c.tools),
                   Required("personality", "Personality is required"));
  }

  /** No template `loadTemplate` builds can be installed as written. */
  lemma LoadedTemplateNotInstallableAsWritten(env: PathValidator.Env, files: map<string, string>, templatePath: string,
                                              agentFile: Option<string>, readme: Option<string>, options: InstallOptions)
    requires LoadTemplate(templatePath, agentFile, readme).Ok?
    ensures Created(env, files, InstallConfigAsWritten(LoadTemplate(templatePath, agentFile, readme).value, options)).Err?
  {
    InstallAsWrittenRefused(env, files, LoadTemplate(templatePath, agentFile, readme).value, options);
  }

  /** The configuration installed: the template's agent under the chosen
      name and the option's scope, values substituted literally, and the
      description standing in for a missing personality, as loading a
      stored agent does. */
  function InstallConfig(template: Template, options: InstallOptions): (c: PartialConfig)
    ensures c.name == Some(InstallName(template, options)) && c.scope == Some(ScopeName(options.scope))
    ensures c.personality.Some?
  {
    var prompt := if Substitutes(template, options) then Apply(template.agent.systemPrompt, options.variables.value)
                  else template.agent.systemPrompt;
    var personality := if template.agent.personality.Some? then template.agent.personality
                       else Some(template.agent.description);
    PartialConfig(Some(InstallName(template, options)), Some(template.agent.description), personality,
                  Some(prompt), Some(ScopeName(options.scope)), template.agent.expertise, template.agent.tools,
                  template.agent.model, template.agent.metadata)
  }

  /** With the description as personality, the personality check passes
      exactly when the description is not blank and fits the personality
      bound. */
  lemma InstallBackfillsPersonality(template: Template, options: InstallOptions)
    requires template.agent.personality.None?
    ensures InstallConfig(template, options).personality == Some(template.agent.description)
    ensures PersonalityIssue(InstallConfig(template, options).personality).None? <==>
            !AllSpace(template.agent.description) &&
            |Trim(template.agent.description)| <= ContentSanitizer.MaxPersonalityLength
  {
    PersonalityAccepted(InstallConfig(template, options).personality);
  }

  /** A placeholder in brace-free prompt text is replaced by the supplied value. */
  lemma InstallSubstitutes(template: Template, options: InstallOptions, a: string, key: string, b: string, v: Value)
    requires template.variables.Some? && options.variables == Some([(key, v)])
    requires template.agent.systemPrompt == a + Placeholder(key) + b && '{' !in a && '{' !in b
    ensures InstallConfig(template, options).systemPrompt == Some(a + Render(v) + b)
  {
    SubstitutesOneVariable(a, key, v, b);
  }

  /** Installation goes through the agent manager. */
  class Loader {
    const manager: Manager

    constructor(manager: Manager)
      ensures this.manager == manager
    {
      this.manager := manager;
    }

    /** `installTemplate`: build the configuration, substitute the values
        into the prompt one entry at a time, and create the agent. */
    method InstallTemplate(template: Template, options: InstallOptions) returns (r: Result<Agent, AgentQError>)
      modifies manager.repository
      ensures var created := Created(manager.repository.env, old(manager.repository.files), InstallConfig(template, options));
              (created.Err? ==> r == Err(created.error) &&
                                manager.repository.files == old(manager.repository.files) &&
                                manager.repository.dirs == old(manager.repository.dirs)) &&
              (created.Ok? ==>
                 var path := PathValidator.GetAgentPath(manager.repository.env, created.value.name, created.value.scope).value;
                 r == Ok(Agent(created.value, path)) &&
                 manager.repository.files == old(manager.repository.files)[path := Document(created.value)] &&
                 manager.repository.dirs == old(manager.repository.dirs) + {PathValidator.BaseDir(manager.repository.env, created.value.scope)})
    {
      var config := InstallConfig(template, options);
      if Substitutes(template, options) {
        var prompt := ApplyTemplateVariables(template.agent.systemPrompt, options.variables.value);
        config := config.(systemPrompt := Some(prompt));
      }
      assert config == InstallConfig(template, options);
      r := manager.CreateAgent(config);
    }
  }
}
