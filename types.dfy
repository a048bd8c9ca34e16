/** The records the core passes around: agent configurations, stored agents,
    validation reports, template variables and templates. */
module Types {
  import opened Wrappers

  /** Where an agent is stored. */
  datatype Scope = Project | User

  function ScopeName(s: Scope): (r: string)
    ensures ScopeOf(r) == Some(s)
  {
    match s
    case Project => "project"
    case User => "user"
  }

  /** The scope named by a string, if it names one. */
  function ScopeOf(s: string): Option<Scope> {
    if s == "project" then Some(Project)
    else if s == "user" then Some(User)
    else None
  }

  /** The closed set of model names. */
  const Models: seq<string> := ["sonnet", "opus", "haiku"]

  /** A complete agent configuration. `metadata` is carried through untouched;
      its values are kept as strings. */
  datatype AgentConfig = AgentConfig(
    name: string,
    description: string,
    personality: string,
    systemPrompt: string,
    scope: Scope,
    expertise: Option<seq<string>>,
    tools: Option<seq<string>>,
    model: Option<string>,
    metadata: Option<map<string, string>>)

  /** A configuration as callers hand it in: any field may be missing, and the
      scope is an arbitrary string until it is validated. */
  datatype PartialConfig = PartialConfig(
    name: Option<string>,
    description: Option<string>,
    personality: Option<string>,
    systemPrompt: Option<string>,
    scope: Option<string>,
    expertise: Option<seq<string>>,
    tools: Option<seq<string>>,
    model: Option<string>,
    metadata: Option<map<string, string>>)

  /** The complete configuration seen as a partial one, every field present. */
  function ToPartial(c: AgentConfig): (p: PartialConfig)
    ensures p.name == Some(c.name) && p.description == Some(c.description)
    ensures p.personality == Some(c.personality) && p.systemPrompt == Some(c.systemPrompt)
    ensures p.scope.Some? && ScopeOf(p.scope.value) == Some(c.scope)
    ensures p.expertise == c.expertise && p.tools == c.tools
    ensures p.model == c.model && p.metadata == c.metadata
  {
    PartialConfig(Some(c.name), Some(c.description), Some(c.personality), Some(c.systemPrompt),
                  Some(ScopeName(c.scope)), c.expertise, c.tools, c.model, c.metadata)
  }

  /** The fields a stored agent document yields: no personality, no scope,
      no expertise and no metadata. */
  datatype ParsedAgent = ParsedAgent(
    name: string,
    description: string,
    systemPrompt: string,
    tools: Option<seq<string>>,
    model: Option<string>)

  /** A stored agent: its configuration and the path of its file. */
  datatype Agent = Agent(config: AgentConfig, path: string)

  /** One entry of a validation report; errors and warnings share this shape. */
  datatype Issue = Issue(field: string, message: string, code: string)

  datatype ValidationResult = ValidationResult(valid: bool, errors: seq<Issue>, warnings: seq<Issue>)

  // ---------------------------------------------------------------------
  // Template variables

  /** A variable's value. Numbers are integers in this model. */
  datatype Value = Str(s: string) | Num(n: int) | Bool(b: bool)

  datatype VarType = StringType | NumberType | BooleanType

  /** A variable declaration of a template's customisation schema. */
  datatype VarDef = VarDef(
    name: string,
    description: string,
    vtype: VarType,
    default: Option<Value>,
    options: Option<seq<Value>>,
    min: Option<int>,
    max: Option<int>)

  /** A plain object from names to values, in insertion order. */
  type Record = r: seq<(string, Value)> | DistinctKeys(r) witness []

  predicate DistinctKeys(r: seq<(string, Value)>) {
    forall i, j :: 0 <= i < j < |r| ==> r[i].0 != r[j].0
  }

  function Keys(r: seq<(string, Value)>): set<string> {
    set i | 0 <= i < |r| :: r[i].0
  }

  /** `values[name]`. */
  function Lookup(r: Record, name: string): (v: Option<Value>)
    ensures v.Some? <==> name in Keys(r)
    ensures v.Some? ==> exists i :: 0 <= i < |r| && r[i] == (name, v.value)
    decreases |r|
  {
    if r == [] then None
    else if r[0].0 == name then Some(r[0].1)
    else
      var rest: Record := r[1..];
      var v := Lookup(rest, name);
      assert forall i :: 0 <= i < |rest| ==> rest[i] == r[i + 1];
      assert Keys(r) == {r[0].0} + Keys(rest) by {
        forall k | k in Keys(r) ensures k in {r[0].0} + Keys(rest) {
          var i :| 0 <= i < |r| && r[i].0 == k;
          if i > 0 { assert rest[i - 1].0 == k; }
        }
      }
      v
  }

  /** Template metadata. The homepage is never set by the core and is left out. */
  datatype TemplateMetadata = TemplateMetadata(
    id: string,
    name: string,
    description: string,
    author: string,
    category: string,
    tags: seq<string>,
    license: string,
    version: string)

  /** A template's agent: a configuration without a scope. The personality is
      optional because a template read from an agent document has none. */
  datatype TemplateAgent = TemplateAgent(
    name: string,
    description: string,
    personality: Option<string>,
    systemPrompt: string,
    expertise: Option<seq<string>>,
    tools: Option<seq<string>>,
    model: Option<string>,
    metadata: Option<map<string, string>>)

  /** A template. `variables` is the customisation's variable list, `None`
      when the template has no customisation section. */
  datatype Template = Template(
    version: string,
    metadata: TemplateMetadata,
    minVersion: string,
    platforms: seq<string>,
    agent: TemplateAgent,
    variables: Option<seq<VarDef>>)

  /** Options of a template installation. */
  datatype InstallOptions = InstallOptions(scope: Scope, variables: Option<Record>, name: Option<string>)
}
