/** Agent lifecycle: creation and update validate, sanitise and save;
    deletion, lookup, listing and the existence check go to the repository. */
module AgentManager {
  import opened Wrappers
  import opened Strings
  import opened Errors
  import opened Types
  import opened PathValidator
  import opened ContentSanitizer
  import opened AgentValidator
  import opened AgentFormat
  import opened AgentRepository

  // ---------------------------------------------------------------------
  // Sanitising an accepted configuration

  /** The configuration that is saved for an accepted one: description,
      personality, prompt, expertise and tools sanitised; name, scope, model
      and metadata as given. Acceptance makes every sanitiser succeed. */
  function Sanitized(c: PartialConfig): (a: AgentConfig)
    requires Acceptable(c)
    ensures Some(a.name) == c.name && ScopeOf(c.scope.value) == Some(a.scope)
    ensures a.model == c.model && a.metadata == c.metadata
    ensures SanitizeDescription(c.description.value) == Ok(a.description)
    ensures SanitizePersonality(c.personality.value) == Ok(a.personality)
    ensures SanitizeSystemPrompt(c.systemPrompt.value) == Ok(a.systemPrompt)
    ensures a.expertise == SanitizeExpertise(c.expertise) && SanitizeTools(c.tools) == Ok(a.tools)
  {
    TrimEmptyIffAllSpace(c.description.value);
    TrimEmptyIffAllSpace(c.personality.value);
    TrimEmptyIffAllSpace(c.systemPrompt.value);
    ToolsAccepted(c.tools);
    AgentConfig(c.name.value,
                SanitizeDescription(c.description.value).value,
                SanitizePersonality(c.personality.value).value,
                SanitizeSystemPrompt(c.systemPrompt.value).value,
                ScopeOf(c.scope.value).value,
                SanitizeExpertise(c.expertise),
                SanitizeTools(c.tools).value,
                c.model,
                c.metadata)
  }

  /** What is saved is clean: the texts are trimmed before their control
      characters are removed, within their length bounds and free of
      control characters; tools, if any, are valid tool names; the name is
      safe. */
  lemma SanitizedIsClean(c: PartialConfig)
    requires Acceptable(c)
    ensures var a := Sanitized(c);
            IsSafeName(a.name) &&
            a.description == StripControl(Trim(c.description.value)) &&
            |a.description| <= MaxDescriptionLength && NoControl(a.description) &&
            |a.personality| <= MaxPersonalityLength && NoControl(a.personality) &&
            |a.systemPrompt| <= MaxSystemPromptLength && NoControl(a.systemPrompt) &&
            (a.tools.Some? ==> a.tools.value != [] &&
                               forall k :: 0 <= k < |a.tools.value| ==> IsToolName(a.tools.value[k])) &&
            (a.expertise.Some? ==> |a.expertise.value| <= MaxExpertiseItems)
  {
  }

  // ---------------------------------------------------------------------
  // What creation and update save

  /** `createAgent` against a given file system: the configuration it
      saves, or the error it fails with. */
  function Created(env: Env, files: map<string, string>, config: PartialConfig): (r: Result<AgentConfig, AgentQError>)
    ensures !Acceptable(config) ==> r == Err(PlainError(FailureMessage(ExpectedErrors(config))))
    ensures Acceptable(config) ==> GetAgentPath(env, config.name.value, ScopeOf(config.scope.value).value).Ok?
    ensures r.Ok? <==>
              Acceptable(config) &&
              GetAgentPath(env, config.name.value, ScopeOf(config.scope.value).value).value !in files
    ensures r.Ok? ==> r.value == Sanitized(config)
    ensures Acceptable(config) && r.Err? ==> r.error == AgentExistsError(config.name.value)
  {
    if !Acceptable(config) then Err(PlainError(FailureMessage(ExpectedErrors(config))))
    else
      ValidateAgentNameAcceptsSafeNames(config.name.value);
      var path := GetAgentPath(env, config.name.value, ScopeOf(config.scope.value).value);
      if path.value in files then Err(AgentExistsError(config.name.value))
      else Ok(Sanitized(config))
  }

  /** The updates laid over the loaded configuration, with the name and
      scope of the call whatever the updates say. */
  function Merge(base: PartialConfig, updates: PartialConfig, name: string, scope: Scope): (m: PartialConfig)
    ensures m.name == Some(name) && m.scope == Some(ScopeName(scope))
  {
    PartialConfig(
      Some(name),
      if updates.description.Some? then updates.description else base.description,
      if updates.personality.Some? then updates.personality else base.personality,
      if updates.systemPrompt.Some? then updates.systemPrompt else base.systemPrompt,
      Some(ScopeName(scope)),
      if updates.expertise.Some? then updates.expertise else base.expertise,
      if updates.tools.Some? then updates.tools else base.tools,
      if updates.model.Some? then updates.model else base.model,
      if updates.metadata.Some? then updates.metadata else base.metadata)
  }

  /** `updateAgent` against a given file system: the configuration it
      saves, or the error it fails with. */
  function Updated(env: Env, files: map<string, string>, name: string, scope: Scope, updates: PartialConfig): (r: Result<AgentConfig, AgentQError>)
    ensures (GetAgentPath(env, name, scope).Err? || GetAgentPath(env, name, scope).value !in files) ==>
              r == Err(AgentNotFoundError(name))
    ensures r.Ok? ==> Loaded(env, files, name, scope).Ok?
    ensures r.Ok? ==> var merged := Merge(ToPartial(Loaded(env, files, name, scope).value.config), updates, name, scope);
                      Acceptable(merged) && r.value == Sanitized(merged)
    ensures r.Ok? ==> r.value.name == name && r.value.scope == scope
  {
    var path := GetAgentPath(env, name, scope);
    if path.Err? || path.value !in files then Err(AgentNotFoundError(name))
    else
      match Loaded(env, files, name, scope)
      case Err(e) => Err(e)
      case Ok(existing) =>
        var merged := Merge(ToPartial(existing.config), updates, name, scope);
        if !Acceptable(merged) then Err(PlainError(FailureMessage(ExpectedErrors(merged))))
        else
          assert ScopeOf(ScopeName(scope)) == Some(scope);
          Ok(Sanitized(merged))
  }

  // ---------------------------------------------------------------------
  // The manager

  class Manager {
    const repository: Repository

    constructor(repository: Repository)
      ensures this.repository == repository
    {
      this.repository := repository;
    }

    /** `createAgent`: validate, refuse an existing agent, sanitise, save.
        Only a successful creation changes the store. */
    method CreateAgent(config: PartialConfig) returns (r: Result<Agent, AgentQError>)
      modifies repository
      ensures var created := Created(repository.env, old(repository.files), config);
              (created.Err? ==> r == Err(created.error) &&
                                repository.files == old(repository.files) && repository.dirs == old(repository.dirs)) &&
              (created.Ok? ==>
                 var path := GetAgentPath(repository.env, created.value.name, created.value.scope).value;
                 r == Ok(Agent(created.value, path)) &&
                 repository.files == old(repository.files)[path := Document(created.value)] &&
                 repository.dirs == old(repository.dirs) + {BaseDir(repository.env, created.value.scope)})
    {
      var checked := ValidateOrThrow(config);
      if checked.Err? {
        return Err(checked.error);
      }
      var valid := checked.value;
      var found := repository.Exists(valid.name, valid.scope);
      if found {
        return Err(AgentExistsError(valid.name));
      }
      var sanitized := Sanitized(config);
      r := repository.Save(sanitized);
    }

    /** `updateAgent`: the agent must exist; the loaded configuration with
        the updates laid over it, name and scope pinned, is validated,
        sanitised and saved. Only a successful update changes the store. */
    method UpdateAgent(name: string, scope: Scope, updates: PartialConfig) returns (r: Result<Agent, AgentQError>)
      modifies repository
      ensures var updated := Updated(repository.env, old(repository.files), name, scope, updates);
              (updated.Err? ==> r == Err(updated.error) &&
                                repository.files == old(repository.files) && repository.dirs == old(repository.dirs)) &&
              (updated.Ok? ==>
                 var path := GetAgentPath(repository.env, name, scope).value;
                 r == Ok(Agent(updated.value, path)) &&
                 repository.files == old(repository.files)[path := Document(updated.value)] &&
                 repository.dirs == old(repository.dirs) + {BaseDir(repository.env, scope)})
    {
      var found := repository.Exists(name, scope);
      if !found {
        return Err(AgentNotFoundError(name));
      }
      var existing := repository.Load(name, scope);
      if existing.Err? {
        return Err(existing.error);
      }
      var merged := Merge(ToPartial(existing.value.config), updates, name, scope);
      var checked := ValidateOrThrow(merged);
      if checked.Err? {
        return Err(checked.error);
      }
      assert ScopeOf(ScopeName(scope)) == Some(scope);
      var sanitized := Sanitized(merged);
      r := repository.Save(sanitized);
    }

    /** `deleteAgent`. */
    method DeleteAgent(name: string, scope: Scope) returns (r: Result<(), AgentQError>)
      modifies repository
      ensures repository.dirs == old(repository.dirs)
      ensures GetAgentPath(repository.env, name, scope).Err? ==>
                r == Err(GetAgentPath(repository.env, name, scope).error) && repository.files == old(repository.files)
      ensures GetAgentPath(repository.env, name, scope).Ok? ==>
                var path := GetAgentPath(repository.env, name, scope).value;
                (path !in old(repository.files) ==> r == Err(AgentNotFoundError(name)) && repository.files == old(repository.files)) &&
                (path in old(repository.files) ==> r == Ok(()) && repository.files == old(repository.files) - {path})
    {
      r := repository.Delete(name, scope);
    }

    /** `getAgent`. */
    method GetAgent(name: string, scope: Scope) returns (r: Result<Agent, AgentQError>)
      ensures r == Loaded(repository.env, repository.files, name, scope)
    {
      r := repository.Load(name, scope);
    }

    /** `listAgents`: one scope's agents when a scope is given, both scopes'
        otherwise. Each scope's directory listing is supplied. */
    method ListAgents(scope: Option<Scope>, projectEntries: seq<string>, userEntries: seq<string>) returns (agents: seq<Agent>)
      ensures var project := Listed(repository.env, repository.files, repository.dirs, Project, projectEntries);
              var user := Listed(repository.env, repository.files, repository.dirs, User, userEntries);
              agents == match scope
                        case Some(Project) => project
                        case Some(User) => user
                        case None => project + user
    {
      if scope.Some? {
        var entries := if scope.value == Project then projectEntries else userEntries;
        agents := repository.ListByScope(scope.value, entries);
      } else {
        agents := repository.ListAll(projectEntries, userEntries);
      }
    }

    /** `agentExists`. */
    method AgentExists(name: string, scope: Scope) returns (b: bool)
      ensures b <==> GetAgentPath(repository.env, name, scope).Ok? &&
                     GetAgentPath(repository.env, name, scope).value in repository.files
    {
      b := repository.Exists(name, scope);
    }

    /** `validateConfig`: the validator's report. */
    method ValidateConfig(config: PartialConfig) returns (result: ValidationResult)
      ensures result.errors == ExpectedErrors(config) && result.warnings == ExpectedWarnings(config)
      ensures result.valid <==> Acceptable(config)
    {
      result := Validate(config);
      AcceptedExactly(config);
    }
  }

  // ---------------------------------------------------------------------
  // What creation and update promise

  /** Creating an agent twice: the second attempt finds the first. */
  lemma CreateTwiceFails(env: Env, files: map<string, string>, config: PartialConfig)
    requires Created(env, files, config).Ok?
    ensures var a := Created(env, files, config).value;
            var path := GetAgentPath(env, a.name, a.scope).value;
            Created(env, files[path := Document(a)], config) == Err(AgentExistsError(a.name))
  {
  }

  /** A created agent can be updated, and an update never creates: it
      needs the agent's file. */
  lemma UpdateNeedsFile(env: Env, files: map<string, string>, name: string, scope: Scope, updates: PartialConfig)
    ensures Updated(env, files, name, scope, updates).Ok? ==>
              GetAgentPath(env, name, scope).Ok? && GetAgentPath(env, name, scope).value in files
  {
  }

  /** Updates that leave a field out keep the loaded value; the loaded
      personality is the stored description, so that is what an update
      without a personality validates and saves. */
  lemma MergeKeepsLoaded(loaded: AgentConfig, updates: PartialConfig, name: string, scope: Scope)
    requires updates.description.None? && updates.personality.None?
    ensures var m := Merge(ToPartial(loaded), updates, name, scope);
            m.description == Some(loaded.description) && m.personality == Some(loaded.personality)
  {
  }

  /** An update that names another agent or scope still saves under the
      call's name and scope. */
  lemma UpdatePinsNameAndScope(env: Env, files: map<string, string>, name: string, scope: Scope,
                               updates: PartialConfig)
    requires Updated(env, files, name, scope, updates).Ok?
    ensures Updated(env, files, name, scope, updates).value.name == name
    ensures Updated(env, files, name, scope, updates).value.scope == scope
  {
  }

  /** Updating with nothing changes nothing the document keeps: the loaded
      configuration is validated and saved again, sanitised. */
  lemma EmptyUpdateKeepsLoaded(loaded: Agent, name: string, scope: Scope)
    requires loaded.config.name == name && loaded.config.scope == scope
    ensures Merge(ToPartial(loaded.config), PartialConfig(None, None, None, None, None, None, None, None, None), name, scope) ==
            ToPartial(loaded.config)
  {
  }
}
