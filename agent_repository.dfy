/** Agent persistence: one markdown document per agent, at the path the
    path validator builds from the agent's name and scope. The file system
    is a map from path to content and a set of existing directories. */
module AgentRepository {
  import opened Wrappers
  import opened Strings
  import opened Seqs
  import opened Errors
  import opened Types
  import opened PathValidator
  import opened AgentFormat

  // ---------------------------------------------------------------------
  // Reading a stored agent

  /** The configuration a stored document stands for: the parsed fields,
      the scope it was read from, and the description standing in for the
      personality, which documents do not hold. */
  function Restored(p: ParsedAgent, scope: Scope): (c: AgentConfig)
    ensures c.name == p.name && c.description == p.description && c.systemPrompt == p.systemPrompt
    ensures c.personality == p.description && c.scope == scope
    ensures c.tools == p.tools && c.model == p.model && c.expertise.None? && c.metadata.None?
  {
    AgentConfig(p.name, p.description, p.description, p.systemPrompt, scope, None, p.tools, p.model, None)
  }

  /** The read-permission check's error for a path with no file. */
  function MissingFile(path: string): (e: AgentQError)
    ensures e.kind == FileSystem
  {
    FileSystemError("File does not exist: " + path, map["path" := path])
  }

  /** Any other failure while loading, wrapped with the underlying message. */
  function LoadFailure(name: string, path: string, cause: AgentQError): (e: AgentQError)
    ensures e.kind == FileSystem && "originalError" in e.details && e.details["originalError"] == cause.message
  {
    FileSystemError("Failed to load agent: " + name, map["name" := name, "path" := path, "originalError" := cause.message])
  }

  /** `load` against a given file map: the name's path, the file there, the
      document parsed. */
  function Loaded(env: Env, files: map<string, string>, name: string, scope: Scope): (r: Result<Agent, AgentQError>)
    ensures GetAgentPath(env, name, scope).Err? ==> r == Err(GetAgentPath(env, name, scope).error)
    ensures GetAgentPath(env, name, scope).Ok? ==>
              var path := GetAgentPath(env, name, scope).value;
              (path !in files ==> r == Err(MissingFile(path))) &&
              (path in files && Parse(files[path]).Err? ==> r == Err(LoadFailure(name, path, Parse(files[path]).error))) &&
              (path in files && Parse(files[path]).Ok? ==> r == Ok(Agent(Restored(Parse(files[path]).value, scope), path)))
  {
    match GetAgentPath(env, name, scope)
    case Err(e) => Err(e)
    case Ok(path) =>
      if path !in files then Err(MissingFile(path))
      else
        match Parse(files[path])
        case Err(e) => Err(LoadFailure(name, path, e))
        case Ok(p) => Ok(Agent(Restored(p, scope), path))
  }

  // ---------------------------------------------------------------------
  // Listing

  /** A directory entry `listByScope` considers. */
  predicate IsAgentFile(entry: string) {
    EndsWith(entry, ".md")
  }

  /** `path.basename(entry, '.md')` for an entry ending in `.md`. */
  function AgentName(entry: string): (name: string)
    requires IsAgentFile(entry)
    ensures name + ".md" == entry
  {
    entry[..|entry| - 3]
  }

  /** The agents the entries load to, in order, skipping every entry that
      fails to load. */
  function LoadEach(env: Env, files: map<string, string>, scope: Scope, entries: seq<string>): seq<Agent>
    requires forall k :: 0 <= k < |entries| ==> IsAgentFile(entries[k])
    decreases |entries|
  {
    if entries == [] then []
    else
      var last := entries[|entries| - 1];
      LoadEach(env, files, scope, entries[..|entries| - 1]) +
      match Loaded(env, files, AgentName(last), scope)
      case Ok(a) => [a]
      case Err(_) => []
  }

  /** `listByScope` against a given file system, `entries` being what
      reading the base directory gives. */
  function Listed(env: Env, files: map<string, string>, dirs: set<string>, scope: Scope, entries: seq<string>): seq<Agent> {
    if BaseDir(env, scope) !in dirs then []
    else LoadEach(env, files, scope, Filter(entries, IsAgentFile))
  }

  // ---------------------------------------------------------------------
  // The repository

  class Repository {
    /** The working and home directories. */
    const env: Env
    /** The files, by path. */
    var files: map<string, string>
    /** The directories that exist. */
    var dirs: set<string>

    constructor(env: Env, files: map<string, string>, dirs: set<string>)
      ensures this.env == env && this.files == files && this.dirs == dirs
    {
      this.env := env;
      this.files := files;
      this.dirs := dirs;
    }

    /** `save`: the path is derived first, so an invalid name changes
        nothing; then the base directory is ensured and the document of the
        configuration written there. */
    method Save(config: AgentConfig) returns (r: Result<Agent, AgentQError>)
      modifies this
      ensures GetAgentPath(env, config.name, config.scope).Err? ==>
                r == Err(GetAgentPath(env, config.name, config.scope).error) &&
                files == old(files) && dirs == old(dirs)
      ensures GetAgentPath(env, config.name, config.scope).Ok? ==>
                var path := GetAgentPath(env, config.name, config.scope).value;
                r == Ok(Agent(config, path)) &&
                files == old(files)[path := Document(config)] &&
                dirs == old(dirs) + {BaseDir(env, config.scope)}
    {
      var path := GetAgentPath(env, config.name, config.scope);
      if path.Err? {
        return Err(path.error);
      }
      dirs := dirs + {BaseDir(env, config.scope)};
      var content := FormatAgentMarkdown(config);
      files := files[path.value := content];
      r := Ok(Agent(config, path.value));
    }

    /** `load`. */
    method Load(name: string, scope: Scope) returns (r: Result<Agent, AgentQError>)
      ensures r == Loaded(env, files, name, scope)
    {
      var path := GetAgentPath(env, name, scope);
      if path.Err? {
        return Err(path.error);
      }
      if path.value !in files {
        return Err(MissingFile(path.value));
      }
      var parsed := ParseAgentMarkdown(files[path.value]);
      if parsed.Err? {
        return Err(LoadFailure(name, path.value, parsed.error));
      }
      r := Ok(Agent(Restored(parsed.value, scope), path.value));
    }

    /** `delete`: an absent agent is an error and changes nothing; otherwise
        exactly its file is removed. */
    method Delete(name: string, scope: Scope) returns (r: Result<(), AgentQError>)
      modifies this
      ensures dirs == old(dirs)
      ensures GetAgentPath(env, name, scope).Err? ==>
                r == Err(GetAgentPath(env, name, scope).error) && files == old(files)
      ensures GetAgentPath(env, name, scope).Ok? ==>
                var path := GetAgentPath(env, name, scope).value;
                (path !in old(files) ==> r == Err(AgentNotFoundError(name)) && files == old(files)) &&
                (path in old(files) ==> r == Ok(()) && files == old(files) - {path})
    {
      var path := GetAgentPath(env, name, scope);
      if path.Err? {
        return Err(path.error);
      }
      if path.value !in files {
        return Err(AgentNotFoundError(name));
      }
      files := files - {path.value};
      r := Ok(());
    }

    /** `exists`: never fails; an invalid name is simply absent. */
    method Exists(name: string, scope: Scope) returns (b: bool)
      ensures b <==> GetAgentPath(env, name, scope).Ok? && GetAgentPath(env, name, scope).value in files
      ensures !IsSafeName(name) ==> !b
    {
      ValidateAgentNameAcceptsSafeNames(name);
      var path := GetAgentPath(env, name, scope);
      if path.Err? {
        return false;
      }
      b := path.value in files;
    }

    /** `listByScope`: nothing when the base directory is absent; otherwise
        the `.md` entries of the listing, each loaded by its name, those
        that fail skipped. */
    method ListByScope(scope: Scope, entries: seq<string>) returns (agents: seq<Agent>)
      ensures agents == Listed(env, files, dirs, scope, entries)
    {
      if BaseDir(env, scope) !in dirs {
        return [];
      }
      var agentFiles := Filter(entries, IsAgentFile);
      agents := [];
      for i := 0 to |agentFiles|
        invariant agents == LoadEach(env, files, scope, agentFiles[..i])
      {
        assert agentFiles[..i + 1][..i] == agentFiles[..i];
        var loaded := Load(AgentName(agentFiles[i]), scope);
        if loaded.Ok? {
          agents := agents + [loaded.value];
        }
      }
      assert agentFiles[..|agentFiles|] == agentFiles;
    }

    /** `listAll`: the project agents, then the user agents. */
    method ListAll(projectEntries: seq<string>, userEntries: seq<string>) returns (agents: seq<Agent>)
      ensures agents == Listed(env, files, dirs, Project, projectEntries) + Listed(env, files, dirs, User, userEntries)
    {
      var projectAgents := ListByScope(Project, projectEntries);
      var userAgents := ListByScope(User, userEntries);
      agents := projectAgents + userAgents;
    }
  }

  // ---------------------------------------------------------------------
  // Saving and loading together

  /** What loading gives back after saving: the configuration as its
      document preserves it, with the description as personality. */
  function Reloaded(c: AgentConfig): (r: AgentConfig)
    ensures r.name == c.name && r.description == c.description && r.personality == c.description
    ensures r.systemPrompt == Trim(c.systemPrompt) && r.scope == c.scope
  {
    Restored(Written(c), c.scope)
  }

  /** A saved agent loads back from the path it was saved to, when its
      fields fit the one-line format and its prompt is not blank. */
  lemma LoadAfterSave(env: Env, files: map<string, string>, c: AgentConfig)
    requires GetAgentPath(env, c.name, c.scope).Ok?
    requires Writable(c) && !AllSpace(c.systemPrompt)
    ensures Loaded(env, files[GetAgentPath(env, c.name, c.scope).value := Document(c)], c.name, c.scope) ==
            Ok(Agent(Reloaded(c), GetAgentPath(env, c.name, c.scope).value))
  {
    RoundTrip(c);
  }

  /** Saving one agent does not change what loading another name of the
      same scope gives. */
  lemma LoadOtherAfterSave(env: Env, files: map<string, string>, c: AgentConfig, name: string)
    requires GetAgentPath(env, c.name, c.scope).Ok? && name != c.name
    ensures Loaded(env, files[GetAgentPath(env, c.name, c.scope).value := Document(c)], name, c.scope) ==
            Loaded(env, files, name, c.scope)
  {
    var path := GetAgentPath(env, c.name, c.scope).value;
    if GetAgentPath(env, name, c.scope).Ok? && GetAgentPath(env, name, c.scope).value == path {
      AgentPathInjective(env, name, c.name, c.scope);
    }
  }

  /** A deleted agent no longer loads: its file is missing. */
  lemma LoadAfterDelete(env: Env, files: map<string, string>, name: string, scope: Scope)
    requires GetAgentPath(env, name, scope).Ok?
    ensures Loaded(env, files - {GetAgentPath(env, name, scope).value}, name, scope) ==
            Err(MissingFile(GetAgentPath(env, name, scope).value))
  {
  }

  /** Loading fails only as the name validator, or as a file-system error. */
  lemma LoadFailureKinds(env: Env, files: map<string, string>, name: string, scope: Scope)
    ensures Loaded(env, files, name, scope).Err? ==>
              Loaded(env, files, name, scope).error.kind == (if IsSafeName(name) then FileSystem else Security)
  {
    ValidateAgentNameAcceptsSafeNames(name);
  }

  // ---------------------------------------------------------------------
  // What a listing holds

  /** Listing distributes over a split listing: the entries are processed
      in order and independently. */
  lemma {:induction false} LoadEachAppend(env: Env, files: map<string, string>, scope: Scope, xs: seq<string>, ys: seq<string>)
    requires forall k :: 0 <= k < |xs| ==> IsAgentFile(xs[k])
    requires forall k :: 0 <= k < |ys| ==> IsAgentFile(ys[k])
    ensures LoadEach(env, files, scope, xs + ys) == LoadEach(env, files, scope, xs) + LoadEach(env, files, scope, ys)
    decreases |ys|
  {
    if ys != [] {
      var init := ys[..|ys| - 1];
      assert (xs + ys)[..|xs + ys| - 1] == xs + init;
      LoadEachAppend(env, files, scope, xs, init);
    } else {
      assert xs + ys == xs;
    }
  }

  /** Every listed agent is what loading one of the entries gives, and at
      most one agent is listed per entry. */
  lemma {:induction false} LoadEachLoaded(env: Env, files: map<string, string>, scope: Scope, entries: seq<string>)
    requires forall k :: 0 <= k < |entries| ==> IsAgentFile(entries[k])
    ensures |LoadEach(env, files, scope, entries)| <= |entries|
    ensures forall a :: a in LoadEach(env, files, scope, entries) ==>
              exists k :: 0 <= k < |entries| && Loaded(env, files, AgentName(entries[k]), scope) == Ok(a)
    decreases |entries|
  {
    if entries != [] {
      var init := entries[..|entries| - 1];
      LoadEachLoaded(env, files, scope, init);
      forall a | a in LoadEach(env, files, scope, entries)
        ensures exists k :: 0 <= k < |entries| && Loaded(env, files, AgentName(entries[k]), scope) == Ok(a)
      {
        if a in LoadEach(env, files, scope, init) {
          var k :| 0 <= k < |init| && Loaded(env, files, AgentName(init[k]), scope) == Ok(a);
          assert init[k] == entries[k];
        } else {
          assert Loaded(env, files, AgentName(entries[|entries| - 1]), scope) == Ok(a);
        }
      }
    }
  }

  /** A loaded agent has the scope it was loaded from and a file at its path. */
  lemma LoadedAgent(env: Env, files: map<string, string>, name: string, scope: Scope)
    requires Loaded(env, files, name, scope).Ok?
    ensures Loaded(env, files, name, scope).value.config.scope == scope
    ensures Loaded(env, files, name, scope).value.path in files
  {
  }

  /** Every listed agent comes from a `.md` entry of the listing that loads
      to it, so it has the listing's scope and a file under the base
      directory. */
  lemma ListedAreLoaded(env: Env, files: map<string, string>, dirs: set<string>, scope: Scope, entries: seq<string>)
    ensures |Listed(env, files, dirs, scope, entries)| <= |entries|
    ensures forall a :: a in Listed(env, files, dirs, scope, entries) ==>
              a.config.scope == scope && a.path in files &&
              exists e :: e in entries && IsAgentFile(e) && Loaded(env, files, AgentName(e), scope) == Ok(a)
  {
    if BaseDir(env, scope) in dirs {
      var md := Filter(entries, IsAgentFile);
      LoadEachLoaded(env, files, scope, md);
      forall a | a in Listed(env, files, dirs, scope, entries)
        ensures a.config.scope == scope && a.path in files
        ensures exists e :: e in entries && IsAgentFile(e) && Loaded(env, files, AgentName(e), scope) == Ok(a)
      {
        var k :| 0 <= k < |md| && Loaded(env, files, AgentName(md[k]), scope) == Ok(a);
        LoadedAgent(env, files, AgentName(md[k]), scope);
        assert md[k] in entries;
      }
    }
  }

  /** A listing in which every entry is a loadable agent file lists every one. */
  lemma {:induction false} LoadEachKeepsLoadable(env: Env, files: map<string, string>, scope: Scope, entries: seq<string>)
    requires forall k :: 0 <= k < |entries| ==> IsAgentFile(entries[k])
    requires forall k :: 0 <= k < |entries| ==> Loaded(env, files, AgentName(entries[k]), scope).Ok?
    ensures |LoadEach(env, files, scope, entries)| == |entries|
    decreases |entries|
  {
    if entries != [] {
      LoadEachKeepsLoadable(env, files, scope, entries[..|entries| - 1]);
    }
  }
}
