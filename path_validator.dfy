/** Agent-name validation and the construction of agent file paths. The
    working directory and the home directory are inputs; paths are strings
    joined with `/`, and the base directories are taken as already
    normalised. */
module PathValidator {
  import opened Wrappers
  import opened Strings
  import opened Errors
  import opened Types

  const MaxNameLength: nat := 50

  /** Device names Windows refuses as file names. */
  const ReservedNames: seq<string> := ["con", "prn", "aux", "nul", "com1", "lpt1"]

  /** The two directories the process environment supplies. */
  datatype Env = Env(cwd: string, home: string)

  predicate IsNameChar(c: char) {
    IsLowerAlpha(c) || IsDigit(c) || c == '-'
  }

  predicate IsNameEdge(c: char) {
    IsLowerAlpha(c) || IsDigit(c)
  }

  /** The name pattern: one lowercase letter or digit, or two of them with
      lowercase letters, digits and hyphens in between. */
  predicate MatchesNamePattern(s: string) {
    (|s| == 1 && IsNameEdge(s[0])) ||
    (|s| >= 2 && IsNameEdge(s[0]) && IsNameEdge(s[|s| - 1]) &&
     forall i :: 1 <= i < |s| - 1 ==> IsNameChar(s[i]))
  }

  predicate HasTraversal(s: string) {
    Contains(s, "..") || '/' in s || '\\' in s
  }

  function NameError(message: string): AgentQError {
    SecurityError(message, map["field" := "name"])
  }

  /** `validateAgentName`: the checks in the order the source makes them,
      the first failing one deciding the message. */
  function ValidateAgentName(name: string): (r: Result<(), AgentQError>)
    ensures r.Err? ==> r.error.kind == Security && r.error.details == map["field" := "name"]
    ensures name == "" || |name| > MaxNameLength || HasTraversal(name) ==> r.Err?
    ensures r.Ok? ==> MatchesNamePattern(name) && ToLower(name) !in ReservedNames
  {
    if name == "" then Err(NameError("Agent name is required"))
    else if |name| > MaxNameLength then Err(NameError("Agent name exceeds maximum length of 50"))
    else if HasTraversal(name) then
      Err(NameError("Agent name contains invalid characters (path traversal detected)"))
    else if !MatchesNamePattern(name) then
      Err(NameError("Agent name must be lowercase alphanumeric with hyphens (cannot start/end with hyphen)"))
    else if ToLower(name) in ReservedNames then Err(NameError("Agent name is reserved"))
    else Ok(())
  }

  /** The accepted names, stated character by character: 1 to 50 lowercase
      letters, digits and hyphens, no hyphen at either end, not reserved. */
  predicate IsSafeName(s: string) {
    1 <= |s| <= MaxNameLength &&
    (forall i :: 0 <= i < |s| ==> IsNameChar(s[i])) &&
    s[0] != '-' && s[|s| - 1] != '-' &&
    s !in ReservedNames
  }

  lemma PatternByCharacters(s: string)
    ensures MatchesNamePattern(s) <==>
            (s != [] && (forall i :: 0 <= i < |s| ==> IsNameChar(s[i])) && s[0] != '-' && s[|s| - 1] != '-')
  {
  }

  /** Names built from name characters hold no separator and no `..`. */
  lemma {:induction false} NameCharsNoTraversal(s: string)
    requires forall i :: 0 <= i < |s| ==> IsNameChar(s[i])
    ensures !HasTraversal(s)
    ensures ToLower(s) == s
  {
    forall i | 0 <= i <= |s| - 2
      ensures !OccursAt(s, "..", i)
    {
      assert s[i..i + 2][0] == s[i];
    }
    ToLowerNoUpper(s);
  }

  /** The validator accepts exactly the safe names. */
  lemma {:induction false} ValidateAgentNameAcceptsSafeNames(name: string)
    ensures ValidateAgentName(name).Ok? <==> IsSafeName(name)
  {
    PatternByCharacters(name);
    if IsSafeName(name) {
      NameCharsNoTraversal(name);
    }
    if ValidateAgentName(name).Ok? {
      NameCharsNoTraversal(name);
    }
  }

  lemma SafeNameExamples()
    ensures IsSafeName("code-reviewer") && IsSafeName("test-agent") && IsSafeName("a")
  {
  }

  lemma MoreSafeNameExamples()
    ensures IsSafeName("agent123") && IsSafeName("my-agent-v2")
  {
  }

  lemma UnsafeNameExamples()
    ensures !IsSafeName("agent name") && !IsSafeName("agent@123") && !IsSafeName("agent#test")
    ensures !IsSafeName("UPPERCASE") && !IsSafeName("../etc/passwd") && !IsSafeName("agent\\name")
    ensures !IsSafeName("con") && !IsSafeName("nul") && !IsSafeName("")
  {
    assert !IsNameChar("agent name"[5]);
    assert !IsNameChar("agent@123"[5]);
    assert !IsNameChar("agent#test"[5]);
    assert !IsNameChar("UPPERCASE"[0]);
    assert !IsNameChar("../etc/passwd"[0]);
    assert !IsNameChar("agent\\name"[5]);
  }

  /** Names the validator's tests accept. */
  lemma AcceptedNameExamples()
    ensures ValidateAgentName("code-reviewer").Ok? && ValidateAgentName("test-agent").Ok?
    ensures ValidateAgentName("a").Ok? && ValidateAgentName("agent123").Ok?
    ensures ValidateAgentName("my-agent-v2").Ok?
  {
    SafeNameExamples();
    MoreSafeNameExamples();
    ValidateAgentNameAcceptsSafeNames("code-reviewer");
    ValidateAgentNameAcceptsSafeNames("test-agent");
    ValidateAgentNameAcceptsSafeNames("a");
    ValidateAgentNameAcceptsSafeNames("agent123");
    ValidateAgentNameAcceptsSafeNames("my-agent-v2");
  }

  /** Names the validator's tests reject: a space, an `@`, a `#`, capitals, a
      traversal, a backslash, reserved names and the empty name. */
  lemma RejectedNameExamples()
    ensures ValidateAgentName("agent name").Err? && ValidateAgentName("agent@123").Err?
    ensures ValidateAgentName("agent#test").Err? && ValidateAgentName("UPPERCASE").Err?
    ensures ValidateAgentName("../etc/passwd").Err? && ValidateAgentName("agent\\name").Err?
    ensures ValidateAgentName("con").Err? && ValidateAgentName("nul").Err? && ValidateAgentName("").Err?
  {
    UnsafeNameExamples();
    ValidateAgentNameAcceptsSafeNames("agent name");
    ValidateAgentNameAcceptsSafeNames("agent@123");
    ValidateAgentNameAcceptsSafeNames("agent#test");
    ValidateAgentNameAcceptsSafeNames("UPPERCASE");
    ValidateAgentNameAcceptsSafeNames("../etc/passwd");
    ValidateAgentNameAcceptsSafeNames("agent\\name");
    ValidateAgentNameAcceptsSafeNames("con");
    ValidateAgentNameAcceptsSafeNames("nul");
    ValidateAgentNameAcceptsSafeNames("");
  }

  // ---------------------------------------------------------------------
  // Paths

  /** `path.join(dir, entry)` for a normalised directory and a plain entry. */
  function JoinPath(dir: string, entry: string): string {
    dir + "/" + entry
  }

  /** `getAgentBaseDir`: `.claude/agents` under the working directory for
      project scope, under the home directory for user scope. */
  function BaseDir(env: Env, scope: Scope): (r: string)
    ensures r == JoinPath(JoinPath(if scope == Project then env.cwd else env.home, ".claude"), "agents")
  {
    match scope
    case Project => env.cwd + "/.claude/agents"
    case User => env.home + "/.claude/agents"
  }

  /** The base directory determines the directory it was derived from, so the
      two scopes share a directory only when home is the working directory. */
  lemma {:induction false} BaseDirInjective(env: Env)
    ensures BaseDir(env, Project) == BaseDir(env, User) <==> env.cwd == env.home
  {
    var suffix := "/.claude/agents";
    if BaseDir(env, Project) == BaseDir(env, User) {
      assert |env.cwd| == |env.home|;
      assert (env.cwd + suffix)[..|env.cwd|] == env.cwd;
      assert (env.home + suffix)[..|env.home|] == env.home;
    }
  }

  /** `getAgentPath`: the name is validated first; the file is `name.md`
      directly inside the scope's base directory. */
  function GetAgentPath(env: Env, name: string, scope: Scope): (r: Result<string, AgentQError>)
    ensures r.Ok? <==> ValidateAgentName(name).Ok?
    ensures r.Err? ==> r.error == ValidateAgentName(name).error
    ensures r.Ok? ==> r.value == JoinPath(BaseDir(env, scope), name + ".md")
    ensures r.Ok? ==> StartsWith(r.value, BaseDir(env, scope) + "/")
  {
    var _ :- ValidateAgentName(name);
    var base := BaseDir(env, scope);
    var path := JoinPath(base, name + ".md");
    assert path[..|base|] == base;
    assert path[..|base + "/"|] == base + "/";
    if !StartsWith(path, base) then
      Err(SecurityError("Resolved path is outside the allowed directory", map["field" := "name"]))
    else
      Ok(path)
  }

  /** A constructed path names a file directly inside the base directory: the
      remainder after the directory has no separator and ends in `.md`. */
  lemma {:induction false} AgentPathIsDirectChild(env: Env, name: string, scope: Scope)
    requires GetAgentPath(env, name, scope).Ok?
    ensures var p := GetAgentPath(env, name, scope).value;
            var rest := p[|BaseDir(env, scope)| + 1..];
            rest == name + ".md" && '/' !in rest && '\\' !in rest && EndsWith(rest, ".md")
  {
    var base := BaseDir(env, scope);
    var p := GetAgentPath(env, name, scope).value;
    assert p[|base| + 1..] == name + ".md";
    ValidateAgentNameAcceptsSafeNames(name);
    NameCharsNoTraversal(name);
  }

  /** Distinct names give distinct paths within one scope. */
  lemma {:induction false} AgentPathInjective(env: Env, m: string, n: string, scope: Scope)
    requires GetAgentPath(env, m, scope).Ok? && GetAgentPath(env, n, scope).Ok?
    requires GetAgentPath(env, m, scope).value == GetAgentPath(env, n, scope).value
    ensures m == n
  {
    var base := BaseDir(env, scope);
    var p := GetAgentPath(env, m, scope).value;
    assert p[|base| + 1..] == m + ".md";
    assert p[|base| + 1..] == n + ".md";
    assert (m + ".md")[..|m|] == m;
    assert (n + ".md")[..|n|] == n;
  }

  /** `isPathAllowed`: the path lies under one of the two base directories. */
  predicate IsPathAllowed(env: Env, path: string) {
    StartsWith(path, BaseDir(env, Project)) || StartsWith(path, BaseDir(env, User))
  }

  /** Every path the validator constructs is an allowed path. */
  lemma AgentPathIsAllowed(env: Env, name: string, scope: Scope)
    requires GetAgentPath(env, name, scope).Ok?
    ensures IsPathAllowed(env, GetAgentPath(env, name, scope).value)
  {
    var base := BaseDir(env, scope);
    var p := GetAgentPath(env, name, scope).value;
    assert p[..|base|] == (base + "/")[..|base|];
  }
}
