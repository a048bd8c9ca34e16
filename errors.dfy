/** The error classes of the core as one tagged value: which class was
    thrown, the message it carries and its details record. */
module Errors {
  import opened Wrappers

  /** One constructor per error class. `Plain` is a bare `Error`, which the
      parser and the aggregate validation failure throw; it carries no code. */
  datatype Kind =
    | Security
    | Validation
    | FileSystem
    | AgentNotFound
    | AgentExists
    | TemplateNotFound
    | Permission
    | Plain

  /** A thrown error. Only the string-valued entries of the details record
      are kept (`field`, `name`, `path`, `agentName`, `templateId`). */
  datatype AgentQError = AgentQError(kind: Kind, message: string, details: map<string, string>) {

    /** The `code` property, fixed by the class. */
    function Code(): Option<string> {
      CodeOf(kind)
    }

    /** The `name` property, the class name. */
    function ClassName(): string {
      ClassNameOf(kind)
    }
  }

  function CodeOf(k: Kind): Option<string> {
    match k
    case Security => Some("SECURITY_ERROR")
    case Validation => Some("VALIDATION_ERROR")
    case FileSystem => Some("FILESYSTEM_ERROR")
    case AgentNotFound => Some("AGENT_NOT_FOUND")
    case AgentExists => Some("AGENT_EXISTS")
    case TemplateNotFound => Some("TEMPLATE_NOT_FOUND")
    case Permission => Some("PERMISSION_ERROR")
    case Plain => None
  }

  function ClassNameOf(k: Kind): string {
    match k
    case Security => "SecurityError"
    case Validation => "ValidationError"
    case FileSystem => "FileSystemError"
    case AgentNotFound => "AgentNotFoundError"
    case AgentExists => "AgentExistsError"
    case TemplateNotFound => "TemplateNotFoundError"
    case Permission => "PermissionError"
    case Plain => "Error"
  }

  /** Reads the class back from a code: callers may dispatch on the code alone. */
  function KindOfCode(code: string): (k: Option<Kind>)
    ensures k.Some? ==> CodeOf(k.value) == Some(code)
  {
    if code == "SECURITY_ERROR" then Some(Security)
    else if code == "VALIDATION_ERROR" then Some(Validation)
    else if code == "FILESYSTEM_ERROR" then Some(FileSystem)
    else if code == "AGENT_NOT_FOUND" then Some(AgentNotFound)
    else if code == "AGENT_EXISTS" then Some(AgentExists)
    else if code == "TEMPLATE_NOT_FOUND" then Some(TemplateNotFound)
    else if code == "PERMISSION_ERROR" then Some(Permission)
    else None
  }

  /** Every class with a code is recovered from it, so no two classes share one. */
  lemma CodeDeterminesKind(k: Kind)
    ensures CodeOf(k).Some? ==> KindOfCode(CodeOf(k).value) == Some(k)
    ensures CodeOf(k).None? <==> k == Plain
  {
  }

  function SecurityError(message: string, details: map<string, string>): (e: AgentQError)
    ensures e.Code() == Some("SECURITY_ERROR") && e.ClassName() == "SecurityError"
    ensures e.message == message && e.details == details
  {
    AgentQError(Security, message, details)
  }

  function ValidationError(message: string, details: map<string, string>): (e: AgentQError)
    ensures e.Code() == Some("VALIDATION_ERROR") && e.ClassName() == "ValidationError"
    ensures e.message == message && e.details == details
  {
    AgentQError(Validation, message, details)
  }

  function FileSystemError(message: string, details: map<string, string>): (e: AgentQError)
    ensures e.Code() == Some("FILESYSTEM_ERROR") && e.ClassName() == "FileSystemError"
    ensures e.message == message && e.details == details
  {
    AgentQError(FileSystem, message, details)
  }

  function PermissionError(message: string, details: map<string, string>): (e: AgentQError)
    ensures e.Code() == Some("PERMISSION_ERROR") && e.ClassName() == "PermissionError"
    ensures e.message == message && e.details == details
  {
    AgentQError(Permission, message, details)
  }

  function AgentNotFoundError(agentName: string): (e: AgentQError)
    ensures e.Code() == Some("AGENT_NOT_FOUND") && e.ClassName() == "AgentNotFoundError"
    ensures e.message == "Agent not found: " + agentName
    ensures e.details == map["agentName" := agentName]
  {
    AgentQError(AgentNotFound, "Agent not found: " + agentName, map["agentName" := agentName])
  }

  function AgentExistsError(agentName: string): (e: AgentQError)
    ensures e.Code() == Some("AGENT_EXISTS") && e.ClassName() == "AgentExistsError"
    ensures e.message == "Agent already exists: " + agentName
    ensures e.details == map["agentName" := agentName]
  {
    AgentQError(AgentExists, "Agent already exists: " + agentName, map["agentName" := agentName])
  }

  function TemplateNotFoundError(templateId: string): (e: AgentQError)
    ensures e.Code() == Some("TEMPLATE_NOT_FOUND") && e.ClassName() == "TemplateNotFoundError"
    ensures e.message == "Template not found: " + templateId
    ensures e.details == map["templateId" := templateId]
  {
    AgentQError(TemplateNotFound, "Template not found: " + templateId, map["templateId" := templateId])
  }

  /** A bare `new Error(message)`. */
  function PlainError(message: string): (e: AgentQError)
    ensures e.Code() == None && e.ClassName() == "Error"
    ensures e.message == message && e.details == map[]
  {
    AgentQError(Plain, message, map[])
  }

  /** The agent named in a not-found or already-exists error is recoverable
      from its message alone. */
  lemma {:induction false} DomainMessagesNameTheAgent(agentName: string)
    ensures AgentNotFoundError(agentName).message[|"Agent not found: "|..] == agentName
    ensures AgentExistsError(agentName).message[|"Agent already exists: "|..] == agentName
  {
    var p := "Agent not found: ";
    assert (p + agentName)[|p|..] == agentName;
    var q := "Agent already exists: ";
    assert (q + agentName)[|q|..] == agentName;
  }
}
