# Agent Q core, modelled in Dafny

Agent Q manages Claude sub-agent definitions. Each agent is a markdown file with a front-matter block, stored in `.claude/agents` under the project directory or the user's home directory. This project models the core of its `packages/core` library:

- the error classes, as one tagged `AgentQError` datatype with a kind, a message and string details (`errors.dfy`);
- agent-name and path safety (`path_validator.dfy`);
- content sanitisation (`content_sanitizer.dfy`) and the six injection patterns, each written as a predicate on the lower-cased text (`injection.dfy`);
- the record validator, which accumulates at most one error per field in field order, plus warnings, and its throwing variant (`agent_validator.dfy`);
- the front-matter formatter and parser, with their round trip, and the quick `validateAgentConfig` check (`agent_format.dfy`);
- the template engine: `{{ key }}` substitution, the variable-schema checks and default extraction (`template_variables.dfy`), and the structural template validator (`template_validator.dfy`);
- the repository, a class whose store is a map from path to file content plus a set of existing directories (`agent_repository.dfy`);
- the agent manager, a class that validates, sanitises and drives the repository (`agent_manager.dfy`);
- the local template loader: category and tag inference, search and category filters, template construction from an agent document and a README, and installation through the manager (`template_loader.dfy`).

Shared pieces:

- `wrappers.dfy`: `Option` and `Result`.
- `strings.dfy`: trimming over the ECMAScript whitespace set, ASCII lower-casing, substring search, split and join, integer rendering, and the literal `replaceAll`.
- `seqs.dfy`: an order-preserving `Filter` with its lemmas.
- `types.dfy`: the records of `types/index.ts`.

Throwing functions return a `Result`. Asynchronous file access is replaced by the repository's map. A directory listing that the source reads with `readdir` is passed in as a sequence of entry names.

Where a function loops or mutates in the source, the model keeps the loop in a method and proves it against a specification function. Examples are the validator's error pushes, the front-matter line loop, variable substitution, schema checking, default extraction, tag inference and the repository listing. Lemmas then state what the source promises about that function.

## Model

| member | source | states |
|---|---|---|
| `Errors.SecurityError` | packages/core/src/errors/index.ts:23-29 | code `SECURITY_ERROR`, class name `SecurityError`, message and details kept as given |
| `Errors.ValidationError` | packages/core/src/errors/index.ts:34-40 | code `VALIDATION_ERROR`, class name `ValidationError`, message and details kept |
| `Errors.FileSystemError` | packages/core/src/errors/index.ts:45-51 | code `FILESYSTEM_ERROR`, class name `FileSystemError`, message and details kept |
| `Errors.PermissionError` | packages/core/src/errors/index.ts:89-95 | code `PERMISSION_ERROR`, class name `PermissionError`, message and details kept |
| `Errors.AgentNotFoundError` | packages/core/src/errors/index.ts:56-62 | code `AGENT_NOT_FOUND`, message `Agent not found: ` + name, details exactly `{agentName}` |
| `Errors.AgentExistsError` | packages/core/src/errors/index.ts:67-73 | code `AGENT_EXISTS`, message `Agent already exists: ` + name, details exactly `{agentName}` |
| `Errors.TemplateNotFoundError` | packages/core/src/errors/index.ts:78-84 | code `TEMPLATE_NOT_FOUND`, message `Template not found: ` + id, details exactly `{templateId}` |
| `Errors.PlainError` | packages/core/src/agent/AgentValidator.ts:185-188 | the plain `Error` thrown by `validateOrThrow` has no code, class name `Error`, no details |
| `Errors.KindOfCode` | packages/core/src/errors/index.ts:8-17 | a code read back gives a kind that carries that code |
| `Errors.CodeDeterminesKind` | packages/core/src/errors/index.ts:8-95 | each error class has its own code, so the code identifies the class; only the plain error has none |
| `Errors.DomainMessagesNameTheAgent` | packages/core/src/errors/index.ts:56-73 | the not-found and already-exists messages end with exactly the agent name |
| `Types.ScopeName` | packages/core/src/types/index.ts:8 | the scope's name parses back to the same scope |
| `Types.Lookup` | packages/core/src/template/Template.ts:34 | a value is found exactly for the keys of the record, and it is the value stored under that key |
| `PathValidator.ValidateAgentName` | packages/core/src/security/PathValidator.ts:20-56 | every failure is a `SecurityError` on field `name`; an empty name, one over 50 characters, or one containing `..`, `/` or `\` fails; success implies the name pattern holds and the name is not reserved |
| `PathValidator.ValidateAgentNameAcceptsSafeNames` | packages/core/src/security/PathValidator.ts:20-56 | a name is accepted if and only if it has 1 to 50 characters from `a-z0-9-`, does not start or end with `-`, and is not a reserved device name |
| `PathValidator.PatternByCharacters` | packages/core/src/security/PathValidator.ts:14 | the name regex holds exactly for non-empty strings of `a-z0-9-` that neither start nor end with `-` |
| `PathValidator.NameCharsNoTraversal` | packages/core/src/security/PathValidator.ts:25-46 | a string of name characters has no traversal sequence and is its own lower-case form, so the traversal and reserved checks need no case folding |
| `PathValidator.AcceptedNameExamples` | packages/core/src/security/PathValidator.test.ts:18-24 | `code-reviewer`, `test-agent`, `a`, `agent123` and `my-agent-v2` are accepted |
| `PathValidator.RejectedNameExamples` | packages/core/src/security/PathValidator.test.ts:26-64 | traversal, slash, invalid-character, upper-case, reserved and empty names are rejected |
| `PathValidator.SafeNameExamples` | packages/core/src/security/PathValidator.test.ts:18-24 | the accepted test names satisfy the safe-name characterisation |
| `PathValidator.MoreSafeNameExamples` | packages/core/src/security/PathValidator.test.ts:18-24 | `agent123` and `my-agent-v2` satisfy the safe-name characterisation |
| `PathValidator.UnsafeNameExamples` | packages/core/src/security/PathValidator.test.ts:26-64 | the rejected test names fail the safe-name characterisation |
| `PathValidator.BaseDir` | packages/core/src/security/PathValidator.ts:61-67 | project scope maps to `cwd/.claude/agents`, user scope to `home/.claude/agents` |
| `PathValidator.BaseDirInjective` | packages/core/src/security/PathValidator.ts:61-67 | the two base directories coincide exactly when the working directory is the home directory |
| `PathValidator.GetAgentPath` | packages/core/src/security/PathValidator.ts:72-91 | the name is validated first and its error is returned unchanged; otherwise the path is `baseDir/name.md` and starts with `baseDir/` |
| `PathValidator.AgentPathIsDirectChild` | packages/core/src/security/PathValidator.ts:75-90 | below the base directory the path is exactly `name.md`, with no separator, so it cannot escape |
| `PathValidator.AgentPathInjective` | packages/core/src/security/PathValidator.ts:72-91 | different names in one scope never share a path |
| `PathValidator.AgentPathIsAllowed` | packages/core/src/security/PathValidator.ts:96-111 | every path `getAgentPath` builds passes `isPathAllowed` |
| `ContentSanitizer.StripControl` | packages/core/src/security/ContentSanitizer.ts:41 | the control-character removal never lengthens the text and leaves no stripped character |
| `ContentSanitizer.StripControlByCharacters` | packages/core/src/security/ContentSanitizer.ts:41 | removal works character by character: it distributes over concatenation and drops exactly the stripped characters |
| `ContentSanitizer.StripControlKeepsText` | packages/core/src/security/ContentSanitizer.ts:41 | the result is a subsequence of the input that keeps every other character, tab, line feed and carriage return included; clean text is unchanged |
| `ContentSanitizer.SanitizeText` | packages/core/src/security/ContentSanitizer.ts:18-44 | succeeds if and only if the trimmed text is non-empty and within the bound; the value is the trimmed text with control characters removed; failures are `ValidationError`s on the field |
| `ContentSanitizer.SanitizeTextFailures` | packages/core/src/security/ContentSanitizer.ts:19-38 | an empty text draws `… is required`, a blank one `… cannot be empty`, an over-long one `… exceeds maximum length of N` |
| `ContentSanitizer.SanitizeDescription` | packages/core/src/security/ContentSanitizer.ts:18-44 | as `SanitizeText` with bound 200 and field `description` |
| `ContentSanitizer.SanitizePersonality` | packages/core/src/security/ContentSanitizer.ts:49-74 | as `SanitizeText` with bound 500 and field `personality` |
| `ContentSanitizer.SanitizeSystemPrompt` | packages/core/src/security/ContentSanitizer.ts:79-105 | as `SanitizeText` with bound 50000 and field `systemPrompt` |
| `ContentSanitizer.CleanTextUnchanged` | packages/core/src/security/ContentSanitizer.ts:18-44 | a trimmed, control-free, non-empty text within the bound is returned unchanged |
| `ContentSanitizer.PaddingIgnored` | packages/core/src/security/ContentSanitizer.ts:18-44 | whitespace around a non-blank text does not change the outcome |
| `ContentSanitizer.SanitizeTextIdempotent` | packages/core/src/security/ContentSanitizer.ts:18-44 | sanitising a sanitised, still trimmed and non-empty value gives it back |
| `ContentSanitizer.ControlOnlyBecomesEmpty` | packages/core/src/security/ContentSanitizer.ts:18-44 | a text of non-whitespace control characters passes the checks and comes out empty |
| `ContentSanitizer.ControlOnlyDescriptionBecomesEmpty` | packages/core/src/security/ContentSanitizer.ts:18-44 | the description `\x01` is accepted as the empty string |
| `ContentSanitizer.BlankRefused` | packages/core/src/security/ContentSanitizer.ts:19-28 | a blank text is refused |
| `ContentSanitizer.TooLongRefused` | packages/core/src/security/ContentSanitizer.ts:30-38 | a trimmed text longer than the bound is refused |
| `ContentSanitizer.DescriptionKept` | packages/core/src/security/ContentSanitizer.test.ts:16-19 | a clean description comes back unchanged |
| `ContentSanitizer.DescriptionTrimmed` | packages/core/src/security/ContentSanitizer.test.ts:21-24 | surrounding spaces are trimmed |
| `ContentSanitizer.DescriptionRefused` | packages/core/src/security/ContentSanitizer.test.ts:26-34 | empty, blank and 201-character descriptions are refused |
| `ContentSanitizer.ControlCharactersRemoved` | packages/core/src/security/ContentSanitizer.test.ts:36-41 | no accepted description contains NUL or `\x01` |
| `ContentSanitizer.PromptKeepsLineBreaks` | packages/core/src/security/ContentSanitizer.test.ts:45-62 | prompts with line breaks and blank lines come back unchanged |
| `ContentSanitizer.PromptRefused` | packages/core/src/security/ContentSanitizer.test.ts:50-57 | the empty prompt and a 50001-character prompt are refused |
| `ContentSanitizer.SanitizeExpertise` | packages/core/src/security/ContentSanitizer.ts:110-123 | absent stays absent; otherwise at most 20 items, each non-empty, of at most 50 characters and not starting with a space |
| `ContentSanitizer.ExpertiseMeaning` | packages/core/src/security/ContentSanitizer.ts:110-123 | the kept items are the non-blank items, all of them and in order; the first 20 come out, item `k` as its trimmed text cut to its first 50 characters |
| `ContentSanitizer.CleanExpertiseUnchanged` | packages/core/src/security/ContentSanitizer.ts:110-123 | at most 20 clean items come back unchanged |
| `ContentSanitizer.BlankItemsIgnored` | packages/core/src/security/ContentSanitizer.ts:119-120 | a blank item anywhere is dropped without other effect |
| `ContentSanitizer.EmptyExpertiseKept` | packages/core/src/security/ContentSanitizer.ts:110-123 | an empty list stays an empty list |
| `ContentSanitizer.SanitizeTools` | packages/core/src/security/ContentSanitizer.ts:128-155 | fails only for a non-empty list with no valid name, with `No valid tools provided`; otherwise keeps the valid names trimmed and in order, or gives none |
| `ContentSanitizer.SanitizeToolsValue` | packages/core/src/security/ContentSanitizer.ts:140-155 | when some name is valid the result is the valid names, trimmed, in order |
| `ContentSanitizer.SanitizeToolsKeepsValid` | packages/core/src/security/ContentSanitizer.ts:148-153 | the call fails if and only if the list is non-empty and no entry is valid |
| `ContentSanitizer.NoToolsGiveNone` | packages/core/src/security/ContentSanitizer.ts:128-155 | no list and the empty list both give no tools |
| `ContentSanitizer.CleanToolsUnchanged` | packages/core/src/security/ContentSanitizer.test.ts:66-70 | a non-empty list of valid tool names comes back unchanged |
| `ContentSanitizer.ToolFilterExample` | packages/core/src/security/ContentSanitizer.test.ts:72-76 | `Read, invalid tool, Write, 123invalid` gives `Read, Write` |
| `ContentSanitizer.NoValidToolRefused` | packages/core/src/security/ContentSanitizer.ts:148-153 | a non-empty list of invalid names is refused |
| `ContentSanitizer.ThreeInvalidRefused` | packages/core/src/security/ContentSanitizer.ts:148-153 | any three invalid names are refused |
| `ContentSanitizer.NoValidToolExample` | packages/core/src/security/ContentSanitizer.test.ts:83-87 | `123invalid, @bad, !tool` is refused |
| `ContentSanitizer.ValidateContent` | packages/core/src/security/ContentSanitizer.ts:178-184 | fails, with a `ValidationError` on field `content`, if and only if an injection pattern is detected |
| `ContentSanitizer.ValidateContentExamples` | packages/core/src/security/ContentSanitizer.test.ts:112-121 | ordinary prose passes and a script element fails |
| `Injection.DetectIgnoresCase` | packages/core/src/security/ContentSanitizer.ts:163-172 | detection gives the same answer for a text and its lower-case form |
| `Injection.DetectInContext` | packages/core/src/security/ContentSanitizer.ts:161-173 | a detected text stays detected inside any surrounding text |
| `Injection.PlainTextNotDetected` | packages/core/src/security/ContentSanitizer.ts:161-173 | a text without `<`, `:`, `=`, `(` and `f` matches none of the six patterns |
| `Injection.ScriptElementDetected` | packages/core/src/security/ContentSanitizer.ts:164 | a single-line `<script>…</script>` is detected |
| `Injection.HandlerDetected` | packages/core/src/security/ContentSanitizer.ts:166 | `on` + word + `='…'` with an unquoted value is detected |
| `Injection.ScriptExampleDetected` | packages/core/src/security/ContentSanitizer.test.ts:91-94 | `<script>alert("xss")</script>` is detected |
| `Injection.ProtocolExampleDetected` | packages/core/src/security/ContentSanitizer.test.ts:96-99 | `javascript:alert(1)` is detected |
| `Injection.EvalExampleDetected` | packages/core/src/security/ContentSanitizer.test.ts:101-104 | `eval(userInput)` is detected |
| `Injection.HandlerExampleDetected` | packages/core/src/security/ContentSanitizer.ts:166 | an `img` tag with an `onerror` handler is detected |
| `Injection.PlainProseNotDetected` | packages/core/src/security/ContentSanitizer.test.ts:106-109 | the normal description of the test is not detected |
| `Injection.MultiLineScriptNotDetected` | packages/core/src/security/ContentSanitizer.ts:164 | a script element split over lines is not detected, since `.` does not cross a line break |
| `Injection.SingleLineScriptDetected` | packages/core/src/security/ContentSanitizer.ts:164 | the same element on one line is detected |
| `AgentValidator.NameIssue` | packages/core/src/agent/AgentValidator.ts:29-45 | any error is on `name`, and it is `REQUIRED` exactly when the name is missing or empty |
| `AgentValidator.DescriptionIssue` | packages/core/src/agent/AgentValidator.ts:48-64 | any error is on `description`, `REQUIRED` exactly when it is missing or empty |
| `AgentValidator.PersonalityIssue` | packages/core/src/agent/AgentValidator.ts:67-83 | any error is on `personality`, `REQUIRED` exactly when it is missing or empty |
| `AgentValidator.SystemPromptIssue` | packages/core/src/agent/AgentValidator.ts:86-103 | no error implies the prompt sanitises; any error is on `systemPrompt`, `REQUIRED` exactly when it is missing or empty |
| `AgentValidator.ScopeIssue` | packages/core/src/agent/AgentValidator.ts:106-118 | no error exactly when the scope is `project` or `user` |
| `AgentValidator.ModelIssue` | packages/core/src/agent/AgentValidator.ts:121-127 | no error exactly when the model is absent or one of `sonnet`, `opus`, `haiku` |
| `AgentValidator.ToolsIssue` | packages/core/src/agent/AgentValidator.ts:130-140 | the only tools error is `No valid tools provided` |
| `AgentValidator.NameAccepted` | packages/core/src/agent/AgentValidator.ts:29-45 | the name passes if and only if it is a safe name |
| `AgentValidator.DescriptionAccepted` | packages/core/src/agent/AgentValidator.ts:48-64 | the description passes if and only if it is not blank and its trimmed form has at most 200 characters |
| `AgentValidator.PersonalityAccepted` | packages/core/src/agent/AgentValidator.ts:67-83 | the personality passes if and only if it is not blank and its trimmed form has at most 500 characters |
| `AgentValidator.SystemPromptAccepted` | packages/core/src/agent/AgentValidator.ts:86-103 | the prompt passes if and only if it is not blank, within 50000 characters trimmed, and free of injection patterns |
| `AgentValidator.ToolsAccepted` | packages/core/src/agent/AgentValidator.ts:130-140 | the tools pass if and only if there are none, the list is empty, or some entry is valid |
| `AgentValidator.PushNameIssue` | packages/core/src/agent/AgentValidator.ts:29-45 | the name block appends exactly the name's error, if any |
| `AgentValidator.PushDescriptionIssue` | packages/core/src/agent/AgentValidator.ts:48-64 | the description block appends exactly its error, if any |
| `AgentValidator.PushPersonalityIssue` | packages/core/src/agent/AgentValidator.ts:67-83 | the personality block appends exactly its error, if any |
| `AgentValidator.PushSystemPromptIssue` | packages/core/src/agent/AgentValidator.ts:86-103 | the system-prompt block appends exactly its error, if any |
| `AgentValidator.PushScopeIssue` | packages/core/src/agent/AgentValidator.ts:106-118 | the scope block appends exactly its error, if any |
| `AgentValidator.PushModelIssue` | packages/core/src/agent/AgentValidator.ts:121-127 | the model block appends exactly its error, if any |
| `AgentValidator.PushToolsIssue` | packages/core/src/agent/AgentValidator.ts:130-140 | the tools block appends exactly its error, if any |
| `AgentValidator.PushWarnings` | packages/core/src/agent/AgentValidator.ts:155-170 | appends the short-prompt warning, then the empty-tools warning, each when it applies |
| `AgentValidator.Validate` | packages/core/src/agent/AgentValidator.ts:24-177 | the errors are the field errors in field order, the warnings are the expected warnings, and the result is valid exactly when there is no error |
| `AgentValidator.AcceptedExactly` | packages/core/src/agent/AgentValidator.ts:24-177 | there is no error if and only if every field passes its own check |
| `AgentValidator.ErrorsInFieldOrder` | packages/core/src/agent/AgentValidator.ts:29-153 | errors follow the field order and no field has two |
| `AgentValidator.RequiredExactlyWhenMissing` | packages/core/src/agent/AgentValidator.ts:30-111 | each `REQUIRED` error appears if and only if its field is missing or empty |
| `AgentValidator.WarningsMeaning` | packages/core/src/agent/AgentValidator.ts:155-170 | the short-prompt warning appears exactly for a non-empty raw prompt under 50 characters, the empty-tools one exactly for an empty tools list |
| `AgentValidator.MissingFieldsExample` | packages/core/src/agent/AgentValidator.test.ts:34-46 | a configuration with only a name draws the four `REQUIRED` errors, in order |
| `AgentValidator.FailureMessageListsErrors` | packages/core/src/agent/AgentValidator.ts:185-187 | the message starts with `Agent validation failed: ` and contains each `field: message` pair |
| `AgentValidator.Completed` | packages/core/src/agent/AgentValidator.ts:182-189 | an accepted partial configuration is a complete configuration with the same fields |
| `AgentValidator.ValidateOrThrow` | packages/core/src/agent/AgentValidator.ts:182-189 | succeeds exactly for accepted configurations, returning them complete; otherwise fails with the joined message |
| `AgentValidator.RawCheckMissesHiddenCall` | packages/core/src/agent/AgentValidator.ts:86-103 | a prompt with a NUL inside `eval` passes the check, yet sanitises to `eval(1)` |
| `AgentValidator.CheckedSystemPromptIssue` | packages/core/src/agent/AgentValidator.ts:86-103 | the prompt passes if and only if it passes the source's check and its sanitised form is free of injection patterns |
| `AgentValidator.CheckedPromptIsSafeToStore` | packages/core/src/agent/AgentManager.ts:39-52 | a prompt passing the checked version is stored free of injection patterns |
| `AgentFormat.FormatAgentMarkdown` | packages/core/src/agent/Agent.ts:10-38 | the text is the document: delimiter, name, description, tools if any, model if any, delimiter, blank line, prompt, final newline |
| `AgentFormat.DocumentShape` | packages/core/src/agent/Agent.ts:20-37 | the document is `---\n`, the field lines joined by newlines, `\n---\n\n`, the prompt and a newline |
| `AgentFormat.Sections` | packages/core/src/agent/Agent.ts:45-50 | a split exists exactly when the text starts with `---\n` and later contains `\n---\n\n`; the text is rebuilt from the two parts |
| `AgentFormat.SectionsOfDocument` | packages/core/src/agent/Agent.ts:45-50 | a written document splits into its field lines and its prompt |
| `AgentFormat.ApplyLine` | packages/core/src/agent/Agent.ts:64-83 | one front-matter line keeps every assigned field trimmed |
| `AgentFormat.LineWithoutColon` | packages/core/src/agent/Agent.ts:65-66 | a line without a colon changes nothing |
| `AgentFormat.LineAssigns` | packages/core/src/agent/Agent.ts:65-70 | a line is split at its first colon, and key and value are trimmed, so the value may contain colons |
| `AgentFormat.ReadLines` | packages/core/src/agent/Agent.ts:64-83 | reading lines keeps every assigned field trimmed |
| `AgentFormat.ReadLinesAppend` | packages/core/src/agent/Agent.ts:64-83 | lines are read one after the other, so reading two runs is reading their concatenation |
| `AgentFormat.ReadFrontMatter` | packages/core/src/agent/Agent.ts:62-84 | the line loop computes the fields of the specification function |
| `AgentFormat.ToolsRead` | packages/core/src/agent/Agent.ts:77-79 | tool names joined by `, ` are split on commas and trimmed back |
| `AgentFormat.Finish` | packages/core/src/agent/Agent.ts:86-91 | succeeds exactly when name, description and the trimmed prompt are non-empty |
| `AgentFormat.Parse` | packages/core/src/agent/Agent.ts:43-92 | text without front matter fails with the front-matter message; a parsed name is non-empty and trimmed |
| `AgentFormat.ParseAgentMarkdown` | packages/core/src/agent/Agent.ts:43-92 | the parser method computes the specification function |
| `AgentFormat.ParseOfSections` | packages/core/src/agent/Agent.ts:51-55 | an empty front matter or body fails with the missing-content message |
| `AgentFormat.RoundTrip` | packages/core/src/agent/Agent.ts:10-92 | parsing a written document gives back name, description, tools, model and the trimmed prompt, or fails exactly when the prompt is blank |
| `AgentFormat.ParseRefusesPlainText` | packages/core/src/agent/Agent.test.ts:70-73 | `No frontmatter here` fails |
| `AgentFormat.ParseRefusesMissingDescription` | packages/core/src/agent/Agent.test.ts:75-83 | a document without a description fails with the missing-fields message |
| `AgentFormat.ValidatedConfigsPass` | packages/core/src/agent/Agent.ts:97-127 | whatever the full validator accepts also passes the quick check |
| `AgentFormat.CompleteConfigPasses` | packages/core/src/agent/Agent.ts:97-127 | a complete configuration passes the quick check if and only if its four texts are non-empty and any model is one of the three |
| `AgentFormat.QuickCheckLooserThanValidator` | packages/core/src/agent/Agent.ts:97-127 | the quick check accepts a name, `Test Agent`, that the full validator refuses |
| `AgentFormat.ValidateAgentConfigExamples` | packages/core/src/agent/Agent.test.ts:85-135 | the test configurations are accepted or refused as the tests expect |
| `TemplateVariables.Placeholder` | packages/core/src/template/Template.ts:17 | the placeholder is `{{ key }}`, six characters longer than the key and starting with a brace |
| `TemplateVariables.ApplyTemplateVariables` | packages/core/src/template/Template.ts:10-22 | the loop substitutes each entry in order, inserting values literally |
| `TemplateVariables.ApplyWithoutPlaceholders` | packages/core/src/template/Template.ts:14-21 | text with no placeholder of any supplied key is unchanged, including for no entries |
| `TemplateVariables.SubstitutesOneVariable` | packages/core/src/template/Template.test.ts:14-19 | a placeholder in brace-free text is replaced by the rendered value |
| `TemplateVariables.RenderExamples` | packages/core/src/template/Template.test.ts:28-40 | numbers and booleans render as `100` and `true` |
| `TemplateVariables.DollarAmpersandKeepsPlaceholder` | packages/core/src/template/Template.ts:18 | with `replaceAll` as written, the value `$&` puts the placeholder back; the literal substitution gives `$&` |
| `TemplateVariables.AsWrittenAgreesWithoutDollar` | packages/core/src/template/Template.ts:18 | for values without `$` the code as written and the literal substitution agree |
| `TemplateVariables.RangeErrors` | packages/core/src/template/Template.ts:53-60 | no range error exactly when the number is within the declared bounds |
| `TemplateVariables.OptionsErrors` | packages/core/src/template/Template.ts:63-70 | no options error exactly when there are no options, the type is boolean, or the value is an option |
| `TemplateVariables.CheckDeclaration` | packages/core/src/template/Template.ts:33-71 | one declaration appends exactly its errors |
| `TemplateVariables.ValidateTemplateVariables` | packages/core/src/template/Template.ts:27-78 | the errors are the declarations' errors in schema order; valid exactly when there is none |
| `TemplateVariables.DeclarationAccepts` | packages/core/src/template/Template.ts:33-71 | a declaration draws no error if and only if its value, or its default, satisfies it |
| `TemplateVariables.MissingDrawsOneError` | packages/core/src/template/Template.ts:37-40 | a missing value without a default draws exactly `Missing required variable: name` |
| `TemplateVariables.DefaultCoversMissing` | packages/core/src/template/Template.test.ts:108-122 | a missing value with a default draws no error |
| `TemplateVariables.WrongTypeDrawsOneError` | packages/core/src/template/Template.ts:42-51 | a wrong-typed value draws exactly the type error, and no range or options check runs |
| `TemplateVariables.OutOfRangeDrawsError` | packages/core/src/template/Template.ts:53-60 | a number below the minimum or above the maximum draws that bound's error |
| `TemplateVariables.SchemaAccepts` | packages/core/src/template/Template.ts:27-78 | a schema check passes if and only if every declaration is satisfied |
| `TemplateVariables.Put` | packages/core/src/template/Template.ts:88 | assigning a key adds exactly that key |
| `TemplateVariables.LookupPut` | packages/core/src/template/Template.ts:88 | after assigning a key, that key reads the new value and every other key reads as before |
| `TemplateVariables.GetDefaultVariables` | packages/core/src/template/Template.ts:83-93 | the loop computes the default record of the specification function |
| `TemplateVariables.LastDefault` | packages/core/src/template/Template.ts:83-93 | a default exists exactly when some declaration of the name has one, and it is one of those defaults |
| `TemplateVariables.DefaultsAreLastDeclared` | packages/core/src/template/Template.ts:83-93 | each name maps to the default of its last declaration that has one |
| `TemplateValidator.PushVersionError` | packages/core/src/template/TemplateValidator.ts:18-24 | the version block appends its error when the version is missing |
| `TemplateValidator.PushMetadataErrors` | packages/core/src/template/TemplateValidator.ts:27-55 | the metadata block appends one error for missing metadata, or one per missing field |
| `TemplateValidator.PushAgentError` | packages/core/src/template/TemplateValidator.ts:58-64 | the agent block appends its error when the agent is missing |
| `TemplateValidator.Validate` | packages/core/src/template/TemplateValidator.ts:14-71 | the errors are the blocks' errors in order, warnings are empty, valid exactly when there is no error |
| `TemplateValidator.AllRequired` | packages/core/src/template/TemplateValidator.ts:14-64 | every error has code `REQUIRED` |
| `TemplateValidator.MetadataReports` | packages/core/src/template/TemplateValidator.ts:27-55 | the metadata block reports a field exactly when that field is missing |
| `TemplateValidator.ReportsExactlyMissing` | packages/core/src/template/TemplateValidator.ts:14-64 | a field's error appears if and only if the field is missing |
| `TemplateValidator.MissingMetadataIsOneError` | packages/core/src/template/TemplateValidator.ts:27-32 | missing metadata is exactly one `metadata` error and no `metadata.*` errors |
| `TemplateValidator.AcceptedExactly` | packages/core/src/template/TemplateValidator.ts:66-70 | there is no error if and only if version, id, name, description and agent are all present and non-empty |
| `TemplateValidator.CompleteTemplatePasses` | packages/core/src/template/TemplateValidator.ts:14-71 | a template with non-empty version, id, name and description passes |
| `AgentRepository.Restored` | packages/core/src/agent/AgentRepository.ts:84-89 | the loaded configuration carries the parsed fields, the requested scope, and the description as personality |
| `AgentRepository.MissingFile` | packages/core/src/security/PermissionManager.ts:110-115 | reading an absent file is a `FileSystemError` |
| `AgentRepository.LoadFailure` | packages/core/src/agent/AgentRepository.ts:102-106 | a parse failure is re-raised as a `FileSystemError` carrying the original message |
| `AgentRepository.Loaded` | packages/core/src/agent/AgentRepository.ts:67-108 | an invalid name fails with the validator's error; an absent file with `MissingFile`; a bad document with `LoadFailure`; otherwise the restored agent at its path |
| `AgentRepository.AgentName` | packages/core/src/agent/AgentRepository.ts:171 | the name is the entry without its `.md` suffix |
| `AgentRepository.Repository.constructor` | packages/core/src/agent/AgentRepository.ts:20-23 | a repository over the given environment, files and directories |
| `AgentRepository.Repository.Save` | packages/core/src/agent/AgentRepository.ts:28-62 | an invalid name changes nothing; otherwise the directory exists afterwards, the document is stored at the path, nothing else changes, and the agent is returned |
| `AgentRepository.Repository.Load` | packages/core/src/agent/AgentRepository.ts:67-108 | the result is the specification function's on the current store |
| `AgentRepository.Repository.Delete` | packages/core/src/agent/AgentRepository.ts:113-134 | an invalid name or an absent file fails and changes nothing; otherwise exactly that path is removed |
| `AgentRepository.Repository.Exists` | packages/core/src/agent/AgentRepository.ts:139-146 | true exactly when the name gives a path that is stored; never true for an unsafe name |
| `AgentRepository.Repository.ListByScope` | packages/core/src/agent/AgentRepository.ts:151-188 | nothing when the directory is absent; otherwise the loadable `.md` entries, in order |
| `AgentRepository.Repository.ListAll` | packages/core/src/agent/AgentRepository.ts:193-200 | the project list followed by the user list |
| `AgentRepository.Reloaded` | packages/core/src/agent/AgentRepository.ts:84-89 | what a saved configuration reads back as: same name, description and scope, description as personality, trimmed prompt |
| `AgentRepository.LoadAfterSave` | packages/core/src/agent/AgentRepository.ts:28-108 | loading a just-saved configuration gives it back as `Reloaded` at its path |
| `AgentRepository.LoadOtherAfterSave` | packages/core/src/agent/AgentRepository.ts:28-108 | saving one agent does not change how another of the same scope loads |
| `AgentRepository.LoadAfterDelete` | packages/core/src/agent/AgentRepository.ts:113-134 | after a delete the agent no longer loads |
| `AgentRepository.LoadFailureKinds` | packages/core/src/agent/AgentRepository.ts:67-108 | a load failure is a security error for an unsafe name and a file-system error otherwise |
| `AgentRepository.LoadEachAppend` | packages/core/src/agent/AgentRepository.ts:169-178 | entries are loaded one by one, so listing two runs is listing their concatenation |
| `AgentRepository.LoadEachLoaded` | packages/core/src/agent/AgentRepository.ts:169-178 | every listed agent is one that loads from one of the entries |
| `AgentRepository.LoadedAgent` | packages/core/src/agent/AgentRepository.ts:84-96 | a loaded agent has the requested scope and a stored path |
| `AgentRepository.ListedAreLoaded` | packages/core/src/agent/AgentRepository.ts:151-188 | no more agents than entries, each of the scope, stored, and loadable by its name |
| `AgentRepository.LoadEachKeepsLoadable` | packages/core/src/agent/AgentRepository.ts:169-178 | when every entry loads, none is skipped |
| `AgentManager.Sanitized` | packages/core/src/agent/AgentManager.ts:39-52 | texts are the sanitisers' results; name, scope, model and metadata pass through |
| `AgentManager.SanitizedIsClean` | packages/core/src/agent/AgentManager.ts:39-52 | the stored configuration has a safe name and trimmed, control-free texts within their bounds |
| `AgentManager.Created` | packages/core/src/agent/AgentManager.ts:28-53 | an invalid configuration fails with the validator's message before the store is consulted; an existing agent fails with `AgentExistsError`; otherwise the sanitised configuration |
| `AgentManager.Merge` | packages/core/src/agent/AgentManager.ts:69-74 | the merged configuration always has the call's name and scope |
| `AgentManager.Updated` | packages/core/src/agent/AgentManager.ts:58-94 | an invalid path or absent file fails with `AgentNotFoundError`; success implies the agent loads |
| `AgentManager.Manager.constructor` | packages/core/src/agent/AgentManager.ts:19-23 | a manager over the given repository |
| `AgentManager.Manager.CreateAgent` | packages/core/src/agent/AgentManager.ts:28-53 | on failure the store is unchanged; on success exactly the new document is stored |
| `AgentManager.Manager.UpdateAgent` | packages/core/src/agent/AgentManager.ts:58-94 | on failure the store is unchanged; on success the updated document replaces the old one |
| `AgentManager.Manager.DeleteAgent` | packages/core/src/agent/AgentManager.ts:99-101 | as the repository's delete |
| `AgentManager.Manager.GetAgent` | packages/core/src/agent/AgentManager.ts:106-108 | as the repository's load |
| `AgentManager.Manager.ListAgents` | packages/core/src/agent/AgentManager.ts:113-118 | one scope's list when a scope is given, both lists otherwise |
| `AgentManager.Manager.AgentExists` | packages/core/src/agent/AgentManager.ts:123-125 | as the repository's `exists` |
| `AgentManager.Manager.ValidateConfig` | packages/core/src/agent/AgentManager.ts:130-132 | the validator's errors and warnings; valid exactly when accepted |
| `AgentManager.CreateTwiceFails` | packages/core/src/agent/AgentManager.ts:33-36 | after a successful create, creating the same configuration again fails with `AgentExistsError` |
| `AgentManager.UpdateNeedsFile` | packages/core/src/agent/AgentManager.ts:60-63 | an update succeeds only for a stored agent |
| `AgentManager.MergeKeepsLoaded` | packages/core/src/agent/AgentManager.ts:66-74 | fields absent from the update keep their loaded values |
| `AgentManager.UpdatePinsNameAndScope` | packages/core/src/agent/AgentManager.ts:69-85 | the saved configuration has the call's name and scope whatever the update carries |
| `AgentManager.EmptyUpdateKeepsLoaded` | packages/core/src/agent/AgentManager.ts:66-74 | an empty update merges to the loaded configuration |
| `TemplateLoader.FirstRule` | packages/core/src/template/LocalTemplateLoader.ts:174-182 | the index of the first rule whose keyword the name contains, or none when no rule applies |
| `TemplateLoader.InferCategory` | packages/core/src/template/LocalTemplateLoader.ts:174-182 | `general` exactly when no rule applies |
| `TemplateLoader.ReviewComesFirst` | packages/core/src/template/LocalTemplateLoader.ts:175 | a name containing `review` is `code-quality`, whatever else it contains |
| `TemplateLoader.DebugBeforeTest` | packages/core/src/template/LocalTemplateLoader.ts:175-177 | a name with `debug` but not `review` is `debugging`, even if it contains `test` |
| `TemplateLoader.KeywordsDistinct` | packages/core/src/template/LocalTemplateLoader.ts:191-202 | no keyword is listed twice |
| `TemplateLoader.TagsOf` | packages/core/src/template/LocalTemplateLoader.ts:187-211 | every tag occurs in the text |
| `TemplateLoader.InferTags` | packages/core/src/template/LocalTemplateLoader.ts:187-211 | the set-building loop gives the keywords found in the lower-cased `name description`, in keyword order |
| `TemplateLoader.TagsMeaning` | packages/core/src/template/LocalTemplateLoader.ts:187-211 | a word is a tag if and only if it is a keyword occurring in the text; tags are distinct and in keyword order |
| `TemplateLoader.SearchTemplates` | packages/core/src/template/LocalTemplateLoader.ts:145-161 | a blank query returns every template |
| `TemplateLoader.SearchMeaning` | packages/core/src/template/LocalTemplateLoader.ts:148-160 | otherwise a template is kept if and only if its name, description or a tag contains the lower-cased query, lower-cased; order is kept |
| `TemplateLoader.TemplatesByCategory` | packages/core/src/template/LocalTemplateLoader.ts:166-169 | every template kept has the category |
| `TemplateLoader.ByCategoryMeaning` | packages/core/src/template/LocalTemplateLoader.ts:166-169 | a template is kept if and only if it has the category; order is kept |
| `TemplateLoader.SecondParagraph` | packages/core/src/template/LocalTemplateLoader.ts:78 | the second chunk of the split on blank lines: the text after the first `\n\n` up to the next one or the end, itself free of `\n\n` |
| `TemplateLoader.Unmarked` | packages/core/src/template/LocalTemplateLoader.ts:80 | the cleaned paragraph has no `#`, `*` or backtick and is trimmed |
| `TemplateLoader.ReadmeDescription` | packages/core/src/template/LocalTemplateLoader.ts:74-92 | the agent description, or a non-empty cleaned README paragraph; never empty when the agent description is not |
| `TemplateLoader.Basename` | packages/core/src/template/LocalTemplateLoader.ts:65 | the template directory's last path component has no separator |
| `TemplateLoader.Built` | packages/core/src/template/LocalTemplateLoader.ts:86-108 | the template has id `local/name`, the agent's name, inferred category and tags, the agent without a personality, and an empty variable list |
| `TemplateLoader.LoadTemplate` | packages/core/src/template/LocalTemplateLoader.ts:58-115 | no agent file fails with `TemplateNotFoundError` on the directory name; a parse failure is a `FileSystemError` with the path and the original message; otherwise the built template |
| `TemplateLoader.LoadedTemplateIsValid` | packages/core/src/template/LocalTemplateLoader.ts:86-108 | every loaded template passes the template validator |
| `TemplateLoader.InstallConfigAsWritten` | packages/core/src/template/LocalTemplateLoader.ts:121-136 | the configuration as written keeps the template's possibly missing personality |
| `TemplateLoader.InstallAsWrittenRefused` | packages/core/src/template/LocalTemplateLoader.ts:120-140 | a template without a personality always fails to install as written, with `Personality is required` |
| `TemplateLoader.LoadedTemplateNotInstallableAsWritten` | packages/core/src/template/LocalTemplateLoader.ts:58-140 | no template that `loadTemplate` builds can be installed as written |
| `TemplateLoader.InstallConfig` | packages/core/src/template/LocalTemplateLoader.ts:121-136 | the installed configuration has the chosen name, the option's scope, and a personality |
| `TemplateLoader.InstallBackfillsPersonality` | packages/core/src/template/LocalTemplateLoader.ts:121-126 | the description stands in for a missing personality and passes its check exactly when it is not blank and within 500 characters |
| `TemplateLoader.InstallSubstitutes` | packages/core/src/template/LocalTemplateLoader.ts:129-136 | a placeholder in brace-free prompt text is replaced by the supplied value |
| `TemplateLoader.Loader.constructor` | packages/core/src/template/LocalTemplateLoader.ts:19-22 | a loader over the given manager |
| `TemplateLoader.Loader.InstallTemplate` | packages/core/src/template/LocalTemplateLoader.ts:120-140 | the result and the store change are exactly those of creating the installed configuration |

## Left out

- File access, permission checks (`PermissionManager`), directory creation, write and unlink failures, and file timestamps (`createdAt`, `updatedAt`). The store is a map from path to content plus a set of existing directories. Every permission is taken as granted.
- `readdir` and `discoverTemplates` (`LocalTemplateLoader.ts:27-53`). Directory entries are supplied as a sequence in listing order, and search and category filtering take the discovered templates as a sequence.
- `Promise.all` in `listAll`: the two scope lists are read one after the other, project first. `console.warn` for skipped entries is left out.
- `ConfigManager`, `TemplateRegistry`, `PermissionManager`'s disk-space heuristic, the `createAgent` helper of `Agent.ts` (it only stamps dates), the MCP server and the build scripts are not part of this model.
- JavaScript value types: each field is a string, an optional string or a list of strings. The source's checks that a field is an array (`sanitizeExpertise`, `sanitizeTools`, `validateAgentConfig`) and that a value is a string have no counterpart. Template numbers are integers, not floating point.
- The validator's expertise block (`AgentValidator.ts:142-152`) is left out. Over lists of strings `sanitizeExpertise` cannot throw, so that block adds no error.
- Lower-casing (`toLowerCase`) is modelled on ASCII letters only. Non-ASCII letters are left as they are.
- Trimming uses the ECMAScript whitespace and line-terminator set, as `String.prototype.trim` does.
- The order of a record's keys follows insertion order. The JavaScript rule that integer-like keys come first in `Object.entries` is left out.
- `path.join` and `path.normalize` are string concatenation with `/`. `path.basename` of a path ending in `/` is taken as empty.
- String lengths count Unicode code points (`|s|` over Dafny characters). The source's `.length` and `.slice` count UTF-16 code units, so a character above U+FFFF counts twice there. A lone surrogate cannot occur in the model. The members this affects are listed next.
- `ContentSanitizer.SanitizeText`: the 200, 500 and 50000 bounds (`ContentSanitizer.ts:30`, `:60`, `:90`) are checked in code points. A description of 150 characters above U+FFFF passes here, but the source refuses it as 300 units long. The same holds for `SanitizeDescription`, `SanitizePersonality` and `SanitizeSystemPrompt`.
- `PathValidator.ValidateAgentName`: the 50-character bound (`PathValidator.ts:25`) is checked in code points. For a name of 26 characters above U+FFFF the model reports the invalid-characters error, where the source reports the length error first.
- `AgentValidator.WarningsMeaning`: the short-prompt warning (`AgentValidator.ts:156`) compares the length in code points with 50. The same holds for `AgentValidator.PushWarnings` and `AgentValidator.Validate`.
- `ContentSanitizer.SanitizeExpertise`: the cut to 50 (`ContentSanitizer.ts:121`) keeps 50 code points. The source's `slice(0, 50)` keeps 50 UTF-16 units and can split a surrogate pair. The same holds for `ContentSanitizer.ExpertiseMeaning`.
- `TemplateVariables.ValidateTemplateVariables`: variable values are read from a plain record, so names that are properties of `Object.prototype` behave differently in the source. For example, a declared `constructor` with no value and no default reads the inherited `Object` function there. The source then reports a wrong type (`function`), where the model reports the variable as missing (`Template.ts:34`).
- `TemplateVariables.GetDefaultVariables`: assigning a default under the name `__proto__` adds no key in the source (`Template.ts:87`), where the model's `Put` adds one. Names on `Object.prototype` are not singled out by the model.
- `TemplateLoader.SearchTemplates`: its own contract states only the blank-query case. The filtering is stated by `SearchMeaning`.

## Findings

| source | as written | input that shows it | evidently intended | confidence | as-written member | corrected member |
|---|---|---|---|---|---|---|
| packages/core/src/template/Template.ts:18 | The value is passed to `replaceAll` as a replacement pattern. `$&`, `$$`, `` $` `` and `$'` in the value are therefore expanded. The same call appears at `LocalTemplateLoader.ts:133`. | the text `{{ name }}` with `name` = `$&` stays `{{ name }}` | the value is inserted literally, giving `$&` | high, not executed | `TemplateVariables.DollarAmpersandKeepsPlaceholder` | `TemplateVariables.ApplyTemplateVariables` |
| packages/core/src/agent/AgentValidator.ts:94-102 | Injection detection runs on the raw prompt. The manager then stores the prompt with control characters removed (`AgentManager.ts:39-52`). | the prompt `ev` NUL `al(1)` passes validation and is stored as `eval(1)` | the stored prompt is free of injection patterns | high, not executed | `AgentValidator.RawCheckMissesHiddenCall` | `AgentValidator.CheckedPromptIsSafeToStore` |
| packages/core/src/template/LocalTemplateLoader.ts:102 | A loaded template's agent has no personality, and `installTemplate` passes it on as it is. `createAgent` requires a personality (`AgentValidator.ts:67-73`). | any template directory whose `agent.md` parses, installed under any options | a missing personality falls back to the description, as `AgentRepository.load` does | high, not executed | `TemplateLoader.LoadedTemplateNotInstallableAsWritten` | `TemplateLoader.InstallConfig` |

The loader uses the corrected substitution. The installation uses the corrected configuration.

The validator itself keeps the source's raw-prompt check, so that its errors stay those the source reports. The checked variant, `AgentValidator.CheckedSystemPromptIssue`, is given beside it.
