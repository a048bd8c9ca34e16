/** The structural check of a template definition: the version, the
    metadata with its identifier, name and description, and the agent must
    be present. */
module TemplateValidator {
  import opened Wrappers
  import opened Types
  import opened AgentValidator

  /** The metadata fields the check looks at, each possibly missing. */
  datatype PartialMetadata = PartialMetadata(id: Option<string>, name: Option<string>, description: Option<string>)

  /** A template as read from a file: any part may be missing. The
      compatibility, customisation and examples sections are not checked. */
  datatype PartialTemplate = PartialTemplate(
    version: Option<string>,
    metadata: Option<PartialMetadata>,
    agent: Option<TemplateAgent>)

  /** A complete template seen as a partial one. */
  function AsPartial(t: Template): (p: PartialTemplate)
    ensures p.metadata.Some? && p.agent == Some(t.agent)
  {
    PartialTemplate(Some(t.version),
                    Some(PartialMetadata(Some(t.metadata.id), Some(t.metadata.name), Some(t.metadata.description))),
                    Some(t.agent))
  }

  /** The parts of a template the check can report. */
  datatype TemplateField = VersionField | MetadataField | IdField | NameField | DescriptionField | AgentField

  /** The field name an error carries; no two are alike. */
  function FieldName(f: TemplateField): (r: string)
    ensures |r| == match f
      case VersionField => 7 case MetadataField => 8 case IdField => 11
      case NameField => 13 case DescriptionField => 20 case AgentField => 5
  {
    match f
    case VersionField => "version"
    case MetadataField => "metadata"
    case IdField => "metadata.id"
    case NameField => "metadata.name"
    case DescriptionField => "metadata.description"
    case AgentField => "agent"
  }

  function Message(f: TemplateField): string {
    match f
    case VersionField => "Version is required"
    case MetadataField => "Metadata is required"
    case IdField => "Template ID is required"
    case NameField => "Template name is required"
    case DescriptionField => "Template description is required"
    case AgentField => "Agent configuration is required"
  }

  /** The `REQUIRED` error of a field. */
  function Report(f: TemplateField): Issue {
    Required(FieldName(f), Message(f))
  }

  /** The error of a field if the condition that makes it present fails. */
  function Unless(present: bool, f: TemplateField): seq<Issue> {
    if present then [] else [Report(f)]
  }

  function VersionErrors(version: Option<string>): seq<Issue> {
    Unless(Given(version), VersionField)
  }

  /** A missing metadata object is one error; its fields are then not looked at. */
  function MetadataErrors(metadata: Option<PartialMetadata>): seq<Issue> {
    match metadata
    case None => [Report(MetadataField)]
    case Some(m) => Unless(Given(m.id), IdField) + Unless(Given(m.name), NameField) + Unless(Given(m.description), DescriptionField)
  }

  function AgentErrors(agent: Option<TemplateAgent>): seq<Issue> {
    Unless(agent.Some?, AgentField)
  }

  /** The errors `validate` reports, in the order it checks. */
  function TemplateErrors(t: PartialTemplate): seq<Issue> {
    VersionErrors(t.version) + MetadataErrors(t.metadata) + AgentErrors(t.agent)
  }

  /** The version block. */
  method PushVersionError(errors: seq<Issue>, version: Option<string>) returns (updated: seq<Issue>)
    ensures updated == errors + VersionErrors(version)
  {
    updated := errors;
    if !Given(version) {
      updated := updated + [Report(VersionField)];
    }
  }

  /** The metadata block: the object, or else each of its three fields. */
  method PushMetadataErrors(errors: seq<Issue>, metadata: Option<PartialMetadata>) returns (updated: seq<Issue>)
    ensures updated == errors + MetadataErrors(metadata)
  {
    updated := errors;
    if metadata.None? {
      updated := updated + [Report(MetadataField)];
    } else {
      var m := metadata.value;
      if !Given(m.id) {
        updated := updated + [Report(IdField)];
      }
      if !Given(m.name) {
        updated := updated + [Report(NameField)];
      }
      var afterName := updated;
      if !Given(m.description) {
        updated := updated + [Report(DescriptionField)];
      }
      assert updated == afterName + Unless(Given(m.description), DescriptionField);
    }
  }

  /** The agent block. */
  method PushAgentError(errors: seq<Issue>, agent: Option<TemplateAgent>) returns (updated: seq<Issue>)
    ensures updated == errors + AgentErrors(agent)
  {
    updated := errors;
    if agent.None? {
      updated := updated + [Report(AgentField)];
    }
  }

  /** `TemplateValidator.validate`: the three blocks in order; no warnings. */
  method Validate(template: PartialTemplate) returns (result: ValidationResult)
    ensures result.errors == TemplateErrors(template)
    ensures result.warnings == []
    ensures result.valid <==> result.errors == []
  {
    var errors: seq<Issue> := [];
    errors := PushVersionError(errors, template.version);
    assert errors == VersionErrors(template.version);
    errors := PushMetadataErrors(errors, template.metadata);
    errors := PushAgentError(errors, template.agent);
    result := ValidationResult(|errors| == 0, errors, []);
  }

  // ---------------------------------------------------------------------
  // What the report means

  /** Whether a part of a template is missing; the metadata's own fields
      count only when the metadata is there. */
  predicate Missing(t: PartialTemplate, f: TemplateField) {
    match f
    case VersionField => !Given(t.version)
    case MetadataField => t.metadata.None?
    case IdField => t.metadata.Some? && !Given(t.metadata.value.id)
    case NameField => t.metadata.Some? && !Given(t.metadata.value.name)
    case DescriptionField => t.metadata.Some? && !Given(t.metadata.value.description)
    case AgentField => t.agent.None?
  }

  /** Every error is a `REQUIRED` error. */
  lemma AllRequired(t: PartialTemplate)
    ensures forall e :: e in TemplateErrors(t) ==> e.code == "REQUIRED"
  {
  }

  /** Different fields are reported differently. */
  lemma ReportInjective(f: TemplateField, g: TemplateField)
    ensures Report(f) == Report(g) ==> f == g
  {
    if Report(f) == Report(g) {
      assert |FieldName(f)| == |FieldName(g)|;
    }
  }

  /** A block reports a field exactly when it is its field and is missing. */
  lemma UnlessReports(present: bool, f: TemplateField, g: TemplateField)
    ensures Report(f) in Unless(present, g) <==> f == g && !present
  {
    ReportInjective(f, g);
  }

  /** The metadata block reports a field exactly when it is missing. */
  lemma MetadataReports(t: PartialTemplate, f: TemplateField)
    ensures Report(f) in MetadataErrors(t.metadata) <==>
            (f == MetadataField || f == IdField || f == NameField || f == DescriptionField) && Missing(t, f)
  {
    if t.metadata.Some? {
      var m := t.metadata.value;
      UnlessReports(Given(m.id), f, IdField);
      UnlessReports(Given(m.name), f, NameField);
      UnlessReports(Given(m.description), f, DescriptionField);
    } else {
      UnlessReports(false, f, MetadataField);
    }
  }

  /** A field is reported exactly when it is missing. */
  lemma ReportsExactlyMissing(t: PartialTemplate, f: TemplateField)
    ensures Report(f) in TemplateErrors(t) <==> Missing(t, f)
  {
    UnlessReports(Given(t.version), f, VersionField);
    MetadataReports(t, f);
    UnlessReports(t.agent.Some?, f, AgentField);
  }

  /** Without metadata there is exactly one metadata error and none about
      its fields. */
  lemma MissingMetadataIsOneError(t: PartialTemplate)
    requires t.metadata.None?
    ensures |set e | e in TemplateErrors(t) && e.field == FieldName(MetadataField)| == 1
    ensures forall e :: e in TemplateErrors(t) ==>
              e.field != FieldName(IdField) && e.field != FieldName(NameField) && e.field != FieldName(DescriptionField)
  {
    var errors := TemplateErrors(t);
    assert (set e | e in errors && e.field == FieldName(MetadataField)) == {Report(MetadataField)};
  }

  /** A template is accepted exactly when its version, metadata identifier,
      name and description are non-empty and its agent is there. */
  lemma AcceptedExactly(t: PartialTemplate)
    ensures TemplateErrors(t) == [] <==>
            Given(t.version) && t.metadata.Some? && Given(t.metadata.value.id) &&
            Given(t.metadata.value.name) && Given(t.metadata.value.description) && t.agent.Some?
  {
  }

  /** A complete template with a version, an identifier, a name and a
      description passes. */
  lemma CompleteTemplatePasses(t: Template)
    requires t.version != [] && t.metadata.id != [] && t.metadata.name != [] && t.metadata.description != []
    ensures TemplateErrors(AsPartial(t)) == []
  {
  }
}
