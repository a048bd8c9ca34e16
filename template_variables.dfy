/** Template variables: substituting `{{ key }}` placeholders, checking
    supplied values against a template's variable declarations, and
    collecting the declared defaults. */
module TemplateVariables {
  import opened Wrappers
  import opened Strings
  import opened Types

  // ---------------------------------------------------------------------
  // Rendering values

  /** `String(value)`: text as is, integers in decimal, booleans as words. */
  function Render(v: Value): string {
    match v
    case Str(s) => s
    case Num(n) => IntToString(n)
    case Bool(b) => if b then "true" else "false"
  }

  lemma RenderExamples()
    ensures Render(Num(100)) == "100" && Render(Bool(true)) == "true" && Render(Str("World")) == "World"
  {
    assert NatToString(100) == NatToString(10) + [DigitChar(0)];
    assert NatToString(10) == NatToString(1) + [DigitChar(0)];
  }

  /** The placeholder of a key. */
  function Placeholder(key: string): (p: string)
    ensures |p| == |key| + 6 && p[0] == '{'
  {
    "{{ " + key + " }}"
  }

  // ---------------------------------------------------------------------
  // Substitution

  /** Every entry in order, each replacing all occurrences of its
      placeholder in the text produced so far by the value taken literally. */
  function Apply(text: string, variables: seq<(string, Value)>): string
    decreases |variables|
  {
    if variables == [] then text
    else Apply(ReplaceAll(text, Placeholder(variables[0].0), Render(variables[0].1)), variables[1..])
  }

  /** `applyTemplateVariables`, with every value inserted literally. */
  method ApplyTemplateVariables(template: string, variables: Record) returns (result: string)
    ensures result == Apply(template, variables)
  {
    result := template;
    for i := 0 to |variables|
      invariant Apply(result, variables[i..]) == Apply(template, variables)
    {
      assert variables[i..][1..] == variables[i + 1..];
      var (key, value) := variables[i];
      result := ReplaceAll(result, Placeholder(key), Render(value));
    }
    assert variables[|variables|..] == [];
  }

  /** Text holding no placeholder of any supplied key comes back unchanged;
      in particular an empty variable list changes nothing. */
  lemma {:induction false} ApplyWithoutPlaceholders(text: string, variables: seq<(string, Value)>)
    requires forall k :: 0 <= k < |variables| ==> !Contains(text, Placeholder(variables[k].0))
    ensures Apply(text, variables) == text
    decreases |variables|
  {
    if variables != [] {
      ReplaceAllAbsent(text, Placeholder(variables[0].0), Render(variables[0].1));
      assert forall k :: 0 <= k < |variables[1..]| ==> variables[1..][k] == variables[k + 1];
      ApplyWithoutPlaceholders(text, variables[1..]);
    }
  }

  /** A text with no `{` holds no placeholder. */
  lemma NoBraceNoPlaceholder(s: string, key: string)
    requires '{' !in s
    ensures !Contains(s, Placeholder(key))
  {
    forall i | 0 <= i <= |s| - |Placeholder(key)|
      ensures !OccursAt(s, Placeholder(key), i)
    {
      assert s[i..i + |Placeholder(key)|][0] == s[i];
    }
  }

  /** A placeholder between brace-free texts is replaced by the value and
      nothing else changes. */
  lemma ReplaceBetweenPlainText(a: string, key: string, rep: string, b: string)
    requires '{' !in a && '{' !in b
    ensures ReplaceAll(a + Placeholder(key) + b, Placeholder(key), rep) == a + rep + b
  {
    var p := Placeholder(key);
    forall i | 0 <= i < |a|
      ensures !OccursAt(a + (p + b), p, i)
    {
      if i + |p| <= |a + (p + b)| {
        assert (a + (p + b))[i..i + |p|][0] == a[i];
      }
    }
    ReplaceAllPrefix(a, p + b, p, rep);
    ReplaceAllAtFront(p + b, p, rep);
    assert (p + b)[|p|..] == b;
    NoBraceNoPlaceholder(b, key);
    ReplaceAllAbsent(b, p, rep);
    assert a + p + b == a + (p + b);
  }

  /** One variable whose placeholder sits in brace-free text, as in
      `Hello {{ name }}!`, is replaced by its rendered value. */
  lemma SubstitutesOneVariable(a: string, key: string, v: Value, b: string)
    requires '{' !in a && '{' !in b
    ensures Apply(a + Placeholder(key) + b, [(key, v)]) == a + Render(v) + b
  {
    ReplaceBetweenPlainText(a, key, Render(v), b);
    assert [(key, v)][1..] == [];
  }

  // ---------------------------------------------------------------------
  // String.prototype.replaceAll as JavaScript runs it

  /** A replacement string as `replaceAll` reads it: `$$` is a dollar sign,
      `$&` the matched text, `` $` `` the text before the match and `$'` the
      text after it; any other `$` stands for itself. */
  function Expand(rep: string, matched: string, before: string, after: string): string
    decreases |rep|
  {
    if rep == [] then []
    else if |rep| >= 2 && rep[0] == '$' && rep[1] == '$' then "$" + Expand(rep[2..], matched, before, after)
    else if |rep| >= 2 && rep[0] == '$' && rep[1] == '&' then matched + Expand(rep[2..], matched, before, after)
    else if |rep| >= 2 && rep[0] == '$' && rep[1] == '`' then before + Expand(rep[2..], matched, before, after)
    else if |rep| >= 2 && rep[0] == '$' && rep[1] == '\'' then after + Expand(rep[2..], matched, before, after)
    else [rep[0]] + Expand(rep[1..], matched, before, after)
  }

  /** `s.replaceAll(pat, rep)` from position `i` of `s` on. */
  function ReplaceAllFrom(s: string, pat: string, rep: string, i: nat): string
    requires pat != [] && i <= |s|
    decreases |s| - i
  {
    if i + |pat| > |s| then s[i..]
    else if s[i..i + |pat|] == pat then
      Expand(rep, pat, s[..i], s[i + |pat|..]) + ReplaceAllFrom(s, pat, rep, i + |pat|)
    else [s[i]] + ReplaceAllFrom(s, pat, rep, i + 1)
  }

  /** A replacement without `$` expands to itself. */
  lemma {:induction false} ExpandPlain(rep: string, matched: string, before: string, after: string)
    requires '$' !in rep
    ensures Expand(rep, matched, before, after) == rep
    decreases |rep|
  {
    if rep != [] {
      assert rep[0] != '$';
      ExpandPlain(rep[1..], matched, before, after);
    }
  }

  /** Without `$` in the replacement, `replaceAll` is literal replacement. */
  lemma {:induction false} ReplaceAllFromPlain(s: string, pat: string, rep: string, i: nat)
    requires pat != [] && i <= |s| && '$' !in rep
    ensures ReplaceAllFrom(s, pat, rep, i) == ReplaceAll(s[i..], pat, rep)
    decreases |s| - i
  {
    var t := s[i..];
    if i + |pat| <= |s| {
      assert t[..|pat|] == s[i..i + |pat|];
      if s[i..i + |pat|] == pat {
        ExpandPlain(rep, pat, s[..i], s[i + |pat|..]);
        ReplaceAllFromPlain(s, pat, rep, i + |pat|);
        assert t[|pat|..] == s[i + |pat|..];
        assert ReplaceAll(t, pat, rep) == rep + ReplaceAll(t[|pat|..], pat, rep);
      } else {
        ReplaceAllFromPlain(s, pat, rep, i + 1);
        assert t[1..] == s[i + 1..] && t[0] == s[i];
        assert ReplaceAll(t, pat, rep) == [t[0]] + ReplaceAll(t[1..], pat, rep);
      }
    }
  }

  /** `applyTemplateVariables` as written, values going through `replaceAll`
      as replacement strings. */
  function ApplyAsWritten(text: string, variables: seq<(string, Value)>): string
    decreases |variables|
  {
    if variables == [] then text
    else ApplyAsWritten(ReplaceAllFrom(text, Placeholder(variables[0].0), Render(variables[0].1), 0), variables[1..])
  }

  /** Values without `$` are substituted the same either way. */
  lemma {:induction false} AsWrittenAgreesWithoutDollar(text: string, variables: seq<(string, Value)>)
    requires forall k :: 0 <= k < |variables| ==> '$' !in Render(variables[k].1)
    ensures ApplyAsWritten(text, variables) == Apply(text, variables)
    decreases |variables|
  {
    if variables != [] {
      ReplaceAllFromPlain(text, Placeholder(variables[0].0), Render(variables[0].1), 0);
      assert text[0..] == text;
      assert forall k :: 0 <= k < |variables[1..]| ==> variables[1..][k] == variables[k + 1];
      AsWrittenAgreesWithoutDollar(ReplaceAll(text, Placeholder(variables[0].0), Render(variables[0].1)), variables[1..]);
    }
  }

  /** A value of `$&` puts the placeholder itself back as written, where the
      value was meant to appear. */
  lemma DollarAmpersandKeepsPlaceholder(key: string)
    ensures ApplyAsWritten(Placeholder(key), [(key, Str("$&"))]) == Placeholder(key)
    ensures Apply(Placeholder(key), [(key, Str("$&"))]) == "$&"
  {
    var p := Placeholder(key);
    var vars := [(key, Str("$&"))];
    assert vars[1..] == [];
    assert p[0..|p|] == p;
    assert p[..0] == [] && p[|p|..] == [];
    assert Expand("$&", p, [], []) == p by {
      assert "$&"[2..] == [];
    }
    assert ReplaceAllFrom(p, p, "$&", |p|) == [];
    assert ReplaceAllFrom(p, p, "$&", 0) == p;
    ReplaceAllAtFront(p, p, "$&");
    assert ReplaceAll(p[|p|..], p, "$&") == [];
  }

  // ---------------------------------------------------------------------
  // Checking values against declarations

  datatype VariableCheck = VariableCheck(valid: bool, errors: seq<string>)

  function TypeOf(v: Value): VarType {
    match v
    case Str(_) => StringType
    case Num(_) => NumberType
    case Bool(_) => BooleanType
  }

  /** `typeof` names. */
  function TypeName(t: VarType): string {
    match t
    case StringType => "string"
    case NumberType => "number"
    case BooleanType => "boolean"
  }

  function MissingMessage(name: string): string {
    "Missing required variable: " + name
  }

  function WrongTypeMessage(name: string, expected: VarType, actual: VarType): string {
    "Variable " + name + " has wrong type: expected " + TypeName(expected) + ", got " + TypeName(actual)
  }

  function BelowMessage(name: string, min: int): string {
    "Variable " + name + " is below minimum: " + IntToString(min)
  }

  function AboveMessage(name: string, max: int): string {
    "Variable " + name + " is above maximum: " + IntToString(max)
  }

  function RenderAll(vs: seq<Value>): (r: seq<string>)
    ensures |r| == |vs|
  {
    seq(|vs|, k requires 0 <= k < |vs| => Render(vs[k]))
  }

  function NotOneOfMessage(name: string, options: seq<Value>): string {
    "Variable " + name + " must be one of: " + Join(RenderAll(options), ", ")
  }

  /** The range errors of a number. */
  function RangeErrors(d: VarDef, n: int): (r: seq<string>)
    ensures r == [] <==> (d.min.None? || d.min.value <= n) && (d.max.None? || n <= d.max.value)
  {
    (if d.min.Some? && n < d.min.value then [BelowMessage(d.name, d.min.value)] else []) +
    (if d.max.Some? && n > d.max.value then [AboveMessage(d.name, d.max.value)] else [])
  }

  /** The options error of a value of the declared type. */
  function OptionsErrors(d: VarDef, v: Value): (r: seq<string>)
    ensures r == [] <==> d.options.None? || d.vtype == BooleanType || v in d.options.value
  {
    if d.options.Some? && d.vtype != BooleanType && v !in d.options.value then
      [NotOneOfMessage(d.name, d.options.value)]
    else []
  }

  /** The errors one declaration draws. */
  function DeclarationErrors(values: Record, d: VarDef): seq<string> {
    match Lookup(values, d.name)
    case None => if d.default.None? then [MissingMessage(d.name)] else []
    case Some(v) =>
      if TypeOf(v) != d.vtype then [WrongTypeMessage(d.name, d.vtype, TypeOf(v))]
      else (if v.Num? then RangeErrors(d, v.n) else []) + OptionsErrors(d, v)
  }

  /** The errors of the declarations, in order. */
  function SchemaErrors(values: Record, schema: seq<VarDef>): seq<string>
    decreases |schema|
  {
    if schema == [] then []
    else SchemaErrors(values, schema[..|schema| - 1]) + DeclarationErrors(values, schema[|schema| - 1])
  }

  /** One pass of the loop of `validateTemplateVariables`: the checks of one
      declaration, each stopping at the first of a missing value or a wrong type. */
  method CheckDeclaration(errors: seq<string>, values: Record, d: VarDef) returns (updated: seq<string>)
    ensures updated == errors + DeclarationErrors(values, d)
  {
    updated := errors;
    var value := Lookup(values, d.name);
    if value.None? && d.default.None? {
      return updated + [MissingMessage(d.name)];
    }
    if value.Some? {
      var v := value.value;
      if TypeOf(v) != d.vtype {
        return updated + [WrongTypeMessage(d.name, d.vtype, TypeOf(v))];
      }
      if d.vtype == NumberType && v.Num? {
        if d.min.Some? && v.n < d.min.value {
          updated := updated + [BelowMessage(d.name, d.min.value)];
        }
        if d.max.Some? && v.n > d.max.value {
          updated := updated + [AboveMessage(d.name, d.max.value)];
        }
        assert updated == errors + RangeErrors(d, v.n);
      } else {
        assert !v.Num?;
      }
      if d.options.Some? && d.vtype != BooleanType {
        if v !in d.options.value {
          updated := updated + [NotOneOfMessage(d.name, d.options.value)];
        }
      }
    }
  }

  /** `validateTemplateVariables`. */
  method ValidateTemplateVariables(values: Record, schema: seq<VarDef>) returns (result: VariableCheck)
    ensures result.errors == SchemaErrors(values, schema)
    ensures result.valid <==> result.errors == []
  {
    var errors: seq<string> := [];
    for i := 0 to |schema|
      invariant errors == SchemaErrors(values, schema[..i])
    {
      assert schema[..i + 1][..i] == schema[..i];
      errors := CheckDeclaration(errors, values, schema[i]);
    }
    assert schema[..|schema|] == schema;
    result := VariableCheck(|errors| == 0, errors);
  }

  /** What a declaration asks of the value supplied for it: a value or a
      default; a value of the declared type; a number within the bounds; a
      non-boolean value among the options. */
  predicate Satisfies(value: Option<Value>, d: VarDef) {
    match value
    case None => d.default.Some?
    case Some(v) =>
      TypeOf(v) == d.vtype &&
      (v.Num? ==> (d.min.None? || d.min.value <= v.n) && (d.max.None? || v.n <= d.max.value)) &&
      (d.options.Some? && d.vtype != BooleanType ==> v in d.options.value)
  }

  /** A declaration draws no error exactly when its value satisfies it. */
  lemma DeclarationAccepts(values: Record, d: VarDef)
    ensures DeclarationErrors(values, d) == [] <==> Satisfies(Lookup(values, d.name), d)
  {
  }

  /** A missing value without a default draws one error and nothing else is checked. */
  lemma MissingDrawsOneError(values: Record, d: VarDef)
    requires Lookup(values, d.name).None? && d.default.None?
    ensures DeclarationErrors(values, d) == [MissingMessage(d.name)]
  {
  }

  /** A missing value with a default draws none. */
  lemma DefaultCoversMissing(values: Record, d: VarDef)
    requires Lookup(values, d.name).None? && d.default.Some?
    ensures DeclarationErrors(values, d) == []
  {
  }

  /** A value of the wrong type draws one error; its range and options are not checked. */
  lemma WrongTypeDrawsOneError(values: Record, d: VarDef)
    requires Lookup(values, d.name).Some? && TypeOf(Lookup(values, d.name).value) != d.vtype
    ensures DeclarationErrors(values, d) ==
            [WrongTypeMessage(d.name, d.vtype, TypeOf(Lookup(values, d.name).value))]
  {
  }

  /** A number below the minimum and one above the maximum each draw their error. */
  lemma OutOfRangeDrawsError(values: Record, d: VarDef, n: int)
    requires Lookup(values, d.name) == Some(Num(n)) && d.vtype == NumberType
    ensures d.min.Some? && n < d.min.value ==> BelowMessage(d.name, d.min.value) in DeclarationErrors(values, d)
    ensures d.max.Some? && n > d.max.value ==> AboveMessage(d.name, d.max.value) in DeclarationErrors(values, d)
  {
  }

  /** The errors of a list of declarations are empty exactly when every
      declaration is satisfied. */
  lemma {:induction false} SchemaAccepts(values: Record, schema: seq<VarDef>)
    ensures SchemaErrors(values, schema) == [] <==>
            forall k :: 0 <= k < |schema| ==> Satisfies(Lookup(values, schema[k].name), schema[k])
    decreases |schema|
  {
    if schema != [] {
      var init, last := schema[..|schema| - 1], schema[|schema| - 1];
      var a, b := SchemaErrors(values, init), DeclarationErrors(values, last);
      assert SchemaErrors(values, schema) == a + b;
      assert a + b == [] <==> a == [] && b == [] by {
        if a + b == [] { assert |a + b| == |a| + |b|; }
      }
      SchemaAccepts(values, init);
      DeclarationAccepts(values, last);
      assert forall k :: 0 <= k < |init| ==> init[k] == schema[k];
    }
  }

  // ---------------------------------------------------------------------
  // Defaults

  /** Where a key sits in a record, if it is there. */
  function KeyIndex(r: Record, k: string): (i: Option<nat>)
    ensures i.Some? ==> i.value < |r| && r[i.value].0 == k
    ensures i.None? ==> k !in Keys(r)
    decreases |r|
  {
    if r == [] then None
    else if r[0].0 == k then Some(0)
    else
      var rest: Record := r[1..];
      match KeyIndex(rest, k)
      case None => None
      case Some(j) => Some(j + 1)
  }

  /** `r[k] = v` on a plain object: an existing key keeps its place and
      takes the new value; a new key goes last. */
  function Put(r: Record, k: string, v: Value): (r': Record)
    ensures Keys(r') == Keys(r) + {k}
  {
    match KeyIndex(r, k)
    case Some(i) =>
      var r': seq<(string, Value)> := r[i := (k, v)];
      assert forall j :: 0 <= j < |r| ==> r'[j].0 == r[j].0;
      r'
    case None =>
      var r': seq<(string, Value)> := r + [(k, v)];
      assert forall j :: 0 <= j < |r| ==> r'[j] == r[j];
      assert Keys(r') == Keys(r) + {k} by {
        assert r'[|r|].0 == k;
      }
      r'
  }

  /** A record's entry is what looking up its key gives. */
  lemma LookupAt(r: Record, i: nat)
    requires i < |r|
    ensures Lookup(r, r[i].0) == Some(r[i].1)
  {
    var w := Lookup(r, r[i].0);
    assert r[i].0 in Keys(r);
    var j :| 0 <= j < |r| && r[j] == (r[i].0, w.value);
  }

  /** Reading a key after `Put`. */
  lemma LookupPut(r: Record, k: string, v: Value, n: string)
    ensures Lookup(Put(r, k, v), n) == if n == k then Some(v) else Lookup(r, n)
  {
    var r' := Put(r, k, v);
    if n == k {
      match KeyIndex(r, k)
      case Some(i) => LookupAt(r', i);
      case None => LookupAt(r', |r|);
    } else if n in Keys(r) {
      var j :| 0 <= j < |r| && r[j].0 == n;
      LookupAt(r, j);
      assert r'[j] == r[j];
      LookupAt(r', j);
    } else {
      assert n !in Keys(r');
    }
  }

  /** The defaults the declarations give, in the order their names first
      declare one. */
  function Defaults(schema: seq<VarDef>): Record
    decreases |schema|
  {
    if schema == [] then []
    else
      var r := Defaults(schema[..|schema| - 1]);
      var d := schema[|schema| - 1];
      if d.default.Some? then Put(r, d.name, d.default.value) else r
  }

  /** `getDefaultVariables`. */
  method GetDefaultVariables(schema: seq<VarDef>) returns (defaults: Record)
    ensures defaults == Defaults(schema)
  {
    defaults := [];
    for i := 0 to |schema|
      invariant defaults == Defaults(schema[..i])
    {
      assert schema[..i + 1][..i] == schema[..i];
      var d := schema[i];
      if d.default.Some? {
        defaults := Put(defaults, d.name, d.default.value);
      }
    }
    assert schema[..|schema|] == schema;
  }

  /** The default the last declaration of `name` that has one gives. */
  function LastDefault(schema: seq<VarDef>, name: string): (r: Option<Value>)
    ensures r.Some? <==> exists k :: 0 <= k < |schema| && schema[k].name == name && schema[k].default.Some?
    ensures r.Some? ==> exists k :: 0 <= k < |schema| && schema[k].name == name && schema[k].default == r
    decreases |schema|
  {
    if schema == [] then None
    else
      var d := schema[|schema| - 1];
      var init := schema[..|schema| - 1];
      assert forall k :: 0 <= k < |init| ==> init[k] == schema[k];
      if d.name == name && d.default.Some? then d.default else LastDefault(init, name)
  }

  /** Each name maps to the default of its last declaration that has one,
      and names without a default are absent. */
  lemma {:induction false} DefaultsAreLastDeclared(schema: seq<VarDef>, name: string)
    ensures Lookup(Defaults(schema), name) == LastDefault(schema, name)
    decreases |schema|
  {
    if schema != [] {
      var d := schema[|schema| - 1];
      DefaultsAreLastDeclared(schema[..|schema| - 1], name);
      if d.default.Some? {
        LookupPut(Defaults(schema[..|schema| - 1]), d.name, d.default.value, name);
      }
    }
  }
}
