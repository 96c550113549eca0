/**
 * The OpenAI node's configuration form: its validation schema, the values it opens
 * with, what submitting does, and the reference preview it shows under the name field.
 */
module OpenAiDialog {
  import opened Results
  import opened ExecutionContext

  // ----- the variable-name pattern `^[A-Za-z_$][A-Za-z0-9_$]*$` -----

  predicate IdentifierStart(c: char) {
    ('A' <= c <= 'Z') || ('a' <= c <= 'z') || c == '_' || c == '$'
  }

  predicate IdentifierPart(c: char) {
    IdentifierStart(c) || ('0' <= c <= '9')
  }

  /** Scans the characters after the first one. */
  function AllIdentifierParts(s: string): (r: bool)
    ensures r <==> forall i :: 0 <= i < |s| ==> IdentifierPart(s[i])
  {
    if s == [] then true
    else if !IdentifierPart(s[0]) then false
    else
      var rest := AllIdentifierParts(s[1..]);
      assert forall i :: 1 <= i < |s| ==> s[i] == s[1..][i - 1];
      rest
  }

  /** Whether the whole name matches the pattern. */
  function IsIdentifier(s: string): (r: bool)
    ensures r <==> |s| >= 1 && IdentifierStart(s[0]) && forall i :: 1 <= i < |s| ==> IdentifierPart(s[i])
  {
    |s| >= 1 && IdentifierStart(s[0]) && AllIdentifierParts(s[1..])
  }

  // ----- the schema -----

  const NameRequired := "variable name is required"
  const NamePattern :=
    "Variable name must start with a letter or underscore and container only letters, numbers, and underscores"
  const PromptRequired := "User prompt is required"

  datatype OpenAiFormValues = OpenAiFormValues(variableName: string, systemPrompt: Option<string>, userPrompt: string)

  /** A validation issue: the field it is about and its message. */
  datatype Issue = Issue(path: string, message: string)

  datatype Parsed = Valid(values: OpenAiFormValues) | Invalid(issues: seq<Issue>)

  /** The issues of the name field: every failing check is reported, in declaration order. */
  function NameIssues(name: string): seq<Issue> {
    (if |name| < 1 then [Issue("variableName", NameRequired)] else [])
    + (if !IsIdentifier(name) then [Issue("variableName", NamePattern)] else [])
  }

  function PromptIssues(prompt: string): seq<Issue> {
    if |prompt| < 1 then [Issue("userPrompt", PromptRequired)] else []
  }

  /**
   * Parsing the form values with the schema. The system prompt is never checked; the
   * name must be a non-empty identifier and the user prompt non-empty.
   */
  function Validate(v: OpenAiFormValues): (r: Parsed)
    ensures r.Valid? <==> IsIdentifier(v.variableName) && v.userPrompt != ""
    ensures r.Valid? ==> r.values == v
    ensures r.Invalid? ==>
              && (Issue("variableName", NameRequired) in r.issues <==> v.variableName == "")
              && (Issue("variableName", NamePattern) in r.issues <==> !IsIdentifier(v.variableName))
              && (Issue("userPrompt", PromptRequired) in r.issues <==> v.userPrompt == "")
              && (forall i :: 0 <= i < |r.issues| ==>
                    r.issues[i] in {Issue("variableName", NameRequired), Issue("variableName", NamePattern),
                                    Issue("userPrompt", PromptRequired)})
              && (forall i, j :: 0 <= i < j < |r.issues| && r.issues[i].path == "userPrompt" ==>
                    r.issues[j].path == "userPrompt")
    ensures r.Invalid? && v.variableName == "" ==>
              r.issues[..2] == [Issue("variableName", NameRequired), Issue("variableName", NamePattern)]
  {
    var issues := NameIssues(v.variableName) + PromptIssues(v.userPrompt);
    if issues == [] then Valid(v) else Invalid(issues)
  }

  // ----- opening and submitting -----

  /** The stored node data the dialog opens with; any field may be absent. */
  datatype PartialValues = PartialValues(variableName: Option<string>, systemPrompt: Option<string>,
                                         userPrompt: Option<string>)

  /**
   * The form's values when it is created and each time it is opened again: every
   * field is the stored one when truthy, otherwise empty.
   */
  function Defaults(d: PartialValues): (r: OpenAiFormValues)
    ensures r.variableName == d.variableName.GetOr("")
    ensures r.systemPrompt == Some(d.systemPrompt.GetOr(""))
    ensures r.userPrompt == d.userPrompt.GetOr("")
  {
    OpenAiFormValues(OrElse(d.variableName, ""), Some(OrElse(d.systemPrompt, "")), OrElse(d.userPrompt, ""))
  }

  /** What saving the values back into the node stores. */
  function Stored(v: OpenAiFormValues): PartialValues {
    PartialValues(Some(v.variableName), v.systemPrompt, Some(v.userPrompt))
  }

  /**
   * Reopening the dialog on what it submitted shows the same values (an absent system
   * prompt comes back as the empty one), and they are still valid.
   */
  lemma ReopenShowsSubmitted(v: OpenAiFormValues)
    requires Validate(v).Valid?
    ensures Defaults(Stored(v)) == v.(systemPrompt := Some(v.systemPrompt.GetOr("")))
    ensures Validate(Defaults(Stored(v))).Valid?
  {
  }

  /** The outcome of pressing save: the values handed to the node, and whether the dialog stays open. */
  datatype Submission = Submission(submitted: Option<OpenAiFormValues>, open: bool, issues: seq<Issue>)

  /** Valid values are handed on and the dialog closes; otherwise nothing is handed on and it stays as it was. */
  function Submit(v: OpenAiFormValues, open: bool): (s: Submission)
    ensures s.submitted.Some? <==> Validate(v).Valid?
    ensures s.submitted.Some? ==> s.submitted.value == v && !s.open && s.issues == []
    ensures s.submitted.None? ==> s.open == open && |s.issues| > 0
  {
    match Validate(v)
    case Valid(values) => Submission(Some(values), false, [])
    case Invalid(issues) => Submission(None, open, issues)
  }

  // ----- the reference preview -----

  const PlaceholderName := "myOpenAi"

  /** The text under the name field: the reference to the node's output, with a placeholder for an empty name. */
  function Preview(watched: string): string {
    "{{" + (if watched != "" then watched else PlaceholderName) + ".text}}"
  }

  /** A reference path `a.b.c` split at its dots. */
  function SplitDots(s: string): (r: seq<string>)
    ensures |r| >= 1
  {
    if s == [] then [""]
    else
      var rest := SplitDots(s[1..]);
      if s[0] == '.' then [""] + rest else [[s[0]] + rest[0]] + rest[1..]
  }

  /** A path without dots is a single segment. */
  lemma {:induction false} SplitWithoutDots(a: string)
    requires forall i :: 0 <= i < |a| ==> a[i] != '.'
    ensures SplitDots(a) == [a]
  {
    if a != [] {
      SplitWithoutDots(a[1..]);
      assert [a[0]] + a[1..] == a;
    }
  }

  lemma {:induction false} SplitAfterName(a: string, b: string)
    requires forall i :: 0 <= i < |a| ==> a[i] != '.'
    ensures SplitDots(a + "." + b) == [a] + SplitDots(b)
  {
    if a == [] {
      assert a + "." + b == ['.'] + b;
      assert (['.'] + b)[1..] == b;
    } else {
      assert (a + "." + b)[1..] == a[1..] + "." + b;
      SplitAfterName(a[1..], b);
      assert [a[0]] + a[1..] == a;
    }
  }

  /** The expression inside a `{{ }}` reference, if the text is one. */
  function ReferenceOf(t: string): Option<string> {
    if |t| >= 4 && t[..2] == "{{" && t[|t| - 2..] == "}}" then Some(t[2..|t| - 2]) else None
  }

  lemma Unwrap(open: string, inner: string, close: string)
    ensures (open + inner + close)[|open|..|open| + |inner|] == inner
    ensures (open + inner + close)[..|open|] == open
    ensures (open + inner + close)[|open| + |inner|..] == close
  {
  }

  /** The preview is the reference `{{name.text}}`, with the placeholder for an empty name. */
  lemma PreviewIsReference(watched: string)
    ensures ReferenceOf(Preview(watched)) == Some((if watched != "" then watched else PlaceholderName) + ".text")
  {
    var inner := (if watched != "" then watched else PlaceholderName) + ".text";
    assert Preview(watched) == "{{" + inner + "}}";
    Unwrap("{{", inner, "}}");
  }

  /**
   * For a name the form accepts, the previewed reference's path is exactly the name
   * and `text`, and it resolves to the text the node stores under that name.
   */
  lemma PreviewResolves(v: OpenAiFormValues, context: Context, text: string)
    requires Validate(v).Valid?
    ensures ReferenceOf(Preview(v.variableName)).Some?
    ensures var path := SplitDots(ReferenceOf(Preview(v.variableName)).value);
            && path == [v.variableName, "text"]
            && Lookup(JObject(WithOutput(context, v.variableName, text)), path) == Some(JString(text))
  {
    var name := v.variableName;
    PreviewIsReference(name);
    assert ReferenceOf(Preview(name)).value == name + "." + "text";
    forall i | 0 <= i < |name| ensures name[i] != '.' {
      if i == 0 { assert IdentifierStart(name[0]); } else { assert IdentifierPart(name[i]); }
    }
    SplitAfterName(name, "text");
    SplitWithoutDots("text");
    OutputReferenceResolves(context, name, text);
  }
}
