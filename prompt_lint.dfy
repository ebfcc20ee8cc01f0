/** The prompt-library linter: every YAML prompt file is checked against
    five rules and the errors of all files are added up; the process exit
    status is 1 when any error was found. Finding the files and parsing YAML
    are outside the model: each file arrives already loaded (or failed). */
module PromptLint {
  import opened Values
  import opened Strings

  /** One prompt file as `yaml.safe_load` leaves it. */
  datatype PromptFile =
    | Unparsable        // yaml.YAMLError
    | Unreadable        // any other exception while opening or reading
    | Loaded(doc: Value)

  function Indicator(b: bool): nat {
    if b then 1 else 0
  }

  /** Rules 2 and 3: a missing `description` key, else an all-whitespace
      description. Reading a description that is not a string raises. */
  function DescriptionErrors(doc: Value): (r: Result<nat, PyError>)
    requires doc.Dict? || doc.List? || doc.Str?
    ensures r.Ok? ==> r.value <= 1
    ensures doc.Dict? && "description" !in doc.entries ==> r == Ok(1)
    ensures doc.Dict? && "description" in doc.entries && doc.entries["description"].Str? ==>
      r == Ok(Indicator(IsBlank(doc.entries["description"].s)))
  {
    var present := In("description", doc).value;
    if !present then Ok(1)
    else
      match Subscript(doc, "description")
      case Err(e) => Err(e)
      case Ok(description) =>
        if !description.Str? then Err(AttributeError)
        else
          StripEmpty(description.s);
          Ok(Indicator(Strip(description.s) == ""))
  }

  /** Rule 5 on the value of `prompt_data.get('template', '')`. */
  function PlaceholderErrors(template: Value): (r: Result<nat, PyError>)
    ensures template.Str? ==>
      r == Ok(Indicator(Contains(template.s, "TODO") || Contains(template.s, "FIXME")))
    ensures r.Err? <==> !(template.Dict? || template.List? || template.Str?)
  {
    match In("TODO", template)
    case Err(e) => Err(e)
    case Ok(todo) =>
      if todo then Ok(1)
      else Ok(Indicator(In("FIXME", template).value))
  }

  /** The errors charged inside the `try` block for one loaded document, or
      the exception that cut it short together with what had been charged
      before it. */
  function DocumentErrors(doc: Value): (r: (nat, Option<PyError>))
  {
    match In("version", doc)
    case Err(e) => (0, Some(e))
    case Ok(hasVersion) =>
      var rule1 := Indicator(!hasVersion);
      match DescriptionErrors(doc)
      case Err(e) => (rule1, Some(e))
      case Ok(rules23) =>
        var rule4 := Indicator(!In("template", doc).value);
        if !doc.Dict? then (rule1 + rules23 + rule4, Some(AttributeError))
        else
          var template := Get(doc.entries, "template", Str(""));
          match PlaceholderErrors(template)
          case Err(e) => (rule1 + rules23 + rule4, Some(e))
          case Ok(rule5) => (rule1 + rules23 + rule4 + rule5, None)
  }

  /** The amount one file adds to `error_count`: the rules it breaks, plus
      one when its processing raised. */
  function FileErrors(f: PromptFile): (n: nat)
    ensures f.Unparsable? || f.Unreadable? ==> n == 1
  {
    match f
    case Unparsable => 1
    case Unreadable => 1
    case Loaded(doc) =>
      var (charged, raised) := DocumentErrors(doc);
      charged + Indicator(raised.Some?)
  }

  /** A well-formed prompt document (a mapping whose description and
      template, when present, are strings) is charged exactly one error per
      broken rule: missing version, missing or blank description, missing
      template, placeholder in template. A missing template is read as '',
      which holds no placeholder. */
  lemma WellFormedFileErrors(entries: map<string, Value>)
    requires "description" in entries ==> entries["description"].Str?
    requires "template" in entries ==> entries["template"].Str?
    ensures FileErrors(Loaded(Dict(entries))) ==
      Indicator("version" !in entries)
      + Indicator("description" !in entries || IsBlank(entries["description"].s))
      + Indicator("template" !in entries)
      + Indicator("template" in entries &&
                  (Contains(entries["template"].s, "TODO") || Contains(entries["template"].s, "FIXME")))
  {
    var template := Get(entries, "template", Str(""));
    if "template" !in entries {
      assert !Contains("", "TODO") && !Contains("", "FIXME");
    }
  }

  /** A description that is present but not a string raises on `.strip()`:
      the file is charged its version error, if any, plus one. */
  lemma NonStringDescription(entries: map<string, Value>)
    requires "description" in entries && !entries["description"].Str?
    ensures FileErrors(Loaded(Dict(entries))) == Indicator("version" !in entries) + 1
  {
  }

  /** A document that is not a container (an empty file loads as None)
      raises at the first rule and is charged once. */
  lemma ScalarDocument(doc: Value)
    requires !(doc.Dict? || doc.List? || doc.Str?)
    ensures FileErrors(Loaded(doc)) == 1
  {
  }

  /** What each file is charged, in file order. */
  function Charges(files: seq<PromptFile>): (c: seq<nat>)
    ensures |c| == |files|
    ensures forall i :: 0 <= i < |files| ==> c[i] == FileErrors(files[i])
  {
    seq(|files|, i requires 0 <= i < |files| => FileErrors(files[i]))
  }

  function Sum(s: seq<nat>): nat
    decreases |s|
  {
    if s == [] then 0 else Sum(s[..|s| - 1]) + s[|s| - 1]
  }

  /** The total is positive exactly when some file is charged. */
  lemma {:induction false} SumPositive(s: seq<nat>)
    ensures Sum(s) > 0 <==> exists i :: 0 <= i < |s| && s[i] > 0
    decreases |s|
  {
    if s != [] {
      var init := s[..|s| - 1];
      SumPositive(init);
      if Sum(init) > 0 {
        var i :| 0 <= i < |init| && init[i] > 0;
        assert s[i] == init[i];
      }
      forall i | 0 <= i < |init| ensures s[i] == init[i] { }
    }
  }

  /** `lint_prompts(directory)` over the files the directory search found,
      in that order: the sum of what each file is charged. */
  method LintPrompts(files: seq<PromptFile>) returns (errorCount: nat)
    ensures errorCount == Sum(Charges(files))
    ensures errorCount > 0 <==> exists i :: 0 <= i < |files| && FileErrors(files[i]) > 0
  {
    errorCount := 0;
    if files == [] {
      return;
    }
    ghost var charges := Charges(files);
    var i := 0;
    while i < |files|
      invariant 0 <= i <= |files|
      invariant errorCount == Sum(charges[..i])
    {
      assert charges[..i + 1][..i] == charges[..i];
      errorCount := errorCount + FileErrors(files[i]);
      i := i + 1;
    }
    assert charges[..i] == charges;
    SumPositive(charges);
  }

  /** The exit status of the command-line entry point: 1 without a
      directory argument, otherwise 1 exactly when errors were found. */
  function ExitStatus(directoryGiven: bool, errorCount: nat): (status: int)
    ensures status == 0 <==> directoryGiven && errorCount == 0
    ensures status == 0 || status == 1
  {
    if !directoryGiven then 1 else if errorCount > 0 then 1 else 0
  }
}
