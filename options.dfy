/**
  The user-configurable options of the language server (package `source`):
  the `Options` record, the way a decoded configuration object is applied to it
  entry by entry (`SetOptions`, `Options.set`), and the adjustment of the options
  to what the editor client says it supports (`ForClientCapabilities`).
 */
module Source {
  import opened Wrappers
  import opened GoValues

  datatype HoverKind = SingleLine | NoDocumentation | SynopsisDocumentation | FullDocumentation | Structured

  datatype OptionState = OptionHandled | OptionDeprecated | OptionUnexpected

  /** protocol.InsertTextFormat */
  datatype InsertTextFormat = PlainTextTextFormat | SnippetTextFormat

  /** protocol.TextDocumentSyncKind */
  datatype TextDocumentSyncKind = SyncNone | SyncFull | SyncIncremental

  /** protocol.MarkupKind is a string type ("plaintext" or "markdown"). */
  type MarkupKind = string

  const Markdown: MarkupKind := "markdown"

  /** time.Duration in nanoseconds. */
  type Duration = int

  const Millisecond: Duration := 1000000

  /** time.ParseDuration: the strings it accepts, each with the duration it denotes. */
  type DurationParser = imap<string, Duration>

  datatype CompletionOptions = CompletionOptions(
    deep: bool,
    fuzzyMatching: bool,
    caseSensitive: bool,
    unimported: bool,
    documentation: bool,
    fullDocumentation: bool,
    placeholders: bool,
    literal: bool,
    budget: Duration)

  /** The Options record: the fields the option code reads or writes. */
  datatype Options = Options(
    env: seq<string>,
    buildFlags: seq<string>,
    hoverKind: HoverKind,
    disabledAnalyses: set<string>,
    staticCheck: bool,
    goDiff: bool,
    watchFileChanges: bool,
    insertTextFormat: InsertTextFormat,
    configurationSupported: bool,
    dynamicConfigurationSupported: bool,
    dynamicWatchedFilesSupported: bool,
    preferredContentFormat: MarkupKind,
    lineFoldingOnly: bool,
    textDocumentSyncKind: TextDocumentSyncKind,
    completion: CompletionOptions,
    localPrefix: string,
    verboseOutput: bool,
    tempModfile: bool,
    linkTarget: string)

  /** DefaultOptions, with the process environment passed in. */
  function DefaultOptions(environ: seq<string>): Options
  {
    Options(
      env := environ,
      buildFlags := [],
      hoverKind := SynopsisDocumentation,
      disabledAnalyses := {},
      staticCheck := false,
      goDiff := true,
      watchFileChanges := false,
      insertTextFormat := PlainTextTextFormat,
      configurationSupported := false,
      dynamicConfigurationSupported := false,
      dynamicWatchedFilesSupported := false,
      preferredContentFormat := Markdown,
      lineFoldingOnly := false,
      textDocumentSyncKind := SyncIncremental,
      completion := CompletionOptions(
        deep := true, fuzzyMatching := true, caseSensitive := false, unimported := false,
        documentation := true, fullDocumentation := false, placeholders := false, literal := true,
        budget := 100 * Millisecond),
      localPrefix := "",
      verboseOutput := false,
      tempModfile := false,
      linkTarget := "pkg.go.dev")
  }

  /** The parts of protocol.ClientCapabilities that ForClientCapabilities reads. */
  datatype ClientCapabilities = ClientCapabilities(
    snippetSupport: bool,                 // TextDocument.Completion.CompletionItem.SnippetSupport
    configuration: bool,                  // Workspace.Configuration
    didChangeConfigurationDynamic: bool,  // Workspace.DidChangeConfiguration.DynamicRegistration
    didChangeWatchedFilesDynamic: bool,   // Workspace.DidChangeWatchedFiles.DynamicRegistration
    hoverContentFormat: seq<MarkupKind>,  // TextDocument.Hover.ContentFormat
    lineFoldingOnly: bool)                // TextDocument.FoldingRange.LineFoldingOnly

  /** The dynamic type an option expects its value to have. */
  datatype Kind = BoolKind | StringKind | ListKind | MapKind

  predicate HasKind(v: Value, k: Kind)
  {
    match k
    case BoolKind => v.Bool?
    case StringKind => v.Str?
    case ListKind => v.List?
    case MapKind => v.Map?
  }

  /** The error recorded on an OptionResult. */
  datatype OptionError =
    | InvalidOptionsType(got: Value)                   // the configuration is neither nil nor a map
    | WrongType(option: string, want: Kind, got: Value) // a value of the wrong dynamic type
    | UnsupportedHoverKind(hoverKind: string)
    | BadDuration(text: string)                        // time.ParseDuration failed

  datatype OptionResult = OptionResult(
    name: string,
    value: Value,
    error: Option<OptionError>,
    state: OptionState,
    replacement: string)
  {
    /** errorf: records an error on the result. */
    function Errorf(e: OptionError): (r: OptionResult)
      ensures r.error == Some(e)
      ensures r.name == name && r.value == value && r.state == state && r.replacement == replacement
    {
      this.(error := Some(e))
    }

    /** asBool: the boolean the value carries and whether it is one; a non-boolean records a type error. */
    function AsBool(): (r: (bool, bool, OptionResult))
      ensures r.1 <==> value.Bool?
      ensures r.1 ==> r.0 == value.b && r.2 == this
      ensures !r.1 ==> !r.0 && r.2.error == Some(WrongType(name, BoolKind, value))
      ensures r.2.name == name && r.2.value == value && r.2.state == state && r.2.replacement == replacement
    {
      match value
      case Bool(b) => (b, true, this)
      case _ => (false, false, Errorf(WrongType(name, BoolKind, value)))
    }

    /** asString: the string the value carries and whether it is one; a non-string records a type error. */
    function AsString(): (r: (string, bool, OptionResult))
      ensures r.1 <==> value.Str?
      ensures r.1 ==> r.0 == value.s && r.2 == this
      ensures !r.1 ==> r.0 == "" && r.2.error == Some(WrongType(name, StringKind, value))
      ensures r.2.name == name && r.2.value == value && r.2.state == state && r.2.replacement == replacement
    {
      match value
      case Str(s) => (s, true, this)
      case _ => ("", false, Errorf(WrongType(name, StringKind, value)))
    }

    /**
      setBool: what to store at the field's address (nothing when the value is
      not a boolean), and the result after the type check.
     */
    function SetBool(): (r: (Option<bool>, OptionResult))
      ensures value.Bool? ==> r.0 == Some(value.b) && r.1 == this
      ensures !value.Bool? ==> r.0 == None && r.1 == this.(error := Some(WrongType(name, BoolKind, value)))
    {
      var (b, ok, res) := AsBool();
      (if ok then Some(b) else None, res)
    }
  }

  // ---------------------------------------------------------------------------
  // The option name table and the meaning of applying one entry.
  // ---------------------------------------------------------------------------

  /** The boolean fields an option name can target. */
  datatype BoolField =
    | WatchFileChanges | CompletionDocumentation | UsePlaceholders | DeepCompletion
    | FuzzyMatching | CaseSensitiveCompletion | CompleteUnimported | StaticCheck
    | GoDiff | VerboseOutput | TempModfile

  function GetBool(s: Options, f: BoolField): bool
  {
    match f
    case WatchFileChanges => s.watchFileChanges
    case CompletionDocumentation => s.completion.documentation
    case UsePlaceholders => s.completion.placeholders
    case DeepCompletion => s.completion.deep
    case FuzzyMatching => s.completion.fuzzyMatching
    case CaseSensitiveCompletion => s.completion.caseSensitive
    case CompleteUnimported => s.completion.unimported
    case StaticCheck => s.staticCheck
    case GoDiff => s.goDiff
    case VerboseOutput => s.verboseOutput
    case TempModfile => s.tempModfile
  }

  function PutBool(s: Options, f: BoolField, b: bool): Options
  {
    s.(
      watchFileChanges := if f == WatchFileChanges then b else s.watchFileChanges,
      staticCheck := if f == StaticCheck then b else s.staticCheck,
      goDiff := if f == GoDiff then b else s.goDiff,
      verboseOutput := if f == VerboseOutput then b else s.verboseOutput,
      tempModfile := if f == TempModfile then b else s.tempModfile,
      completion := s.completion.(
        documentation := if f == CompletionDocumentation then b else s.completion.documentation,
        placeholders := if f == UsePlaceholders then b else s.completion.placeholders,
        deep := if f == DeepCompletion then b else s.completion.deep,
        fuzzyMatching := if f == FuzzyMatching then b else s.completion.fuzzyMatching,
        caseSensitive := if f == CaseSensitiveCompletion then b else s.completion.caseSensitive,
        unimported := if f == CompleteUnimported then b else s.completion.unimported))
  }

  /** The string fields an option name can target. */
  datatype StringField = LinkTarget | LocalPrefix

  function PutString(s: Options, f: StringField, v: string): Options
  {
    match f
    case LinkTarget => s.(linkTarget := v)
    case LocalPrefix => s.(localPrefix := v)
  }

  /** What an option name refers to: the name table of `Options.set`. */
  datatype OptionName =
    | EnvOption
    | BuildFlagsOption
    | NoIncrementalSyncOption
    | BoolOption(field: BoolField)
    | CompletionBudgetOption
    | HoverKindOption
    | StringOption(stringField: StringField)
    | DisabledAnalysesOption
    | DeprecatedOption(replacement: string)  // "" when there is no replacement
    | UnexpectedOption

  function Classify(name: string): OptionName
  {
    match name
    case "env" => EnvOption
    case "buildFlags" => BuildFlagsOption
    case "noIncrementalSync" => NoIncrementalSyncOption
    case "watchFileChanges" => BoolOption(WatchFileChanges)
    case "completionDocumentation" => BoolOption(CompletionDocumentation)
    case "usePlaceholders" => BoolOption(UsePlaceholders)
    case "deepCompletion" => BoolOption(DeepCompletion)
    case "fuzzyMatching" => BoolOption(FuzzyMatching)
    case "caseSensitiveCompletion" => BoolOption(CaseSensitiveCompletion)
    case "completeUnimported" => BoolOption(CompleteUnimported)
    case "completionBudget" => CompletionBudgetOption
    case "hoverKind" => HoverKindOption
    case "linkTarget" => StringOption(LinkTarget)
    case "experimentalDisabledAnalyses" => DisabledAnalysesOption
    case "staticcheck" => BoolOption(StaticCheck)
    case "go-diff" => BoolOption(GoDiff)
    case "local" => StringOption(LocalPrefix)
    case "verboseOutput" => BoolOption(VerboseOutput)
    case "tempModfile" => BoolOption(TempModfile)
    case "wantSuggestedFixes" => DeprecatedOption("")
    case "disableDeepCompletion" => DeprecatedOption("deepCompletion")
    case "disableFuzzyMatching" => DeprecatedOption("fuzzyMatching")
    case "wantCompletionDocumentation" => DeprecatedOption("completionDocumentation")
    case "wantUnimportedCompletions" => DeprecatedOption("completeUnimported")
    case _ => UnexpectedOption
  }

  /** The dynamic type the value of a handled option must have. */
  function KindOf(c: OptionName): Kind
  {
    match c
    case EnvOption => MapKind
    case BuildFlagsOption => ListKind
    case DisabledAnalysesOption => ListKind
    case NoIncrementalSyncOption => BoolKind
    case BoolOption(_) => BoolKind
    case _ => StringKind
  }

  const HoverKinds: map<string, HoverKind> := map[
    "NoDocumentation" := NoDocumentation,
    "SingleLine" := SingleLine,
    "SynopsisDocumentation" := SynopsisDocumentation,
    "FullDocumentation" := FullDocumentation,
    "Structured" := Structured]

  /** The Go identifier of each HoverKind constant. */
  function HoverKindName(k: HoverKind): string
  {
    match k
    case SingleLine => "SingleLine"
    case NoDocumentation => "NoDocumentation"
    case SynopsisDocumentation => "SynopsisDocumentation"
    case FullDocumentation => "FullDocumentation"
    case Structured => "Structured"
  }

  /** fmt.Sprintf("%s=%s", k, v) */
  function EnvEntry(k: string, v: Value): string
  {
    k + "=" + FormatS(v)
  }

  function EnvLines(es: seq<(string, Value)>): seq<string>
  {
    seq(|es|, i requires 0 <= i < |es| => EnvEntry(es[i].0, es[i].1))
  }

  /** fmt.Sprintf("%s", x) of every element, in order. */
  function FormatAll(xs: seq<Value>): seq<string>
  {
    seq(|xs|, i requires 0 <= i < |xs| => FormatS(xs[i]))
  }

  /** The set of fmt.Sprint(x) over the elements. */
  function SprintSet(xs: seq<Value>): set<string>
  {
    set x | x in xs :: FormatV(x)
  }

  /** The result that applying one configuration entry reports. */
  function Evaluate(name: string, value: Value, parseDuration: DurationParser): OptionResult
  {
    var handled := OptionResult(name, value, None, OptionHandled, "");
    match Classify(name)
    case DeprecatedOption(r) => handled.(state := OptionDeprecated, replacement := r)
    case UnexpectedOption => handled.(state := OptionUnexpected)
    case HoverKindOption =>
      if !value.Str? then handled.(error := Some(WrongType(name, StringKind, value)))
      else if value.s !in HoverKinds then handled.(error := Some(UnsupportedHoverKind(value.s)))
      else handled
    case CompletionBudgetOption =>
      if !value.Str? then handled.(error := Some(WrongType(name, StringKind, value)))
      else if value.s !in parseDuration then handled.(error := Some(BadDuration(value.s)))
      else handled
    case c =>
      if !HasKind(value, KindOf(c)) then handled.(error := Some(WrongType(name, KindOf(c), value)))
      else handled
  }

  /** The options after applying a value to the option `c` classifies. */
  function Apply(s: Options, c: OptionName, value: Value, parseDuration: DurationParser): Options
  {
    match c
    case BoolOption(f) =>
      if value.Bool? then PutBool(s, f, value.b) else s
    case StringOption(f) =>
      if value.Str? then PutString(s, f, value.s) else s
    case EnvOption =>
      if value.Map? then s.(env := s.env + EnvLines(value.entries)) else s
    case BuildFlagsOption =>
      if value.List? then s.(buildFlags := FormatAll(value.elems)) else s
    case NoIncrementalSyncOption =>
      if value == Bool(true) then s.(textDocumentSyncKind := SyncFull) else s
    case CompletionBudgetOption =>
      if value.Str? && value.s in parseDuration then
        s.(completion := s.completion.(budget := parseDuration[value.s]))
      else s
    case HoverKindOption =>
      if value.Str? && value.s in HoverKinds then s.(hoverKind := HoverKinds[value.s]) else s
    case DisabledAnalysesOption =>
      if value.List? then s.(disabledAnalyses := SprintSet(value.elems)) else s
    case _ =>
      s
  }

  /** The options after applying one configuration entry. */
  function Update(s: Options, name: string, value: Value, parseDuration: DurationParser): Options
  {
    Apply(s, Classify(name), value, parseDuration)
  }

  /** The results SetOptions returns for a decoded configuration. */
  function Results(opts: Value, parseDuration: DurationParser): seq<OptionResult>
  {
    match opts
    case Nil => []
    case Map(es) => seq(|es|, i requires 0 <= i < |es| => Evaluate(es[i].0, es[i].1, parseDuration))
    case _ => [OptionResult("", opts, Some(InvalidOptionsType(opts)), OptionHandled, "")]
  }

  /** The options after applying the entries one after the other. */
  function UpdateAll(s: Options, es: seq<(string, Value)>, parseDuration: DurationParser): Options
  {
    if es == [] then s
    else
      var last := es[|es| - 1];
      Update(UpdateAll(s, es[..|es| - 1], parseDuration), last.0, last.1, parseDuration)
  }

  /** The options after SetOptions. */
  function Applied(s: Options, opts: Value, parseDuration: DurationParser): Options
  {
    if opts.Map? then UpdateAll(s, opts.entries, parseDuration) else s
  }

  /** The options after ForClientCapabilities. */
  function WithClientCapabilities(s: Options, caps: ClientCapabilities): Options
  {
    s.(
      insertTextFormat := if caps.snippetSupport then SnippetTextFormat else s.insertTextFormat,
      configurationSupported := caps.configuration,
      dynamicConfigurationSupported := caps.didChangeConfigurationDynamic,
      dynamicWatchedFilesSupported := caps.didChangeWatchedFilesDynamic,
      preferredContentFormat := if |caps.hoverContentFormat| > 0 then caps.hoverContentFormat[0] else s.preferredContentFormat,
      lineFoldingOnly := caps.lineFoldingOnly)
  }

  // ---------------------------------------------------------------------------
  // Applying options. Go updates an Options variable in place; here each
  // operation takes the record and returns its new content.
  // ---------------------------------------------------------------------------

  /** Adjusts the options to what the client declares it supports. */
  method ForClientCapabilities(o: Options, caps: ClientCapabilities) returns (o': Options)
    ensures o' == WithClientCapabilities(o, caps)
  {
    var insertTextFormat := o.insertTextFormat;
    if caps.snippetSupport {
      insertTextFormat := SnippetTextFormat;
    }
    var preferredContentFormat := o.preferredContentFormat;
    if |caps.hoverContentFormat| > 0 {
      preferredContentFormat := caps.hoverContentFormat[0];
    }
    o' := o.(
      insertTextFormat := insertTextFormat,
      configurationSupported := caps.configuration,
      dynamicConfigurationSupported := caps.didChangeConfigurationDynamic,
      dynamicWatchedFilesSupported := caps.didChangeWatchedFilesDynamic,
      preferredContentFormat := preferredContentFormat,
      lineFoldingOnly := caps.lineFoldingOnly);
  }

  /** The result `set` starts from before it looks at the value. */
  function Fresh(name: string, value: Value): OptionResult
  {
    OptionResult(name, value, None, OptionHandled, "")
  }

  /** The "env" case: appends one `k=v` entry per map entry. */
  method SetEnv(o: Options, value: Value, parseDuration: DurationParser)
    returns (o': Options, result: OptionResult)
    ensures o' == Update(o, "env", value, parseDuration)
    ensures result == Evaluate("env", value, parseDuration)
  {
    assert Classify("env") == EnvOption;
    o', result := o, Fresh("env", value);
    if !value.Map? {
      result := result.Errorf(WrongType("env", MapKind, value));
      return;
    }
    var entries := value.entries;
    var env := o.env;
    for i := 0 to |entries|
      invariant env == o.env + EnvLines(entries[..i])
    {
      env := env + [EnvEntry(entries[i].0, entries[i].1)];
    }
    assert entries[..|entries|] == entries;
    o' := o.(env := env);
  }

  /** The "buildFlags" case: replaces the build flags by the rendered list elements. */
  method SetBuildFlags(o: Options, value: Value, parseDuration: DurationParser)
    returns (o': Options, result: OptionResult)
    ensures o' == Update(o, "buildFlags", value, parseDuration)
    ensures result == Evaluate("buildFlags", value, parseDuration)
  {
    assert Classify("buildFlags") == BuildFlagsOption;
    o', result := o, Fresh("buildFlags", value);
    if !value.List? {
      result := result.Errorf(WrongType("buildFlags", ListKind, value));
      return;
    }
    var iflags := value.elems;
    var flags: seq<string> := [];
    for i := 0 to |iflags|
      invariant flags == FormatAll(iflags[..i])
    {
      flags := flags + [FormatS(iflags[i])];
    }
    assert iflags[..|iflags|] == iflags;
    o' := o.(buildFlags := flags);
  }

  /** The "noIncrementalSync" case: `true` switches to full-text synchronisation. */
  method SetNoIncrementalSync(o: Options, value: Value, parseDuration: DurationParser)
    returns (o': Options, result: OptionResult)
    ensures o' == Update(o, "noIncrementalSync", value, parseDuration)
    ensures result == Evaluate("noIncrementalSync", value, parseDuration)
  {
    assert Classify("noIncrementalSync") == NoIncrementalSyncOption;
    o', result := o, Fresh("noIncrementalSync", value);
    var t := result.AsBool();
    result := t.2;
    if t.1 && t.0 {
      o' := o.(textDocumentSyncKind := SyncFull);
    }
  }

  /** A boolean option: `result.setBool(&o.<field>)`. */
  method SetBoolOption(o: Options, name: string, f: BoolField, value: Value, parseDuration: DurationParser)
    returns (o': Options, result: OptionResult)
    requires Classify(name) == BoolOption(f)
    ensures o' == Update(o, name, value, parseDuration)
    ensures result == Evaluate(name, value, parseDuration)
  {
    o', result := o, Fresh(name, value);
    var t := result.SetBool();
    result := t.1;
    if t.0.Some? {
      o' := PutBool(o, f, t.0.value);
    }
  }

  /** The "completionBudget" case: a duration string, parsed by time.ParseDuration. */
  method SetCompletionBudget(o: Options, value: Value, parseDuration: DurationParser)
    returns (o': Options, result: OptionResult)
    ensures o' == Update(o, "completionBudget", value, parseDuration)
    ensures result == Evaluate("completionBudget", value, parseDuration)
  {
    assert Classify("completionBudget") == CompletionBudgetOption;
    o', result := o, Fresh("completionBudget", value);
    var t := result.AsString();
    result := t.2;
    if t.1 {
      if t.0 !in parseDuration {
        result := result.Errorf(BadDuration(t.0));
      } else {
        o' := o.(completion := o.completion.(budget := parseDuration[t.0]));
      }
    }
  }

  /** The "hoverKind" case: one of five constant names. */
  method SetHoverKind(o: Options, value: Value, parseDuration: DurationParser)
    returns (o': Options, result: OptionResult)
    ensures o' == Update(o, "hoverKind", value, parseDuration)
    ensures result == Evaluate("hoverKind", value, parseDuration)
  {
    assert Classify("hoverKind") == HoverKindOption;
    o', result := o, Fresh("hoverKind", value);
    if !value.Str? {
      result := result.Errorf(WrongType("hoverKind", StringKind, value));
      return;
    }
    match value.s {
      case "NoDocumentation" => o' := o.(hoverKind := NoDocumentation);
      case "SingleLine" => o' := o.(hoverKind := SingleLine);
      case "SynopsisDocumentation" => o' := o.(hoverKind := SynopsisDocumentation);
      case "FullDocumentation" => o' := o.(hoverKind := FullDocumentation);
      case "Structured" => o' := o.(hoverKind := Structured);
      case _ => result := result.Errorf(UnsupportedHoverKind(value.s));
    }
  }

  /** A string option ("linkTarget", "local"). */
  method SetStringOption(o: Options, name: string, f: StringField, value: Value, parseDuration: DurationParser)
    returns (o': Options, result: OptionResult)
    requires Classify(name) == StringOption(f)
    ensures o' == Update(o, name, value, parseDuration)
    ensures result == Evaluate(name, value, parseDuration)
  {
    o', result := o, Fresh(name, value);
    if !value.Str? {
      result := result.Errorf(WrongType(name, StringKind, value));
      return;
    }
    o' := PutString(o, f, value.s);
  }

  /** The "experimentalDisabledAnalyses" case: the set of rendered list elements. */
  method SetDisabledAnalyses(o: Options, value: Value, parseDuration: DurationParser)
    returns (o': Options, result: OptionResult)
    ensures o' == Update(o, "experimentalDisabledAnalyses", value, parseDuration)
    ensures result == Evaluate("experimentalDisabledAnalyses", value, parseDuration)
  {
    assert Classify("experimentalDisabledAnalyses") == DisabledAnalysesOption;
    o', result := o, Fresh("experimentalDisabledAnalyses", value);
    if !value.List? {
      result := result.Errorf(WrongType("experimentalDisabledAnalyses", ListKind, value));
      return;
    }
    var xs := value.elems;
    var disabled: set<string> := {};
    for i := 0 to |xs|
      invariant disabled == SprintSet(xs[..i])
    {
      assert xs[..i + 1] == xs[..i] + [xs[i]];
      disabled := disabled + {FormatV(xs[i])};
    }
    assert xs[..|xs|] == xs;
    o' := o.(disabledAnalyses := disabled);
  }

  /** A deprecated option: reported with its replacement, options untouched. */
  method Deprecate(o: Options, name: string, replacement: string, value: Value, parseDuration: DurationParser)
    returns (o': Options, result: OptionResult)
    requires Classify(name) == DeprecatedOption(replacement)
    ensures o' == Update(o, name, value, parseDuration)
    ensures result == Evaluate(name, value, parseDuration)
  {
    o' := o;
    result := Fresh(name, value).(state := OptionDeprecated, replacement := replacement);
  }

  /** Applies one configuration entry and reports how it was handled (`Options.set`). */
  method Set(o: Options, name: string, value: Value, parseDuration: DurationParser)
    returns (o': Options, result: OptionResult)
    ensures o' == Update(o, name, value, parseDuration)
    ensures result == Evaluate(name, value, parseDuration)
  {
    match name {
      case "env" => o', result := SetEnv(o, value, parseDuration);
      case "buildFlags" => o', result := SetBuildFlags(o, value, parseDuration);
      case "noIncrementalSync" => o', result := SetNoIncrementalSync(o, value, parseDuration);
      case "watchFileChanges" => o', result := SetBoolOption(o, name, WatchFileChanges, value, parseDuration);
      case "completionDocumentation" => o', result := SetBoolOption(o, name, CompletionDocumentation, value, parseDuration);
      case "usePlaceholders" => o', result := SetBoolOption(o, name, UsePlaceholders, value, parseDuration);
      case "deepCompletion" => o', result := SetBoolOption(o, name, DeepCompletion, value, parseDuration);
      case "fuzzyMatching" => o', result := SetBoolOption(o, name, FuzzyMatching, value, parseDuration);
      case "caseSensitiveCompletion" => o', result := SetBoolOption(o, name, CaseSensitiveCompletion, value, parseDuration);
      case "completeUnimported" => o', result := SetBoolOption(o, name, CompleteUnimported, value, parseDuration);
      case "completionBudget" => o', result := SetCompletionBudget(o, value, parseDuration);
      case "hoverKind" => o', result := SetHoverKind(o, value, parseDuration);
      case "linkTarget" => o', result := SetStringOption(o, name, LinkTarget, value, parseDuration);
      case "experimentalDisabledAnalyses" => o', result := SetDisabledAnalyses(o, value, parseDuration);
      case "staticcheck" => o', result := SetBoolOption(o, name, StaticCheck, value, parseDuration);
      case "go-diff" => o', result := SetBoolOption(o, name, GoDiff, value, parseDuration);
      case "local" => o', result := SetStringOption(o, name, LocalPrefix, value, parseDuration);
      case "verboseOutput" => o', result := SetBoolOption(o, name, VerboseOutput, value, parseDuration);
      case "tempModfile" => o', result := SetBoolOption(o, name, TempModfile, value, parseDuration);
      case "wantSuggestedFixes" => o', result := Deprecate(o, name, "", value, parseDuration);
      case "disableDeepCompletion" => o', result := Deprecate(o, name, "deepCompletion", value, parseDuration);
      case "disableFuzzyMatching" => o', result := Deprecate(o, name, "fuzzyMatching", value, parseDuration);
      case "wantCompletionDocumentation" => o', result := Deprecate(o, name, "completionDocumentation", value, parseDuration);
      case "wantUnimportedCompletions" => o', result := Deprecate(o, name, "completeUnimported", value, parseDuration);
      case _ => o', result := SetUnexpected(o, name, value, parseDuration);
    }
  }

  /** The names `set` recognises, current and deprecated. */
  const KnownNames: set<string> := {
    "env", "buildFlags", "noIncrementalSync", "watchFileChanges", "completionDocumentation",
    "usePlaceholders", "deepCompletion", "fuzzyMatching", "caseSensitiveCompletion",
    "completeUnimported", "completionBudget", "hoverKind", "linkTarget",
    "experimentalDisabledAnalyses", "staticcheck", "go-diff", "local", "verboseOutput",
    "tempModfile", "wantSuggestedFixes", "disableDeepCompletion", "disableFuzzyMatching",
    "wantCompletionDocumentation", "wantUnimportedCompletions"
  }

  /** Any other name is reported as unexpected and changes nothing. */
  method SetUnexpected(o: Options, name: string, value: Value, parseDuration: DurationParser)
    returns (o': Options, result: OptionResult)
    requires name !in KnownNames
    ensures o' == Update(o, name, value, parseDuration)
    ensures result == Evaluate(name, value, parseDuration)
  {
    o', result := o, Fresh(name, value).(state := OptionUnexpected);
  }

  lemma UpdateAllSnoc(s: Options, es: seq<(string, Value)>, i: nat, parseDuration: DurationParser)
    requires i < |es|
    ensures UpdateAll(s, es[..i + 1], parseDuration) == Update(UpdateAll(s, es[..i], parseDuration), es[i].0, es[i].1, parseDuration)
  {
    assert es[..i + 1][..i] == es[..i];
  }

  lemma ResultsSnoc(es: seq<(string, Value)>, i: nat, parseDuration: DurationParser)
    requires i < |es|
    ensures Results(Map(es[..i + 1]), parseDuration) == Results(Map(es[..i]), parseDuration) + [Evaluate(es[i].0, es[i].1, parseDuration)]
  {
  }

  /** Applies a decoded configuration object to the options, one result per entry. */
  method SetOptions(options: Options, opts: Value, parseDuration: DurationParser)
    returns (options': Options, results: seq<OptionResult>)
    ensures results == Results(opts, parseDuration)
    ensures options' == Applied(options, opts, parseDuration)
  {
    options' := options;
    results := [];
    match opts {
      case Nil =>
      case Map(entries) =>
        for i := 0 to |entries|
          invariant results == Results(Map(entries[..i]), parseDuration)
          invariant options' == UpdateAll(options, entries[..i], parseDuration)
        {
          var r;
          UpdateAllSnoc(options, entries, i, parseDuration);
          ResultsSnoc(entries, i, parseDuration);
          options', r := Set(options', entries[i].0, entries[i].1, parseDuration);
          results := results + [r];
        }
        assert entries[..|entries|] == entries;
      case _ =>
        results := results + [OptionResult("", opts, Some(InvalidOptionsType(opts)), OptionHandled, "")];
    }
  }
}
