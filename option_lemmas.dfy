/**
  What applying configuration entries does to the options: the effect of each kind
  of option, the cases that leave the options alone, and why the unspecified order
  in which Go ranges over the configuration map does not change the outcome.
 */
module OptionLemmas {
  import opened Wrappers
  import opened GoValues
  import opened Source

  // ---------------------------------------------------------------------------
  // The name table
  // ---------------------------------------------------------------------------

  /** The name each boolean option is spelled with in a configuration. */
  function BoolName(f: BoolField): string
  {
    match f
    case WatchFileChanges => "watchFileChanges"
    case CompletionDocumentation => "completionDocumentation"
    case UsePlaceholders => "usePlaceholders"
    case DeepCompletion => "deepCompletion"
    case FuzzyMatching => "fuzzyMatching"
    case CaseSensitiveCompletion => "caseSensitiveCompletion"
    case CompleteUnimported => "completeUnimported"
    case StaticCheck => "staticcheck"
    case GoDiff => "go-diff"
    case VerboseOutput => "verboseOutput"
    case TempModfile => "tempModfile"
  }

  /** The name each option is spelled with in a configuration; None for an unknown name. */
  function NameOf(c: OptionName): Option<string>
  {
    match c
    case EnvOption => Some("env")
    case BuildFlagsOption => Some("buildFlags")
    case NoIncrementalSyncOption => Some("noIncrementalSync")
    case BoolOption(f) => Some(BoolName(f))
    case CompletionBudgetOption => Some("completionBudget")
    case HoverKindOption => Some("hoverKind")
    case StringOption(f) => Some(if f == LinkTarget then "linkTarget" else "local")
    case DisabledAnalysesOption => Some("experimentalDisabledAnalyses")
    case DeprecatedOption(r) =>
      if r == "" then Some("wantSuggestedFixes")
      else if r == "deepCompletion" then Some("disableDeepCompletion")
      else if r == "fuzzyMatching" then Some("disableFuzzyMatching")
      else if r == "completionDocumentation" then Some("wantCompletionDocumentation")
      else if r == "completeUnimported" then Some("wantUnimportedCompletions")
      else None
    case UnexpectedOption => None
  }

  /** Every boolean option name classifies as its own field. */
  lemma BoolNameRoundTrip(f: BoolField)
    ensures Classify(BoolName(f)) == BoolOption(f)
  {
    match f
    case WatchFileChanges =>
    case CompletionDocumentation =>
    case UsePlaceholders =>
    case DeepCompletion =>
    case FuzzyMatching =>
    case CaseSensitiveCompletion =>
    case CompleteUnimported =>
    case StaticCheck =>
    case GoDiff =>
    case VerboseOutput =>
    case TempModfile =>
  }

  /** A name that classifies as a boolean option is that field's spelling. */
  lemma ClassifyBoolName(name: string)
    requires Classify(name).BoolOption?
    ensures name == BoolName(Classify(name).field)
  {
  }

  /** A known name that is not a boolean option is the spelling of its classification. */
  lemma ClassifyOtherName(name: string)
    requires Classify(name) != UnexpectedOption && !Classify(name).BoolOption?
    ensures NameOf(Classify(name)) == Some(name)
  {
  }

  /** The names `set` recognises are exactly those the name table does not classify as unexpected. */
  lemma KnownNamesAreClassified(name: string)
    ensures name in KnownNames <==> Classify(name) != UnexpectedOption
  {
  }

  /** Every known name is the spelling of what it classifies as. */
  lemma ClassifyRoundTrip(name: string)
    ensures Classify(name) != UnexpectedOption ==> NameOf(Classify(name)) == Some(name)
  {
    if Classify(name).BoolOption? {
      ClassifyBoolName(name);
    } else if Classify(name) != UnexpectedOption {
      ClassifyOtherName(name);
    }
  }

  /** Every spelling classifies back to the option it spells. */
  lemma NameOfRoundTrip(c: OptionName)
    ensures NameOf(c).Some? ==> Classify(NameOf(c).value) == c
  {
    match c
    case BoolOption(f) => BoolNameRoundTrip(f);
    case StringOption(f) =>
    case EnvOption =>
    case BuildFlagsOption =>
    case NoIncrementalSyncOption =>
    case CompletionBudgetOption =>
    case HoverKindOption =>
    case DisabledAnalysesOption =>
    case DeprecatedOption(r) => DeprecatedNameRoundTrip(r);
    case UnexpectedOption =>
  }

  /** Every deprecated option name classifies as deprecated, with its replacement. */
  lemma DeprecatedNameRoundTrip(r: string)
    ensures NameOf(DeprecatedOption(r)).Some? ==> Classify(NameOf(DeprecatedOption(r)).value) == DeprecatedOption(r)
  {
    if r == "" {
      assert Classify("wantSuggestedFixes") == DeprecatedOption(r);
    } else if r == "deepCompletion" {
      assert Classify("disableDeepCompletion") == DeprecatedOption(r);
    } else if r == "fuzzyMatching" {
      assert Classify("disableFuzzyMatching") == DeprecatedOption(r);
    } else if r == "completionDocumentation" {
      assert Classify("wantCompletionDocumentation") == DeprecatedOption(r);
    } else if r == "completeUnimported" {
      assert Classify("wantUnimportedCompletions") == DeprecatedOption(r);
    }
  }

  /** Two different names never refer to the same option; only unknown names share a classification. */
  lemma ClassifyInjective(n1: string, n2: string)
    requires n1 != n2 && Classify(n1) == Classify(n2)
    ensures Classify(n1) == UnexpectedOption
  {
    ClassifyRoundTrip(n1);
    ClassifyRoundTrip(n2);
  }

  /** Every deprecated option either has no replacement or names a handled boolean option. */
  lemma DeprecatedReplacementIsBoolOption(name: string)
    requires Classify(name).DeprecatedOption?
    ensures var r := Classify(name).replacement; r == "" || Classify(r).BoolOption?
  {
  }

  /** The five hover kind names round-trip through the table. */
  lemma HoverKindRoundTrip(k: HoverKind)
    ensures HoverKindName(k) in HoverKinds && HoverKinds[HoverKindName(k)] == k
  {
  }

  /** Every name in the hover kind table is the name of the kind it maps to. */
  lemma HoverKindNameRoundTrip(text: string)
    requires text in HoverKinds
    ensures HoverKindName(HoverKinds[text]) == text
  {
  }

  // ---------------------------------------------------------------------------
  // The fields a boolean option writes
  // ---------------------------------------------------------------------------

  /** PutBool writes the field GetBool reads, and only that one of the eleven. */
  lemma PutGetBool(s: Options, f: BoolField, g: BoolField, b: bool)
    ensures GetBool(PutBool(s, f, b), g) == if f == g then b else GetBool(s, g)
  {
  }

  /** Writing a boolean field twice with the same value is writing it once. */
  lemma PutBoolTwice(s: Options, f: BoolField, b: bool)
    ensures PutBool(PutBool(s, f, b), f, b) == PutBool(s, f, b)
  {
  }

  /** Writing back what a boolean field holds changes nothing. */
  lemma PutBoolSame(s: Options, f: BoolField)
    ensures PutBool(s, f, GetBool(s, f)) == s
  {
  }

  // ---------------------------------------------------------------------------
  // The effect of one entry
  // ---------------------------------------------------------------------------

  /** A deprecated or unknown name, or a value that is rejected, leaves the options as they were. */
  lemma RejectedEntryChangesNothing(s: Options, name: string, value: Value, parseDuration: DurationParser)
    requires var r := Evaluate(name, value, parseDuration); r.error.Some? || r.state != OptionHandled
    ensures Update(s, name, value, parseDuration) == s
  {
    match Classify(name)
    case BoolOption(_) =>
    case StringOption(_) =>
    case EnvOption =>
    case BuildFlagsOption =>
    case NoIncrementalSyncOption =>
    case CompletionBudgetOption =>
    case HoverKindOption =>
    case DisabledAnalysesOption =>
    case DeprecatedOption(_) =>
    case UnexpectedOption =>
  }

  /** Only a deprecated name reports the deprecated state, with the replacement from the table. */
  lemma DeprecatedState(name: string, value: Value, parseDuration: DurationParser)
    ensures var r := Evaluate(name, value, parseDuration);
      (r.state == OptionDeprecated <==> Classify(name).DeprecatedOption?) &&
      (r.state == OptionDeprecated ==> r.replacement == Classify(name).replacement && r.error == None)
  {
  }

  /** Only an unknown name reports the unexpected state, and it reports no error. */
  lemma UnexpectedState(name: string, value: Value, parseDuration: DurationParser)
    ensures var r := Evaluate(name, value, parseDuration);
      (r.state == OptionUnexpected <==> Classify(name) == UnexpectedOption) &&
      (r.state == OptionUnexpected ==> r.error == None)
  {
  }

  /** Every result names the entry it comes from and carries its value. */
  lemma ResultEchoesEntry(name: string, value: Value, parseDuration: DurationParser)
    ensures Evaluate(name, value, parseDuration).name == name
    ensures Evaluate(name, value, parseDuration).value == value
  {
  }

  /**
    SetOptions on nil reports nothing; on a map, one result per entry naming it and
    carrying its value; on anything else, a single nameless error result, with the
    options untouched.
   */
  lemma SetOptionsOutcome(s: Options, opts: Value, parseDuration: DurationParser)
    ensures opts.Nil? ==> Results(opts, parseDuration) == [] && Applied(s, opts, parseDuration) == s
    ensures opts.Map? ==> var rs := Results(opts, parseDuration);
      |rs| == |opts.entries| &&
      forall i :: 0 <= i < |rs| ==> rs[i].name == opts.entries[i].0 && rs[i].value == opts.entries[i].1
    ensures !opts.Nil? && !opts.Map? ==> var rs := Results(opts, parseDuration);
      |rs| == 1 && rs[0].name == "" && rs[0].error == Some(InvalidOptionsType(opts)) &&
      Applied(s, opts, parseDuration) == s
  {
    if opts.Map? {
      var rs := Results(opts, parseDuration);
      forall i | 0 <= i < |rs|
        ensures rs[i].name == opts.entries[i].0 && rs[i].value == opts.entries[i].1
      {
        ResultEchoesEntry(opts.entries[i].0, opts.entries[i].1, parseDuration);
      }
    }
  }

  /** A known, current option given a value of the wrong dynamic type reports a type error and changes nothing. */
  lemma WrongTypeRejected(s: Options, name: string, value: Value, parseDuration: DurationParser)
    requires var c := Classify(name); !c.DeprecatedOption? && c != UnexpectedOption && !HasKind(value, KindOf(c))
    ensures Evaluate(name, value, parseDuration).error == Some(WrongType(name, KindOf(Classify(name)), value))
    ensures Update(s, name, value, parseDuration) == s
  {
  }

  /** A boolean option stores a boolean value in its field and nowhere else; any other value is a type error. */
  lemma BoolOptionEffect(s: Options, name: string, value: Value, parseDuration: DurationParser)
    requires Classify(name).BoolOption?
    ensures var f := Classify(name).field; var s' := Update(s, name, value, parseDuration);
      if value.Bool? then
        GetBool(s', f) == value.b &&
        (forall g :: g != f ==> GetBool(s', g) == GetBool(s, g)) &&
        Evaluate(name, value, parseDuration).error == None
      else
        s' == s && Evaluate(name, value, parseDuration).error == Some(WrongType(name, BoolKind, value))
  {
    var f := Classify(name).field;
    if value.Bool? {
      forall g | g != f
        ensures GetBool(Update(s, name, value, parseDuration), g) == GetBool(s, g)
      {
        PutGetBool(s, f, g, value.b);
      }
      PutGetBool(s, f, f, value.b);
    }
  }

  /**
    "noIncrementalSync": true switches to full-text synchronisation; false is accepted
    but does not switch back to incremental synchronisation.
   */
  lemma NoIncrementalSyncEffect(s: Options, b: bool, parseDuration: DurationParser)
    ensures Update(s, "noIncrementalSync", Bool(b), parseDuration) ==
      if b then s.(textDocumentSyncKind := SyncFull) else s
    ensures Evaluate("noIncrementalSync", Bool(b), parseDuration).error == None
  {
  }

  /** "hoverKind" accepts exactly the five constant names and stores the constant the name denotes. */
  lemma HoverKindEffect(s: Options, k: HoverKind, parseDuration: DurationParser)
    ensures Update(s, "hoverKind", Str(HoverKindName(k)), parseDuration).hoverKind == k
    ensures Evaluate("hoverKind", Str(HoverKindName(k)), parseDuration).error == None
  {
    HoverKindRoundTrip(k);
  }

  /** An unknown hover kind is reported and leaves the options alone. */
  lemma UnsupportedHoverKindEffect(s: Options, text: string, parseDuration: DurationParser)
    requires forall k :: HoverKindName(k) != text
    ensures Update(s, "hoverKind", Str(text), parseDuration) == s
    ensures Evaluate("hoverKind", Str(text), parseDuration).error == Some(UnsupportedHoverKind(text))
  {
    if text in HoverKinds {
      HoverKindNameRoundTrip(text);
      assert false;
    }
  }

  /** "completionBudget" stores the parsed duration, or reports the text it could not parse. */
  lemma CompletionBudgetEffect(s: Options, text: string, parseDuration: DurationParser)
    ensures var s' := Update(s, "completionBudget", Str(text), parseDuration);
      if text in parseDuration then
        s'.completion.budget == parseDuration[text] && Evaluate("completionBudget", Str(text), parseDuration).error == None
      else
        s' == s && Evaluate("completionBudget", Str(text), parseDuration).error == Some(BadDuration(text))
  {
  }

  /** "env" keeps the earlier entries and appends one `key=value` line per map entry, in visiting order. */
  lemma EnvEffect(s: Options, es: seq<(string, Value)>, parseDuration: DurationParser)
    ensures var env := Update(s, "env", Map(es), parseDuration).env;
      |env| == |s.env| + |es| && env[..|s.env|] == s.env &&
      forall i :: 0 <= i < |es| ==> env[|s.env| + i] == es[i].0 + "=" + FormatS(es[i].1)
  {
  }

  /** "buildFlags" replaces the flags by the `%s` rendering of each list element, in order; a string element is kept as it is. */
  lemma BuildFlagsEffect(s: Options, xs: seq<Value>, parseDuration: DurationParser)
    ensures var flags := Update(s, "buildFlags", List(xs), parseDuration).buildFlags;
      |flags| == |xs| &&
      (forall i :: 0 <= i < |xs| ==> flags[i] == FormatS(xs[i])) &&
      (forall i :: 0 <= i < |xs| && xs[i].Str? ==> flags[i] == xs[i].s)
  {
  }

  /** "experimentalDisabledAnalyses" replaces the set by the `fmt.Sprint` renderings of the elements: each one is in it, nothing else is. */
  lemma DisabledAnalysesEffect(s: Options, xs: seq<Value>, parseDuration: DurationParser)
    ensures var d := Update(s, "experimentalDisabledAnalyses", List(xs), parseDuration).disabledAnalyses;
      (forall x :: x in xs ==> FormatV(x) in d) &&
      (forall x :: x in xs && x.Str? ==> x.s in d) &&
      (forall a :: a in d ==> exists x :: x in xs && FormatV(x) == a)
  {
  }

  /** A string option stores a string value and rejects anything else. */
  lemma StringOptionEffect(s: Options, name: string, value: Value, parseDuration: DurationParser)
    requires Classify(name).StringOption?
    ensures var s' := Update(s, name, value, parseDuration);
      match Classify(name).stringField
      case LinkTarget => value.Str? ==> s'.linkTarget == value.s
      case LocalPrefix => value.Str? ==> s'.localPrefix == value.s
    ensures !value.Str? ==>
      Update(s, name, value, parseDuration) == s &&
      Evaluate(name, value, parseDuration).error == Some(WrongType(name, StringKind, value))
  {
  }

  /** Applying the same value twice is applying it once, for every option except "env", which appends. */
  lemma ApplyIdempotent(s: Options, c: OptionName, value: Value, parseDuration: DurationParser)
    requires c != EnvOption
    ensures var s' := Apply(s, c, value, parseDuration); Apply(s', c, value, parseDuration) == s'
  {
    match c
    case BoolOption(f) => BoolOptionIdempotent(s, f, value, parseDuration);
    case StringOption(g) => StringOptionIdempotent(s, g, value, parseDuration);
    case NoIncrementalSyncOption => NoIncrementalSyncIdempotent(s, value, parseDuration);
    case CompletionBudgetOption => CompletionBudgetIdempotent(s, value, parseDuration);
    case DisabledAnalysesOption => DisabledAnalysesIdempotent(s, value, parseDuration);
    case BuildFlagsOption =>
    case HoverKindOption =>
    case DeprecatedOption(_) =>
    case UnexpectedOption =>
  }

  lemma BoolOptionIdempotent(s: Options, f: BoolField, value: Value, parseDuration: DurationParser)
    ensures var s' := Apply(s, BoolOption(f), value, parseDuration);
      Apply(s', BoolOption(f), value, parseDuration) == s'
  {
    if value.Bool? {
      PutBoolTwice(s, f, value.b);
    }
  }

  lemma StringOptionIdempotent(s: Options, g: StringField, value: Value, parseDuration: DurationParser)
    ensures var s' := Apply(s, StringOption(g), value, parseDuration);
      Apply(s', StringOption(g), value, parseDuration) == s'
  {
  }

  lemma NoIncrementalSyncIdempotent(s: Options, value: Value, parseDuration: DurationParser)
    ensures var s' := Apply(s, NoIncrementalSyncOption, value, parseDuration);
      Apply(s', NoIncrementalSyncOption, value, parseDuration) == s'
  {
    if value == Bool(true) {
      assert Apply(s, NoIncrementalSyncOption, value, parseDuration) == s.(textDocumentSyncKind := SyncFull);
    }
  }

  lemma CompletionBudgetIdempotent(s: Options, value: Value, parseDuration: DurationParser)
    ensures var s' := Apply(s, CompletionBudgetOption, value, parseDuration);
      Apply(s', CompletionBudgetOption, value, parseDuration) == s'
  {
    if value.Str? && value.s in parseDuration {
      var budget := parseDuration[value.s];
      assert Apply(s, CompletionBudgetOption, value, parseDuration) == s.(completion := s.completion.(budget := budget));
    }
  }

  lemma DisabledAnalysesIdempotent(s: Options, value: Value, parseDuration: DurationParser)
    ensures var s' := Apply(s, DisabledAnalysesOption, value, parseDuration);
      Apply(s', DisabledAnalysesOption, value, parseDuration) == s'
  {
    if value.List? {
      assert Apply(s, DisabledAnalysesOption, value, parseDuration) == s.(disabledAnalyses := SprintSet(value.elems));
    }
  }

  /** "env" is not idempotent: a second application appends the lines again. */
  lemma EnvAppendsTwice(s: Options, k: string, v: Value, parseDuration: DurationParser)
    ensures var once := Update(s, "env", Map([(k, v)]), parseDuration);
      |Update(once, "env", Map([(k, v)]), parseDuration).env| == |s.env| + 2
  {
  }

  // ---------------------------------------------------------------------------
  // Applying a whole configuration map
  // ---------------------------------------------------------------------------

  /** The two option sets agree on all eleven boolean fields. */
  predicate SameBools(s: Options, t: Options)
  {
    s.watchFileChanges == t.watchFileChanges && s.staticCheck == t.staticCheck &&
    s.goDiff == t.goDiff && s.verboseOutput == t.verboseOutput && s.tempModfile == t.tempModfile &&
    s.completion.documentation == t.completion.documentation &&
    s.completion.placeholders == t.completion.placeholders &&
    s.completion.deep == t.completion.deep &&
    s.completion.fuzzyMatching == t.completion.fuzzyMatching &&
    s.completion.caseSensitive == t.completion.caseSensitive &&
    s.completion.unimported == t.completion.unimported
  }

  lemma SameBoolsGetBool(s: Options, t: Options, f: BoolField)
    requires SameBools(s, t)
    ensures GetBool(s, f) == GetBool(t, f)
  {
  }

  /** Applying one entry changes a boolean field only when the entry names that field. */
  lemma ApplyBoolFrame(s: Options, c: OptionName, value: Value, f: BoolField, parseDuration: DurationParser)
    ensures GetBool(Apply(s, c, value, parseDuration), f) ==
      if c == BoolOption(f) && value.Bool? then value.b else GetBool(s, f)
  {
    match c
    case BoolOption(g) =>
      if value.Bool? {
        PutGetBool(s, g, f, value.b);
      }
    case _ =>
      ApplyKeepsBools(s, c, value, parseDuration);
      SameBoolsGetBool(Apply(s, c, value, parseDuration), s, f);
  }

  /** Only a boolean option writes a boolean field. */
  lemma ApplyKeepsBools(s: Options, c: OptionName, value: Value, parseDuration: DurationParser)
    requires !c.BoolOption?
    ensures SameBools(Apply(s, c, value, parseDuration), s)
  {
    match c
    case NoIncrementalSyncOption => NoIncrementalSyncKeepsBools(s, value, parseDuration);
    case CompletionBudgetOption => CompletionBudgetKeepsBools(s, value, parseDuration);
    case DisabledAnalysesOption => DisabledAnalysesKeepsBools(s, value, parseDuration);
    case StringOption(g) => StringOptionKeepsBools(s, g, value, parseDuration);
    case EnvOption =>
    case BuildFlagsOption =>
    case HoverKindOption =>
    case DeprecatedOption(_) =>
    case UnexpectedOption =>
  }

  lemma StringOptionKeepsBools(s: Options, g: StringField, value: Value, parseDuration: DurationParser)
    ensures SameBools(Apply(s, StringOption(g), value, parseDuration), s)
  {
  }

  lemma NoIncrementalSyncKeepsBools(s: Options, value: Value, parseDuration: DurationParser)
    ensures SameBools(Apply(s, NoIncrementalSyncOption, value, parseDuration), s)
  {
    if value == Bool(true) {
      assert Apply(s, NoIncrementalSyncOption, value, parseDuration) == s.(textDocumentSyncKind := SyncFull);
    }
  }

  lemma CompletionBudgetKeepsBools(s: Options, value: Value, parseDuration: DurationParser)
    ensures SameBools(Apply(s, CompletionBudgetOption, value, parseDuration), s)
  {
    if value.Str? && value.s in parseDuration {
      var budget := parseDuration[value.s];
      assert Apply(s, CompletionBudgetOption, value, parseDuration) == s.(completion := s.completion.(budget := budget));
    }
  }

  lemma DisabledAnalysesKeepsBools(s: Options, value: Value, parseDuration: DurationParser)
    ensures SameBools(Apply(s, DisabledAnalysesOption, value, parseDuration), s)
  {
    if value.List? {
      assert Apply(s, DisabledAnalysesOption, value, parseDuration) == s.(disabledAnalyses := SprintSet(value.elems));
    }
  }

  /** Applies classified entries one after the other. */
  function ApplyAll(s: Options, cs: seq<(OptionName, Value)>, parseDuration: DurationParser): Options
  {
    if cs == [] then s
    else
      var last := cs[|cs| - 1];
      Apply(ApplyAll(s, cs[..|cs| - 1], parseDuration), last.0, last.1, parseDuration)
  }

  function Classified(es: seq<(string, Value)>): (cs: seq<(OptionName, Value)>)
    ensures |cs| == |es|
    ensures forall i :: 0 <= i < |es| ==> cs[i] == (Classify(es[i].0), es[i].1)
  {
    seq(|es|, i requires 0 <= i < |es| => (Classify(es[i].0), es[i].1))
  }

  /** Applying the entries is applying their classifications. */
  lemma {:induction false} UpdateAllIsApplyAll(s: Options, es: seq<(string, Value)>, parseDuration: DurationParser)
    ensures UpdateAll(s, es, parseDuration) == ApplyAll(s, Classified(es), parseDuration)
  {
    if es != [] {
      var n := |es| - 1;
      UpdateAllIsApplyAll(s, es[..n], parseDuration);
      assert Classified(es)[..n] == Classified(es[..n]);
    }
  }

  /**
    When at most one entry targets the boolean field `f`, the field ends up with the
    value of that entry, wherever it sits; with no such entry it keeps its value.
   */
  lemma {:induction false} ApplyAllBool(s: Options, cs: seq<(OptionName, Value)>, f: BoolField, parseDuration: DurationParser)
    requires forall i, j :: 0 <= i < j < |cs| && cs[i].0 == BoolOption(f) ==> cs[j].0 != BoolOption(f)
    ensures var b := GetBool(ApplyAll(s, cs, parseDuration), f);
      (forall i :: 0 <= i < |cs| && cs[i].0 == BoolOption(f) && cs[i].1.Bool? ==> b == cs[i].1.b) &&
      ((forall i :: 0 <= i < |cs| ==> cs[i].0 != BoolOption(f) || !cs[i].1.Bool?) ==> b == GetBool(s, f))
  {
    if cs != [] {
      var n := |cs| - 1;
      var prefix := cs[..n];
      assert forall i :: 0 <= i < n ==> prefix[i] == cs[i];
      ApplyAllBool(s, prefix, f, parseDuration);
      ApplyBoolFrame(ApplyAll(s, prefix, parseDuration), cs[n].0, cs[n].1, f, parseDuration);
    }
  }

  /**
    A Go map holds each name once, so a boolean field ends up with the value of the
    one entry that names it, whatever order the map is ranged over in; with no such
    entry it keeps its value.
   */
  lemma UpdateAllBool(s: Options, es: seq<(string, Value)>, f: BoolField, parseDuration: DurationParser)
    requires DistinctKeys(es)
    ensures var b := GetBool(UpdateAll(s, es, parseDuration), f);
      (forall i :: 0 <= i < |es| && Classify(es[i].0) == BoolOption(f) && es[i].1.Bool? ==> b == es[i].1.b) &&
      ((forall i :: 0 <= i < |es| ==> Classify(es[i].0) != BoolOption(f) || !es[i].1.Bool?) ==> b == GetBool(s, f))
  {
    var cs := Classified(es);
    forall i, j | 0 <= i < j < |cs| && cs[i].0 == BoolOption(f)
      ensures cs[j].0 != BoolOption(f)
    {
      if cs[j].0 == BoolOption(f) {
        ClassifyInjective(es[i].0, es[j].0);
      }
    }
    UpdateAllIsApplyAll(s, es, parseDuration);
    ApplyAllBool(s, cs, f, parseDuration);
  }

  // ---------------------------------------------------------------------------
  // Client capabilities
  // ---------------------------------------------------------------------------

  /**
    Snippets switch the insert text format to snippets and never back; the first
    hover format, when there is one, becomes the preferred one; the three workspace
    flags and line-folding-only are copied; nothing else changes.
   */
  lemma ClientCapabilitiesEffect(s: Options, caps: ClientCapabilities)
    ensures var s' := WithClientCapabilities(s, caps);
      (s'.insertTextFormat == SnippetTextFormat <==> caps.snippetSupport || s.insertTextFormat == SnippetTextFormat) &&
      (!caps.snippetSupport ==> s'.insertTextFormat == s.insertTextFormat) &&
      (|caps.hoverContentFormat| > 0 ==> s'.preferredContentFormat == caps.hoverContentFormat[0]) &&
      (|caps.hoverContentFormat| == 0 ==> s'.preferredContentFormat == s.preferredContentFormat) &&
      s'.configurationSupported == caps.configuration &&
      s'.dynamicConfigurationSupported == caps.didChangeConfigurationDynamic &&
      s'.dynamicWatchedFilesSupported == caps.didChangeWatchedFilesDynamic &&
      s'.lineFoldingOnly == caps.lineFoldingOnly &&
      s'.(insertTextFormat := s.insertTextFormat, preferredContentFormat := s.preferredContentFormat,
          configurationSupported := s.configurationSupported,
          dynamicConfigurationSupported := s.dynamicConfigurationSupported,
          dynamicWatchedFilesSupported := s.dynamicWatchedFilesSupported,
          lineFoldingOnly := s.lineFoldingOnly) == s
  {
  }

  /** Applying the same capabilities again changes nothing. */
  lemma ClientCapabilitiesIdempotent(s: Options, caps: ClientCapabilities)
    ensures var s' := WithClientCapabilities(s, caps); WithClientCapabilities(s', caps) == s'
  {
  }

  // ---------------------------------------------------------------------------
  // Defaults
  // ---------------------------------------------------------------------------

  /**
    The defaults synchronise incrementally and keep the process environment;
    "noIncrementalSync": true switches them to full synchronisation, false leaves
    them incremental, and "env" appends after the inherited environment.
   */
  lemma DefaultSyncAndEnv(environ: seq<string>, es: seq<(string, Value)>, parseDuration: DurationParser)
    ensures DefaultOptions(environ).textDocumentSyncKind == SyncIncremental
    ensures DefaultOptions(environ).env == environ
    ensures Update(DefaultOptions(environ), "noIncrementalSync", Bool(true), parseDuration).textDocumentSyncKind == SyncFull
    ensures Update(DefaultOptions(environ), "noIncrementalSync", Bool(false), parseDuration).textDocumentSyncKind == SyncIncremental
    ensures Update(DefaultOptions(environ), "env", Map(es), parseDuration).env[..|environ|] == environ
  {
    NoIncrementalSyncEffect(DefaultOptions(environ), true, parseDuration);
    NoIncrementalSyncEffect(DefaultOptions(environ), false, parseDuration);
    EnvEffect(DefaultOptions(environ), es, parseDuration);
  }
}
