/** What the command-line parse promises, proved about `AssistantSettings.Parse`. */
module SettingsProperties {
  import opened Wrappers
  import opened Strings
  import opened AssistantSettings

  /** Parsing a concatenation is parsing the second part from where the first left off. */
  lemma {:induction false} ParseFromComposes(p: Progress, a: seq<string>, b: seq<string>, parseDouble: string -> Option<real>)
    ensures ParseFrom(p, a + b, parseDouble) == ParseFrom(ParseFrom(p, a, parseDouble), b, parseDouble)
    decreases |a|
  {
    if p.stopped {
    } else if a == [] {
      assert a + b == b;
    } else {
      assert (a + b)[0] == a[0];
      assert (a + b)[1..] == a[1..] + b;
      ParseFromComposes(Apply(p.options, a[0], parseDouble), a[1..], b, parseDouble);
    }
  }

  /** One more argument is applied to the fields reached so far, unless the parse had stopped. */
  lemma ParseAppend(args: seq<string>, arg: string, parseDouble: string -> Option<real>)
    ensures var q := Parse(args, parseDouble);
            Parse(args + [arg], parseDouble) == if q.stopped then q else Apply(q.options, arg, parseDouble)
  {
    ParseFromComposes(Progress(Defaults(), false), args, [arg], parseDouble);
  }

  /** After "-help" or a bad number nothing further on the command line has any effect. */
  lemma StoppedIgnoresRest(args: seq<string>, rest: seq<string>, parseDouble: string -> Option<real>)
    requires Parse(args, parseDouble).stopped
    ensures Parse(args + rest, parseDouble) == Parse(args, parseDouble)
  {
    ParseFromComposes(Progress(Defaults(), false), args, rest, parseDouble);
  }

  /** An argument that starts with no known prefix is skipped without effect. */
  lemma UnrecognisedIgnored(before: seq<string>, arg: string, after: seq<string>, parseDouble: string -> Option<real>)
    requires Select(arg) == Unrecognised
    ensures Parse(before + [arg] + after, parseDouble) == Parse(before + after, parseDouble)
  {
    var start := Progress(Defaults(), false);
    ParseFromComposes(start, before + [arg], after, parseDouble);
    ParseFromComposes(start, before, [arg], parseDouble);
    ParseFromComposes(start, before, after, parseDouble);
  }

  lemma Leads(p: string, v: string)
    ensures StartsWith(p + v, p)
  {
    assert (p + v)[..|p|] == p;
  }

  lemma Differs(s: string, p: string, i: nat)
    requires i < |s| && i < |p| && s[i] != p[i]
    ensures !StartsWith(s, p)
  {
    if |p| <= |s| {
      assert s[..|p|][i] == s[i];
    }
  }

  lemma SelectsShowHelp(v: string)
    ensures Select(ArgShowHelp + v) == ShowHelp
  {
    Leads(ArgShowHelp, v);
  }

  lemma SelectsLists(v: string)
    ensures Select(ArgLists + v) == Lists
  {
    Leads(ArgLists, v);
    Differs(ArgLists + v, ArgShowHelp, 1);
  }

  lemma SelectsAssistant(v: string)
    ensures Select(ArgAssistant + v) == Assistant
  {
    Leads(ArgAssistant, v);
    Differs(ArgAssistant + v, ArgShowHelp, 1);
    Differs(ArgAssistant + v, ArgLists, 1);
  }

  lemma SelectsApiKey(v: string)
    ensures Select(ArgApiKey + v) == ApiKey
  {
    Leads(ArgApiKey, v);
    Differs(ArgApiKey + v, ArgShowHelp, 1);
    Differs(ArgApiKey + v, ArgLists, 1);
    Differs(ArgApiKey + v, ArgAssistant, 1);
  }

  lemma SelectsInstructions(v: string)
    ensures Select(ArgInstructions + v) == Instructions
  {
    Leads(ArgInstructions, v);
    Differs(ArgInstructions + v, ArgShowHelp, 1);
    Differs(ArgInstructions + v, ArgLists, 1);
    Differs(ArgInstructions + v, ArgAssistant, 1);
    Differs(ArgInstructions + v, ArgApiKey, 1);
  }

  lemma SelectsModel(v: string)
    ensures Select(ArgModel + v) == Model
  {
    Leads(ArgModel, v);
    Differs(ArgModel + v, ArgShowHelp, 1);
    Differs(ArgModel + v, ArgLists, 1);
    Differs(ArgModel + v, ArgAssistant, 1);
    Differs(ArgModel + v, ArgApiKey, 1);
    Differs(ArgModel + v, ArgInstructions, 1);
  }

  lemma SelectsTemperature(v: string)
    ensures Select(ArgTemperature + v) == Temperature
  {
    Leads(ArgTemperature, v);
    Differs(ArgTemperature + v, ArgShowHelp, 1);
    Differs(ArgTemperature + v, ArgLists, 1);
    Differs(ArgTemperature + v, ArgAssistant, 1);
    Differs(ArgTemperature + v, ArgApiKey, 1);
    Differs(ArgTemperature + v, ArgInstructions, 1);
    Differs(ArgTemperature + v, ArgModel, 1);
  }

  lemma SelectsMaxTokens(v: string)
    ensures Select(ArgMaxTokens + v) == MaxTokens
  {
    Leads(ArgMaxTokens, v);
    Differs(ArgMaxTokens + v, ArgShowHelp, 1);
    Differs(ArgMaxTokens + v, ArgLists, 1);
    Differs(ArgMaxTokens + v, ArgAssistant, 1);
    Differs(ArgMaxTokens + v, ArgApiKey, 1);
    Differs(ArgMaxTokens + v, ArgInstructions, 1);
    Differs(ArgMaxTokens + v, ArgModel, 1);
    Differs(ArgMaxTokens + v, ArgTemperature, 2);
  }

  lemma SelectsHistory(v: string)
    ensures Select(ArgHistory + v) == History
  {
    Leads(ArgHistory, v);
    Differs(ArgHistory + v, ArgShowHelp, 2);
    Differs(ArgHistory + v, ArgLists, 1);
    Differs(ArgHistory + v, ArgAssistant, 1);
    Differs(ArgHistory + v, ArgApiKey, 1);
    Differs(ArgHistory + v, ArgInstructions, 1);
    Differs(ArgHistory + v, ArgModel, 1);
    Differs(ArgHistory + v, ArgTemperature, 1);
    Differs(ArgHistory + v, ArgMaxTokens, 1);
  }

  lemma SelectsLoadSession(v: string)
    ensures Select(ArgLoadSession + v) == LoadSession
  {
    Leads(ArgLoadSession, v);
    Differs(ArgLoadSession + v, ArgShowHelp, 1);
    Differs(ArgLoadSession + v, ArgLists, 1);
    Differs(ArgLoadSession + v, ArgAssistant, 1);
    Differs(ArgLoadSession + v, ArgApiKey, 1);
    Differs(ArgLoadSession + v, ArgInstructions, 1);
    Differs(ArgLoadSession + v, ArgModel, 1);
    Differs(ArgLoadSession + v, ArgTemperature, 1);
    Differs(ArgLoadSession + v, ArgMaxTokens, 1);
    Differs(ArgLoadSession + v, ArgHistory, 1);
  }

  lemma SelectsReset(v: string)
    ensures Select(ArgReset + v) == Reset
  {
    Leads(ArgReset, v);
    Differs(ArgReset + v, ArgShowHelp, 1);
    Differs(ArgReset + v, ArgLists, 1);
    Differs(ArgReset + v, ArgAssistant, 1);
    Differs(ArgReset + v, ArgApiKey, 1);
    Differs(ArgReset + v, ArgInstructions, 1);
    Differs(ArgReset + v, ArgModel, 1);
    Differs(ArgReset + v, ArgTemperature, 1);
    Differs(ArgReset + v, ArgMaxTokens, 1);
    Differs(ArgReset + v, ArgHistory, 1);
    Differs(ArgReset + v, ArgLoadSession, 1);
  }

  /** Each option's own prefix selects it, whatever follows: no prefix is shadowed by an earlier one. */
  lemma PrefixSelects(v: string)
    ensures Select(ArgShowHelp + v) == ShowHelp
    ensures Select(ArgLists + v) == Lists
    ensures Select(ArgAssistant + v) == Assistant
    ensures Select(ArgApiKey + v) == ApiKey
    ensures Select(ArgInstructions + v) == Instructions
    ensures Select(ArgModel + v) == Model
    ensures Select(ArgTemperature + v) == Temperature
    ensures Select(ArgMaxTokens + v) == MaxTokens
    ensures Select(ArgHistory + v) == History
    ensures Select(ArgLoadSession + v) == LoadSession
    ensures Select(ArgReset + v) == Reset
  {
    SelectsShowHelp(v);
    SelectsLists(v);
    SelectsAssistant(v);
    SelectsApiKey(v);
    SelectsInstructions(v);
    SelectsModel(v);
    SelectsTemperature(v);
    SelectsMaxTokens(v);
    SelectsHistory(v);
    SelectsLoadSession(v);
    SelectsReset(v);
  }

  lemma Remainder(p: string, v: string)
    ensures (p + v)[|p|..] == v
  {
  }

  /** What "-tokens:" does with the text after it. */
  lemma ApplyMaxTokens(o: Options, v: string, parseDouble: string -> Option<real>)
    ensures Apply(o, ArgMaxTokens + v, parseDouble)
         == match TryParseInt32(v)
            case Some(n) => Progress(o.(maxTokens := n), false)
            case None => Progress(o.(maxTokens := 0, errorMsg := TokensError), true)
  {
    SelectsMaxTokens(v);
    Remainder(ArgMaxTokens, v);
  }

  /** What "-history:" does with the text after it. */
  lemma ApplyHistory(o: Options, v: string, parseDouble: string -> Option<real>)
    ensures Apply(o, ArgHistory + v, parseDouble)
         == match TryParseInt32(v)
            case Some(n) => Progress(o.(promptHistory := n), false)
            case None => Progress(o.(promptHistory := 0, errorMsg := HistoryError), true)
  {
    SelectsHistory(v);
    Remainder(ArgHistory, v);
  }

  /** What "-temp:" does with the text after it. */
  lemma ApplyTemperature(o: Options, v: string, parseDouble: string -> Option<real>)
    ensures Apply(o, ArgTemperature + v, parseDouble)
         == match parseDouble(v)
            case Some(t) => Progress(o.(temperature := t), false)
            case None => Progress(o.(temperature := 0.0, errorMsg := TemperatureError), true)
  {
    SelectsTemperature(v);
    Remainder(ArgTemperature, v);
  }

  /** "-help" sets the flag and ends the parse: later arguments are not looked at. */
  lemma HelpStops(before: seq<string>, v: string, after: seq<string>, parseDouble: string -> Option<real>)
    requires !Parse(before, parseDouble).stopped
    ensures Parse(before + [ArgShowHelp + v] + after, parseDouble)
         == Progress(Parse(before, parseDouble).options.(help := true), true)
  {
    SelectsShowHelp(v);
    ParseAppend(before, ArgShowHelp + v, parseDouble);
    StoppedIgnoresRest(before + [ArgShowHelp + v], after, parseDouble);
  }

  /** A text option takes everything after its prefix, verbatim, and changes no other field. */
  lemma TextOptionsTakeTheirValue(args: seq<string>, v: string, parseDouble: string -> Option<real>)
    requires !Parse(args, parseDouble).stopped
    ensures var o := Parse(args, parseDouble).options;
      && Parse(args + [ArgAssistant + v], parseDouble) == Progress(o.(assistant := v), false)
      && Parse(args + [ArgApiKey + v], parseDouble) == Progress(o.(apiKey := v), false)
      && Parse(args + [ArgInstructions + v], parseDouble) == Progress(o.(instructions := v), false)
      && Parse(args + [ArgModel + v], parseDouble) == Progress(o.(model := v), false)
      && Parse(args + [ArgLoadSession + v], parseDouble) == Progress(o.(session := v), false)
  {
    var o := Parse(args, parseDouble).options;
    assert Parse(args + [ArgAssistant + v], parseDouble) == Progress(o.(assistant := v), false) by {
      SelectsAssistant(v);
      ParseAppend(args, ArgAssistant + v, parseDouble);
      Remainder(ArgAssistant, v);
    }
    assert Parse(args + [ArgApiKey + v], parseDouble) == Progress(o.(apiKey := v), false) by {
      SelectsApiKey(v);
      ParseAppend(args, ArgApiKey + v, parseDouble);
      Remainder(ArgApiKey, v);
    }
    assert Parse(args + [ArgInstructions + v], parseDouble) == Progress(o.(instructions := v), false) by {
      SelectsInstructions(v);
      ParseAppend(args, ArgInstructions + v, parseDouble);
      Remainder(ArgInstructions, v);
    }
    assert Parse(args + [ArgModel + v], parseDouble) == Progress(o.(model := v), false) by {
      SelectsModel(v);
      ParseAppend(args, ArgModel + v, parseDouble);
      Remainder(ArgModel, v);
    }
    assert Parse(args + [ArgLoadSession + v], parseDouble) == Progress(o.(session := v), false) by {
      SelectsLoadSession(v);
      ParseAppend(args, ArgLoadSession + v, parseDouble);
      Remainder(ArgLoadSession, v);
    }
  }

  /** "-lists" and "-reset" set their flags whatever follows the prefix, and do not stop the parse. */
  lemma FlagsMatchByPrefix(args: seq<string>, v: string, parseDouble: string -> Option<real>)
    requires !Parse(args, parseDouble).stopped
    ensures var o := Parse(args, parseDouble).options;
      && Parse(args + [ArgLists + v], parseDouble) == Progress(o.(lists := true), false)
      && Parse(args + [ArgReset + v], parseDouble) == Progress(o.(reset := true), false)
  {
    SelectsLists(v);
    ParseAppend(args, ArgLists + v, parseDouble);
    SelectsReset(v);
    ParseAppend(args, ArgReset + v, parseDouble);
  }

  /** A 32-bit number written after "-tokens:" or "-history:" lands in its field unchanged. */
  lemma NumbersTakeTheirValue(args: seq<string>, n: int, parseDouble: string -> Option<real>)
    requires !Parse(args, parseDouble).stopped
    requires Int32Min <= n <= Int32Max
    ensures var o := Parse(args, parseDouble).options;
      && Parse(args + [ArgMaxTokens + FormatInt(n)], parseDouble) == Progress(o.(maxTokens := n), false)
      && Parse(args + [ArgHistory + FormatInt(n)], parseDouble) == Progress(o.(promptHistory := n), false)
  {
    var o := Parse(args, parseDouble).options;
    var digits := FormatInt(n);
    ParseFormatRoundTrip(n);
    assert Parse(args + [ArgMaxTokens + digits], parseDouble) == Progress(o.(maxTokens := n), false) by {
      ParseAppend(args, ArgMaxTokens + digits, parseDouble);
      ApplyMaxTokens(o, digits, parseDouble);
    }
    assert Parse(args + [ArgHistory + digits], parseDouble) == Progress(o.(promptHistory := n), false) by {
      ParseAppend(args, ArgHistory + digits, parseDouble);
      ApplyHistory(o, digits, parseDouble);
    }
  }

  /**
   * A numeric value that does not parse zeroes its field, records the option's error
   * message and ends the parse.
   */
  lemma InvalidNumberStops(args: seq<string>, v: string, parseDouble: string -> Option<real>)
    requires !Parse(args, parseDouble).stopped
    ensures var o := Parse(args, parseDouble).options;
      && (parseDouble(v).None? ==>
            Parse(args + [ArgTemperature + v], parseDouble) == Progress(o.(temperature := 0.0, errorMsg := TemperatureError), true))
      && (TryParseInt32(v).None? ==>
            Parse(args + [ArgMaxTokens + v], parseDouble) == Progress(o.(maxTokens := 0, errorMsg := TokensError), true))
      && (TryParseInt32(v).None? ==>
            Parse(args + [ArgHistory + v], parseDouble) == Progress(o.(promptHistory := 0, errorMsg := HistoryError), true))
  {
    var o := Parse(args, parseDouble).options;
    if parseDouble(v).None? {
      ParseAppend(args, ArgTemperature + v, parseDouble);
      ApplyTemperature(o, v, parseDouble);
    }
    if TryParseInt32(v).None? {
      assert Parse(args + [ArgMaxTokens + v], parseDouble) == Progress(o.(maxTokens := 0, errorMsg := TokensError), true) by {
        ParseAppend(args, ArgMaxTokens + v, parseDouble);
        ApplyMaxTokens(o, v, parseDouble);
      }
      ParseAppend(args, ArgHistory + v, parseDouble);
      ApplyHistory(o, v, parseDouble);
    }
  }

  /** The options the other front end advertises but this parser does not know are skipped. */
  lemma ProfileAndMessagesIgnored(before: seq<string>, v: string, after: seq<string>, parseDouble: string -> Option<real>)
    ensures Parse(before + ["-profile:" + v] + after, parseDouble) == Parse(before + after, parseDouble)
    ensures Parse(before + ["-messages:" + v] + after, parseDouble) == Parse(before + after, parseDouble)
  {
    assert Select("-profile:" + v) == Unrecognised by {
      var a := "-profile:" + v;
      assert a[1] == 'p';
      Differs(a, ArgShowHelp, 1);
      Differs(a, ArgLists, 1);
      Differs(a, ArgAssistant, 1);
      Differs(a, ArgApiKey, 1);
      Differs(a, ArgInstructions, 1);
      Differs(a, ArgModel, 1);
      Differs(a, ArgTemperature, 1);
      Differs(a, ArgMaxTokens, 1);
      Differs(a, ArgHistory, 1);
      Differs(a, ArgLoadSession, 1);
      Differs(a, ArgReset, 1);
    }
    assert Select("-messages:" + v) == Unrecognised by {
      var a := "-messages:" + v;
      assert a[1] == 'm' && a[2] == 'e';
      Differs(a, ArgShowHelp, 1);
      Differs(a, ArgLists, 1);
      Differs(a, ArgAssistant, 1);
      Differs(a, ArgApiKey, 1);
      Differs(a, ArgInstructions, 1);
      Differs(a, ArgModel, 2);
      Differs(a, ArgTemperature, 1);
      Differs(a, ArgMaxTokens, 1);
      Differs(a, ArgHistory, 1);
      Differs(a, ArgLoadSession, 1);
      Differs(a, ArgReset, 1);
    }
    UnrecognisedIgnored(before, "-profile:" + v, after, parseDouble);
    UnrecognisedIgnored(before, "-messages:" + v, after, parseDouble);
  }

  /** Why a parse stopped: the help flag or one of the three error messages, never both. */
  ghost predicate StopExplained(p: Progress) {
    && (p.stopped <==> p.options.help || p.options.errorMsg != "")
    && !(p.options.help && p.options.errorMsg != "")
    && p.options.errorMsg in {"", TemperatureError, TokensError, HistoryError}
  }

  /** One argument applied to options that have not stopped explains its own stop. */
  lemma ApplyExplainsStop(o: Options, arg: string, parseDouble: string -> Option<real>)
    requires !o.help && o.errorMsg == ""
    ensures StopExplained(Apply(o, arg, parseDouble))
  {
    SelectedExplainsStop(o, Select(arg), arg, parseDouble);
  }

  lemma SelectedExplainsStop(o: Options, sel: Selector, arg: string, parseDouble: string -> Option<real>)
    requires PrefixLength(sel) <= |arg|
    requires !o.help && o.errorMsg == ""
    ensures StopExplained(ApplySelected(o, sel, arg, parseDouble))
  {
  }

  lemma {:induction false} ParseFromExplainsStop(p: Progress, args: seq<string>, parseDouble: string -> Option<real>)
    requires StopExplained(p)
    ensures StopExplained(ParseFrom(p, args, parseDouble))
    decreases |args|
  {
    if !p.stopped && args != [] {
      ApplyExplainsStop(p.options, args[0], parseDouble);
      ParseFromExplainsStop(Apply(p.options, args[0], parseDouble), args[1..], parseDouble);
    }
  }

  /**
   * The constructor returns early exactly when "-help" was given or a number was
   * invalid, and `ErrorMsg` is empty or one of the three messages.
   */
  lemma StopReason(args: seq<string>, parseDouble: string -> Option<real>)
    ensures var q := Parse(args, parseDouble);
      && (q.stopped <==> q.options.help || q.options.errorMsg != "")
      && !(q.options.help && q.options.errorMsg != "")
      && q.options.errorMsg in {"", TemperatureError, TokensError, HistoryError}
  {
    ParseFromExplainsStop(Progress(Defaults(), false), args, parseDouble);
  }
}
