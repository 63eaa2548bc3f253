/**
 * The command-line parser of the assistant front end: each argument is matched
 * against a fixed list of prefixes, first match wins; "-help" and a numeric value
 * that does not parse stop the parse, and a later option overwrites an earlier one.
 *
 * `int.TryParse` is modelled (optional white space, optional sign, ASCII digits,
 * 32-bit range); `double.TryParse` is a function-valued input, `parseDouble`.
 */
module AssistantSettings {
  import opened Wrappers
  import opened Strings

  const ArgShowHelp: string := "-help"
  const ArgLists: string := "-lists"
  const ArgAssistant: string := "-assistant:"
  const ArgApiKey: string := "-key:"
  const ArgInstructions: string := "-instructions:"
  const ArgModel: string := "-model:"
  const ArgTemperature: string := "-temp:"
  const ArgMaxTokens: string := "-tokens:"
  const ArgHistory: string := "-history:"
  const ArgLoadSession: string := "-session:"
  const ArgReset: string := "-reset"

  const TemperatureError: string := "Temperature argument is invalid"
  const TokensError: string := "Tokens argument is invalid"
  const HistoryError: string := "Max messages argument is invalid"

  // ---------------------------------------------------------------------------
  // int.TryParse
  // ---------------------------------------------------------------------------

  const Int32Min: int := -0x8000_0000
  const Int32Max: int := 0x7FFF_FFFF

  predicate IsDigit(c: char) {
    '0' <= c <= '9'
  }

  predicate AllDigits(s: string) {
    forall i :: 0 <= i < |s| ==> IsDigit(s[i])
  }

  /** The value of a string of decimal digits, most significant first. */
  function DigitsValue(ds: string): nat
    requires AllDigits(ds)
  {
    if ds == [] then 0 else DigitsValue(ds[..|ds| - 1]) * 10 + (ds[|ds| - 1] as int - '0' as int)
  }

  /**
   * `int.TryParse(s, out n)` with the default number style: white space around an
   * optional sign and at least one ASCII digit; None when that does not fit 32 bits.
   */
  function TryParseInt32(s: string): (r: Option<int>)
    ensures r.Some? ==> Int32Min <= r.value <= Int32Max
  {
    var t := Trim(s);
    var signed := |t| > 0 && (t[0] == '-' || t[0] == '+');
    var digits := if signed then t[1..] else t;
    if digits == [] || !AllDigits(digits) then None
    else
      var magnitude: int := DigitsValue(digits);
      var value := if signed && t[0] == '-' then -magnitude else magnitude;
      if Int32Min <= value <= Int32Max then Some(value) else None
  }

  function DigitChar(d: nat): char
    requires d < 10
  {
    ('0' as int + d) as char
  }

  /** The decimal digits of `m`, without leading zeros. */
  function Digits(m: nat): string {
    if m < 10 then [DigitChar(m)] else Digits(m / 10) + [DigitChar(m % 10)]
  }

  /** `n.ToString()` in the invariant culture. */
  function FormatInt(n: int): string {
    (if n < 0 then "-" else "") + Digits(if n < 0 then -n else n)
  }

  lemma {:induction false} DigitsRoundTrip(m: nat)
    ensures Digits(m) != [] && AllDigits(Digits(m))
    ensures DigitsValue(Digits(m)) == m
  {
    if m >= 10 {
      DigitsRoundTrip(m / 10);
      var ds := Digits(m);
      assert ds[..|ds| - 1] == Digits(m / 10);
    }
  }

  /** Every 32-bit integer written in decimal parses back to itself. */
  lemma ParseFormatRoundTrip(n: int)
    requires Int32Min <= n <= Int32Max
    ensures TryParseInt32(FormatInt(n)) == Some(n)
  {
    var m := if n < 0 then -n else n;
    DigitsRoundTrip(m);
    var s := FormatInt(n);
    assert !IsWhite(s[0]) && !IsWhite(s[|s| - 1]);
    assert TrimStart(s) == s;
    assert TrimEnd(s) == s;
    assert Trim(s) == s;
    if n < 0 {
      assert s[0] == '-' && s[1..] == Digits(m);
      assert DigitsValue(s[1..]) == m;
    } else {
      assert s == Digits(m);
    }
  }

  // ---------------------------------------------------------------------------
  // The parse, as a fold over the arguments
  // ---------------------------------------------------------------------------

  /** The public fields of `Settings`. */
  datatype Options = Options(
    help: bool, lists: bool,
    assistant: string, apiKey: string, instructions: string, model: string,
    temperature: real, maxTokens: int, promptHistory: int,
    session: string, reset: bool, errorMsg: string)

  /** The field initialisers: flags false, strings empty, numbers at the sentinel -1. */
  function Defaults(): Options {
    Options(false, false, "", "", "", "", -1.0, -1, -1, "", false, "")
  }

  /** The fields after some arguments, and whether the constructor has returned. */
  datatype Progress = Progress(options: Options, stopped: bool)

  /** The option an argument selects: the first prefix it starts with, in the constructor's order. */
  datatype Selector =
    | ShowHelp | Lists | Assistant | ApiKey | Instructions | Model
    | Temperature | MaxTokens | History | LoadSession | Reset | Unrecognised

  /** How many characters of the argument the selected option's prefix covers. */
  function PrefixLength(sel: Selector): nat {
    match sel
    case ShowHelp => |ArgShowHelp|
    case Lists => |ArgLists|
    case Assistant => |ArgAssistant|
    case ApiKey => |ArgApiKey|
    case Instructions => |ArgInstructions|
    case Model => |ArgModel|
    case Temperature => |ArgTemperature|
    case MaxTokens => |ArgMaxTokens|
    case History => |ArgHistory|
    case LoadSession => |ArgLoadSession|
    case Reset => |ArgReset|
    case Unrecognised => 0
  }

  function Select(arg: string): (sel: Selector)
    ensures PrefixLength(sel) <= |arg|
  {
    if StartsWith(arg, ArgShowHelp) then ShowHelp
    else if StartsWith(arg, ArgLists) then Lists
    else if StartsWith(arg, ArgAssistant) then Assistant
    else if StartsWith(arg, ArgApiKey) then ApiKey
    else if StartsWith(arg, ArgInstructions) then Instructions
    else if StartsWith(arg, ArgModel) then Model
    else if StartsWith(arg, ArgTemperature) then Temperature
    else if StartsWith(arg, ArgMaxTokens) then MaxTokens
    else if StartsWith(arg, ArgHistory) then History
    else if StartsWith(arg, ArgLoadSession) then LoadSession
    else if StartsWith(arg, ArgReset) then Reset
    else Unrecognised
  }

  /** One argument applied to the fields; `stopped` when the constructor returns after it. */
  function Apply(o: Options, arg: string, parseDouble: string -> Option<real>): Progress {
    ApplySelected(o, Select(arg), arg, parseDouble)
  }

  /** The selected option applied to the fields, given the text after its prefix. */
  function ApplySelected(o: Options, sel: Selector, arg: string, parseDouble: string -> Option<real>): Progress
    requires PrefixLength(sel) <= |arg|
  {
    match sel
    case ShowHelp => Progress(o.(help := true), true)
    case Lists => Progress(o.(lists := true), false)
    case Assistant => Progress(o.(assistant := arg[|ArgAssistant|..]), false)
    case ApiKey => Progress(o.(apiKey := arg[|ArgApiKey|..]), false)
    case Instructions => Progress(o.(instructions := arg[|ArgInstructions|..]), false)
    case Model => Progress(o.(model := arg[|ArgModel|..]), false)
    case Temperature =>
      (match parseDouble(arg[|ArgTemperature|..])
       case Some(t) => Progress(o.(temperature := t), false)
       case None => Progress(o.(temperature := 0.0, errorMsg := TemperatureError), true))
    case MaxTokens =>
      (match TryParseInt32(arg[|ArgMaxTokens|..])
       case Some(n) => Progress(o.(maxTokens := n), false)
       case None => Progress(o.(maxTokens := 0, errorMsg := TokensError), true))
    case History =>
      (match TryParseInt32(arg[|ArgHistory|..])
       case Some(n) => Progress(o.(promptHistory := n), false)
       case None => Progress(o.(promptHistory := 0, errorMsg := HistoryError), true))
    case LoadSession => Progress(o.(session := arg[|ArgLoadSession|..]), false)
    case Reset => Progress(o.(reset := true), false)
    case Unrecognised => Progress(o, false)
  }

  /** The remaining arguments applied in order, until one stops the parse. */
  function ParseFrom(p: Progress, args: seq<string>, parseDouble: string -> Option<real>): Progress
    decreases |args|
  {
    if p.stopped || args == [] then p
    else ParseFrom(Apply(p.options, args[0], parseDouble), args[1..], parseDouble)
  }

  function Parse(args: seq<string>, parseDouble: string -> Option<real>): Progress {
    ParseFrom(Progress(Defaults(), false), args, parseDouble)
  }

  class Settings {
    var Help: bool
    var Lists: bool
    var Assistant: string
    var ApiKey: string
    var Instructions: string
    var Model: string
    var Temperature: real
    var MaxTokens: int
    var PromptHistory: int
    var Session: string
    var Reset: bool
    var ErrorMsg: string

    function Snapshot(): Options
      reads this
    {
      Options(Help, Lists, Assistant, ApiKey, Instructions, Model, Temperature, MaxTokens, PromptHistory, Session, Reset, ErrorMsg)
    }

    /** Parses the command line argument by argument; see `Parse`. */
    constructor (cmdLineArguments: seq<string>, parseDouble: string -> Option<real>)
      ensures Snapshot() == Parse(cmdLineArguments, parseDouble).options
    {
      Help, Lists := false, false;
      Assistant, ApiKey, Instructions, Model := "", "", "", "";
      Temperature, MaxTokens, PromptHistory := -1.0, -1, -1;
      Session, Reset, ErrorMsg := "", false, "";
      new;
      if |cmdLineArguments| == 0 {
        return;
      }
      var i := 0;
      while i < |cmdLineArguments|
        invariant 0 <= i <= |cmdLineArguments|
        invariant ParseFrom(Progress(Snapshot(), false), cmdLineArguments[i..], parseDouble) == Parse(cmdLineArguments, parseDouble)
      {
        assert cmdLineArguments[i..][1..] == cmdLineArguments[i + 1..];
        var stop := ApplyArgument(Select(cmdLineArguments[i]), cmdLineArguments[i], parseDouble);
        if stop {
          return;
        }
        i := i + 1;
      }
    }

    /**
     * The body of the constructor's loop for one argument, once the branch `sel` is
     * chosen by the argument's prefix; true when the constructor returns.
     */
    method ApplyArgument(sel: Selector, cmdLineArg: string, parseDouble: string -> Option<real>) returns (stop: bool)
      requires PrefixLength(sel) <= |cmdLineArg|
      modifies this
      ensures Progress(Snapshot(), stop) == ApplySelected(old(Snapshot()), sel, cmdLineArg, parseDouble)
    {
      stop := false;
      match sel {
        case ShowHelp =>
          Help := true;
          stop := true;
        case Lists =>
          Lists := true;
        case Assistant | ApiKey | Instructions | Model | LoadSession =>
          ApplyText(sel, cmdLineArg);
        case Temperature | MaxTokens | History =>
          stop := ApplyNumber(sel, cmdLineArg, parseDouble);
        case Reset =>
          Reset := true;
        case Unrecognised =>
      }
    }

    /** The branches that store the text after the prefix. */
    method ApplyText(sel: Selector, cmdLineArg: string)
      requires sel.Assistant? || sel.ApiKey? || sel.Instructions? || sel.Model? || sel.LoadSession?
      requires PrefixLength(sel) <= |cmdLineArg|
      modifies this
      ensures forall parseDouble :: ApplySelected(old(Snapshot()), sel, cmdLineArg, parseDouble) == Progress(Snapshot(), false)
    {
      if sel.Assistant? {
        Assistant := cmdLineArg[|ArgAssistant|..];
      } else if sel.ApiKey? {
        ApiKey := cmdLineArg[|ArgApiKey|..];
      } else if sel.Instructions? {
        Instructions := cmdLineArg[|ArgInstructions|..];
      } else if sel.Model? {
        Model := cmdLineArg[|ArgModel|..];
      } else {
        Session := cmdLineArg[|ArgLoadSession|..];
      }
    }

    /** The branches that parse a number; a value that does not parse sets the error and ends the parse. */
    method ApplyNumber(sel: Selector, cmdLineArg: string, parseDouble: string -> Option<real>) returns (stop: bool)
      requires sel.Temperature? || sel.MaxTokens? || sel.History?
      requires PrefixLength(sel) <= |cmdLineArg|
      modifies this
      ensures Progress(Snapshot(), stop) == ApplySelected(old(Snapshot()), sel, cmdLineArg, parseDouble)
    {
      stop := false;
      if sel.Temperature? {
        var parsed := parseDouble(cmdLineArg[|ArgTemperature|..]);
        Temperature := parsed.GetOr(0.0);
        if parsed.None? {
          ErrorMsg := TemperatureError;
          stop := true;
        }
      } else if sel.MaxTokens? {
        var parsed := TryParseInt32(cmdLineArg[|ArgMaxTokens|..]);
        MaxTokens := parsed.GetOr(0);
        if parsed.None? {
          ErrorMsg := TokensError;
          stop := true;
        }
      } else {
        var parsed := TryParseInt32(cmdLineArg[|ArgHistory|..]);
        PromptHistory := parsed.GetOr(0);
        if parsed.None? {
          ErrorMsg := HistoryError;
          stop := true;
        }
      }
    }
  }
}
