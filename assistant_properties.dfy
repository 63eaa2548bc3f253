/** What merging settings into a profile promises, alone and after a command-line parse. */
module AssistantProperties {
  import opened Wrappers
  import opened AssistantSettings
  import opened AssistantProfile
  import opened SettingsProperties

  /**
   * Each field is overwritten exactly when its setting is usable (a non-empty string,
   * a number in range) and then takes the setting's value; the name is never touched.
   */
  lemma MergeTakesUsableSettings(p: Profile, s: Options)
    ensures var r := Merge(p, s).profile;
      && r.name == p.name
      && (s.apiKey != "" ==> r.apiKey == s.apiKey) && (s.apiKey == "" ==> r.apiKey == p.apiKey)
      && (s.model != "" ==> r.model == s.model) && (s.model == "" ==> r.model == p.model)
      && (s.instructions != "" ==> r.instructions == s.instructions) && (s.instructions == "" ==> r.instructions == p.instructions)
      && (0.0 <= s.temperature <= 1.0 ==> r.temperature == s.temperature)
      && (!(0.0 <= s.temperature <= 1.0) ==> r.temperature == p.temperature)
      && (1 <= s.maxTokens < TokenLimit ==> r.maxTokens == s.maxTokens)
      && (!(1 <= s.maxTokens < TokenLimit) ==> r.maxTokens == p.maxTokens)
      && (s.promptHistory >= 0 ==> r.promptHistory == s.promptHistory)
      && (s.promptHistory < 0 ==> r.promptHistory == p.promptHistory)
  {
  }

  /** A profile whose numbers are in range stays so, whatever the settings. */
  lemma MergeKeepsRanges(p: Profile, s: Options)
    requires InRange(p)
    ensures InRange(Merge(p, s).profile)
  {
  }

  /** Whether `Save` runs depends on the settings only, not on whether a value actually changes. */
  lemma DirtyIgnoresCurrentValues(p: Profile, q: Profile, s: Options)
    ensures Merge(p, s).dirty == Merge(q, s).dirty
    ensures !Merge(p, s).dirty ==> Merge(p, s).profile == p
  {
  }

  /** Merging the same settings twice is merging them once, and saves again. */
  lemma MergeIdempotent(p: Profile, s: Options)
    ensures Merge(Merge(p, s).profile, s) == Merge(p, s)
  {
  }

  /** The settings' help, list, assistant, session and reset fields are not consulted. */
  lemma MergeIgnoresOtherSettings(p: Profile, s: Options, t: Options)
    requires s.apiKey == t.apiKey && s.model == t.model && s.instructions == t.instructions
    requires s.temperature == t.temperature && s.maxTokens == t.maxTokens && s.promptHistory == t.promptHistory
    ensures Merge(p, s) == Merge(p, t)
  {
  }

  /** With no arguments the settings hold only sentinels: nothing changes and nothing is saved. */
  lemma EmptyCommandLineChangesNothing(p: Profile, parseDouble: string -> Option<real>)
    ensures Merge(p, Parse([], parseDouble).options) == Merged(p, false)
  {
  }

  /**
   * "-history:N" reaches the profile for every N >= 0, 0 included. A negative N
   * overwrites any earlier "-history:" in the settings, so the profile keeps its own value.
   */
  lemma HistoryOptionReachesProfile(p: Profile, args: seq<string>, n: int, parseDouble: string -> Option<real>)
    requires !Parse(args, parseDouble).stopped
    requires Int32Min <= n <= Int32Max
    ensures var r := Merge(p, Parse(args + [ArgHistory + FormatInt(n)], parseDouble).options).profile;
      && (n >= 0 ==> r.promptHistory == n)
      && (n < 0 ==> r.promptHistory == p.promptHistory)
  {
    NumbersTakeTheirValue(args, n, parseDouble);
  }

  /** "-tokens:N" reaches the profile when 1 <= N < 32536; otherwise the profile keeps its own value. */
  lemma TokensOptionReachesProfile(p: Profile, args: seq<string>, n: int, parseDouble: string -> Option<real>)
    requires !Parse(args, parseDouble).stopped
    requires Int32Min <= n <= Int32Max
    ensures var r := Merge(p, Parse(args + [ArgMaxTokens + FormatInt(n)], parseDouble).options).profile;
      && (1 <= n < TokenLimit ==> r.maxTokens == n)
      && (!(1 <= n < TokenLimit) ==> r.maxTokens == p.maxTokens)
  {
    NumbersTakeTheirValue(args, n, parseDouble);
  }

  /**
   * When the parse ran to the end (the only case in which the front end goes on to
   * merge), a profile with in-range numbers keeps them in range, and the profile's
   * name is the one it had.
   */
  lemma CompletedParseMergesSafely(p: Profile, args: seq<string>, parseDouble: string -> Option<real>)
    requires InRange(p)
    requires Parse(args, parseDouble).options.errorMsg == "" && !Parse(args, parseDouble).options.help
    ensures !Parse(args, parseDouble).stopped
    ensures InRange(Merge(p, Parse(args, parseDouble).options).profile)
    ensures Merge(p, Parse(args, parseDouble).options).profile.name == p.name
  {
    StopReason(args, parseDouble);
  }
}
